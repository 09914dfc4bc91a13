/** The server configuration (src/config.rs) and what its validation guarantees to everybody else. */
module Config {
  import opened Common
  import Keepalive
  import opened RoomCodes
  import opened Players
  import Rooms

  datatype VariableConfig = VariableConfig(
    maxMessageSize: nat,
    maxPayloadSize: nat,
    maxPlayersPerRoom: nat,
    maxRooms: nat,
    playerQueueCapacity: nat,
    maxMessageCount: nat,
    joinRoomTimeLimitSecs: nat,
    pingIntervalSecs: nat,
    responseTimeLimitSecs: nat,
    roomTimeLimitMins: nat)

  datatype Key =
    | MaxMessageSize | MaxPayloadSize | MaxPlayersPerRoom | MaxRooms | PlayerQueueCapacity | MaxMessageCount
    | JoinRoomTimeLimit | PingInterval | ResponseTimeLimit | RoomTimeLimit

  datatype ConfigError = OutOfRange(key: Key) | GreaterOrEqual(key1: Key, key2: Key)

  function Value(c: VariableConfig, key: Key): nat {
    match key
    case MaxMessageSize => c.maxMessageSize
    case MaxPayloadSize => c.maxPayloadSize
    case MaxPlayersPerRoom => c.maxPlayersPerRoom
    case MaxRooms => c.maxRooms
    case PlayerQueueCapacity => c.playerQueueCapacity
    case MaxMessageCount => c.maxMessageCount
    case JoinRoomTimeLimit => c.joinRoomTimeLimitSecs
    case PingInterval => c.pingIntervalSecs
    case ResponseTimeLimit => c.responseTimeLimitSecs
    case RoomTimeLimit => c.roomTimeLimitMins
  }

  /** The ranges, in the order they are checked. */
  const RANGES: seq<(Key, nat, nat)> := [
    (MaxMessageSize, 100, 100_000_000),
    (MaxPayloadSize, 100, 100_000_000),
    (MaxPlayersPerRoom, 1, 100),
    (MaxRooms, 1, 400_000),
    (PlayerQueueCapacity, 1, 10_000),
    (MaxMessageCount, 5, 100),
    (JoinRoomTimeLimit, 1, 60),
    (PingInterval, 1, 60),
    (ResponseTimeLimit, 5, 120),
    (RoomTimeLimit, 1, 1440)]

  /** The orderings, checked after the ranges. */
  const ORDERINGS: seq<(Key, Key)> := [
    (MaxPayloadSize, MaxMessageSize),
    (JoinRoomTimeLimit, PingInterval),
    (PingInterval, ResponseTimeLimit)]

  predicate InRange(c: VariableConfig, range: (Key, nat, nat)) {
    range.1 <= Value(c, range.0) <= range.2
  }

  predicate InOrder(c: VariableConfig, ordering: (Key, Key)) {
    Value(c, ordering.0) < Value(c, ordering.1)
  }

  /** The chain of checks; the first that fails is reported. */
  function Validate(c: VariableConfig): Result<(), ConfigError> {
    if !(100 <= c.maxMessageSize <= 100_000_000) then Err(OutOfRange(MaxMessageSize))
    else if !(100 <= c.maxPayloadSize <= 100_000_000) then Err(OutOfRange(MaxPayloadSize))
    else if !(1 <= c.maxPlayersPerRoom <= 100) then Err(OutOfRange(MaxPlayersPerRoom))
    else if !(1 <= c.maxRooms <= 400_000) then Err(OutOfRange(MaxRooms))
    else if !(1 <= c.playerQueueCapacity <= 10_000) then Err(OutOfRange(PlayerQueueCapacity))
    else if !(5 <= c.maxMessageCount <= 100) then Err(OutOfRange(MaxMessageCount))
    else if !(1 <= c.joinRoomTimeLimitSecs <= 60) then Err(OutOfRange(JoinRoomTimeLimit))
    else if !(1 <= c.pingIntervalSecs <= 60) then Err(OutOfRange(PingInterval))
    else if !(5 <= c.responseTimeLimitSecs <= 120) then Err(OutOfRange(ResponseTimeLimit))
    else if !(1 <= c.roomTimeLimitMins <= 1440) then Err(OutOfRange(RoomTimeLimit))
    else if c.maxPayloadSize >= c.maxMessageSize then Err(GreaterOrEqual(MaxPayloadSize, MaxMessageSize))
    else if c.joinRoomTimeLimitSecs >= c.pingIntervalSecs then Err(GreaterOrEqual(JoinRoomTimeLimit, PingInterval))
    else if c.pingIntervalSecs >= c.responseTimeLimitSecs then Err(GreaterOrEqual(PingInterval, ResponseTimeLimit))
    else Ok(())
  }

  /** The tables say what the chain checks. */
  lemma TablesMatch(c: VariableConfig)
    ensures InRange(c, RANGES[0]) <==> 100 <= c.maxMessageSize <= 100_000_000
    ensures InRange(c, RANGES[1]) <==> 100 <= c.maxPayloadSize <= 100_000_000
    ensures InRange(c, RANGES[2]) <==> 1 <= c.maxPlayersPerRoom <= 100
    ensures InRange(c, RANGES[3]) <==> 1 <= c.maxRooms <= 400_000
    ensures InRange(c, RANGES[4]) <==> 1 <= c.playerQueueCapacity <= 10_000
    ensures InRange(c, RANGES[5]) <==> 5 <= c.maxMessageCount <= 100
    ensures InRange(c, RANGES[6]) <==> 1 <= c.joinRoomTimeLimitSecs <= 60
    ensures InRange(c, RANGES[7]) <==> 1 <= c.pingIntervalSecs <= 60
    ensures InRange(c, RANGES[8]) <==> 5 <= c.responseTimeLimitSecs <= 120
    ensures InRange(c, RANGES[9]) <==> 1 <= c.roomTimeLimitMins <= 1440
    ensures InOrder(c, ORDERINGS[0]) <==> c.maxPayloadSize < c.maxMessageSize
    ensures InOrder(c, ORDERINGS[1]) <==> c.joinRoomTimeLimitSecs < c.pingIntervalSecs
    ensures InOrder(c, ORDERINGS[2]) <==> c.pingIntervalSecs < c.responseTimeLimitSecs
  {
  }

  ghost predicate Valid(c: VariableConfig) {
    && (forall i :: 0 <= i < |RANGES| ==> InRange(c, RANGES[i]))
    && (forall i :: 0 <= i < |ORDERINGS| ==> InOrder(c, ORDERINGS[i]))
  }

  /** Exactly the configs that meet every range and every ordering are accepted. */
  lemma ValidateIsExact(c: VariableConfig)
    ensures Validate(c).Ok? <==> Valid(c)
  {
    TablesMatch(c);
    if Valid(c) {
      assert InRange(c, RANGES[0]) && InRange(c, RANGES[1]) && InRange(c, RANGES[2]) && InRange(c, RANGES[3]);
      assert InRange(c, RANGES[4]) && InRange(c, RANGES[5]) && InRange(c, RANGES[6]) && InRange(c, RANGES[7]);
      assert InRange(c, RANGES[8]) && InRange(c, RANGES[9]);
      assert InOrder(c, ORDERINGS[0]) && InOrder(c, ORDERINGS[1]) && InOrder(c, ORDERINGS[2]);
    }
  }

  /** What a room reads; its clock counts seconds. */
  function LimitsOf(c: VariableConfig): Rooms.Limits {
    Rooms.Limits(c.maxPlayersPerRoom, c.maxMessageCount, 60 * c.roomTimeLimitMins)
  }

  /** A validated config is one the room, the keepalive and the room codes can rely on. */
  lemma ValidIsEnough(c: VariableConfig)
    requires Validate(c).Ok?
    ensures Rooms.ValidLimits(LimitsOf(c))
    ensures Keepalive.ValidTimes(c.pingIntervalSecs, c.responseTimeLimitSecs)
    ensures 1 <= c.maxRooms <= 400_000 && 1 <= c.playerQueueCapacity <= 10_000
    ensures c.joinRoomTimeLimitSecs < c.responseTimeLimitSecs && c.maxPayloadSize < c.maxMessageSize
  {
  }

  predicate FirstOutOfRange(c: VariableConfig, i: nat)
    requires i < |RANGES|
  {
    !InRange(c, RANGES[i]) && forall j :: 0 <= j < i ==> InRange(c, RANGES[j])
  }

  predicate FirstOutOfOrder(c: VariableConfig, i: nat)
    requires i < |ORDERINGS|
  {
    !InOrder(c, ORDERINGS[i]) && forall j :: 0 <= j < i ==> InOrder(c, ORDERINGS[j])
  }

  lemma RangeIsReported(c: VariableConfig, i: nat)
    requires i < |RANGES| && FirstOutOfRange(c, i)
    ensures Validate(c) == Err(OutOfRange(RANGES[i].0))
  {
    TablesMatch(c);
    assert forall j :: 0 <= j < i ==> InRange(c, RANGES[j]);
  }

  lemma OrderingIsReported(c: VariableConfig, i: nat)
    requires i < |ORDERINGS| && FirstOutOfOrder(c, i) && forall j :: 0 <= j < |RANGES| ==> InRange(c, RANGES[j])
    ensures Validate(c) == Err(GreaterOrEqual(ORDERINGS[i].0, ORDERINGS[i].1))
  {
    TablesMatch(c);
    assert InRange(c, RANGES[0]) && InRange(c, RANGES[1]) && InRange(c, RANGES[2]) && InRange(c, RANGES[3]);
    assert InRange(c, RANGES[4]) && InRange(c, RANGES[5]) && InRange(c, RANGES[6]) && InRange(c, RANGES[7]);
    assert InRange(c, RANGES[8]) && InRange(c, RANGES[9]);
  }

  /** What is reported is the first range that fails, or, if none does, the first ordering. */
  lemma FirstFailureIsReported(c: VariableConfig)
    requires Validate(c).Err?
    ensures if forall j :: 0 <= j < |RANGES| ==> InRange(c, RANGES[j])
            then exists i: nat :: i < |ORDERINGS| && FirstOutOfOrder(c, i)
                                  && Validate(c) == Err(GreaterOrEqual(ORDERINGS[i].0, ORDERINGS[i].1))
            else exists i: nat :: i < |RANGES| && FirstOutOfRange(c, i) && Validate(c) == Err(OutOfRange(RANGES[i].0))
  {
    ValidateIsExact(c);
    if forall j :: 0 <= j < |RANGES| ==> InRange(c, RANGES[j]) {
      var i := 0;
      while InOrder(c, ORDERINGS[i])
        invariant 0 <= i < |ORDERINGS| && forall j :: 0 <= j < i ==> InOrder(c, ORDERINGS[j])
        decreases |ORDERINGS| - i
      {
        i := i + 1;
      }
      OrderingIsReported(c, i);
    } else {
      var i := 0;
      while InRange(c, RANGES[i])
        invariant 0 <= i < |RANGES| && forall j :: 0 <= j < i ==> InRange(c, RANGES[j])
        decreases |RANGES| - i
      {
        i := i + 1;
      }
      RangeIsReported(c, i);
    }
  }

  /** A room that opens under a config has its time up as many minutes later as the config says, and not before. */
  lemma RoomLastsItsMinutes(c: VariableConfig, code: RoomCode, host: Stream, inbox: seq<ClientMessage>, now: nat)
    ensures var r := Rooms.Start(code, host, inbox, LimitsOf(c), now);
            && r.now == now && r.deadline - r.now == 60 * c.roomTimeLimitMins
            && r.limits.maxPlayers == c.maxPlayersPerRoom && r.limits.quota == c.maxMessageCount
  {
  }
}
