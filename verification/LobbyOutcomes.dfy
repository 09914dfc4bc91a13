/**
 What becomes of a client at the lobby: admitted to the join queue or not, given a room of its own or not, handed
 to the room it names or not; in each case with the exact condition, and with the close code if it is turned away.
 */
module LobbyOutcomes {
  import opened Common
  import opened RoomCodes
  import opened Joining
  import opened Lobbies

  // ----- the join queue -----

  /** A connection is admitted if and only if the join queue has a place, and waits under its handle. */
  lemma ConnectDecides(table: seq<byte>, l: Lobby, client: Stream, handle: u32)
    requires Can(table, l, Connect(client, handle))
    ensures var next := After(l, Connect(client, handle));
            if |l.joinQueue| < l.queueCapacity then
              && handle !in l.joinQueue
              && next == l.(seen := l.seen + {client}, joinQueue := l.joinQueue + {handle},
                            joiners := l.joiners[handle := client])
            else
              next == l.(seen := l.seen + {client}, closeTasks := l.closeTasks + [CloseTask(client, JoinQueueFull)],
                         fates := l.fates[client := ClosedWith(JoinQueueFull)])
  {
  }

  /** A joining task that has decided queues its request, under its handle and with its client, and is done. */
  lemma DecisionIsQueued(table: seq<byte>, l: Lobby, joiner: u32, outcome: Outcome)
    requires Can(table, l, Decide(joiner, outcome))
    ensures |l.requests| < REQUEST_BUFFER
    ensures After(l, Decide(joiner, outcome))
         == l.(joiners := l.joiners - {joiner},
               requests := l.requests + [LobbyRequest(joiner, CommandFor(outcome), l.joiners[joiner])])
  {
  }

  // ----- requests -----

  /** The request is off the queue, its handle is free, and nothing else has changed but what the fate says. */
  predicate Answered(l: Lobby, next: Lobby, fate: Fate, rooms: map<u32, RoomEntry>)
    requires l.requests != []
  {
    var req := l.requests[0];
    next == l.(requests := l.requests[1..], joinQueue := l.joinQueue - {req.handle}, rooms := rooms,
               fates := l.fates[req.stream := fate],
               closeTasks := l.closeTasks + if fate.ClosedWith? then [CloseTask(req.stream, fate.code)] else [])
  }

  /** The room can take one more in its channel. */
  predicate IsOpen(entry: RoomEntry) {
    !entry.isSealed && CloseSignal !in entry.emitted && |entry.newcomers| < NEWCOMER_BUFFER
  }

  /** Why a client cannot join the room it names. */
  function RefusalFor(l: Lobby, key: u32): CloseCode {
    if key !in l.rooms then RoomDoesNotExist
    else if l.rooms[key].isSealed || CloseSignal in l.rooms[key].emitted then RoomIsSealed
    else Again
  }

  /**
   A client that names a room is handed to it if and only if the room is on the map, neither sealed nor closed, and
   its channel has a place; otherwise it is closed with the code that says which of these fails.
   */
  lemma JoinDecides(l: Lobby, newCode: RoomCode, code: RoomCode)
    requires l.requests != [] && l.requests[0].cmd == JoinRoom(code)
    ensures var next, key, s := After(l, TakeRequest(newCode)), ToU32(code), l.requests[0].stream;
            && (key in l.rooms && IsOpen(l.rooms[key]) ==>
                  Answered(l, next, InRoom(key),
                           l.rooms[key := l.rooms[key].(newcomers := l.rooms[key].newcomers + [s])]))
            && (!(key in l.rooms && IsOpen(l.rooms[key])) ==>
                  Answered(l, next, ClosedWith(RefusalFor(l, key)), l.rooms))
  {
  }

  /** A client that wants a room of its own is given one if and only if there may be one more. */
  lemma CreateDecides(l: Lobby, newCode: RoomCode)
    requires l.requests != [] && l.requests[0].cmd == CreateRoom
    ensures var next, key := After(l, TakeRequest(newCode)), ToU32(newCode);
            if |l.rooms| < l.maxRooms then Answered(l, next, InRoom(key), l.rooms[key := RoomEntry(false, [], [])])
            else Answered(l, next, ClosedWith(TooManyRooms), l.rooms)
  {
  }

  /** Everybody else is closed for the reason the joining task gives, or dropped. */
  lemma OtherwiseDecides(l: Lobby, newCode: RoomCode)
    requires l.requests != [] && !l.requests[0].cmd.CreateRoom? && !l.requests[0].cmd.JoinRoom?
    ensures Answered(l, After(l, TakeRequest(newCode)),
                     if l.requests[0].cmd.DropClient? then Dropped else ClosedWith(l.requests[0].cmd.reason), l.rooms)
  {
  }

  /** The request earns its client a place in the room of that key. */
  predicate GetsRoom(l: Lobby, cmd: LobbyCommand, newCode: RoomCode, key: u32) {
    || (cmd.CreateRoom? && |l.rooms| < l.maxRooms && key == ToU32(newCode))
    || (cmd.JoinRoom? && key == ToU32(cmd.code) && key in l.rooms && IsOpen(l.rooms[key]))
  }

  /** It earns its client a close with that code. */
  predicate GetsClosed(l: Lobby, cmd: LobbyCommand, code: CloseCode) {
    match cmd
    case CreateRoom => code == TooManyRooms && |l.rooms| >= l.maxRooms
    case JoinRoom(room) =>
      if ToU32(room) !in l.rooms then code == RoomDoesNotExist
      else
        var entry := l.rooms[ToU32(room)];
        if entry.isSealed || CloseSignal in entry.emitted then code == RoomIsSealed
        else code == Again && |entry.newcomers| >= NEWCOMER_BUFFER
    case CloseConnection(reason) => code == reason
    case DropClient => false
  }

  predicate FateIs(l: Lobby, cmd: LobbyCommand, newCode: RoomCode, fate: Fate) {
    match fate
    case InRoom(key) => GetsRoom(l, cmd, newCode, key)
    case ClosedWith(code) => GetsClosed(l, cmd, code)
    case Dropped => cmd.DropClient?
  }

  lemma OneFate(l: Lobby, cmd: LobbyCommand, newCode: RoomCode, fate: Fate, other: Fate)
    requires FateIs(l, cmd, newCode, fate) && FateIs(l, cmd, newCode, other)
    ensures fate == other
  {
  }

  /** Every request has exactly one of these fates, and gets it; who is not given a room changes none. */
  lemma FatesAreDeserved(l: Lobby, newCode: RoomCode, fate: Fate)
    requires l.requests != []
    ensures var next := After(l, TakeRequest(newCode));
            && (next.fates[l.requests[0].stream] == fate <==> FateIs(l, l.requests[0].cmd, newCode, fate))
            && (fate == next.fates[l.requests[0].stream] && !fate.InRoom? ==> next.rooms == l.rooms)
  {
    var cmd, got := l.requests[0].cmd, After(l, TakeRequest(newCode)).fates[l.requests[0].stream];
    match cmd {
      case CreateRoom => CreateDecides(l, newCode);
      case JoinRoom(code) => JoinDecides(l, newCode, code);
      case _ => OtherwiseDecides(l, newCode);
    }
    assert FateIs(l, cmd, newCode, got);
    if FateIs(l, cmd, newCode, fate) {
      OneFate(l, cmd, newCode, got, fate);
    }
  }

  // ----- config -----

  /** A config change takes effect at once: as many rooms are aborted as are too many, and nobody else is touched. */
  lemma ConfigureDecides(table: seq<byte>, l: Lobby, maxRooms: nat, queueCapacity: nat, aborts: set<u32>)
    requires Can(table, l, Configure(maxRooms, queueCapacity, aborts))
    ensures var next := After(l, Configure(maxRooms, queueCapacity, aborts));
            && next == l.(maxRooms := maxRooms, queueCapacity := queueCapacity, rooms := l.rooms - aborts,
                          aborted := l.aborted + aborts)
            && |next.rooms| == if |l.rooms| > maxRooms then maxRooms else |l.rooms|
  {
    assert (l.rooms - aborts).Keys == l.rooms.Keys - aborts;
    assert l.rooms.Keys == (l.rooms.Keys - aborts) + aborts;
  }

  // ----- readiness -----

  lemma {:induction false} SomeOf(keys: set<u32>, n: nat) returns (some: set<u32>)
    requires n <= |keys|
    ensures some <= keys && |some| == n
    decreases |keys|
  {
    if n == |keys| {
      some := keys;
    } else {
      var k :| k in keys;
      some := SomeOf(keys - {k}, n);
    }
  }

  /** Unless it awaits a room, the main loop is ready for every signal and every new config. */
  lemma LobbyIsReady(table: seq<byte>, l: Lobby, maxRooms: nat, queueCapacity: nat) returns (aborts: set<u32>)
    requires 1 <= maxRooms <= 400_000 && 1 <= queueCapacity <= 10_000
    ensures Can(table, l, TakeSignal) <==> l.signals != [] && !Blocked(l)
    ensures !Blocked(l) ==> Can(table, l, Configure(maxRooms, queueCapacity, aborts))
  {
    aborts := SomeOf(l.rooms.Keys, Excess(l, maxRooms));
  }
}
