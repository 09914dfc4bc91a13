/** From the first words of a client to its membership: who names a room that can take it in becomes a member of it. */
module ServerJoins {
  import opened Common
  import opened RoomCodes
  import opened TextProtocol
  import opened Players
  import opened Joining
  import opened LobbyCustody
  import LobbyOutcomes
  import Lobbies
  import Rooms
  import RoomIds
  import RoomRuns
  import opened Server

  lemma RunStep(table: seq<byte>, capacity: nat, v: Server, step: Step, rest: seq<Step>)
    requires Can(table, v, step) && IsRun(table, capacity, After(table, capacity, v, step), rest)
    ensures IsRun(table, capacity, v, [step] + rest)
    ensures Final(table, capacity, v, [step] + rest) == Final(table, capacity, After(table, capacity, v, step), rest)
  {
  }

  /** Nobody is waiting, nor is the lobby, and the join queue has a place. */
  predicate Quiet(l: Lobbies.Lobby) {
    && !Lobbies.Blocked(l) && l.joinQueue == {} && l.joiners == map[] && l.requests == [] && l.queueCapacity > 0
  }

  /** The only request is that of one client. */
  function Asking(l: Lobbies.Lobby, client: Stream, cmd: LobbyCommand): Lobbies.Lobby {
    l.(seen := l.seen + {client}, joinQueue := {0}, requests := [Lobbies.LobbyRequest(0, cmd, client)])
  }

  lemma ConnectsAndDecides(table: seq<byte>, l: Lobbies.Lobby, client: Stream, outcome: Outcome)
    requires Quiet(l) && client !in l.seen
    ensures Lobbies.Can(table, l, Lobbies.Connect(client, 0))
    ensures var met := Lobbies.After(l, Lobbies.Connect(client, 0));
            && Lobbies.Can(table, met, Lobbies.Decide(0, outcome))
            && Lobbies.After(met, Lobbies.Decide(0, outcome)) == Asking(l, client, CommandFor(outcome))
  {
    LobbyOutcomes.ConnectDecides(table, l, client, 0);
    var met := Lobbies.After(l, Lobbies.Connect(client, 0));
    assert met == l.(seen := l.seen + {client}, joinQueue := {0}, joiners := map[0 := client]);
    assert map[0 := client] - {0} == map[];
  }

  /** A client connects and says what it wants. */
  lemma ClientAsks(table: seq<byte>, capacity: nat, v: Server, client: Stream, outcome: Outcome, setting: Setting,
                   rest: seq<Step>)
    returns (steps: seq<Step>)
    requires Quiet(v.lobby) && client !in v.lobby.seen && Rooms.ValidLimits(setting.limits)
    requires IsRun(table, capacity, v.(lobby := Asking(v.lobby, client, CommandFor(outcome))), rest)
    ensures IsRun(table, capacity, v, steps)
    ensures Final(table, capacity, v, steps)
         == Final(table, capacity, v.(lobby := Asking(v.lobby, client, CommandFor(outcome))), rest)
  {
    var connect, decide := OfLobby(Lobbies.Connect(client, 0), setting), OfLobby(Lobbies.Decide(0, outcome), setting);
    ConnectsAndDecides(table, v.lobby, client, outcome);
    assert v.lost + {} == v.lost;
    var met := After(table, capacity, v, connect);
    assert met == v.(lobby := Lobbies.After(v.lobby, Lobbies.Connect(client, 0)));
    assert After(table, capacity, met, decide) == v.(lobby := Asking(v.lobby, client, CommandFor(outcome)));
    RunStep(table, capacity, met, decide, rest);
    RunStep(table, capacity, v, connect, [decide] + rest);
    steps := [connect] + ([decide] + rest);
  }

  /** The room is on the map, serves, has a place, and nobody is in its channel. */
  predicate TakesIn(v: Server, key: u32) {
    && key in v.index && v.index[key] < |v.rooms| && key in v.lobby.rooms
    && LobbyOutcomes.IsOpen(v.lobby.rooms[key]) && v.lobby.rooms[key].newcomers == []
    && var r := v.rooms[v.index[key]];
       r.mode.Serving? && |r.tasks| < r.limits.maxPlayers && !r.shutdown
  }

  /** The client is a member of that room, and its task is about to greet it with the room's code. */
  predicate IsMember(v: Server, n: nat, client: Stream, code: RoomCode) {
    n < |v.rooms| && exists id :: id in v.rooms[n].tasks && v.rooms[n].tasks[id].stream == client
                                  && v.rooms[n].tasks[id].code == code && v.rooms[n].tasks[id].phase.Greeting?
  }

  lemma CodeOfKey(code: RoomCode, other: RoomCode)
    requires ToU32(code) == ToU32(other)
    ensures code == other
  {
    BigEndianRoundTrip(code.bytes, 0);
    BigEndianRoundTrip(other.bytes, 0);
  }

  lemma NewcomerIsMember(capacity: nat, r: Rooms.Room, act: Rooms.Step)
    requires act.Join? && Rooms.Can(r, act)
    ensures var next := Rooms.After(capacity, r, act);
            && act.id in next.tasks && next.tasks[act.id].stream == act.stream && next.tasks[act.id].code == r.code
            && next.tasks[act.id].phase.Greeting?
  {
  }

  /** The room takes the only newcomer from its channel. */
  lemma Joins(table: seq<byte>, capacity: nat, v: Server, key: u32, client: Stream, act: Rooms.Step)
    returns (join: Step)
    requires key in v.index && v.index[key] < |v.rooms| && Rooms.Can(v.rooms[v.index[key]], act)
    requires Channel(v.lobby, Under(key)) == [client] && act.Join? && act.stream == client
    ensures Can(table, v, join)
    ensures IsMember(After(table, capacity, v, join), v.index[key], client, v.rooms[v.index[key]].code)
  {
    join := OfRoom(Under(key), act);
    NewcomerIsMember(capacity, v.rooms[v.index[key]], act);
    var next := After(table, capacity, v, join);
    assert next.rooms[v.index[key]] == Rooms.After(capacity, v.rooms[v.index[key]], act);
  }

  /** The lobby hands the client to the room. */
  lemma HandedOver(table: seq<byte>, capacity: nat, v: Server, client: Stream, code: RoomCode, setting: Setting)
    returns (hand: Step)
    requires v.lobby.requests == [Lobbies.LobbyRequest(0, JoinRoom(code), client)] && !Lobbies.Blocked(v.lobby)
    requires TakesIn(v, ToU32(code)) && Rooms.ValidLimits(setting.limits)
    ensures Can(table, v, hand)
    ensures var next := After(table, capacity, v, hand);
            next.rooms == v.rooms && next.index == v.index && Channel(next.lobby, Under(ToU32(code))) == [client]
  {
    hand := OfLobby(Lobbies.TakeRequest(code), setting);
    LobbyOutcomes.JoinDecides(v.lobby, code, code);
  }

  lemma HandedOverAndJoins(table: seq<byte>, capacity: nat, v: Server, client: Stream, code: RoomCode, setting: Setting)
    returns (steps: seq<Step>)
    requires v.lobby.requests == [Lobbies.LobbyRequest(0, JoinRoom(code), client)] && !Lobbies.Blocked(v.lobby)
    requires TakesIn(v, ToU32(code)) && Rooms.ValidLimits(setting.limits)
    requires RoomRuns.Sound(v.rooms[v.index[ToU32(code)]]) && v.rooms[v.index[ToU32(code)]].code == code
    ensures IsRun(table, capacity, v, steps)
    ensures IsMember(Final(table, capacity, v, steps), v.index[ToU32(code)], client, code)
  {
    var act := RoomIds.JoinIsPossible(v.rooms[v.index[ToU32(code)]], client, setting.inbox);
    var hand := HandedOver(table, capacity, v, client, code, setting);
    var given := After(table, capacity, v, hand);
    var join := Joins(table, capacity, given, ToU32(code), client, act);
    RunStep(table, capacity, given, join, []);
    RunStep(table, capacity, v, hand, [join] + []);
    steps := [hand] + ([join] + []);
  }

  lemma AsksAndJoins(table: seq<byte>, capacity: nat, v: Server, client: Stream, code: RoomCode, setting: Setting)
    returns (steps: seq<Step>)
    requires Quiet(v.lobby) && client !in v.lobby.seen && RoomCodes.Valid(code)
    requires TakesIn(v, ToU32(code)) && Rooms.ValidLimits(setting.limits)
    requires RoomRuns.Sound(v.rooms[v.index[ToU32(code)]]) && v.rooms[v.index[ToU32(code)]].code == code
    ensures IsRun(table, capacity, v, steps)
    ensures IsMember(Final(table, capacity, v, steps), v.index[ToU32(code)], client, code)
  {
    var words := Heard(TextMessage(PrintRequest(Join(code))));
    ParsePrinted(Join(code));
    var asking := v.(lobby := Asking(v.lobby, client, JoinRoom(code)));
    var rest := HandedOverAndJoins(table, capacity, asking, client, code, setting);
    steps := ClientAsks(table, capacity, v, client, words, setting, rest);
  }

  lemma RoomUnder(v: Server, code: RoomCode)
    requires Agreeing(v) && RoomsAreSound(v.rooms) && TakesIn(v, ToU32(code))
    ensures RoomRuns.Sound(v.rooms[v.index[ToU32(code)]]) && v.rooms[v.index[ToU32(code)]].code == code
  {
    var r := v.rooms[v.index[ToU32(code)]];
    assert There(v, Under(ToU32(code))) && SerialOf(v, Under(ToU32(code))) == v.index[ToU32(code)];
    assert SoundRoom(r);
    CodeOfKey(code, r.code);
  }

  /**
   A client that connects and names a room that can take it in becomes a member of just that room, whose code it is
   about to be told.
   */
  lemma JoinersGetIn(table: seq<byte>, capacity: nat, v: Server, client: Stream, code: RoomCode, setting: Setting)
    returns (steps: seq<Step>)
    requires Tied(table, v) && Quiet(v.lobby) && client !in v.lobby.seen
    requires RoomCodes.Valid(code) && TakesIn(v, ToU32(code)) && Rooms.ValidLimits(setting.limits)
    ensures IsRun(table, capacity, v, steps)
    ensures IsMember(Final(table, capacity, v, steps), v.index[ToU32(code)], client, code)
  {
    RoomUnder(v, code);
    steps := AsksAndJoins(table, capacity, v, client, code, setting);
  }

  // ----- from the start -----

  lemma OpenedTakesIn(code: RoomCode, host: Stream, setting: Setting)
    requires Rooms.ValidLimits(setting.limits) && setting.limits.maxPlayers >= 2 && !setting.signalled
    ensures var r := Opened(code, host, setting);
            && RoomRuns.Sound(r) && r.code == code && r.mode.Serving? && |r.tasks| == 1 && r.limits == setting.limits
            && !r.shutdown
  {
    OpenedIsSound(code, host, setting);
    assert Opened(code, host, setting).tasks.Keys == {Rooms.HOST_ID};
  }

  function FirstAsking(maxRooms: nat, queueCapacity: nat): Lobbies.Lobby {
    Asking(Lobbies.Start(maxRooms, queueCapacity), 1, CreateRoom)
  }

  /** The first client of all opens a room. */
  lemma HostOpens(table: seq<byte>, capacity: nat, maxRooms: nat, queueCapacity: nat, code: RoomCode, setting: Setting)
    returns (open: Step, v: Server)
    requires 1 <= maxRooms && 1 <= queueCapacity && Usable({}, table, code) && Rooms.ValidLimits(setting.limits)
    ensures var asking := Start(maxRooms, queueCapacity).(lobby := FirstAsking(maxRooms, queueCapacity));
            Can(table, asking, open) && v == After(table, capacity, asking, open)
    ensures v.rooms == [Opened(code, 1, setting)] && v.index == map[ToU32(code) := 0] && Quiet(v.lobby)
    ensures v.lobby.rooms == map[ToU32(code) := Lobbies.RoomEntry(false, [], [])] && v.lobby.seen == {1}
  {
    var start := Start(maxRooms, queueCapacity);
    var asking := start.(lobby := Asking(start.lobby, 1, CreateRoom));
    open := OfLobby(Lobbies.TakeRequest(code), setting);
    LobbyOutcomes.CreateDecides(asking.lobby, code);
    assert asking.lobby.rooms.Keys == {};
    v := After(table, capacity, asking, open);
    assert {0} - {0} == {} && {} + {1} == {1};
  }

  lemma HostComes(table: seq<byte>, capacity: nat, maxRooms: nat, queueCapacity: nat, open: Step, setting: Setting,
                  rest: seq<Step>)
    returns (steps: seq<Step>)
    requires 1 <= queueCapacity && Rooms.ValidLimits(setting.limits)
    requires var asking := Start(maxRooms, queueCapacity).(lobby := FirstAsking(maxRooms, queueCapacity));
             Can(table, asking, open) && IsRun(table, capacity, After(table, capacity, asking, open), rest)
    ensures IsRun(table, capacity, Start(maxRooms, queueCapacity), steps)
    ensures var asking := Start(maxRooms, queueCapacity).(lobby := FirstAsking(maxRooms, queueCapacity));
            Final(table, capacity, Start(maxRooms, queueCapacity), steps)
            == Final(table, capacity, After(table, capacity, asking, open), rest)
  {
    var start := Start(maxRooms, queueCapacity);
    RunStep(table, capacity, start.(lobby := Asking(start.lobby, 1, CreateRoom)), open, rest);
    ParsePrinted(Host);
    var words := Heard(TextMessage(PrintRequest(Host)));
    steps := ClientAsks(table, capacity, start, 1, words, setting, [open] + rest);
  }

  /** Two clients, from the start of the server: one opens a room, the other names it and becomes a member. */
  lemma TwoMeet(table: seq<byte>, capacity: nat, maxRooms: nat, queueCapacity: nat, code: RoomCode, setting: Setting)
    returns (steps: seq<Step>)
    requires 1 <= maxRooms && 1 <= queueCapacity && Usable({}, table, code)
    requires Rooms.ValidLimits(setting.limits) && setting.limits.maxPlayers >= 2 && !setting.signalled
    ensures IsRun(table, capacity, Start(maxRooms, queueCapacity), steps)
    ensures IsMember(Final(table, capacity, Start(maxRooms, queueCapacity), steps), 0, 2, code)
  {
    var open, v := HostOpens(table, capacity, maxRooms, queueCapacity, code, setting);
    OpenedTakesIn(code, 1, setting);
    var rest := AsksAndJoins(table, capacity, v, 2, code, setting);
    steps := HostComes(table, capacity, maxRooms, queueCapacity, open, setting, rest);
  }
}
