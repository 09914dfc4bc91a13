/**
 The lobby (src/lobby.rs) with the clients that wait to join and the rooms it has opened, as a state
 machine over its main loop. A room appears here only by what it takes from its newcomer channel and
 by the signals it emits; which those are is settled by module RoomLimits.
 */
module Lobbies {
  import opened Common
  import opened RoomCodes
  import opened Joining

  /** LOBBY_REQUEST_CHANNEL_BUFFER_SIZE, NEW_CLIENT_CHANNEL_BUFFER_SIZE, LOBBY_CONTROL_CHANNEL_BUFFER_SIZE. */
  const REQUEST_BUFFER: nat := 50
  const NEWCOMER_BUFFER: nat := 10
  const CONTROL_BUFFER: nat := 50

  datatype LobbyRequest = LobbyRequest(handle: u32, cmd: LobbyCommand, stream: Stream)

  datatype Signal = Signal(code: u32, control: Control)

  datatype RoomEntry = RoomEntry(
    isSealed: bool,
    newcomers: seq<Stream>,     // sent to the room and not yet taken
    emitted: seq<Control>)      // what the room has sent to the lobby so far

  /** A room that is off the map, and whose task the lobby awaits. */
  datatype Awaited = Awaited(key: u32, entry: RoomEntry)

  /** What became of a client's connection once it left the lobby. */
  datatype Fate = InRoom(key: u32) | ClosedWith(code: CloseCode) | Dropped

  datatype Lobby = Lobby(
    joinQueue: set<u32>,             // the keys of join_queue
    joiners: map<u32, Stream>,       // tasks that have not sent their request yet
    requests: seq<LobbyRequest>,
    rooms: map<u32, RoomEntry>,
    signals: seq<Signal>,
    awaited: Option<Awaited>,        // the last room a close took off the map
    maxRooms: nat,
    queueCapacity: nat,
    closeTasks: seq<CloseTask>,
    // History:
    seen: set<Stream>,
    fates: map<Stream, Fate>,
    aborted: set<u32>)

  // ----- steps -----

  datatype Step =
    | Connect(client: Stream, handle: u32)
    | Decide(joiner: u32, outcome: Outcome)
    | TakeRequest(newCode: RoomCode)
    | TakeSignal
    | Configure(maxRooms: nat, queueCapacity: nat, aborts: set<u32>)
    | RoomTakes(key: u32)
    | RoomEmits(room: u32, control: Control)
    | AwaitedTakes
    | AwaitedEmits(control: Control)

  function Excess(l: Lobby, maxRooms: nat): nat {
    if |l.rooms| > maxRooms then |l.rooms| - maxRooms else 0
  }

  /** Everything a room ever emits. */
  const ALL_SIGNALS: seq<Control> := [SealSignal, CloseSignal]

  /** A room emits a seal and then a close, and nothing else; see RoomLimits.Ordered. */
  predicate MayEmit(emitted: seq<Control>, control: Control) {
    emitted + [control] <= ALL_SIGNALS
  }

  /**
   The lobby has taken a room off its map and awaits its task, which ends once the room has emitted its close.
   Until then the main loop does nothing else.
   */
  predicate Blocked(l: Lobby) {
    l.awaited.Some? && l.awaited.value.entry.emitted != ALL_SIGNALS
  }

  /** The steps of the lobby's own main loop. */
  predicate OfLobby(step: Step) {
    step.Connect? || step.TakeRequest? || step.TakeSignal? || step.Configure?
  }

  ghost predicate Can(table: seq<byte>, l: Lobby, step: Step) {
    && (OfLobby(step) ==> !Blocked(l))
    && match step
       case Connect(client, handle) => client !in l.seen && (|l.joinQueue| < l.queueCapacity ==> handle !in l.joinQueue)
       case Decide(joiner, _) => joiner in l.joiners && |l.requests| < REQUEST_BUFFER
       case TakeRequest(newCode) =>
         l.requests != []
         && (l.requests[0].cmd.CreateRoom? && |l.rooms| < l.maxRooms ==> Usable(l.rooms.Keys, table, newCode))
       case TakeSignal => l.signals != []
       case Configure(maxRooms, queueCapacity, aborts) =>
         && 1 <= maxRooms <= 400_000 && 1 <= queueCapacity <= 10_000
         && aborts <= l.rooms.Keys && |aborts| == Excess(l, maxRooms)
       case RoomTakes(key) => key in l.rooms && l.rooms[key].newcomers != [] && CloseSignal !in l.rooms[key].emitted
       case RoomEmits(room, control) =>
         room in l.rooms && |l.signals| < CONTROL_BUFFER && MayEmit(l.rooms[room].emitted, control)
       case AwaitedTakes =>
         Blocked(l) && l.awaited.value.entry.newcomers != [] && CloseSignal !in l.awaited.value.entry.emitted
       case AwaitedEmits(control) =>
         Blocked(l) && |l.signals| < CONTROL_BUFFER && MayEmit(l.awaited.value.entry.emitted, control)
  }

  function Spawn(l: Lobby, stream: Stream, code: CloseCode): Lobby {
    l.(closeTasks := l.closeTasks + [CloseTask(stream, code)], fates := l.fates[stream := ClosedWith(code)])
  }

  function AfterConnect(l: Lobby, client: Stream, handle: u32): Lobby {
    var met := l.(seen := l.seen + {client});
    if |l.joinQueue| < l.queueCapacity then
      met.(joinQueue := l.joinQueue + {handle}, joiners := l.joiners[handle := client])
    else Spawn(met, client, JoinQueueFull)
  }

  function Open(l: Lobby, key: u32, host: Stream): Lobby {
    l.(rooms := l.rooms[key := RoomEntry(false, [], [])], fates := l.fates[host := InRoom(key)])
  }

  /** try_send on the room's newcomer channel, whose receiver is gone once the room has closed. */
  function SendNewcomer(l: Lobby, key: u32, stream: Stream): Lobby
    requires key in l.rooms
  {
    var entry := l.rooms[key];
    if entry.isSealed || CloseSignal in entry.emitted then Spawn(l, stream, RoomIsSealed)
    else if |entry.newcomers| >= NEWCOMER_BUFFER then Spawn(l, stream, Again)
    else
      l.(rooms := l.rooms[key := entry.(newcomers := entry.newcomers + [stream])],
         fates := l.fates[stream := InRoom(key)])
  }

  function AfterRequest(l: Lobby, req: LobbyRequest, newCode: RoomCode): Lobby {
    var left := l.(joinQueue := l.joinQueue - {req.handle});
    match req.cmd
    case CreateRoom =>
      if |l.rooms| < l.maxRooms then Open(left, ToU32(newCode), req.stream) else Spawn(left, req.stream, TooManyRooms)
    case JoinRoom(code) =>
      if ToU32(code) in l.rooms then SendNewcomer(left, ToU32(code), req.stream)
      else Spawn(left, req.stream, RoomDoesNotExist)
    case CloseConnection(reason) => Spawn(left, req.stream, reason)
    case DropClient => left.(fates := left.fates[req.stream := Dropped])
  }

  function AfterSignal(l: Lobby, s: Signal): Lobby {
    if s.code !in l.rooms then l
    else
      match s.control
      case SealSignal => l.(rooms := l.rooms[s.code := l.rooms[s.code].(isSealed := true)])
      case CloseSignal => l.(rooms := l.rooms - {s.code}, awaited := Some(Awaited(s.code, l.rooms[s.code])))
  }

  function AwaitedNow(l: Lobby, entry: RoomEntry): Lobby
    requires l.awaited.Some?
  {
    l.(awaited := Some(Awaited(l.awaited.value.key, entry)))
  }

  function After(l: Lobby, step: Step): Lobby {
    match step
    case Connect(client, handle) => AfterConnect(l, client, handle)
    case Decide(joiner, outcome) =>
      if joiner !in l.joiners then l
      else l.(joiners := l.joiners - {joiner},
              requests := l.requests + [LobbyRequest(joiner, CommandFor(outcome), l.joiners[joiner])])
    case TakeRequest(newCode) =>
      if l.requests == [] then l else AfterRequest(l.(requests := l.requests[1..]), l.requests[0], newCode)
    case TakeSignal =>
      if l.signals == [] then l else AfterSignal(l.(signals := l.signals[1..]), l.signals[0])
    case Configure(maxRooms, queueCapacity, aborts) =>
      l.(maxRooms := maxRooms, queueCapacity := queueCapacity, rooms := l.rooms - aborts, aborted := l.aborted + aborts)
    case RoomTakes(key) =>
      if key !in l.rooms || l.rooms[key].newcomers == [] then l
      else l.(rooms := l.rooms[key := l.rooms[key].(newcomers := l.rooms[key].newcomers[1..])])
    case RoomEmits(room, control) =>
      if room !in l.rooms then l
      else l.(rooms := l.rooms[room := l.rooms[room].(emitted := l.rooms[room].emitted + [control])],
              signals := l.signals + [Signal(room, control)])
    case AwaitedTakes =>
      if l.awaited.None? || l.awaited.value.entry.newcomers == [] then l
      else AwaitedNow(l, l.awaited.value.entry.(newcomers := l.awaited.value.entry.newcomers[1..]))
    case AwaitedEmits(control) =>
      if l.awaited.None? then l
      else AwaitedNow(l, l.awaited.value.entry.(emitted := l.awaited.value.entry.emitted + [control]))
           .(signals := l.signals + [Signal(l.awaited.value.key, control)])
  }

  function Start(maxRooms: nat, queueCapacity: nat): Lobby {
    Lobby({}, map[], [], map[], [], None, maxRooms, queueCapacity, [], {}, map[], {})
  }

  ghost predicate IsRun(table: seq<byte>, l: Lobby, steps: seq<Step>)
    decreases |steps|
  {
    steps == [] || (Can(table, l, steps[0]) && IsRun(table, After(l, steps[0]), steps[1..]))
  }

  function Final(l: Lobby, steps: seq<Step>): Lobby
    decreases |steps|
  {
    if steps == [] then l else Final(After(l, steps[0]), steps[1..])
  }

  lemma {:induction false} ExtendRun(table: seq<byte>, l: Lobby, steps: seq<Step>, step: Step)
    requires IsRun(table, l, steps) && Can(table, Final(l, steps), step)
    ensures IsRun(table, l, steps + [step]) && Final(l, steps + [step]) == After(Final(l, steps), step)
    decreases |steps|
  {
    if steps == [] {
      assert (steps + [step])[1..] == [];
    } else {
      assert (steps + [step])[1..] == steps[1..] + [step];
      ExtendRun(table, After(l, steps[0]), steps[1..], step);
    }
  }

  // ----- the room map -----

  /** At most as many rooms as allowed, all under usable codes; both limits are valid. */
  ghost predicate Housed(table: seq<byte>, l: Lobby) {
    && |l.rooms| <= l.maxRooms <= 400_000 && l.queueCapacity <= 10_000
    && forall k :: k in l.rooms ==> FromU32(k).Ok? && !Listed(table, FromU32(k).value)
  }

  lemma OpenHouses(table: seq<byte>, l: Lobby, code: RoomCode, host: Stream)
    requires Housed(table, l) && |l.rooms| < l.maxRooms && Usable(l.rooms.Keys, table, code)
    ensures Housed(table, Open(l, ToU32(code), host))
  {
    KeyRoundTrip(code, ToU32(code));
    assert Open(l, ToU32(code), host).rooms.Keys == l.rooms.Keys + {ToU32(code)};
  }

  lemma SameKeysHouse(table: seq<byte>, l: Lobby, next: Lobby)
    requires Housed(table, l) && next.rooms.Keys <= l.rooms.Keys
    requires next.maxRooms == l.maxRooms && next.queueCapacity == l.queueCapacity
    ensures Housed(table, next)
  {
    assert l.rooms.Keys == next.rooms.Keys + (l.rooms.Keys - next.rooms.Keys);
    assert |next.rooms| == |next.rooms.Keys| && |l.rooms| == |l.rooms.Keys|;
  }

  lemma AbortsHouse(table: seq<byte>, l: Lobby, maxRooms: nat, queueCapacity: nat, aborts: set<u32>)
    requires Housed(table, l) && Can(table, l, Configure(maxRooms, queueCapacity, aborts))
    ensures Housed(table, After(l, Configure(maxRooms, queueCapacity, aborts)))
  {
  }

  lemma RequestKeepsHoused(table: seq<byte>, l: Lobby, newCode: RoomCode)
    requires Housed(table, l) && Can(table, l, TakeRequest(newCode))
    ensures Housed(table, After(l, TakeRequest(newCode)))
  {
    var req := l.requests[0];
    if req.cmd.CreateRoom? && |l.rooms| < l.maxRooms {
      OpenHouses(table, l.(requests := l.requests[1..], joinQueue := l.joinQueue - {req.handle}), newCode, req.stream);
    } else {
      SameKeysHouse(table, l, After(l, TakeRequest(newCode)));
    }
  }

  lemma StepKeepsHoused(table: seq<byte>, l: Lobby, step: Step)
    requires Housed(table, l) && Can(table, l, step)
    ensures Housed(table, After(l, step))
  {
    match step {
      case Configure(maxRooms, queueCapacity, aborts) => AbortsHouse(table, l, maxRooms, queueCapacity, aborts);
      case TakeRequest(newCode) => RequestKeepsHoused(table, l, newCode);
      case _ => SameKeysHouse(table, l, After(l, step));
    }
  }

  /** Whenever the lobby may open a room, some code is free for it: the rejection loop can end. */
  lemma CodeIsAvailable(table: seq<byte>, l: Lobby) returns (code: RoomCode)
    requires Housed(table, l) && |l.rooms| < l.maxRooms && Records(table) <= 160
    ensures Usable(l.rooms.Keys, table, code)
  {
    code := FreshCodeExists(l.rooms.Keys, table);
  }

  /** Unless the lobby waits for a room, a connection can be handled: if it needs a handle, one is left. */
  lemma ConnectIsPossible(table: seq<byte>, l: Lobby, client: Stream) returns (handle: u32)
    requires Housed(table, l) && client !in l.seen && !Blocked(l)
    ensures Can(table, l, Connect(client, handle))
  {
    handle := 0;
    if |l.joinQueue| < l.queueCapacity {
      handle := LeftFrom(l.joinQueue, 0);
    }
  }

  // ----- clients -----

  /** Every client is in exactly one place: waiting, asking, or past the lobby with a fate. */
  ghost predicate Accounted(l: Lobby) {
    && (forall h :: h in l.joiners ==> h in l.joinQueue && l.joiners[h] in l.seen && l.joiners[h] !in l.fates)
    && (forall g, h :: g in l.joiners && h in l.joiners && g != h ==> l.joiners[g] != l.joiners[h])
    && (forall i :: 0 <= i < |l.requests| ==>
          && l.requests[i].handle in l.joinQueue && l.requests[i].handle !in l.joiners
          && l.requests[i].stream in l.seen && l.requests[i].stream !in l.fates)
    && (forall i, j :: 0 <= i < j < |l.requests| ==>
          l.requests[i].handle != l.requests[j].handle && l.requests[i].stream != l.requests[j].stream)
    && (forall h, i :: h in l.joiners && 0 <= i < |l.requests| ==> l.joiners[h] != l.requests[i].stream)
  }

  predicate Requested(l: Lobby, h: u32) { exists i :: 0 <= i < |l.requests| && l.requests[i].handle == h }

  predicate Asks(l: Lobby, s: Stream) { exists i :: 0 <= i < |l.requests| && l.requests[i].stream == s }

  predicate Waits(l: Lobby, s: Stream) { exists h :: h in l.joiners && l.joiners[h] == s }

  /** Nobody is lost: every handle has its task or its request, every client its place, every close its task. */
  ghost predicate Complete(l: Lobby) {
    && (forall h :: h in l.joinQueue ==> h in l.joiners || Requested(l, h))
    && (forall s :: s in l.seen ==> s in l.fates || Waits(l, s) || Asks(l, s))
    && (forall s :: s in l.fates ==> s in l.seen)
    && (forall s :: s in l.fates && l.fates[s].ClosedWith? ==> CloseTask(s, l.fates[s].code) in l.closeTasks)
    && (forall i :: 0 <= i < |l.closeTasks| ==>
          l.closeTasks[i].stream in l.fates && l.fates[l.closeTasks[i].stream] == ClosedWith(l.closeTasks[i].code))
  }
}
