/**
 The lobby task in its own form: the branches of the main loop of src/lobby.rs, over the queue and the
 map they update in place. Each is proved to be the step of module Lobbies it stands for.
 */
module LobbyTask {
  import opened Common
  import opened RoomCodes
  import opened Joining
  import opened Lobbies

  /** Take as many rooms off the map as asked for, whichever come first. */
  method RemoveSome(rooms: map<u32, RoomEntry>, numToClose: nat) returns (left: map<u32, RoomEntry>, aborts: set<u32>)
    requires numToClose <= |rooms|
    ensures aborts <= rooms.Keys && |aborts| == numToClose && left == rooms - aborts
  {
    left, aborts := rooms, {};
    while |aborts| < numToClose
      invariant aborts <= rooms.Keys && |aborts| <= numToClose && left == rooms - aborts
    {
      assert left.Keys == rooms.Keys - aborts && |rooms.Keys - aborts| == |rooms.Keys| - |aborts|;
      var key :| key in left;
      left, aborts := left - {key}, aborts + {key};
    }
  }

  /** What the select of the main loop can be woken by, and what clients and rooms do meanwhile. */
  datatype Wakeup =
    | ConnectionComes(client: Stream, handles: seq<u32>)
    | RequestComes(codes: seq<RoomCode>)
    | ControlComes
    | ConfigComes(newMaxRooms: nat, newCapacity: nat)
    | ClientDecides(joiner: u32, outcome: Outcome)
    | RoomReceives(key: u32)
    | RoomSends(room: u32, control: Control)
    | AwaitedReceives
    | AwaitedSends(control: Control)

  predicate ValidWakeup(wakeup: Wakeup) {
    match wakeup
    case RequestComes(codes) => forall i :: 0 <= i < |codes| ==> Valid(codes[i])
    case ConfigComes(newMaxRooms, newCapacity) => 1 <= newMaxRooms <= 400_000 && 1 <= newCapacity <= 10_000
    case _ => true
  }

  class LobbyTask {
    const table: seq<byte>

    var joinQueue: set<u32>
    var joiners: map<u32, Stream>        // the spawned tasks
    var requests: seq<LobbyRequest>
    var roomMap: map<u32, RoomEntry>
    var signals: seq<Signal>
    var awaited: Option<Awaited>
    var maxRooms: nat
    var playerQueueCapacity: nat
    var closeTasks: seq<CloseTask>

    var seen: set<Stream>                // history: no two clients have the same stream

    ghost var fates: map<Stream, Fate>
    ghost var aborted: set<u32>

    ghost function Model(): Lobby
      reads this
    {
      Lobby(joinQueue, joiners, requests, roomMap, signals, awaited, maxRooms, playerQueueCapacity, closeTasks,
            seen, fates, aborted)
    }

    constructor (table: seq<byte>, maxRooms: nat, playerQueueCapacity: nat)
      ensures Model() == Start(maxRooms, playerQueueCapacity) && this.table == table
    {
      this.table, this.maxRooms, this.playerQueueCapacity := table, maxRooms, playerQueueCapacity;
      joinQueue, joiners, requests, roomMap, signals, awaited, closeTasks := {}, map[], [], map[], [], None, [];
      seen, fates, aborted := {}, map[], {};
    }

    /** The main loop stands at the await of a room's task. */
    predicate Awaits()
      reads this
      ensures Awaits() == Blocked(Model())
    {
      awaited.Some? && awaited.value.entry.emitted != ALL_SIGNALS
    }

    method SpawnClose(stream: Stream, code: CloseCode)
      modifies this`closeTasks, this`fates
      ensures Model() == Spawn(old(Model()), stream, code)
    {
      closeTasks := closeTasks + [CloseTask(stream, code)];
      fates := fates[stream := ClosedWith(code)];
    }

    /** A connection was established. With no usable draw among those given, the loop goes on drawing. */
    method OnConnection(client: Stream, draws: seq<u32>) returns (choice: Option<u32>)
      modifies this`joinQueue, this`joiners, this`closeTasks, this`seen, this`fates
      ensures old(|joinQueue| >= playerQueueCapacity) ==> Model() == AfterConnect(old(Model()), client, 0)
      ensures old(|joinQueue| < playerQueueCapacity) ==>
                match choice
                case None => Model() == old(Model()) && forall i :: 0 <= i < |draws| ==> draws[i] in joinQueue
                case Some(handle) => handle !in old(joinQueue) && Model() == AfterConnect(old(Model()), client, handle)
    {
      choice := None;
      if |joinQueue| < playerQueueCapacity {
        choice := ChooseUnused(draws, joinQueue);
        if choice.Some? {
          seen := seen + {client};
          joinQueue := joinQueue + {choice.value};
          joiners := joiners[choice.value := client];
        }
      } else {
        seen := seen + {client};
        SpawnClose(client, JoinQueueFull);
      }
    }

    /** try_send on a room's channel: what comes back is the close code for a stream that was not taken. */
    method SendNewClient(key: u32, stream: Stream) returns (refused: Option<CloseCode>)
      requires key in roomMap && !roomMap[key].isSealed
      modifies this`roomMap, this`fates
      ensures refused.None? ==> Model() == SendNewcomer(old(Model()), key, stream)
      ensures refused.Some? ==> Model() == old(Model())
                                && Spawn(Model(), stream, refused.value) == SendNewcomer(Model(), key, stream)
    {
      var entry := roomMap[key];
      if CloseSignal in entry.emitted {
        return Some(RoomIsSealed);
      }
      if |entry.newcomers| >= NEWCOMER_BUFFER {
        return Some(Again);
      }
      roomMap := roomMap[key := entry.(newcomers := entry.newcomers + [stream])];
      fates := fates[stream := InRoom(key)];
      return None;
    }

    method OnCreate(host: Stream, draws: seq<RoomCode>) returns (choice: Option<RoomCode>)
      requires Table(table) && |roomMap| < maxRooms && forall i :: 0 <= i < |draws| ==> Valid(draws[i])
      modifies this`roomMap, this`fates
      ensures choice.Some? ==> Usable(old(roomMap).Keys, table, choice.value)
                               && Model() == Open(old(Model()), ToU32(choice.value), host)
      ensures choice.None? ==> Model() == old(Model())
                               && forall i :: 0 <= i < |draws| ==> !Usable(roomMap.Keys, table, draws[i])
    {
      ghost var tried;
      choice, tried := ChooseCode(draws, roomMap.Keys, table);
      if choice.Some? {
        roomMap := roomMap[ToU32(choice.value) := RoomEntry(false, [], [])];
        fates := fates[host := InRoom(ToU32(choice.value))];
      }
    }

    method OnJoin(code: RoomCode, stream: Stream)
      modifies this`roomMap, this`fates, this`closeTasks
      ensures Model() == if ToU32(code) in old(roomMap) then SendNewcomer(old(Model()), ToU32(code), stream)
                         else Spawn(old(Model()), stream, RoomDoesNotExist)
    {
      var key := ToU32(code);
      if key !in roomMap {
        SpawnClose(stream, RoomDoesNotExist);
      } else if roomMap[key].isSealed {
        SpawnClose(stream, RoomIsSealed);
      } else {
        var refused := SendNewClient(key, stream);
        if refused.Some? {
          SpawnClose(stream, refused.value);
        }
      }
    }

    /** What a request asks for. It is not done if a code is needed and none of the draws can be used. */
    method Handle(req: LobbyRequest, draws: seq<RoomCode>) returns (done: bool, ghost newCode: RoomCode)
      requires Table(table) && forall i :: 0 <= i < |draws| ==> Valid(draws[i])
      modifies this`joinQueue, this`roomMap, this`fates, this`closeTasks
      ensures done ==> Model() == AfterRequest(old(Model()), req, newCode)
      ensures old(req.cmd.CreateRoom? && |roomMap| < maxRooms) ==>
                if done then Usable(old(roomMap).Keys, table, newCode)
                else forall i :: 0 <= i < |draws| ==> !Usable(old(roomMap).Keys, table, draws[i])
      ensures old(!(req.cmd.CreateRoom? && |roomMap| < maxRooms)) ==> done
    {
      joinQueue := joinQueue - {req.handle};
      done, newCode := true, Nth(0);
      match req.cmd {
        case CreateRoom =>
          if |roomMap| < maxRooms {
            var choice := OnCreate(req.stream, draws);
            done := choice.Some?;
            newCode := if choice.Some? then choice.value else newCode;
          } else {
            SpawnClose(req.stream, TooManyRooms);
          }
        case JoinRoom(code) => OnJoin(code, req.stream);
        case CloseConnection(reason) => SpawnClose(req.stream, reason);
        case DropClient => fates := fates[req.stream := Dropped];
      }
    }

    /**
     A request was received. The result is false if a code is needed and none of the draws can be used,
     and then only the request and its handle are gone; otherwise the whole step is done.
     */
    method OnRequest(draws: seq<RoomCode>) returns (done: bool, ghost newCode: RoomCode)
      requires requests != [] && !Awaits() && Table(table) && forall i :: 0 <= i < |draws| ==> Valid(draws[i])
      modifies this`joinQueue, this`requests, this`roomMap, this`fates, this`closeTasks
      ensures done ==> Can(table, old(Model()), TakeRequest(newCode))
                       && Model() == After(old(Model()), TakeRequest(newCode))
      ensures !done ==> forall i :: 0 <= i < |draws| ==> !Can(table, old(Model()), TakeRequest(draws[i]))
    {
      var req := requests[0];
      requests := requests[1..];
      done, newCode := Handle(req, draws);
    }

    method OnControl()
      requires signals != []
      modifies this`signals, this`roomMap, this`awaited
      ensures Model() == After(old(Model()), TakeSignal)
    {
      var signal := signals[0];
      signals := signals[1..];
      if signal.code in roomMap {
        match signal.control {
          case SealSignal => roomMap := roomMap[signal.code := roomMap[signal.code].(isSealed := true)];
          case CloseSignal =>
            awaited := Some(Awaited(signal.code, roomMap[signal.code]));
            roomMap := roomMap - {signal.code};
        }
      }
    }

    method OnConfig(newMaxRooms: nat, newCapacity: nat) returns (aborts: set<u32>)
      requires !Awaits() && 1 <= newMaxRooms <= 400_000 && 1 <= newCapacity <= 10_000
      modifies this`maxRooms, this`playerQueueCapacity, this`roomMap, this`aborted
      ensures Can(table, old(Model()), Configure(newMaxRooms, newCapacity, aborts))
      ensures Model() == After(old(Model()), Configure(newMaxRooms, newCapacity, aborts))
    {
      maxRooms, playerQueueCapacity := newMaxRooms, newCapacity;
      aborts := {};
      if |roomMap| > maxRooms {
        roomMap, aborts := RemoveSome(roomMap, |roomMap| - maxRooms);
      }
      aborted := aborted + aborts;
      assert roomMap == old(roomMap) - aborts;
    }

    // ----- the main loop -----

    /** What the room whose task is awaited does meanwhile. */
    method LetAwaitedRun(wakeup: Wakeup) returns (ghost step: Option<Step>)
      requires wakeup.AwaitedReceives? || wakeup.AwaitedSends?
      modifies this`awaited, this`signals
      ensures step.Some? ==> Can(table, old(Model()), step.value) && Model() == After(old(Model()), step.value)
      ensures step.None? ==> Model() == old(Model())
    {
      step := None;
      if !Awaits() {
        return;
      }
      var key, entry := awaited.value.key, awaited.value.entry;
      match wakeup {
        case AwaitedReceives =>
          if entry.newcomers != [] && CloseSignal !in entry.emitted {
            awaited := Some(Awaited(key, entry.(newcomers := entry.newcomers[1..])));
            step := Some(AwaitedTakes);
          }
        case AwaitedSends(control) =>
          if |signals| < CONTROL_BUFFER && MayEmit(entry.emitted, control) {
            awaited := Some(Awaited(key, entry.(emitted := entry.emitted + [control])));
            signals := signals + [Signal(key, control)];
            step := Some(AwaitedEmits(control));
          }
      }
    }

    /** What clients and rooms do by themselves. */
    method LetRun(wakeup: Wakeup) returns (ghost step: Option<Step>)
      requires wakeup.ClientDecides? || wakeup.RoomReceives? || wakeup.RoomSends?
      modifies this`joiners, this`requests, this`roomMap, this`signals
      ensures step.Some? ==> Can(table, old(Model()), step.value) && Model() == After(old(Model()), step.value)
      ensures step.None? ==> Model() == old(Model())
    {
      step := None;
      match wakeup {
        case ClientDecides(joiner, outcome) =>
          if joiner in joiners && |requests| < REQUEST_BUFFER {
            requests := requests + [LobbyRequest(joiner, CommandFor(outcome), joiners[joiner])];
            joiners := joiners - {joiner};
            step := Some(Decide(joiner, outcome));
          }
        case RoomReceives(key) =>
          if key in roomMap && roomMap[key].newcomers != [] && CloseSignal !in roomMap[key].emitted {
            roomMap := roomMap[key := roomMap[key].(newcomers := roomMap[key].newcomers[1..])];
            step := Some(RoomTakes(key));
          }
        case RoomSends(room, control) =>
          if room in roomMap && |signals| < CONTROL_BUFFER && MayEmit(roomMap[room].emitted, control) {
            roomMap := roomMap[room := roomMap[room].(emitted := roomMap[room].emitted + [control])];
            signals := signals + [Signal(room, control)];
            step := Some(RoomEmits(room, control));
          }
      }
    }

    /**
     One turn of the main loop; an event that cannot happen now does not, and none does while it awaits a room.
     It is not done if the draws do not suffice.
     */
    method ServeEvent(wakeup: Wakeup) returns (done: bool, ghost step: Option<Step>)
      requires Table(table) && ValidWakeup(wakeup)
      modifies this
      ensures done && step.Some? ==> Can(table, old(Model()), step.value) && Model() == After(old(Model()), step.value)
      ensures done && step.None? ==> Model() == old(Model())
    {
      done, step := true, None;
      match wakeup {
        case ConnectionComes(client, handles) =>
          if client !in seen && !Awaits() {
            ghost var full := |joinQueue| >= playerQueueCapacity;
            var hasRoom := |joinQueue| < playerQueueCapacity;
            var handle := OnConnection(client, handles);
            done := handle.Some? || !hasRoom;
            step := Some(Connect(client, if handle.Some? && !full then handle.value else 0));
          }
        case RequestComes(codes) =>
          if requests != [] && !Awaits() {
            ghost var code;
            done, code := OnRequest(codes);
            step := Some(TakeRequest(code));
          }
        case ControlComes =>
          if signals != [] && !Awaits() {
            OnControl();
            step := Some(TakeSignal);
          }
        case ConfigComes(newMaxRooms, newCapacity) =>
          if !Awaits() {
            var aborts := OnConfig(newMaxRooms, newCapacity);
            step := Some(Configure(newMaxRooms, newCapacity, aborts));
          }
        case AwaitedReceives => step := LetAwaitedRun(wakeup);
        case AwaitedSends(_) => step := LetAwaitedRun(wakeup);
        case _ => step := LetRun(wakeup);
      }
    }

    /** The main loop, for as long as events come and draws suffice: whatever they are, a run of the state machine. */
    method MainLoop(wakeups: seq<Wakeup>) returns (done: bool, ghost steps: seq<Step>)
      requires Table(table) && forall i :: 0 <= i < |wakeups| ==> ValidWakeup(wakeups[i])
      modifies this
      ensures IsRun(table, old(Model()), steps) && (done ==> Final(old(Model()), steps) == Model())
    {
      ghost var before := Model();
      done, steps := true, [];
      var i := 0;
      while i < |wakeups| && done
        invariant 0 <= i <= |wakeups| && IsRun(table, before, steps)
        invariant done ==> Final(before, steps) == Model()
      {
        ghost var step;
        done, step := ServeEvent(wakeups[i]);
        if done && step.Some? {
          ExtendRun(table, before, steps, step.value);
          steps := steps + [step.value];
        }
        i := i + 1;
      }
    }
  }
}
