/**
 Nobody is lost between the lobby and its rooms, over every run: whoever the lobby gave to a room was taken in by
 that room's task, or waits in exactly one channel, or was in the channel of a room that is gone.
 */
module LobbyCustody {
  import opened Common
  import opened RoomCodes
  import opened Lobbies
  import opened LobbyBooks
  import opened LobbyRuns
  import opened LobbyStale
  import Joining

  /** The channel of a room on the map, or of the one the lobby awaits. */
  datatype Place = Under(key: u32) | OffMap

  function Channel(l: Lobby, place: Place): seq<Stream> {
    match place
    case Under(key) => if key in l.rooms then l.rooms[key].newcomers else []
    case OffMap => if l.awaited.Some? then l.awaited.value.entry.newcomers else []
  }

  predicate WaitsAt(l: Lobby, place: Place, i: int, s: Stream) {
    0 <= i < |Channel(l, place)| && Channel(l, place)[i] == s
  }

  /** The lobby gave the client to a room. */
  predicate InARoom(l: Lobby, s: Stream) { s in l.fates && l.fates[s].InRoom? }

  /** Nobody waits in two places. */
  ghost predicate WaitOnce(l: Lobby) {
    forall p, i, q, j, s :: WaitsAt(l, p, i, s) && WaitsAt(l, q, j, s) ==> p == q && i == j
  }

  /** Those who wait, those the rooms have taken in, hosts included, and those who are lost. */
  ghost predicate Apart(l: Lobby, taken: set<Stream>, lost: set<Stream>) {
    && (forall p, i, s :: WaitsAt(l, p, i, s) ==> InARoom(l, s) && s !in taken && s !in lost)
    && (forall s :: s in taken ==> InARoom(l, s) && s !in lost)
    && (forall s :: s in lost ==> InARoom(l, s))
  }

  predicate Waiting(l: Lobby, s: Stream) {
    (exists k :: k in l.rooms && s in Channel(l, Under(k))) || s in Channel(l, OffMap)
  }

  /** Everybody given to a room is one of these, and that once. */
  ghost predicate Kept(l: Lobby, taken: set<Stream>, lost: set<Stream>) {
    && WaitOnce(l) && Apart(l, taken, lost)
    && forall s :: InARoom(l, s) ==> s in taken || s in lost || Waiting(l, s)
  }

  function FirstOf(channel: seq<Stream>): set<Stream> { if channel == [] then {} else {channel[0]} }

  /** Whom a step of the lobby takes out of a channel, or makes the host of a new room. */
  function TakenBy(l: Lobby, step: Step): set<Stream> {
    match step
    case RoomTakes(key) => FirstOf(Channel(l, Under(key)))
    case AwaitedTakes => FirstOf(Channel(l, OffMap))
    case TakeRequest(_) => if Opens(l, step) then {l.requests[0].stream} else {}
    case _ => {}
  }

  /** The next signal is the close of a room on the map. */
  predicate TakesOff(l: Lobby, step: Step) {
    step.TakeSignal? && l.signals != [] && l.signals[0].control.CloseSignal? && l.signals[0].code in l.rooms
  }

  /** Who was in a channel that is no more after a step. */
  function LostBy(l: Lobby, step: Step): set<Stream> {
    match step
    case Configure(_, _, aborts) => set k, s | k in aborts && s in Channel(l, Under(k)) :: s
    case _ => if TakesOff(l, step) then set s | s in Channel(l, OffMap) else {}
  }

  // ----- what can happen to the channels -----

  lemma WaitingSomewhere(l: Lobby, s: Stream) returns (p: Place, i: int)
    requires Waiting(l, s)
    ensures WaitsAt(l, p, i, s)
  {
    if k :| k in l.rooms && s in Channel(l, Under(k)) {
      p := Under(k);
    } else {
      p := OffMap;
    }
    i :| 0 <= i < |Channel(l, p)| && Channel(l, p)[i] == s;
  }

  lemma WaitsThere(l: Lobby, p: Place, i: int, s: Stream)
    requires WaitsAt(l, p, i, s)
    ensures Waiting(l, s)
  {
    assert s in Channel(l, p);
  }

  lemma SameChannels(l: Lobby, next: Lobby, taken: set<Stream>, lost: set<Stream>, hosts: set<Stream>)
    requires Kept(l, taken, lost) && forall s :: s in hosts ==> !InARoom(l, s)
    requires forall p :: Channel(next, p) == Channel(l, p)
    requires forall s :: InARoom(next, s) <==> InARoom(l, s) || s in hosts
    ensures Kept(next, taken + hosts, lost)
  {
    assert forall p, i, s :: WaitsAt(next, p, i, s) == WaitsAt(l, p, i, s);
    forall s | InARoom(next, s) ensures s in taken + hosts || s in lost || Waiting(next, s) {
      if Waiting(l, s) {
        var p, i := WaitingSomewhere(l, s);
        WaitsThere(next, p, i, s);
      }
    }
  }

  lemma OneSent(l: Lobby, next: Lobby, taken: set<Stream>, lost: set<Stream>, place: Place, x: Stream)
    requires Kept(l, taken, lost) && !InARoom(l, x)
    requires Channel(next, place) == Channel(l, place) + [x]
    requires forall p :: p != place ==> Channel(next, p) == Channel(l, p)
    requires forall s :: InARoom(next, s) <==> InARoom(l, s) || s == x
    ensures Kept(next, taken, lost)
  {
    var end := |Channel(l, place)|;
    forall p, i, s ensures WaitsAt(next, p, i, s) <==> WaitsAt(l, p, i, s) || (p == place && i == end && s == x) {
    }
    forall s | InARoom(next, s) ensures s in taken || s in lost || Waiting(next, s) {
      if s == x {
        WaitsThere(next, place, end, x);
      } else if Waiting(l, s) {
        var p, i := WaitingSomewhere(l, s);
        WaitsThere(next, p, i, s);
      }
    }
  }

  lemma OneTaken(l: Lobby, next: Lobby, taken: set<Stream>, lost: set<Stream>, place: Place, x: Stream)
    requires Kept(l, taken, lost) && Channel(l, place) == [x] + Channel(next, place)
    requires forall p :: p != place ==> Channel(next, p) == Channel(l, p)
    requires forall s :: InARoom(next, s) == InARoom(l, s)
    ensures Kept(next, taken + {x}, lost)
  {
    assert WaitsAt(l, place, 0, x);
    forall p, i, s | WaitsAt(next, p, i, s) ensures WaitsAt(l, p, if p == place then i + 1 else i, s) {
    }
    forall s | InARoom(next, s) ensures s in taken + {x} || s in lost || Waiting(next, s) {
      if Waiting(l, s) && s != x {
        var p, i := WaitingSomewhere(l, s);
        WaitsThere(next, p, if p == place then i - 1 else i, s);
      }
    }
  }

  /** A channel goes from one place to another, which was empty. */
  lemma OneMoved(l: Lobby, next: Lobby, taken: set<Stream>, lost: set<Stream>, here: Place, there: Place)
    requires Kept(l, taken, lost) && here != there && Channel(l, there) == []
    requires Channel(next, there) == Channel(l, here) && Channel(next, here) == []
    requires forall p :: p != here && p != there ==> Channel(next, p) == Channel(l, p)
    requires forall s :: InARoom(next, s) == InARoom(l, s)
    ensures Kept(next, taken, lost)
  {
    forall p, i, s | WaitsAt(next, p, i, s) ensures p != here && WaitsAt(l, if p == there then here else p, i, s) {
    }
    forall s | InARoom(next, s) ensures s in taken || s in lost || Waiting(next, s) {
      if Waiting(l, s) {
        var p, i := WaitingSomewhere(l, s);
        WaitsThere(next, if p == here then there else p, i, s);
      }
    }
  }

  /** Some channels are gone, and whoever was there is lost. */
  lemma SomeGone(l: Lobby, next: Lobby, taken: set<Stream>, lost: set<Stream>, gone: Place -> bool, more: set<Stream>)
    requires Kept(l, taken, lost)
    requires forall p :: Channel(next, p) == if gone(p) then [] else Channel(l, p)
    requires forall s :: s in more <==> exists p, i :: gone(p) && WaitsAt(l, p, i, s)
    requires forall s :: InARoom(next, s) == InARoom(l, s)
    ensures Kept(next, taken, lost + more)
  {
    forall p, i, s | WaitsAt(next, p, i, s) ensures WaitsAt(l, p, i, s) && s !in more {
      assert !gone(p) && WaitsAt(l, p, i, s);
    }
    forall s | InARoom(next, s) ensures s in taken || s in lost + more || Waiting(next, s) {
      if Waiting(l, s) && s !in more {
        var p, i := WaitingSomewhere(l, s);
        WaitsThere(next, p, i, s);
      }
    }
  }

  // ----- the steps -----

  /** The channels and those given to a room are the same, but for one who was sent to a room. */
  ghost predicate OnlySent(l: Lobby, next: Lobby, key: u32, x: Stream) {
    && Channel(next, Under(key)) == Channel(l, Under(key)) + [x]
    && (forall p :: p != Under(key) ==> Channel(next, p) == Channel(l, p))
    && forall s :: InARoom(next, s) <==> InARoom(l, s) || s == x
  }

  ghost predicate Untouched(l: Lobby, next: Lobby) {
    (forall p :: Channel(next, p) == Channel(l, p)) && forall s :: InARoom(next, s) == InARoom(l, s)
  }

  lemma SendOnChannels(l: Lobby, key: u32, x: Stream)
    requires key in l.rooms && x !in l.fates
    ensures Untouched(l, SendNewcomer(l, key, x)) || OnlySent(l, SendNewcomer(l, key, x), key, x)
  {
    var entry, next := l.rooms[key], SendNewcomer(l, key, x);
    if !entry.isSealed && CloseSignal !in entry.emitted && |entry.newcomers| < NEWCOMER_BUFFER {
      assert next.rooms[key].newcomers == entry.newcomers + [x];
    }
  }

  lemma RequestOnChannels(l: Lobby, req: LobbyRequest, newCode: RoomCode)
    requires !(req.cmd.CreateRoom? && |l.rooms| < l.maxRooms) && req.stream !in l.fates
    ensures var next := AfterRequest(l, req, newCode);
            Untouched(l, next) || (req.cmd.JoinRoom? && OnlySent(l, next, ToU32(req.cmd.code), req.stream))
  {
    if req.cmd.JoinRoom? && ToU32(req.cmd.code) in l.rooms {
      SendOnChannels(l.(joinQueue := l.joinQueue - {req.handle}), ToU32(req.cmd.code), req.stream);
    }
  }

  lemma OpenOnChannels(l: Lobby, key: u32, host: Stream)
    requires key !in l.rooms && host !in l.fates
    ensures forall p :: Channel(Open(l, key, host), p) == Channel(l, p)
    ensures forall s :: InARoom(Open(l, key, host), s) <==> InARoom(l, s) || s == host
  {
  }

  lemma UntouchedKeeps(l: Lobby, next: Lobby, taken: set<Stream>, lost: set<Stream>)
    requires Kept(l, taken, lost) && Untouched(l, next)
    ensures Kept(next, taken, lost) && taken + {} == taken && lost + {} == lost
  {
    assert taken + {} == taken;
    SameChannels(l, next, taken, lost, {});
  }

  lemma HandleKeeps(l: Lobby, req: LobbyRequest, newCode: RoomCode, taken: set<Stream>, lost: set<Stream>)
    requires Kept(l, taken, lost) && req.stream !in l.fates
    requires req.cmd.CreateRoom? && |l.rooms| < l.maxRooms ==> ToU32(newCode) !in l.rooms
    ensures Kept(AfterRequest(l, req, newCode),
                 taken + if req.cmd.CreateRoom? && |l.rooms| < l.maxRooms then {req.stream} else {}, lost)
  {
    var next := AfterRequest(l, req, newCode);
    if req.cmd.CreateRoom? && |l.rooms| < l.maxRooms {
      OpenOnChannels(l.(joinQueue := l.joinQueue - {req.handle}), ToU32(newCode), req.stream);
      SameChannels(l, next, taken, lost, {req.stream});
    } else {
      assert taken + {} == taken;
      RequestOnChannels(l, req, newCode);
      if Untouched(l, next) {
        UntouchedKeeps(l, next, taken, lost);
      } else {
        OneSent(l, next, taken, lost, Under(ToU32(req.cmd.code)), req.stream);
      }
    }
  }

  lemma RequestKeeps(table: seq<byte>, l: Lobby, newCode: RoomCode, taken: set<Stream>, lost: set<Stream>)
    requires Kept(l, taken, lost) && Accounted(l) && Can(table, l, TakeRequest(newCode))
    ensures Kept(After(l, TakeRequest(newCode)), taken + TakenBy(l, TakeRequest(newCode)),
                 lost + LostBy(l, TakeRequest(newCode)))
  {
    var req, rest := l.requests[0], l.(requests := l.requests[1..]);
    assert req.stream !in l.fates;
    UntouchedKeeps(l, rest, taken, lost);
    HandleKeeps(rest, req, newCode, taken, lost);
  }

  lemma TakeOffKeeps(l: Lobby, taken: set<Stream>, lost: set<Stream>)
    requires Kept(l, taken, lost) && TakesOff(l, TakeSignal)
    ensures Kept(After(l, TakeSignal), taken + TakenBy(l, TakeSignal), lost + LostBy(l, TakeSignal))
  {
    assert taken + {} == taken;
    var cleared := l.(awaited := None);
    forall s ensures s in LostBy(l, TakeSignal) <==> exists p: Place, i :: p.OffMap? && WaitsAt(l, p, i, s) {
      if s in Channel(l, OffMap) {
        var i :| 0 <= i < |Channel(l, OffMap)| && Channel(l, OffMap)[i] == s;
        assert WaitsAt(l, OffMap, i, s);
      }
    }
    SomeGone(l, cleared, taken, lost, (p: Place) => p.OffMap?, LostBy(l, TakeSignal));
    OneMoved(cleared, After(l, TakeSignal), taken, lost + LostBy(l, TakeSignal), Under(l.signals[0].code), OffMap);
  }

  lemma LostByAborts(l: Lobby, aborts: set<u32>, lost: set<Stream>, s: Stream)
    requires lost == set k, s | k in aborts && s in Channel(l, Under(k)) :: s
    ensures s in lost <==> exists p: Place, i :: p.Under? && p.key in aborts && WaitsAt(l, p, i, s)
  {
    if s in lost {
      var k :| k in aborts && s in Channel(l, Under(k));
      var i :| 0 <= i < |Channel(l, Under(k))| && Channel(l, Under(k))[i] == s;
      assert WaitsAt(l, Under(k), i, s);
    }
    if p: Place, i :| p.Under? && p.key in aborts && WaitsAt(l, p, i, s) {
      assert p == Under(p.key) && s in Channel(l, p);
    }
  }

  lemma AbortsKeep(l: Lobby, step: Step, taken: set<Stream>, lost: set<Stream>)
    requires Kept(l, taken, lost) && step.Configure?
    ensures Kept(After(l, step), taken + TakenBy(l, step), lost + LostBy(l, step))
  {
    assert taken + {} == taken;
    var gone, more := (p: Place) => p.Under? && p.key in step.aborts, LostBy(l, step);
    forall s ensures s in more <==> exists p, i :: gone(p) && WaitsAt(l, p, i, s) {
      LostByAborts(l, step.aborts, more, s);
      if p: Place, i :| p.Under? && p.key in step.aborts && WaitsAt(l, p, i, s) {
        assert gone(p);
      }
    }
    SomeGone(l, After(l, step), taken, lost, gone, more);
  }

  lemma ConnectOnChannels(l: Lobby, client: Stream, handle: u32)
    requires client !in l.fates
    ensures Untouched(l, AfterConnect(l, client, handle))
  {
  }

  lemma EmitOnChannels(table: seq<byte>, l: Lobby, step: Step)
    requires Can(table, l, step) && (step.RoomEmits? || step.AwaitedEmits?)
    ensures Untouched(l, After(l, step))
  {
  }

  predicate LeavesChannels(l: Lobby, step: Step) {
    step.Connect? || step.Decide? || step.RoomEmits? || step.AwaitedEmits? || (step.TakeSignal? && !TakesOff(l, step))
  }

  lemma TakeOnChannels(l: Lobby)
    requires l.signals != [] && !TakesOff(l, TakeSignal)
    ensures Untouched(l, After(l, TakeSignal))
  {
  }

  lemma DecideOnChannels(l: Lobby, joiner: u32, outcome: Joining.Outcome)
    ensures Untouched(l, After(l, Decide(joiner, outcome)))
  {
  }

  lemma OthersOnChannels(table: seq<byte>, l: Lobby, step: Step)
    requires Can(table, l, step) && LeavesChannels(l, step) && (step.Connect? ==> step.client !in l.fates)
    ensures Untouched(l, After(l, step)) && TakenBy(l, step) == {} && LostBy(l, step) == {}
  {
    match step {
      case Connect(client, handle) => ConnectOnChannels(l, client, handle);
      case Decide(joiner, outcome) => DecideOnChannels(l, joiner, outcome);
      case TakeSignal => TakeOnChannels(l);
      case _ => EmitOnChannels(table, l, step);
    }
  }

  lemma OthersKeep(table: seq<byte>, l: Lobby, step: Step, taken: set<Stream>, lost: set<Stream>)
    requires Kept(l, taken, lost) && Can(table, l, step) && LeavesChannels(l, step)
    requires step.Connect? ==> step.client !in l.fates
    ensures Kept(After(l, step), taken + TakenBy(l, step), lost + LostBy(l, step))
  {
    OthersOnChannels(table, l, step);
    UntouchedKeeps(l, After(l, step), taken, lost);
  }

  lemma TakingKeeps(table: seq<byte>, l: Lobby, step: Step, taken: set<Stream>, lost: set<Stream>)
    requires Kept(l, taken, lost) && Can(table, l, step) && (step.RoomTakes? || step.AwaitedTakes?)
    ensures Kept(After(l, step), taken + TakenBy(l, step), lost + LostBy(l, step))
  {
    var place := if step.RoomTakes? then Under(step.key) else OffMap;
    var x := Channel(l, place)[0];
    assert Channel(l, place) == [x] + Channel(After(l, step), place);
    OneTaken(l, After(l, step), taken, lost, place, x);
    assert lost + {} == lost;
  }

  lemma TakenAreNew(table: seq<byte>, l: Lobby, step: Step, taken: set<Stream>, lost: set<Stream>)
    requires Apart(l, taken, lost) && Accounted(l) && Can(table, l, step)
    ensures TakenBy(l, step) !! taken
  {
    match step {
      case RoomTakes(key) => assert WaitsAt(l, Under(key), 0, Channel(l, Under(key))[0]);
      case AwaitedTakes => assert WaitsAt(l, OffMap, 0, Channel(l, OffMap)[0]);
      case _ =>
    }
  }

  /** Every step of the lobby keeps this; and whom it takes has not been taken before. */
  lemma StepKeepsKept(table: seq<byte>, l: Lobby, step: Step, taken: set<Stream>, lost: set<Stream>)
    requires Kept(l, taken, lost) && Books(l) && Can(table, l, step)
    ensures Kept(After(l, step), taken + TakenBy(l, step), lost + LostBy(l, step))
    ensures TakenBy(l, step) !! taken
  {
    TakenAreNew(table, l, step, taken, lost);
    if LeavesChannels(l, step) {
      OthersKeep(table, l, step, taken, lost);
    } else if step.TakeRequest? {
      RequestKeeps(table, l, step.newCode, taken, lost);
    } else if step.TakeSignal? {
      TakeOffKeeps(l, taken, lost);
    } else if step.Configure? {
      AbortsKeep(l, step, taken, lost);
    } else {
      TakingKeeps(table, l, step, taken, lost);
    }
  }

  // ----- over runs -----

  /** Whom the rooms have taken in after a run, and who is lost then. */
  function TakenAfter(l: Lobby, steps: seq<Step>, taken: set<Stream>): set<Stream>
    decreases |steps|
  {
    if steps == [] then taken else TakenAfter(After(l, steps[0]), steps[1..], taken + TakenBy(l, steps[0]))
  }

  function LostAfter(l: Lobby, steps: seq<Step>, lost: set<Stream>): set<Stream>
    decreases |steps|
  {
    if steps == [] then lost else LostAfter(After(l, steps[0]), steps[1..], lost + LostBy(l, steps[0]))
  }

  /** How often a run takes somebody in. */
  function Takings(l: Lobby, steps: seq<Step>): nat
    decreases |steps|
  {
    if steps == [] then 0 else |TakenBy(l, steps[0])| + Takings(After(l, steps[0]), steps[1..])
  }

  ghost predicate SoundlyKept(table: seq<byte>, l: Lobby, taken: set<Stream>, lost: set<Stream>) {
    SoundLobby(table, l) && Kept(l, taken, lost)
  }

  lemma StepKeepsSoundlyKept(table: seq<byte>, l: Lobby, step: Step, taken: set<Stream>, lost: set<Stream>)
    requires SoundlyKept(table, l, taken, lost) && Can(table, l, step)
    ensures SoundlyKept(table, After(l, step), taken + TakenBy(l, step), lost + LostBy(l, step))
    ensures |taken + TakenBy(l, step)| == |taken| + |TakenBy(l, step)|
  {
    StepKeepsKept(table, l, step, taken, lost);
    StepKeepsSoundLobby(table, l, step);
  }

  /**
   Over every run, whoever the lobby has given to a room has been taken in by its task, or waits, or is lost with
   the room, and is only one of these; and nobody has been taken in twice.
   */
  lemma {:induction false} RunsKeep(table: seq<byte>, l: Lobby, steps: seq<Step>, taken: set<Stream>, lost: set<Stream>)
    requires SoundlyKept(table, l, taken, lost) && IsRun(table, l, steps)
    ensures SoundlyKept(table, Final(l, steps), TakenAfter(l, steps, taken), LostAfter(l, steps, lost))
    ensures |TakenAfter(l, steps, taken)| == |taken| + Takings(l, steps)
    decreases |steps|
  {
    if steps == [] {
    } else {
      StepKeepsSoundlyKept(table, l, steps[0], taken, lost);
      RunsKeep(table, After(l, steps[0]), steps[1..], taken + TakenBy(l, steps[0]), lost + LostBy(l, steps[0]));
    }
  }
}
