/**
 The main results about the lobby, over every run: the room map stays within its limit and under
 usable codes, no client is lost and none gets two fates, and every control signal meets its own
 room. The last needs that no room is opened under a code with signals still queued: without aborts
 that always holds, and with one abort a run is shown in which a close meets a live room instead.
 */
module LobbyRuns {
  import opened Common
  import opened RoomCodes
  import opened TextProtocol
  import opened Players
  import opened Joining
  import opened Lobbies
  import opened LobbyBooks
  import Rooms
  import RoomLimits
  import RoomRuns

  // ----- rooms, as the lobby sees them -----

  lemma OtherStepsEmitNothing(capacity: nat, r: Rooms.Room, step: Rooms.Step)
    requires Rooms.Can(r, step) && !step.EmitSeal? && !step.EmitClose?
    ensures Rooms.After(capacity, r, step).control == r.control
  {
    match step {
      case TakeRequest => RoomLimits.ModeAfterRequest(r.(requests := r.requests[1..]), r.requests[0]);
      case _ =>
    }
  }

  lemma OrderedEmissions(r: Rooms.Room)
    requires RoomLimits.Ordered(r)
    ensures r.mode.Broken? ==> MayEmit(r.control, SealSignal)
    ensures r.mode.Sweeping? ==> MayEmit(r.control, CloseSignal)
    ensures CloseSignal in r.control ==> r.mode.Finished?
  {
  }

  /**
   What Lobbies.Can lets a room do is what rooms do: in every sound room a step emits nothing or the signal
   MayEmit allows next, and once the close is emitted the room takes nobody from its channel any more.
   */
  lemma RoomsEmitInOrder(capacity: nat, r: Rooms.Room, step: Rooms.Step)
    requires RoomRuns.Sound(r) && Rooms.Can(r, step)
    ensures var next := Rooms.After(capacity, r, step);
            next.control == r.control
            || (exists control :: next.control == r.control + [control] && MayEmit(r.control, control))
    ensures CloseSignal in r.control ==> !step.Join? && !step.Sweep? && !step.Refuse?
  {
    OrderedEmissions(r);
    if !step.EmitSeal? && !step.EmitClose? {
      OtherStepsEmitNothing(capacity, r, step);
    }
  }

  // ----- the lobby over runs -----

  /** Each client is closed at most once. */
  predicate ClosedOnce(l: Lobby) {
    forall i, j :: 0 <= i < j < |l.closeTasks| ==> l.closeTasks[i].stream != l.closeTasks[j].stream
  }

  ghost predicate SoundLobby(table: seq<byte>, l: Lobby) {
    Housed(table, l) && Books(l) && ClosedOnce(l)
  }

  lemma StartIsSound(table: seq<byte>, maxRooms: nat, queueCapacity: nat)
    requires maxRooms <= 400_000 && queueCapacity <= 10_000
    ensures SoundLobby(table, Start(maxRooms, queueCapacity)) && Signalled(Start(maxRooms, queueCapacity))
  {
  }

  /** A step gives a fate only to clients that have none, and spawns at most one closing task, for such a client. */
  lemma StepFates(table: seq<byte>, l: Lobby, step: Step)
    requires Books(l) && Can(table, l, step)
    ensures var next := After(l, step);
            && (forall s :: s in l.fates ==> s in next.fates && next.fates[s] == l.fates[s])
            && (next.closeTasks == l.closeTasks
                || exists c: CloseTask :: next.closeTasks == l.closeTasks + [c] && c.stream !in l.fates)
  {
    match step {
      case TakeRequest(newCode) =>
        var fate := RequestSettles(l, newCode);
        if fate.ClosedWith? {
          assert CloseTask(l.requests[0].stream, fate.code).stream !in l.fates;
        }
      case Connect(client, handle) =>
        assert CloseTask(client, JoinQueueFull).stream !in l.fates;
      case _ =>
    }
  }

  lemma StepKeepsSoundLobby(table: seq<byte>, l: Lobby, step: Step)
    requires SoundLobby(table, l) && Can(table, l, step)
    ensures SoundLobby(table, After(l, step))
  {
    StepKeepsHoused(table, l, step);
    StepKeepsBooks(table, l, step);
    StepFates(table, l, step);
  }

  /**
   Every run of the lobby: never more rooms than allowed, each under a valid and clean code; every client
   ever seen is waiting, asking, or has its one fate, which it keeps; and nobody is closed twice.
   */
  lemma {:induction false} RunsAreSoundLobbies(table: seq<byte>, l: Lobby, steps: seq<Step>)
    requires SoundLobby(table, l) && IsRun(table, l, steps)
    ensures SoundLobby(table, Final(l, steps))
    ensures forall s :: s in l.fates ==> s in Final(l, steps).fates && Final(l, steps).fates[s] == l.fates[s]
    decreases |steps|
  {
    if steps == [] {
    } else {
      StepKeepsSoundLobby(table, l, steps[0]);
      StepFates(table, l, steps[0]);
      RunsAreSoundLobbies(table, After(l, steps[0]), steps[1..]);
    }
  }

  /** The handle of a queued request is always in the join queue, and its task is done: it asks only once. */
  lemma {:induction false} HandleIsFound(table: seq<byte>, l: Lobby, steps: seq<Step>)
    requires SoundLobby(table, l) && IsRun(table, l, steps) && Final(l, steps).requests != []
    ensures var last := Final(l, steps);
            && last.requests[0].handle in last.joinQueue && last.requests[0].handle !in last.joiners
            && forall i :: 0 < i < |last.requests| ==> last.requests[i].handle != last.requests[0].handle
  {
    RunsAreSoundLobbies(table, l, steps);
  }

  /** Unless the lobby waits for a room, a queued request can be handled: if it needs a code, there is one. */
  lemma RequestCanBeTaken(table: seq<byte>, l: Lobby) returns (code: RoomCode)
    requires Housed(table, l) && l.requests != [] && !Blocked(l) && Records(table) <= 160
    ensures Can(table, l, TakeRequest(code))
  {
    if |l.rooms| < l.maxRooms {
      code := CodeIsAvailable(table, l);
    } else {
      code := Nth(0);
    }
  }

  // ----- signals over runs -----

  ghost predicate TidyRun(l: Lobby, steps: seq<Step>)
    decreases |steps|
  {
    steps == [] || (Tidy(l, steps[0]) && TidyRun(After(l, steps[0]), steps[1..]))
  }

  predicate NoAborts(steps: seq<Step>) {
    forall i :: 0 <= i < |steps| && steps[i].Configure? ==> steps[i].aborts == {}
  }

  lemma {:induction false} TidyRunsAreSignalled(table: seq<byte>, l: Lobby, steps: seq<Step>)
    requires Signalled(l) && IsRun(table, l, steps) && TidyRun(l, steps)
    ensures Signalled(Final(l, steps))
    decreases |steps|
  {
    if steps == [] {
    } else {
      StepKeepsSignalled(table, l, steps[0]);
      TidyRunsAreSignalled(table, After(l, steps[0]), steps[1..]);
    }
  }

  /** Runs in which no room is aborted are tidy, so that their signals always meet their own rooms. */
  lemma {:induction false} RunsWithoutAbortsAreTidy(table: seq<byte>, l: Lobby, steps: seq<Step>)
    requires Signalled(l) && l.aborted == {} && IsRun(table, l, steps) && NoAborts(steps)
    ensures TidyRun(l, steps) && Signalled(Final(l, steps)) && Final(l, steps).aborted == {}
    decreases |steps|
  {
    if steps == [] {
    } else {
      NoAbortsNoStaleSignals(table, l, steps[0]);
      StepKeepsSignalled(table, l, steps[0]);
      assert forall i :: 0 <= i < |steps[1..]| ==> steps[1..][i] == steps[i + 1];
      RunsWithoutAbortsAreTidy(table, After(l, steps[0]), steps[1..]);
    }
  }

  lemma QueuedInStep(entry: RoomEntry, queued: seq<Control>)
    requires entry.emitted == Seen(entry) + queued && entry.emitted <= ALL_SIGNALS
    ensures queued == [] || queued == [SealSignal] || queued == [CloseSignal] || queued == ALL_SIGNALS
    ensures queued != [] ==> (queued[0].SealSignal? <==> !entry.isSealed)
  {
    if queued != [] {
      assert entry.emitted[|Seen(entry)|..] == queued;
      assert queued[0] == ALL_SIGNALS[|Seen(entry)|];
      assert |queued| == 2 ==> queued[1] == entry.emitted[|Seen(entry)| + 1];
    }
  }

  /** Without aborts, what is queued for a code is never anything but a seal, a close, or a seal and then a close. */
  lemma {:induction false} QueuedSignals(table: seq<byte>, l: Lobby, steps: seq<Step>, key: u32)
    requires Signalled(l) && l.aborted == {} && IsRun(table, l, steps) && NoAborts(steps)
    ensures var queued := Queued(key, Final(l, steps).signals);
            queued == [] || queued == [SealSignal] || queued == [CloseSignal] || queued == ALL_SIGNALS
    ensures Queued(key, Final(l, steps).signals) != [] ==>
              key in Final(l, steps).rooms
              && (Queued(key, Final(l, steps).signals)[0].SealSignal? <==> !Final(l, steps).rooms[key].isSealed)
  {
    RunsWithoutAbortsAreTidy(table, l, steps);
    var last := Final(l, steps);
    if key in last.rooms {
      QueuedInStep(last.rooms[key], Queued(key, last.signals));
    }
  }

  // ----- after an abort -----

  lemma RunStep(table: seq<byte>, l: Lobby, step: Step, rest: seq<Step>)
    requires Can(table, l, step) && IsRun(table, After(l, step), rest)
    ensures IsRun(table, l, [step] + rest) && Final(l, [step] + rest) == Final(After(l, step), rest)
  {
  }

  /** The first words of a client that wants a room of its own. */
  const HOST_TEXT: Outcome := Heard(TextMessage(PrintRequest(Host)))

  /** The lobby after a client was given a room of its own. */
  function Hosted(l: Lobby, client: Stream, code: RoomCode): Lobby {
    Open(l.(seen := l.seen + {client}), ToU32(code), client)
  }

  /** Nobody is waiting, nor is the lobby, and both the queue and the map have a place. */
  predicate Idle(l: Lobby) {
    && !Blocked(l) && l.joinQueue == {} && l.joiners == map[] && l.requests == []
    && l.queueCapacity > 0 && |l.rooms| < l.maxRooms
  }

  /** A client connects, asks for a room, and gets it: three steps. */
  lemma HostIsServed(table: seq<byte>, l: Lobby, client: Stream, code: RoomCode, rest: seq<Step>)
    returns (steps: seq<Step>)
    requires Idle(l) && client !in l.seen && Usable(l.rooms.Keys, table, code)
    requires IsRun(table, Hosted(l, client, code), rest)
    ensures IsRun(table, l, steps) && Final(l, steps) == Final(Hosted(l, client, code), rest)
  {
    ParsePrinted(Host);
    var l1 := After(l, Connect(client, 0));
    assert l1 == l.(seen := l.seen + {client}, joinQueue := {0}, joiners := map[0 := client]);
    var l2 := After(l1, Decide(0, HOST_TEXT));
    assert map[0 := client] - {0} == map[];
    assert l2 == l1.(joiners := map[], requests := [LobbyRequest(0, CreateRoom, client)]);
    assert l2.requests[1..] == [] && {0} - {0} == {};
    assert After(l2, TakeRequest(code)) == Hosted(l, client, code);
    RunStep(table, l2, TakeRequest(code), rest);
    RunStep(table, l1, Decide(0, HOST_TEXT), [TakeRequest(code)] + rest);
    RunStep(table, l, Connect(client, 0), [Decide(0, HOST_TEXT)] + ([TakeRequest(code)] + rest));
    steps := [Connect(client, 0)] + ([Decide(0, HOST_TEXT)] + ([TakeRequest(code)] + rest));
  }

  /** A room that has emitted some signals, none of which the lobby has handled. */
  function Emitted(l: Lobby, k: u32, controls: seq<Control>): Lobby
    requires k in l.rooms
  {
    l.(rooms := l.rooms[k := l.rooms[k].(emitted := controls)],
       signals := seq(|controls|, i requires 0 <= i < |controls| => Signal(k, controls[i])))
  }

  function Departed(l: Lobby, k: u32): Lobby
    requires k in l.rooms
  {
    Emitted(l, k, ALL_SIGNALS)
  }

  lemma RoomEmitsNext(table: seq<byte>, l: Lobby, k: u32, controls: seq<Control>, control: Control)
    requires k in l.rooms && MayEmit(controls, control) && |controls| < CONTROL_BUFFER
    ensures Can(table, Emitted(l, k, controls), RoomEmits(k, control))
    ensures After(Emitted(l, k, controls), RoomEmits(k, control)) == Emitted(l, k, controls + [control])
  {
  }

  lemma RoomDeparts(table: seq<byte>, l: Lobby, k: u32, rest: seq<Step>) returns (steps: seq<Step>)
    requires l.signals == [] && k in l.rooms && l.rooms[k].emitted == [] && IsRun(table, Departed(l, k), rest)
    ensures IsRun(table, l, steps) && Final(l, steps) == Final(Departed(l, k), rest)
  {
    var seal, close := RoomEmits(k, SealSignal), RoomEmits(k, CloseSignal);
    assert Emitted(l, k, []) == l by {
      assert l.rooms[k := l.rooms[k].(emitted := [])] == l.rooms;
    }
    RoomEmitsNext(table, l, k, [], SealSignal);
    RoomEmitsNext(table, l, k, [SealSignal], CloseSignal);
    assert [] + [SealSignal] == [SealSignal] && [SealSignal] + [CloseSignal] == ALL_SIGNALS;
    RunStep(table, Emitted(l, k, [SealSignal]), close, rest);
    RunStep(table, l, seal, [close] + rest);
    steps := [seal] + ([close] + rest);
  }

  /** The lobby after its limit was lowered to one, which cost a room, and raised to two again. */
  function Trimmed(l: Lobby, k: u32): Lobby {
    l.(rooms := l.rooms - {k}, aborted := l.aborted + {k}, maxRooms := 2)
  }

  lemma LimitDipped(table: seq<byte>, l: Lobby, k: u32, rest: seq<Step>) returns (steps: seq<Step>)
    requires k in l.rooms && |l.rooms| == 2 && !Blocked(l) && 0 < l.queueCapacity <= 10_000
    requires IsRun(table, Trimmed(l, k), rest)
    ensures IsRun(table, l, steps) && Final(l, steps) == Final(Trimmed(l, k), rest)
  {
    var lower, raise := Configure(1, l.queueCapacity, {k}), Configure(2, l.queueCapacity, {});
    var l1 := After(l, lower);
    assert |l1.rooms.Keys| == 1 by {
      assert l1.rooms.Keys == l.rooms.Keys - {k} && |l.rooms.Keys| == 2;
    }
    assert l1.rooms - {} == l1.rooms && l1.aborted + {} == l1.aborted;
    assert Can(table, l, lower) && Can(table, l1, raise) && After(l1, raise) == Trimmed(l, k);
    RunStep(table, l1, raise, rest);
    RunStep(table, l, lower, [raise] + rest);
    steps := [lower] + ([raise] + rest);
  }

  /** Two rooms were opened, one after the other. */
  function TwoHosted(l: Lobby, code: RoomCode, other: RoomCode): Lobby {
    Hosted(Hosted(l, 1, code), 2, other)
  }

  /** The room of the first client was aborted with its signals queued; its code is given to the third. */
  function Reused(l: Lobby, code: RoomCode, other: RoomCode): Lobby {
    Hosted(Trimmed(Departed(TwoHosted(l, code, other), ToU32(code)), ToU32(code)), 3, code)
  }

  /** What there is when the code of an aborted room is given out again. */
  lemma ReusedLooks(code: RoomCode, other: RoomCode, queueCapacity: nat)
    requires ToU32(code) != ToU32(other)
    ensures var r := Reused(Start(2, queueCapacity), code, other);
            && r.rooms == map[ToU32(other) := RoomEntry(false, [], []), ToU32(code) := RoomEntry(false, [], [])]
            && r.signals == [Signal(ToU32(code), SealSignal), Signal(ToU32(code), CloseSignal)]
            && r.joinQueue == {} && r.joiners == map[] && r.requests == [] && r.seen == {1, 2, 3}
            && r.maxRooms == 2 && r.queueCapacity == queueCapacity && r.awaited.None?
  {
    var k, l := ToU32(code), Start(2, queueCapacity);
    var two := TwoHosted(l, code, other);
    assert two.rooms == map[k := RoomEntry(false, [], []), ToU32(other) := RoomEntry(false, [], [])];
    assert Trimmed(Departed(two, k), k).rooms == map[ToU32(other) := RoomEntry(false, [], [])];
    assert {} + {1} + {2} + {3} == {1, 2, 3};
  }

  lemma TwoAreServed(table: seq<byte>, code: RoomCode, other: RoomCode, queueCapacity: nat, rest: seq<Step>)
    returns (steps: seq<Step>)
    requires Valid(code) && Valid(other) && ToU32(code) != ToU32(other)
    requires !Listed(table, code) && !Listed(table, other) && 0 < queueCapacity <= 10_000
    requires IsRun(table, TwoHosted(Start(2, queueCapacity), code, other), rest)
    ensures IsRun(table, Start(2, queueCapacity), steps)
    ensures Final(Start(2, queueCapacity), steps) == Final(TwoHosted(Start(2, queueCapacity), code, other), rest)
  {
    var one := Hosted(Start(2, queueCapacity), 1, code);
    assert one.rooms.Keys == {ToU32(code)} && |{ToU32(code)}| == 1;
    steps := HostIsServed(table, one, 2, other, rest);
    steps := HostIsServed(table, Start(2, queueCapacity), 1, code, steps);
  }

  lemma CodeIsReused(table: seq<byte>, code: RoomCode, other: RoomCode, queueCapacity: nat, rest: seq<Step>)
    returns (steps: seq<Step>)
    requires Valid(code) && Valid(other) && ToU32(code) != ToU32(other)
    requires !Listed(table, code) && !Listed(table, other) && 0 < queueCapacity <= 10_000
    requires IsRun(table, Reused(Start(2, queueCapacity), code, other), rest)
    ensures IsRun(table, Start(2, queueCapacity), steps)
    ensures Final(Start(2, queueCapacity), steps) == Final(Reused(Start(2, queueCapacity), code, other), rest)
  {
    var k, two := ToU32(code), TwoHosted(Start(2, queueCapacity), code, other);
    var gone := Departed(two, k);
    assert |{k, ToU32(other)}| == 2 && |{ToU32(other)}| == 1;
    assert two.rooms.Keys == {k, ToU32(other)} == gone.rooms.Keys;
    assert Trimmed(gone, k).rooms.Keys == {ToU32(other)};
    steps := HostIsServed(table, Trimmed(gone, k), 3, code, rest);
    steps := LimitDipped(table, gone, k, steps);
    steps := RoomDeparts(table, two, k, steps);
    steps := TwoAreServed(table, code, other, queueCapacity, steps);
  }

  /** A seal and a close, both stale: with the seal handled the close is next, and with that the lobby waits. */
  lemma StaleSignalsTaken(table: seq<byte>, l: Lobby, k: u32)
    requires l.signals == [Signal(k, SealSignal), Signal(k, CloseSignal)] && k in l.rooms && l.rooms[k].emitted == []
    requires !Blocked(l)
    ensures var last := After(l, TakeSignal);
            && Can(table, l, TakeSignal) && last.signals == [Signal(k, CloseSignal)]
            && k in last.rooms && last.rooms[k].emitted == []
            && k !in After(last, TakeSignal).rooms && Blocked(After(last, TakeSignal))
  {
  }

  /**
   What goes wrong after an abort: the code of the aborted room is given to a new one while the old
   room's signals are queued, and the next signal the lobby handles is a close for the new room, which
   has not emitted anything. The lobby takes the live room off its map and waits for it to end.
   */
  lemma StaleCloseMeetsLiveRoom(table: seq<byte>, code: RoomCode, other: RoomCode, queueCapacity: nat)
    returns (steps: seq<Step>, last: Lobby)
    requires Valid(code) && Valid(other) && code != other && !Listed(table, code)
    requires !Listed(table, other) && 0 < queueCapacity <= 10_000
    ensures IsRun(table, Start(2, queueCapacity), steps) && Final(Start(2, queueCapacity), steps) == last
    ensures last.signals == [Signal(ToU32(code), CloseSignal)]
    ensures ToU32(code) in last.rooms && last.rooms[ToU32(code)].emitted == []
    ensures ToU32(code) !in After(last, TakeSignal).rooms && Blocked(After(last, TakeSignal))
  {
    KeyRoundTrip(code, ToU32(other));
    KeyRoundTrip(other, ToU32(other));
    ReusedLooks(code, other, queueCapacity);
    var reused := Reused(Start(2, queueCapacity), code, other);
    StaleSignalsTaken(table, reused, ToU32(code));
    last := After(reused, TakeSignal);
    assert Final(last, []) == last;
    RunStep(table, reused, TakeSignal, []);
    steps := CodeIsReused(table, code, other, queueCapacity, [TakeSignal] + []);
  }
}
