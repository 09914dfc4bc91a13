/**
 How the lobby can stop for ever. A stale close has it wait for a room that is alive. Meanwhile it takes no
 signal from its queue, and if the other rooms fill the queue, the room it waits for cannot emit its own and
 so never ends. Whether that can happen depends on how many signals are queued or yet to be emitted.
 */
module LobbyDeadlock {
  import opened Common
  import opened RoomCodes
  import opened MapSums
  import opened Lobbies
  import opened LobbyRuns
  import opened LobbyStale

  /** Rooms have emitted a seal, then a close, or less; and the queue of signals is not overfull. */
  ghost predicate Fit(l: Lobby) {
    && |l.signals| <= CONTROL_BUFFER
    && (forall k :: k in l.rooms ==> l.rooms[k].emitted <= ALL_SIGNALS)
    && (l.awaited.Some? ==> l.awaited.value.entry.emitted <= ALL_SIGNALS)
  }

  lemma RequestKeepsFit(table: seq<byte>, l: Lobby, newCode: RoomCode)
    requires Fit(l) && Can(table, l, TakeRequest(newCode))
    ensures Fit(After(l, TakeRequest(newCode)))
  {
  }

  lemma StepKeepsFit(table: seq<byte>, l: Lobby, step: Step)
    requires Fit(l) && Can(table, l, step)
    ensures Fit(After(l, step))
  {
    if step.TakeRequest? {
      RequestKeepsFit(table, l, step.newCode);
    }
  }

  /** Every lobby that is ever reached is fit. */
  lemma {:induction false} RunsAreFit(table: seq<byte>, l: Lobby, steps: seq<Step>)
    requires Fit(l) && IsRun(table, l, steps)
    ensures Fit(Final(l, steps))
    decreases |steps|
  {
    if steps == [] {
    } else {
      StepKeepsFit(table, l, steps[0]);
      RunsAreFit(table, After(l, steps[0]), steps[1..]);
    }
  }

  // ----- waiting for ever -----

  /** How many signals a room has yet to emit. */
  function Left(entry: RoomEntry): nat {
    if |entry.emitted| < |ALL_SIGNALS| then |ALL_SIGNALS| - |entry.emitted| else 0
  }

  /** How many the room has that the lobby waits for. */
  function Awaiting(l: Lobby): nat {
    if l.awaited.Some? then Left(l.awaited.value.entry) else 0
  }

  /** Whatever happens, the lobby goes on waiting. */
  ghost predicate WaitsForEver(table: seq<byte>, l: Lobby) {
    forall steps :: IsRun(table, l, steps) ==> Blocked(Final(l, steps))
  }

  /** The queue has no place for all that the awaited room has yet to emit. */
  ghost predicate Jammed(l: Lobby) {
    Fit(l) && Blocked(l) && |l.signals| + Awaiting(l) > CONTROL_BUFFER
  }

  /** A room emits what comes next, and then has one signal less to emit. */
  lemma NextEmission(entry: RoomEntry, control: Control)
    requires MayEmit(entry.emitted, control)
    ensures |entry.emitted| < |ALL_SIGNALS| && Left(entry.(emitted := entry.emitted + [control])) == Left(entry) - 1
    ensures entry.emitted + [control] == ALL_SIGNALS <==> Left(entry) == 1
  {
    assert |entry.emitted + [control]| == |entry.emitted| + 1;
  }

  lemma JammedStays(table: seq<byte>, l: Lobby, step: Step)
    requires Jammed(l) && Can(table, l, step)
    ensures Jammed(After(l, step))
  {
    if step.AwaitedEmits? {
      NextEmission(l.awaited.value.entry, step.control);
    }
  }

  lemma {:induction false} JammedForGood(table: seq<byte>, l: Lobby, steps: seq<Step>)
    requires Jammed(l) && IsRun(table, l, steps)
    ensures Jammed(Final(l, steps))
    decreases |steps|
  {
    if steps == [] {
    } else {
      JammedStays(table, l, steps[0]);
      JammedForGood(table, After(l, steps[0]), steps[1..]);
    }
  }

  /** In particular a full queue stays full: while the lobby waits nobody emits anything. */
  lemma {:induction false} FullForGood(table: seq<byte>, l: Lobby, steps: seq<Step>)
    requires Blocked(l) && |l.signals| == CONTROL_BUFFER && IsRun(table, l, steps)
    ensures Blocked(Final(l, steps)) && Final(l, steps).signals == l.signals
    decreases |steps|
  {
    if steps == [] {
    } else {
      FullForGood(table, After(l, steps[0]), steps[1..]);
    }
  }

  /** The signal that comes next, if a room has not emitted all of them. */
  lemma CanStillEmit(entry: RoomEntry) returns (control: Control)
    requires entry.emitted <= ALL_SIGNALS && entry.emitted != ALL_SIGNALS
    ensures MayEmit(entry.emitted, control)
  {
    control := ALL_SIGNALS[|entry.emitted|];
  }

  /** With places enough in the queue the awaited room ends, and the lobby goes on. */
  lemma {:induction false} AwaitedEnds(table: seq<byte>, l: Lobby) returns (steps: seq<Step>)
    requires Fit(l) && l.awaited.Some? && |l.signals| + Awaiting(l) <= CONTROL_BUFFER
    ensures IsRun(table, l, steps) && !Blocked(Final(l, steps))
    decreases Awaiting(l)
  {
    if !Blocked(l) {
      steps := [];
    } else {
      var control := CanStillEmit(l.awaited.value.entry);
      NextEmission(l.awaited.value.entry, control);
      var rest := AwaitedEnds(table, After(l, AwaitedEmits(control)));
      RunStep(table, l, AwaitedEmits(control), rest);
      steps := [AwaitedEmits(control)] + rest;
    }
  }

  /** The lobby waits for ever if and only if the queue has no place for what the awaited room has yet to emit. */
  lemma {:induction false} WaitsForEverExactly(table: seq<byte>, l: Lobby)
    requires Fit(l) && Blocked(l)
    ensures WaitsForEver(table, l) <==> |l.signals| + Awaiting(l) > CONTROL_BUFFER
  {
    if |l.signals| + Awaiting(l) > CONTROL_BUFFER {
      forall steps | IsRun(table, l, steps) ensures Blocked(Final(l, steps)) {
        JammedForGood(table, l, steps);
      }
    } else {
      var steps := AwaitedEnds(table, l);
      assert IsRun(table, l, steps);
    }
  }

  // ----- coming to wait for ever -----

  /** All that is queued or yet to be emitted. */
  ghost function Demand(l: Lobby): nat {
    |l.signals| + Awaiting(l) + Sum(Left, l.rooms)
  }

  lemma EmitKeepsDemand(l: Lobby, room: u32, control: Control)
    requires room in l.rooms && MayEmit(l.rooms[room].emitted, control)
    ensures Demand(After(l, RoomEmits(room, control))) == Demand(l)
  {
    var entry := l.rooms[room];
    NextEmission(entry, control);
    SumReplaced(Left, l.rooms, room, entry.(emitted := entry.emitted + [control]));
  }

  /** While the lobby waits nothing changes the demand. */
  lemma StepKeepsDemand(table: seq<byte>, l: Lobby, step: Step)
    requires Blocked(l) && Can(table, l, step)
    ensures Demand(After(l, step)) == Demand(l)
  {
    match step {
      case RoomEmits(room, control) => EmitKeepsDemand(l, room, control);
      case AwaitedEmits(control) => NextEmission(l.awaited.value.entry, control);
      case RoomTakes(key) =>
        SumReplaced(Left, l.rooms, key, l.rooms[key].(newcomers := l.rooms[key].newcomers[1..]));
      case _ =>
    }
  }

  /** A run during which the lobby goes on waiting. */
  ghost predicate WaitRun(table: seq<byte>, l: Lobby, steps: seq<Step>)
    decreases |steps|
  {
    Blocked(l) && (steps == [] || (Can(table, l, steps[0]) && WaitRun(table, After(l, steps[0]), steps[1..])))
  }

  lemma {:induction false} WaitRunKeepsDemand(table: seq<byte>, l: Lobby, steps: seq<Step>)
    requires Fit(l) && WaitRun(table, l, steps)
    ensures IsRun(table, l, steps) && Fit(Final(l, steps)) && Blocked(Final(l, steps))
    ensures Demand(Final(l, steps)) == Demand(l)
    decreases |steps|
  {
    if steps == [] {
    } else {
      StepKeepsFit(table, l, steps[0]);
      StepKeepsDemand(table, l, steps[0]);
      WaitRunKeepsDemand(table, After(l, steps[0]), steps[1..]);
    }
  }

  lemma SomeRoomHasLeft(rooms: map<u32, RoomEntry>) returns (k: u32)
    requires Sum(Left, rooms) > 0
    ensures k in rooms && Left(rooms[k]) > 0
  {
    if forall id :: id in rooms ==> Left(rooms[id]) == 0 {
      SumOfEqual(Left, rooms, 0);
    }
    k :| k in rooms && Left(rooms[k]) > 0;
  }

  /** The other rooms emit until there is no place left for the awaited one. */
  lemma {:induction false} EmitUntilJammed(table: seq<byte>, l: Lobby) returns (steps: seq<Step>)
    requires Fit(l) && Blocked(l) && Demand(l) > CONTROL_BUFFER
    ensures WaitRun(table, l, steps) && Jammed(Final(l, steps))
    decreases CONTROL_BUFFER - |l.signals|
  {
    if |l.signals| + Awaiting(l) > CONTROL_BUFFER {
      steps := [];
    } else {
      var k := SomeRoomHasLeft(l.rooms);
      var control := CanStillEmit(l.rooms[k]);
      var step := RoomEmits(k, control);
      StepKeepsFit(table, l, step);
      StepKeepsDemand(table, l, step);
      var rest := EmitUntilJammed(table, After(l, step));
      steps := [step] + rest;
      assert steps[1..] == rest;
    }
  }

  ghost predicate MayWaitForEver(table: seq<byte>, l: Lobby) {
    exists steps :: WaitRun(table, l, steps) && WaitsForEver(table, Final(l, steps))
  }

  /** A wait can become one for ever if and only if the demand is greater than the queue. */
  lemma {:induction false} MayWaitExactly(table: seq<byte>, l: Lobby)
    requires Fit(l) && Blocked(l)
    ensures MayWaitForEver(table, l) <==> Demand(l) > CONTROL_BUFFER
  {
    if Demand(l) > CONTROL_BUFFER {
      var steps := EmitUntilJammed(table, l);
      WaitsForEverExactly(table, Final(l, steps));
    }
    forall steps | WaitRun(table, l, steps) && WaitsForEver(table, Final(l, steps)) ensures Demand(l) > CONTROL_BUFFER {
      WaitRunKeepsDemand(table, l, steps);
      WaitsForEverExactly(table, Final(l, steps));
    }
  }

  /**
   When a close is handled for a room that is alive, the lobby waits; and it may come to wait for ever if and
   only if the other signals queued and those all rooms have yet to emit are more than the queue has places.
   */
  lemma {:induction false} StaleCloseStopsExactly(table: seq<byte>, l: Lobby)
    requires Fit(l) && ClosesLive(l)
    ensures Blocked(After(l, TakeSignal))
    ensures MayWaitForEver(table, After(l, TakeSignal)) <==> |l.signals| - 1 + Sum(Left, l.rooms) > CONTROL_BUFFER
  {
    SumSplit(Left, l.rooms, l.signals[0].code);
    StepKeepsFit(table, l, TakeSignal);
    MayWaitExactly(table, After(l, TakeSignal));
  }

  // ----- a run into it -----

  /** Streams from a number on have not been seen. */
  predicate SeenBelow(l: Lobby, client: Stream) { forall s :: s in l.seen ==> s < client }

  /** No room has emitted anything. */
  ghost predicate Silent(l: Lobby) { forall k :: k in l.rooms ==> l.rooms[k].emitted == [] }

  /** Nobody is waiting, nor is the lobby, and so many more rooms may be opened for clients that have not been seen. */
  ghost predicate Roomy(table: seq<byte>, l: Lobby, n: nat, client: Stream) {
    && Housed(table, l) && SeenBelow(l, client) && |l.rooms| + n <= l.maxRooms && !Blocked(l)
    && l.joinQueue == {} && l.joiners == map[] && l.requests == [] && l.queueCapacity > 0
  }

  lemma OneMoreRoom(rooms: map<u32, RoomEntry>, k: u32, entry: RoomEntry)
    requires k !in rooms
    ensures |rooms[k := entry]| == |rooms| + 1
  {
    assert rooms[k := entry].Keys == rooms.Keys + {k};
  }

  lemma OneIsServed(table: seq<byte>, l: Lobby, n: nat, client: Stream, code: RoomCode)
    requires Roomy(table, l, n + 1, client) && Usable(l.rooms.Keys, table, code)
    ensures Roomy(table, Hosted(l, client, code), n, client + 1) && |Hosted(l, client, code).rooms| == |l.rooms| + 1
  {
    OpenHouses(table, l.(seen := l.seen + {client}), code, client);
    OneMoreRoom(l.rooms, ToU32(code), RoomEntry(false, [], []));
  }

  /** The close of a live room is next. With rooms enough it jams the queue for ever, once the others go. */
  lemma {:induction false} StaleCloseJams(table: seq<byte>, l: Lobby) returns (steps: seq<Step>)
    requires Fit(l) && ClosesLive(l) && Silent(l) && |l.rooms| >= 27
    ensures IsRun(table, l, steps) && WaitsForEver(table, Final(l, steps))
  {
    SumOfEqual(Left, l.rooms, 2);
    StaleCloseStopsExactly(table, l);
    var rest :| WaitRun(table, After(l, TakeSignal), rest) && WaitsForEver(table, Final(After(l, TakeSignal), rest));
    StepKeepsFit(table, l, TakeSignal);
    WaitRunKeepsDemand(table, After(l, TakeSignal), rest);
    RunStep(table, l, TakeSignal, rest);
    steps := [TakeSignal] + rest;
  }

  /** If there are not rooms enough, more are opened first, one after another. */
  lemma {:induction false} OpenAndJam(table: seq<byte>, l: Lobby, n: nat, client: Stream) returns (steps: seq<Step>)
    requires Roomy(table, l, n, client) && Silent(l) && Records(table) <= 160 && |l.rooms| + n >= 27
    requires Fit(l) && ClosesLive(l)
    ensures IsRun(table, l, steps) && WaitsForEver(table, Final(l, steps))
    decreases n
  {
    if n == 0 {
      steps := StaleCloseJams(table, l);
    } else {
      var code := CodeIsAvailable(table, l);
      OneIsServed(table, l, n - 1, client, code);
      var rest := OpenAndJam(table, Hosted(l, client, code), n - 1, client + 1);
      steps := HostIsServed(table, l, client, code, rest);
    }
  }

  /** The stale seal is handled and the limit is raised: the stale close is next. */
  function Rushed(l: Lobby, k: u32): Lobby
    requires k in l.rooms
  {
    l.(rooms := l.rooms[k := l.rooms[k].(isSealed := true)], signals := [Signal(k, CloseSignal)], maxRooms := 27)
  }

  lemma LimitRises(table: seq<byte>, l: Lobby, k: u32, rest: seq<Step>) returns (steps: seq<Step>)
    requires l.signals == [Signal(k, SealSignal), Signal(k, CloseSignal)] && k in l.rooms && |l.rooms| == 2
    requires !Blocked(l) && 0 < l.queueCapacity <= 10_000 && IsRun(table, Rushed(l, k), rest)
    ensures IsRun(table, l, steps) && Final(l, steps) == Final(Rushed(l, k), rest)
  {
    var raise := Configure(27, l.queueCapacity, {});
    var l1 := After(l, TakeSignal);
    assert l1.rooms.Keys == l.rooms.Keys && l1.signals == [Signal(k, CloseSignal)];
    assert l1.rooms - {} == l1.rooms && l1.aborted + {} == l1.aborted;
    assert After(l1, raise) == Rushed(l, k);
    RunStep(table, l1, raise, rest);
    RunStep(table, l, TakeSignal, [raise] + rest);
    steps := [TakeSignal] + ([raise] + rest);
  }

  lemma RushedIsRoomy(table: seq<byte>, code: RoomCode, other: RoomCode, l: Lobby)
    requires Valid(code) && Valid(other) && ToU32(code) != ToU32(other) && !Listed(table, code) && !Listed(table, other)
    requires l.rooms.Keys == {ToU32(code), ToU32(other)} && l.seen == {1, 2, 3} && 0 < l.queueCapacity <= 10_000
    requires l.joinQueue == {} && l.joiners == map[] && l.requests == [] && !Blocked(l)
    ensures Roomy(table, Rushed(l, ToU32(code)), 25, 4) && |Rushed(l, ToU32(code)).rooms| == 2
  {
    KeyRoundTrip(code, ToU32(code));
    KeyRoundTrip(other, ToU32(other));
    assert Rushed(l, ToU32(code)).rooms.Keys == {ToU32(code), ToU32(other)};
    assert |{ToU32(code), ToU32(other)}| == 2;
  }

  /**
   The lobby stops for ever: from the start there is a run on which a stale close meets a room that has emitted
   nothing, the lobby waits for that room, and the rooms it has opened meanwhile jam the queue of signals.
   */
  lemma LobbyDeadlocks(table: seq<byte>, code: RoomCode, other: RoomCode, queueCapacity: nat)
    returns (steps: seq<Step>)
    requires Valid(code) && Valid(other) && ToU32(code) != ToU32(other) && Records(table) <= 160
    requires !Listed(table, code) && !Listed(table, other) && 0 < queueCapacity <= 10_000
    ensures IsRun(table, Start(2, queueCapacity), steps)
    ensures WaitsForEver(table, Final(Start(2, queueCapacity), steps))
  {
    var reused, k := Reused(Start(2, queueCapacity), code, other), ToU32(code);
    ReusedLooks(code, other, queueCapacity);
    assert reused.rooms.Keys == {k, ToU32(other)};
    RushedIsRoomy(table, code, other, reused);
    assert |reused.rooms.Keys| == 2;
    steps := OpenAndJam(table, Rushed(reused, k), 25, 4);
    steps := LimitRises(table, reused, k, steps);
    steps := CodeIsReused(table, code, other, queueCapacity, steps);
  }
}
