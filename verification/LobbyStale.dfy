/**
 What becomes of signals that are queued for a code when a room is opened under it, over every run that
 follows. After an abort that can happen. A stale close, wherever it is queued, can take the new room off
 the map while it is alive; a stale seal can seal it if it is the first signal queued for the code. Nothing
 else can do either.
 */
module LobbyStale {
  import opened Common
  import opened RoomCodes
  import opened Lobbies
  import opened LobbyBooks

  /** The next request opens a room under a given code. */
  predicate Opens(l: Lobby, step: Step) {
    step.TakeRequest? && l.requests != [] && l.requests[0].cmd.CreateRoom? && |l.rooms| < l.maxRooms
  }

  function KeyOf(step: Step): u32
    requires step.TakeRequest?
  {
    ToU32(step.newCode)
  }

  lemma OpenedIsNew(table: seq<byte>, l: Lobby, step: Step)
    requires Can(table, l, step) && Opens(l, step)
    ensures KeyOf(step) !in l.rooms && After(l, step).signals == l.signals && After(l, step).awaited == l.awaited
    ensures After(l, step).rooms == l.rooms[KeyOf(step) := RoomEntry(false, [], [])]
  {
  }

  /** What a step makes of a room that stays on the map: it may emit, be sealed, be sent somebody, or take somebody. */
  lemma StepOnRoom(table: seq<byte>, l: Lobby, step: Step, k: u32)
    requires Can(table, l, step) && k in After(l, step).rooms && !(Opens(l, step) && k == KeyOf(step))
    ensures k in l.rooms
    ensures After(l, step).rooms[k].emitted
         == l.rooms[k].emitted + if step.RoomEmits? && step.room == k then [step.control] else []
  {
    if step.TakeRequest? && !Opens(l, step) {
      RequestKeepsRooms(l.(requests := l.requests[1..]), l.requests[0], step.newCode);
    }
  }

  /** What a step adds to the signals queued for a code. */
  function EmittedFor(l: Lobby, step: Step, k: u32): seq<Control> {
    match step
    case RoomEmits(room, control) => if room == k then [control] else []
    case AwaitedEmits(control) => if l.awaited.Some? && l.awaited.value.key == k then [control] else []
    case _ => []
  }

  lemma StepOnQueue(table: seq<byte>, l: Lobby, step: Step, k: u32)
    requires Can(table, l, step)
    ensures var queued := Queued(k, After(l, step).signals);
            if step.TakeSignal? then
              Queued(k, l.signals) == (if l.signals[0].code == k then [l.signals[0].control] else []) + queued
            else queued == Queued(k, l.signals) + EmittedFor(l, step, k)
  {
    match step {
      case TakeSignal => QueuedTaken(k, l.signals);
      case RoomEmits(room, control) => QueuedGrows(k, l.signals, Signal(room, control));
      case AwaitedEmits(control) => QueuedGrows(k, l.signals, Signal(l.awaited.value.key, control));
      case TakeRequest(newCode) =>
        if !Opens(l, step) {
          RequestKeepsRooms(l.(requests := l.requests[1..]), l.requests[0], newCode);
        }
      case _ =>
    }
  }

  // ----- closes -----

  /** The lobby is about to take a room off the map that has not emitted all it will. */
  predicate ClosesLive(l: Lobby) {
    && !Blocked(l) && l.signals != [] && l.signals[0].control.CloseSignal? && l.signals[0].code in l.rooms
    && l.rooms[l.signals[0].code].emitted != ALL_SIGNALS
  }

  /** A room for which a close is queued has emitted it. */
  predicate ClosesAreOwn(emitted: seq<Control>, queued: seq<Control>) {
    emitted <= ALL_SIGNALS && (CloseSignal in queued ==> emitted == ALL_SIGNALS)
  }

  /** So it is for every room, and the lobby does not wait for one. */
  ghost predicate NoEarlyClose(l: Lobby) {
    !Blocked(l) && forall k :: k in l.rooms ==> ClosesAreOwn(l.rooms[k].emitted, Queued(k, l.signals))
  }

  /** No room is opened under a code with a close queued. */
  predicate NoStaleClose(l: Lobby, step: Step) {
    Opens(l, step) ==> CloseSignal !in Queued(KeyOf(step), l.signals)
  }

  lemma SignalledHasNoEarlyClose(l: Lobby)
    requires Signalled(l)
    ensures NoEarlyClose(l)
  {
    forall k | k in l.rooms ensures ClosesAreOwn(l.rooms[k].emitted, Queued(k, l.signals)) {
      var e, queued := l.rooms[k].emitted, Queued(k, l.signals);
      assert InStep(k, l.rooms[k], l.signals);
      if CloseSignal in queued {
        assert CloseSignal in e;
        assert |e| == 2;
      }
    }
  }

  lemma EmitKeepsOwn(emitted: seq<Control>, queued: seq<Control>, control: Control)
    requires ClosesAreOwn(emitted, queued) && MayEmit(emitted, control)
    ensures ClosesAreOwn(emitted + [control], queued + [control])
  {
    assert (emitted + [control])[|emitted|] == ALL_SIGNALS[|emitted|];
    if control.CloseSignal? {
      assert |emitted| == 1;
    }
  }

  lemma OwnClosesStay(table: seq<byte>, l: Lobby, step: Step, k: u32)
    requires NoEarlyClose(l) && Can(table, l, step) && NoStaleClose(l, step) && k in After(l, step).rooms
    ensures ClosesAreOwn(After(l, step).rooms[k].emitted, Queued(k, After(l, step).signals))
  {
    if Opens(l, step) && k == KeyOf(step) {
      OpenedIsNew(table, l, step);
    } else {
      StepOnRoom(table, l, step, k);
      StepOnQueue(table, l, step, k);
      assert ClosesAreOwn(l.rooms[k].emitted, Queued(k, l.signals));
      if step.RoomEmits? && step.room == k {
        EmitKeepsOwn(l.rooms[k].emitted, Queued(k, l.signals), step.control);
      }
    }
  }

  /** The lobby begins to wait for a room exactly when it handles a close for one that is alive. */
  lemma WaitBeginsExactly(table: seq<byte>, l: Lobby, step: Step)
    requires Can(table, l, step) && !Blocked(l)
    ensures Blocked(After(l, step)) <==> step.TakeSignal? && ClosesLive(l)
  {
  }

  lemma NoneClosesLive(l: Lobby)
    requires NoEarlyClose(l)
    ensures !ClosesLive(l)
  {
    if l.signals != [] {
      QueuedTaken(l.signals[0].code, l.signals);
    }
  }

  lemma StepKeepsNoEarlyClose(table: seq<byte>, l: Lobby, step: Step)
    requires NoEarlyClose(l) && Can(table, l, step) && NoStaleClose(l, step)
    ensures NoEarlyClose(After(l, step))
  {
    NoneClosesLive(l);
    WaitBeginsExactly(table, l, step);
    forall k | k in After(l, step).rooms
      ensures ClosesAreOwn(After(l, step).rooms[k].emitted, Queued(k, After(l, step).signals))
    {
      OwnClosesStay(table, l, step, k);
    }
  }

  /** A run in which no room is opened under a code with a close queued. */
  ghost predicate CloseFree(table: seq<byte>, l: Lobby, steps: seq<Step>)
    decreases |steps|
  {
    steps == []
    || (Can(table, l, steps[0]) && NoStaleClose(l, steps[0]) && CloseFree(table, After(l, steps[0]), steps[1..]))
  }

  lemma {:induction false} CloseFreeRunsAreSound(table: seq<byte>, l: Lobby, steps: seq<Step>)
    requires NoEarlyClose(l) && CloseFree(table, l, steps)
    ensures NoEarlyClose(Final(l, steps)) && !ClosesLive(Final(l, steps))
    decreases |steps|
  {
    if steps == [] {
      NoneClosesLive(l);
    } else {
      StepKeepsNoEarlyClose(table, l, steps[0]);
      CloseFreeRunsAreSound(table, After(l, steps[0]), steps[1..]);
    }
  }

  /** The closes queued for the other rooms are their own. */
  ghost predicate OthersAreOwn(l: Lobby, k: u32) {
    !Blocked(l) && forall j :: j in l.rooms && j != k ==> ClosesAreOwn(l.rooms[j].emitted, Queued(j, l.signals))
  }

  lemma OthersStayOwn(table: seq<byte>, l: Lobby, k: u32)
    requires k in l.rooms && OthersAreOwn(l, k) && l.signals != [] && l.signals[0] != Signal(k, CloseSignal)
    ensures OthersAreOwn(After(l, TakeSignal), k) && k in After(l, TakeSignal).rooms
    ensures After(l, TakeSignal).rooms[k].emitted == l.rooms[k].emitted
  {
    QueuedTaken(l.signals[0].code, l.signals);
    WaitBeginsExactly(table, l, TakeSignal);
    forall j | j in After(l, TakeSignal).rooms && j != k
      ensures ClosesAreOwn(After(l, TakeSignal).rooms[j].emitted, Queued(j, After(l, TakeSignal).signals))
    {
      QueuedTaken(j, l.signals);
    }
  }

  /** Signals taken one after another until a close of a given room is next; none of them opens a room. */
  lemma {:induction false} TakeUntilClose(table: seq<byte>, l: Lobby, k: u32) returns (steps: seq<Step>)
    requires k in l.rooms && OthersAreOwn(l, k) && CloseSignal in Queued(k, l.signals)
    ensures CloseFree(table, l, steps) && k in Final(l, steps).rooms
    ensures Final(l, steps).rooms[k].emitted == l.rooms[k].emitted
    ensures !Blocked(Final(l, steps)) && Final(l, steps).signals != []
    ensures Final(l, steps).signals[0] == Signal(k, CloseSignal)
    decreases |l.signals|
  {
    if l.signals[0] == Signal(k, CloseSignal) {
      steps := [];
    } else {
      QueuedTaken(k, l.signals);
      OthersStayOwn(table, l, k);
      var rest := TakeUntilClose(table, After(l, TakeSignal), k);
      steps := [TakeSignal] + rest;
      assert steps[1..] == rest;
    }
  }

  ghost predicate CanCloseLive(table: seq<byte>, l: Lobby) {
    exists steps :: CloseFree(table, l, steps) && ClosesLive(Final(l, steps))
  }

  /**
   After a room was opened, some run in which no further one is opened under a code with a close queued takes
   a live room off the map, and waits for it, if and only if a close was queued for the code of this one.
   */
  lemma {:induction false} StaleCloseExactly(table: seq<byte>, l: Lobby, step: Step)
    requires NoEarlyClose(l) && Can(table, l, step) && Opens(l, step)
    ensures CanCloseLive(table, After(l, step)) <==> CloseSignal in Queued(KeyOf(step), l.signals)
  {
    var next, k := After(l, step), KeyOf(step);
    OpenedIsNew(table, l, step);
    if CloseSignal in Queued(k, l.signals) {
      var steps := TakeUntilClose(table, next, k);
      assert ClosesLive(Final(next, steps));
    } else {
      StepKeepsNoEarlyClose(table, l, step);
      forall steps | CloseFree(table, next, steps) ensures !ClosesLive(Final(next, steps)) {
        CloseFreeRunsAreSound(table, next, steps);
      }
    }
  }

  // ----- seals -----

  /** The lobby is about to seal a room that has not sealed itself. */
  predicate SealsOpen(l: Lobby) {
    && !Blocked(l) && l.signals != [] && l.signals[0].control.SealSignal? && l.signals[0].code in l.rooms
    && l.rooms[l.signals[0].code].emitted == []
  }

  predicate SealIsNext(queued: seq<Control>) { queued != [] && queued[0].SealSignal? }

  /** A room for which a seal is the next signal has emitted something; a room the lobby waits for is off the map. */
  ghost predicate NoEarlySeal(l: Lobby) {
    && (Blocked(l) ==> l.awaited.value.key !in l.rooms)
    && forall k :: k in l.rooms && SealIsNext(Queued(k, l.signals)) ==> l.rooms[k].emitted != []
  }

  /** No room is opened under a code for which a seal is the next signal. */
  predicate NoStaleSeal(l: Lobby, step: Step) {
    Opens(l, step) ==> !SealIsNext(Queued(KeyOf(step), l.signals))
  }

  lemma SignalledHasNoEarlySeal(l: Lobby)
    requires Signalled(l)
    ensures NoEarlySeal(l)
  {
    forall k | k in l.rooms && SealIsNext(Queued(k, l.signals)) ensures l.rooms[k].emitted != [] {
      assert InStep(k, l.rooms[k], l.signals);
    }
  }

  lemma OwnSealsStay(table: seq<byte>, l: Lobby, step: Step, k: u32)
    requires NoEarlySeal(l) && Can(table, l, step) && NoStaleSeal(l, step) && k in After(l, step).rooms
    requires SealIsNext(Queued(k, After(l, step).signals))
    ensures After(l, step).rooms[k].emitted != []
  {
    if Opens(l, step) && k == KeyOf(step) {
      OpenedIsNew(table, l, step);
    } else {
      StepOnRoom(table, l, step, k);
      StepOnQueue(table, l, step, k);
    }
  }

  lemma StepKeepsNoEarlySeal(table: seq<byte>, l: Lobby, step: Step)
    requires NoEarlySeal(l) && Can(table, l, step) && NoStaleSeal(l, step)
    ensures NoEarlySeal(After(l, step))
  {
    forall k | k in After(l, step).rooms && SealIsNext(Queued(k, After(l, step).signals))
      ensures After(l, step).rooms[k].emitted != []
    {
      OwnSealsStay(table, l, step, k);
    }
  }

  /** A run in which no room is opened under a code for which a seal is the next signal. */
  ghost predicate SealFree(table: seq<byte>, l: Lobby, steps: seq<Step>)
    decreases |steps|
  {
    steps == []
    || (Can(table, l, steps[0]) && NoStaleSeal(l, steps[0]) && SealFree(table, After(l, steps[0]), steps[1..]))
  }

  lemma {:induction false} SealFreeRunsAreSound(table: seq<byte>, l: Lobby, steps: seq<Step>)
    requires NoEarlySeal(l) && SealFree(table, l, steps)
    ensures NoEarlySeal(Final(l, steps)) && !SealsOpen(Final(l, steps))
    decreases |steps|
  {
    if steps == [] {
      if l.signals != [] {
        QueuedTaken(l.signals[0].code, l.signals);
      }
    } else {
      StepKeepsNoEarlySeal(table, l, steps[0]);
      SealFreeRunsAreSound(table, After(l, steps[0]), steps[1..]);
    }
  }

  lemma {:induction false} TakeUntilSeal(table: seq<byte>, l: Lobby, k: u32) returns (steps: seq<Step>)
    requires k in l.rooms && OthersAreOwn(l, k) && SealIsNext(Queued(k, l.signals))
    ensures SealFree(table, l, steps) && k in Final(l, steps).rooms
    ensures Final(l, steps).rooms[k].emitted == l.rooms[k].emitted
    ensures !Blocked(Final(l, steps)) && Final(l, steps).signals != []
    ensures Final(l, steps).signals[0] == Signal(k, SealSignal)
    decreases |l.signals|
  {
    QueuedTaken(k, l.signals);
    if l.signals[0].code == k {
      steps := [];
    } else {
      OthersStayOwn(table, l, k);
      var rest := TakeUntilSeal(table, After(l, TakeSignal), k);
      steps := [TakeSignal] + rest;
      assert steps[1..] == rest;
    }
  }

  /** The same with the other rooms aborted first, lest a stale close of one of them has the lobby wait for it. */
  lemma AloneUntilSeal(table: seq<byte>, l: Lobby, k: u32) returns (steps: seq<Step>)
    requires !Blocked(l) && k in l.rooms && SealIsNext(Queued(k, l.signals))
    ensures SealFree(table, l, steps) && k in Final(l, steps).rooms
    ensures Final(l, steps).rooms[k].emitted == l.rooms[k].emitted
    ensures !Blocked(Final(l, steps)) && Final(l, steps).signals != []
    ensures Final(l, steps).signals[0] == Signal(k, SealSignal)
  {
    var lower := Configure(1, 1, l.rooms.Keys - {k});
    assert l.rooms.Keys == (l.rooms.Keys - {k}) + {k};
    assert |l.rooms.Keys - {k}| == Excess(l, 1);
    assert After(l, lower).rooms.Keys == {k};
    var rest := TakeUntilSeal(table, After(l, lower), k);
    steps := [lower] + rest;
    assert steps[1..] == rest;
  }

  ghost predicate CanSealOpen(table: seq<byte>, l: Lobby) {
    exists steps :: SealFree(table, l, steps) && SealsOpen(Final(l, steps))
  }

  /**
   After a room was opened, some run in which no further one is opened in front of a queued seal seals a room
   that has emitted nothing, so that it is never joined, if and only if a seal was next for the code of this one.
   */
  lemma {:induction false} StaleSealExactly(table: seq<byte>, l: Lobby, step: Step)
    requires NoEarlySeal(l) && Can(table, l, step) && Opens(l, step)
    ensures CanSealOpen(table, After(l, step)) <==> SealIsNext(Queued(KeyOf(step), l.signals))
  {
    var next, k := After(l, step), KeyOf(step);
    OpenedIsNew(table, l, step);
    if SealIsNext(Queued(k, l.signals)) {
      var steps := AloneUntilSeal(table, next, k);
      assert SealsOpen(Final(next, steps));
    } else {
      StepKeepsNoEarlySeal(table, l, step);
      forall steps | SealFree(table, next, steps) ensures !SealsOpen(Final(next, steps)) {
        SealFreeRunsAreSound(table, next, steps);
      }
    }
  }
}
