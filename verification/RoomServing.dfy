/**
 What the room task's methods are proved against: which steps of the state machine of module Rooms they
 take, and where they leave the room.
 */
module RoomServing {
  import opened Common
  import opened Players
  import opened Rooms
  import opened RoomLimits
  import opened RoomRuns
  import opened RoomClosing
  import opened RoomDrains

  /** Who runs next while a room is closing or draining; the shutdown signal may come at any time. */
  datatype Turn = ReceiveRequest | ReceiveClose | RunTask(id: u32, act: Act) | ShutDown

  function StepOf(turn: Turn): Step {
    match turn
    case ReceiveRequest => TakeRequest
    case ReceiveClose => TakeClose
    case RunTask(id, act) => PlayerActs(id, act)
    case ShutDown => RaiseShutdown
  }

  /** From one room to another by some steps. */
  ghost predicate Ran(capacity: nat, before: Room, steps: seq<Step>, r: Room) {
    IsRun(capacity, before, steps) && Final(capacity, before, steps) == r
  }

  lemma RanOn(capacity: nat, before: Room, steps: seq<Step>, r: Room, step: Step)
    requires Ran(capacity, before, steps, r) && Can(r, step)
    ensures Ran(capacity, before, steps + [step], After(capacity, r, step))
  {
    ExtendRun(capacity, before, steps, step);
  }

  lemma RanFurther(capacity: nat, before: Room, steps: seq<Step>, r: Room, more: seq<Step>, last: Room)
    requires Ran(capacity, before, steps, r) && Ran(capacity, r, more, last)
    ensures Ran(capacity, before, steps + more, last)
  {
    RunOn(capacity, before, steps, more);
  }

  // ----- closing -----

  /** How many steps a closing can take: its work, and the one shutdown signal. */
  ghost function Limit(r: Room): nat { Work(r) + if r.shutdown then 0 else 1 }

  /** The loop has come from `begun` to `r` by some steps, and there is that much less to do. */
  ghost predicate Underway(capacity: nat, begun: Room, steps: seq<Step>, r: Room) {
    && Reachable(r) && r.mode.Emptying? && r.mode == begun.mode
    && Ran(capacity, begun, steps, r) && |steps| + Limit(r) <= Limit(begun)
  }

  lemma EmptyingKeepsLast(capacity: nat, r: Room, step: Step)
    requires r.mode.Emptying? && Can(r, step) && !step.Emptied?
    ensures After(capacity, r, step).mode == r.mode && (r.shutdown ==> After(capacity, r, step).shutdown)
  {
    if step.TakeRequest? {
      ModeAfterRequest(r.(requests := r.requests[1..]), r.requests[0]);
    }
  }

  lemma TurnTaken(capacity: nat, begun: Room, steps: seq<Step>, r: Room, step: Step)
    requires Underway(capacity, begun, steps, r) && Can(r, step) && !step.Emptied?
    requires Working(step) || (step.RaiseShutdown? && !r.shutdown)
    ensures Underway(capacity, begun, steps + [step], After(capacity, r, step))
    ensures Limit(After(capacity, r, step)) < Limit(r)
  {
    RanOn(capacity, begun, steps, r, step);
    StepKeepsReachable(capacity, r, step);
    StepWorks(capacity, r, step);
    EmptyingKeepsLast(capacity, r, step);
  }

  /** The closing waits for ever: nothing is left that could release anybody. */
  ghost predicate HangsClosing(capacity: nat, r: Room) {
    r.mode.Emptying? && r.shutdown && !CanClose(capacity, r) && forall step :: Working(step) ==> !Can(r, step)
  }

  lemma StuckHangs(capacity: nat, r: Room)
    requires Reachable(r) && r.mode.Emptying? && r.tasks != map[]
    requires r.requests == [] && r.closes == [] && AllReturned(r)
    ensures HangsClosing(capacity, r)
  {
    StuckExactly(r);
    if Owing(r) {
      OwingIsNotStuck(r);
    }
    ClosesExactly(capacity, r);
    if !r.shutdown {
      var step := ClosingNeverStuck(r);
    }
  }

  /** The closing that began at `begun` is over, or hangs, after no more steps than it can take. */
  ghost predicate ClosedBy(capacity: nat, begun: Room, steps: seq<Step>, hung: bool, r: Room) {
    && begun.mode.Emptying? && IsRun(capacity, begun, steps) && |steps| <= Limit(begun)
    && (begun.tasks == map[] ==> !hung)
    && var last := Final(capacity, begun, steps);
       if hung then r == last && HangsClosing(capacity, r)
       else last.mode == begun.mode && last.tasks == map[] && r == FinishEmptying(last, begun.mode.last)
  }

  // ----- the branches of the main loop -----

  /**
   A branch has taken its step, and gone through on_close if that began with it: then the room has left its
   main loop with no task left, or hangs.
   */
  ghost predicate Served(capacity: nat, before: Room, first: Step, steps: seq<Step>, stop: bool, hung: bool, r: Room) {
    && Can(before, first) && Ran(capacity, before, steps, r)
    && steps != [] && steps[0] == first
    && var next := After(capacity, before, first);
       && stop == next.mode.Emptying?
       && (!stop ==> steps == [first] && !hung)
       && (stop ==> |steps| <= Limit(next) + 2)
       && (stop && hung ==> HangsClosing(capacity, r))
       && (stop && !hung ==> r.closed && r.mode.Broken? && r.tasks == map[])
  }

  lemma OneStepServed(capacity: nat, before: Room, first: Step)
    requires Can(before, first) && !After(capacity, before, first).mode.Emptying?
    ensures Served(capacity, before, first, [first], false, false, After(capacity, before, first))
  {
    var next := After(capacity, before, first);
    assert IsRun(capacity, next, []) && Final(capacity, next, []) == next;
    RunStep(capacity, before, first, []);
    assert [first] + [] == [first];
  }

  /** The steps of a branch that closed the room: its own, those of the closing, and the end of it. */
  function ClosingSteps(first: Step, steps: seq<Step>, hung: bool): seq<Step> {
    [first] + (steps + if hung then [] else [Emptied])
  }

  lemma CloseServed(capacity: nat, before: Room, first: Step, steps: seq<Step>, hung: bool, r: Room)
    requires Can(before, first) && ClosedBy(capacity, After(capacity, before, first), steps, hung, r)
    ensures Served(capacity, before, first, ClosingSteps(first, steps, hung), true, hung, r)
  {
    var begun := After(capacity, before, first);
    var last := Final(capacity, begun, steps);
    if hung {
      assert steps + [] == steps;
    } else {
      RanOn(capacity, begun, steps, last, Emptied);
    }
    RunStep(capacity, before, first, steps + if hung then [] else [Emptied]);
  }

  // ----- the main loop -----

  /** What the select of the main loop can be woken by, and what goes on around it. */
  datatype Wakeup =
    | Arrives(stream: Stream, inbox: seq<ClientMessage>, draws: seq<u32>)
    | RequestComes
    | CloseComes
    | ConfigComes(newLimits: Limits)
    | TimeIsUp
    | ShutdownComes
    | TimePasses
    | ShutdownIsRaised
    | TaskRuns(id: u32, act: Act)

  predicate ValidWakeup(wakeup: Wakeup) {
    match wakeup
    case Arrives(_, _, draws) => forall i :: 0 <= i < |draws| ==> 2 <= draws[i] < 0x7FFF_FFFF
    case ConfigComes(newLimits) => ValidLimits(newLimits)
    case _ => true
  }

  /** NoSafeId: a newcomer came and the draws given held no id, or one that is not safe. */
  datatype Ending = StillOpen | LeftLoop | HungClosing | NoSafeId

  ghost predicate EndsAs(capacity: nat, ending: Ending, r: Room) {
    && Reachable(r)
    && match ending
       case LeftLoop => r.mode.Broken?
       case HungClosing => HangsClosing(capacity, r)
       case _ => r.mode.Serving?
  }

  ghost predicate Handled(capacity: nat, before: Room, steps: seq<Step>, ending: Ending, r: Room) {
    Ran(capacity, before, steps, r) && EndsAs(capacity, ending, r)
  }

  function EndingOf(stop: bool, hung: bool): Ending {
    if !stop then StillOpen else if hung then HungClosing else LeftLoop
  }

  lemma NothingHandled(capacity: nat, before: Room, ending: Ending)
    requires Reachable(before) && before.mode.Serving? && (ending.StillOpen? || ending.NoSafeId?)
    ensures Handled(capacity, before, [], ending, before)
  {
  }

  lemma StepHandled(capacity: nat, before: Room, step: Step, ending: Ending)
    requires Reachable(before) && Can(before, step) && (ending.StillOpen? || ending.LeftLoop?)
    requires var mode := After(capacity, before, step).mode;
             if ending.StillOpen? then mode.Serving? else mode.Broken?
    ensures Handled(capacity, before, [step], ending, After(capacity, before, step))
  {
    StepKeepsReachable(capacity, before, step);
    RanOn(capacity, before, [], before, step);
    assert [] + [step] == [step];
  }

  lemma ServingGoesOn(capacity: nat, r: Room, step: Step)
    requires r.mode.Serving? && Can(r, step) && !After(capacity, r, step).mode.Emptying?
    requires step.TakeRequest? || step.TakeClose? || step.Configure? || step.TimeUp?
    ensures After(capacity, r, step).mode.Serving?
  {
    if step.TakeRequest? {
      ModeAfterRequest(r.(requests := r.requests[1..]), r.requests[0]);
    }
  }

  lemma ServedHandled(capacity: nat, before: Room, first: Step, steps: seq<Step>, stop: bool, hung: bool, r: Room)
    requires Reachable(before) && before.mode.Serving? && Served(capacity, before, first, steps, stop, hung, r)
    requires first.TakeRequest? || first.TakeClose? || first.Configure? || first.TimeUp?
    ensures Handled(capacity, before, steps, EndingOf(stop, hung), r)
  {
    RunsAreReachable(capacity, before, steps);
    if !stop {
      var next := After(capacity, before, first);
      assert steps[1..] == [] && Final(capacity, next, []) == next;
      assert Final(capacity, before, steps) == Final(capacity, next, steps[1..]);
      ServingGoesOn(capacity, before, first);
    }
  }

  // ----- the drains -----

  /** The drain has come from `begun` to `r` by some steps; no client has been closed meanwhile. */
  ghost predicate DrainUnderway(capacity: nat, begun: Room, steps: seq<Step>, r: Room) {
    && Sound(r) && r.mode.DrainingCloses? && Ran(capacity, begun, steps, r) && r.control == [SealSignal]
    && |steps| + Limit(r) <= Limit(begun)
    && r.closeTasks == begun.closeTasks && (begun.closed ==> r.closed && r.requests == begun.requests)
    && (begun.closed ==> |steps| + |r.closes| + (if r.shutdown then 0 else 1)
                         <= |begun.closes| + (if begun.shutdown then 0 else 1))
    && (!Crowded(begun) ==> !Crowded(r))
  }

  lemma DrainStepKeeps(capacity: nat, r: Room, step: Step)
    requires r.mode.DrainingCloses? && Ordered(r) && Can(r, step)
    requires step.TakeClose? || step.PlayerActs? || step.RaiseShutdown?
    ensures var next := After(capacity, r, step);
            && next.mode == r.mode && next.control == r.control
            && next.closeTasks == r.closeTasks && next.closed == r.closed
            && (step.RaiseShutdown? ==> next.shutdown && next.closes == r.closes)
            && (!step.RaiseShutdown? ==> next.shutdown == r.shutdown)
            && (r.closed ==> next.requests == r.requests)
            && (r.closed && !step.RaiseShutdown? ==> |next.closes| == |r.closes| - 1)
  {
  }

  lemma DrainTurnTaken(capacity: nat, begun: Room, steps: seq<Step>, r: Room, step: Step)
    requires DrainUnderway(capacity, begun, steps, r) && Can(r, step)
    requires (Drains(step) && !step.ClosesDrained?) || (step.RaiseShutdown? && !r.shutdown)
    ensures DrainUnderway(capacity, begun, steps + [step], After(capacity, r, step))
    ensures Limit(After(capacity, r, step)) < Limit(r)
  {
    RanOn(capacity, begun, steps, r, step);
    StepKeepsSound(capacity, r, step);
    DrainStepWorks(capacity, r, step);
    if !Crowded(r) {
      StepKeepsUncrowded(capacity, r, step);
    }
    DrainStepKeeps(capacity, r, step);
  }

  /** The drain waits for ever. */
  ghost predicate HangsDraining(capacity: nat, r: Room) {
    r.mode.DrainingCloses? && r.shutdown && Blocked(r) && !CanDrain(capacity, r)
  }

  /** The drain waits for clients: it goes on only if a late one does something, or nothing for too long. */
  ghost predicate LingersDraining(r: Room) {
    && r.mode.DrainingCloses? && r.shutdown && Idle(r)
    && (exists id :: id in r.tasks && Lingers(r.tasks[id]))
    && forall step :: Unprompted(step) ==> !Can(r, step)
  }

  lemma IdleWaits(capacity: nat, r: Room)
    requires Sound(r) && r.mode.DrainingCloses? && Idle(r)
    ensures !r.closed
    ensures if exists id :: id in r.tasks && Lingers(r.tasks[id]) then LingersDraining(r)
            else HangsDraining(capacity, r) && Crowded(r)
  {
    if exists id :: id in r.tasks && Lingers(r.tasks[id]) {
      DrainIdleExactly(r);
    } else {
      assert Blocked(r);
      BlockedIsOverfull(capacity, r);
      CanDrainExactly(capacity, r);
      if !Crowded(r) {
        UncrowdedIsNotOverfull(capacity, r);
      }
    }
  }

  datatype DrainEnd = DrainOver | DrainHangs | DrainLingers

  /** How the drain of the close queue has ended, if it has. */
  ghost predicate DrainEndsAs(capacity: nat, end: DrainEnd, r: Room) {
    match end
    case DrainOver => r.closes == [] && AllReturned(r)
    case DrainHangs => HangsDraining(capacity, r) && Crowded(r) && !r.closed
    case DrainLingers => LingersDraining(r) && !r.closed
  }

  /** The closing tasks of streams that came too late. */
  function Turned(late: seq<Stream>): seq<CloseTask> {
    seq(|late|, i requires 0 <= i < |late| => CloseTask(late[i], RoomIsSealed))
  }

  /** The task's way out, after its main loop was left at `begun`. */
  ghost predicate HasDeparted(capacity: nat, begun: Room, late: seq<Stream>, steps: seq<Step>, end: DrainEnd, r: Room) {
    && Ran(capacity, begun, steps, r)
    && (end.DrainHangs? ==> HangsDraining(capacity, r) && Crowded(begun) && !begun.closed)
    && (end.DrainLingers? ==> LingersDraining(r) && !begun.closed)
    && (end.DrainOver? ==>
          && r.mode.Finished? && r.tasks == map[] && r.closes == [] && r.requests == []
          && r.control == [SealSignal, CloseSignal] && r.closeTasks == begun.closeTasks + Turned(late))
    && (begun.closed ==>
          |steps| <= |begun.closes| + |begun.requests| + |late| + 4 + (if begun.shutdown then 0 else 1))
  }

  lemma ThenStep(capacity: nat, before: Room, steps: seq<Step>, r: Room, step: Step, more: seq<Step>, last: Room)
    requires Ran(capacity, before, steps, r) && Can(r, step) && Ran(capacity, After(capacity, r, step), more, last)
    ensures Ran(capacity, before, (steps + [step]) + more, last)
  {
    RanOn(capacity, before, steps, r, step);
    RanFurther(capacity, before, steps + [step], After(capacity, r, step), more, last);
  }

  /** The seal is emitted, and the drain begins. */
  lemma DrainBegins(capacity: nat, begun: Room)
    requires Sound(begun) && begun.mode.Broken?
    ensures Can(begun, EmitSeal) && Sound(After(capacity, begun, EmitSeal))
    ensures After(capacity, begun, EmitSeal).mode.DrainingCloses?
    ensures DrainUnderway(capacity, After(capacity, begun, EmitSeal), [], After(capacity, begun, EmitSeal))
    ensures Crowded(After(capacity, begun, EmitSeal)) == Crowded(begun)
  {
    StepKeepsSound(capacity, begun, EmitSeal);
  }

  lemma DrainWaits(capacity: nat, begun: Room, late: seq<Stream>, steps: seq<Step>, end: DrainEnd, r: Room)
    requires Sound(begun) && begun.mode.Broken? && DrainUnderway(capacity, After(capacity, begun, EmitSeal), steps, r)
    requires DrainEndsAs(capacity, end, r) && !end.DrainOver?
    ensures HasDeparted(capacity, begun, late, [EmitSeal] + steps, end, r)
  {
    DrainBegins(capacity, begun);
    RunStep(capacity, begun, EmitSeal, steps);
  }

  /** From the end of the drains to the end of the task. */
  function Swept(r: Room, late: seq<Stream>): Room {
    r.(mode := Sweeping, requests := [], tasks := map[], closeTasks := r.closeTasks + Turned(late))
  }

  lemma SweepRuns(capacity: nat, r: Room, requestSteps: seq<Step>, late: seq<Stream>, lateSteps: seq<Step>)
    requires r.mode.DrainingCloses? && r.closes == [] && AllReturned(r)
    requires Ran(capacity, r.(mode := DrainingRequests), requestSteps, r.(mode := DrainingRequests, requests := []))
    requires Ran(capacity, r.(mode := Sweeping, requests := [], tasks := map[]), lateSteps, Swept(r, late))
    ensures Ran(capacity, r, ((([] + [ClosesDrained]) + requestSteps) + [RequestsDrained]) + lateSteps, Swept(r, late))
  {
    var emptied := r.(mode := DrainingRequests, requests := []);
    assert Ran(capacity, r, [], r);
    ThenStep(capacity, r, [], r, ClosesDrained, requestSteps, emptied);
    ThenStep(capacity, r, ([] + [ClosesDrained]) + requestSteps, emptied, RequestsDrained, lateSteps, Swept(r, late));
  }

  lemma TaskIsRun(capacity: nat, begun: Room, drainSteps: seq<Step>, r: Room, sweepSteps: seq<Step>, late: seq<Stream>)
    requires Sound(begun) && begun.mode.Broken?
    requires Ran(capacity, After(capacity, begun, EmitSeal), drainSteps, r)
    requires Ran(capacity, r, sweepSteps, Swept(r, late))
    ensures Ran(capacity, begun, (([EmitSeal] + drainSteps) + sweepSteps) + [EmitClose],
                Swept(r, late).(mode := Finished, control := r.control + [CloseSignal]))
  {
    RunStep(capacity, begun, EmitSeal, drainSteps);
    RanFurther(capacity, begun, [EmitSeal] + drainSteps, r, sweepSteps, Swept(r, late));
    RanOn(capacity, begun, ([EmitSeal] + drainSteps) + sweepSteps, Swept(r, late), EmitClose);
  }

  lemma TaskEnds(capacity: nat, begun: Room, drainSteps: seq<Step>, r: Room, sweepSteps: seq<Step>, late: seq<Stream>)
    requires Sound(begun) && begun.mode.Broken?
    requires DrainUnderway(capacity, After(capacity, begun, EmitSeal), drainSteps, r)
    requires r.closes == [] && Ran(capacity, r, sweepSteps, Swept(r, late)) && |sweepSteps| == |r.requests| + |late| + 2
    ensures HasDeparted(capacity, begun, late, (([EmitSeal] + drainSteps) + sweepSteps) + [EmitClose], DrainOver,
                        Swept(r, late).(mode := Finished, control := r.control + [CloseSignal]))
  {
    TaskIsRun(capacity, begun, drainSteps, r, sweepSteps, late);
  }
}
