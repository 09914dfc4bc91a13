/**
 The closing protocol of a room. With no shutdown, on_close always has something to do until every
 task has ended, and can only do so much of it; after it the queues drain and the room finishes.
 Under a shutdown it can hang, and so can the drain that follows one: exactly when is shown here.
 */
module RoomClosing {
  import opened Common
  import opened RoomCodes
  import opened Players
  import opened Rooms
  import opened RoomSafety
  import opened RoomLimits
  import opened RoomRuns
  import opened MapSums

  /** A task still serving its client has a terminal notification ahead of it. */
  predicate Called(p: Player) {
    !Finishing(p) ==> exists i :: p.cursor <= i < |p.log| && IsTerminal(p.log[i])
  }

  /** Everyone on_close waits for has been called to close. */
  ghost predicate Summoned(r: Room) {
    r.mode.Emptying? ==> forall id :: id in r.tasks ==> Called(r.tasks[id])
  }

  lemma BeginCloseSummons(r: Room, n: Notification, sendToHost: bool, last: Option<CloseTask>)
    requires Shown(r.tasks) && IsTerminal(n)
    ensures Summoned(BeginClose(r, n, sendToHost, last))
  {
    var next := BeginClose(r, n, sendToHost, last);
    forall id | id in next.tasks ensures Called(next.tasks[id]) {
      assert Faithful(r.tasks[id]);
      assert next.tasks[id].log[|r.tasks[id].log|] == n;
    }
  }

  lemma ActKeepsCalled(capacity: nat, p: Player, act: Act, requestsOpen: bool, closesOpen: bool, shutdown: bool)
    requires Called(p) && CanAct(p, act, requestsOpen, closesOpen, shutdown)
    ensures Called(AfterAct(capacity, p, act))
  {
  }

  lemma RequestKeepsSummoned(r: Room, req: Request)
    requires Shown(r.tasks) && Summoned(r)
    ensures Summoned(HandleRequest(r, req))
  {
    match req.cmd {
      case SealRoom => BeginCloseSummons(r, RoomSealed, true, None);
      case DropConnection => BeginCloseSummons(r, HostLeft, false, None);
      case SendTo(_, _, _) => ModeAfterRequest(r, req);
    }
  }

  lemma CloseRequestKeepsSummoned(r: Room, c: CloseRequest)
    requires Shown(r.tasks) && Summoned(r)
    ensures Summoned(HandleClose(r, c))
  {
    BeginCloseSummons(r, HostLeft, false, Some(CloseTask(c.stream, c.code)));
  }

  lemma ConfigureKeepsSummoned(r: Room, limits: Limits, kicked: set<u32>)
    requires Shown(r.tasks) && r.mode.Serving?
    ensures Summoned(Reconfigured(r, limits, kicked))
  {
    var updated := r.(limits := limits, quotaEver := if limits.quota > r.quotaEver then limits.quota else r.quotaEver);
    BeginCloseSummons(updated, Failure(Policy), true, None);
  }

  lemma StepKeepsSummoned(capacity: nat, r: Room, step: Step)
    requires Shown(r.tasks) && Summoned(r) && Can(r, step)
    ensures Summoned(After(capacity, r, step))
  {
    match step {
      case TakeRequest => RequestKeepsSummoned(r.(requests := r.requests[1..]), r.requests[0]);
      case TakeClose => CloseRequestKeepsSummoned(r.(closes := r.closes[1..]), r.closes[0]);
      case Configure(limits, kicked) => ConfigureKeepsSummoned(r, limits, kicked);
      case TimeUp => BeginCloseSummons(r, Failure(Policy), true, None);
      case PlayerActs(id, act) =>
        if r.mode.Emptying? {
          ActKeepsCalled(capacity, r.tasks[id], act, |r.requests| < QUEUE_SIZE, |r.closes| < QUEUE_SIZE, r.shutdown);
        }
      case _ =>
    }
  }

  /** Everything known of a reachable room. */
  ghost predicate Reachable(r: Room) { Sound(r) && Summoned(r) }

  lemma StepKeepsReachable(capacity: nat, r: Room, step: Step)
    requires Reachable(r) && Can(r, step)
    ensures Reachable(After(capacity, r, step))
  {
    StepKeepsSound(capacity, r, step);
    StepKeepsSummoned(capacity, r, step);
  }

  lemma {:induction false} RunsAreReachable(capacity: nat, r: Room, steps: seq<Step>)
    requires Reachable(r) && IsRun(capacity, r, steps)
    ensures Reachable(Final(capacity, r, steps))
    decreases |steps|
  {
    if steps == [] {
    } else {
      StepKeepsReachable(capacity, r, steps[0]);
      RunsAreReachable(capacity, After(capacity, r, steps[0]), steps[1..]);
    }
  }

  lemma StartIsReachable(code: RoomCode, stream: Stream, inbox: seq<ClientMessage>, limits: Limits, now: nat)
    requires ValidLimits(limits)
    ensures Reachable(Start(code, stream, inbox, limits, now))
  {
    StartIsSound(code, stream, inbox, limits, now);
  }

  lemma SignalledStartIsReachable(code: RoomCode, stream: Stream, inbox: seq<ClientMessage>, limits: Limits, now: nat)
    requires ValidLimits(limits)
    ensures Reachable(StartSignalled(code, stream, inbox, limits, now))
  {
    SignalledStartIsSound(code, stream, inbox, limits, now);
  }

  // ----- never stuck -----

  /** Steps that get the closing done; pings that work, config changes and time passing do not count. */
  predicate Working(step: Step) {
    match step
    case TakeRequest => true
    case TakeClose => true
    case Emptied => true
    case PlayerActs(_, act) => act != SendPing(true) && act != Reconfigure
    case _ => false
  }

  /** A live task that has been called always has an act of its own, unless its queue is full. */
  function NextAct(p: Player): Act {
    match p.phase
    case Greeting => Greet(true)
    case Running => TakeNotice(true)
    case Leaving => Return
    case _ => Submit
  }

  lemma CalledCanAct(p: Player, requestsOpen: bool, closesOpen: bool, shutdown: bool)
    requires Faithful(p) && Called(p) && !p.phase.Done?
    requires p.phase.Asking? ==> requestsOpen
    requires p.phase.Closing? ==> closesOpen
    ensures CanAct(p, NextAct(p), requestsOpen, closesOpen, shutdown)
  {
  }

  lemma NothingToDo(r: Room)
    requires r.mode.Emptying? && r.tasks != map[] && r.requests == [] && r.closes == [] && AllReturned(r)
    ensures forall step :: Working(step) ==> !Can(r, step)
  {
  }

  lemma NextStep(r: Room) returns (step: Step)
    requires Shown(r.tasks) && Summoned(r) && r.mode.Emptying?
    requires r.requests != [] || r.closes != [] || !AllReturned(r)
    ensures Working(step) && Can(r, step) && !step.Emptied? && (step.PlayerActs? ==> !step.act.Abandon?)
  {
    if r.requests != [] {
      step := TakeRequest;
    } else if r.closes != [] {
      step := TakeClose;
    } else {
      var id :| id in r.tasks && !r.tasks[id].phase.Done?;
      CalledCanAct(r.tasks[id], true, true, r.shutdown);
      step := PlayerActs(id, NextAct(r.tasks[id]));
    }
  }

  /** In exactly one situation has on_close nothing to do: the queues are empty and every task it waits for is gone. */
  lemma StuckExactly(r: Room)
    requires Reachable(r) && r.mode.Emptying? && r.tasks != map[]
    ensures (forall step :: Working(step) ==> !Can(r, step))
       <==> r.requests == [] && r.closes == [] && AllReturned(r)
  {
    if r.requests != [] || r.closes != [] || !AllReturned(r) {
      var step := NextStep(r);
    } else {
      NothingToDo(r);
    }
  }

  lemma SomebodyIsLeft(r: Room)
    requires Endings(r) && r.mode.Emptying? && !r.shutdown && r.tasks != map[]
    ensures !(r.requests == [] && r.closes == [] && AllReturned(r))
  {
  }

  /** Without a shutdown that never happens: on_close always has a step that gets it further. */
  lemma ClosingNeverStuck(r: Room) returns (step: Step)
    requires Reachable(r) && r.mode.Emptying? && !r.shutdown
    ensures Working(step) && Can(r, step)
  {
    step := Emptied;
    if r.tasks != map[] {
      SomebodyIsLeft(r);
      StuckExactly(r);
      step :| Working(step) && Can(r, step);
    }
  }

  // ----- only so much to do -----

  function Rank(p: Player): nat {
    3 * |p.inbox| + (if |p.log| > p.cursor then |p.log| - p.cursor else 0)
    + match p.phase
      case Greeting => 6 + (if |Greetings(p)| > |p.wire| then |Greetings(p)| - |p.wire| else 0)
      case Running => 5
      case Asking(cmd) => if cmd == DropConnection then 3 else 7
      case Closing(_) => 3
      case Leaving => 1
      case Done => 0
  }

  /** What is left to do: the work of every task and every queued request. */
  ghost function Work(r: Room): nat {
    Sum(Rank, r.tasks) + |r.requests| + |r.closes|
  }

  lemma ActWorks(capacity: nat, p: Player, act: Act, requestsOpen: bool, closesOpen: bool, shutdown: bool)
    requires CanAct(p, act, requestsOpen, closesOpen, shutdown)
    ensures Rank(AfterAct(capacity, p, act)) + (if act.Submit? then 1 else 0)
         <= Rank(p) - (if act != SendPing(true) && act != Reconfigure then 1 else 0)
  {
  }

  lemma ActStepWorks(capacity: nat, r: Room, id: u32, act: Act)
    requires Can(r, PlayerActs(id, act))
    ensures Work(AfterPlayerAct(capacity, r, id, act)) + (if act != SendPing(true) && act != Reconfigure then 1 else 0)
         <= Work(r)
  {
    ActWorks(capacity, r.tasks[id], act, |r.requests| < QUEUE_SIZE, |r.closes| < QUEUE_SIZE, r.shutdown);
    SumReplaced(Rank, r.tasks, id, AfterAct(capacity, r.tasks[id], act));
  }

  /** Every step of the closing leaves less to do, or is idle and leaves the same. */
  lemma StepWorks(capacity: nat, r: Room, step: Step)
    requires r.mode.Emptying? && Can(r, step) && !step.Emptied?
    ensures Work(After(capacity, r, step)) + (if Working(step) then 1 else 0) <= Work(r)
    ensures After(capacity, r, step).mode.Emptying?
  {
    match step {
      case TakeRequest => SumRemoved(Rank, r.tasks, r.requests[0].player);
      case TakeClose => SumRemoved(Rank, r.tasks, r.closes[0].player);
      case PlayerActs(id, act) => ActStepWorks(capacity, r, id, act);
      case _ =>
    }
  }

  function Effort(steps: seq<Step>): nat {
    if steps == [] then 0 else (if Working(steps[0]) then 1 else 0) + Effort(steps[1..])
  }

  lemma StepKeepsClosed(capacity: nat, r: Room, step: Step)
    requires r.closed && Can(r, step)
    ensures After(capacity, r, step).closed
  {
    match step {
      case TakeRequest => ModeAfterRequest(r.(requests := r.requests[1..]), r.requests[0]);
      case _ =>
    }
  }

  lemma {:induction false} ClosedForGood(capacity: nat, r: Room, steps: seq<Step>)
    requires Sound(r) && r.closed && IsRun(capacity, r, steps)
    ensures Final(capacity, r, steps).closed && Final(capacity, r, steps).tasks == map[]
    decreases |steps|
  {
    if steps == [] {
    } else {
      StepKeepsSound(capacity, r, steps[0]);
      StepKeepsClosed(capacity, r, steps[0]);
      ClosedForGood(capacity, After(capacity, r, steps[0]), steps[1..]);
    }
  }

  /**
   on_close terminates under fair scheduling: however a run goes on, once it has taken more working
   steps than there was work when the closing began, on_close is over and no task is left. A working
   step is always available (ClosingNeverStuck), so only ignoring all of them forever could prevent that.
   */
  lemma {:induction false} ClosingEnds(capacity: nat, r: Room, steps: seq<Step>)
    requires Reachable(r) && r.mode.Emptying? && IsRun(capacity, r, steps)
    ensures Effort(steps) > Work(r) ==> Final(capacity, r, steps).closed && Final(capacity, r, steps).tasks == map[]
    decreases |steps|
  {
    if steps == [] {
    } else {
      var next := After(capacity, r, steps[0]);
      StepKeepsReachable(capacity, r, steps[0]);
      if steps[0].Emptied? {
        ClosedForGood(capacity, next, steps[1..]);
      } else {
        StepWorks(capacity, r, steps[0]);
        ClosingEnds(capacity, next, steps[1..]);
      }
    }
  }

  // ----- exactly when it can end -----

  /** Every task that has ended is still to be heard of. */
  predicate Owing(r: Room) {
    forall id :: id in r.tasks && Ended(r.tasks[id]) ==> HasTerminal(r, id)
  }

  /** What a step does without a shutdown in sight, it does with one. */
  lemma StepIgnoresShutdown(capacity: nat, r: Room, step: Step)
    requires r.mode.Emptying? && Can(r, step) && (step.TakeRequest? || step.TakeClose? || step.PlayerActs?)
    requires step.PlayerActs? ==> !step.act.Abandon?
    ensures Can(r.(shutdown := false), step)
    ensures After(capacity, r.(shutdown := false), step) == After(capacity, r, step).(shutdown := false)
  {
  }

  lemma StepKeepsOwing(capacity: nat, r: Room, step: Step)
    requires Endings(r) && Owing(r) && r.mode.Emptying? && Can(r, step)
    requires step.TakeRequest? || step.TakeClose? || step.PlayerActs?
    requires step.PlayerActs? ==> !step.act.Abandon?
    ensures Owing(After(capacity, r, step))
  {
    var calm, next := r.(shutdown := false), After(capacity, r, step);
    assert forall id :: HasTerminal(calm, id) == HasTerminal(r, id);
    StepIgnoresShutdown(capacity, r, step);
    StepKeepsEndings(capacity, calm, step);
    StepWorks(capacity, r, step);
    assert forall id :: HasTerminal(next.(shutdown := false), id) == HasTerminal(next, id);
  }

  lemma OwingIsNotStuck(r: Room)
    requires Owing(r) && r.tasks != map[]
    ensures r.requests != [] || r.closes != [] || !AllReturned(r)
  {
    var id :| id in r.tasks;
    assert r.requests == [] && r.closes == [] ==> !HasTerminal(r, id);
  }

  /** As long as nobody abandons, the next step leads on, and at last out of on_close. */
  lemma {:induction false} OwingCloses(capacity: nat, r: Room) returns (steps: seq<Step>)
    requires Reachable(r) && r.mode.Emptying? && Owing(r)
    ensures IsRun(capacity, r, steps) && Final(capacity, r, steps).closed
    decreases Work(r)
  {
    if r.tasks == map[] {
      RunStep(capacity, r, Emptied, []);
      steps := [Emptied] + [];
    } else {
      OwingIsNotStuck(r);
      var step := NextStep(r);
      StepKeepsReachable(capacity, r, step);
      StepKeepsOwing(capacity, r, step);
      StepWorks(capacity, r, step);
      var rest := OwingCloses(capacity, After(capacity, r, step));
      RunStep(capacity, r, step, rest);
      steps := [step] + rest;
    }
  }

  /** A task that ended unheard of is never released. */
  predicate Lost(r: Room, id: u32) {
    r.mode.Emptying? && id in r.tasks && Ended(r.tasks[id]) && !HasTerminal(r, id)
  }

  lemma ActKeepsLost(capacity: nat, r: Room, player: u32, act: Act, id: u32)
    requires Lost(r, id) && Can(r, PlayerActs(player, act))
    ensures Lost(AfterPlayerAct(capacity, r, player, act), id)
  {
    var next := AfterPlayerAct(capacity, r, player, act);
    assert act.Submit? ==> player != id;
    assert forall q :: q in next.requests ==> q in r.requests || (q.player == player && act.Submit?);
    assert forall c :: c in next.closes ==> c in r.closes || (c.player == player && act.Submit?);
  }

  lemma StepKeepsLost(capacity: nat, r: Room, step: Step, id: u32)
    requires Lost(r, id) && Can(r, step)
    ensures Lost(After(capacity, r, step), id)
  {
    var next := After(capacity, r, step);
    match step {
      case TakeRequest => TakenRequest(r);
      case TakeClose => TakenClose(r);
      case PlayerActs(player, act) => ActKeepsLost(capacity, r, player, act, id);
      case Elapse => assert HasTerminal(next, id) == HasTerminal(r, id);
      case RaiseShutdown => assert HasTerminal(next, id) == HasTerminal(r, id);
      case _ =>
    }
  }

  lemma {:induction false} LostForGood(capacity: nat, r: Room, steps: seq<Step>, id: u32)
    requires Lost(r, id) && IsRun(capacity, r, steps)
    ensures Lost(Final(capacity, r, steps), id)
    decreases |steps|
  {
    if steps == [] {
    } else {
      StepKeepsLost(capacity, r, steps[0], id);
      LostForGood(capacity, After(capacity, r, steps[0]), steps[1..], id);
    }
  }

  ghost predicate CanClose(capacity: nat, r: Room) {
    exists steps :: IsRun(capacity, r, steps) && Final(capacity, r, steps).closed
  }

  /**
   A closing room can still close if and only if every awaited task that has ended has its terminal request
   queued: one task that took the shutdown branch is enough to hang it, however busy the others are.
   */
  lemma {:induction false} ClosesExactly(capacity: nat, r: Room)
    requires Reachable(r) && r.mode.Emptying?
    ensures CanClose(capacity, r) <==> Owing(r)
  {
    if Owing(r) {
      var steps := OwingCloses(capacity, r);
    } else {
      var id :| id in r.tasks && Ended(r.tasks[id]) && !HasTerminal(r, id);
      forall steps | IsRun(capacity, r, steps) ensures !Final(capacity, r, steps).closed {
        LostForGood(capacity, r, steps, id);
        RunsAreSound(capacity, r, steps);
      }
    }
  }

  // ----- exactly when it must end -----

  /** Nobody on_close waits for can abandon any more: each is about to end, or joined after the signal. */
  predicate NobodyAbandons(r: Room) {
    forall id :: id in r.tasks ==> Finishing(r.tasks[id]) || r.tasks[id].deaf
  }

  lemma ActKeepsStaying(capacity: nat, p: Player, act: Act, requestsOpen: bool, closesOpen: bool, shutdown: bool)
    requires (Finishing(p) || p.deaf) && CanAct(p, act, requestsOpen, closesOpen, shutdown)
    ensures !act.Abandon?
    ensures Finishing(AfterAct(capacity, p, act)) || AfterAct(capacity, p, act).deaf
  {
  }

  /** Only the acts of a player change more than who is left. */
  lemma NobodyBegins(capacity: nat, r: Room, step: Step)
    requires NobodyAbandons(r) && r.mode.Emptying? && Can(r, step) && !step.PlayerActs?
    ensures NobodyAbandons(After(capacity, r, step))
  {
  }

  lemma StepKeepsStaying(capacity: nat, r: Room, step: Step)
    requires Endings(r) && Owing(r) && NobodyAbandons(r) && r.mode.Emptying? && Can(r, step) && !step.Emptied?
    ensures Owing(After(capacity, r, step)) && NobodyAbandons(After(capacity, r, step))
  {
    if step.PlayerActs? {
      ActKeepsStaying(capacity, r.tasks[step.player], step.act, |r.requests| < QUEUE_SIZE, |r.closes| < QUEUE_SIZE,
                      r.shutdown);
      StepKeepsOwing(capacity, r, step);
    } else {
      NobodyBegins(capacity, r, step);
      if step.TakeRequest? || step.TakeClose? {
        StepKeepsOwing(capacity, r, step);
      } else {
        assert forall id :: HasTerminal(After(capacity, r, step), id) == HasTerminal(r, id);
      }
    }
  }

  lemma {:induction false} StayingForGood(capacity: nat, r: Room, steps: seq<Step>)
    requires Reachable(r) && Owing(r) && NobodyAbandons(r) && r.mode.Emptying? && IsRun(capacity, r, steps)
    requires Final(capacity, r, steps).mode.Emptying?
    ensures Reachable(Final(capacity, r, steps)) && Owing(Final(capacity, r, steps))
    decreases |steps|
  {
    if steps == [] {
    } else {
      var next := After(capacity, r, steps[0]);
      StepKeepsReachable(capacity, r, steps[0]);
      if steps[0].Emptied? {
        ClosedForGood(capacity, next, steps[1..]);
        RunsAreSound(capacity, next, steps[1..]);
      } else {
        StepKeepsStaying(capacity, r, steps[0]);
        StepWorks(capacity, r, steps[0]);
        StayingForGood(capacity, next, steps[1..]);
      }
    }
  }

  /** A step that brings a task closer to the shutdown branch. */
  function TowardsAbandoning(r: Room, id: u32): Step
    requires id in r.tasks
  {
    var p := r.tasks[id];
    if p.phase.Running? then (if r.shutdown then PlayerActs(id, Abandon) else RaiseShutdown)
    else if p.phase.Asking? && |r.requests| >= QUEUE_SIZE then TakeRequest
    else PlayerActs(id, NextAct(p))
  }

  /** The task serves its client, or will before it ends, and can hear the signal. */
  predicate Busy(r: Room, id: u32) {
    r.mode.Emptying? && id in r.tasks && !Finishing(r.tasks[id]) && !r.tasks[id].deaf
  }

  lemma AbandoningLoses(capacity: nat, r: Room, id: u32)
    requires Busy(r, id) && Orderly(r) && r.tasks[id].phase.Running? && r.shutdown
    ensures Can(r, PlayerActs(id, Abandon)) && Lost(After(capacity, r, PlayerActs(id, Abandon)), id)
  {
    assert !HasTerminal(r, id);
    assert HasTerminal(After(capacity, r, PlayerActs(id, Abandon)), id) == HasTerminal(r, id);
  }

  lemma TakingKeepsBusy(capacity: nat, r: Room, id: u32)
    requires Busy(r, id) && Orderly(r) && r.requests != []
    ensures Busy(After(capacity, r, TakeRequest), id)
  {
    assert r.requests[0] in r.requests && !HasTerminal(r, id);
  }

  lemma ActingKeepsBusy(capacity: nat, r: Room, id: u32)
    requires Busy(r, id) && Faithful(r.tasks[id]) && !r.tasks[id].phase.Running?
    requires r.tasks[id].phase.Asking? ==> |r.requests| < QUEUE_SIZE
    ensures var step := PlayerActs(id, NextAct(r.tasks[id]));
            Can(r, step) && Busy(After(capacity, r, step), id)
  {
  }

  lemma LeadsToAbandoning(capacity: nat, r: Room, id: u32)
    requires Busy(r, id) && Orderly(r) && Faithful(r.tasks[id])
    ensures var step := TowardsAbandoning(r, id);
            && Can(r, step) && !step.Emptied?
            && if step == PlayerActs(id, Abandon) then Lost(After(capacity, r, step), id)
               else Busy(After(capacity, r, step), id)
  {
    if r.tasks[id].phase.Running? {
      if r.shutdown {
        AbandoningLoses(capacity, r, id);
      }
    } else if r.tasks[id].phase.Asking? && |r.requests| >= QUEUE_SIZE {
      TakingKeepsBusy(capacity, r, id);
    } else {
      ActingKeepsBusy(capacity, r, id);
    }
  }

  lemma AbandoningWorks(capacity: nat, r: Room, id: u32)
    requires Busy(r, id) && Can(r, TowardsAbandoning(r, id)) && !TowardsAbandoning(r, id).Emptied?
    ensures var step := TowardsAbandoning(r, id);
            Work(After(capacity, r, step)) + (if step.RaiseShutdown? then 0 else 1) <= Work(r)
  {
    StepWorks(capacity, r, TowardsAbandoning(r, id));
  }

  lemma AbandoningStep(capacity: nat, r: Room, id: u32)
    requires Reachable(r) && Busy(r, id)
    ensures var step := TowardsAbandoning(r, id);
            && Can(r, step) && Reachable(After(capacity, r, step))
            && (if step == PlayerActs(id, Abandon) then Lost(After(capacity, r, step), id)
                else Busy(After(capacity, r, step), id))
            && Work(After(capacity, r, step)) + (if step.RaiseShutdown? then 0 else 1) <= Work(r)
  {
    assert Orderly(r) && Faithful(r.tasks[id]);
    LeadsToAbandoning(capacity, r, id);
    AbandoningWorks(capacity, r, id);
    StepKeepsReachable(capacity, r, TowardsAbandoning(r, id));
  }

  /** With a shutdown, a task that still serves its client can get to where it abandons. */
  lemma {:induction false} MayAbandon(capacity: nat, r: Room, id: u32) returns (steps: seq<Step>)
    requires Reachable(r) && Busy(r, id)
    ensures IsRun(capacity, r, steps) && Lost(Final(capacity, r, steps), id)
    decreases Work(r), !r.shutdown
  {
    var step := TowardsAbandoning(r, id);
    AbandoningStep(capacity, r, id);
    if step == PlayerActs(id, Abandon) {
      RunStep(capacity, r, step, []);
      steps := [step] + [];
    } else {
      var rest := MayAbandon(capacity, After(capacity, r, step), id);
      RunStep(capacity, r, step, rest);
      steps := [step] + rest;
    }
  }

  ghost predicate MayHang(capacity: nat, r: Room) {
    exists steps :: IsRun(capacity, r, steps) && Final(capacity, r, steps).mode.Emptying?
                    && !CanClose(capacity, Final(capacity, r, steps))
  }

  /**
   A closing room can end up hanging if and only if somebody it waits for is lost already, or still serves its
   client and can hear the shutdown signal.
   */
  lemma {:induction false} MayHangExactly(capacity: nat, r: Room)
    requires Reachable(r) && r.mode.Emptying?
    ensures MayHang(capacity, r) <==> !(Owing(r) && NobodyAbandons(r))
  {
    if Owing(r) && NobodyAbandons(r) {
      forall steps | IsRun(capacity, r, steps) && Final(capacity, r, steps).mode.Emptying?
        ensures CanClose(capacity, Final(capacity, r, steps))
      {
        StayingForGood(capacity, r, steps);
        ClosesExactly(capacity, Final(capacity, r, steps));
      }
    } else {
      var steps := [];
      if Owing(r) {
        var id :| id in r.tasks && !Finishing(r.tasks[id]) && !r.tasks[id].deaf;
        steps := MayAbandon(capacity, r, id);
        RunsAreReachable(capacity, r, steps);
        assert Lost(Final(capacity, r, steps), id);
      }
      ClosesExactly(capacity, Final(capacity, r, steps));
    }
  }
}
