/**
 The drains after a shutdown. The close queue is drained to its end before the request queue is read,
 and a task that waits for a place in a full request queue keeps the close queue open. What can become
 of such a drain depends on two numbers: how many requests its tasks must send before they can return, and
 how many all clients together may still cause. Both are compared here with the room in the queue. Besides,
 a task that joined after the shutdown signal was sent never hears it, and serves its client all through
 the drain.
 */
module RoomDrains {
  import opened Common
  import opened Players
  import opened Rooms
  import opened RoomSafety
  import opened RoomLimits
  import opened RoomRuns
  import opened RoomClosing
  import opened MapSums

  /** The room has left its main loop and has not yet drained the close queue. */
  predicate Draining(r: Room) { r.mode.Broken? || r.mode.DrainingCloses? }

  /** A step that gets a drain further. */
  predicate Drains(step: Step) {
    step.EmitSeal? || step.TakeClose? || step.ClosesDrained?
    || (step.PlayerActs? && step.act != SendPing(true) && step.act != Reconfigure)
  }

  // ----- stuck, and when -----

  predicate Unfinished(r: Room) { exists id :: id in r.tasks && !r.tasks[id].phase.Done? }

  /** The task can act, unless it waits for a full request queue. */
  predicate CanMove(r: Room, p: Player) {
    !p.phase.Done? && (p.phase.Asking? ==> |r.requests| < QUEUE_SIZE)
  }

  function MoveOf(p: Player): Act {
    match p.phase
    case Greeting => Greet(true)
    case Running => TimeOut
    case Leaving => Return
    case _ => Submit
  }

  lemma MoversCanAct(r: Room, p: Player, act: Act)
    requires r.closes == [] && Faithful(p)
    ensures CanMove(r, p) ==> CanAct(p, MoveOf(p), |r.requests| < QUEUE_SIZE, true, r.shutdown)
    ensures CanAct(p, act, |r.requests| < QUEUE_SIZE, true, r.shutdown) ==> CanMove(r, p)
  {
  }

  /** The request queue is full, and every task still there waits for a place in it. */
  predicate Blocked(r: Room) {
    r.closes == [] && Unfinished(r) && forall id :: id in r.tasks ==> !CanMove(r, r.tasks[id])
  }

  lemma SomebodyMoves(r: Room) returns (step: Step)
    requires Sound(r) && Draining(r) && !Blocked(r)
    ensures Drains(step) && Can(r, step)
  {
    if r.mode.Broken? {
      step := EmitSeal;
    } else if r.closes != [] {
      step := TakeClose;
    } else if !Unfinished(r) {
      step := ClosesDrained;
    } else {
      var id :| id in r.tasks && CanMove(r, r.tasks[id]);
      MoversCanAct(r, r.tasks[id], Return);
      step := PlayerActs(id, MoveOf(r.tasks[id]));
    }
  }

  lemma BlockedCannot(r: Room, step: Step)
    requires Blocked(r) && Shown(r.tasks) && r.mode.DrainingCloses? && Drains(step)
    ensures !Can(r, step)
  {
    if step.PlayerActs? && step.player in r.tasks {
      MoversCanAct(r, r.tasks[step.player], step.act);
    }
  }

  /** A drain has nothing to do in exactly one situation. */
  lemma DrainStuckExactly(r: Room)
    requires Sound(r) && r.mode.DrainingCloses?
    ensures (forall step :: Drains(step) ==> !Can(r, step)) <==> Blocked(r)
  {
    if Blocked(r) {
      forall step | Drains(step) ensures !Can(r, step) {
        BlockedCannot(r, step);
      }
    } else {
      var step := SomebodyMoves(r);
    }
  }

  // ----- too many requests needed -----

  /** What the client has said makes the task close it before it has to ask the room for anything. */
  predicate InboxCloses(inbox: seq<ClientMessage>, pongs: nat) {
    inbox != [] && match React(inbox[0])
      case CloseWith(_) => true
      case CountPong => pongs == 0 || InboxCloses(inbox[1..], pongs - 1)
      case _ => false
  }

  lemma {:induction false} MorePongsCloseLess(inbox: seq<ClientMessage>, pongs: nat)
    requires InboxCloses(inbox, pongs + 1)
    ensures InboxCloses(inbox, pongs)
  {
    if React(inbox[0]).CountPong? && pongs > 0 {
      MorePongsCloseLess(inbox[1..], pongs - 1);
    }
  }

  /** What the room has told the task makes it close its client: a terminal notification, or being overtaken. */
  predicate LogCloses(capacity: nat, p: Player) {
    |p.log| > p.cursor + capacity || exists i :: p.cursor <= i < |p.log| && IsTerminal(p.log[i])
  }

  /** The least number of requests a served task must send before it can return. */
  function TollServed(capacity: nat, p: Player): nat {
    if !p.deaf || LogCloses(capacity, p) || InboxCloses(p.inbox, p.pongs) then 0 else 1
  }

  /**
   The same for any task. A task that heard the shutdown signal can leave without a word; one that did not
   leaves with a close if something leads there, and otherwise only with a drop.
   */
  function Toll(capacity: nat, p: Player): nat {
    match p.phase
    case Greeting => TollServed(capacity, p)
    case Running => TollServed(capacity, p)
    case Asking(cmd) => if cmd == DropConnection then 1 else 1 + TollServed(capacity, p)
    case _ => 0
  }

  function Tolls(capacity: nat): Player -> nat { p => Toll(capacity, p) }

  /** The tasks need more places in the request queue than it has left. */
  ghost predicate Overfull(capacity: nat, r: Room) {
    Sum(Tolls(capacity), r.tasks) + |r.requests| > QUEUE_SIZE
  }

  lemma ReadPaysToll(capacity: nat, p: Player)
    requires p.phase.Running? && p.inbox != []
    ensures Toll(capacity, AfterAct(capacity, p, ReadClient)) >= Toll(capacity, p)
  {
  }

  lemma NoticePaysToll(capacity: nat, p: Player, ok: bool)
    requires p.phase.Running? && p.cursor < |p.log|
    ensures Toll(capacity, AfterAct(capacity, p, TakeNotice(ok))) >= Toll(capacity, p)
  {
  }

  /** No act saves a task any of it; what it submits it has paid. */
  lemma ActPaysToll(capacity: nat, p: Player, act: Act, requestsOpen: bool, closesOpen: bool, shutdown: bool)
    requires CanAct(p, act, requestsOpen, closesOpen, shutdown)
    ensures Toll(capacity, AfterAct(capacity, p, act)) + (if act.Submit? && p.phase.Asking? then 1 else 0)
         >= Toll(capacity, p)
  {
    var q := AfterAct(capacity, p, act);
    match act {
      case ReadClient => ReadPaysToll(capacity, p);
      case TakeNotice(ok) => NoticePaysToll(capacity, p, ok);
      case SendPing(ok) =>
        if ok && InboxCloses(p.inbox, p.pongs + 1) {
          MorePongsCloseLess(p.inbox, p.pongs);
        }
      case _ =>
    }
  }

  /** Who has returned pays nothing any more. */
  lemma NobodyPays(capacity: nat, tasks: map<u32, Player>)
    requires forall id :: id in tasks ==> tasks[id].phase.Done?
    ensures Sum(Tolls(capacity), tasks) == 0
  {
    SumOfEqual(Tolls(capacity), tasks, 0);
  }

  lemma OnePays(capacity: nat, tasks: map<u32, Player>, id: u32)
    requires id in tasks
    ensures Sum(Tolls(capacity), tasks) >= Toll(capacity, tasks[id])
  {
    SumSplit(Tolls(capacity), tasks, id);
  }

  lemma BlockedIsOverfull(capacity: nat, r: Room)
    requires Blocked(r)
    ensures Overfull(capacity, r)
  {
    var id :| id in r.tasks && !r.tasks[id].phase.Done?;
    OnePays(capacity, r.tasks, id);
  }

  lemma ActKeepsOverfull(capacity: nat, r: Room, id: u32, act: Act)
    requires Overfull(capacity, r) && Can(r, PlayerActs(id, act))
    ensures Overfull(capacity, AfterPlayerAct(capacity, r, id, act))
  {
    ActPaysToll(capacity, r.tasks[id], act, |r.requests| < QUEUE_SIZE, |r.closes| < QUEUE_SIZE, r.shutdown);
    SumReplaced(Tolls(capacity), r.tasks, id, AfterAct(capacity, r.tasks[id], act));
  }

  lemma StepKeepsOverfull(capacity: nat, r: Room, step: Step)
    requires Orderly(r) && Draining(r) && Overfull(capacity, r) && Can(r, step)
    ensures Draining(After(capacity, r, step)) && Overfull(capacity, After(capacity, r, step))
  {
    match step {
      case PlayerActs(id, act) => ActKeepsOverfull(capacity, r, id, act);
      case ClosesDrained => NobodyPays(capacity, r.tasks);
      case _ =>
    }
  }

  /** An overfull drain stays a drain, whatever is done. */
  lemma {:induction false} OverfullForGood(capacity: nat, r: Room, steps: seq<Step>)
    requires Sound(r) && Draining(r) && Overfull(capacity, r) && IsRun(capacity, r, steps)
    ensures Draining(Final(capacity, r, steps)) && Overfull(capacity, Final(capacity, r, steps))
    decreases |steps|
  {
    if steps == [] {
    } else {
      StepKeepsSound(capacity, r, steps[0]);
      StepKeepsOverfull(capacity, r, steps[0]);
      OverfullForGood(capacity, After(capacity, r, steps[0]), steps[1..]);
    }
  }

  /** The act that gets a task out of the way for no more than its toll. */
  function WayOut(capacity: nat, p: Player): Act {
    match p.phase
    case Greeting => Greet(true)
    case Running =>
      if !p.deaf then Abandon
      else if LogCloses(capacity, p) then TakeNotice(true)
      else if InboxCloses(p.inbox, p.pongs) then ReadClient
      else TimeOut
    case Leaving => Return
    case _ => Submit
  }

  lemma WayOutCosts(capacity: nat, p: Player)
    requires !p.phase.Done? && Faithful(p)
    ensures CanAct(p, WayOut(capacity, p), p.phase.Asking?, true, true)
    ensures Toll(capacity, AfterAct(capacity, p, WayOut(capacity, p))) + (if p.phase.Asking? then 1 else 0)
         == Toll(capacity, p)
    ensures WayOut(capacity, p) != Reconfigure && WayOut(capacity, p) != SendPing(true)
    ensures p.phase.Asking? ==> WayOut(capacity, p).Submit? && Toll(capacity, p) >= 1
    ensures WayOut(capacity, p).Submit? ==> p.phase.Asking? || p.phase.Closing?
  {
  }

  lemma WayOutIsOpen(capacity: nat, r: Room, id: u32)
    requires r.mode.DrainingCloses? && r.closes == [] && r.shutdown && !Overfull(capacity, r)
    requires id in r.tasks && !r.tasks[id].phase.Done? && Faithful(r.tasks[id])
    ensures var step := PlayerActs(id, WayOut(capacity, r.tasks[id]));
            Can(r, step) && !Overfull(capacity, After(capacity, r, step)) && Work(After(capacity, r, step)) < Work(r)
  {
    var p := r.tasks[id];
    WayOutCosts(capacity, p);
    OnePays(capacity, r.tasks, id);
    SumReplaced(Tolls(capacity), r.tasks, id, AfterAct(capacity, p, WayOut(capacity, p)));
    ActStepWorks(capacity, r, id, WayOut(capacity, p));
  }

  /** Otherwise every task can be got out of the way, and the drain ends. */
  lemma {:induction false} DrainEndsWell(capacity: nat, r: Room) returns (steps: seq<Step>)
    requires Sound(r) && r.mode.DrainingCloses? && !Overfull(capacity, r)
    ensures IsRun(capacity, r, steps) && PastDrain(Final(capacity, r, steps).mode)
    decreases Work(r)
  {
    if r.closes != [] {
      StepKeepsSound(capacity, r, TakeClose);
      var rest := DrainEndsWell(capacity, After(capacity, r, TakeClose));
      RunStep(capacity, r, TakeClose, rest);
      steps := [TakeClose] + rest;
    } else if Unfinished(r) {
      var id :| id in r.tasks && !r.tasks[id].phase.Done?;
      var step := PlayerActs(id, WayOut(capacity, r.tasks[id]));
      WayOutIsOpen(capacity, r, id);
      StepKeepsSound(capacity, r, step);
      var rest := DrainEndsWell(capacity, After(capacity, r, step));
      RunStep(capacity, r, step, rest);
      steps := [step] + rest;
    } else {
      RunStep(capacity, r, ClosesDrained, []);
      steps := [ClosesDrained] + [];
    }
  }

  ghost predicate CanDrain(capacity: nat, r: Room) {
    exists steps :: IsRun(capacity, r, steps) && PastDrain(Final(capacity, r, steps).mode)
  }

  lemma {:induction false} OverfullCannotDrain(capacity: nat, r: Room)
    requires Sound(r) && Draining(r) && Overfull(capacity, r)
    ensures !CanDrain(capacity, r)
  {
    forall steps | IsRun(capacity, r, steps) ensures !PastDrain(Final(capacity, r, steps).mode) {
      OverfullForGood(capacity, r, steps);
    }
  }

  lemma {:induction false} OthersCanDrain(capacity: nat, r: Room)
    requires Sound(r) && Draining(r) && !Overfull(capacity, r)
    ensures CanDrain(capacity, r)
  {
    if r.mode.DrainingCloses? {
      var steps := DrainEndsWell(capacity, r);
    } else {
      StepKeepsSound(capacity, r, EmitSeal);
      var rest := DrainEndsWell(capacity, After(capacity, r, EmitSeal));
      RunStep(capacity, r, EmitSeal, rest);
      assert IsRun(capacity, r, [EmitSeal] + rest);
    }
  }

  /**
   A room that has left its main loop can get through the drain of its close queue if and only if its tasks
   need no more places in the request queue than it has left.
   */
  lemma {:induction false} CanDrainExactly(capacity: nat, r: Room)
    requires Sound(r) && Draining(r)
    ensures CanDrain(capacity, r) <==> !Overfull(capacity, r)
  {
    if Overfull(capacity, r) {
      OverfullCannotDrain(capacity, r);
    } else {
      OthersCanDrain(capacity, r);
    }
  }

  // ----- too many requests to come -----

  /** How many requests what a client has yet to say can lead to, counting the drop that may end it. */
  function AskedFor(inbox: seq<ClientMessage>): nat {
    if inbox == [] then 1
    else match React(inbox[0])
      case Ask(_) => 1 + AskedFor(inbox[1..])
      case CountPong => AskedFor(inbox[1..])
      case _ => 1
  }

  /** How many requests a task can still cause. */
  function Asks(p: Player): nat {
    match p.phase
    case Greeting => AskedFor(p.inbox)
    case Running => AskedFor(p.inbox)
    case Asking(cmd) => if cmd == DropConnection then 1 else 1 + AskedFor(p.inbox)
    case _ => 0
  }

  ghost predicate Crowded(r: Room) { Sum(Asks, r.tasks) + |r.requests| > QUEUE_SIZE }

  lemma {:induction false} AtLeastOne(inbox: seq<ClientMessage>)
    ensures AskedFor(inbox) >= 1
  {
    if inbox == [] {
    } else {
      AtLeastOne(inbox[1..]);
    }
  }

  lemma ActAsksNoMore(capacity: nat, p: Player, act: Act, requestsOpen: bool, closesOpen: bool, shutdown: bool)
    requires CanAct(p, act, requestsOpen, closesOpen, shutdown)
    ensures Asks(AfterAct(capacity, p, act)) + (if act.Submit? && p.phase.Asking? then 1 else 0) <= Asks(p)
  {
    AtLeastOne(p.inbox);
    if act.ReadClient? {
      AtLeastOne(p.inbox[1..]);
    }
  }

  lemma StepKeepsUncrowded(capacity: nat, r: Room, step: Step)
    requires Draining(r) && !Crowded(r) && Can(r, step)
    ensures !Crowded(After(capacity, r, step))
    ensures Draining(After(capacity, r, step)) || PastDrain(After(capacity, r, step).mode)
  {
    match step {
      case PlayerActs(id, act) =>
        ActAsksNoMore(capacity, r.tasks[id], act, |r.requests| < QUEUE_SIZE, |r.closes| < QUEUE_SIZE, r.shutdown);
        SumReplaced(Asks, r.tasks, id, AfterAct(capacity, r.tasks[id], act));
      case _ =>
    }
  }

  lemma UncrowdedIsNotOverfull(capacity: nat, r: Room)
    requires !Crowded(r)
    ensures !Overfull(capacity, r)
  {
    forall id | id in r.tasks ensures Toll(capacity, r.tasks[id]) <= Asks(r.tasks[id]) {
      AtLeastOne(r.tasks[id].inbox);
    }
    SumAtMost(Tolls(capacity), Asks, r.tasks);
  }

  lemma StepStaysPast(capacity: nat, r: Room, step: Step)
    requires PastDrain(r.mode) && Can(r, step)
    ensures PastDrain(After(capacity, r, step).mode)
  {
    match step {
      case TakeRequest => ModeAfterRequest(r.(requests := r.requests[1..]), r.requests[0]);
      case _ =>
    }
  }

  lemma {:induction false} PastForGood(capacity: nat, r: Room, steps: seq<Step>)
    requires PastDrain(r.mode) && IsRun(capacity, r, steps)
    ensures PastDrain(Final(capacity, r, steps).mode)
    decreases |steps|
  {
    if steps == [] {
    } else {
      StepStaysPast(capacity, r, steps[0]);
      PastForGood(capacity, After(capacity, r, steps[0]), steps[1..]);
    }
  }

  /** An uncrowded drain never gets crowded. */
  lemma {:induction false} UncrowdedForGood(capacity: nat, r: Room, steps: seq<Step>)
    requires Draining(r) && !Crowded(r) && IsRun(capacity, r, steps)
    ensures var last := Final(capacity, r, steps);
            PastDrain(last.mode) || (Draining(last) && !Crowded(last))
    decreases |steps|
  {
    if steps == [] {
    } else {
      var next := After(capacity, r, steps[0]);
      StepKeepsUncrowded(capacity, r, steps[0]);
      if PastDrain(next.mode) {
        PastForGood(capacity, next, steps[1..]);
      } else {
        UncrowdedForGood(capacity, next, steps[1..]);
      }
    }
  }

  function Waits(p: Player): nat { if p.phase.Asking? then 1 else 0 }

  /** More tasks wait for a place in the request queue than it has left. */
  ghost predicate Jammed(r: Room) { Sum(Waits, r.tasks) + |r.requests| > QUEUE_SIZE }

  lemma OneWaits(tasks: map<u32, Player>, id: u32)
    requires id in tasks && tasks[id].phase.Asking?
    ensures Sum(Waits, tasks) >= 1
  {
    SumSplit(Waits, tasks, id);
  }

  lemma JammedIsOverfull(capacity: nat, r: Room)
    requires Jammed(r)
    ensures Overfull(capacity, r)
  {
    SumAtMost(Waits, Tolls(capacity), r.tasks);
  }

  /** The act of a task that has more requests to come, which loses none of them. */
  function Nagging(p: Player): Act {
    match p.phase
    case Greeting => Greet(true)
    case Running =>
      if p.inbox == [] then TimeOut
      else (match React(p.inbox[0])
            case Ask(_) => ReadClient
            case CountPong => if p.pongs > 0 then ReadClient else SendPing(true)
            case _ => TimeOut)
    case _ => Submit
  }

  /** The task has more to ask for, and reads it next. */
  predicate Nags(p: Player) { Asks(p) > Waits(p) && Nagging(p) == ReadClient }

  lemma NaggingAsksOn(capacity: nat, p: Player, requestsOpen: bool, closesOpen: bool, shutdown: bool)
    requires Faithful(p) && Asks(p) > Waits(p) && (p.phase.Asking? ==> requestsOpen)
    ensures CanAct(p, Nagging(p), requestsOpen, closesOpen, shutdown)
    ensures Asks(AfterAct(capacity, p, Nagging(p))) + Waits(p) == Asks(p)
    ensures Nagging(p) == SendPing(true) ==> Nags(AfterAct(capacity, p, Nagging(p)))
    ensures Nagging(p).Submit? ==> p.phase.Asking?
    ensures Nagging(p) != Reconfigure
  {
  }

  /** While a crowded drain is not jammed, somebody has more to ask for than the place it waits for. */
  lemma SomebodyNags(r: Room) returns (id: u32)
    requires Crowded(r) && !Jammed(r)
    ensures id in r.tasks && Asks(r.tasks[id]) > Waits(r.tasks[id])
    ensures r.tasks[id].phase.Asking? ==> |r.requests| < QUEUE_SIZE
  {
    if forall id :: id in r.tasks ==> Asks(r.tasks[id]) <= Waits(r.tasks[id]) {
      SumAtMost(Asks, Waits, r.tasks);
    }
    id :| id in r.tasks && Asks(r.tasks[id]) > Waits(r.tasks[id]);
    if r.tasks[id].phase.Asking? {
      OneWaits(r.tasks, id);
    }
  }

  lemma NaggingKeepsCrowded(capacity: nat, r: Room, id: u32)
    requires r.mode.DrainingCloses? && Crowded(r) && id in r.tasks && Faithful(r.tasks[id])
    requires Asks(r.tasks[id]) > Waits(r.tasks[id]) && (r.tasks[id].phase.Asking? ==> |r.requests| < QUEUE_SIZE)
    ensures var step := PlayerActs(id, Nagging(r.tasks[id]));
            Can(r, step) && Crowded(After(capacity, r, step)) && After(capacity, r, step).mode.DrainingCloses?
  {
    var p := r.tasks[id];
    NaggingAsksOn(capacity, p, |r.requests| < QUEUE_SIZE, |r.closes| < QUEUE_SIZE, r.shutdown);
    SumReplaced(Asks, r.tasks, id, AfterAct(capacity, p, Nagging(p)));
  }

  lemma NagStep(capacity: nat, r: Room, id: u32, act: Act)
    requires Sound(r) && r.mode.DrainingCloses? && Crowded(r) && id in r.tasks && act == Nagging(r.tasks[id])
    requires Asks(r.tasks[id]) > Waits(r.tasks[id]) && (r.tasks[id].phase.Asking? ==> |r.requests| < QUEUE_SIZE)
    ensures var step := PlayerActs(id, act);
            && Can(r, step) && Sound(After(capacity, r, step)) && Crowded(After(capacity, r, step))
            && After(capacity, r, step).mode.DrainingCloses?
            && Work(After(capacity, r, step)) + (if act != SendPing(true) then 1 else 0) <= Work(r)
            && id in After(capacity, r, step).tasks
            && (act == SendPing(true) ==> Nags(After(capacity, r, step).tasks[id]))
  {
    NaggingKeepsCrowded(capacity, r, id);
    NaggingAsksOn(capacity, r.tasks[id], |r.requests| < QUEUE_SIZE, |r.closes| < QUEUE_SIZE, r.shutdown);
    StepKeepsSound(capacity, r, PlayerActs(id, act));
    ActStepWorks(capacity, r, id, act);
  }

  /** A crowded drain can become jammed: everybody asks for as much as it can. */
  lemma {:induction false} CrowdFills(capacity: nat, r: Room, nagger: Option<u32>) returns (steps: seq<Step>)
    requires Sound(r) && r.mode.DrainingCloses? && Crowded(r)
    requires nagger.Some? ==> nagger.value in r.tasks && Nags(r.tasks[nagger.value])
    ensures IsRun(capacity, r, steps)
    ensures Draining(Final(capacity, r, steps)) && Jammed(Final(capacity, r, steps))
    decreases Work(r), nagger.None?
  {
    if Jammed(r) {
      steps := [];
    } else {
      var id: u32;
      if nagger.Some? {
        id := nagger.value;
      } else {
        id := SomebodyNags(r);
      }
      var act := Nagging(r.tasks[id]);
      NagStep(capacity, r, id, act);
      var next := After(capacity, r, PlayerActs(id, act));
      var rest := CrowdFills(capacity, next, if act == SendPing(true) then Some(id) else None);
      RunStep(capacity, r, PlayerActs(id, act), rest);
      steps := [PlayerActs(id, act)] + rest;
    }
  }

  ghost predicate DrainMayHang(capacity: nat, r: Room) {
    exists steps :: IsRun(capacity, r, steps) && !CanDrain(capacity, Final(capacity, r, steps))
  }

  lemma {:induction false} StaysDrainable(capacity: nat, r: Room, steps: seq<Step>)
    requires Sound(r) && Draining(r) && !Crowded(r) && IsRun(capacity, r, steps)
    ensures CanDrain(capacity, Final(capacity, r, steps))
  {
    var last := Final(capacity, r, steps);
    UncrowdedForGood(capacity, r, steps);
    if PastDrain(last.mode) {
      assert IsRun(capacity, last, []) && Final(capacity, last, []) == last;
    } else {
      RunsAreSound(capacity, r, steps);
      UncrowdedIsNotOverfull(capacity, last);
      CanDrainExactly(capacity, last);
    }
  }

  lemma CrowdFillsFromBreak(capacity: nat, r: Room) returns (steps: seq<Step>)
    requires Sound(r) && Draining(r) && Crowded(r)
    ensures IsRun(capacity, r, steps)
    ensures Draining(Final(capacity, r, steps)) && Jammed(Final(capacity, r, steps))
  {
    if r.mode.Broken? {
      StepKeepsSound(capacity, r, EmitSeal);
      var rest := CrowdFills(capacity, After(capacity, r, EmitSeal), None);
      RunStep(capacity, r, EmitSeal, rest);
      steps := [EmitSeal] + rest;
    } else {
      steps := CrowdFills(capacity, r, None);
    }
  }

  /**
   Such a drain can end up hanging if and only if all clients together can still cause more requests than
   the request queue has places left.
   */
  lemma {:induction false} DrainMayHangExactly(capacity: nat, r: Room)
    requires Sound(r) && Draining(r)
    ensures DrainMayHang(capacity, r) <==> Crowded(r)
  {
    if Crowded(r) {
      var steps := CrowdFillsFromBreak(capacity, r);
      RunsAreSound(capacity, r, steps);
      JammedIsOverfull(capacity, Final(capacity, r, steps));
      CanDrainExactly(capacity, Final(capacity, r, steps));
    } else {
      forall steps | IsRun(capacity, r, steps) ensures CanDrain(capacity, Final(capacity, r, steps)) {
        StaysDrainable(capacity, r, steps);
      }
    }
  }

  // ----- waiting for clients -----

  /** What a step of the drain waits for is in the server already: no client has to say or leave out anything. */
  predicate Unprompted(step: Step) {
    Drains(step) && (step.PlayerActs? ==> !step.act.TimeOut? && !step.act.SendPing?)
  }

  /** A task that did not hear the signal, with a client that has said all and been told all. */
  predicate Lingers(p: Player) {
    p.phase.Running? && p.deaf && p.inbox == [] && p.cursor == |p.log|
  }

  /** The task does nothing by itself, given whether the request queue has a place. */
  predicate Stays(p: Player, requestsOpen: bool) {
    Lingers(p) || (p.phase.Asking? && !requestsOpen) || p.phase.Done?
  }

  /** Somebody is left, and all who are linger or wait for a full request queue. */
  predicate Idle(r: Room) {
    r.closes == [] && Unfinished(r) && forall id :: id in r.tasks ==> Stays(r.tasks[id], |r.requests| < QUEUE_SIZE)
  }

  /** What a task does by itself. */
  function OwnAct(p: Player): Act {
    match p.phase
    case Greeting => Greet(true)
    case Running => if !p.deaf then Abandon else if p.inbox != [] then ReadClient else TakeNotice(true)
    case Leaving => Return
    case _ => Submit
  }

  lemma OwnActIsOpen(r: Room, p: Player, act: Act)
    requires r.closes == [] && Faithful(p) && r.shutdown
    ensures !Stays(p, |r.requests| < QUEUE_SIZE) ==> CanAct(p, OwnAct(p), |r.requests| < QUEUE_SIZE, true, true)
    ensures Stays(p, |r.requests| < QUEUE_SIZE) && CanAct(p, act, |r.requests| < QUEUE_SIZE, true, true) ==>
              act.TimeOut? || act.SendPing? || act.Reconfigure?
  {
  }

  lemma SomethingGoesOn(r: Room) returns (step: Step)
    requires Sound(r) && Draining(r) && !Idle(r)
    ensures Unprompted(step) && Can(r, step)
  {
    if r.mode.Broken? {
      step := EmitSeal;
    } else if r.closes != [] {
      step := TakeClose;
    } else if !Unfinished(r) {
      step := ClosesDrained;
    } else {
      var id :| id in r.tasks && !Stays(r.tasks[id], |r.requests| < QUEUE_SIZE);
      OwnActIsOpen(r, r.tasks[id], Return);
      step := PlayerActs(id, OwnAct(r.tasks[id]));
    }
  }

  lemma IdleCannot(r: Room, step: Step)
    requires Idle(r) && Shown(r.tasks) && r.mode.DrainingCloses? && r.shutdown && Unprompted(step)
    ensures !Can(r, step)
  {
    if step.PlayerActs? && step.player in r.tasks {
      OwnActIsOpen(r, r.tasks[step.player], step.act);
    }
  }

  /** In exactly one situation the drain goes on only if some client does something, or fails to answer a ping. */
  lemma DrainIdleExactly(r: Room)
    requires Sound(r) && r.mode.DrainingCloses?
    ensures (forall step :: Unprompted(step) ==> !Can(r, step)) <==> Idle(r)
  {
    if Idle(r) {
      forall step | Unprompted(step) ensures !Can(r, step) {
        IdleCannot(r, step);
      }
    } else {
      var step := SomethingGoesOn(r);
    }
  }

  /** Nobody waits for the request queue; whoever is left lingers. */
  predicate OnlyLingering(r: Room) {
    r.closes == [] && Unfinished(r) && forall id :: id in r.tasks ==> Lingers(r.tasks[id]) || r.tasks[id].phase.Done?
  }

  lemma UncrowdedIdle(r: Room)
    requires Idle(r) && !Crowded(r)
    ensures OnlyLingering(r)
  {
    forall id | id in r.tasks ensures Lingers(r.tasks[id]) || r.tasks[id].phase.Done? {
      SumSplit(Asks, r.tasks, id);
      AtLeastOne(r.tasks[id].inbox);
    }
  }

  // ----- only so much to do -----

  function DrainEffort(steps: seq<Step>): nat {
    if steps == [] then 0 else (if Drains(steps[0]) then 1 else 0) + DrainEffort(steps[1..])
  }

  function SealsLeft(r: Room): nat { if r.mode.Broken? then 1 else 0 }

  lemma DrainStepWorks(capacity: nat, r: Room, step: Step)
    requires Draining(r) && Can(r, step) && !step.ClosesDrained?
    ensures Draining(After(capacity, r, step))
    ensures Work(After(capacity, r, step)) + SealsLeft(After(capacity, r, step)) + (if Drains(step) then 1 else 0)
         <= Work(r) + SealsLeft(r)
  {
    match step {
      case PlayerActs(id, act) => ActStepWorks(capacity, r, id, act);
      case _ =>
    }
  }

  lemma GoesOnOrLingers(r: Room)
    requires Sound(r) && Draining(r) && !Crowded(r)
    ensures OnlyLingering(r) || exists step :: Unprompted(step) && Can(r, step)
  {
    if Idle(r) {
      UncrowdedIdle(r);
    } else {
      var step := SomethingGoesOn(r);
    }
  }

  /**
   A drain takes only so long: a run with more draining steps than there was work is past it. And a drain
   that is not crowded, whatever was done before, goes on by itself, unless all who are left linger: then it
   lasts as long as their clients stay and answer every ping.
   */
  lemma {:induction false} DrainEnds(capacity: nat, r: Room, steps: seq<Step>)
    requires Sound(r) && Draining(r) && IsRun(capacity, r, steps)
    ensures DrainEffort(steps) > Work(r) + SealsLeft(r) ==> PastDrain(Final(capacity, r, steps).mode)
    ensures var last := Final(capacity, r, steps);
            !Crowded(r) && !PastDrain(last.mode) ==>
              OnlyLingering(last) || exists step :: Unprompted(step) && Can(last, step)
    decreases |steps|
  {
    if steps == [] {
      if !Crowded(r) {
        GoesOnOrLingers(r);
      }
    } else {
      var next := After(capacity, r, steps[0]);
      StepKeepsSound(capacity, r, steps[0]);
      if steps[0].ClosesDrained? {
        PastForGood(capacity, next, steps[1..]);
      } else {
        DrainStepWorks(capacity, r, steps[0]);
        if !Crowded(r) {
          StepKeepsUncrowded(capacity, r, steps[0]);
        }
        DrainEnds(capacity, next, steps[1..]);
      }
    }
  }
}
