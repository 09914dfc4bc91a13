/**
 How a room ends: after on_close its queues drain in as many steps as they are long and the lobby
 hears a close; after a shutdown it may hang, while closing or while draining, and exactly in
 which situations is shown, each with a run that leads there.
 */
module RoomEndings {
  import opened Common
  import opened RoomCodes
  import opened TextProtocol
  import opened Players
  import opened Rooms
  import opened RoomSafety
  import opened RoomLimits
  import opened RoomRuns
  import opened RoomClosing
  import opened RoomDrains

  // ----- after on_close -----

  /** Steps of the room on its way out; streams that still arrive are swept up at any time. */
  predicate Departing(step: Step) {
    || step.EmitSeal? || step.TakeClose? || step.ClosesDrained?
    || step.TakeRequest? || step.RequestsDrained? || step.EmitClose?
  }

  function StepsLeft(r: Room): nat {
    match r.mode
    case Broken => |r.closes| + |r.requests| + 4
    case DrainingCloses => |r.closes| + |r.requests| + 3
    case DrainingRequests => |r.requests| + 2
    case Sweeping => 1
    case _ => 0
  }

  function Departures(steps: seq<Step>): nat {
    if steps == [] then 0 else (if Departing(steps[0]) then 1 else 0) + Departures(steps[1..])
  }

  lemma ClosedStep(capacity: nat, r: Room, step: Step)
    requires Sound(r) && r.closed && Can(r, step)
    ensures StepsLeft(After(capacity, r, step)) == StepsLeft(r) - if Departing(step) then 1 else 0
  {
  }

  /** Until it is finished, a closed room can always take its next step, */
  lemma ClosedNeverStuck(r: Room) returns (step: Step)
    requires Sound(r) && r.closed && !r.mode.Finished?
    ensures Departing(step) && Can(r, step)
  {
    step := match r.mode
      case Broken => EmitSeal
      case DrainingCloses => if r.closes != [] then TakeClose else ClosesDrained
      case DrainingRequests => if r.requests != [] then TakeRequest else RequestsDrained
      case _ => EmitClose;
  }

  /**
   and every run of it takes exactly one step for each queued close and request and four besides:
   it is finished precisely when it has taken them, and has then told the lobby of a seal and a close.
   */
  lemma {:induction false} ClosedRoomFinishes(capacity: nat, r: Room, steps: seq<Step>)
    requires Sound(r) && r.closed && IsRun(capacity, r, steps)
    ensures var last := Final(capacity, r, steps);
            && Departures(steps) + StepsLeft(last) == StepsLeft(r)
            && (last.mode.Finished? <==> Departures(steps) == StepsLeft(r))
            && (last.mode.Finished? ==> last.control == [SealSignal, CloseSignal] && last.tasks == map[])
    decreases |steps|
  {
    if steps == [] {
    } else {
      ClosedStep(capacity, r, steps[0]);
      StepKeepsSound(capacity, r, steps[0]);
      StepKeepsClosed(capacity, r, steps[0]);
      ClosedRoomFinishes(capacity, After(capacity, r, steps[0]), steps[1..]);
    }
  }

  // ----- a shutdown while closing -----

  /** The host before, during and after its greeting. */
  function HostTask(code: RoomCode, stream: Stream, inbox: seq<ClientMessage>, phase: Phase,
                    wire: seq<ServerMessage>): Player
  {
    Player(HOST_ID, stream, code, [], [], 0, phase, wire, inbox, 0, map[], 0, [], false)
  }

  /** A room whose host has been greeted and is being served. */
  function Greeted(code: RoomCode, stream: Stream, inbox: seq<ClientMessage>, limits: Limits): Room {
    Empty(code, limits, 0).(tasks :=
      map[HOST_ID := HostTask(code, stream, inbox, Running, [Welcome(HOST_ID), RoomIs(code)])])
  }

  lemma GreetSteps(capacity: nat, code: RoomCode, stream: Stream, inbox: seq<ClientMessage>)
    ensures var p := HostTask(code, stream, inbox, Greeting, []);
            var q := HostTask(code, stream, inbox, Greeting, [Welcome(HOST_ID)]);
            && CanAct(p, Greet(true), true, true, false) && AfterAct(capacity, p, Greet(true)) == q
            && CanAct(q, Greet(true), true, true, false)
            && AfterAct(capacity, q, Greet(true))
               == HostTask(code, stream, inbox, Running, [Welcome(HOST_ID), RoomIs(code)])
  {
  }

  lemma StartHasHost(code: RoomCode, stream: Stream, inbox: seq<ClientMessage>, limits: Limits)
    ensures Start(code, stream, inbox, limits, 0)
         == Empty(code, limits, 0).(tasks := map[HOST_ID := HostTask(code, stream, inbox, Greeting, [])])
  {
  }

  /** With only the host in the room, an act of its task changes nothing else, unless it submits something. */
  lemma HostActs(capacity: nat, r: Room, act: Act)
    requires r.tasks.Keys == {HOST_ID} && !act.Submit? && CanAct(r.tasks[HOST_ID], act, true, true, r.shutdown)
    ensures Can(r, PlayerActs(HOST_ID, act))
    ensures After(capacity, r, PlayerActs(HOST_ID, act))
         == r.(tasks := map[HOST_ID := AfterAct(capacity, r.tasks[HOST_ID], act)])
  {
  }

  lemma GreetHost(capacity: nat, code: RoomCode, stream: Stream, inbox: seq<ClientMessage>, limits: Limits)
    returns (steps: seq<Step>)
    ensures IsRun(capacity, Start(code, stream, inbox, limits, 0), steps)
    ensures Final(capacity, Start(code, stream, inbox, limits, 0), steps) == Greeted(code, stream, inbox, limits)
  {
    var step := PlayerActs(HOST_ID, Greet(true));
    var r := Start(code, stream, inbox, limits, 0);
    StartHasHost(code, stream, inbox, limits);
    var host := HostTask(code, stream, inbox, Greeting, [Welcome(HOST_ID)]);
    var r1 := Empty(code, limits, 0).(tasks := map[HOST_ID := host]);
    GreetSteps(capacity, code, stream, inbox);
    HostActs(capacity, r, Greet(true));
    HostActs(capacity, r1, Greet(true));
    RunStep(capacity, r1, step, []);
    RunStep(capacity, r, step, [step]);
    steps := [step] + [step];
  }

  lemma TwoSteps(capacity: nat, r: Room, s1: Step, r1: Room, s2: Step, r2: Room)
    requires Can(r, s1) && After(capacity, r, s1) == r1 && Can(r1, s2) && After(capacity, r1, s2) == r2
    ensures IsRun(capacity, r, [s1] + [s2]) && Final(capacity, r, [s1] + [s2]) == r2
  {
    RunStep(capacity, r1, s2, []);
    RunStep(capacity, r, s1, [s2] + []);
  }

  /** The time limit passes with only the host in the room. */
  lemma TimeUpStep(capacity: nat, r: Room, p: Player)
    requires r.mode.Serving? && r.now >= r.deadline && r.tasks == map[HOST_ID := p] && p.phase.Running?
    ensures Can(r, TimeUp)
    ensures After(capacity, r, TimeUp)
         == r.(mode := Emptying(None), toClose := [], tasks := map[HOST_ID := Pushed(p, Failure(Policy))])
  {
    assert BeginClose(r, Failure(Policy), true, None).tasks == map[HOST_ID := Pushed(p, Failure(Policy))];
  }

  /** From a served host to a room that closes on its time limit, is shut down, and loses the host's task. */
  lemma TimesUp(capacity: nat, r: Room, p: Player) returns (steps: seq<Step>, stuck: Room)
    requires r.mode.Serving? && r.now + 1 == r.deadline && r.requests == [] && r.closes == []
    requires r.tasks == map[HOST_ID := p] && p.phase.Running? && !p.deaf
    ensures IsRun(capacity, r, steps) && Final(capacity, r, steps) == stuck
    ensures stuck.mode.Emptying? && stuck.requests == [] && stuck.closes == []
    ensures HOST_ID in stuck.tasks && AllReturned(stuck)
  {
    var abandon := PlayerActs(HOST_ID, Abandon);
    var r1 := After(capacity, r, Elapse);
    TimeUpStep(capacity, r1, p);
    var r2 := After(capacity, r1, TimeUp);
    var r3 := After(capacity, r2, RaiseShutdown);
    HostActs(capacity, r3, Abandon);
    stuck := After(capacity, r3, abandon);
    TwoSteps(capacity, r, Elapse, r1, TimeUp, r2);
    TwoSteps(capacity, r2, RaiseShutdown, r3, abandon, stuck);
    RunOn(capacity, r, [Elapse] + [TimeUp], [RaiseShutdown] + [abandon]);
    steps := ([Elapse] + [TimeUp]) + ([RaiseShutdown] + [abandon]);
  }

  /**
   A shutdown can hang a closing room: the time limit closes it, the host's task takes the shutdown
   branch, which sends no terminal request, and on_close waits for one for ever.
   */
  lemma ShutdownHangsClose(capacity: nat, code: RoomCode, stream: Stream) returns (steps: seq<Step>, stuck: Room)
    ensures var r := Start(code, stream, [], Limits(1, 5, 1), 0);
            IsRun(capacity, r, steps) && Final(capacity, r, steps) == stuck
    ensures stuck.mode.Emptying? && stuck.tasks != map[] && !CanClose(capacity, stuck)
    ensures forall step :: Working(step) ==> !Can(stuck, step)
  {
    var limits := Limits(1, 5, 1);
    var r := Start(code, stream, [], limits, 0);
    StartIsReachable(code, stream, [], limits, 0);
    var greets := GreetHost(capacity, code, stream, [], limits);
    RunsAreReachable(capacity, r, greets);
    var waits: seq<Step>;
    var greeted := Greeted(code, stream, [], limits);
    waits, stuck := TimesUp(capacity, greeted, greeted.tasks[HOST_ID]);
    RunsAreReachable(capacity, Greeted(code, stream, [], limits), waits);
    StuckExactly(stuck);
    ClosesExactly(capacity, stuck);
    assert !HasTerminal(stuck, HOST_ID);
    RunOn(capacity, r, greets, waits);
    steps := greets + waits;
  }

  // ----- a shutdown with a full request queue -----

  /** The host has filled the request queue and waits to ask for more. */
  predicate Flooded(r: Room, n: nat) {
    && r.mode.Serving? && r.tasks.Keys == {HOST_ID} && r.tasks[HOST_ID].phase.Running? && r.closes == []
    && |r.requests| + n == QUEUE_SIZE + 1 && |r.tasks[HOST_ID].inbox| == n
    && forall i :: 0 <= i < n ==> React(r.tasks[HOST_ID].inbox[i]) == Ask(SealRoom)
  }

  lemma AskOnce(capacity: nat, r: Room, n: nat)
    requires Flooded(r, n) && n > 0
    ensures var asked := After(capacity, r, PlayerActs(HOST_ID, ReadClient));
            && Can(r, PlayerActs(HOST_ID, ReadClient))
            && asked.tasks.Keys == {HOST_ID} && asked.tasks[HOST_ID].phase == Asking(SealRoom)
            && asked.requests == r.requests && asked.closes == [] && asked.mode.Serving?
            && (n > 1 ==> Can(asked, PlayerActs(HOST_ID, Submit))
                          && Flooded(After(capacity, asked, PlayerActs(HOST_ID, Submit)), n - 1))
  {
  }

  /** The room never gets to run; the host fills the queue and blocks on one request more. */
  lemma {:induction false} FillQueue(capacity: nat, r: Room, n: nat) returns (steps: seq<Step>)
    requires Flooded(r, n) && n > 0
    ensures IsRun(capacity, r, steps)
    ensures var last := Final(capacity, r, steps);
            && last.mode.Serving? && last.closes == [] && |last.requests| == QUEUE_SIZE
            && last.tasks.Keys == {HOST_ID} && last.tasks[HOST_ID].phase == Asking(SealRoom)
    decreases n
  {
    var read, submit := PlayerActs(HOST_ID, ReadClient), PlayerActs(HOST_ID, Submit);
    AskOnce(capacity, r, n);
    var asked := After(capacity, r, read);
    if n == 1 {
      RunStep(capacity, r, read, []);
      steps := [read] + [];
    } else {
      var rest := FillQueue(capacity, After(capacity, asked, submit), n - 1);
      RunStep(capacity, asked, submit, rest);
      RunStep(capacity, r, read, [submit] + rest);
      steps := [read] + ([submit] + rest);
    }
  }

  /** Eleven times "S: " and a newline. */
  function SealTexts(n: nat): seq<ClientMessage> {
    seq(n, _ => TextMessage(PrintRequest(Seal)))
  }

  lemma GreetedIsFlooded(code: RoomCode, stream: Stream, limits: Limits)
    ensures Flooded(Greeted(code, stream, SealTexts(QUEUE_SIZE + 1), limits), QUEUE_SIZE + 1)
  {
    ParsePrinted(Seal);
  }

  lemma HostBlocks(r: Room)
    requires r.closes == [] && |r.requests| == QUEUE_SIZE && r.tasks.Keys == {HOST_ID} && r.tasks[HOST_ID].phase.Asking?
    ensures Blocked(r)
  {
    assert HOST_ID in r.tasks;
  }

  lemma BlockedDrainIsStuck(r: Room)
    requires Shown(r.tasks) && r.mode.DrainingCloses? && r.closes == [] && |r.requests| == QUEUE_SIZE
    requires r.tasks.Keys == {HOST_ID} && r.tasks[HOST_ID].phase.Asking?
    ensures Blocked(r)
    ensures forall step :: Drains(step) ==> !Can(r, step)
  {
    HostBlocks(r);
    forall step | Drains(step) ensures !Can(r, step) {
      BlockedCannot(r, step);
    }
  }

  lemma BreakOnShutdown(capacity: nat, r: Room) returns (steps: seq<Step>, broken: Room)
    requires r.mode.Serving?
    ensures IsRun(capacity, r, steps) && Final(capacity, r, steps) == broken
    ensures broken == r.(shutdown := true, mode := DrainingCloses, control := r.control + [SealSignal])
  {
    var r1 := After(capacity, r, RaiseShutdown);
    var r2 := After(capacity, r1, HeedShutdown);
    broken := After(capacity, r2, EmitSeal);
    RunStep(capacity, r2, EmitSeal, []);
    RunStep(capacity, r1, HeedShutdown, [EmitSeal]);
    RunStep(capacity, r, RaiseShutdown, [HeedShutdown] + [EmitSeal]);
    steps := [RaiseShutdown] + ([HeedShutdown] + [EmitSeal]);
  }

  /**
   A shutdown can hang a room that is not closing: with the request queue full and a task blocked on
   it, the room drains the close queue first, which the blocked task keeps open, and so waits for ever.
   */
  lemma ShutdownHangsDrain(capacity: nat, code: RoomCode, stream: Stream) returns (steps: seq<Step>, stuck: Room)
    ensures var r := Start(code, stream, SealTexts(QUEUE_SIZE + 1), Limits(1, 5, 1), 0);
            IsRun(capacity, r, steps) && Final(capacity, r, steps) == stuck
    ensures stuck.mode.DrainingCloses? && Blocked(stuck) && !CanDrain(capacity, stuck)
    ensures forall step :: Drains(step) ==> !Can(stuck, step)
  {
    var limits, inbox := Limits(1, 5, 1), SealTexts(QUEUE_SIZE + 1);
    var r := Start(code, stream, inbox, limits, 0);
    StartIsReachable(code, stream, inbox, limits, 0);
    var greets := GreetHost(capacity, code, stream, inbox, limits);
    GreetedIsFlooded(code, stream, limits);
    var fills := FillQueue(capacity, Greeted(code, stream, inbox, limits), QUEUE_SIZE + 1);
    var full := Final(capacity, Greeted(code, stream, inbox, limits), fills);
    var breaks: seq<Step>;
    breaks, stuck := BreakOnShutdown(capacity, full);
    RunOn(capacity, Greeted(code, stream, inbox, limits), fills, breaks);
    RunOn(capacity, r, greets, fills + breaks);
    steps := greets + (fills + breaks);
    RunsAreReachable(capacity, r, steps);
    BlockedDrainIsStuck(stuck);
    BlockedIsOverfull(capacity, stuck);
    CanDrainExactly(capacity, stuck);
  }

  // ----- a newcomer after the shutdown signal -----

  /** A task whose client can be written to is greeted in full, whatever else the room holds. */
  lemma {:induction false} GreetFully(capacity: nat, r: Room, id: u32) returns (steps: seq<Step>)
    requires id in r.tasks && r.tasks[id].phase.Greeting? && |r.tasks[id].wire| < |Greetings(r.tasks[id])|
    requires r.tasks[id].wire <= Greetings(r.tasks[id])
    ensures IsRun(capacity, r, steps)
    ensures Final(capacity, r, steps)
         == r.(tasks := r.tasks[id := r.tasks[id].(wire := Greetings(r.tasks[id]), phase := Running)])
    decreases |Greetings(r.tasks[id])| - |r.tasks[id].wire|
  {
    var p, step := r.tasks[id], PlayerActs(id, Greet(true));
    var q, next := AfterGreet(p, true), After(capacity, r, step);
    assert next == r.(tasks := r.tasks[id := q]) && Greetings(q) == Greetings(p);
    assert p.wire + [Greetings(p)[|p.wire|]] <= Greetings(p);
    var rest := [];
    if q.phase.Running? {
      assert q.wire == Greetings(p);
    } else {
      rest := GreetFully(capacity, next, id);
      assert next.tasks[id := q.(wire := Greetings(p), phase := Running)]
          == r.tasks[id := p.(wire := Greetings(p), phase := Running)];
    }
    RunStep(capacity, r, step, rest);
    steps := [step] + rest;
  }

  /** The host and a newcomer that came after the signal. */
  predicate HasLate(r: Room, hostPhase: Phase, latePhase: Phase) {
    && r.tasks.Keys == {HOST_ID, 2} && r.shutdown && r.closes == [] && r.requests == []
    && r.tasks[HOST_ID].phase == hostPhase && !r.tasks[HOST_ID].deaf
    && r.tasks[2].phase == latePhase && r.tasks[2].deaf && r.tasks[2].inbox == [] && r.tasks[2].log == []
    && r.tasks[2].cursor == 0 && (latePhase.Greeting? ==> r.tasks[2].wire == [])
  }

  lemma LateJoins(capacity: nat, r: Room, p: Player, late: Stream)
    requires r.mode.Serving? && r.tasks == map[HOST_ID := p] && p.phase.Running? && !p.deaf && r.limits.maxPlayers == 2
    requires r.requests == [] && r.closes == [] && r.zombies == {}
    ensures var signalled := After(capacity, r, RaiseShutdown);
            var step := Step.Join(2, late, [], [HOST_ID]);
            && Can(signalled, step) && HasLate(After(capacity, signalled, step), Running, Greeting)
            && After(capacity, signalled, step).mode.Serving?
  {
    assert |r.tasks.Keys| == 1;
    assert NotifyAll(r.(shutdown := true), PlayerJoined(2)).tasks.Keys == {HOST_ID};
  }

  lemma HostLeavesLate(capacity: nat, r: Room)
    requires HasLate(r, Running, Running) && r.mode.Serving?
    ensures var step := PlayerActs(HOST_ID, Abandon);
            && Can(r, step) && HasLate(After(capacity, r, step), Done, Running)
            && After(capacity, r, step).mode.Serving?
  {
    assert r.tasks[HOST_ID := AfterAct(capacity, r.tasks[HOST_ID], Abandon)].Keys == {HOST_ID, 2};
  }

  lemma LateLingers(r: Room)
    requires HasLate(r, Done, Running)
    ensures OnlyLingering(r) && Idle(r) && Lingers(r.tasks[2])
  {
    assert 2 in r.tasks;
  }

  lemma LateIsIdle(r: Room)
    requires Shown(r.tasks) && HasLate(r, Done, Running) && r.mode.DrainingCloses?
    ensures OnlyLingering(r) && Lingers(r.tasks[2])
    ensures forall step :: Unprompted(step) ==> !Can(r, step)
  {
    LateLingers(r);
    forall step | Unprompted(step) ensures !Can(r, step) {
      IdleCannot(r, step);
    }
  }

  /** The signal, the newcomer, and its greeting. */
  lemma LateArrives(capacity: nat, r: Room, p: Player, late: Stream) returns (steps: seq<Step>, next: Room)
    requires r.mode.Serving? && r.tasks == map[HOST_ID := p] && p.phase.Running? && !p.deaf && r.limits.maxPlayers == 2
    requires r.requests == [] && r.closes == [] && r.zombies == {}
    ensures IsRun(capacity, r, steps) && Final(capacity, r, steps) == next
    ensures HasLate(next, Running, Running) && next.mode.Serving?
  {
    var enter := Step.Join(2, late, [], [HOST_ID]);
    LateJoins(capacity, r, p, late);
    var r1 := After(capacity, r, RaiseShutdown);
    var r2 := After(capacity, r1, enter);
    TwoSteps(capacity, r, RaiseShutdown, r1, enter, r2);
    var greets := GreetFully(capacity, r2, 2);
    next := r2.(tasks := r2.tasks[2 := r2.tasks[2].(wire := Greetings(r2.tasks[2]), phase := Running)]);
    RunOn(capacity, r, [RaiseShutdown] + [enter], greets);
    steps := ([RaiseShutdown] + [enter]) + greets;
  }

  /** The host's task takes the shutdown branch, and so does the room. */
  lemma LateRemains(capacity: nat, r: Room) returns (steps: seq<Step>, last: Room)
    requires HasLate(r, Running, Running) && r.mode.Serving?
    ensures IsRun(capacity, r, steps) && Final(capacity, r, steps) == last
    ensures HasLate(last, Done, Running) && last.mode.DrainingCloses?
  {
    var leave := PlayerActs(HOST_ID, Abandon);
    HostLeavesLate(capacity, r);
    var r1 := After(capacity, r, leave);
    var r2 := After(capacity, r1, HeedShutdown);
    last := After(capacity, r2, EmitSeal);
    TwoSteps(capacity, r1, HeedShutdown, r2, EmitSeal, last);
    RunStep(capacity, r, leave, [HeedShutdown] + [EmitSeal]);
    steps := [leave] + ([HeedShutdown] + [EmitSeal]);
  }

  /**
   A room that is shut down can be kept open by one client that does nothing wrong: it joined between the
   signal and the room's taking notice of it, so its task never hears the signal, and nothing in the server
   will end it. The drain waits until the client leaves, breaks a rule, or fails to answer a ping.
   */
  lemma LateNewcomerLingers(capacity: nat, code: RoomCode, host: Stream, late: Stream)
    returns (steps: seq<Step>, last: Room)
    ensures var r := Start(code, host, [], Limits(2, 5, 1), 0);
            IsRun(capacity, r, steps) && Final(capacity, r, steps) == last
    ensures last.mode.DrainingCloses? && OnlyLingering(last) && 2 in last.tasks && Lingers(last.tasks[2])
    ensures forall step :: Unprompted(step) ==> !Can(last, step)
  {
    var limits := Limits(2, 5, 1);
    var r, greeted := Start(code, host, [], limits, 0), Greeted(code, host, [], limits);
    var greets := GreetHost(capacity, code, host, [], limits);
    var arrives, arrived := LateArrives(capacity, greeted, greeted.tasks[HOST_ID], late);
    var remains: seq<Step>;
    remains, last := LateRemains(capacity, arrived);
    RunOn(capacity, greeted, arrives, remains);
    RunOn(capacity, r, greets, arrives + remains);
    steps := greets + (arrives + remains);
    StartIsReachable(code, host, [], limits, 0);
    RunsAreReachable(capacity, r, steps);
    LateIsIdle(last);
  }
}
