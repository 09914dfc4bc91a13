/**
 Close frames are conserved. Over every run of a room, every close a player asked for is handed to a
 closing task exactly once, with the player's own stream and code, except for those that were still
 queued when the room had left its main loop: these are dropped. Newcomers the room turned away are
 closed once too, and nobody else is.
 */
module RoomFrames {
  import opened Common
  import opened RoomCodes
  import opened TextProtocol
  import opened Players
  import opened Rooms
  import opened RoomLimits

  function FrameFor(c: CloseRequest): CloseTask { CloseTask(c.stream, c.code) }

  function Frames(closes: seq<CloseRequest>): multiset<CloseTask> {
    if closes == [] then multiset{} else multiset{FrameFor(closes[0])} + Frames(closes[1..])
  }

  /** What on_close has put aside: the closes it received, and that of the host if the host asked for one. */
  function PutAside(mode: Mode, toClose: seq<CloseRequest>): multiset<CloseTask> {
    match mode
    case Emptying(Some(task)) => Frames(toClose) + multiset{task}
    case Emptying(None) => Frames(toClose)
    case _ => multiset{}
  }

  /** Every frame that has been handed to a closing task, or is still on its way to one. */
  function Owed(r: Room): multiset<CloseTask> {
    multiset(r.closeTasks) + (Frames(r.closes) + PutAside(r.mode, r.toClose))
  }

  /** The frames a step asks for. */
  function Asked(r: Room, step: Step): multiset<CloseTask> {
    match step
    case Refuse(stream) => multiset{CloseTask(stream, TooManyPlayers)}
    case Sweep(stream) => multiset{CloseTask(stream, RoomIsSealed)}
    case PlayerActs(id, Submit) =>
      if id in r.tasks && r.tasks[id].phase.Closing? then
        multiset{FrameFor(CloseRequest(id, r.tasks[id].stream, r.tasks[id].phase.code))}
      else multiset{}
    case _ => multiset{}
  }

  /** The frames a step loses: what on_close has put aside is no loss, what the drain takes is. */
  function Lost(r: Room, step: Step): multiset<CloseTask> {
    if step.TakeClose? && r.mode.DrainingCloses? && r.closes != [] then multiset{FrameFor(r.closes[0])} else multiset{}
  }

  lemma {:induction false} FramesJoin(a: seq<CloseRequest>, b: seq<CloseRequest>)
    ensures Frames(a + b) == Frames(a) + Frames(b)
  {
    if a == [] {
      assert a + b == b;
    } else {
      assert (a + b)[1..] == a[1..] + b;
      FramesJoin(a[1..], b);
    }
  }

  lemma {:induction false} FramesAreTasks(closes: seq<CloseRequest>)
    ensures multiset(CloseTasksFor(closes)) == Frames(closes)
  {
    if closes == [] {
    } else {
      FramesAreTasks(closes[1..]);
      assert CloseTasksFor(closes) == [FrameFor(closes[0])] + CloseTasksFor(closes[1..]);
    }
  }

  lemma FramesAppend(closes: seq<CloseRequest>, c: CloseRequest)
    ensures Frames(closes + [c]) == Frames(closes) + multiset{FrameFor(c)}
  {
    FramesJoin(closes, [c]);
    assert Frames([c]) == multiset{FrameFor(c)} + Frames([]);
  }

  /** Only these parts of a room matter. */
  predicate SameFrames(r: Room, next: Room) {
    next.closeTasks == r.closeTasks && next.closes == r.closes
    && PutAside(next.mode, next.toClose) == PutAside(r.mode, r.toClose)
  }

  lemma CloseBeginsEmpty(r: Room, n: Notification, sendToHost: bool)
    requires r.mode.Serving?
    ensures SameFrames(r, BeginClose(r, n, sendToHost, None))
  {
  }

  lemma DisconnectKeepsFrames(r: Room, id: u32)
    ensures SameFrames(r, Disconnect(r, id, []))
  {
  }

  lemma TellKeepsFrames(r: Room, id: u32, n: Notification)
    ensures SameFrames(r, Tell(r, id, n))
  {
  }

  lemma SendKeepsFrames(r: Room, sender: u32, to: u32, kind: MessageKind, payload: Text)
    ensures SameFrames(r, SendMessage(r, sender, to, kind, payload))
  {
    if !Accepts(r, sender, to) {
      TellKeepsFrames(r, sender, Failure(InvalidDestination));
      TellKeepsFrames(r, sender, Failure(Policy));
    }
  }

  lemma RequestKeepsFrames(r: Room, req: Request)
    ensures SameFrames(r, HandleRequest(r, req))
  {
    if r.mode.Serving? {
      match req.cmd {
        case SealRoom => CloseBeginsEmpty(r, RoomSealed, true);
        case SendTo(kind, to, payload) => SendKeepsFrames(r, req.player, to, kind, payload);
        case DropConnection =>
          CloseBeginsEmpty(r, HostLeft, false);
          DisconnectKeepsFrames(r, req.player);
      }
    }
  }

  lemma ConfigureKeepsFrames(r: Room, limits: Limits, kicked: set<u32>)
    requires r.mode.Serving?
    ensures SameFrames(r, Reconfigured(r, limits, kicked))
  {
  }

  lemma ServedClose(r: Room, c: CloseRequest)
    requires r.mode.Serving?
    ensures var next := HandleClose(r, c);
            next.closes == r.closes
            && multiset(next.closeTasks) + PutAside(next.mode, next.toClose)
               == multiset(r.closeTasks) + multiset{FrameFor(c)}
  {
  }

  /** While the room serves or closes, the close it takes from the queue goes to a closing task or is put aside. */
  lemma TakenCloseKeepsFrames(r: Room, c: CloseRequest, rest: Room)
    requires r.mode.Serving? || r.mode.Emptying?
    requires r.closes == [c] + rest.closes && rest == r.(closes := rest.closes)
    ensures Owed(HandleClose(rest, c)) == Owed(r)
  {
    assert r.closes[1..] == rest.closes;
    if r.mode.Serving? {
      ServedClose(rest, c);
    } else {
      FramesAppend(r.toClose, c);
    }
  }

  lemma FinishKeepsFrames(r: Room)
    requires r.mode.Emptying?
    ensures Owed(FinishEmptying(r, r.mode.last)) == Owed(r)
  {
    FramesAreTasks(r.toClose);
  }

  lemma ActKeepsFrames(capacity: nat, r: Room, id: u32, act: Act)
    requires Can(r, PlayerActs(id, act))
    ensures Owed(AfterPlayerAct(capacity, r, id, act)) == Owed(r) + Asked(r, PlayerActs(id, act))
  {
    var p, next := r.tasks[id], AfterPlayerAct(capacity, r, id, act);
    assert next.closeTasks == r.closeTasks && next.mode == r.mode && next.toClose == r.toClose;
    if act.Submit? && p.phase.Closing? {
      FramesAppend(r.closes, CloseRequest(id, p.stream, p.phase.code));
    } else {
      assert next.closes == r.closes;
    }
  }

  lemma TakeCloseFrames(capacity: nat, r: Room)
    requires Can(r, TakeClose)
    ensures Owed(After(capacity, r, TakeClose)) + Lost(r, TakeClose) == Owed(r)
  {
    var c, rest := r.closes[0], r.(closes := r.closes[1..]);
    if r.mode.DrainingCloses? {
      assert Frames(r.closes) == multiset{FrameFor(c)} + Frames(rest.closes);
    } else {
      assert r.closes == [c] + rest.closes;
      TakenCloseKeepsFrames(r, c, rest);
    }
  }

  lemma TakeRequestFrames(capacity: nat, r: Room)
    requires Can(r, TakeRequest)
    ensures Owed(After(capacity, r, TakeRequest)) == Owed(r)
  {
    RequestKeepsFrames(r.(requests := r.requests[1..]), r.requests[0]);
  }

  lemma OtherStepFrames(capacity: nat, r: Room, step: Step)
    requires Can(r, step) && !step.TakeClose? && !step.TakeRequest? && !step.Emptied? && !step.PlayerActs?
    requires !step.Configure? && !step.TimeUp?
    ensures Owed(After(capacity, r, step)) + Lost(r, step) == Owed(r) + Asked(r, step)
  {
    var next := After(capacity, r, step);
    assert next.closes == r.closes && PutAside(next.mode, next.toClose) == PutAside(r.mode, r.toClose);
    assert multiset(next.closeTasks) == multiset(r.closeTasks) + Asked(r, step);
  }

  /** Steps that ask for no frame and lose none. */
  lemma IdleStepFrames(capacity: nat, r: Room, step: Step)
    requires Can(r, step) && (step.TakeRequest? || step.Emptied? || step.Configure? || step.TimeUp?)
    ensures Owed(After(capacity, r, step)) + Lost(r, step) == Owed(r) + Asked(r, step)
  {
    match step {
      case TakeRequest => TakeRequestFrames(capacity, r);
      case Emptied => FinishKeepsFrames(r);
      case Configure(limits, kicked) => ConfigureKeepsFrames(r, limits, kicked);
      case TimeUp => CloseBeginsEmpty(r, Failure(Policy), true);
    }
  }

  lemma StepConservesFrames(capacity: nat, r: Room, step: Step)
    requires Can(r, step)
    ensures Owed(After(capacity, r, step)) + Lost(r, step) == Owed(r) + Asked(r, step)
  {
    match step {
      case TakeClose => TakeCloseFrames(capacity, r);
      case PlayerActs(id, act) => ActKeepsFrames(capacity, r, id, act);
      case _ =>
        if step.TakeRequest? || step.Emptied? || step.Configure? || step.TimeUp? {
          IdleStepFrames(capacity, r, step);
        } else {
          OtherStepFrames(capacity, r, step);
        }
    }
  }

  function AllAsked(capacity: nat, r: Room, steps: seq<Step>): multiset<CloseTask>
    requires IsRun(capacity, r, steps)
    decreases |steps|
  {
    if steps == [] then multiset{}
    else Asked(r, steps[0]) + AllAsked(capacity, After(capacity, r, steps[0]), steps[1..])
  }

  function AllLost(capacity: nat, r: Room, steps: seq<Step>): multiset<CloseTask>
    requires IsRun(capacity, r, steps)
    decreases |steps|
  {
    if steps == [] then multiset{}
    else Lost(r, steps[0]) + AllLost(capacity, After(capacity, r, steps[0]), steps[1..])
  }

  lemma Chained<T>(a: multiset<T>, b: multiset<T>, c: multiset<T>,
                   in1: multiset<T>, in2: multiset<T>, out1: multiset<T>, out2: multiset<T>)
    requires b + out1 == a + in1 && c + out2 == b + in2
    ensures c + (out1 + out2) == a + (in1 + in2)
  {
    assert c + (out1 + out2) == (c + out2) + out1 == (b + out1) + in2;
  }

  lemma {:induction false} RunsConserveFrames(capacity: nat, r: Room, steps: seq<Step>)
    requires IsRun(capacity, r, steps)
    ensures Owed(Final(capacity, r, steps)) + AllLost(capacity, r, steps) == Owed(r) + AllAsked(capacity, r, steps)
    decreases |steps|
  {
    if steps == [] {
    } else {
      var next := After(capacity, r, steps[0]);
      StepConservesFrames(capacity, r, steps[0]);
      RunsConserveFrames(capacity, next, steps[1..]);
      Chained(Owed(r), Owed(next), Owed(Final(capacity, r, steps)), Asked(r, steps[0]),
              AllAsked(capacity, next, steps[1..]), Lost(r, steps[0]), AllLost(capacity, next, steps[1..]));
    }
  }

  /** Once the drain of the close queue is over nobody closes any more. */
  predicate Drained(r: Room) {
    PastDrain(r.mode) ==> r.closes == [] && AllReturned(r)
  }

  /** Nothing but the end of the drain leads past it. */
  lemma OnlyDrainedIsPast(capacity: nat, r: Room, step: Step)
    requires !PastDrain(r.mode) && Can(r, step) && !step.ClosesDrained?
    ensures !PastDrain(After(capacity, r, step).mode)
  {
    match step {
      case TakeRequest => ModeAfterRequest(r.(requests := r.requests[1..]), r.requests[0]);
      case _ =>
    }
  }

  lemma StepKeepsDrained(capacity: nat, r: Room, step: Step)
    requires Drained(r) && Can(r, step)
    ensures Drained(After(capacity, r, step))
  {
    if !PastDrain(r.mode) && !step.ClosesDrained? {
      OnlyDrainedIsPast(capacity, r, step);
    }
  }

  lemma {:induction false} RunsAreDrained(capacity: nat, r: Room, steps: seq<Step>)
    requires Drained(r) && IsRun(capacity, r, steps)
    ensures Drained(Final(capacity, r, steps))
    decreases |steps|
  {
    if steps == [] {
    } else {
      StepKeepsDrained(capacity, r, steps[0]);
      RunsAreDrained(capacity, After(capacity, r, steps[0]), steps[1..]);
    }
  }

  /** A room starts with nothing to close. */
  lemma StartOwesNothing(code: RoomCode, stream: Stream, inbox: seq<ClientMessage>, limits: Limits, now: nat)
    ensures var r := Start(code, stream, inbox, limits, now);
            Owed(r) == multiset{} && r.mode.Serving?
  {
  }

  /**
   When a room that started with nothing to close is past its drains, its closing tasks are exactly the
   frames asked for, each as often as it was asked for, less those the drain has lost.
   */
  lemma {:induction false} FinishedRoomsHaveClosed(capacity: nat, r: Room, steps: seq<Step>)
    requires IsRun(capacity, r, steps) && Owed(r) == multiset{} && r.mode.Serving?
    requires PastDrain(Final(capacity, r, steps).mode)
    ensures multiset(Final(capacity, r, steps).closeTasks) + AllLost(capacity, r, steps) == AllAsked(capacity, r, steps)
  {
    RunsConserveFrames(capacity, r, steps);
    RunsAreDrained(capacity, r, steps);
    var last, lost, asked := Final(capacity, r, steps), AllLost(capacity, r, steps), AllAsked(capacity, r, steps);
    assert Owed(last) == multiset(last.closeTasks);
    assert multiset(last.closeTasks) + lost == multiset{} + asked == asked;
  }
}
