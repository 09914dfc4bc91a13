/**
 The limits of a room over config changes: its time limit, its capacity, the order of its last
 steps, and what its clients have been shown.
 */
module RoomLimits {
  import opened Common
  import opened TextProtocol
  import opened Players
  import opened Rooms
  import opened RoomSafety

  // ----- what the room does to its players -----

  /** The room changes a player in two ways only: it appends to the log and it updates the counters. */
  predicate Grew(p: Player, q: Player) {
    p.log <= q.log && q == p.(log := q.log, msgSent := q.msgSent)
  }

  ghost predicate AllGrew(tasks: map<u32, Player>, tasks': map<u32, Player>) {
    tasks'.Keys <= tasks.Keys && forall k :: k in tasks' ==> Grew(tasks[k], tasks'[k])
  }

  lemma PassGrows(tasks: map<u32, Player>, sender: u32, to: u32, n: Notification)
    requires sender in tasks && to in tasks
    ensures AllGrew(tasks, Passed(tasks, sender, to, n))
  {
  }

  lemma TellGrows(r: Room, id: u32, n: Notification)
    ensures AllGrew(r.tasks, Tell(r, id, n).tasks)
  {
  }

  lemma SendGrows(r: Room, sender: u32, to: u32, kind: MessageKind, payload: Text)
    ensures AllGrew(r.tasks, SendMessage(r, sender, to, kind, payload).tasks)
  {
    if Accepts(r, sender, to) {
      PassGrows(r.tasks, sender, to, Relayed(kind, sender, payload));
    } else {
      TellGrows(r, sender, Failure(InvalidDestination));
      TellGrows(r, sender, Failure(Policy));
    }
  }

  lemma DisconnectGrows(r: Room, id: u32, closing: seq<CloseTask>)
    ensures AllGrew(r.tasks, Disconnect(r, id, closing).tasks)
  {
  }

  lemma BeginCloseGrows(r: Room, n: Notification, sendToHost: bool, last: Option<CloseTask>)
    ensures AllGrew(r.tasks, BeginClose(r, n, sendToHost, last).tasks)
  {
  }

  lemma RequestGrows(r: Room, req: Request)
    ensures AllGrew(r.tasks, HandleRequest(r, req).tasks)
  {
    match req.cmd {
      case SendTo(kind, to, payload) => SendGrows(r, req.player, to, kind, payload);
      case DropConnection =>
        DisconnectGrows(r, req.player, []);
        BeginCloseGrows(r, HostLeft, false, None);
      case SealRoom => BeginCloseGrows(r, RoomSealed, true, None);
    }
  }

  lemma CloseRequestGrows(r: Room, c: CloseRequest)
    ensures AllGrew(r.tasks, HandleClose(r, c).tasks)
  {
    DisconnectGrows(r, c.player, [CloseTask(c.stream, c.code)]);
    BeginCloseGrows(r, HostLeft, false, Some(CloseTask(c.stream, c.code)));
  }

  lemma ConfigureGrows(r: Room, limits: Limits, kicked: set<u32>)
    ensures AllGrew(r.tasks, Reconfigured(r, limits, kicked).tasks)
  {
  }

  lemma ConnectGrows(r: Room, id: u32, stream: Stream, inbox: seq<ClientMessage>, others: seq<u32>)
    ensures AllGrew(r.tasks, NotifyAll(r, PlayerJoined(id)).tasks)
    ensures Connect(r, id, stream, inbox, others).tasks
         == NotifyAll(r, PlayerJoined(id)).tasks[id := NewPlayer(r, id, stream, inbox, others)]
  {
  }

  /** Every step of the room itself but taking in a newcomer. */
  lemma StepGrows(capacity: nat, r: Room, step: Step)
    requires Can(r, step) && !step.PlayerActs? && !step.Join?
    ensures AllGrew(r.tasks, After(capacity, r, step).tasks)
  {
    match step {
      case TakeRequest => RequestGrows(r.(requests := r.requests[1..]), r.requests[0]);
      case TakeClose => CloseRequestGrows(r.(closes := r.closes[1..]), r.closes[0]);
      case Configure(limits, kicked) => ConfigureGrows(r, limits, kicked);
      case TimeUp => BeginCloseGrows(r, Failure(Policy), true, None);
      case _ =>
    }
  }

  // ----- the time limit -----

  /** The pending deadline is the creation time plus the limit now in force, and has not passed. */
  predicate Punctual(r: Room) {
    r.mode.Serving? ==> r.created <= r.now <= r.deadline == r.created + r.limits.timeLimit
  }

  /** Handling a request changes no clock and no limit, and reopens nothing. */
  lemma ModeAfterRequest(r: Room, req: Request)
    ensures var next := HandleRequest(r, req);
            && next.limits == r.limits && next.created == r.created && next.now == r.now && next.deadline == r.deadline
            && (next.mode == r.mode || (r.mode.Serving? && next.mode.Emptying?))
            && next.control == r.control && next.closed == r.closed
  {
  }

  lemma StepKeepsClock(capacity: nat, r: Room, step: Step)
    requires Can(r, step) && !step.Elapse?
    ensures After(capacity, r, step).now == r.now
  {
    match step {
      case TakeRequest => ModeAfterRequest(r.(requests := r.requests[1..]), r.requests[0]);
      case _ =>
    }
  }

  /** Only a config change changes the limits, and nothing reopens a room. */
  lemma StepKeepsSettings(capacity: nat, r: Room, step: Step)
    requires Can(r, step) && !step.Configure?
    ensures After(capacity, r, step).limits == r.limits && After(capacity, r, step).created == r.created
    ensures After(capacity, r, step).mode.Serving? ==> r.mode.Serving?
    ensures After(capacity, r, step).deadline == r.deadline
  {
    match step {
      case TakeRequest => ModeAfterRequest(r.(requests := r.requests[1..]), r.requests[0]);
      case _ =>
    }
  }

  lemma StepKeepsPunctual(capacity: nat, r: Room, step: Step)
    requires Punctual(r) && Can(r, step)
    ensures Punctual(After(capacity, r, step))
  {
    if !step.Configure? && !step.Elapse? {
      StepKeepsSettings(capacity, r, step);
      StepKeepsClock(capacity, r, step);
    }
  }

  // ----- capacity -----

  /** Told to close, or already on its way out. */
  predicate Doomed(p: Player) {
    Ended(p) || exists i :: 0 <= i < |p.log| && IsTerminal(p.log[i])
  }

  function Staying(tasks: map<u32, Player>): set<u32> {
    set id | id in tasks && !Doomed(tasks[id])
  }

  /** The members not already doomed never exceed the limit now in force. */
  predicate Roomy(r: Room) {
    r.mode.Serving? ==> |Staying(r.tasks)| <= r.limits.maxPlayers
  }

  lemma SubsetSize(a: set<u32>, b: set<u32>)
    requires a <= b
    ensures |a| <= |b|
  {
    if a != b {
      assert b == a + (b - a);
    }
  }

  lemma DoomIsFinal(p: Player, q: Player)
    requires Doomed(p) && p.log <= q.log && (Ended(p) ==> Ended(q))
    ensures Doomed(q)
  {
  }

  /** If logs only grow and the ended stay ended, nobody returns to the staying. */
  lemma FewerStay(tasks: map<u32, Player>, tasks': map<u32, Player>)
    requires tasks'.Keys <= tasks.Keys
    requires forall k :: k in tasks' ==> tasks[k].log <= tasks'[k].log && (Ended(tasks[k]) ==> Ended(tasks'[k]))
    ensures |Staying(tasks')| <= |Staying(tasks)|
  {
    forall k | k in Staying(tasks') ensures k in Staying(tasks) {
      if Doomed(tasks[k]) {
        DoomIsFinal(tasks[k], tasks'[k]);
      }
    }
    SubsetSize(Staying(tasks'), Staying(tasks));
  }

  lemma ConnectKeepsRoomy(r: Room, id: u32, stream: Stream, inbox: seq<ClientMessage>, others: seq<u32>)
    requires r.mode.Serving? && |r.tasks| < r.limits.maxPlayers
    ensures Roomy(Connect(r, id, stream, inbox, others))
  {
    var next := Connect(r, id, stream, inbox, others);
    SubsetSize(Staying(next.tasks), next.tasks.Keys);
    SubsetSize(next.tasks.Keys - {id}, r.tasks.Keys);
    assert next.tasks.Keys == next.tasks.Keys - {id} + {id};
  }

  /** The host is never kicked, and a limit of at least one always leaves enough others to kick. */
  lemma KicksExactly(r: Room, limits: Limits, kicked: set<u32>)
    requires Can(r, Configure(limits, kicked))
    ensures |kicked| == Excess(r, limits)
  {
  }

  lemma KickDooms(p: Player)
    ensures Doomed(Pushed(p, Failure(TooManyPlayers)))
  {
    assert IsTerminal(Pushed(p, Failure(TooManyPlayers)).log[|p.log|]);
  }

  lemma FewRemain(all: set<u32>, gone: set<u32>, left: set<u32>)
    requires gone <= all && left <= all - gone
    ensures |left| <= |all| - |gone|
  {
    SubsetSize(left, all - gone);
    assert all == (all - gone) + gone;
  }

  lemma KickMakesRoom(r: Room, kicked: set<u32>)
    requires kicked <= r.tasks.Keys && |kicked| == Excess(r, r.limits)
    ensures |Staying(Kick(r, kicked).tasks)| <= r.limits.maxPlayers
  {
    var tasks := Kick(r, kicked).tasks;
    forall k | k in kicked ensures k !in Staying(tasks) {
      KickDooms(r.tasks[k]);
    }
    FewRemain(r.tasks.Keys, kicked, Staying(tasks));
  }

  lemma ConfigureKeepsRoomy(r: Room, limits: Limits, kicked: set<u32>)
    requires Can(r, Configure(limits, kicked))
    ensures Roomy(Reconfigured(r, limits, kicked))
  {
    KicksExactly(r, limits, kicked);
    var elapsed := if r.now >= r.created then r.now - r.created else 0;
    if limits.timeLimit > elapsed {
      var quotaEver := if limits.quota > r.quotaEver then limits.quota else r.quotaEver;
      KickMakesRoom(r.(limits := limits, quotaEver := quotaEver, deadline := r.now + (limits.timeLimit - elapsed)),
                    kicked);
    }
  }

  lemma OtherStepKeepsRoomy(capacity: nat, r: Room, step: Step)
    requires Roomy(r) && Can(r, step) && !step.Join? && !step.PlayerActs? && !step.Configure?
    ensures Roomy(After(capacity, r, step))
  {
    StepGrows(capacity, r, step);
    var next := After(capacity, r, step);
    StepKeepsSettings(capacity, r, step);
    FewerStay(r.tasks, next.tasks);
  }

  lemma StepKeepsRoomy(capacity: nat, r: Room, step: Step)
    requires Roomy(r) && Can(r, step)
    ensures Roomy(After(capacity, r, step))
  {
    match step {
      case Join(id, stream, inbox, others) => ConnectKeepsRoomy(r, id, stream, inbox, others);
      case Configure(limits, kicked) => ConfigureKeepsRoomy(r, limits, kicked);
      case PlayerActs(id, act) =>
        RoomViews.ActKeepsLog(capacity, r.tasks[id], act);
        FewerStay(r.tasks, r.tasks[id := AfterAct(capacity, r.tasks[id], act)]);
      case _ => OtherStepKeepsRoomy(capacity, r, step);
    }
  }

  // ----- the order of the last steps -----

  function ControlsBy(mode: Mode): seq<Control> {
    match mode
    case Serving => []
    case Emptying(_) => []
    case Broken => []
    case Finished => [SealSignal, CloseSignal]
    case _ => [SealSignal]
  }

  predicate PastMainLoop(mode: Mode) { !mode.Serving? && !mode.Emptying? }

  /** The close queue has been drained to its end. */
  predicate PastDrain(mode: Mode) { mode.DrainingRequests? || mode.Sweeping? || mode.Finished? }

  /**
   The lobby is told exactly a seal and then a close, after on_close no task is left, and only a shutdown
   leads past the main loop without on_close.
   */
  predicate Ordered(r: Room) {
    && r.control == ControlsBy(r.mode)
    && (r.closed ==> PastMainLoop(r.mode) && r.tasks == map[])
    && (PastMainLoop(r.mode) ==> r.closed || r.shutdown)
    && (r.mode.Sweeping? || r.mode.Finished? ==> r.tasks == map[])
  }

  lemma StepKeepsOrdered(capacity: nat, r: Room, step: Step)
    requires Ordered(r) && Can(r, step)
    ensures Ordered(After(capacity, r, step))
  {
    match step {
      case TakeRequest => ModeAfterRequest(r.(requests := r.requests[1..]), r.requests[0]);
      case _ =>
    }
  }

  // ----- what the clients have been shown -----

  ghost predicate Shown(tasks: map<u32, Player>) {
    forall id :: id in tasks ==> Faithful(tasks[id])
  }

  lemma GrownIsFaithful(p: Player, q: Player)
    requires Faithful(p) && Grew(p, q)
    ensures Faithful(q)
  {
    assert q.log[..p.cursor] == p.log[..p.cursor];
    assert Greetings(q) == Greetings(p);
  }

  lemma GrownAreShown(tasks: map<u32, Player>, tasks': map<u32, Player>)
    requires Shown(tasks) && AllGrew(tasks, tasks')
    ensures Shown(tasks')
  {
    forall k | k in tasks' ensures Faithful(tasks'[k]) {
      GrownIsFaithful(tasks[k], tasks'[k]);
    }
  }

  lemma NewIsFaithful(r: Room, id: u32, stream: Stream, inbox: seq<ClientMessage>, others: seq<u32>)
    ensures Faithful(NewPlayer(r, id, stream, inbox, others))
  {
  }

  lemma ConnectKeepsShown(r: Room, id: u32, stream: Stream, inbox: seq<ClientMessage>, others: seq<u32>)
    requires Shown(r.tasks)
    ensures Shown(Connect(r, id, stream, inbox, others).tasks)
  {
    ConnectGrows(r, id, stream, inbox, others);
    GrownAreShown(r.tasks, NotifyAll(r, PlayerJoined(id)).tasks);
    NewIsFaithful(r, id, stream, inbox, others);
  }

  lemma OneShown(tasks: map<u32, Player>, id: u32, q: Player)
    requires Shown(tasks) && Faithful(q)
    ensures Shown(tasks[id := q])
  {
  }

  lemma ActKeepsShown(capacity: nat, r: Room, id: u32, act: Act)
    requires Shown(r.tasks) && Can(r, PlayerActs(id, act))
    ensures Shown(AfterPlayerAct(capacity, r, id, act).tasks)
  {
    ActKeepsFaithful(capacity, r.tasks[id], act, |r.requests| < QUEUE_SIZE, |r.closes| < QUEUE_SIZE, r.shutdown);
    OneShown(r.tasks, id, AfterAct(capacity, r.tasks[id], act));
  }

  lemma StepKeepsShown(capacity: nat, r: Room, step: Step)
    requires Shown(r.tasks) && Can(r, step)
    ensures Shown(After(capacity, r, step).tasks)
  {
    match step {
      case PlayerActs(id, act) => ActKeepsShown(capacity, r, id, act);
      case Join(id, stream, inbox, others) => ConnectKeepsShown(r, id, stream, inbox, others);
      case _ =>
        StepGrows(capacity, r, step);
        GrownAreShown(r.tasks, After(capacity, r, step).tasks);
    }
  }

  // ----- whose player it is -----

  /** Every task has its own id and the room's code, which are what it tells its client. */
  ghost predicate Labelled(r: Room) {
    forall id :: id in r.tasks ==> r.tasks[id].id == id && r.tasks[id].code == r.code
  }

  lemma RequestKeepsCode(r: Room, req: Request)
    ensures HandleRequest(r, req).code == r.code
  {
  }

  /** A room never changes its code. */
  lemma StepKeepsCode(capacity: nat, r: Room, step: Step)
    requires Can(r, step)
    ensures After(capacity, r, step).code == r.code
  {
    if step.TakeRequest? {
      RequestKeepsCode(r.(requests := r.requests[1..]), r.requests[0]);
    }
  }

  lemma ConnectKeepsLabelled(r: Room, id: u32, stream: Stream, inbox: seq<ClientMessage>, others: seq<u32>)
    requires Labelled(r)
    ensures Labelled(Connect(r, id, stream, inbox, others))
  {
  }

  lemma ActKeepsLabelled(capacity: nat, r: Room, id: u32, act: Act)
    requires Labelled(r) && Can(r, PlayerActs(id, act))
    ensures Labelled(AfterPlayerAct(capacity, r, id, act))
  {
  }

  lemma GrownAreLabelled(r: Room, next: Room)
    requires Labelled(r) && AllGrew(r.tasks, next.tasks) && next.code == r.code
    ensures Labelled(next)
  {
  }

  lemma StepKeepsLabelled(capacity: nat, r: Room, step: Step)
    requires Labelled(r) && Can(r, step)
    ensures Labelled(After(capacity, r, step))
  {
    match step {
      case Join(id, stream, inbox, others) => ConnectKeepsLabelled(r, id, stream, inbox, others);
      case PlayerActs(id, act) => ActKeepsLabelled(capacity, r, id, act);
      case _ =>
        StepKeepsCode(capacity, r, step);
        StepGrows(capacity, r, step);
        GrownAreLabelled(r, After(capacity, r, step));
    }
  }
}
