/**
 Who is told what, and why: for every notification the one reason for which a room sends it, for every step of
 the main loop whom it lets go and whether it ends the loop, and for every message whether it is passed on.
 */
module RoomNotices {
  import opened Common
  import opened TextProtocol
  import opened Players
  import opened Rooms
  import opened RoomQuota
  import opened RoomLimits
  import opened RoomRuns
  import opened RoomLoops

  // ----- reasons -----

  /** The room handles a request of that player. */
  predicate Handles(r: Room, step: Step, p: u32, cmd: Command) {
    step.TakeRequest? && r.requests != [] && r.requests[0] == Request(p, cmd)
  }

  /** It handles a drop or a close of that player. */
  predicate Leaves(r: Room, step: Step, p: u32) {
    Handles(r, step, p, DropConnection) || (step.TakeClose? && r.closes != [] && r.closes[0].player == p)
  }

  /** It handles a message of that player. */
  predicate Sends(r: Room, step: Step, p: u32) {
    step.TakeRequest? && r.requests != [] && r.requests[0].player == p && r.requests[0].cmd.SendTo?
  }

  /** The room's time is up, or a new limit says that it was before. */
  predicate Expires(r: Room, step: Step) {
    step.TimeUp? || (step.Configure? && r.created + step.limits.timeLimit <= r.now)
  }

  /** The step ends the main loop by on_close. */
  predicate Closes(r: Room, step: Step) {
    Handles(r, step, HOST_ID, SealRoom) || Leaves(r, step, HOST_ID) || Expires(r, step)
  }

  /** The receiver of a message is another member. */
  predicate Addressable(r: Room, p: u32, q: u32) { q in r.tasks && q != p }

  /** The one reason for which a member p is told something. */
  predicate Reason(r: Room, step: Step, p: u32, n: Notification)
    requires p in r.tasks
  {
    match n
    case PlayerJoined(id) => step.Join? && step.id == id
    case PlayerLeft(id) => Leaves(r, step, id) && id != HOST_ID
    case HostLeft => Leaves(r, step, HOST_ID)
    case RoomSealed => Handles(r, step, HOST_ID, SealRoom)
    case Relayed(kind, sender, payload) =>
      && Handles(r, step, sender, SendTo(kind, p, payload)) && sender in r.tasks && sender != p
      && RelayedSince(r.tasks[p].log, sender) < r.limits.quota
    case Failure(OnlyHostCanSeal) => Handles(r, step, p, SealRoom) && p != HOST_ID
    case Failure(InvalidDestination) => Sends(r, step, p) && !Addressable(r, p, r.requests[0].cmd.to)
    case Failure(Policy) =>
      || Expires(r, step)
      || (Sends(r, step, p) && Addressable(r, p, r.requests[0].cmd.to)
          && RelayedSince(r.tasks[r.requests[0].cmd.to].log, p) >= r.limits.quota)
    case Failure(TooManyPlayers) => step.Configure? && !Expires(r, step) && p in step.kicked
    case Failure(_) => false
  }

  /** Exactly that is appended to the player's log for which there is a reason, and nothing if there is none. */
  ghost predicate ToldExactly(r: Room, step: Step, p: u32, log: seq<Notification>)
    requires p in r.tasks
  {
    && (forall n :: log == r.tasks[p].log + [n] <==> Reason(r, step, p, n))
    && ((forall n :: !Reason(r, step, p, n)) ==> log == r.tasks[p].log)
  }

  lemma ToldOne(r: Room, step: Step, p: u32, log: seq<Notification>, n: Notification)
    requires p in r.tasks && log == r.tasks[p].log + [n] && Reason(r, step, p, n)
    requires forall m :: Reason(r, step, p, m) ==> m == n
    ensures ToldExactly(r, step, p, log)
  {
    forall m | log == r.tasks[p].log + [m] ensures m == n {
      assert log[|r.tasks[p].log|] == m;
    }
  }

  lemma ToldNothing(r: Room, step: Step, p: u32, log: seq<Notification>)
    requires p in r.tasks && log == r.tasks[p].log && forall n :: !Reason(r, step, p, n)
    ensures ToldExactly(r, step, p, log)
  {
    assert forall n :: |r.tasks[p].log + [n]| != |log|;
  }

  // ----- a message -----

  /** Only what one message changes: the receiver's log, the sender's count for it, and the record. */
  predicate PassedOn(r: Room, next: Room, p: u32, q: u32, kind: MessageKind, payload: Text)
    requires p in r.tasks && q in r.tasks && r.requests != []
  {
    && next == r.(requests := r.requests[1..], tasks := next.tasks,
                  accepted := r.accepted + [Accepted(kind, p, q, payload)])
    && next.tasks.Keys == r.tasks.Keys
    && next.tasks[q] == r.tasks[q].(log := r.tasks[q].log + [Relayed(kind, p, payload)])
    && next.tasks[p] == r.tasks[p].(msgSent := next.tasks[p].msgSent)
    && CountIn(next.tasks[p].msgSent, q) == CountIn(r.tasks[p].msgSent, q) + 1
    && next.tasks[p].msgSent - {q} == r.tasks[p].msgSent - {q}
    && forall k :: k in r.tasks && k != p && k != q ==> next.tasks[k] == r.tasks[k]
  }

  /** Or only that the sender is told why not. */
  predicate TurnedDown(r: Room, next: Room, p: u32, code: CloseCode)
    requires p in r.tasks && r.requests != []
  {
    next == r.(requests := r.requests[1..],
               tasks := r.tasks[p := r.tasks[p].(log := r.tasks[p].log + [Failure(code)])])
  }

  /** What becomes of a message from s to q. */
  ghost predicate Answered(r: Room, next: Room, s: u32, q: u32, kind: MessageKind, payload: Text)
    requires r.requests != []
  {
    if s !in r.tasks then next == r.(requests := r.requests[1..])
    else if !Addressable(r, s, q) then TurnedDown(r, next, s, InvalidDestination)
    else if RelayedSince(r.tasks[q].log, s) >= r.limits.quota then TurnedDown(r, next, s, Policy)
    else PassedOn(r, next, s, q, kind, payload)
  }

  lemma MessageIsTurnedDown(r: Room, s: u32, q: u32, kind: MessageKind, payload: Text)
    requires r.mode.Serving? && r.requests != [] && s in r.tasks
    ensures var next := SendMessage(r.(requests := r.requests[1..]), s, q, kind, payload);
            && (!Addressable(r, s, q) ==> TurnedDown(r, next, s, InvalidDestination))
            && (Addressable(r, s, q) && Count(r.tasks[s], q) >= r.limits.quota ==> TurnedDown(r, next, s, Policy))
  {
  }

  lemma MessageIsPassedOn(r: Room, s: u32, q: u32, kind: MessageKind, payload: Text)
    requires r.mode.Serving? && r.requests != [] && s in r.tasks && Addressable(r, s, q)
    requires Count(r.tasks[s], q) < r.limits.quota
    ensures PassedOn(r, SendMessage(r.(requests := r.requests[1..]), s, q, kind, payload), s, q, kind, payload)
  {
  }

  lemma MessageIsAnswered(r: Room, s: u32, q: u32, kind: MessageKind, payload: Text)
    requires r.mode.Serving? && r.requests != []
    requires s in r.tasks && Addressable(r, s, q) ==> RelayedSince(r.tasks[q].log, s) == Count(r.tasks[s], q)
    ensures Answered(r, SendMessage(r.(requests := r.requests[1..]), s, q, kind, payload), s, q, kind, payload)
  {
    if s in r.tasks {
      if Addressable(r, s, q) && Count(r.tasks[s], q) < r.limits.quota {
        MessageIsPassedOn(r, s, q, kind, payload);
      } else {
        MessageIsTurnedDown(r, s, q, kind, payload);
      }
    }
  }

  /**
   A message of one member to another is passed on if and only if the other has had fewer than the quota of them
   since both are in the room; otherwise its sender is told, and nothing else happens. A message of somebody who
   is no member any more is ignored.
   */
  lemma MessagesArePassedOn(capacity: nat, r: Room, s: u32, q: u32, kind: MessageKind, payload: Text)
    requires Sound(r) && r.mode.Serving? && r.requests != [] && r.requests[0] == Request(s, SendTo(kind, q, payload))
    ensures Can(r, TakeRequest) && Answered(r, After(capacity, r, TakeRequest), s, q, kind, payload)
  {
    if s in r.tasks && Addressable(r, s, q) {
      QuotaHolds(r, s, q);
    }
    MessageIsAnswered(r, s, q, kind, payload);
  }

  // ----- one step -----

  lemma ToldOfSend(r: Room, next: Room, s: u32, q: u32, kind: MessageKind, payload: Text, p: u32)
    requires r.requests != [] && r.requests[0] == Request(s, SendTo(kind, q, payload)) && p in r.tasks
    requires Answered(r, next, s, q, kind, payload)
    ensures p in next.tasks && ToldExactly(r, TakeRequest, p, next.tasks[p].log)
  {
    var log := next.tasks[p].log;
    if s !in r.tasks || (p != s && p != q) {
      ToldNothing(r, TakeRequest, p, log);
    } else if !Addressable(r, s, q) || RelayedSince(r.tasks[q].log, s) >= r.limits.quota {
      if p == s {
        ToldOne(r, TakeRequest, p, log, Failure(if Addressable(r, s, q) then Policy else InvalidDestination));
      } else {
        ToldNothing(r, TakeRequest, p, log);
      }
    } else if p == q {
      ToldOne(r, TakeRequest, p, log, Relayed(kind, s, payload));
    } else {
      ToldNothing(r, TakeRequest, p, log);
    }
  }

  lemma ToldOfSeal(capacity: nat, r: Room, p: u32)
    requires r.mode.Serving? && r.requests != [] && r.requests[0].cmd.SealRoom? && p in r.tasks
    requires p in After(capacity, r, TakeRequest).tasks
    ensures ToldExactly(r, TakeRequest, p, After(capacity, r, TakeRequest).tasks[p].log)
  {
    var s, log := r.requests[0].player, After(capacity, r, TakeRequest).tasks[p].log;
    if s == HOST_ID {
      ToldOne(r, TakeRequest, p, log, RoomSealed);
    } else if p == s {
      ToldOne(r, TakeRequest, p, log, Failure(OnlyHostCanSeal));
    } else {
      ToldNothing(r, TakeRequest, p, log);
    }
  }

  lemma LeavingTells(r: Room, gone: u32, closing: seq<CloseTask>, last: Option<CloseTask>, p: u32)
    requires p in r.tasks
    ensures p in Disconnect(r, gone, closing).tasks ==>
              Disconnect(r, gone, closing).tasks[p].log == r.tasks[p].log + [PlayerLeft(gone)]
    ensures p in BeginClose(r, HostLeft, false, last).tasks ==>
              BeginClose(r, HostLeft, false, last).tasks[p].log == r.tasks[p].log + [HostLeft]
  {
  }

  lemma DropHasOneReason(r: Room, gone: u32, p: u32, m: Notification)
    requires Handles(r, TakeRequest, gone, DropConnection) && p in r.tasks
    ensures Reason(r, TakeRequest, p, m) <==> m == if gone == HOST_ID then HostLeft else PlayerLeft(gone)
  {
  }

  lemma ToldOfDrop(capacity: nat, r: Room, gone: u32, p: u32)
    requires r.mode.Serving? && Handles(r, TakeRequest, gone, DropConnection)
    requires p in r.tasks && p in After(capacity, r, TakeRequest).tasks
    ensures ToldExactly(r, TakeRequest, p, After(capacity, r, TakeRequest).tasks[p].log)
  {
    var log, n := After(capacity, r, TakeRequest).tasks[p].log, if gone == HOST_ID then HostLeft else PlayerLeft(gone);
    LeavingTells(r.(requests := r.requests[1..]), gone, [], None, p);
    forall m ensures Reason(r, TakeRequest, p, m) <==> m == n {
      DropHasOneReason(r, gone, p, m);
    }
    ToldOne(r, TakeRequest, p, log, n);
  }

  lemma ToldOfClose(capacity: nat, r: Room, p: u32)
    requires r.mode.Serving? && r.closes != [] && p in r.tasks && p in After(capacity, r, TakeClose).tasks
    ensures ToldExactly(r, TakeClose, p, After(capacity, r, TakeClose).tasks[p].log)
  {
    var c, log := r.closes[0], After(capacity, r, TakeClose).tasks[p].log;
    var task := CloseTask(c.stream, c.code);
    LeavingTells(r.(closes := r.closes[1..]), c.player, [task], Some(task), p);
    ToldOne(r, TakeClose, p, log, if c.player == HOST_ID then HostLeft else PlayerLeft(c.player));
  }

  lemma ToldOfConfig(capacity: nat, r: Room, step: Step, p: u32)
    requires Punctual(r) && r.mode.Serving? && Can(r, step) && step.Configure? && p in r.tasks
    requires p in After(capacity, r, step).tasks
    ensures ToldExactly(r, step, p, After(capacity, r, step).tasks[p].log)
  {
    var log := After(capacity, r, step).tasks[p].log;
    if Expires(r, step) {
      ToldOne(r, step, p, log, Failure(Policy));
    } else if p in step.kicked {
      ToldOne(r, step, p, log, Failure(TooManyPlayers));
    } else {
      ToldNothing(r, step, p, log);
    }
  }

  lemma ToldOfRest(capacity: nat, r: Room, step: Step, p: u32)
    requires r.mode.Serving? && Can(r, step) && !step.TakeRequest? && !step.TakeClose? && !step.Configure?
    requires p in r.tasks && p in After(capacity, r, step).tasks && !(step.Join? && step.id == p)
    ensures ToldExactly(r, step, p, After(capacity, r, step).tasks[p].log)
  {
    var log := After(capacity, r, step).tasks[p].log;
    match step {
      case Join(id, _, _, _) => ToldOne(r, step, p, log, PlayerJoined(id));
      case TimeUp => ToldOne(r, step, p, log, Failure(Policy));
      case _ => ToldNothing(r, step, p, log);
    }
  }

  /** Every step of the main loop tells every member just that for which there is a reason. */
  lemma StepTellsExactly(capacity: nat, r: Room, step: Step, p: u32)
    requires Sound(r) && r.mode.Serving? && Can(r, step) && p in r.tasks && p in After(capacity, r, step).tasks
    ensures ToldExactly(r, step, p, After(capacity, r, step).tasks[p].log)
  {
    match step {
      case TakeRequest =>
        match r.requests[0].cmd {
          case SendTo(kind, q, payload) =>
            MessagesArePassedOn(capacity, r, r.requests[0].player, q, kind, payload);
            ToldOfSend(r, After(capacity, r, step), r.requests[0].player, q, kind, payload, p);
          case SealRoom => ToldOfSeal(capacity, r, p);
          case DropConnection => ToldOfDrop(capacity, r, r.requests[0].player, p);
        }
      case TakeClose => ToldOfClose(capacity, r, p);
      case Configure(_, _) => ToldOfConfig(capacity, r, step, p);
      case _ => ToldOfRest(capacity, r, step, p);
    }
  }

  lemma NobodyIsToldByRequest(r: Room, req: Request, p: u32)
    requires !r.mode.Serving? && p in HandleRequest(r, req).tasks
    ensures p in r.tasks && HandleRequest(r, req).tasks[p] == r.tasks[p]
  {
  }

  lemma ActKeepsLog(capacity: nat, p: Player, act: Act)
    ensures AfterAct(capacity, p, act).log == p.log
  {
  }

  /** Once the main loop is over nobody is told anything more. */
  lemma NobodyIsToldAfterwards(capacity: nat, r: Room, step: Step, p: u32)
    requires !r.mode.Serving? && Can(r, step) && p in After(capacity, r, step).tasks
    ensures p in r.tasks && After(capacity, r, step).tasks[p].log == r.tasks[p].log
  {
    match step {
      case TakeRequest => NobodyIsToldByRequest(r.(requests := r.requests[1..]), r.requests[0], p);
      case PlayerActs(id, act) => ActKeepsLog(capacity, r.tasks[id], act);
      case _ =>
    }
  }

  // ----- who stays, and whether the loop goes on -----

  /** The step tells all members something, and so finds out who has returned. */
  predicate TellsAll(r: Room, step: Step) {
    || step.Join? || step.TakeClose? || Closes(r, step)
    || (step.TakeRequest? && r.requests != [] && r.requests[0].cmd.DropConnection?)
  }

  lemma RequestKeepsMember(r: Room, req: Request, p: u32)
    requires r.mode.Serving? && p in r.tasks
    ensures p in HandleRequest(r, req).tasks
       <==> || req.cmd.SendTo?
            || (req.cmd.SealRoom? && (req.player != HOST_ID || !r.tasks[p].phase.Done?))
            || (req.cmd.DropConnection? && req.player != p && !r.tasks[p].phase.Done?)
  {
  }

  lemma CloseKeepsMember(r: Room, c: CloseRequest, p: u32)
    requires r.mode.Serving? && p in r.tasks
    ensures p in HandleClose(r, c).tasks <==> c.player != p && !r.tasks[p].phase.Done?
  {
  }

  lemma OtherStepKeepsMember(capacity: nat, r: Room, step: Step, p: u32)
    requires r.mode.Serving? && Punctual(r) && Can(r, step) && p in r.tasks && !step.TakeRequest? && !step.TakeClose?
    ensures p in After(capacity, r, step).tasks <==> !((step.Join? || Expires(r, step)) && r.tasks[p].phase.Done?)
  {
  }

  /** A step of the main loop lets go of exactly the member that leaves, and of those it finds to have returned. */
  lemma StepKeepsExactly(capacity: nat, r: Room, step: Step, p: u32)
    requires r.mode.Serving? && Punctual(r) && Can(r, step) && p in r.tasks
    ensures p in After(capacity, r, step).tasks
       <==> !Leaves(r, step, p) && !(TellsAll(r, step) && r.tasks[p].phase.Done?)
  {
    match step {
      case TakeRequest => RequestKeepsMember(r.(requests := r.requests[1..]), r.requests[0], p);
      case TakeClose => CloseKeepsMember(r.(closes := r.closes[1..]), r.closes[0], p);
      case _ => OtherStepKeepsMember(capacity, r, step, p);
    }
  }

  lemma RequestEndsLoop(r: Room, req: Request)
    requires r.mode.Serving?
    ensures var next := HandleRequest(r, req);
            if req.player == HOST_ID && !req.cmd.SendTo? then next.mode == Emptying(None) else next.mode.Serving?
  {
  }

  lemma CloseEndsLoop(r: Room, c: CloseRequest)
    requires r.mode.Serving?
    ensures HandleClose(r, c).mode
         == if c.player == HOST_ID then Emptying(Some(CloseTask(c.stream, c.code))) else Serving
  {
  }

  lemma OtherStepEndsLoop(capacity: nat, r: Room, step: Step)
    requires r.mode.Serving? && Punctual(r) && Can(r, step) && !step.TakeRequest? && !step.TakeClose?
    ensures After(capacity, r, step).mode
         == if Expires(r, step) then Emptying(None) else if step.HeedShutdown? then Broken else Serving
  {
  }

  /** The loop ends by on_close for exactly four reasons, and without it on the shutdown signal; else it goes on. */
  lemma StepEndsLoopExactly(capacity: nat, r: Room, step: Step)
    requires r.mode.Serving? && Punctual(r) && Can(r, step)
    ensures After(capacity, r, step).mode
         == if Closes(r, step) then
              Emptying(if step.TakeClose? then Some(CloseTask(r.closes[0].stream, r.closes[0].code)) else None)
            else if step.HeedShutdown? then Broken
            else Serving
  {
    match step {
      case TakeRequest => RequestEndsLoop(r.(requests := r.requests[1..]), r.requests[0]);
      case TakeClose => CloseEndsLoop(r.(closes := r.closes[1..]), r.closes[0]);
      case _ => OtherStepEndsLoop(capacity, r, step);
    }
  }

  /** The main loop is ready for whatever comes: for a request, a close, the time, the signal, and any new limits. */
  lemma LoopIsReady(r: Room, limits: Limits) returns (kicked: set<u32>)
    requires Punctual(r) && r.mode.Serving? && ValidLimits(limits)
    ensures Can(r, TakeRequest) <==> r.requests != []
    ensures Can(r, TakeClose) <==> r.closes != []
    ensures Can(r, TimeUp) <==> r.now == r.created + r.limits.timeLimit
    ensures Can(r, HeedShutdown) <==> r.shutdown
    ensures Can(r, Configure(limits, kicked))
  {
    kicked := ConfigCanHappen(r, limits);
  }

  /** When on_close is over, each close it has received is carried out, in that order, and the host's after them. */
  lemma ClosesAreCarriedOut(capacity: nat, r: Room)
    requires Can(r, Emptied)
    ensures var before, next := |r.closeTasks|, After(capacity, r, Emptied);
            && |next.closeTasks| == before + |r.toClose| + (if r.mode.last.Some? then 1 else 0)
            && next.closeTasks[..before] == r.closeTasks
            && (forall i :: 0 <= i < |r.toClose| ==>
                  next.closeTasks[before + i] == CloseTask(r.toClose[i].stream, r.toClose[i].code))
            && (r.mode.last.Some? ==> next.closeTasks[before + |r.toClose|] == r.mode.last.value)
  {
  }

  /** A config change takes effect at once, whatever else it leads to. */
  lemma ConfigTakesEffect(capacity: nat, r: Room, limits: Limits, kicked: set<u32>)
    requires Punctual(r) && Can(r, Configure(limits, kicked))
    ensures var next := After(capacity, r, Configure(limits, kicked));
            next.limits == limits && (next.mode.Serving? ==> next.deadline == r.created + limits.timeLimit)
  {
    if r.created + limits.timeLimit <= r.now {
      assert Reconfigured(r, limits, kicked).mode.Emptying?;
    }
  }

  /** A newcomer is turned away if and only if the room is full, and joins as a member that is about to be greeted. */
  lemma NewcomersDecide(capacity: nat, r: Room, join: Step, stream: Stream)
    requires r.mode.Serving?
    ensures Can(r, Refuse(stream)) <==> |r.tasks| >= r.limits.maxPlayers
    ensures Can(r, Refuse(stream)) ==>
              After(capacity, r, Refuse(stream))
              == r.(closeTasks := r.closeTasks + [CloseTask(stream, CloseCode.TooManyPlayers)])
    ensures join.Join? && Can(r, join) ==>
              var next := After(capacity, r, join);
              && |r.tasks| < r.limits.maxPlayers && join.id in next.tasks
              && next.tasks[join.id]
                 == Player(join.id, join.stream, r.code, join.others, [], 0, Greeting, [], join.inbox, 0, map[],
                           |r.accepted|, [], r.shutdown)
  {
  }

  // ----- over runs -----

  /** Some step of the run had a reason to tell p. */
  ghost predicate Reasoned(capacity: nat, r: Room, steps: seq<Step>, p: u32, n: Notification)
    requires IsRun(capacity, r, steps)
    decreases |steps|
  {
    && steps != []
    && ((r.mode.Serving? && p in r.tasks && Reason(r, steps[0], p, n))
        || Reasoned(capacity, After(capacity, r, steps[0]), steps[1..], p, n))
  }

  lemma OnlyNewcomersAreNew(capacity: nat, r: Room, step: Step, p: u32)
    requires Can(r, step) && p !in r.tasks && p in After(capacity, r, step).tasks
    ensures After(capacity, r, step).tasks[p].log == []
  {
    if !step.Join? && !step.PlayerActs? {
      StepGrows(capacity, r, step);
    }
  }

  lemma ToldHasReason(r: Room, step: Step, p: u32, log: seq<Notification>, n: Notification)
    requires p in r.tasks && ToldExactly(r, step, p, log) && n in log
    ensures n in r.tasks[p].log || Reason(r, step, p, n)
  {
    if m :| Reason(r, step, p, m) {
      assert log == r.tasks[p].log + [m];
    }
  }

  lemma NoticeWhileServing(capacity: nat, r: Room, step: Step, p: u32, n: Notification)
    requires Sound(r) && r.mode.Serving? && Can(r, step) && p in r.tasks
    requires p in After(capacity, r, step).tasks && n in After(capacity, r, step).tasks[p].log
    ensures n in r.tasks[p].log || Reason(r, step, p, n)
  {
    StepTellsExactly(capacity, r, step, p);
    ToldHasReason(r, step, p, After(capacity, r, step).tasks[p].log, n);
  }

  lemma NoticeOfStep(capacity: nat, r: Room, step: Step, p: u32, n: Notification)
    requires Sound(r) && Can(r, step)
    requires p in After(capacity, r, step).tasks && n in After(capacity, r, step).tasks[p].log
    ensures p in r.tasks
    ensures n in r.tasks[p].log || (r.mode.Serving? && Reason(r, step, p, n))
  {
    if !r.mode.Serving? {
      NobodyIsToldAfterwards(capacity, r, step, p);
    } else if p !in r.tasks {
      OnlyNewcomersAreNew(capacity, r, step, p);
    } else {
      NoticeWhileServing(capacity, r, step, p, n);
    }
  }

  /**
   Over every run, whatever a member was told there was a reason for, at the step that told it. In particular it
   was told to close for a message only if the receiver was missing, or it itself, or had had its quota.
   */
  lemma {:induction false} EveryNoticeHasItsReason(capacity: nat, r: Room, steps: seq<Step>, p: u32, n: Notification)
    requires Sound(r) && IsRun(capacity, r, steps)
    requires p in Final(capacity, r, steps).tasks && n in Final(capacity, r, steps).tasks[p].log
    ensures (p in r.tasks && n in r.tasks[p].log) || Reasoned(capacity, r, steps, p, n)
    decreases |steps|
  {
    if steps == [] {
    } else {
      var next := After(capacity, r, steps[0]);
      StepKeepsSound(capacity, r, steps[0]);
      EveryNoticeHasItsReason(capacity, next, steps[1..], p, n);
      if p in next.tasks && n in next.tasks[p].log {
        NoticeOfStep(capacity, r, steps[0], p, n);
      }
    }
  }
}
