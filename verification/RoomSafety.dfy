/**
 What every step of a room keeps: terminal requests belong to tasks that have ended, nobody who
 ended goes unannounced, the wire shows no gaps, the limits hold, the time limit is on time and
 the lobby hears exactly one seal and then one close.
 */
module RoomSafety {
  import opened Common
  import opened TextProtocol
  import opened Players
  import opened Rooms
  import opened RoomViews

  // ----- terminal requests -----

  predicate HasTerminal(r: Room, id: u32) {
    Request(id, DropConnection) in r.requests || exists c :: c in r.closes && c.player == id
  }

  /** A queued terminal request of a player the room still holds was sent by a task that has ended. */
  ghost predicate Orderly(r: Room) {
    && (forall id :: id in r.tasks && HasTerminal(r, id) ==> Ended(r.tasks[id]))
    && |r.requests| <= QUEUE_SIZE && |r.closes| <= QUEUE_SIZE
  }

  /** Unless the server is shutting down, whoever ended has a terminal request queued. */
  ghost predicate Accounted(r: Room) {
    !r.shutdown ==>
      && (r.mode.Serving? || r.mode.Emptying? ==>
            forall id :: id in r.tasks && Ended(r.tasks[id]) ==> HasTerminal(r, id))
      && (r.mode.Serving? ==> forall z :: z in r.zombies ==> HasTerminal(r, z))
  }

  ghost predicate Endings(r: Room) { Orderly(r) && Accounted(r) }

  /** Handling a terminal request of `id`, which is then neither a member nor a zombie. */
  lemma DisconnectKeepsEndings(r: Room, rest: Room, id: u32, closing: seq<CloseTask>)
    requires Endings(r) && rest.tasks == r.tasks && rest.zombies == r.zombies
    requires rest.mode == r.mode && rest.shutdown == r.shutdown
    requires |rest.requests| <= QUEUE_SIZE && |rest.closes| <= QUEUE_SIZE
    requires forall k :: k != id ==> HasTerminal(rest, k) == HasTerminal(r, k)
    ensures Endings(Disconnect(rest, id, closing))
  {
  }

  lemma TakenRequest(r: Room)
    requires r.requests != []
    ensures var req, rest := r.requests[0], r.(requests := r.requests[1..]);
            forall id :: HasTerminal(r, id) == (HasTerminal(rest, id) || req == Request(id, DropConnection))
  {
  }

  lemma TakenClose(r: Room)
    requires r.closes != []
    ensures var c, rest := r.closes[0], r.(closes := r.closes[1..]);
            forall id :: HasTerminal(r, id) == (HasTerminal(rest, id) || c.player == id)
  {
  }

  /** The host is skipped only when its own terminal request was the one handled. */
  lemma CloseKeepsEndings(r: Room, n: Notification, sendToHost: bool, last: Option<CloseTask>)
    requires Orderly(r)
    requires !r.shutdown ==>
               forall id :: id in r.tasks && Ended(r.tasks[id]) && (sendToHost || id != HOST_ID) ==> HasTerminal(r, id)
    ensures Endings(BeginClose(r, n, sendToHost, last))
  {
  }

  /** Only phases, zombies and queues matter. */
  lemma SamePhases(r: Room, next: Room)
    requires Endings(r) && next.mode == r.mode && next.shutdown == r.shutdown && next.zombies == r.zombies
    requires next.requests == r.requests && next.closes == r.closes && next.tasks.Keys == r.tasks.Keys
    requires forall k :: k in r.tasks ==> next.tasks[k].phase == r.tasks[k].phase
    ensures Endings(next)
  {
  }

  lemma PassSamePhases(tasks: map<u32, Player>, sender: u32, to: u32, n: Notification)
    requires sender in tasks && to in tasks
    ensures var tasks' := Passed(tasks, sender, to, n);
            tasks'.Keys == tasks.Keys && forall k :: k in tasks ==> tasks'[k].phase == tasks[k].phase
  {
  }

  lemma TellSamePhases(r: Room, id: u32, n: Notification)
    ensures var next := Tell(r, id, n);
            next.tasks.Keys == r.tasks.Keys && forall k :: k in r.tasks ==> next.tasks[k].phase == r.tasks[k].phase
  {
  }

  /** Messages and refused seals change no phase and remove nobody. */
  lemma SendSamePhases(r: Room, sender: u32, to: u32, kind: MessageKind, payload: Text)
    ensures var next := SendMessage(r, sender, to, kind, payload);
            next.tasks.Keys == r.tasks.Keys && forall k :: k in r.tasks ==> next.tasks[k].phase == r.tasks[k].phase
  {
    if Accepts(r, sender, to) {
      PassSamePhases(r.tasks, sender, to, Relayed(kind, sender, payload));
    } else {
      TellSamePhases(r, sender, Failure(InvalidDestination));
      TellSamePhases(r, sender, Failure(Policy));
    }
  }

  lemma SendKeepsEndings(r: Room, sender: u32, to: u32, kind: MessageKind, payload: Text)
    requires Endings(r) && r.mode.Serving?
    ensures Endings(SendMessage(r, sender, to, kind, payload))
  {
    SendSamePhases(r, sender, to, kind, payload);
    SamePhases(r, SendMessage(r, sender, to, kind, payload));
  }

  lemma SealKeepsEndings(r: Room, id: u32)
    requires Endings(r) && r.mode.Serving?
    ensures Endings(TrySeal(r, id))
  {
    if id == HOST_ID {
      CloseKeepsEndings(r, RoomSealed, true, None);
    } else {
      TellSamePhases(r, id, Failure(OnlyHostCanSeal));
      SamePhases(r, Tell(r, id, Failure(OnlyHostCanSeal)));
    }
  }

  lemma OtherRequestKeepsEndings(r: Room, req: Request)
    requires Endings(r) && !req.cmd.DropConnection?
    ensures Endings(HandleRequest(r, req))
  {
    if r.mode.Serving? {
      match req.cmd {
        case SendTo(kind, to, payload) => SendKeepsEndings(r, req.player, to, kind, payload);
        case SealRoom => SealKeepsEndings(r, req.player);
      }
    }
  }

  lemma DropKeepsEndings(r: Room)
    requires Endings(r) && Can(r, TakeRequest) && r.requests[0].cmd.DropConnection?
    ensures Endings(HandleRequest(r.(requests := r.requests[1..]), r.requests[0]))
  {
    var id, rest := r.requests[0].player, r.(requests := r.requests[1..]);
    TakenRequest(r);
    if !r.mode.Serving? {
      assert forall k :: HasTerminal(HandleRequest(rest, r.requests[0]), k) == HasTerminal(rest, k);
    } else if id == HOST_ID {
      CloseKeepsEndings(rest, HostLeft, false, None);
    } else {
      DisconnectKeepsEndings(r, rest, id, []);
    }
  }

  lemma RequestKeepsEndings(r: Room)
    requires Endings(r) && Can(r, TakeRequest)
    ensures Endings(HandleRequest(r.(requests := r.requests[1..]), r.requests[0]))
  {
    if r.requests[0].cmd.DropConnection? {
      DropKeepsEndings(r);
    } else {
      TakenRequest(r);
      OtherRequestKeepsEndings(r.(requests := r.requests[1..]), r.requests[0]);
    }
  }

  lemma CloseRequestKeepsEndings(r: Room)
    requires Endings(r) && Can(r, TakeClose)
    ensures Endings(HandleClose(r.(closes := r.closes[1..]), r.closes[0]))
  {
    var c, rest := r.closes[0], r.(closes := r.closes[1..]);
    TakenClose(r);
    if !r.mode.Serving? {
      assert forall id :: HasTerminal(HandleClose(rest, c), id) == HasTerminal(rest, id);
    } else if c.player == HOST_ID {
      CloseKeepsEndings(rest, HostLeft, false, Some(CloseTask(c.stream, c.code)));
    } else {
      DisconnectKeepsEndings(r, rest, c.player, [CloseTask(c.stream, c.code)]);
    }
  }

  /** Whose terminal request is queued after an act. */
  lemma TerminalsAfterAct(capacity: nat, r: Room, id: u32, act: Act)
    requires Can(r, PlayerActs(id, act))
    ensures var submitted := act.Submit? && (r.tasks[id].phase.Closing? || r.tasks[id].phase == Asking(DropConnection));
            forall k ::
              HasTerminal(AfterPlayerAct(capacity, r, id, act), k) == (HasTerminal(r, k) || (submitted && k == id))
  {
    var p, next := r.tasks[id], AfterPlayerAct(capacity, r, id, act);
    if act.Submit? && p.phase.Asking? {
      assert next.requests[|r.requests|] == Request(id, p.phase.cmd);
    } else if act.Submit? {
      assert next.closes[|r.closes|].player == id;
    }
  }

  lemma ActKeepsEndings(capacity: nat, r: Room, id: u32, act: Act)
    requires Endings(r) && Can(r, PlayerActs(id, act))
    ensures Endings(AfterPlayerAct(capacity, r, id, act))
  {
    TerminalsAfterAct(capacity, r, id, act);
    assert AfterPlayerAct(capacity, r, id, act).tasks.Keys == r.tasks.Keys;
    assert act.Submit? || act.Return? || act.Abandon?
           || Ended(AfterAct(capacity, r.tasks[id], act)) == Ended(r.tasks[id]);
  }

  lemma ConfigureKeepsEndings(r: Room, limits: Limits, kicked: set<u32>)
    requires Endings(r) && r.mode.Serving?
    ensures Endings(Reconfigured(r, limits, kicked))
  {
  }

  lemma ConnectKeepsEndings(r: Room, id: u32, stream: Stream, inbox: seq<ClientMessage>, others: seq<u32>)
    requires Endings(r) && r.mode.Serving? && id !in r.tasks && id !in r.zombies && !Named(r, id)
    ensures Endings(Connect(r, id, stream, inbox, others))
  {
  }

  lemma StepKeepsEndings(capacity: nat, r: Room, step: Step)
    requires Endings(r) && Can(r, step)
    ensures Endings(After(capacity, r, step))
  {
    match step {
      case Join(id, stream, inbox, others) => ConnectKeepsEndings(r, id, stream, inbox, others);
      case TakeRequest => RequestKeepsEndings(r);
      case TakeClose => CloseRequestKeepsEndings(r);
      case Configure(limits, kicked) => ConfigureKeepsEndings(r, limits, kicked);
      case TimeUp => CloseKeepsEndings(r, Failure(Policy), true, None);
      case PlayerActs(id, act) => ActKeepsEndings(capacity, r, id, act);
      case _ => assert forall k :: HasTerminal(After(capacity, r, step), k) == HasTerminal(r, k);
    }
  }

  lemma AwaitedAfterRequest(r: Room, id: u32)
    requires Endings(r) && Can(r, TakeRequest) && id in r.tasks
    requires id !in HandleRequest(r.(requests := r.requests[1..]), r.requests[0]).tasks
    ensures Ended(r.tasks[id])
  {
    var req, rest := r.requests[0], r.(requests := r.requests[1..]);
    if req.cmd.DropConnection? {
      assert req in r.requests;
    } else if req.cmd.SendTo? {
      SendSamePhases(rest, req.player, req.cmd.to, req.cmd.kind, req.cmd.payload);
    }
  }

  /**
   No step waits for a live task: whenever the room lets go of a player, and so awaits or aborts
   its task, that task has already sent its one terminal request or returned.
   */
  lemma AwaitedTasksHaveEnded(capacity: nat, r: Room, step: Step, id: u32)
    requires Endings(r) && Can(r, step)
    requires id in r.tasks && id !in After(capacity, r, step).tasks
    ensures Ended(r.tasks[id])
  {
    match step {
      case TakeRequest => AwaitedAfterRequest(r, id);
      case TakeClose => assert r.closes[0] in r.closes;
      case Configure(limits, kicked) =>
      case _ =>
    }
  }
}
