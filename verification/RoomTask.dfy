/**
 The room task in its own form: the functions of src/room.rs with their loops, over the fields they
 update in place. Each is proved to take steps of the state machine of module Rooms.
 */
module RoomTask {
  import opened Common
  import opened RoomCodes
  import opened TextProtocol
  import opened Players
  import opened Rooms
  import opened RoomRuns
  import opened RoomClosing
  import opened RoomDrains
  import opened RoomIds
  import opened RoomLoops
  import opened RoomServing

  class RoomTask {
    const code: RoomCode
    const capacity: nat
    const created: nat

    var playerMap: map<u32, Player>  // and to_await, which takes over its entries
    var requests: seq<Request>
    var closes: seq<CloseRequest>
    var toClose: seq<CloseRequest>
    var closeTasks: seq<CloseTask>
    var limits: Limits
    var deadline: nat
    var now: nat
    var shutdown: bool               // whether the signal was raised
    var accepted: seq<Accepted>      // history, which the players' records refer to
    var zombies: set<u32>            // history, which tells whether an id is safe

    ghost var mode: Mode
    ghost var control: seq<Control>
    ghost var quotaEver: nat
    ghost var closed: bool

    ghost function Model(): Room
      reads this
    {
      Room(mode, code, playerMap, requests, closes, toClose, closeTasks, limits, created, now, deadline, control,
           shutdown, zombies, accepted, quotaEver, closed)
    }

    /** The room subscribes to the shutdown signal before its host does, and the signal may come between the two. */
    constructor (code: RoomCode, capacity: nat, hostStream: Stream, inbox: seq<ClientMessage>, limits: Limits, now: nat,
                 signalled: bool)
      ensures Model() == if signalled then StartSignalled(code, hostStream, inbox, limits, now)
                         else Start(code, hostStream, inbox, limits, now)
      ensures this.capacity == capacity
    {
      this.code, this.capacity, this.created, this.limits, this.now := code, capacity, now, limits, now;
      deadline := now + limits.timeLimit;
      requests, closes, toClose, closeTasks := [], [], [], [];
      mode, control, shutdown, closed := Serving, [], signalled, false;
      accepted, zombies, quotaEver := [], {}, limits.quota;
      playerMap :=
        map[HOST_ID := Player(HOST_ID, hostStream, code, [], [], 0, Greeting, [], inbox, 0, map[], 0, [], signalled)];
      new;
      ghost var empty := Empty(code, limits, now).(shutdown := signalled);
      assert Rooms.NotifyAll(empty, PlayerJoined(HOST_ID)).tasks == map[];
      assert Rooms.NotifyAll(empty, PlayerJoined(HOST_ID)).zombies == {};
    }

    method NotifyAll(n: Notification)
      modifies this`playerMap, this`zombies
      ensures Model() == Rooms.NotifyAll(old(Model()), n)
    {
      var dead;
      playerMap, dead := TellAll(playerMap, n);
      zombies := zombies + dead;
    }

    method OnConnect(id: u32, stream: Stream, inbox: seq<ClientMessage>) returns (others: seq<u32>)
      modifies this`playerMap, this`zombies
      ensures IsListing(others, Rooms.NotifyAll(old(Model()), PlayerJoined(id)).tasks.Keys)
      ensures Model() == Connect(old(Model()), id, stream, inbox, others)
    {
      NotifyAll(PlayerJoined(id));
      others := ListKeys(playerMap);
      playerMap := playerMap[id := Player(id, stream, code, others, [], 0, Greeting, [], inbox, 0, map[],
                                          |accepted|, [], shutdown)];
    }

    /** Called when a terminal request of the player was received; its handle is awaited. */
    method OnDisconnect(id: u32, closing: seq<CloseTask>)
      modifies this`playerMap, this`zombies, this`closeTasks
      ensures Model() == Disconnect(old(Model()), id, closing)
    {
      playerMap := RemoveAndForget(playerMap, id);
      zombies := zombies - {id};
      closeTasks := closeTasks + closing;
      assert Model() == Without(old(Model()), id, closing);
      NotifyAll(PlayerLeft(id));
    }

    /** Tell one player, if it is a member. */
    method SendNotification(id: u32, n: Notification)
      modifies this`playerMap
      ensures Model() == Tell(old(Model()), id, n)
    {
      if id in playerMap {
        playerMap := playerMap[id := Pushed(playerMap[id], n)];
      }
    }

    method TrySendMessage(sender: u32, to: u32, kind: MessageKind, payload: Text)
      modifies this`playerMap, this`accepted
      ensures Model() == SendMessage(old(Model()), sender, to, kind, payload)
    {
      var receiverExists := to in playerMap;
      if sender in playerMap {
        if receiverExists && sender != to {
          var count := Count(playerMap[sender], to);
          if count < limits.quota {
            playerMap := playerMap[sender := Counted(playerMap[sender], to)];
            playerMap := playerMap[to := Pushed(playerMap[to], Relayed(kind, sender, payload))];
            accepted := accepted + [Accepted(kind, sender, to, payload)];
          } else {
            SendNotification(sender, Failure(Policy));
          }
        } else {
          SendNotification(sender, Failure(InvalidDestination));
        }
      }
    }

    /** The config branch when the room stays open: kick whoever is too many. */
    method KickExcess() returns (kicked: set<u32>)
      requires limits.maxPlayers >= 1
      modifies this`playerMap
      ensures kicked <= old(playerMap).Keys - {HOST_ID} && |kicked| == Excess(old(Model()), limits)
      ensures Model() == Kick(old(Model()), kicked)
    {
      kicked := {};
      if |playerMap| > limits.maxPlayers {
        playerMap, kicked := KickSome(playerMap, |playerMap| - limits.maxPlayers);
      }
      assert playerMap == Kick(old(Model()), kicked).tasks;
    }

    method SetLimits(newLimits: Limits)
      modifies this`limits, this`quotaEver
      ensures Model() == old(Model()).(limits := newLimits,
                                       quotaEver := if newLimits.quota > old(quotaEver) then newLimits.quota
                                                    else old(quotaEver))
    {
      limits := newLimits;
      quotaEver := if newLimits.quota > quotaEver then newLimits.quota else quotaEver;
    }

    /**
     The config branch: the new limits take effect, and either the room is already older than its new
     time limit and must close, or the deadline moves and whoever is too many is kicked.
     */
    method OnConfig(newLimits: Limits) returns (expired: bool, kicked: set<u32>)
      requires ValidLimits(newLimits) && mode.Serving? && created <= now
      modifies this`playerMap, this`limits, this`deadline, this`quotaEver
      ensures expired <==> now - created >= newLimits.timeLimit
      ensures expired ==> BeginClose(Model(), Failure(Policy), true, None) == Reconfigured(old(Model()), newLimits, {})
      ensures !expired ==> Can(old(Model()), Configure(newLimits, kicked))
                           && Model() == Reconfigured(old(Model()), newLimits, kicked)
    {
      SetLimits(newLimits);
      var elapsed := now - created;
      expired, kicked := newLimits.timeLimit <= elapsed, {};
      if !expired {
        deadline := now + (newLimits.timeLimit - elapsed);
        kicked := KickExcess();
      }
    }

    // ----- closing -----

    method CallToClose(n: Notification, sendToHost: bool, ghost last: Option<CloseTask>)
      modifies this`playerMap, this`toClose, this`mode
      ensures Model() == BeginClose(old(Model()), n, sendToHost, last)
    {
      playerMap := CallAll(playerMap, n, sendToHost);
      toClose := [];
      mode := Emptying(last);
    }

    /** What can run next; idle turns of a task are not scheduled. */
    predicate Ready(turn: Turn)
      reads this
    {
      match turn
      case ReceiveRequest => requests != []
      case ReceiveClose => closes != []
      case RunTask(id, act) =>
        && id in playerMap && act != SendPing(true) && act != Reconfigure
        && CanAct(playerMap[id], act, |requests| < QUEUE_SIZE, |closes| < QUEUE_SIZE, shutdown)
      case ShutDown => !shutdown
    }

    /** The scheduler's wish if it can be granted, and otherwise any turn that gets the closing further. */
    method NextTurn(wish: Turn) returns (turn: Option<Turn>)
      requires Reachable(Model()) && mode.Emptying? && playerMap != map[]
      ensures turn.Some? ==> Ready(turn.value) && (Ready(wish) ==> turn.value == wish)
      ensures turn.None? ==> HangsClosing(capacity, Model())
    {
      if Ready(wish) {
        return Some(wish);
      } else if requests != [] {
        return Some(ReceiveRequest);
      } else if closes != [] {
        return Some(ReceiveClose);
      } else if id :| id in playerMap && !playerMap[id].phase.Done? {
        CalledCanAct(playerMap[id], true, true, shutdown);
        return Some(RunTask(id, NextAct(playerMap[id])));
      } else {
        StuckHangs(capacity, Model());
        return None;
      }
    }

    /** One arm of on_close's select: only a drop means anything now. */
    method TakeRequestTurn()
      requires requests != [] && mode.Emptying?
      modifies this`playerMap, this`requests
      ensures Model() == After(capacity, old(Model()), TakeRequest)
    {
      var req := requests[0];
      requests := requests[1..];
      if req.cmd.DropConnection? {
        playerMap := playerMap - {req.player};
      }
    }

    /** The other arm: every close is kept for later, and its task is done. */
    method TakeCloseTurn()
      requires closes != [] && mode.Emptying?
      modifies this`playerMap, this`closes, this`toClose
      ensures Model() == After(capacity, old(Model()), TakeClose)
    {
      var c := closes[0];
      closes := closes[1..];
      toClose := toClose + [c];
      playerMap := playerMap - {c.player};
    }

    /** Meanwhile the tasks run; what a task does is the matter of class PlayerTask. */
    method RunTaskTurn(id: u32, act: Act)
      requires id in playerMap && CanAct(playerMap[id], act, |requests| < QUEUE_SIZE, |closes| < QUEUE_SIZE, shutdown)
      modifies this`playerMap, this`requests, this`closes
      ensures Can(old(Model()), PlayerActs(id, act))
      ensures Model() == AfterPlayerAct(capacity, old(Model()), id, act)
    {
      var task := playerMap[id];
      if act.Submit? {
        if task.phase.Asking? {
          requests := requests + [Request(id, task.phase.cmd)];
        } else {
          closes := closes + [CloseRequest(id, task.stream, task.phase.code)];
        }
      }
      playerMap := playerMap[id := AfterAct(capacity, task, act)];
    }

    method TakeTurn(turn: Turn)
      requires Ready(turn) && mode.Emptying?
      modifies this`playerMap, this`requests, this`closes, this`toClose, this`shutdown
      ensures Can(old(Model()), StepOf(turn)) && Model() == After(capacity, old(Model()), StepOf(turn))
    {
      match turn {
        case ReceiveRequest => TakeRequestTurn();
        case ReceiveClose => TakeCloseTurn();
        case RunTask(id, act) => RunTaskTurn(id, act);
        case ShutDown => shutdown := true;
      }
    }

    /** The loop of on_close, against any scheduler: it ends with nobody left, or is found to hang. */
    method AwaitAll(schedule: nat -> Turn) returns (hung: bool, ghost steps: seq<Step>)
      requires Reachable(Model()) && mode.Emptying?
      modifies this`playerMap, this`requests, this`closes, this`toClose, this`shutdown
      ensures Underway(capacity, old(Model()), steps, Model())
      ensures if hung then HangsClosing(capacity, Model()) && old(playerMap) != map[] else playerMap == map[]
    {
      ghost var begun := Model();
      hung, steps := false, [];
      var turns := 0;
      while playerMap != map[]
        invariant Underway(capacity, begun, steps, Model())
        invariant begun.tasks == map[] ==> playerMap == map[]
        decreases Limit(Model())
      {
        var turn := NextTurn(schedule(turns));
        if turn.None? {
          return true, steps;
        }
        ghost var now := Model();
        TakeTurn(turn.value);
        TurnTaken(capacity, begun, steps, now, StepOf(turn.value));
        steps := steps + [StepOf(turn.value)];
        turns := turns + 1;
      }
    }

    /** After the loop: a closing task for every close received, and for a host that asked for one. */
    method SpawnCloseTasks(last: Option<CloseTask>)
      requires mode == Emptying(last)
      modifies this`closeTasks, this`mode, this`closed
      ensures Model() == FinishEmptying(old(Model()), last)
    {
      for i := 0 to |toClose|
        invariant closeTasks == old(closeTasks) + CloseTasksFor(toClose[..i])
      {
        closeTasks := closeTasks + [CloseTask(toClose[i].stream, toClose[i].code)];
      }
      assert toClose[..|toClose|] == toClose;
      if last.Some? {
        closeTasks := closeTasks + [last.value];
      }
      mode, closed := Broken, true;
    }

    /** on_close as a whole: some run of the state machine that leaves no task behind, or hangs. */
    method OnClose(n: Notification, sendToHost: bool, last: Option<CloseTask>, schedule: nat -> Turn)
      returns (hung: bool, ghost steps: seq<Step>)
      requires Reachable(BeginClose(Model(), n, sendToHost, last))
      modifies this
      ensures ClosedBy(capacity, BeginClose(old(Model()), n, sendToHost, last), steps, hung, Model())
    {
      CallToClose(n, sendToHost, last);
      hung, steps := AwaitAll(schedule);
      if !hung {
        SpawnCloseTasks(last);
      }
    }

    // ----- the branches of the main loop -----

    /** A stream from the lobby. With no id among those drawn that is not in use, the loop goes on drawing. */
    method ServeNewcomer(stream: Stream, inbox: seq<ClientMessage>, draws: seq<u32>)
      returns (choice: Option<u32>, others: seq<u32>)
      requires mode.Serving? && forall i :: 0 <= i < |draws| ==> 2 <= draws[i] < 0x7FFF_FFFF
      modifies this`playerMap, this`zombies, this`closeTasks
      ensures old(|playerMap| >= limits.maxPlayers) ==> Model() == After(capacity, old(Model()), Refuse(stream))
      ensures old(|playerMap| < limits.maxPlayers) && choice.None? ==>
                Model() == old(Model()) && forall i :: 0 <= i < |draws| ==> draws[i] in playerMap
      ensures old(|playerMap| < limits.maxPlayers) && choice.Some? ==>
                && Admissible(old(Model()), choice.value) && choice.value in draws
                && Model() == Connect(old(Model()), choice.value, stream, inbox, others)
                && (Fresh(old(Model()), choice.value) ==>
                      Can(old(Model()), Step.Join(choice.value, stream, inbox, others)))
    {
      choice, others := None, [];
      if |playerMap| < limits.maxPlayers {
        choice := ChooseUnused(draws, playerMap.Keys);
        if choice.Some? {
          others := OnConnect(choice.value, stream, inbox);
        }
      } else {
        closeTasks := closeTasks + [CloseTask(stream, TooManyPlayers)];
      }
    }

    /** Only the host can seal the room, which closes it. */
    method TrySeal(id: u32, schedule: nat -> Turn) returns (stop: bool, hung: bool, ghost steps: seq<Step>)
      requires Reachable(Rooms.TrySeal(Model(), id)) && mode.Serving?
      modifies this
      ensures stop == (id == HOST_ID)
      ensures if stop then ClosedBy(capacity, Rooms.TrySeal(old(Model()), id), steps, hung, Model())
              else Model() == Rooms.TrySeal(old(Model()), id) && !hung
    {
      stop, hung, steps := id == HOST_ID, false, [];
      if stop {
        hung, steps := OnClose(RoomSealed, true, None, schedule);
      } else {
        SendNotification(id, Failure(OnlyHostCanSeal));
      }
    }

    /** A player is gone; without the host the room closes. */
    method Drop(id: u32, schedule: nat -> Turn) returns (stop: bool, hung: bool, ghost steps: seq<Step>)
      requires Reachable(HandleRequest(Model(), Request(id, DropConnection))) && mode.Serving?
      modifies this
      ensures stop == (id == HOST_ID)
      ensures if stop then ClosedBy(capacity, BeginClose(old(Model()), HostLeft, false, None), steps, hung, Model())
              else Model() == Disconnect(old(Model()), id, []) && !hung
    {
      stop, hung, steps := id == HOST_ID, false, [];
      if stop {
        hung, steps := OnClose(HostLeft, false, None, schedule);
      } else {
        OnDisconnect(id, []);
      }
    }

    method Dispatch(req: Request, schedule: nat -> Turn) returns (stop: bool, hung: bool, ghost steps: seq<Step>)
      requires Reachable(HandleRequest(Model(), req)) && mode.Serving?
      modifies this
      ensures stop == HandleRequest(old(Model()), req).mode.Emptying?
      ensures if stop then ClosedBy(capacity, HandleRequest(old(Model()), req), steps, hung, Model())
              else Model() == HandleRequest(old(Model()), req) && !hung
    {
      stop, hung, steps := false, false, [];
      match req.cmd {
        case SealRoom => stop, hung, steps := TrySeal(req.player, schedule);
        case SendTo(kind, to, payload) => TrySendMessage(req.player, to, kind, payload);
        case DropConnection => stop, hung, steps := Drop(req.player, schedule);
      }
    }

    /** A request from a player; a drop or a seal by the host ends the loop. */
    method ServeRequest(schedule: nat -> Turn) returns (stop: bool, hung: bool, ghost steps: seq<Step>)
      requires Reachable(Model()) && mode.Serving? && requests != []
      modifies this
      ensures Served(capacity, old(Model()), TakeRequest, steps, stop, hung, Model())
    {
      ghost var before := Model();
      StepKeepsReachable(capacity, before, TakeRequest);
      var req := requests[0];
      requests := requests[1..];
      stop, hung, steps := Dispatch(req, schedule);
      steps := Conclude(before, TakeRequest, steps, stop, hung);
    }

    /** The steps of a branch, completed by its first and, if the room has closed, by the end of the closing. */
    ghost method Conclude(before: Room, first: Step, closing: seq<Step>, stop: bool, hung: bool)
      returns (steps: seq<Step>)
      requires Can(before, first) && stop == After(capacity, before, first).mode.Emptying?
      requires if stop then ClosedBy(capacity, After(capacity, before, first), closing, hung, Model())
               else Model() == After(capacity, before, first) && !hung
      ensures Served(capacity, before, first, steps, stop, hung, Model())
    {
      if stop {
        CloseServed(capacity, before, first, closing, hung, Model());
        steps := ClosingSteps(first, closing, hung);
      } else {
        OneStepServed(capacity, before, first);
        steps := [first];
      }
    }

    /** A player has asked to be closed; without the host the room closes, and the host is closed last. */
    method Dismiss(c: CloseRequest, schedule: nat -> Turn) returns (stop: bool, hung: bool, ghost steps: seq<Step>)
      requires Reachable(HandleClose(Model(), c)) && mode.Serving?
      modifies this
      ensures stop == (c.player == HOST_ID)
      ensures if stop then ClosedBy(capacity, HandleClose(old(Model()), c), steps, hung, Model())
              else Model() == HandleClose(old(Model()), c) && !hung
    {
      stop, hung, steps := c.player == HOST_ID, false, [];
      if stop {
        hung, steps := OnClose(HostLeft, false, Some(CloseTask(c.stream, c.code)), schedule);
      } else {
        OnDisconnect(c.player, [CloseTask(c.stream, c.code)]);
      }
    }

    /** A close from a player; one from the host ends the loop. */
    method ServeClose(schedule: nat -> Turn) returns (stop: bool, hung: bool, ghost steps: seq<Step>)
      requires Reachable(Model()) && mode.Serving? && closes != []
      modifies this
      ensures Served(capacity, old(Model()), TakeClose, steps, stop, hung, Model())
    {
      ghost var before := Model();
      StepKeepsReachable(capacity, before, TakeClose);
      var c := closes[0];
      closes := closes[1..];
      stop, hung, steps := Dismiss(c, schedule);
      steps := Conclude(before, TakeClose, steps, stop, hung);
    }

    /** The time limit is reached. */
    method ServeTimeUp(schedule: nat -> Turn) returns (hung: bool, ghost steps: seq<Step>)
      requires Reachable(Model()) && Can(Model(), TimeUp)
      modifies this
      ensures Served(capacity, old(Model()), TimeUp, steps, true, hung, Model())
    {
      ghost var before := Model();
      StepKeepsReachable(capacity, before, TimeUp);
      hung, steps := OnClose(Failure(Policy), true, None, schedule);
      steps := Conclude(before, TimeUp, steps, true, hung);
    }

    /** The config has changed; a time limit that is already exceeded ends the loop. */
    method ServeConfig(newLimits: Limits, schedule: nat -> Turn)
      returns (stop: bool, hung: bool, ghost kicked: set<u32>, ghost steps: seq<Step>)
      requires Reachable(Model()) && mode.Serving? && ValidLimits(newLimits)
      modifies this
      ensures stop <==> old(now) - created >= newLimits.timeLimit
      ensures Served(capacity, old(Model()), Configure(newLimits, kicked), steps, stop, hung, Model())
    {
      ghost var before := Model();
      hung, steps := false, [];
      stop, kicked := OnConfig(newLimits);
      if stop {
        kicked := ExpiryIsReachable(capacity, before, newLimits);
        hung, steps := OnClose(Failure(Policy), true, None, schedule);
      }
      steps := Conclude(before, Configure(newLimits, kicked), steps, stop, hung);
    }

    /** Whether nothing is queued for an id not in use, which src/room.rs:179-185 gives out without a further check. */
    predicate IsSafe(id: u32)
      reads this
    {
      && id !in zombies && (forall q :: q in requests && q.player == id ==> q.cmd.SealRoom?)
      && forall c :: c in closes ==> c.player != id
    }

    /** The branch of a newcomer in a room with a place, once a safe id was drawn. */
    method Welcome(stream: Stream, inbox: seq<ClientMessage>, id: u32) returns (others: seq<u32>)
      requires Admissible(Model(), id) && Fresh(Model(), id)
      modifies this`playerMap, this`zombies, this`closeTasks
      ensures Can(old(Model()), Step.Join(id, stream, inbox, others))
      ensures Model() == Connect(old(Model()), id, stream, inbox, others)
    {
      var choice;
      choice, others := ServeNewcomer(stream, inbox, [id]);
      assert [id][0] == id;
    }

    /** A newcomer, as the main loop takes it; where the id drawn is not safe the model ends. */
    method WakeForArrival(stream: Stream, inbox: seq<ClientMessage>, draws: seq<u32>)
      returns (ending: Ending, ghost steps: seq<Step>)
      requires Reachable(Model()) && mode.Serving? && forall i :: 0 <= i < |draws| ==> 2 <= draws[i] < 0x7FFF_FFFF
      modifies this`playerMap, this`zombies, this`closeTasks
      ensures Handled(capacity, old(Model()), steps, ending, Model())
    {
      ghost var before := Model();
      if |playerMap| >= limits.maxPlayers {
        var _, _ := ServeNewcomer(stream, inbox, []);
        StepHandled(capacity, before, Refuse(stream), StillOpen);
        return StillOpen, [Refuse(stream)];
      }
      var id := ChooseUnused(draws, playerMap.Keys);
      if id.None? || !IsSafe(id.value) {
        NothingHandled(capacity, before, NoSafeId);
        return NoSafeId, [];
      }
      var others := Welcome(stream, inbox, id.value);
      StepHandled(capacity, before, Step.Join(id.value, stream, inbox, others), StillOpen);
      return StillOpen, [Step.Join(id.value, stream, inbox, others)];
    }

    method WakeForRequest(schedule: nat -> Turn) returns (ending: Ending, ghost steps: seq<Step>)
      requires Reachable(Model()) && mode.Serving?
      modifies this
      ensures Handled(capacity, old(Model()), steps, ending, Model())
    {
      ghost var before := Model();
      if requests == [] {
        NothingHandled(capacity, before, StillOpen);
        return StillOpen, [];
      }
      var stop, hung;
      stop, hung, steps := ServeRequest(schedule);
      ServedHandled(capacity, before, TakeRequest, steps, stop, hung, Model());
      ending := EndingOf(stop, hung);
    }

    method WakeForClose(schedule: nat -> Turn) returns (ending: Ending, ghost steps: seq<Step>)
      requires Reachable(Model()) && mode.Serving?
      modifies this
      ensures Handled(capacity, old(Model()), steps, ending, Model())
    {
      ghost var before := Model();
      if closes == [] {
        NothingHandled(capacity, before, StillOpen);
        return StillOpen, [];
      }
      var stop, hung;
      stop, hung, steps := ServeClose(schedule);
      ServedHandled(capacity, before, TakeClose, steps, stop, hung, Model());
      ending := EndingOf(stop, hung);
    }

    method WakeForConfig(newLimits: Limits, schedule: nat -> Turn) returns (ending: Ending, ghost steps: seq<Step>)
      requires Reachable(Model()) && mode.Serving? && ValidLimits(newLimits)
      modifies this
      ensures Handled(capacity, old(Model()), steps, ending, Model())
    {
      ghost var before, kicked := Model(), {};
      var stop, hung;
      stop, hung, kicked, steps := ServeConfig(newLimits, schedule);
      ServedHandled(capacity, before, Configure(newLimits, kicked), steps, stop, hung, Model());
      ending := EndingOf(stop, hung);
    }

    method WakeForDeadline(schedule: nat -> Turn) returns (ending: Ending, ghost steps: seq<Step>)
      requires Reachable(Model()) && mode.Serving?
      modifies this
      ensures Handled(capacity, old(Model()), steps, ending, Model())
    {
      ghost var before := Model();
      if now < deadline {
        NothingHandled(capacity, before, StillOpen);
        return StillOpen, [];
      }
      var hung;
      hung, steps := ServeTimeUp(schedule);
      ServedHandled(capacity, before, TimeUp, steps, true, hung, Model());
      ending := EndingOf(true, hung);
    }

    method WakeForShutdown() returns (ending: Ending, ghost steps: seq<Step>)
      requires Reachable(Model()) && mode.Serving?
      modifies this`mode
      ensures Handled(capacity, old(Model()), steps, ending, Model())
    {
      ghost var before := Model();
      if !shutdown {
        NothingHandled(capacity, before, StillOpen);
        return StillOpen, [];
      }
      mode := Broken;
      StepHandled(capacity, before, HeedShutdown, LeftLoop);
      return LeftLoop, [HeedShutdown];
    }

    method Tick()
      modifies this`now
      ensures Model() == old(Model()).(now := old(now) + 1)
    {
      now := now + 1;
    }

    method LetTimePass() returns (ghost steps: seq<Step>)
      requires Reachable(Model()) && mode.Serving?
      modifies this`now
      ensures Handled(capacity, old(Model()), steps, StillOpen, Model())
    {
      ghost var before := Model();
      if now >= deadline {
        NothingHandled(capacity, before, StillOpen);
        return [];
      }
      Tick();
      StepHandled(capacity, before, Elapse, StillOpen);
      return [Elapse];
    }

    method LetSignalCome() returns (ghost steps: seq<Step>)
      requires Reachable(Model()) && mode.Serving?
      modifies this`shutdown
      ensures Handled(capacity, old(Model()), steps, StillOpen, Model())
    {
      ghost var before := Model();
      shutdown := true;
      StepHandled(capacity, before, RaiseShutdown, StillOpen);
      return [RaiseShutdown];
    }

    method LetTaskRun(id: u32, act: Act) returns (ghost steps: seq<Step>)
      requires Reachable(Model()) && mode.Serving?
      modifies this`playerMap, this`requests, this`closes
      ensures Handled(capacity, old(Model()), steps, StillOpen, Model())
    {
      ghost var before := Model();
      if id !in playerMap || !CanAct(playerMap[id], act, |requests| < QUEUE_SIZE, |closes| < QUEUE_SIZE, shutdown) {
        NothingHandled(capacity, before, StillOpen);
        return [];
      }
      RunTaskTurn(id, act);
      StepHandled(capacity, before, PlayerActs(id, act), StillOpen);
      return [PlayerActs(id, act)];
    }

    /** What goes on around the room: time passes, the signal is raised, or a task runs. */
    method LetRun(event: Wakeup) returns (ghost steps: seq<Step>)
      requires Reachable(Model()) && mode.Serving? && (event.TimePasses? || event.ShutdownIsRaised? || event.TaskRuns?)
      modifies this`now, this`shutdown, this`playerMap, this`requests, this`closes
      ensures Handled(capacity, old(Model()), steps, StillOpen, Model())
    {
      match event {
        case TimePasses => steps := LetTimePass();
        case ShutdownIsRaised => steps := LetSignalCome();
        case TaskRuns(id, act) => steps := LetTaskRun(id, act);
      }
    }

    /** One turn of the main loop; an event that cannot happen now does not. */
    method ServeEvent(event: Wakeup, schedule: nat -> Turn) returns (ending: Ending, ghost steps: seq<Step>)
      requires Reachable(Model()) && mode.Serving? && ValidWakeup(event)
      modifies this
      ensures Handled(capacity, old(Model()), steps, ending, Model())
    {
      match event {
        case Arrives(stream, inbox, draws) => ending, steps := WakeForArrival(stream, inbox, draws);
        case RequestComes => ending, steps := WakeForRequest(schedule);
        case CloseComes => ending, steps := WakeForClose(schedule);
        case ConfigComes(newLimits) => ending, steps := WakeForConfig(newLimits, schedule);
        case TimeIsUp => ending, steps := WakeForDeadline(schedule);
        case ShutdownComes => ending, steps := WakeForShutdown();
        case _ =>
          ending := StillOpen;
          steps := LetRun(event);
      }
    }

    /** The main loop, for as long as events come: whatever they are, it is a run of the state machine. */
    method MainLoop(events: seq<Wakeup>, schedule: nat -> Turn) returns (ending: Ending, ghost steps: seq<Step>)
      requires Reachable(Model()) && mode.Serving? && forall i :: 0 <= i < |events| ==> ValidWakeup(events[i])
      modifies this
      ensures Handled(capacity, old(Model()), steps, ending, Model())
    {
      ghost var before := Model();
      NothingHandled(capacity, before, StillOpen);
      ending, steps := StillOpen, [];
      var i := 0;
      while i < |events| && ending.StillOpen?
        invariant 0 <= i <= |events| && Handled(capacity, before, steps, ending, Model())
      {
        ghost var now, more := Model(), [];
        ending, more := ServeEvent(events[i], schedule);
        RanFurther(capacity, before, steps, now, more, Model());
        steps := steps + more;
        i := i + 1;
      }
    }

    // ----- after the main loop -----

    /** The scheduler's wish if the drain of closes can grant it, and otherwise a turn that waits for no client. */
    method NextDrainTurn(wish: Turn) returns (turn: Option<Turn>)
      requires Sound(Model()) && mode.DrainingCloses? && (closes != [] || Unfinished(Model()))
      ensures turn.Some? ==> Ready(turn.value) && !turn.value.ReceiveRequest?
      ensures turn.Some? && Ready(wish) && !wish.ReceiveRequest? ==> turn.value == wish
      ensures turn.None? ==> Idle(Model())
    {
      if !wish.ReceiveRequest? && Ready(wish) {
        return Some(wish);
      } else if closes != [] {
        return Some(ReceiveClose);
      } else if id :| id in playerMap && !Stays(playerMap[id], |requests| < QUEUE_SIZE) {
        OwnActIsOpen(Model(), playerMap[id], Return);
        return Some(RunTask(id, OwnAct(playerMap[id])));
      } else {
        return None;
      }
    }

    method TakeDrainTurn(turn: Turn)
      requires Ready(turn) && !turn.ReceiveRequest? && mode.DrainingCloses?
      modifies this`playerMap, this`requests, this`closes, this`shutdown
      ensures Can(old(Model()), StepOf(turn)) && Model() == After(capacity, old(Model()), StepOf(turn))
    {
      match turn {
        case ReceiveClose => closes := closes[1..];
        case RunTask(id, act) => RunTaskTurn(id, act);
        case ShutDown => shutdown := true;
      }
    }

    /** Nothing goes on by itself: either a client that came after the signal can still end it, or nothing can. */
    method WhatIsWaitedFor() returns (end: DrainEnd)
      requires Sound(Model()) && mode.DrainingCloses? && Idle(Model())
      ensures DrainEndsAs(capacity, end, Model()) && !end.DrainOver?
    {
      IdleWaits(capacity, Model());
      end := if exists id :: id in playerMap && Lingers(playerMap[id]) then DrainLingers else DrainHangs;
    }

    /** The drain of the close queue, until its last sender is gone, or there is nothing left that would end it. */
    method DrainCloses(schedule: nat -> Turn) returns (end: DrainEnd, ghost steps: seq<Step>)
      requires Sound(Model()) && mode.DrainingCloses?
      modifies this`playerMap, this`requests, this`closes, this`shutdown
      ensures DrainUnderway(capacity, old(Model()), steps, Model()) && DrainEndsAs(capacity, end, Model())
    {
      ghost var begun := Model();
      end, steps := DrainOver, [];
      var turns := 0;
      while closes != [] || exists id :: id in playerMap && !playerMap[id].phase.Done?
        invariant DrainUnderway(capacity, begun, steps, Model())
        decreases Limit(Model())
      {
        var turn := NextDrainTurn(schedule(turns));
        if turn.None? {
          end := WhatIsWaitedFor();
          return end, steps;
        }
        ghost var now := Model();
        TakeDrainTurn(turn.value);
        DrainTurnTaken(capacity, begun, steps, now, StepOf(turn.value));
        steps := steps + [StepOf(turn.value)];
        turns := turns + 1;
      }
    }

    /** The drain of the request queue, which nobody can send to any more. */
    method DrainRequests() returns (ghost steps: seq<Step>)
      requires mode.DrainingRequests?
      modifies this`requests
      ensures Ran(capacity, old(Model()), steps, Model()) && Model() == old(Model()).(requests := [])
      ensures |steps| == |old(requests)|
    {
      ghost var begun := Model();
      steps := [];
      while requests != []
        invariant Ran(capacity, begun, steps, Model()) && Model() == begun.(requests := requests)
        invariant |steps| + |requests| == |begun.requests|
        decreases |requests|
      {
        RanOn(capacity, begun, steps, Model(), TakeRequest);
        requests := requests[1..];
        steps := steps + [TakeRequest];
      }
    }

    /** Streams the lobby sent before it heard of the seal are closed. */
    method TurnAway(late: seq<Stream>) returns (ghost steps: seq<Step>)
      requires mode.Sweeping?
      modifies this`closeTasks
      ensures Ran(capacity, old(Model()), steps, Model()) && |steps| == |late|
      ensures Model() == old(Model()).(closeTasks := old(closeTasks) + Turned(late))
    {
      ghost var begun := Model();
      steps := [];
      for i := 0 to |late|
        invariant Ran(capacity, begun, steps, Model()) && |steps| == i
        invariant Model() == begun.(closeTasks := begun.closeTasks + Turned(late[..i]))
      {
        RanOn(capacity, begun, steps, Model(), Sweep(late[i]));
        assert Turned(late[..i + 1]) == Turned(late[..i]) + [CloseTask(late[i], RoomIsSealed)];
        closeTasks := closeTasks + [CloseTask(late[i], RoomIsSealed)];
        steps := steps + [Sweep(late[i])];
      }
      assert late[..|late|] == late;
    }

    /** The drain of the request queue, the remaining handles, and the sweep. */
    method EmptyAndSweep(late: seq<Stream>) returns (ghost steps: seq<Step>)
      requires mode.DrainingCloses? && closes == [] && AllReturned(Model())
      modifies this`mode, this`requests, this`playerMap, this`closeTasks
      ensures Ran(capacity, old(Model()), steps, Model()) && Model() == Swept(old(Model()), late)
      ensures |steps| == |old(requests)| + |late| + 2
    {
      ghost var drained := Model();
      mode := DrainingRequests;
      ghost var requestSteps := DrainRequests();
      mode, playerMap := Sweeping, map[];
      ghost var lateSteps := TurnAway(late);
      SweepRuns(capacity, drained, requestSteps, late, lateSteps);
      steps := ((([] + [ClosesDrained]) + requestSteps) + [RequestsDrained]) + lateSteps;
    }

    /** The rest, once the close queue is drained. */
    method Finish(ghost begun: Room, ghost drainSteps: seq<Step>, late: seq<Stream>) returns (ghost steps: seq<Step>)
      requires Sound(begun) && begun.mode.Broken?
      requires DrainUnderway(capacity, After(capacity, begun, EmitSeal), drainSteps, Model())
      requires DrainEndsAs(capacity, DrainOver, Model())
      modifies this`mode, this`requests, this`playerMap, this`closeTasks, this`control
      ensures HasDeparted(capacity, begun, late, steps, DrainOver, Model())
    {
      ghost var drained := Model();
      ghost var sweepSteps := EmptyAndSweep(late);
      TaskEnds(capacity, begun, drainSteps, drained, sweepSteps, late);
      mode, control := Finished, control + [CloseSignal];
      steps := (([EmitSeal] + drainSteps) + sweepSteps) + [EmitClose];
    }

    /**
     After the main loop: the seal, both drains, the sweep of newcomers that came too late, and the close.
     After a shutdown the drain can hang, if it was crowded, or last as long as a client that came after the signal.
     */
    method Depart(schedule: nat -> Turn, late: seq<Stream>) returns (end: DrainEnd, ghost steps: seq<Step>)
      requires Sound(Model()) && mode.Broken?
      modifies this
      ensures HasDeparted(capacity, old(Model()), late, steps, end, Model())
    {
      ghost var begun := Model();
      DrainBegins(capacity, begun);
      mode, control := DrainingCloses, control + [SealSignal];
      end, steps := DrainCloses(schedule);
      if !end.DrainOver? {
        DrainWaits(capacity, begun, late, steps, end, Model());
        return end, [EmitSeal] + steps;
      }
      steps := Finish(begun, steps, late);
    }

    /** The whole task from its first to its last step, as far as the events lead. */
    method Run(events: seq<Wakeup>, schedule: nat -> Turn, late: seq<Stream>)
      returns (ending: Ending, end: DrainEnd, ghost steps: seq<Step>)
      requires Reachable(Model()) && mode.Serving? && forall i :: 0 <= i < |events| ==> ValidWakeup(events[i])
      modifies this
      ensures Ran(capacity, old(Model()), steps, Model())
      ensures if !ending.LeftLoop? then EndsAs(capacity, ending, Model())
              else match end
                   case DrainHangs => HangsDraining(capacity, Model())
                   case DrainLingers => LingersDraining(Model())
                   case DrainOver => mode.Finished? && playerMap == map[] && control == [SealSignal, CloseSignal]
    {
      ghost var before := Model();
      end := DrainOver;
      ending, steps := MainLoop(events, schedule);
      if ending.LeftLoop? {
        ghost var left, more := Model(), [];
        end, more := Depart(schedule, late);
        RanFurther(capacity, before, steps, left, more, Model());
        steps := steps + more;
      }
    }
  }
}
