/**
 One room (src/room.rs) together with its player tasks, as a state machine. Every branch of the
 room's select, every iteration of its closing and draining loops, and every act of a player
 task is one step. The steps of a run interleave in any order.
 */
module Rooms {
  import opened Common
  import opened RoomCodes
  import opened TextProtocol
  import opened Players

  const HOST_ID: u32 := 1

  /** PLAYER_REQUEST_BUFFER_SIZE, the capacity of the request queue and of the close queue. */
  const QUEUE_SIZE: nat := 10

  datatype Request = Request(player: u32, cmd: Command)

  datatype CloseRequest = CloseRequest(player: u32, stream: Stream, code: CloseCode)

  /** A message the room has accepted for delivery. */
  datatype Accepted = Accepted(kind: MessageKind, sender: u32, to: u32, payload: Text)

  /** The part of the configuration a room reads; the time limit is in the unit of the clock. */
  datatype Limits = Limits(maxPlayers: nat, quota: nat, timeLimit: nat)

  datatype Mode =
    | Serving                                // the main loop
    | Emptying(last: Option<CloseTask>)      // the loop of on_close; `last` is spawned after it
    | Broken                                 // out of the main loop
    | DrainingCloses
    | DrainingRequests
    | Sweeping
    | Finished

  datatype Room = Room(
    mode: Mode,
    code: RoomCode,
    tasks: map<u32, Player>,         // player_map; in mode Emptying, to_await
    requests: seq<Request>,
    closes: seq<CloseRequest>,
    toClose: seq<CloseRequest>,
    closeTasks: seq<CloseTask>,
    limits: Limits,
    created: nat,
    now: nat,
    deadline: nat,                   // the next tick of time_limit_interval
    control: seq<Control>,           // what was sent to the lobby
    shutdown: bool,
    // History, which no step depends on except to choose fresh ids:
    zombies: set<u32>,               // removed because their task was dead, terminal request not yet handled
    accepted: seq<Accepted>,
    quotaEver: nat,                  // the largest quota in force so far
    closed: bool)                    // on_close has been completed

  // ----- the functions of the room -----

  function NotifyAll(r: Room, n: Notification): Room {
    r.(tasks := map id | id in r.tasks && !r.tasks[id].phase.Done? :: Pushed(r.tasks[id], n),
       zombies := r.zombies + set id | id in r.tasks && r.tasks[id].phase.Done?)
  }

  function NewPlayer(r: Room, id: u32, stream: Stream, inbox: seq<ClientMessage>, others: seq<u32>): Player {
    Player(id, stream, r.code, others, [], 0, Greeting, [], inbox, 0, map[], |r.accepted|, [], r.shutdown)
  }

  function Connect(r: Room, id: u32, stream: Stream, inbox: seq<ClientMessage>, others: seq<u32>): Room {
    var told := NotifyAll(r, PlayerJoined(id));
    told.(tasks := told.tasks[id := NewPlayer(r, id, stream, inbox, others)])
  }

  function Forget(p: Player, id: u32): Player {
    p.(msgSent := p.msgSent - {id})
  }

  /** The room without a player: nobody counts messages to it any more. */
  function Without(r: Room, id: u32, closing: seq<CloseTask>): Room {
    r.(tasks := map k | k in r.tasks && k != id :: Forget(r.tasks[k], id),
       zombies := r.zombies - {id},
       closeTasks := r.closeTasks + closing)
  }

  function Disconnect(r: Room, id: u32, closing: seq<CloseTask>): Room {
    NotifyAll(Without(r, id, closing), PlayerLeft(id))
  }

  function Tell(r: Room, id: u32, n: Notification): Room {
    if id in r.tasks then r.(tasks := r.tasks[id := Pushed(r.tasks[id], n)]) else r
  }

  function CountIn(msgSent: map<u32, nat>, id: u32): nat {
    if id in msgSent then msgSent[id] else 0
  }

  function Count(p: Player, id: u32): nat {
    CountIn(p.msgSent, id)
  }

  function Counted(p: Player, id: u32): Player {
    p.(msgSent := p.msgSent[id := Count(p, id) + 1])
  }

  /** The sender's counter and the receiver's log after a message was accepted. */
  function Passed(tasks: map<u32, Player>, sender: u32, to: u32, n: Notification): map<u32, Player>
    requires sender in tasks && to in tasks
  {
    tasks[sender := Counted(tasks[sender], to)][to := Pushed(tasks[to], n)]
  }

  predicate Accepts(r: Room, sender: u32, to: u32) {
    sender in r.tasks && to in r.tasks && sender != to && Count(r.tasks[sender], to) < r.limits.quota
  }

  function SendMessage(r: Room, sender: u32, to: u32, kind: MessageKind, payload: Text): Room {
    if sender !in r.tasks then r
    else if to !in r.tasks || sender == to then Tell(r, sender, Failure(InvalidDestination))
    else if Count(r.tasks[sender], to) >= r.limits.quota then Tell(r, sender, Failure(Policy))
    else
      r.(tasks := Passed(r.tasks, sender, to, Relayed(kind, sender, payload)),
         accepted := r.accepted + [Accepted(kind, sender, to, payload)])
  }

  /** The first half of on_close: everyone is told, except a skipped host and the dead. */
  function BeginClose(r: Room, n: Notification, sendToHost: bool, last: Option<CloseTask>): Room {
    r.(mode := Emptying(last), toClose := [],
       tasks := map id | id in r.tasks && (sendToHost || id != HOST_ID) && !r.tasks[id].phase.Done?
                  :: Pushed(r.tasks[id], n))
  }

  function TrySeal(r: Room, id: u32): Room {
    if id == HOST_ID then BeginClose(r, RoomSealed, true, None)
    else Tell(r, id, Failure(OnlyHostCanSeal))
  }

  function HandleRequest(r: Room, req: Request): Room {
    match r.mode
    case Serving =>
      (match req.cmd
       case SealRoom => TrySeal(r, req.player)
       case SendTo(kind, to, payload) => SendMessage(r, req.player, to, kind, payload)
       case DropConnection =>
         if req.player == HOST_ID then BeginClose(r, HostLeft, false, None)
         else Disconnect(r, req.player, []))
    case Emptying(_) => if req.cmd.DropConnection? then r.(tasks := r.tasks - {req.player}) else r
    case _ => r
  }

  function HandleClose(r: Room, c: CloseRequest): Room {
    match r.mode
    case Serving =>
      if c.player == HOST_ID then BeginClose(r, HostLeft, false, Some(CloseTask(c.stream, c.code)))
      else Disconnect(r, c.player, [CloseTask(c.stream, c.code)])
    case Emptying(_) => r.(tasks := r.tasks - {c.player}, toClose := r.toClose + [c])
    case _ => r
  }

  function CloseTasksFor(closes: seq<CloseRequest>): seq<CloseTask> {
    seq(|closes|, i requires 0 <= i < |closes| => CloseTask(closes[i].stream, closes[i].code))
  }

  function FinishEmptying(r: Room, last: Option<CloseTask>): Room {
    r.(mode := Broken, closed := true,
       closeTasks := r.closeTasks + CloseTasksFor(r.toClose) + (if last.Some? then [last.value] else []))
  }

  function Excess(r: Room, limits: Limits): nat {
    if |r.tasks| > limits.maxPlayers then |r.tasks| - limits.maxPlayers else 0
  }

  function Kick(r: Room, kicked: set<u32>): Room {
    r.(tasks := map id | id in r.tasks ::
         if id in kicked then Pushed(r.tasks[id], Failure(TooManyPlayers)) else r.tasks[id])
  }

  function Reconfigured(r: Room, limits: Limits, kicked: set<u32>): Room {
    var elapsed := if r.now >= r.created then r.now - r.created else 0;
    var updated := r.(limits := limits, quotaEver := if limits.quota > r.quotaEver then limits.quota else r.quotaEver);
    if limits.timeLimit <= elapsed then BeginClose(updated, Failure(Policy), true, None)
    else Kick(updated.(deadline := r.now + (limits.timeLimit - elapsed)), kicked)
  }

  // ----- steps -----

  datatype Step =
    | Join(id: u32, stream: Stream, inbox: seq<ClientMessage>, others: seq<u32>)
    | Refuse(newcomer: Stream)
    | TakeRequest
    | TakeClose
    | Configure(limits: Limits, kicked: set<u32>)
    | Elapse
    | TimeUp
    | RaiseShutdown
    | HeedShutdown
    | Emptied
    | EmitSeal
    | ClosesDrained
    | RequestsDrained
    | Sweep(late: Stream)
    | EmitClose
    | PlayerActs(player: u32, act: Act)

  /** A message, a drop or a close of that player is queued. */
  predicate Named(r: Room, id: u32) {
    (exists q :: q in r.requests && q.player == id && !q.cmd.SealRoom?) || (exists c :: c in r.closes && c.player == id)
  }

  /**
   An id the room may give out: in range and unused, also by what has outlived its player. That is no more
   than what every invariant needs; see RoomIds.IdIsSafeExactly.
   */
  predicate Fresh(r: Room, id: u32) {
    2 <= id < 0x7FFF_FFFF && id !in r.tasks && id !in r.zombies && !Named(r, id)
  }

  predicate IsListing(ids: seq<u32>, s: set<u32>) {
    && (forall i, j :: 0 <= i < j < |ids| ==> ids[i] != ids[j])
    && (forall i :: 0 <= i < |ids| ==> ids[i] in s)
    && (forall id :: id in s ==> id in ids)
  }

  /** The ranges VariableConfig::validate enforces on what a room reads. */
  predicate ValidLimits(limits: Limits) {
    1 <= limits.maxPlayers <= 100 && 5 <= limits.quota <= 100 && limits.timeLimit >= 1
  }

  predicate AllReturned(r: Room) {
    forall id :: id in r.tasks ==> r.tasks[id].phase.Done?
  }

  predicate Can(r: Room, step: Step) {
    match step
    case Join(id, _, _, others) =>
      && r.mode.Serving? && |r.tasks| < r.limits.maxPlayers && Fresh(r, id)
      && IsListing(others, NotifyAll(r, PlayerJoined(id)).tasks.Keys)
    case Refuse(_) => r.mode.Serving? && |r.tasks| >= r.limits.maxPlayers
    case TakeRequest => r.requests != [] && (r.mode.Serving? || r.mode.Emptying? || r.mode.DrainingRequests?)
    case TakeClose => r.closes != [] && (r.mode.Serving? || r.mode.Emptying? || r.mode.DrainingCloses?)
    case Configure(limits, kicked) =>
      && r.mode.Serving? && ValidLimits(limits) && kicked <= r.tasks.Keys - {HOST_ID}
      && (|kicked| == Excess(r, limits) || (|kicked| < Excess(r, limits) && kicked == r.tasks.Keys - {HOST_ID}))
    case Elapse => r.mode.Serving? ==> r.now < r.deadline
    case TimeUp => r.mode.Serving? && r.now >= r.deadline
    case RaiseShutdown => true
    case HeedShutdown => r.mode.Serving? && r.shutdown
    case Emptied => r.mode.Emptying? && r.tasks == map[]
    case EmitSeal => r.mode.Broken?
    case ClosesDrained => r.mode.DrainingCloses? && r.closes == [] && AllReturned(r)
    case RequestsDrained => r.mode.DrainingRequests? && r.requests == [] && AllReturned(r)
    case Sweep(_) => r.mode.Sweeping?
    case EmitClose => r.mode.Sweeping?
    case PlayerActs(id, act) =>
      id in r.tasks && CanAct(r.tasks[id], act, |r.requests| < QUEUE_SIZE, |r.closes| < QUEUE_SIZE, r.shutdown)
  }

  function AfterPlayerAct(capacity: nat, r: Room, id: u32, act: Act): Room
    requires id in r.tasks
  {
    var p := r.tasks[id];
    r.(tasks := r.tasks[id := AfterAct(capacity, p, act)],
       requests := if act.Submit? && p.phase.Asking? then r.requests + [Request(id, p.phase.cmd)] else r.requests,
       closes := if act.Submit? && p.phase.Closing? then r.closes + [CloseRequest(id, p.stream, p.phase.code)]
                 else r.closes)
  }

  function After(capacity: nat, r: Room, step: Step): Room
    requires Can(r, step)
  {
    match step
    case Join(id, stream, inbox, others) => Connect(r, id, stream, inbox, others)
    case Refuse(stream) => r.(closeTasks := r.closeTasks + [CloseTask(stream, TooManyPlayers)])
    case TakeRequest => HandleRequest(r.(requests := r.requests[1..]), r.requests[0])
    case TakeClose => HandleClose(r.(closes := r.closes[1..]), r.closes[0])
    case Configure(limits, kicked) => Reconfigured(r, limits, kicked)
    case Elapse => r.(now := r.now + 1)
    case TimeUp => BeginClose(r, Failure(Policy), true, None)
    case RaiseShutdown => r.(shutdown := true)
    case HeedShutdown => r.(mode := Broken)
    case Emptied => FinishEmptying(r, r.mode.last)
    case EmitSeal => r.(mode := DrainingCloses, control := r.control + [SealSignal])
    case ClosesDrained => r.(mode := DrainingRequests)
    case RequestsDrained => r.(mode := Sweeping, tasks := map[])
    case Sweep(stream) => r.(closeTasks := r.closeTasks + [CloseTask(stream, RoomIsSealed)])
    case EmitClose => r.(mode := Finished, control := r.control + [CloseSignal])
    case PlayerActs(id, act) => AfterPlayerAct(capacity, r, id, act)
  }

  // ----- runs -----

  function Empty(code: RoomCode, limits: Limits, now: nat): Room {
    Room(Serving, code, map[], [], [], [], [], limits, now, now, now + limits.timeLimit, [], false,
         {}, [], limits.quota, false)
  }

  /** A room that has just taken in its host. */
  function Start(code: RoomCode, hostStream: Stream, inbox: seq<ClientMessage>, limits: Limits, now: nat): Room {
    Connect(Empty(code, limits, now), HOST_ID, hostStream, inbox, [])
  }

  /** The same, if the shutdown signal was sent after the room had subscribed to it and before its host did. */
  function StartSignalled(code: RoomCode, hostStream: Stream, inbox: seq<ClientMessage>, limits: Limits,
                          now: nat): Room
  {
    Connect(Empty(code, limits, now).(shutdown := true), HOST_ID, hostStream, inbox, [])
  }

  ghost predicate IsRun(capacity: nat, r: Room, steps: seq<Step>)
    decreases |steps|
  {
    steps == [] || (Can(r, steps[0]) && IsRun(capacity, After(capacity, r, steps[0]), steps[1..]))
  }

  ghost function Final(capacity: nat, r: Room, steps: seq<Step>): Room
    requires IsRun(capacity, r, steps)
    decreases |steps|
  {
    if steps == [] then r else Final(capacity, After(capacity, r, steps[0]), steps[1..])
  }

  lemma RunStep(capacity: nat, r: Room, step: Step, rest: seq<Step>)
    requires Can(r, step) && IsRun(capacity, After(capacity, r, step), rest)
    ensures IsRun(capacity, r, [step] + rest)
    ensures Final(capacity, r, [step] + rest) == Final(capacity, After(capacity, r, step), rest)
  {
  }

  lemma {:induction false} JoinedIsRun(capacity: nat, r: Room, steps: seq<Step>, rest: seq<Step>)
    requires IsRun(capacity, r, steps) && IsRun(capacity, Final(capacity, r, steps), rest)
    ensures IsRun(capacity, r, steps + rest)
    decreases |steps|
  {
    if steps == [] {
      assert steps + rest == rest;
    } else {
      assert (steps + rest)[1..] == steps[1..] + rest;
      JoinedIsRun(capacity, After(capacity, r, steps[0]), steps[1..], rest);
    }
  }

  lemma FinalStep(capacity: nat, r: Room, steps: seq<Step>)
    requires IsRun(capacity, r, steps) && steps != []
    ensures Final(capacity, r, steps) == Final(capacity, After(capacity, r, steps[0]), steps[1..])
  {
  }

  lemma {:induction false} RunOn(capacity: nat, r: Room, steps: seq<Step>, rest: seq<Step>)
    requires IsRun(capacity, r, steps) && IsRun(capacity, Final(capacity, r, steps), rest)
    ensures IsRun(capacity, r, steps + rest)
    ensures Final(capacity, r, steps + rest) == Final(capacity, Final(capacity, r, steps), rest)
    decreases |steps|
  {
    JoinedIsRun(capacity, r, steps, rest);
    if steps == [] {
      assert steps + rest == rest;
    } else {
      RunOn(capacity, After(capacity, r, steps[0]), steps[1..], rest);
      FinalStep(capacity, r, steps);
      FinalStep(capacity, r, steps + rest);
      assert (steps + rest)[1..] == steps[1..] + rest;
    }
  }

  lemma {:induction false} ExtendRun(capacity: nat, r: Room, steps: seq<Step>, step: Step)
    requires IsRun(capacity, r, steps) && Can(Final(capacity, r, steps), step)
    ensures IsRun(capacity, r, steps + [step])
    ensures Final(capacity, r, steps + [step]) == After(capacity, Final(capacity, r, steps), step)
    decreases |steps|
  {
    if steps == [] {
      assert (steps + [step])[1..] == [];
    } else {
      assert (steps + [step])[1..] == steps[1..] + [step];
      ExtendRun(capacity, After(capacity, r, steps[0]), steps[1..], step);
    }
  }
}
