/**
 The player task in its own form (src/player/in_room.rs): the greeting and the branches of its select,
 over the variables they update. Each is proved to be the act of module Players it stands for, and to
 move the timers as the clock of module Keepalive says.
 */
module PlayerTask {
  import opened Common
  import opened RoomCodes
  import opened TextProtocol
  import opened NotificationRing
  import opened Players
  import opened Keepalive

  lemma InOrder(id: u32, others: seq<u32>, code: RoomCode)
    ensures var script := Script(id, others, code);
            && |script| == |others| + 2 && script[0] == Welcome(id) && script[|others| + 1] == RoomIs(code)
            && script[..1] == [Welcome(id)] && script == script[..|others| + 1] + [RoomIs(code)]
            && forall i :: 0 <= i < |others| ==> script[i + 1] == Newcomer(others[i])
  {
  }

  /** A greeting as acts: some writes that work, and one more that works or fails. */
  function GreetActs(successes: nat, ok: bool): seq<Event> {
    if successes == 0 then [Did(Act.Greet(ok), true, true, false)]
    else [Did(Act.Greet(true), true, true, false)] + GreetActs(successes - 1, ok)
  }

  /** The two ways PlayerTask.Greet can end are a life of so many acts: all of them work, or the last fails. */
  lemma {:induction false} GreetingIsItsActs(capacity: nat, p: Player, n: nat, ok: bool)
    requires p.phase.Greeting? && |p.wire| + n < |Greetings(p)| && p.wire == Greetings(p)[..|p.wire|]
    requires ok ==> |p.wire| + n + 1 == |Greetings(p)|
    ensures Life(capacity, p, GreetActs(n, ok))
    ensures Outcome(capacity, p, GreetActs(n, ok))
         == if ok then p.(wire := Greetings(p), phase := Running)
            else p.(wire := Greetings(p)[..|p.wire| + n], phase := Asking(DropConnection))
    decreases n
  {
    var first := GreetActs(n, ok)[0];
    var q := AfterEvent(capacity, p, first);
    if n == 0 {
      assert ok ==> p.wire + [Greetings(p)[|p.wire|]] == Greetings(p);
      assert Outcome(capacity, q, []) == q;
    } else {
      assert q == p.(wire := Greetings(p)[..|p.wire| + 1]) && Greetings(q) == Greetings(p);
      assert GreetActs(n, ok)[1..] == GreetActs(n - 1, ok);
      GreetingIsItsActs(capacity, q, n - 1, ok);
    }
  }

  lemma {:induction false} LifeGoesOn(capacity: nat, p: Player, events: seq<Event>, e: Event)
    requires Life(capacity, p, events) && CanHappen(Outcome(capacity, p, events), e)
    ensures Life(capacity, p, events + [e])
    ensures Outcome(capacity, p, events + [e]) == AfterEvent(capacity, Outcome(capacity, p, events), e)
    decreases |events|
  {
    if events == [] {
      assert (events + [e])[1..] == [];
    } else {
      assert (events + [e])[1..] == events[1..] + [e];
      LifeGoesOn(capacity, AfterEvent(capacity, p, events[0]), events[1..], e);
    }
  }

  /** What the select of the task can be woken by, and what the room and the queues do meanwhile. */
  datatype Branch =
    | FromClient(now: nat)
    | FromRoom(ok: bool)
    | PingTick(now: nat, ok: bool)
    | TimeoutTick(now: nat)
    | ConfigChange(now: nat, pingInterval: nat, responseLimit: nat)
    | ShutdownSignal
    | QueueTakes
    | TaskReturns
    | RoomSends(n: Notification)

  /** The event a branch is; queues have a place and the signal is raised when that is what it waits for. */
  function EventOf(branch: Branch): Event {
    match branch
    case FromClient(_) => Did(ReadClient, true, true, true)
    case FromRoom(ok) => Did(TakeNotice(ok), true, true, true)
    case PingTick(_, ok) => Did(Act.SendPing(ok), true, true, true)
    case TimeoutTick(_) => Did(TimeOut, true, true, true)
    case ConfigChange(_, _, _) => Did(Reconfigure, true, true, true)
    case ShutdownSignal => Did(Abandon, true, true, true)
    case QueueTakes => Did(Submit, true, true, true)
    case TaskReturns => Did(Return, true, true, true)
    case RoomSends(n) => Told(n)
  }

  /** The intervals tick when they are due, and not before. */
  predicate Due(c: Clock, branch: Branch) {
    match branch
    case PingTick(now, _) => now >= c.pingDue
    case TimeoutTick(now) => now >= c.timeoutDue
    case _ => true
  }

  /** What a branch makes of the clock, given what the client says next. */
  function ClockAfter(c: Clock, branch: Branch, inbox: seq<ClientMessage>): Clock {
    match branch
    case FromClient(now) => if inbox != [] && inbox[0].Pong? && c.expected > 0 then Ponged(c, now) else c
    case PingTick(_, ok) => if ok then Pinged(c) else c
    case ConfigChange(now, pingInterval, responseLimit) => Restarted(now, pingInterval, responseLimit, c.expected)
    case _ => c
  }

  /**
   The task's clock is that of its session with a client: its branches are the steps of the session. So while
   it serves a prompt client, whose session is healthy, the timeout branch is never due.
   */
  lemma BranchesAreSessionSteps(s: Session, which: nat, pingInterval: nat, responseLimit: nat)
    requires Healthy(s)
    ensures !Due(s.clock, TimeoutTick(s.now))
    ensures Due(s.clock, PingTick(s.now, true)) <==> Keepalive.Can(s, Keepalive.Step.SendPing)
    ensures Keepalive.Can(s, Keepalive.Step.SendPing) ==>
              ClockAfter(s.clock, PingTick(s.now, true), []) == Keepalive.After(0, s, Keepalive.Step.SendPing).clock
    ensures Keepalive.Can(s, Keepalive.Step.Answer(which)) ==>
              ClockAfter(s.clock, FromClient(s.now), [Pong])
              == Keepalive.After(0, s, Keepalive.Step.Answer(which)).clock
    ensures ValidTimes(pingInterval, responseLimit) ==>
              ClockAfter(s.clock, ConfigChange(s.now, pingInterval, responseLimit), [])
              == Keepalive.After(0, s, ChangeConfig(pingInterval, responseLimit)).clock
  {
  }

  // ----- against a prompt client -----

  /** Time passes, or the task is woken; if it then reads a pong, that answers one of the pings. */
  datatype Beat = Pass | Wake(branch: Branch, which: nat)

  predicate Taken(p: Player, c: Clock, branch: Branch) {
    CanHappen(p, EventOf(branch)) && Due(c, branch)
  }

  predicate OnTime(now: nat, branch: Branch) {
    match branch
    case FromClient(t) => t == now
    case PingTick(t, _) => t == now
    case TimeoutTick(t) => t == now
    case ConfigChange(t, pingInterval, responseLimit) => t == now && ValidTimes(pingInterval, responseLimit)
    case _ => true
  }

  /** The step of the session a beat is, if it is one. */
  function SessionStep(p: Player, c: Clock, beat: Beat): Option<Keepalive.Step> {
    match beat
    case Pass => Some(Tick)
    case Wake(branch, which) =>
      if !Taken(p, c, branch) then None
      else
        match branch
        case FromClient(_) => if p.inbox[0].Pong? && c.expected > 0 then Some(Keepalive.Step.Answer(which)) else None
        case PingTick(_, ok) => if ok then Some(Keepalive.Step.SendPing) else None
        case ConfigChange(_, pingInterval, responseLimit) => Some(ChangeConfig(pingInterval, responseLimit))
        case _ => None
  }

  function SessionNext(p: Player, s: Session, beat: Beat): Session {
    var step := SessionStep(p, s.clock, beat);
    if step.Some? && Keepalive.Can(s, step.value) then Keepalive.After(0, s, step.value) else s
  }

  function PlayerNext(capacity: nat, p: Player, c: Clock, beat: Beat): Player {
    if beat.Wake? && Taken(p, c, beat.branch) then AfterEvent(capacity, p, EventOf(beat.branch)) else p
  }

  /** The beat suits the session: no time passes while a ping is due or an answer is, and configs are valid. */
  predicate KeepsPromise(p: Player, s: Session, beat: Beat) {
    var step := SessionStep(p, s.clock, beat);
    (beat.Wake? ==> OnTime(s.now, beat.branch)) && (step.Some? ==> Keepalive.Can(s, step.value))
  }

  /** So do all beats: the client is prompt. */
  ghost predicate Prompt(capacity: nat, p: Player, s: Session, beats: seq<Beat>)
    decreases |beats|
  {
    beats == []
    || (KeepsPromise(p, s, beats[0])
        && Prompt(capacity, PlayerNext(capacity, p, s.clock, beats[0]), SessionNext(p, s, beats[0]), beats[1..]))
  }

  /** A beat keeps the session healthy and the task's clock that of the session; it is never the timeout. */
  lemma BeatKeepsPace(p: Player, s: Session, beat: Beat)
    requires Healthy(s) && KeepsPromise(p, s, beat)
    ensures Healthy(SessionNext(p, s, beat))
    ensures beat.Wake? && Taken(p, s.clock, beat.branch) ==>
              !beat.branch.TimeoutTick? && SessionNext(p, s, beat).clock == ClockAfter(s.clock, beat.branch, p.inbox)
    ensures beat.Pass? || !Taken(p, s.clock, beat.branch) ==> SessionNext(p, s, beat).clock == s.clock
  {
    var step := SessionStep(p, s.clock, beat);
    if step.Some? {
      StepKeepsHealthy(s, step.value);
    }
  }

  class PlayerTask {
    const id: u32
    const stream: Stream
    const code: RoomCode
    const others: seq<u32>
    const capacity: nat                // of the notification ring
    const deaf: bool                   // subscribed to the shutdown signal after it was sent
    const heart: Heartbeat             // num_expected_pongs and the two intervals

    var log: seq<Notification>
    var cursor: nat
    var phase: Phase
    var wire: seq<ServerMessage>
    var inbox: seq<ClientMessage>

    ghost var msgSent: map<u32, nat>   // kept by the room
    ghost var since: nat
    ghost var heard: seq<ClientMessage>

    ghost function Model(): Player
      reads this, heart
    {
      Player(id, stream, code, others, log, cursor, phase, wire, inbox, heart.numExpectedPongs, msgSent, since, heard,
             deaf)
    }

    constructor (id: u32, stream: Stream, code: RoomCode, others: seq<u32>, capacity: nat, inbox: seq<ClientMessage>,
                 now: nat, pingInterval: nat, responseLimit: nat, deaf: bool, ghost since: nat)
      ensures fresh(heart) && heart.Model() == Restarted(now, pingInterval, responseLimit, 0)
      ensures Model() == Player(id, stream, code, others, [], 0, Greeting, [], inbox, 0, map[], since, [], deaf)
      ensures this.capacity == capacity
    {
      this.id, this.stream, this.code, this.others := id, stream, code, others;
      this.capacity, this.inbox := capacity, inbox;
      this.deaf := deaf;
      heart := new Heartbeat(now, pingInterval, responseLimit);
      log, cursor, phase, wire := [], 0, Greeting, [];
      msgSent, this.since, heard := map[], since, [];
    }

    /** send_msg while greeting; the task gives up on the first write that fails. */
    method Write(m: ServerMessage, ok: bool) returns (goesOn: bool)
      requires phase.Greeting?
      modifies this`wire, this`phase
      ensures goesOn == ok
      ensures wire == if ok then old(wire) + [m] else old(wire)
      ensures phase == if ok then Greeting else Asking(DropConnection)
    {
      goesOn := ok;
      if ok {
        wire := wire + [m];
      } else {
        phase := Asking(DropConnection);
      }
    }

    /** The middle of the greeting. */
    method Introduce(writes: nat -> bool) returns (failed: Option<nat>)
      requires phase.Greeting? && wire == Script(id, others, code)[..1]
      modifies this`wire, this`phase
      ensures failed.None? ==> phase.Greeting? && wire == Script(id, others, code)[..|others| + 1]
                               && forall i :: 1 <= i <= |others| ==> writes(i)
      ensures failed.Some? ==> phase == Asking(DropConnection) && 1 <= failed.value <= |others|
                               && wire == Script(id, others, code)[..failed.value]
                               && !writes(failed.value) && forall i :: 1 <= i < failed.value ==> writes(i)
    {
      ghost var script := Script(id, others, code);
      InOrder(id, others, code);
      for i := 0 to |others|
        invariant phase.Greeting? && forall j :: 1 <= j <= i ==> writes(j)
        invariant wire == script[..i + 1]
      {
        assert script[..i + 2] == script[..i + 1] + [Newcomer(others[i])];
        var goesOn := Write(Newcomer(others[i]), writes(i + 1));
        if !goesOn {
          return Some(i + 1);
        }
      }
      return None;
    }

    /**
     The client is told its id, the ids of the others, and the room code, in that order. The greeting
     stops at the first write that fails; writes tells which do.
     */
    method Greet(writes: nat -> bool) returns (failed: Option<nat>)
      requires phase.Greeting? && wire == []
      modifies this`wire, this`phase
      ensures failed.None? ==> forall i :: 0 <= i < |others| + 2 ==> writes(i)
      ensures failed.Some? ==>
                failed.value < |others| + 2 && !writes(failed.value) && forall i :: 0 <= i < failed.value ==> writes(i)
      ensures Model() == match failed
                         case None => old(Model()).(wire := Greetings(old(Model())), phase := Running)
                         case Some(k) =>
                           old(Model()).(wire := Greetings(old(Model()))[..k], phase := Asking(DropConnection))
    {
      InOrder(id, others, code);
      var goesOn := Write(Welcome(id), writes(0));
      if !goesOn {
        return Some(0);
      }
      failed := Introduce(writes);
      if failed.None? {
        goesOn := Write(RoomIs(code), writes(|others| + 1));
        if goesOn {
          phase := Running;
        } else {
          failed := Some(|others| + 1);
        }
      }
    }

    /** The branch of the client's stream. */
    method OnClientMessage(now: nat)
      requires phase.Running? && inbox != []
      modifies this`inbox, this`phase, this`heard, heart
      ensures Model() == AfterAct(capacity, old(Model()), ReadClient)
      ensures heart.Model() == if old(inbox[0]).Pong? && old(heart.numExpectedPongs) > 0
                               then Ponged(old(heart.Model()), now)
                               else old(heart.Model())
    {
      var m := inbox[0];
      inbox, heard := inbox[1..], heard + [m];
      match m {
        case TextMessage(text) =>
          match ParseRequest(text) {
            case Ok(Seal) => phase := Asking(SealRoom);
            case Ok(Relay(kind, to, payload)) => phase := Asking(SendTo(kind, to, payload));
            case Ok(_) => phase := Closing(AlreadyInRoom);
            case Err(e) => phase := Closing(CloseCodeFor(e));
          }
        case Binary => phase := Closing(Unsupported);
        case Ping => phase := Closing(Protocol);
        case Pong =>
          var expected := heart.OnPong(now);
          if !expected {
            phase := Closing(Protocol);
          }
        case Failed(Some(closeCode)) => phase := Closing(closeCode);
        case _ => phase := Asking(DropConnection);
      }
    }

    /** The branch of the room's notifications; ok tells whether writing to the client works. */
    method OnNotification(ok: bool)
      requires phase.Running? && cursor < |log|
      modifies this`cursor, this`phase, this`wire
      ensures Model() == AfterAct(capacity, old(Model()), TakeNotice(ok))
    {
      match RecvFromLog(capacity, log, cursor) {
        case Lagged(_) => phase := Closing(InternalError);
        case Nothing =>
        case Got(n) =>
          cursor := cursor + 1;
          match n {
            case HostLeft => phase := Closing(HostDisconnected);
            case RoomSealed => phase := Closing(RoomIsSealed);
            case Failure(closeCode) => phase := Closing(closeCode);
            case _ =>
              if ok {
                wire := wire + Note(n);
              } else {
                phase := Asking(DropConnection);
              }
          }
      }
    }

    method OnPingTick(ok: bool)
      requires phase.Running?
      modifies this`phase, heart
      ensures Model() == AfterAct(capacity, old(Model()), Act.SendPing(ok))
      ensures heart.Model() == if ok then Pinged(old(heart.Model())) else old(heart.Model())
    {
      if ok {
        heart.OnPingTick();
      } else {
        phase := Asking(DropConnection);
      }
    }

    method OnTimeout()
      requires phase.Running?
      modifies this`phase
      ensures Model() == AfterAct(capacity, old(Model()), TimeOut)
    {
      phase := Asking(DropConnection);
    }

    method OnConfig(now: nat, pingInterval: nat, responseLimit: nat)
      requires phase.Running?
      modifies heart
      ensures Model() == AfterAct(capacity, old(Model()), Reconfigure)
      ensures heart.Model() == Restarted(now, pingInterval, responseLimit, old(heart.numExpectedPongs))
    {
      heart.OnConfig(now, pingInterval, responseLimit);
    }

    /** The queue has taken the request; only messages and seals leave the task running. */
    method OnSubmitted()
      requires phase.Asking? || phase.Closing?
      modifies this`phase
      ensures Model() == AfterAct(capacity, old(Model()), Submit)
    {
      phase := if phase.Asking? && !phase.cmd.DropConnection? then Running else Leaving;
    }

    /** The shutdown signal: the task ends without a word to the room. */
    method OnShutdown()
      requires phase.Running?
      modifies this`phase
      ensures Model() == AfterAct(capacity, old(Model()), Abandon)
    {
      phase := Done;
    }

    /** One turn of the loop; a branch that cannot be taken now is not. */
    method TakeBranch(branch: Branch) returns (taken: bool)
      modifies this`inbox, this`phase, this`heard, this`cursor, this`wire, this`log, heart
      ensures taken == (CanHappen(old(Model()), EventOf(branch)) && Due(old(heart.Model()), branch))
      ensures Model() == if taken then AfterEvent(capacity, old(Model()), EventOf(branch)) else old(Model())
      ensures heart.Model() == if taken then ClockAfter(old(heart.Model()), branch, old(inbox)) else old(heart.Model())
    {
      taken := true;
      match branch {
        case RoomSends(n) => log := log + [n];
        case QueueTakes =>
          taken := phase.Asking? || phase.Closing?;
          if taken {
            OnSubmitted();
          }
        case TaskReturns =>
          taken := phase.Leaving?;
          if taken {
            phase := Done;
          }
        case _ => taken := Select(branch);
      }
    }

    /** The select itself, which only a running task comes to. */
    method Select(branch: Branch) returns (taken: bool)
      requires !branch.RoomSends? && !branch.QueueTakes? && !branch.TaskReturns?
      modifies this`inbox, this`phase, this`heard, this`cursor, this`wire, heart
      ensures taken == (CanHappen(old(Model()), EventOf(branch)) && Due(old(heart.Model()), branch))
      ensures Model() == if taken then AfterEvent(capacity, old(Model()), EventOf(branch)) else old(Model())
      ensures heart.Model() == if taken then ClockAfter(old(heart.Model()), branch, old(inbox)) else old(heart.Model())
    {
      taken := phase.Running? && (branch.FromClient? ==> inbox != []) && (branch.FromRoom? ==> cursor < |log|)
               && (branch.ShutdownSignal? ==> !deaf)
               && (branch.PingTick? ==> branch.now >= heart.pingDue)
               && (branch.TimeoutTick? ==> branch.now >= heart.timeoutDue);
      if taken {
        match branch {
          case FromClient(now) => OnClientMessage(now);
          case FromRoom(ok) => OnNotification(ok);
          case PingTick(_, ok) => OnPingTick(ok);
          case TimeoutTick(_) => OnTimeout();
          case ConfigChange(now, pingInterval, responseLimit) => OnConfig(now, pingInterval, responseLimit);
          case ShutdownSignal => OnShutdown();
        }
      }
    }

    /** The loop, whatever its select is woken by: a life of the player. */
    method Serve(branches: seq<Branch>) returns (ghost events: seq<Event>)
      modifies this`inbox, this`phase, this`heard, this`cursor, this`wire, this`log, heart
      ensures Life(capacity, old(Model()), events) && Outcome(capacity, old(Model()), events) == Model()
    {
      ghost var begun := Model();
      events := [];
      for i := 0 to |branches|
        invariant Life(capacity, begun, events) && Outcome(capacity, begun, events) == Model()
      {
        ghost var now := Model();
        var taken := TakeBranch(branches[i]);
        if taken {
          LifeGoesOn(capacity, begun, events, EventOf(branches[i]));
          events := events + [EventOf(branches[i])];
        }
      }
    }

    /**
     The same against a prompt client, with time passing between: the task never takes its timeout branch, and
     its clock stays that of a healthy session.
     */
    method ServePrompt(beats: seq<Beat>, ghost s: Session) returns (ghost events: seq<Event>, ghost last: Session)
      requires Healthy(s) && heart.Model() == s.clock && Prompt(capacity, Model(), s, beats)
      modifies this`inbox, this`phase, this`heard, this`cursor, this`wire, this`log, heart
      ensures Life(capacity, old(Model()), events) && Outcome(capacity, old(Model()), events) == Model()
      ensures forall i :: 0 <= i < |events| && events[i].Did? ==> !events[i].act.TimeOut?
      ensures Healthy(last) && heart.Model() == last.clock
    {
      ghost var begun := Model();
      events, last := [], s;
      for i := 0 to |beats|
        invariant Life(capacity, begun, events) && Outcome(capacity, begun, events) == Model()
        invariant Healthy(last) && heart.Model() == last.clock && Prompt(capacity, Model(), last, beats[i..])
        invariant forall j :: 0 <= j < |events| && events[j].Did? ==> !events[j].act.TimeOut?
      {
        ghost var now := Model();
        BeatKeepsPace(now, last, beats[i]);
        assert beats[i..][1..] == beats[i + 1..];
        last := SessionNext(now, last, beats[i]);
        if beats[i].Wake? {
          var taken := TakeBranch(beats[i].branch);
          if taken {
            LifeGoesOn(capacity, begun, events, EventOf(beats[i].branch));
            events := events + [EventOf(beats[i].branch)];
          }
        }
      }
    }
  }
}
