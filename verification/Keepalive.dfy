/**
 The keepalive of a player task (src/player/in_room.rs): a ping now and then, each to be answered by
 exactly one pong, and a timeout that every pong puts off. It is stricter than sections 5.5.2 and
 5.5.3 of RFC 6455, which let a client answer several pings with one pong or send one unasked.

 Time is discrete and handling takes none. The result: a client that answers every ping once, in
 strictly less than the response limit minus the ping interval, survives every sequence of valid
 configs; and the bound is exact, for one tick more can be fatal.
 */
module Keepalive {

  /** The timers and the pong count of a task. */
  datatype Clock = Clock(
    pingInterval: nat,
    responseLimit: nat,
    pingDue: nat,      // the next tick of ping_interval
    timeoutDue: nat,   // the next tick of timeout_interval
    expected: nat)     // num_expected_pongs

  /** What VariableConfig::validate guarantees about the two durations. */
  predicate ValidTimes(pingInterval: nat, responseLimit: nat) {
    1 <= pingInterval <= 60 && 5 <= responseLimit <= 120 && pingInterval < responseLimit
  }

  /** Both intervals are made anew; the first tick of the timeout is skipped, that of the ping is not. */
  function Restarted(now: nat, pingInterval: nat, responseLimit: nat, expected: nat): Clock {
    Clock(pingInterval, responseLimit, now, now + responseLimit, expected)
  }

  function Pinged(c: Clock): Clock {
    c.(pingDue := c.pingDue + c.pingInterval, expected := c.expected + 1)
  }

  function Ponged(c: Clock, now: nat): Clock
    requires c.expected > 0
  {
    c.(expected := c.expected - 1, timeoutDue := now + c.responseLimit)
  }

  /** The same, as the task does it: in place, on three variables of its loop. */
  class Heartbeat {
    var pingInterval: nat
    var responseLimit: nat
    var pingDue: nat
    var timeoutDue: nat
    var numExpectedPongs: nat

    ghost function Model(): Clock
      reads this
    {
      Clock(pingInterval, responseLimit, pingDue, timeoutDue, numExpectedPongs)
    }

    constructor (now: nat, pingInterval: nat, responseLimit: nat)
      ensures Model() == Restarted(now, pingInterval, responseLimit, 0)
    {
      this.pingInterval, this.responseLimit := pingInterval, responseLimit;
      pingDue, timeoutDue := now, now + responseLimit;
      numExpectedPongs := 0;
    }

    method OnPingTick()
      modifies this
      ensures Model() == Pinged(old(Model()))
    {
      numExpectedPongs := numExpectedPongs + 1;
      pingDue := pingDue + pingInterval;
    }

    /** False if the pong was unexpected, which closes the connection. */
    method OnPong(now: nat) returns (expected: bool)
      modifies this
      ensures expected <==> old(numExpectedPongs) > 0
      ensures Model() == if expected then Ponged(old(Model()), now) else old(Model())
    {
      expected := numExpectedPongs > 0;
      if expected {
        numExpectedPongs := numExpectedPongs - 1;
        timeoutDue := now + responseLimit;
      }
    }

    method OnConfig(now: nat, newPingInterval: nat, newResponseLimit: nat)
      modifies this
      ensures Model() == Restarted(now, newPingInterval, newResponseLimit, old(numExpectedPongs))
    {
      pingInterval, responseLimit := newPingInterval, newResponseLimit;
      pingDue, timeoutDue := now, now + newResponseLimit;
    }
  }

  // ----- the task together with its client -----

  datatype Verdict = Alive | TimedOut | UnexpectedPong

  datatype Session = Session(
    now: nat,
    clock: Clock,
    owed: seq<nat>,    // for every unanswered ping, the time before which it will be answered
    sent: nat,
    answered: nat,
    verdict: Verdict)

  datatype Step =
    | Tick
    | SendPing
    | Answer(which: nat)
    | ChangeConfig(pingInterval: nat, responseLimit: nat)
    | Expire

  /** The promise of a client that may be `late` ticks later than it should. */
  function Promise(s: Session, late: nat): nat
    requires s.clock.pingInterval <= s.clock.responseLimit
  {
    s.now + (s.clock.responseLimit - s.clock.pingInterval) + late
  }

  predicate Can(s: Session, step: Step) {
    && s.verdict.Alive? && s.clock.pingInterval <= s.clock.responseLimit
    && match step
       case Tick =>
         && s.now < s.clock.pingDue && s.now < s.clock.timeoutDue
         && forall i :: 0 <= i < |s.owed| ==> s.now + 1 < s.owed[i]
       case SendPing => s.now >= s.clock.pingDue
       case Answer(which) => which < |s.owed|
       case ChangeConfig(pingInterval, responseLimit) => ValidTimes(pingInterval, responseLimit)
       case Expire => s.now >= s.clock.timeoutDue
  }

  function After(late: nat, s: Session, step: Step): Session
    requires Can(s, step)
  {
    match step
    case Tick => s.(now := s.now + 1)
    case SendPing => s.(clock := Pinged(s.clock), owed := s.owed + [Promise(s, late)], sent := s.sent + 1)
    case Answer(which) =>
      var owed := s.owed[..which] + s.owed[which + 1..];
      if s.clock.expected > 0 then s.(owed := owed, clock := Ponged(s.clock, s.now), answered := s.answered + 1)
      else s.(owed := owed, verdict := UnexpectedPong)
    case ChangeConfig(pingInterval, responseLimit) =>
      s.(clock := Restarted(s.now, pingInterval, responseLimit, s.clock.expected))
    case Expire => s.(verdict := TimedOut)
  }

  function Start(now: nat, pingInterval: nat, responseLimit: nat): Session {
    Session(now, Restarted(now, pingInterval, responseLimit, 0), [], 0, 0, Alive)
  }

  ghost predicate IsRun(late: nat, s: Session, steps: seq<Step>)
    decreases |steps|
  {
    steps == [] || (Can(s, steps[0]) && IsRun(late, After(late, s, steps[0]), steps[1..]))
  }

  ghost function Final(late: nat, s: Session, steps: seq<Step>): Session
    requires IsRun(late, s, steps)
    decreases |steps|
  {
    if steps == [] then s else Final(late, After(late, s, steps[0]), steps[1..])
  }

  /** Some ping will be answered, or sent and answered, before the timeout. */
  predicate Relief(s: Session) {
    || (exists i :: 0 <= i < |s.owed| && s.owed[i] <= s.clock.timeoutDue)
    || s.clock.pingDue + s.clock.responseLimit <= s.clock.timeoutDue + s.clock.pingInterval
  }

  predicate Healthy(s: Session) {
    && s.verdict.Alive? && ValidTimes(s.clock.pingInterval, s.clock.responseLimit)
    && s.clock.expected == |s.owed| == s.sent - s.answered
    && s.now < s.clock.timeoutDue && s.now <= s.clock.pingDue <= s.now + s.clock.pingInterval
    && (forall i :: 0 <= i < |s.owed| ==> s.now < s.owed[i])
    && Relief(s)
  }

  lemma StepKeepsHealthy(s: Session, step: Step)
    requires Healthy(s) && Can(s, step)
    ensures Healthy(After(0, s, step))
  {
    var t := After(0, s, step);
    if step.SendPing? {
      assert t.owed[|s.owed|] == Promise(s, 0);
      if i :| 0 <= i < |s.owed| && s.owed[i] <= s.clock.timeoutDue {
        assert t.owed[i] == s.owed[i];
      }
    }
  }

  /**
   A prompt client is never timed out and never closed for an unexpected pong, over every run and every
   sequence of valid configs; the pongs expected are always the pings sent minus the pongs accepted.
   */
  lemma {:induction false} PromptClientsSurvive(s: Session, steps: seq<Step>)
    requires Healthy(s) && IsRun(0, s, steps)
    ensures Final(0, s, steps).verdict.Alive?
    ensures Final(0, s, steps).clock.expected == Final(0, s, steps).sent - Final(0, s, steps).answered
    decreases |steps|
  {
    if steps == [] {
    } else {
      StepKeepsHealthy(s, steps[0]);
      PromptClientsSurvive(After(0, s, steps[0]), steps[1..]);
    }
  }

  /** It is not held up either: time passes, or a ping is due, or an answer is. */
  lemma TimeGoesOn(s: Session)
    requires Healthy(s)
    ensures Can(s, Tick) || Can(s, SendPing) || exists i: nat :: Can(s, Answer(i)) && s.owed[i] == s.now + 1
  {
  }

  lemma RunStep(late: nat, s: Session, step: Step, rest: seq<Step>)
    requires Can(s, step) && IsRun(late, After(late, s, step), rest)
    ensures IsRun(late, s, [step] + rest) && Final(late, s, [step] + rest) == Final(late, After(late, s, step), rest)
  {
  }

  /** The config never changes. */
  predicate Steady(steps: seq<Step>) {
    forall i :: 0 <= i < |steps| ==> !steps[i].ChangeConfig?
  }

  /** Nothing happens until a given time, at which nothing is overdue. */
  lemma {:induction false} WaitFor(late: nat, s: Session, until: nat, rest: seq<Step>) returns (steps: seq<Step>)
    requires s.verdict.Alive? && s.clock.pingInterval <= s.clock.responseLimit && s.now <= until
    requires until <= s.clock.pingDue && until <= s.clock.timeoutDue
    requires forall i :: 0 <= i < |s.owed| ==> until < s.owed[i]
    requires IsRun(late, s.(now := until), rest)
    ensures IsRun(late, s, steps) && Final(late, s, steps) == Final(late, s.(now := until), rest)
    ensures Steady(rest) ==> Steady(steps)
    decreases until - s.now
  {
    if s.now == until {
      steps := rest;
    } else {
      var tail := WaitFor(late, After(late, s, Tick), until, rest);
      RunStep(late, s, Tick, tail);
      steps := [Tick] + tail;
    }
  }

  /** No answer is promised before the timeout, and none will be to the next ping. */
  predicate Doomed(s: Session) {
    && s.verdict.Alive? && ValidTimes(s.clock.pingInterval, s.clock.responseLimit)
    && s.now <= s.clock.pingDue && s.now <= s.clock.timeoutDue
    && s.clock.timeoutDue + s.clock.pingInterval <= s.clock.pingDue + s.clock.responseLimit
    && forall i :: 0 <= i < |s.owed| ==> s.clock.timeoutDue < s.owed[i]
  }

  /** However many pings are still due, the client answers none of them, and the timeout strikes. */
  lemma {:induction false} DoomedTimesOut(late: nat, s: Session) returns (steps: seq<Step>)
    requires late > 0 && Doomed(s)
    ensures IsRun(late, s, steps) && Steady(steps) && Final(late, s, steps).verdict.TimedOut?
    decreases if s.clock.pingDue < s.clock.timeoutDue then s.clock.timeoutDue - s.clock.pingDue else 0
  {
    if s.clock.timeoutDue <= s.clock.pingDue {
      var last := s.(now := s.clock.timeoutDue);
      RunStep(late, last, Expire, []);
      steps := WaitFor(late, s, s.clock.timeoutDue, [Expire] + []);
    } else {
      var due := s.(now := s.clock.pingDue);
      var rest := DoomedTimesOut(late, After(late, due, SendPing));
      RunStep(late, due, SendPing, rest);
      steps := WaitFor(late, s, s.clock.pingDue, [SendPing] + rest);
    }
  }

  /** One tick too late: a client that answers the first ping at once and all others late is timed out. */
  lemma LateClientMayDie(late: nat, now: nat, pingInterval: nat, responseLimit: nat) returns (steps: seq<Step>)
    requires late > 0 && ValidTimes(pingInterval, responseLimit)
    ensures IsRun(late, Start(now, pingInterval, responseLimit), steps) && Steady(steps)
    ensures Final(late, Start(now, pingInterval, responseLimit), steps).verdict.TimedOut?
  {
    var s0 := Start(now, pingInterval, responseLimit);
    var s1 := After(late, s0, SendPing);
    var s2 := After(late, s1, Answer(0));
    assert s2.owed == [] && s2.clock.pingDue == now + pingInterval && s2.clock.timeoutDue == now + responseLimit;
    var rest := DoomedTimesOut(late, s2);
    RunStep(late, s1, Answer(0), rest);
    RunStep(late, s0, SendPing, [Answer(0)] + rest);
    steps := [SendPing] + ([Answer(0)] + rest);
  }

  /**
   The bound is exact for every valid config: being never late is what it takes to survive every run, and
   it takes no less when the config never changes.
   */
  lemma {:induction false} PromptnessIsExact(late: nat, now: nat, pingInterval: nat, responseLimit: nat)
    requires ValidTimes(pingInterval, responseLimit)
    ensures late == 0 <==> forall steps :: IsRun(late, Start(now, pingInterval, responseLimit), steps) ==>
                             Final(late, Start(now, pingInterval, responseLimit), steps).verdict.Alive?
    ensures late == 0 <==> forall steps ::
                             IsRun(late, Start(now, pingInterval, responseLimit), steps) && Steady(steps) ==>
                             Final(late, Start(now, pingInterval, responseLimit), steps).verdict.Alive?
  {
    var s := Start(now, pingInterval, responseLimit);
    if late == 0 {
      forall steps | IsRun(0, s, steps) ensures Final(0, s, steps).verdict.Alive? {
        PromptClientsSurvive(s, steps);
      }
    } else {
      var steps := LateClientMayDie(late, now, pingInterval, responseLimit);
      assert IsRun(late, s, steps) && Steady(steps);
    }
  }

  // ----- when pings and the timeout fall due -----

  /** A new session pings before anything else, and so does every session whose config has just changed. */
  lemma PingsAtOnce(s: Session, pingInterval: nat, responseLimit: nat, now: nat)
    requires ValidTimes(pingInterval, responseLimit)
    ensures var begun := Start(now, pingInterval, responseLimit); Can(begun, SendPing) && !Can(begun, Tick)
    ensures Can(s, ChangeConfig(pingInterval, responseLimit)) ==>
              var changed := After(0, s, ChangeConfig(pingInterval, responseLimit));
              Can(changed, SendPing) && !Can(changed, Tick)
  {
  }

  /** A step other than a config change: each ping puts the next off by just one interval, and no ping is missed. */
  lemma StepKeepsBeat(late: nat, s: Session, step: Step)
    requires Can(s, step) && !step.ChangeConfig? && s.now <= s.clock.pingDue
    ensures var t := After(late, s, step);
            && t.clock.pingInterval == s.clock.pingInterval && t.clock.responseLimit == s.clock.responseLimit
            && t.sent == s.sent + (if step.SendPing? then 1 else 0)
            && t.clock.pingDue == s.clock.pingDue + (if step.SendPing? then s.clock.pingInterval else 0)
            && t.now <= t.clock.pingDue
  {
  }

  lemma {:induction false} PingsKeepTime(late: nat, s: Session, steps: seq<Step>)
    requires IsRun(late, s, steps) && Steady(steps) && s.now <= s.clock.pingDue
    ensures var last := Final(late, s, steps);
            && last.clock.pingInterval == s.clock.pingInterval && last.clock.responseLimit == s.clock.responseLimit
            && last.sent >= s.sent && last.now <= last.clock.pingDue
            && last.clock.pingDue == s.clock.pingDue + (last.sent - s.sent) * s.clock.pingInterval
    decreases |steps|
  {
    if steps == [] {
    } else {
      var next := After(late, s, steps[0]);
      assert !steps[0].ChangeConfig? && forall i :: 0 <= i < |steps[1..]| ==> steps[1..][i] == steps[i + 1];
      StepKeepsBeat(late, s, steps[0]);
      PingsKeepTime(late, next, steps[1..]);
      var more := Final(late, s, steps).sent - next.sent;
      assert (more + 1) * s.clock.pingInterval == more * s.clock.pingInterval + s.clock.pingInterval;
    }
  }

  /**
   Until the config changes the k-th ping, counted from zero, is sent exactly k intervals after the session
   began, however late the client answers. The same goes for the pings after a config change.
   */
  lemma {:induction false} PingsAreOnTime(late: nat, s: Session, steps: seq<Step>)
    requires IsRun(late, s, steps) && Steady(steps) && s.now == s.clock.pingDue
    ensures var last := Final(late, s, steps);
            Can(last, SendPing) ==> last.now == s.now + (last.sent - s.sent) * s.clock.pingInterval
  {
    PingsKeepTime(late, s, steps);
  }

  /** When the timeout was last put off: by a config change, or by a pong that was expected. */
  function PutOffAt(late: nat, s: Session, steps: seq<Step>, since: nat): nat
    requires IsRun(late, s, steps)
    decreases |steps|
  {
    if steps == [] then since
    else
      var accepted := steps[0].Answer? && s.clock.expected > 0;
      PutOffAt(late, After(late, s, steps[0]), steps[1..],
               if accepted || steps[0].ChangeConfig? then s.now else since)
  }

  /** The timeout strikes exactly a response limit after that, on every run, whatever the client does. */
  lemma {:induction false} TimeoutIsExact(late: nat, s: Session, steps: seq<Step>, since: nat)
    requires IsRun(late, s, steps) && s.clock.timeoutDue == since + s.clock.responseLimit && s.now <= s.clock.timeoutDue
    requires s.clock.pingInterval <= s.clock.responseLimit
    ensures var last, at := Final(late, s, steps), PutOffAt(late, s, steps, since);
            && last.clock.timeoutDue == at + last.clock.responseLimit && last.now <= last.clock.timeoutDue
            && (last.verdict.Alive? ==> (Can(last, Expire) <==> last.now == at + last.clock.responseLimit))
    decreases |steps|
  {
    if steps == [] {
    } else {
      var next := After(late, s, steps[0]);
      var accepted := steps[0].Answer? && s.clock.expected > 0;
      var at := if accepted || steps[0].ChangeConfig? then s.now else since;
      assert next.clock.timeoutDue == at + next.clock.responseLimit;
      TimeoutIsExact(late, next, steps[1..], at);
    }
  }

  /** A new session from its first tick on: its pings, until the config changes, and its timeout, for ever. */
  lemma {:induction false} SessionKeepsTime(late: nat, now: nat, pingInterval: nat, responseLimit: nat,
                                            steps: seq<Step>)
    requires ValidTimes(pingInterval, responseLimit) && IsRun(late, Start(now, pingInterval, responseLimit), steps)
    ensures var begun := Start(now, pingInterval, responseLimit);
            var last := Final(late, begun, steps);
            && (Steady(steps) && Can(last, SendPing) ==> last.now == now + last.sent * pingInterval)
            && (last.verdict.Alive? ==>
                  (Can(last, Expire) <==> last.now == PutOffAt(late, begun, steps, now) + last.clock.responseLimit))
  {
    var begun := Start(now, pingInterval, responseLimit);
    if Steady(steps) {
      PingsAreOnTime(late, begun, steps);
    }
    TimeoutIsExact(late, begun, steps, now);
  }

  /** And a session whose config has just changed, with pings of the new interval and a new limit at once. */
  lemma {:induction false} ChangedKeepsTime(late: nat, s: Session, pingInterval: nat, responseLimit: nat,
                                            steps: seq<Step>)
    requires Can(s, ChangeConfig(pingInterval, responseLimit))
    requires IsRun(late, After(late, s, ChangeConfig(pingInterval, responseLimit)), steps)
    ensures var changed := After(late, s, ChangeConfig(pingInterval, responseLimit));
            var last := Final(late, changed, steps);
            && (Steady(steps) && Can(last, SendPing) ==> last.now == s.now + (last.sent - s.sent) * pingInterval)
            && (Steady(steps) ==> last.clock.responseLimit == responseLimit)
            && (last.verdict.Alive? ==>
                  (Can(last, Expire) <==> last.now == PutOffAt(late, changed, steps, s.now) + last.clock.responseLimit))
  {
    var changed := After(late, s, ChangeConfig(pingInterval, responseLimit));
    if Steady(steps) {
      PingsKeepTime(late, changed, steps);
      PingsAreOnTime(late, changed, steps);
    }
    TimeoutIsExact(late, changed, steps, s.now);
  }
}
