/**
 Which drains can come to wait for a client. A task that does not hear the shutdown signal serves its client
 until something ends that; whether it can get so far that only the client is left to end it can be told at any
 time of the drain from what the client has said and been told, and from the room in the request queue.
 */
module RoomLingers {
  import opened Common
  import opened Players
  import opened Rooms
  import opened RoomLimits
  import opened RoomRuns
  import opened RoomClosing
  import opened RoomDrains

  /** Nothing the client has said makes its task end. */
  predicate OnlyAsks(inbox: seq<ClientMessage>) {
    forall i :: 0 <= i < |inbox| ==> React(inbox[i]).Ask? || React(inbox[i]).CountPong?
  }

  /** How many requests it makes its task send. */
  function AskCount(inbox: seq<ClientMessage>): nat {
    if inbox == [] then 0 else (if React(inbox[0]).Ask? then 1 else 0) + AskCount(inbox[1..])
  }

  /** The task still serves its client, or will. */
  predicate Serves(p: Player) {
    p.phase.Greeting? || p.phase.Running? || (p.phase.Asking? && p.phase.cmd != DropConnection)
  }

  /** How many requests the task has to send before its client has nothing left to say. */
  function Errands(p: Player): nat {
    AskCount(p.inbox) + if p.phase.Asking? then 1 else 0
  }

  /** Nothing but the client will end the task, given how many requests are queued. */
  predicate OutlastsDrain(capacity: nat, p: Player, queued: nat) {
    && p.deaf && Serves(p) && !LogCloses(capacity, p) && OnlyAsks(p.inbox)
    && queued + Errands(p) <= QUEUE_SIZE
  }

  /** What an act does to the number of queued requests. */
  function QueuedAfter(p: Player, act: Act, queued: nat): nat {
    if act.Submit? && p.phase.Asking? then queued + 1 else queued
  }

  lemma FirstConsumed(p: Player)
    requires p.inbox != [] && OnlyAsks(Consumed(p).inbox) && (React(p.inbox[0]).Ask? || React(p.inbox[0]).CountPong?)
    ensures OnlyAsks(p.inbox)
  {
    forall i | 0 <= i < |p.inbox| ensures React(p.inbox[i]).Ask? || React(p.inbox[i]).CountPong? {
      if i > 0 {
        assert p.inbox[i] == p.inbox[1..][i - 1];
      }
    }
  }

  lemma ReadBackwards(capacity: nat, p: Player, queued: nat)
    requires p.phase.Running? && p.inbox != []
    requires OutlastsDrain(capacity, AfterAct(capacity, p, ReadClient), queued)
    ensures OutlastsDrain(capacity, p, queued)
  {
    FirstConsumed(p);
  }

  lemma NoticeBackwards(capacity: nat, p: Player, ok: bool, queued: nat)
    requires p.phase.Running? && p.cursor < |p.log|
    requires OutlastsDrain(capacity, AfterAct(capacity, p, TakeNotice(ok)), queued)
    ensures OutlastsDrain(capacity, p, queued)
  {
  }

  /** An act makes no task outlast the drain that did not before. */
  lemma ActBackwards(capacity: nat, p: Player, act: Act, requestsOpen: bool, closesOpen: bool, shutdown: bool,
                     queued: nat)
    requires CanAct(p, act, requestsOpen, closesOpen, shutdown)
    requires OutlastsDrain(capacity, AfterAct(capacity, p, act), QueuedAfter(p, act, queued))
    ensures OutlastsDrain(capacity, p, queued)
  {
    match act {
      case ReadClient => ReadBackwards(capacity, p, queued);
      case TakeNotice(ok) => NoticeBackwards(capacity, p, ok, queued);
      case _ =>
    }
  }

  lemma StepBackwards(capacity: nat, r: Room, step: Step, id: u32)
    requires Draining(r) && Can(r, step) && Draining(After(capacity, r, step))
    requires var next := After(capacity, r, step);
             id in next.tasks && OutlastsDrain(capacity, next.tasks[id], |next.requests|)
    ensures id in r.tasks && OutlastsDrain(capacity, r.tasks[id], |r.requests|)
  {
    match step {
      case PlayerActs(player, act) =>
        if player == id {
          ActBackwards(capacity, r.tasks[id], act, |r.requests| < QUEUE_SIZE, |r.closes| < QUEUE_SIZE, r.shutdown,
                       |r.requests|);
        }
      case _ =>
    }
  }

  lemma StaysOrPasses(capacity: nat, r: Room, step: Step)
    requires Draining(r) && Can(r, step)
    ensures Draining(After(capacity, r, step)) || PastDrain(After(capacity, r, step).mode)
  {
  }

  /** A run that ends in the drain was in it all along. */
  lemma StillDraining(capacity: nat, r: Room, step: Step, rest: seq<Step>)
    requires Draining(r) && Can(r, step) && IsRun(capacity, After(capacity, r, step), rest)
    requires Draining(Final(capacity, After(capacity, r, step), rest))
    ensures Draining(After(capacity, r, step))
  {
    StaysOrPasses(capacity, r, step);
    if PastDrain(After(capacity, r, step).mode) {
      PastForGood(capacity, After(capacity, r, step), rest);
    }
  }

  /** Who lingers at the end of a run outlasts the drain at its beginning. */
  lemma {:induction false} RunBackwards(capacity: nat, r: Room, steps: seq<Step>, id: u32)
    requires Draining(r) && IsRun(capacity, r, steps) && Draining(Final(capacity, r, steps))
    requires |Final(capacity, r, steps).requests| <= QUEUE_SIZE
    requires id in Final(capacity, r, steps).tasks && Lingers(Final(capacity, r, steps).tasks[id])
    ensures id in r.tasks && OutlastsDrain(capacity, r.tasks[id], |r.requests|)
    decreases |steps|
  {
    if steps == [] {
    } else {
      StillDraining(capacity, r, steps[0], steps[1..]);
      RunBackwards(capacity, After(capacity, r, steps[0]), steps[1..], id);
      StepBackwards(capacity, r, steps[0], id);
    }
  }

  // ----- until the client has said and been told all -----

  /** What the task does by itself; it pings its client first if that has sent a pong too many. */
  function Patient(p: Player): Act {
    match p.phase
    case Greeting => Greet(true)
    case Running =>
      if p.inbox == [] then TakeNotice(true)
      else if React(p.inbox[0]).CountPong? && p.pongs == 0 then SendPing(true)
      else ReadClient
    case _ => Submit
  }

  lemma PatientRead(capacity: nat, p: Player, queued: nat)
    requires OutlastsDrain(capacity, p, queued) && p.phase.Running? && Patient(p) == ReadClient && p.inbox != []
    ensures OutlastsDrain(capacity, AfterAct(capacity, p, ReadClient), queued)
  {
    assert React(p.inbox[0]).Ask? || React(p.inbox[0]).CountPong?;
    forall i | 0 <= i < |p.inbox[1..]| ensures React(p.inbox[1..][i]).Ask? || React(p.inbox[1..][i]).CountPong? {
      assert p.inbox[1..][i] == p.inbox[i + 1];
    }
  }

  lemma PatientNotice(capacity: nat, p: Player, queued: nat)
    requires OutlastsDrain(capacity, p, queued) && p.phase.Running? && p.cursor < |p.log|
    ensures OutlastsDrain(capacity, AfterAct(capacity, p, TakeNotice(true)), queued)
  {
  }

  lemma PatientGoesOn(capacity: nat, p: Player, closesOpen: bool, shutdown: bool, queued: nat)
    requires OutlastsDrain(capacity, p, queued) && Faithful(p) && !Lingers(p)
    ensures CanAct(p, Patient(p), queued < QUEUE_SIZE, closesOpen, shutdown)
    ensures OutlastsDrain(capacity, AfterAct(capacity, p, Patient(p)), QueuedAfter(p, Patient(p), queued))
    ensures Patient(p) != Reconfigure && (Patient(p).Submit? ==> p.phase.Asking?)
    ensures Patient(p) == SendPing(true) ==> Patient(AfterAct(capacity, p, SendPing(true))) == ReadClient
  {
    if p.phase.Running? {
      if p.inbox == [] {
        PatientNotice(capacity, p, queued);
      } else if Patient(p) == ReadClient {
        PatientRead(capacity, p, queued);
      }
    }
  }

  lemma PatientStep(capacity: nat, r: Room, id: u32, act: Act)
    requires Sound(r) && Draining(r) && id in r.tasks && act == Patient(r.tasks[id])
    requires OutlastsDrain(capacity, r.tasks[id], |r.requests|) && !Lingers(r.tasks[id])
    ensures Can(r, PlayerActs(id, act))
    ensures var next := After(capacity, r, PlayerActs(id, act));
            && Sound(next) && Draining(next) && id in next.tasks
            && OutlastsDrain(capacity, next.tasks[id], |next.requests|)
            && Work(next) + (if act == SendPing(true) then 0 else 1) <= Work(r)
            && (act == SendPing(true) ==> Patient(next.tasks[id]) == ReadClient)
  {
    PatientGoesOn(capacity, r.tasks[id], |r.closes| < QUEUE_SIZE, r.shutdown, |r.requests|);
    StepKeepsSound(capacity, r, PlayerActs(id, act));
    ActStepWorks(capacity, r, id, act);
  }

  /** Such a task comes to linger if it is left to act. */
  lemma {:induction false} ComesToLinger(capacity: nat, r: Room, id: u32) returns (steps: seq<Step>)
    requires Sound(r) && Draining(r) && id in r.tasks && OutlastsDrain(capacity, r.tasks[id], |r.requests|)
    ensures IsRun(capacity, r, steps) && Draining(Final(capacity, r, steps))
    ensures id in Final(capacity, r, steps).tasks && Lingers(Final(capacity, r, steps).tasks[id])
    decreases Work(r), if Patient(r.tasks[id]) == SendPing(true) then 1 else 0
  {
    if Lingers(r.tasks[id]) {
      steps := [];
    } else {
      var step := PlayerActs(id, Patient(r.tasks[id]));
      PatientStep(capacity, r, id, step.act);
      var rest := ComesToLinger(capacity, After(capacity, r, step), id);
      RunStep(capacity, r, step, rest);
      steps := [step] + rest;
    }
  }

  /** The drain is not over, and somebody is left whom only the client can end. */
  predicate SomebodyLingers(r: Room) {
    Draining(r) && exists id :: id in r.tasks && Lingers(r.tasks[id])
  }

  ghost predicate DrainMayLinger(capacity: nat, r: Room) {
    exists steps :: IsRun(capacity, r, steps) && SomebodyLingers(Final(capacity, r, steps))
  }

  /**
   A drain can come to depend on a client, which may stay as long as it likes, if and only if some task does not
   hear the signal, has neither read nor been told anything that ends it, and has places enough in the request
   queue for all its client has asked for.
   */
  lemma {:induction false} MayLingerExactly(capacity: nat, r: Room)
    requires Sound(r) && Draining(r)
    ensures DrainMayLinger(capacity, r) <==>
            exists id :: id in r.tasks && OutlastsDrain(capacity, r.tasks[id], |r.requests|)
  {
    if id :| id in r.tasks && OutlastsDrain(capacity, r.tasks[id], |r.requests|) {
      var steps := ComesToLinger(capacity, r, id);
      assert SomebodyLingers(Final(capacity, r, steps));
    }
    forall steps | IsRun(capacity, r, steps) && SomebodyLingers(Final(capacity, r, steps))
      ensures exists id :: id in r.tasks && OutlastsDrain(capacity, r.tasks[id], |r.requests|)
    {
      var id :| id in Final(capacity, r, steps).tasks && Lingers(Final(capacity, r, steps).tasks[id]);
      RunsAreSound(capacity, r, steps);
      RunBackwards(capacity, r, steps, id);
    }
  }
}
