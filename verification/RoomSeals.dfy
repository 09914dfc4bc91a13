/** A room is sealed only by the words of its host: over every run, from the text to the notification. */
module RoomSeals {
  import opened Common
  import opened TextProtocol
  import opened Players
  import opened Reactions
  import opened Rooms
  import opened RoomLimits
  import opened RoomRuns
  import opened RoomNotices

  const SEAL: ClientMessage := TextMessage(Ascii("S: \n"))

  /** The task is about to ask for a seal, or has asked and was not handled yet. */
  predicate WantsSeal(r: Room, p: u32) {
    Request(p, SealRoom) in r.requests || (p in r.tasks && r.tasks[p].phase == Asking(SealRoom))
  }

  /** With this step the task of p reads the text that asks for a seal. */
  predicate ReadsSeal(r: Room, step: Step, p: u32) {
    step == PlayerActs(p, ReadClient) && p in r.tasks && r.tasks[p].inbox != [] && r.tasks[p].inbox[0] == SEAL
  }

  ghost predicate SaysSeal(capacity: nat, r: Room, steps: seq<Step>, p: u32)
    requires IsRun(capacity, r, steps)
    decreases |steps|
  {
    steps != [] && (ReadsSeal(r, steps[0], p) || SaysSeal(capacity, After(capacity, r, steps[0]), steps[1..], p))
  }

  lemma ActWantsSeal(capacity: nat, p: Player, act: Act)
    requires CanAct(p, act, true, true, true) && AfterAct(capacity, p, act).phase == Asking(SealRoom)
    ensures p.phase == Asking(SealRoom) || (act == ReadClient && p.inbox != [] && p.inbox[0] == SEAL)
  {
    if act == ReadClient {
      OnlyTextsAsk(p.inbox[0]);
    }
  }

  lemma RequestsOnlyShrink(r: Room, req: Request)
    ensures HandleRequest(r, req).requests == r.requests
  {
  }

  lemma RoomWantsNothing(capacity: nat, r: Room, step: Step, p: u32)
    requires Can(r, step) && !step.PlayerActs? && WantsSeal(After(capacity, r, step), p)
    ensures WantsSeal(r, p)
  {
    var next := After(capacity, r, step);
    if step.TakeRequest? {
      RequestsOnlyShrink(r.(requests := r.requests[1..]), r.requests[0]);
    }
    if step.Join? {
      ConnectGrows(r, step.id, step.stream, step.inbox, step.others);
    } else {
      StepGrows(capacity, r, step);
    }
  }

  lemma StepWantsSeal(capacity: nat, r: Room, step: Step, p: u32)
    requires Can(r, step) && WantsSeal(After(capacity, r, step), p)
    ensures WantsSeal(r, p) || ReadsSeal(r, step, p)
  {
    match step {
      case PlayerActs(id, act) =>
        if id == p && AfterAct(capacity, r.tasks[p], act).phase == Asking(SealRoom) {
          ActWantsSeal(capacity, r.tasks[p], act);
        }
      case _ => RoomWantsNothing(capacity, r, step, p);
    }
  }

  /** A seal is asked for only by a client that said so. */
  lemma {:induction false} SealsAreAskedFor(capacity: nat, r: Room, steps: seq<Step>, p: u32)
    requires IsRun(capacity, r, steps) && WantsSeal(Final(capacity, r, steps), p)
    ensures WantsSeal(r, p) || SaysSeal(capacity, r, steps, p)
    decreases |steps|
  {
    if steps == [] {
    } else {
      SealsAreAskedFor(capacity, After(capacity, r, steps[0]), steps[1..], p);
      if WantsSeal(After(capacity, r, steps[0]), p) {
        StepWantsSeal(capacity, r, steps[0], p);
      }
    }
  }

  lemma {:induction false} ReasonToSeal(capacity: nat, r: Room, steps: seq<Step>, q: u32)
    requires IsRun(capacity, r, steps) && Reasoned(capacity, r, steps, q, RoomSealed)
    ensures WantsSeal(r, HOST_ID) || SaysSeal(capacity, r, steps, HOST_ID)
    decreases |steps|
  {
    if r.mode.Serving? && q in r.tasks && Reason(r, steps[0], q, RoomSealed) {
      assert r.requests[0] in r.requests;
    } else {
      ReasonToSeal(capacity, After(capacity, r, steps[0]), steps[1..], q);
      if WantsSeal(After(capacity, r, steps[0]), HOST_ID) {
        StepWantsSeal(capacity, r, steps[0], HOST_ID);
      }
    }
  }

  /** Over every run of a new room: whoever is told that it is sealed, its host has said "S:" and nothing else. */
  lemma {:induction false} SealedByItsHost(capacity: nat, r: Room, steps: seq<Step>, q: u32)
    requires Sound(r) && !WantsSeal(r, HOST_ID) && IsRun(capacity, r, steps)
    requires q in Final(capacity, r, steps).tasks && RoomSealed in Final(capacity, r, steps).tasks[q].log
    requires q in r.tasks ==> RoomSealed !in r.tasks[q].log
    ensures SaysSeal(capacity, r, steps, HOST_ID)
  {
    EveryNoticeHasItsReason(capacity, r, steps, q, RoomSealed);
    ReasonToSeal(capacity, r, steps, q);
  }
}
