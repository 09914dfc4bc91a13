/**
 Nothing happens twice: each player has at most one drop or close queued, and, as long as no stream is given to
 the room twice, each stream gets at most one closing task. Over every run.
 */
module RoomOnce {
  import opened Common
  import RoomCodes
  import opened Players
  import opened Rooms
  import opened RoomSafety
  import opened RoomLimits
  import opened RoomRuns
  import opened RoomFrames

  // ----- terminal requests -----

  function DropsOf(requests: seq<Request>, id: u32): nat {
    if requests == [] then 0
    else (if requests[0] == Request(id, DropConnection) then 1 else 0) + DropsOf(requests[1..], id)
  }

  function ClosesOf(closes: seq<CloseRequest>, id: u32): nat {
    if closes == [] then 0 else (if closes[0].player == id then 1 else 0) + ClosesOf(closes[1..], id)
  }

  lemma {:induction false} DropsAppend(requests: seq<Request>, req: Request, id: u32)
    ensures DropsOf(requests + [req], id) == DropsOf(requests, id) + if req == Request(id, DropConnection) then 1 else 0
  {
    if requests == [] {
      assert (requests + [req])[1..] == [];
    } else {
      assert (requests + [req])[1..] == requests[1..] + [req];
      DropsAppend(requests[1..], req, id);
    }
  }

  lemma {:induction false} ClosesAppend(closes: seq<CloseRequest>, c: CloseRequest, id: u32)
    ensures ClosesOf(closes + [c], id) == ClosesOf(closes, id) + if c.player == id then 1 else 0
  {
    if closes == [] {
      assert (closes + [c])[1..] == [];
    } else {
      assert (closes + [c])[1..] == closes[1..] + [c];
      ClosesAppend(closes[1..], c, id);
    }
  }

  lemma {:induction false} NoDrops(requests: seq<Request>, id: u32)
    requires Request(id, DropConnection) !in requests
    ensures DropsOf(requests, id) == 0
  {
    if requests == [] {
    } else {
      assert requests == [requests[0]] + requests[1..];
      NoDrops(requests[1..], id);
    }
  }

  lemma {:induction false} NoCloses(closes: seq<CloseRequest>, id: u32)
    requires forall c :: c in closes ==> c.player != id
    ensures ClosesOf(closes, id) == 0
  {
    if closes == [] {
    } else {
      assert closes == [closes[0]] + closes[1..];
      NoCloses(closes[1..], id);
    }
  }

  function TerminalsOf(r: Room, id: u32): nat { DropsOf(r.requests, id) + ClosesOf(r.closes, id) }

  ghost predicate SingleTerminals(r: Room) {
    forall id :: TerminalsOf(r, id) <= 1
  }

  lemma ActKeepsSingle(capacity: nat, r: Room, player: u32, act: Act, id: u32)
    requires Orderly(r) && SingleTerminals(r) && Can(r, PlayerActs(player, act))
    ensures TerminalsOf(AfterPlayerAct(capacity, r, player, act), id) <= 1
  {
    var p := r.tasks[player];
    assert TerminalsOf(r, id) <= 1;
    if act.Submit? {
      assert !HasTerminal(r, player);
      NoDrops(r.requests, player);
      NoCloses(r.closes, player);
      if p.phase.Asking? {
        DropsAppend(r.requests, Request(player, p.phase.cmd), id);
      } else {
        ClosesAppend(r.closes, CloseRequest(player, p.stream, p.phase.code), id);
      }
    }
  }

  lemma RequestKeepsQueues(r: Room, req: Request)
    ensures HandleRequest(r, req).requests == r.requests && HandleRequest(r, req).closes == r.closes
  {
  }

  lemma CloseKeepsQueues(r: Room, c: CloseRequest)
    ensures HandleClose(r, c).requests == r.requests && HandleClose(r, c).closes == r.closes
  {
  }

  lemma QueuesOnlyShrink(capacity: nat, r: Room, step: Step)
    requires Can(r, step) && !step.PlayerActs?
    ensures After(capacity, r, step).requests == if step.TakeRequest? then r.requests[1..] else r.requests
    ensures After(capacity, r, step).closes == if step.TakeClose? then r.closes[1..] else r.closes
  {
    match step {
      case TakeRequest => RequestKeepsQueues(r.(requests := r.requests[1..]), r.requests[0]);
      case TakeClose => CloseKeepsQueues(r.(closes := r.closes[1..]), r.closes[0]);
      case _ =>
    }
  }

  lemma StepKeepsSingle(capacity: nat, r: Room, step: Step)
    requires Orderly(r) && SingleTerminals(r) && Can(r, step)
    ensures SingleTerminals(After(capacity, r, step))
  {
    forall id ensures TerminalsOf(After(capacity, r, step), id) <= 1 {
      if step.PlayerActs? {
        ActKeepsSingle(capacity, r, step.player, step.act, id);
      } else {
        QueuesOnlyShrink(capacity, r, step);
        assert TerminalsOf(r, id) <= 1;
      }
    }
  }

  /** Over every run, no player ever has more than one terminal request queued. */
  lemma {:induction false} RunsHaveSingleTerminals(capacity: nat, r: Room, steps: seq<Step>)
    requires Sound(r) && SingleTerminals(r) && IsRun(capacity, r, steps)
    ensures SingleTerminals(Final(capacity, r, steps))
    decreases |steps|
  {
    if steps == [] {
    } else {
      StepKeepsSound(capacity, r, steps[0]);
      StepKeepsSingle(capacity, r, steps[0]);
      RunsHaveSingleTerminals(capacity, After(capacity, r, steps[0]), steps[1..]);
    }
  }

  // ----- streams -----

  predicate Holds(frames: multiset<CloseTask>, stream: Stream) { exists f :: f in frames && f.stream == stream }

  /** Every stream is in at most one frame, and that once. */
  predicate Distinct(frames: multiset<CloseTask>) {
    && (forall f :: f in frames ==> frames[f] == 1)
    && (forall f, g :: f in frames && g in frames && f.stream == g.stream ==> f == g)
  }

  predicate DistinctStreams(tasks: map<u32, Player>) {
    forall i, j :: i in tasks && j in tasks && i != j ==> tasks[i].stream != tasks[j].stream
  }

  predicate NotYetOwed(tasks: map<u32, Player>, frames: multiset<CloseTask>) {
    forall id :: id in tasks && !Ended(tasks[id]) ==> !Holds(frames, tasks[id].stream)
  }

  /** The streams of a room: each member has its own, and a frame for it is owed only once it has ended. */
  ghost predicate OnceEach(r: Room) {
    Distinct(Owed(r)) && DistinctStreams(r.tasks) && NotYetOwed(r.tasks, Owed(r))
  }

  predicate IsNew(r: Room, stream: Stream) {
    !Holds(Owed(r), stream) && forall id :: id in r.tasks ==> r.tasks[id].stream != stream
  }

  /** The stream a step takes from the room's newcomer channel. */
  function Brought(step: Step): Option<Stream> {
    match step
    case Join(_, stream, _, _) => Some(stream)
    case Refuse(stream) => Some(stream)
    case Sweep(stream) => Some(stream)
    case _ => None
  }

  /** The stream a step gives to the room is none it still has. */
  predicate BringsNew(r: Room, step: Step) {
    Brought(step).Some? ==> IsNew(r, Brought(step).value)
  }

  lemma FewerDistinct(frames: multiset<CloseTask>, fewer: multiset<CloseTask>)
    requires Distinct(frames) && fewer <= frames
    ensures Distinct(fewer) && forall s :: Holds(fewer, s) ==> Holds(frames, s)
  {
    assert forall f :: f in fewer ==> f in frames && fewer[f] <= frames[f];
  }

  lemma OneMoreDistinct(frames: multiset<CloseTask>, f: CloseTask)
    requires Distinct(frames) && !Holds(frames, f.stream)
    ensures Distinct(frames + multiset{f})
    ensures forall s :: Holds(frames + multiset{f}, s) <==> Holds(frames, s) || s == f.stream
  {
    assert forall g :: g in frames + multiset{f} <==> g in frames || g == f;
    assert f !in frames;
    assert forall s :: Holds(frames, s) ==> Holds(frames + multiset{f}, s);
  }

  /** A frame for a stream nobody has a frame for. */
  ghost predicate OneNew(asked: multiset<CloseTask>, before: multiset<CloseTask>) {
    exists f :: asked == multiset{f} && !Holds(before, f.stream)
  }

  /** The frames owed after a step, from those owed before. */
  lemma FramesStayDistinct(before: multiset<CloseTask>, asked: multiset<CloseTask>, lost: multiset<CloseTask>,
                           after: multiset<CloseTask>)
    requires Distinct(before) && after + lost == before + asked
    requires asked == multiset{} || OneNew(asked, before)
    ensures Distinct(after)
    ensures forall s :: Holds(after, s) ==> Holds(before, s) || Holds(asked, s)
  {
    if asked == multiset{} {
      assert before + asked == before;
    } else {
      var f :| asked == multiset{f} && !Holds(before, f.stream);
      OneMoreDistinct(before, f);
      assert f in asked;
    }
    FewerDistinct(before + asked, after);
  }

  lemma SubmitAsksNew(r: Room, id: u32, act: Act)
    requires NotYetOwed(r.tasks, Owed(r)) && Can(r, PlayerActs(id, act))
    ensures Asked(r, PlayerActs(id, act)) == multiset{} || OneNew(Asked(r, PlayerActs(id, act)), Owed(r))
  {
    var p := r.tasks[id];
    if act.Submit? && p.phase.Closing? {
      assert Asked(r, PlayerActs(id, act)) == multiset{CloseTask(p.stream, p.phase.code)};
    }
  }

  lemma AskedIsNew(r: Room, step: Step)
    requires OnceEach(r) && Can(r, step) && BringsNew(r, step)
    ensures Asked(r, step) == multiset{} || OneNew(Asked(r, step), Owed(r))
  {
    match step {
      case Refuse(stream) => assert Asked(r, step) == multiset{CloseTask(stream, TooManyPlayers)};
      case Sweep(stream) => assert Asked(r, step) == multiset{CloseTask(stream, RoomIsSealed)};
      case PlayerActs(id, act) => SubmitAsksNew(r, id, act);
      case _ =>
    }
  }

  /** Streams of members are kept, and nobody who has ended begins again. */
  predicate SameStreams(tasks: map<u32, Player>, tasks': map<u32, Player>) {
    && tasks'.Keys <= tasks.Keys
    && forall k :: k in tasks' ==> tasks'[k].stream == tasks[k].stream && (Ended(tasks[k]) ==> Ended(tasks'[k]))
  }

  lemma GrownKeepStreams(tasks: map<u32, Player>, tasks': map<u32, Player>)
    requires AllGrew(tasks, tasks')
    ensures SameStreams(tasks, tasks')
  {
  }

  lemma ActKeepsStream(capacity: nat, p: Player, act: Act, requestsOpen: bool, closesOpen: bool, shutdown: bool)
    requires CanAct(p, act, requestsOpen, closesOpen, shutdown)
    ensures AfterAct(capacity, p, act).stream == p.stream && (Ended(p) ==> Ended(AfterAct(capacity, p, act)))
  {
  }

  lemma OneKeepsStreams(tasks: map<u32, Player>, id: u32, q: Player)
    requires id in tasks && q.stream == tasks[id].stream && (Ended(tasks[id]) ==> Ended(q))
    ensures SameStreams(tasks, tasks[id := q])
  {
  }

  lemma StepKeepsStreams(capacity: nat, r: Room, step: Step)
    requires Can(r, step) && !step.Join?
    ensures SameStreams(r.tasks, After(capacity, r, step).tasks)
  {
    if step.PlayerActs? {
      ActKeepsStream(capacity, r.tasks[step.player], step.act, |r.requests| < QUEUE_SIZE, |r.closes| < QUEUE_SIZE,
                     r.shutdown);
      OneKeepsStreams(r.tasks, step.player, AfterAct(capacity, r.tasks[step.player], step.act));
    } else {
      StepGrows(capacity, r, step);
      GrownKeepStreams(r.tasks, After(capacity, r, step).tasks);
    }
  }

  /** Whoever asks for a frame has then ended. */
  lemma AskersEnd(capacity: nat, r: Room, step: Step, id: u32)
    requires OnceEach(r) && Can(r, step) && BringsNew(r, step) && !step.Join?
    requires id in After(capacity, r, step).tasks && !Ended(After(capacity, r, step).tasks[id])
    ensures id in r.tasks && !Holds(Asked(r, step), After(capacity, r, step).tasks[id].stream)
  {
    StepKeepsStreams(capacity, r, step);
  }

  lemma JoinKeepsOnce(capacity: nat, r: Room, step: Step)
    requires OnceEach(r) && Can(r, step) && step.Join? && BringsNew(r, step)
    ensures OnceEach(After(capacity, r, step))
  {
    ConnectGrows(r, step.id, step.stream, step.inbox, step.others);
    StepConservesFrames(capacity, r, step);
    assert Owed(After(capacity, r, step)) == Owed(r);
  }

  lemma StepKeepsOnce(capacity: nat, r: Room, step: Step)
    requires OnceEach(r) && Can(r, step) && BringsNew(r, step)
    ensures OnceEach(After(capacity, r, step))
  {
    if step.Join? {
      JoinKeepsOnce(capacity, r, step);
    } else {
      var next := After(capacity, r, step);
      StepConservesFrames(capacity, r, step);
      AskedIsNew(r, step);
      FramesStayDistinct(Owed(r), Asked(r, step), Lost(r, step), Owed(next));
      StepKeepsStreams(capacity, r, step);
      forall id | id in next.tasks && !Ended(next.tasks[id]) ensures !Holds(Owed(next), next.tasks[id].stream) {
        AskersEnd(capacity, r, step, id);
      }
    }
  }

  ghost predicate AllNew(capacity: nat, r: Room, steps: seq<Step>)
    requires IsRun(capacity, r, steps)
    decreases |steps|
  {
    steps == [] || (BringsNew(r, steps[0]) && AllNew(capacity, After(capacity, r, steps[0]), steps[1..]))
  }

  lemma TwiceCounted(tasks: seq<CloseTask>, i: nat, j: nat)
    requires i < j < |tasks| && tasks[i] == tasks[j]
    ensures multiset(tasks)[tasks[i]] >= 2
  {
    assert tasks == tasks[..j] + tasks[j..];
    assert tasks[i] in tasks[..j] && tasks[j] in tasks[j..] by {
      assert tasks[..j][i] == tasks[i] && tasks[j..][0] == tasks[j];
    }
  }

  lemma ClosedOnceEach(r: Room)
    requires OnceEach(r)
    ensures forall i, j :: 0 <= i < j < |r.closeTasks| ==> r.closeTasks[i].stream != r.closeTasks[j].stream
  {
    forall i, j | 0 <= i < j < |r.closeTasks| ensures r.closeTasks[i].stream != r.closeTasks[j].stream {
      var f, g := r.closeTasks[i], r.closeTasks[j];
      assert multiset(r.closeTasks) <= Owed(r);
      assert f in multiset(r.closeTasks) && g in multiset(r.closeTasks);
      if f.stream == g.stream {
        TwiceCounted(r.closeTasks, i, j);
        assert false;
      }
    }
  }

  /** Over every run in which no stream comes back while the room still has it, no stream gets two closing tasks. */
  lemma {:induction false} NobodyIsClosedTwice(capacity: nat, r: Room, steps: seq<Step>)
    requires OnceEach(r) && IsRun(capacity, r, steps) && AllNew(capacity, r, steps)
    ensures var last := Final(capacity, r, steps);
            && OnceEach(last)
            && forall i, j :: 0 <= i < j < |last.closeTasks| ==> last.closeTasks[i].stream != last.closeTasks[j].stream
    decreases |steps|
  {
    if steps == [] {
      ClosedOnceEach(r);
    } else {
      StepKeepsOnce(capacity, r, steps[0]);
      NobodyIsClosedTwice(capacity, After(capacity, r, steps[0]), steps[1..]);
    }
  }

  lemma AskedIsKnown(r: Room, step: Step, f: CloseTask)
    requires f in Asked(r, step)
    ensures !IsNew(r, f.stream) || Brought(step) == Some(f.stream)
  {
  }

  lemma OwedIsKnown(capacity: nat, r: Room, step: Step, f: CloseTask)
    requires Can(r, step) && f in Owed(After(capacity, r, step))
    ensures !IsNew(r, f.stream) || Brought(step) == Some(f.stream)
  {
    StepConservesFrames(capacity, r, step);
    assert f in Owed(r) + Asked(r, step);
    if f in Asked(r, step) {
      AskedIsKnown(r, step, f);
    }
  }

  lemma MemberIsKnown(capacity: nat, r: Room, step: Step, id: u32)
    requires Can(r, step) && id in After(capacity, r, step).tasks
    ensures var s := After(capacity, r, step).tasks[id].stream; !IsNew(r, s) || Brought(step) == Some(s)
  {
    if step.Join? {
      ConnectGrows(r, step.id, step.stream, step.inbox, step.others);
    } else {
      StepKeepsStreams(capacity, r, step);
    }
  }

  /** After a step the room has no client it did not have, but the one the step brought. */
  lemma NobodyElseComes(capacity: nat, r: Room, step: Step, next: Room, s: Stream)
    requires Can(r, step) && next == After(capacity, r, step) && !IsNew(next, s)
    ensures !IsNew(r, s) || Brought(step) == Some(s)
  {
    if f :| f in Owed(next) && f.stream == s {
      OwedIsKnown(capacity, r, step, f);
    } else {
      var id :| id in next.tasks && next.tasks[id].stream == s;
      MemberIsKnown(capacity, r, step, id);
    }
  }

  lemma ClosedIsOwed(r: Room, c: CloseTask)
    requires c in r.closeTasks
    ensures !IsNew(r, c.stream)
  {
    assert c in multiset(r.closeTasks) && multiset(r.closeTasks) <= Owed(r);
  }

  /** A new room has just its host. */
  lemma HostIsAlone(code: RoomCodes.RoomCode, stream: Stream, inbox: seq<ClientMessage>, limits: Limits, now: nat)
    ensures var r := Start(code, stream, inbox, limits, now);
            OnceEach(r) && forall s :: !IsNew(r, s) ==> s == stream
    ensures var r := StartSignalled(code, stream, inbox, limits, now);
            OnceEach(r) && forall s :: !IsNew(r, s) ==> s == stream
  {
    StartOwesNothing(code, stream, inbox, limits, now);
  }

  lemma StartIsOnce(code: RoomCodes.RoomCode, stream: Stream, inbox: seq<ClientMessage>, limits: Limits, now: nat)
    ensures OnceEach(Start(code, stream, inbox, limits, now))
    ensures SingleTerminals(Start(code, stream, inbox, limits, now))
  {
    StartOwesNothing(code, stream, inbox, limits, now);
  }
}
