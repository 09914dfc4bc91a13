/**
 Conservation of messages. On the receiving side, the relayed messages in a player's log are the
 accepted messages addressed to it since it joined, in the order the room accepted them. On the
 sending side, what a client asked to be sent is, in order, what the room accepted, then what is
 queued, then what the task is about to queue. Once the room has told the task to close, or throws requests
 away, some of that may be missing, but what is left is still in order.
 */
module RoomDelivery {
  import opened Common
  import opened TextProtocol
  import opened Players
  import opened Rooms
  import opened RoomViews
  import opened Sequences

  function RelayIn(to: u32, n: Notification): seq<Accepted> {
    if n.Relayed? then [Accepted(n.kind, n.sender, to, n.payload)] else []
  }

  /** The messages relayed to `to` in a log. */
  function Relays(to: u32, log: seq<Notification>): seq<Accepted> {
    if log == [] then []
    else Relays(to, log[..|log| - 1]) + RelayIn(to, log[|log| - 1])
  }

  /** The accepted messages addressed to `to`. */
  function Addressed(to: u32, accepted: seq<Accepted>): seq<Accepted> {
    if accepted == [] then []
    else
      var last := accepted[|accepted| - 1];
      Addressed(to, accepted[..|accepted| - 1]) + if last.to == to then [last] else []
  }

  /** The accepted messages of `sender`, as it asked for them. */
  function Sent(sender: u32, accepted: seq<Accepted>): seq<Command> {
    if accepted == [] then []
    else
      var last := accepted[|accepted| - 1];
      Sent(sender, accepted[..|accepted| - 1])
      + if last.sender == sender then [SendTo(last.kind, last.to, last.payload)] else []
  }

  function WaitingIn(sender: u32, req: Request): seq<Command> {
    if req.player == sender && req.cmd.SendTo? then [req.cmd] else []
  }

  /** The messages of `sender` in the request queue. */
  function Waiting(sender: u32, requests: seq<Request>): seq<Command> {
    if requests == [] then []
    else WaitingIn(sender, requests[0]) + Waiting(sender, requests[1..])
  }

  function Pending(phase: Phase): seq<Command> {
    if phase.Asking? && phase.cmd.SendTo? then [phase.cmd] else []
  }

  function AskedIn(reaction: Reaction): seq<Command> {
    if reaction.Ask? && reaction.cmd.SendTo? then [reaction.cmd] else []
  }

  /** The messages a client asked to be sent, in what was heard of it. */
  function AskedBy(heard: seq<ClientMessage>): seq<Command> {
    if heard == [] then []
    else AskedBy(heard[..|heard| - 1]) + AskedIn(React(heard[|heard| - 1]))
  }

  /** Where the messages of a player are, from the oldest to the newest. */
  function Out(p: Player, accepted: seq<Accepted>, requests: seq<Request>): seq<Command>
    requires p.since <= |accepted|
  {
    Sent(p.id, accepted[p.since..]) + Waiting(p.id, requests) + Pending(p.phase)
  }

  /** All of it in order, or some of it in order. */
  predicate Covers(all: bool, out: seq<Command>, asked: seq<Command>) {
    if all then out == asked else Within(out, asked)
  }

  predicate Unspoiled(p: Player) {
    forall i :: 0 <= i < |p.log| ==> !IsTerminal(p.log[i])
  }

  predicate ReceivedAll(p: Player, accepted: seq<Accepted>) {
    p.since <= |accepted| && Relays(p.id, p.log) == Addressed(p.id, accepted[p.since..])
  }

  predicate SentAll(exact: bool, p: Player, accepted: seq<Accepted>, requests: seq<Request>)
    requires p.since <= |accepted|
  {
    Covers(exact && Unspoiled(p), Out(p, accepted, requests), AskedBy(p.heard))
  }

  predicate Conserved(exact: bool, p: Player, accepted: seq<Accepted>, requests: seq<Request>) {
    ReceivedAll(p, accepted) && SentAll(exact, p, accepted, requests)
  }

  ghost predicate AllConserved(exact: bool, tasks: map<u32, Player>, accepted: seq<Accepted>, requests: seq<Request>) {
    forall id :: id in tasks ==> tasks[id].id == id && Conserved(exact, tasks[id], accepted, requests)
  }

  /** The modes in which the room handles every request it takes. */
  predicate Exact(mode: Mode) { mode.Serving? || mode.Broken? || mode.DrainingCloses? }

  /** The invariant, in every mode. */
  ghost predicate Delivery(r: Room) {
    AllConserved(Exact(r.mode), r.tasks, r.accepted, r.requests)
  }

  /** The account stays right while the same messages are out, also for a player told to close meanwhile. */
  lemma SameOut(exact: bool, p: Player, q: Player, accepted: seq<Accepted>, requests: seq<Request>,
                accepted': seq<Accepted>, requests': seq<Request>)
    requires p.since <= |accepted| && q.since <= |accepted'| && SentAll(exact, p, accepted, requests)
    requires Out(q, accepted', requests') == Out(p, accepted, requests) && q.heard == p.heard && p.log <= q.log
    ensures SentAll(exact, q, accepted', requests')
  {
    WithinItself(AskedBy(p.heard));
    if Unspoiled(q) {
      assert forall i :: 0 <= i < |p.log| ==> p.log[i] == q.log[i];
      assert Unspoiled(p);
    }
  }

  lemma PushConserves(exact: bool, p: Player, n: Notification, accepted: seq<Accepted>, requests: seq<Request>)
    requires Conserved(exact, p, accepted, requests) && !n.Relayed?
    ensures Conserved(exact, Pushed(p, n), accepted, requests)
  {
    SameOut(exact, p, Pushed(p, n), accepted, requests, accepted, requests);
    assert Pushed(p, n).log[..|p.log|] == p.log;
    assert Relays(p.id, p.log) + [] == Relays(p.id, p.log);
  }

  /** One more accepted message: its receiver's log and its sender's record grow, nobody else's do. */
  lemma AcceptGrows(since: nat, accepted: seq<Accepted>, a: Accepted, id: u32)
    requires since <= |accepted|
    ensures Addressed(id, (accepted + [a])[since..])
         == Addressed(id, accepted[since..]) + if a.to == id then [a] else []
    ensures Sent(id, (accepted + [a])[since..])
         == Sent(id, accepted[since..]) + if a.sender == id then [SendTo(a.kind, a.to, a.payload)] else []
  {
    var longer := (accepted + [a])[since..];
    assert longer[..|longer| - 1] == accepted[since..] && longer[|longer| - 1] == a;
  }

  lemma {:induction false} WaitingGrows(sender: u32, requests: seq<Request>, req: Request)
    ensures Waiting(sender, requests + [req]) == Waiting(sender, requests) + WaitingIn(sender, req)
  {
    if requests == [] {
      assert (requests + [req])[1..] == [];
    } else {
      assert (requests + [req])[1..] == requests[1..] + [req];
      WaitingGrows(sender, requests[1..], req);
    }
  }

  lemma {:induction false} NothingWaits(sender: u32, requests: seq<Request>)
    ensures Waiting(sender, requests) == [] <==> forall q :: q in requests && q.player == sender ==> !q.cmd.SendTo?
  {
    if requests == [] {
    } else {
      assert requests == [requests[0]] + requests[1..];
      NothingWaits(sender, requests[1..]);
    }
  }

  lemma OthersWait(sender: u32, requests: seq<Request>)
    requires requests != [] && (requests[0].player != sender || !requests[0].cmd.SendTo?)
    ensures Waiting(sender, requests) == Waiting(sender, requests[1..])
  {
    assert Waiting(sender, requests) == [] + Waiting(sender, requests[1..]);
  }

  /** A request that is not a message of p leaves p's account unchanged when it is taken. */
  lemma OthersTaken(exact: bool, p: Player, accepted: seq<Accepted>, requests: seq<Request>)
    requires requests != [] && Conserved(exact, p, accepted, requests)
    requires requests[0].player != p.id || !requests[0].cmd.SendTo?
    ensures Conserved(exact, p, accepted, requests[1..])
  {
    OthersWait(p.id, requests);
    SameOut(exact, p, p, accepted, requests, accepted, requests[1..]);
  }

  lemma OneMovesOver(done: seq<Command>, cmd: Command, left: seq<Command>, pending: seq<Command>)
    ensures (done + [cmd]) + left + pending == done + ([cmd] + left) + pending
  {
  }

  /** A message is accepted: for the sender it moves from the queue to the record. */
  lemma SenderConserves(exact: bool, p: Player, a: Accepted, accepted: seq<Accepted>, requests: seq<Request>)
    requires requests != [] && Conserved(exact, p, accepted, requests)
    requires requests[0] == Request(a.sender, SendTo(a.kind, a.to, a.payload)) && a.sender == p.id != a.to
    ensures Conserved(exact, Counted(p, a.to), accepted + [a], requests[1..])
  {
    AcceptGrows(p.since, accepted, a, p.id);
    OneMovesOver(Sent(p.id, accepted[p.since..]), requests[0].cmd, Waiting(p.id, requests[1..]), Pending(p.phase));
    SameOut(exact, p, Counted(p, a.to), accepted, requests, accepted + [a], requests[1..]);
  }

  /** For everybody but the sender the account of what was sent is unchanged, */
  lemma OthersAccount(exact: bool, p: Player, a: Accepted, accepted: seq<Accepted>, requests: seq<Request>)
    requires requests != [] && Conserved(exact, p, accepted, requests) && requests[0].player == a.sender != p.id
    ensures SentAll(exact, p, accepted + [a], requests[1..])
    ensures a.to != p.id ==> Conserved(exact, p, accepted + [a], requests[1..])
  {
    AcceptGrows(p.since, accepted, a, p.id);
    OthersTaken(exact, p, accepted, requests);
    assert Sent(p.id, accepted[p.since..]) + [] == Sent(p.id, accepted[p.since..]);
    assert Addressed(p.id, accepted[p.since..]) + [] == Addressed(p.id, accepted[p.since..]);
  }

  /** and for the receiver the message enters the log. */
  lemma ReceiverConserves(exact: bool, p: Player, a: Accepted, accepted: seq<Accepted>, requests: seq<Request>)
    requires requests != [] && Conserved(exact, p, accepted, requests)
    requires requests[0].player == a.sender != p.id == a.to
    ensures Conserved(exact, Pushed(p, Relayed(a.kind, a.sender, a.payload)), accepted + [a], requests[1..])
  {
    AcceptGrows(p.since, accepted, a, p.id);
    OthersAccount(exact, p, a, accepted, requests);
    var q := Pushed(p, Relayed(a.kind, a.sender, a.payload));
    assert q.log[..|p.log|] == p.log;
    SameOut(exact, p, q, accepted + [a], requests[1..], accepted + [a], requests[1..]);
  }

  lemma LeftOut(a: seq<Command>, x: Command, b: seq<Command>, c: seq<Command>, all: seq<Command>)
    requires Within(a + ([x] + b) + c, all)
    ensures Within(a + b + c, all)
  {
    assert a + ([x] + b) + c == a + [x] + (b + c) && a + b + c == a + (b + c);
    WithinLeavesOut(a, x, b + c);
    WithinChain(a + (b + c), a + [x] + (b + c), all);
  }

  /** A refused message of p is out no more, which only a player told to close can suffer. */
  lemma RefusedConserves(exact: bool, p: Player, n: Notification, accepted: seq<Accepted>, requests: seq<Request>)
    requires requests != [] && Conserved(exact, p, accepted, requests) && IsTerminal(n)
    requires requests[0].player == p.id && requests[0].cmd.SendTo?
    ensures Conserved(exact, Pushed(p, n), accepted, requests[1..])
  {
    var q := Pushed(p, n);
    assert q.log[..|p.log|] == p.log && q.log[|p.log|] == n;
    assert Relays(p.id, p.log) + [] == Relays(p.id, p.log);
    WithinItself(AskedBy(p.heard));
    LeftOut(Sent(p.id, accepted[p.since..]), requests[0].cmd, Waiting(p.id, requests[1..]), Pending(p.phase),
            AskedBy(p.heard));
  }

  lemma OneConserves(exact: bool, tasks: map<u32, Player>, accepted: seq<Accepted>, requests: seq<Request>, id: u32,
                     p: Player)
    requires id in tasks && p.id == id && Conserved(exact, p, accepted, requests)
    requires forall k :: k in tasks && k != id ==> tasks[k].id == k && Conserved(exact, tasks[k], accepted, requests)
    ensures AllConserved(exact, tasks[id := p], accepted, requests)
  {
  }

  lemma TellKeepsDelivery(r: Room, id: u32, n: Notification)
    requires Delivery(r) && IsTerminal(n)
    ensures Delivery(Tell(r, id, n))
  {
    if id in r.tasks {
      PushConserves(Exact(r.mode), r.tasks[id], n, r.accepted, r.requests);
      OneConserves(Exact(r.mode), r.tasks, r.accepted, r.requests, id, Pushed(r.tasks[id], n));
    }
  }

  lemma OthersTakenAll(exact: bool, tasks: map<u32, Player>, accepted: seq<Accepted>, requests: seq<Request>)
    requires AllConserved(exact, tasks, accepted, requests) && requests != []
    ensures forall k :: k in tasks && k != requests[0].player ==>
              tasks[k].id == k && Conserved(exact, tasks[k], accepted, requests[1..])
  {
    forall k | k in tasks && k != requests[0].player
      ensures tasks[k].id == k && Conserved(exact, tasks[k], accepted, requests[1..])
    {
      OthersTaken(exact, tasks[k], accepted, requests);
    }
  }

  /** A refused message: the sender is told to close. */
  lemma RefusalConserves(exact: bool, tasks: map<u32, Player>, accepted: seq<Accepted>, requests: seq<Request>,
                         n: Notification)
    requires AllConserved(exact, tasks, accepted, requests) && requests != [] && IsTerminal(n)
    requires requests[0].player in tasks && requests[0].cmd.SendTo?
    ensures AllConserved(exact, tasks[requests[0].player := Pushed(tasks[requests[0].player], n)], accepted,
                         requests[1..])
  {
    var id := requests[0].player;
    OthersTakenAll(exact, tasks, accepted, requests);
    RefusedConserves(exact, tasks[id], n, accepted, requests);
    OneConserves(exact, tasks, accepted, requests[1..], id, Pushed(tasks[id], n));
  }

  lemma AcceptKeepsDelivery(r: Room, a: Accepted)
    requires Delivery(r) && r.mode.Serving? && r.requests != []
    requires r.requests[0] == Request(a.sender, SendTo(a.kind, a.to, a.payload)) && Accepts(r, a.sender, a.to)
    ensures Delivery(SendMessage(r.(requests := r.requests[1..]), a.sender, a.to, a.kind, a.payload))
  {
    var tasks' := Passed(r.tasks, a.sender, a.to, Relayed(a.kind, a.sender, a.payload));
    forall k | k in tasks'
      ensures tasks'[k].id == k && Conserved(Exact(r.mode), tasks'[k], r.accepted + [a], r.requests[1..])
    {
      if k == a.sender {
        SenderConserves(Exact(r.mode), r.tasks[k], a, r.accepted, r.requests);
      } else if k == a.to {
        ReceiverConserves(Exact(r.mode), r.tasks[k], a, r.accepted, r.requests);
      } else {
        OthersAccount(Exact(r.mode), r.tasks[k], a, r.accepted, r.requests);
      }
    }
  }

  lemma TakenKeepsDelivery(r: Room)
    requires Delivery(r) && r.requests != []
    requires r.requests[0].player !in r.tasks || !r.requests[0].cmd.SendTo?
    ensures Delivery(r.(requests := r.requests[1..]))
  {
    forall k | k in r.tasks ensures Conserved(Exact(r.mode), r.tasks[k], r.accepted, r.requests[1..]) {
      OthersTaken(Exact(r.mode), r.tasks[k], r.accepted, r.requests);
    }
  }

  lemma DisconnectKeepsDelivery(r: Room, id: u32, closing: seq<CloseTask>)
    requires Delivery(r) && r.mode.Serving?
    ensures Delivery(Disconnect(r, id, closing))
  {
    var next := Disconnect(r, id, closing);
    forall k | k in next.tasks
      ensures next.tasks[k].id == k && Conserved(Exact(r.mode), next.tasks[k], r.accepted, r.requests)
    {
      var p := Forget(r.tasks[k], id);
      SameOut(Exact(r.mode), r.tasks[k], p, r.accepted, r.requests, r.accepted, r.requests);
      PushConserves(Exact(r.mode), p, PlayerLeft(id), r.accepted, r.requests);
    }
  }

  lemma ConnectKeepsDelivery(r: Room, id: u32, stream: Stream, inbox: seq<ClientMessage>, others: seq<u32>)
    requires Delivery(r) && r.mode.Serving? && !Named(r, id)
    ensures Delivery(Connect(r, id, stream, inbox, others))
  {
    var next := Connect(r, id, stream, inbox, others);
    forall k | k in next.tasks && k != id
      ensures next.tasks[k].id == k && Conserved(Exact(r.mode), next.tasks[k], r.accepted, r.requests)
    {
      PushConserves(Exact(r.mode), r.tasks[k], PlayerJoined(id), r.accepted, r.requests);
    }
    NothingWaits(id, r.requests);
    assert r.accepted[|r.accepted|..] == [];
  }

  lemma KickKeepsDelivery(r: Room, kicked: set<u32>)
    requires Delivery(r)
    ensures Delivery(Kick(r, kicked))
  {
    var next := Kick(r, kicked);
    forall k | k in next.tasks
      ensures next.tasks[k].id == k && Conserved(Exact(r.mode), next.tasks[k], r.accepted, r.requests)
    {
      PushConserves(Exact(r.mode), r.tasks[k], Failure(TooManyPlayers), r.accepted, r.requests);
    }
  }

  lemma CoversMore(all: bool, out: seq<Command>, asked: seq<Command>, more: seq<Command>)
    requires Covers(all, out, asked)
    ensures Covers(all, out + more, asked + more)
  {
    if !all {
      WithinExtends(out, asked, more);
    }
  }

  /** What is heard is asked for, */
  lemma HeardIsAsked(heard: seq<ClientMessage>, m: ClientMessage)
    ensures AskedBy(heard + [m]) == AskedBy(heard) + AskedIn(React(m))
  {
    assert (heard + [m])[..|heard|] == heard;
  }

  /** and pending at once. */
  lemma HeardIsPending(p: Player, reaction: Reaction, accepted: seq<Accepted>, requests: seq<Request>)
    requires p.since <= |accepted| && p.phase.Running? && p.inbox != []
    requires reaction.Ask? ==> !reaction.cmd.DropConnection?
    ensures Out(AfterRead(Consumed(p), reaction), accepted, requests) == Out(p, accepted, requests) + AskedIn(reaction)
  {
    var q, out := AfterRead(Consumed(p), reaction), Sent(p.id, accepted[p.since..]) + Waiting(p.id, requests);
    assert q.id == p.id && q.since == p.since;
    assert Pending(q.phase) == AskedIn(reaction) && Pending(p.phase) == [];
    assert out + [] == out;
  }

  lemma GrownConserves(exact: bool, p: Player, q: Player, more: seq<Command>, accepted: seq<Accepted>,
                       requests: seq<Request>)
    requires Conserved(exact, p, accepted, requests) && q.log == p.log && q.since == p.since && q.id == p.id
    requires Out(q, accepted, requests) == Out(p, accepted, requests) + more
    requires AskedBy(q.heard) == AskedBy(p.heard) + more
    ensures Conserved(exact, q, accepted, requests)
  {
    assert Unspoiled(q) == Unspoiled(p);
    CoversMore(exact && Unspoiled(p), Out(p, accepted, requests), AskedBy(p.heard), more);
  }

  lemma ReactionConserves(exact: bool, p: Player, reaction: Reaction, accepted: seq<Accepted>, requests: seq<Request>)
    requires Conserved(exact, p, accepted, requests) && p.phase.Running? && p.inbox != []
    requires reaction.Ask? ==> !reaction.cmd.DropConnection?
    requires AskedBy(p.heard + [p.inbox[0]]) == AskedBy(p.heard) + AskedIn(reaction)
    ensures Conserved(exact, AfterRead(Consumed(p), reaction), accepted, requests)
  {
    HeardIsPending(p, reaction, accepted, requests);
    GrownConserves(exact, p, AfterRead(Consumed(p), reaction), AskedIn(reaction), accepted, requests);
  }

  lemma ReadConserves(exact: bool, p: Player, accepted: seq<Accepted>, requests: seq<Request>)
    requires Conserved(exact, p, accepted, requests) && p.phase.Running? && p.inbox != []
    ensures Conserved(exact, AfterRead(Consumed(p), React(p.inbox[0])), accepted, requests)
  {
    HeardIsAsked(p.heard, p.inbox[0]);
    ReactionConserves(exact, p, React(p.inbox[0]), accepted, requests);
  }

  lemma NothingHeard(capacity: nat, p: Player, act: Act)
    requires !act.ReadClient? && (p.phase.Asking? ==> act.Submit?) && (act.Submit? ==> p.phase.Closing?)
    ensures var q := AfterAct(capacity, p, act);
            q.heard == p.heard && Pending(q.phase) == Pending(p.phase) == []
  {
  }

  /** Any act but queueing a request. */
  lemma ActConserves(exact: bool, capacity: nat, p: Player, act: Act, accepted: seq<Accepted>, requests: seq<Request>)
    requires Conserved(exact, p, accepted, requests) && (act.ReadClient? ==> p.phase.Running? && p.inbox != [])
    requires p.phase.Asking? ==> act.Submit?
    requires act.Submit? ==> p.phase.Closing?
    requires act.TakeNotice? ==> p.phase.Running? && p.cursor < |p.log|
    ensures Conserved(exact, AfterAct(capacity, p, act), accepted, requests)
  {
    if act.ReadClient? {
      ReadConserves(exact, p, accepted, requests);
    } else {
      ActKeepsLog(capacity, p, act);
      NothingHeard(capacity, p, act);
      SameOut(exact, p, AfterAct(capacity, p, act), accepted, requests, accepted, requests);
    }
  }

  /** Queueing a request moves a message from the task to the queue. */
  lemma SubmitConserves(exact: bool, capacity: nat, p: Player, accepted: seq<Accepted>, requests: seq<Request>)
    requires Conserved(exact, p, accepted, requests) && p.phase.Asking?
    ensures Conserved(exact, AfterAct(capacity, p, Submit), accepted, requests + [Request(p.id, p.phase.cmd)])
  {
    var q, req := AfterAct(capacity, p, Submit), Request(p.id, p.phase.cmd);
    WaitingGrows(p.id, requests, req);
    var done, left := Sent(p.id, accepted[p.since..]), Waiting(p.id, requests);
    assert done + (left + Pending(p.phase)) + [] == done + left + Pending(p.phase);
    SameOut(exact, p, q, accepted, requests, accepted, requests + [req]);
  }

  lemma OthersSubmit(exact: bool, p: Player, req: Request, accepted: seq<Accepted>, requests: seq<Request>)
    requires Conserved(exact, p, accepted, requests) && req.player != p.id
    ensures Conserved(exact, p, accepted, requests + [req])
  {
    WaitingGrows(p.id, requests, req);
    assert Waiting(p.id, requests) + [] == Waiting(p.id, requests);
  }

  lemma OthersSubmitAll(exact: bool, tasks: map<u32, Player>, accepted: seq<Accepted>, requests: seq<Request>, id: u32,
                        req: Request)
    requires AllConserved(exact, tasks, accepted, requests) && req.player == id
    ensures forall k :: k in tasks && k != id ==>
              tasks[k].id == k && Conserved(exact, tasks[k], accepted, requests + [req])
  {
    forall k | k in tasks && k != id
      ensures tasks[k].id == k && Conserved(exact, tasks[k], accepted, requests + [req])
    {
      OthersSubmit(exact, tasks[k], req, accepted, requests);
    }
  }

  lemma SubmitsConserve(exact: bool, capacity: nat, tasks: map<u32, Player>, accepted: seq<Accepted>,
                        requests: seq<Request>, id: u32)
    requires AllConserved(exact, tasks, accepted, requests) && id in tasks && tasks[id].phase.Asking?
    ensures AllConserved(exact, tasks[id := AfterAct(capacity, tasks[id], Submit)], accepted,
                         requests + [Request(id, tasks[id].phase.cmd)])
  {
    var req, p := Request(id, tasks[id].phase.cmd), tasks[id];
    OthersSubmitAll(exact, tasks, accepted, requests, id, req);
    SubmitConserves(exact, capacity, p, accepted, requests);
    ActKeepsLog(capacity, p, Submit);
    OneConserves(exact, tasks, accepted, requests + [req], id, AfterAct(capacity, p, Submit));
  }

  lemma ActsConserve(exact: bool, capacity: nat, tasks: map<u32, Player>, accepted: seq<Accepted>,
                     requests: seq<Request>, id: u32, act: Act)
    requires AllConserved(exact, tasks, accepted, requests) && id in tasks && CanAct(tasks[id], act, true, true, true)
    requires !(act.Submit? && tasks[id].phase.Asking?)
    ensures AllConserved(exact, tasks[id := AfterAct(capacity, tasks[id], act)], accepted, requests)
  {
    ActConserves(exact, capacity, tasks[id], act, accepted, requests);
    ActKeepsLog(capacity, tasks[id], act);
    OneConserves(exact, tasks, accepted, requests, id, AfterAct(capacity, tasks[id], act));
  }

  lemma ActKeepsDelivery(capacity: nat, r: Room, id: u32, act: Act)
    requires Delivery(r) && Can(r, PlayerActs(id, act))
    ensures Delivery(AfterPlayerAct(capacity, r, id, act))
  {
    if act.Submit? && r.tasks[id].phase.Asking? {
      SubmitsConserve(Exact(r.mode), capacity, r.tasks, r.accepted, r.requests, id);
    } else {
      ActsConserve(Exact(r.mode), capacity, r.tasks, r.accepted, r.requests, id, act);
    }
  }

  // ----- outside the main loop -----

  lemma Relaxed(exact: bool, p: Player, accepted: seq<Accepted>, requests: seq<Request>)
    requires Conserved(exact, p, accepted, requests)
    ensures Conserved(false, p, accepted, requests)
  {
    WithinItself(AskedBy(p.heard));
  }

  /** A request that is thrown away is out no more; what is left is still in order. */
  lemma ThrownAway(exact: bool, p: Player, accepted: seq<Accepted>, requests: seq<Request>)
    requires requests != [] && Conserved(exact, p, accepted, requests)
    ensures Conserved(false, p, accepted, requests[1..])
  {
    Relaxed(exact, p, accepted, requests);
    if requests[0].player == p.id && requests[0].cmd.SendTo? {
      LeftOut(Sent(p.id, accepted[p.since..]), requests[0].cmd, Waiting(p.id, requests[1..]), Pending(p.phase),
              AskedBy(p.heard));
    } else {
      OthersTaken(false, p, accepted, requests);
    }
  }

  lemma AllThrownAway(exact: bool, tasks: map<u32, Player>, accepted: seq<Accepted>, requests: seq<Request>,
                      tasks': map<u32, Player>)
    requires requests != [] && AllConserved(exact, tasks, accepted, requests)
    requires tasks'.Keys <= tasks.Keys && forall k :: k in tasks' ==> tasks'[k] == tasks[k]
    ensures AllConserved(false, tasks', accepted, requests[1..])
  {
    forall k | k in tasks' ensures tasks'[k].id == k && Conserved(false, tasks'[k], accepted, requests[1..]) {
      ThrownAway(exact, tasks[k], accepted, requests);
    }
  }

  lemma AllRelaxed(exact: bool, tasks: map<u32, Player>, accepted: seq<Accepted>, requests: seq<Request>,
                   tasks': map<u32, Player>)
    requires AllConserved(exact, tasks, accepted, requests)
    requires tasks'.Keys <= tasks.Keys && forall k :: k in tasks' ==> tasks'[k] == tasks[k]
    ensures AllConserved(false, tasks', accepted, requests)
  {
    forall k | k in tasks' ensures tasks'[k].id == k && Conserved(false, tasks'[k], accepted, requests) {
      Relaxed(exact, tasks[k], accepted, requests);
    }
  }

  lemma CloseKeepsDelivery(r: Room, n: Notification, sendToHost: bool, last: Option<CloseTask>)
    requires Delivery(r) && IsTerminal(n)
    ensures Delivery(BeginClose(r, n, sendToHost, last))
  {
    var next := BeginClose(r, n, sendToHost, last);
    forall k | k in next.tasks
      ensures next.tasks[k].id == k && Conserved(false, next.tasks[k], r.accepted, r.requests)
    {
      PushConserves(Exact(r.mode), r.tasks[k], n, r.accepted, r.requests);
      Relaxed(Exact(r.mode), next.tasks[k], r.accepted, r.requests);
    }
  }

  lemma SendKeepsDelivery(r: Room, kind: MessageKind, to: u32, payload: Text)
    requires Delivery(r) && r.mode.Serving? && r.requests != [] && r.requests[0].cmd == SendTo(kind, to, payload)
    ensures Delivery(SendMessage(r.(requests := r.requests[1..]), r.requests[0].player, to, kind, payload))
  {
    var req := r.requests[0];
    if Accepts(r, req.player, to) {
      AcceptKeepsDelivery(r, Accepted(kind, req.player, to, payload));
    } else if req.player in r.tasks {
      RefusalConserves(Exact(r.mode), r.tasks, r.accepted, r.requests, Failure(InvalidDestination));
      RefusalConserves(Exact(r.mode), r.tasks, r.accepted, r.requests, Failure(Policy));
    } else {
      TakenKeepsDelivery(r);
    }
  }

  lemma RequestKeepsDelivery(r: Room)
    requires Delivery(r) && r.mode.Serving? && r.requests != []
    ensures Delivery(HandleRequest(r.(requests := r.requests[1..]), r.requests[0]))
  {
    var req, rest := r.requests[0], r.(requests := r.requests[1..]);
    match req.cmd {
      case SendTo(kind, to, payload) => SendKeepsDelivery(r, kind, to, payload);
      case SealRoom =>
        TakenKeepsDelivery(r);
        TellKeepsDelivery(rest, req.player, Failure(OnlyHostCanSeal));
        CloseKeepsDelivery(rest, RoomSealed, true, None);
      case DropConnection =>
        TakenKeepsDelivery(r);
        DisconnectKeepsDelivery(rest, req.player, []);
        CloseKeepsDelivery(rest, HostLeft, false, None);
    }
  }

  lemma ConfigureKeepsDelivery(r: Room, limits: Limits, kicked: set<u32>)
    requires Delivery(r) && r.mode.Serving?
    ensures Delivery(Reconfigured(r, limits, kicked))
  {
    var updated := r.(limits := limits, quotaEver := if limits.quota > r.quotaEver then limits.quota else r.quotaEver);
    var elapsed := if r.now >= r.created then r.now - r.created else 0;
    if limits.timeLimit <= elapsed {
      CloseKeepsDelivery(updated, Failure(Policy), true, None);
    } else {
      KickKeepsDelivery(updated.(deadline := r.now + (limits.timeLimit - elapsed)), kicked);
    }
  }

  lemma TakeRequestKeepsDelivery(capacity: nat, r: Room)
    requires Delivery(r) && Can(r, TakeRequest)
    ensures Delivery(After(capacity, r, TakeRequest))
  {
    if r.mode.Serving? {
      RequestKeepsDelivery(r);
    } else {
      AllThrownAway(Exact(r.mode), r.tasks, r.accepted, r.requests, After(capacity, r, TakeRequest).tasks);
    }
  }

  lemma TakeCloseKeepsDelivery(capacity: nat, r: Room)
    requires Delivery(r) && Can(r, TakeClose)
    ensures Delivery(After(capacity, r, TakeClose))
  {
    var c, rest := r.closes[0], r.(closes := r.closes[1..]);
    if r.mode.Serving? {
      DisconnectKeepsDelivery(rest, c.player, [CloseTask(c.stream, c.code)]);
      CloseKeepsDelivery(rest, HostLeft, false, Some(CloseTask(c.stream, c.code)));
    }
  }

  lemma StepKeepsDelivery(capacity: nat, r: Room, step: Step)
    requires Delivery(r) && Can(r, step)
    ensures Delivery(After(capacity, r, step))
  {
    match step {
      case Join(id, stream, inbox, others) => ConnectKeepsDelivery(r, id, stream, inbox, others);
      case TakeRequest => TakeRequestKeepsDelivery(capacity, r);
      case TakeClose => TakeCloseKeepsDelivery(capacity, r);
      case Configure(limits, kicked) => ConfigureKeepsDelivery(r, limits, kicked);
      case TimeUp => CloseKeepsDelivery(r, Failure(Policy), true, None);
      case ClosesDrained => AllRelaxed(Exact(r.mode), r.tasks, r.accepted, r.requests, r.tasks);
      case PlayerActs(id, act) => ActKeepsDelivery(capacity, r, id, act);
      case _ =>
    }
  }
}
