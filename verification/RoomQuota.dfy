/**
 Message quotas: the counters of a room are exactly the messages it accepted, pair by pair,
 since the receiver joined, and no pair ever exceeds the largest quota that was in force.
 */
module RoomQuota {
  import opened Common
  import opened TextProtocol
  import opened Players
  import opened Rooms
  import opened RoomViews

  /** How many messages of `sender` the log holds since it last mentions the sender joining or leaving. */
  function RelayedSince(log: seq<Notification>, sender: u32): nat {
    if log == [] then 0
    else
      var earlier := log[..|log| - 1];
      match log[|log| - 1]
      case PlayerJoined(id) => if id == sender then 0 else RelayedSince(earlier, sender)
      case PlayerLeft(id) => if id == sender then 0 else RelayedSince(earlier, sender)
      case Relayed(_, id, _) => RelayedSince(earlier, sender) + if id == sender then 1 else 0
      case _ => RelayedSince(earlier, sender)
  }

  /** The counters of one player against the logs of the others. */
  ghost predicate Balanced(id: u32, msgSent: map<u32, nat>, tasks: map<u32, Player>, zombies: set<u32>,
                           quotaEver: nat)
  {
    && (forall q :: q in tasks && q != id ==> CountIn(msgSent, q) == RelayedSince(tasks[q].log, id))
    && (forall q :: q in msgSent ==> q != id && (q in tasks || q in zombies) && msgSent[q] <= quotaEver)
  }

  ghost predicate AllBalanced(tasks: map<u32, Player>, zombies: set<u32>, quotaEver: nat) {
    forall id :: id in tasks ==> tasks[id].id == id && Balanced(id, tasks[id].msgSent, tasks, zombies, quotaEver)
  }

  /** The invariant, while the main loop runs. */
  ghost predicate Ledger(r: Room) {
    r.limits.quota <= r.quotaEver && (r.mode.Serving? ==> AllBalanced(r.tasks, r.zombies, r.quotaEver))
  }

  lemma PushCounts(p: Player, n: Notification, sender: u32)
    ensures RelayedSince(Pushed(p, n).log, sender)
         == match n
            case PlayerJoined(id) => if id == sender then 0 else RelayedSince(p.log, sender)
            case PlayerLeft(id) => if id == sender then 0 else RelayedSince(p.log, sender)
            case Relayed(_, id, _) => RelayedSince(p.log, sender) + if id == sender then 1 else 0
            case _ => RelayedSince(p.log, sender)
  {
  }

  /** The counters of p stay right when the room changes around it without touching what they count. */
  lemma StaysBalanced(id: u32, msgSent: map<u32, nat>, tasks: map<u32, Player>, zombies: set<u32>, quotaEver: nat,
                      tasks': map<u32, Player>, zombies': set<u32>, quotaEver': nat)
    requires Balanced(id, msgSent, tasks, zombies, quotaEver) && quotaEver <= quotaEver'
    requires tasks'.Keys <= tasks.Keys && tasks.Keys + zombies <= tasks'.Keys + zombies'
    requires forall q :: q in tasks' && q != id ==> RelayedSince(tasks'[q].log, id) == RelayedSince(tasks[q].log, id)
    ensures Balanced(id, msgSent, tasks', zombies', quotaEver')
  {
  }

  /** Telling everybody about the coming or going of somebody who is not a member. */
  lemma NotifyKeepsLedger(r: Room, n: Notification)
    requires Ledger(r) && r.mode.Serving? && (n.PlayerJoined? || n.PlayerLeft?) && n.id !in r.tasks
    ensures Ledger(NotifyAll(r, n))
  {
    var next := NotifyAll(r, n);
    forall k | k in next.tasks ensures Balanced(k, next.tasks[k].msgSent, next.tasks, next.zombies, next.quotaEver) {
      forall q | q in next.tasks ensures RelayedSince(next.tasks[q].log, k) == RelayedSince(r.tasks[q].log, k) {
        PushCounts(r.tasks[q], n, k);
      }
      StaysBalanced(k, r.tasks[k].msgSent, r.tasks, r.zombies, r.quotaEver, next.tasks, next.zombies, next.quotaEver);
    }
  }

  /** A newcomer with an empty log and no counters, whom no counter mentions. */
  lemma NewcomerBalances(tasks: map<u32, Player>, zombies: set<u32>, quotaEver: nat, id: u32, p: Player)
    requires AllBalanced(tasks, zombies, quotaEver) && id !in tasks && id !in zombies
    requires p.id == id && p.log == [] && p.msgSent == map[]
    requires forall q :: q in tasks ==> RelayedSince(tasks[q].log, id) == 0
    ensures AllBalanced(tasks[id := p], zombies, quotaEver)
  {
  }

  lemma ConnectKeepsLedger(r: Room, id: u32, stream: Stream, inbox: seq<ClientMessage>, others: seq<u32>)
    requires Ledger(r) && r.mode.Serving? && id !in r.tasks && id !in r.zombies
    ensures Ledger(Connect(r, id, stream, inbox, others))
  {
    NotifyKeepsLedger(r, PlayerJoined(id));
    var told := NotifyAll(r, PlayerJoined(id));
    forall q | q in told.tasks ensures RelayedSince(told.tasks[q].log, id) == 0 {
      PushCounts(r.tasks[q], PlayerJoined(id), id);
    }
    NewcomerBalances(told.tasks, told.zombies, told.quotaEver, id, NewPlayer(r, id, stream, inbox, others));
  }

  lemma DisconnectKeepsLedger(r: Room, id: u32, closing: seq<CloseTask>)
    requires Ledger(r) && r.mode.Serving?
    ensures Ledger(Disconnect(r, id, closing))
  {
    var without := Without(r, id, closing);
    forall k | k in without.tasks
      ensures Balanced(k, without.tasks[k].msgSent, without.tasks, without.zombies, without.quotaEver)
    {
      assert Balanced(k, r.tasks[k].msgSent, r.tasks, r.zombies, r.quotaEver);
    }
    NotifyKeepsLedger(without, PlayerLeft(id));
  }

  /** Replacing one player by one with the same counters, whose log counts everybody the same. */
  lemma StaysBalancedReplacing(tasks: map<u32, Player>, zombies: set<u32>, quotaEver: nat, id: u32, p: Player)
    requires AllBalanced(tasks, zombies, quotaEver) && id in tasks
    requires p.id == id && p.msgSent == tasks[id].msgSent
    requires forall k :: k in tasks ==> RelayedSince(p.log, k) == RelayedSince(tasks[id].log, k)
    ensures AllBalanced(tasks[id := p], zombies, quotaEver)
  {
  }

  lemma TellKeepsLedger(r: Room, id: u32, n: Notification)
    requires Ledger(r) && IsTerminal(n)
    ensures Ledger(Tell(r, id, n))
  {
    if id in r.tasks && r.mode.Serving? {
      forall k | k in r.tasks ensures RelayedSince(Pushed(r.tasks[id], n).log, k) == RelayedSince(r.tasks[id].log, k) {
        PushCounts(r.tasks[id], n, k);
      }
      StaysBalancedReplacing(r.tasks, r.zombies, r.quotaEver, id, Pushed(r.tasks[id], n));
    }
  }

  /** One more message counted, one more in the receiver's log. */
  lemma CountingBalances(id: u32, msgSent: map<u32, nat>, to: u32, tasks: map<u32, Player>, zombies: set<u32>,
                         quotaEver: nat, tasks': map<u32, Player>)
    requires Balanced(id, msgSent, tasks, zombies, quotaEver) && to in tasks
    requires to != id && CountIn(msgSent, to) < quotaEver
    requires tasks'.Keys == tasks.Keys
    requires RelayedSince(tasks'[to].log, id) == RelayedSince(tasks[to].log, id) + 1
    requires forall q :: q in tasks && q != to && q != id ==> tasks'[q].log == tasks[q].log
    ensures Balanced(id, msgSent[to := CountIn(msgSent, to) + 1], tasks', zombies, quotaEver)
  {
  }

  /** One log and one counter change. */
  lemma PassChanges(tasks: map<u32, Player>, sender: u32, to: u32, n: Notification, k: u32)
    requires sender in tasks && to in tasks && sender != to && k in tasks
    ensures var tasks' := Passed(tasks, sender, to, n);
            && tasks'.Keys == tasks.Keys && tasks'[to].log == Pushed(tasks[to], n).log
            && (forall q :: q in tasks && q != to ==> tasks'[q].log == tasks[q].log)
            && tasks'[k].msgSent
               == if k == sender then tasks[k].msgSent[to := CountIn(tasks[k].msgSent, to) + 1] else tasks[k].msgSent
  {
  }

  lemma PassKeepsBalanceOf(k: u32, tasks: map<u32, Player>, zombies: set<u32>, quotaEver: nat,
                           sender: u32, to: u32, n: Notification)
    requires k in tasks && Balanced(k, tasks[k].msgSent, tasks, zombies, quotaEver)
    requires sender in tasks && to in tasks && sender != to && Count(tasks[sender], to) < quotaEver
    requires n.Relayed? && n.sender == sender
    ensures Balanced(k, Passed(tasks, sender, to, n)[k].msgSent, Passed(tasks, sender, to, n), zombies, quotaEver)
  {
    var tasks' := Passed(tasks, sender, to, n);
    PassChanges(tasks, sender, to, n, k);
    PushCounts(tasks[to], n, k);
    if k == sender {
      CountingBalances(k, tasks[k].msgSent, to, tasks, zombies, quotaEver, tasks');
    } else {
      StaysBalanced(k, tasks[k].msgSent, tasks, zombies, quotaEver, tasks', zombies, quotaEver);
    }
  }

  lemma PassKeepsBalance(tasks: map<u32, Player>, zombies: set<u32>, quotaEver: nat, sender: u32, to: u32,
                         n: Notification)
    requires AllBalanced(tasks, zombies, quotaEver)
    requires sender in tasks && to in tasks && sender != to && Count(tasks[sender], to) < quotaEver
    requires n.Relayed? && n.sender == sender
    ensures AllBalanced(Passed(tasks, sender, to, n), zombies, quotaEver)
  {
    var tasks' := Passed(tasks, sender, to, n);
    assert tasks'.Keys == tasks.Keys;
    forall k | k in tasks ensures tasks'[k].id == k && Balanced(k, tasks'[k].msgSent, tasks', zombies, quotaEver) {
      PassKeepsBalanceOf(k, tasks, zombies, quotaEver, sender, to, n);
    }
  }

  lemma SendKeepsLedger(r: Room, sender: u32, to: u32, kind: MessageKind, payload: Text)
    requires Ledger(r) && r.mode.Serving?
    ensures Ledger(SendMessage(r, sender, to, kind, payload))
  {
    if Accepts(r, sender, to) {
      PassKeepsBalance(r.tasks, r.zombies, r.quotaEver, sender, to, Relayed(kind, sender, payload));
    } else {
      TellKeepsLedger(r, sender, Failure(InvalidDestination));
      TellKeepsLedger(r, sender, Failure(Policy));
    }
  }

  lemma KickKeepsLedger(r: Room, kicked: set<u32>)
    requires Ledger(r)
    ensures Ledger(Kick(r, kicked))
  {
    var tasks' := Kick(r, kicked).tasks;
    if r.mode.Serving? {
      forall k | k in tasks' ensures Balanced(k, tasks'[k].msgSent, tasks', r.zombies, r.quotaEver) {
        forall q | q in tasks' ensures RelayedSince(tasks'[q].log, k) == RelayedSince(r.tasks[q].log, k) {
          PushCounts(r.tasks[q], Failure(TooManyPlayers), k);
        }
        StaysBalanced(k, r.tasks[k].msgSent, r.tasks, r.zombies, r.quotaEver, tasks', r.zombies, r.quotaEver);
      }
    }
  }

  lemma ConfigureKeepsLedger(r: Room, limits: Limits, kicked: set<u32>)
    requires Ledger(r)
    ensures Ledger(Reconfigured(r, limits, kicked))
  {
    var updated := r.(limits := limits, quotaEver := if limits.quota > r.quotaEver then limits.quota else r.quotaEver);
    var elapsed := if r.now >= r.created then r.now - r.created else 0;
    if limits.timeLimit > elapsed {
      KickKeepsLedger(updated.(deadline := r.now + (limits.timeLimit - elapsed)), kicked);
    }
  }

  lemma ActKeepsLedger(capacity: nat, r: Room, id: u32, act: Act)
    requires Ledger(r) && id in r.tasks
    ensures Ledger(AfterPlayerAct(capacity, r, id, act))
  {
    if r.mode.Serving? {
      ActKeepsLog(capacity, r.tasks[id], act);
      StaysBalancedReplacing(r.tasks, r.zombies, r.quotaEver, id, AfterAct(capacity, r.tasks[id], act));
    }
  }

  lemma RequestKeepsLedger(r: Room, req: Request)
    requires Ledger(r)
    ensures Ledger(HandleRequest(r, req))
  {
    if r.mode.Serving? {
      match req.cmd {
        case SealRoom => TellKeepsLedger(r, req.player, Failure(OnlyHostCanSeal));
        case SendTo(kind, to, payload) => SendKeepsLedger(r, req.player, to, kind, payload);
        case DropConnection => DisconnectKeepsLedger(r, req.player, []);
      }
    }
  }

  lemma StepKeepsLedger(capacity: nat, r: Room, step: Step)
    requires Ledger(r) && Can(r, step)
    ensures Ledger(After(capacity, r, step))
  {
    match step {
      case Join(id, stream, inbox, others) => ConnectKeepsLedger(r, id, stream, inbox, others);
      case TakeRequest => RequestKeepsLedger(r.(requests := r.requests[1..]), r.requests[0]);
      case TakeClose =>
        if r.mode.Serving? {
          var c := r.closes[0];
          DisconnectKeepsLedger(r.(closes := r.closes[1..]), c.player, [CloseTask(c.stream, c.code)]);
        }
      case Configure(limits, kicked) => ConfigureKeepsLedger(r, limits, kicked);
      case PlayerActs(id, act) => ActKeepsLedger(capacity, r, id, act);
      case _ =>
    }
  }

  /** What the invariant means: no pair of members ever exceeds the largest quota so far. */
  lemma QuotaHolds(r: Room, p: u32, q: u32)
    requires Ledger(r) && r.mode.Serving? && p in r.tasks && q in r.tasks && p != q
    ensures RelayedSince(r.tasks[q].log, p) == Count(r.tasks[p], q) <= r.quotaEver
  {
  }
}
