/**
 What the members of a room know of each other: folding the ids a player was greeted with and
 the notifications since gives the membership of the room, up to players whose death the room
 has noticed but not yet announced.
 */
module RoomViews {
  import opened Common
  import opened TextProtocol
  import opened Players
  import opened Rooms

  function Applied(view: set<u32>, n: Notification): set<u32> {
    match n
    case PlayerJoined(id) => view + {id}
    case PlayerLeft(id) => view - {id}
    case _ => view
  }

  function View(others: set<u32>, log: seq<Notification>): set<u32> {
    if log == [] then others else Applied(View(others, log[..|log| - 1]), log[|log| - 1])
  }

  function Listing(ids: seq<u32>): set<u32> { set id | id in ids }

  function ViewOf(p: Player): set<u32> {
    View(Listing(p.others), p.log)
  }

  predicate SeesRoom(p: Player, members: set<u32>, zombies: set<u32>) {
    members - {p.id} <= ViewOf(p) <= members + zombies && p.id !in ViewOf(p)
  }

  /** What may follow in the log of a player whose view so far is given. */
  predicate MayFollow(id: u32, view: set<u32>, n: Notification) {
    match n
    case PlayerJoined(other) => other != id && other !in view
    case PlayerLeft(other) => other != id
    case Relayed(_, sender, _) => sender != id && sender in view
    case _ => true
  }

  /** Nobody joins twice, nobody hears of itself, and messages come only from players in view. */
  ghost predicate Coherent(p: Player) {
    forall i :: 0 <= i < |p.log| ==> MayFollow(p.id, View(Listing(p.others), p.log[..i]), p.log[i])
  }

  ghost predicate Agree(tasks: map<u32, Player>, zombies: set<u32>) {
    tasks.Keys !! zombies && forall id :: id in tasks ==> SeesRoom(tasks[id], tasks.Keys, zombies)
  }

  ghost predicate AllCoherent(tasks: map<u32, Player>) {
    forall id :: id in tasks ==> tasks[id].id == id && Coherent(tasks[id])
  }

  /** The invariant; agreement is claimed while the main loop runs. */
  ghost predicate Views(r: Room) {
    AllCoherent(r.tasks) && (r.mode.Serving? ==> Agree(r.tasks, r.zombies))
  }

  lemma PushView(p: Player, n: Notification)
    ensures ViewOf(Pushed(p, n)) == Applied(ViewOf(p), n)
    ensures Coherent(p) && MayFollow(p.id, ViewOf(p), n) ==> Coherent(Pushed(p, n))
  {
    var log := Pushed(p, n).log;
    assert log[..|p.log|] == p.log;
    forall i | 0 <= i < |p.log| ensures log[..i] == p.log[..i] && log[i] == p.log[i] {}
  }

  lemma SeesJoin(p: Player, id: u32, members: set<u32>, zombies: set<u32>, members': set<u32>, zombies': set<u32>)
    requires SeesRoom(p, members, zombies) && Coherent(p)
    requires id != p.id && id !in members && id !in zombies
    requires id in members' && members' <= members + {id} && members + zombies <= members' + zombies'
    ensures SeesRoom(Pushed(p, PlayerJoined(id)), members', zombies') && Coherent(Pushed(p, PlayerJoined(id)))
  {
    PushView(p, PlayerJoined(id));
  }

  lemma SeesLeave(p: Player, id: u32, members: set<u32>, zombies: set<u32>, members': set<u32>, zombies': set<u32>)
    requires SeesRoom(p, members, zombies) && Coherent(p)
    requires id != p.id && members' <= members - {id} && members + zombies - {id} <= members' + zombies'
    ensures SeesRoom(Pushed(p, PlayerLeft(id)), members', zombies') && Coherent(Pushed(p, PlayerLeft(id)))
  {
    PushView(p, PlayerLeft(id));
  }

  lemma NewcomerSees(r: Room, id: u32, stream: Stream, inbox: seq<ClientMessage>, others: seq<u32>, members: set<u32>)
    requires IsListing(others, members)
    ensures ViewOf(NewPlayer(r, id, stream, inbox, others)) == members
    ensures Coherent(NewPlayer(r, id, stream, inbox, others))
  {
  }

  lemma ConnectKeepsViews(r: Room, id: u32, stream: Stream, inbox: seq<ClientMessage>, others: seq<u32>)
    requires Views(r) && r.mode.Serving? && id !in r.tasks && id !in r.zombies
    requires IsListing(others, NotifyAll(r, PlayerJoined(id)).tasks.Keys)
    ensures Views(Connect(r, id, stream, inbox, others))
  {
    var told, next := NotifyAll(r, PlayerJoined(id)), Connect(r, id, stream, inbox, others);
    assert next.tasks.Keys == told.tasks.Keys + {id};
    forall k | k in told.tasks
      ensures next.tasks[k].id == k && Coherent(next.tasks[k]) && SeesRoom(next.tasks[k], next.tasks.Keys, next.zombies)
    {
      SeesJoin(r.tasks[k], id, r.tasks.Keys, r.zombies, next.tasks.Keys, next.zombies);
    }
    NewcomerSees(r, id, stream, inbox, others, told.tasks.Keys);
  }

  lemma DisconnectKeepsViews(r: Room, id: u32, closing: seq<CloseTask>)
    requires Views(r) && r.mode.Serving?
    ensures Views(Disconnect(r, id, closing))
  {
    var next := Disconnect(r, id, closing);
    forall k | k in next.tasks
      ensures next.tasks[k].id == k && Coherent(next.tasks[k]) && SeesRoom(next.tasks[k], next.tasks.Keys, next.zombies)
    {
      var p := Forget(r.tasks[k], id);
      assert ViewOf(p) == ViewOf(r.tasks[k]) && Coherent(p);
      SeesLeave(p, id, r.tasks.Keys, r.zombies, next.tasks.Keys, next.zombies);
    }
  }

  /** Telling one player something that is not about membership. */
  lemma TellKeepsViews(r: Room, id: u32, n: Notification)
    requires Views(r) && IsTerminal(n)
    ensures Views(Tell(r, id, n))
  {
    if id in r.tasks {
      PushView(r.tasks[id], n);
    }
  }

  lemma PassKeepsAgreement(tasks: map<u32, Player>, zombies: set<u32>, sender: u32, to: u32, n: Notification)
    requires AllCoherent(tasks) && Agree(tasks, zombies)
    requires sender in tasks && to in tasks && sender != to && n.Relayed? && n.sender == sender
    ensures AllCoherent(Passed(tasks, sender, to, n)) && Agree(Passed(tasks, sender, to, n), zombies)
  {
    var tasks' := Passed(tasks, sender, to, n);
    assert tasks'.Keys == tasks.Keys;
    assert SeesRoom(tasks[to], tasks.Keys, zombies);
    PushView(tasks[to], n);
    forall k | k in tasks ensures tasks'[k].id == k && Coherent(tasks'[k]) && ViewOf(tasks'[k]) == ViewOf(tasks[k]) {
      if k != to {
        assert tasks'[k].log == tasks[k].log;
      }
    }
  }

  lemma SendKeepsViews(r: Room, sender: u32, to: u32, kind: MessageKind, payload: Text)
    requires Views(r) && r.mode.Serving?
    ensures Views(SendMessage(r, sender, to, kind, payload))
  {
    if Accepts(r, sender, to) {
      PassKeepsAgreement(r.tasks, r.zombies, sender, to, Relayed(kind, sender, payload));
    } else {
      TellKeepsViews(r, sender, Failure(InvalidDestination));
      TellKeepsViews(r, sender, Failure(Policy));
    }
  }

  lemma CloseKeepsViews(r: Room, n: Notification, sendToHost: bool, last: Option<CloseTask>)
    requires Views(r) && IsTerminal(n)
    ensures Views(BeginClose(r, n, sendToHost, last))
  {
    var next := BeginClose(r, n, sendToHost, last);
    forall id | id in next.tasks ensures next.tasks[id].id == id && Coherent(next.tasks[id]) {
      PushView(r.tasks[id], n);
    }
  }

  lemma KickKeepsViews(r: Room, kicked: set<u32>)
    requires Views(r)
    ensures Views(Kick(r, kicked))
  {
    var next := Kick(r, kicked);
    forall id | id in next.tasks
      ensures next.tasks[id].id == id && Coherent(next.tasks[id]) && ViewOf(next.tasks[id]) == ViewOf(r.tasks[id])
    {
      PushView(r.tasks[id], Failure(TooManyPlayers));
    }
    assert next.tasks.Keys == r.tasks.Keys;
  }

  /** A task never touches what the room keeps about its player. */
  lemma ActKeepsLog(capacity: nat, p: Player, act: Act)
    ensures var q := AfterAct(capacity, p, act);
            q.id == p.id && q.others == p.others && q.log == p.log && q.msgSent == p.msgSent && q.since == p.since
  {
  }

  lemma ActKeepsViews(capacity: nat, r: Room, id: u32, act: Act)
    requires Views(r) && id in r.tasks
    ensures Views(AfterPlayerAct(capacity, r, id, act))
  {
    var next := AfterPlayerAct(capacity, r, id, act);
    ActKeepsLog(capacity, r.tasks[id], act);
    assert ViewOf(next.tasks[id]) == ViewOf(r.tasks[id]) && Coherent(next.tasks[id]);
    assert next.tasks.Keys == r.tasks.Keys;
  }

  lemma RequestKeepsViews(r: Room, req: Request)
    requires Views(r)
    ensures Views(HandleRequest(r, req))
  {
    if r.mode.Serving? {
      match req.cmd {
        case SealRoom =>
          CloseKeepsViews(r, RoomSealed, true, None);
          TellKeepsViews(r, req.player, Failure(OnlyHostCanSeal));
        case SendTo(kind, to, payload) => SendKeepsViews(r, req.player, to, kind, payload);
        case DropConnection =>
          CloseKeepsViews(r, HostLeft, false, None);
          DisconnectKeepsViews(r, req.player, []);
      }
    }
  }

  lemma CloseRequestKeepsViews(r: Room, c: CloseRequest)
    requires Views(r)
    ensures Views(HandleClose(r, c))
  {
    if r.mode.Serving? {
      CloseKeepsViews(r, HostLeft, false, Some(CloseTask(c.stream, c.code)));
      DisconnectKeepsViews(r, c.player, [CloseTask(c.stream, c.code)]);
    }
  }

  lemma ConfigureKeepsViews(r: Room, limits: Limits, kicked: set<u32>)
    requires Views(r) && r.mode.Serving?
    ensures Views(Reconfigured(r, limits, kicked))
  {
    var updated := r.(limits := limits, quotaEver := if limits.quota > r.quotaEver then limits.quota else r.quotaEver);
    var elapsed := if r.now >= r.created then r.now - r.created else 0;
    if limits.timeLimit <= elapsed {
      CloseKeepsViews(updated, Failure(Policy), true, None);
    } else {
      KickKeepsViews(updated.(deadline := r.now + (limits.timeLimit - elapsed)), kicked);
    }
  }

  lemma StepKeepsViews(capacity: nat, r: Room, step: Step)
    requires Views(r) && Can(r, step)
    ensures Views(After(capacity, r, step))
  {
    match step {
      case Join(id, stream, inbox, others) => ConnectKeepsViews(r, id, stream, inbox, others);
      case TakeRequest => RequestKeepsViews(r.(requests := r.requests[1..]), r.requests[0]);
      case TakeClose => CloseRequestKeepsViews(r.(closes := r.closes[1..]), r.closes[0]);
      case Configure(limits, kicked) => ConfigureKeepsViews(r, limits, kicked);
      case TimeUp => CloseKeepsViews(r, Failure(Policy), true, None);
      case PlayerActs(id, act) => ActKeepsViews(capacity, r, id, act);
      case _ =>
    }
  }
}
