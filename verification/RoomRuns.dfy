/**
 The main results about a serving room, over every run: all invariants together, and what they
 mean for the clients at the other end of the wire.
 */
module RoomRuns {
  import opened Common
  import opened RoomCodes
  import opened TextProtocol
  import opened Players
  import opened Rooms
  import opened RoomViews
  import opened RoomQuota
  import opened RoomDelivery
  import opened RoomSafety
  import opened RoomLimits

  ghost predicate Sound(r: Room) {
    && Views(r) && Ledger(r) && Delivery(r) && Endings(r)
    && Punctual(r) && Roomy(r) && Ordered(r) && Shown(r.tasks) && Labelled(r) && ValidLimits(r.limits)
  }

  lemma EmptyIsSound(code: RoomCode, limits: Limits, now: nat)
    requires ValidLimits(limits)
    ensures Sound(Empty(code, limits, now))
  {
  }

  lemma ConnectKeepsRest(r: Room, id: u32, stream: Stream, inbox: seq<ClientMessage>, others: seq<u32>)
    requires Punctual(r) && Ordered(r) && ValidLimits(r.limits) && r.mode.Serving?
    ensures var next := Connect(r, id, stream, inbox, others);
            Punctual(next) && Ordered(next) && ValidLimits(next.limits)
  {
  }

  lemma ConnectKeepsSound(r: Room, id: u32, stream: Stream, inbox: seq<ClientMessage>, others: seq<u32>)
    requires Sound(r) && r.mode.Serving? && |r.tasks| < r.limits.maxPlayers
    requires id !in r.tasks && id !in r.zombies && !Named(r, id)
    requires IsListing(others, NotifyAll(r, PlayerJoined(id)).tasks.Keys)
    ensures Sound(Connect(r, id, stream, inbox, others))
  {
    ConnectKeepsViews(r, id, stream, inbox, others);
    ConnectKeepsLedger(r, id, stream, inbox, others);
    ConnectKeepsDelivery(r, id, stream, inbox, others);
    ConnectKeepsEndings(r, id, stream, inbox, others);
    ConnectKeepsRoomy(r, id, stream, inbox, others);
    ConnectKeepsShown(r, id, stream, inbox, others);
    ConnectKeepsLabelled(r, id, stream, inbox, others);
    ConnectKeepsRest(r, id, stream, inbox, others);
  }

  lemma StartIsSound(code: RoomCode, stream: Stream, inbox: seq<ClientMessage>, limits: Limits, now: nat)
    requires ValidLimits(limits)
    ensures Sound(Start(code, stream, inbox, limits, now))
  {
    EmptyIsSound(code, limits, now);
    ConnectKeepsSound(Empty(code, limits, now), HOST_ID, stream, inbox, []);
  }

  lemma SignalledStartIsSound(code: RoomCode, stream: Stream, inbox: seq<ClientMessage>, limits: Limits, now: nat)
    requires ValidLimits(limits)
    ensures Sound(StartSignalled(code, stream, inbox, limits, now))
  {
    EmptyIsSound(code, limits, now);
    assert Sound(Empty(code, limits, now).(shutdown := true));
    ConnectKeepsSound(Empty(code, limits, now).(shutdown := true), HOST_ID, stream, inbox, []);
  }

  lemma StepKeepsLimitsValid(capacity: nat, r: Room, step: Step)
    requires ValidLimits(r.limits) && Can(r, step)
    ensures ValidLimits(After(capacity, r, step).limits)
  {
    if !step.Configure? {
      StepKeepsSettings(capacity, r, step);
    }
  }

  lemma StepKeepsSound(capacity: nat, r: Room, step: Step)
    requires Sound(r) && Can(r, step)
    ensures Sound(After(capacity, r, step))
  {
    StepKeepsViews(capacity, r, step);
    StepKeepsLedger(capacity, r, step);
    StepKeepsDelivery(capacity, r, step);
    StepKeepsEndings(capacity, r, step);
    StepKeepsPunctual(capacity, r, step);
    StepKeepsRoomy(capacity, r, step);
    StepKeepsOrdered(capacity, r, step);
    StepKeepsShown(capacity, r, step);
    StepKeepsLabelled(capacity, r, step);
    StepKeepsLimitsValid(capacity, r, step);
  }

  /** Every run of every room, whatever its clients, its config and the scheduler do, stays sound. */
  lemma {:induction false} RunsAreSound(capacity: nat, r: Room, steps: seq<Step>)
    requires Sound(r) && IsRun(capacity, r, steps)
    ensures Sound(Final(capacity, r, steps))
    decreases |steps|
  {
    if steps == [] {
    } else {
      StepKeepsSound(capacity, r, steps[0]);
      RunsAreSound(capacity, After(capacity, r, steps[0]), steps[1..]);
    }
  }

  /** And it keeps its code. */
  lemma {:induction false} RunsKeepCode(capacity: nat, r: Room, steps: seq<Step>)
    requires IsRun(capacity, r, steps)
    ensures Final(capacity, r, steps).code == r.code
    decreases |steps|
  {
    if steps == [] {
    } else {
      StepKeepsCode(capacity, r, steps[0]);
      RunsKeepCode(capacity, After(capacity, r, steps[0]), steps[1..]);
    }
  }

  // ----- what a client makes of the texts it is sent -----

  function ClientApplied(view: set<u32>, m: ServerMessage): set<u32> {
    match m
    case Newcomer(id) => view + {id}
    case Departed(id) => view - {id}
    case _ => view
  }

  /** The players a client knows of after reading its messages. */
  function ClientView(wire: seq<ServerMessage>): set<u32> {
    if wire == [] then {} else ClientApplied(ClientView(wire[..|wire| - 1]), wire[|wire| - 1])
  }

  /** The messages of other players a client has read. */
  function ClientRelays(me: u32, wire: seq<ServerMessage>): seq<Accepted> {
    if wire == [] then []
    else
      var last := wire[|wire| - 1];
      ClientRelays(me, wire[..|wire| - 1])
      + if last.From? then [Accepted(last.kind, last.sender, me, last.content)] else []
  }

  /** The client is served and has been shown the whole log. */
  predicate CaughtUp(p: Player) {
    p.phase.Running? && p.cursor == |p.log|
  }

  lemma LastApplied(me: u32, wire: seq<ServerMessage>, m: ServerMessage)
    ensures ClientView(wire + [m]) == ClientApplied(ClientView(wire), m)
    ensures ClientRelays(me, wire + [m])
         == ClientRelays(me, wire) + if m.From? then [Accepted(m.kind, m.sender, me, m.content)] else []
  {
  }

  lemma {:induction false} ViewOfNewcomers(me: u32, id: u32, ids: seq<u32>)
    ensures ClientView([Welcome(id)] + Newcomers(ids)) == Listing(ids)
    ensures ClientRelays(me, [Welcome(id)] + Newcomers(ids)) == []
  {
    if ids == [] {
      assert [Welcome(id)] + Newcomers(ids) == [] + [Welcome(id)];
      LastApplied(me, [], Welcome(id));
    } else {
      var init, last := ids[..|ids| - 1], ids[|ids| - 1];
      assert ids == init + [last];
      ViewOfNewcomers(me, id, init);
      assert [Welcome(id)] + Newcomers(ids) == ([Welcome(id)] + Newcomers(init)) + [Newcomer(last)];
      LastApplied(me, [Welcome(id)] + Newcomers(init), Newcomer(last));
    }
  }

  lemma ClientAfterGreetings(p: Player)
    ensures ClientView(Greetings(p)) == Listing(p.others) && ClientRelays(p.id, Greetings(p)) == []
  {
    ViewOfNewcomers(p.id, p.id, p.others);
    LastApplied(p.id, [Welcome(p.id)] + Newcomers(p.others), RoomIs(p.code));
  }

  lemma ClientAfterNote(me: u32, wire: seq<ServerMessage>, n: Notification)
    ensures ClientView(wire + Note(n)) == Applied(ClientView(wire), n)
    ensures ClientRelays(me, wire + Note(n)) == ClientRelays(me, wire) + RelayIn(me, n)
  {
    match n {
      case PlayerJoined(id) => LastApplied(me, wire, Newcomer(id));
      case PlayerLeft(id) => LastApplied(me, wire, Departed(id));
      case Relayed(kind, sender, payload) => LastApplied(me, wire, From(kind, sender, payload));
      case _ => assert wire + Note(n) == wire;
    }
  }

  /** What the client makes of greetings and notes is what the log says. */
  lemma {:induction false} ClientFollowsLog(p: Player, log: seq<Notification>)
    ensures ClientView(Greetings(p) + Notes(log)) == View(Listing(p.others), log)
    ensures ClientRelays(p.id, Greetings(p) + Notes(log)) == Relays(p.id, log)
  {
    var wire := Greetings(p) + Notes(log);
    if log == [] {
      assert wire == Greetings(p);
      ClientAfterGreetings(p);
    } else {
      var init, n := log[..|log| - 1], log[|log| - 1];
      ClientFollowsLog(p, init);
      assert wire == (Greetings(p) + Notes(init)) + Note(n);
      ClientAfterNote(p.id, Greetings(p) + Notes(init), n);
    }
  }

  lemma WireOfCaughtUp(p: Player)
    requires Faithful(p) && CaughtUp(p)
    ensures ClientView(p.wire) == ViewOf(p) && ClientRelays(p.id, p.wire) == Relays(p.id, p.log)
  {
    assert p.log[..p.cursor] == p.log;
    ClientFollowsLog(p, p.log);
  }

  lemma {:induction false} NotesDoNotWelcome(log: seq<Notification>, m: ServerMessage)
    requires m in Notes(log)
    ensures !m.Welcome? && !m.RoomIs?
    decreases |log|
  {
    if log == [] {
      assert false;
    } else {
      var n := log[|log| - 1];
      if m in Note(n) {
      } else {
        NotesDoNotWelcome(log[..|log| - 1], m);
      }
    }
  }

  lemma GreetingsTell(p: Player, i: nat)
    requires i < |Greetings(p)|
    ensures Greetings(p)[i].Welcome? <==> i == 0
    ensures Greetings(p)[i].RoomIs? <==> i == |p.others| + 1
    ensures Greetings(p)[0] == Welcome(p.id) && Greetings(p)[|p.others| + 1] == RoomIs(p.code)
  {
  }

  lemma WireTells(p: Player, i: nat)
    requires Faithful(p) && i < |p.wire|
    ensures p.wire[i].Welcome? <==> i == 0
    ensures p.wire[i].RoomIs? <==> i == |p.others| + 1
    ensures i == 0 ==> p.wire[i] == Welcome(p.id)
    ensures i == |p.others| + 1 ==> p.wire[i] == RoomIs(p.code)
  {
    var shown := Display(p, p.cursor);
    assert p.wire[i] == shown[i];
    if i < |Greetings(p)| {
      GreetingsTell(p, i);
    } else {
      assert shown[i] == Notes(p.log[..p.cursor])[i - |Greetings(p)|];
      NotesDoNotWelcome(p.log[..p.cursor], shown[i]);
    }
  }

  /**
   What every client is told of itself and its room, over every run: its own id, first, and the code the room
   was opened with, after the ids of the others; neither of them ever again.
   */
  lemma {:induction false} ClientIsToldItsRoom(capacity: nat, r: Room, steps: seq<Step>, id: u32, i: nat)
    requires Sound(r) && IsRun(capacity, r, steps)
    requires id in Final(capacity, r, steps).tasks && i < |Final(capacity, r, steps).tasks[id].wire|
    ensures var p := Final(capacity, r, steps).tasks[id];
            && (p.wire[i].Welcome? <==> i == 0) && (p.wire[i].RoomIs? <==> i == |p.others| + 1)
            && (p.wire[i].Welcome? ==> p.wire[i].id == id) && (p.wire[i].RoomIs? ==> p.wire[i].code == r.code)
  {
    RunsAreSound(capacity, r, steps);
    RunsKeepCode(capacity, r, steps);
    WireTells(Final(capacity, r, steps).tasks[id], i);
  }

  lemma MemberIsSound(r: Room, id: u32)
    requires Sound(r) && r.mode.Serving? && id in r.tasks
    ensures r.tasks[id].id == id && Faithful(r.tasks[id]) && SeesRoom(r.tasks[id], r.tasks.Keys, r.zombies)
    ensures !r.shutdown ==> forall z :: z in r.zombies ==> HasTerminal(r, z)
  {
  }

  lemma PictureIsExact(r: Room, view: set<u32>, id: u32)
    requires r.tasks.Keys - {id} <= view <= r.tasks.Keys + r.zombies && id !in view
    requires !r.shutdown ==> forall z :: z in r.zombies ==> HasTerminal(r, z)
    ensures !r.shutdown ==> forall z :: z in view && z !in r.tasks ==> HasTerminal(r, z)
    ensures (forall z :: z !in r.tasks ==> !HasTerminal(r, z)) && !r.shutdown ==> view == r.tasks.Keys - {id}
  {
  }

  lemma KnowsRoom(p: Player, members: set<u32>, zombies: set<u32>)
    requires Faithful(p) && CaughtUp(p) && SeesRoom(p, members, zombies)
    ensures members - {p.id} <= ClientView(p.wire) <= members + zombies && p.id !in ClientView(p.wire)
  {
    WireOfCaughtUp(p);
  }

  /**
   Every client that has been shown everything knows every other member, never itself, and
   otherwise only players whose terminal request is still queued. Without those, its picture is exact.
   */
  lemma ClientKnowsRoom(r: Room, id: u32)
    requires Sound(r) && r.mode.Serving? && id in r.tasks && CaughtUp(r.tasks[id])
    ensures r.tasks.Keys - {id} <= ClientView(r.tasks[id].wire) <= r.tasks.Keys + r.zombies
    ensures id !in ClientView(r.tasks[id].wire)
    ensures !r.shutdown ==> forall z :: z in ClientView(r.tasks[id].wire) && z !in r.tasks ==> HasTerminal(r, z)
    ensures (forall z :: z !in r.tasks ==> !HasTerminal(r, z)) && !r.shutdown ==>
              ClientView(r.tasks[id].wire) == r.tasks.Keys - {id}
  {
    MemberIsSound(r, id);
    KnowsRoom(r.tasks[id], r.tasks.Keys, r.zombies);
    PictureIsExact(r, ClientView(r.tasks[id].wire), id);
  }

  /** At the point of the log where a message reaches q, its sender is in q's view. */
  lemma SenderIsInView(r: Room, q: u32, i: nat)
    requires Sound(r) && q in r.tasks && i < |r.tasks[q].log| && r.tasks[q].log[i].Relayed?
    ensures r.tasks[q].log[i].sender in View(Listing(r.tasks[q].others), r.tasks[q].log[..i])
    ensures i <= r.tasks[q].cursor ==>
              r.tasks[q].log[i].sender in ClientView(Greetings(r.tasks[q]) + Notes(r.tasks[q].log[..i]))
  {
    assert MayFollow(q, View(Listing(r.tasks[q].others), r.tasks[q].log[..i]), r.tasks[q].log[i]);
    ClientFollowsLog(r.tasks[q], r.tasks[q].log[..i]);
  }

  /** No pair of members ever exchanges more messages than the largest quota that was in force. */
  lemma ClientsAreNotFlooded(r: Room, p: u32, q: u32)
    requires Sound(r) && r.mode.Serving? && p in r.tasks && q in r.tasks && p != q
    ensures RelayedSince(r.tasks[q].log, p) == Count(r.tasks[p], q) <= r.quotaEver
  {
    QuotaHolds(r, p, q);
  }
}
