/**
 The ids of players. A room checks a new id against its map only. That is not enough: a terminal
 request can outlive its player, and if its id is given out again, the room takes the request for the
 newcomer's and waits for a live task. Exactly when an id is safe is shown here, and that the
 dangerous situation can arise.
 */
module RoomIds {
  import opened Common
  import opened RoomCodes
  import opened Players
  import opened Rooms
  import opened RoomViews
  import opened RoomDelivery
  import opened RoomSafety
  import opened RoomRuns
  import opened RoomEndings

  /** What the room checks before it takes a newcomer in. */
  predicate Admissible(r: Room, id: u32) {
    r.mode.Serving? && |r.tasks| < r.limits.maxPlayers && 2 <= id < 0x7FFF_FFFF && id !in r.tasks
  }

  /** Whoever knows a player of that id is told that it joins, once more. */
  lemma KnownIdMisleads(r: Room, id: u32, stream: Stream, inbox: seq<ClientMessage>, others: seq<u32>, k: u32)
    requires k in r.tasks && k != id && !r.tasks[k].phase.Done? && id in ViewOf(r.tasks[k])
    ensures k in Connect(r, id, stream, inbox, others).tasks
    ensures !Coherent(Connect(r, id, stream, inbox, others).tasks[k])
  {
    var p := r.tasks[k];
    var q := Pushed(p, PlayerJoined(id));
    assert q.log[..|p.log|] == p.log && q.log[|p.log|] == PlayerJoined(id);
    assert !MayFollow(q.id, View(Listing(q.others), q.log[..|p.log|]), q.log[|p.log|]);
    assert Connect(r, id, stream, inbox, others).tasks[k] == q;
  }

  /**
   A zombie's id breaks the account of who is still to be announced. After a shutdown that can be all: a zombie
   that nobody knows, with nothing queued, misleads nobody. Before one, it always has a terminal request queued.
   */
  lemma ZombieIdMisleads(r: Room, id: u32, stream: Stream, inbox: seq<ClientMessage>, others: seq<u32>)
    requires r.mode.Serving? && id in r.zombies
    ensures !Views(Connect(r, id, stream, inbox, others))
  {
    var next := Connect(r, id, stream, inbox, others);
    assert id in next.tasks.Keys && id in next.zombies;
  }

  lemma TerminalHitsNewcomer(r: Room, id: u32, stream: Stream, inbox: seq<ClientMessage>, others: seq<u32>)
    requires HasTerminal(r, id)
    ensures !Endings(Connect(r, id, stream, inbox, others))
  {
    var next := Connect(r, id, stream, inbox, others);
    assert HasTerminal(next, id) && !Ended(next.tasks[id]);
  }

  /** A message queued by the player before is counted as the newcomer's, which has not asked for it. */
  lemma MessageIsMiscredited(r: Room, id: u32, stream: Stream, inbox: seq<ClientMessage>, others: seq<u32>)
    requires r.mode.Serving? && Waiting(id, r.requests) != []
    ensures !Delivery(Connect(r, id, stream, inbox, others))
  {
    var p := NewPlayer(r, id, stream, inbox, others);
    assert r.accepted[|r.accepted|..] == [] && Unspoiled(p);
    assert Out(p, r.accepted, r.requests) == Waiting(id, r.requests) != AskedBy(p.heard);
    assert Connect(r, id, stream, inbox, others).tasks[id] == p;
  }

  /** Nothing is queued for the id but seals, and it is not a zombie's. */
  predicate Safe(r: Room, id: u32) {
    id !in r.zombies && !HasTerminal(r, id) && Waiting(id, r.requests) == []
  }

  lemma SafeIsFresh(r: Room, id: u32)
    requires Admissible(r, id)
    ensures Safe(r, id) <==> Fresh(r, id)
  {
    NothingWaits(id, r.requests);
    if Safe(r, id) {
      assert forall q ::
               q in r.requests && q.player == id && q.cmd.DropConnection? ==> q == Request(id, DropConnection);
    }
  }

  /**
   An id that passes the room's check keeps the room sound if and only if nobody of that id is still owed an
   announcement, and no drop, close or message of that id is queued.
   */
  lemma IdIsSafeExactly(r: Room, id: u32, stream: Stream, inbox: seq<ClientMessage>, others: seq<u32>)
    requires Sound(r) && Admissible(r, id) && IsListing(others, NotifyAll(r, PlayerJoined(id)).tasks.Keys)
    ensures Sound(Connect(r, id, stream, inbox, others)) <==> Safe(r, id)
  {
    SafeIsFresh(r, id);
    if id in r.zombies {
      ZombieIdMisleads(r, id, stream, inbox, others);
    } else if HasTerminal(r, id) {
      TerminalHitsNewcomer(r, id, stream, inbox, others);
    } else if Waiting(id, r.requests) != [] {
      MessageIsMiscredited(r, id, stream, inbox, others);
    } else {
      ConnectKeepsSound(r, id, stream, inbox, others);
    }
  }

  /** Until a shutdown, the queues alone tell which ids are safe. */
  lemma QueuesTellUntilShutdown(r: Room, id: u32)
    requires Sound(r) && r.mode.Serving? && !r.shutdown
    ensures Safe(r, id) <==> !HasTerminal(r, id) && Waiting(id, r.requests) == []
  {
  }

  // ----- a safe id is always left -----

  function QueuedIds(requests: seq<Request>, closes: seq<CloseRequest>): (ids: set<u32>)
    ensures |ids| <= |requests| + |closes|
    ensures forall q :: q in requests ==> q.player in ids
    ensures forall c :: c in closes ==> c.player in ids
  {
    if requests != [] then QueuedIds(requests[1..], closes) + {requests[0].player}
    else if closes != [] then QueuedIds(requests, closes[1..]) + {closes[0].player}
    else {}
  }

  lemma NamesAreTaken(r: Room, id: u32)
    requires Endings(r) && r.mode.Serving? && !r.shutdown && id !in QueuedIds(r.requests, r.closes)
    ensures !Named(r, id) && id !in r.zombies
  {
    assert !HasTerminal(r, id);
  }

  lemma {:induction false} SomeListing(ids: set<u32>) returns (listing: seq<u32>)
    ensures IsListing(listing, ids)
  {
    if ids == {} {
      listing := [];
    } else {
      var id :| id in ids;
      var rest := SomeListing(ids - {id});
      listing := [id] + rest;
    }
  }

  /** Until a shutdown, a room with a place always has an id for a newcomer: none of its invariants blocks it. */
  lemma JoinIsPossible(r: Room, stream: Stream, inbox: seq<ClientMessage>) returns (step: Step)
    requires Sound(r) && r.mode.Serving? && |r.tasks| < r.limits.maxPlayers && !r.shutdown
    ensures step.Join? && step.stream == stream && step.inbox == inbox && Can(r, step)
  {
    var taken := r.tasks.Keys + QueuedIds(r.requests, r.closes);
    assert |taken| <= |r.tasks.Keys| + |QueuedIds(r.requests, r.closes)|;
    var id := LeftFrom(taken, 2);
    NamesAreTaken(r, id);
    var others := SomeListing(NotifyAll(r, PlayerJoined(id)).tasks.Keys);
    step := Step.Join(id, stream, inbox, others);
  }

  /** A stale drop request makes the room let go of the newcomer, whose task has only begun. */
  lemma StaleDropHitsNewcomer(capacity: nat, r: Room, id: u32, stream: Stream, inbox: seq<ClientMessage>,
                              others: seq<u32>)
    requires Admissible(r, id) && r.requests != [] && r.requests[0] == Request(id, DropConnection)
    ensures var next := Connect(r, id, stream, inbox, others);
            && id in next.tasks && !Ended(next.tasks[id])
            && Can(next, TakeRequest) && id !in After(capacity, next, TakeRequest).tasks
  {
  }

  /** The room while player 2 joins, leaves, and is found dead when player 3 joins. */
  predicate Two(r: Room, phase: Phase) {
    && r.mode.Serving? && r.limits.maxPlayers == 3 && r.tasks.Keys == {HOST_ID, 2} && r.closes == [] && r.zombies == {}
    && !r.tasks[HOST_ID].phase.Done? && r.tasks[2].phase == phase && |r.tasks[2].wire| < |Greetings(r.tasks[2])|
  }

  lemma SecondJoins(capacity: nat, code: RoomCode, host: Stream, second: Stream)
    ensures var r, step := Start(code, host, [], Limits(3, 5, 1), 0), Step.Join(2, second, [], [HOST_ID]);
            Can(r, step) && Two(After(capacity, r, step), Greeting) && After(capacity, r, step).requests == []
  {
    var r := Start(code, host, [], Limits(3, 5, 1), 0);
    StartHasHost(code, host, [], Limits(3, 5, 1));
    assert |r.tasks.Keys| == 1;
    assert NotifyAll(r, PlayerJoined(2)).tasks.Keys == {HOST_ID} && NotifyAll(r, PlayerJoined(2)).zombies == {};
  }

  /** Its client is gone at the first greeting, it says so, and it returns. */
  lemma SecondActs(capacity: nat, r: Room, phase: Phase, act: Act)
    requires Two(r, phase)
    requires (phase, act) in {(Greeting, Greet(false)), (Asking(DropConnection), Submit), (Leaving, Return)}
    requires act.Submit? ==> r.requests == []
    ensures var step := PlayerActs(2, act);
            && Can(r, step)
            && Two(After(capacity, r, step),
                   match act case Submit => Leaving case Return => Done case _ => Asking(DropConnection))
            && After(capacity, r, step).requests == if act.Submit? then [Request(2, DropConnection)] else r.requests
  {
    assert r.tasks[2 := AfterAct(capacity, r.tasks[2], act)].Keys == {HOST_ID, 2};
  }

  lemma SecondLeaves(capacity: nat, r: Room) returns (steps: seq<Step>)
    requires Two(r, Greeting) && r.requests == []
    ensures IsRun(capacity, r, steps)
    ensures Two(Final(capacity, r, steps), Done) && Final(capacity, r, steps).requests == [Request(2, DropConnection)]
  {
    var greet, submit, leave := PlayerActs(2, Greet(false)), PlayerActs(2, Submit), PlayerActs(2, Return);
    SecondActs(capacity, r, Greeting, Greet(false));
    var r1 := After(capacity, r, greet);
    SecondActs(capacity, r1, Asking(DropConnection), Submit);
    var r2 := After(capacity, r1, submit);
    SecondActs(capacity, r2, Leaving, Return);
    RunStep(capacity, r2, leave, []);
    RunStep(capacity, r1, submit, [leave] + []);
    RunStep(capacity, r, greet, [submit] + ([leave] + []));
    steps := [greet] + ([submit] + ([leave] + []));
  }

  lemma ThirdFindsHost(r: Room, third: Stream)
    requires Two(r, Done)
    ensures NotifyAll(r, PlayerJoined(3)).tasks.Keys == {HOST_ID}
    ensures Connect(r, 3, third, [], [HOST_ID]).tasks.Keys == {HOST_ID, 3}
  {
  }

  lemma ThirdJoins(capacity: nat, r: Room, third: Stream)
    requires Two(r, Done) && r.requests == [Request(2, DropConnection)]
    ensures var step := Step.Join(3, third, [], [HOST_ID]);
            && Can(r, step) && Admissible(After(capacity, r, step), 2)
            && After(capacity, r, step).requests == [Request(2, DropConnection)]
  {
    ThirdFindsHost(r, third);
    assert |r.tasks.Keys| == 2 && |{HOST_ID, 3}| == 2;
  }

  /** The dangerous situation arises: three connections and one dead client lead to it. */
  lemma ReusedIdIsFatal(capacity: nat, code: RoomCode, host: Stream, second: Stream, third: Stream)
    returns (steps: seq<Step>, r: Room)
    ensures IsRun(capacity, Start(code, host, [], Limits(3, 5, 1), 0), steps)
    ensures r == Final(capacity, Start(code, host, [], Limits(3, 5, 1), 0), steps)
    ensures Sound(r) && Admissible(r, 2) && HasTerminal(r, 2)
    ensures forall fourth: Stream, others ::
              var next := Connect(r, 2, fourth, [], others);
              && 2 in next.tasks && !Ended(next.tasks[2])
              && Can(next, TakeRequest) && 2 !in After(capacity, next, TakeRequest).tasks
  {
    var start := Start(code, host, [], Limits(3, 5, 1), 0);
    var enter, late := Step.Join(2, second, [], [HOST_ID]), Step.Join(3, third, [], [HOST_ID]);
    SecondJoins(capacity, code, host, second);
    var leave := SecondLeaves(capacity, After(capacity, start, enter));
    var left := Final(capacity, After(capacity, start, enter), leave);
    ThirdJoins(capacity, left, third);
    RunStep(capacity, left, late, []);
    RunOn(capacity, After(capacity, start, enter), leave, [late] + []);
    RunStep(capacity, start, enter, leave + ([late] + []));
    steps := [enter] + (leave + ([late] + []));
    r := After(capacity, left, late);
    StartIsSound(code, host, [], Limits(3, 5, 1), 0);
    RunsAreSound(capacity, start, steps);
    assert r.requests[0] == Request(2, DropConnection);
    forall fourth: Stream, others
      ensures var next := Connect(r, 2, fourth, [], others);
              && 2 in next.tasks && !Ended(next.tasks[2])
              && Can(next, TakeRequest) && 2 !in After(capacity, next, TakeRequest).tasks
    {
      StaleDropHitsNewcomer(capacity, r, 2, fourth, [], others);
    }
  }
}
