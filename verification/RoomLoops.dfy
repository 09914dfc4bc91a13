/** The loops of a room over its player map, each against what it makes of the whole map. */
module RoomLoops {
  import opened Common
  import opened Players
  import opened Rooms
  import opened RoomClosing

  lemma Assembled(tasks: map<u32, Player>, n: Notification, told: map<u32, Player>, dead: set<u32>)
    requires told.Keys <= tasks.Keys && dead <= tasks.Keys
    requires forall id :: id in tasks ==>
               if tasks[id].phase.Done? then id in dead && id !in told
               else id !in dead && id in told && told[id] == Pushed(tasks[id], n)
    ensures told == map id | id in tasks && !tasks[id].phase.Done? :: Pushed(tasks[id], n)
    ensures dead == set id | id in tasks && tasks[id].phase.Done?
  {
  }

  /** Send to everybody; a failed send means the task is gone, and its entry is removed. */
  method TellAll(tasks: map<u32, Player>, n: Notification) returns (told: map<u32, Player>, dead: set<u32>)
    ensures told == map id | id in tasks && !tasks[id].phase.Done? :: Pushed(tasks[id], n)
    ensures dead == set id | id in tasks && tasks[id].phase.Done?
  {
    told, dead := tasks, {};
    var ids := tasks.Keys;
    while ids != {}
      invariant ids <= tasks.Keys && told.Keys <= tasks.Keys && dead <= tasks.Keys - ids
      invariant forall id :: id in ids ==> id in told && told[id] == tasks[id]
      invariant forall id :: id in tasks && id !in ids ==>
                  if tasks[id].phase.Done? then id in dead && id !in told
                  else id !in dead && id in told && told[id] == Pushed(tasks[id], n)
      decreases |ids|
    {
      var id :| id in ids;
      assert told[id] == tasks[id];
      if told[id].phase.Done? {
        told := told - {id};
        dead := dead + {id};
      } else {
        told := told[id := Pushed(told[id], n)];
      }
      ids := ids - {id};
    }
    Assembled(tasks, n, told, dead);
  }

  /** player_map.keys(), collected in some order. */
  method ListKeys(tasks: map<u32, Player>) returns (ids: seq<u32>)
    ensures IsListing(ids, tasks.Keys)
  {
    ids := [];
    var left := tasks.Keys;
    while left != {}
      invariant left <= tasks.Keys && IsListing(ids, tasks.Keys - left)
      decreases |left|
    {
      var id :| id in left;
      assert id !in ids;
      ids := ids + [id];
      left := left - {id};
    }
  }

  /** Everybody forgets the messages it sent to a player that has left. */
  method ForgetAll(tasks: map<u32, Player>, gone: u32) returns (cleared: map<u32, Player>)
    ensures cleared == map id | id in tasks :: Forget(tasks[id], gone)
  {
    cleared := tasks;
    var ids := tasks.Keys;
    while ids != {}
      invariant ids <= tasks.Keys == cleared.Keys
      invariant forall id :: id in tasks ==> cleared[id] == if id in ids then tasks[id] else Forget(tasks[id], gone)
      decreases |ids|
    {
      var id :| id in ids;
      cleared := cleared[id := Forget(cleared[id], gone)];
      ids := ids - {id};
    }
  }

  /** The entry of a player that has ended is removed, and so is every count of messages to it. */
  method RemoveAndForget(tasks: map<u32, Player>, gone: u32) returns (left: map<u32, Player>)
    ensures left == map id | id in tasks && id != gone :: Forget(tasks[id], gone)
  {
    left := ForgetAll(tasks - {gone}, gone);
  }

  lemma EnoughToKick(ids: set<u32>)
    ensures |ids - {HOST_ID}| >= |ids| - 1
  {
  }

  /** Tell as many as asked for, but never the host. */
  method KickSome(tasks: map<u32, Player>, numToKick: nat) returns (told: map<u32, Player>, kicked: set<u32>)
    requires numToKick < |tasks|
    ensures kicked <= tasks.Keys - {HOST_ID} && |kicked| == numToKick
    ensures told == map id | id in tasks ::
                      if id in kicked then Pushed(tasks[id], Failure(TooManyPlayers)) else tasks[id]
  {
    told, kicked := tasks, {};
    var candidates := tasks.Keys - {HOST_ID};
    EnoughToKick(tasks.Keys);
    while |kicked| < numToKick
      invariant kicked <= tasks.Keys - {HOST_ID} && candidates <= tasks.Keys - {HOST_ID} && candidates !! kicked
      invariant |kicked| <= numToKick && |kicked| + |candidates| >= |tasks.Keys| - 1
      invariant told.Keys == tasks.Keys
      invariant forall id :: id in tasks ==>
                  told[id] == if id in kicked then Pushed(tasks[id], Failure(TooManyPlayers)) else tasks[id]
    {
      var id :| id in candidates;
      told := told[id := Pushed(told[id], Failure(TooManyPlayers))];
      kicked, candidates := kicked + {id}, candidates - {id};
    }
  }

  /** The first half of on_close: tell everybody, and keep those that can still be told. */
  method CallAll(tasks: map<u32, Player>, n: Notification, sendToHost: bool) returns (toAwait: map<u32, Player>)
    ensures toAwait == map id | id in tasks && (sendToHost || id != HOST_ID) && !tasks[id].phase.Done?
                         :: Pushed(tasks[id], n)
  {
    toAwait := map[];
    var ids := tasks.Keys;
    while ids != {}
      invariant ids <= tasks.Keys && toAwait.Keys <= tasks.Keys - ids
      invariant forall id :: id in tasks && id !in ids ==>
                  (id in toAwait <==> (sendToHost || id != HOST_ID) && !tasks[id].phase.Done?)
      invariant forall id :: id in toAwait ==> toAwait[id] == Pushed(tasks[id], n)
      decreases |ids|
    {
      var id :| id in ids;
      if (sendToHost || id != HOST_ID) && !tasks[id].phase.Done? {
        toAwait := toAwait[id := Pushed(tasks[id], n)];
      }
      ids := ids - {id};
    }
  }

  /** As many as must be kicked can be found without the host. */
  lemma KicksExist(tasks: map<u32, Player>, n: nat) returns (kicked: set<u32>)
    requires n < |tasks|
    ensures kicked <= tasks.Keys - {HOST_ID} && |kicked| == n
  {
    kicked := {};
    EnoughToKick(tasks.Keys);
    while |kicked| < n
      invariant kicked <= tasks.Keys - {HOST_ID} && |kicked| <= n
    {
      assert |tasks.Keys - {HOST_ID} - kicked| == |tasks.Keys - {HOST_ID}| - |kicked|;
      var id :| id in tasks.Keys - {HOST_ID} - kicked;
      kicked := kicked + {id};
    }
  }

  lemma ConfigCanHappen(r: Room, limits: Limits) returns (kicked: set<u32>)
    requires r.mode.Serving? && ValidLimits(limits)
    ensures Can(r, Configure(limits, kicked))
  {
    kicked := {};
    if |r.tasks| > limits.maxPlayers {
      kicked := KicksExist(r.tasks, |r.tasks| - limits.maxPlayers);
    }
  }

  /** The new time limit is exceeded: whom the room would have kicked makes no difference. */
  lemma ExpiryKicksNobody(r: Room, limits: Limits, kicked: set<u32>)
    requires r.now >= r.created && r.now - r.created >= limits.timeLimit
    ensures Reconfigured(r, limits, kicked) == Reconfigured(r, limits, {}) && Reconfigured(r, limits, {}).mode.Emptying?
  {
  }

  lemma ExpiryIsReachable(capacity: nat, r: Room, limits: Limits) returns (kicked: set<u32>)
    requires Reachable(r) && r.mode.Serving? && ValidLimits(limits) && r.now - r.created >= limits.timeLimit
    ensures Can(r, Configure(limits, kicked)) && Reachable(Reconfigured(r, limits, {}))
    ensures Reconfigured(r, limits, kicked) == Reconfigured(r, limits, {}) && Reconfigured(r, limits, {}).mode.Emptying?
  {
    kicked := ConfigCanHappen(r, limits);
    ExpiryKicksNobody(r, limits, kicked);
    StepKeepsReachable(capacity, r, Configure(limits, kicked));
  }
}
