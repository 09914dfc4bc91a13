/** The channels on which the lobby hands newcomers to its rooms, over every run. */
module LobbyChannels {
  import opened Common
  import opened RoomCodes
  import opened Lobbies

  /** The room is on the map all along. */
  predicate StaysOpen(l: Lobby, steps: seq<Step>, k: u32)
    decreases |steps|
  {
    k in l.rooms && (steps == [] || (k in After(l, steps[0]).rooms && StaysOpen(After(l, steps[0]), steps[1..], k)))
  }

  function SentBy(l: Lobby, step: Step, k: u32): seq<Stream>
    requires k in l.rooms && k in After(l, step).rooms
  {
    var before, after := l.rooms[k].newcomers, After(l, step).rooms[k].newcomers;
    if |after| > |before| then [after[|before|]] else []
  }

  /** The streams a run sends to a room, and those the room takes from its channel, in order. */
  function SentTo(l: Lobby, steps: seq<Step>, k: u32): seq<Stream>
    requires StaysOpen(l, steps, k)
    decreases |steps|
  {
    if steps == [] then []
    else SentBy(l, steps[0], k) + SentTo(After(l, steps[0]), steps[1..], k)
  }

  function TakenBy(l: Lobby, steps: seq<Step>, k: u32): seq<Stream>
    requires StaysOpen(l, steps, k)
    decreases |steps|
  {
    if steps == [] then []
    else
      (if steps[0] == RoomTakes(k) && l.rooms[k].newcomers != [] then [l.rooms[k].newcomers[0]] else [])
      + TakenBy(After(l, steps[0]), steps[1..], k)
  }

  lemma RequestOnChannel(table: seq<byte>, l: Lobby, newCode: RoomCode, k: u32)
    requires Can(table, l, TakeRequest(newCode)) && k in l.rooms
    ensures var entry, next := l.rooms[k], After(l, TakeRequest(newCode)).rooms[k];
            && next.isSealed == entry.isSealed
            && (next.newcomers == entry.newcomers
                || (!entry.isSealed && next.newcomers == entry.newcomers + [l.requests[0].stream]))
  {
  }

  /** What a step does to a channel: a stream goes in at the end, or out at the front, or nothing. */
  lemma StepOnChannel(table: seq<byte>, l: Lobby, step: Step, k: u32)
    requires Can(table, l, step) && k in l.rooms && k in After(l, step).rooms
    ensures var before, after := l.rooms[k].newcomers, After(l, step).rooms[k].newcomers;
            if step == RoomTakes(k) then before != [] && after == before[1..] else after == before + SentBy(l, step, k)
    ensures l.rooms[k].isSealed ==>
              After(l, step).rooms[k].isSealed && (step == RoomTakes(k) || SentBy(l, step, k) == [])
  {
    var before, after := l.rooms[k].newcomers, After(l, step).rooms[k].newcomers;
    if step.TakeRequest? {
      RequestOnChannel(table, l, step.newCode, k);
    }
    assert before + [] == before;
  }

  lemma {:induction false} StillThere(l: Lobby, steps: seq<Step>, k: u32)
    requires StaysOpen(l, steps, k)
    ensures k in Final(l, steps).rooms
    decreases |steps|
  {
    if steps == [] {
    } else {
      StillThere(After(l, steps[0]), steps[1..], k);
    }
  }

  lemma OneMoreTaken(x: Stream, before: seq<Stream>, sent: seq<Stream>, taken: seq<Stream>, left: seq<Stream>)
    requires before + sent == taken + left
    ensures ([x] + before) + ([] + sent) == ([x] + taken) + left
  {
    assert ([x] + before) + ([] + sent) == [x] + (before + sent);
  }

  lemma SomeMoreSent(before: seq<Stream>, more: seq<Stream>, sent: seq<Stream>, taken: seq<Stream>, left: seq<Stream>)
    requires (before + more) + sent == taken + left
    ensures before + (more + sent) == ([] + taken) + left
  {
    assert before + (more + sent) == (before + more) + sent && [] + taken == taken;
  }

  /** What was sent to a room is, in order, what it has taken and then what it has yet to take: none lost or doubled. */
  lemma {:induction false} HandedOverInOrder(table: seq<byte>, l: Lobby, steps: seq<Step>, k: u32)
    requires IsRun(table, l, steps) && StaysOpen(l, steps, k)
    ensures k in Final(l, steps).rooms
    ensures l.rooms[k].newcomers + SentTo(l, steps, k) == TakenBy(l, steps, k) + Final(l, steps).rooms[k].newcomers
    decreases |steps|
  {
    StillThere(l, steps, k);
    if steps == [] {
    } else {
      var next, before := After(l, steps[0]), l.rooms[k].newcomers;
      StepOnChannel(table, l, steps[0], k);
      HandedOverInOrder(table, next, steps[1..], k);
      var sent, taken := SentTo(next, steps[1..], k), TakenBy(next, steps[1..], k);
      var left := Final(l, steps).rooms[k].newcomers;
      if steps[0] == RoomTakes(k) {
        assert before == [before[0]] + before[1..] && SentBy(l, steps[0], k) == [];
        OneMoreTaken(before[0], before[1..], sent, taken, left);
      } else {
        SomeMoreSent(before, SentBy(l, steps[0], k), sent, taken, left);
      }
    }
  }

  /** Once the lobby has sealed a room, no run sends it anybody. */
  lemma {:induction false} SealedForGood(table: seq<byte>, l: Lobby, steps: seq<Step>, k: u32)
    requires IsRun(table, l, steps) && StaysOpen(l, steps, k) && l.rooms[k].isSealed
    ensures k in Final(l, steps).rooms && Final(l, steps).rooms[k].isSealed && SentTo(l, steps, k) == []
    decreases |steps|
  {
    if steps == [] {
    } else {
      StepOnChannel(table, l, steps[0], k);
      SealedForGood(table, After(l, steps[0]), steps[1..], k);
    }
  }
}
