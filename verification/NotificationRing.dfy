/**
 The bounded broadcast channel that carries a room's notifications to one player: a ring of
 slots that a slow reader can be overtaken in. The room model uses the log of everything sent
 instead; here the two are shown to give a reader the same answers, for every capacity.
 */
module NotificationRing {

  datatype Slot<+T> = Vacant | Held(pos: nat, value: T)

  datatype Ring<+T> = Ring(slots: seq<Slot<T>>, tail: nat)

  datatype Received<+T> = Got(value: T) | Nothing | Lagged(skipped: nat)

  function New<T>(capacity: nat): Ring<T> {
    Ring(seq(capacity, _ => Vacant), 0)
  }

  function Send<T>(ring: Ring<T>, value: T): Ring<T>
    requires |ring.slots| > 0
  {
    Ring(ring.slots[ring.tail % |ring.slots| := Held(ring.tail, value)], ring.tail + 1)
  }

  /** What a reader whose next position is `next` gets. */
  function Recv<T>(ring: Ring<T>, next: nat): Received<T>
    requires |ring.slots| > 0 && next <= ring.tail
  {
    var slot := ring.slots[next % |ring.slots|];
    if slot.Held? && slot.pos == next then Got(slot.value)
    else if next == ring.tail then Nothing
    else Lagged(if ring.tail >= next + |ring.slots| then ring.tail - next - |ring.slots| else 0)
  }

  /** The same reader, over the log of everything ever sent. */
  function RecvFromLog<T>(capacity: nat, log: seq<T>, next: nat): Received<T>
    requires next <= |log|
  {
    if next == |log| then Nothing
    else if |log| - next <= capacity then Got(log[next])
    else Lagged(|log| - next - capacity)
  }

  /** The ring holds exactly the last `capacity` entries of the log, each in its own slot. */
  ghost predicate Holds<T>(ring: Ring<T>, log: seq<T>) {
    && |ring.slots| > 0 && ring.tail == |log|
    && (forall i :: 0 <= i < |log| && |log| - i <= |ring.slots| ==> ring.slots[i % |ring.slots|] == Held(i, log[i]))
    && (forall j :: 0 <= j < |ring.slots| && ring.slots[j].Held? ==>
          && ring.slots[j].pos % |ring.slots| == j
          && ring.slots[j].pos < |log| <= ring.slots[j].pos + |ring.slots|)
  }

  lemma NonzeroMultiple(k: int, d: int)
    requires k > 0 && d != 0
    ensures k * d >= k || k * d <= 0 - k
  {
  }

  /** Positions less than a capacity apart never share a slot; those a capacity apart always do. */
  lemma DistinctSlots(i: nat, j: nat, k: nat)
    requires i < j <= i + k
    ensures i % k == j % k <==> j == i + k
  {
    var a, b := i / k, j / k;
    assert i == k * a + i % k && j == k * b + j % k;
    assert k * (b - a) == k * b - k * a;
    assert k * (b - a - 1) == k * (b - a) - k;
    if b != a {
      NonzeroMultiple(k, b - a);
    }
    if b != a + 1 {
      NonzeroMultiple(k, b - a - 1);
    }
  }

  lemma SendHolds<T>(ring: Ring<T>, log: seq<T>, value: T)
    requires Holds(ring, log)
    ensures Holds(Send(ring, value), log + [value])
  {
    var k, sent := |ring.slots|, Send(ring, value);
    forall i | 0 <= i <= |log| && |log| + 1 - i <= k ensures sent.slots[i % k] == Held(i, (log + [value])[i]) {
      if i < |log| {
        DistinctSlots(i, |log|, k);
      }
    }
    forall j | 0 <= j < k && sent.slots[j].Held? && j != ring.tail % k
      ensures sent.slots[j].pos < |log| + 1 <= sent.slots[j].pos + k
    {
      DistinctSlots(ring.slots[j].pos, |log|, k);
    }
  }

  /** A reader of the ring is told exactly what the log says, and is told when it was overtaken. */
  lemma RecvMatchesLog<T>(ring: Ring<T>, log: seq<T>, next: nat)
    requires Holds(ring, log) && next <= |log|
    ensures Recv(ring, next) == RecvFromLog(|ring.slots|, log, next)
  {
  }

  function SendAll<T>(ring: Ring<T>, log: seq<T>): (sent: Ring<T>)
    requires |ring.slots| > 0
    ensures |sent.slots| == |ring.slots|
  {
    if log == [] then ring else Send(SendAll(ring, log[..|log| - 1]), log[|log| - 1])
  }

  /** For every capacity and every history of sends, ring and log agree for every reader position. */
  lemma {:induction false} RingRefinesLog<T>(capacity: nat, log: seq<T>)
    requires capacity > 0
    ensures Holds(SendAll(New<T>(capacity), log), log)
    ensures forall next :: 0 <= next <= |log| ==>
              Recv(SendAll(New<T>(capacity), log), next) == RecvFromLog(capacity, log, next)
  {
    if log == [] {
    } else {
      RingRefinesLog(capacity, log[..|log| - 1]);
      assert log[..|log| - 1] + [log[|log| - 1]] == log;
      SendHolds(SendAll(New<T>(capacity), log[..|log| - 1]), log[..|log| - 1], log[|log| - 1]);
    }
    forall next | 0 <= next <= |log|
      ensures Recv(SendAll(New<T>(capacity), log), next) == RecvFromLog(capacity, log, next)
    {
      RecvMatchesLog(SendAll(New<T>(capacity), log), log, next);
    }
  }
}
