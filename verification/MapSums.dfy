/** Sums over the entries of a map: the tasks of a room, or the rooms of the lobby. */
module MapSums {
  import opened Common

  ghost function Pick<T>(entries: map<u32, T>): u32
    requires entries != map[]
    ensures Pick(entries) in entries
  {
    var id :| id in entries; id
  }

  lemma Smaller<T>(entries: map<u32, T>, id: u32)
    requires id in entries
    ensures |entries - {id}| < |entries|
  {
  }

  ghost function Sum<T>(f: T -> nat, entries: map<u32, T>): nat
    decreases |entries|
  {
    if entries == map[] then 0
    else
      var id := Pick(entries);
      Smaller(entries, id);
      f(entries[id]) + Sum(f, entries - {id})
  }

  lemma {:induction false} SumSplit<T>(f: T -> nat, entries: map<u32, T>, id: u32)
    requires id in entries
    ensures Sum(f, entries) == f(entries[id]) + Sum(f, entries - {id})
    decreases |entries|
  {
    var k := Pick(entries);
    if k == id {
    } else {
      Smaller(entries, k);
      Smaller(entries, id);
      SumSplit(f, entries - {k}, id);
      SumSplit(f, entries - {id}, k);
      assert entries - {k} - {id} == entries - {id} - {k};
    }
  }

  lemma SumReplaced<T>(f: T -> nat, entries: map<u32, T>, id: u32, x: T)
    requires id in entries
    ensures Sum(f, entries[id := x]) == Sum(f, entries) - f(entries[id]) + f(x)
  {
    SumSplit(f, entries, id);
    SumSplit(f, entries[id := x], id);
    assert entries[id := x] - {id} == entries - {id};
  }

  lemma SumRemoved<T>(f: T -> nat, entries: map<u32, T>, id: u32)
    ensures Sum(f, entries - {id}) <= Sum(f, entries)
  {
    if id in entries {
      SumSplit(f, entries, id);
    } else {
      assert entries - {id} == entries;
    }
  }

  /** What is nowhere more sums up to no more; in particular a sum of zeros is zero. */
  lemma {:induction false} SumAtMost<T>(f: T -> nat, g: T -> nat, entries: map<u32, T>)
    requires forall id :: id in entries ==> f(entries[id]) <= g(entries[id])
    ensures Sum(f, entries) <= Sum(g, entries)
    decreases |entries|
  {
    if entries == map[] {
    } else {
      var id := Pick(entries);
      Smaller(entries, id);
      SumAtMost(f, g, entries - {id});
    }
  }

  /** If every entry counts the same, the sum is a product. */
  lemma {:induction false} SumOfEqual<T>(f: T -> nat, entries: map<u32, T>, n: nat)
    requires forall id :: id in entries ==> f(entries[id]) == n
    ensures Sum(f, entries) == n * |entries|
    decreases |entries|
  {
    if entries == map[] {
    } else {
      var id := Pick(entries);
      Smaller(entries, id);
      SumOfEqual(f, entries - {id}, n);
      assert entries.Keys == (entries - {id}).Keys + {id};
      assert |entries| == |entries - {id}| + 1;
    }
  }
}
