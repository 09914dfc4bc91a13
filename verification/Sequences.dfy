/** Sequences of which some entries were left out. */
module Sequences {

  /** The entries of a, in their order, are among those of b. */
  predicate Within<T(==)>(a: seq<T>, b: seq<T>)
    decreases |b|
  {
    || a == []
    || (b != []
        && (Within(a, b[..|b| - 1])
            || (a[|a| - 1] == b[|b| - 1] && Within(a[..|a| - 1], b[..|b| - 1]))))
  }

  lemma {:induction false} WithinItself<T>(a: seq<T>)
    ensures Within(a, a)
  {
    if a == [] {
    } else {
      WithinItself(a[..|a| - 1]);
    }
  }

  lemma {:induction false} WithinChain<T>(a: seq<T>, b: seq<T>, c: seq<T>)
    requires Within(a, b) && Within(b, c)
    ensures Within(a, c)
    decreases |c|
  {
    if a == [] || c == [] {
    } else if Within(b, c[..|c| - 1]) {
      WithinChain(a, b, c[..|c| - 1]);
    } else if Within(a, b[..|b| - 1]) {
      WithinChain(a, b[..|b| - 1], c[..|c| - 1]);
    } else {
      WithinChain(a[..|a| - 1], b[..|b| - 1], c[..|c| - 1]);
    }
  }

  /** Both may grow by the same, or the longer one alone. */
  lemma {:induction false} WithinGrows<T>(a: seq<T>, b: seq<T>, x: T)
    requires Within(a, b)
    ensures Within(a, b + [x]) && Within(a + [x], b + [x])
  {
    assert (b + [x])[..|b|] == b && (a + [x])[..|a|] == a;
  }

  lemma {:induction false} WithinExtends<T>(a: seq<T>, b: seq<T>, c: seq<T>)
    requires Within(a, b)
    ensures Within(a + c, b + c)
  {
    if c == [] {
      assert a + c == a && b + c == b;
    } else {
      var init, x := c[..|c| - 1], c[|c| - 1];
      assert c == init + [x];
      WithinExtends(a, b, init);
      WithinGrows(a + init, b + init, x);
      assert a + (init + [x]) == (a + init) + [x];
      assert b + (init + [x]) == (b + init) + [x];
    }
  }

  /** An entry in the middle may be left out. */
  lemma WithinLeavesOut<T>(a: seq<T>, x: T, c: seq<T>)
    ensures Within(a + c, a + [x] + c)
  {
    WithinItself(a);
    WithinGrows(a, a, x);
    WithinExtends(a, a + [x], c);
  }

  lemma {:induction false} SuffixIsWithin<T>(a: seq<T>, b: seq<T>)
    ensures Within(b, a + b)
  {
    if b == [] {
    } else {
      assert (a + b)[..|a + b| - 1] == a + b[..|b| - 1];
      SuffixIsWithin(a, b[..|b| - 1]);
    }
  }

  lemma {:induction false} PrefixIsWithin<T>(a: seq<T>, b: seq<T>)
    requires a <= b
    ensures Within(a, b)
    decreases |b|
  {
    if a == b {
      WithinItself(a);
    } else {
      PrefixIsWithin(a, b[..|b| - 1]);
    }
  }

  lemma {:induction false} EntryIsWithin<T>(a: seq<T>, b: seq<T>, x: T)
    requires Within(a, b) && x in a
    ensures x in b
    decreases |b|
  {
    var init := b[..|b| - 1];
    if Within(a, init) {
      EntryIsWithin(a, init, x);
    } else if x != b[|b| - 1] {
      EntryIsWithin(a[..|a| - 1], init, x);
    }
  }
}
