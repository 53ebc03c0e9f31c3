/** Sequences with some elements left out. */
module Subsequences {
  /** `a` is `b` with some elements left out. */
  ghost predicate Subsequence<T>(a: seq<T>, b: seq<T>)
    decreases |b|
  {
    a == [] ||
    (b != [] &&
     (Subsequence(a, b[..|b| - 1]) ||
      (a[|a| - 1] == b[|b| - 1] && Subsequence(a[..|a| - 1], b[..|b| - 1]))))
  }

  lemma {:induction false} SubsequencePrefix<T>(a: seq<T>, n: nat, b: seq<T>)
    requires Subsequence(a, b) && n <= |a|
    ensures Subsequence(a[..n], b)
    decreases |b|
  {
    if n > 0 && n < |a| {
      if Subsequence(a, b[..|b| - 1]) {
        SubsequencePrefix(a, n, b[..|b| - 1]);
      } else {
        SubsequencePrefix(a[..|a| - 1], n, b[..|b| - 1]);
        assert a[..|a| - 1][..n] == a[..n];
      }
    } else {
      assert n == 0 || a[..n] == a;
    }
  }

  lemma {:induction false} SubsequenceSize<T>(a: seq<T>, b: seq<T>)
    requires Subsequence(a, b)
    ensures |a| <= |b|
    decreases |b|
  {
    if a != [] {
      if Subsequence(a, b[..|b| - 1]) {
        SubsequenceSize(a, b[..|b| - 1]);
      } else {
        SubsequenceSize(a[..|a| - 1], b[..|b| - 1]);
      }
    }
  }

  lemma SubsequenceGrows<T>(a: seq<T>, b: seq<T>, x: T)
    requires Subsequence(a, b)
    ensures Subsequence(a, b + [x]) && Subsequence(a + [x], b + [x])
  {
    assert (b + [x])[..|b|] == b;
    assert (a + [x])[..|a|] == a;
  }

  /** Leaving out elements at the end. */
  lemma {:induction false} SubsequencePadded<T>(a: seq<T>, b: seq<T>, rest: seq<T>)
    requires Subsequence(a, b)
    ensures Subsequence(a, b + rest)
    decreases |rest|
  {
    if rest == [] {
      assert b + rest == b;
    } else {
      var init, x := rest[..|rest| - 1], rest[|rest| - 1];
      assert b + rest == (b + init) + [x];
      SubsequencePadded(a, b, init);
      SubsequenceGrows(a, b + init, x);
    }
  }

  lemma {:induction false} SubsequenceExtended<T>(a: seq<T>, b: seq<T>, more: seq<T>)
    requires Subsequence(a, b)
    ensures Subsequence(a + more, b + more)
    decreases |more|
  {
    if more == [] {
      assert a + more == a && b + more == b;
    } else {
      var init, x := more[..|more| - 1], more[|more| - 1];
      assert a + more == (a + init) + [x];
      assert b + more == (b + init) + [x];
      SubsequenceExtended(a, b, init);
      SubsequenceGrows(a + init, b + init, x);
    }
  }
}
