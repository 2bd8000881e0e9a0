/** Left-to-right sums over sequences, as `Array.prototype.reduce((s, x) => s + f(x), 0)` computes them. */
module Sums {

  /** Sum of f over s, accumulated from the front. */
  function SumBy<T>(s: seq<T>, f: T -> int): int
  {
    if s == [] then 0 else SumBy(s[..|s| - 1], f) + f(s[|s| - 1])
  }

  /** Sum of f over s, accumulated from the front, for real-valued f. */
  function SumRealBy<T>(s: seq<T>, f: T -> real): real
  {
    if s == [] then 0.0 else SumRealBy(s[..|s| - 1], f) + f(s[|s| - 1])
  }

  function Id(x: int): int { x }
  function IdReal(x: real): real { x }

  lemma {:induction false} SumByAppend<T>(a: seq<T>, b: seq<T>, f: T -> int)
    ensures SumBy(a + b, f) == SumBy(a, f) + SumBy(b, f)
    decreases |b|
  {
    if b != [] {
      assert (a + b)[..|a + b| - 1] == a + b[..|b| - 1];
      SumByAppend(a, b[..|b| - 1], f);
    } else {
      assert a + b == a;
    }
  }

  /** Summing is insensitive to order: a permutation has the same sum. */
  lemma {:induction false} SumByPermutation<T>(a: seq<T>, b: seq<T>, f: T -> int)
    requires multiset(a) == multiset(b)
    ensures SumBy(a, f) == SumBy(b, f)
    decreases |a|
  {
    if a != [] {
      var x := a[|a| - 1];
      assert x in multiset(b);
      var k :| 0 <= k < |b| && b[k] == x;
      var rest := b[..k] + b[k + 1..];
      assert b == b[..k] + [x] + b[k + 1..];
      assert a == a[..|a| - 1] + [x];
      assert multiset(a[..|a| - 1]) == multiset(a) - multiset{x};
      assert multiset(rest) == multiset(b) - multiset{x} by {
        assert b == b[..k] + [x] + b[k + 1..];
      }
      SumByPermutation(a[..|a| - 1], rest, f);
      SumByAppend(b[..k] + [x], b[k + 1..], f);
      SumByAppend(b[..k], [x], f);
      SumByAppend(b[..k], b[k + 1..], f);
      assert SumBy([x], f) == f(x) by { assert [x][..0] == []; }
    }
  }

  /** Raising one entry by d raises the sum by d. */
  lemma {:induction false} SumByUpdate(s: seq<int>, i: nat, v: int)
    requires i < |s|
    ensures SumBy(s[i := v], Id) == SumBy(s, Id) - s[i] + v
    decreases |s|
  {
    var n := |s| - 1;
    if i < n {
      assert s[i := v][..n] == s[..n][i := v];
      SumByUpdate(s[..n], i, v);
    } else {
      assert s[i := v][..n] == s[..n];
    }
  }

  /** A sum of non-negative reals bounds each of its terms. */
  lemma {:induction false} TermBelowSum<T>(s: seq<T>, f: T -> real, i: nat)
    requires i < |s|
    requires forall j :: 0 <= j < |s| ==> f(s[j]) >= 0.0
    ensures 0.0 <= f(s[i]) <= SumRealBy(s, f)
    decreases |s|
  {
    var n := |s| - 1;
    SumRealNonNegative(s[..n], f);
    if i < n {
      assert s[..n][i] == s[i];
      TermBelowSum(s[..n], f, i);
    }
  }

  lemma {:induction false} SumRealNonNegative<T>(s: seq<T>, f: T -> real)
    requires forall j :: 0 <= j < |s| ==> f(s[j]) >= 0.0
    ensures SumRealBy(s, f) >= 0.0
    decreases |s|
  {
    if s != [] {
      SumRealNonNegative(s[..|s| - 1], f);
    }
  }

  lemma {:induction false} SumNonNegative<T>(s: seq<T>, f: T -> int)
    requires forall j :: 0 <= j < |s| ==> f(s[j]) >= 0
    ensures SumBy(s, f) >= 0
    decreases |s|
  {
    if s != [] {
      SumNonNegative(s[..|s| - 1], f);
    }
  }
}
