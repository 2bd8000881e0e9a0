/**
  The percentages `calculateDetailedResults` assigns to the top five: Math.round of each
  normalized score's share, the last entry set so that the sum is 100, a guard that lifts a last
  entry below 2 to a random value in 2..5 and rescales the others, and a final correction of the
  leader's entry.
*/
module Percentages {
  import opened Sums
  import opened Scoring
  import opened Ranking

  /** JavaScript's Math.round: the nearest integer, halves rounded up. */
  function Round(x: real): (n: int)
    ensures x - 0.5 < n as real <= x + 0.5
  {
    (x + 0.5).Floor
  }

  lemma RoundMonotone(x: real, y: real)
    requires x <= y
    ensures Round(x) <= Round(y)
  {
  }

  /** Math.round((ns[i] / totalNormalized) * 100) for every entry. */
  function BasePercentages(ns: seq<real>): (base: seq<int>)
    requires SumRealBy(ns, IdReal) != 0.0
    ensures |base| == |ns|
  {
    var total := SumRealBy(ns, IdReal);
    seq(|ns|, i requires 0 <= i < |ns| => PercentOf(ns[i], total))
  }

  /** Math.round((x / total) * 100). */
  function PercentOf(x: real, total: real): int
    requires total != 0.0
  {
    Round(x / total * 100.0)
  }

  /** A share of a positive total, in percent, lies in [0, 100] and grows with the part. */
  lemma ShareBounds(x: real, y: real, total: real)
    requires 0.0 <= x <= y <= total && total > 0.0
    ensures 0.0 <= x / total * 100.0 <= y / total * 100.0 <= 100.0
  {
    DivLe(0.0, x, total);
    DivLe(x, y, total);
    DivLe(y, total, total);
  }

  lemma DivLe(x: real, y: real, t: real)
    requires x <= y && t > 0.0
    ensures x / t <= y / t
  {
    assert (y - x) / t >= 0.0;
    assert y / t - x / t == (y - x) / t;
  }

  /** For positive normalized scores, every base percentage lies in [0, 100], and the leader's is
      at least every other one when its normalized score is the largest. */
  lemma BasePercentagesBounds(ns: seq<real>)
    requires ns != [] && forall i :: 0 <= i < |ns| ==> ns[i] > 0.0
    ensures SumRealBy(ns, IdReal) > 0.0
    ensures forall i :: 0 <= i < |ns| ==> 0 <= BasePercentages(ns)[i] <= 100
    ensures (forall i :: 0 <= i < |ns| ==> ns[i] <= ns[0]) ==>
              forall i :: 0 <= i < |ns| ==> BasePercentages(ns)[i] <= BasePercentages(ns)[0]
  {
    var total := SumRealBy(ns, IdReal);
    TermBelowSum(ns, IdReal, 0);
    forall i | 0 <= i < |ns| ensures 0 <= BasePercentages(ns)[i] <= 100 {
      TermBelowSum(ns, IdReal, i);
      ShareBounds(ns[i], ns[i], total);
      RoundMonotone(0.0, ns[i] / total * 100.0);
      RoundMonotone(ns[i] / total * 100.0, 100.0);
      assert BasePercentages(ns)[i] == Round(ns[i] / total * 100.0);
    }
    if forall i :: 0 <= i < |ns| ==> ns[i] <= ns[0] {
      forall i | 0 <= i < |ns| ensures BasePercentages(ns)[i] <= BasePercentages(ns)[0] {
        TermBelowSum(ns, IdReal, i);
        ShareBounds(ns[i], ns[0], total);
        RoundMonotone(ns[i] / total * 100.0, ns[0] / total * 100.0);
        assert BasePercentages(ns)[i] == Round(ns[i] / total * 100.0);
        assert BasePercentages(ns)[0] == Round(ns[0] / total * 100.0);
      }
    }
  }

  /** The last entry set to 100 minus the sum of the others. */
  function FitLast(base: seq<int>): (fitted: seq<int>)
    requires base != []
    ensures |fitted| == |base|
  {
    base[|base| - 1 := 100 - SumBy(base[..|base| - 1], Id)]
  }

  /** The tail guard's pick: 2 plus the whole part of four times the draw, so 2, 3, 4 or 5. */
  function TailPick(tailPick: real): int
  {
    2 + (tailPick * 4.0).Floor
  }

  /** Each entry's share of the entries' sum, times `remaining`, rounded. */
  function Rescaled(others: seq<int>, remaining: int): (r: seq<int>)
    requires SumBy(others, Id) != 0
    ensures |r| == |others|
  {
    var othersSum := SumBy(others, Id);
    seq(|others|, i requires 0 <= i < |others| => Apportioned(others[i], othersSum, remaining))
  }

  /** Math.round((p / othersSum) * remaining). */
  function Apportioned(p: int, othersSum: int, remaining: int): int
    requires othersSum != 0
  {
    Round(Scaled(p as real, othersSum as real, remaining as real))
  }

  /** x's share of total, times remaining. */
  function Scaled(x: real, total: real, remaining: real): real
    requires total != 0.0
  {
    x / total * remaining
  }

  /** The guard: the last entry becomes the tail pick and the others share the rest in
      proportion. */
  function TailGuard(fitted: seq<int>, tailPick: real): (guarded: seq<int>)
    requires fitted != [] && SumBy(fitted[..|fitted| - 1], Id) != 0
    ensures |guarded| == |fitted|
  {
    var last := TailPick(tailPick);
    Rescaled(fitted[..|fitted| - 1], 100 - last) + [last]
  }

  /** The leader's entry absorbs whatever keeps the sum from being 100. */
  function FixDrift(p: seq<int>): (fixed: seq<int>)
    requires p != []
    ensures |fixed| == |p|
  {
    var finalSum := SumBy(p, Id);
    if finalSum != 100 then p[0 := p[0] + 100 - finalSum] else p
  }

  /** The final percentages of the ranked top five, from their base percentages. */
  function Reconcile(base: seq<int>, tailPick: real): (pct: seq<int>)
    requires base != []
    ensures |pct| == |base|
  {
    var fitted := FitLast(base);
    assert fitted[..|fitted| - 1] == base[..|base| - 1];
    FixDrift(if fitted[|fitted| - 1] < 2 then TailGuard(fitted, tailPick) else fitted)
  }

  /** After the correction the entries sum to 100. */
  lemma FixDriftSum(p: seq<int>)
    requires p != []
    ensures SumBy(FixDrift(p), Id) == 100
    ensures forall i :: 0 < i < |p| ==> FixDrift(p)[i] == p[i]
  {
    var finalSum := SumBy(p, Id);
    if finalSum != 100 {
      SumByUpdate(p, 0, p[0] + 100 - finalSum);
    }
  }

  /** The fitted entries already sum to 100. */
  lemma FitLastSum(base: seq<int>)
    requires base != []
    ensures SumBy(FitLast(base), Id) == 100
  {
    var fitted := FitLast(base);
    assert fitted[..|fitted| - 1] == base[..|base| - 1];
  }

  /** The percentages sum to 100; the last is at least 2; it is the tail pick, in 2..5, when the
      guard fires, and otherwise nothing but the last base entry changes. */
  lemma ReconcileProperties(base: seq<int>, tailPick: real)
    requires base != [] && Unit(tailPick)
    ensures SumBy(Reconcile(base, tailPick), Id) == 100
    ensures Reconcile(base, tailPick)[|base| - 1] >= 2
    ensures 100 - SumBy(base[..|base| - 1], Id) < 2 ==>
              |base| >= 2 && Reconcile(base, tailPick)[|base| - 1] == TailPick(tailPick) <= 5
    ensures 100 - SumBy(base[..|base| - 1], Id) >= 2 ==> Reconcile(base, tailPick) == FitLast(base)
  {
    var n := |base|;
    var fitted := FitLast(base);
    assert fitted[..n - 1] == base[..n - 1];
    if fitted[n - 1] < 2 {
      assert n >= 2;
      var guarded := TailGuard(fitted, tailPick);
      FixDriftSum(guarded);
    } else {
      FitLastSum(base);
      FixDriftSum(fitted);
    }
  }

  /** Every term of a sum of non-negative integers lies between 0 and the sum. */
  lemma {:induction false} IntTermBelowSum(s: seq<int>, i: nat)
    requires i < |s| && forall j :: 0 <= j < |s| ==> s[j] >= 0
    ensures 0 <= s[i] <= SumBy(s, Id)
    decreases |s|
  {
    var init := s[..|s| - 1];
    if i < |s| - 1 {
      IntTermBelowSum(init, i);
    } else {
      SumNonNegative(init, Id);
    }
  }

  /** A sum of integers each at most m is at most m times their count. */
  lemma {:induction false} SumBelowCount(s: seq<int>, m: int)
    requires forall j :: 0 <= j < |s| ==> s[j] <= m
    ensures SumBy(s, Id) <= |s| * m
    decreases |s|
  {
    if s != [] {
      SumBelowCount(s[..|s| - 1], m);
      assert (|s| - 1) * m + m == |s| * m;
    }
  }

  lemma ShareAdd(x: real, y: real, total: real, remaining: real)
    requires total != 0.0
    ensures Scaled(x, total, remaining) + Scaled(y, total, remaining) == Scaled(x + y, total, remaining)
  {
    assert x / total + y / total == (x + y) / total;
  }

  /** The rescaled entries of a prefix sum to at most the prefix's share of `remaining`, plus a
      half per entry for the rounding. */
  lemma {:induction false} RescaledPrefixSum(others: seq<int>, remaining: int, k: nat)
    requires SumBy(others, Id) != 0 && k <= |others|
    ensures SumBy(Rescaled(others, remaining)[..k], Id) as real <=
            Scaled(SumBy(others[..k], Id) as real, SumBy(others, Id) as real, remaining as real) + k as real / 2.0
  {
    var othersSum := SumBy(others, Id);
    var r := Rescaled(others, remaining);
    if k == 0 {
      assert r[..0] == [] && others[..0] == [];
    } else {
      RescaledPrefixSum(others, remaining, k - 1);
      assert r[..k][..k - 1] == r[..k - 1];
      assert others[..k][..k - 1] == others[..k - 1];
      assert r[k - 1] == Round(Scaled(others[k - 1] as real, othersSum as real, remaining as real));
      ShareAdd(SumBy(others[..k - 1], Id) as real, others[k - 1] as real, othersSum as real, remaining as real);
    }
  }

  /** Non-negative entries rescale to non-negative entries. */
  lemma RescaledNonNegative(others: seq<int>, remaining: int)
    requires SumBy(others, Id) > 0 && remaining >= 0
    requires forall j :: 0 <= j < |others| ==> others[j] >= 0
    ensures forall j :: 0 <= j < |others| ==> Rescaled(others, remaining)[j] >= 0
  {
    forall j | 0 <= j < |others| ensures Rescaled(others, remaining)[j] >= 0 {
      var x := others[j] as real / SumBy(others, Id) as real;
      assert x >= 0.0;
      MulLe(0.0, x, remaining as real);
      RoundMonotone(0.0, x * remaining as real);
    }
  }

  /** The largest of at most four entries holds at least a quarter of their sum. */
  lemma QuarterShare(b: int, othersSum: int, remaining: int)
    requires 0 < othersSum <= 4 * b && remaining >= 95
    ensures Scaled(b as real, othersSum as real, remaining as real) >= 23.0
  {
    var q := b as real / othersSum as real;
    assert q * othersSum as real == b as real;
    if q < 0.25 {
      MulLt(q, 0.25, othersSum as real);
    }
    assert q >= 0.25;
    MulLe(0.25, q, remaining as real);
  }

  /** Rescaled entries sum to at most `remaining` plus a half per entry. */
  lemma RescaledSum(others: seq<int>, remaining: int)
    requires SumBy(others, Id) != 0
    ensures SumBy(Rescaled(others, remaining), Id) as real <= remaining as real + |others| as real / 2.0
  {
    var r := Rescaled(others, remaining);
    assert r[..|others|] == r && others[..|others|] == others;
    RescaledPrefixSum(others, remaining, |others|);
    SelfShare(SumBy(others, Id) as real, remaining as real);
  }

  lemma SelfShare(total: real, remaining: real)
    requires total != 0.0
    ensures Scaled(total, total, remaining) == remaining
  {
    assert total / total == 1.0;
  }

  /** The leader's rescaled entry is at least 22 when it is the largest of at most four. */
  lemma RescaledLeader(others: seq<int>, remaining: int)
    requires 0 < |others| < TopCount && 95 <= remaining
    requires forall i :: 0 <= i < |others| ==> 0 <= others[i] <= others[0]
    requires SumBy(others, Id) > 0
    ensures Rescaled(others, remaining)[0] >= 22
  {
    var othersSum := SumBy(others, Id);
    SumBelowCount(others, others[0]);
    MulLeInt(|others|, 4, others[0]);
    QuarterShare(others[0], othersSum, remaining);
    assert Rescaled(others, remaining)[0] == Round(Scaled(others[0] as real, othersSum as real, remaining as real));
  }

  /** After the guard, the leader's rescaled entry exceeds the rounding surplus of all the
      rescaled entries, when there are at most four of them and the leader's is the largest. */
  lemma GuardedLeader(others: seq<int>, remaining: int)
    requires 0 < |others| < TopCount && 95 <= remaining
    requires forall i :: 0 <= i < |others| ==> 0 <= others[i] <= others[0]
    requires SumBy(others, Id) > 0
    ensures Rescaled(others, remaining)[0] + remaining - SumBy(Rescaled(others, remaining), Id) >= 0
  {
    RescaledSum(others, remaining);
    RescaledLeader(others, remaining);
  }

  lemma MulLeInt(k: int, m: int, b: int)
    requires k <= m && b >= 0
    ensures k * b <= m * b
  {
  }

  /** With at most five entries, non-negative base percentages and the leader's the largest,
      every final percentage lies in [0, 100]: the correction added to the leader after the
      guard never drives it below 0 and so never lifts it above 100. */
  lemma ReconcileBounds(base: seq<int>, tailPick: real)
    requires 0 < |base| <= TopCount && Unit(tailPick)
    requires forall i :: 0 <= i < |base| ==> 0 <= base[i] <= base[0]
    ensures forall i :: 0 <= i < |base| ==> 0 <= Reconcile(base, tailPick)[i] <= 100
  {
    var n := |base|;
    var pct := Reconcile(base, tailPick);
    ReconcileProperties(base, tailPick);
    var fitted := FitLast(base);
    assert fitted[..n - 1] == base[..n - 1];
    if fitted[n - 1] < 2 {
      var others := base[..n - 1];
      var remaining := 100 - TailPick(tailPick);
      var r := Rescaled(others, remaining);
      var guarded := r + [TailPick(tailPick)];
      assert guarded == TailGuard(fitted, tailPick);
      RescaledNonNegative(others, remaining);
      GuardedLeader(others, remaining);
      assert guarded[..n - 1] == r;
      FixDriftSum(guarded);
      forall i | 0 <= i < n ensures pct[i] >= 0 {
        if i > 0 {
          assert pct[i] == guarded[i];
        }
      }
    } else {
      assert pct == fitted;
    }
    forall i | 0 <= i < n ensures 0 <= pct[i] <= 100 {
      IntTermBelowSum(pct, i);
    }
  }

  /** The percentage of every result. */
  function PercentagesOf(s: seq<Result>): (p: seq<int>)
    ensures |p| == |s|
  {
    seq(|s|, i requires 0 <= i < |s| => s[i].percentage)
  }

  /** s with its percentages replaced by p and nothing else changed. */
  function WithPercentages(s: seq<Result>, p: seq<int>): (r: seq<Result>)
    requires |p| == |s|
    ensures |r| == |s|
  {
    seq(|s|, i requires 0 <= i < |s| => s[i].(percentage := p[i]))
  }

  /** Adds up the normalised scores, left to right from 0. */
  method SumNormalized(ns: seq<real>) returns (total: real)
    ensures total == SumRealBy(ns, IdReal)
  {
    total := 0.0;
    for i := 0 to |ns|
      invariant total == SumRealBy(ns[..i], IdReal)
    {
      assert ns[..i + 1][..i] == ns[..i];
      total := total + ns[i];
    }
    assert ns[..|ns|] == ns;
  }

  /** The sum of the percentages of a[..hi], which are p[..hi]. */
  method PercentSum(a: array<Result>, hi: nat, ghost p: seq<int>) returns (sum: int)
    requires hi <= a.Length && hi <= |p|
    requires forall k :: 0 <= k < hi ==> a[k].percentage == p[k]
    ensures sum == SumBy(p[..hi], Id)
  {
    sum := 0;
    for i := 0 to hi
      invariant sum == SumBy(p[..i], Id)
    {
      assert p[..i + 1][..i] == p[..i];
      sum := sum + a[i].percentage;
    }
  }

  /** The `forEach` that sets every base percentage. */
  method AssignBase(a: array<Result>, ns: seq<real>, totalNormalized: real)
    requires a.Length == |ns| && totalNormalized == SumRealBy(ns, IdReal) != 0.0
    modifies a
    ensures forall k :: 0 <= k < a.Length ==> a[k] == old(a[k]).(percentage := BasePercentages(ns)[k])
  {
    for i := 0 to a.Length
      invariant forall k :: 0 <= k < i ==> a[k] == old(a[k]).(percentage := BasePercentages(ns)[k])
      invariant forall k :: i <= k < a.Length ==> a[k] == old(a[k])
    {
      a[i] := a[i].(percentage := PercentOf(ns[i], totalNormalized));
    }
  }

  /** Assigns the percentages of the ranked top five in place, through the same steps as the
      source: base percentages, the last entry fitted to the sum, the tail guard, the final
      correction. */
  method AssignPercentages(a: array<Result>, ns: seq<real>, tailPick: real)
    requires a.Length == |ns| > 0 && SumRealBy(ns, IdReal) != 0.0
    modifies a
    ensures a[..] == WithPercentages(old(a[..]), Reconcile(BasePercentages(ns), tailPick))
  {
    ghost var orig := a[..];
    var n := a.Length;
    var totalNormalized := SumNormalized(ns);
    ghost var base := BasePercentages(ns);
    AssignBase(a, ns, totalNormalized);
    FitLastInPlace(a, base);
    ghost var fitted := FitLast(base);
    assert fitted[..n - 1] == base[..n - 1];
    ghost var current := fitted;
    if a[n - 1].percentage < 2 {
      GuardTail(a, tailPick, fitted);
      current := TailGuard(fitted, tailPick);
    }
    FixDriftInPlace(a, current);
    assert forall k :: 0 <= k < n ==> a[k] == orig[k].(percentage := Reconcile(base, tailPick)[k]);
  }

  /** Gives the last result whatever the others leave of 100. */
  method FitLastInPlace(a: array<Result>, ghost base: seq<int>)
    requires a.Length == |base| > 0
    requires forall k :: 0 <= k < a.Length ==> a[k].percentage == base[k]
    modifies a
    ensures forall k :: 0 <= k < a.Length ==> a[k] == old(a[k]).(percentage := FitLast(base)[k])
  {
    var currentSum := PercentSum(a, a.Length - 1, base);
    a[a.Length - 1] := a[a.Length - 1].(percentage := 100 - currentSum);
  }

  /** The guard for a last entry below 2: the tail pick, then the others rescaled. */
  method GuardTail(a: array<Result>, tailPick: real, ghost fitted: seq<int>)
    requires a.Length == |fitted| > 0 && SumBy(fitted[..|fitted| - 1], Id) != 0
    requires forall k :: 0 <= k < a.Length ==> a[k].percentage == fitted[k]
    modifies a
    ensures forall k :: 0 <= k < a.Length ==> a[k] == old(a[k]).(percentage := TailGuard(fitted, tailPick)[k])
  {
    var n := a.Length;
    a[n - 1] := a[n - 1].(percentage := 2 + (tailPick * 4.0).Floor);
    var remaining := 100 - a[n - 1].percentage;
    var othersSum := PercentSum(a, n - 1, fitted);
    RescaleInPlace(a, n - 1, othersSum, remaining, fitted[..n - 1]);
  }

  /** Adds to the leader's percentage whatever makes the total exactly 100. */
  method FixDriftInPlace(a: array<Result>, ghost current: seq<int>)
    requires a.Length == |current| > 0
    requires forall k :: 0 <= k < a.Length ==> a[k].percentage == current[k]
    modifies a
    ensures forall k :: 0 <= k < a.Length ==> a[k] == old(a[k]).(percentage := FixDrift(current)[k])
  {
    var finalSum := PercentSum(a, a.Length, current);
    assert current[..a.Length] == current;
    if finalSum != 100 {
      a[0] := a[0].(percentage := a[0].percentage + 100 - finalSum);
    }
  }

  /** The guard's loop over `topFive.slice(0, -1)`: each percentage rescaled to `remaining`. */
  method RescaleInPlace(a: array<Result>, count: nat, othersSum: int, remaining: int, ghost others: seq<int>)
    requires count == |others| < a.Length && othersSum == SumBy(others, Id) != 0
    requires forall k :: 0 <= k < count ==> a[k].percentage == others[k]
    modifies a
    ensures forall k :: 0 <= k < count ==> a[k] == old(a[k]).(percentage := Rescaled(others, remaining)[k])
    ensures forall k :: count <= k < a.Length ==> a[k] == old(a[k])
  {
    for i := 0 to count
      invariant forall k :: 0 <= k < i ==> a[k] == old(a[k]).(percentage := Rescaled(others, remaining)[k])
      invariant forall k :: i <= k < a.Length ==> a[k] == old(a[k])
    {
      a[i] := a[i].(percentage := Apportioned(a[i].percentage, othersSum, remaining));
    }
  }
}
