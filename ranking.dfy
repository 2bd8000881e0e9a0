/**
  The ranking half of `calculateDetailedResults`: the five best results by total score, each
  score perturbed by random draws, re-sorted by the perturbed score, and the perturbed scores
  turned into normalized weights. The random draws are parameters; Math.pow with the randomly
  drawn exponent is the caller-supplied `power`.
*/
module Ranking {
  import opened Sums
  import opened StableSort
  import opened Scoring

  /** The ranking keeps at most this many results. */
  const TopCount := 5

  function TotalKey(r: Result): real { r.totalScore }
  function AdjustedKey(r: Result): real { r.adjustedScore }

  function Min(a: int, b: int): int { if a <= b then a else b }

  /** A value Math.random() can return. */
  predicate Unit(x: real) { 0.0 <= x < 1.0 }

  /** The five best results by total score, best first; ties keep catalogue order. */
  function TopFive(scored: seq<Result>): (top: seq<Result>)
    ensures |top| == Min(TopCount, |scored|)
  {
    SortIsDescendingPermutation(scored, TotalKey);
    Sort(scored, TotalKey)[..Min(TopCount, |scored|)]
  }

  /** The kept results are in descending total-score order, are drawn from the scored results,
      and none of the results left out scores higher than any kept one. */
  lemma TopFiveSelects(scored: seq<Result>)
    ensures Descending(TopFive(scored), TotalKey)
    ensures multiset(TopFive(scored)) <= multiset(scored)
    ensures TopFive(scored) == [] <==> scored == []
    ensures forall x, y :: x in TopFive(scored) && y in multiset(scored) - multiset(TopFive(scored)) ==>
              x.totalScore >= y.totalScore
  {
    var sorted := Sort(scored, TotalKey);
    SortIsDescendingPermutation(scored, TotalKey);
    var k := Min(TopCount, |scored|);
    var top, rest := sorted[..k], sorted[k..];
    assert sorted == top + rest;
    assert multiset(scored) - multiset(top) == multiset(rest);
    forall x, y | x in top && y in rest ensures x.totalScore >= y.totalScore {
      PrefixDominates(sorted, k, x, y);
    }
  }

  /** In a descending sequence, every element of a prefix ranks at least as high as every
      element after it. */
  lemma PrefixDominates(sorted: seq<Result>, k: nat, x: Result, y: Result)
    requires k <= |sorted| && Descending(sorted, TotalKey)
    requires x in sorted[..k] && y in sorted[k..]
    ensures x.totalScore >= y.totalScore
  {
    var i :| 0 <= i < k && sorted[..k][i] == x;
    var j :| 0 <= j < |sorted| - k && sorted[k..][j] == y;
    assert TotalKey(sorted[i]) >= TotalKey(sorted[k + j]);
  }

  /** The draws one result's perturbation consumes; the rolls decide whether a bonus or a cut
      applies, the other draws decide its size. */
  datatype PerturbDraw = PerturbDraw(factor: real, leaderRoll: real, leaderBoost: real, tailRoll: real, tailCut: real)

  predicate ValidPerturbDraw(d: PerturbDraw)
  {
    Unit(d.factor) && Unit(d.leaderRoll) && Unit(d.leaderBoost) && Unit(d.tailRoll) && Unit(d.tailCut)
  }

  /** The adjusted score of the result at `index` of the top five, whose total score is `total`:
      a random factor in [0.85, 1.15), a leader bonus in [1.2, 1.6) when the leader's roll exceeds
      0.7, and a cut to [0.6, 0.9) for positions 3 and 4 when their roll exceeds 0.6. */
  function Perturbed(total: real, index: nat, d: PerturbDraw): real
  {
    var base := total * (0.85 + d.factor * 0.3);
    var boosted := if index == 0 && d.leaderRoll > 0.7 then base * (1.2 + d.leaderBoost * 0.4) else base;
    if index >= 3 && d.tailRoll > 0.6 then boosted * (0.6 + d.tailCut * 0.3) else boosted
  }

  /** Products of positive reals keep the bounds of their factors. */
  lemma ScaleBounds(t: real, f: real, lo: real, hi: real)
    requires t > 0.0 && lo <= f < hi
    ensures t * lo <= t * f < t * hi
  {
  }
  lemma BaseBounds(total: real, index: nat, d: PerturbDraw)
    requires total > 0.0 && ValidPerturbDraw(d)
    requires !(index == 0 && d.leaderRoll > 0.7) && !(index >= 3 && d.tailRoll > 0.6)
    ensures total * 0.85 <= Perturbed(total, index, d) < total * 1.15
  {
    var f := d.factor;
    ScaleBounds(total, 0.85 + f * 0.3, 0.85, 1.15);
    assert Perturbed(total, index, d) == total * (0.85 + f * 0.3);
    assert total * 0.85 <= total * (0.85 + f * 0.3);
    assert total * (0.85 + f * 0.3) < total * 1.15;
  }
  lemma ScaledEnvelope(total: real, p: real, g: real, glo: real, ghi: real)
    requires total > 0.0 && total * 0.85 <= p < total * 1.15 && 0.0 < glo <= g < ghi
    ensures total * 0.85 * glo <= p * g < total * 1.15 * ghi
  {
    ScaleBounds(p, g, glo, ghi);
    MulLe(total * 0.85, p, glo);
    MulLt(p, total * 1.15, ghi);
  }

  lemma MulLe(a: real, b: real, c: real)
    requires a <= b && c >= 0.0
    ensures a * c <= b * c
  {
  }

  lemma MulLt(a: real, b: real, c: real)
    requires a < b && c > 0.0
    ensures a * c < b * c
  {
  }

  lemma BoostBounds(total: real, index: nat, d: PerturbDraw)
    requires total > 0.0 && ValidPerturbDraw(d) && index == 0 && d.leaderRoll > 0.7
    ensures total * 0.85 <= Perturbed(total, index, d) < total * 1.15 * 1.6
  {
    var f := 0.85 + d.factor * 0.3;
    ScaleBounds(total, f, 0.85, 1.15);
    assert total * 0.85 <= total * f;
    assert total * f < total * 1.15;
    assert 1.2 <= 1.2 + d.leaderBoost * 0.4 < 1.6;
    ScaledEnvelope(total, total * f, 1.2 + d.leaderBoost * 0.4, 1.2, 1.6);
  }

  lemma CutBounds(total: real, index: nat, d: PerturbDraw)
    requires total > 0.0 && ValidPerturbDraw(d) && index >= 3 && d.tailRoll > 0.6
    ensures total * 0.85 * 0.6 <= Perturbed(total, index, d) < total * 1.15
  {
    var f := 0.85 + d.factor * 0.3;
    ScaleBounds(total, f, 0.85, 1.15);
    assert total * 0.85 <= total * f;
    assert total * f < total * 1.15;
    assert 0.6 <= 0.6 + d.tailCut * 0.3 < 0.9;
    ScaledEnvelope(total, total * f, 0.6 + d.tailCut * 0.3, 0.6, 0.9);
  }

  /** The envelope each position's adjusted score stays in. */
  lemma PerturbedBounds(total: real, index: nat, d: PerturbDraw)
    requires total > 0.0 && ValidPerturbDraw(d)
    ensures Perturbed(total, index, d) > 0.0
    ensures index == 0 ==> total * 0.85 <= Perturbed(total, index, d) < total * 1.15 * 1.6
    ensures 0 < index < 3 ==> total * 0.85 <= Perturbed(total, index, d) < total * 1.15
    ensures index >= 3 ==> total * 0.85 * 0.6 <= Perturbed(total, index, d) < total * 1.15
    ensures (index == 0 ==> d.leaderRoll <= 0.7) && (index >= 3 ==> d.tailRoll <= 0.6) ==>
              total * 0.85 <= Perturbed(total, index, d) < total * 1.15
  {
    if index == 0 && d.leaderRoll > 0.7 {
      BoostBounds(total, index, d);
    } else if index >= 3 && d.tailRoll > 0.6 {
      CutBounds(total, index, d);
    } else {
      BaseBounds(total, index, d);
    }
  }

  /** The top five after the `forEach` that sets every adjusted score. */
  function PerturbAll(top: seq<Result>, draws: seq<PerturbDraw>): (r: seq<Result>)
    requires |draws| >= |top|
    ensures |r| == |top|
  {
    seq(|top|, i requires 0 <= i < |top| => top[i].(adjustedScore := Perturbed(top[i].totalScore, i, draws[i])))
  }

  /** Sets every adjusted score of the top five in place. */
  method Perturb(a: array<Result>, draws: seq<PerturbDraw>)
    requires |draws| >= a.Length
    modifies a
    ensures a[..] == PerturbAll(old(a[..]), draws)
  {
    for i := 0 to a.Length
      invariant forall k :: 0 <= k < i ==> a[k] == old(a[k]).(adjustedScore := Perturbed(old(a[k]).totalScore, k, draws[k]))
      invariant forall k :: i <= k < a.Length ==> a[k] == old(a[k])
    {
      var d := draws[i];
      var adjusted := a[i].totalScore * (0.85 + d.factor * 0.3);
      if i == 0 && d.leaderRoll > 0.7 {
        adjusted := adjusted * (1.2 + d.leaderBoost * 0.4);
      }
      if i >= 3 && d.tailRoll > 0.6 {
        adjusted := adjusted * (0.6 + d.tailCut * 0.3);
      }
      assert adjusted == Perturbed(a[i].totalScore, i, d);
      a[i] := a[i].(adjustedScore := adjusted);
    }
  }

  /** `topFive` once re-sorted by adjusted score. */
  function Ranked(top: seq<Result>, draws: seq<PerturbDraw>): (r: seq<Result>)
    requires |draws| >= |top|
  {
    Sort(PerturbAll(top, draws), AdjustedKey)
  }

  /** The re-sorted top five is the perturbed top five in descending adjusted-score order, and
      every adjusted score is positive when every total score is. */
  lemma RankedProperties(top: seq<Result>, draws: seq<PerturbDraw>)
    requires |draws| >= |top|
    requires forall i :: 0 <= i < |draws| ==> ValidPerturbDraw(draws[i])
    requires forall r :: r in top ==> r.totalScore > 0.0
    ensures Descending(Ranked(top, draws), AdjustedKey)
    ensures multiset(Ranked(top, draws)) == multiset(PerturbAll(top, draws))
    ensures |Ranked(top, draws)| == |top|
    ensures forall r :: r in Ranked(top, draws) ==> r.adjustedScore > 0.0 && r.totalScore > 0.0
  {
    var perturbed := PerturbAll(top, draws);
    SortIsDescendingPermutation(perturbed, AdjustedKey);
    forall r | r in Ranked(top, draws) ensures r.adjustedScore > 0.0 && r.totalScore > 0.0 {
      assert r in multiset(perturbed);
      var i :| 0 <= i < |perturbed| && perturbed[i] == r;
      assert top[i] in top;
      PerturbedBounds(top[i].totalScore, i, draws[i]);
    }
  }

  /** What Math.pow(x, e) does for an exponent e > 0 on the ratios it is given here. */
  ghost predicate PowerOnUnit(power: real -> real)
  {
    && power(1.0) == 1.0
    && forall x :: 0.0 < x <= 1.0 ==> 0.0 < power(x) <= 1.0
  }

  /** `normalizedScores`: each adjusted score relative to the leader's, raised to the power, and
      the leader's entry multiplied by a factor in [1.3, 1.8) when its roll exceeds 0.6. */
  function Normalized(ranked: seq<Result>, power: real -> real, amplifyRoll: real, amplifyBoost: real): (ns: seq<real>)
    requires ranked != [] && ranked[0].adjustedScore != 0.0
    ensures |ns| == |ranked|
  {
    var ratios := Ratios(ranked, power);
    if amplifyRoll > 0.6 then ratios[0 := Amplified(ratios[0], amplifyBoost)] else ratios
  }

  /** The leader's normalized score times a factor in [1.3, 1.8). */
  function Amplified(x: real, amplifyBoost: real): real
  {
    x * (1.3 + amplifyBoost * 0.5)
  }

  /** Each adjusted score divided by the leader's, raised to the power. */
  function Ratios(ranked: seq<Result>, power: real -> real): (ns: seq<real>)
    requires ranked != [] && ranked[0].adjustedScore != 0.0
    ensures |ns| == |ranked|
  {
    seq(|ranked|, i requires 0 <= i < |ranked| => power(ranked[i].adjustedScore / ranked[0].adjustedScore))
  }

  /** Each normalized score is positive and at most 1, except the leader's, which is at least 1
      and below 1.8; so the leader's is the largest. */
  lemma NormalizedBounds(ranked: seq<Result>, power: real -> real, amplifyRoll: real, amplifyBoost: real)
    requires ranked != [] && Descending(ranked, AdjustedKey)
    requires forall r :: r in ranked ==> r.adjustedScore > 0.0
    requires PowerOnUnit(power) && Unit(amplifyBoost)
    ensures 1.0 <= Normalized(ranked, power, amplifyRoll, amplifyBoost)[0] < 1.8
    ensures amplifyRoll <= 0.6 ==> Normalized(ranked, power, amplifyRoll, amplifyBoost)[0] == 1.0
    ensures forall i :: 0 < i < |ranked| ==> 0.0 < Normalized(ranked, power, amplifyRoll, amplifyBoost)[i] <= 1.0
  {
    var maxScore := ranked[0].adjustedScore;
    assert ranked[0] in ranked;
    assert maxScore / maxScore == 1.0;
    var ns := Normalized(ranked, power, amplifyRoll, amplifyBoost);
    assert ns[0] == if amplifyRoll > 0.6 then Amplified(1.0, amplifyBoost) else 1.0;
    forall i | 0 < i < |ranked| ensures 0.0 < ns[i] <= 1.0 {
      assert ranked[i] in ranked;
      RatioInUnit(ranked[i].adjustedScore, maxScore);
      assert ns[i] == power(ranked[i].adjustedScore / maxScore);
    }
  }

  lemma RatioInUnit(x: real, m: real)
    requires 0.0 < x <= m
    ensures 0.0 < x / m <= 1.0
  {
  }

  /** Computes `normalizedScores` from the re-sorted top five. */
  method NormalizeScores(a: array<Result>, power: real -> real, amplifyRoll: real, amplifyBoost: real)
    returns (ns: seq<real>)
    requires a.Length > 0 && a[0].adjustedScore != 0.0
    ensures ns == Normalized(a[..], power, amplifyRoll, amplifyBoost)
  {
    var maxScore := a[0].adjustedScore;
    ghost var ranked := a[..];
    ns := [];
    for i := 0 to a.Length
      invariant |ns| == i
      invariant forall k :: 0 <= k < i ==> ns[k] == power(a[k].adjustedScore / maxScore)
    {
      ns := ns + [power(a[i].adjustedScore / maxScore)];
    }
    assert ns == Ratios(ranked, power);
    if amplifyRoll > 0.6 {
      ns := ns[0 := Amplified(ns[0], amplifyBoost)];
    }
  }
}
