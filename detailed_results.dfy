/**
  `calculateDetailedResults` end to end: the scorer's results, the five best by total score with
  their scores perturbed and re-sorted, their percentages, and each one's contribution
  percentages.
*/
module DetailedResults {
  import opened Sums
  import opened StableSort
  import opened Scoring
  import opened Ranking
  import opened Percentages
  import opened Shares

  /** The Math.random() draws the ranker uses: one perturbation record per position, the leader's
      amplification roll and size, and the tail pick of the guard. */
  datatype Draws = Draws(perturb: seq<PerturbDraw>, amplifyRoll: real, amplifyBoost: real, tailPick: real)

  predicate ValidDraws(d: Draws)
  {
    && |d.perturb| >= TopCount
    && (forall i :: 0 <= i < |d.perturb| ==> ValidPerturbDraw(d.perturb[i]))
    && Unit(d.amplifyRoll) && Unit(d.amplifyBoost) && Unit(d.tailPick)
  }

  /** Every result with its contributions given percentages and sorted. */
  function WithShares(s: seq<Result>): (r: seq<Result>)
    ensures |r| == |s|
  {
    seq(|s|, i requires 0 <= i < |s| => Shared(s[i]))
  }

  /** One result with its contributions given percentages and sorted. */
  function Shared(r: Result): Result
  {
    r.(contributions := SortedShares(r.contributions))
  }

  /** A positive sum of scores, for a non-empty list of positive contributions. */
  lemma {:induction false} ScoresPositive(cs: seq<Contribution>)
    requires cs != [] && forall c :: c in cs ==> c.score > 0.0
    ensures SumRealBy(cs, ScoreOf) > 0.0
  {
    var init := cs[..|cs| - 1];
    assert cs[|cs| - 1] in cs;
    SumRealNonNegative(init, ScoreOf) by {
      forall j | 0 <= j < |init| ensures ScoreOf(init[j]) >= 0.0 {
        assert init[j] in cs;
      }
    }
  }

  /** The kept results are scored results, so they qualify. */
  lemma TopQualify(scored: seq<Result>)
    requires forall r :: r in scored ==> Qualifies(r)
    ensures forall r :: r in TopFive(scored) ==> Qualifies(r) && r.totalScore > 0.0
  {
    TopFiveSelects(scored);
    forall r | r in TopFive(scored) ensures Qualifies(r) {
      assert r in multiset(TopFive(scored));
      assert r in multiset(scored);
    }
  }

  /** Perturbing and re-sorting keeps every field the scorer set, so the ranked results still
      qualify. */
  lemma RankedQualify(top: seq<Result>, draws: Draws)
    requires |top| <= TopCount && forall r :: r in top ==> Qualifies(r)
    requires ValidDraws(draws)
    ensures forall r :: r in Ranked(top, draws.perturb) ==> Qualifies(r)
  {
    var perturbed := PerturbAll(top, draws.perturb);
    forall r | r in perturbed ensures Qualifies(r) {
      var i :| 0 <= i < |perturbed| && perturbed[i] == r;
      assert top[i] in top;
    }
    SortIsDescendingPermutation(perturbed, AdjustedKey);
    forall r | r in Ranked(top, draws.perturb) ensures Qualifies(r) {
      assert r in multiset(perturbed);
    }
  }

  /** The percentages of the ranked top five. */
  function FinalPercentages(ranked: seq<Result>, draws: Draws, power: real -> real): (pct: seq<int>)
    requires ranked != [] && Descending(ranked, AdjustedKey)
    requires forall r :: r in ranked ==> r.adjustedScore > 0.0
    requires ValidDraws(draws) && PowerOnUnit(power)
    ensures |pct| == |ranked|
  {
    assert ranked[0] in ranked;
    var ns := Normalized(ranked, power, draws.amplifyRoll, draws.amplifyBoost);
    NormalizedBounds(ranked, power, draws.amplifyRoll, draws.amplifyBoost);
    BasePercentagesBounds(ns);
    Reconcile(BasePercentages(ns), draws.tailPick)
  }

  /** The final percentages sum to 100, lie in [0, 100], and the last is at least 2. */
  lemma FinalPercentagesProperties(ranked: seq<Result>, draws: Draws, power: real -> real)
    requires ranked != [] && |ranked| <= TopCount && Descending(ranked, AdjustedKey)
    requires forall r :: r in ranked ==> r.adjustedScore > 0.0
    requires ValidDraws(draws) && PowerOnUnit(power)
    ensures SumBy(FinalPercentages(ranked, draws, power), Id) == 100
    ensures FinalPercentages(ranked, draws, power)[|ranked| - 1] >= 2
    ensures forall i :: 0 <= i < |ranked| ==> 0 <= FinalPercentages(ranked, draws, power)[i] <= 100
  {
    assert ranked[0] in ranked;
    var ns := Normalized(ranked, power, draws.amplifyRoll, draws.amplifyBoost);
    NormalizedBounds(ranked, power, draws.amplifyRoll, draws.amplifyBoost);
    BasePercentagesBounds(ns);
    var base := BasePercentages(ns);
    ReconcileProperties(base, draws.tailPick);
    ReconcileBounds(base, draws.tailPick);
  }

  /** The ranker applied to the scored results. */
  function RankedResults(scored: seq<Result>, draws: Draws, power: real -> real): seq<Result>
    requires forall r :: r in scored ==> Qualifies(r)
    requires ValidDraws(draws) && PowerOnUnit(power)
  {
    var top := TopFive(scored);
    if top == [] then []
    else
      TopQualify(scored);
      RankedProperties(top, draws.perturb);
      var ranked := Ranked(top, draws.perturb);
      WithShares(WithPercentages(ranked, FinalPercentages(ranked, draws, power)))
  }

  /** The value `calculateDetailedResults` returns. */
  function DetailedResultsOf(traits: seq<Trait>, points: map<TraitId, int>, professions: seq<Profession>,
                             draws: Draws, power: real -> real): seq<Result>
    requires forall i :: 0 <= i < |professions| ==> WellWeighted(professions[i])
    requires ValidDraws(draws) && PowerOnUnit(power)
  {
    ScoredResults(traits, points, professions);
    RankedResults(Scored(traits, points, professions), draws, power)
  }

  /** At most five results, none exactly when nothing was scored, in descending adjusted-score
      order. */
  lemma RankedResultsOrder(scored: seq<Result>, draws: Draws, power: real -> real)
    requires forall r :: r in scored ==> Qualifies(r)
    requires ValidDraws(draws) && PowerOnUnit(power)
    ensures |RankedResults(scored, draws, power)| == Min(TopCount, |scored|)
    ensures RankedResults(scored, draws, power) == [] <==> scored == []
    ensures Descending(RankedResults(scored, draws, power), AdjustedKey)
  {
    var top := TopFive(scored);
    TopFiveSelects(scored);
    if top != [] {
      TopQualify(scored);
      RankedProperties(top, draws.perturb);
      var ranked := Ranked(top, draws.perturb);
      var out := RankedResults(scored, draws, power);
      assert |out| == |ranked|;
      forall i, j | 0 <= i < j < |out| ensures AdjustedKey(out[i]) >= AdjustedKey(out[j]) {
        assert AdjustedKey(ranked[i]) >= AdjustedKey(ranked[j]);
      }
    }
  }

  /** The returned percentages lie in [0, 100] and sum to 100, the last being at least 2. */
  lemma RankedResultsPercentages(scored: seq<Result>, draws: Draws, power: real -> real)
    requires forall r :: r in scored ==> Qualifies(r)
    requires ValidDraws(draws) && PowerOnUnit(power)
    ensures RankedResults(scored, draws, power) != [] ==> SumBy(PercentagesOf(RankedResults(scored, draws, power)), Id) == 100
    ensures RankedResults(scored, draws, power) != [] ==>
              RankedResults(scored, draws, power)[|RankedResults(scored, draws, power)| - 1].percentage >= 2
    ensures forall r :: r in RankedResults(scored, draws, power) ==> 0 <= r.percentage <= 100
  {
    var top := TopFive(scored);
    if top != [] {
      TopQualify(scored);
      RankedProperties(top, draws.perturb);
      var ranked := Ranked(top, draws.perturb);
      var pct := FinalPercentages(ranked, draws, power);
      FinalPercentagesProperties(ranked, draws, power);
      var out := RankedResults(scored, draws, power);
      assert |out| == |pct|;
      assert forall i :: 0 <= i < |out| ==> out[i].percentage == pct[i];
      assert PercentagesOf(out) == pct;
      forall r | r in out ensures 0 <= r.percentage <= 100 {
        var i :| 0 <= i < |out| && out[i] == r;
      }
    }
  }

  /** Every returned result scores above the threshold, and its contribution percentages sum to
      100 in descending order. */
  lemma RankedContributions(scored: seq<Result>, draws: Draws, power: real -> real)
    requires forall r :: r in scored ==> Qualifies(r)
    requires ValidDraws(draws) && PowerOnUnit(power)
    ensures forall r :: r in RankedResults(scored, draws, power) ==>
              r.totalScore > Threshold && Descending(r.contributions, PercentKey) && SumBy(r.contributions, ShareOf) == 100
  {
    var top := TopFive(scored);
    if top != [] {
      TopQualify(scored);
      RankedProperties(top, draws.perturb);
      var ranked := Ranked(top, draws.perturb);
      RankedQualify(top, draws);
      SharedAll(ranked, FinalPercentages(ranked, draws, power));
    }
  }

  /** Giving qualifying results percentages and then contribution percentages keeps their scores
      above the threshold, and leaves their contribution percentages descending and summing to 100. */
  lemma SharedAll(ranked: seq<Result>, pct: seq<int>)
    requires |pct| == |ranked| && forall r :: r in ranked ==> Qualifies(r)
    ensures forall r :: r in WithShares(WithPercentages(ranked, pct)) ==>
              r.totalScore > Threshold && Descending(r.contributions, PercentKey) && SumBy(r.contributions, ShareOf) == 100
  {
    var out := WithShares(WithPercentages(ranked, pct));
    forall r | r in out
      ensures r.totalScore > Threshold && Descending(r.contributions, PercentKey) && SumBy(r.contributions, ShareOf) == 100
    {
      var i :| 0 <= i < |out| && out[i] == r;
      assert ranked[i] in ranked;
      assert r.totalScore == ranked[i].totalScore && r.contributions == SortedShares(ranked[i].contributions);
      SharedContributions(ranked[i]);
    }
  }

  /** A qualifying result's contributions, once given percentages and sorted, are in descending
      percentage order and their percentages sum to 100. */
  lemma SharedContributions(r: Result)
    requires Qualifies(r)
    ensures Descending(SortedShares(r.contributions), PercentKey)
    ensures SumBy(SortedShares(r.contributions), ShareOf) == 100
  {
    ScoresPositive(r.contributions);
    SortedSharesProperties(r.contributions);
  }

  /** Sorts the results by total score, best first and stably, then keeps the first five. */
  method SelectTopFive(results: seq<Result>) returns (top: array<Result>)
    ensures fresh(top) && top[..] == TopFive(results)
  {
    var sorted := new Result[|results|](i requires 0 <= i < |results| => results[i]);
    assert sorted[..] == results;
    SortInPlace(sorted, TotalKey);
    var count := Min(TopCount, sorted.Length);
    top := new Result[count](i requires 0 <= i < count reads sorted => sorted[i]);
    assert top[..] == sorted[..count];
  }

  /** The final `forEach`: every result's contributions given percentages and sorted. */
  method ShareAll(top: array<Result>)
    modifies top
    ensures top[..] == WithShares(old(top[..]))
  {
    for i := 0 to top.Length
      invariant forall k :: 0 <= k < i ==> top[k] == Shared(old(top[k]))
      invariant forall k :: i <= k < top.Length ==> top[k] == old(top[k])
    {
      var contributions := SortedSharesOf(top[i].contributions);
      top[i] := top[i].(contributions := contributions);
      assert top[i] == Shared(old(top[i]));
    }
  }

  /** The ranker on the kept results: perturb, re-sort, normalize, assign the percentages and the
      contribution percentages. */
  method RankTopFive(top: array<Result>, ghost scored: seq<Result>, draws: Draws, power: real -> real)
    requires top[..] == TopFive(scored) && top.Length > 0
    requires forall r :: r in scored ==> Qualifies(r)
    requires ValidDraws(draws) && PowerOnUnit(power)
    modifies top
    ensures top[..] == RankedResults(scored, draws, power)
  {
    TopQualify(scored);
    RankedProperties(top[..], draws.perturb);
    Perturb(top, draws.perturb);
    SortInPlace(top, AdjustedKey);
    ghost var ranked := top[..];
    assert ranked[0] in ranked;
    var ns := NormalizeScores(top, power, draws.amplifyRoll, draws.amplifyBoost);
    NormalizedBounds(ranked, power, draws.amplifyRoll, draws.amplifyBoost);
    BasePercentagesBounds(ns);
    AssignPercentages(top, ns, draws.tailPick);
    ShareAll(top);
  }

  /** `calculateDetailedResults(userPoints)`: scores every profession, keeps the five best,
      perturbs and re-sorts them, assigns their percentages and their contribution percentages. */
  method CalculateDetailedResults(traits: seq<Trait>, professions: seq<Profession>, points: map<TraitId, int>,
                                  draws: Draws, power: real -> real)
    returns (topFive: seq<Result>)
    requires forall i :: 0 <= i < |professions| ==> WellWeighted(professions[i])
    requires ValidDraws(draws) && PowerOnUnit(power)
    ensures topFive == DetailedResultsOf(traits, points, professions, draws, power)
  {
    var results := ScoreAll(traits, points, professions);
    ScoredResults(traits, points, professions);
    var top := SelectTopFive(results);
    if top.Length == 0 {
      return [];
    }
    RankTopFive(top, results, draws, power);
    topFive := top[..];
  }
}
