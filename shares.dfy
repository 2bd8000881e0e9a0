/**
  The percentage contribution of each matched trait within one result: Math.round of each
  contribution's share of the result's summed contribution scores, the last one set so that the
  sum is 100, then the contributions sorted by descending percentage.
*/
module Shares {
  import opened Sums
  import opened StableSort
  import opened Scoring
  import opened Percentages

  function PercentKey(c: Contribution): real { c.percentage as real }
  function ShareOf(c: Contribution): int { c.percentage }

  /** The contributions with their percentages assigned, before the sort. */
  function Shares(cs: seq<Contribution>): (r: seq<Contribution>)
    ensures |r| == |cs|
  {
    var total := SumRealBy(cs, ScoreOf);
    if total > 0.0 then
      var rounded := Rounded(cs, total);
      if |cs| > 0 then
        rounded[|cs| - 1 := rounded[|cs| - 1].(percentage := 100 - SumBy(rounded[..|cs| - 1], ShareOf))]
      else
        rounded
    else
      cs
  }

  /** Every contribution's percentage set to its rounded share of total. */
  function Rounded(cs: seq<Contribution>, total: real): (r: seq<Contribution>)
    requires total != 0.0
    ensures |r| == |cs|
  {
    seq(|cs|, i requires 0 <= i < |cs| => cs[i].(percentage := PercentOf(cs[i].score, total)))
  }

  /** `result.contributions` as the ranker leaves it. */
  function SortedShares(cs: seq<Contribution>): seq<Contribution>
  {
    Sort(Shares(cs), PercentKey)
  }

  /** Only percentages change; with a positive score total they sum to 100, every entry but the
      last being its rounded share; with no positive total nothing changes. */
  lemma SharesProperties(cs: seq<Contribution>)
    ensures forall i :: 0 <= i < |cs| ==> Shares(cs)[i] == cs[i].(percentage := Shares(cs)[i].percentage)
    ensures SumRealBy(cs, ScoreOf) > 0.0 ==> SumBy(Shares(cs), ShareOf) == 100
    ensures SumRealBy(cs, ScoreOf) > 0.0 ==>
              forall i :: 0 <= i < |cs| - 1 ==> Shares(cs)[i].percentage == PercentOf(cs[i].score, SumRealBy(cs, ScoreOf))
    ensures SumRealBy(cs, ScoreOf) <= 0.0 ==> Shares(cs) == cs
  {
    var total := SumRealBy(cs, ScoreOf);
    if total > 0.0 {
      assert cs != [];
      var r := Shares(cs);
      var n := |cs|;
      assert r[..n - 1] == Rounded(cs, total)[..n - 1];
      assert r == r[..n - 1] + [r[n - 1]];
    }
  }

  /** The sorted contributions are a permutation of the assigned ones, in descending percentage
      order, and with a positive score total their percentages still sum to 100. */
  lemma SortedSharesProperties(cs: seq<Contribution>)
    ensures Descending(SortedShares(cs), PercentKey)
    ensures multiset(SortedShares(cs)) == multiset(Shares(cs))
    ensures |SortedShares(cs)| == |cs|
    ensures SumRealBy(cs, ScoreOf) > 0.0 ==> SumBy(SortedShares(cs), ShareOf) == 100
  {
    SortIsDescendingPermutation(Shares(cs), PercentKey);
    SharesProperties(cs);
    SumByPermutation(SortedShares(cs), Shares(cs), ShareOf);
  }

  /** The last contribution can receive a negative percentage: with scores 67, 67, 65 and 1 the
      rounded shares are 34, 34, 33 and 1, so the last is set to 100 - 101 = -1. */
  lemma NegativeLastShare()
    ensures Shares([Contribution("a", 1, 67.0, 1.0, 0), Contribution("b", 1, 67.0, 1.0, 0),
                    Contribution("c", 1, 65.0, 1.0, 0), Contribution("d", 1, 1.0, 1.0, 0)])[3].percentage == -1
  {
    var cs := [Contribution("a", 1, 67.0, 1.0, 0), Contribution("b", 1, 67.0, 1.0, 0),
               Contribution("c", 1, 65.0, 1.0, 0), Contribution("d", 1, 1.0, 1.0, 0)];
    assert cs[..1][..0] == [] && cs[..2][..1] == cs[..1] && cs[..3][..2] == cs[..2] && cs[..4][..3] == cs[..3];
    assert SumRealBy(cs[..1], ScoreOf) == 67.0;
    assert SumRealBy(cs[..2], ScoreOf) == 134.0;
    assert SumRealBy(cs[..3], ScoreOf) == 199.0;
    assert cs[..4] == cs;
    assert SumRealBy(cs, ScoreOf) == 200.0;
    assert PercentOf(67.0, 200.0) == 34;
    assert PercentOf(65.0, 200.0) == 33;
    var rounded := Rounded(cs, 200.0);
    assert rounded[..1][..0] == [] && rounded[..2][..1] == rounded[..1] && rounded[..3][..2] == rounded[..2];
    assert SumBy(rounded[..1], ShareOf) == 34;
    assert SumBy(rounded[..2], ShareOf) == 68;
    assert SumBy(rounded[..3], ShareOf) == 101;
  }

  /** Adds up the contributions' scores, left to right from 0. */
  method ContributionTotal(cs: array<Contribution>) returns (total: real)
    ensures total == SumRealBy(cs[..], ScoreOf)
  {
    total := 0.0;
    for i := 0 to cs.Length
      invariant total == SumRealBy(cs[..i], ScoreOf)
    {
      assert cs[..i + 1][..i] == cs[..i];
      total := total + cs[i].score;
    }
    assert cs[..cs.Length] == cs[..];
  }

  /** The sum of the percentages of cs[..hi]. */
  method ShareSum(cs: array<Contribution>, hi: nat) returns (sum: int)
    requires hi <= cs.Length
    ensures sum == SumBy(cs[..hi], ShareOf)
  {
    sum := 0;
    for i := 0 to hi
      invariant sum == SumBy(cs[..i], ShareOf)
    {
      assert cs[..i + 1][..i] == cs[..i];
      sum := sum + cs[i].percentage;
    }
  }

  /** Assigns the contributions' percentages in place. */
  method AssignShares(cs: array<Contribution>)
    modifies cs
    ensures cs[..] == Shares(old(cs[..]))
  {
    ghost var orig := cs[..];
    var total := ContributionTotal(cs);
    if total > 0.0 {
      for i := 0 to cs.Length
        invariant forall k :: 0 <= k < i ==> cs[k] == Rounded(orig, total)[k]
        invariant forall k :: i <= k < cs.Length ==> cs[k] == orig[k]
      {
        cs[i] := cs[i].(percentage := PercentOf(cs[i].score, total));
      }
      assert cs[..] == Rounded(orig, total);
      var contribSum := ShareSum(cs, if cs.Length > 0 then cs.Length - 1 else 0);
      if cs.Length > 0 {
        cs[cs.Length - 1] := cs[cs.Length - 1].(percentage := 100 - contribSum);
      }
    }
  }

  /** Assigns the contributions' percentages in place, then sorts them by descending percentage. */
  method ShareContributions(cs: array<Contribution>)
    modifies cs
    ensures cs[..] == SortedShares(old(cs[..]))
  {
    AssignShares(cs);
    SortInPlace(cs, PercentKey);
  }

  /** One result's contributions, copied into an array, given percentages and sorted. */
  method SortedSharesOf(contributions: seq<Contribution>) returns (r: seq<Contribution>)
    ensures r == SortedShares(contributions)
  {
    var cs := new Contribution[|contributions|](j requires 0 <= j < |contributions| => contributions[j]);
    assert cs[..] == contributions;
    ShareContributions(cs);
    r := cs[..];
  }
}
