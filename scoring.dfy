/**
  The scorer of `calculateDetailedResults`: the user's profile of selected traits, each
  profession's weighted profile, and the score, contributions and coverage of every profession
  that passes the relevance threshold.
*/
module Scoring {
  import opened Wrappers
  import opened JsObject
  import opened Sums

  type TraitId = Key

  /** A catalogue entry `{ name, id }`. */
  datatype Trait = Trait(name: string, id: TraitId)

  /** An entry of a profession's `qualities`: the old format is a bare id string (weight 1), the
      new one an object `{ id, weight }` whose weight may be missing. */
  datatype QualityRef = Bare(id: TraitId) | Weighted(id: TraitId, weight: Option<real>)

  datatype Profession = Profession(name: string, qualities: seq<QualityRef>, icon: string, description: string)

  /** One entry of a result's `contributions`; `percentage` is assigned by the ranker. */
  datatype Contribution = Contribution(name: string, points: int, score: real, weight: real, percentage: int)

  /** One entry of `results`; `adjustedScore` and `percentage` are assigned by the ranker. */
  datatype Result = Result(
    name: string, icon: string, description: string,
    totalScore: real, contributions: seq<Contribution>, matchCount: int,
    coveragePercent: real, percentage: int, adjustedScore: real)

  /** The running sums of the loop over a profession's required traits. */
  datatype Tally = Tally(matchScore: real, penaltyScore: real, contributions: seq<Contribution>)

  const Threshold := 5.0

  /** The weight of a requirement entry: a bare id weighs 1, and so does an entry whose weight is
      missing or zero; otherwise the entry's own weight. */
  function WeightOf(q: QualityRef): (w: real)
    ensures w != 0.0
    ensures q.Weighted? && q.weight.Some? && q.weight.value != 0.0 ==> w == q.weight.value
    ensures q.Bare? || q.weight.None? || q.weight.value == 0.0 ==> w == 1.0
  {
    match q
    case Bare(_) => 1.0
    case Weighted(_, w) => if w.None? || w.value == 0.0 then 1.0 else w.value
  }

  /** The catalogue's weights are positive (an explicit weight is never negative). */
  predicate WellWeighted(p: Profession)
  {
    forall i :: 0 <= i < |p.qualities| ==> WeightOf(p.qualities[i]) > 0.0
  }

  predicate RequiresTrait(qs: seq<QualityRef>, id: TraitId)
  {
    exists i :: 0 <= i < |qs| && qs[i].id == id
  }

  predicate InCatalogue(traits: seq<Trait>, id: TraitId)
  {
    exists i :: 0 <= i < |traits| && traits[i].id == id
  }

  /** No trait before index `i` has the id. */
  predicate FirstWithId(traits: seq<Trait>, i: int, id: TraitId)
    requires 0 <= i <= |traits|
  {
    forall j :: 0 <= j < i ==> traits[j].id != id
  }

  /** The first catalogue trait with the given id, if there is one. */
  function Find(traits: seq<Trait>, id: TraitId): (r: Option<Trait>)
    ensures r.Some? <==> InCatalogue(traits, id)
    ensures r.Some? ==> r.value.id == id && r.value in traits
    ensures r.Some? ==> exists i :: 0 <= i < |traits| && traits[i] == r.value && FirstWithId(traits, i, id)
  {
    if traits == [] then None
    else if traits[0].id == id then
      assert FirstWithId(traits, 0, id);
      Some(traits[0])
    else
      var r := Find(traits[1..], id);
      assert r.Some? ==> exists i :: 0 <= i < |traits| && traits[i] == r.value && FirstWithId(traits, i, id) by {
        if r.Some? {
          var i :| 0 <= i < |traits[1..]| && traits[1..][i] == r.value && FirstWithId(traits[1..], i, id);
          assert FirstWithId(traits, i + 1, id) by {
            forall j | 0 <= j < i + 1 ensures traits[j].id != id {
              if j > 0 { assert traits[j] == traits[1..][j - 1]; }
            }
          }
        }
      }
      assert InCatalogue(traits[1..], id) ==> InCatalogue(traits, id) by {
        if InCatalogue(traits[1..], id) {
          var i :| 0 <= i < |traits[1..]| && traits[1..][i].id == id;
          assert traits[i + 1].id == id;
        }
      }
      assert InCatalogue(traits, id) ==> InCatalogue(traits[1..], id) by {
        if InCatalogue(traits, id) {
          var i :| 0 <= i < |traits| && traits[i].id == id;
          assert i > 0 && traits[1..][i - 1].id == id;
        }
      }
      r
  }

  // ---------------------------------------------------------------------------------------
  // The user's profile (the loop over appData.qualities).

  /** The trait holds a positive number of points; a trait missing from the board holds none. */
  predicate HasPoints(points: map<TraitId, int>, id: TraitId)
  {
    id in points && points[id] > 0
  }

  /** `userProfile`: the catalogue's traits that hold points, in catalogue order. */
  function UserProfileOf(traits: seq<Trait>, points: map<TraitId, int>): Dict<int>
  {
    if traits == [] then Empty()
    else
      var u := UserProfileOf(traits[..|traits| - 1], points);
      var id := traits[|traits| - 1].id;
      if HasPoints(points, id) then u.Put(id, points[id]) else u
  }

  /** `userTotalPoints` */
  function UserTotalOf(traits: seq<Trait>, points: map<TraitId, int>): int
  {
    if traits == [] then 0
    else
      var id := traits[|traits| - 1].id;
      UserTotalOf(traits[..|traits| - 1], points) + (if HasPoints(points, id) then points[id] else 0)
  }

  /** The user profile holds exactly the catalogue traits with points, each with its points, and
      its point total is positive exactly when it is not empty. */
  lemma {:induction false} UserProfileShape(traits: seq<Trait>, points: map<TraitId, int>)
    ensures UserProfileOf(traits, points).Valid()
    ensures forall k :: k in UserProfileOf(traits, points).values <==> InCatalogue(traits, k) && HasPoints(points, k)
    ensures forall k :: k in UserProfileOf(traits, points).values ==> k in points && UserProfileOf(traits, points).values[k] == points[k]
    ensures UserTotalOf(traits, points) >= 0
    ensures UserTotalOf(traits, points) > 0 <==> UserProfileOf(traits, points).keys != []
    decreases |traits|
  {
    if traits != [] {
      var init := traits[..|traits| - 1];
      UserProfileShape(init, points);
      forall k ensures InCatalogue(traits, k) <==> InCatalogue(init, k) || traits[|traits| - 1].id == k {
        if InCatalogue(traits, k) {
          var i :| 0 <= i < |traits| && traits[i].id == k;
          if i < |init| { assert init[i].id == k; }
        }
        if InCatalogue(init, k) {
          var i :| 0 <= i < |init| && init[i].id == k;
          assert traits[i].id == k;
        }
      }
    }
  }

  /** The user's points on a trait, 0 when the trait is not in the profile. */
  function PointsOf(user: Dict<int>, id: TraitId): int
  {
    if id in user.values then user.values[id] else 0
  }

  /** Builds `userProfile` and `userTotalPoints`. */
  method BuildUserProfile(traits: seq<Trait>, points: map<TraitId, int>) returns (user: Dict<int>, userTotal: int)
    ensures user == UserProfileOf(traits, points) && userTotal == UserTotalOf(traits, points)
  {
    user := Empty();
    userTotal := 0;
    for i := 0 to |traits|
      invariant user == UserProfileOf(traits[..i], points)
      invariant userTotal == UserTotalOf(traits[..i], points)
    {
      assert traits[..i + 1][..i] == traits[..i];
      var id := traits[i].id;
      if id in points && points[id] > 0 {
        user := user.Put(id, points[id]);
        userTotal := userTotal + points[id];
      }
    }
    assert traits[..|traits|] == traits;
  }

  // ---------------------------------------------------------------------------------------
  // A profession's profile (the loop over profession.qualities).

  /** `professionProfile`: each required id with the weight of its last entry. */
  function ProfileOf(qs: seq<QualityRef>): Dict<real>
  {
    if qs == [] then Empty()
    else ProfileOf(qs[..|qs| - 1]).Put(qs[|qs| - 1].id, WeightOf(qs[|qs| - 1]))
  }

  /** `professionTotalWeight`: every entry counts, repeated ids included. */
  function TotalWeightOf(qs: seq<QualityRef>): real
  {
    if qs == [] then 0.0 else TotalWeightOf(qs[..|qs| - 1]) + WeightOf(qs[|qs| - 1])
  }

  /** The ids of `qs` read from the front, each the first time it appears after those in `seen`. */
  function FirstIdsAfter(qs: seq<QualityRef>, seen: set<TraitId>): seq<TraitId>
    decreases |qs|
  {
    if qs == [] then []
    else if qs[0].id in seen then FirstIdsAfter(qs[1..], seen)
    else [qs[0].id] + FirstIdsAfter(qs[1..], seen + {qs[0].id})
  }

  /** The required ids in order of first occurrence, repeats dropped. */
  function FirstIds(qs: seq<QualityRef>): seq<TraitId>
  {
    FirstIdsAfter(qs, {})
  }

  /** Appending an entry appends its id exactly when it has not been seen yet. */
  lemma {:induction false} FirstIdsSnoc(qs: seq<QualityRef>, q: QualityRef, seen: set<TraitId>)
    ensures FirstIdsAfter(qs + [q], seen)
         == FirstIdsAfter(qs, seen) + (if q.id in seen || RequiresTrait(qs, q.id) then [] else [q.id])
    decreases |qs|
  {
    if qs == [] {
      assert [] + [q] == [q];
    } else {
      assert (qs + [q])[1..] == qs[1..] + [q];
      var seen' := if qs[0].id in seen then seen else seen + {qs[0].id};
      FirstIdsSnoc(qs[1..], q, seen');
      assert RequiresTrait(qs, q.id) <==> qs[0].id == q.id || RequiresTrait(qs[1..], q.id) by {
        if RequiresTrait(qs, q.id) {
          var i :| 0 <= i < |qs| && qs[i].id == q.id;
          if i > 0 { assert qs[1..][i - 1].id == q.id; }
        }
        if RequiresTrait(qs[1..], q.id) {
          var i :| 0 <= i < |qs[1..]| && qs[1..][i].id == q.id;
          assert qs[i + 1].id == q.id;
        }
      }
    }
  }

  /** The profile's keys are the required ids in order of first occurrence, which fixes the order
      of a result's contributions. */
  lemma {:induction false} ProfileOrder(qs: seq<QualityRef>)
    ensures ProfileOf(qs).keys == FirstIds(qs)
    decreases |qs|
  {
    if qs != [] {
      var init := qs[..|qs| - 1];
      ProfileOrder(init);
      ProfileShape(init);
      assert init + [qs[|qs| - 1]] == qs;
      FirstIdsSnoc(init, qs[|qs| - 1], {});
    }
  }

  /** The profile lists every required id once, holds no other, and is no longer than the
      requirement list. */
  lemma {:induction false} ProfileShape(qs: seq<QualityRef>)
    ensures ProfileOf(qs).Valid()
    ensures forall k :: k in ProfileOf(qs).values <==> RequiresTrait(qs, k)
    ensures |ProfileOf(qs).keys| <= |qs|
    decreases |qs|
  {
    if qs != [] {
      var init := qs[..|qs| - 1];
      ProfileShape(init);
      forall k ensures RequiresTrait(qs, k) <==> RequiresTrait(init, k) || qs[|qs| - 1].id == k {
        if RequiresTrait(qs, k) {
          var i :| 0 <= i < |qs| && qs[i].id == k;
          if i < |init| { assert init[i].id == k; }
        }
        if RequiresTrait(init, k) {
          var i :| 0 <= i < |init| && init[i].id == k;
          assert qs[i].id == k;
        }
      }
    }
  }

  /** With positive catalogue weights, the profile's weights and a non-empty total are positive. */
  lemma {:induction false} ProfileWeightsPositive(qs: seq<QualityRef>)
    requires forall i :: 0 <= i < |qs| ==> WeightOf(qs[i]) > 0.0
    ensures forall k :: k in ProfileOf(qs).values ==> ProfileOf(qs).values[k] > 0.0
    ensures qs != [] ==> TotalWeightOf(qs) > 0.0
    decreases |qs|
  {
    if qs != [] {
      var init := qs[..|qs| - 1];
      assert forall i :: 0 <= i < |init| ==> init[i] == qs[i];
      ProfileWeightsPositive(init);
    }
  }

  /** Last write wins: an id's weight in the profile is the weight of its last entry. */
  lemma {:induction false} ProfileLastWins(qs: seq<QualityRef>, i: nat)
    requires i < |qs|
    requires forall j :: i < j < |qs| ==> qs[j].id != qs[i].id
    ensures qs[i].id in ProfileOf(qs).values && ProfileOf(qs).values[qs[i].id] == WeightOf(qs[i])
    decreases |qs|
  {
    if i < |qs| - 1 {
      var init := qs[..|qs| - 1];
      assert init[i] == qs[i];
      ProfileLastWins(init, i);
    }
  }

  /** Builds `professionProfile` and `professionTotalWeight`. */
  method BuildProfessionProfile(qs: seq<QualityRef>) returns (profile: Dict<real>, totalWeight: real)
    ensures profile == ProfileOf(qs) && totalWeight == TotalWeightOf(qs)
  {
    profile := Empty();
    totalWeight := 0.0;
    for i := 0 to |qs|
      invariant profile == ProfileOf(qs[..i]) && totalWeight == TotalWeightOf(qs[..i])
    {
      assert qs[..i + 1][..i] == qs[..i];
      var qualityId := qs[i].id;
      var weight := WeightOf(qs[i]);
      profile := profile.Put(qualityId, weight);
      totalWeight := totalWeight + weight;
    }
    assert qs[..|qs|] == qs;
  }

  // ---------------------------------------------------------------------------------------
  // Scoring one profession (the loops over Object.keys(professionProfile) and
  // Object.keys(userProfile)).

  /** A matched trait's score: the user's share of the 100 points times the trait's share of the
      profession's total weight, scaled by 100 and by the trait's weight again. */
  function QualityScore(userPoints: int, requiredWeight: real, totalWeight: real): real
    requires totalWeight != 0.0
  {
    (userPoints as real / 100.0) * (requiredWeight / totalWeight) * 100.0 * requiredWeight
  }

  /** The penalty for a required trait without points: 15 times its share of the total weight. */
  function MissingPenalty(requiredWeight: real, totalWeight: real): real
    requires totalWeight != 0.0
  {
    (requiredWeight / totalWeight) * 15.0
  }

  /** A trait the user chose that the profession requires scores positively, and a required
      trait the user left out costs a positive penalty. */
  lemma ScoresArePositive(userPoints: int, requiredWeight: real, totalWeight: real)
    requires userPoints > 0 && requiredWeight > 0.0 && totalWeight > 0.0
    ensures QualityScore(userPoints, requiredWeight, totalWeight) > 0.0
    ensures MissingPenalty(requiredWeight, totalWeight) > 0.0
  {
    var importance := requiredWeight / totalWeight;
    assert importance > 0.0;
    var share := userPoints as real / 100.0;
    assert share > 0.0;
    assert share * importance > 0.0;
    assert share * importance * 100.0 > 0.0;
  }

  /** The contribution pushed for a required id the user holds points on. */
  function ContributionFor(traits: seq<Trait>, user: Dict<int>, weights: map<TraitId, real>, totalWeight: real,
                           id: TraitId): Contribution
    requires id in weights && totalWeight != 0.0
    requires InCatalogue(traits, id)
  {
    var userPoints := PointsOf(user, id);
    Contribution(Find(traits, id).value.name, userPoints, QualityScore(userPoints, weights[id], totalWeight), weights[id], 0)
  }

  /** One iteration of the loop over the profession's required ids. */
  function TallyStep(traits: seq<Trait>, user: Dict<int>, weights: map<TraitId, real>, totalWeight: real,
                     t: Tally, id: TraitId): Tally
    requires id in weights && totalWeight != 0.0
    requires PointsOf(user, id) > 0 ==> InCatalogue(traits, id)
  {
    if PointsOf(user, id) > 0 then
      var c := ContributionFor(traits, user, weights, totalWeight, id);
      Tally(t.matchScore + c.score, t.penaltyScore, t.contributions + [c])
    else
      Tally(t.matchScore, t.penaltyScore + MissingPenalty(weights[id], totalWeight), t.contributions)
  }

  /** `matchScore`, `penaltyScore` and `contributions` after the loop has visited keys. */
  function TallyOf(traits: seq<Trait>, user: Dict<int>, weights: map<TraitId, real>, totalWeight: real,
                   keys: seq<TraitId>): Tally
    requires keys == [] || totalWeight != 0.0
    requires forall k :: k in keys ==> k in weights
    requires forall k :: k in user.values ==> InCatalogue(traits, k)
  {
    if keys == [] then Tally(0.0, 0.0, [])
    else
      var t := TallyOf(traits, user, weights, totalWeight, keys[..|keys| - 1]);
      TallyStep(traits, user, weights, totalWeight, t, keys[|keys| - 1])
  }

  /** The required ids the user holds points on, in the profile's order. */
  function Matched(user: Dict<int>, keys: seq<TraitId>): (m: seq<TraitId>)
    ensures forall i :: 0 <= i < |m| ==> PointsOf(user, m[i]) > 0 && m[i] in keys
    ensures forall k :: k in keys && PointsOf(user, k) > 0 ==> k in m
    ensures |m| <= |keys|
  {
    if keys == [] then []
    else
      var init := keys[..|keys| - 1];
      var k := keys[|keys| - 1];
      assert forall j :: j in init ==> j in keys;
      assert keys == init + [k];
      Matched(user, init) + (if PointsOf(user, k) > 0 then [k] else [])
  }

  lemma {:induction false} MatchedNone(user: Dict<int>, keys: seq<TraitId>)
    requires forall k :: k in keys ==> PointsOf(user, k) <= 0
    ensures Matched(user, keys) == []
    decreases |keys|
  {
    if keys != [] {
      var init := keys[..|keys| - 1];
      assert forall j :: j in init ==> j in keys;
      MatchedNone(user, init);
    }
  }

  function ScoreOf(c: Contribution): real { c.score }

  /** The loop's contributions are exactly the matched ids, in order, each with the user's points,
      its weight, its score and the catalogue name of its trait. */
  lemma {:induction false} TallyContributions(traits: seq<Trait>, user: Dict<int>, weights: map<TraitId, real>,
                                              totalWeight: real, keys: seq<TraitId>)
    requires totalWeight != 0.0
    requires forall k :: k in keys ==> k in weights
    requires forall k :: k in user.values ==> InCatalogue(traits, k)
    ensures |TallyOf(traits, user, weights, totalWeight, keys).contributions| == |Matched(user, keys)|
    ensures forall i :: 0 <= i < |Matched(user, keys)| ==>
              TallyOf(traits, user, weights, totalWeight, keys).contributions[i]
                == ContributionFor(traits, user, weights, totalWeight, Matched(user, keys)[i])
    decreases |keys|
  {
    if keys != [] {
      var init := keys[..|keys| - 1];
      assert forall j :: j in init ==> j in keys;
      TallyContributions(traits, user, weights, totalWeight, init);
    }
  }

  /** A contribution has positive points, weight and score when the weights are positive. */
  lemma ContributionForPositive(traits: seq<Trait>, user: Dict<int>, weights: map<TraitId, real>,
                                totalWeight: real, id: TraitId)
    requires id in weights && weights[id] > 0.0 && totalWeight > 0.0
    requires InCatalogue(traits, id) && PointsOf(user, id) > 0
    ensures var c := ContributionFor(traits, user, weights, totalWeight, id);
            c.points > 0 && c.score > 0.0 && c.weight > 0.0 && c.percentage == 0
  {
    ScoresArePositive(PointsOf(user, id), weights[id], totalWeight);
  }

  /** `matchScore` is the sum of the contributions' scores and `penaltyScore` is not negative. */
  lemma {:induction false} TallySums(traits: seq<Trait>, user: Dict<int>, weights: map<TraitId, real>,
                                     totalWeight: real, keys: seq<TraitId>)
    requires totalWeight > 0.0
    requires forall k :: k in keys ==> k in weights && weights[k] > 0.0
    requires forall k :: k in user.values ==> InCatalogue(traits, k)
    ensures TallyOf(traits, user, weights, totalWeight, keys).matchScore
              == SumRealBy(TallyOf(traits, user, weights, totalWeight, keys).contributions, ScoreOf)
    ensures TallyOf(traits, user, weights, totalWeight, keys).penaltyScore >= 0.0
    decreases |keys|
  {
    if keys != [] {
      var init := keys[..|keys| - 1];
      var id := keys[|keys| - 1];
      assert forall j :: j in init ==> j in keys;
      TallySums(traits, user, weights, totalWeight, init);
      var t := TallyOf(traits, user, weights, totalWeight, init);
      ScoresArePositive(1, weights[id], totalWeight);
      if PointsOf(user, id) > 0 {
        var c := ContributionFor(traits, user, weights, totalWeight, id);
        assert (t.contributions + [c])[..|t.contributions|] == t.contributions;
      }
    }
  }

  /** The profession does not weigh the trait: the id is missing from its profile, or its weight is 0. */
  predicate NotRequired(weights: map<TraitId, real>, id: TraitId)
  {
    !(id in weights && weights[id] != 0.0)
  }

  /** `irrelevantPenalty` after the loop has visited keys of the user profile. */
  function IrrelevantOf(user: Dict<int>, weights: map<TraitId, real>, keys: seq<TraitId>): real
    requires forall k :: k in keys ==> k in user.values
  {
    if keys == [] then 0.0
    else
      var id := keys[|keys| - 1];
      IrrelevantOf(user, weights, keys[..|keys| - 1])
        + (if NotRequired(weights, id) then (user.values[id] as real / 100.0) * 5.0 else 0.0)
  }

  /** With positive points, the irrelevant-trait penalty is never negative, and it is positive
      exactly when some visited trait is one the profession does not weigh. */
  lemma {:induction false} IrrelevantPositive(user: Dict<int>, weights: map<TraitId, real>, keys: seq<TraitId>)
    requires forall k :: k in keys ==> k in user.values && user.values[k] > 0
    ensures IrrelevantOf(user, weights, keys) >= 0.0
    ensures IrrelevantOf(user, weights, keys) > 0.0 <==> exists k :: k in keys && NotRequired(weights, k)
    decreases |keys|
  {
    if keys != [] {
      var init := keys[..|keys| - 1];
      var id := keys[|keys| - 1];
      assert forall k :: k in keys <==> k in init || k == id;
      IrrelevantPositive(user, weights, init);
    }
  }

  /** The larger of the two. */
  function Max(a: real, b: real): real
  {
    if a >= b then a else b
  }

  /** What the scorer's divisions and lookups rely on: the user's keys are catalogue ids, the
      profile's keys have weights, a non-empty requirement list has a positive total weight, and
      the user's point total is positive as soon as one required trait matches. */
  lemma {:induction false} ScoringPreconditions(traits: seq<Trait>, points: map<TraitId, int>, p: Profession)
    requires WellWeighted(p)
    ensures forall k :: k in UserProfileOf(traits, points).values ==> InCatalogue(traits, k)
    ensures forall k :: k in UserProfileOf(traits, points).keys ==> k in UserProfileOf(traits, points).values
    ensures forall k :: k in ProfileOf(p.qualities).keys ==>
              k in ProfileOf(p.qualities).values && ProfileOf(p.qualities).values[k] > 0.0
    ensures p.qualities != [] ==> TotalWeightOf(p.qualities) > 0.0
    ensures ProfileOf(p.qualities).keys == [] || TotalWeightOf(p.qualities) != 0.0
    ensures |TallyOf(traits, UserProfileOf(traits, points), ProfileOf(p.qualities).values,
                     TotalWeightOf(p.qualities), ProfileOf(p.qualities).keys).contributions| > 0 ==>
              UserTotalOf(traits, points) > 0
  {
    var user := UserProfileOf(traits, points);
    var profile := ProfileOf(p.qualities);
    var totalWeight := TotalWeightOf(p.qualities);
    UserProfileShape(traits, points);
    ProfileShape(p.qualities);
    ProfileWeightsPositive(p.qualities);
    if profile.keys != [] {
      assert RequiresTrait(p.qualities, profile.keys[0]);
    }
    if p.qualities != [] {
      TallyContributions(traits, user, profile.values, totalWeight, profile.keys);
      var m := Matched(user, profile.keys);
      if |m| > 0 {
        assert PointsOf(user, m[0]) > 0;
      }
    }
  }

  /** The threshold test and the pushed result, from the profession's tally. */
  function Judge(p: Profession, t: Tally, irrelevantPenalty: real, userTotal: int): Option<Result>
    requires p.qualities != []
    requires |t.contributions| > 0 ==> userTotal > 0
  {
    var coverageBonus := (|t.contributions| as real / |p.qualities| as real) * 25.0;
    var totalScore := t.matchScore + coverageBonus - t.penaltyScore - irrelevantPenalty;
    if totalScore > Threshold && |t.contributions| > 0 then
      var concentrationBonus := (t.matchScore / userTotal as real) * 20.0;
      Some(Result(p.name, p.icon, p.description, Max(0.0, totalScore + concentrationBonus),
                  t.contributions, |t.contributions|,
                  (|t.contributions| as real / |p.qualities| as real) * 100.0, 0, 0.0))
    else
      None
  }

  /** The result the scorer pushes for profession p, or None when p does not pass the threshold. */
  function Evaluate(traits: seq<Trait>, points: map<TraitId, int>, p: Profession): Option<Result>
    requires WellWeighted(p)
  {
    if p.qualities == [] then
      // contributions.length / profession.qualities.length is 0 / 0, which is NaN, and NaN > 5 is false
      None
    else
      var user := UserProfileOf(traits, points);
      var profile := ProfileOf(p.qualities);
      var totalWeight := TotalWeightOf(p.qualities);
      ScoringPreconditions(traits, points, p);
      Judge(p, TallyOf(traits, user, profile.values, totalWeight, profile.keys),
            IrrelevantOf(user, profile.values, user.keys), UserTotalOf(traits, points))
  }

  /** The loop over `Object.keys(professionProfile)`: accumulates the match score, the penalty for
      missing traits and the contributions. */
  method TallyRequired(traits: seq<Trait>, user: Dict<int>, professionProfile: Dict<real>,
                       professionTotalWeight: real)
    returns (matchScore: real, penaltyScore: real, contributions: seq<Contribution>)
    requires professionProfile.keys == [] || professionTotalWeight != 0.0
    requires forall k :: k in professionProfile.keys ==> k in professionProfile.values
    requires forall k :: k in user.values ==> InCatalogue(traits, k)
    ensures Tally(matchScore, penaltyScore, contributions)
      == TallyOf(traits, user, professionProfile.values, professionTotalWeight, professionProfile.keys)
  {
    matchScore := 0.0;
    penaltyScore := 0.0;
    contributions := [];
    var keys := professionProfile.keys;
    for i := 0 to |keys|
      invariant Tally(matchScore, penaltyScore, contributions)
        == TallyOf(traits, user, professionProfile.values, professionTotalWeight, keys[..i])
    {
      assert keys[..i + 1][..i] == keys[..i];
      var qualityId := keys[i];
      var requiredWeight := professionProfile.values[qualityId];
      var userPoints := if qualityId in user.values then user.values[qualityId] else 0;
      if userPoints > 0 {
        var qualityScore := QualityScore(userPoints, requiredWeight, professionTotalWeight);
        matchScore := matchScore + qualityScore;
        var quality := Find(traits, qualityId);
        contributions := contributions + [Contribution(quality.value.name, userPoints, qualityScore, requiredWeight, 0)];
      } else {
        var missingPenalty := MissingPenalty(requiredWeight, professionTotalWeight);
        penaltyScore := penaltyScore + missingPenalty;
      }
    }
    assert keys[..|keys|] == keys;
  }

  /** The loop over `Object.keys(userProfile)`: 5 points per 100 the user put on traits the
      profession does not require. */
  method SumIrrelevant(user: Dict<int>, weights: map<TraitId, real>) returns (irrelevantPenalty: real)
    requires forall k :: k in user.keys ==> k in user.values
    ensures irrelevantPenalty == IrrelevantOf(user, weights, user.keys)
  {
    irrelevantPenalty := 0.0;
    for i := 0 to |user.keys|
      invariant irrelevantPenalty == IrrelevantOf(user, weights, user.keys[..i])
    {
      assert user.keys[..i + 1][..i] == user.keys[..i];
      var qualityId := user.keys[i];
      if !(qualityId in weights && weights[qualityId] != 0.0) {
        irrelevantPenalty := irrelevantPenalty + (user.values[qualityId] as real / 100.0) * 5.0;
      }
    }
    assert user.keys[..|user.keys|] == user.keys;
  }

  /** Scores one profession. */
  method ScoreProfession(traits: seq<Trait>, user: Dict<int>, userTotalPoints: int, p: Profession,
                         ghost points: map<TraitId, int>) returns (r: Option<Result>)
    requires WellWeighted(p)
    requires user == UserProfileOf(traits, points) && userTotalPoints == UserTotalOf(traits, points)
    ensures r == Evaluate(traits, points, p)
  {
    ScoringPreconditions(traits, points, p);
    var professionProfile, professionTotalWeight := BuildProfessionProfile(p.qualities);
    var matchScore, penaltyScore, contributions :=
      TallyRequired(traits, user, professionProfile, professionTotalWeight);

    if |p.qualities| == 0 {
      // the coverage ratio is 0 / 0, which is NaN, and NaN > 5 is false
      return None;
    }
    var irrelevantPenalty := SumIrrelevant(user, professionProfile.values);
    r := ApplyThreshold(p, matchScore, penaltyScore, contributions, irrelevantPenalty, userTotalPoints);
  }

  /** The coverage bonus, the total score, the threshold test, the concentration bonus and the
      pushed result. */
  method ApplyThreshold(p: Profession, matchScore: real, penaltyScore: real, contributions: seq<Contribution>,
                        irrelevantPenalty: real, userTotalPoints: int) returns (r: Option<Result>)
    requires p.qualities != []
    requires |contributions| > 0 ==> userTotalPoints > 0
    ensures r == Judge(p, Tally(matchScore, penaltyScore, contributions), irrelevantPenalty, userTotalPoints)
  {
    var coverageBonus := (|contributions| as real / |p.qualities| as real) * 25.0;
    var totalScore := matchScore + coverageBonus - penaltyScore - irrelevantPenalty;
    if totalScore > Threshold && |contributions| > 0 {
      var concentrationBonus := (matchScore / userTotalPoints as real) * 20.0;
      totalScore := totalScore + concentrationBonus;
      r := Some(Result(p.name, p.icon, p.description, Max(0.0, totalScore),
                       contributions, |contributions|,
                       (|contributions| as real / |p.qualities| as real) * 100.0, 0, 0.0));
    } else {
      r := None;
    }
  }

  /** What every pushed result satisfies. */
  ghost predicate Qualifies(r: Result)
  {
    && r.totalScore > Threshold
    && r.matchCount == |r.contributions| > 0
    && 0.0 < r.coveragePercent <= 100.0
    && r.percentage == 0
    && (forall c :: c in r.contributions ==> c.points > 0 && c.score > 0.0 && c.weight > 0.0)
  }

  /** The threshold test lets through only results that qualify, from a tally with a
      non-negative match score, positive contributions and no more matches than requirements. */
  lemma JudgeQualifies(p: Profession, t: Tally, irrelevantPenalty: real, userTotal: int)
    requires p.qualities != [] && (|t.contributions| > 0 ==> userTotal > 0)
    requires t.matchScore >= 0.0 && |t.contributions| <= |p.qualities|
    requires forall c :: c in t.contributions ==> c.points > 0 && c.score > 0.0 && c.weight > 0.0 && c.percentage == 0
    ensures Judge(p, t, irrelevantPenalty, userTotal).Some? ==>
              var r := Judge(p, t, irrelevantPenalty, userTotal).value;
              Qualifies(r) && r.name == p.name && r.icon == p.icon && r.description == p.description
              && r.contributions == t.contributions
  {
    if |t.contributions| > 0 {
      assert t.matchScore / userTotal as real >= 0.0;
    }
  }

  /** A profession without requirements, or none of whose required traits holds points, is never
      included. */
  lemma EvaluateExcluded(traits: seq<Trait>, points: map<TraitId, int>, p: Profession)
    requires WellWeighted(p)
    requires p.qualities == [] || forall i :: 0 <= i < |p.qualities| ==> !HasPoints(points, p.qualities[i].id)
    ensures Evaluate(traits, points, p).None?
  {
    if p.qualities != [] {
      ScoringPreconditions(traits, points, p);
      UserProfileShape(traits, points);
      ProfileShape(p.qualities);
      var user := UserProfileOf(traits, points);
      var profile := ProfileOf(p.qualities);
      TallyContributions(traits, user, profile.values, TotalWeightOf(p.qualities), profile.keys);
      forall k | k in profile.keys ensures PointsOf(user, k) <= 0 {
        assert RequiresTrait(p.qualities, k);
        var i :| 0 <= i < |p.qualities| && p.qualities[i].id == k;
      }
      MatchedNone(user, profile.keys);
    }
  }

  /** An included profession has a matched trait, a score above the threshold (so the clamp to 0
      changes nothing), a coverage in (0, 100] and contributions with positive points, weights
      and scores. */
  lemma EvaluateIncluded(traits: seq<Trait>, points: map<TraitId, int>, p: Profession)
    requires WellWeighted(p)
    ensures Evaluate(traits, points, p).Some? ==>
              var r := Evaluate(traits, points, p).value;
              Qualifies(r) && r.name == p.name && r.icon == p.icon && r.description == p.description
  {
    if p.qualities != [] {
      ScoringPreconditions(traits, points, p);
      ProfileShape(p.qualities);
      var user := UserProfileOf(traits, points);
      var profile := ProfileOf(p.qualities);
      var totalWeight := TotalWeightOf(p.qualities);
      TallyPositive(traits, user, profile.values, totalWeight, profile.keys);
      TallySums(traits, user, profile.values, totalWeight, profile.keys);
      var t := TallyOf(traits, user, profile.values, totalWeight, profile.keys);
      assert t.matchScore >= 0.0 && |t.contributions| <= |p.qualities|;
      JudgeQualifies(p, t, IrrelevantOf(user, profile.values, user.keys), UserTotalOf(traits, points));
    }
  }

  /** With positive weights, every contribution of the loop has positive points, weight and score,
      and there are no more contributions than keys. */
  lemma TallyPositive(traits: seq<Trait>, user: Dict<int>, weights: map<TraitId, real>,
                      totalWeight: real, keys: seq<TraitId>)
    requires totalWeight > 0.0
    requires forall k :: k in keys ==> k in weights && weights[k] > 0.0
    requires forall k :: k in user.values ==> InCatalogue(traits, k)
    ensures |TallyOf(traits, user, weights, totalWeight, keys).contributions| <= |keys|
    ensures forall c :: c in TallyOf(traits, user, weights, totalWeight, keys).contributions ==>
              c.points > 0 && c.score > 0.0 && c.weight > 0.0 && c.percentage == 0
    ensures SumRealBy(TallyOf(traits, user, weights, totalWeight, keys).contributions, ScoreOf) >= 0.0
  {
    TallyContributions(traits, user, weights, totalWeight, keys);
    var cs := TallyOf(traits, user, weights, totalWeight, keys).contributions;
    var m := Matched(user, keys);
    forall c | c in cs ensures c.points > 0 && c.score > 0.0 && c.weight > 0.0 && c.percentage == 0 {
      var j :| 0 <= j < |cs| && cs[j] == c;
      assert m[j] in keys;
      ContributionForPositive(traits, user, weights, totalWeight, m[j]);
    }
    SumRealNonNegative(cs, ScoreOf) by {
      forall j | 0 <= j < |cs| ensures ScoreOf(cs[j]) >= 0.0 {
        assert cs[j] in cs;
      }
    }
  }

  /** `results`: the included professions' results, in catalogue order. */
  function Scored(traits: seq<Trait>, points: map<TraitId, int>, professions: seq<Profession>): seq<Result>
    requires forall i :: 0 <= i < |professions| ==> WellWeighted(professions[i])
  {
    if professions == [] then []
    else
      var init := Scored(traits, points, professions[..|professions| - 1]);
      match Evaluate(traits, points, professions[|professions| - 1])
      case Some(r) => init + [r]
      case None => init
  }

  /** At most one result per profession, each from an included profession; no result at all when
      the user holds no points, or when no profession requires a trait that holds points. */
  lemma {:induction false} ScoredResults(traits: seq<Trait>, points: map<TraitId, int>, professions: seq<Profession>)
    requires forall i :: 0 <= i < |professions| ==> WellWeighted(professions[i])
    ensures |Scored(traits, points, professions)| <= |professions|
    ensures forall r :: r in Scored(traits, points, professions) ==> Qualifies(r)
    ensures (forall i, j :: 0 <= i < |professions| && 0 <= j < |professions[i].qualities| ==>
               !HasPoints(points, professions[i].qualities[j].id)) ==>
            Scored(traits, points, professions) == []
    decreases |professions|
  {
    if professions != [] {
      var init := professions[..|professions| - 1];
      var last := professions[|professions| - 1];
      assert forall i :: 0 <= i < |init| ==> init[i] == professions[i];
      ScoredResults(traits, points, init);
      EvaluateIncluded(traits, points, last);
      if forall i, j :: 0 <= i < |professions| && 0 <= j < |professions[i].qualities| ==>
           !HasPoints(points, professions[i].qualities[j].id) {
        EvaluateExcluded(traits, points, last);
      }
    }
  }

  /** The scoring half of `calculateDetailedResults`: the user profile, then one evaluation per
      profession. */
  method ScoreAll(traits: seq<Trait>, points: map<TraitId, int>, professions: seq<Profession>)
    returns (results: seq<Result>)
    requires forall i :: 0 <= i < |professions| ==> WellWeighted(professions[i])
    ensures results == Scored(traits, points, professions)
  {
    var userProfile, userTotalPoints := BuildUserProfile(traits, points);
    results := [];
    for i := 0 to |professions|
      invariant results == Scored(traits, points, professions[..i])
    {
      assert professions[..i + 1][..i] == professions[..i];
      var r := ScoreProfession(traits, userProfile, userTotalPoints, professions[i], points);
      if r.Some? {
        results := results + [r.value];
      }
    }
    assert professions[..|professions|] == professions;
  }
}
