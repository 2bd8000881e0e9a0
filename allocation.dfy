/**
  The point-allocation board of the quiz: a budget of 100 points that the user moves, 5 at a time,
  between the free pool (`totalPoints`) and individual traits (`pointsData`), together with the
  running count of traits holding points (`selectedQualitiesCount`) and the enabling rules of the
  buttons.
*/
module Allocation {

  type TraitId = string

  /** The budget the user distributes. */
  const Budget := 100
  /** The amount one click moves. */
  const Step := 5
  /** The fewest traits a submission must use. */
  const MinSelected := 5

  /** Sum of the values of m. */
  ghost function Total(m: map<TraitId, int>): int
    decreases |m.Keys|
  {
    if m.Keys == {} then 0
    else
      var k :| k in m.Keys;
      assert |(m - {k}).Keys| < |m.Keys| by { assert (m - {k}).Keys == m.Keys - {k}; }
      m[k] + Total(m - {k})
  }

  /** The traits holding points. */
  ghost function Selected(m: map<TraitId, int>): set<TraitId>
  {
    set id | id in m && m[id] > 0
  }

  /** Total does not depend on which key it removes first. */
  lemma {:induction false} TotalRemove(m: map<TraitId, int>, k: TraitId)
    requires k in m
    ensures Total(m) == m[k] + Total(m - {k})
    decreases |m.Keys|
  {
    var j :| j in m.Keys && Total(m) == m[j] + Total(m - {j});
    if j != k {
      var withoutJ, withoutK := m - {j}, m - {k};
      assert withoutJ.Keys == m.Keys - {j} && withoutK.Keys == m.Keys - {k};
      TotalRemove(withoutJ, k);
      TotalRemove(withoutK, j);
      assert withoutJ - {k} == withoutK - {j};
      assert withoutJ[k] == m[k] && withoutK[j] == m[j];
    }
  }

  /** Changing one entry changes the total by the difference. */
  lemma TotalUpdate(m: map<TraitId, int>, k: TraitId, v: int)
    requires k in m
    ensures Total(m[k := v]) == Total(m) - m[k] + v
  {
    TotalRemove(m, k);
    TotalRemove(m[k := v], k);
    assert m[k := v] - {k} == m - {k};
  }

  lemma {:induction false} TotalOfZeros(m: map<TraitId, int>)
    requires forall k :: k in m ==> m[k] == 0
    ensures Total(m) == 0
    decreases |m.Keys|
  {
    if m.Keys != {} {
      var k :| k in m.Keys;
      TotalRemove(m, k);
      assert (m - {k}).Keys == m.Keys - {k};
      TotalOfZeros(m - {k});
    }
  }

  /** With no negative entry, every entry is at most the total. */
  lemma {:induction false} EntryBelowTotal(m: map<TraitId, int>, k: TraitId)
    requires forall j :: j in m ==> m[j] >= 0
    requires k in m
    ensures 0 <= m[k] <= Total(m)
    decreases |m.Keys|
  {
    TotalRemove(m, k);
    var rest := m - {k};
    if rest.Keys != {} {
      var j :| j in rest.Keys;
      assert rest.Keys == m.Keys - {k};
      EntryBelowTotal(rest, j);
      TotalRemove(rest, j);
      TotalNonNegative(rest - {j});
    }
  }

  lemma {:induction false} TotalNonNegative(m: map<TraitId, int>)
    requires forall j :: j in m ==> m[j] >= 0
    ensures Total(m) >= 0
    decreases |m.Keys|
  {
    if m.Keys != {} {
      var k :| k in m.Keys;
      TotalRemove(m, k);
      assert (m - {k}).Keys == m.Keys - {k};
      TotalNonNegative(m - {k});
    }
  }

  /** Raising a trait from 0 selects it; raising a selected trait changes no selection. */
  lemma SelectedRaise(m: map<TraitId, int>, id: TraitId, v: int)
    requires id in m && m[id] >= 0 && v > 0
    ensures |Selected(m[id := v])| == |Selected(m)| + (if m[id] == 0 then 1 else 0)
  {
    if m[id] == 0 {
      assert Selected(m[id := v]) == Selected(m) + {id} && id !in Selected(m);
    } else {
      assert Selected(m[id := v]) == Selected(m);
    }
  }

  /** Lowering a selected trait to 0 deselects it; lowering it to a positive value changes no
      selection. */
  lemma SelectedLower(m: map<TraitId, int>, id: TraitId, v: int)
    requires id in m && m[id] > 0 && v >= 0
    ensures |Selected(m[id := v])| == |Selected(m)| - (if v == 0 then 1 else 0)
  {
    if v == 0 {
      assert Selected(m) == Selected(m[id := v]) + {id} && id !in Selected(m[id := v]);
    } else {
      assert Selected(m[id := v]) == Selected(m);
    }
  }

  /** The board's invariant on its three fields: the budget is conserved, moves are whole steps,
      and the counter of selected traits is accurate. */
  ghost predicate Consistent(m: map<TraitId, int>, free: int, count: int)
  {
    && 0 <= free && free % Step == 0
    && (forall id :: id in m ==> m[id] >= 0 && m[id] % Step == 0)
    && free + Total(m) == Budget
    && count == |Selected(m)|
  }

  /** One "+" step keeps the board consistent. */
  lemma RaiseKeepsConsistent(m: map<TraitId, int>, free: int, count: int, id: TraitId)
    requires Consistent(m, free, count) && id in m && free > 0
    ensures Consistent(m[id := m[id] + Step], free - Step, count + (if m[id] == 0 then 1 else 0))
  {
    SelectedRaise(m, id, m[id] + Step);
    TotalUpdate(m, id, m[id] + Step);
  }

  /** One "−" step keeps the board consistent. */
  lemma LowerKeepsConsistent(m: map<TraitId, int>, free: int, count: int, id: TraitId)
    requires Consistent(m, free, count) && id in m && m[id] > 0
    ensures Consistent(m[id := m[id] - Step], free + Step, count - (if m[id] == Step then 1 else 0))
  {
    SelectedLower(m, id, m[id] - Step);
    TotalUpdate(m, id, m[id] - Step);
    var lowered := m[id := m[id] - Step];
    forall j | j in lowered ensures lowered[j] >= 0 && lowered[j] % Step == 0 {
      if j == id {
        assert m[id] >= Step;
      }
    }
  }

  class PointsBoard {
    var pointsData: map<TraitId, int>
    var totalPoints: int
    var selectedQualitiesCount: int

    /** The board's invariant: the budget is conserved, moves are whole steps, and the counter
        of selected traits is accurate. */
    ghost predicate Valid()
      reads this
    {
      Consistent(pointsData, totalPoints, selectedQualitiesCount)
    }

    /** The reset of `init`: every catalogue trait at 0 and the whole budget free. */
    constructor (qualityIds: seq<TraitId>)
      ensures Valid()
      ensures pointsData.Keys == set i | 0 <= i < |qualityIds| :: qualityIds[i]
      ensures forall id :: id in pointsData ==> pointsData[id] == 0
      ensures totalPoints == Budget && selectedQualitiesCount == 0
    {
      var data: map<TraitId, int> := map[];
      for i := 0 to |qualityIds|
        invariant data.Keys == set j | 0 <= j < i :: qualityIds[j]
        invariant forall id :: id in data ==> data[id] == 0
      {
        data := data[qualityIds[i] := 0];
      }
      pointsData := data;
      totalPoints := Budget;
      selectedQualitiesCount := 0;
      new;
      TotalOfZeros(pointsData);
      assert Selected(pointsData) == {};
    }

    /** The "+" click on trait id: moves one step from the free pool to the trait, if any is left. */
    method Plus(id: TraitId)
      requires Valid() && id in pointsData
      modifies this
      ensures Valid()
      ensures old(totalPoints) > 0 ==>
        && pointsData == old(pointsData)[id := old(pointsData[id]) + Step]
        && totalPoints == old(totalPoints) - Step
        && selectedQualitiesCount == old(selectedQualitiesCount) + (if old(pointsData[id]) == 0 then 1 else 0)
      ensures old(totalPoints) <= 0 ==>
        pointsData == old(pointsData) && totalPoints == old(totalPoints)
        && selectedQualitiesCount == old(selectedQualitiesCount)
    {
      if totalPoints > 0 {
        RaiseKeepsConsistent(pointsData, totalPoints, selectedQualitiesCount, id);
        if pointsData[id] == 0 {
          selectedQualitiesCount := selectedQualitiesCount + 1;
        }
        pointsData := pointsData[id := pointsData[id] + Step];
        totalPoints := totalPoints - Step;
      }
    }

    /** The "−" click on trait id: moves one step from the trait back to the free pool, if it has any. */
    method Minus(id: TraitId)
      requires Valid() && id in pointsData
      modifies this
      ensures Valid()
      ensures old(pointsData[id]) > 0 ==>
        && pointsData == old(pointsData)[id := old(pointsData[id]) - Step]
        && totalPoints == old(totalPoints) + Step
        && selectedQualitiesCount == old(selectedQualitiesCount) - (if old(pointsData[id]) == Step then 1 else 0)
      ensures old(pointsData[id]) <= 0 ==>
        pointsData == old(pointsData) && totalPoints == old(totalPoints)
        && selectedQualitiesCount == old(selectedQualitiesCount)
    {
      if pointsData[id] > 0 {
        LowerKeepsConsistent(pointsData, totalPoints, selectedQualitiesCount, id);
        if pointsData[id] == Step {
          selectedQualitiesCount := selectedQualitiesCount - 1;
        }
        pointsData := pointsData[id := pointsData[id] - Step];
        totalPoints := totalPoints + Step;
      }
    }

    /** The submit button is enabled once every point is spent and at least five traits hold points. */
    predicate SubmitEnabled()
      reads this
    {
      totalPoints == 0 && selectedQualitiesCount >= MinSelected
    }

    /** Every "+" button is enabled while some points are still free. */
    predicate PlusEnabled()
      reads this
    {
      totalPoints != 0
    }

    /** A trait's "−" button is enabled while that trait holds points. */
    predicate MinusEnabled(id: TraitId)
      reads this
      requires id in pointsData
    {
      pointsData[id] != 0
    }
  }

  /** What the enabled buttons mean for a valid board: submission exactly when all 100 points
      sit on traits and at least five traits hold points; "+" exactly when its click would move a
      point; "−" exactly when the trait has points to give back. Every trait holds between 0 and
      100 points. */
  lemma ButtonsMeaning(b: PointsBoard)
    requires b.Valid()
    ensures b.SubmitEnabled() <==> Total(b.pointsData) == Budget && |Selected(b.pointsData)| >= MinSelected
    ensures b.PlusEnabled() <==> b.totalPoints > 0
    ensures b.PlusEnabled() <==> Total(b.pointsData) < Budget
    ensures forall id :: id in b.pointsData ==> (b.MinusEnabled(id) <==> b.pointsData[id] > 0)
    ensures forall id :: id in b.pointsData ==> 0 <= b.pointsData[id] <= Budget
  {
    forall id | id in b.pointsData ensures 0 <= b.pointsData[id] <= Budget {
      EntryBelowTotal(b.pointsData, id);
    }
  }
}
