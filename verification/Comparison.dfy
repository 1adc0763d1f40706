/** internal/domain/scenario/simulation.go: Compare, an order-independent best choice. */
module Comparisons {
  import opened Core
  import opened Text
  import opened Scenarios
  import opened Simulation
  import opened Businesses
  import opened Planning

  datatype Item = Item(id: Id, name: string, status: Scenarios.Status, projected: Metrics, deltas: Metrics,
                       risks: seq<Risk>, warnings: seq<Warning>)

  datatype Comparison = Comparison(items: seq<Item>, recommended: Option<Id>, everyCandidateHighRisk: bool)

  function ItemOf(c: Scenario): Item {
    Item(c.id, c.name, c.status, c.result.projected, c.result.deltas, c.risks, c.result.warnings)
  }

  /** Simulated or compared, with a result. */
  predicate Comparable(c: Scenario) {
    (c.status == Simulated || c.status == Compared) && c.result.calculated
  }

  /** None of its risks is a high one. */
  predicate Safe(c: Scenario) {
    forall i :: 0 <= i < |c.risks| ==> !EqualFold(c.risks[i].severity, "high")
  }

  /** One entry per candidate, in order, showing that candidate. */
  predicate Portrays(item: Item, c: Scenario) {
    && item.id == c.id && item.name == c.name && item.status == c.status
    && item.projected == c.result.projected && item.deltas == c.result.deltas
    && item.risks == c.risks && item.warnings == c.result.warnings
  }

  predicate PortraysAll(items: seq<Item>, candidates: seq<Scenario>) {
    |items| == |candidates| && forall i :: 0 <= i < |candidates| ==> Portrays(items[i], candidates[i])
  }

  /** The higher margin wins; equal margins are settled by the smaller id. */
  predicate BetterMargin(candidate: Scenario, current: Scenario) {
    if candidate.result.projected.margin == current.result.projected.margin
    then Less(candidate.id, current.id)
    else candidate.result.projected.margin > current.result.projected.margin
  }

  lemma BetterMarginTransitive(a: Scenario, b: Scenario, c: Scenario)
    requires BetterMargin(a, b) && BetterMargin(b, c)
    ensures BetterMargin(a, c)
  {
    if Less(a.id, b.id) && Less(b.id, c.id) {
      LessTransitive(a.id, b.id, c.id);
    }
  }

  lemma BetterMarginIrreflexive(a: Scenario)
    ensures !BetterMargin(a, a)
  {
    LessAsymmetric(a.id, a.id);
  }

  /** A safe candidate with the highest projected margin of the safe ones and, among those with that margin,
      with no id before its own. */
  predicate Best(candidates: seq<Scenario>, best: Scenario) {
    && best in candidates && Safe(best)
    && forall c :: c in candidates && Safe(c) ==>
         || c.result.projected.margin < best.result.projected.margin
         || (c.result.projected.margin == best.result.projected.margin && !Less(c.id, best.id))
  }

  /** What a recommendation says about the candidates, whatever their order. */
  ghost predicate Recommends(candidates: seq<Scenario>, recommended: Option<Id>) {
    match recommended
    case None => forall c :: c in candidates ==> !Safe(c)
    case Some(id) => exists best :: Best(candidates, best) && best.id == id
  }

  method Compare(candidates: seq<Scenario>) returns (r: Result<Comparison>)
    ensures r.Success? <==> |candidates| >= 2 && forall c :: c in candidates ==> Comparable(c)
    ensures r.Success? ==>
              && PortraysAll(r.value.items, candidates)
              && Recommends(candidates, r.value.recommended)
              && (r.value.everyCandidateHighRisk <==> r.value.recommended.None?)
    ensures r.Failure? ==> r.error == InvalidInput
  {
    if |candidates| < 2 {
      return Failure(InvalidInput);
    }
    var items: seq<Item> := [];
    var best: Option<Scenario> := None;
    for i := 0 to |candidates|
      invariant forall c :: c in candidates[..i] ==> Comparable(c)
      invariant PortraysAll(items, candidates[..i])
      invariant best.None? ==> forall c :: c in candidates[..i] ==> !Safe(c)
      invariant best.Some? ==> Best(candidates[..i], best.value)
    {
      var candidate := candidates[i];
      assert candidate in candidates;
      assert candidates[..i + 1] == candidates[..i] + [candidate];
      if !Usable(candidate) {
        return Failure(InvalidInput);
      }
      if !candidate.result.calculated {
        return Failure(InvalidInput);
      }
      items := items + [ItemOf(candidate)];
      if HasHighRisk(candidate.risks) {
        continue;
      }
      BetterMarginIrreflexive(candidate);
      if best.None? || BetterMargin(candidate, best.value) {
        if best.Some? {
          forall c | c in candidates[..i] && Safe(c) ensures !BetterMargin(c, candidate) {
            if BetterMargin(c, candidate) {
              BetterMarginTransitive(c, candidate, best.value);
            }
          }
        }
        best := Some(candidate);
      }
    }
    assert candidates[..|candidates|] == candidates;
    if best.None? {
      return Success(Comparison(items, None, true));
    }
    r := Success(Comparison(items, Some(best.value.id), false));
  }

  ghost predicate DistinctIds(candidates: seq<Scenario>) {
    forall i, j :: 0 <= i < j < |candidates| ==> candidates[i].id != candidates[j].id
  }

  /** Among candidates with distinct ids there is only one best. */
  lemma BestIsUnique(candidates: seq<Scenario>, a: Scenario, b: Scenario)
    requires DistinctIds(candidates) && Best(candidates, a) && Best(candidates, b)
    ensures a == b
  {
    LessTotal(a.id, b.id);
    var i :| 0 <= i < |candidates| && candidates[i] == a;
    var j :| 0 <= j < |candidates| && candidates[j] == b;
    assert i == j;
  }

  /** The recommendation depends only on which candidates are compared, and it
      exists exactly when some candidate has no high risk. */
  lemma RecommendationIgnoresOrder(a: seq<Scenario>, b: seq<Scenario>, fromA: Option<Id>, fromB: Option<Id>)
    requires multiset(a) == multiset(b) && DistinctIds(a)
    requires Recommends(a, fromA) && Recommends(b, fromB)
    ensures fromA == fromB
    ensures fromA.Some? <==> exists c :: c in a && Safe(c)
  {
    SameMembers(a, b);
    if fromB.Some? {
      var best :| Best(b, best) && best.id == fromB.value;
      assert Best(a, best);
    }
    if fromA.Some? && fromB.Some? {
      var x :| Best(a, x) && x.id == fromA.value;
      var y :| Best(b, y) && y.id == fromB.value;
      assert Best(a, y);
      BestIsUnique(a, x, y);
    }
  }

  /** A candidate that came out of a simulation of some draft, goal and snapshot. */
  ghost predicate Justified(c: Scenario) {
    exists snapshot, goal, draft :: SimulationOf(snapshot, goal, draft) == Success(c)
  }

  /** Recommending a simulated scenario means its spend is within every hard
      budget the simulation read, each of which was a number. */
  lemma RecommendedSpendWithinBudgets(candidates: seq<Scenario>, best: Scenario,
                                      snapshot: Snapshot, goal: Goal, draft: Scenario)
    requires Best(candidates, best)
    requires SimulationOf(snapshot, goal, draft) == Success(best)
    ensures WithinBudgets(goal.constraints, best.result.projected.spend)
    ensures best.result.projected.spend == Spend(best.actions)
  {
    HighRiskExactlyOverBudget(snapshot, goal, draft);
  }
}
