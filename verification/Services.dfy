/** internal/application/proposalworkflow/service.go and internal/application/scenarioworkflow/service.go:
    the calls of the two workflows on a store, each read followed by its conditional write. */
module Services {
  import opened Core
  import opened Text
  import opened Database
  import opened Transactions
  import opened Workflow
  import opened Repository
  import opened Protocol
  import opened Comparisons
  import opened Invariants
  import opened Safety
  import S = Scenarios
  import P = Proposals
  import A = Approvals
  import Planning
  import Businesses
  import Simulation

  /** The call did to the store what its specification says, or failed and changed nothing. */
  predicate Served<T>(before: Db, spec: Result<Db>, after: Db, r: Result<T>) {
    match spec
    case Success(db) => r.Success? && after == db
    case Failure(e) => r == Failure(e) && after == before
  }

  // ---- proposalworkflow ----

  method CreateProposal(store: Store, args: CreateArgs, proposalId: Id, versionId: Id) returns (r: Result<P.Proposal>)
    requires store.Valid()
    modifies store
    ensures store.Valid()
    ensures Served(old(store.State()), ProposeNow(old(store.State()), args, proposalId, versionId), store.State(), r)
    ensures r.Success? ==>
              r == PlanProposal(args,
                                GetScenario(old(store.State()), args.actor.org, args.business, args.scenario).value,
                                proposalId, versionId)
  {
    if !ValidCreate(args) {
      return Failure(InvalidInput);
    }
    var read := GetScenario(store.State(), args.actor.org, args.business, args.scenario);
    if read.Failure? {
      return Failure(read.error);
    }
    var scenario := read.value;
    if scenario.business != args.business || scenario.goal != args.goal || !S.Usable(scenario)
      || !scenario.result.calculated {
      return Failure(ProposalContext);
    }
    var changes := ChangesForScenario(scenario);
    var first := P.Proposal(proposalId, args.business, args.goal,
                            P.Version(versionId, proposalId, 1, scenario.id, scenario.base, TrimSpace(args.summary),
                                      changes, P.Draft), 1);
    if !first.Valid() {
      return Failure(InvalidInput);
    }
    var error := store.CreateProposal(args.actor, first, args.request);
    r := if error.Some? then Failure(error.value) else Success(first);
  }

  method ReviseProposal(store: Store, args: ReviseArgs, versionId: Id) returns (r: Result<P.Proposal>)
    requires store.Valid()
    modifies store
    ensures store.Valid()
    ensures Served(old(store.State()), ReviseNow(old(store.State()), args, versionId), store.State(), r)
    ensures r.Success? ==>
              r == PlanRevision(args,
                                GetProposal(old(store.State()), args.actor.org, args.business, args.proposal).value,
                                versionId)
  {
    if !ValidRevise(args) {
      return Failure(InvalidInput);
    }
    var feedback := TrimSpace(args.feedback);
    var read := GetProposal(store.State(), args.actor.org, args.business, args.proposal);
    if read.Failure? {
      return Failure(read.error);
    }
    var current := read.value;
    if current.current.status != P.Draft {
      return Failure(ProposalState);
    }
    var next := current.(version := current.version + 1);
    next := next.(current := P.Version(versionId, current.id, current.current.number + 1, current.current.scenario,
                                       current.current.base,
                                       TrimSpace(current.current.summary + REVISION_MARK + feedback),
                                       current.current.changes + [P.HumanFeedback(current.id, feedback)], P.Draft));
    if |next.current.summary| > MAX_SUMMARY {
      return Failure(InvalidInput);
    }
    if !next.current.Valid() {
      return Failure(InvalidInput);
    }
    var error := store.SaveRevision(args.actor, next, current.current.number, args.request);
    r := if error.Some? then Failure(error.value) else Success(next);
  }

  method RequestHumanReview(store: Store, args: ReviewArgs) returns (r: Result<P.Proposal>)
    requires store.Valid()
    modifies store
    ensures store.Valid()
    ensures Served(old(store.State()), ReviewNow(old(store.State()), args), store.State(), r)
    ensures r.Success? ==>
              var read := GetProposal(old(store.State()), args.actor.org, args.business, args.proposal).value;
              r.value == read.(current := read.current.(status := P.InReview), version := read.version + 1)
  {
    if !ValidReview(args) {
      return Failure(InvalidInput);
    }
    var read := GetProposal(store.State(), args.actor.org, args.business, args.proposal);
    if read.Failure? {
      return Failure(read.error);
    }
    var current := read.value;
    if current.business != args.business || current.current.status != P.Draft {
      return Failure(ProposalState);
    }
    var error := store.SubmitReview(args.actor, args.proposal, current.current.number, args.request);
    if error.Some? {
      return Failure(error.value);
    }
    current := current.(current := current.current.(status := P.InReview));
    current := current.(version := current.version + 1);
    r := Success(current);
  }

  // ---- approvalworkflow ----

  /** `createdAt` is the time at which the store inserts the row; a decision made this way never runs out. */
  method Decide(store: Store, args: DecideArgs, id: Id, now: int, createdAt: int) returns (r: Result<A.Decision>)
    requires store.Valid()
    modifies store
    ensures store.Valid()
    ensures Served(old(store.State()), DecideNow(old(store.State()), args, id, None, createdAt), store.State(), r)
    ensures r.Success? ==>
              && r.value == A.Decision(id, args.proposal, args.versionId, args.business, args.actor.id, args.status,
                                       TrimSpace(args.reason), None)
              && ApprovalRow(args.actor.org, createdAt, r.value) in store.approvals
  {
    if !ValidId(args.actor.org) || !ValidId(args.actor.id) || !ValidId(args.proposal) || !ValidId(args.versionId)
      || !ValidId(args.business) {
      return Failure(InvalidInput);
    }
    if args.status != A.Approved && args.status != A.Rejected {
      return Failure(InvalidInput);
    }
    var reason := TrimSpace(args.reason);
    if reason == "" || |reason| > 2000 || IsBlank(args.request) {
      return Failure(InvalidInput);
    }
    var decision := A.Decision(id, args.proposal, args.versionId, args.business, args.actor.id, args.status,
                               reason, None);
    TrimmedTextNotBlank(args.reason);
    if !decision.Valid(now) {
      return Failure(InvalidInput);
    }
    var error := store.RecordDecision(args.actor.org, decision, createdAt, args.request);
    r := if error.Some? then Failure(error.value) else Success(decision);
  }

  // ---- scenarioworkflow ----

  datatype ScenarioArgs = ScenarioArgs(actor: Actor, business: Id, goal: Id, name: string, objective: string,
                                       actions: seq<S.Action>, request: string)

  predicate ValidScenarioArgs(args: ScenarioArgs) {
    && ValidId(args.actor.org) && ValidId(args.actor.id) && ValidId(args.business) && ValidId(args.goal)
    && !IsBlank(args.request)
  }

  /** The draft built from the business version and the goal as they were read. */
  function DraftFrom(args: ScenarioArgs, version: nat, goal: Planning.Goal, id: Id): Result<S.Scenario> {
    var draft := S.Scenario(id, args.goal, args.business, version, TrimSpace(args.name), TrimSpace(args.objective),
                            args.actions, S.EMPTY_RESULT, [], S.Draft, 1);
    if goal.business != args.business || (goal.status != Planning.GoalDraft && goal.status != Planning.GoalActive)
    then Failure(ScenarioContext)
    else if !draft.Valid() then Failure(InvalidInput)
    else Success(draft)
  }

  function ScenarioNow(db: Db, args: ScenarioArgs, snapshot: Result<Businesses.Snapshot>, goal: Result<Planning.Goal>,
                       id: Id): Result<Db>
  {
    if !ValidScenarioArgs(args) then Failure(InvalidInput)
    else if snapshot.Failure? then Failure(snapshot.error)
    else if goal.Failure? then Failure(goal.error)
    else match DraftFrom(args, snapshot.value.version, goal.value, id)
      case Failure(e) => Failure(e)
      case Success(draft) => CreateScenarioTx(db, args.actor, draft, args.request)
  }

  /** `snapshot` and `goal` are what the two earlier read transactions returned. */
  method CreateScenario(store: Store, args: ScenarioArgs, snapshot: Result<Businesses.Snapshot>,
                        goal: Result<Planning.Goal>, id: Id)
    returns (r: Result<S.Scenario>)
    requires store.Valid()
    modifies store
    ensures store.Valid()
    ensures Served(old(store.State()), ScenarioNow(old(store.State()), args, snapshot, goal, id), store.State(), r)
    ensures r.Success? ==> r.value.id in store.scenarios && store.scenarios[r.value.id].scenario == r.value
  {
    if !ValidScenarioArgs(args) {
      return Failure(InvalidInput);
    }
    if snapshot.Failure? {
      return Failure(snapshot.error);
    }
    if goal.Failure? {
      return Failure(goal.error);
    }
    var draft := DraftFrom(args, snapshot.value.version, goal.value, id);
    if draft.Failure? {
      return Failure(draft.error);
    }
    var error := store.CreateScenario(args.actor, draft.value, args.request);
    r := if error.Some? then Failure(error.value) else draft;
  }

  method SimulateScenario(store: Store, args: SimulateArgs, goal: Result<Planning.Goal>,
                          snapshot: Result<Businesses.Snapshot>)
    returns (r: Result<S.Scenario>)
    requires store.Valid()
    modifies store
    ensures store.Valid()
    ensures Served(old(store.State()), SimulateNow(old(store.State()), args, goal, snapshot), store.State(), r)
    ensures r.Success? ==> r.value.id in store.scenarios && store.scenarios[r.value.id].scenario == r.value
    ensures r.Success? ==> snapshot.Success? && Simulation.Measures(r.value.result, snapshot.value, r.value.actions)
  {
    hide Simulation.SimulationOf, Simulation.Measures;
    if !ValidSimulate(args) {
      return Failure(InvalidInput);
    }
    var read := GetScenario(store.State(), args.actor.org, args.business, args.scenario);
    if read.Failure? {
      return Failure(read.error);
    }
    if goal.Failure? {
      return Failure(goal.error);
    }
    if snapshot.Failure? {
      return Failure(snapshot.error);
    }
    r := Simulation.Simulate(snapshot.value, goal.value, read.value);
    if r.Failure? {
      return;
    }
    SimulationIsDraftOf(snapshot.value, goal.value, read.value);
    var error := store.UpdateSimulation(args.actor, r.value, read.value.version, args.request);
    if error.Some? {
      r := Failure(error.value);
    }
  }

  // ---- CompareScenarios ----

  /** The row is of the tenant and of the business. */
  predicate Visible(scenarios: map<Id, ScenarioRow>, org: Id, business: Id, id: Id) {
    id in scenarios && scenarios[id].org == org && scenarios[id].scenario.business == business
  }

  predicate Ordered(rows: seq<S.Scenario>) {
    forall i, j :: 0 <= i < j < |rows| ==> Less(rows[i].id, rows[j].id)
  }

  /** The requested scenarios a tenant can see, in the order of their ids. */
  ghost predicate Listed(scenarios: map<Id, ScenarioRow>, org: Id, business: Id, ids: seq<Id>, rows: seq<S.Scenario>) {
    && Ordered(rows)
    && (forall c ::
          c in rows <==> c.id in ids && Visible(scenarios, org, business, c.id) && scenarios[c.id].scenario == c)
  }

  /** SELECT ... WHERE business_id = .. AND id IN (..) ORDER BY id, row by row. */
  method ListScenarios(store: Store, org: Id, business: Id, ids: seq<Id>) returns (r: Result<seq<S.Scenario>>)
    requires store.Valid()
    ensures r.Success? <==> ValidId(org)
    ensures r.Success? ==> Listed(store.scenarios, org, business, ids, r.value)
    ensures r.Failure? ==> r.error == InvalidInput
  {
    if !ValidId(org) {
      return Failure(InvalidInput);
    }
    var rows: seq<S.Scenario> := [];
    var left := set id | && id in ids && id in store.scenarios && store.scenarios[id].org == org
                         && store.scenarios[id].scenario.business == business;
    ghost var wanted := left;
    while left != {}
      invariant Scanned(store.scenarios, wanted, left, rows)
      decreases |left|
    {
      FirstExists(left);
      ghost var first :| IsFirst(left, first);
      var id :| id in left && forall other :: other in left && other != id ==> Less(id, other);
      RowScanned(store.scenarios, wanted, left, rows, id);
      rows := rows + [store.scenarios[id].scenario];
      left := left - {id};
    }
    r := Success(rows);
  }

  /** `rows` are the wanted scenarios but for those left, which all come later. */
  ghost predicate Scanned(scenarios: map<Id, ScenarioRow>, wanted: set<Id>, left: set<Id>, rows: seq<S.Scenario>) {
    && left <= wanted && (forall id :: id in wanted ==> id in scenarios)
    && Ordered(rows)
    && (forall c, id :: c in rows && id in left ==> Less(c.id, id))
    && (forall c :: c in rows <==> c.id in wanted - left && scenarios[c.id].scenario == c)
  }

  lemma RowScanned(scenarios: map<Id, ScenarioRow>, wanted: set<Id>, left: set<Id>, rows: seq<S.Scenario>, id: Id)
    requires CarryTheirKeys(scenarios) && Scanned(scenarios, wanted, left, rows) && IsFirst(left, id)
    ensures Scanned(scenarios, wanted, left - {id}, rows + [scenarios[id].scenario])
  {
    var row, after := scenarios[id].scenario, rows + [scenarios[id].scenario];
    LessAsymmetric(id, id);
    forall c ensures c in after <==> c.id in wanted - (left - {id}) && scenarios[c.id].scenario == c {
      assert c in after <==> c in rows || c == row;
    }
    forall i, j | 0 <= i < j < |after| ensures Less(after[i].id, after[j].id) {
      assert after[i] in rows;
    }
  }

  ghost predicate IsFirst(ids: set<Id>, id: Id) {
    id in ids && forall other :: other in ids && other != id ==> Less(id, other)
  }

  lemma {:induction false} FirstExists(ids: set<Id>)
    requires ids != {}
    ensures exists id :: IsFirst(ids, id)
  {
    var some :| some in ids;
    if ids == {some} {
      assert IsFirst(ids, some);
    } else {
      FirstExists(ids - {some});
      var first :| IsFirst(ids - {some}, first);
      LessTotal(some, first);
      if Less(some, first) {
        forall other | other in ids && other != some && other != first ensures Less(some, other) {
          LessTransitive(some, first, other);
        }
        assert IsFirst(ids, some);
      } else {
        assert IsFirst(ids, first);
      }
    }
  }

  predicate AllDistinct(ids: seq<Id>) {
    forall i, j :: 0 <= i < j < |ids| ==> ids[i] != ids[j]
  }

  /** Why a comparison is refused; None when it goes ahead. */
  function Refusal(scenarios: map<Id, ScenarioRow>, org: Id, business: Id, ids: seq<Id>): Option<Error> {
    if !ValidId(org) || !ValidId(business) || !(2 <= |ids| <= 8) then Some(InvalidInput)
    else if (exists id :: id in ids && !ValidId(id)) || !AllDistinct(ids) then Some(InvalidInput)
    else if exists id :: id in ids && !Visible(scenarios, org, business, id) then Some(ScenarioNotFound)
    else if exists a, b :: a in ids && b in ids && scenarios[a].scenario.base != scenarios[b].scenario.base
      then Some(ScenarioContext)
    else if exists id :: id in ids && !Comparable(scenarios[id].scenario) then Some(InvalidInput)
    else None
  }

  /** A comparison covers exactly the requested scenarios and recommends the best of them. */
  ghost predicate Compares(scenarios: map<Id, ScenarioRow>, org: Id, business: Id, ids: seq<Id>,
                           comparison: Comparison)
  {
    exists rows :: Listed(scenarios, org, business, ids, rows) && |rows| == |ids| && ComparesRows(rows, comparison)
  }

  ghost predicate ComparesRows(rows: seq<S.Scenario>, comparison: Comparison) {
    && PortraysAll(comparison.items, rows)
    && Recommends(rows, comparison.recommended)
    && (comparison.everyCandidateHighRisk <==> comparison.recommended.None?)
  }

  /** The pass over the requested ids. */
  method CheckIds(ids: seq<Id>) returns (ok: bool)
    ensures ok <==> AllDistinct(ids) && forall id :: id in ids ==> ValidId(id)
  {
    var seen: set<Id> := {};
    for i := 0 to |ids|
      invariant seen == set id | id in ids[..i]
      invariant AllDistinct(ids[..i]) && forall id :: id in ids[..i] ==> ValidId(id)
    {
      assert ids[..i + 1] == ids[..i] + [ids[i]];
      if !ValidId(ids[i]) || ids[i] in seen {
        return false;
      }
      seen := seen + {ids[i]};
    }
    assert ids[..|ids|] == ids;
    ok := true;
  }

  /** The pass over the listed scenarios. */
  method CheckContext(business: Id, candidates: seq<S.Scenario>) returns (ok: bool)
    requires candidates != []
    ensures ok <==> && (forall c :: c in candidates ==> c.business == business)
                    && (forall c, d :: c in candidates && d in candidates ==> c.base == d.base)
  {
    var base := candidates[0].base;
    for i := 0 to |candidates|
      invariant forall c :: c in candidates[..i] ==> c.business == business && c.base == base
    {
      assert candidates[i] in candidates && candidates[0] in candidates;
      if candidates[i].business != business || candidates[i].base != base {
        return false;
      }
      assert candidates[..i + 1] == candidates[..i] + [candidates[i]];
    }
    assert candidates[..|candidates|] == candidates;
    ok := true;
  }

  method CompareScenarios(store: Store, org: Id, business: Id, ids: seq<Id>) returns (r: Result<Comparison>)
    requires store.Valid()
    ensures var refusal := Refusal(store.scenarios, org, business, ids);
            match r
            case Success(comparison) => refusal == None && Compares(store.scenarios, org, business, ids, comparison)
            case Failure(e) => refusal == Some(e)
  {
    hide Listed, Recommends;
    if !ValidId(org) || !ValidId(business) {
      return Failure(InvalidInput);
    }
    if |ids| < 2 || |ids| > 8 {
      return Failure(InvalidInput);
    }
    var usable := CheckIds(ids);
    if !usable {
      return Failure(InvalidInput);
    }
    var listed := ListScenarios(store, org, business, ids);
    var candidates := listed.value;
    ListedCount(store.scenarios, org, business, ids, candidates);
    if |candidates| != |ids| {
      return Failure(ScenarioNotFound);
    }
    ListedRows(store.scenarios, org, business, ids, candidates);
    var together := CheckContext(business, candidates);
    if !together {
      return Failure(ScenarioContext);
    }
    r := Compare(candidates);
  }

  /** When all requested scenarios are visible, what holds of the rows holds of the requested scenarios. */
  lemma ListedRows(scenarios: map<Id, ScenarioRow>, org: Id, business: Id, ids: seq<Id>, rows: seq<S.Scenario>)
    requires CarryTheirKeys(scenarios) && Listed(scenarios, org, business, ids, rows)
    requires forall id :: id in ids ==> Visible(scenarios, org, business, id)
    ensures forall c ::
              c in rows ==> c.business == business && c.id in ids && c.id in scenarios && scenarios[c.id].scenario == c
    ensures forall id :: id in ids ==> id in scenarios && scenarios[id].scenario in rows
  {
  }

  /** As many rows as distinct requested ids come back exactly when all of them are visible. */
  lemma ListedCount(scenarios: map<Id, ScenarioRow>, org: Id, business: Id, ids: seq<Id>, rows: seq<S.Scenario>)
    requires AllDistinct(ids) && CarryTheirKeys(scenarios) && Listed(scenarios, org, business, ids, rows)
    ensures |rows| == |ids| <==> forall id :: id in ids ==> Visible(scenarios, org, business, id)
  {
    var found := set id | id in ids && Visible(scenarios, org, business, id);
    var asked := set id | id in ids;
    DistinctCount(ids);
    var rowIds := seq(|rows|, i requires 0 <= i < |rows| => rows[i].id);
    forall i, j | 0 <= i < j < |rowIds| ensures rowIds[i] != rowIds[j] {
      LessAsymmetric(rowIds[i], rowIds[j]);
    }
    DistinctCount(rowIds);
    forall id | id in found ensures id in rowIds {
      var i :| 0 <= i < |rows| && rows[i] == scenarios[id].scenario;
      assert rowIds[i] == id;
    }
    forall id | id in rowIds ensures id in found {
      var i :| 0 <= i < |rowIds| && rowIds[i] == id;
      assert rows[i] in rows;
    }
    assert found == set id | id in rowIds;
    if |rows| == |ids| {
      SubsetOfSameSize(found, asked);
      forall id | id in ids ensures Visible(scenarios, org, business, id) {
        assert id in asked;
      }
    } else {
      assert found != asked;
    }
  }

  lemma {:induction false} DistinctCount(ids: seq<Id>)
    requires AllDistinct(ids)
    ensures |set id | id in ids| == |ids|
  {
    if ids != [] {
      var front := ids[..|ids| - 1];
      DistinctCount(front);
      assert (set id | id in ids) == (set id | id in front) + {ids[|ids| - 1]};
    }
  }

  lemma SubsetOfSameSize<T>(a: set<T>, b: set<T>)
    requires a <= b && |a| == |b|
    ensures a == b
  {
    assert |b - a| == 0;
  }

  // ---- What a comparison does not depend on ----

  /** There is one listing of a set of ids, in whatever order they are requested. */
  lemma {:induction false} ListingIsUnique(a: seq<S.Scenario>, b: seq<S.Scenario>)
    requires Ordered(a) && Ordered(b)
    requires forall c :: c in a <==> c in b
    ensures a == b
  {
    assert (a != [] ==> a[0] in b) && (b != [] ==> b[0] in a);
    if a != [] {
      var i :| 0 <= i < |b| && b[i] == a[0];
      var j :| 0 <= j < |a| && a[j] == b[0];
      LessAsymmetric(a[0].id, b[0].id);
      assert a[0] == b[0];
      RestAgrees(a, b);
      ListingIsUnique(a[1..], b[1..]);
      assert a == [a[0]] + a[1..] && b == [b[0]] + b[1..];
    }
  }

  lemma RestAgrees(a: seq<S.Scenario>, b: seq<S.Scenario>)
    requires a != [] && b != [] && a[0] == b[0]
    requires Ordered(a) && Ordered(b)
    requires forall c :: c in a <==> c in b
    ensures forall c :: c in a[1..] <==> c in b[1..]
  {
    LessAsymmetric(a[0].id, a[0].id);
    forall c ensures c in a[1..] <==> c in a && c != a[0] {
      if c in a[1..] {
        var i :| 1 <= i < |a| && a[i] == c;
        assert Less(a[0].id, a[i].id);
      }
    }
    forall c ensures c in b[1..] <==> c in b && c != b[0] {
      if c in b[1..] {
        var i :| 1 <= i < |b| && b[i] == c;
        assert Less(b[0].id, b[i].id);
      }
    }
  }

  /** Two requests for the same scenarios get the same comparison, whatever the order of their ids. */
  lemma ComparisonIgnoresRequestOrder(scenarios: map<Id, ScenarioRow>, org: Id, business: Id, ids: seq<Id>,
                                      jds: seq<Id>, a: Comparison, b: Comparison)
    requires forall id :: id in ids <==> id in jds
    requires Compares(scenarios, org, business, ids, a) && Compares(scenarios, org, business, jds, b)
    ensures a == b
  {
    var rows: seq<S.Scenario> :| Listed(scenarios, org, business, ids, rows) && |rows| == |ids|
                                && ComparesRows(rows, a);
    var sows: seq<S.Scenario> :| Listed(scenarios, org, business, jds, sows) && |sows| == |jds|
                                && ComparesRows(sows, b);
    ListingIsUnique(rows, sows);
    forall i, j | 0 <= i < j < |rows| ensures rows[i].id != rows[j].id {
      LessAsymmetric(rows[i].id, rows[j].id);
    }
    RecommendationIgnoresOrder(rows, sows, a.recommended, b.recommended);
  }

  /** What a comparison recommends is a requested scenario without high risk, no requested one without high
      risk has a higher projected margin, and with an equal margin none has an id before its own. It
      recommends nothing exactly when every requested scenario has a high risk. */
  lemma RecommendedHasHighestMargin(scenarios: map<Id, ScenarioRow>, org: Id, business: Id, ids: seq<Id>,
                                    comparison: Comparison)
    requires CarryTheirKeys(scenarios) && Refusal(scenarios, org, business, ids) == None
    requires Compares(scenarios, org, business, ids, comparison)
    ensures forall id :: id in ids ==> id in scenarios
    ensures comparison.recommended.None? <==> forall id :: id in ids ==> !Safe(scenarios[id].scenario)
    ensures comparison.recommended.Some? ==>
              var best := comparison.recommended.value;
              && best in ids && Safe(scenarios[best].scenario)
              && forall id :: id in ids && Safe(scenarios[id].scenario) ==>
                   var margin, highest := scenarios[id].scenario.result.projected.margin,
                                          scenarios[best].scenario.result.projected.margin;
                   margin < highest || (margin == highest && !Less(id, best))
  {
    var rows :| Listed(scenarios, org, business, ids, rows) && |rows| == |ids| && ComparesRows(rows, comparison);
    ListedRows(scenarios, org, business, ids, rows);
    hide Listed, Refusal, Less, Safe;
    forall id | id in ids ensures scenarios[id].scenario.id == id && scenarios[id].scenario in rows {
    }
    if comparison.recommended.Some? {
      var best :| Best(rows, best) && best.id == comparison.recommended.value;
    }
  }

  // ---- What callers read back ----

  /** A created proposal reads back as it was returned. */
  lemma CreatedReadsBack(start: map<Id, nat>, db: Db, args: CreateArgs, proposalId: Id, versionId: Id)
    requires DbInv(start, db) && ProposeNow(db, args, proposalId, versionId).Success?
    ensures var scenario := GetScenario(db, args.actor.org, args.business, args.scenario).value;
            GetProposal(ProposeNow(db, args, proposalId, versionId).value, args.actor.org, args.business, proposalId)
            == PlanProposal(args, scenario, proposalId, versionId)
  {
    hide DbInv, CreateProposalTx;
    ReadScenario(start, db, args.actor.org, args.business, args.scenario);
    var scenario := GetScenario(db, args.actor.org, args.business, args.scenario).value;
    CreateProposalEffect(db, args, scenario, PlanProposal(args, scenario, proposalId, versionId).value);
  }

  /** A revision reads back as it was returned. */
  lemma RevisionReadsBack(start: map<Id, nat>, db: Db, args: ReviseArgs, versionId: Id)
    requires DbInv(start, db) && ReviseNow(db, args, versionId).Success?
    ensures var view := GetProposal(db, args.actor.org, args.business, args.proposal).value;
            GetProposal(ReviseNow(db, args, versionId).value, args.actor.org, args.business, args.proposal)
            == PlanRevision(args, view, versionId)
  {
    hide DbInv, Shows, GetProposal, SaveRevisionTx;
    ReadShows(start, db, args.actor.org, args.business, args.proposal);
    var view := GetProposal(db, args.actor.org, args.business, args.proposal).value;
    SavedReadsBack(db, args, view, PlanRevision(args, view, versionId).value);
  }

  lemma SavedReadsBack(db: Db, args: ReviseArgs, view: P.Proposal, next: P.Proposal)
    requires ValidRevise(args) && PlanRevision(args, view, next.current.id) == Success(next)
    requires Shows(db, args.actor.org, view) && (args.business == "" || args.business == view.business)
    requires SaveRevisionTx(db, args.actor, next, view.current.number, args.request).Success?
    ensures GetProposal(SaveRevisionTx(db, args.actor, next, view.current.number, args.request).value,
                        args.actor.org, args.business, view.id) == Success(next)
  {
    SaveRevisionEffect(db, args, view, next);
    RowsReadBack(SaveRevisionTx(db, args.actor, next, view.current.number, args.request).value,
                 args.actor.org, args.business, next);
  }

  lemma RowsReadBack(db: Db, org: Id, business: Id, p: P.Proposal)
    requires p.id in db.proposals && db.proposals[p.id] == ProposalRow(org, p.business, p.goal, p.version) && p.Valid()
    requires VersionKey(p.id, p.version) in db.versions
    requires db.versions[VersionKey(p.id, p.version)] == VersionRow(org, p.current)
    requires business == "" || business == p.business
    ensures GetProposal(db, org, business, p.id) == Success(p)
  {
  }

  /** A proposal sent to review reads back as it was returned but for the version field:
      the call returns one more than what is stored. */
  lemma ReviewReadsBackOneLess(start: map<Id, nat>, db: Db, args: ReviewArgs)
    requires DbInv(start, db) && ReviewNow(db, args).Success?
    ensures var view := GetProposal(db, args.actor.org, args.business, args.proposal).value;
            GetProposal(ReviewNow(db, args).value, args.actor.org, args.business, args.proposal)
            == Success(view.(current := view.current.(status := P.InReview)))
  {
    hide DbInv, SubmitReviewTx;
    ReadShows(start, db, args.actor.org, args.business, args.proposal);
    var view := GetProposal(db, args.actor.org, args.business, args.proposal).value;
    SubmitReviewEffect(db, args.actor, args.proposal, view.current.number, args.request);
  }
}
