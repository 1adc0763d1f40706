/** What no transaction ever undoes: the relation between an earlier and a later store. */
module Evolution {
  import opened Core
  import opened Database
  import opened Transactions
  import opened Workflow
  import opened Invariants
  import opened Preservation
  import opened Safety
  import S = Scenarios
  import P = Proposals
  import A = Approvals
  import Planning

  /** The status changes that transactions make: no transaction supersedes what is past being a draft. */
  predicate Moves(from: P.Status, to: P.Status) {
    match from
    case Draft => to == P.InReview || to == P.Superseded
    case InReview => to == P.Approved || to == P.Rejected
    case Approved => to == P.Committed
    case _ => false
  }

  lemma MovesAreTransitions(from: P.Status, to: P.Status)
    ensures P.CanTransition(from, to)
       <==> Moves(from, to) || (to == P.Superseded && (from == P.InReview || from == P.Approved))
  {
  }

  /** What a version may become in any number of moves. */
  predicate MayBecome(from: P.Status, to: P.Status) {
    from == to || match from
                  case Draft => true
                  case InReview => P.Decided(to)
                  case Approved => to == P.Committed
                  case _ => false
  }

  lemma MayBecomeIsReachability(from: P.Status, to: P.Status)
    ensures MayBecome(from, to) <==> from == to || exists mid :: Moves(from, mid) && MayBecome(mid, to)
  {
    if MayBecome(from, to) && from != to && !Moves(from, to) {
      var mid := if from == P.Draft then P.InReview else P.Approved;
      assert Moves(from, mid);
      assert MayBecome(mid, to);
    } else if Moves(from, to) {
      assert MayBecome(to, to);
    }
  }

  ghost predicate BusinessesGrow(a: map<Id, BusinessRow>, b: map<Id, BusinessRow>) {
    a.Keys == b.Keys && forall id :: id in a ==> b[id].org == a[id].org && a[id].version <= b[id].version
  }

  /** A scenario keeps everything but its simulation, and keeps that too once it has one. */
  ghost predicate ScenarioEvolves(a: ScenarioRow, b: ScenarioRow) {
    && b.org == a.org && DraftOf(a.scenario, b.scenario)
    && (a.scenario.status != S.Draft || b.scenario.status == S.Draft ==> b == a)
  }

  ghost predicate ScenariosGrow(a: map<Id, ScenarioRow>, b: map<Id, ScenarioRow>) {
    forall s :: s in a ==> s in b && ScenarioEvolves(a[s], b[s])
  }

  ghost predicate ProposalsGrow(a: map<Id, ProposalRow>, b: map<Id, ProposalRow>) {
    forall p :: p in a ==> p in b && b[p].org == a[p].org && b[p].business == a[p].business && b[p].goal == a[p].goal
                           && a[p].current <= b[p].current
  }

  /** A version row keeps everything but its status. */
  ghost predicate VersionEvolves(a: VersionRow, b: VersionRow) {
    && b.org == a.org && a.version.(status := b.version.status) == b.version
    && MayBecome(a.version.status, b.version.status)
  }

  ghost predicate VersionsGrow(a: map<VersionKey, VersionRow>, b: map<VersionKey, VersionRow>) {
    forall k :: k in a ==> k in b && VersionEvolves(a[k], b[k])
  }

  ghost predicate RowsKept<K(!new), V>(a: map<K, V>, b: map<K, V>) {
    forall k :: k in a ==> k in b && b[k] == a[k]
  }

  /** A constraint keeps its tenant, its id and its key; its value and hardness may be set anew. */
  ghost predicate ConstraintsGrow(a: map<ConstraintKey, ConstraintRow>, b: map<ConstraintKey, ConstraintRow>) {
    forall k :: k in a ==> k in b && b[k].org == a[k].org && b[k].constraint.id == a[k].constraint.id
                           && b[k].constraint.key == a[k].constraint.key
  }

  /** The business has moved past the version a proposal version was based on. */
  predicate Stale(db: Db, k: VersionKey) {
    && k in db.versions && k.proposal in db.proposals && db.proposals[k.proposal].business in db.businesses
    && db.versions[k].version.base < db.businesses[db.proposals[k.proposal].business].version
  }

  /** What was stale and undecided stays undecided, and what was decided keeps its status. */
  ghost predicate StaleStays(a: Db, b: Db) {
    forall k :: k in b.versions && Stale(a, k) && P.Decided(b.versions[k].version.status)
      ==> b.versions[k].version.status == a.versions[k].version.status
  }

  ghost predicate Extends(a: Db, b: Db) {
    && a.users == b.users && a.goals == b.goals
    && ConstraintsGrow(a.constraints, b.constraints) && BusinessesGrow(a.businesses, b.businesses)
    && ScenariosGrow(a.scenarios, b.scenarios)
    && ProposalsGrow(a.proposals, b.proposals)
    && VersionsGrow(a.versions, b.versions)
    && a.approvals <= b.approvals && a.audits <= b.audits
    && RowsKept(a.operations, b.operations) && RowsKept(a.decisions, b.decisions)
    && StaleStays(a, b)
  }

  lemma ExtendsReflexive(a: Db)
    ensures Extends(a, a)
  {
  }

  lemma VersionsGrowTransitive(a: map<VersionKey, VersionRow>, b: map<VersionKey, VersionRow>,
                               c: map<VersionKey, VersionRow>)
    requires VersionsGrow(a, b) && VersionsGrow(b, c)
    ensures VersionsGrow(a, c)
  {
    forall k | k in a ensures k in c && VersionEvolves(a[k], c[k]) {
      assert VersionEvolves(a[k], b[k]) && VersionEvolves(b[k], c[k]);
    }
  }

  lemma ScenariosGrowTransitive(a: map<Id, ScenarioRow>, b: map<Id, ScenarioRow>, c: map<Id, ScenarioRow>)
    requires ScenariosGrow(a, b) && ScenariosGrow(b, c)
    ensures ScenariosGrow(a, c)
  {
    forall s | s in a ensures s in c && ScenarioEvolves(a[s], c[s]) {
      assert ScenarioEvolves(a[s], b[s]) && ScenarioEvolves(b[s], c[s]);
    }
  }

  lemma StaleGrows(a: Db, b: Db, k: VersionKey)
    requires Extends(a, b) && Stale(a, k)
    ensures Stale(b, k)
  {
    assert VersionEvolves(a.versions[k], b.versions[k]);
  }

  lemma StaleStaysTransitive(a: Db, b: Db, c: Db)
    requires Extends(a, b) && Extends(b, c)
    ensures StaleStays(a, c)
  {
    forall k | k in c.versions && Stale(a, k) && P.Decided(c.versions[k].version.status)
      ensures c.versions[k].version.status == a.versions[k].version.status
    {
      StaleGrows(a, b, k);
      assert b.versions[k].version.status == c.versions[k].version.status;
    }
  }

  lemma ExtendsTransitive(a: Db, b: Db, c: Db)
    requires Extends(a, b) && Extends(b, c)
    ensures Extends(a, c)
  {
    VersionsGrowTransitive(a.versions, b.versions, c.versions);
    ScenariosGrowTransitive(a.scenarios, b.scenarios, c.scenarios);
    StaleStaysTransitive(a, b, c);
  }

  /** One step: a new row starts as a draft, and every status that changes does so by
      one move, which is a transition of its machine. */
  ghost predicate FollowsMachines(a: Db, b: Db) {
    && (forall k :: k in b.versions && k !in a.versions ==> b.versions[k].version.status == P.Draft)
    && (forall s :: s in b.scenarios && s !in a.scenarios ==> b.scenarios[s].scenario.status == S.Draft)
    && (forall k :: k in a.versions && k in b.versions ==>
          b.versions[k].version.status == a.versions[k].version.status
          || Moves(a.versions[k].version.status, b.versions[k].version.status))
    && (forall s :: s in a.scenarios && s in b.scenarios ==>
          b.scenarios[s].scenario.status == a.scenarios[s].scenario.status
          || (a.scenarios[s].scenario.status == S.Draft && b.scenarios[s].scenario.status == S.Simulated))
  }

  ghost predicate StepsTo(a: Db, b: Db) {
    Extends(a, b) && FollowsMachines(a, b)
  }

  // ---- Every transaction is such a step ----

  lemma StatusFollows(a: Db, b: Db, k: VersionKey, status: P.Status)
    requires k in a.versions && Moves(a.versions[k].version.status, status)
    requires b.versions == SetStatus(a.versions, k, status) && b.scenarios == a.scenarios
    ensures VersionsGrow(a.versions, b.versions) && FollowsMachines(a, b)
  {
    forall l | l in a.versions ensures l in b.versions && VersionEvolves(a.versions[l], b.versions[l]) {
    }
  }

  lemma StatusChangeSteps(a: Db, b: Db, k: VersionKey, status: P.Status)
    requires k in a.versions && Moves(a.versions[k].version.status, status)
    requires b == a.(versions := SetStatus(a.versions, k, status), approvals := b.approvals, audits := b.audits)
    requires a.approvals <= b.approvals && a.audits <= b.audits
    requires P.Decided(status) ==> !Stale(a, k)
    ensures StepsTo(a, b)
  {
    hide VersionsGrow, FollowsMachines;
    StatusFollows(a, b, k, status);
  }

  lemma AddConstraintSteps(db: Db, actor: Actor, goal: Id, constraint: Planning.Constraint, request: string)
    requires ConstraintInv(db.goals, db.constraints)
    requires AddConstraintTx(db, actor, goal, constraint, request).Success?
    ensures StepsTo(db, AddConstraintTx(db, actor, goal, constraint, request).value)
  {
  }

  lemma CreateScenarioSteps(db: Db, actor: Actor, candidate: S.Scenario, request: string)
    requires CreateScenarioTx(db, actor, candidate, request).Success?
    ensures StepsTo(db, CreateScenarioTx(db, actor, candidate, request).value)
  {
  }

  lemma UpdateSimulationSteps(db: Db, actor: Actor, candidate: S.Scenario, expected: nat, request: string)
    requires UpdateSimulationTx(db, actor, candidate, expected, request).Success?
    requires candidate.id in db.scenarios && DraftOf(db.scenarios[candidate.id].scenario, candidate)
    ensures StepsTo(db, UpdateSimulationTx(db, actor, candidate, expected, request).value)
  {
    UpdateSimulationEffect(db, actor, candidate, expected, request);
  }

  lemma CreateProposalSteps(db: Db, args: CreateArgs, scenario: S.Scenario, first: P.Proposal)
    requires ValidCreate(args) && PlanProposal(args, scenario, first.id, first.current.id) == Success(first)
    requires scenario.id in db.scenarios && db.scenarios[scenario.id].scenario == scenario
    requires scenario.status == S.Simulated
    requires NumberingInv(db.proposals, db.versions)
    requires CreateProposalTx(db, args.actor, first, args.request).Success?
    ensures StepsTo(db, CreateProposalTx(db, args.actor, first, args.request).value)
  {
    hide CreateProposalTx, PlanProposal, Grounded, GoodSummary, SoundVersion, StepsTo;
    CreateProposalEffect(db, args, scenario, first);
    FreshKey(db.proposals, db.versions, VersionKey(first.id, 1));
    ProposingSteps(db, CreateProposalTx(db, args.actor, first, args.request).value, first.id,
                   ProposalRow(args.actor.org, first.business, first.goal, 1),
                   VersionRow(args.actor.org, first.current));
  }

  lemma ProposingSteps(a: Db, b: Db, p: Id, row: ProposalRow, first: VersionRow)
    requires p !in a.proposals && VersionKey(p, 1) !in a.versions && first.version.status == P.Draft
    requires b == a.(proposals := a.proposals[p := row], versions := a.versions[VersionKey(p, 1) := first],
                     audits := b.audits)
    requires a.audits <= b.audits
    ensures StepsTo(a, b)
  {
  }

  lemma SaveRevisionSteps(db: Db, args: ReviseArgs, view: P.Proposal, next: P.Proposal)
    requires ValidRevise(args) && PlanRevision(args, view, next.current.id) == Success(next)
    requires NumberingInv(db.proposals, db.versions)
    requires SaveRevisionTx(db, args.actor, next, view.current.number, args.request).Success?
    ensures StepsTo(db, SaveRevisionTx(db, args.actor, next, view.current.number, args.request).value)
  {
    SaveRevisionEffect(db, args, view, next);
    var k := VersionKey(view.id, view.current.number);
    FreshKey(db.proposals, db.versions, After(k));
    SupersedingSteps(db, SaveRevisionTx(db, args.actor, next, view.current.number, args.request).value, k,
                     VersionRow(args.actor.org, next.current));
  }

  lemma SupersedingSteps(a: Db, b: Db, k: VersionKey, next: VersionRow)
    requires k in a.versions && a.versions[k].version.status == P.Draft && k.proposal in a.proposals
    requires After(k) !in a.versions && next.version.status == P.Draft && a.proposals[k.proposal].current == k.number
    requires b == a.(versions := Superseding(a.versions, k, next), audits := b.audits,
                     proposals := a.proposals[k.proposal := a.proposals[k.proposal].(current := k.number + 1)])
    requires a.audits <= b.audits
    ensures StepsTo(a, b)
  {
    hide VersionsGrow, FollowsMachines;
    SupersedingGrows(a.versions, k, next);
    SupersedingFollows(a, b, k, next);
  }

  lemma SupersedingFollows(a: Db, b: Db, k: VersionKey, next: VersionRow)
    requires k in a.versions && a.versions[k].version.status == P.Draft && next.version.status == P.Draft
    requires b.versions == Superseding(a.versions, k, next) && b.scenarios == a.scenarios && After(k) !in a.versions
    ensures FollowsMachines(a, b)
  {
  }

  lemma SupersedingGrows(versions: map<VersionKey, VersionRow>, k: VersionKey, next: VersionRow)
    requires k in versions && versions[k].version.status == P.Draft && After(k) !in versions
    ensures VersionsGrow(versions, Superseding(versions, k, next))
  {
    var after := Superseding(versions, k, next);
    forall l | l in versions ensures l in after && VersionEvolves(versions[l], after[l]) {
    }
  }

  lemma SubmitReviewSteps(db: Db, actor: Actor, proposal: Id, expected: nat, request: string)
    requires SubmitReviewTx(db, actor, proposal, expected, request).Success?
    ensures StepsTo(db, SubmitReviewTx(db, actor, proposal, expected, request).value)
  {
    SubmitReviewEffect(db, actor, proposal, expected, request);
    StatusChangeSteps(db, SubmitReviewTx(db, actor, proposal, expected, request).value, VersionKey(proposal, expected),
                      P.InReview);
  }

  lemma RecordDecisionSteps(db: Db, org: Id, d: A.Decision, createdAt: int, request: string)
    requires RecordDecisionTx(db, org, d, createdAt, request).Success?
    ensures StepsTo(db, RecordDecisionTx(db, org, d, createdAt, request).value)
  {
    RecordDecisionEffect(db, org, d, createdAt, request);
    var k := VersionKey(d.proposal, db.proposals[d.proposal].current);
    DecisionNotStale(db, org, d, createdAt, request);
    StatusChangeSteps(db, RecordDecisionTx(db, org, d, createdAt, request).value, k, StatusOf(d.status).value);
  }

  /** A decision is only ever recorded on a version based on the present business version. */
  lemma DecisionNotStale(db: Db, org: Id, d: A.Decision, createdAt: int, request: string)
    requires RecordDecisionTx(db, org, d, createdAt, request).Success?
    ensures d.proposal in db.proposals && d.business in db.businesses
    ensures var k := VersionKey(d.proposal, db.proposals[d.proposal].current);
            && k in db.versions && db.versions[k].version.base == db.businesses[d.business].version
            && db.proposals[d.proposal].business == d.business && !Stale(db, k)
  {
  }

  lemma CommittedSteps(db: Db, input: CommitInput, after: Db)
    requires Committable(db, input) && after == Committed(db, input, db.businesses[input.business].version)
    ensures StepsTo(db, after)
  {
    hide VersionsGrow, FollowsMachines, AuditIdUsed, OperationIdUsed;
    var k := VersionKey(input.proposal, db.proposals[input.proposal].current);
    assert after.versions == SetStatus(db.versions, k, P.Committed) && !Stale(db, k);
    StatusFollows(db, after, k, P.Committed);
  }
}
