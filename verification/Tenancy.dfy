/** Who may write, and whose rows: every write is permitted to its user and stays inside its tenant. */
module Tenancy {
  import opened Core
  import opened Database
  import opened Transactions
  import opened Workflow
  import opened Safety
  import opened Protocol
  import S = Scenarios
  import P = Proposals
  import A = Approvals
  import Planning
  import Simulation

  /** The user of a writing step. A step that `decides` is open to owners and operators only. */
  datatype Writer = Writer(org: Id, user: Id, guest: bool, decides: bool)

  function WriterOf(s: System, step: Step): Option<Writer> {
    match step
    case AddConstraint(actor, _, _, _) => Some(Writer(actor.org, actor.id, actor.guest, true))
    case CreateScenario(actor, _, _) => Some(Writer(actor.org, actor.id, actor.guest, false))
    case WriteSimulation(c, _) =>
      if c in s.clients && s.clients[c].SimulateReady? then Some(Proposer(s.clients[c].simulate.actor)) else None
    case WriteProposal(c, _, _) =>
      if c in s.clients && s.clients[c].ProposeRead? then Some(Proposer(s.clients[c].create.actor)) else None
    case WriteRevision(c, _) =>
      if c in s.clients && s.clients[c].ReviseRead? then Some(Proposer(s.clients[c].revise.actor)) else None
    case WriteReview(c) =>
      if c in s.clients && s.clients[c].ReviewRead? then Some(Proposer(s.clients[c].review.actor)) else None
    case Decide(args, _, _, _) => Some(Writer(args.actor.org, args.actor.id, args.actor.guest, true))
    case ApplyCommit(c) =>
      if c in s.clients && s.clients[c].CommitReserved?
      then Some(Writer(s.clients[c].input.org, s.clients[c].input.actor, false, true)) else None
    case _ => None
  }

  function Proposer(actor: Actor): Writer {
    Writer(actor.org, actor.id, actor.guest, false)
  }

  /** The user is of the tenant, and an owner or an operator, or else in guest mode and not deciding. */
  predicate Permitted(db: Db, w: Writer) {
    && w.user in db.users && db.users[w.user].org == w.org
    && (db.users[w.user].role == Owner || db.users[w.user].role == Operator || (w.guest && !w.decides))
  }

  // ---- Ownership ----

  /** No row vanished, and every row that was added or changed belongs to `org`, before and after. */
  ghost predicate RowsOf<K(!new), V>(org: Id, owner: V -> Id, a: map<K, V>, b: map<K, V>) {
    && (forall k :: k in a ==> k in b)
    && (forall k :: k in b && (k !in a || a[k] != b[k]) ==> owner(b[k]) == org && (k in a ==> owner(a[k]) == org))
  }

  const BUSINESS_OWNER := (row: BusinessRow) => row.org
  const SCENARIO_OWNER := (row: ScenarioRow) => row.org
  const PROPOSAL_OWNER := (row: ProposalRow) => row.org
  const VERSION_OWNER := (row: VersionRow) => row.org
  const DECISION_OWNER := (row: DecisionRow) => row.org

  ghost predicate OperationsOf(org: Id, a: map<IdempotencyKey, OperationRow>, b: map<IdempotencyKey, OperationRow>) {
    forall k: IdempotencyKey :: k.org != org ==> (k in a <==> k in b) && (k in a ==> a[k] == b[k])
  }

  /** A constraint belongs to the tenant of its goal. */
  ghost predicate ConstraintsOf(org: Id, goals: map<Id, GoalRow>, a: map<ConstraintKey, ConstraintRow>,
                                b: map<ConstraintKey, ConstraintRow>)
  {
    forall k: ConstraintKey :: !(k.goal in goals && goals[k.goal].org == org)
      ==> (k in a <==> k in b) && (k in a ==> a[k] == b[k])
  }

  ghost predicate LogsOf(org: Id, a: Db, b: Db) {
    && a.approvals <= b.approvals && (forall i :: |a.approvals| <= i < |b.approvals| ==> b.approvals[i].org == org)
    && a.audits <= b.audits && (forall i :: |a.audits| <= i < |b.audits| ==> b.audits[i].org == org)
  }

  /** From `a` to `b` only rows of `org` were written, in every table. */
  ghost predicate OnlyOf(org: Id, a: Db, b: Db) {
    && a.users == b.users && a.goals == b.goals
    && ConstraintsOf(org, a.goals, a.constraints, b.constraints) && OperationsOf(org, a.operations, b.operations)
    && RowsOf(org, BUSINESS_OWNER, a.businesses, b.businesses) && RowsOf(org, SCENARIO_OWNER, a.scenarios, b.scenarios)
    && RowsOf(org, PROPOSAL_OWNER, a.proposals, b.proposals) && RowsOf(org, VERSION_OWNER, a.versions, b.versions)
    && RowsOf(org, DECISION_OWNER, a.decisions, b.decisions) && LogsOf(org, a, b)
  }

  lemma AddConstraintOwn(db: Db, actor: Actor, goal: Id, constraint: Planning.Constraint, request: string)
    requires AddConstraintTx(db, actor, goal, constraint, request).Success?
    ensures OnlyOf(actor.org, db, AddConstraintTx(db, actor, goal, constraint, request).value)
    ensures Permitted(db, Writer(actor.org, actor.id, actor.guest, true))
  {
    hide AuditIdUsed, Planning.Constraint.Valid;
  }

  lemma CreateScenarioOwn(db: Db, actor: Actor, candidate: S.Scenario, request: string)
    requires CreateScenarioTx(db, actor, candidate, request).Success?
    ensures OnlyOf(actor.org, db, CreateScenarioTx(db, actor, candidate, request).value)
    ensures Permitted(db, Proposer(actor))
  {
    hide AuditIdUsed;
  }

  lemma UpdateSimulationOwn(db: Db, actor: Actor, candidate: S.Scenario, expected: nat, request: string)
    requires UpdateSimulationTx(db, actor, candidate, expected, request).Success?
    ensures OnlyOf(actor.org, db, UpdateSimulationTx(db, actor, candidate, expected, request).value)
    ensures Permitted(db, Proposer(actor))
  {
    hide AuditIdUsed, S.Scenario.Valid;
  }

  lemma CreateProposalOwn(db: Db, actor: Actor, candidate: P.Proposal, request: string)
    requires CreateProposalTx(db, actor, candidate, request).Success?
    ensures OnlyOf(actor.org, db, CreateProposalTx(db, actor, candidate, request).value)
    ensures Permitted(db, Proposer(actor))
  {
    hide AuditIdUsed, VersionIdUsed;
  }

  lemma SaveRevisionOwn(db: Db, actor: Actor, next: P.Proposal, expected: nat, request: string)
    requires SaveRevisionTx(db, actor, next, expected, request).Success?
    ensures OnlyOf(actor.org, db, SaveRevisionTx(db, actor, next, expected, request).value)
    ensures Permitted(db, Proposer(actor))
  {
    hide AuditIdUsed, VersionIdUsed;
  }

  lemma SubmitReviewOwn(db: Db, actor: Actor, proposal: Id, expected: nat, request: string)
    requires SubmitReviewTx(db, actor, proposal, expected, request).Success?
    ensures OnlyOf(actor.org, db, SubmitReviewTx(db, actor, proposal, expected, request).value)
    ensures Permitted(db, Proposer(actor))
  {
    hide AuditIdUsed;
  }

  lemma RecordDecisionOwn(db: Db, org: Id, d: A.Decision, createdAt: int, request: string)
    requires RecordDecisionTx(db, org, d, createdAt, request).Success?
    ensures OnlyOf(org, db, RecordDecisionTx(db, org, d, createdAt, request).value)
    ensures forall guest :: Permitted(db, Writer(org, d.decidedBy, guest, true))
  {
    hide AuditIdUsed, ApprovalIdUsed;
  }

  lemma CommitOwn(build: Build, db: Db, input: CommitInput, expected: Option<nat>, now: int)
    requires CommitApply(build, db, input, expected, now).Success?
    ensures OnlyOf(input.org, db, CommitApply(build, db, input, expected, now).value.0)
    ensures Permitted(db, Writer(input.org, input.actor, false, true))
  {
    hide CommitApply, AuditIdUsed;
    CommitApplyEffect(build, db, input, expected, now);
  }

  /** Whatever a step writes, its user may write, and all of it lies in that user's tenant. */
  lemma WritesArePermittedAndOwn(build: Build, s: System, step: Step)
    requires Effect(build, s, step).Success?
    ensures WriterOf(s, step).Some?
    ensures var w := WriterOf(s, step).value; Permitted(s.db, w) && OnlyOf(w.org, s.db, Effect(build, s, step).value)
  {
    hide AddConstraintTx, CreateScenarioTx, UpdateSimulationTx, CreateProposalTx, SaveRevisionTx, SubmitReviewTx;
    hide RecordDecisionTx, CommitApply, PlanProposal, PlanRevision, Permitted, OnlyOf, ValidDecide;
    var db := s.db;
    match step
    case AddConstraint(actor, goal, constraint, request) => AddConstraintOwn(db, actor, goal, constraint, request);
    case CreateScenario(actor, candidate, request) => CreateScenarioOwn(db, actor, candidate, request);
    case WriteSimulation(c, snapshot) =>
      var args, scenario, goal := s.clients[c].simulate, s.clients[c].scenario, s.clients[c].goal;
      UpdateSimulationOwn(db, args.actor, Simulation.SimulationOf(snapshot, goal, scenario).value, scenario.version,
                          args.request);
    case WriteProposal(c, proposalId, versionId) =>
      var args, scenario := s.clients[c].create, s.clients[c].scenario;
      CreateProposalOwn(db, args.actor, PlanProposal(args, scenario, proposalId, versionId).value, args.request);
    case WriteRevision(c, versionId) =>
      var args, view := s.clients[c].revise, s.clients[c].view;
      SaveRevisionOwn(db, args.actor, PlanRevision(args, view, versionId).value, view.current.number, args.request);
    case WriteReview(c) =>
      var args, view := s.clients[c].review, s.clients[c].view;
      SubmitReviewOwn(db, args.actor, args.proposal, view.current.number, args.request);
    case Decide(args, id, expiresAt, createdAt) =>
      RecordDecisionOwn(db, args.actor.org, DecisionOf(args, id, expiresAt), createdAt, args.request);
    case ApplyCommit(c) =>
      var p := s.clients[c];
      CommitOwn(build, db, p.input, p.expected, p.now);
    case _ =>
  }

  // ---- Runs ----

  /** Both maps hold the same rows of `org`. */
  ghost predicate SameRowsOf<K(!new), V>(org: Id, owner: V -> Id, a: map<K, V>, b: map<K, V>) {
    && (forall k :: k in a && owner(a[k]) == org ==> k in b && b[k] == a[k])
    && (forall k :: k in b && owner(b[k]) == org ==> k in a && b[k] == a[k])
  }

  ghost predicate SameOperations(org: Id, a: map<IdempotencyKey, OperationRow>, b: map<IdempotencyKey, OperationRow>) {
    forall k: IdempotencyKey :: k.org == org ==> (k in a <==> k in b) && (k in a ==> a[k] == b[k])
  }

  ghost predicate SameConstraints(org: Id, goals: map<Id, GoalRow>, a: map<ConstraintKey, ConstraintRow>,
                                  b: map<ConstraintKey, ConstraintRow>)
  {
    forall k: ConstraintKey :: k.goal in goals && goals[k.goal].org == org
      ==> (k in a <==> k in b) && (k in a ==> a[k] == b[k])
  }

  ghost predicate SameLogs(org: Id, a: Db, b: Db) {
    && a.approvals <= b.approvals && (forall i :: |a.approvals| <= i < |b.approvals| ==> b.approvals[i].org != org)
    && a.audits <= b.audits && (forall i :: |a.audits| <= i < |b.audits| ==> b.audits[i].org != org)
  }

  /** The rows of `org` are the same in both stores, in every table. */
  ghost predicate SameRows(org: Id, a: Db, b: Db) {
    && a.users == b.users && a.goals == b.goals
    && SameConstraints(org, a.goals, a.constraints, b.constraints) && SameOperations(org, a.operations, b.operations)
    && SameRowsOf(org, BUSINESS_OWNER, a.businesses, b.businesses)
    && SameRowsOf(org, SCENARIO_OWNER, a.scenarios, b.scenarios)
    && SameRowsOf(org, PROPOSAL_OWNER, a.proposals, b.proposals)
    && SameRowsOf(org, VERSION_OWNER, a.versions, b.versions)
    && SameRowsOf(org, DECISION_OWNER, a.decisions, b.decisions) && SameLogs(org, a, b)
  }

  lemma OtherTenantsKeepTheirRows(writer: Id, org: Id, a: Db, b: Db)
    requires OnlyOf(writer, a, b) && writer != org
    ensures SameRows(org, a, b)
  {
  }

  lemma SameRowsTransitive(org: Id, a: Db, b: Db, c: Db)
    requires SameRows(org, a, b) && SameRows(org, b, c)
    ensures SameRows(org, a, c)
  {
    hide SameRowsOf;
    SameRowsOfTransitive(org, BUSINESS_OWNER, a.businesses, b.businesses, c.businesses);
    SameRowsOfTransitive(org, SCENARIO_OWNER, a.scenarios, b.scenarios, c.scenarios);
    SameRowsOfTransitive(org, PROPOSAL_OWNER, a.proposals, b.proposals, c.proposals);
    SameRowsOfTransitive(org, VERSION_OWNER, a.versions, b.versions, c.versions);
    SameRowsOfTransitive(org, DECISION_OWNER, a.decisions, b.decisions, c.decisions);
  }

  lemma SameRowsOfTransitive<K(!new), V>(org: Id, owner: V -> Id, a: map<K, V>, b: map<K, V>, c: map<K, V>)
    requires SameRowsOf(org, owner, a, b) && SameRowsOf(org, owner, b, c)
    ensures SameRowsOf(org, owner, a, c)
  {
  }

  /** No step of the run writes for `org`. */
  ghost predicate Idle(build: Build, s: System, steps: seq<Step>, org: Id) {
    forall i :: 0 <= i < |steps| ==> WritesFor(Run(build, s, steps[..i]), steps[i]) != Some(org)
  }

  function WritesFor(s: System, step: Step): Option<Id> {
    var w := WriterOf(s, step);
    if w.Some? then Some(w.value.org) else None
  }

  /** Whatever the other tenants do in a run, the rows of a tenant that does not write stay as they are. */
  lemma {:induction false} IdleTenantsKeepTheirRows(build: Build, s: System, steps: seq<Step>, org: Id)
    requires Idle(build, s, steps, org)
    ensures SameRows(org, s.db, Run(build, s, steps).db)
  {
    if steps != [] {
      hide OnlyOf, SameRows, Permitted, WriterOf, Effect, ClientsAfter;
      var front, last := steps[..|steps| - 1], steps[|steps| - 1];
      assert Idle(build, s, front, org) by {
        assert forall i :: 0 <= i < |front| ==> front[..i] == steps[..i] && front[i] == steps[i];
      }
      IdleTenantsKeepTheirRows(build, s, front, org);
      var t := Run(build, s, front);
      StepKeepsOtherRows(build, t, last, org);
      SameRowsTransitive(org, s.db, t.db, Next(build, t, last).db);
    }
  }

  lemma StepKeepsOtherRows(build: Build, s: System, step: Step, org: Id)
    requires WritesFor(s, step) != Some(org)
    ensures SameRows(org, s.db, Next(build, s, step).db)
  {
    hide OnlyOf, Permitted, WriterOf, Effect, ClientsAfter;
    if Effect(build, s, step).Success? {
      hide SameRows;
      WritesArePermittedAndOwn(build, s, step);
      OtherTenantsKeepTheirRows(WriterOf(s, step).value.org, org, s.db, Next(build, s, step).db);
    }
  }
}
