/** The shared PostgreSQL store as a value (migrations/000001_initial.up.sql). */
module Database {
  import opened Core
  import Scenarios
  import Planning
  import Proposals
  import Approvals
  import Commits

  datatype Role = Owner | Operator | Viewer

  /** Who runs a transaction: the tenant set for it, the user, and the guest mode of the request. */
  datatype Actor = Actor(org: Id, id: Id, guest: bool)

  datatype User = User(org: Id, role: Role)
  datatype BusinessRow = BusinessRow(org: Id, version: nat)
  datatype GoalRow = GoalRow(org: Id, business: Id, status: Planning.GoalStatus)
  datatype ConstraintKey = ConstraintKey(goal: Id, key: string)
  datatype ConstraintRow = ConstraintRow(org: Id, constraint: Planning.Constraint)
  datatype ScenarioRow = ScenarioRow(org: Id, scenario: Scenarios.Scenario)
  datatype ProposalRow = ProposalRow(org: Id, business: Id, goal: Id, current: nat)
  datatype VersionKey = VersionKey(proposal: Id, number: nat)
  datatype VersionRow = VersionRow(org: Id, version: Proposals.Version)
  datatype ApprovalRow = ApprovalRow(org: Id, createdAt: int, decision: Approvals.Decision)
  datatype IdempotencyKey = IdempotencyKey(org: Id, key: string)
  datatype OperationRow = OperationRow(operation: Commits.Operation, committed: Option<nat>)

  /** Decision ids are a hash of the operation id, taken to be injective. */
  datatype DecisionId = DecisionFor(operation: Id)
  datatype DecisionRow = DecisionRow(org: Id, business: Id, proposal: Id, versionId: Id, committed: nat,
                                     summary: string)

  /** Audit ids are hashes of these tuples, taken to be injective. */
  datatype AuditId =
    | ProposalAudit(proposal: Id, action: AuditAction, request: string)
    | ApprovalAudit(proposal: Id, versionId: Id, actor: Id, action: AuditAction, request: string)
    | CommitAudit(operation: Id)
    | ScenarioCreatedAudit(scenario: Id, request: string)
    | ScenarioSimulatedAudit(scenario: Id, version: nat)
    | ConstraintAudit(goal: Id, key: string, request: string)

  datatype AuditAction =
    | ProposalCreated | ProposalRevised | ProposalSubmitted | ProposalApproved | ProposalRejected
    | CommitExecuted | ScenarioCreated | ScenarioSimulated | ConstraintUpdated

  datatype Aggregate = BusinessAggregate | ProposalAggregate | ScenarioAggregate | GoalAggregate

  datatype Metadata =
    | CreatedVersion(versionId: Id)
    | RevisedVersion(versionId: Id, superseded: nat)
    | SubmittedVersion(number: nat)
    | DecidedVersion(business: Id, versionId: Id, decision: Approvals.Status)
    | CommittedVersion(proposal: Id, versionId: Id)
    | ScenarioAt(version: nat, base: nat)
    | ConstraintSet(goal: Id, key: string, hard: bool)

  datatype AuditEvent = AuditEvent(id: AuditId, org: Id, actor: Id, action: AuditAction, aggregate: Aggregate,
                                   aggregateId: Id, request: string, operation: Option<Id>, metadata: Metadata)

  /** All tables. Version rows are keyed by UNIQUE (proposal_id, number) and operations by
      UNIQUE (organization_id, idempotency_key); their primary keys are the ids inside.
      Approvals and audit events are kept in insertion order. */
  datatype Db = Db(
    users: map<Id, User>,
    goals: map<Id, GoalRow>,
    constraints: map<ConstraintKey, ConstraintRow>,
    businesses: map<Id, BusinessRow>,
    scenarios: map<Id, ScenarioRow>,
    proposals: map<Id, ProposalRow>,
    versions: map<VersionKey, VersionRow>,
    approvals: seq<ApprovalRow>,
    operations: map<IdempotencyKey, OperationRow>,
    decisions: map<DecisionId, DecisionRow>,
    audits: seq<AuditEvent>)

  // ---- What a transaction of one tenant can see ----

  predicate SeesBusiness(db: Db, org: Id, business: Id) {
    business in db.businesses && db.businesses[business].org == org
  }

  predicate SeesProposal(db: Db, org: Id, proposal: Id) {
    proposal in db.proposals && db.proposals[proposal].org == org
  }

  predicate SeesVersion(db: Db, org: Id, key: VersionKey) {
    key in db.versions && db.versions[key].org == org
  }

  predicate CanDecide(role: Role) {
    role == Owner || role == Operator
  }

  predicate SeesUser(db: Db, org: Id, user: Id) {
    user in db.users && db.users[user].org == org
  }

  /** Owners and operators, and viewers in guest mode. */
  predicate MayOperate(db: Db, actor: Actor) {
    && SeesUser(db, actor.org, actor.id)
    && (CanDecide(db.users[actor.id].role) || actor.guest)
  }

  predicate VersionIdUsed(versions: map<VersionKey, VersionRow>, id: Id) {
    exists k :: k in versions && versions[k].version.id == id
  }

  predicate AuditIdUsed(audits: seq<AuditEvent>, id: AuditId) {
    exists i :: 0 <= i < |audits| && audits[i].id == id
  }

  predicate ApprovalIdUsed(approvals: seq<ApprovalRow>, id: Id) {
    exists i :: 0 <= i < |approvals| && approvals[i].decision.id == id
  }

  predicate OperationIdUsed(operations: map<IdempotencyKey, OperationRow>, id: Id) {
    exists k :: k in operations && operations[k].operation.id == id
  }
}
