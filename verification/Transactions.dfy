/** What each repository transaction does to the store when it runs whole: its new
    state, or the error with which it is rolled back. */
module Transactions {
  import opened Core
  import opened Text
  import opened Database
  import S = Scenarios
  import P = Proposals
  import A = Approvals
  import C = Commits
  import Planning

  // ---- internal/platform/postgres/scenario_repository.go ----

  function AddConstraintTx(db: Db, actor: Actor, goal: Id, constraint: Planning.Constraint,
                           request: string): Result<Db>
  {
    var key := ConstraintKey(goal, constraint.key);
    var audit := ConstraintAudit(goal, constraint.key, request);
    if !constraint.Valid() || !ValidId(goal) then Failure(InvalidInput)
    else if !(goal in db.goals && db.goals[goal].org == actor.org
              && SeesUser(db, actor.org, actor.id) && CanDecide(db.users[actor.id].role)) then Failure(GoalNotFound)
    else if key !in db.constraints
      && (exists k :: k in db.constraints && db.constraints[k].constraint.id == constraint.id)
      then Failure(StorageError)
    else if AuditIdUsed(db.audits, audit) then Failure(StorageError)
    else
      var id := if key in db.constraints then db.constraints[key].constraint.id else constraint.id;
      Success(db.(constraints := db.constraints[key := ConstraintRow(actor.org, constraint.(id := id))],
                  audits := db.audits + [AuditEvent(audit, actor.org, actor.id, ConstraintUpdated, GoalAggregate, goal,
                                                    request, None,
                                                    ConstraintSet(goal, constraint.key, constraint.hard))]))
  }

  /** What reading a goal returns: its row, and all its constraints in some order. */
  predicate ShowsGoal(db: Db, org: Id, business: Id, goal: Planning.Goal) {
    && goal.Valid() && goal.business == business
    && goal.id in db.goals && db.goals[goal.id] == GoalRow(org, business, goal.status)
    && (forall i, j :: 0 <= i < j < |goal.constraints| ==> goal.constraints[i].id != goal.constraints[j].id)
    && (forall c :: c in goal.constraints
          ==> exists k :: k in db.constraints && k.goal == goal.id && db.constraints[k] == ConstraintRow(org, c))
    && (forall k :: k in db.constraints && k.goal == goal.id && db.constraints[k].org == org
          ==> db.constraints[k].constraint in goal.constraints)
  }

  function CreateScenarioTx(db: Db, actor: Actor, candidate: S.Scenario, request: string): Result<Db> {
    var audit := ScenarioCreatedAudit(candidate.id, request);
    if !( && SeesBusiness(db, actor.org, candidate.business)
          && candidate.goal in db.goals && db.goals[candidate.goal].org == actor.org
          && db.goals[candidate.goal].business == candidate.business
          && (db.goals[candidate.goal].status == Planning.GoalDraft
              || db.goals[candidate.goal].status == Planning.GoalActive)
          && db.businesses[candidate.business].version == candidate.base
          && MayOperate(db, actor)) then Failure(ScenarioContext)
    else if candidate.id in db.scenarios || AuditIdUsed(db.audits, audit) then Failure(StorageError)
    else
      var row := candidate.(status := S.Draft, version := 1, result := S.EMPTY_RESULT, risks := []);
      Success(db.(scenarios := db.scenarios[candidate.id := ScenarioRow(actor.org, row)],
                  audits := db.audits + [AuditEvent(audit, actor.org, actor.id, ScenarioCreated, ScenarioAggregate,
                                                    candidate.id, request, None,
                                                    ScenarioAt(candidate.version, candidate.base))]))
  }

  function GetScenario(db: Db, org: Id, business: Id, id: Id): Result<S.Scenario> {
    if id in db.scenarios && db.scenarios[id].org == org && db.scenarios[id].scenario.business == business
    then Success(db.scenarios[id].scenario) else Failure(ScenarioNotFound)
  }

  function UpdateSimulationTx(db: Db, actor: Actor, candidate: S.Scenario, expected: nat, request: string): Result<Db> {
    var audit := ScenarioSimulatedAudit(candidate.id, candidate.version);
    if !candidate.Valid() then Failure(InvalidInput)
    else if candidate.status != S.Simulated || candidate.version != expected + 1 then Failure(ScenarioConflict)
    else if !MayOperate(db, actor) then Failure(ScenarioUnauthorized)
    else if !SeesBusiness(db, actor.org, candidate.business) then Failure(StorageError)
    else if db.businesses[candidate.business].version != candidate.base then Failure(ScenarioStale)
    else if !( && candidate.id in db.scenarios && db.scenarios[candidate.id].org == actor.org
               && var s := db.scenarios[candidate.id].scenario;
                  s.business == candidate.business && s.status == S.Draft && s.version == expected
                  && s.base == candidate.base) then Failure(ScenarioConflict)
    else if AuditIdUsed(db.audits, audit) then Failure(StorageError)
    else
      var row := db.scenarios[candidate.id].scenario.(result := candidate.result, risks := candidate.risks,
                                                      status := candidate.status, version := candidate.version);
      Success(db.(scenarios := db.scenarios[candidate.id := ScenarioRow(actor.org, row)],
                  audits := db.audits + [AuditEvent(audit, actor.org, actor.id, ScenarioSimulated, ScenarioAggregate,
                                                    candidate.id, request, None,
                                                    ScenarioAt(candidate.version, candidate.base))]))
  }

  // ---- internal/platform/postgres/proposal_repository.go ----

  function ProposalEvent(actor: Actor, proposal: Id, action: AuditAction, request: string,
                         metadata: Metadata): AuditEvent
  {
    AuditEvent(ProposalAudit(proposal, action, request), actor.org, actor.id, action, ProposalAggregate, proposal,
               request, None, metadata)
  }

  function CreateProposalTx(db: Db, actor: Actor, candidate: P.Proposal, request: string): Result<Db> {
    var v := candidate.current;
    var key := VersionKey(candidate.id, v.number);
    var event := ProposalEvent(actor, candidate.id, ProposalCreated, request, CreatedVersion(v.id));
    if !( && v.scenario in db.scenarios && db.scenarios[v.scenario].org == actor.org
          && db.scenarios[v.scenario].scenario.business == candidate.business
          && db.scenarios[v.scenario].scenario.goal == candidate.goal
          && S.Usable(db.scenarios[v.scenario].scenario)
          && MayOperate(db, actor)) then Failure(ProposalContext)
    else if candidate.id in db.proposals then Failure(StorageError)
    else if VersionIdUsed(db.versions, v.id) || key in db.versions || v.number == 0 || v.base == 0
      then Failure(StorageError)
    else if IsBlank(request) then Failure(InvalidInput)
    else if AuditIdUsed(db.audits, event.id) then Failure(StorageError)
    else Success(db.(proposals := db.proposals[candidate.id :=
                                    ProposalRow(actor.org, candidate.business, candidate.goal, 1)],
                     versions := db.versions[key := VersionRow(actor.org, v.(proposal := candidate.id))],
                     audits := db.audits + [event]))
  }

  /** The proposal with its current version; `business` may be left empty. */
  function GetProposal(db: Db, org: Id, business: Id, id: Id): Result<P.Proposal> {
    if !(SeesProposal(db, org, id) && (business == "" || db.proposals[id].business == business)
         && SeesVersion(db, org, VersionKey(id, db.proposals[id].current))) then Failure(ProposalNotFound)
    else
      var row := db.proposals[id];
      var view := P.Proposal(id, row.business, row.goal, db.versions[VersionKey(id, row.current)].version, row.current);
      if view.Valid() then Success(view) else Failure(StorageError)
  }

  function SaveRevisionTx(db: Db, actor: Actor, next: P.Proposal, expected: nat, request: string): Result<Db> {
    var key := VersionKey(next.id, expected);
    var v := next.current;
    var nextKey := VersionKey(next.id, v.number);
    var event := ProposalEvent(actor, next.id, ProposalRevised, request, RevisedVersion(v.id, expected));
    if !MayOperate(db, actor) then Failure(ProposalUnauthorized)
    else if !SeesProposal(db, actor.org, next.id) then Failure(ProposalNotFound)
    else if db.proposals[next.id].current != expected || db.proposals[next.id].business != next.business
      then Failure(ProposalConflict)
    else if !(SeesVersion(db, actor.org, key) && db.versions[key].version.status == P.Draft) then Failure(ProposalState)
    else if VersionIdUsed(db.versions, v.id) || nextKey in db.versions || v.number == 0 || v.base == 0
            || !(v.scenario in db.scenarios && db.scenarios[v.scenario].org == actor.org) then Failure(StorageError)
    else if IsBlank(request) then Failure(InvalidInput)
    else if AuditIdUsed(db.audits, event.id) then Failure(StorageError)
    else
      var superseded := db.versions[key].version.(status := P.Superseded);
      Success(db.(versions := db.versions[key := VersionRow(actor.org, superseded)]
                                         [nextKey := VersionRow(actor.org, v.(proposal := next.id))],
                  proposals := db.proposals[next.id := db.proposals[next.id].(current := v.number)],
                  audits := db.audits + [event]))
  }

  function SubmitReviewTx(db: Db, actor: Actor, proposal: Id, expected: nat, request: string): Result<Db> {
    var key := VersionKey(proposal, expected);
    var event := ProposalEvent(actor, proposal, ProposalSubmitted, request, SubmittedVersion(expected));
    if !MayOperate(db, actor) then Failure(ProposalUnauthorized)
    else if !(SeesProposal(db, actor.org, proposal) && SeesVersion(db, actor.org, key)
              && db.versions[key].version.status == P.Draft) then Failure(ProposalState)
    else if IsBlank(request) then Failure(InvalidInput)
    else if AuditIdUsed(db.audits, event.id) then Failure(StorageError)
    else Success(db.(versions := db.versions[key :=
                                   VersionRow(actor.org, db.versions[key].version.(status := P.InReview))],
                     audits := db.audits + [event]))
  }

  // ---- internal/platform/postgres/approval_repository.go ----

  /** The version status a decision writes; the table's check refuses any other. */
  function StatusOf(decision: A.Status): Option<P.Status> {
    match decision
    case Approved => Some(P.Approved)
    case Rejected => Some(P.Rejected)
    case _ => None
  }

  function DecisionEvent(org: Id, d: A.Decision, request: string): AuditEvent {
    var action := if d.status == A.Approved then ProposalApproved else ProposalRejected;
    AuditEvent(ApprovalAudit(d.proposal, d.versionId, d.decidedBy, action, request), org, d.decidedBy, action,
               ProposalAggregate, d.proposal, request, None, DecidedVersion(d.business, d.versionId, d.status))
  }

  /** The current version of a proposal, if it is the named one. */
  predicate IsCurrent(db: Db, org: Id, business: Id, proposal: Id, versionId: Id) {
    && SeesProposal(db, org, proposal) && db.proposals[proposal].business == business
    && var key := VersionKey(proposal, db.proposals[proposal].current);
       SeesVersion(db, org, key) && db.versions[key].version.id == versionId
  }

  function RecordDecisionTx(db: Db, org: Id, d: A.Decision, createdAt: int, request: string): Result<Db> {
    var event := DecisionEvent(org, d, request);
    if !SeesBusiness(db, org, d.business) then Failure(ApprovalContext)
    else if db.businesses[d.business].version == 0 then Failure(StorageError)
    else if !(SeesUser(db, org, d.decidedBy) && CanDecide(db.users[d.decidedBy].role))
      then Failure(ApprovalUnauthorized)
    else if !IsCurrent(db, org, d.business, d.proposal, d.versionId) then Failure(ApprovalContext)
    else
      var key := VersionKey(d.proposal, db.proposals[d.proposal].current);
      var v := db.versions[key].version;
      if v.status != P.InReview then Failure(ApprovalState)
      else if v.base == 0 || v.base != db.businesses[d.business].version then Failure(ApprovalStale)
      else if ApprovalIdUsed(db.approvals, d.id) || StatusOf(d.status).None? || AuditIdUsed(db.audits, event.id)
        then Failure(StorageError)
      else Success(db.(approvals := db.approvals + [ApprovalRow(org, createdAt, d)],
                       versions := db.versions[key := VersionRow(org, v.(status := StatusOf(d.status).value))],
                       audits := db.audits + [event]))
  }

  // ---- internal/platform/postgres/commit_service.go ----

  datatype CommitInput = CommitInput(org: Id, operation: Id, key: string, business: Id, proposal: Id, versionId: Id,
                                     actor: Id, request: string, authorized: bool)

  datatype CommitOutcome = CommitOutcome(operation: Id, decision: Option<DecisionId>, status: C.Status,
                                         committed: nat, replayed: bool)

  /** `AsWritten` is the program text: the proposal handed to the guard lacks its goal and
      scenario ids, which the guard requires. `WithContextIds` reads both from the row. */
  datatype Build = AsWritten | WithContextIds

  predicate ValidCommitInput(input: CommitInput) {
    && ValidId(input.org) && ValidId(input.operation) && ValidId(input.business) && ValidId(input.proposal)
    && ValidId(input.versionId) && ValidId(input.actor) && !IsBlank(input.key) && !IsBlank(input.request)
  }

  predicate SameTarget(input: CommitInput, op: C.Operation) {
    op.id == input.operation && op.proposal == input.proposal && op.versionId == input.versionId
    && op.business == input.business
  }

  /** The replay of a recorded operation, or None when the idempotency key is new. */
  function CommitLookup(db: Db, input: CommitInput): Option<Result<CommitOutcome>> {
    var key := IdempotencyKey(input.org, input.key);
    if key !in db.operations then None
    else
      var row := db.operations[key];
      if !SameTarget(input, row.operation) then Some(Failure(IdempotencyConflict))
      else match row.operation.status
        case Succeeded =>
          var committed := if row.committed.Some? then row.committed.value else 0;
          var decision := Some(DecisionFor(input.operation));
          Some(Success(CommitOutcome(input.operation, decision, C.Succeeded, committed, true)))
        case Requested => Some(Failure(CommitInProgress))
        case Failed => Some(Success(CommitOutcome(input.operation, None, C.Failed, 0, true)))
  }

  /** The unlocked insert of the operation row: the business version it records, None
      when the business is not there and no row was inserted. */
  function CommitReserve(db: Db, input: CommitInput): Result<Option<nat>> {
    if !SeesBusiness(db, input.org, input.business) then Success(None)
    else if IdempotencyKey(input.org, input.key) in db.operations || OperationIdUsed(db.operations, input.operation)
      then Failure(IdempotencyConflict)
    else if !(SeesProposal(db, input.org, input.proposal)
              && exists k ::
                   k in db.versions && db.versions[k].version.id == input.versionId && db.versions[k].org == input.org)
      then Failure(StorageError)
    else Success(Some(db.businesses[input.business].version))
  }

  predicate MatchingApproval(db: Db, input: CommitInput, a: ApprovalRow) {
    && a.org == input.org && a.decision.versionId == input.versionId && a.decision.proposal == input.proposal
    && a.decision.business == input.business && a.decision.status == A.Approved
    && SeesUser(db, input.org, a.decision.decidedBy) && CanDecide(db.users[a.decision.decidedBy].role)
  }

  /** The latest matching approval among the first `n`. */
  function LatestApproval(db: Db, input: CommitInput, n: nat): Option<ApprovalRow>
    requires n <= |db.approvals|
  {
    if n == 0 then None
    else
      var earlier := LatestApproval(db, input, n - 1);
      var a := db.approvals[n - 1];
      if MatchingApproval(db, input, a) && (earlier.None? || earlier.value.createdAt <= a.createdAt)
      then Some(a) else earlier
  }

  function GuardedProposal(build: Build, db: Db, input: CommitInput, v: P.Version): P.Proposal
    requires input.proposal in db.proposals
  {
    match build
    case WithContextIds => P.Proposal(input.proposal, input.business, db.proposals[input.proposal].goal, v, 1)
    case AsWritten => P.Proposal(input.proposal, input.business, "", v.(scenario := "", changes := []), 1)
  }

  function GuardInput(build: Build, db: Db, input: CommitInput, v: P.Version, a: A.Decision,
                      now: int): C.ValidationInput
    requires input.proposal in db.proposals && input.business in db.businesses
  {
    var version := db.businesses[input.business].version;
    C.ValidationInput(now, input.business, version, GuardedProposal(build, db, input, v), a,
                      C.Operation(input.operation, input.key, input.proposal, input.versionId, input.business,
                                  version, C.Requested), input.authorized)
  }

  function CommitEvent(input: CommitInput): AuditEvent {
    AuditEvent(CommitAudit(input.operation), input.org, input.actor, CommitExecuted, BusinessAggregate, input.business,
               input.request, Some(input.operation), CommittedVersion(input.proposal, input.versionId))
  }

  /** The store after the six writes of a commit. */
  function Committed(db: Db, input: CommitInput, expected: nat): Db
    requires input.business in db.businesses && input.proposal in db.proposals
    requires VersionKey(input.proposal, db.proposals[input.proposal].current) in db.versions
  {
    var key := VersionKey(input.proposal, db.proposals[input.proposal].current);
    var row := db.versions[key];
    var next := db.businesses[input.business].version + 1;
    db.(operations := db.operations[IdempotencyKey(input.org, input.key) :=
                        OperationRow(C.Operation(input.operation, input.key, input.proposal, input.versionId,
                                                 input.business, expected, C.Succeeded), Some(next))],
        decisions := db.decisions[DecisionFor(input.operation) :=
                       DecisionRow(input.org, input.business, input.proposal, input.versionId, next,
                                   row.version.summary)],
        businesses := db.businesses[input.business := db.businesses[input.business].(version := next)],
        versions := db.versions[key := row.(version := row.version.(status := P.Committed))],
        audits := db.audits + [CommitEvent(input)])
  }

  /** Everything from the business lock on. `expected` is what the reservation recorded. */
  function CommitApply(build: Build, db: Db, input: CommitInput, expected: Option<nat>,
                       now: int): Result<(Db, CommitOutcome)>
  {
    if expected.None? || !SeesBusiness(db, input.org, input.business) then Failure(BusinessNotFound)
    else if !(SeesUser(db, input.org, input.actor) && CanDecide(db.users[input.actor].role))
      then Failure(CommitUnauthorized)
    else if !IsCurrent(db, input.org, input.business, input.proposal, input.versionId) then Failure(ProposalNotFound)
    else
      var v := db.versions[VersionKey(input.proposal, db.proposals[input.proposal].current)].version;
      var approval := LatestApproval(db, input, |db.approvals|);
      if approval.None? then Failure(ApprovalNotFound)
      else if !C.Accepts(GuardInput(build, db, input, v, approval.value.decision, now)) then Failure(CommitRejected)
      else if DecisionFor(input.operation) in db.decisions
              || (exists d ::
                    && d in db.decisions && db.decisions[d].org == input.org
                    && db.decisions[d].versionId == input.versionId)
              || AuditIdUsed(db.audits, CommitAudit(input.operation)) then Failure(StorageError)
      else Success((Committed(db, input, expected.value),
                    CommitOutcome(input.operation, Some(DecisionFor(input.operation)), C.Succeeded,
                                  db.businesses[input.business].version + 1, false)))
  }

  /** A call of Commit: its input is checked before its transaction begins. */
  function CommitNow(build: Build, db: Db, input: CommitInput, now: int): Result<(Db, CommitOutcome)> {
    if ValidCommitInput(input) then CommitTx(build, db, input, now) else Failure(InvalidInput)
  }

  /** The whole commit with nothing in between. */
  function CommitTx(build: Build, db: Db, input: CommitInput, now: int): Result<(Db, CommitOutcome)> {
    match CommitLookup(db, input)
    case Some(Success(outcome)) => Success((db, outcome))
    case Some(Failure(e)) => Failure(e)
    case None =>
      match CommitReserve(db, input)
      case Failure(e) => Failure(e)
      case Success(expected) => CommitApply(build, db, input, expected, now)
  }
}
