/** internal/platform/postgres: the repositories as they run, statement by statement, on
    tables that each statement changes in place. Every transaction method is proved to end
    with what its function in Transactions says, or with nothing changed. */
module Repository {
  import opened Core
  import opened Text
  import opened Database
  import opened Transactions
  import S = Scenarios
  import P = Proposals
  import A = Approvals
  import C = Commits
  import Planning

  /** The primary keys that are not themselves map keys. */
  ghost predicate PrimaryKeys(versions: map<VersionKey, VersionRow>, operations: map<IdempotencyKey, OperationRow>) {
    && (forall k, l :: k in versions && l in versions && versions[k].version.id == versions[l].version.id ==> k == l)
    && (forall k, l :: k in operations && l in operations && operations[k].operation.id == operations[l].operation.id
          ==> k == l)
  }

  /** Scenario rows carry their own key. */
  ghost predicate CarryTheirKeys(scenarios: map<Id, ScenarioRow>) {
    forall s :: s in scenarios ==> scenarios[s].scenario.id == s
  }

  /** A transaction ran whole or left nothing behind. */
  predicate AllOrNothing(before: Db, spec: Result<Db>, after: Db, error: Option<Error>) {
    match spec
    case Success(db) => error == None && after == db
    case Failure(e) => error == Some(e) && after == before
  }

  /** What the statements of a transaction did before it is committed or rolled back. */
  predicate Ran(spec: Result<Db>, after: Db, error: Option<Error>) {
    match spec
    case Success(db) => error == None && after == db
    case Failure(e) => error == Some(e)
  }

  predicate CommitRan(spec: Result<(Db, CommitOutcome)>, after: Db, r: Result<CommitOutcome>) {
    match spec
    case Success((db, outcome)) => r == Success(outcome) && after == db
    case Failure(e) => r == Failure(e)
  }

  /** A transaction needs a well-formed tenant before it starts. */
  function InTenant(org: Id, spec: Result<Db>): Result<Db> {
    if ValidId(org) then spec else Failure(InvalidInput)
  }

  /** The primary key, or the one decision a version may have, is taken. */
  predicate DecisionTaken(decisions: map<DecisionId, DecisionRow>, input: CommitInput) {
    || DecisionFor(input.operation) in decisions
    || exists d :: d in decisions && decisions[d].org == input.org && decisions[d].versionId == input.versionId
  }

  // ---- Updates that select rows by version id or operation id ----

  predicate Selected(row: VersionRow, org: Id, versionId: Id, status: P.Status) {
    row.org == org && row.version.id == versionId && row.version.status == status
  }

  function SelectedKeys(versions: map<VersionKey, VersionRow>, org: Id, versionId: Id,
                        status: P.Status): set<VersionKey>
  {
    set k | k in versions && Selected(versions[k], org, versionId, status)
  }

  function UpdatedStatus(versions: map<VersionKey, VersionRow>, org: Id, versionId: Id, from: P.Status, to: P.Status)
    : map<VersionKey, VersionRow>
  {
    map k | k in versions ::
      if Selected(versions[k], org, versionId, from)
      then versions[k].(version := versions[k].version.(status := to)) else versions[k]
  }

  /** An update by version id reaches the one row with that id, if its tenant and status match. */
  lemma UpdateHitsOneRow(versions: map<VersionKey, VersionRow>, operations: map<IdempotencyKey, OperationRow>,
                         k: VersionKey, org: Id, from: P.Status, to: P.Status)
    requires PrimaryKeys(versions, operations) && k in versions && versions[k].org == org
    ensures var id := versions[k].version.id;
            if versions[k].version.status == from
            then && SelectedKeys(versions, org, id, from) == {k}
                 && UpdatedStatus(versions, org, id, from, to)
                    == versions[k := VersionRow(org, versions[k].version.(status := to))]
            else SelectedKeys(versions, org, id, from) == {} && UpdatedStatus(versions, org, id, from, to) == versions
  {
  }

  class Store {
    const users: map<Id, User>
    const goals: map<Id, GoalRow>
    const build: Build
    var constraints: map<ConstraintKey, ConstraintRow>
    var businesses: map<Id, BusinessRow>
    var scenarios: map<Id, ScenarioRow>
    var proposals: map<Id, ProposalRow>
    var versions: map<VersionKey, VersionRow>
    var approvals: seq<ApprovalRow>
    var operations: map<IdempotencyKey, OperationRow>
    var decisions: map<DecisionId, DecisionRow>
    var audits: seq<AuditEvent>

    constructor (db: Db, build: Build)
      ensures State() == db && this.build == build
    {
      users, goals, this.build := db.users, db.goals, build;
      constraints, businesses, scenarios := db.constraints, db.businesses, db.scenarios;
      proposals, versions, approvals := db.proposals, db.versions, db.approvals;
      operations, decisions, audits := db.operations, db.decisions, db.audits;
    }

    function State(): Db
      reads this
    {
      Db(users, goals, constraints, businesses, scenarios, proposals, versions, approvals, operations, decisions,
         audits)
    }

    ghost predicate Valid()
      reads this
    {
      PrimaryKeys(versions, operations) && CarryTheirKeys(scenarios)
    }

    /** Rolls the tables back to what they were when the transaction began. */
    method Rollback(begun: Db)
      requires begun.users == users && begun.goals == goals
      modifies this
      ensures State() == begun
    {
      constraints, businesses, scenarios := begun.constraints, begun.businesses, begun.scenarios;
      proposals, versions, approvals := begun.proposals, begun.versions, begun.approvals;
      operations, decisions, audits := begun.operations, begun.decisions, begun.audits;
    }

    // ---- Statements ----

    method AppendAudit(event: AuditEvent) returns (ok: bool)
      modifies `audits
      ensures ok <==> !AuditIdUsed(old(audits), event.id)
      ensures audits == if ok then old(audits) + [event] else old(audits)
    {
      ok := !AuditIdUsed(audits, event.id);
      if ok {
        audits := audits + [event];
      }
    }

    method AppendProposalAudit(event: AuditEvent) returns (error: Option<Error>)
      modifies `audits
      ensures error == if IsBlank(event.request) then Some(InvalidInput)
                       else if AuditIdUsed(old(audits), event.id) then Some(StorageError) else None
      ensures audits == if error.None? then old(audits) + [event] else old(audits)
    {
      if IsBlank(event.request) {
        return Some(InvalidInput);
      }
      var ok := AppendAudit(event);
      error := if ok then None else Some(StorageError);
    }

    method InsertVersion(org: Id, proposal: Id, v: P.Version) returns (ok: bool)
      modifies `versions
      ensures ok <==> && !VersionIdUsed(old(versions), v.id) && VersionKey(proposal, v.number) !in old(versions)
                      && v.number != 0 && v.base != 0
                      && v.scenario in scenarios && scenarios[v.scenario].org == org
      ensures versions == if ok
                          then old(versions)[VersionKey(proposal, v.number) :=
                                               VersionRow(org, v.(proposal := proposal))]
                          else old(versions)
    {
      ok := && !VersionIdUsed(versions, v.id) && VersionKey(proposal, v.number) !in versions && v.number != 0
            && v.base != 0
            && v.scenario in scenarios && scenarios[v.scenario].org == org;
      if ok {
        versions := versions[VersionKey(proposal, v.number) := VersionRow(org, v.(proposal := proposal))];
      }
    }

    /** UPDATE ... WHERE proposal_id = .. AND number = .. AND status = .. */
    method UpdateNumberedVersion(org: Id, key: VersionKey, from: P.Status, to: P.Status) returns (affected: nat)
      modifies `versions
      ensures affected == if SeesVersion(old(State()), org, key) && old(versions)[key].version.status == from
                          then 1 else 0
      ensures versions == if affected == 1
                          then old(versions)[key := VersionRow(org, old(versions)[key].version.(status := to))]
                          else old(versions)
    {
      if !(SeesVersion(State(), org, key) && versions[key].version.status == from) {
        return 0;
      }
      versions := versions[key := VersionRow(org, versions[key].version.(status := to))];
      affected := 1;
    }

    /** UPDATE ... WHERE id = .. AND status = ..: `key` is the key of the row with that id. */
    method UpdateVersion(org: Id, versionId: Id, from: P.Status, to: P.Status, ghost key: VersionKey)
      returns (affected: nat)
      requires PrimaryKeys(versions, map[]) && SeesVersion(State(), org, key) && versions[key].version.id == versionId
      modifies `versions
      ensures affected == if old(versions)[key].version.status == from then 1 else 0
      ensures versions == if affected == 1
                          then old(versions)[key := VersionRow(org, old(versions)[key].version.(status := to))]
                          else old(versions)
    {
      UpdateHitsOneRow(versions, map[], key, org, from, to);
      affected := |SelectedKeys(versions, org, versionId, from)|;
      versions := UpdatedStatus(versions, org, versionId, from, to);
    }

    /** UPDATE commit_operations ... WHERE id = .. */
    method CompleteOperation(org: Id, id: Id, committed: nat, ghost others: map<IdempotencyKey, OperationRow>,
                             ghost key: IdempotencyKey, ghost requested: OperationRow)
      requires operations == others[key := requested] && key.org == org
      requires !OperationIdUsed(others, id) && requested.operation.id == id
      modifies `operations
      ensures operations == others[key := OperationRow(requested.operation.(status := C.Succeeded), Some(committed))]
    {
      operations := map k | k in operations ::
        if k.org == org && operations[k].operation.id == id
        then OperationRow(operations[k].operation.(status := C.Succeeded), Some(committed)) else operations[k];
    }

    // ---- scenario_repository.go ----

    method AddConstraint(actor: Actor, goal: Id, constraint: Planning.Constraint, request: string)
      returns (error: Option<Error>)
      requires Valid()
      modifies this
      ensures Valid()
      ensures AllOrNothing(old(State()),
                           InTenant(actor.org, AddConstraintTx(old(State()), actor, goal, constraint, request)),
                           State(), error)
    {
      if !constraint.Valid() || !ValidId(goal) || !ValidId(actor.org) {
        return Some(InvalidInput);
      }
      var begun := State();
      error := AddConstraintStatements(actor, goal, constraint, request);
      if error.Some? {
        Rollback(begun);
      }
    }

    method AddConstraintStatements(actor: Actor, goal: Id, constraint: Planning.Constraint, request: string)
      returns (error: Option<Error>)
      requires Valid() && constraint.Valid() && ValidId(goal)
      modifies this
      ensures Ran(AddConstraintTx(old(State()), actor, goal, constraint, request), State(), error)
    {
      if !(goal in goals && goals[goal].org == actor.org
           && SeesUser(State(), actor.org, actor.id) && CanDecide(users[actor.id].role)) {
        return Some(GoalNotFound);
      }
      var key := ConstraintKey(goal, constraint.key);
      if key in constraints {
        constraints := constraints[key := ConstraintRow(actor.org, constraint.(id := constraints[key].constraint.id))];
      } else if exists k :: k in constraints && constraints[k].constraint.id == constraint.id {
        return Some(StorageError);
      } else {
        constraints := constraints[key := ConstraintRow(actor.org, constraint)];
      }
      var ok := AppendAudit(AuditEvent(ConstraintAudit(goal, constraint.key, request), actor.org, actor.id,
                                       ConstraintUpdated, GoalAggregate, goal, request, None,
                                       ConstraintSet(goal, constraint.key, constraint.hard)));
      error := if ok then None else Some(StorageError);
    }

    method CreateScenario(actor: Actor, candidate: S.Scenario, request: string) returns (error: Option<Error>)
      requires Valid()
      modifies this
      ensures Valid()
      ensures AllOrNothing(old(State()), InTenant(actor.org, CreateScenarioTx(old(State()), actor, candidate, request)),
                           State(), error)
    {
      if !ValidId(actor.org) {
        return Some(InvalidInput);
      }
      var begun := State();
      error := CreateScenarioStatements(actor, candidate, request);
      if error.Some? {
        Rollback(begun);
      }
    }

    method CreateScenarioStatements(actor: Actor, candidate: S.Scenario, request: string) returns (error: Option<Error>)
      requires Valid()
      modifies this
      ensures Ran(CreateScenarioTx(old(State()), actor, candidate, request), State(), error)
    {
      if !( && SeesBusiness(State(), actor.org, candidate.business)
            && candidate.goal in goals && goals[candidate.goal].org == actor.org
            && goals[candidate.goal].business == candidate.business
            && (goals[candidate.goal].status == Planning.GoalDraft
                || goals[candidate.goal].status == Planning.GoalActive)
            && businesses[candidate.business].version == candidate.base
            && MayOperate(State(), actor)) {
        return Some(ScenarioContext);
      }
      if candidate.id in scenarios {
        return Some(StorageError);
      }
      var row := candidate.(status := S.Draft, version := 1, result := S.EMPTY_RESULT, risks := []);
      scenarios := scenarios[candidate.id := ScenarioRow(actor.org, row)];
      var ok := AppendAudit(AuditEvent(ScenarioCreatedAudit(candidate.id, request), actor.org, actor.id,
                                       ScenarioCreated,
                                       ScenarioAggregate, candidate.id, request, None,
                                       ScenarioAt(candidate.version, candidate.base)));
      error := if ok then None else Some(StorageError);
    }

    method UpdateSimulation(actor: Actor, candidate: S.Scenario, expected: nat, request: string)
      returns (error: Option<Error>)
      requires Valid()
      modifies this
      ensures Valid()
      ensures ValidId(actor.org) ==>
                AllOrNothing(old(State()), UpdateSimulationTx(old(State()), actor, candidate, expected, request),
                             State(), error)
      ensures !ValidId(actor.org) ==> error.Some? && State() == old(State())
    {
      if !candidate.Valid() {
        return Some(InvalidInput);
      }
      if candidate.status != S.Simulated || candidate.version != expected + 1 {
        return Some(ScenarioConflict);
      }
      if !ValidId(actor.org) {
        return Some(InvalidInput);
      }
      var begun := State();
      error := UpdateSimulationStatements(actor, candidate, expected, request);
      if error.Some? {
        Rollback(begun);
      }
    }

    method UpdateSimulationStatements(actor: Actor, candidate: S.Scenario, expected: nat, request: string)
      returns (error: Option<Error>)
      requires Valid() && candidate.Valid() && candidate.status == S.Simulated && candidate.version == expected + 1
      modifies this
      ensures Ran(UpdateSimulationTx(old(State()), actor, candidate, expected, request), State(), error)
    {
      if !MayOperate(State(), actor) {
        return Some(ScenarioUnauthorized);
      }
      if !SeesBusiness(State(), actor.org, candidate.business) {
        return Some(StorageError);
      }
      if businesses[candidate.business].version != candidate.base {
        return Some(ScenarioStale);
      }
      if !(candidate.id in scenarios && scenarios[candidate.id].org == actor.org) {
        return Some(ScenarioConflict);
      }
      var stored := scenarios[candidate.id].scenario;
      if !(stored.business == candidate.business && stored.status == S.Draft && stored.version == expected
           && stored.base == candidate.base) {
        return Some(ScenarioConflict);
      }
      scenarios := scenarios[candidate.id := ScenarioRow(actor.org,
                     stored.(result := candidate.result, risks := candidate.risks, status := candidate.status,
                             version := candidate.version))];
      var ok := AppendAudit(AuditEvent(ScenarioSimulatedAudit(candidate.id, candidate.version), actor.org, actor.id,
                                       ScenarioSimulated, ScenarioAggregate, candidate.id, request, None,
                                       ScenarioAt(candidate.version, candidate.base)));
      error := if ok then None else Some(StorageError);
    }

    // ---- proposal_repository.go ----

    method CreateProposal(actor: Actor, candidate: P.Proposal, request: string) returns (error: Option<Error>)
      requires Valid()
      modifies this
      ensures Valid()
      ensures AllOrNothing(old(State()), InTenant(actor.org, CreateProposalTx(old(State()), actor, candidate, request)),
                           State(), error)
    {
      if !ValidId(actor.org) {
        return Some(InvalidInput);
      }
      var begun := State();
      error := CreateProposalStatements(actor, candidate, request);
      if error.Some? {
        Rollback(begun);
      }
    }

    method CreateProposalStatements(actor: Actor, candidate: P.Proposal, request: string) returns (error: Option<Error>)
      requires Valid()
      modifies this
      ensures Ran(CreateProposalTx(old(State()), actor, candidate, request), State(), error)
      ensures error.None? ==> Valid()
    {
      var v := candidate.current;
      if !( && v.scenario in scenarios && scenarios[v.scenario].org == actor.org
            && scenarios[v.scenario].scenario.business == candidate.business
            && scenarios[v.scenario].scenario.goal == candidate.goal
            && S.Usable(scenarios[v.scenario].scenario) && MayOperate(State(), actor)) {
        return Some(ProposalContext);
      }
      if candidate.id in proposals {
        return Some(StorageError);
      }
      proposals := proposals[candidate.id := ProposalRow(actor.org, candidate.business, candidate.goal, 1)];
      var ok := InsertVersion(actor.org, candidate.id, v);
      if !ok {
        return Some(StorageError);
      }
      error := AppendProposalAudit(ProposalEvent(actor, candidate.id, ProposalCreated, request, CreatedVersion(v.id)));
    }

    method SaveRevision(actor: Actor, next: P.Proposal, expected: nat, request: string) returns (error: Option<Error>)
      requires Valid()
      modifies this
      ensures Valid()
      ensures AllOrNothing(old(State()),
                           InTenant(actor.org, SaveRevisionTx(old(State()), actor, next, expected, request)),
                           State(), error)
    {
      if !ValidId(actor.org) {
        return Some(InvalidInput);
      }
      var begun := State();
      error := SaveRevisionStatements(actor, next, expected, request);
      if error.Some? {
        Rollback(begun);
      } else {
        RevisionKeepsKeys(begun, actor, next, expected, request);
      }
    }

    method SaveRevisionStatements(actor: Actor, next: P.Proposal, expected: nat, request: string)
      returns (error: Option<Error>)
      requires Valid()
      modifies this
      ensures Ran(SaveRevisionTx(old(State()), actor, next, expected, request), State(), error)
    {
      if !MayOperate(State(), actor) {
        return Some(ProposalUnauthorized);
      }
      if !SeesProposal(State(), actor.org, next.id) {
        return Some(ProposalNotFound);
      }
      if proposals[next.id].current != expected || proposals[next.id].business != next.business {
        return Some(ProposalConflict);
      }
      var affected := UpdateNumberedVersion(actor.org, VersionKey(next.id, expected), P.Draft, P.Superseded);
      if affected != 1 {
        return Some(ProposalState);
      }
      StatusKeepsIds(old(versions), VersionKey(next.id, expected), versions[VersionKey(next.id, expected)],
                     next.current.id);
      error := InsertRevision(actor, next, expected, request);
    }

    method InsertRevision(actor: Actor, next: P.Proposal, expected: nat, request: string) returns (error: Option<Error>)
      requires next.id in proposals
      modifies `versions, `proposals, `audits
      ensures var v := next.current;
              var event := ProposalEvent(actor, next.id, ProposalRevised, request, RevisedVersion(v.id, expected));
              && error == (if VersionIdUsed(old(versions), v.id) || VersionKey(next.id, v.number) in old(versions)
                              || v.number == 0 || v.base == 0
                              || !(v.scenario in scenarios && scenarios[v.scenario].org == actor.org)
                              then Some(StorageError)
                           else if IsBlank(request) then Some(InvalidInput)
                           else if AuditIdUsed(old(audits), event.id) then Some(StorageError) else None)
              && (error.None? ==>
                    && versions == old(versions)[VersionKey(next.id, v.number) :=
                                                   VersionRow(actor.org, v.(proposal := next.id))]
                    && proposals == old(proposals)[next.id := old(proposals)[next.id].(current := v.number)]
                    && audits == old(audits) + [event])
    {
      var ok := InsertVersion(actor.org, next.id, next.current);
      if !ok {
        return Some(StorageError);
      }
      proposals := proposals[next.id := proposals[next.id].(current := next.current.number)];
      error := AppendProposalAudit(ProposalEvent(actor, next.id, ProposalRevised, request,
                                                 RevisedVersion(next.current.id, expected)));
    }

    method SubmitReview(actor: Actor, proposal: Id, expected: nat, request: string) returns (error: Option<Error>)
      requires Valid()
      modifies this
      ensures Valid()
      ensures AllOrNothing(old(State()),
                           InTenant(actor.org, SubmitReviewTx(old(State()), actor, proposal, expected, request)),
                           State(), error)
    {
      if !ValidId(actor.org) {
        return Some(InvalidInput);
      }
      var begun := State();
      error := SubmitReviewStatements(actor, proposal, expected, request);
      if error.Some? {
        Rollback(begun);
      }
    }

    method SubmitReviewStatements(actor: Actor, proposal: Id, expected: nat, request: string)
      returns (error: Option<Error>)
      requires Valid()
      modifies this
      ensures Ran(SubmitReviewTx(old(State()), actor, proposal, expected, request), State(), error)
      ensures error.None? ==> Valid()
    {
      if !MayOperate(State(), actor) {
        return Some(ProposalUnauthorized);
      }
      if !SeesProposal(State(), actor.org, proposal) {
        return Some(ProposalState);
      }
      var affected := UpdateNumberedVersion(actor.org, VersionKey(proposal, expected), P.Draft, P.InReview);
      if affected != 1 {
        return Some(ProposalState);
      }
      error := AppendProposalAudit(ProposalEvent(actor, proposal, ProposalSubmitted, request,
                                                 SubmittedVersion(expected)));
    }

    // ---- approval_repository.go ----

    method RecordDecision(org: Id, d: A.Decision, createdAt: int, request: string) returns (error: Option<Error>)
      requires Valid()
      modifies this
      ensures Valid()
      ensures AllOrNothing(old(State()), InTenant(org, RecordDecisionTx(old(State()), org, d, createdAt, request)),
                           State(), error)
    {
      if !ValidId(org) {
        return Some(InvalidInput);
      }
      var begun := State();
      error := RecordDecisionStatements(org, d, createdAt, request);
      if error.Some? {
        Rollback(begun);
      }
    }

    method RecordDecisionStatements(org: Id, d: A.Decision, createdAt: int, request: string)
      returns (error: Option<Error>)
      requires Valid()
      modifies this
      ensures Ran(RecordDecisionTx(old(State()), org, d, createdAt, request), State(), error)
      ensures error.None? ==> Valid()
    {
      if !SeesBusiness(State(), org, d.business) {
        return Some(ApprovalContext);
      }
      if businesses[d.business].version == 0 {
        return Some(StorageError);
      }
      if !(SeesUser(State(), org, d.decidedBy) && CanDecide(users[d.decidedBy].role)) {
        return Some(ApprovalUnauthorized);
      }
      if !IsCurrent(State(), org, d.business, d.proposal, d.versionId) {
        return Some(ApprovalContext);
      }
      var key := VersionKey(d.proposal, proposals[d.proposal].current);
      var v := versions[key].version;
      if v.status != P.InReview {
        return Some(ApprovalState);
      }
      if v.base == 0 || v.base != businesses[d.business].version {
        return Some(ApprovalStale);
      }
      if ApprovalIdUsed(approvals, d.id) {
        return Some(StorageError);
      }
      approvals := approvals + [ApprovalRow(org, createdAt, d)];
      var status := StatusOf(d.status);
      if status.None? {
        return Some(StorageError);
      }
      var affected := UpdateVersion(org, d.versionId, P.InReview, status.value, key);
      if affected != 1 {
        return Some(ApprovalState);
      }
      var ok := AppendAudit(DecisionEvent(org, d, request));
      error := if ok then None else Some(StorageError);
    }

    // ---- commit_service.go ----

    method Commit(input: CommitInput, now: int) returns (r: Result<CommitOutcome>)
      requires Valid()
      modifies this
      ensures Valid()
      ensures match CommitNow(build, old(State()), input, now)
              case Success((after, outcome)) => r == Success(outcome) && State() == after
              case Failure(e) => r == Failure(e) && State() == old(State())
    {
      if !ValidCommitInput(input) {
        return Failure(InvalidInput);
      }
      var recorded := CommitLookup(State(), input);
      if recorded.Some? {
        return recorded.value;
      }
      var begun := State();
      var expected := CommitReserve(State(), input);
      if expected.Failure? {
        return Failure(expected.error);
      }
      r := CommitStatements(begun, input, expected.value, now);
      if r.Failure? {
        Rollback(begun);
      } else {
        CommitKeepsKeys(build, begun, input, expected.value, now);
      }
    }

    /** From the insert of the operation row to the audit event. */
    method CommitStatements(ghost begun: Db, input: CommitInput, expected: Option<nat>, now: int)
      returns (r: Result<CommitOutcome>)
      requires Valid() && begun == State()
      requires CommitLookup(begun, input) == None && CommitReserve(begun, input) == Success(expected)
      modifies this
      ensures CommitRan(CommitApply(build, begun, input, expected, now), State(), r)
    {
      hide C.Accepts, LatestApproval, AuditIdUsed, GuardInput;
      var requested := C.Operation(input.operation, input.key, input.proposal, input.versionId, input.business,
                                   if expected.Some? then expected.value else 0, C.Requested);
      if expected.Some? {
        operations := operations[IdempotencyKey(input.org, input.key) := OperationRow(requested, None)];
      }
      if expected.None? || !SeesBusiness(State(), input.org, input.business) {
        return Failure(BusinessNotFound);
      }
      var version := businesses[input.business].version;
      if !(SeesUser(State(), input.org, input.actor) && CanDecide(users[input.actor].role)) {
        return Failure(CommitUnauthorized);
      }
      if !IsCurrent(State(), input.org, input.business, input.proposal, input.versionId) {
        return Failure(ProposalNotFound);
      }
      var key := VersionKey(input.proposal, proposals[input.proposal].current);
      var v := versions[key].version;
      ChecksIgnoreOperations(build, begun, State(), input);
      var approval := LatestApproval(State(), input, |approvals|);
      if approval.None? {
        return Failure(ApprovalNotFound);
      }
      if !C.Accepts(GuardInput(build, State(), input, v, approval.value.decision, now)) {
        return Failure(CommitRejected);
      }
      AcceptedIsApproved(build, State(), input, v, approval.value.decision, now);
      r := CommitWrites(begun, input, requested, key, v.summary, version);
    }

    method InsertDecision(input: CommitInput, committed: nat, summary: string) returns (ok: bool)
      modifies `decisions
      ensures ok <==> !DecisionTaken(old(decisions), input)
      ensures decisions == if !ok then old(decisions)
                           else old(decisions)[DecisionFor(input.operation) :=
                                  DecisionRow(input.org, input.business, input.proposal, input.versionId, committed,
                                              summary)]
    {
      ok := !DecisionTaken(decisions, input);
      if ok {
        decisions := decisions[DecisionFor(input.operation) :=
                                 DecisionRow(input.org, input.business, input.proposal, input.versionId, committed,
                                             summary)];
      }
    }

    /** The decision, the next business version and the version's status. */
    method PromoteVersion(input: CommitInput, ghost key: VersionKey, summary: string, version: nat) returns (ok: bool)
      requires PrimaryKeys(versions, map[]) && input.business in businesses
      requires SeesVersion(State(), input.org, key) && versions[key].version.id == input.versionId
      requires versions[key].version.status == P.Approved
      modifies `decisions, `businesses, `versions
      ensures ok <==> !DecisionTaken(old(decisions), input)
      ensures ok ==>
                && decisions == old(decisions)[DecisionFor(input.operation) :=
                     DecisionRow(input.org, input.business, input.proposal, input.versionId, version + 1, summary)]
                && businesses == old(businesses)[input.business :=
                                                   old(businesses)[input.business].(version := version + 1)]
                && versions == old(versions)[key :=
                     VersionRow(input.org, old(versions)[key].version.(status := P.Committed))]
    {
      ok := InsertDecision(input, version + 1, summary);
      if !ok {
        return;
      }
      businesses := businesses[input.business := businesses[input.business].(version := version + 1)];
      var affected := UpdateVersion(input.org, input.versionId, P.Approved, P.Committed, key);
      assert affected == 1;
    }

    /** The six writes, once the guard has accepted. */
    method CommitWrites(ghost begun: Db, input: CommitInput, requested: C.Operation, ghost key: VersionKey,
                        summary: string, version: nat)
      returns (r: Result<CommitOutcome>)
      requires PrimaryKeys(begun.versions, begun.operations)
      requires State() == begun.(operations := begun.operations[IdempotencyKey(input.org, input.key) :=
                                                                  OperationRow(requested, None)])
      requires IdempotencyKey(input.org, input.key) !in begun.operations
      requires !OperationIdUsed(begun.operations, input.operation)
      requires requested == C.Operation(input.operation, input.key, input.proposal, input.versionId, input.business,
                                        requested.expected, C.Requested)
      requires SeesBusiness(begun, input.org, input.business) && version == begun.businesses[input.business].version
      requires IsCurrent(begun, input.org, input.business, input.proposal, input.versionId)
      requires key == VersionKey(input.proposal, begun.proposals[input.proposal].current)
      requires begun.versions[key].version.status == P.Approved && begun.versions[key].version.summary == summary
      modifies `businesses, `versions, `operations, `decisions, `audits
      ensures r.Success?
         <==> !DecisionTaken(begun.decisions, input) && !AuditIdUsed(begun.audits, CommitAudit(input.operation))
      ensures r.Success? ==>
                && r.value == CommitOutcome(input.operation, Some(DecisionFor(input.operation)), C.Succeeded,
                                            version + 1, false)
                && State() == Committed(begun, input, requested.expected)
      ensures r.Failure? ==> r.error == StorageError
    {
      hide DecisionTaken;
      var recorded := PromoteVersion(input, key, summary, version);
      if !recorded {
        return Failure(StorageError);
      }
      CompleteOperation(input.org, input.operation, version + 1,
                        begun.operations, IdempotencyKey(input.org, input.key), OperationRow(requested, None));
      var ok := AppendAudit(CommitEvent(input));
      if !ok {
        return Failure(StorageError);
      }
      WritesMakeCommitted(begun, State(), input, requested, key);
      r := Success(CommitOutcome(input.operation, Some(DecisionFor(input.operation)), C.Succeeded, version + 1, false));
    }
  }

  lemma WritesMakeCommitted(begun: Db, after: Db, input: CommitInput, requested: C.Operation, key: VersionKey)
    requires input.business in begun.businesses && input.proposal in begun.proposals && key in begun.versions
    requires key == VersionKey(input.proposal, begun.proposals[input.proposal].current)
    requires begun.versions[key].org == input.org
    requires requested == C.Operation(input.operation, input.key, input.proposal, input.versionId, input.business,
                                      requested.expected, C.Requested)
    requires after.users == begun.users && after.goals == begun.goals && after.constraints == begun.constraints
    requires after.scenarios == begun.scenarios && after.proposals == begun.proposals
    requires after.approvals == begun.approvals
    requires var next, v := begun.businesses[input.business].version + 1, begun.versions[key].version;
             && after.decisions == begun.decisions[DecisionFor(input.operation) :=
                  DecisionRow(input.org, input.business, input.proposal, input.versionId, next, v.summary)]
             && after.businesses == begun.businesses[input.business :=
                                                       begun.businesses[input.business].(version := next)]
             && after.versions == begun.versions[key := VersionRow(input.org, v.(status := P.Committed))]
             && after.operations == begun.operations[IdempotencyKey(input.org, input.key) :=
                  OperationRow(requested.(status := C.Succeeded), Some(next))]
             && after.audits == begun.audits + [CommitEvent(input)]
    ensures after == Committed(begun, input, requested.expected)
  {
  }

  /** The commit does not check how many rows its status update changed; it is always exactly one. */
  lemma CommitMarksExactlyOneVersion(build: Build, db: Db, input: CommitInput, expected: Option<nat>, now: int)
    requires PrimaryKeys(db.versions, db.operations) && CommitApply(build, db, input, expected, now).Success?
    ensures |SelectedKeys(db.versions, input.org, input.versionId, P.Approved)| == 1
    ensures UpdatedStatus(db.versions, input.org, input.versionId, P.Approved, P.Committed)
         == CommitApply(build, db, input, expected, now).value.0.versions
  {
    hide LatestApproval, AuditIdUsed;
    var key := VersionKey(input.proposal, db.proposals[input.proposal].current);
    UpdateHitsOneRow(db.versions, db.operations, key, input.org, P.Approved, P.Committed);
  }

  lemma StatusKeepsIds(versions: map<VersionKey, VersionRow>, key: VersionKey, row: VersionRow, id: Id)
    requires key in versions && row.version.id == versions[key].version.id
    ensures VersionIdUsed(versions[key := row], id) == VersionIdUsed(versions, id)
  {
    var after := versions[key := row];
    forall k | k in versions ensures k in after && after[k].version.id == versions[k].version.id {
    }
  }

  lemma AcceptedIsApproved(build: Build, db: Db, input: CommitInput, v: P.Version, a: A.Decision, now: int)
    requires input.proposal in db.proposals && input.business in db.businesses
    requires C.Accepts(GuardInput(build, db, input, v, a, now))
    ensures v.status == P.Approved
  {
  }

  lemma CommitKeepsKeys(build: Build, db: Db, input: CommitInput, expected: Option<nat>, now: int)
    requires PrimaryKeys(db.versions, db.operations) && !OperationIdUsed(db.operations, input.operation)
    requires CommitApply(build, db, input, expected, now).Success?
    ensures var after := CommitApply(build, db, input, expected, now).value.0;
            PrimaryKeys(after.versions, after.operations)
  {
    hide C.Accepts, LatestApproval, AuditIdUsed, GuardInput;
  }

  lemma RevisionKeepsKeys(db: Db, actor: Actor, next: P.Proposal, expected: nat, request: string)
    requires PrimaryKeys(db.versions, db.operations) && SaveRevisionTx(db, actor, next, expected, request).Success?
    ensures var after := SaveRevisionTx(db, actor, next, expected, request).value;
            PrimaryKeys(after.versions, after.operations)
  {
  }

  /** The checks of a commit do not look at the operations. */
  lemma ChecksIgnoreOperations(build: Build, a: Db, b: Db, input: CommitInput)
    requires b == a.(operations := b.operations)
    ensures LatestApproval(a, input, |a.approvals|) == LatestApproval(b, input, |b.approvals|)
    ensures input.proposal in a.proposals && input.business in a.businesses ==>
              forall v, d, now :: GuardInput(build, a, input, v, d, now) == GuardInput(build, b, input, v, d, now)
  {
    SameApproval(a, b, input, |a.approvals|);
  }

  lemma {:induction false} SameApproval(a: Db, b: Db, input: CommitInput, n: nat)
    requires a.users == b.users && a.approvals == b.approvals && n <= |a.approvals|
    ensures LatestApproval(a, input, n) == LatestApproval(b, input, n)
  {
    if n > 0 {
      SameApproval(a, b, input, n - 1);
    }
  }
}
