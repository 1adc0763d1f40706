/** Each transaction, taken whole, keeps the invariants of the store. */
module Safety {
  import opened Core
  import opened Text
  import opened Database
  import opened Transactions
  import opened Workflow
  import opened Invariants
  import opened Preservation
  import S = Scenarios
  import P = Proposals
  import A = Approvals
  import C = Commits
  import Planning
  import Comparisons

  lemma AddConstraintKeepsInv(start: map<Id, nat>, db: Db, actor: Actor, goal: Id, constraint: Planning.Constraint,
                              request: string)
    requires DbInv(start, db)
    requires AddConstraintTx(db, actor, goal, constraint, request).Success?
    ensures DbInv(start, AddConstraintTx(db, actor, goal, constraint, request).value)
  {
    ConstraintKeepsConstraints(db, actor, goal, constraint, request);
    var after := AddConstraintTx(db, actor, goal, constraint, request).value;
    var e := after.audits[|db.audits|];
    assert after.audits == db.audits + [e];
    QuietEventKeepsAudit(db.operations, db.audits, e);
    OtherEventKeepsFold(db.proposals, db.versions, db.audits, e);
  }

  lemma ConstraintKeepsConstraints(db: Db, actor: Actor, goal: Id, constraint: Planning.Constraint, request: string)
    requires ConstraintInv(db.goals, db.constraints)
    requires AddConstraintTx(db, actor, goal, constraint, request).Success?
    ensures ConstraintInv(db.goals, AddConstraintTx(db, actor, goal, constraint, request).value.constraints)
  {
  }

  // ---- Scenarios ----

  lemma CreateScenarioKeepsInv(start: map<Id, nat>, db: Db, actor: Actor, candidate: S.Scenario, request: string)
    requires DbInv(start, db) && candidate.Valid()
    requires CreateScenarioTx(db, actor, candidate, request).Success?
    ensures DbInv(start, CreateScenarioTx(db, actor, candidate, request).value)
  {
    var after := CreateScenarioTx(db, actor, candidate, request).value;
    var e := after.audits[|db.audits|];
    assert after.audits == db.audits + [e];
    QuietEventKeepsAudit(db.operations, db.audits, e);
    OtherEventKeepsFold(db.proposals, db.versions, db.audits, e);
    NewScenarioKeepsScenarios(db.businesses, db.scenarios, after.scenarios[candidate.id]);
    ScenarioKeepsReferences(db.scenarios, db.proposals, db.versions, candidate.id, after.scenarios[candidate.id]);
    NewScenarioKeepsSound(db.scenarios, db.proposals, db.versions, db.approvals, candidate.id,
                          after.scenarios[candidate.id]);
  }

  lemma NewScenarioKeepsScenarios(businesses: map<Id, BusinessRow>, scenarios: map<Id, ScenarioRow>, row: ScenarioRow)
    requires ScenarioInv(businesses, scenarios)
    requires BasedOn(businesses, row.org, row.scenario.business, row.scenario.base)
    requires SimulatedSoundly(row.scenario)
    ensures ScenarioInv(businesses, scenarios[row.scenario.id := row])
  {
    var after := scenarios[row.scenario.id := row];
    forall s | s in after ensures SimulatedSoundly(after[s].scenario) && PlacedScenario(businesses, s, after[s]) {
      if s != row.scenario.id {
        assert SimulatedSoundly(scenarios[s].scenario) && PlacedScenario(businesses, s, scenarios[s]);
      }
    }
  }

  /** No version stands on a scenario that is new or still a draft. */
  lemma ScenarioKeepsReferences(scenarios: map<Id, ScenarioRow>, proposals: map<Id, ProposalRow>,
                                versions: map<VersionKey, VersionRow>, id: Id, row: ScenarioRow)
    requires ReferenceInv(scenarios, proposals, versions)
    requires id in scenarios ==> scenarios[id].scenario.status == S.Draft
    ensures ReferenceInv(scenarios[id := row], proposals, versions)
  {
    forall k | k in versions ensures versions[k].version.scenario != id {
      assert Grounded(scenarios, proposals, k, versions[k]);
    }
    var after := scenarios[id := row];
    forall k | k in versions ensures Grounded(after, proposals, k, versions[k]) {
      assert Grounded(scenarios, proposals, k, versions[k]);
    }
  }

  /** The simulated scenario is the stored draft but for what simulation writes. */
  predicate DraftOf(stored: S.Scenario, simulated: S.Scenario) {
    stored.(result := simulated.result, risks := simulated.risks, status := simulated.status,
            version := simulated.version) == simulated
  }

  lemma UpdateSimulationEffect(db: Db, actor: Actor, candidate: S.Scenario, expected: nat, request: string)
    requires UpdateSimulationTx(db, actor, candidate, expected, request).Success?
    requires candidate.id in db.scenarios && DraftOf(db.scenarios[candidate.id].scenario, candidate)
    ensures var e := AuditEvent(ScenarioSimulatedAudit(candidate.id, candidate.version), actor.org, actor.id,
                                ScenarioSimulated, ScenarioAggregate, candidate.id, request, None,
                                ScenarioAt(candidate.version, candidate.base));
            && UpdateSimulationTx(db, actor, candidate, expected, request).value
               == db.(scenarios := db.scenarios[candidate.id := ScenarioRow(actor.org, candidate)],
                      audits := db.audits + [e])
            && !AuditIdUsed(db.audits, e.id)
    ensures db.scenarios[candidate.id].org == actor.org && db.scenarios[candidate.id].scenario.status == S.Draft
    ensures candidate.status == S.Simulated && SoundScenario(ScenarioRow(actor.org, candidate))
    ensures db.scenarios[candidate.id].scenario.version + 1 == candidate.version
    ensures candidate.business in db.businesses && db.businesses[candidate.business].version == candidate.base
  {
  }

  lemma UpdateSimulationKeepsInv(start: map<Id, nat>, db: Db, actor: Actor, candidate: S.Scenario, expected: nat,
                                 request: string)
    requires DbInv(start, db)
    requires Comparisons.Justified(candidate) && candidate.result.calculated
    requires UpdateSimulationTx(db, actor, candidate, expected, request).Success?
    requires candidate.id in db.scenarios && DraftOf(db.scenarios[candidate.id].scenario, candidate)
    ensures DbInv(start, UpdateSimulationTx(db, actor, candidate, expected, request).value)
  {
    UpdateSimulationEffect(db, actor, candidate, expected, request);
    var e := AuditEvent(ScenarioSimulatedAudit(candidate.id, candidate.version), actor.org, actor.id, ScenarioSimulated,
                        ScenarioAggregate, candidate.id, request, None, ScenarioAt(candidate.version, candidate.base));
    assert SimulatedSoundly(db.scenarios[candidate.id].scenario);
    SimulationSaved(start, db, ScenarioRow(actor.org, candidate), e);
  }

  lemma SimulationSaved(start: map<Id, nat>, db: Db, row: ScenarioRow, e: AuditEvent)
    requires DbInv(start, db)
    requires var id := row.scenario.id;
             && id in db.scenarios && db.scenarios[id].org == row.org && db.scenarios[id].scenario.status == S.Draft
             && DraftOf(db.scenarios[id].scenario, row.scenario)
    requires row.scenario.status == S.Simulated && row.scenario.version == 2 && row.scenario.result.calculated
    requires Comparisons.Justified(row.scenario) && SoundScenario(row)
    requires !AuditIdUsed(db.audits, e.id) && e.action != CommitExecuted && !e.id.CommitAudit?
    requires forall q :: !Concerns(e, q)
    ensures DbInv(start, db.(scenarios := db.scenarios[row.scenario.id := row], audits := db.audits + [e]))
  {
    var id := row.scenario.id;
    assert PlacedScenario(db.businesses, id, db.scenarios[id]);
    assert SimulatedSoundly(row.scenario);
    QuietEventKeepsAudit(db.operations, db.audits, e);
    OtherEventKeepsFold(db.proposals, db.versions, db.audits, e);
    NewScenarioKeepsScenarios(db.businesses, db.scenarios, row);
    ScenarioKeepsReferences(db.scenarios, db.proposals, db.versions, id, row);
    NewScenarioKeepsSound(db.scenarios, db.proposals, db.versions, db.approvals, id, row);
  }

  // ---- Status changes ----

  /** A status change of a current version, once approvals, decisions and the log are seen to. */
  lemma StatusStep(start: map<Id, nat>, db: Db, after: Db, k: VersionKey, status: P.Status, e: AuditEvent)
    requires DbInv(start, db)
    requires k in db.versions && k.proposal in db.proposals && k.number == db.proposals[k.proposal].current
    requires status != P.Superseded && StepsLeft(status) < StepsLeft(db.versions[k].version.status)
    requires after == db.(versions := SetStatus(db.versions, k, status), approvals := after.approvals,
                          audits := db.audits + [e])
    requires Reports(e, k.proposal, status) && !AuditIdUsed(db.audits, e.id) && e.action != CommitExecuted
    requires !e.id.CommitAudit?
    requires SoundInv(after.scenarios, after.proposals, after.versions, after.approvals)
    requires ApprovalInv(after.users, after.proposals, after.versions, after.approvals)
    requires DecisionInv(after.proposals, after.versions, after.decisions)
    ensures DbInv(start, after)
  {
    StatusKeepsNumbering(db.proposals, db.versions, k, status);
    StatusKeepsReferences(db.scenarios, db.proposals, db.versions, k, status);
    StatusKeepsChain(db.versions, k, status);
    StatusEventKeepsFold(db.proposals, db.versions, db.audits, k, status, e);
    QuietEventKeepsAudit(db.operations, db.audits, e);
  }

  /** A draft version is always the current one, although the update never asks for it. */
  lemma DraftIsCurrent(proposals: map<Id, ProposalRow>, versions: map<VersionKey, VersionRow>, k: VersionKey)
    requires NumberingInv(proposals, versions)
    requires k in versions && versions[k].version.status != P.Superseded
    ensures k.proposal in proposals && k.number == proposals[k.proposal].current
  {
    assert NumberedRow(proposals, k, versions[k]);
  }

  lemma SubmitReviewEffect(db: Db, actor: Actor, proposal: Id, expected: nat, request: string)
    requires SubmitReviewTx(db, actor, proposal, expected, request).Success?
    ensures var k := VersionKey(proposal, expected);
            var e := ProposalEvent(actor, proposal, ProposalSubmitted, request, SubmittedVersion(expected));
            && k in db.versions && db.versions[k].version.status == P.Draft
            && SubmitReviewTx(db, actor, proposal, expected, request).value
               == db.(versions := SetStatus(db.versions, k, P.InReview), audits := db.audits + [e])
            && Reports(e, proposal, P.InReview) && !AuditIdUsed(db.audits, e.id)
  {
  }

  lemma SubmitReviewKeepsInv(start: map<Id, nat>, db: Db, actor: Actor, proposal: Id, expected: nat, request: string)
    requires DbInv(start, db)
    requires SubmitReviewTx(db, actor, proposal, expected, request).Success?
    ensures DbInv(start, SubmitReviewTx(db, actor, proposal, expected, request).value)
    ensures proposal in db.proposals && expected == db.proposals[proposal].current
  {
    var k := VersionKey(proposal, expected);
    var e := ProposalEvent(actor, proposal, ProposalSubmitted, request, SubmittedVersion(expected));
    SubmitReviewEffect(db, actor, proposal, expected, request);
    SubmittedKeepsInv(start, db, k, e);
  }

  lemma SubmittedKeepsInv(start: map<Id, nat>, db: Db, k: VersionKey, e: AuditEvent)
    requires DbInv(start, db)
    requires k in db.versions && db.versions[k].version.status == P.Draft
    requires Reports(e, k.proposal, P.InReview) && !AuditIdUsed(db.audits, e.id) && e.action != CommitExecuted
    requires !e.id.CommitAudit?
    ensures DbInv(start, db.(versions := SetStatus(db.versions, k, P.InReview), audits := db.audits + [e]))
    ensures k.proposal in db.proposals && k.number == db.proposals[k.proposal].current
  {
    hide NumberingInv, ScenarioInv, ReferenceInv, SoundInv, ChainInv, ApprovalInv;
    hide OperationInv, DecisionInv, HistoryInv, FoldInv, AuditInv;
    var versions' := SetStatus(db.versions, k, P.InReview);
    DraftIsCurrent(db.proposals, db.versions, k);
    StatusKeepsSound(db.scenarios, db.proposals, db.versions, db.approvals, k, P.InReview);
    UndecidedKeepsApprovals(db.users, db.proposals, db.versions, db.approvals, db.proposals, versions');
    UncommittedKeepsDecisions(db.proposals, db.versions, db.decisions, db.proposals, versions');
    StatusStep(start, db, db.(versions := versions', audits := db.audits + [e]), k, P.InReview, e);
  }

  lemma RecordDecisionEffect(db: Db, org: Id, d: A.Decision, createdAt: int, request: string)
    requires RecordDecisionTx(db, org, d, createdAt, request).Success?
    ensures d.proposal in db.proposals && StatusOf(d.status).Some?
    ensures var k := VersionKey(d.proposal, db.proposals[d.proposal].current);
            var status := StatusOf(d.status).value;
            var e := DecisionEvent(org, d, request);
            && k in db.versions && db.versions[k].version.status == P.InReview
            && d.business in db.businesses && db.versions[k].version.base == db.businesses[d.business].version
            && RecordDecisionTx(db, org, d, createdAt, request).value
               == db.(approvals := db.approvals + [ApprovalRow(org, createdAt, d)],
                      versions := SetStatus(db.versions, k, status), audits := db.audits + [e])
            && (d.Valid(0) ==>
                  Records(db.users, db.proposals, ApprovalRow(org, createdAt, d), k,
                          SetStatus(db.versions, k, status)[k]))
            && Reports(e, d.proposal, status) && !AuditIdUsed(db.audits, e.id)
  {
  }

  lemma RecordDecisionKeepsInv(start: map<Id, nat>, db: Db, org: Id, d: A.Decision, createdAt: int, request: string)
    requires DbInv(start, db) && d.Valid(0)
    requires RecordDecisionTx(db, org, d, createdAt, request).Success?
    ensures DbInv(start, RecordDecisionTx(db, org, d, createdAt, request).value)
  {
    RecordDecisionEffect(db, org, d, createdAt, request);
    var k := VersionKey(d.proposal, db.proposals[d.proposal].current);
    DecidedKeepsInv(start, db, k, StatusOf(d.status).value, ApprovalRow(org, createdAt, d),
                    DecisionEvent(org, d, request));
  }

  lemma DecidedKeepsInv(start: map<Id, nat>, db: Db, k: VersionKey, status: P.Status, a: ApprovalRow, e: AuditEvent)
    requires DbInv(start, db)
    requires k in db.versions && db.versions[k].version.status == P.InReview
    requires status == P.Approved || status == P.Rejected
    requires Records(db.users, db.proposals, a, k, SetStatus(db.versions, k, status)[k]) && SoundApproval(a)
    requires Reports(e, k.proposal, status) && !AuditIdUsed(db.audits, e.id) && e.action != CommitExecuted
    requires !e.id.CommitAudit?
    ensures DbInv(start,
                  db.(approvals := db.approvals + [a], versions := SetStatus(db.versions, k, status),
                      audits := db.audits + [e]))
  {
    hide NumberingInv, ScenarioInv, ReferenceInv, SoundInv, ChainInv, ApprovalInv;
    hide OperationInv, DecisionInv, HistoryInv, FoldInv, AuditInv;
    var versions' := SetStatus(db.versions, k, status);
    DraftIsCurrent(db.proposals, db.versions, k);
    StatusKeepsSound(db.scenarios, db.proposals, db.versions, db.approvals, k, status);
    NewApprovalKeepsSound(db.scenarios, db.proposals, versions', db.approvals, a);
    DecisionKeepsApprovals(db.users, db.proposals, db.versions, db.approvals, k, status, a);
    UncommittedKeepsDecisions(db.proposals, db.versions, db.decisions, db.proposals, versions');
    StatusStep(start, db, db.(approvals := db.approvals + [a], versions := versions', audits := db.audits + [e]), k,
               status, e);
  }

  // ---- Proposals ----

  /** A new proposal with its first version. */
  lemma ProposedKeepsInv(start: map<Id, nat>, db: Db, p: Id, row: ProposalRow, first: VersionRow, e: AuditEvent)
    requires DbInv(start, db)
    requires p !in db.proposals && row.current == 1 && first.org == row.org
    requires first.version.proposal == p && first.version.number == 1 && first.version.status == P.Draft
    requires !VersionIdUsed(db.versions, first.version.id)
    requires Grounded(db.scenarios, db.proposals[p := row], VersionKey(p, 1), first)
    requires SoundProposal(p, row) && SoundVersion(first) && GoodSummary(VersionKey(p, 1), first.version)
    requires Concerns(e, p) && (forall q :: Concerns(e, q) ==> q == p)
    requires ApplyEvent(None, e, p) == Some(Life(1, first.version.id, P.Draft))
    requires !AuditIdUsed(db.audits, e.id) && e.action != CommitExecuted && !e.id.CommitAudit?
    ensures DbInv(start, db.(proposals := db.proposals[p := row], versions := db.versions[VersionKey(p, 1) := first],
                             audits := db.audits + [e]))
  {
    hide NumberingInv, ScenarioInv, ReferenceInv, SoundInv, ChainInv, ApprovalInv;
    hide OperationInv, DecisionInv, HistoryInv, FoldInv, AuditInv;
    var key := VersionKey(p, 1);
    var proposals', versions' := db.proposals[p := row], db.versions[key := first];
    FreshKey(db.proposals, db.versions, key);
    NewProposalKeepsNumbering(db.proposals, db.versions, p, row, first);
    NewProposalKeepsReferences(db.scenarios, db.proposals, db.versions, p, row, first);
    NewProposalKeepsChain(db.proposals, db.versions, p, first);
    NewRowsKeepSound(db.scenarios, db.proposals, db.versions, db.approvals, p, row, key, first);
    UndecidedKeepsApprovals(db.users, db.proposals, db.versions, db.approvals, proposals', versions');
    UncommittedKeepsDecisions(db.proposals, db.versions, db.decisions, proposals', versions');
    QuietEventKeepsAudit(db.operations, db.audits, e);
    NewProposalKeepsFold(db.proposals, db.versions, db.audits, p, row, first, e);
  }

  lemma FreshKey(proposals: map<Id, ProposalRow>, versions: map<VersionKey, VersionRow>, k: VersionKey)
    requires NumberingInv(proposals, versions)
    requires k.proposal !in proposals || k.number > proposals[k.proposal].current
    ensures k !in versions
  {
    assert k in versions ==> NumberedRow(proposals, k, versions[k]);
  }

  lemma NewProposalKeepsFold(proposals: map<Id, ProposalRow>, versions: map<VersionKey, VersionRow>,
                             audits: seq<AuditEvent>,
                             p: Id, row: ProposalRow, first: VersionRow, e: AuditEvent)
    requires NumberingInv(proposals, versions) && FoldInv(proposals, versions, audits)
    requires p !in proposals && row.current == 1 && first.version.status == P.Draft
    requires Concerns(e, p) && (forall q :: Concerns(e, q) ==> q == p)
    requires ApplyEvent(None, e, p) == Some(Life(1, first.version.id, P.Draft))
    ensures FoldInv(proposals[p := row], versions[VersionKey(p, 1) := first], audits + [e])
  {
    assert FoldAudit(audits, p) == None;
    EventKeepsFold(proposals, versions, audits, proposals[p := row], versions[VersionKey(p, 1) := first], e, p);
  }

  lemma CreateProposalEffect(db: Db, args: CreateArgs, scenario: S.Scenario, first: P.Proposal)
    requires ValidCreate(args) && PlanProposal(args, scenario, first.id, first.current.id) == Success(first)
    requires scenario.id in db.scenarios && db.scenarios[scenario.id].scenario == scenario
    requires scenario.status == S.Simulated
    requires CreateProposalTx(db, args.actor, first, args.request).Success?
    ensures var row := ProposalRow(args.actor.org, first.business, first.goal, 1);
            var version := VersionRow(args.actor.org, first.current);
            var e := ProposalEvent(args.actor, first.id, ProposalCreated, args.request,
                                   CreatedVersion(first.current.id));
            && CreateProposalTx(db, args.actor, first, args.request).value
               == db.(proposals := db.proposals[first.id := row],
                      versions := db.versions[VersionKey(first.id, 1) := version], audits := db.audits + [e])
            && first.id !in db.proposals && !VersionIdUsed(db.versions, first.current.id)
            && !AuditIdUsed(db.audits, e.id)
            && Grounded(db.scenarios, db.proposals[first.id := row], VersionKey(first.id, 1), version)
            && SoundProposal(first.id, row) && SoundVersion(version)
            && GoodSummary(VersionKey(first.id, 1), first.current)
            && first.current.proposal == first.id && first.current.number == 1 && first.current.status == P.Draft
  {
    TrimSpaceTrims(args.summary);
  }

  lemma CreateProposalKeepsInv(start: map<Id, nat>, db: Db, args: CreateArgs, scenario: S.Scenario, first: P.Proposal)
    requires DbInv(start, db) && ValidCreate(args)
    requires PlanProposal(args, scenario, first.id, first.current.id) == Success(first)
    requires scenario.id in db.scenarios && db.scenarios[scenario.id].scenario == scenario
    requires scenario.status == S.Simulated
    requires CreateProposalTx(db, args.actor, first, args.request).Success?
    ensures DbInv(start, CreateProposalTx(db, args.actor, first, args.request).value)
  {
    hide DbInv, CreateProposalTx, PlanProposal, Grounded, GoodSummary, SoundVersion, SoundProposal, ValidCreate;
    CreateProposalEffect(db, args, scenario, first);
    var e := ProposalEvent(args.actor, first.id, ProposalCreated, args.request, CreatedVersion(first.current.id));
    ProposedKeepsInv(start, db, first.id, ProposalRow(args.actor.org, first.business, first.goal, 1),
                     VersionRow(args.actor.org, first.current), e);
  }

  // ---- Revisions ----

  /** `view` shows the version row it was read from, up to that row's status. */
  ghost predicate Shows(db: Db, org: Id, view: P.Proposal) {
    && SeesProposal(db, org, view.id)
    && db.proposals[view.id].business == view.business && db.proposals[view.id].goal == view.goal
    && view.current.number >= 1 && view.version == view.current.number && view.Valid()
    && var k := VersionKey(view.id, view.current.number);
       && k in db.versions
       && db.versions[k].version.(status := view.current.status) == view.current
  }

  lemma PlannedRevisionRevises(args: ReviseArgs, view: P.Proposal, next: P.Proposal)
    requires ValidRevise(args) && PlanRevision(args, view, next.current.id) == Success(next)
    requires GoodSummary(VersionKey(view.id, view.current.number), view.current) && view.current.number >= 1
    ensures Revises(view.current, next.current)
    ensures GoodSummary(After(VersionKey(view.id, view.current.number)), next.current)
  {
    var feedback := TrimSpace(args.feedback);
    TrimSpaceTrims(args.feedback);
    assert |REVISION_MARK| == MARK_LENGTH;
    TrimSpaceKeepsJoined(view.current.summary, REVISION_MARK, feedback);
    assert next.current.changes == view.current.changes + [P.HumanFeedback(view.id, feedback)];
  }

  lemma SaveRevisionEffect(db: Db, args: ReviseArgs, view: P.Proposal, next: P.Proposal)
    requires ValidRevise(args) && PlanRevision(args, view, next.current.id) == Success(next)
    requires SaveRevisionTx(db, args.actor, next, view.current.number, args.request).Success?
    ensures var k := VersionKey(view.id, view.current.number);
            var version := VersionRow(args.actor.org, next.current);
            var e := ProposalEvent(args.actor, view.id, ProposalRevised, args.request,
                                   RevisedVersion(next.current.id, view.current.number));
            && next.id == view.id && view.id in db.proposals && db.proposals[view.id].current == view.current.number
            && k in db.versions && db.versions[k].org == args.actor.org && db.versions[k].version.status == P.Draft
            && SaveRevisionTx(db, args.actor, next, view.current.number, args.request).value
               == db.(versions := Superseding(db.versions, k, version),
                      proposals := db.proposals[view.id := db.proposals[view.id].(current := k.number + 1)],
                      audits := db.audits + [e])
            && !VersionIdUsed(db.versions, next.current.id) && !AuditIdUsed(db.audits, e.id)
            && next.current.proposal == view.id && next.current.number == k.number + 1 && next.current.status == P.Draft
            && SoundVersion(version)
  {
  }

  lemma RevisionEventApplies(actor: Actor, p: Id, request: string, versionId: Id, superseded: nat)
    ensures var e := ProposalEvent(actor, p, ProposalRevised, request, RevisedVersion(versionId, superseded));
            && Concerns(e, p) && (forall q :: Concerns(e, q) ==> q == p)
            && (forall life: Life :: ApplyEvent(Some(life), e, p) == Some(Life(life.number + 1, versionId, P.Draft)))
  {
  }

  lemma SaveRevisionKeepsInv(start: map<Id, nat>, db: Db, args: ReviseArgs, view: P.Proposal, next: P.Proposal)
    requires DbInv(start, db) && ValidRevise(args) && Shows(db, args.actor.org, view)
    requires PlanRevision(args, view, next.current.id) == Success(next)
    requires SaveRevisionTx(db, args.actor, next, view.current.number, args.request).Success?
    ensures DbInv(start, SaveRevisionTx(db, args.actor, next, view.current.number, args.request).value)
  {
    hide SaveRevisionTx, PlanRevision, ApplyEvent, Concerns, Revises, NumberingInv, ScenarioInv, ReferenceInv;
    hide SoundInv, ApprovalInv;
    hide OperationInv, DecisionInv, HistoryInv, FoldInv, AuditInv;
    var k := VersionKey(view.id, view.current.number);
    SaveRevisionEffect(db, args, view, next);
    assert GoodSummary(k, db.versions[k].version);
    PlannedRevisionRevises(args, view, next);
    var e := ProposalEvent(args.actor, view.id, ProposalRevised, args.request,
                           RevisedVersion(next.current.id, view.current.number));
    RevisionEventApplies(args.actor, view.id, args.request, next.current.id, view.current.number);
    RevisedKeepsInv(start, db, k, VersionRow(args.actor.org, next.current), e);
  }

  lemma RevisedKeepsInv(start: map<Id, nat>, db: Db, k: VersionKey, next: VersionRow, e: AuditEvent)
    requires DbInv(start, db)
    requires k in db.versions && db.versions[k].version.status == P.Draft && k.proposal in db.proposals
    requires next.org == db.versions[k].org && next.version.proposal == k.proposal
    requires next.version.number == k.number + 1
    requires next.version.status == P.Draft && !VersionIdUsed(db.versions, next.version.id)
    requires Revises(db.versions[k].version, next.version) && GoodSummary(After(k), next.version) && SoundVersion(next)
    requires Concerns(e, k.proposal) && (forall q :: Concerns(e, q) ==> q == k.proposal)
    requires forall life: Life ::
               ApplyEvent(Some(life), e, k.proposal) == Some(Life(life.number + 1, next.version.id, P.Draft))
    requires !AuditIdUsed(db.audits, e.id) && e.action != CommitExecuted && !e.id.CommitAudit?
    ensures var row := db.proposals[k.proposal].(current := k.number + 1);
            DbInv(start, db.(versions := Superseding(db.versions, k, next),
                             proposals := db.proposals[k.proposal := row], audits := db.audits + [e]))
  {
    var row := db.proposals[k.proposal].(current := k.number + 1);
    var proposals', versions' := db.proposals[k.proposal := row], Superseding(db.versions, k, next);
    DraftIsCurrent(db.proposals, db.versions, k);
    RevisedKeepsVersions(start, db, k, next);
    RevisedKeepsRecords(start, db, k, next);
    QuietEventKeepsAudit(db.operations, db.audits, e);
    RevisionKeepsFold(db.proposals, db.versions, db.audits, k, next, e);
  }

  lemma RevisedKeepsRecords(start: map<Id, nat>, db: Db, k: VersionKey, next: VersionRow)
    requires DbInv(start, db)
    requires k in db.versions && k.proposal in db.proposals && k.number == db.proposals[k.proposal].current
    requires db.versions[k].version.status == P.Draft && next.version.status == P.Draft
    ensures var proposals' := db.proposals[k.proposal := db.proposals[k.proposal].(current := k.number + 1)];
            var versions' := Superseding(db.versions, k, next);
            && ApprovalInv(db.users, proposals', versions', db.approvals)
            && DecisionInv(proposals', versions', db.decisions)
  {
    hide ScenarioInv, ReferenceInv, SoundInv, ChainInv, OperationInv, HistoryInv, FoldInv, AuditInv, ApprovalInv;
    hide DecisionInv;
    var proposals' := db.proposals[k.proposal := db.proposals[k.proposal].(current := k.number + 1)];
    var versions' := Superseding(db.versions, k, next);
    RevisionHasNoFollower(db.proposals, db.versions, k);
    UndecidedKeepsApprovals(db.users, db.proposals, db.versions, db.approvals, proposals', versions');
    UncommittedKeepsDecisions(db.proposals, db.versions, db.decisions, proposals', versions');
  }

  lemma RevisedKeepsVersions(start: map<Id, nat>, db: Db, k: VersionKey, next: VersionRow)
    requires DbInv(start, db)
    requires k in db.versions && k.proposal in db.proposals && k.number == db.proposals[k.proposal].current
    requires next.org == db.versions[k].org && next.version.proposal == k.proposal
    requires next.version.number == k.number + 1
    requires next.version.status == P.Draft && !VersionIdUsed(db.versions, next.version.id)
    requires Revises(db.versions[k].version, next.version) && GoodSummary(After(k), next.version) && SoundVersion(next)
    ensures var proposals' := db.proposals[k.proposal := db.proposals[k.proposal].(current := k.number + 1)];
            var versions' := Superseding(db.versions, k, next);
            && NumberingInv(proposals', versions') && ReferenceInv(db.scenarios, proposals', versions')
            && ChainInv(versions') && SoundInv(db.scenarios, proposals', versions', db.approvals)
  {
    hide ScenarioInv, ReferenceInv, SoundInv, ChainInv, ApprovalInv, OperationInv, DecisionInv, HistoryInv, FoldInv;
    hide AuditInv;
    var row := db.proposals[k.proposal].(current := k.number + 1);
    RevisionKeepsNumbering(db.proposals, db.versions, k, next);
    RevisionKeepsReferences(db.scenarios, db.proposals, db.versions, k, next, k.number + 1);
    RevisionHasNoFollower(db.proposals, db.versions, k);
    RevisionKeepsChain(db.versions, k, next);
    StatusKeepsSound(db.scenarios, db.proposals, db.versions, db.approvals, k, P.Superseded);
    assert SoundProposal(k.proposal, db.proposals[k.proposal]);
    NewRowsKeepSound(db.scenarios, db.proposals, SetStatus(db.versions, k, P.Superseded), db.approvals,
                     k.proposal, row, After(k), next);
  }

  lemma RevisionHasNoFollower(proposals: map<Id, ProposalRow>, versions: map<VersionKey, VersionRow>, k: VersionKey)
    requires NumberingInv(proposals, versions)
    requires k.proposal in proposals && k.number == proposals[k.proposal].current
    ensures After(k) !in versions && forall l :: l in versions ==> !Follows(After(k), l)
  {
    FreshKey(proposals, versions, After(k));
    FreshKey(proposals, versions, After(After(k)));
  }

  lemma RevisionKeepsFold(proposals: map<Id, ProposalRow>, versions: map<VersionKey, VersionRow>,
                          audits: seq<AuditEvent>,
                          k: VersionKey, next: VersionRow, e: AuditEvent)
    requires NumberingInv(proposals, versions) && FoldInv(proposals, versions, audits)
    requires k in versions && k.proposal in proposals && k.number == proposals[k.proposal].current
    requires next.version.status == P.Draft && versions[k].version.status == P.Draft
    requires Concerns(e, k.proposal) && (forall q :: Concerns(e, q) ==> q == k.proposal)
    requires forall life: Life ::
               ApplyEvent(Some(life), e, k.proposal) == Some(Life(life.number + 1, next.version.id, P.Draft))
    ensures FoldInv(proposals[k.proposal := proposals[k.proposal].(current := k.number + 1)],
                    Superseding(versions, k, next), audits + [e])
  {
    var p, versions' := k.proposal, Superseding(versions, k, next);
    var proposals' := proposals[p := proposals[p].(current := k.number + 1)];
    assert LifeIs(proposals, versions, p, FoldAudit(audits, p));
    var life := FoldAudit(audits, p).value;
    assert ApplyEvent(Some(life), e, p) == Some(Life(life.number + 1, next.version.id, P.Draft));
    assert LifeIs(proposals', versions', p, ApplyEvent(Some(life), e, p));
    OthersUntouched(proposals, versions, p);
    EventKeepsFold(proposals, versions, audits, proposals', versions', e, p);
  }

  // ---- Commits ----

  /** The current version of another proposal has a key of its own. */
  lemma OthersUntouched(proposals: map<Id, ProposalRow>, versions: map<VersionKey, VersionRow>, p: Id)
    requires NumberingInv(proposals, versions)
    ensures forall q :: q in proposals && q != p ==> VersionKey(q, proposals[q].current) in versions
  {
  }

  /** The named version, if it belongs to the named business. */
  predicate Targets(db: Db, input: CommitInput, k: VersionKey) {
    && k in db.versions && k.proposal in db.proposals
    && db.versions[k].version.id == input.versionId && db.proposals[k.proposal].business == input.business
  }

  /** A row with the named version id, whose base the reserved version has reached. */
  ghost predicate Referenced(db: Db, input: CommitInput, expected: nat) {
    exists k :: k in db.versions && db.versions[k].version.id == input.versionId
                && (Targets(db, input, k) ==> db.versions[k].version.base <= expected)
  }

  /** What an operation row inserted earlier in the same transaction still guarantees:
      nobody else took its key or its id, the foreign key to the version row holds, and
      the business version read without a lock was real. */
  ghost predicate Reserved(db: Db, input: CommitInput, expected: Option<nat>) {
    && IdempotencyKey(input.org, input.key) !in db.operations
    && !OperationIdUsed(db.operations, input.operation)
    && (expected.Some? ==>
          && SeesBusiness(db, input.org, input.business)
          && expected.value <= db.businesses[input.business].version
          && Referenced(db, input, expected.value))
  }

  /** The store and the input at the moment a commit is written. */
  ghost predicate Committable(db: Db, input: CommitInput) {
    && SeesBusiness(db, input.org, input.business)
    && IsCurrent(db, input.org, input.business, input.proposal, input.versionId)
    && (var v := db.versions[VersionKey(input.proposal, db.proposals[input.proposal].current)].version;
        v.status == P.Approved && v.base == db.businesses[input.business].version)
    && IdempotencyKey(input.org, input.key) !in db.operations && !OperationIdUsed(db.operations, input.operation)
    && DecisionFor(input.operation) !in db.decisions && !AuditIdUsed(db.audits, CommitAudit(input.operation))
  }

  /** What a commit that succeeds has found, and what it writes. */
  lemma CommitApplyEffect(build: Build, db: Db, input: CommitInput, expected: Option<nat>, now: int)
    requires CommitApply(build, db, input, expected, now).Success?
    ensures expected.Some? && SeesBusiness(db, input.org, input.business)
    ensures SeesUser(db, input.org, input.actor) && CanDecide(db.users[input.actor].role)
    ensures IsCurrent(db, input.org, input.business, input.proposal, input.versionId)
    ensures var v := db.versions[VersionKey(input.proposal, db.proposals[input.proposal].current)].version;
            v.status == P.Approved && v.base == db.businesses[input.business].version
    ensures DecisionFor(input.operation) !in db.decisions && !AuditIdUsed(db.audits, CommitAudit(input.operation))
    ensures CommitApply(build, db, input, expected, now).value
         == (Committed(db, input, expected.value),
             CommitOutcome(input.operation, Some(DecisionFor(input.operation)), C.Succeeded,
                           db.businesses[input.business].version + 1, false))
  {
    hide LatestApproval;
  }

  /** The reserved, the locked and the committed version agree although other
      transactions ran between the reservation and the lock. */
  lemma ReservedVersionIsLocked(build: Build, db: Db, input: CommitInput, expected: Option<nat>, now: int)
    requires NumberingInv(db.proposals, db.versions) && Reserved(db, input, expected)
    requires CommitApply(build, db, input, expected, now).Success?
    ensures Committable(db, input)
    ensures expected == Some(db.businesses[input.business].version)
    ensures var (after, outcome) := CommitApply(build, db, input, expected, now).value;
            && after == Committed(db, input, expected.value)
            && outcome.committed == expected.value + 1 == after.businesses[input.business].version
  {
    hide CommitApply, AuditIdUsed, OperationIdUsed;
    CommitApplyEffect(build, db, input, expected, now);
    var k := VersionKey(input.proposal, db.proposals[input.proposal].current);
    assert Targets(db, input, k);
    var l :| l in db.versions && db.versions[l].version.id == input.versionId
             && (Targets(db, input, l) ==> db.versions[l].version.base <= expected.value);
    assert l == k;
  }

  lemma CommittedKeepsInv(start: map<Id, nat>, db: Db, input: CommitInput, after: Db)
    requires DbInv(start, db) && Committable(db, input)
    requires after == Committed(db, input, db.businesses[input.business].version)
    ensures DbInv(start, after)
  {
    CommittedKeepsVersions(start, db, input, after);
    CommittedKeepsRecords(start, db, input, after);
  }

  lemma CommitEventReports(input: CommitInput)
    ensures Reports(CommitEvent(input), input.proposal, P.Committed)
  {
  }

  lemma CommittedKeepsVersions(start: map<Id, nat>, db: Db, input: CommitInput, after: Db)
    requires DbInv(start, db) && Committable(db, input)
    requires after == Committed(db, input, db.businesses[input.business].version)
    ensures NumberingInv(after.proposals, after.versions)
    ensures ReferenceInv(after.scenarios, after.proposals, after.versions)
    ensures ChainInv(after.versions) && SoundInv(after.scenarios, after.proposals, after.versions, after.approvals)
    ensures ApprovalInv(after.users, after.proposals, after.versions, after.approvals)
    ensures FoldInv(after.proposals, after.versions, after.audits)
  {
    hide NumberingInv, ScenarioInv, ReferenceInv, SoundInv, ChainInv, ApprovalInv;
    hide OperationInv, DecisionInv, HistoryInv, FoldInv, AuditInv;
    var k := VersionKey(input.proposal, db.proposals[input.proposal].current);
    assert after.versions == SetStatus(db.versions, k, P.Committed);
    StatusKeepsNumbering(db.proposals, db.versions, k, P.Committed);
    StatusKeepsReferences(db.scenarios, db.proposals, db.versions, k, P.Committed);
    StatusKeepsChain(db.versions, k, P.Committed);
    StatusKeepsSound(db.scenarios, db.proposals, db.versions, db.approvals, k, P.Committed);
    CommitKeepsApprovals(db.users, db.proposals, db.versions, db.approvals, k);
    CommitEventReports(input);
    StatusEventKeepsFold(db.proposals, db.versions, db.audits, k, P.Committed, CommitEvent(input));
  }

  lemma CommittedKeepsRecords(start: map<Id, nat>, db: Db, input: CommitInput, after: Db)
    requires DbInv(start, db) && Committable(db, input)
    requires after == Committed(db, input, db.businesses[input.business].version)
    ensures OperationInv(after.operations, after.decisions)
    ensures DecisionInv(after.proposals, after.versions, after.decisions)
    ensures HistoryInv(start, after.businesses, after.decisions) && AuditInv(after.operations, after.audits)
    ensures ScenarioInv(after.businesses, after.scenarios)
  {
    hide NumberingInv, ScenarioInv, ReferenceInv, SoundInv, ChainInv, ApprovalInv;
    hide OperationInv, DecisionInv, HistoryInv, FoldInv, AuditInv;
    BumpKeepsScenarios(db.businesses, db.scenarios, input.business);
    var k := VersionKey(input.proposal, db.proposals[input.proposal].current);
    var ik, d := IdempotencyKey(input.org, input.key), DecisionFor(input.operation);
    CommitKeepsDecisions(db.proposals, db.versions, db.decisions, k, d, after.decisions[d]);
    CommitKeepsOperations(db.operations, db.decisions, ik, after.operations[ik], after.decisions[d]);
    CommitKeepsHistory(start, db.businesses, db.decisions, d, after.decisions[d]);
    CommitEventKeepsAudit(db.operations, db.audits, ik, after.operations[ik], CommitEvent(input));
  }

  lemma BumpKeepsScenarios(businesses: map<Id, BusinessRow>, scenarios: map<Id, ScenarioRow>, b: Id)
    requires ScenarioInv(businesses, scenarios) && b in businesses
    ensures ScenarioInv(businesses[b := businesses[b].(version := businesses[b].version + 1)], scenarios)
  {
    var after := businesses[b := businesses[b].(version := businesses[b].version + 1)];
    forall s | s in scenarios ensures PlacedScenario(after, s, scenarios[s]) {
      assert PlacedScenario(businesses, s, scenarios[s]);
    }
  }
}
