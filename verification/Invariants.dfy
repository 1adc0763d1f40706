/** What every reachable store looks like, table by table. */
module Invariants {
  import opened Core
  import opened Text
  import opened Database
  import opened Workflow
  import S = Scenarios
  import P = Proposals
  import C = Commits
  import Comparisons

  const MAX_VERSIONS := 417
  const MAX_EVENTS := 420

  // ---- Versions are numbered without gaps and superseded exactly below the current one ----

  ghost predicate NumberedRow(proposals: map<Id, ProposalRow>, k: VersionKey, row: VersionRow) {
    && k.proposal in proposals
    && 1 <= k.number <= proposals[k.proposal].current
    && row.org == proposals[k.proposal].org
    && row.version.proposal == k.proposal && row.version.number == k.number
    && (row.version.status == P.Superseded <==> k.number < proposals[k.proposal].current)
  }

  ghost predicate NumberingInv(proposals: map<Id, ProposalRow>, versions: map<VersionKey, VersionRow>) {
    && (forall k :: k in versions ==> NumberedRow(proposals, k, versions[k]))
    && (forall p, n: nat :: p in proposals && 1 <= n <= proposals[p].current ==> VersionKey(p, n) in versions)
    && (forall p :: p in proposals ==> 1 <= proposals[p].current)
    && (forall k, l :: k in versions && l in versions && versions[k].version.id == versions[l].version.id ==> k == l)
  }

  // ---- References, bases and tenants ----

  ghost predicate BasedOn(businesses: map<Id, BusinessRow>, org: Id, business: Id, base: nat) {
    business in businesses && businesses[business].org == org && 1 <= base <= businesses[business].version
  }

  /** A stored scenario is a draft, or the outcome of simulating one. */
  ghost predicate SimulatedSoundly(c: S.Scenario) {
    match c.status
    case Draft => c.version == 1 && c.risks == []
    case Simulated => c.version == 2 && c.result.calculated && Comparisons.Justified(c)
    case _ => false
  }

  ghost predicate PlacedScenario(businesses: map<Id, BusinessRow>, s: Id, row: ScenarioRow) {
    row.scenario.id == s && BasedOn(businesses, row.org, row.scenario.business, row.scenario.base)
  }

  ghost predicate ScenarioInv(businesses: map<Id, BusinessRow>, scenarios: map<Id, ScenarioRow>) {
    && (forall b :: b in businesses ==> businesses[b].version >= 1)
    && (forall s {:trigger PlacedScenario(businesses, s, scenarios[s])} :: s in scenarios
          ==> PlacedScenario(businesses, s, scenarios[s]))
    && (forall s {:trigger SimulatedSoundly(scenarios[s].scenario)} :: s in scenarios
          ==> SimulatedSoundly(scenarios[s].scenario))
  }

  /** The changes are the actions, one for one and in order, and after them one piece of feedback for each revision. */
  ghost predicate Mirrors(changes: seq<P.Change>, actions: seq<S.Action>, number: nat) {
    && |changes| + 1 == |actions| + number
    && (forall i :: 0 <= i < |actions| && i < |changes| ==>
          && changes[i].StrategicAction? && changes[i].target == actions[i].target
          && changes[i].field == actions[i].kind && changes[i].value == actions[i].value
          && changes[i].unit == actions[i].unit)
    && (forall i :: |actions| <= i < |changes| ==> changes[i].HumanFeedback?)
  }

  /** A version stands on a simulated scenario of its own business, goal and base, and says what that does. */
  ghost predicate Grounded(scenarios: map<Id, ScenarioRow>, proposals: map<Id, ProposalRow>, k: VersionKey,
                           row: VersionRow)
  {
    && k.proposal in proposals && row.version.scenario in scenarios
    && var p, s := proposals[k.proposal], scenarios[row.version.scenario];
       && s.org == row.org && s.scenario.business == p.business && s.scenario.goal == p.goal
       && s.scenario.base == row.version.base && s.scenario.status == S.Simulated
       && Mirrors(row.version.changes, s.scenario.actions, k.number)
  }

  ghost predicate ReferenceInv(scenarios: map<Id, ScenarioRow>, proposals: map<Id, ProposalRow>,
                               versions: map<VersionKey, VersionRow>)
  {
    forall k {:trigger Grounded(scenarios, proposals, k, versions[k])} ::
      k in versions ==> Grounded(scenarios, proposals, k, versions[k])
  }

  // ---- Rows pass the checks of the domain types ----

  predicate SoundProposal(p: Id, row: ProposalRow) {
    ValidId(p) && ValidId(row.business) && ValidId(row.goal)
  }

  predicate SoundVersion(row: VersionRow) {
    row.version.Valid()
  }

  predicate SoundScenario(row: ScenarioRow) {
    row.scenario.Valid()
  }

  predicate SoundApproval(row: ApprovalRow) {
    row.decision.Valid(0)
  }

  ghost predicate SoundInv(scenarios: map<Id, ScenarioRow>, proposals: map<Id, ProposalRow>,
                           versions: map<VersionKey, VersionRow>, approvals: seq<ApprovalRow>)
  {
    && (forall s {:trigger SoundScenario(scenarios[s])} :: s in scenarios ==> SoundScenario(scenarios[s]))
    && (forall p {:trigger SoundProposal(p, proposals[p])} :: p in proposals ==> SoundProposal(p, proposals[p]))
    && (forall k {:trigger SoundVersion(versions[k])} :: k in versions ==> SoundVersion(versions[k]))
    && (forall i {:trigger SoundApproval(approvals[i])} :: 0 <= i < |approvals| ==> SoundApproval(approvals[i]))
  }

  // ---- The revision chain ----

  /** `b` is `a` with one more piece of feedback, in the changes and in the summary. */
  ghost predicate Revises(a: P.Version, b: P.Version) {
    && b.scenario == a.scenario && b.base == a.base
    && |b.changes| == |a.changes| + 1 && b.changes[..|a.changes|] == a.changes
    && b.changes[|a.changes|].HumanFeedback?
    && var text := b.changes[|a.changes|].text;
       text != "" && b.summary == a.summary + REVISION_MARK + text
  }

  predicate NoFeedback(changes: seq<P.Change>) {
    forall i :: 0 <= i < |changes| ==> !changes[i].HumanFeedback?
  }

  ghost predicate GoodSummary(k: VersionKey, v: P.Version) {
    && v.summary != "" && Trimmed(v.summary)
    && 12 * k.number - 11 <= |v.summary| <= MAX_SUMMARY
    && (k.number == 1 ==> NoFeedback(v.changes))
  }

  function After(k: VersionKey): VersionKey {
    VersionKey(k.proposal, k.number + 1)
  }

  predicate Follows(k: VersionKey, l: VersionKey) {
    l == After(k)
  }

  ghost predicate ChainInv(versions: map<VersionKey, VersionRow>) {
    && (forall k :: k in versions ==> GoodSummary(k, versions[k].version))
    && (forall k, l :: k in versions && l in versions && Follows(k, l)
          ==> Revises(versions[k].version, versions[l].version))
  }

  // ---- Roles ----

  /** Users of the tenant may decide unless they are viewers. */
  predicate Decides(users: map<Id, User>, org: Id, user: Id) {
    user in users && users[user].org == org && users[user].role != Viewer
  }

  /** Viewers may prepare in guest mode what only others may decide. */
  predicate Prepares(users: map<Id, User>, actor: Actor) {
    actor.id in users && users[actor.id].org == actor.org && (users[actor.id].role != Viewer || actor.guest)
  }

  // ---- Approvals ----

  /** The approval row is the decision the version's status came from. */
  ghost predicate Records(users: map<Id, User>, proposals: map<Id, ProposalRow>, a: ApprovalRow, k: VersionKey,
                          row: VersionRow)
  {
    && row.version.id == a.decision.versionId && k.proposal == a.decision.proposal && row.org == a.org
    && k.proposal in proposals && proposals[k.proposal].business == a.decision.business
    && Decides(users, a.org, a.decision.decidedBy)
    && match a.decision.status
       case Approved => row.version.status == P.Approved || row.version.status == P.Committed
       case Rejected => row.version.status == P.Rejected
       case _ => false
  }

  ghost predicate Recorded(users: map<Id, User>, proposals: map<Id, ProposalRow>,
                           versions: map<VersionKey, VersionRow>, a: ApprovalRow)
  {
    exists k :: k in versions && Records(users, proposals, a, k, versions[k])
  }

  ghost predicate HasApproval(approvals: seq<ApprovalRow>, versionId: Id) {
    exists i :: 0 <= i < |approvals| && approvals[i].decision.versionId == versionId
  }

  ghost predicate ApprovalInv(users: map<Id, User>, proposals: map<Id, ProposalRow>,
                              versions: map<VersionKey, VersionRow>, approvals: seq<ApprovalRow>)
  {
    && (forall i, j :: 0 <= i < j < |approvals| ==> approvals[i].decision.versionId != approvals[j].decision.versionId)
    && (forall i {:trigger Recorded(users, proposals, versions, approvals[i])} ::
          0 <= i < |approvals| ==> Recorded(users, proposals, versions, approvals[i]))
    && (forall k {:trigger HasApproval(approvals, versions[k].version.id)} ::
          k in versions && P.Decided(versions[k].version.status) ==> HasApproval(approvals, versions[k].version.id))
  }

  // ---- Operations, decisions, committed versions and business versions ----

  ghost predicate OperationDone(k: IdempotencyKey, row: OperationRow, decisions: map<DecisionId, DecisionRow>) {
    var op := row.operation;
    && op.key == k.key && op.status == C.Succeeded && row.committed == Some(op.expected + 1)
    && DecisionFor(op.id) in decisions
    && var d := decisions[DecisionFor(op.id)];
       && d.org == k.org && d.business == op.business && d.proposal == op.proposal && d.versionId == op.versionId
       && d.committed == op.expected + 1
  }

  ghost predicate OperationInv(operations: map<IdempotencyKey, OperationRow>, decisions: map<DecisionId, DecisionRow>) {
    && (forall k {:trigger OperationDone(k, operations[k], decisions)} :: k in operations
          ==> OperationDone(k, operations[k], decisions))
    && (forall k, l :: k in operations && l in operations && operations[k].operation.id == operations[l].operation.id
          ==> k == l)
    && (forall d {:trigger OperationIdUsed(operations, d.operation)} :: d in decisions
          ==> OperationIdUsed(operations, d.operation))
  }

  /** The decision of a committed version: the next business version after its base. */
  ghost predicate Enacts(proposals: map<Id, ProposalRow>, d: DecisionRow, k: VersionKey, row: VersionRow) {
    && row.version.id == d.versionId && k.proposal == d.proposal && row.org == d.org
    && k.proposal in proposals && proposals[k.proposal].business == d.business
    && row.version.status == P.Committed && row.version.summary == d.summary
    && d.committed == row.version.base + 1
  }

  ghost predicate Enacted(proposals: map<Id, ProposalRow>, versions: map<VersionKey, VersionRow>, d: DecisionRow) {
    exists k :: k in versions && Enacts(proposals, d, k, versions[k])
  }

  ghost predicate HasDecision(decisions: map<DecisionId, DecisionRow>, versionId: Id) {
    exists d :: d in decisions && decisions[d].versionId == versionId
  }

  ghost predicate DecisionInv(proposals: map<Id, ProposalRow>, versions: map<VersionKey, VersionRow>,
                              decisions: map<DecisionId, DecisionRow>)
  {
    && (forall d {:trigger Enacted(proposals, versions, decisions[d])} :: d in decisions
          ==> Enacted(proposals, versions, decisions[d]))
    && (forall k {:trigger HasDecision(decisions, versions[k].version.id)} ::
          k in versions && versions[k].version.status == P.Committed ==> HasDecision(decisions, versions[k].version.id))
    && (forall d, e :: d in decisions && e in decisions && decisions[d].versionId == decisions[e].versionId ==> d == e)
  }

  function DecisionsOf(decisions: map<DecisionId, DecisionRow>, business: Id): set<DecisionId> {
    set d | d in decisions && decisions[d].business == business
  }

  predicate SameSlot(d: DecisionRow, e: DecisionRow) {
    d.business == e.business && d.committed == e.committed
  }

  predicate CommittedAt(decisions: map<DecisionId, DecisionRow>, business: Id, version: nat) {
    exists d :: d in decisions && decisions[d].business == business && decisions[d].committed == version
  }

  /** Some decision produced each version from after `low` up to `high`. */
  ghost predicate Fills(decisions: map<DecisionId, DecisionRow>, business: Id, low: nat, high: nat) {
    forall v: nat :: low < v <= high ==> CommittedAt(decisions, business, v)
  }

  ghost predicate InHistory(start: map<Id, nat>, businesses: map<Id, BusinessRow>, d: DecisionRow)
    requires start.Keys == businesses.Keys
  {
    && d.business in businesses && businesses[d.business].org == d.org
    && start[d.business] < d.committed <= businesses[d.business].version
  }

  /** `start` holds the version each business had before the first step. */
  ghost predicate HistoryInv(start: map<Id, nat>, businesses: map<Id, BusinessRow>,
                             decisions: map<DecisionId, DecisionRow>)
  {
    && start.Keys == businesses.Keys
    && (forall d {:trigger InHistory(start, businesses, decisions[d])} :: d in decisions
          ==> InHistory(start, businesses, decisions[d]))
    && (forall d, e :: d in decisions && e in decisions && SameSlot(decisions[d], decisions[e]) ==> d == e)
    && (forall b {:trigger Fills(decisions, b, start[b], businesses[b].version)} ::
          b in businesses ==> Fills(decisions, b, start[b], businesses[b].version))
    && (forall b {:trigger DecisionsOf(decisions, b)} :: b in businesses
          ==> businesses[b].version == start[b] + |DecisionsOf(decisions, b)|)
  }

  // ---- The audit log ----

  /** The visible life of a proposal: its current version and that version's status. */
  datatype Life = Life(number: nat, versionId: Id, status: P.Status)

  predicate Concerns(e: AuditEvent, p: Id) {
    || (e.aggregate == ProposalAggregate && e.aggregateId == p)
    || (e.action == CommitExecuted && e.metadata.CommittedVersion? && e.metadata.proposal == p)
  }

  function ApplyEvent(before: Option<Life>, e: AuditEvent, p: Id): Option<Life> {
    if !Concerns(e, p) then before
    else if e.action == ProposalCreated && e.metadata.CreatedVersion? then Some(Life(1, e.metadata.versionId, P.Draft))
    else if before.None? then None
    else
      var life := before.value;
      match e.action
      case ProposalRevised =>
        if e.metadata.RevisedVersion? then Some(Life(life.number + 1, e.metadata.versionId, P.Draft)) else before
      case ProposalSubmitted => Some(life.(status := P.InReview))
      case ProposalApproved => Some(life.(status := P.Approved))
      case ProposalRejected => Some(life.(status := P.Rejected))
      case CommitExecuted => Some(life.(status := P.Committed))
      case _ => before
  }

  /** Replays the audit log for one proposal. */
  function FoldAudit(audits: seq<AuditEvent>, p: Id): Option<Life> {
    if audits == [] then None
    else ApplyEvent(FoldAudit(audits[..|audits| - 1], p), audits[|audits| - 1], p)
  }

  function EventsAbout(audits: seq<AuditEvent>, p: Id): nat {
    if audits == [] then 0
    else EventsAbout(audits[..|audits| - 1], p) + (if Concerns(audits[|audits| - 1], p) then 1 else 0)
  }

  lemma AuditNext(audits: seq<AuditEvent>, e: AuditEvent, p: Id)
    ensures FoldAudit(audits + [e], p) == ApplyEvent(FoldAudit(audits, p), e, p)
    ensures EventsAbout(audits + [e], p) == EventsAbout(audits, p) + (if Concerns(e, p) then 1 else 0)
  {
    assert (audits + [e])[..|audits|] == audits;
  }

  function StepsLeft(status: P.Status): nat {
    match status
    case Draft => 3
    case InReview => 2
    case Approved => 1
    case _ => 0
  }

  /** How many more events a proposal can still have; every step on it lowers this. */
  function Remaining(life: Life): int {
    MAX_VERSIONS - life.number + StepsLeft(life.status)
  }

  ghost predicate LifeIs(proposals: map<Id, ProposalRow>, versions: map<VersionKey, VersionRow>, p: Id,
                         life: Option<Life>)
  {
    && p in proposals
    && VersionKey(p, proposals[p].current) in versions
    && var v := versions[VersionKey(p, proposals[p].current)].version;
       life == Some(Life(proposals[p].current, v.id, v.status))
  }

  ghost predicate FoldInv(proposals: map<Id, ProposalRow>, versions: map<VersionKey, VersionRow>,
                          audits: seq<AuditEvent>)
  {
    && (forall p {:trigger FoldAudit(audits, p)} :: p in proposals ==>
          && LifeIs(proposals, versions, p, FoldAudit(audits, p))
          && EventsAbout(audits, p) + Remaining(FoldAudit(audits, p).value) <= MAX_EVENTS)
    && (forall p {:trigger FoldAudit(audits, p)} :: p !in proposals
          ==> FoldAudit(audits, p) == None && EventsAbout(audits, p) == 0)
  }

  /** The audit event of a commit operation. */
  ghost predicate Announces(e: AuditEvent, k: IdempotencyKey, op: C.Operation) {
    && e.id == CommitAudit(op.id) && e.action == CommitExecuted && e.org == k.org
    && e.aggregate == BusinessAggregate && e.aggregateId == op.business && e.operation == Some(op.id)
    && e.metadata == CommittedVersion(op.proposal, op.versionId)
  }

  ghost predicate Announced(audits: seq<AuditEvent>, k: IdempotencyKey, op: C.Operation) {
    exists i :: 0 <= i < |audits| && Announces(audits[i], k, op)
  }

  ghost predicate AnnouncesOne(operations: map<IdempotencyKey, OperationRow>, e: AuditEvent) {
    exists k :: k in operations && Announces(e, k, operations[k].operation)
  }

  ghost predicate AuditInv(operations: map<IdempotencyKey, OperationRow>, audits: seq<AuditEvent>) {
    && (forall i, j :: 0 <= i < j < |audits| ==> audits[i].id != audits[j].id)
    && (forall i :: 0 <= i < |audits| ==> (audits[i].action == CommitExecuted <==> audits[i].id.CommitAudit?))
    && (forall i {:trigger AnnouncesOne(operations, audits[i])} ::
          0 <= i < |audits| && audits[i].id.CommitAudit? ==> AnnouncesOne(operations, audits[i]))
    && (forall k {:trigger Announced(audits, k, operations[k].operation)} ::
          k in operations ==> Announced(audits, k, operations[k].operation))
  }

  // ---- Goal constraints ----

  ghost predicate PlacedConstraint(goals: map<Id, GoalRow>, k: ConstraintKey, row: ConstraintRow) {
    k.goal in goals && row.org == goals[k.goal].org && row.constraint.key == k.key
  }

  /** A constraint lies with its goal's tenant, under its own key, and its id is its own. */
  ghost predicate ConstraintInv(goals: map<Id, GoalRow>, constraints: map<ConstraintKey, ConstraintRow>) {
    && (forall k :: k in constraints ==> PlacedConstraint(goals, k, constraints[k]))
    && (forall k, l ::
          k in constraints && l in constraints && constraints[k].constraint.id == constraints[l].constraint.id
          ==> k == l)
  }

  ghost predicate DbInv(start: map<Id, nat>, db: Db) {
    && NumberingInv(db.proposals, db.versions)
    && ScenarioInv(db.businesses, db.scenarios)
    && ReferenceInv(db.scenarios, db.proposals, db.versions)
    && SoundInv(db.scenarios, db.proposals, db.versions, db.approvals)
    && ChainInv(db.versions)
    && ApprovalInv(db.users, db.proposals, db.versions, db.approvals)
    && OperationInv(db.operations, db.decisions)
    && DecisionInv(db.proposals, db.versions, db.decisions)
    && HistoryInv(start, db.businesses, db.decisions)
    && FoldInv(db.proposals, db.versions, db.audits)
    && AuditInv(db.operations, db.audits)
    && ConstraintInv(db.goals, db.constraints)
  }

  /** A store as seeding leaves it: users, goals, constraints and businesses, and no work on them yet. */
  ghost predicate Seeded(db: Db) {
    && (forall b :: b in db.businesses ==> db.businesses[b].version >= 1)
    && ConstraintInv(db.goals, db.constraints)
    && db.scenarios == map[] && db.proposals == map[] && db.versions == map[] && db.approvals == []
    && db.operations == map[] && db.decisions == map[] && db.audits == []
  }

  function StartOf(db: Db): map<Id, nat> {
    map b | b in db.businesses :: db.businesses[b].version
  }

  lemma SeededInv(db: Db)
    requires Seeded(db)
    ensures DbInv(StartOf(db), db)
  {
    SeededHistory(db);
    assert forall k :: k in db.constraints ==> PlacedConstraint(db.goals, k, db.constraints[k]);
  }

  lemma SeededHistory(db: Db)
    requires Seeded(db)
    ensures HistoryInv(StartOf(db), db.businesses, db.decisions)
  {
    forall b | b in db.businesses
      ensures Fills(db.decisions, b, StartOf(db)[b], db.businesses[b].version) && DecisionsOf(db.decisions, b) == {}
    {
    }
  }
}
