/** How each kind of row change keeps the invariants, table by table. */
module Preservation {
  import opened Core
  import opened Database
  import opened Invariants
  import P = Proposals
  import C = Commits

  // ---- A status change of the current version ----

  function SetStatus(versions: map<VersionKey, VersionRow>, k: VersionKey,
                     status: P.Status): map<VersionKey, VersionRow>
    requires k in versions
  {
    versions[k := versions[k].(version := versions[k].version.(status := status))]
  }

  lemma StatusKeepsNumbering(proposals: map<Id, ProposalRow>, versions: map<VersionKey, VersionRow>, k: VersionKey,
                             status: P.Status)
    requires NumberingInv(proposals, versions)
    requires k in versions && k.number == proposals[k.proposal].current && status != P.Superseded
    ensures NumberingInv(proposals, SetStatus(versions, k, status))
  {
  }

  lemma StatusKeepsReferences(scenarios: map<Id, ScenarioRow>, proposals: map<Id, ProposalRow>,
                              versions: map<VersionKey, VersionRow>, k: VersionKey, status: P.Status)
    requires ReferenceInv(scenarios, proposals, versions) && k in versions
    ensures ReferenceInv(scenarios, proposals, SetStatus(versions, k, status))
  {
    var versions' := SetStatus(versions, k, status);
    forall l | l in versions' ensures Grounded(scenarios, proposals, l, versions'[l]) {
      assert Grounded(scenarios, proposals, l, versions[l]);
    }
  }

  lemma StatusKeepsChain(versions: map<VersionKey, VersionRow>, k: VersionKey, status: P.Status)
    requires ChainInv(versions) && k in versions
    ensures ChainInv(SetStatus(versions, k, status))
  {
  }

  // ---- Soundness of rows ----

  lemma StatusKeepsSound(scenarios: map<Id, ScenarioRow>, proposals: map<Id, ProposalRow>,
                         versions: map<VersionKey, VersionRow>,
                         approvals: seq<ApprovalRow>, k: VersionKey, status: P.Status)
    requires SoundInv(scenarios, proposals, versions, approvals) && k in versions
    ensures SoundInv(scenarios, proposals, SetStatus(versions, k, status), approvals)
  {
    forall l | l in versions ensures SoundVersion(SetStatus(versions, k, status)[l]) {
      assert SoundVersion(versions[l]);
    }
  }

  lemma NewApprovalKeepsSound(scenarios: map<Id, ScenarioRow>, proposals: map<Id, ProposalRow>,
                              versions: map<VersionKey, VersionRow>,
                              approvals: seq<ApprovalRow>, a: ApprovalRow)
    requires SoundInv(scenarios, proposals, versions, approvals) && SoundApproval(a)
    ensures SoundInv(scenarios, proposals, versions, approvals + [a])
  {
    var after := approvals + [a];
    forall i | 0 <= i < |after| ensures SoundApproval(after[i]) {
      if i < |approvals| {
        assert SoundApproval(approvals[i]);
      }
    }
  }

  /** Sound rows may be added to, or put in place of, sound rows. */
  lemma NewRowsKeepSound(scenarios: map<Id, ScenarioRow>, proposals: map<Id, ProposalRow>,
                         versions: map<VersionKey, VersionRow>,
                         approvals: seq<ApprovalRow>, p: Id, proposal: ProposalRow, k: VersionKey, version: VersionRow)
    requires SoundInv(scenarios, proposals, versions, approvals)
    requires SoundProposal(p, proposal) && SoundVersion(version)
    ensures SoundInv(scenarios, proposals[p := proposal], versions[k := version], approvals)
  {
    var versions' := versions[k := version];
    forall l | l in versions' ensures SoundVersion(versions'[l]) {
      if l != k {
        assert SoundVersion(versions[l]);
      }
    }
    var proposals' := proposals[p := proposal];
    forall q | q in proposals' ensures SoundProposal(q, proposals'[q]) {
      if q != p {
        assert SoundProposal(q, proposals[q]);
      }
    }
  }

  lemma NewScenarioKeepsSound(scenarios: map<Id, ScenarioRow>, proposals: map<Id, ProposalRow>,
                              versions: map<VersionKey, VersionRow>,
                              approvals: seq<ApprovalRow>, s: Id, row: ScenarioRow)
    requires SoundInv(scenarios, proposals, versions, approvals) && SoundScenario(row)
    ensures SoundInv(scenarios[s := row], proposals, versions, approvals)
  {
    var after := scenarios[s := row];
    forall t | t in after ensures SoundScenario(after[t]) {
      if t != s {
        assert SoundScenario(scenarios[t]);
      }
    }
  }

  // ---- A new proposal and a new revision ----

  lemma NewProposalKeepsNumbering(proposals: map<Id, ProposalRow>, versions: map<VersionKey, VersionRow>, p: Id,
                                  row: ProposalRow, first: VersionRow)
    requires NumberingInv(proposals, versions)
    requires p !in proposals && row.current == 1 && first.org == row.org
    requires first.version.proposal == p && first.version.number == 1 && first.version.status == P.Draft
    requires !VersionIdUsed(versions, first.version.id)
    ensures NumberingInv(proposals[p := row], versions[VersionKey(p, 1) := first])
  {
  }

  lemma NewProposalKeepsReferences(scenarios: map<Id, ScenarioRow>, proposals: map<Id, ProposalRow>,
                                   versions: map<VersionKey, VersionRow>, p: Id, row: ProposalRow, first: VersionRow)
    requires ReferenceInv(scenarios, proposals, versions) && p !in proposals
    requires Grounded(scenarios, proposals[p := row], VersionKey(p, 1), first)
    ensures ReferenceInv(scenarios, proposals[p := row], versions[VersionKey(p, 1) := first])
  {
    var proposals', versions' := proposals[p := row], versions[VersionKey(p, 1) := first];
    forall l | l in versions' ensures Grounded(scenarios, proposals', l, versions'[l]) {
      if l != VersionKey(p, 1) {
        assert Grounded(scenarios, proposals, l, versions[l]);
      }
    }
  }

  lemma NewProposalKeepsChain(proposals: map<Id, ProposalRow>, versions: map<VersionKey, VersionRow>, p: Id,
                              first: VersionRow)
    requires NumberingInv(proposals, versions) && ChainInv(versions) && p !in proposals
    requires GoodSummary(VersionKey(p, 1), first.version)
    ensures ChainInv(versions[VersionKey(p, 1) := first])
  {
    var key := VersionKey(p, 1);
    var after := versions[key := first];
    forall k, l | k in after && l in after && Follows(k, l) ensures Revises(after[k].version, after[l].version) {
      assert k in versions ==> NumberedRow(proposals, k, versions[k]);
      assert l in versions ==> NumberedRow(proposals, l, versions[l]);
      assert k != key && l != key;
    }
  }

  function Superseding(versions: map<VersionKey, VersionRow>, k: VersionKey,
                       next: VersionRow): map<VersionKey, VersionRow>
    requires k in versions
  {
    SetStatus(versions, k, P.Superseded)[After(k) := next]
  }

  lemma RevisionKeepsNumbering(proposals: map<Id, ProposalRow>, versions: map<VersionKey, VersionRow>, k: VersionKey,
                               next: VersionRow)
    requires NumberingInv(proposals, versions)
    requires k in versions && k.number == proposals[k.proposal].current
    requires next.org == versions[k].org && next.version.proposal == k.proposal && next.version.number == k.number + 1
    requires next.version.status == P.Draft && !VersionIdUsed(versions, next.version.id)
    ensures NumberingInv(proposals[k.proposal := proposals[k.proposal].(current := k.number + 1)],
                         Superseding(versions, k, next))
  {
    var proposals' := proposals[k.proposal := proposals[k.proposal].(current := k.number + 1)];
    var versions' := Superseding(versions, k, next);
    forall l | l in versions' ensures NumberedRow(proposals', l, versions'[l]) {
      if l != After(k) {
        assert NumberedRow(proposals, l, versions[l]);
      }
    }
    forall l, m | l in versions' && m in versions' && versions'[l].version.id == versions'[m].version.id
      ensures l == m
    {
      assert l != After(k) ==> versions'[l].version.id == versions[l].version.id;
      assert m != After(k) ==> versions'[m].version.id == versions[m].version.id;
    }
  }

  lemma RevisionMirrors(a: P.Version, b: P.Version, actions: seq<S.Action>, number: nat)
    requires Revises(a, b) && Mirrors(a.changes, actions, number) && number >= 1
    ensures Mirrors(b.changes, actions, number + 1)
  {
    forall i | 0 <= i < |a.changes| ensures b.changes[i] == a.changes[i] {
      assert b.changes[..|a.changes|][i] == a.changes[i];
    }
  }

  lemma RevisionKeepsReferences(scenarios: map<Id, ScenarioRow>, proposals: map<Id, ProposalRow>,
                                versions: map<VersionKey, VersionRow>, k: VersionKey, next: VersionRow, current: nat)
    requires ReferenceInv(scenarios, proposals, versions) && k in versions && k.proposal in proposals
    requires next.org == versions[k].org && Revises(versions[k].version, next.version) && k.number >= 1
    ensures ReferenceInv(scenarios, proposals[k.proposal := proposals[k.proposal].(current := current)],
                         Superseding(versions, k, next))
  {
    var proposals' := proposals[k.proposal := proposals[k.proposal].(current := current)];
    var versions' := Superseding(versions, k, next);
    forall l | l in versions' ensures Grounded(scenarios, proposals', l, versions'[l]) {
      var was := if l == After(k) then k else l;
      assert Grounded(scenarios, proposals, was, versions[was]);
      if l == After(k) {
        RevisionMirrors(versions[k].version, next.version, scenarios[next.version.scenario].scenario.actions, k.number);
      }
    }
    assert ReferenceInv(scenarios, proposals', versions');
  }

  lemma RevisionKeepsChain(versions: map<VersionKey, VersionRow>, k: VersionKey, next: VersionRow)
    requires ChainInv(versions) && k in versions
    requires After(k) !in versions && forall l :: l in versions ==> !Follows(After(k), l)
    requires Revises(versions[k].version, next.version) && GoodSummary(After(k), next.version)
    ensures ChainInv(Superseding(versions, k, next))
  {
    var after := Superseding(versions, k, next);
    forall l, m | l in after && m in after && Follows(l, m) ensures Revises(after[l].version, after[m].version) {
      if m == After(k) {
        assert l == k;
      } else {
        assert l != After(k);
        assert Revises(versions[l].version, versions[m].version);
      }
    }
  }

  // ---- Approvals ----

  /** The row an approval refers to may change as long as the approval still records its status. */
  lemma RecordedStays(users: map<Id, User>, proposals: map<Id, ProposalRow>, versions: map<VersionKey, VersionRow>,
                      proposals': map<Id, ProposalRow>, versions': map<VersionKey, VersionRow>, a: ApprovalRow)
    requires Recorded(users, proposals, versions, a)
    requires forall k :: k in versions && Records(users, proposals, a, k, versions[k]) ==>
               k in versions' && Records(users, proposals', a, k, versions'[k])
    ensures Recorded(users, proposals', versions', a)
  {
  }

  /** Undecided versions may come and change as long as decided ones stay. */
  lemma UndecidedKeepsApprovals(users: map<Id, User>, proposals: map<Id, ProposalRow>,
                                versions: map<VersionKey, VersionRow>,
                                approvals: seq<ApprovalRow>, proposals': map<Id, ProposalRow>,
                                versions': map<VersionKey, VersionRow>)
    requires ApprovalInv(users, proposals, versions, approvals)
    requires forall p :: p in proposals ==> p in proposals' && proposals'[p].business == proposals[p].business
    requires forall k ::
               k in versions && P.Decided(versions[k].version.status) ==> k in versions' && versions'[k] == versions[k]
    requires forall k ::
               k in versions' && P.Decided(versions'[k].version.status) ==> k in versions && versions[k] == versions'[k]
    ensures ApprovalInv(users, proposals', versions', approvals)
  {
    forall i | 0 <= i < |approvals| ensures Recorded(users, proposals', versions', approvals[i]) {
      RecordedStays(users, proposals, versions, proposals', versions', approvals[i]);
    }
  }

  lemma HasApprovalGrows(approvals: seq<ApprovalRow>, a: ApprovalRow, versionId: Id)
    ensures HasApproval(approvals + [a], versionId)
       <==> HasApproval(approvals, versionId) || a.decision.versionId == versionId
  {
    var after := approvals + [a];
    if HasApproval(approvals, versionId) {
      var i :| 0 <= i < |approvals| && approvals[i].decision.versionId == versionId;
      assert after[i] == approvals[i];
    }
    assert after[|approvals|] == a;
  }

  lemma DecisionKeepsApprovals(users: map<Id, User>, proposals: map<Id, ProposalRow>,
                               versions: map<VersionKey, VersionRow>,
                               approvals: seq<ApprovalRow>, k: VersionKey, status: P.Status, a: ApprovalRow)
    requires NumberingInv(proposals, versions) && ApprovalInv(users, proposals, versions, approvals)
    requires k in versions && versions[k].version.status == P.InReview && P.Decided(status)
    requires Records(users, proposals, a, k, SetStatus(versions, k, status)[k])
    ensures ApprovalInv(users, proposals, SetStatus(versions, k, status), approvals + [a])
  {
    var versions' := SetStatus(versions, k, status);
    forall i | 0 <= i < |approvals|
      ensures approvals[i].decision.versionId != a.decision.versionId
      ensures Recorded(users, proposals, versions', approvals[i])
    {
      assert Recorded(users, proposals, versions, approvals[i]);
      var l :| l in versions && Records(users, proposals, approvals[i], l, versions[l]);
      assert versions[l].version.status != P.InReview;
      assert l != k && versions'[l] == versions[l];
      assert versions[l].version.id != versions[k].version.id;
    }
    assert Recorded(users, proposals, versions', a);
    forall l | l in versions' && P.Decided(versions'[l].version.status)
      ensures HasApproval(approvals + [a], versions'[l].version.id)
    {
      HasApprovalGrows(approvals, a, versions'[l].version.id);
    }
  }

  lemma CommitKeepsApprovals(users: map<Id, User>, proposals: map<Id, ProposalRow>,
                             versions: map<VersionKey, VersionRow>,
                             approvals: seq<ApprovalRow>, k: VersionKey)
    requires ApprovalInv(users, proposals, versions, approvals)
    requires k in versions && versions[k].version.status == P.Approved
    ensures ApprovalInv(users, proposals, SetStatus(versions, k, P.Committed), approvals)
  {
    var versions' := SetStatus(versions, k, P.Committed);
    forall i | 0 <= i < |approvals| ensures Recorded(users, proposals, versions', approvals[i]) {
      RecordedStays(users, proposals, versions, proposals, versions', approvals[i]);
    }
    forall l | l in versions' && P.Decided(versions'[l].version.status)
      ensures HasApproval(approvals, versions'[l].version.id)
    {
      assert P.Decided(versions[l].version.status);
    }
  }

  // ---- Operations, decisions and business versions ----

  lemma EnactedStays(proposals: map<Id, ProposalRow>, versions: map<VersionKey, VersionRow>,
                     proposals': map<Id, ProposalRow>, versions': map<VersionKey, VersionRow>, d: DecisionRow)
    requires Enacted(proposals, versions, d)
    requires forall k :: k in versions && Enacts(proposals, d, k, versions[k]) ==>
               k in versions' && Enacts(proposals', d, k, versions'[k])
    ensures Enacted(proposals', versions', d)
  {
  }

  /** Versions that are not committed may come and change as long as committed ones stay. */
  lemma UncommittedKeepsDecisions(proposals: map<Id, ProposalRow>, versions: map<VersionKey, VersionRow>,
                                  decisions: map<DecisionId, DecisionRow>,
                                  proposals': map<Id, ProposalRow>, versions': map<VersionKey, VersionRow>)
    requires DecisionInv(proposals, versions, decisions)
    requires forall p :: p in proposals ==> p in proposals' && proposals'[p].business == proposals[p].business
    requires forall k ::
               k in versions && versions[k].version.status == P.Committed
               ==> k in versions' && versions'[k] == versions[k]
    requires forall k ::
               k in versions' && versions'[k].version.status == P.Committed
               ==> k in versions && versions[k] == versions'[k]
    ensures DecisionInv(proposals', versions', decisions)
  {
    forall d | d in decisions ensures Enacted(proposals', versions', decisions[d]) {
      EnactedStays(proposals, versions, proposals', versions', decisions[d]);
    }
  }

  lemma HasDecisionGrows(decisions: map<DecisionId, DecisionRow>, d: DecisionId, row: DecisionRow, versionId: Id)
    requires d !in decisions
    ensures HasDecision(decisions[d := row], versionId)
       <==> HasDecision(decisions, versionId) || row.versionId == versionId
  {
    var after := decisions[d := row];
    if HasDecision(decisions, versionId) {
      var e :| e in decisions && decisions[e].versionId == versionId;
      assert after[e] == decisions[e];
    }
    assert after[d] == row;
  }

  lemma CommitKeepsDecisions(proposals: map<Id, ProposalRow>, versions: map<VersionKey, VersionRow>,
                             decisions: map<DecisionId, DecisionRow>, k: VersionKey, d: DecisionId, row: DecisionRow)
    requires NumberingInv(proposals, versions) && DecisionInv(proposals, versions, decisions)
    requires k in versions && versions[k].version.status == P.Approved && d !in decisions
    requires Enacts(proposals, row, k, SetStatus(versions, k, P.Committed)[k])
    ensures DecisionInv(proposals, SetStatus(versions, k, P.Committed), decisions[d := row])
  {
    var versions', decisions' := SetStatus(versions, k, P.Committed), decisions[d := row];
    forall e | e in decisions
      ensures Enacted(proposals, versions', decisions[e])
      ensures decisions[e].versionId != row.versionId
    {
      assert Enacted(proposals, versions, decisions[e]);
      var l :| l in versions && Enacts(proposals, decisions[e], l, versions[l]);
      assert l != k && versions'[l] == versions[l];
    }
    assert Enacted(proposals, versions', row);
    forall l | l in versions' && versions'[l].version.status == P.Committed
      ensures HasDecision(decisions', versions'[l].version.id)
    {
      HasDecisionGrows(decisions, d, row, versions'[l].version.id);
    }
  }

  lemma OperationIdUsedGrows(operations: map<IdempotencyKey, OperationRow>, k: IdempotencyKey, row: OperationRow,
                             id: Id)
    requires k !in operations
    ensures OperationIdUsed(operations[k := row], id) <==> OperationIdUsed(operations, id) || row.operation.id == id
  {
    var after := operations[k := row];
    if OperationIdUsed(operations, id) {
      var l :| l in operations && operations[l].operation.id == id;
      assert after[l] == operations[l];
    }
    assert after[k] == row;
  }

  lemma CommitKeepsOperations(operations: map<IdempotencyKey, OperationRow>, decisions: map<DecisionId, DecisionRow>,
                              k: IdempotencyKey, row: OperationRow, decision: DecisionRow)
    requires OperationInv(operations, decisions)
    requires k !in operations && !OperationIdUsed(operations, row.operation.id)
    requires OperationDone(k, row, decisions[DecisionFor(row.operation.id) := decision])
    ensures OperationInv(operations[k := row], decisions[DecisionFor(row.operation.id) := decision])
  {
    var operations', decisions' := operations[k := row], decisions[DecisionFor(row.operation.id) := decision];
    forall l | l in operations' ensures OperationDone(l, operations'[l], decisions') {
      if l != k {
        assert OperationDone(l, operations[l], decisions);
        assert operations[l].operation.id != row.operation.id;
      }
    }
    forall d | d in decisions' ensures OperationIdUsed(operations', d.operation) {
      OperationIdUsedGrows(operations, k, row, d.operation);
    }
  }

  lemma CommittedAtGrows(decisions: map<DecisionId, DecisionRow>, d: DecisionId, row: DecisionRow, b: Id, v: nat)
    requires d !in decisions
    requires CommittedAt(decisions, b, v) || (row.business == b && row.committed == v)
    ensures CommittedAt(decisions[d := row], b, v)
  {
    var after := decisions[d := row];
    if CommittedAt(decisions, b, v) {
      var e :| e in decisions && decisions[e].business == b && decisions[e].committed == v;
      assert after[e] == decisions[e];
    } else {
      assert after[d] == row;
    }
  }

  function Bumped(businesses: map<Id, BusinessRow>, b: Id, version: nat): map<Id, BusinessRow>
    requires b in businesses
  {
    businesses[b := businesses[b].(version := version)]
  }

  lemma CommitKeepsHistory(start: map<Id, nat>, businesses: map<Id, BusinessRow>,
                           decisions: map<DecisionId, DecisionRow>,
                           d: DecisionId, row: DecisionRow)
    requires HistoryInv(start, businesses, decisions)
    requires d !in decisions && row.business in businesses && businesses[row.business].org == row.org
    requires row.committed == businesses[row.business].version + 1
    ensures HistoryInv(start, Bumped(businesses, row.business, row.committed), decisions[d := row])
  {
    var businesses', decisions' := Bumped(businesses, row.business, row.committed), decisions[d := row];
    forall b {:trigger Fills(decisions', b, start[b], businesses'[b].version)} {:trigger DecisionsOf(decisions', b)}
      | b in businesses'
      ensures Fills(decisions', b, start[b], businesses'[b].version)
      ensures businesses'[b].version == start[b] + |DecisionsOf(decisions', b)|
    {
      assert Fills(decisions, b, start[b], businesses[b].version);
      assert businesses[b].version == start[b] + |DecisionsOf(decisions, b)|;
      CommitFillsHistory(decisions, d, row, b, start[b], businesses[b].version);
      CommitCounts(decisions, d, row, b);
    }
    assert businesses[row.business].version == start[row.business] + |DecisionsOf(decisions, row.business)|;
    CommitKeepsSlots(start, businesses, decisions, d, row);
  }

  lemma CommitFillsHistory(decisions: map<DecisionId, DecisionRow>, d: DecisionId, row: DecisionRow, b: Id, low: nat,
                           high: nat)
    requires d !in decisions && Fills(decisions, b, low, high) && (b == row.business ==> row.committed == high + 1)
    ensures Fills(decisions[d := row], b, low, if b == row.business then row.committed else high)
  {
    var after, top := decisions[d := row], if b == row.business then row.committed else high;
    forall v: nat | low < v <= top ensures CommittedAt(after, b, v)
    {
      CommittedAtGrows(decisions, d, row, b, v);
    }
  }

  lemma CommitCounts(decisions: map<DecisionId, DecisionRow>, d: DecisionId, row: DecisionRow, b: Id)
    requires d !in decisions
    ensures |DecisionsOf(decisions[d := row], b)| == |DecisionsOf(decisions, b)| + if b == row.business then 1 else 0
  {
    assert DecisionsOf(decisions[d := row], b) == DecisionsOf(decisions, b) + if b == row.business then {d} else {};
  }

  lemma CommitKeepsSlots(start: map<Id, nat>, businesses: map<Id, BusinessRow>, decisions: map<DecisionId, DecisionRow>,
                         d: DecisionId, row: DecisionRow)
    requires HistoryInv(start, businesses, decisions)
    requires d !in decisions && row.business in businesses && businesses[row.business].org == row.org
    requires start[row.business] < row.committed == businesses[row.business].version + 1
    ensures var after, decided := Bumped(businesses, row.business, row.committed), decisions[d := row];
            forall e {:trigger InHistory(start, after, decided[e])} ::
              e in decided ==> InHistory(start, after, decided[e])
    ensures var after := decisions[d := row];
            forall e, f :: e in after && f in after && SameSlot(after[e], after[f]) ==> e == f
  {
    var decisions' := decisions[d := row];
    forall e | e in decisions'
      ensures InHistory(start, Bumped(businesses, row.business, row.committed), decisions'[e])
      ensures e != d ==> !SameSlot(decisions'[e], row)
    {
      if e != d {
        assert InHistory(start, businesses, decisions[e]);
      }
    }
    forall e, f | e in decisions' && f in decisions' && SameSlot(decisions'[e], decisions'[f]) ensures e == f {
      if e != d && f != d {
        assert SameSlot(decisions[e], decisions[f]);
      }
    }
  }

  // ---- The audit log ----

  lemma AnnouncedGrows(audits: seq<AuditEvent>, e: AuditEvent, k: IdempotencyKey, op: C.Operation)
    requires Announced(audits, k, op) || Announces(e, k, op)
    ensures Announced(audits + [e], k, op)
  {
    var after := audits + [e];
    if Announced(audits, k, op) {
      var i :| 0 <= i < |audits| && Announces(audits[i], k, op);
      assert after[i] == audits[i];
    } else {
      assert after[|audits|] == e;
    }
  }

  lemma QuietEventKeepsAudit(operations: map<IdempotencyKey, OperationRow>, audits: seq<AuditEvent>, e: AuditEvent)
    requires AuditInv(operations, audits) && !AuditIdUsed(audits, e.id)
    requires e.action != CommitExecuted && !e.id.CommitAudit?
    ensures AuditInv(operations, audits + [e])
  {
    forall k | k in operations ensures Announced(audits + [e], k, operations[k].operation) {
      AnnouncedGrows(audits, e, k, operations[k].operation);
    }
  }

  lemma AnnouncesOneStays(operations: map<IdempotencyKey, OperationRow>, k: IdempotencyKey, row: OperationRow,
                          e: AuditEvent)
    requires k !in operations
    requires AnnouncesOne(operations, e) || Announces(e, k, row.operation)
    ensures AnnouncesOne(operations[k := row], e)
  {
    var after := operations[k := row];
    if AnnouncesOne(operations, e) {
      var l :| l in operations && Announces(e, l, operations[l].operation);
      assert after[l] == operations[l];
    } else {
      assert after[k] == row;
    }
  }

  lemma CommitEventKeepsAudit(operations: map<IdempotencyKey, OperationRow>, audits: seq<AuditEvent>,
                              k: IdempotencyKey, row: OperationRow, e: AuditEvent)
    requires AuditInv(operations, audits) && !AuditIdUsed(audits, e.id) && k !in operations
    requires Announces(e, k, row.operation)
    ensures AuditInv(operations[k := row], audits + [e])
  {
    var operations', audits' := operations[k := row], audits + [e];
    forall i | 0 <= i < |audits'| && audits'[i].id.CommitAudit? ensures AnnouncesOne(operations', audits'[i]) {
      AnnouncesOneStays(operations, k, row, audits'[i]);
    }
    forall l | l in operations' ensures Announced(audits', l, operations'[l].operation) {
      AnnouncedGrows(audits, e, l, operations'[l].operation);
    }
  }

  /** An event about one proposal replays to that proposal's new life, and uses up some of what remained. */
  lemma EventKeepsFold(proposals: map<Id, ProposalRow>, versions: map<VersionKey, VersionRow>, audits: seq<AuditEvent>,
                       proposals': map<Id, ProposalRow>, versions': map<VersionKey, VersionRow>, e: AuditEvent, p: Id)
    requires FoldInv(proposals, versions, audits)
    requires proposals'.Keys == proposals.Keys + {p}
    requires forall q :: q in proposals && q != p ==>
               && proposals'[q].current == proposals[q].current
               && var k := VersionKey(q, proposals[q].current);
                  k in versions' && (k in versions ==> versions'[k] == versions[k])
    requires Concerns(e, p) && forall q :: Concerns(e, q) ==> q == p
    requires LifeIs(proposals', versions', p, ApplyEvent(FoldAudit(audits, p), e, p))
    requires p in proposals ==>
               Remaining(ApplyEvent(FoldAudit(audits, p), e, p).value) < Remaining(FoldAudit(audits, p).value)
    requires p !in proposals ==> 1 + Remaining(ApplyEvent(None, e, p).value) <= MAX_EVENTS
    ensures FoldInv(proposals', versions', audits + [e])
  {
    forall q ensures FoldAudit(audits + [e], q) == ApplyEvent(FoldAudit(audits, q), e, q)
             ensures EventsAbout(audits + [e], q) == EventsAbout(audits, q) + (if Concerns(e, q) then 1 else 0) {
      AuditNext(audits, e, q);
    }
  }

  /** The event of a status change of the current version. */
  ghost predicate Reports(e: AuditEvent, p: Id, status: P.Status) {
    && Concerns(e, p) && (forall q :: Concerns(e, q) ==> q == p)
    && forall life: Life :: ApplyEvent(Some(life), e, p) == Some(life.(status := status))
  }

  lemma StatusEventKeepsFold(proposals: map<Id, ProposalRow>, versions: map<VersionKey, VersionRow>,
                             audits: seq<AuditEvent>,
                             k: VersionKey, status: P.Status, e: AuditEvent)
    requires NumberingInv(proposals, versions) && FoldInv(proposals, versions, audits)
    requires k in versions && k.proposal in proposals && k.number == proposals[k.proposal].current
    requires StepsLeft(status) < StepsLeft(versions[k].version.status)
    requires Reports(e, k.proposal, status)
    ensures FoldInv(proposals, SetStatus(versions, k, status), audits + [e])
  {
    assert LifeIs(proposals, versions, k.proposal, FoldAudit(audits, k.proposal));
    EventKeepsFold(proposals, versions, audits, proposals, SetStatus(versions, k, status), e, k.proposal);
  }

  lemma OtherEventKeepsFold(proposals: map<Id, ProposalRow>, versions: map<VersionKey, VersionRow>,
                            audits: seq<AuditEvent>, e: AuditEvent)
    requires FoldInv(proposals, versions, audits)
    requires forall q :: !Concerns(e, q)
    ensures FoldInv(proposals, versions, audits + [e])
  {
    forall q ensures FoldAudit(audits + [e], q) == FoldAudit(audits, q)
             ensures EventsAbout(audits + [e], q) == EventsAbout(audits, q) {
      AuditNext(audits, e, q);
    }
  }
}
