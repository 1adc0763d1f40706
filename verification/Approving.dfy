/** One approval row per decided version, so that the commit's search for the latest one never chooses. */
module Approving {
  import opened Core
  import opened Database
  import opened Transactions
  import opened Invariants
  import P = Proposals
  import A = Approvals

  function ApprovalsOf(approvals: seq<ApprovalRow>, versionId: Id): set<nat> {
    set i: nat | i < |approvals| && approvals[i].decision.versionId == versionId
  }

  /** The decision a version status stands for. */
  function DecisionBehind(status: P.Status): A.Status {
    if status == P.Rejected then A.Rejected else A.Approved
  }

  /** An approved, rejected or committed version has exactly one approval row, with the
      matching decision; any other version has none. */
  lemma OneApprovalPerDecidedVersion(start: map<Id, nat>, db: Db, k: VersionKey)
    requires DbInv(start, db) && k in db.versions
    ensures var v := db.versions[k].version;
            && |ApprovalsOf(db.approvals, v.id)| == (if P.Decided(v.status) then 1 else 0)
            && forall i :: i in ApprovalsOf(db.approvals, v.id) ==>
                 && db.approvals[i].decision.status == DecisionBehind(v.status)
                 && db.approvals[i].decision.proposal == k.proposal
  {
    hide NumberingInv, ScenarioInv, ReferenceInv, SoundInv, ChainInv, OperationInv, DecisionInv, HistoryInv;
    hide FoldInv, AuditInv;
    var v := db.versions[k].version;
    forall i | i in ApprovalsOf(db.approvals, v.id)
      ensures P.Decided(v.status) && db.approvals[i].decision.status == DecisionBehind(v.status)
              && db.approvals[i].decision.proposal == k.proposal
    {
      ApprovalMatches(db, i, k);
    }
    if P.Decided(v.status) {
      assert HasApproval(db.approvals, v.id);
      var i :| 0 <= i < |db.approvals| && db.approvals[i].decision.versionId == v.id;
      assert ApprovalsOf(db.approvals, v.id) == {i};
    } else {
      assert ApprovalsOf(db.approvals, v.id) == {};
    }
  }

  lemma ApprovalMatches(db: Db, i: nat, k: VersionKey)
    requires NumberingInv(db.proposals, db.versions) && ApprovalInv(db.users, db.proposals, db.versions, db.approvals)
    requires k in db.versions && i < |db.approvals| && db.approvals[i].decision.versionId == db.versions[k].version.id
    ensures Records(db.users, db.proposals, db.approvals[i], k, db.versions[k])
  {
    assert Recorded(db.users, db.proposals, db.versions, db.approvals[i]);
  }

  /** An approval of this version of this proposal of this business, by a user who is no viewer. */
  predicate Approves(db: Db, input: CommitInput, a: ApprovalRow) {
    && a.org == input.org && a.decision.status == A.Approved && a.decision.versionId == input.versionId
    && a.decision.proposal == input.proposal && a.decision.business == input.business
    && Decides(db.users, input.org, a.decision.decidedBy)
  }

  /** In any store the search for the latest approval ends at one that no other was created after, and finds
      none only if there is none. */
  lemma {:induction false} LatestApprovalIsLatest(db: Db, input: CommitInput, n: nat)
    requires n <= |db.approvals|
    ensures match LatestApproval(db, input, n)
            case None => forall i :: 0 <= i < n ==> !Approves(db, input, db.approvals[i])
            case Some(a) =>
              && a in db.approvals[..n] && Approves(db, input, a)
              && forall i :: 0 <= i < n && Approves(db, input, db.approvals[i])
                   ==> db.approvals[i].createdAt <= a.createdAt
  {
    if n > 0 {
      LatestApprovalIsLatest(db, input, n - 1);
      assert MatchingApproval(db, input, db.approvals[n - 1]) <==> Approves(db, input, db.approvals[n - 1]);
      hide MatchingApproval, Approves;
      assert db.approvals[..n] == db.approvals[..n - 1] + [db.approvals[n - 1]];
    }
  }

  /** Whichever row the latest approval of the current version could be, it is the only one. */
  lemma LatestApprovalIsTheOnlyOne(start: map<Id, nat>, db: Db, input: CommitInput, i: nat)
    requires DbInv(start, db) && IsCurrent(db, input.org, input.business, input.proposal, input.versionId)
    requires i < |db.approvals| && db.approvals[i].decision.versionId == input.versionId
    ensures var v := db.versions[VersionKey(input.proposal, db.proposals[input.proposal].current)].version;
            LatestApproval(db, input, |db.approvals|)
            == if v.status == P.Rejected then None else Some(db.approvals[i])
  {
    ApprovalMatches(db, i, VersionKey(input.proposal, db.proposals[input.proposal].current));
    LatestAmongUnique(db, input, i, |db.approvals|);
  }

  lemma {:induction false} LatestAmongUnique(db: Db, input: CommitInput, i: nat, n: nat)
    requires n <= |db.approvals| && i < |db.approvals|
    requires forall j :: 0 <= j < |db.approvals| && j != i ==> db.approvals[j].decision.versionId != input.versionId
    ensures LatestApproval(db, input, n)
            == if i < n && MatchingApproval(db, input, db.approvals[i]) then Some(db.approvals[i]) else None
  {
    if n > 0 {
      LatestAmongUnique(db, input, i, n - 1);
    }
  }
}
