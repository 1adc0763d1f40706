/** When a fresh commit succeeds, and why the program text as it stands never lets one. */
module Committing {
  import opened Core
  import opened Text
  import opened Database
  import opened Transactions
  import opened Invariants
  import opened Evolution
  import opened Protocol
  import opened Approving
  import P = Proposals
  import A = Approvals
  import C = Commits

  /** What a caller can check before committing a version: business, user and proposal are of the tenant, the
      user is no viewer, the version is the current one, approved, based on the present business version, and
      no approval of it has run out. */
  predicate MayCommit(db: Db, input: CommitInput, now: int) {
    && input.business in db.businesses && db.businesses[input.business].org == input.org
    && Decides(db.users, input.org, input.actor) && input.authorized
    && input.proposal in db.proposals && db.proposals[input.proposal].org == input.org
    && db.proposals[input.proposal].business == input.business
    && var key := VersionKey(input.proposal, db.proposals[input.proposal].current);
       && key in db.versions && db.versions[key].org == input.org && db.versions[key].version.id == input.versionId
       && db.versions[key].version.status == P.Approved
       && db.versions[key].version.base == db.businesses[input.business].version
       && forall i :: 0 <= i < |db.approvals| && db.approvals[i].decision.versionId == input.versionId
            ==> db.approvals[i].decision.expiresAt.None? || now < db.approvals[i].decision.expiresAt.value
  }

  /** Neither the idempotency key nor the operation id is taken. */
  predicate NewCommit(db: Db, input: CommitInput) {
    && IdempotencyKey(input.org, input.key) !in db.operations
    && forall k :: k in db.operations ==> db.operations[k].operation.id != input.operation
  }

  /** With the ids read from the row, the step that locks and writes succeeds, whatever ran since
      the reservation, exactly when the reservation found the business and the actor may now
      commit the current, approved, up-to-date and unexpired version. */
  lemma ApplySucceedsIff(start: map<Id, nat>, s: System, c: nat)
    requires SysInv(start, s) && c in s.clients && s.clients[c].CommitReserved?
    ensures Effect(WithContextIds, s, ApplyCommit(c)).Success?
       <==> s.clients[c].expected.Some? && MayCommit(s.db, s.clients[c].input, s.clients[c].now)
  {
    hide DbInv, CommitApply, MayCommit, Effect;
    ApplyEffectIff(WithContextIds, s, c);
    var p := s.clients[c];
    assert PendingInv(s.db, p);
    if p.expected.Some? {
      HeldKeysAreFree(s.db, p);
      CommitApplyIff(start, s.db, p.input, p.expected, p.now);
    } else {
      NothingWithoutReservation(WithContextIds, s.db, p.input, p.now);
    }
  }

  /** The same for a commit with nothing between its reservation and its lock. */
  lemma CommitSucceedsIff(start: map<Id, nat>, db: Db, input: CommitInput, now: int)
    requires DbInv(start, db) && ValidCommitInput(input) && NewCommit(db, input)
    ensures CommitTx(WithContextIds, db, input, now).Success? <==> MayCommit(db, input, now)
  {
    hide DbInv, CommitApply;
    if CommitReserve(db, input).Success? && CommitReserve(db, input).value.Some? {
      CommitApplyIff(start, db, input, CommitReserve(db, input).value, now);
    } else {
      NothingWithoutReservation(WithContextIds, db, input, now);
      if MayCommit(db, input, now) {
        ReservesWhatIsCurrent(db, input);
      }
    }
  }

  lemma ReservesWhatIsCurrent(db: Db, input: CommitInput)
    requires NewCommit(db, input) && SeesBusiness(db, input.org, input.business)
    requires IsCurrent(db, input.org, input.business, input.proposal, input.versionId)
    ensures CommitReserve(db, input) == Success(Some(db.businesses[input.business].version))
  {
    var k := VersionKey(input.proposal, db.proposals[input.proposal].current);
    assert k in db.versions && db.versions[k].version.id == input.versionId && db.versions[k].org == input.org;
  }

  lemma NothingWithoutReservation(build: Build, db: Db, input: CommitInput, now: int)
    ensures CommitApply(build, db, input, None, now).Failure?
  {
  }

  lemma CommitApplyIff(start: map<Id, nat>, db: Db, input: CommitInput, expected: Option<nat>, now: int)
    requires DbInv(start, db) && ValidCommitInput(input) && NewCommit(db, input) && expected.Some?
    ensures CommitApply(WithContextIds, db, input, expected, now).Success? <==> MayCommit(db, input, now)
  {
    if MayCommit(db, input, now) {
      var k := VersionKey(input.proposal, db.proposals[input.proposal].current);
      NothingRecorded(start, db, input, k);
      GuardAccepts(start, db, input, now, k);
      NothingStopsIt(db, input, expected, now, k);
    } else if CommitApply(WithContextIds, db, input, expected, now).Success? {
      SuccessMayCommit(start, db, input, expected, now);
    }
  }

  lemma NothingStopsIt(db: Db, input: CommitInput, expected: Option<nat>, now: int, k: VersionKey)
    requires MayCommit(db, input, now) && NewCommit(db, input) && expected.Some?
    requires k == VersionKey(input.proposal, db.proposals[input.proposal].current)
    requires DecisionFor(input.operation) !in db.decisions && !AuditIdUsed(db.audits, CommitAudit(input.operation))
    requires forall d :: d in db.decisions ==> db.decisions[d].versionId != input.versionId
    requires LatestApproval(db, input, |db.approvals|).Some?
    requires C.Accepts(GuardInput(WithContextIds, db, input, db.versions[k].version,
                                  LatestApproval(db, input, |db.approvals|).value.decision, now))
    ensures CommitApply(WithContextIds, db, input, expected, now).Success?
  {
  }

  lemma SuccessMayCommit(start: map<Id, nat>, db: Db, input: CommitInput, expected: Option<nat>, now: int)
    requires DbInv(start, db) && CommitApply(WithContextIds, db, input, expected, now).Success?
    ensures MayCommit(db, input, now)
  {
    hide DbInv, LatestApproval;
    forall i | 0 <= i < |db.approvals| && db.approvals[i].decision.versionId == input.versionId
      ensures db.approvals[i].decision.Unexpired(now)
    {
      LatestApprovalIsTheOnlyOne(start, db, input, i);
    }
  }

  /** A version that is not committed has left no trace in the tables a commit writes. */
  lemma NothingRecorded(start: map<Id, nat>, db: Db, input: CommitInput, k: VersionKey)
    requires DbInv(start, db) && NewCommit(db, input)
    requires k in db.versions && db.versions[k].version.id == input.versionId
    requires db.versions[k].version.status != P.Committed
    ensures DecisionFor(input.operation) !in db.decisions && !AuditIdUsed(db.audits, CommitAudit(input.operation))
    ensures forall d :: d in db.decisions ==> db.decisions[d].versionId != input.versionId
  {
    forall d | d in db.decisions
      ensures d != DecisionFor(input.operation) && db.decisions[d].versionId != input.versionId
    {
      assert OperationIdUsed(db.operations, d.operation);
      assert Enacted(db.proposals, db.versions, db.decisions[d]);
    }
    forall i | 0 <= i < |db.audits| ensures db.audits[i].id != CommitAudit(input.operation) {
      assert db.audits[i].id.CommitAudit? ==> AnnouncesOne(db.operations, db.audits[i]);
    }
  }

  /** The rows a commit reads have passed the checks of the domain types. */
  lemma CurrentRowsAreSound(start: map<Id, nat>, db: Db, org: Id, business: Id, proposal: Id, versionId: Id)
    requires DbInv(start, db) && SeesBusiness(db, org, business) && IsCurrent(db, org, business, proposal, versionId)
    ensures var row := db.versions[VersionKey(proposal, db.proposals[proposal].current)];
            && row.version.Valid() && row.version.proposal == proposal
            && SoundProposal(proposal, db.proposals[proposal])
    ensures db.businesses[business].version != 0
  {
    var k := VersionKey(proposal, db.proposals[proposal].current);
    assert SoundVersion(db.versions[k]) && SoundProposal(proposal, db.proposals[proposal]);
    assert NumberedRow(db.proposals, k, db.versions[k]);
  }

  /** A decided version has an approval row, which passed the checks of its type. */
  lemma DecidedHasApproval(start: map<Id, nat>, db: Db, k: VersionKey) returns (i: nat)
    requires DbInv(start, db) && k in db.versions && P.Decided(db.versions[k].version.status)
    ensures i < |db.approvals| && db.approvals[i].decision.versionId == db.versions[k].version.id
    ensures db.approvals[i].decision.Valid(0) && Records(db.users, db.proposals, db.approvals[i], k, db.versions[k])
  {
    assert HasApproval(db.approvals, db.versions[k].version.id);
    i :| 0 <= i < |db.approvals| && db.approvals[i].decision.versionId == db.versions[k].version.id;
    ApprovalMatches(db, i, k);
    assert SoundApproval(db.approvals[i]);
  }

  lemma GuardAccepts(start: map<Id, nat>, db: Db, input: CommitInput, now: int, k: VersionKey)
    requires DbInv(start, db) && ValidCommitInput(input) && MayCommit(db, input, now)
    requires k == VersionKey(input.proposal, db.proposals[input.proposal].current)
    ensures var approval := LatestApproval(db, input, |db.approvals|);
            && approval.Some?
            && C.Accepts(GuardInput(WithContextIds, db, input, db.versions[k].version, approval.value.decision, now))
  {
    hide DbInv, LatestApproval, ValidCommitInput, SoundProposal, C.Accepts, GuardInput;
    var i := DecidedHasApproval(start, db, k);
    LatestApprovalIsTheOnlyOne(start, db, input, i);
    CurrentRowsAreSound(start, db, input.org, input.business, input.proposal, input.versionId);
    AcceptsSoundRows(db, input, now, k, db.approvals[i].decision);
  }

  lemma AcceptsSoundRows(db: Db, input: CommitInput, now: int, k: VersionKey, a: A.Decision)
    requires ValidCommitInput(input) && MayCommit(db, input, now) && db.businesses[input.business].version != 0
    requires k == VersionKey(input.proposal, db.proposals[input.proposal].current) && db.versions[k].version.Valid()
    requires SoundProposal(input.proposal, db.proposals[input.proposal])
    requires a.Valid(0) && a.status == A.Approved && a.proposal == input.proposal && a.versionId == input.versionId
    requires a.business == input.business && a.Unexpired(now)
    ensures C.Accepts(GuardInput(WithContextIds, db, input, db.versions[k].version, a, now))
  {
  }

  // ---- The program text ----

  /** The proposal the program text hands to the guard is never valid. */
  lemma AsWrittenRefusesEveryCommit(db: Db, input: CommitInput, expected: Option<nat>, now: int)
    ensures CommitApply(AsWritten, db, input, expected, now).Failure?
  {
    assert TrimSpace("") == "";
  }

  /** So in no run of the program text does any business version change, nor is any
      operation or decision ever recorded. */
  lemma {:induction false} AsWrittenNeverCommits(start: map<Id, nat>, s: System, steps: seq<Step>)
    requires SysInv(start, s)
    ensures var t := Run(AsWritten, s, steps);
            t.db.businesses == s.db.businesses && t.db.operations == s.db.operations && t.db.decisions == s.db.decisions
  {
    hide DbInv, ClientsInv, Effect, ClientsAfter;
    if steps != [] {
      var front := steps[..|steps| - 1];
      AsWrittenNeverCommits(start, s, front);
      RunKeepsInv(start, AsWritten, s, front);
      AsWrittenStepKeeps(start, Run(AsWritten, s, front), steps[|steps| - 1]);
    }
  }

  lemma AsWrittenStepKeeps(start: map<Id, nat>, s: System, step: Step)
    requires SysInv(start, s)
    ensures NoCommit(s.db, Next(AsWritten, s, step).db)
  {
    hide DbInv, ClientsInv, ClientsAfter, CommitApply, StepsTo;
    if Effect(AsWritten, s, step).Success? {
      EffectSound(start, AsWritten, s, step);
      if step.ApplyCommit? {
        var p := s.clients[step.client];
        AsWrittenRefusesEveryCommit(s.db, p.input, p.expected, p.now);
      }
    }
  }
}
