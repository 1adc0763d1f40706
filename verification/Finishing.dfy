/** That drafts do get through: a current draft at the present business version, with nobody in its way,
    is reviewed, approved and committed. */
module Finishing {
  import opened Core
  import opened Text
  import opened Database
  import opened Transactions
  import opened Workflow
  import opened Invariants
  import opened Protocol
  import opened Committing
  import Safety
  import P = Proposals
  import A = Approvals
  import Approving

  /** What one owner or operator brings along to take one draft to its commit. */
  datatype Finish = Finish(actor: Actor, business: Id, proposal: Id, version: Id, reason: string, approval: Id,
                           operation: Id, key: string, request: string)

  predicate SoundFinish(f: Finish) {
    && ValidId(f.actor.org) && ValidId(f.actor.id) && ValidId(f.business) && ValidId(f.proposal) && ValidId(f.version)
    && ValidId(f.approval) && ValidId(f.operation)
    && ValidText(f.reason) && !IsBlank(f.key) && !IsBlank(f.request)
  }

  function KeyOf(db: Db, f: Finish): VersionKey
    requires f.proposal in db.proposals
  {
    VersionKey(f.proposal, db.proposals[f.proposal].current)
  }

  /** The named version is the current one, a draft, and based on the present business version. */
  predicate Open(db: Db, f: Finish) {
    && SeesBusiness(db, f.actor.org, f.business)
    && IsCurrent(db, f.actor.org, f.business, f.proposal, f.version)
    && db.versions[KeyOf(db, f)].version.status == P.Draft
    && db.versions[KeyOf(db, f)].version.base == db.businesses[f.business].version
  }

  predicate MayFinish(db: Db, f: Finish) {
    && SoundFinish(f) && Open(db, f)
    && Decides(db.users, f.actor.org, f.actor.id)
    && !ApprovalIdUsed(db.approvals, f.approval) && NewCommit(db, CommitInputOf(f))
    && !AuditIdUsed(db.audits, ProposalAudit(f.proposal, ProposalSubmitted, f.request))
    && !AuditIdUsed(db.audits, ApprovalAudit(f.proposal, f.version, f.actor.id, ProposalApproved, f.request))
  }

  lemma MeansSoundAndOpen(db: Db, f: Finish)
    requires MayFinish(db, f)
    ensures SoundFinish(f) && Open(db, f)
  {
  }

  function ReviewArgsOf(f: Finish): ReviewArgs {
    ReviewArgs(f.actor, f.business, f.proposal, f.request)
  }

  function DecideArgsOf(f: Finish): DecideArgs {
    DecideArgs(f.actor, f.proposal, f.version, f.business, A.Approved, f.reason, f.request)
  }

  function CommitInputOf(f: Finish): CommitInput {
    CommitInput(f.actor.org, f.operation, f.key, f.business, f.proposal, f.version, f.actor.id, f.request, true)
  }

  /** The steps of client `c` that carry a draft through. */
  function FinishSteps(c: nat, f: Finish): seq<Step> {
    [ReadToReview(c, ReviewArgsOf(f)), WriteReview(c), Decide(DecideArgsOf(f), f.approval, None, 0),
     BeginCommit(c, CommitInputOf(f), 0), ReserveCommit(c), ApplyCommit(c)]
  }

  // ---- The store after each write ----

  /** The store with the version's status moved on. */
  function Moved(a: Db, f: Finish, status: P.Status, approvals: seq<ApprovalRow>, events: seq<AuditEvent>): Db
    requires Open(a, f)
  {
    var row := a.versions[KeyOf(a, f)];
    a.(versions := a.versions[KeyOf(a, f) := row.(version := row.version.(status := status))],
       approvals := a.approvals + approvals, audits := a.audits + events)
  }

  function ViewOf(a: Db, f: Finish): P.Proposal
    requires Open(a, f)
  {
    var row := a.proposals[f.proposal];
    P.Proposal(f.proposal, row.business, row.goal, a.versions[KeyOf(a, f)].version, row.current)
  }

  function SubmittedEvent(a: Db, f: Finish): AuditEvent
    requires Open(a, f)
  {
    ProposalEvent(f.actor, f.proposal, ProposalSubmitted, f.request, SubmittedVersion(KeyOf(a, f).number))
  }

  function ApprovalOf(f: Finish): ApprovalRow {
    ApprovalRow(f.actor.org, 0, DecisionOf(DecideArgsOf(f), f.approval, None))
  }

  function ApprovedEvent(f: Finish): AuditEvent {
    DecisionEvent(f.actor.org, ApprovalOf(f).decision, f.request)
  }

  function InReview(a: Db, f: Finish): Db
    requires Open(a, f)
  {
    Moved(a, f, P.InReview, [], [SubmittedEvent(a, f)])
  }

  function Approved(a: Db, f: Finish): Db
    requires Open(a, f)
  {
    Moved(a, f, P.Approved, [ApprovalOf(f)], [SubmittedEvent(a, f), ApprovedEvent(f)])
  }

  lemma DraftIsRead(start: map<Id, nat>, a: Db, f: Finish)
    requires DbInv(start, a) && Open(a, f) && f.business != ""
    ensures GetProposal(a, f.actor.org, f.business, f.proposal) == Success(ViewOf(a, f))
    ensures ViewOf(a, f).current.number == KeyOf(a, f).number
  {
    var k := KeyOf(a, f);
    assert SoundVersion(a.versions[k]) && SoundProposal(f.proposal, a.proposals[f.proposal]);
    assert NumberedRow(a.proposals, k, a.versions[k]);
  }

  lemma ReviewStage(a: Db, f: Finish)
    requires MayFinish(a, f) && ViewOf(a, f).current.number == KeyOf(a, f).number
    ensures FinishReview(a, ReviewArgsOf(f), ViewOf(a, f)) == Success(InReview(a, f))
  {
    hide AuditIdUsed, ApprovalIdUsed, IsBlank, NewCommit;
    assert a.approvals + [] == a.approvals;
  }

  lemma StillUnused(audits: seq<AuditEvent>, e: AuditEvent, id: AuditId)
    requires !AuditIdUsed(audits, id) && e.id != id
    ensures !AuditIdUsed(audits + [e], id)
  {
  }

  lemma DecideStage(a: Db, f: Finish)
    requires MayFinish(a, f) && a.businesses[f.business].version != 0
    ensures RecordDecisionTx(InReview(a, f), f.actor.org, ApprovalOf(f).decision, 0, f.request)
         == Success(Approved(a, f))
  {
    StillUnused(a.audits, SubmittedEvent(a, f), ApprovedEvent(f).id);
    hide AuditIdUsed, ApprovalIdUsed, IsBlank, NewCommit, TrimSpace;
    assert a.approvals + [] == a.approvals;
    assert a.audits + [SubmittedEvent(a, f)] + [ApprovedEvent(f)]
        == a.audits + [SubmittedEvent(a, f), ApprovedEvent(f)];
    var row := a.versions[KeyOf(a, f)];
    assert InReview(a, f).versions[KeyOf(a, f) := VersionRow(f.actor.org, row.version.(status := P.Approved))]
        == Approved(a, f).versions;
  }

  /** No approval names a version that is still a draft. */
  lemma NoApprovalYet(a: Db, f: Finish)
    requires NumberingInv(a.proposals, a.versions) && ApprovalInv(a.users, a.proposals, a.versions, a.approvals)
    requires Open(a, f)
    ensures forall i :: 0 <= i < |a.approvals| ==> a.approvals[i].decision.versionId != f.version
  {
    forall i | 0 <= i < |a.approvals| ensures a.approvals[i].decision.versionId != f.version {
      if a.approvals[i].decision.versionId == f.version {
        Approving.ApprovalMatches(a, i, KeyOf(a, f));
      }
    }
  }

  lemma ReadyToCommit(a: Db, f: Finish)
    requires MayFinish(a, f)
    requires forall i :: 0 <= i < |a.approvals| ==> a.approvals[i].decision.versionId != f.version
    ensures var db, input := Approved(a, f), CommitInputOf(f);
            && ValidCommitInput(input) && CommitLookup(db, input) == None && NewCommit(db, input)
            && CommitReserve(db, input) == Success(Some(a.businesses[f.business].version)) && MayCommit(db, input, 0)
  {
    hide AuditIdUsed, ApprovalIdUsed, TrimSpace;
    var db := Approved(a, f);
    assert KeyOf(a, f) in db.versions && db.versions[KeyOf(a, f)].version.id == f.version;
  }

  // ---- The run ----

  lemma LetsGo(clients: map<nat, Pending>, c: nat, p: Pending)
    requires c !in clients
    ensures clients[c := p] - {c} == clients
  {
  }

  lemma ReviewsAs(db: Db, clients: map<nat, Pending>, c: nat, args: ReviewArgs, view: P.Proposal, after: Db)
    requires c !in clients
    requires ValidReview(args) && GetProposal(db, args.actor.org, args.business, args.proposal) == Success(view)
    requires FinishReview(db, args, view) == Success(after)
    ensures var read := Next(WithContextIds, System(db, clients), ReadToReview(c, args));
            Next(WithContextIds, read, WriteReview(c)) == System(after, clients)
  {
    hide ValidReview, GetProposal, FinishReview;
    LetsGo(clients, c, ReviewRead(args, view));
  }

  lemma DecidesAs(db: Db, clients: map<nat, Pending>, args: DecideArgs, id: Id, after: Db)
    requires ValidDecide(args) && ValidId(id)
    requires RecordDecisionTx(db, args.actor.org, DecisionOf(args, id, None), 0, args.request) == Success(after)
    ensures Next(WithContextIds, System(db, clients), Decide(args, id, None, 0)) == System(after, clients)
  {
    hide ValidDecide, ValidId, RecordDecisionTx;
  }

  lemma LooksNext(db: Db, clients: map<nat, Pending>, c: nat, input: CommitInput)
    requires ValidCommitInput(input) && CommitLookup(db, input) == None
    ensures Next(WithContextIds, System(db, clients), BeginCommit(c, input, 0))
         == System(db, clients[c := CommitLooked(input, 0)])
  {
    hide ValidCommitInput, CommitLookup;
  }

  lemma ReservesNext(db: Db, clients: map<nat, Pending>, c: nat, input: CommitInput, version: nat)
    requires CommitReserve(db, input) == Success(Some(version)) && !Blocked(System(db, clients), c, input)
    ensures Next(WithContextIds, System(db, clients[c := CommitLooked(input, 0)]), ReserveCommit(c))
         == System(db, clients[c := CommitReserved(input, 0, Some(version))])
  {
    hide CommitReserve, Clashes;
    assert clients[c := CommitLooked(input, 0)][c := CommitReserved(input, 0, Some(version))]
        == clients[c := CommitReserved(input, 0, Some(version))];
  }

  lemma NothingYet(build: Build, s: System, steps: seq<Step>)
    ensures Run(build, s, steps[..0]) == s
  {
  }

  lemma PrefixNext(build: Build, s: System, steps: seq<Step>, i: nat)
    requires i < |steps|
    ensures Run(build, s, steps[..i + 1]) == Next(build, Run(build, s, steps[..i]), steps[i])
  {
    hide Next;
    assert steps[..i + 1][..i] == steps[..i];
  }

  lemma TwoMore(build: Build, s: System, steps: seq<Step>, i: nat)
    requires i + 1 < |steps|
    ensures Run(build, s, steps[..i + 2])
         == Next(build, Next(build, Run(build, s, steps[..i]), steps[i]), steps[i + 1])
  {
    hide Next;
    PrefixNext(build, s, steps, i);
    PrefixNext(build, s, steps, i + 1);
  }

  lemma FinishStepsAre(c: nat, f: Finish)
    ensures var steps := FinishSteps(c, f);
            && |steps| == 6
            && steps[0] == ReadToReview(c, ReviewArgsOf(f)) && steps[1] == WriteReview(c)
            && steps[2] == Decide(DecideArgsOf(f), f.approval, None, 0)
            && steps[3] == BeginCommit(c, CommitInputOf(f), 0) && steps[4] == ReserveCommit(c)
            && steps[5] == ApplyCommit(c)
  {
  }

  lemma CallsAreValid(f: Finish)
    requires SoundFinish(f)
    ensures ValidReview(ReviewArgsOf(f)) && ValidDecide(DecideArgsOf(f)) && ValidId(f.approval) && f.business != ""
  {
    assert TrimSpace("") == "";
  }

  lemma PresentVersionIsPositive(start: map<Id, nat>, a: Db, business: Id)
    requires DbInv(start, a) && business in a.businesses
    ensures a.businesses[business].version != 0
  {
    assert a.businesses[business].version >= 1;
  }

  lemma ReachesReview(start: map<Id, nat>, s: System, c: nat, f: Finish)
    requires DbInv(start, s.db) && c !in s.clients && MayFinish(s.db, f)
    ensures Run(WithContextIds, s, FinishSteps(c, f)[..2]) == System(InReview(s.db, f), s.clients)
  {
    hide DbInv, Run, Next, MayFinish, SoundFinish, Open, FinishSteps, GetProposal, FinishReview, InReview, ViewOf;
    hide ValidReview;
    MeansSoundAndOpen(s.db, f);
    CallsAreValid(f);
    DraftIsRead(start, s.db, f);
    ReviewStage(s.db, f);
    var steps := FinishSteps(c, f);
    FinishStepsAre(c, f);
    NothingYet(WithContextIds, s, steps);
    ReviewsAs(s.db, s.clients, c, ReviewArgsOf(f), ViewOf(s.db, f), InReview(s.db, f));
    TwoMore(WithContextIds, s, steps, 0);
  }

  /** The first three steps leave the version approved. */
  lemma ReachesApproval(start: map<Id, nat>, s: System, c: nat, f: Finish)
    requires DbInv(start, s.db) && c !in s.clients && MayFinish(s.db, f)
    ensures Run(WithContextIds, s, FinishSteps(c, f)[..3]) == System(Approved(s.db, f), s.clients)
  {
    MeansSoundAndOpen(s.db, f);
    CallsAreValid(f);
    PresentVersionIsPositive(start, s.db, f.business);
    DecideStage(s.db, f);
    hide DbInv, Run, Next, MayFinish, SoundFinish, Open, FinishSteps, RecordDecisionTx, InReview, Approved;
    hide ValidDecide, ValidId;
    var steps := FinishSteps(c, f);
    FinishStepsAre(c, f);
    ReachesReview(start, s, c, f);
    DecidesAs(InReview(s.db, f), s.clients, DecideArgsOf(f), f.approval, Approved(s.db, f));
    PrefixNext(WithContextIds, s, steps, 2);
  }

  function Reservation(a: Db, f: Finish): Pending
    requires Open(a, f)
  {
    CommitReserved(CommitInputOf(f), 0, Some(a.businesses[f.business].version))
  }

  lemma SameBlocks(s: System, db: Db, c: nat, input: CommitInput)
    ensures Blocked(System(db, s.clients), c, input) == Blocked(s, c, input)
  {
  }

  /** The steps before the last leave the approved version under a reservation. */
  lemma ReachesTheLock(start: map<Id, nat>, s: System, c: nat, f: Finish)
    requires DbInv(start, s.db) && c !in s.clients && !Blocked(s, c, CommitInputOf(f)) && MayFinish(s.db, f)
    ensures MayCommit(Approved(s.db, f), CommitInputOf(f), 0)
    ensures Run(WithContextIds, s, FinishSteps(c, f)[..5])
         == System(Approved(s.db, f), s.clients[c := Reservation(s.db, f)])
  {
    var db, input := Approved(s.db, f), CommitInputOf(f);
    NoApprovalYet(s.db, f);
    ReadyToCommit(s.db, f);
    ReachesApproval(start, s, c, f);
    hide DbInv, Run, Next, MayFinish, Open, FinishSteps, Approved, MayCommit, CommitLookup, CommitReserve, NewCommit;
    hide ValidCommitInput, Blocked;
    var steps := FinishSteps(c, f);
    FinishStepsAre(c, f);
    SameBlocks(s, db, c, input);
    LooksNext(db, s.clients, c, input);
    ReservesNext(db, s.clients, c, input, s.db.businesses[f.business].version);
    TwoMore(WithContextIds, s, steps, 3);
  }

  lemma CommitsLast(start: map<Id, nat>, s: System, c: nat, input: CommitInput, version: nat)
    requires SysInv(start, s) && c in s.clients && s.clients[c] == CommitReserved(input, 0, Some(version))
    requires MayCommit(s.db, input, 0)
    ensures var end := Next(WithContextIds, s, ApplyCommit(c));
            && input.business in s.db.businesses && input.proposal in s.db.proposals
            && VersionKey(input.proposal, s.db.proposals[input.proposal].current) in s.db.versions
            && end.clients == s.clients - {c} && end.db == Committed(s.db, input, version)
  {
    hide SysInv, Effect, CommitApply, Committed;
    ApplySucceedsIff(start, s, c);
    ApplyEffect(WithContextIds, s, c);
    Safety.CommitApplyEffect(WithContextIds, s.db, input, Some(version), 0);
  }

  /** The events of a finish, in order. */
  function FinishEvents(a: Db, f: Finish): seq<AuditEvent>
    requires Open(a, f)
  {
    [SubmittedEvent(a, f), ApprovedEvent(f), CommitEvent(CommitInputOf(f))]
  }

  /** The business is one version on, the decision is recorded with the draft's summary, and the log has
      grown by exactly the three events of the draft's review, approval and commit. */
  predicate Finished(a: Db, f: Finish, end: Db)
    requires Open(a, f)
  {
    var b := a.businesses[f.business];
    && end.proposals == a.proposals && end.businesses == a.businesses[f.business := b.(version := b.version + 1)]
    && end.decisions == a.decisions[DecisionFor(f.operation) :=
                          DecisionRow(f.actor.org, f.business, f.proposal, f.version, b.version + 1,
                                      a.versions[KeyOf(a, f)].version.summary)]
    && end.audits == a.audits + FinishEvents(a, f)
  }

  /** Whatever consistent store holds a current draft at the present business version, and whatever other
      clients hold: if none of them has taken the key or the operation id, six steps commit the draft. */
  lemma DraftsCommit(start: map<Id, nat>, s: System, c: nat, f: Finish)
    requires SysInv(start, s) && c !in s.clients && !Blocked(s, c, CommitInputOf(f)) && MayFinish(s.db, f)
    ensures var end := Run(WithContextIds, s, FinishSteps(c, f));
            end.clients == s.clients && Finished(s.db, f, end.db)
  {
    hide Run, Next, DbInv, ClientsInv, MayFinish, FinishSteps, MayCommit, Approved, Blocked, Finished, Open;
    hide Reservation;
    MeansSoundAndOpen(s.db, f);
    var steps := FinishSteps(c, f);
    FinishStepsAre(c, f);
    ReachesTheLock(start, s, c, f);
    RunKeepsInv(start, WithContextIds, s, steps[..5]);
    EndsCommitted(start, s, System(Approved(s.db, f), s.clients[c := Reservation(s.db, f)]), c, f);
    PrefixNext(WithContextIds, s, steps, 5);
    assert steps[..6] == steps;
  }

  lemma EndsCommitted(start: map<Id, nat>, s: System, t: System, c: nat, f: Finish)
    requires Open(s.db, f) && c !in s.clients
    requires SysInv(start, t) && t == System(Approved(s.db, f), s.clients[c := Reservation(s.db, f)])
    requires MayCommit(t.db, CommitInputOf(f), 0)
    ensures var end := Next(WithContextIds, t, ApplyCommit(c));
            end.clients == s.clients && Finished(s.db, f, end.db)
  {
    hide SysInv, Next, MayCommit;
    CommitsLast(start, t, c, CommitInputOf(f), s.db.businesses[f.business].version);
    LetsGo(s.clients, c, Reservation(s.db, f));
  }
}
