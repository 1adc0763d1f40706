/** Statements about whole runs: how rows came to be what they are. */
module Histories {
  import opened Core
  import opened Database
  import opened Transactions
  import opened Invariants
  import opened Evolution
  import opened Protocol
  import opened Approving
  import P = Proposals

  /** The store before the step with this number; the store at the end for the number of steps. */
  function StoreAt(build: Build, s: System, steps: seq<Step>, i: nat): Db
    requires i <= |steps|
  {
    Run(build, s, steps[..i]).db
  }

  lemma StepAt(start: map<Id, nat>, build: Build, s: System, steps: seq<Step>, i: nat)
    requires SysInv(start, s) && i < |steps|
    ensures DbInv(start, StoreAt(build, s, steps, i)) && DbInv(start, StoreAt(build, s, steps, i + 1))
    ensures StepsTo(StoreAt(build, s, steps, i), StoreAt(build, s, steps, i + 1))
  {
    hide DbInv, ClientsInv, Next, StepsTo;
    assert steps[..i + 1][..i] == steps[..i];
    RunKeepsInv(start, build, s, steps[..i]);
    NextKeepsInv(start, build, Run(build, s, steps[..i]), steps[i]);
  }

  /** In any run every row starts as a draft and every status changes by one transition of its machine. */
  lemma EveryStepFollowsTheMachines(start: map<Id, nat>, build: Build, s: System, steps: seq<Step>, i: nat)
    requires SysInv(start, s) && i < |steps|
    ensures FollowsMachines(StoreAt(build, s, steps, i), StoreAt(build, s, steps, i + 1))
  {
    hide SysInv, Run, FollowsMachines, Extends;
    StepAt(start, build, s, steps, i);
  }

  /** A version whose base is behind its business stays behind. What was not decided by
      then never is, and what was decided keeps its status. */
  lemma StalenessIsPermanent(start: map<Id, nat>, build: Build, s: System, steps: seq<Step>, k: VersionKey)
    requires SysInv(start, s) && Stale(s.db, k)
    ensures var end := Run(build, s, steps).db;
            && Stale(end, k)
            && (if P.Decided(s.db.versions[k].version.status)
                then end.versions[k].version.status == s.db.versions[k].version.status
                else !P.Decided(end.versions[k].version.status))
  {
    hide ClientsInv, Next;
    RunKeepsInv(start, build, s, steps);
    StaleGrows(s.db, Run(build, s, steps).db, k);
    UndecidedWhenStale(s.db, Run(build, s, steps).db, k);
  }

  lemma UndecidedWhenStale(a: Db, b: Db, k: VersionKey)
    requires Extends(a, b) && Stale(a, k)
    ensures k in b.versions
    ensures P.Decided(b.versions[k].version.status) ==> b.versions[k].version.status == a.versions[k].version.status
    ensures P.Decided(a.versions[k].version.status) ==> P.Decided(b.versions[k].version.status)
  {
    assert VersionEvolves(a.versions[k], b.versions[k]);
  }

  /** A version past being a draft is never superseded in any run, although the machine allows it. */
  lemma OnlyDraftsAreSuperseded(start: map<Id, nat>, build: Build, s: System, steps: seq<Step>, k: VersionKey)
    requires SysInv(start, s) && k in s.db.versions && s.db.versions[k].version.status != P.Draft
    ensures var end := Run(build, s, steps).db;
            && k in end.versions
            && (end.versions[k].version.status == P.Superseded ==> s.db.versions[k].version.status == P.Superseded)
  {
    hide DbInv, ClientsInv, Next;
    RunKeepsInv(start, build, s, steps);
    assert VersionEvolves(s.db.versions[k], Run(build, s, steps).db.versions[k]);
  }

  /** Step `i` takes version `k` from one status to another. */
  ghost predicate Takes(build: Build, s: System, steps: seq<Step>, i: nat, k: VersionKey, from: P.Status, to: P.Status)
    requires i < |steps|
  {
    var a, b := StoreAt(build, s, steps, i), StoreAt(build, s, steps, i + 1);
    k in a.versions && k in b.versions && a.versions[k].version.status == from && b.versions[k].version.status == to
  }

  predicate HasStatus(db: Db, k: VersionKey, status: P.Status) {
    k in db.versions && db.versions[k].version.status == status
  }

  /** A status other than draft was entered at some step, along a transition. */
  lemma {:induction false} StatusWasEntered(start: map<Id, nat>, build: Build, s: System, steps: seq<Step>, n: nat,
                                            k: VersionKey, status: P.Status) returns (i: nat)
    requires SysInv(start, s) && n <= |steps| && status != P.Draft
    requires HasStatus(StoreAt(build, s, steps, n), k, status) && !HasStatus(s.db, k, status)
    ensures i < n && k in StoreAt(build, s, steps, i).versions
    ensures var from := StoreAt(build, s, steps, i).versions[k].version.status;
            Moves(from, status) && Takes(build, s, steps, i, k, from, status)
  {
    hide SysInv, DbInv, Next, Extends;
    i := n - 1;
    StepAt(start, build, s, steps, i);
    if HasStatus(StoreAt(build, s, steps, i), k, status) {
      i := StatusWasEntered(start, build, s, steps, i, k, status);
    }
  }

  /** A version is decided only while its business is at its base. */
  lemma DecidedAtItsBase(start: map<Id, nat>, build: Build, s: System, steps: seq<Step>, i: nat, k: VersionKey,
                         from: P.Status, to: P.Status)
    requires SysInv(start, s) && i < |steps| && Takes(build, s, steps, i, k, from, to) && P.Decided(to) && from != to
    ensures var db := StoreAt(build, s, steps, i);
            && k.proposal in db.proposals && db.proposals[k.proposal].business in db.businesses
            && db.businesses[db.proposals[k.proposal].business].version == db.versions[k].version.base
  {
    StepAt(start, build, s, steps, i);
    BaseReached(start, StoreAt(build, s, steps, i), k);
    assert !Stale(StoreAt(build, s, steps, i), k);
  }

  /** The step that approves a version is the one that records its approval. */
  lemma ApprovalRecordedThen(start: map<Id, nat>, build: Build, s: System, steps: seq<Step>, i: nat, k: VersionKey)
    requires SysInv(start, s) && i < |steps| && Takes(build, s, steps, i, k, P.InReview, P.Approved)
    ensures var a, b := StoreAt(build, s, steps, i), StoreAt(build, s, steps, i + 1);
            && |ApprovalsOf(a.approvals, a.versions[k].version.id)| == 0
            && |ApprovalsOf(b.approvals, b.versions[k].version.id)| == 1
            && a.versions[k].version.id == b.versions[k].version.id
  {
    hide DbInv, ClientsInv, Next, FollowsMachines;
    var a, b := StoreAt(build, s, steps, i), StoreAt(build, s, steps, i + 1);
    StepAt(start, build, s, steps, i);
    OneApprovalPerDecidedVersion(start, a, k);
    OneApprovalPerDecidedVersion(start, b, k);
    assert VersionEvolves(a.versions[k], b.versions[k]);
  }

  /** Version `k` was approved at step `i`, committed at the later step `j`, and became decision
      V+1; at both steps its business was at V, the version's base. */
  ghost predicate HasPast(build: Build, s: System, steps: seq<Step>, d: DecisionId, k: VersionKey, i: nat, j: nat) {
    && i < j < |steps|
    && Takes(build, s, steps, i, k, P.InReview, P.Approved) && Takes(build, s, steps, j, k, P.Approved, P.Committed)
    && var end := Run(build, s, steps).db;
       && d in end.decisions && k in end.versions && Enacts(end.proposals, end.decisions[d], k, end.versions[k])
       && BusinessAt(StoreAt(build, s, steps, i), end.decisions[d].business, end.decisions[d].committed - 1)
       && BusinessAt(StoreAt(build, s, steps, j), end.decisions[d].business, end.decisions[d].committed - 1)
  }

  predicate BusinessAt(db: Db, business: Id, version: int) {
    business in db.businesses && db.businesses[business].version == version
  }

  /** Every decision that any run from a seeded store makes has such a past. */
  lemma DecisionsHaveAPast(build: Build, db: Db, steps: seq<Step>, d: DecisionId)
    returns (k: VersionKey, i: nat, j: nat)
    requires Seeded(db) && d in Run(build, System(db, map[]), steps).db.decisions
    ensures HasPast(build, System(db, map[]), steps, d, k, i, j)
  {
    hide Run, DbInv, HasPast;
    SeededInv(db);
    k, i, j := PastOf(StartOf(db), build, System(db, map[]), steps, d);
  }

  lemma PastOf(start: map<Id, nat>, build: Build, s: System, steps: seq<Step>, d: DecisionId)
    returns (k: VersionKey, i: nat, j: nat)
    requires SysInv(start, s) && s.db.versions == map[] && d in Run(build, s, steps).db.decisions
    ensures HasPast(build, s, steps, d, k, i, j)
  {
    hide DbInv, ClientsInv, Next, Enacts, BusinessAt, Takes, HasStatus;
    RunKeepsInv(start, build, s, steps);
    k := EnactedVersion(start, Run(build, s, steps).db, d);
    i, j := ApprovedThenCommitted(start, build, s, steps, k);
    AtTheBase(start, build, s, steps, i, k, d, P.InReview, P.Approved);
    AtTheBase(start, build, s, steps, j, k, d, P.Approved, P.Committed);
  }

  lemma ApprovedThenCommitted(start: map<Id, nat>, build: Build, s: System, steps: seq<Step>, k: VersionKey)
    returns (i: nat, j: nat)
    requires SysInv(start, s) && k !in s.db.versions && HasStatus(Run(build, s, steps).db, k, P.Committed)
    ensures i < j < |steps|
    ensures Takes(build, s, steps, i, k, P.InReview, P.Approved)
    ensures Takes(build, s, steps, j, k, P.Approved, P.Committed)
  {
    hide SysInv, Next;
    assert steps[..|steps|] == steps;
    j := StatusWasEntered(start, build, s, steps, |steps|, k, P.Committed);
    i := StatusWasEntered(start, build, s, steps, j, k, P.Approved);
  }

  /** The business was at the version below the committed one when `k` was decided. */
  lemma AtTheBase(start: map<Id, nat>, build: Build, s: System, steps: seq<Step>, i: nat, k: VersionKey, d: DecisionId,
                  from: P.Status, to: P.Status)
    requires SysInv(start, s) && i < |steps| && Takes(build, s, steps, i, k, from, to) && P.Decided(to) && from != to
    requires var end := Run(build, s, steps).db;
             d in end.decisions && k in end.versions && Enacts(end.proposals, end.decisions[d], k, end.versions[k])
    ensures var decision := Run(build, s, steps).db.decisions[d];
            BusinessAt(StoreAt(build, s, steps, i), decision.business, decision.committed - 1)
  {
    DecidedAtItsBase(start, build, s, steps, i, k, from, to);
    RowsKeepTheirBase(start, build, s, steps, i, k);
  }

  lemma EnactedVersion(start: map<Id, nat>, db: Db, d: DecisionId) returns (k: VersionKey)
    requires DbInv(start, db) && d in db.decisions
    ensures HasStatus(db, k, P.Committed) && Enacts(db.proposals, db.decisions[d], k, db.versions[k])
  {
    assert Enacted(db.proposals, db.versions, db.decisions[d]);
    k :| k in db.versions && Enacts(db.proposals, db.decisions[d], k, db.versions[k]);
  }

  /** The base of a version and the business of its proposal are the same at the end as at step `i`. */
  lemma RowsKeepTheirBase(start: map<Id, nat>, build: Build, s: System, steps: seq<Step>, i: nat, k: VersionKey)
    requires SysInv(start, s) && i <= |steps| && k in StoreAt(build, s, steps, i).versions
    requires k.proposal in StoreAt(build, s, steps, i).proposals
    ensures var a, b := StoreAt(build, s, steps, i), Run(build, s, steps).db;
            && k in b.versions && b.versions[k].version.base == a.versions[k].version.base
            && k.proposal in b.proposals && b.proposals[k.proposal].business == a.proposals[k.proposal].business
  {
    LaterStore(start, build, s, steps, i);
    var a, b := StoreAt(build, s, steps, i), Run(build, s, steps).db;
    assert VersionEvolves(a.versions[k], b.versions[k]);
  }

  lemma {:induction false} LaterStore(start: map<Id, nat>, build: Build, s: System, steps: seq<Step>, i: nat)
    requires SysInv(start, s) && i <= |steps|
    ensures Extends(StoreAt(build, s, steps, i), Run(build, s, steps).db)
    decreases |steps| - i
  {
    hide SysInv, Next, Extends, FollowsMachines, DbInv;
    if i == |steps| {
      assert steps[..i] == steps;
      ExtendsReflexive(Run(build, s, steps).db);
    } else {
      StepAt(start, build, s, steps, i);
      LaterStore(start, build, s, steps, i + 1);
      ExtendsTransitive(StoreAt(build, s, steps, i), StoreAt(build, s, steps, i + 1), Run(build, s, steps).db);
    }
  }
}
