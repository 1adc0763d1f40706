/** One idempotency key, one change of the store, one answer. */
module ExactlyOnce {
  import opened Core
  import opened Database
  import opened Transactions
  import opened Invariants
  import opened Safety
  import opened Evolution
  import opened Protocol
  import C = Commits
  import P = Proposals

  /** The answer a recorded operation gives: the recorded outcome to its own target, a
      conflict to any other. A recorded operation is never merely requested, and never failed. */
  lemma RecordedAnswer(start: map<Id, nat>, db: Db, input: CommitInput)
    requires DbInv(start, db) && IdempotencyKey(input.org, input.key) in db.operations
    ensures var op := db.operations[IdempotencyKey(input.org, input.key)].operation;
            && op.status == C.Succeeded && DecisionFor(op.id) in db.decisions
            && CommitLookup(db, input) ==
               if op.id == input.operation && op.proposal == input.proposal && op.versionId == input.versionId
                  && op.business == input.business
               then Some(Success(CommitOutcome(op.id, Some(DecisionFor(op.id)), C.Succeeded,
                                               db.decisions[DecisionFor(op.id)].committed, true)))
               else Some(Failure(IdempotencyConflict))
  {
    var key := IdempotencyKey(input.org, input.key);
    assert OperationDone(key, db.operations[key], db.decisions);
  }

  /** Once a key is recorded, every later call with it gets the same answer for ever and
      changes nothing. */
  lemma AnswerIsForever(start: map<Id, nat>, build: Build, s: System, steps: seq<Step>, input: CommitInput, now: int)
    requires SysInv(start, s) && IdempotencyKey(input.org, input.key) in s.db.operations
    ensures var t := Run(build, s, steps);
            && CommitLookup(t.db, input) == CommitLookup(s.db, input)
            && CommitLookup(t.db, input).Some?
            && (CommitTx(build, t.db, input, now).Success? ==> CommitTx(build, t.db, input, now).value.0 == t.db)
  {
    hide DbInv, ClientsInv, Next, CommitReserve, CommitApply;
    RunKeepsInv(start, build, s, steps);
  }

  predicate Retries(retry: CommitInput, input: CommitInput) {
    && retry.org == input.org && retry.key == input.key && retry.operation == input.operation
    && retry.business == input.business && retry.proposal == input.proposal && retry.versionId == input.versionId
  }

  lemma CommitAnswersRetry(build: Build, db: Db, input: CommitInput, expected: Option<nat>, now: int,
                           retry: CommitInput)
    requires NumberingInv(db.proposals, db.versions) && (expected.Some? ==> Reserved(db, input, expected))
    requires CommitApply(build, db, input, expected, now).Success? && Retries(retry, input)
    ensures var (after, first) := CommitApply(build, db, input, expected, now).value;
            && IdempotencyKey(input.org, input.key) in after.operations
            && CommitLookup(after, retry) == Some(Success(first.(replayed := true)))
  {
    hide CommitApply;
    CommitApplyEffect(build, db, input, expected, now);
    ReservedVersionIsLocked(build, db, input, expected, now);
  }

  lemma CommittedAnswers(start: map<Id, nat>, build: Build, s: System, c: nat, retry: CommitInput)
    requires SysInv(start, s) && Effect(build, s, ApplyCommit(c)).Success? && Retries(retry, s.clients[c].input)
    ensures var p, t := s.clients[c], Next(build, s, ApplyCommit(c));
            && IdempotencyKey(retry.org, retry.key) in t.db.operations
            && CommitLookup(t.db, retry)
               == Some(Success(CommitApply(build, s.db, p.input, p.expected, p.now).value.1.(replayed := true)))
  {
    hide CommitApply, CommitLookup, Reserved, NumberingInv;
    var p := s.clients[c];
    assert PendingInv(s.db, p);
    CommitAnswersRetry(build, s.db, p.input, p.expected, p.now, retry);
  }

  /** After a commit succeeds, a retry at any later time replays its outcome. */
  lemma RetryReplays(start: map<Id, nat>, build: Build, s: System, c: nat, steps: seq<Step>, retry: CommitInput)
    requires SysInv(start, s) && Effect(build, s, ApplyCommit(c)).Success? && Retries(retry, s.clients[c].input)
    ensures var p := s.clients[c];
            var first := CommitApply(build, s.db, p.input, p.expected, p.now).value.1;
            CommitLookup(Run(build, Next(build, s, ApplyCommit(c)), steps).db, retry)
            == Some(Success(first.(replayed := true)))
  {
    hide SysInv, Next, CommitApply, CommitLookup, StepsTo;
    CommittedAnswers(start, build, s, c, retry);
    NextKeepsInv(start, build, s, ApplyCommit(c));
    AnswerIsForever(start, build, Next(build, s, ApplyCommit(c)), steps, retry, 0);
  }

  /** The operation of a call is in the store: its key, its id and its business are taken. */
  predicate Taken(db: Db, input: CommitInput) {
    && SeesBusiness(db, input.org, input.business)
    && IdempotencyKey(input.org, input.key) in db.operations
    && db.operations[IdempotencyKey(input.org, input.key)].operation.id == input.operation
  }

  /** Nobody can stand in the way of a call whose operation is recorded, by holding its key or its id. */
  lemma TakenIsNotBlocked(start: map<Id, nat>, s: System, c: nat, input: CommitInput)
    requires SysInv(start, s) && Taken(s.db, input)
    ensures !Blocked(s, c, input)
  {
    hide DbInv, Reserved;
    forall d | d in s.clients && HoldsKeys(s.clients[d]) ensures !Clashes(s.clients[d].input, input) {
      assert PendingInv(s.db, s.clients[d]);
      HeldKeysAreFree(s.db, s.clients[d]);
      assert !OperationIdUsed(s.db.operations, s.clients[d].input.operation);
    }
  }

  /** A call that looked its key up too early for a replay finds it taken when it reserves: it gets a
      conflict and lets go. */
  lemma LateReservationConflicts(start: map<Id, nat>, build: Build, s: System, c: nat)
    requires SysInv(start, s) && c in s.clients && s.clients[c].CommitLooked? && Taken(s.db, s.clients[c].input)
    ensures CommitReserve(s.db, s.clients[c].input) == Failure(IdempotencyConflict)
    ensures Next(build, s, ReserveCommit(c)) == System(s.db, s.clients - {c})
  {
    hide SysInv, Blocked;
    TakenIsNotBlocked(start, s, c, s.clients[c].input);
  }

  lemma TakenStays(a: Db, b: Db, input: CommitInput)
    requires Extends(a, b) && Taken(a, input)
    ensures Taken(b, input)
  {
  }

  lemma CommitTakes(build: Build, db: Db, input: CommitInput, expected: Option<nat>, now: int, retry: CommitInput)
    requires CommitApply(build, db, input, expected, now).Success? && Retries(retry, input)
    ensures Taken(CommitApply(build, db, input, expected, now).value.0, retry)
  {
    CommitApplyEffect(build, db, input, expected, now);
  }

  /** A retry replays exactly when its lookup follows the commit: at every earlier time it finds nothing, at
      every later time the first outcome; and if it looked earlier and reserves later, it gets a conflict. */
  lemma ReplaysExactlyAfterCommit(start: map<Id, nat>, build: Build, s: System, before: seq<Step>, c: nat,
                                  after: seq<Step>, retry: CommitInput, d: nat)
    requires SysInv(start, s) && Effect(build, Run(build, s, before), ApplyCommit(c)).Success?
    requires Retries(retry, Run(build, s, before).clients[c].input)
    ensures CommitLookup(s.db, retry) == None
    ensures var t := Run(build, s, before);
            var p, u := t.clients[c], Run(build, Next(build, t, ApplyCommit(c)), after);
            && CommitLookup(u.db, retry)
               == Some(Success(CommitApply(build, t.db, p.input, p.expected, p.now).value.1.(replayed := true)))
            && (d in u.clients && u.clients[d].CommitLooked? && u.clients[d].input == retry ==>
                  && CommitReserve(u.db, retry) == Failure(IdempotencyConflict)
                  && Next(build, u, ReserveCommit(d)) == System(u.db, u.clients - {d}))
  {
    hide SysInv, Run, Next, Effect, CommitApply, CommitLookup, CommitReserve, Extends, Taken, Retries;
    var t := Run(build, s, before);
    RunKeepsInv(start, build, s, before);
    LookedTooEarly(start, build, s, t, c, retry);
    RetryReplays(start, build, t, c, after, retry);
    var u := Run(build, Next(build, t, ApplyCommit(c)), after);
    TakenAfter(start, build, t, c, after, retry);
    if d in u.clients && u.clients[d].CommitLooked? && u.clients[d].input == retry {
      LateReservationConflicts(start, build, u, d);
    }
  }

  lemma LookedTooEarly(start: map<Id, nat>, build: Build, s: System, t: System, c: nat, retry: CommitInput)
    requires SysInv(start, t) && Extends(s.db, t.db)
    requires Effect(build, t, ApplyCommit(c)).Success? && Retries(retry, t.clients[c].input)
    ensures CommitLookup(s.db, retry) == None
  {
    hide SysInv, Next, Effect, CommitApply;
    ApplyEffect(build, t, c);
    CommitNeedsNewKey(start, build, t, ApplyCommit(c), IdempotencyKey(retry.org, retry.key));
  }

  lemma TakenAfter(start: map<Id, nat>, build: Build, t: System, c: nat, after: seq<Step>, retry: CommitInput)
    requires SysInv(start, t) && Effect(build, t, ApplyCommit(c)).Success? && Retries(retry, t.clients[c].input)
    ensures SysInv(start, Run(build, Next(build, t, ApplyCommit(c)), after))
    ensures Taken(Run(build, Next(build, t, ApplyCommit(c)), after).db, retry)
  {
    hide SysInv, Run, Effect, CommitApply, Extends, Taken, Retries, ClientsAfter, StepsTo;
    ApplyEffect(build, t, c);
    var p, next := t.clients[c], Next(build, t, ApplyCommit(c));
    CommitTakes(build, t.db, p.input, p.expected, p.now, retry);
    NextKeepsInv(start, build, t, ApplyCommit(c));
    RunKeepsInv(start, build, next, after);
    TakenStays(next.db, Run(build, next, after).db, retry);
  }

  /** How many steps of a run committed under a key. */
  ghost function CommitsUnder(build: Build, s: System, steps: seq<Step>, key: IdempotencyKey): nat {
    if steps == [] then 0
    else
      var t, step := Run(build, s, steps[..|steps| - 1]), steps[|steps| - 1];
      CommitsUnder(build, s, steps[..|steps| - 1], key) + (if CommitsNow(build, t, step, key) then 1 else 0)
  }

  predicate CommitsNow(build: Build, s: System, step: Step, key: IdempotencyKey) {
    && step.ApplyCommit? && step.client in s.clients && s.clients[step.client].CommitReserved?
    && key == IdempotencyKey(s.clients[step.client].input.org, s.clients[step.client].input.key)
    && Effect(build, s, step).Success?
  }

  lemma CommitNeedsNewKey(start: map<Id, nat>, build: Build, s: System, step: Step, key: IdempotencyKey)
    requires SysInv(start, s) && CommitsNow(build, s, step, key)
    ensures key !in s.db.operations && key in Next(build, s, step).db.operations
  {
    hide DbInv, CommitApply, Reserved;
    var p := s.clients[step.client];
    assert PendingInv(s.db, p);
    CommitTakesNewKey(build, s.db, p.input, p.expected, p.now);
  }

  lemma CommitTakesNewKey(build: Build, db: Db, input: CommitInput, expected: Option<nat>, now: int)
    requires expected.Some? ==> Reserved(db, input, expected)
    requires CommitApply(build, db, input, expected, now).Success?
    ensures IdempotencyKey(input.org, input.key) !in db.operations
    ensures IdempotencyKey(input.org, input.key) in CommitApply(build, db, input, expected, now).value.0.operations
  {
    CommitApplyEffect(build, db, input, expected, now);
  }

  /** In any run, one organization and key change the store at most once, and not at all
      when the key was recorded before. */
  lemma {:induction false} KeyCommitsAtMostOnce(start: map<Id, nat>, build: Build, s: System, steps: seq<Step>,
                                                key: IdempotencyKey)
    requires SysInv(start, s)
    ensures CommitsUnder(build, s, steps, key) + (if key in s.db.operations then 1 else 0)
         <= (if key in Run(build, s, steps).db.operations then 1 else 0)
  {
    hide SysInv, Next;
    if steps != [] {
      var front, step := steps[..|steps| - 1], steps[|steps| - 1];
      var t := Run(build, s, front);
      KeyCommitsAtMostOnce(start, build, s, front, key);
      RunKeepsInv(start, build, s, front);
      if key in t.db.operations {
        RecordedKeyStays(start, build, t, step, key);
      }
      if CommitsNow(build, t, step, key) {
        CommitNeedsNewKey(start, build, t, step, key);
      }
    }
  }

  lemma RecordedKeyStays(start: map<Id, nat>, build: Build, s: System, step: Step, key: IdempotencyKey)
    requires SysInv(start, s) && key in s.db.operations
    ensures key in Next(build, s, step).db.operations
  {
    hide SysInv, Next, FollowsMachines;
    NextKeepsInv(start, build, s, step);
  }

  /** A proposal's request id is spent by its revision: no later revision of that proposal under it is saved. */
  lemma RevisionRequestIsSpent(start: map<Id, nat>, build: Build, s: System, steps: seq<Step>, actor: Actor,
                               next: P.Proposal, expected: nat, request: string)
    requires SysInv(start, s) && AuditIdUsed(s.db.audits, ProposalAudit(next.id, ProposalRevised, request))
    ensures SaveRevisionTx(Run(build, s, steps).db, actor, next, expected, request).Failure?
  {
    hide DbInv, ClientsInv, Next, MayOperate, VersionIdUsed;
    RunKeepsInv(start, build, s, steps);
    var end := Run(build, s, steps).db;
    var i :| 0 <= i < |s.db.audits| && s.db.audits[i].id == ProposalAudit(next.id, ProposalRevised, request);
    assert end.audits[i] == s.db.audits[i];
  }
}
