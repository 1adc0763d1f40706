/** Every run amounts to whole operations, one after the other. */
module Serialization {
  import opened Core
  import opened Database
  import opened Transactions
  import opened Workflow
  import opened Invariants
  import opened Protocol
  import opened Atomicity
  import S = Scenarios
  import Planning
  import Businesses

  /** A call that reads and writes with nothing in between. A simulation still brings along the
      snapshot and the goal it read: the program does not look at them again at the write. */
  datatype Operation =
    | SetConstraint(actor: Actor, goal: Id, constraint: Planning.Constraint, request: string)
    | Draft(actor: Actor, candidate: S.Scenario, request: string)
    | Simulate(simulate: SimulateArgs, snapshot: Businesses.Snapshot, goalRead: Planning.Goal)
    | Propose(create: CreateArgs, proposalId: Id, versionId: Id)
    | Revise(revise: ReviseArgs, versionId: Id)
    | Review(review: ReviewArgs)
    | DecideOn(args: DecideArgs, approvalId: Id, expiresAt: Option<int>, createdAt: int)
    | Commit(input: CommitInput, now: int)

  function Perform(build: Build, db: Db, op: Operation): Result<Db> {
    match op
    case SetConstraint(actor, goal, constraint, request) => AddConstraintTx(db, actor, goal, constraint, request)
    case Draft(actor, candidate, request) =>
      if candidate.Valid() then CreateScenarioTx(db, actor, candidate, request) else Failure(InvalidInput)
    case Simulate(args, snapshot, goal) => SimulateNow(db, args, Success(goal), Success(snapshot))
    case Propose(args, proposalId, versionId) => ProposeNow(db, args, proposalId, versionId)
    case Revise(args, versionId) => ReviseNow(db, args, versionId)
    case Review(args) => ReviewNow(db, args)
    case DecideOn(args, id, expiresAt, createdAt) => DecideNow(db, args, id, expiresAt, createdAt)
    case Commit(input, now) =>
      match CommitTx(build, db, input, now)
      case Failure(e) => Failure(e)
      case Success((after, _)) => Success(after)
  }

  /** Each operation on the store the ones before it left; fails if one of them does. */
  function PerformAll(build: Build, db: Db, ops: seq<Operation>): Result<Db> {
    if ops == [] then Success(db)
    else match PerformAll(build, db, ops[..|ops| - 1])
      case Failure(e) => Failure(e)
      case Success(before) => Perform(build, before, ops[|ops| - 1])
  }

  /** The operation whose write a step is. */
  function OperationOf(s: System, step: Step): Option<Operation> {
    match step
    case AddConstraint(actor, goal, constraint, request) => Some(SetConstraint(actor, goal, constraint, request))
    case CreateScenario(actor, candidate, request) => Some(Draft(actor, candidate, request))
    case WriteSimulation(c, snapshot) =>
      if c in s.clients && s.clients[c].SimulateReady?
      then Some(Simulate(s.clients[c].simulate, snapshot, s.clients[c].goal)) else None
    case WriteProposal(c, proposalId, versionId) =>
      if c in s.clients && s.clients[c].ProposeRead?
      then Some(Propose(s.clients[c].create, proposalId, versionId))
      else None
    case WriteRevision(c, versionId) =>
      if c in s.clients && s.clients[c].ReviseRead? then Some(Revise(s.clients[c].revise, versionId)) else None
    case WriteReview(c) =>
      if c in s.clients && s.clients[c].ReviewRead? then Some(Review(s.clients[c].review)) else None
    case Decide(args, id, expiresAt, createdAt) => Some(DecideOn(args, id, expiresAt, createdAt))
    case ApplyCommit(c) =>
      if c in s.clients && s.clients[c].CommitReserved?
      then Some(Commit(s.clients[c].input, s.clients[c].now))
      else None
    case _ => None
  }

  /** Each write does to the store what its whole operation would do at that moment. */
  lemma StepIsItsOperation(start: map<Id, nat>, build: Build, s: System, step: Step)
    requires SysInv(start, s) && Effect(build, s, step).Success?
    ensures OperationOf(s, step).Some? && Perform(build, s.db, OperationOf(s, step).value) == Effect(build, s, step)
  {
    hide DbInv, ClientsInv, AddConstraintTx, CreateScenarioTx, RecordDecisionTx, CommitTx, CommitApply, ValidDecide;
    hide SimulateNow, ProposeNow, ReviseNow, ReviewNow, FinishSimulation, FinishProposal, FinishRevision;
    hide FinishReview, UpToDate;
    match step
    case WriteSimulation(c, snapshot) => SimulationIsAtomic(start, s, c, snapshot);
    case WriteProposal(c, proposalId, versionId) => CreationIsAtomic(start, s, c, proposalId, versionId);
    case WriteRevision(c, versionId) => RevisionIsAtomic(start, s, c, versionId);
    case WriteReview(c) => ReviewIsAtomic(start, s, c);
    case ApplyCommit(c) => CommitIsAtomic(start, build, s, c);
    case _ =>
  }

  /** The operations of the steps of a run that wrote, in their order. */
  function Writes(build: Build, s: System, steps: seq<Step>): seq<Operation> {
    if steps == [] then []
    else
      var t, last := Run(build, s, steps[..|steps| - 1]), steps[|steps| - 1];
      var before := Writes(build, s, steps[..|steps| - 1]);
      var op := OperationOf(t, last);
      if Effect(build, t, last).Success? && op.Some? then before + [op.value] else before
  }

  /** In any run, however its clients are interleaved and however stale what they hold, the store
      ends as if the operations that wrote had been performed whole, one after the other. */
  lemma {:induction false} RunsAreSerializable(start: map<Id, nat>, build: Build, s: System, steps: seq<Step>)
    requires SysInv(start, s)
    ensures PerformAll(build, s.db, Writes(build, s, steps)) == Success(Run(build, s, steps).db)
  {
    if steps != [] {
      hide SysInv, Effect, ClientsAfter, OperationOf, Perform, PerformAll;
      var front, last := steps[..|steps| - 1], steps[|steps| - 1];
      var t := Run(build, s, front);
      RunsAreSerializable(start, build, s, front);
      RunKeepsInv(start, build, s, front);
      if Effect(build, t, last).Success? {
        StepIsItsOperation(start, build, t, last);
        OneMore(build, s.db, Writes(build, s, front), OperationOf(t, last).value, t.db);
      }
    } else {
      assert PerformAll(build, s.db, []) == Success(s.db);
    }
  }

  lemma OneMore(build: Build, db: Db, before: seq<Operation>, op: Operation, reached: Db)
    requires PerformAll(build, db, before) == Success(reached)
    ensures PerformAll(build, db, before + [op]) == Perform(build, reached, op)
  {
    hide Perform;
    assert (before + [op])[..|before|] == before;
  }
}
