/** Many clients on one store. A client reads in one transaction and writes in another, so
    what it holds may be stale; a commit inserts its operation row before it locks anything. */
module Protocol {
  import opened Core
  import opened Text
  import opened Database
  import opened Transactions
  import opened Workflow
  import opened Invariants
  import opened Safety
  import opened Evolution
  import S = Scenarios
  import P = Proposals
  import Planning
  import Businesses
  import Simulation
  import Comparisons

  datatype SimulateArgs = SimulateArgs(actor: Actor, business: Id, scenario: Id, request: string)

  /** What a client holds between two of its transactions. */
  datatype Pending =
    | ReviseRead(revise: ReviseArgs, view: P.Proposal)
    | ReviewRead(review: ReviewArgs, view: P.Proposal)
    | ProposeRead(create: CreateArgs, scenario: S.Scenario)
    | SimulateRead(simulate: SimulateArgs, scenario: S.Scenario)
    | SimulateReady(simulate: SimulateArgs, scenario: S.Scenario, goal: Planning.Goal)
    | CommitLooked(input: CommitInput, now: int)
    | CommitReserved(input: CommitInput, now: int, expected: Option<nat>)

  datatype System = System(db: Db, clients: map<nat, Pending>)

  /** One transaction of one client, or a client giving up (which is also what an aborted
      transaction amounts to). Ids, clock readings and snapshots are arguments: whatever they
      are, the step is covered. */
  datatype Step =
    | AddConstraint(actor: Actor, goal: Id, constraint: Planning.Constraint, request: string)
    | CreateScenario(actor: Actor, candidate: S.Scenario, request: string)
    | ReadToSimulate(client: nat, simulate: SimulateArgs)
    | ReadGoal(client: nat, goalRead: Planning.Goal)
    | WriteSimulation(client: nat, snapshot: Businesses.Snapshot)
    | ReadToPropose(client: nat, create: CreateArgs)
    | WriteProposal(client: nat, proposalId: Id, versionId: Id)
    | ReadToRevise(client: nat, revise: ReviseArgs)
    | WriteRevision(client: nat, versionId: Id)
    | ReadToReview(client: nat, review: ReviewArgs)
    | WriteReview(client: nat)
    | Decide(args: DecideArgs, approvalId: Id, expiresAt: Option<int>, createdAt: int)
    | BeginCommit(client: nat, input: CommitInput, now: int)
    | ReserveCommit(client: nat)
    | ApplyCommit(client: nat)
    | Abandon(client: nat)

  predicate ValidSimulate(args: SimulateArgs) {
    && ValidId(args.actor.org) && ValidId(args.actor.id) && ValidId(args.business) && ValidId(args.scenario)
    && !IsBlank(args.request)
  }

  // ---- The writes of clients, from what they hold ----

  function FinishSimulation(db: Db, args: SimulateArgs, scenario: S.Scenario,
                            snapshot: Businesses.Snapshot, goal: Planning.Goal): Result<Db>
  {
    match Simulation.SimulationOf(snapshot, goal, scenario)
    case Failure(e) => Failure(e)
    case Success(candidate) => UpdateSimulationTx(db, args.actor, candidate, scenario.version, args.request)
  }

  function SimulateNow(db: Db, args: SimulateArgs, goal: Result<Planning.Goal>,
                       snapshot: Result<Businesses.Snapshot>): Result<Db>
  {
    if !ValidSimulate(args) then Failure(InvalidInput)
    else match GetScenario(db, args.actor.org, args.business, args.scenario)
      case Failure(e) => Failure(e)
      case Success(scenario) =>
        if goal.Failure? then Failure(goal.error)
        else if snapshot.Failure? then Failure(snapshot.error)
        else FinishSimulation(db, args, scenario, snapshot.value, goal.value)
  }

  function FinishProposal(db: Db, args: CreateArgs, scenario: S.Scenario, proposalId: Id, versionId: Id): Result<Db> {
    match PlanProposal(args, scenario, proposalId, versionId)
    case Failure(e) => Failure(e)
    case Success(first) => CreateProposalTx(db, args.actor, first, args.request)
  }

  function FinishRevision(db: Db, args: ReviseArgs, view: P.Proposal, versionId: Id): Result<Db> {
    match PlanRevision(args, view, versionId)
    case Failure(e) => Failure(e)
    case Success(next) => SaveRevisionTx(db, args.actor, next, view.current.number, args.request)
  }

  function FinishReview(db: Db, args: ReviewArgs, view: P.Proposal): Result<Db> {
    if !Reviewable(args, view) then Failure(ProposalState)
    else SubmitReviewTx(db, args.actor, args.proposal, view.current.number, args.request)
  }

  /** The new store when a step writes successfully. */
  function Effect(build: Build, s: System, step: Step): Result<Db> {
    match step
    case AddConstraint(actor, goal, constraint, request) => AddConstraintTx(s.db, actor, goal, constraint, request)
    case CreateScenario(actor, candidate, request) =>
      if candidate.Valid() then CreateScenarioTx(s.db, actor, candidate, request) else Failure(InvalidInput)
    case WriteSimulation(c, snapshot) =>
      if c in s.clients && s.clients[c].SimulateReady?
      then FinishSimulation(s.db, s.clients[c].simulate, s.clients[c].scenario, snapshot, s.clients[c].goal)
      else Failure(InvalidInput)
    case WriteProposal(c, proposalId, versionId) =>
      if c in s.clients && s.clients[c].ProposeRead?
      then FinishProposal(s.db, s.clients[c].create, s.clients[c].scenario, proposalId, versionId)
      else Failure(InvalidInput)
    case WriteRevision(c, versionId) =>
      if c in s.clients && s.clients[c].ReviseRead?
      then FinishRevision(s.db, s.clients[c].revise, s.clients[c].view, versionId) else Failure(InvalidInput)
    case WriteReview(c) =>
      if c in s.clients && s.clients[c].ReviewRead?
      then FinishReview(s.db, s.clients[c].review, s.clients[c].view) else Failure(InvalidInput)
    case Decide(args, id, expiresAt, createdAt) => DecideNow(s.db, args, id, expiresAt, createdAt)
    case ApplyCommit(c) =>
      if c in s.clients && s.clients[c].CommitReserved?
      then match CommitApply(build, s.db, s.clients[c].input, s.clients[c].expected, s.clients[c].now)
           case Failure(e) => Failure(e)
           case Success((after, _)) => Success(after)
      else Failure(InvalidInput)
    case _ => Failure(InvalidInput)
  }

  /** Another transaction holds the unique key or the primary key this one wants to insert. */
  predicate Blocked(s: System, client: nat, input: CommitInput) {
    exists c :: c in s.clients && c != client && HoldsKeys(s.clients[c]) && Clashes(s.clients[c].input, input)
  }

  /** An operation row has been inserted and not yet committed or rolled back. */
  predicate HoldsKeys(p: Pending) {
    p.CommitReserved? && p.expected.Some?
  }

  predicate Clashes(a: CommitInput, b: CommitInput) {
    (a.org == b.org && a.key == b.key) || a.operation == b.operation
  }

  /** What the clients hold after a step. */
  function ClientsAfter(s: System, step: Step): map<nat, Pending> {
    match step
    case AddConstraint(_, _, _, _) => s.clients
    case CreateScenario(_, _, _) => s.clients
    case Decide(_, _, _, _) => s.clients
    case ReadToSimulate(c, args) =>
      var read := GetScenario(s.db, args.actor.org, args.business, args.scenario);
      if ValidSimulate(args) && read.Success? then s.clients[c := SimulateRead(args, read.value)] else s.clients
    case ReadGoal(c, goal) =>
      if c in s.clients && s.clients[c].SimulateRead? && goal.id == s.clients[c].scenario.goal
         && ShowsGoal(s.db, s.clients[c].simulate.actor.org, s.clients[c].simulate.business, goal)
      then s.clients[c := SimulateReady(s.clients[c].simulate, s.clients[c].scenario, goal)] else s.clients
    case ReadToPropose(c, args) =>
      var read := GetScenario(s.db, args.actor.org, args.business, args.scenario);
      if ValidCreate(args) && read.Success? then s.clients[c := ProposeRead(args, read.value)] else s.clients
    case ReadToRevise(c, args) =>
      var read := GetProposal(s.db, args.actor.org, args.business, args.proposal);
      if ValidRevise(args) && read.Success? then s.clients[c := ReviseRead(args, read.value)] else s.clients
    case ReadToReview(c, args) =>
      var read := GetProposal(s.db, args.actor.org, args.business, args.proposal);
      if ValidReview(args) && read.Success? then s.clients[c := ReviewRead(args, read.value)] else s.clients
    case BeginCommit(c, input, now) =>
      if ValidCommitInput(input) && CommitLookup(s.db, input).None?
      then s.clients[c := CommitLooked(input, now)]
      else s.clients
    case ReserveCommit(c) =>
      if !(c in s.clients && s.clients[c].CommitLooked?) || Blocked(s, c, s.clients[c].input) then s.clients
      else
        var reserved := CommitReserve(s.db, s.clients[c].input);
        if reserved.Success?
        then s.clients[c := CommitReserved(s.clients[c].input, s.clients[c].now, reserved.value)]
        else s.clients - {c}
    case _ => s.clients - {step.client}
  }

  /** A step that fails leaves the store alone. */
  function Next(build: Build, s: System, step: Step): System {
    var effect := Effect(build, s, step);
    System(if effect.Success? then effect.value else s.db, ClientsAfter(s, step))
  }

  function Run(build: Build, s: System, steps: seq<Step>): System {
    if steps == [] then s else Next(build, Run(build, s, steps[..|steps| - 1]), steps[|steps| - 1])
  }

  // ---- What a stale read still tells ----

  ghost predicate HoldsDraft(db: Db, args: SimulateArgs, scenario: S.Scenario) {
    && ValidSimulate(args) && scenario.id == args.scenario && scenario.business == args.business
    && scenario.id in db.scenarios
    && (db.scenarios[scenario.id].scenario.status == S.Draft ==> db.scenarios[scenario.id].scenario == scenario)
  }

  ghost predicate PendingInv(db: Db, p: Pending) {
    match p
    case ReviseRead(args, view) =>
      && ValidRevise(args) && view.id == args.proposal && (args.business == "" || args.business == view.business)
      && Shows(db, args.actor.org, view)
    case ReviewRead(args, view) =>
      && ValidReview(args) && view.id == args.proposal && (args.business == "" || args.business == view.business)
      && Shows(db, args.actor.org, view)
    case ProposeRead(args, scenario) =>
      && ValidCreate(args) && scenario.id == args.scenario && scenario.id in db.scenarios
      && db.scenarios[scenario.id].org == args.actor.org
      && (S.Usable(scenario) ==> scenario.status == S.Simulated && db.scenarios[scenario.id].scenario == scenario)
    case SimulateRead(args, scenario) => HoldsDraft(db, args, scenario)
    case SimulateReady(args, scenario, goal) => HoldsDraft(db, args, scenario)
    case CommitLooked(input, _) => ValidCommitInput(input)
    case CommitReserved(input, _, expected) =>
      ValidCommitInput(input) && (expected.Some? ==> Reserved(db, input, expected))
  }

  ghost predicate ClientsInv(db: Db, clients: map<nat, Pending>) {
    && (forall c {:trigger PendingInv(db, clients[c])} :: c in clients ==> PendingInv(db, clients[c]))
    && (forall c, d :: c in clients && d in clients && c != d && HoldsKeys(clients[c]) && HoldsKeys(clients[d])
                       ==> !Clashes(clients[c].input, clients[d].input))
  }

  ghost predicate SysInv(start: map<Id, nat>, s: System) {
    DbInv(start, s.db) && ClientsInv(s.db, s.clients)
  }

  // ---- Each effect keeps the invariants and is a step forward ----

  /** The tables only a commit writes are the same. */
  predicate NoCommit(a: Db, b: Db) {
    a.businesses == b.businesses && a.operations == b.operations && a.decisions == b.decisions
  }

  lemma SimulationIsDraftOf(snapshot: Businesses.Snapshot, goal: Planning.Goal, scenario: S.Scenario)
    requires Simulation.SimulationOf(snapshot, goal, scenario).Success?
    ensures var c := Simulation.SimulationOf(snapshot, goal, scenario).value;
            DraftOf(scenario, c) && c.id == scenario.id && c.result.calculated && Comparisons.Justified(c)
  {
  }

  lemma WriteSimulationSound(start: map<Id, nat>, db: Db, args: SimulateArgs, scenario: S.Scenario,
                             snapshot: Businesses.Snapshot, goal: Planning.Goal)
    requires DbInv(start, db) && HoldsDraft(db, args, scenario)
    requires FinishSimulation(db, args, scenario, snapshot, goal).Success?
    ensures var after := FinishSimulation(db, args, scenario, snapshot, goal).value;
            DbInv(start, after) && StepsTo(db, after) && NoCommit(db, after)
  {
    SimulationIsDraftOf(snapshot, goal, scenario);
    var candidate := Simulation.SimulationOf(snapshot, goal, scenario).value;
    UpdateSimulationWasDraft(db, args.actor, candidate, scenario.version, args.request);
    UpdateSimulationKeepsInv(start, db, args.actor, candidate, scenario.version, args.request);
    UpdateSimulationSteps(db, args.actor, candidate, scenario.version, args.request);
    UpdateSimulationEffect(db, args.actor, candidate, scenario.version, args.request);
  }

  lemma UpdateSimulationWasDraft(db: Db, actor: Actor, candidate: S.Scenario, expected: nat, request: string)
    requires UpdateSimulationTx(db, actor, candidate, expected, request).Success?
    ensures candidate.id in db.scenarios && db.scenarios[candidate.id].scenario.status == S.Draft
  {
  }

  lemma NumberedStore(start: map<Id, nat>, db: Db)
    requires DbInv(start, db)
    ensures NumberingInv(db.proposals, db.versions)
  {
  }

  lemma WriteProposalSound(start: map<Id, nat>, db: Db, args: CreateArgs, scenario: S.Scenario, proposalId: Id,
                           versionId: Id)
    requires DbInv(start, db) && PendingInv(db, ProposeRead(args, scenario))
    requires FinishProposal(db, args, scenario, proposalId, versionId).Success?
    ensures var after := FinishProposal(db, args, scenario, proposalId, versionId).value;
            DbInv(start, after) && StepsTo(db, after) && NoCommit(db, after)
  {
    hide StepsTo, CreateProposalTx, DbInv, Grounded, GoodSummary, SoundVersion;
    var first := PlanProposal(args, scenario, proposalId, versionId).value;
    NumberedStore(start, db);
    CreateProposalKeepsInv(start, db, args, scenario, first);
    CreateProposalSteps(db, args, scenario, first);
    CreateProposalEffect(db, args, scenario, first);
  }

  lemma WriteRevisionSound(start: map<Id, nat>, db: Db, args: ReviseArgs, view: P.Proposal, versionId: Id)
    requires DbInv(start, db) && PendingInv(db, ReviseRead(args, view))
    requires FinishRevision(db, args, view, versionId).Success?
    ensures var after := FinishRevision(db, args, view, versionId).value;
            DbInv(start, after) && StepsTo(db, after) && NoCommit(db, after)
  {
    hide StepsTo, SaveRevisionTx, ScenarioInv, ReferenceInv, SoundInv, ChainInv, ApprovalInv;
    hide OperationInv, DecisionInv, HistoryInv, FoldInv, AuditInv;
    var next := PlanRevision(args, view, versionId).value;
    SaveRevisionKeepsInv(start, db, args, view, next);
    SaveRevisionSteps(db, args, view, next);
    SaveRevisionEffect(db, args, view, next);
  }

  lemma WriteReviewSound(start: map<Id, nat>, db: Db, args: ReviewArgs, view: P.Proposal)
    requires DbInv(start, db) && FinishReview(db, args, view).Success?
    ensures var after := FinishReview(db, args, view).value;
            DbInv(start, after) && StepsTo(db, after) && NoCommit(db, after)
  {
    SubmitReviewKeepsInv(start, db, args.actor, args.proposal, view.current.number, args.request);
    SubmitReviewSteps(db, args.actor, args.proposal, view.current.number, args.request);
    SubmitReviewEffect(db, args.actor, args.proposal, view.current.number, args.request);
  }

  lemma DecideSound(start: map<Id, nat>, db: Db, args: DecideArgs, id: Id, expiresAt: Option<int>, createdAt: int)
    requires DbInv(start, db) && ValidDecide(args) && ValidId(id)
    requires RecordDecisionTx(db, args.actor.org, DecisionOf(args, id, expiresAt), createdAt, args.request).Success?
    ensures var after := RecordDecisionTx(db, args.actor.org, DecisionOf(args, id, expiresAt), createdAt,
                                          args.request).value;
            DbInv(start, after) && StepsTo(db, after) && NoCommit(db, after)
  {
    var d := DecisionOf(args, id, expiresAt);
    TrimmedTextNotBlank(args.reason);
    RecordDecisionKeepsInv(start, db, args.actor.org, d, createdAt, args.request);
    RecordDecisionSteps(db, args.actor.org, d, createdAt, args.request);
    RecordDecisionEffect(db, args.actor.org, d, createdAt, args.request);
  }

  lemma TrimmedTextNotBlank(text: string)
    requires TrimSpace(text) != ""
    ensures !IsBlank(TrimSpace(text))
  {
    TrimSpaceTrims(text);
    TrimSpaceFixpoint(TrimSpace(text));
  }

  lemma ApplyCommitSound(build: Build, start: map<Id, nat>, db: Db, input: CommitInput, expected: Option<nat>, now: int)
    requires DbInv(start, db) && (expected.Some? ==> Reserved(db, input, expected))
    requires CommitApply(build, db, input, expected, now).Success?
    ensures var after := CommitApply(build, db, input, expected, now).value.0;
            && expected.Some? && DbInv(start, after) && StepsTo(db, after)
            && exists row :: after.operations == db.operations[IdempotencyKey(input.org, input.key) := row]
                             && row.operation.id == input.operation
  {
    ReservedVersionIsLocked(build, db, input, expected, now);
    var after := Committed(db, input, expected.value);
    CommittedKeepsInv(start, db, input, after);
    CommittedSteps(db, input, after);
    var key := IdempotencyKey(input.org, input.key);
    assert after.operations == db.operations[key := after.operations[key]];
  }

  lemma AddConstraintQuiet(db: Db, actor: Actor, goal: Id, constraint: Planning.Constraint, request: string)
    requires AddConstraintTx(db, actor, goal, constraint, request).Success?
    ensures NoCommit(db, AddConstraintTx(db, actor, goal, constraint, request).value)
  {
  }

  lemma AddConstraintSound(start: map<Id, nat>, db: Db, actor: Actor, goal: Id, constraint: Planning.Constraint,
                           request: string)
    requires DbInv(start, db) && AddConstraintTx(db, actor, goal, constraint, request).Success?
    ensures var after := AddConstraintTx(db, actor, goal, constraint, request).value;
            DbInv(start, after) && StepsTo(db, after) && NoCommit(db, after)
  {
    assert ConstraintInv(db.goals, db.constraints);
    AddConstraintQuiet(db, actor, goal, constraint, request);
    hide DbInv, StepsTo, ConstraintInv, AddConstraintTx, NoCommit;
    AddConstraintKeepsInv(start, db, actor, goal, constraint, request);
    AddConstraintSteps(db, actor, goal, constraint, request);
  }

  lemma CreateScenarioSound(start: map<Id, nat>, db: Db, actor: Actor, candidate: S.Scenario, request: string)
    requires DbInv(start, db) && candidate.Valid() && CreateScenarioTx(db, actor, candidate, request).Success?
    ensures var after := CreateScenarioTx(db, actor, candidate, request).value;
            DbInv(start, after) && StepsTo(db, after) && NoCommit(db, after)
  {
    hide DbInv, StepsTo;
    CreateScenarioKeepsInv(start, db, actor, candidate, request);
    CreateScenarioSteps(db, actor, candidate, request);
  }

  /** Whatever a step writes keeps every invariant of the store and goes only forward. */
  lemma EffectSound(start: map<Id, nat>, build: Build, s: System, step: Step)
    requires SysInv(start, s) && Effect(build, s, step).Success?
    ensures DbInv(start, Effect(build, s, step).value) && StepsTo(s.db, Effect(build, s, step).value)
    ensures !step.ApplyCommit? ==> NoCommit(s.db, Effect(build, s, step).value)
  {
    hide DbInv, StepsTo, NoCommit, FinishSimulation, FinishProposal, FinishRevision, FinishReview;
    hide AddConstraintTx, CreateScenarioTx, RecordDecisionTx, CommitApply;
    match step
    case AddConstraint(actor, goal, constraint, request) =>
      AddConstraintSound(start, s.db, actor, goal, constraint, request);
    case CreateScenario(actor, candidate, request) => CreateScenarioSound(start, s.db, actor, candidate, request);
    case WriteSimulation(c, snapshot) =>
      assert PendingInv(s.db, s.clients[c]);
      WriteSimulationSound(start, s.db, s.clients[c].simulate, s.clients[c].scenario, snapshot, s.clients[c].goal);
    case WriteProposal(c, proposalId, versionId) =>
      assert PendingInv(s.db, s.clients[c]);
      WriteProposalSound(start, s.db, s.clients[c].create, s.clients[c].scenario, proposalId, versionId);
    case WriteRevision(c, versionId) =>
      assert PendingInv(s.db, s.clients[c]);
      WriteRevisionSound(start, s.db, s.clients[c].revise, s.clients[c].view, versionId);
    case WriteReview(c) => WriteReviewSound(start, s.db, s.clients[c].review, s.clients[c].view);
    case Decide(args, id, expiresAt, createdAt) => DecideSound(start, s.db, args, id, expiresAt, createdAt);
    case ApplyCommit(c) =>
      assert PendingInv(s.db, s.clients[c]);
      ApplyCommitSound(build, start, s.db, s.clients[c].input, s.clients[c].expected, s.clients[c].now);
    case _ =>
  }

  // ---- What is held stays true while others write ----

  lemma ShowsStays(a: Db, b: Db, org: Id, view: P.Proposal)
    requires Extends(a, b) && Shows(a, org, view)
    ensures Shows(b, org, view)
  {
    var k := VersionKey(view.id, view.current.number);
    assert VersionEvolves(a.versions[k], b.versions[k]);
  }

  lemma ReservedStays(a: Db, b: Db, input: CommitInput, expected: Option<nat>)
    requires Extends(a, b) && Reserved(a, input, expected)
    requires IdempotencyKey(input.org, input.key) !in b.operations && !OperationIdUsed(b.operations, input.operation)
    requires NumberingInv(a.proposals, a.versions)
    ensures Reserved(b, input, expected)
  {
    if expected.Some? {
      var k :| k in a.versions && a.versions[k].version.id == input.versionId
               && (Targets(a, input, k) ==> a.versions[k].version.base <= expected.value);
      assert VersionEvolves(a.versions[k], b.versions[k]);
      assert NumberedRow(a.proposals, k, a.versions[k]);
      assert Targets(b, input, k) ==> Targets(a, input, k);
    }
  }

  lemma ScenarioStays(a: Db, b: Db, id: Id)
    requires Extends(a, b) && id in a.scenarios
    ensures id in b.scenarios && ScenarioEvolves(a.scenarios[id], b.scenarios[id])
  {
  }

  lemma DraftStays(a: Db, b: Db, args: SimulateArgs, scenario: S.Scenario)
    requires Extends(a, b) && HoldsDraft(a, args, scenario)
    ensures HoldsDraft(b, args, scenario)
  {
    hide Extends;
    ScenarioStays(a, b, scenario.id);
  }

  lemma PendingStays(a: Db, b: Db, p: Pending)
    requires NumberingInv(a.proposals, a.versions) && Extends(a, b) && PendingInv(a, p)
    requires HoldsKeys(p) ==> || b.operations == a.operations
                              || (&& IdempotencyKey(p.input.org, p.input.key) !in b.operations
                                  && !OperationIdUsed(b.operations, p.input.operation))
    ensures PendingInv(b, p)
  {
    hide NumberingInv, Extends, Shows, Referenced, HoldsDraft;
    match p
    case ReviseRead(args, view) => ShowsStays(a, b, args.actor.org, view);
    case ReviewRead(args, view) => ShowsStays(a, b, args.actor.org, view);
    case ProposeRead(args, scenario) => ScenarioStays(a, b, scenario.id);
    case SimulateRead(args, scenario) => DraftStays(a, b, args, scenario);
    case SimulateReady(args, scenario, goal) => DraftStays(a, b, args, scenario);
    case CommitLooked(_, _) =>
    case CommitReserved(input, _, expected) => if expected.Some? { ReservedStays(a, b, input, expected); }
  }

  lemma ReadShows(start: map<Id, nat>, db: Db, org: Id, business: Id, id: Id)
    requires DbInv(start, db) && GetProposal(db, org, business, id).Success?
    ensures var view := GetProposal(db, org, business, id).value;
            view.id == id && (business == "" || business == view.business) && Shows(db, org, view)
  {
    var k := VersionKey(id, db.proposals[id].current);
    assert NumberedRow(db.proposals, k, db.versions[k]);
  }

  lemma ReadScenario(start: map<Id, nat>, db: Db, org: Id, business: Id, id: Id)
    requires DbInv(start, db) && GetScenario(db, org, business, id).Success?
    ensures var s := GetScenario(db, org, business, id).value;
            && s.id == id && db.scenarios[id].scenario == s && db.scenarios[id].org == org
            && (S.Usable(s) ==> s.status == S.Simulated)
  {
    assert PlacedScenario(db.businesses, id, db.scenarios[id]);
    assert SimulatedSoundly(db.scenarios[id].scenario);
  }

  lemma ReserveSound(start: map<Id, nat>, db: Db, input: CommitInput)
    requires DbInv(start, db) && CommitReserve(db, input).Success?
    ensures CommitReserve(db, input).value.Some? ==> Reserved(db, input, CommitReserve(db, input).value)
  {
    if CommitReserve(db, input).value.Some? {
      var k :| k in db.versions && db.versions[k].version.id == input.versionId && db.versions[k].org == input.org;
      BaseReached(start, db, k);
    }
  }

  /** A version's base is a version its business has had. */
  lemma BaseReached(start: map<Id, nat>, db: Db, k: VersionKey)
    requires DbInv(start, db) && k in db.versions
    ensures k.proposal in db.proposals && db.proposals[k.proposal].business in db.businesses
    ensures 1 <= db.versions[k].version.base <= db.businesses[db.proposals[k.proposal].business].version
  {
    assert Grounded(db.scenarios, db.proposals, k, db.versions[k]);
    var s := db.versions[k].version.scenario;
    assert PlacedScenario(db.businesses, s, db.scenarios[s]);
  }

  lemma RevisePending(start: map<Id, nat>, db: Db, args: ReviseArgs)
    requires DbInv(start, db) && ValidRevise(args)
    requires GetProposal(db, args.actor.org, args.business, args.proposal).Success?
    ensures PendingInv(db, ReviseRead(args, GetProposal(db, args.actor.org, args.business, args.proposal).value))
  {
    hide DbInv, GetProposal, Shows, ValidRevise;
    ReadShows(start, db, args.actor.org, args.business, args.proposal);
  }

  lemma ReviewPending(start: map<Id, nat>, db: Db, args: ReviewArgs)
    requires DbInv(start, db) && ValidReview(args)
    requires GetProposal(db, args.actor.org, args.business, args.proposal).Success?
    ensures PendingInv(db, ReviewRead(args, GetProposal(db, args.actor.org, args.business, args.proposal).value))
  {
    hide DbInv, GetProposal, Shows, ValidReview;
    ReadShows(start, db, args.actor.org, args.business, args.proposal);
  }

  lemma ProposePending(start: map<Id, nat>, db: Db, args: CreateArgs)
    requires DbInv(start, db) && ValidCreate(args)
    requires GetScenario(db, args.actor.org, args.business, args.scenario).Success?
    ensures PendingInv(db, ProposeRead(args, GetScenario(db, args.actor.org, args.business, args.scenario).value))
  {
    hide DbInv, ValidCreate;
    ReadScenario(start, db, args.actor.org, args.business, args.scenario);
  }

  lemma SimulatePending(start: map<Id, nat>, db: Db, args: SimulateArgs)
    requires DbInv(start, db) && ValidSimulate(args)
    requires GetScenario(db, args.actor.org, args.business, args.scenario).Success?
    ensures PendingInv(db, SimulateRead(args, GetScenario(db, args.actor.org, args.business, args.scenario).value))
  {
    hide DbInv;
    ReadScenario(start, db, args.actor.org, args.business, args.scenario);
  }

  lemma ReservePending(start: map<Id, nat>, db: Db, input: CommitInput, now: int)
    requires DbInv(start, db) && PendingInv(db, CommitLooked(input, now)) && CommitReserve(db, input).Success?
    ensures PendingInv(db, CommitReserved(input, now, CommitReserve(db, input).value))
  {
    hide DbInv, CommitReserve, Reserved;
    ReserveSound(start, db, input);
  }

  /** What a reading step newly puts in a client's hands holds when it is read. */
  lemma NewPendingSound(start: map<Id, nat>, s: System, step: Step, c: nat)
    requires SysInv(start, s) && c in ClientsAfter(s, step)
    requires c !in s.clients || ClientsAfter(s, step)[c] != s.clients[c]
    ensures PendingInv(s.db, ClientsAfter(s, step)[c])
    ensures HoldsKeys(ClientsAfter(s, step)[c])
            ==> step == ReserveCommit(c) && !Blocked(s, c, ClientsAfter(s, step)[c].input)
  {
    hide DbInv, GetScenario, GetProposal, CommitReserve, CommitLookup;
    match step
    case ReadToSimulate(_, args) => SimulatePending(start, s.db, args);
    case ReadGoal(_, _) => assert PendingInv(s.db, s.clients[c]);
    case ReadToPropose(_, args) => ProposePending(start, s.db, args);
    case ReadToRevise(_, args) => RevisePending(start, s.db, args);
    case ReadToReview(_, args) => ReviewPending(start, s.db, args);
    case ReserveCommit(_) =>
      assert PendingInv(s.db, s.clients[c]);
      ReservePending(start, s.db, s.clients[c].input, s.clients[c].now);
    case _ =>
  }

  /** A client that kept what it held can rely on it after the step. */
  lemma OldPendingSound(start: map<Id, nat>, build: Build, s: System, step: Step, c: nat)
    requires SysInv(start, s) && c in s.clients && c in ClientsAfter(s, step)
    requires ClientsAfter(s, step)[c] == s.clients[c]
    ensures PendingInv(Next(build, s, step).db, s.clients[c])
  {
    hide PendingInv, Extends, FollowsMachines, Effect, GetScenario, GetProposal, CommitReserve, CommitLookup;
    assert PendingInv(s.db, s.clients[c]);
    if Effect(build, s, step).Success? {
      EffectSound(start, build, s, step);
      var after := Effect(build, s, step).value;
      if step.ApplyCommit? {
        AppliedKeyIsOwn(start, build, s, step.client, c);
      }
      PendingStays(s.db, after, s.clients[c]);
    }
  }

  /** The key and the operation id a commit writes are not those another client holds. */
  lemma AppliedKeyIsOwn(start: map<Id, nat>, build: Build, s: System, committer: nat, c: nat)
    requires SysInv(start, s) && Effect(build, s, ApplyCommit(committer)).Success?
    requires c in s.clients && c != committer
    ensures var after := Effect(build, s, ApplyCommit(committer)).value;
            HoldsKeys(s.clients[c]) ==>
              && IdempotencyKey(s.clients[c].input.org, s.clients[c].input.key) !in after.operations
              && !OperationIdUsed(after.operations, s.clients[c].input.operation)
  {
    hide DbInv, CommitApply, OperationIdUsed, Clashes, Reserved, Effect;
    ApplyEffect(build, s, committer);
    var p, q := s.clients[committer], s.clients[c];
    assert PendingInv(s.db, p) && PendingInv(s.db, q);
    if HoldsKeys(q) {
      HeldKeysAreFree(s.db, q);
      AppliedKeyFree(build, start, s.db, p.input, p.expected, p.now, q.input);
    }
  }

  lemma ApplyEffect(build: Build, s: System, c: nat)
    requires Effect(build, s, ApplyCommit(c)).Success?
    ensures c in s.clients && s.clients[c].CommitReserved?
    ensures var p := s.clients[c];
            && CommitApply(build, s.db, p.input, p.expected, p.now).Success?
            && Effect(build, s, ApplyCommit(c)).value == CommitApply(build, s.db, p.input, p.expected, p.now).value.0
  {
    hide CommitApply;
  }

  lemma ApplyEffectIff(build: Build, s: System, c: nat)
    requires c in s.clients && s.clients[c].CommitReserved?
    ensures var p := s.clients[c];
            Effect(build, s, ApplyCommit(c)).Success? <==> CommitApply(build, s.db, p.input, p.expected, p.now).Success?
  {
    hide CommitApply;
  }

  lemma HeldKeysAreFree(db: Db, p: Pending)
    requires PendingInv(db, p) && HoldsKeys(p)
    ensures IdempotencyKey(p.input.org, p.input.key) !in db.operations
    ensures !OperationIdUsed(db.operations, p.input.operation)
  {
  }

  lemma AppliedKeyFree(build: Build, start: map<Id, nat>, db: Db, input: CommitInput, expected: Option<nat>, now: int,
                       other: CommitInput)
    requires DbInv(start, db) && (expected.Some? ==> Reserved(db, input, expected) && !Clashes(input, other))
    requires CommitApply(build, db, input, expected, now).Success?
    requires IdempotencyKey(other.org, other.key) !in db.operations && !OperationIdUsed(db.operations, other.operation)
    ensures var after := CommitApply(build, db, input, expected, now).value.0;
            && IdempotencyKey(other.org, other.key) !in after.operations
            && !OperationIdUsed(after.operations, other.operation)
  {
    hide DbInv, CommitApply, OperationIdUsed, Clashes, StepsTo, Reserved;
    ApplyCommitSound(build, start, db, input, expected, now);
    var after := CommitApply(build, db, input, expected, now).value.0;
    var row :| after.operations == db.operations[IdempotencyKey(input.org, input.key) := row]
               && row.operation.id == input.operation;
    OtherKeyFree(db.operations, input, other, row);
  }

  lemma OtherKeyFree(operations: map<IdempotencyKey, OperationRow>, mine: CommitInput, other: CommitInput,
                     row: OperationRow)
    requires !Clashes(mine, other) && row.operation.id == mine.operation
    requires IdempotencyKey(other.org, other.key) !in operations && !OperationIdUsed(operations, other.operation)
    ensures var after := operations[IdempotencyKey(mine.org, mine.key) := row];
            IdempotencyKey(other.org, other.key) !in after && !OperationIdUsed(after, other.operation)
  {
  }

  lemma ClientsStayExclusive(start: map<Id, nat>, s: System, step: Step, c: nat, d: nat)
    requires SysInv(start, s)
    requires var clients := ClientsAfter(s, step);
             c in clients && d in clients && c != d && HoldsKeys(clients[c]) && HoldsKeys(clients[d])
    ensures !Clashes(ClientsAfter(s, step)[c].input, ClientsAfter(s, step)[d].input)
  {
    hide DbInv, PendingInv, GetScenario, GetProposal, CommitLookup, CommitReserve;
    var clients := ClientsAfter(s, step);
    if c !in s.clients || clients[c] != s.clients[c] {
      NewPendingSound(start, s, step, c);
      assert d in s.clients && clients[d] == s.clients[d];
    } else if d !in s.clients || clients[d] != s.clients[d] {
      NewPendingSound(start, s, step, d);
      assert c in s.clients && clients[c] == s.clients[c];
    }
  }

  /** Every step of every client keeps every invariant, and goes only forward. */
  lemma NextKeepsInv(start: map<Id, nat>, build: Build, s: System, step: Step)
    requires SysInv(start, s)
    ensures SysInv(start, Next(build, s, step)) && StepsTo(s.db, Next(build, s, step).db)
  {
    var t := Next(build, s, step);
    ExtendsReflexive(s.db);
    if Effect(build, s, step).Success? {
      EffectSound(start, build, s, step);
    }
    forall c | c in t.clients ensures PendingInv(t.db, t.clients[c]) {
      if c in s.clients && t.clients[c] == s.clients[c] {
        OldPendingSound(start, build, s, step, c);
      } else {
        NewPendingSound(start, s, step, c);
        ReadsDoNotWrite(build, s, step, c);
      }
    }
    forall c, d | c in t.clients && d in t.clients && c != d && HoldsKeys(t.clients[c]) && HoldsKeys(t.clients[d])
      ensures !Clashes(t.clients[c].input, t.clients[d].input)
    {
      ClientsStayExclusive(start, s, step, c, d);
    }
  }

  /** A step that hands a client something new writes nothing. */
  lemma ReadsDoNotWrite(build: Build, s: System, step: Step, c: nat)
    requires c in ClientsAfter(s, step) && (c !in s.clients || ClientsAfter(s, step)[c] != s.clients[c])
    ensures Effect(build, s, step).Failure?
  {
  }

  /** Over any run, from any consistent system: the invariants hold at the end, and the
      store at the end extends the store at the beginning. */
  lemma {:induction false} RunKeepsInv(start: map<Id, nat>, build: Build, s: System, steps: seq<Step>)
    requires SysInv(start, s)
    ensures SysInv(start, Run(build, s, steps)) && Extends(s.db, Run(build, s, steps).db)
  {
    ExtendsReflexive(s.db);
    if steps != [] {
      var t := Run(build, s, steps[..|steps| - 1]);
      RunKeepsInv(start, build, s, steps[..|steps| - 1]);
      NextKeepsInv(start, build, t, steps[|steps| - 1]);
      ExtendsTransitive(s.db, t.db, Next(build, t, steps[|steps| - 1]).db);
    }
  }

  /** So every system that any run reaches from a seeded store is consistent: what is proved
      of consistent systems and stores holds of each of them. */
  lemma EveryReachableSystemIsConsistent(build: Build, db: Db, steps: seq<Step>)
    requires Seeded(db)
    ensures SysInv(StartOf(db), Run(build, System(db, map[]), steps))
  {
    hide DbInv, Run;
    SeededInv(db);
    RunKeepsInv(StartOf(db), build, System(db, map[]), steps);
  }
}
