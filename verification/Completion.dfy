/** That decisions do get through: from any consistent store, a plan with sound parts and nobody
    in its way goes from a scenario draft to a commit. */
module Completion {
  import opened Core
  import opened Text
  import opened Database
  import opened Transactions
  import opened Workflow
  import opened Invariants
  import opened Protocol
  import opened Committing
  import opened Finishing
  import Safety
  import S = Scenarios
  import P = Proposals
  import Planning
  import Businesses
  import Simulation

  /** Everything one owner or operator brings along to take one scenario to its commit. */
  datatype Plan = Plan(draft: S.Scenario, snapshot: Businesses.Snapshot, goal: Planning.Goal, summary: string,
                       finish: Finish)

  predicate SoundWords(plan: Plan) {
    SoundFinish(plan.finish) && plan.finish.business == plan.draft.business && ValidText(plan.summary)
  }

  /** The user may decide, and the business with its open goal is there at the draft's base. */
  predicate Acts(db: Db, plan: Plan) {
    && Decides(db.users, plan.finish.actor.org, plan.finish.actor.id)
    && SeesBusiness(db, plan.finish.actor.org, plan.draft.business)
    && db.businesses[plan.draft.business].version == plan.draft.base
    && plan.goal.id == plan.draft.goal && plan.goal.status == Planning.GoalActive
    && ShowsGoal(db, plan.finish.actor.org, plan.draft.business, plan.goal)
  }

  /** The draft is a sound one, and the goal and the snapshot simulate it. */
  predicate Simulates(plan: Plan) {
    && plan.draft.Valid() && plan.draft.status == S.Draft && plan.draft.version == 1
    && plan.draft.result == S.EMPTY_RESULT && plan.draft.risks == []
    && Simulation.SimulationOf(plan.snapshot, plan.goal, plan.draft).Success?
  }

  /** None of the ids the plan brings along is taken. */
  predicate Unused(db: Db, plan: Plan) {
    && plan.draft.id !in db.scenarios && plan.finish.proposal !in db.proposals
    && !VersionIdUsed(db.versions, plan.finish.version) && !ApprovalIdUsed(db.approvals, plan.finish.approval)
    && NewCommit(db, CommitInputOf(plan.finish))
    && forall i :: 0 <= i < |db.audits| ==> db.audits[i].id !in EventsOf(plan)
  }

  function EventsOf(plan: Plan): seq<AuditId> {
    var f := plan.finish;
    [ScenarioCreatedAudit(plan.draft.id, f.request), ScenarioSimulatedAudit(plan.draft.id, 2),
     ProposalAudit(f.proposal, ProposalCreated, f.request), ProposalAudit(f.proposal, ProposalSubmitted, f.request),
     ApprovalAudit(f.proposal, f.version, f.actor.id, ProposalApproved, f.request)]
  }

  predicate Fits(db: Db, plan: Plan) {
    SoundWords(plan) && Acts(db, plan) && Simulates(plan) && Unused(db, plan)
  }

  function SimulateArgsOf(plan: Plan): SimulateArgs {
    SimulateArgs(plan.finish.actor, plan.draft.business, plan.draft.id, plan.finish.request)
  }

  function CreateArgsOf(plan: Plan): CreateArgs {
    CreateArgs(plan.finish.actor, plan.draft.business, plan.draft.goal, plan.draft.id, plan.summary,
               plan.finish.request)
  }

  /** The steps of client `c` that take a plan to a proposal. */
  function ProposeSteps(c: nat, plan: Plan): seq<Step> {
    [CreateScenario(plan.finish.actor, plan.draft, plan.finish.request),
     ReadToSimulate(c, SimulateArgsOf(plan)), ReadGoal(c, plan.goal), WriteSimulation(c, plan.snapshot),
     ReadToPropose(c, CreateArgsOf(plan)), WriteProposal(c, plan.finish.proposal, plan.finish.version)]
  }

  // ---- The store after each write ----

  function SimulatedOf(plan: Plan): S.Scenario
    requires Simulation.SimulationOf(plan.snapshot, plan.goal, plan.draft).Success?
  {
    Simulation.SimulationOf(plan.snapshot, plan.goal, plan.draft).value
  }

  function FirstOf(plan: Plan): P.Version {
    P.Version(plan.finish.version, plan.finish.proposal, 1, plan.draft.id, plan.draft.base, TrimSpace(plan.summary),
              ChangesFor(plan.draft.actions), P.Draft)
  }

  /** The log has grown by the first `n` events of the plan. */
  predicate LogOf(base: seq<AuditEvent>, audits: seq<AuditEvent>, plan: Plan, n: nat) {
    && n <= 5 && base <= audits && |audits| == |base| + n
    && (forall i :: 0 <= i < |base| ==> base[i].id !in EventsOf(plan))
    && (forall i :: 0 <= i < n ==> audits[|base| + i].id == EventsOf(plan)[i])
  }

  lemma LogNext(base: seq<AuditEvent>, audits: seq<AuditEvent>, plan: Plan, n: nat, e: AuditEvent)
    requires LogOf(base, audits, plan, n) && n < 5 && e.id == EventsOf(plan)[n]
    ensures !AuditIdUsed(audits, e.id) && LogOf(base, audits + [e], plan, n + 1)
  {
    DistinctEvents(plan);
    forall i | 0 <= i < |audits| ensures audits[i].id != e.id {
      assert i >= |base| ==> audits[|base| + (i - |base|)].id == EventsOf(plan)[i - |base|];
    }
  }

  lemma DistinctEvents(plan: Plan)
    ensures forall i, j :: 0 <= i < j < 5 ==> EventsOf(plan)[i] != EventsOf(plan)[j]
  {
  }

  /** The store with the plan's scenario in it. */
  predicate Drafted(a: Db, db: Db, plan: Plan, c: S.Scenario, n: nat) {
    && db == a.(scenarios := a.scenarios[plan.draft.id := ScenarioRow(plan.finish.actor.org, c)], audits := db.audits)
    && LogOf(a.audits, db.audits, plan, n)
  }

  function FirstKey(plan: Plan): VersionKey {
    VersionKey(plan.finish.proposal, 1)
  }

  /** The store with the plan's simulated scenario `c` and its proposal, whose one version is a draft. */
  predicate Proposed(a: Db, db: Db, plan: Plan, c: S.Scenario) {
    && db == a.(scenarios := a.scenarios[plan.draft.id := ScenarioRow(plan.finish.actor.org, c)],
                proposals := a.proposals[plan.finish.proposal :=
                               ProposalRow(plan.finish.actor.org, plan.draft.business, plan.draft.goal, 1)],
                versions := a.versions[FirstKey(plan) := VersionRow(plan.finish.actor.org, FirstOf(plan))],
                audits := db.audits)
    && LogOf(a.audits, db.audits, plan, 3)
  }

  function DraftedEvent(plan: Plan): AuditEvent {
    AuditEvent(ScenarioCreatedAudit(plan.draft.id, plan.finish.request), plan.finish.actor.org, plan.finish.actor.id,
               ScenarioCreated, ScenarioAggregate, plan.draft.id, plan.finish.request, None,
               ScenarioAt(1, plan.draft.base))
  }

  function SimulatedEvent(plan: Plan): AuditEvent {
    AuditEvent(ScenarioSimulatedAudit(plan.draft.id, 2), plan.finish.actor.org, plan.finish.actor.id, ScenarioSimulated,
               ScenarioAggregate, plan.draft.id, plan.finish.request, None, ScenarioAt(2, plan.draft.base))
  }

  function CreatedEvent(plan: Plan): AuditEvent {
    ProposalEvent(plan.finish.actor, plan.finish.proposal, ProposalCreated, plan.finish.request,
                  CreatedVersion(plan.finish.version))
  }

  lemma DraftStage(a: Db, plan: Plan)
    requires Acts(a, plan) && Unused(a, plan) && plan.draft.status == S.Draft && plan.draft.version == 1
    requires plan.draft.result == S.EMPTY_RESULT && plan.draft.risks == []
    ensures var r := CreateScenarioTx(a, plan.finish.actor, plan.draft, plan.finish.request);
            r.Success? && Drafted(a, r.value, plan, plan.draft, 1)
  {
    LogNext(a.audits, a.audits, plan, 0, DraftedEvent(plan));
    hide AuditIdUsed, LogOf, EventsOf, NewCommit;
  }

  lemma SimulatedIsValid(plan: Plan)
    requires Simulates(plan)
    ensures var c := SimulatedOf(plan);
            && c.Valid() && c.status == S.Simulated && c.version == 2 && c.result.calculated
            && c == plan.draft.(result := c.result, risks := c.risks, status := S.Simulated, version := 2)
  {
  }

  lemma GoalStillShows(a: Db, db: Db, org: Id, business: Id, goal: Planning.Goal)
    requires ShowsGoal(a, org, business, goal) && db.goals == a.goals && db.constraints == a.constraints
    ensures ShowsGoal(db, org, business, goal)
  {
  }

  lemma SimulateStage(a: Db, db: Db, plan: Plan, c: S.Scenario)
    requires SoundWords(plan) && Acts(a, plan) && Drafted(a, db, plan, plan.draft, 1)
    requires c.Valid() && c == plan.draft.(result := c.result, risks := c.risks, status := S.Simulated, version := 2)
    requires plan.draft.version == 1 && plan.draft.status == S.Draft
    ensures GetScenario(db, plan.finish.actor.org, plan.draft.business, plan.draft.id) == Success(plan.draft)
    ensures ShowsGoal(db, plan.finish.actor.org, plan.draft.business, plan.goal)
    ensures var r := UpdateSimulationTx(db, plan.finish.actor, c, 1, plan.finish.request);
            r.Success? && Drafted(a, r.value, plan, c, 2)
  {
    GoalStillShows(a, db, plan.finish.actor.org, plan.draft.business, plan.goal);
    LogNext(a.audits, db.audits, plan, 1, SimulatedEvent(plan));
    hide AuditIdUsed, LogOf, EventsOf, ShowsGoal;
  }

  lemma FirstIsValid(plan: Plan)
    requires SoundWords(plan) && plan.draft.Valid()
    ensures FirstOf(plan).Valid()
  {
    TrimmedTextNotBlank(plan.summary);
  }

  /** The simulated scenario as proposals are built on it. */
  predicate Simulated(plan: Plan, c: S.Scenario) {
    && plan.draft.Valid() && c.status == S.Simulated && c.result.calculated
    && c == plan.draft.(result := c.result, risks := c.risks, status := c.status, version := c.version)
  }

  lemma ProposalPlanned(plan: Plan, c: S.Scenario)
    requires SoundWords(plan) && Simulated(plan, c) && FirstOf(plan).Valid()
    ensures PlanProposal(CreateArgsOf(plan), c, plan.finish.proposal, plan.finish.version) == Success(FirstView(plan))
    ensures ValidCreate(CreateArgsOf(plan))
  {
  }

  function FirstView(plan: Plan): P.Proposal {
    P.Proposal(plan.finish.proposal, plan.draft.business, plan.draft.goal, FirstOf(plan), 1)
  }

  lemma ProposeStage(a: Db, db: Db, plan: Plan, c: S.Scenario)
    requires Acts(a, plan) && Unused(a, plan) && FirstKey(plan) !in a.versions && !IsBlank(plan.finish.request)
    requires Drafted(a, db, plan, c, 2) && Simulated(plan, c)
    ensures GetScenario(db, plan.finish.actor.org, plan.draft.business, plan.draft.id) == Success(c)
    ensures var r := CreateProposalTx(db, plan.finish.actor, FirstView(plan), plan.finish.request);
            r.Success? && Proposed(a, r.value, plan, c)
  {
    LogNext(a.audits, db.audits, plan, 2, CreatedEvent(plan));
    hide AuditIdUsed, LogOf, EventsOf, ShowsGoal, IsBlank, NewCommit, VersionIdUsed, ApprovalIdUsed;
  }

  // ---- The run ----

  lemma DraftsNext(a: Db, clients: map<nat, Pending>, plan: Plan) returns (after: Db)
    requires Acts(a, plan) && Unused(a, plan) && Simulates(plan)
    ensures Drafted(a, after, plan, plan.draft, 1)
    ensures Next(WithContextIds, System(a, clients), CreateScenario(plan.finish.actor, plan.draft, plan.finish.request))
         == System(after, clients)
  {
    DraftStage(a, plan);
    hide CreateScenarioTx, Drafted, Simulation.SimulationOf, Acts, Unused;
    after := CreateScenarioTx(a, plan.finish.actor, plan.draft, plan.finish.request).value;
  }

  lemma SimulatesAs(db: Db, clients: map<nat, Pending>, c: nat, args: SimulateArgs, scenario: S.Scenario,
                    snapshot: Businesses.Snapshot, goal: Planning.Goal, after: Db)
    requires c !in clients
    requires ValidSimulate(args) && GetScenario(db, args.actor.org, args.business, args.scenario) == Success(scenario)
    requires goal.id == scenario.goal && ShowsGoal(db, args.actor.org, args.business, goal)
    requires FinishSimulation(db, args, scenario, snapshot, goal) == Success(after)
    ensures var read := Next(WithContextIds, System(db, clients), ReadToSimulate(c, args));
            var ready := Next(WithContextIds, read, ReadGoal(c, goal));
            Next(WithContextIds, ready, WriteSimulation(c, snapshot)) == System(after, clients)
  {
    hide ValidSimulate, GetScenario, FinishSimulation, ShowsGoal;
    LetsGo(clients, c, SimulateReady(args, scenario, goal));
    assert clients[c := SimulateRead(args, scenario)][c := SimulateReady(args, scenario, goal)]
        == clients[c := SimulateReady(args, scenario, goal)];
  }

  lemma SimulatesNext(a: Db, db: Db, clients: map<nat, Pending>, c: nat, plan: Plan) returns (after: Db)
    requires c !in clients
    requires SoundWords(plan) && Acts(a, plan) && Simulates(plan) && Drafted(a, db, plan, plan.draft, 1)
    ensures Drafted(a, after, plan, SimulatedOf(plan), 2) && Simulated(plan, SimulatedOf(plan))
    ensures var read := Next(WithContextIds, System(db, clients), ReadToSimulate(c, SimulateArgsOf(plan)));
            var ready := Next(WithContextIds, read, ReadGoal(c, plan.goal));
            Next(WithContextIds, ready, WriteSimulation(c, plan.snapshot)) == System(after, clients)
  {
    SimulatedIsValid(plan);
    SimulateStage(a, db, plan, SimulatedOf(plan));
    after := UpdateSimulationTx(db, plan.finish.actor, SimulatedOf(plan), 1, plan.finish.request).value;
    assert ValidSimulate(SimulateArgsOf(plan));
    hide GetScenario, UpdateSimulationTx, Drafted, Simulation.SimulationOf, IsBlank, SoundWords, Simulated, Next;
    hide ValidSimulate, ShowsGoal;
    SimulatesAs(db, clients, c, SimulateArgsOf(plan), plan.draft, plan.snapshot, plan.goal, after);
  }

  lemma ProposesAs(db: Db, clients: map<nat, Pending>, c: nat, args: CreateArgs, scenario: S.Scenario,
                   first: P.Proposal, after: Db)
    requires c !in clients
    requires ValidCreate(args) && GetScenario(db, args.actor.org, args.business, args.scenario) == Success(scenario)
    requires PlanProposal(args, scenario, first.id, first.current.id) == Success(first)
    requires CreateProposalTx(db, args.actor, first, args.request) == Success(after)
    ensures var read := Next(WithContextIds, System(db, clients), ReadToPropose(c, args));
            Next(WithContextIds, read, WriteProposal(c, first.id, first.current.id)) == System(after, clients)
  {
    hide ValidCreate, GetScenario, PlanProposal, CreateProposalTx;
    LetsGo(clients, c, ProposeRead(args, scenario));
  }

  lemma ProposesNext(a: Db, db: Db, clients: map<nat, Pending>, client: nat, plan: Plan, c: S.Scenario)
    returns (after: Db)
    requires client !in clients && SoundWords(plan) && Acts(a, plan) && Unused(a, plan) && FirstKey(plan) !in a.versions
    requires Drafted(a, db, plan, c, 2) && Simulated(plan, c)
    ensures Proposed(a, after, plan, c)
    ensures var read := Next(WithContextIds, System(db, clients), ReadToPropose(client, CreateArgsOf(plan)));
            Next(WithContextIds, read, WriteProposal(client, plan.finish.proposal, plan.finish.version))
            == System(after, clients)
  {
    FirstIsValid(plan);
    ProposalPlanned(plan, c);
    ProposeStage(a, db, plan, c);
    after := CreateProposalTx(db, plan.finish.actor, FirstView(plan), plan.finish.request).value;
    hide GetScenario, PlanProposal, CreateProposalTx, Drafted, Proposed, ValidCreate, SoundWords, Acts, Unused;
    hide Simulated, Next;
    ProposesAs(db, clients, client, CreateArgsOf(plan), c, FirstView(plan), after);
  }

  lemma StepsAre(c: nat, plan: Plan)
    ensures var steps := ProposeSteps(c, plan);
            && |steps| == 6
            && steps[0] == CreateScenario(plan.finish.actor, plan.draft, plan.finish.request)
            && steps[1] == ReadToSimulate(c, SimulateArgsOf(plan)) && steps[2] == ReadGoal(c, plan.goal)
            && steps[3] == WriteSimulation(c, plan.snapshot)
            && steps[4] == ReadToPropose(c, CreateArgsOf(plan))
            && steps[5] == WriteProposal(c, plan.finish.proposal, plan.finish.version)
  {
  }

  lemma ReachesSimulation(s: System, client: nat, plan: Plan) returns (db: Db)
    requires client !in s.clients && Fits(s.db, plan)
    ensures Drafted(s.db, db, plan, SimulatedOf(plan), 2) && Simulated(plan, SimulatedOf(plan))
    ensures Run(WithContextIds, s, ProposeSteps(client, plan)[..4]) == System(db, s.clients)
  {
    hide Run, Next, SoundWords, Acts, Unused, Drafted, Simulated, Simulation.SimulationOf, ProposeSteps;
    var steps := ProposeSteps(client, plan);
    StepsAre(client, plan);
    NothingYet(WithContextIds, s, steps);
    db := DraftsNext(s.db, s.clients, plan);
    PrefixNext(WithContextIds, s, steps, 0);
    db := SimulatesNext(s.db, db, s.clients, client, plan);
    PrefixNext(WithContextIds, s, steps, 1);
    TwoMore(WithContextIds, s, steps, 2);
  }

  /** The first six steps leave the proposal of the plan, as a draft. */
  lemma ReachesProposal(start: map<Id, nat>, s: System, client: nat, plan: Plan) returns (db: Db, c: S.Scenario)
    requires DbInv(start, s.db) && client !in s.clients && Fits(s.db, plan)
    ensures Proposed(s.db, db, plan, c)
    ensures Run(WithContextIds, s, ProposeSteps(client, plan)) == System(db, s.clients)
  {
    hide DbInv, Run, Next, SoundWords, Acts, Unused, Simulation.SimulationOf, Drafted, Proposed, Simulated;
    hide S.Scenario.Valid;
    hide ProposeSteps;
    var steps := ProposeSteps(client, plan);
    StepsAre(client, plan);
    db := ReachesSimulation(s, client, plan);
    c := SimulatedOf(plan);
    FirstKeyIsFree(start, s.db, plan);
    db := ProposesNext(s.db, db, s.clients, client, plan, c);
    TwoMore(WithContextIds, s, steps, 4);
    assert steps[..6] == steps;
  }

  lemma FirstKeyIsFree(start: map<Id, nat>, db: Db, plan: Plan)
    requires DbInv(start, db) && Unused(db, plan)
    ensures FirstKey(plan) !in db.versions
  {
    Safety.FreshKey(db.proposals, db.versions, FirstKey(plan));
  }

  /** The proposal is ready for its review, approval and commit. */
  lemma ProposedMayFinish(a: Db, db: Db, plan: Plan, c: S.Scenario)
    requires SoundWords(plan) && Acts(a, plan) && Unused(a, plan) && Proposed(a, db, plan, c)
    ensures MayFinish(db, plan.finish)
  {
    hide SoundFinish, ShowsGoal, ApprovalIdUsed, TrimSpace, LogOf, AuditIdUsed, OperationIdUsed, Open;
    RestIsUnused(a, db, plan);
    FirstIsOpen(a, db, plan, c);
  }

  lemma FirstIsOpen(a: Db, db: Db, plan: Plan, c: S.Scenario)
    requires SeesBusiness(a, plan.finish.actor.org, plan.draft.business) && plan.finish.business == plan.draft.business
    requires a.businesses[plan.draft.business].version == plan.draft.base && Proposed(a, db, plan, c)
    ensures Open(db, plan.finish) && db.versions[KeyOf(db, plan.finish)].version == FirstOf(plan)
  {
    hide LogOf, TrimSpace;
    assert FirstKey(plan) in db.versions;
  }

  lemma RestIsUnused(a: Db, db: Db, plan: Plan)
    requires LogOf(a.audits, db.audits, plan, 3)
    ensures !AuditIdUsed(db.audits, EventsOf(plan)[3]) && !AuditIdUsed(db.audits, EventsOf(plan)[4])
  {
    DistinctEvents(plan);
    forall i | 0 <= i < |db.audits|
      ensures db.audits[i].id != EventsOf(plan)[3] && db.audits[i].id != EventsOf(plan)[4]
    {
      assert i >= |a.audits| ==> db.audits[|a.audits| + (i - |a.audits|)].id == EventsOf(plan)[i - |a.audits|];
    }
  }

  /** The steps of client `c` that carry a plan through. */
  function StepsOf(c: nat, plan: Plan): seq<Step> {
    ProposeSteps(c, plan) + FinishSteps(c, plan.finish)
  }

  lemma {:induction false} RunThen(s: System, a: seq<Step>, b: seq<Step>)
    ensures Run(WithContextIds, s, a + b) == Run(WithContextIds, Run(WithContextIds, s, a), b)
  {
    hide Next;
    if b == [] {
      assert a + b == a;
    } else {
      var front := b[..|b| - 1];
      RunThen(s, a, front);
      assert (a + b)[..|a + b| - 1] == a + front;
    }
  }

  /** The business is one version on, and the decision is recorded with the plan's summary. */
  predicate Decided(end: Db, plan: Plan) {
    var f, committed := plan.finish, plan.draft.base + 1;
    && f.business in end.businesses && end.businesses[f.business].version == committed
    && DecisionFor(f.operation) in end.decisions
    && end.decisions[DecisionFor(f.operation)]
       == DecisionRow(f.actor.org, f.business, f.proposal, f.version, committed, TrimSpace(plan.summary))
  }

  /** Whatever consistent store a plan fits, and whatever other clients hold: if none of them has taken its
      key or its operation id, its twelve steps commit it. */
  lemma FittingPlansCommit(start: map<Id, nat>, s: System, client: nat, plan: Plan)
    requires SysInv(start, s) && client !in s.clients && !Blocked(s, client, CommitInputOf(plan.finish))
    requires Fits(s.db, plan)
    ensures var end := Run(WithContextIds, s, StepsOf(client, plan));
            |StepsOf(client, plan)| == 12 && end.clients == s.clients && Decided(end.db, plan)
  {
    hide Run, Next, DbInv, ClientsInv, SoundWords, Acts, Simulates, Unused, Proposed, ProposeSteps, FinishSteps;
    hide Blocked;
    hide Decided, MayFinish, Finished, Open;
    var db, c := ReachesProposal(start, s, client, plan);
    StepsAre(client, plan);
    FinishStepsAre(client, plan.finish);
    RunKeepsInv(start, WithContextIds, s, ProposeSteps(client, plan));
    ProposedMayFinish(s.db, db, plan, c);
    MeansSoundAndOpen(db, plan.finish);
    SameBlocks(s, db, client, CommitInputOf(plan.finish));
    DraftsCommit(start, System(db, s.clients), client, plan.finish);
    RunThen(s, ProposeSteps(client, plan), FinishSteps(client, plan.finish));
    FinishedIsDecided(s.db, db, plan, c,
                      Run(WithContextIds, System(db, s.clients), FinishSteps(client, plan.finish)).db);
  }

  lemma FinishedIsDecided(a: Db, db: Db, plan: Plan, c: S.Scenario, end: Db)
    requires SoundWords(plan) && Acts(a, plan) && Proposed(a, db, plan, c) && Open(db, plan.finish)
    requires Finished(db, plan.finish, end)
    ensures Decided(end, plan)
  {
    hide SoundFinish, ShowsGoal, LogOf, TrimSpace;
    FirstIsOpen(a, db, plan, c);
  }

  /** There are such plans: here is a seeded store and one that fits it. */
  lemma SomePlanFits() returns (a: Db, plan: Plan)
    ensures Seeded(a) && Fits(a, plan) && SysInv(StartOf(a), System(a, map[]))
  {
    var x := "x";
    assert TrimLeft(x) == x && TrimRight(x) == x && TrimSpace(x) == x;
    a, plan := StoreFor(x), PlanFor(x);
    PlanFitsStore(x);
    SeededIsConsistent(a);
  }

  /** One tenant, user, goal and business, all of this name. */
  function StoreFor(x: string): Db {
    Db(map[x := User(x, Owner)], map[x := GoalRow(x, x, Planning.GoalActive)], map[], map[x := BusinessRow(x, 1)],
       map[], map[], map[], [], map[], map[], [])
  }

  /** One cent of marketing, under one name for everything. */
  function PlanFor(x: string): Plan {
    var draft := S.Scenario(x, x, x, 1, x, x, [S.Action(S.MarketingBudget, x, 1.0, S.Cents)], S.EMPTY_RESULT, [],
                            S.Draft, 1);
    Plan(draft, Businesses.Snapshot(x, 1, [], []), Planning.Goal(x, x, x, 1, [], Planning.GoalActive, 1), x,
         Finish(Actor(x, x, false), x, x, x, x, x, x, x, x))
  }

  lemma PlanFitsStore(x: string)
    requires ValidId(x) && ValidText(x)
    ensures Seeded(StoreFor(x)) && Fits(StoreFor(x), PlanFor(x))
  {
    hide TrimSpace;
    var plan := PlanFor(x);
    assert S.IsWhole(1.0);
    assert plan.draft.Valid() && plan.goal.Valid() && plan.snapshot.Valid();
  }

  lemma SeededIsConsistent(a: Db)
    requires Seeded(a)
    ensures SysInv(StartOf(a), System(a, map[]))
  {
    hide DbInv;
    SeededInv(a);
  }
}
