/** What a recommendation owes to the budgets: where a stored simulation came from, and which budgets it read. */
module Budgets {
  import opened Core
  import opened Database
  import opened Transactions
  import opened Workflow
  import opened Invariants
  import opened Evolution
  import opened Protocol
  import opened Histories
  import opened Comparisons
  import opened Services
  import Atomicity
  import Safety
  import S = Scenarios
  import P = Proposals
  import A = Approvals
  import Planning
  import Businesses
  import Simulation

  // ---- Only a simulation changes a scenario ----

  lemma CreationKeepsScenarios(db: Db, actor: Actor, candidate: S.Scenario, request: string)
    requires CreateScenarioTx(db, actor, candidate, request).Success?
    ensures RowsKept(db.scenarios, CreateScenarioTx(db, actor, candidate, request).value.scenarios)
  {
  }

  lemma ProposalKeepsScenarios(db: Db, actor: Actor, first: P.Proposal, request: string)
    requires CreateProposalTx(db, actor, first, request).Success?
    ensures CreateProposalTx(db, actor, first, request).value.scenarios == db.scenarios
  {
  }

  lemma RevisionKeepsScenarios(db: Db, actor: Actor, next: P.Proposal, expected: nat, request: string)
    requires SaveRevisionTx(db, actor, next, expected, request).Success?
    ensures SaveRevisionTx(db, actor, next, expected, request).value.scenarios == db.scenarios
  {
  }

  lemma ReviewKeepsScenarios(db: Db, actor: Actor, proposal: Id, expected: nat, request: string)
    requires SubmitReviewTx(db, actor, proposal, expected, request).Success?
    ensures SubmitReviewTx(db, actor, proposal, expected, request).value.scenarios == db.scenarios
  {
  }

  lemma DecisionsKeepScenarios(db: Db, org: Id, d: A.Decision, createdAt: int, request: string)
    requires RecordDecisionTx(db, org, d, createdAt, request).Success?
    ensures RecordDecisionTx(db, org, d, createdAt, request).value.scenarios == db.scenarios
  {
  }

  lemma ConstraintsKeepScenarios(db: Db, actor: Actor, goal: Id, constraint: Planning.Constraint, request: string)
    requires AddConstraintTx(db, actor, goal, constraint, request).Success?
    ensures AddConstraintTx(db, actor, goal, constraint, request).value.scenarios == db.scenarios
  {
  }

  lemma OthersKeepScenarios(build: Build, s: System, step: Step)
    requires Effect(build, s, step).Success? && !step.WriteSimulation?
    ensures RowsKept(s.db.scenarios, Effect(build, s, step).value.scenarios)
  {
    hide AddConstraintTx, CreateScenarioTx, CreateProposalTx, SaveRevisionTx, SubmitReviewTx, RecordDecisionTx;
    hide CommitApply;
    hide PlanProposal, PlanRevision, ValidDecide;
    match step
    case AddConstraint(actor, goal, constraint, request) =>
      ConstraintsKeepScenarios(s.db, actor, goal, constraint, request);
    case CreateScenario(actor, candidate, request) => CreationKeepsScenarios(s.db, actor, candidate, request);
    case WriteProposal(c, proposalId, versionId) =>
      var args := s.clients[c].create;
      ProposalKeepsScenarios(s.db, args.actor, PlanProposal(args, s.clients[c].scenario, proposalId, versionId).value,
                             args.request);
    case WriteRevision(c, versionId) =>
      var args, view := s.clients[c].revise, s.clients[c].view;
      RevisionKeepsScenarios(s.db, args.actor, PlanRevision(args, view, versionId).value, view.current.number,
                             args.request);
    case WriteReview(c) =>
      var args, view := s.clients[c].review, s.clients[c].view;
      ReviewKeepsScenarios(s.db, args.actor, args.proposal, view.current.number, args.request);
    case Decide(args, id, expiresAt, createdAt) =>
      DecisionsKeepScenarios(s.db, args.actor.org, DecisionOf(args, id, expiresAt), createdAt, args.request);
    case ApplyCommit(c) =>
      Safety.CommitApplyEffect(build, s.db, s.clients[c].input, s.clients[c].expected, s.clients[c].now);
    case _ =>
  }

  predicate IsSimulated(db: Db, id: Id) {
    id in db.scenarios && db.scenarios[id].scenario.status == S.Simulated
  }

  /** A step that stores this row: its client simulated the draft and the goal it held. */
  predicate Simulates(s: System, step: Step, row: ScenarioRow) {
    && step.WriteSimulation? && step.client in s.clients && s.clients[step.client].SimulateReady?
    && var held := s.clients[step.client];
       && Simulation.SimulationOf(step.snapshot, held.goal, held.scenario) == Success(row.scenario)
       && row.org == held.simulate.actor.org
  }

  lemma StepSimulates(start: map<Id, nat>, build: Build, s: System, step: Step, id: Id)
    requires SysInv(start, s) && !IsSimulated(s.db, id) && IsSimulated(Next(build, s, step).db, id)
    ensures Simulates(s, step, Next(build, s, step).db.scenarios[id])
  {
    hide DbInv, ClientsInv, ClientsAfter, FinishSimulation, Extends;
    NextKeepsInv(start, build, s, step);
    if !step.WriteSimulation? {
      OthersKeepScenarios(build, s, step);
    } else {
      Atomicity.SimulationIsAtomic(start, s, step.client, step.snapshot);
    }
  }

  /** A stored simulation is the outcome of some step that simulated the draft and the goal its client held. */
  lemma {:induction false} WasSimulated(start: map<Id, nat>, build: Build, s: System, steps: seq<Step>, n: nat, id: Id)
    returns (i: nat)
    requires SysInv(start, s) && n <= |steps| && id !in s.db.scenarios && IsSimulated(StoreAt(build, s, steps, n), id)
    ensures i < n && Simulates(Run(build, s, steps[..i]), steps[i], StoreAt(build, s, steps, n).scenarios[id])
  {
    hide DbInv, ClientsInv, Next, Simulates;
    i := n - 1;
    StepAt(start, build, s, steps, i);
    assert steps[..n][..i] == steps[..i];
    if IsSimulated(StoreAt(build, s, steps, i), id) {
      assert ScenarioEvolves(StoreAt(build, s, steps, i).scenarios[id], StoreAt(build, s, steps, n).scenarios[id]);
      i := WasSimulated(start, build, s, steps, i, id);
    } else {
      RunKeepsInv(start, build, s, steps[..i]);
      StepSimulates(start, build, Run(build, s, steps[..i]), steps[i], id);
    }
  }

  // ---- Where the goal came from ----

  predicate IsReady(s: System, c: nat, p: Pending) {
    c in s.clients && s.clients[c] == p && p.SimulateReady?
  }

  /** A step that reads the goal a client then holds, from the goals and constraints of that moment. */
  predicate ReadsGoal(s: System, step: Step, c: nat, p: Pending)
    requires p.SimulateReady?
  {
    && step == ReadGoal(c, p.goal) && p.goal.id == p.scenario.goal
    && ShowsGoal(s.db, p.simulate.actor.org, p.simulate.business, p.goal)
  }

  lemma StepReadsGoal(s: System, step: Step, c: nat, p: Pending)
    requires !IsReady(s, c, p) && p.SimulateReady? && c in ClientsAfter(s, step) && ClientsAfter(s, step)[c] == p
    ensures ReadsGoal(s, step, c, p)
  {
    hide GetScenario, GetProposal, CommitLookup, CommitReserve, ShowsGoal, Blocked;
  }

  lemma {:induction false} GoalWasRead(build: Build, s: System, steps: seq<Step>, n: nat, c: nat, p: Pending)
    returns (j: nat)
    requires n <= |steps| && !IsReady(s, c, p) && IsReady(Run(build, s, steps[..n]), c, p)
    ensures j < n && ReadsGoal(Run(build, s, steps[..j]), steps[j], c, p)
  {
    hide Effect, ClientsAfter, ReadsGoal;
    j := n - 1;
    assert steps[..n][..j] == steps[..j];
    if IsReady(Run(build, s, steps[..j]), c, p) {
      j := GoalWasRead(build, s, steps, j, c, p);
    } else {
      StepReadsGoal(Run(build, s, steps[..j]), steps[j], c, p);
    }
  }

  /** Every hard budget stored for this goal is a number that the spend does not exceed. */
  ghost predicate WithinStoredBudgets(db: Db, goal: Id, spend: real) {
    forall k :: k in db.constraints && k.goal == goal && Simulation.LimitsBudget(db.constraints[k].constraint)
      ==> db.constraints[k].constraint.limit.Some? && spend <= db.constraints[k].constraint.limit.value
  }

  lemma ShownBudgets(db: Db, org: Id, business: Id, goal: Planning.Goal, spend: real)
    requires ShowsGoal(db, org, business, goal) && ConstraintInv(db.goals, db.constraints)
    requires Simulation.WithinBudgets(goal.constraints, spend)
    ensures WithinStoredBudgets(db, goal.id, spend)
  {
    hide Simulation.LimitsBudget;
    forall k | k in db.constraints && k.goal == goal.id ensures db.constraints[k].constraint in goal.constraints {
      assert PlacedConstraint(db.goals, k, db.constraints[k]);
    }
  }

  lemma SimulationKeepsGoal(snapshot: Businesses.Snapshot, goal: Planning.Goal, draft: S.Scenario)
    requires Simulation.SimulationOf(snapshot, goal, draft).Success?
    ensures Simulation.SimulationOf(snapshot, goal, draft).value.goal == draft.goal == goal.id
    ensures Simulation.SimulationOf(snapshot, goal, draft).value.result.projected.spend
         == Simulation.Spend(draft.actions)
  {
  }

  /** Step `i` simulated and stored this row, with the goal that its client had read at step `j`. */
  predicate MadeBy(build: Build, s: System, steps: seq<Step>, row: ScenarioRow, j: nat, i: nat) {
    && j < i < |steps|
    && Simulates(Run(build, s, steps[..i]), steps[i], row)
    && ReadsGoal(Run(build, s, steps[..j]), steps[j], steps[i].client,
                 Run(build, s, steps[..i]).clients[steps[i].client])
  }

  /** Every stored simulation was made so, and without a high risk it stays within every hard budget
      that was stored for its goal when its client read them. */
  lemma SafeSimulationWithinBudgets(start: map<Id, nat>, build: Build, s: System, steps: seq<Step>, id: Id)
    returns (j: nat, i: nat)
    requires SysInv(start, s) && id !in s.db.scenarios && s.clients == map[]
    requires IsSimulated(Run(build, s, steps).db, id) && Safe(Run(build, s, steps).db.scenarios[id].scenario)
    ensures var row := Run(build, s, steps).db.scenarios[id];
            && MadeBy(build, s, steps, row, j, i)
            && WithinStoredBudgets(StoreAt(build, s, steps, j), row.scenario.goal, row.scenario.result.projected.spend)
  {
    hide DbInv, ClientsInv, Next, ReadsGoal, WithinStoredBudgets, Simulation.SimulationOf, ShowsGoal;
    assert steps[..|steps|] == steps;
    i := WasSimulated(start, build, s, steps, |steps|, id);
    var t := Run(build, s, steps[..i]);
    var c := steps[i].client;
    var p := t.clients[c];
    j := GoalWasRead(build, s, steps, i, c, p);
    RunKeepsInv(start, build, s, steps[..j]);
    SafeReadWithinBudgets(start, Run(build, s, steps[..j]), steps[j], c, p, steps[i].snapshot);
  }

  lemma SafeReadWithinBudgets(start: map<Id, nat>, s: System, step: Step, c: nat, p: Pending,
                              snapshot: Businesses.Snapshot)
    requires SysInv(start, s) && p.SimulateReady? && ReadsGoal(s, step, c, p)
    requires Simulation.SimulationOf(snapshot, p.goal, p.scenario).Success?
    requires Safe(Simulation.SimulationOf(snapshot, p.goal, p.scenario).value)
    ensures var made := Simulation.SimulationOf(snapshot, p.goal, p.scenario).value;
            WithinStoredBudgets(s.db, made.goal, made.result.projected.spend)
  {
    assert ConstraintInv(s.db.goals, s.db.constraints);
    hide SysInv, ShowsGoal, WithinStoredBudgets, Simulation.WithinBudgets, ConstraintInv;
    Simulation.HighRiskExactlyOverBudget(snapshot, p.goal, p.scenario);
    SimulationKeepsGoal(snapshot, p.goal, p.scenario);
    ShownBudgets(s.db, p.simulate.actor.org, p.simulate.business, p.goal, Simulation.Spend(p.scenario.actions));
  }

  /** What a comparison recommends, in any store a run reaches, spends within every hard budget that
      the simulation of that scenario had read from the store. */
  lemma RecommendationWithinBudgets(build: Build, db: Db, steps: seq<Step>, org: Id, business: Id, ids: seq<Id>,
                                    comparison: Comparison) returns (j: nat, i: nat)
    requires Seeded(db)
    requires var end := Run(build, System(db, map[]), steps).db;
             && Refusal(end.scenarios, org, business, ids) == None
             && Compares(end.scenarios, org, business, ids, comparison)
    requires comparison.recommended.Some?
    ensures var end, id := Run(build, System(db, map[]), steps).db, comparison.recommended.value;
            && id in ids && id in end.scenarios
            && MadeBy(build, System(db, map[]), steps, end.scenarios[id], j, i)
            && WithinStoredBudgets(StoreAt(build, System(db, map[]), steps, j), end.scenarios[id].scenario.goal,
                                   end.scenarios[id].scenario.result.projected.spend)
  {
    var s := System(db, map[]);
    assert comparison.recommended.value !in db.scenarios;
    hide Run, Seeded, DbInv, ClientsInv, WithinStoredBudgets, MadeBy, Refusal, Compares, ScenarioInv;
    EveryReachableSystemIsConsistent(build, db, []);
    EveryReachableSystemIsConsistent(build, db, steps);
    NothingRun(build, s);
    var end := Run(build, s, steps).db;
    ScenariosAreSound(StartOf(db), end);
    RecommendedIsSimulated(end, org, business, ids, comparison);
    j, i := SafeSimulationWithinBudgets(StartOf(db), build, s, steps, comparison.recommended.value);
  }

  lemma NothingRun(build: Build, s: System)
    ensures Run(build, s, []) == s
  {
  }

  lemma ScenariosAreSound(start: map<Id, nat>, db: Db)
    requires DbInv(start, db)
    ensures ScenarioInv(db.businesses, db.scenarios)
  {
  }

  lemma RecommendedIsSimulated(db: Db, org: Id, business: Id, ids: seq<Id>, comparison: Comparison)
    requires ScenarioInv(db.businesses, db.scenarios) && Refusal(db.scenarios, org, business, ids) == None
    requires Compares(db.scenarios, org, business, ids, comparison) && comparison.recommended.Some?
    ensures var id := comparison.recommended.value;
            id in ids && IsSimulated(db, id) && Safe(db.scenarios[id].scenario)
  {
    hide Compares, Safe;
    forall s | s in db.scenarios ensures db.scenarios[s].scenario.id == s {
      assert PlacedScenario(db.businesses, s, db.scenarios[s]);
    }
    RecommendedHasHighestMargin(db.scenarios, org, business, ids, comparison);
    var best := db.scenarios[comparison.recommended.value].scenario;
    assert Comparable(best) && SimulatedSoundly(best);
  }
}
