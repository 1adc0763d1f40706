/** Exactly when each call succeeds in a consistent store, and what it then leaves, in the fields of the rows. */
module Conditions {
  import opened Core
  import opened Text
  import opened Database
  import opened Transactions
  import opened Workflow
  import opened Invariants
  import opened Protocol
  import opened Revising
  import opened Committing
  import opened Services
  import Safety
  import S = Scenarios
  import P = Proposals
  import A = Approvals
  import C = Commits
  import Planning
  import Businesses
  import Simulation

  // ---- What all conditions have in common ----

  predicate SoundActor(actor: Actor) {
    ValidId(actor.org) && ValidId(actor.id)
  }

  /** Between one and two thousand bytes, without the spaces around them. */
  predicate SoundText(text: string) {
    1 <= |TrimSpace(text)| <= 2000
  }

  predicate NoEvent(audits: seq<AuditEvent>, id: AuditId) {
    forall i :: 0 <= i < |audits| ==> audits[i].id != id
  }

  predicate NoVersion(versions: map<VersionKey, VersionRow>, id: Id) {
    forall k :: k in versions ==> versions[k].version.id != id
  }

  /** The business is of the tenant and at this version. */
  predicate BusinessAt(db: Db, org: Id, business: Id, version: nat) {
    business in db.businesses && db.businesses[business].org == org && db.businesses[business].version == version
  }

  /** The proposal is of the tenant and of the business. */
  predicate ProposalOf(db: Db, org: Id, business: Id, proposal: Id) {
    proposal in db.proposals && db.proposals[proposal].org == org && db.proposals[proposal].business == business
  }

  predicate ScenarioOf(db: Db, org: Id, business: Id, scenario: Id) {
    && scenario in db.scenarios && db.scenarios[scenario].org == org
    && db.scenarios[scenario].scenario.business == business
  }

  lemma BlankTrim(text: string)
    ensures IsBlank(TrimSpace(text)) <==> IsBlank(text)
  {
    TrimSpaceTrims(text);
    TrimSpaceFixpoint(TrimSpace(text));
  }

  // ---- Reading ----

  /** A tenant reads a scenario exactly when it is its own and of the business named, and reads the row. */
  lemma ScenarioReadIff(db: Db, org: Id, business: Id, id: Id)
    ensures GetScenario(db, org, business, id).Success? <==> ScenarioOf(db, org, business, id)
    ensures ScenarioOf(db, org, business, id) ==> GetScenario(db, org, business, id).value == db.scenarios[id].scenario
  {
  }

  /** A tenant reads a proposal exactly when it is its own and of the business named, if one is, and reads its
      business, its goal and its current version. */
  lemma ProposalReadIff(start: map<Id, nat>, db: Db, org: Id, business: Id, id: Id)
    requires DbInv(start, db)
    ensures GetProposal(db, org, business, id).Success?
       <==> && id in db.proposals && db.proposals[id].org == org
            && (business == "" || db.proposals[id].business == business)
    ensures GetProposal(db, org, business, id).Success? ==>
              var row := db.proposals[id];
              var key := VersionKey(id, row.current);
              && key in db.versions
              && GetProposal(db, org, business, id).value
                 == P.Proposal(id, row.business, row.goal, db.versions[key].version, row.current)
  {
    hide DbInv;
    CurrentIsRead(start, db, org, business, id);
  }

  // ---- Constraints ----

  /** Owner or operator, a goal of the tenant, and for a new key a new id. */
  predicate MaySetConstraint(db: Db, actor: Actor, goal: Id, c: Planning.Constraint, request: string) {
    && ValidId(goal) && ValidId(c.id) && !IsBlank(c.key)
    && Decides(db.users, actor.org, actor.id) && goal in db.goals && db.goals[goal].org == actor.org
    && (ConstraintKey(goal, c.key) in db.constraints
        || forall k :: k in db.constraints ==> db.constraints[k].constraint.id != c.id)
    && NoEvent(db.audits, ConstraintAudit(goal, c.key, request))
  }

  lemma ConstraintIff(db: Db, actor: Actor, goal: Id, c: Planning.Constraint, request: string)
    ensures AddConstraintTx(db, actor, goal, c, request).Success? <==> MaySetConstraint(db, actor, goal, c, request)
  {
  }

  /** The row under the key has the limit and the hardness given, and the id it had before, if there was one. */
  lemma ConstraintLeaves(db: Db, actor: Actor, goal: Id, c: Planning.Constraint, request: string)
    requires AddConstraintTx(db, actor, goal, c, request).Success?
    ensures var key, after := ConstraintKey(goal, c.key), AddConstraintTx(db, actor, goal, c, request).value;
            && key in after.constraints
            && var row := after.constraints[key];
               && row.org == actor.org && row.constraint.key == c.key
               && row.constraint.limit == c.limit && row.constraint.hard == c.hard
               && row.constraint.id == (if key in db.constraints then db.constraints[key].constraint.id else c.id)
               && after == db.(constraints := db.constraints[key := row],
                               audits := db.audits + [AuditEvent(ConstraintAudit(goal, c.key, request), actor.org,
                                                                 actor.id, ConstraintUpdated, GoalAggregate, goal,
                                                                 request, None, ConstraintSet(goal, c.key, c.hard))])
  {
  }

  /** Whoever reads the goal next finds one constraint under the key, with the limit and the hardness set. */
  lemma ConstraintReadsBack(start: map<Id, nat>, db: Db, actor: Actor, goal: Planning.Goal, c: Planning.Constraint,
                            request: string)
    requires DbInv(start, db) && AddConstraintTx(db, actor, goal.id, c, request).Success?
    requires ShowsGoal(AddConstraintTx(db, actor, goal.id, c, request).value, actor.org, goal.business, goal)
    ensures exists shown :: shown in goal.constraints && shown.key == c.key
    ensures forall shown :: shown in goal.constraints && shown.key == c.key
              ==> shown.limit == c.limit && shown.hard == c.hard
  {
    var after := AddConstraintTx(db, actor, goal.id, c, request).value;
    var key := ConstraintKey(goal.id, c.key);
    Safety.AddConstraintKeepsInv(start, db, actor, goal.id, c, request);
    assert ConstraintInv(after.goals, after.constraints);
    hide DbInv, Planning.Goal.Valid;
    ConstraintLeaves(db, actor, goal.id, c, request);
    hide AddConstraintTx;
    assert after.constraints[key].constraint in goal.constraints;
    forall shown | shown in goal.constraints && shown.key == c.key
      ensures shown.limit == c.limit && shown.hard == c.hard
    {
      var k :| k in after.constraints && k.goal == goal.id && after.constraints[k] == ConstraintRow(actor.org, shown);
      assert PlacedConstraint(after.goals, k, after.constraints[k]);
      assert k == key;
    }
  }

  // ---- Scenarios ----

  /** Price changes in percent between -90 and 200, stock in whole units, budgets in whole cents. */
  predicate SoundAction(a: S.Action) {
    || (a.kind == S.PriceAdjustment && ValidId(a.target) && a.unit == S.Percent && -90.0 <= a.value <= 200.0)
    || (a.kind == S.InventoryReplenish && ValidId(a.target) && a.unit == S.Units && 0.0 < a.value <= 1000000000.0
        && a.value.Floor as real == a.value)
    || (a.kind == S.MarketingBudget && a.unit == S.Cents && 0.0 < a.value <= 1000000000000.0
        && a.value.Floor as real == a.value)
  }

  predicate OpenGoal(status: Planning.GoalStatus) {
    status != Planning.GoalCompleted && status != Planning.GoalCancelled
  }

  predicate SoundScenarioArgs(args: ScenarioArgs) {
    SoundActor(args.actor) && ValidId(args.business) && ValidId(args.goal) && !IsBlank(args.request)
  }

  /** Sound words and actions, an open goal of the business both when read and now, and the business still at
      the version read. */
  predicate MayDraft(db: Db, args: ScenarioArgs, snapshot: Result<Businesses.Snapshot>, goal: Result<Planning.Goal>,
                     id: Id)
  {
    && SoundScenarioArgs(args) && ValidId(id) && !IsBlank(args.name) && !IsBlank(args.objective)
    && args.actions != [] && (forall a :: a in args.actions ==> SoundAction(a))
    && snapshot.Success? && goal.Success? && goal.value.business == args.business && OpenGoal(goal.value.status)
    && Prepares(db.users, args.actor)
    && BusinessAt(db, args.actor.org, args.business, snapshot.value.version)
    && args.goal in db.goals && db.goals[args.goal].org == args.actor.org
    && db.goals[args.goal].business == args.business && OpenGoal(db.goals[args.goal].status)
    && id !in db.scenarios && NoEvent(db.audits, ScenarioCreatedAudit(id, args.request))
  }

  lemma DraftIff(start: map<Id, nat>, db: Db, args: ScenarioArgs, snapshot: Result<Businesses.Snapshot>,
                 goal: Result<Planning.Goal>, id: Id)
    requires DbInv(start, db)
    ensures ScenarioNow(db, args, snapshot, goal, id).Success? <==> MayDraft(db, args, snapshot, goal, id)
    ensures !SoundScenarioArgs(args) ==> ScenarioNow(db, args, snapshot, goal, id) == Failure(InvalidInput)
  {
    hide DbInv, TrimSpace, IsBlank, ValidId, AuditIdUsed, NoEvent, SoundAction, S.Action.Valid, DraftFrom;
    PresentVersion(start, db, args.business);
    NoEventIff(db.audits, ScenarioCreatedAudit(id, args.request));
    if snapshot.Success? && goal.Success? {
      DraftFromIff(args, snapshot.value.version, goal.value, id);
    }
  }

  lemma DraftFromIff(args: ScenarioArgs, version: nat, goal: Planning.Goal, id: Id)
    ensures DraftFrom(args, version, goal, id).Success?
       <==> && goal.business == args.business && OpenGoal(goal.status) && version >= 1
            && ValidId(id) && ValidId(args.goal) && ValidId(args.business)
            && !IsBlank(args.name) && !IsBlank(args.objective)
            && args.actions != [] && (forall a :: a in args.actions ==> SoundAction(a))
    ensures var draft := DraftFrom(args, version, goal, id);
            draft.Success? ==> draft.value.id == id && draft.value.business == args.business
                               && draft.value.goal == args.goal && draft.value.base == version
  {
    BlankTrim(args.name);
    BlankTrim(args.objective);
    ActionsAreSound(args.actions);
    hide TrimSpace, IsBlank, ValidId, SoundAction, S.Action.Valid;
  }

  lemma ActionsAreSound(actions: seq<S.Action>)
    ensures (forall a :: a in actions ==> a.Valid()) <==> (forall a :: a in actions ==> SoundAction(a))
  {
    forall a: S.Action ensures a.Valid() <==> SoundAction(a) {
    }
  }

  /** A draft with the words trimmed, the actions as they were given and no result, and its event. */
  lemma DraftLeaves(db: Db, args: ScenarioArgs, snapshot: Result<Businesses.Snapshot>, goal: Result<Planning.Goal>,
                    id: Id)
    requires ScenarioNow(db, args, snapshot, goal, id).Success?
    ensures snapshot.Success?
    ensures var none := S.Metrics(0.0, 0.0, 0.0, 0.0, 0.0);
            var version := snapshot.value.version;
            var draft := S.Scenario(id, args.goal, args.business, version, TrimSpace(args.name),
                                    TrimSpace(args.objective), args.actions,
                                    S.SimulationResult(none, none, none, [], false), [], S.Draft, 1);
            ScenarioNow(db, args, snapshot, goal, id).value
            == db.(scenarios := db.scenarios[id := ScenarioRow(args.actor.org, draft)],
                   audits := db.audits + [AuditEvent(ScenarioCreatedAudit(id, args.request), args.actor.org,
                                                     args.actor.id, ScenarioCreated, ScenarioAggregate, id,
                                                     args.request, None, ScenarioAt(1, version))])
  {
    hide TrimSpace, IsBlank, AuditIdUsed;
  }

  // ---- Simulations ----

  predicate SoundProduct(p: Businesses.Product) {
    && ValidId(p.id) && !IsBlank(p.sku) && !IsBlank(p.name)
    && 0 <= p.costCents <= p.priceCents && 0 <= p.inventoryUnits && 1 <= p.version
  }

  predicate SoundOrder(o: Businesses.Order) {
    && ValidId(o.id) && ValidId(o.customer) && ValidId(o.product)
    && 1 <= o.quantity && 0 <= o.costCents <= o.revenueCents && 1 <= o.version
  }

  predicate SoundSnapshot(snapshot: Businesses.Snapshot) {
    && ValidId(snapshot.business) && 1 <= snapshot.version
    && (forall p :: p in snapshot.products ==> SoundProduct(p)) && (forall o :: o in snapshot.orders ==> SoundOrder(o))
  }

  predicate SoundGoal(goal: Planning.Goal) {
    && ValidId(goal.id) && ValidId(goal.business) && !IsBlank(goal.objective)
    && 1 <= goal.horizonDays && 1 <= goal.version
    && forall c :: c in goal.constraints ==> ValidId(c.id) && !IsBlank(c.key)
  }

  predicate SoundDraft(draft: S.Scenario) {
    && ValidId(draft.id) && ValidId(draft.goal) && ValidId(draft.business) && 1 <= draft.base && 1 <= draft.version
    && !IsBlank(draft.name) && !IsBlank(draft.objective)
    && draft.actions != [] && (forall a :: a in draft.actions ==> SoundAction(a))
  }

  /** The last product with this id is an active one. */
  predicate ActiveAt(products: seq<Businesses.Product>, id: Id, i: nat) {
    && i < |products| && products[i].id == id && products[i].active
    && forall j :: i < j < |products| ==> products[j].id != id
  }

  ghost predicate ActiveProduct(products: seq<Businesses.Product>, id: Id) {
    exists i :: ActiveAt(products, id, i)
  }

  /** Everything sound, made for one another, and an active product for each price or stock action. */
  ghost predicate MaySimulate(snapshot: Businesses.Snapshot, goal: Planning.Goal, draft: S.Scenario) {
    && SoundSnapshot(snapshot) && SoundGoal(goal) && SoundDraft(draft) && draft.status == S.Draft
    && draft.business == snapshot.business && draft.goal == goal.id && draft.base == snapshot.version
    && forall a :: a in draft.actions && (a.kind == S.PriceAdjustment || a.kind == S.InventoryReplenish)
         ==> ActiveProduct(snapshot.products, a.target)
  }

  lemma SimulationIff(snapshot: Businesses.Snapshot, goal: Planning.Goal, draft: S.Scenario)
    ensures Simulation.SimulationOf(snapshot, goal, draft).Success? <==> MaySimulate(snapshot, goal, draft)
  {
    SnapshotIff(snapshot);
    ActionsAreSound(draft.actions);
    forall a | a in draft.actions && (a.kind == S.PriceAdjustment || a.kind == S.InventoryReplenish)
      ensures Simulation.Applicable(a, snapshot.products) <==> ActiveProduct(snapshot.products, a.target)
    {
      LastProduct(snapshot.products, a.target);
    }
    hide ActiveProduct, SoundSnapshot, SoundAction, Businesses.Snapshot.Valid, S.Action.Valid, Simulation.ProductWith;
    hide Simulation.ClosedForm, Simulation.BudgetRisk;
  }

  lemma SnapshotIff(snapshot: Businesses.Snapshot)
    ensures snapshot.Valid() <==> SoundSnapshot(snapshot)
  {
    forall p: Businesses.Product ensures p.Valid() <==> SoundProduct(p) {
    }
    forall o: Businesses.Order ensures o.Valid() <==> SoundOrder(o) {
    }
  }

  lemma {:induction false} LastProduct(products: seq<Businesses.Product>, id: Id)
    ensures ActiveProduct(products, id)
       <==> Simulation.ProductWith(products, id).Some? && Simulation.ProductWith(products, id).value.active
  {
    if products != [] {
      var front, last := products[..|products| - 1], products[|products| - 1];
      if last.id == id {
        assert last.active ==> ActiveAt(products, id, |front|);
      } else {
        LastProduct(front, id);
        if i :| ActiveAt(front, id, i) {
          assert ActiveAt(products, id, i);
        }
        if i :| ActiveAt(products, id, i) {
          assert ActiveAt(front, id, i);
        }
      }
    }
  }

  predicate SoundSimulateArgs(args: SimulateArgs) {
    SoundActor(args.actor) && ValidId(args.business) && ValidId(args.scenario) && !IsBlank(args.request)
  }

  /** A simulation that can be computed and stored: the scenario is a draft of the tenant, the business at its base. */
  ghost predicate MayStoreSimulation(db: Db, args: SimulateArgs, goal: Result<Planning.Goal>,
                                     snapshot: Result<Businesses.Snapshot>)
  {
    && SoundSimulateArgs(args)
    && ScenarioOf(db, args.actor.org, args.business, args.scenario) && goal.Success? && snapshot.Success?
    && MaySimulate(snapshot.value, goal.value, db.scenarios[args.scenario].scenario)
    && Prepares(db.users, args.actor)
    && BusinessAt(db, args.actor.org, args.business, db.scenarios[args.scenario].scenario.base)
    && NoEvent(db.audits, ScenarioSimulatedAudit(args.scenario, 2))
  }

  lemma StoreSimulationIff(start: map<Id, nat>, db: Db, args: SimulateArgs, goal: Result<Planning.Goal>,
                           snapshot: Result<Businesses.Snapshot>)
    requires DbInv(start, db)
    ensures SimulateNow(db, args, goal, snapshot).Success? <==> MayStoreSimulation(db, args, goal, snapshot)
    ensures !SoundSimulateArgs(args) ==> SimulateNow(db, args, goal, snapshot) == Failure(InvalidInput)
  {
    hide DbInv, Simulation.SimulationOf, MaySimulate, IsBlank, ValidId;
    ScenarioReadIff(db, args.actor.org, args.business, args.scenario);
    if ScenarioOf(db, args.actor.org, args.business, args.scenario) && goal.Success? && snapshot.Success? {
      var draft := db.scenarios[args.scenario].scenario;
      SimulationIff(snapshot.value, goal.value, draft);
      ScenarioIsSound(start, db, args.scenario);
      if MaySimulate(snapshot.value, goal.value, draft) {
        SimulatedPasses(snapshot.value, goal.value, draft);
      }
    }
  }

  lemma ScenarioIsSound(start: map<Id, nat>, db: Db, id: Id)
    requires DbInv(start, db) && id in db.scenarios
    ensures var c := db.scenarios[id].scenario;
            && c.id == id && c.Valid() && (c.status == S.Draft ==> c.version == 1)
            && (c.status == S.Draft || c.status == S.Simulated) && (c.status == S.Simulated ==> c.result.calculated)
  {
    assert PlacedScenario(db.businesses, id, db.scenarios[id]) && SimulatedSoundly(db.scenarios[id].scenario);
    assert SoundScenario(db.scenarios[id]);
  }

  lemma SimulatedPasses(snapshot: Businesses.Snapshot, goal: Planning.Goal, draft: S.Scenario)
    requires Simulation.SimulationOf(snapshot, goal, draft).Success? && draft.Valid()
    ensures draft.status == S.Draft
    ensures var made := Simulation.SimulationOf(snapshot, goal, draft).value;
            made.Valid() && Simulation.Completes(made, draft)
  {
  }

  /** The draft with its measures and its risks in place, at version two, and its event. */
  lemma SimulationLeaves(start: map<Id, nat>, db: Db, args: SimulateArgs, goal: Planning.Goal,
                         snapshot: Businesses.Snapshot)
    returns (made: S.Scenario)
    requires DbInv(start, db) && SimulateNow(db, args, Success(goal), Success(snapshot)).Success?
    ensures args.scenario in db.scenarios
    ensures var draft := db.scenarios[args.scenario].scenario;
            && Simulation.Completes(made, draft) && made.version == 2
            && Simulation.Measures(made.result, snapshot, draft.actions)
            && Simulation.SimulationOf(snapshot, goal, draft) == Success(made)
            && SimulateNow(db, args, Success(goal), Success(snapshot)).value
               == db.(scenarios := db.scenarios[args.scenario := ScenarioRow(args.actor.org, made)],
                      audits := db.audits + [AuditEvent(ScenarioSimulatedAudit(args.scenario, 2), args.actor.org,
                                                        args.actor.id, ScenarioSimulated, ScenarioAggregate,
                                                        args.scenario, args.request, None,
                                                        ScenarioAt(2, draft.base))])
  {
    hide DbInv, Simulation.SimulationOf, Simulation.Measures, IsBlank, ValidId;
    ScenarioIsSound(start, db, args.scenario);
    var draft := db.scenarios[args.scenario].scenario;
    made := Simulation.SimulationOf(snapshot, goal, draft).value;
    Simulation.SimulationMeasures(snapshot, goal, draft);
    SimulatedPasses(snapshot, goal, draft);
  }

  // ---- Proposals ----

  predicate SoundCreate(args: CreateArgs) {
    && SoundActor(args.actor) && ValidId(args.business) && ValidId(args.goal) && ValidId(args.scenario)
    && SoundText(args.summary) && !IsBlank(args.request)
  }

  /** A simulated scenario of the business and the goal, which the tenant can see, and new ids. */
  predicate MayPropose(db: Db, args: CreateArgs, proposalId: Id, versionId: Id) {
    && SoundCreate(args) && ValidId(proposalId) && ValidId(versionId)
    && ScenarioOf(db, args.actor.org, args.business, args.scenario)
    && db.scenarios[args.scenario].scenario.goal == args.goal
    && db.scenarios[args.scenario].scenario.status == S.Simulated
    && Prepares(db.users, args.actor)
    && proposalId !in db.proposals && NoVersion(db.versions, versionId)
    && NoEvent(db.audits, ProposalAudit(proposalId, ProposalCreated, args.request))
  }

  lemma ProposalIff(start: map<Id, nat>, db: Db, args: CreateArgs, proposalId: Id, versionId: Id)
    requires DbInv(start, db)
    ensures ProposeNow(db, args, proposalId, versionId).Success? <==> MayPropose(db, args, proposalId, versionId)
    ensures !SoundCreate(args) ==> ProposeNow(db, args, proposalId, versionId) == Failure(InvalidInput)
  {
    hide DbInv, TrimSpace, IsBlank, ValidId;
    ScenarioReadIff(db, args.actor.org, args.business, args.scenario);
    if ScenarioOf(db, args.actor.org, args.business, args.scenario) {
      ScenarioIsSound(start, db, args.scenario);
      NewKeyIsFree(start, db, proposalId);
      FirstVersionIff(args, db.scenarios[args.scenario].scenario, proposalId, versionId);
      hide PlanProposal;
    }
  }

  lemma NewKeyIsFree(start: map<Id, nat>, db: Db, proposal: Id)
    requires DbInv(start, db)
    ensures proposal !in db.proposals ==> VersionKey(proposal, 1) !in db.versions
  {
    if proposal !in db.proposals {
      Safety.FreshKey(db.proposals, db.versions, VersionKey(proposal, 1));
    }
  }

  /** The first version of a proposal on this scenario, before anything is stored. */
  lemma FirstVersionIff(args: CreateArgs, scenario: S.Scenario, proposalId: Id, versionId: Id)
    requires scenario.Valid() && scenario.status != S.Compared
    requires scenario.status == S.Simulated ==> scenario.result.calculated
    ensures var plan := PlanProposal(args, scenario, proposalId, versionId);
            && ((ValidCreate(args) && plan.Success?) <==>
                  (&& ValidCreate(args) && ValidId(proposalId) && ValidId(versionId)
                   && scenario.business == args.business && scenario.goal == args.goal
                   && scenario.status == S.Simulated))
            && (plan.Success? ==>
                  && plan.value.id == proposalId && plan.value.business == args.business && plan.value.goal == args.goal
                  && plan.value.version == 1
                  && FirstVersion(plan.value.current, args, scenario, proposalId, versionId))
  {
    BlankTrim(args.summary);
    assert TrimSpace("") == "";
    hide TrimSpace, ValidId;
  }

  /** Version one of the proposal: a draft on the scenario and its base, with the summary trimmed and one change
      for each action. */
  ghost predicate FirstVersion(v: P.Version, args: CreateArgs, scenario: S.Scenario, proposalId: Id, versionId: Id) {
    && v.id == versionId && v.proposal == proposalId && v.number == 1
    && v.scenario == scenario.id && v.base == scenario.base
    && v.summary == TrimSpace(args.summary) && v.status == P.Draft
    && Mirrors(v.changes, scenario.actions, 1)
  }

  lemma ProposalLeaves(start: map<Id, nat>, db: Db, args: CreateArgs, proposalId: Id, versionId: Id)
    returns (v: P.Version)
    requires DbInv(start, db) && ProposeNow(db, args, proposalId, versionId).Success?
    ensures args.scenario in db.scenarios
    ensures FirstVersion(v, args, db.scenarios[args.scenario].scenario, proposalId, versionId)
    ensures ProposeNow(db, args, proposalId, versionId).value
         == db.(proposals := db.proposals[proposalId := ProposalRow(args.actor.org, args.business, args.goal, 1)],
                versions := db.versions[VersionKey(proposalId, 1) := VersionRow(args.actor.org, v)],
                audits := db.audits + [AuditEvent(ProposalAudit(proposalId, ProposalCreated, args.request),
                                                  args.actor.org, args.actor.id, ProposalCreated, ProposalAggregate,
                                                  proposalId, args.request, None, CreatedVersion(versionId))])
  {
    hide DbInv, TrimSpace, IsBlank, ValidId, PlanProposal, AuditIdUsed, VersionIdUsed;
    ScenarioIsSound(start, db, args.scenario);
    var scenario := db.scenarios[args.scenario].scenario;
    FirstVersionIff(args, scenario, proposalId, versionId);
    v := PlanProposal(args, scenario, proposalId, versionId).value.current;
  }

  // ---- Revisions ----

  /** The draft superseded, the next version with the feedback at the end of its changes and of its summary, the
      number raised, and the event. When a revision succeeds is said by `Revising.RevisionSucceedsIff`. */
  lemma RevisionLeaves(start: map<Id, nat>, db: Db, args: ReviseArgs, versionId: Id)
    requires DbInv(start, db) && ReviseNow(db, args, versionId).Success?
    ensures args.proposal in db.proposals
    ensures var row := db.proposals[args.proposal];
            var key, nextKey := VersionKey(args.proposal, row.current), VersionKey(args.proposal, row.current + 1);
            && key in db.versions
            && var v := db.versions[key].version;
               var next := P.Version(versionId, args.proposal, row.current + 1, v.scenario, v.base,
                                     v.summary + ("\nRevision: " + TrimSpace(args.feedback)),
                                     v.changes + [P.HumanFeedback(args.proposal, TrimSpace(args.feedback))], P.Draft);
               ReviseNow(db, args, versionId).value
               == db.(proposals := db.proposals[args.proposal := row.(current := row.current + 1)],
                      versions := db.versions[key := VersionRow(args.actor.org, v.(status := P.Superseded))]
                                             [nextKey := VersionRow(args.actor.org, next)],
                      audits := db.audits + [AuditEvent(ProposalAudit(args.proposal, ProposalRevised, args.request),
                                                        args.actor.org, args.actor.id, ProposalRevised,
                                                        ProposalAggregate, args.proposal, args.request, None,
                                                        RevisedVersion(versionId, row.current))])
  {
    hide DbInv, GetProposal, PlanRevision, IsBlank, ValidId, TrimSpace, AuditIdUsed, VersionIdUsed;
    CurrentIsRead(start, db, args.actor.org, args.business, args.proposal);
    RowsAreSound(start, db, args.proposal);
    PlanSucceedsIff(args, CurrentView(db, args.proposal), versionId);
  }

  // ---- Requests for review ----

  predicate SoundReview(args: ReviewArgs) {
    SoundActor(args.actor) && ValidId(args.business) && ValidId(args.proposal) && !IsBlank(args.request)
  }

  /** The current version is a draft, of a proposal of the tenant and the business. */
  predicate MayReview(db: Db, args: ReviewArgs) {
    && SoundReview(args)
    && Prepares(db.users, args.actor) && ProposalOf(db, args.actor.org, args.business, args.proposal)
    && VersionKey(args.proposal, db.proposals[args.proposal].current) in db.versions
    && db.versions[VersionKey(args.proposal, db.proposals[args.proposal].current)].version.status == P.Draft
    && NoEvent(db.audits, ProposalAudit(args.proposal, ProposalSubmitted, args.request))
  }

  lemma ReviewIff(start: map<Id, nat>, db: Db, args: ReviewArgs)
    requires DbInv(start, db)
    ensures ReviewNow(db, args).Success? <==> MayReview(db, args)
    ensures !SoundReview(args) ==> ReviewNow(db, args) == Failure(InvalidInput)
  {
    hide DbInv, GetProposal, IsBlank, AuditIdUsed, NoEvent;
    BlankIff("");
    CurrentIsRead(start, db, args.actor.org, args.business, args.proposal);
    NoEventIff(db.audits, ProposalAudit(args.proposal, ProposalSubmitted, args.request));
  }

  /** The version in review and nothing else changed, and the event. */
  lemma ReviewLeaves(start: map<Id, nat>, db: Db, args: ReviewArgs)
    requires DbInv(start, db) && ReviewNow(db, args).Success?
    ensures args.proposal in db.proposals
    ensures var key := VersionKey(args.proposal, db.proposals[args.proposal].current);
            && key in db.versions
            && ReviewNow(db, args).value
               == db.(versions := db.versions[key := VersionRow(args.actor.org, db.versions[key].version
                                                                                  .(status := P.InReview))],
                      audits := db.audits + [AuditEvent(ProposalAudit(args.proposal, ProposalSubmitted, args.request),
                                                        args.actor.org, args.actor.id, ProposalSubmitted,
                                                        ProposalAggregate, args.proposal, args.request, None,
                                                        SubmittedVersion(key.number))])
  {
    hide DbInv, GetProposal, IsBlank, ValidId, AuditIdUsed;
    CurrentIsRead(start, db, args.actor.org, args.business, args.proposal);
  }

  // ---- Decisions ----

  /** The action logged for a decision. */
  function ActionFor(status: A.Status): AuditAction {
    if status == A.Approved then ProposalApproved else ProposalRejected
  }

  function DecisionAudit(args: DecideArgs): AuditId {
    ApprovalAudit(args.proposal, args.versionId, args.actor.id, ActionFor(args.status), args.request)
  }

  predicate SoundDecide(args: DecideArgs) {
    && SoundActor(args.actor) && ValidId(args.business) && ValidId(args.proposal) && ValidId(args.versionId)
    && SoundText(args.reason) && !IsBlank(args.request) && (args.status == A.Approved || args.status == A.Rejected)
  }

  /** For approvals and rejections alike: no viewer, the current version, in review, based on the present version
      of its business, and new ids. */
  predicate MayDecide(db: Db, args: DecideArgs, id: Id) {
    && SoundDecide(args) && ValidId(id)
    && Decides(db.users, args.actor.org, args.actor.id)
    && ProposalOf(db, args.actor.org, args.business, args.proposal)
    && (forall i :: 0 <= i < |db.approvals| ==> db.approvals[i].decision.id != id)
    && NoEvent(db.audits, DecisionAudit(args))
    && var key := VersionKey(args.proposal, db.proposals[args.proposal].current);
       && key in db.versions && db.versions[key].version.id == args.versionId
       && db.versions[key].version.status == P.InReview
       && BusinessAt(db, args.actor.org, args.business, db.versions[key].version.base)
  }

  lemma DecisionIff(start: map<Id, nat>, db: Db, args: DecideArgs, id: Id, expiresAt: Option<int>, createdAt: int)
    requires DbInv(start, db)
    ensures DecideNow(db, args, id, expiresAt, createdAt).Success? <==> MayDecide(db, args, id)
    ensures !SoundDecide(args) ==> DecideNow(db, args, id, expiresAt, createdAt) == Failure(InvalidInput)
  {
    hide DbInv, IsBlank, ValidId, TrimSpace, AuditIdUsed, ApprovalIdUsed, NoEvent, GoodSummary;
    CurrentRow(start, db, args.proposal);
    PresentVersion(start, db, args.business);
    NoEventIff(db.audits, DecisionAudit(args));
    NoApprovalIff(db.approvals, id);
    EmptyIsShort(TrimSpace(args.reason));
  }

  lemma CurrentRow(start: map<Id, nat>, db: Db, proposal: Id)
    requires DbInv(start, db)
    ensures proposal in db.proposals ==>
              var key := VersionKey(proposal, db.proposals[proposal].current);
              && key in db.versions && db.versions[key].org == db.proposals[proposal].org
              && db.versions[key].version.number == key.number && db.versions[key].version.base >= 1
  {
    if proposal in db.proposals {
      RowsAreSound(start, db, proposal);
    }
  }

  lemma PresentVersion(start: map<Id, nat>, db: Db, business: Id)
    requires DbInv(start, db)
    ensures business in db.businesses ==> db.businesses[business].version >= 1
  {
  }

  lemma NoEventIff(audits: seq<AuditEvent>, id: AuditId)
    ensures NoEvent(audits, id) <==> !AuditIdUsed(audits, id)
  {
  }

  lemma NoApprovalIff(approvals: seq<ApprovalRow>, id: Id)
    ensures (forall i :: 0 <= i < |approvals| ==> approvals[i].decision.id != id) <==> !ApprovalIdUsed(approvals, id)
  {
  }

  lemma EmptyIsShort(text: string)
    ensures text == "" <==> |text| < 1
  {
  }

  /** The version approved or rejected as decided, the one row of the decision, and its event. */
  lemma DecisionLeaves(start: map<Id, nat>, db: Db, args: DecideArgs, id: Id, expiresAt: Option<int>, createdAt: int)
    requires DbInv(start, db) && DecideNow(db, args, id, expiresAt, createdAt).Success?
    ensures args.proposal in db.proposals
    ensures var key := VersionKey(args.proposal, db.proposals[args.proposal].current);
            var d := A.Decision(id, args.proposal, args.versionId, args.business, args.actor.id, args.status,
                                TrimSpace(args.reason), expiresAt);
            && key in db.versions
            && var v := db.versions[key].version;
               DecideNow(db, args, id, expiresAt, createdAt).value
               == db.(versions := db.versions[key :=
                        VersionRow(args.actor.org,
                                   v.(status := if args.status == A.Approved then P.Approved else P.Rejected))],
                      approvals := db.approvals + [ApprovalRow(args.actor.org, createdAt, d)],
                      audits := db.audits + [AuditEvent(DecisionAudit(args), args.actor.org, args.actor.id,
                                                        ActionFor(args.status), ProposalAggregate, args.proposal,
                                                        args.request, None,
                                                        DecidedVersion(args.business, args.versionId, args.status))])
  {
    hide DbInv, IsBlank, ValidId, TrimSpace, AuditIdUsed, ApprovalIdUsed;
  }

  // ---- Commits ----

  predicate SoundCommit(input: CommitInput) {
    && ValidId(input.org) && ValidId(input.operation) && ValidId(input.business) && ValidId(input.proposal)
    && ValidId(input.versionId) && ValidId(input.actor) && !IsBlank(input.key) && !IsBlank(input.request)
  }

  /** The key is taken by the very operation that is asked for. */
  predicate Recorded(db: Db, input: CommitInput) {
    var key := IdempotencyKey(input.org, input.key);
    && key in db.operations
    && var op := db.operations[key].operation;
       && op.id == input.operation && op.business == input.business
       && op.proposal == input.proposal && op.versionId == input.versionId
  }

  /** What the guard asks, in any state: an authorized call, an approval in force for this very version and this
      business, and an approved version based on the business version the operation expects. */
  lemma GuardIff(input: C.ValidationInput)
    ensures C.Accepts(input)
       <==> && input.authorized
            && ValidId(input.business) && 1 <= input.businessVersion
            && input.proposal.Valid() && input.proposal.business == input.business
            && input.proposal.current.status == P.Approved && input.proposal.current.base == input.businessVersion
            && ValidId(input.approval.id) && ValidId(input.approval.decidedBy) && !IsBlank(input.approval.reason)
            && input.approval.status == A.Approved && input.approval.proposal == input.proposal.id
            && input.approval.versionId == input.proposal.current.id && input.approval.business == input.business
            && (input.approval.expiresAt.None? || input.now < input.approval.expiresAt.value)
            && ValidId(input.operation.id) && !IsBlank(input.operation.key)
            && input.operation.proposal == input.proposal.id && input.operation.business == input.business
            && input.operation.versionId == input.proposal.current.id
            && input.operation.expected == input.businessVersion
  {
    hide IsBlank, ValidId;
  }

  /** A proposal is valid when its ids are, its numbers are positive and its summary is not blank. */
  lemma ProposalValidIff(p: P.Proposal)
    ensures p.Valid()
       <==> && ValidId(p.id) && ValidId(p.business) && ValidId(p.goal) && 1 <= p.version
            && ValidId(p.current.id) && ValidId(p.current.proposal) && ValidId(p.current.scenario)
            && 1 <= p.current.number && 1 <= p.current.base && !IsBlank(p.current.summary)
  {
  }

  /** A decision is valid when its ids are, it has a reason if it approves, and it is not pending past its end. */
  lemma DecisionValidIff(d: A.Decision, now: int)
    ensures d.Valid(now)
       <==> && ValidId(d.id) && ValidId(d.proposal) && ValidId(d.versionId) && ValidId(d.business)
            && ValidId(d.decidedBy)
            && match d.status
               case Approved => !IsBlank(d.reason)
               case Pending => d.expiresAt.None? || now < d.expiresAt.value
               case _ => true
  {
  }

  /** The answer under a recorded key, in any store: a conflict for any other target, and for its own what
      became of the operation. */
  lemma LookupAnswers(db: Db, input: CommitInput)
    ensures CommitLookup(db, input).None? <==> IdempotencyKey(input.org, input.key) !in db.operations
    ensures IdempotencyKey(input.org, input.key) in db.operations ==>
              var row := db.operations[IdempotencyKey(input.org, input.key)];
              CommitLookup(db, input).value ==
              if !Recorded(db, input) then Failure(IdempotencyConflict)
              else if row.operation.status == C.Requested then Failure(CommitInProgress)
              else if row.operation.status == C.Failed
              then Success(CommitOutcome(input.operation, None, C.Failed, 0, true))
              else Success(CommitOutcome(input.operation, Some(DecisionFor(input.operation)), C.Succeeded,
                                         if row.committed.Some? then row.committed.value else 0, true))
  {
  }

  /** A call of Commit succeeds exactly when its operation is recorded already, or its key and its operation id
      are new and the version may be committed. */
  lemma CommitCallIff(start: map<Id, nat>, db: Db, input: CommitInput, now: int)
    requires DbInv(start, db)
    ensures CommitNow(WithContextIds, db, input, now).Success?
       <==> SoundCommit(input) && (Recorded(db, input) || (NewCommit(db, input) && MayCommit(db, input, now)))
    ensures !SoundCommit(input) ==> CommitNow(WithContextIds, db, input, now) == Failure(InvalidInput)
  {
    hide DbInv, CommitApply, MayCommit;
    if SoundCommit(input) {
      var key := IdempotencyKey(input.org, input.key);
      if key in db.operations {
        RecordedSucceeded(start, db, input);
      } else if NewCommit(db, input) {
        CommitSucceedsIff(start, db, input, now);
      } else if CommitTx(WithContextIds, db, input, now).Success? {
        NothingWithoutReservation(WithContextIds, db, input, now);
      }
    }
  }

  lemma RecordedSucceeded(start: map<Id, nat>, db: Db, input: CommitInput)
    requires DbInv(start, db) && IdempotencyKey(input.org, input.key) in db.operations
    ensures db.operations[IdempotencyKey(input.org, input.key)].operation.status == C.Succeeded
  {
    var key := IdempotencyKey(input.org, input.key);
    assert OperationDone(key, db.operations[key], db.decisions);
  }

  /** Under a new key: the business one version on, the version committed, the operation and the decision with
      both versions, and the event; and that is the answer. */
  lemma CommitLeaves(start: map<Id, nat>, build: Build, db: Db, input: CommitInput, now: int)
    requires DbInv(start, db) && CommitNow(build, db, input, now).Success?
    requires IdempotencyKey(input.org, input.key) !in db.operations
    ensures input.business in db.businesses && input.proposal in db.proposals
    ensures var key := VersionKey(input.proposal, db.proposals[input.proposal].current);
            var version := db.businesses[input.business].version;
            && key in db.versions
            && var v := db.versions[key].version;
               CommitNow(build, db, input, now).value
               == (db.(businesses := db.businesses[input.business := BusinessRow(input.org, version + 1)],
                       versions := db.versions[key := VersionRow(input.org, v.(status := P.Committed))],
                       operations := db.operations[IdempotencyKey(input.org, input.key) :=
                                       OperationRow(C.Operation(input.operation, input.key, input.proposal,
                                                                input.versionId, input.business, version, C.Succeeded),
                                                    Some(version + 1))],
                       decisions := db.decisions[DecisionFor(input.operation) :=
                                      DecisionRow(input.org, input.business, input.proposal, input.versionId,
                                                  version + 1, v.summary)],
                       audits := db.audits + [AuditEvent(CommitAudit(input.operation), input.org, input.actor,
                                                         CommitExecuted, BusinessAggregate, input.business,
                                                         input.request, Some(input.operation),
                                                         CommittedVersion(input.proposal, input.versionId))]),
                   CommitOutcome(input.operation, Some(DecisionFor(input.operation)), C.Succeeded, version + 1, false))
  {
    hide DbInv, CommitApply, IsBlank, ValidId;
    var expected := CommitReserve(db, input).value;
    NothingWithoutReservation(build, db, input, now);
    Safety.CommitApplyEffect(build, db, input, expected, now);
  }
}
