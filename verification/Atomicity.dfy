/** Clients with stale reads: every successful write acts as if it had read and written at once. */
module Atomicity {
  import opened Core
  import opened Database
  import opened Transactions
  import opened Workflow
  import opened Invariants
  import opened Safety
  import opened Protocol
  import S = Scenarios
  import P = Proposals
  import Planning
  import Businesses
  import Simulation

  /** Nothing has happened to the proposal since it was read. */
  predicate UpToDate(db: Db, view: P.Proposal) {
    && view.id in db.proposals && db.proposals[view.id].current == view.current.number
    && var k := VersionKey(view.id, view.current.number);
       k in db.versions && db.versions[k].version.status == view.current.status
  }

  lemma ReadingAgain(db: Db, org: Id, business: Id, view: P.Proposal)
    requires Shows(db, org, view) && UpToDate(db, view) && (business == "" || business == view.business)
    requires NumberingInv(db.proposals, db.versions)
    ensures GetProposal(db, org, business, view.id) == Success(view)
  {
    var k := VersionKey(view.id, view.current.number);
    assert NumberedRow(db.proposals, k, db.versions[k]);
  }

  /** Writing back a revision does exactly what reading and revising at this moment would do,
      unless the proposal has changed since it was read: then it is refused. */
  lemma RevisionIsAtomic(start: map<Id, nat>, s: System, c: nat, versionId: Id)
    requires SysInv(start, s) && c in s.clients && s.clients[c].ReviseRead?
    ensures var args, view := s.clients[c].revise, s.clients[c].view;
            var r := FinishRevision(s.db, args, view, versionId);
            if UpToDate(s.db, view) then r == ReviseNow(s.db, args, versionId) else r.Failure?
  {
    hide ScenarioInv, ReferenceInv, SoundInv, ChainInv, ApprovalInv, OperationInv, DecisionInv, HistoryInv, FoldInv;
    hide AuditInv;
    assert PendingInv(s.db, s.clients[c]);
    var args, view := s.clients[c].revise, s.clients[c].view;
    if UpToDate(s.db, view) {
      ReadingAgain(s.db, args.actor.org, args.business, view);
    } else {
      OutdatedRevisionFails(s.db, args, view, versionId);
    }
  }

  lemma OutdatedRevisionFails(db: Db, args: ReviseArgs, view: P.Proposal, versionId: Id)
    requires Shows(db, args.actor.org, view) && !UpToDate(db, view)
    ensures FinishRevision(db, args, view, versionId).Failure?
  {
  }

  /** The same for a request for review, although its update does not look at the current number. */
  lemma ReviewIsAtomic(start: map<Id, nat>, s: System, c: nat)
    requires SysInv(start, s) && c in s.clients && s.clients[c].ReviewRead?
    ensures var args, view := s.clients[c].review, s.clients[c].view;
            var r := FinishReview(s.db, args, view);
            if UpToDate(s.db, view) then r == ReviewNow(s.db, args) else r.Failure?
  {
    hide ScenarioInv, ReferenceInv, SoundInv, ChainInv, ApprovalInv, OperationInv, DecisionInv, HistoryInv, FoldInv;
    hide AuditInv;
    assert PendingInv(s.db, s.clients[c]);
    var args, view := s.clients[c].review, s.clients[c].view;
    if UpToDate(s.db, view) {
      ReadingAgain(s.db, args.actor.org, args.business, view);
    } else {
      OutdatedReviewFails(s.db, args, view);
    }
  }

  lemma OutdatedReviewFails(db: Db, args: ReviewArgs, view: P.Proposal)
    requires Shows(db, args.actor.org, view) && !UpToDate(db, view) && view.id == args.proposal
    requires NumberingInv(db.proposals, db.versions)
    ensures FinishReview(db, args, view).Failure?
  {
    var k := VersionKey(view.id, view.current.number);
    assert NumberedRow(db.proposals, k, db.versions[k]);
  }

  /** A proposal is built on the scenario as it is when the proposal is written. */
  lemma CreationIsAtomic(start: map<Id, nat>, s: System, c: nat, proposalId: Id, versionId: Id)
    requires SysInv(start, s) && c in s.clients && s.clients[c].ProposeRead?
    ensures var r := FinishProposal(s.db, s.clients[c].create, s.clients[c].scenario, proposalId, versionId);
            r.Success? ==> r == ProposeNow(s.db, s.clients[c].create, proposalId, versionId)
  {
    assert PendingInv(s.db, s.clients[c]);
  }

  lemma SimulationWrites(db: Db, args: SimulateArgs, scenario: S.Scenario, snapshot: Businesses.Snapshot,
                         goal: Planning.Goal)
    requires HoldsDraft(db, args, scenario)
    requires FinishSimulation(db, args, scenario, snapshot, goal).Success?
    ensures var candidate := Simulation.SimulationOf(snapshot, goal, scenario).value;
            && db.scenarios[scenario.id].scenario == scenario && scenario.business in db.businesses
            && db.businesses[scenario.business].version == scenario.base
            && FinishSimulation(db, args, scenario, snapshot, goal).value.scenarios
               == db.scenarios[scenario.id := ScenarioRow(args.actor.org, candidate)]
            && db.scenarios[scenario.id].org == args.actor.org
  {
    hide UpdateSimulationTx, Simulation.SimulationOf;
    SimulationIsDraftOf(snapshot, goal, scenario);
    var candidate := Simulation.SimulationOf(snapshot, goal, scenario).value;
    UpdateSimulationWasDraft(db, args.actor, candidate, scenario.version, args.request);
    UpdateSimulationEffect(db, args.actor, candidate, scenario.version, args.request);
  }

  /** A simulation is stored only over the very draft it was computed from, and only while
      the business is still at the scenario's base. */
  lemma SimulationIsAtomic(start: map<Id, nat>, s: System, c: nat, snapshot: Businesses.Snapshot)
    requires SysInv(start, s) && c in s.clients && s.clients[c].SimulateReady?
    requires FinishSimulation(s.db, s.clients[c].simulate, s.clients[c].scenario, snapshot, s.clients[c].goal).Success?
    ensures var args, held, goal := s.clients[c].simulate, s.clients[c].scenario, s.clients[c].goal;
            var after := FinishSimulation(s.db, args, held, snapshot, goal).value;
            && GetScenario(s.db, args.actor.org, held.business, held.id) == Success(held)
            && held.business in s.db.businesses && s.db.businesses[held.business].version == held.base
            && Simulation.SimulationOf(snapshot, goal, held).Success?
            && SimulateNow(s.db, args, Success(goal), Success(snapshot)) == Success(after)
            && after.scenarios == s.db.scenarios[held.id := s.db.scenarios[held.id].(scenario :=
                 Simulation.SimulationOf(snapshot, goal, held).value)]
  {
    hide DbInv, UpdateSimulationTx, ValidSimulate;
    assert PendingInv(s.db, s.clients[c]);
    SimulationWrites(s.db, s.clients[c].simulate, s.clients[c].scenario, snapshot, s.clients[c].goal);
  }

  /** A commit, although it is split by its unlocked reservation, acts as one whole commit at its lock. */
  lemma CommitIsAtomic(start: map<Id, nat>, build: Build, s: System, c: nat)
    requires SysInv(start, s) && Effect(build, s, ApplyCommit(c)).Success?
    ensures c in s.clients && s.clients[c].CommitReserved?
    ensures var p := s.clients[c];
            && CommitTx(build, s.db, p.input, p.now) == CommitApply(build, s.db, p.input, p.expected, p.now)
            && CommitTx(build, s.db, p.input, p.now).Success?
            && Effect(build, s, ApplyCommit(c)).value == CommitTx(build, s.db, p.input, p.now).value.0
  {
    hide CommitApply, CommitTx, Reserved, Effect;
    ApplyEffect(build, s, c);
    var p := s.clients[c];
    assert PendingInv(s.db, p);
    WholeCommit(build, s.db, p.input, p.expected, p.now);
  }

  lemma WholeCommit(build: Build, db: Db, input: CommitInput, expected: Option<nat>, now: int)
    requires NumberingInv(db.proposals, db.versions) && (expected.Some? ==> Reserved(db, input, expected))
    requires CommitApply(build, db, input, expected, now).Success?
    ensures CommitTx(build, db, input, now) == CommitApply(build, db, input, expected, now)
  {
    hide CommitApply;
    CommitApplyEffect(build, db, input, expected, now);
    ReservedVersionIsLocked(build, db, input, expected, now);
    var k := VersionKey(input.proposal, db.proposals[input.proposal].current);
    assert k in db.versions && db.versions[k].version.id == input.versionId && db.versions[k].org == input.org;
  }
}
