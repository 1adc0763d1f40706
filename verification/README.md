# Verification of the proposal, approval and commit protocol

This project models how a business decision moves through the backend: a scenario is drafted and
simulated, a proposal is built on it and revised, a human approves one exact version, and a commit
turns that version into the next version of the business. Many clients do this at once on one
PostgreSQL store, most calls read in one transaction and write in another, and a commit inserts its
idempotency row before it locks anything. The proofs are about every run of such clients.

Three smaller engines are modelled with it: the deterministic simulation and the comparison of
scenarios (in exact arithmetic), the sliding-window limiter, and the migration runner.

## How it is built

| file | what it holds |
|---|---|
| `Core.dfy`, `Text.dfy`, `Domain.dfy` | results, identifiers, byte strings, and the domain types with their guards and state machines |
| `Simulation.dfy`, `Comparison.dfy` | the loops of simulation and comparison, proved against closed forms and an order |
| `Database.dfy`, `Transactions.dfy` | the store as a value, and what each transaction does to it when it runs whole |
| `Workflow.dfy`, `Protocol.dfy` | what clients compute between reading and writing; the system of many clients, its steps and its runs |
| `Invariants.dfy`, `Preservation.dfy`, `Safety.dfy`, `Evolution.dfy` | what every reachable store satisfies and how every transaction keeps it |
| `Atomicity.dfy`, `Accounting.dfy`, `ExactlyOnce.dfy`, `Lives.dfy`, `Approving.dfy`, `Committing.dfy`, `Histories.dfy`, `Serialization.dfy`, `Tenancy.dfy`, `Budgets.dfy` | the main theorems about what every run keeps |
| `Conditions.dfy` | for every call, exactly when it succeeds in a consistent store and what it leaves, in the fields of the rows |
| `Finishing.dfy`, `Completion.dfy`, `Revising.dfy`, `Longest.dfy` | the main theorems about what runs can reach: drafts commit, feedback that fits is taken in, the bounds on a proposal's life are reached |
| `Repository.dfy`, `Services.dfy` | the repositories and workflows as imperative code on changing tables, proved against `Transactions` and `Workflow` |
| `Limiter.dfy`, `Migrations.dfy` | the limiter and the migration runner |

A run is any sequence of steps from a seeded store (users, goals, constraints and businesses, and no
work on them yet). A step is one transaction of one client, or a client giving up; ids, clock readings
and snapshots are arguments of the steps, so every choice of them is covered, and an aborted
transaction is a step that changes nothing. `SysInv` is what every reachable system satisfies
(`Protocol.EveryReachableSystemIsConsistent`), `DbInv` its part about the store. Most theorems are
stated for every system or store with these properties and so hold in every reachable one.

Conditions and outcomes are written out in literals and in the fields of rows and arguments, apart from the
words that `Text` and `Core` define and characterize there; they do not call the functions the program's steps
are made of. Each condition also says that unsound words are refused as invalid input.

## Where the program and its promises differ

- `commitTx` builds the proposal it hands to the commit guard without its goal and scenario ids
  (`internal/platform/postgres/commit_service.go:148-151`), and the guard requires both. Taken as written
  every fresh commit is refused. The model has both forms: `Build.AsWritten`, for which
  `Committing.AsWrittenRefusesEveryCommit` and `Committing.AsWrittenNeverCommits` prove exactly that, and
  `Build.WithContextIds`, which reads both ids from the row as the fixture at
  `internal/domain/commit/commit_test.go:18` does. Everything else is proved for both; for the second,
  `Committing.ApplySucceedsIff` and `Committing.CommitSucceedsIff` say exactly when a commit succeeds, and
  `Finishing.DraftsCommit` and `Completion.FittingPlansCommit` that undisturbed drafts and plans reach it.
- Several price actions on one product add up, so projected revenue can leave the range a single
  action keeps it in (`Simulation.TwoPriceActionsExceedTheBound`). `Simulation.RevenueBoundIff` gives the
  exact condition: the percentages of each product, added up, stay between -90 and 200.
- The limiter takes its instant before it takes the lock, so calls can reach the lock out of order.
  `SlidingWindow.BoundHoldsIff` says exactly when the bound survives that: over all histories whose
  calls are late by at most `d`, it holds if and only if `d` is zero or the limit is at most one. One
  call late by one unit of time is enough (`SlidingWindow.OneLateCallBreaksBound`).
- `RequestHumanReview` returns a version one above what is stored
  (`Services.ReviewReadsBackOneLess`).
- The proposal machine lets a version in review or an approved one be superseded; no transaction does it
  (`Histories.OnlyDraftsAreSuperseded`).

## Model

| member | source | states |
|---|---|---|
| Protocol.NextKeepsInv | internal/platform/postgres/tenant_tx.go:48-55 | every step of every client, holding reads however stale, keeps all invariants of store and clients, and moves every row only forward along its machine |
| Protocol.RunKeepsInv | internal/platform/postgres/tenant_tx.go:28-56 | over any run the invariants hold at the end, and the final store extends the first: no row of any table vanishes, goal constraints included, no identity changes, logs and decisions are only appended to |
| Protocol.EveryReachableSystemIsConsistent | migrations/000001_initial.up.sql:135-260 | every system any run reaches from a seeded store is consistent |
| Tenancy.WritesArePermittedAndOwn | internal/platform/postgres/tenant_tx.go:19-26 | whatever a step writes, its user is of the tenant and an owner or an operator, or in guest mode if the step is no decision, no commit and sets no constraint; and every row it adds or changes belongs to that user's tenant, in every table |
| Conditions.ConstraintIff | internal/platform/postgres/scenario_repository.go:23-54 | a constraint is set exactly when the goal is the tenant's, the user is no viewer, and a new key brings a new id |
| Conditions.ConstraintLeaves | internal/platform/postgres/scenario_repository.go:28-52 | the row under the key then has the limit and the hardness given and keeps its id; the event names user, request, goal and key |
| Conditions.ConstraintReadsBack | internal/platform/postgres/scenario_repository.go:56-98 | whoever reads the goal next finds one constraint under the key, with that limit and hardness |
| Conditions.DraftIff | internal/application/scenarioworkflow/service.go:65-103 | a scenario is created exactly when its words and each of its actions are within their limits, the goal is open both when read and now, the business is still at the version read, the user may prepare, and the ids are new |
| Conditions.DraftLeaves | internal/application/scenarioworkflow/service.go:91-102 | the row is a draft at version one with name and objective trimmed each in its place, the actions as given and an empty result; and its event |
| Conditions.SimulationIff | internal/domain/scenario/simulation.go:90-149 | a simulation succeeds exactly when snapshot, goal and draft are sound and made for one another and every price or stock action names a product that is active |
| Conditions.StoreSimulationIff | internal/application/scenarioworkflow/service.go:105-135 | and is stored exactly when moreover the tenant can see the draft, the user may prepare and the business is at the draft's base |
| Conditions.SimulationLeaves | internal/platform/postgres/scenario_repository.go:183-242 | the draft with baseline, projection and deltas in place at version two, otherwise unchanged; and its event |
| Conditions.ProposalIff | internal/application/proposalworkflow/service.go:65-105 | a proposal is created exactly when its scenario is the tenant's, simulated, of the business and the goal named, its summary within its limits, the user may prepare, and the ids are new |
| Conditions.ProposalLeaves | internal/application/proposalworkflow/service.go:94-101 | proposal and version one stand on that scenario and its base, with the summary trimmed and one change for each action, field by field; and the event |
| Conditions.RevisionLeaves | internal/application/proposalworkflow/service.go:129-148 | a revision supersedes the draft, stores the next one with the feedback at the end of its changes and under the mark at the end of its summary, raises the number, and logs it |
| Conditions.ReviewIff | internal/application/proposalworkflow/service.go:151-174 | a review is requested exactly when the current version of the tenant's proposal is a draft, the user may prepare and the request id is new |
| Conditions.ReviewLeaves | internal/platform/postgres/proposal_repository.go:118-139 | that version is then in review, nothing else has changed, and the event names it |
| Conditions.DecisionIff | internal/platform/postgres/approval_repository.go:27-86 | an approval or a rejection is recorded exactly when the user is of the tenant and no viewer, the version is the current one, in review and based on the present business version, the reason within its limits and the ids new |
| Conditions.DecisionLeaves | internal/platform/postgres/approval_repository.go:87-136 | the version is then approved or rejected as decided, and there is one more approval row and one more event, with user, reason, request and decision |
| Conditions.CommitCallIff | internal/platform/postgres/commit_service.go:42-162 | a commit succeeds exactly when its operation is recorded already, or its key and operation id are new and the version may be committed |
| Conditions.CommitLeaves | internal/platform/postgres/commit_service.go:164-188 | under a new key: business one version on, version committed, operation with both versions, decision with the summary, event with user and request; and that is the answer |
| Conditions.GuardIff | internal/domain/commit/commit.go:57-92 | the guard asks, in any state, for an authorized call, an approval in force for this version and business, and an approved version at the expected business version |
| Conditions.LookupAnswers | internal/platform/postgres/commit_service.go:63-81 | in any store a taken key answers another target with a conflict and its own with what became of the operation, for each of its three statuses |
| Conditions.ScenarioReadIff | internal/platform/postgres/scenario_repository.go:138-149 | a tenant reads exactly its own scenarios of the business named |
| Conditions.ProposalReadIff | internal/platform/postgres/proposal_repository.go:55-71 | a tenant reads exactly its own proposals, of the business named if one is, each with its current version |
| Conditions.ProposalValidIff | internal/domain/proposal/proposal.go:86-100 | a proposal is valid exactly with sound ids, positive numbers and a summary that is not blank |
| Conditions.DecisionValidIff | internal/domain/approval/approval.go:31-47 | a decision is valid exactly with sound ids, a reason if it approves, and not pending past its end |
| Core.ValidIdIff | internal/domain/core/core.go:23-31 | an id is up to two hundred bytes, not all of them spaces |
| Text.SpaceCodes | internal/domain/core/core.go:24-24 | white space is code 32 and the codes 9 to 13 |
| Text.TrimSpaceIsTrim | internal/domain/core/core.go:24-24 | trimming takes away spaces at both ends, all of them and nothing else |
| Text.TrimIsUnique | internal/domain/core/core.go:24-24 | and there is only one result of doing so |
| Text.LessIff | internal/domain/scenario/simulation.go:83-83 | ids are ordered by their first different byte |
| Text.EqualFoldIff | internal/domain/scenario/simulation.go:72-72 | strings equal up to case differ at most in the case of letters |
| Tenancy.IdleTenantsKeepTheirRows | migrations/000001_initial.up.sql:272-283 | whatever other tenants do in a run, every row of a tenant that does not write stays as it is |
| Atomicity.RevisionIsAtomic | internal/application/proposalworkflow/service.go:107-149 | writing back a revision does exactly what reading and revising at the write would do if the proposal is unchanged since the read, and is refused otherwise |
| Atomicity.ReviewIsAtomic | internal/application/proposalworkflow/service.go:151-174 | the same for a request for review, although its update does not look at the current version number |
| Atomicity.CreationIsAtomic | internal/application/proposalworkflow/service.go:65-105 | a proposal that is created is the one that reading the scenario at the write would have created |
| Atomicity.SimulationIsAtomic | internal/application/scenarioworkflow/service.go:105-135 | a simulation is stored only over the very draft it was computed from and only while the business is at the scenario's base, as reading and simulating at the write would store it |
| Atomicity.CommitIsAtomic | internal/platform/postgres/commit_service.go:55-189 | a commit that succeeds, although split by its unlocked reservation, does and answers exactly what a whole commit would at its lock |
| Serialization.StepIsItsOperation | internal/platform/postgres/tenant_tx.go:48-55 | every write does to the store what its whole call, read and write together, would do at that moment |
| Serialization.RunsAreSerializable | internal/platform/postgres/tenant_tx.go:28-56 | in any run the store ends as if the calls that wrote had been performed whole, one after the other, in the order of their writes |
| Accounting.VersionsCountDecisions | internal/platform/postgres/commit_service.go:164-188 | after any run each business version is its first version plus its number of decisions, and the committed versions are exactly the range between, each once |
| Accounting.OperationHasCommit | internal/platform/postgres/commit_service.go:179-181 | every operation row has its decision, its committed version row and its audit event |
| Accounting.DecisionHasCommit | internal/platform/postgres/commit_service.go:165-169 | every decision has its operation, its version row and its event |
| Accounting.VersionHasCommit | internal/platform/postgres/commit_service.go:176-178 | every committed version row has its operation, its decision and its event |
| Accounting.EventHasCommit | internal/platform/postgres/commit_service.go:182-187 | every commit event has its operation, its decision and its version row |
| Accounting.CommitsCorrespond | internal/platform/postgres/commit_service.go:164-188 | operations, decisions, committed versions and commit events correspond one to one |
| Accounting.DecisionProvenance | internal/domain/commit/commit.go:73-87 | every decision V+1 enacts a version based on V whose scenario has base V and a calculated simulation |
| Accounting.OneCommitPerBase | internal/domain/commit/commit.go:73-75 | of all versions of all proposals of a business based on one business version at most one is ever committed |
| Accounting.ReservationHolds | internal/platform/postgres/commit_service.go:86-102 | whatever runs between the unlocked reservation and the lock, a commit that succeeds has recorded, locked and replaced one and the same business version |
| Safety.ReservedVersionIsLocked | internal/platform/postgres/commit_service.go:158-164 | the reserved version equals the locked one and the outcome reports the one after it, because the version row named by the foreign key already had its base |
| ExactlyOnce.RecordedAnswer | internal/platform/postgres/commit_service.go:63-84 | a recorded key answers its own target with the recorded decision and version and any other target with a conflict; the requested and failed branches are never reached |
| ExactlyOnce.AnswerIsForever | internal/platform/postgres/commit_service.go:67-81 | that answer is the same after any further run, and giving it changes nothing |
| ExactlyOnce.RetryReplays | internal/httpapi/api_handlers.go:686-689 | after a commit succeeds, a retry at any later point of any run gets the same operation, decision and version, marked as replayed |
| ExactlyOnce.ReplaysExactlyAfterCommit | internal/platform/postgres/commit_service.go:63-94 | a retry replays exactly when its lookup follows the commit: at every earlier time it finds nothing, at every later time the first outcome, and if it looked earlier and reserves later it gets a conflict and writes nothing |
| ExactlyOnce.LateReservationConflicts | internal/platform/postgres/commit_service.go:90-93 | a call whose key and operation id have been recorded since its lookup is never made to wait, gets a conflict at its reservation and lets go |
| ExactlyOnce.KeyCommitsAtMostOnce | internal/platform/postgres/commit_service.go:86-94 | in any run one organization and key change the store at most once, and not at all if the key was recorded before |
| ExactlyOnce.RevisionRequestIsSpent | internal/platform/postgres/proposal_repository.go:183-197 | once a revision is logged under a request id, no later revision of that proposal under it is saved |
| Lives.AuditTellsLife | internal/platform/postgres/proposal_repository.go:183-197 | replaying a proposal's audit events and its commit event gives its current number, version id and status, and gives nothing for what is no proposal |
| Lives.NumbersHaveNoGaps | internal/platform/postgres/proposal_repository.go:82-113 | versions are numbered 1 to current without gaps and superseded exactly below current |
| Lives.ReviewTouchesOnlyTheCurrentVersion | internal/platform/postgres/proposal_repository.go:123-133 | a submitted review names the current version and changes that row's status and nothing else but the log |
| Lives.LivesAreBounded | internal/application/proposalworkflow/service.go:135-141 | no proposal has more than 417 versions or more than 420 audit events |
| Lives.ChangesGrow | internal/application/proposalworkflow/service.go:132-138 | along a proposal scenario and base stay, and each change list is a proper prefix of every later one |
| Lives.ChangesAreActionsThenFeedback | internal/application/proposalworkflow/service.go:176-182 | in every version of every reachable store the changes are the actions of its scenario, target, kind, value and unit, one for one and in order, followed by one piece of feedback for each revision |
| Lives.SummaryIsFirstPlusFeedback | internal/application/proposalworkflow/service.go:135-136 | every summary is the first summary followed by the revision mark and the text of each feedback change of that version, in order |
| Safety.PlannedRevisionRevises | internal/application/proposalworkflow/service.go:129-144 | a planned revision adds exactly one feedback change and its text under the mark, and trimming the joined summary loses nothing |
| Approving.OneApprovalPerDecidedVersion | internal/platform/postgres/approval_repository.go:76-106 | a version has exactly one approval row, with the matching decision, when it is approved, rejected or committed, and none otherwise |
| Approving.LatestApprovalIsLatest | internal/platform/postgres/commit_service.go:131-138 | in any store the search ends at a matching approval, by a user who is no viewer, that no other matching one was created after, and finds none only if there is none |
| Approving.LatestApprovalIsTheOnlyOne | internal/platform/postgres/commit_service.go:131-139 | the commit's latest matching approval is the only approval row of the version, or none if that row is a rejection |
| Committing.ApplySucceedsIff | internal/platform/postgres/commit_service.go:96-162 | whatever ran since the reservation, the step that locks and writes succeeds exactly when the reservation found the business and an authorized owner or operator may now commit the current, approved, unexpired version with the business at its base |
| Committing.CommitSucceedsIff | internal/platform/postgres/commit_service.go:63-162 | the same for a commit under a new key with nothing between its reservation and its lock |
| Finishing.DraftsCommit | internal/platform/postgres/commit_service.go:164-188 | in any consistent system, whatever others hold, a current draft at the present business version is taken through review, approval and commit by six steps of one client, if no other has taken its key or operation id; the business ends one version on, the decision has the draft's summary, and the log has exactly three events more |
| Completion.FittingPlansCommit | internal/application/proposalworkflow/service.go:65-105 | in any consistent system, whatever others hold, the twelve steps of a plan that fits the store take it from a scenario draft to a commit, if no other has taken its key or operation id |
| Completion.SomePlanFits | internal/domain/commit/commit_test.go:13-24 | there are a seeded store and a plan that fits it |
| Revising.RevisionSucceedsIff | internal/platform/postgres/proposal_repository.go:73-116 | in any consistent store a revision is saved exactly when the user may operate, the current version is a visible draft, its summary has room for the marked feedback, and the version id and request id are new |
| Revising.PiecesThatFitAreTaken | internal/application/proposalworkflow/service.go:132-141 | in any consistent system, every list of new pieces of feedback that fits into a draft's summary is taken in, one version for each, and the last summary is the first with all pieces in order |
| Longest.LongestLife | internal/application/proposalworkflow/service.go:139-141 | there is a run from a seeded store in which one proposal reaches 417 versions and 420 audit events, so both bounds are exact |
| Committing.AsWrittenRefusesEveryCommit | internal/platform/postgres/commit_service.go:148-162 | as written, the guard refuses every fresh commit |
| Committing.AsWrittenNeverCommits | internal/platform/postgres/commit_service.go:148-151 | so in no run of the program text does any business version, operation or decision change |
| Histories.EveryStepFollowsTheMachines | internal/domain/proposal/proposal.go:55-68 | at every step of every run new rows are drafts, a version's status changes by at most one move, and a scenario's only from draft to simulated |
| Evolution.MovesAreTransitions | internal/domain/proposal/proposal.go:55-68 | the transitions of the proposal machine are the moves and, beyond them, superseding a version in review or an approved one |
| Histories.OnlyDraftsAreSuperseded | internal/platform/postgres/proposal_repository.go:93-102 | in no run does a version past being a draft become superseded |
| Histories.StalenessIsPermanent | internal/platform/postgres/approval_repository.go:79-81 | a version whose base is behind its business stays behind; if undecided it is never approved, rejected or committed, and if decided its status never changes |
| Histories.StatusWasEntered | internal/domain/proposal/proposal.go:70-76 | any status but draft was entered at some step of the run along a transition |
| Histories.DecidedAtItsBase | internal/domain/commit/commit.go:73-75 | a step that approves, rejects or commits a version finds the business at the version's base |
| Histories.DecisionsHaveAPast | internal/platform/postgres/approval_repository.go:76-81 | every decision V+1 of any run was approved at one step and committed at a later one, with the business at V at both |
| Histories.ApprovalRecordedThen | internal/platform/postgres/approval_repository.go:87-106 | the step that approves a version is the one that records its one approval row |
| Evolution.MayBecomeIsReachability | internal/domain/proposal/proposal.go:55-68 | the bound on what a version may become over a run, which the final store of every run respects, is what any number of moves reaches |
| Repository.UpdateHitsOneRow | migrations/000001_initial.up.sql:171-187 | an update by version id reaches the one row with that id if its tenant and status match, and no row otherwise |
| Repository.CommitMarksExactlyOneVersion | internal/platform/postgres/commit_service.go:176-178 | the unchecked status update of a commit always changes exactly one row |
| Repository.Store.AddConstraint | internal/platform/postgres/scenario_repository.go:23-54 | the statements insert or replace one constraint and its event, or leave the store as it was |
| Repository.Store.CreateScenario | internal/platform/postgres/scenario_repository.go:100-136 | the statements insert one draft at the present business version and its event, or leave the store as it was |
| Repository.Store.UpdateSimulation | internal/platform/postgres/scenario_repository.go:183-242 | the statements store a result over an unchanged, current draft and its event, or leave the store as it was |
| Repository.Store.CreateProposal | internal/platform/postgres/proposal_repository.go:22-53 | the statements insert proposal, first version and event, or leave the store as it was |
| Repository.Store.SaveRevision | internal/platform/postgres/proposal_repository.go:73-116 | the statements supersede the expected draft, insert the next version, advance the number and log it, or leave the store as it was |
| Repository.Store.SubmitReview | internal/platform/postgres/proposal_repository.go:118-139 | the statements put the numbered draft into review and log it, or leave the store as it was |
| Repository.Store.RecordDecision | internal/platform/postgres/approval_repository.go:27-136 | the statements record decision, status and event together, or leave the store as it was |
| Repository.Store.Commit | internal/platform/postgres/commit_service.go:42-189 | replay, refusal or the six writes of a commit; a refusal after any statement leaves the store as it was |
| Services.CreateProposal | internal/application/proposalworkflow/service.go:65-105 | the call acts on the store as one operation and returns the first version it stored |
| Services.ReviseProposal | internal/application/proposalworkflow/service.go:107-149 | the call acts on the store as one operation and returns the version it stored |
| Services.RequestHumanReview | internal/application/proposalworkflow/service.go:151-174 | the call acts on the store as one operation and returns the read proposal, in review, its version raised by one |
| Workflow.ChangesForScenario | internal/application/proposalworkflow/service.go:176-182 | the loop yields one change per action, in order |
| Services.Decide | internal/application/approvalworkflow/service.go:47-82 | the call acts on the store as one operation, stores the decision it returns, and that decision is of the version, status and trimmed reason asked for |
| Services.CreatedReadsBack | internal/platform/postgres/proposal_repository.go:160-181 | a created proposal reads back as returned |
| Services.RevisionReadsBack | internal/platform/postgres/proposal_repository.go:55-71 | a revision reads back as returned |
| Services.ReviewReadsBackOneLess | internal/application/proposalworkflow/service.go:171-173 | a proposal sent to review reads back as returned but for the version field, which is one less |
| Services.CreateScenario | internal/application/scenarioworkflow/service.go:65-103 | the call acts on the store as one operation and what it returns is what is stored |
| Services.SimulateScenario | internal/application/scenarioworkflow/service.go:105-135 | the call acts on the store as one operation, what it returns is what is stored, and its metrics are those of the snapshot and the actions |
| Services.ListScenarios | internal/platform/postgres/scenario_repository.go:151-181 | the rows are exactly the requested scenarios the tenant can see, in the order of their ids |
| Services.CompareScenarios | internal/application/scenarioworkflow/service.go:137-171 | refused with the right error exactly for two-to-eight, validity, uniqueness, visibility, common base or calculation; otherwise covers exactly the requested set and recommends its best |
| Services.RecommendedHasHighestMargin | internal/domain/scenario/simulation.go:52-86 | a comparison recommends a requested scenario without high risk that no requested one without high risk exceeds in projected margin or, with an equal margin, precedes in its id; and nothing exactly when all have a high risk |
| Services.ComparisonIgnoresRequestOrder | internal/application/scenarioworkflow/service.go:141-171 | two requests for the same scenarios get the same comparison, whatever the order of the ids |
| Budgets.WasSimulated | internal/application/scenarioworkflow/service.go:122-134 | the simulation stored for a scenario is the outcome of a step of the run that simulated the draft and the goal its client held then |
| Budgets.GoalWasRead | internal/platform/postgres/scenario_repository.go:56-98 | a goal a client simulates with was read at an earlier step of the run and was then the goal's row with exactly its stored constraints |
| Budgets.SafeSimulationWithinBudgets | internal/domain/scenario/simulation.go:179-195 | a stored simulation without a high risk spends within every hard budget that was stored for its goal when its client read it, each of which was a number |
| Budgets.RecommendationWithinBudgets | internal/application/scenarioworkflow/service.go:137-171 | what a comparison recommends, in any store a run reaches, was simulated at some step with a goal read at an earlier one, and spends within every hard budget stored for that goal at the reading |
| Comparisons.Compare | internal/domain/scenario/simulation.go:34-68 | succeeds exactly on two or more calculated candidates; shows each in order; recommends the one without high risk of the highest projected margin and the first id, and nothing exactly when there is none |
| Comparisons.BestIsUnique | internal/domain/scenario/simulation.go:79-86 | among candidates with distinct ids only one is best |
| Comparisons.RecommendationIgnoresOrder | internal/domain/scenario/simulation.go:52-68 | the recommendation does not depend on the order of the candidates and exists exactly when one has no high risk |
| Comparisons.RecommendedSpendWithinBudgets | internal/domain/scenario/simulation.go:151-151 | the best simulated candidate spends within every hard budget |
| Simulation.Simulate | internal/domain/scenario/simulation.go:90-177 | the loops compute the closed form and refuse exactly what cannot be simulated; the metrics are those of `Simulation.SimulationMeasures` |
| Simulation.SimulationMeasures | internal/domain/scenario/simulation.go:111-171 | baseline revenue, cost and stock are the sums over orders and products; the projection adds price effects and twice the spend, the spend, and the replenishments; the four deltas are projection minus baseline, both margins revenue minus cost; nothing of the draft but result, risks, status and version changes |
| Simulation.RisksAreOfBudgets | internal/domain/scenario/simulation.go:179-195 | the risks are exactly an unknown one for each hard budget whose limit is no number or negative and an exceeded one for each below the spend, all of them high |
| Simulation.WarningsAreExplained | internal/domain/scenario/simulation.go:124-136 | the warnings are exactly those of the same budgets and of price changes for products without observed revenue |
| Simulation.TallyOrders | internal/domain/scenario/simulation.go:111-117 | the order loop computes each product's revenue and both totals |
| Simulation.ApplyActions | internal/domain/scenario/simulation.go:123-149 | the action loop computes the sums of price effects, replenishments and spend, or fails at a target that is no active product |
| Simulation.ApplyHardBudgetRisk | internal/domain/scenario/simulation.go:179-195 | the budget loop appends the warning and the risk of each hard budget, in order |
| Simulation.MetricsClosedForm | internal/domain/scenario/simulation.go:152-171 | so revenue moves by the price effects plus twice the spend, margin by the price effects plus the spend, and stock by the replenishments |
| Simulation.SimulationIgnoresActionOrder | internal/domain/scenario/simulation.go:123-149 | reordering the actions changes neither metrics nor risks, and warnings only up to order |
| Simulation.PriceEffectByOrder | internal/domain/scenario/simulation.go:111-117 | the per-product map partitions the orders: effects summed per action equal effects summed per order |
| Simulation.RevenueBoundIff | internal/domain/scenario/simulation.go:128-149 | projected revenue stays within a tenth and three times the baseline plus twice the spend for all orders exactly when each product's percentages add up to between -90 and 200 |
| Simulation.RevenueBound | internal/domain/scenario/scenario.go:49-51 | so one price action per product at most is enough |
| Simulation.TwoPriceActionsExceedTheBound | internal/domain/scenario/simulation.go:134-134 | there is a simulation of two raises of one product that leaves the bound |
| Simulation.HighRiskExactlyOverBudget | internal/domain/scenario/simulation.go:70-77 | a simulated scenario has a high risk exactly when some hard budget is not a number or is overspent |
| SlidingWindow.GrantKeepsBound | internal/httpapi/server.go:140-146 | a grant to a window that is not full overfills no window at any instant |
| SlidingWindow.RecentAfterRecent | internal/httpapi/server.go:134-139 | forgetting with an earlier cutoff loses nothing for a later one |
| SlidingWindow.OrderedCallGrantedIff | internal/httpapi/server.go:129-147 | when calls reach the lock in order, a call is granted exactly when the window ending now holds fewer grants than the limit, counting all grants ever given |
| SlidingWindow.OrderedRunTracks | internal/httpapi/server.go:129-147 | when calls reach the lock in order, what is kept is all grants but those before some past cutoff, and no window at any instant holds more than the limit |
| SlidingWindow.BoundHoldsIff | internal/httpapi/server.go:130-146 | over all histories of calls late by at most d the bound holds if and only if d is zero or the limit is at most one |
| SlidingWindow.OneLateCallBreaksBound | internal/httpapi/server.go:130-132 | as many calls as the limit allows, one a window later, and one late by a single unit put one grant too many into a window |
| SlidingWindow.LowLimitsHold | internal/httpapi/server.go:140-143 | with a limit of at most one the bound holds whatever the instants are |
| RateLimiter.Limiter.GuestIssues | internal/httpapi/server.go:129-147 | twelve an hour |
| RateLimiter.Limiter.AgentChat | internal/httpapi/server.go:149-166 | thirty a minute |
| RateLimiter.Limiter.Compact | internal/httpapi/server.go:134-139 | compaction over the array being read keeps exactly the recent entries |
| RateLimiter.Limiter.Append | internal/httpapi/server.go:144-145 | appending in place or into a larger array adds exactly one entry |
| RateLimiter.Limiter.Allow | internal/httpapi/server.go:129-147 | any call, late or not, is granted or refused as the client's whole history of calls says, and, while that history is in order, exactly as the window ending now has room |
| RateLimiter.Limiter.EveryWindowBounded | internal/httpapi/server.go:140-143 | for every client whose calls took the lock in order and every instant, at most the limit of grants lie in the window ending there |
| MigrationFiles.SortByVersion | internal/platform/postgres/migrator.go:67-67 | the list is put in ascending order and keeps its members |
| MigrationFiles.ReadForward | internal/platform/postgres/migrator.go:41-66 | the scan succeeds exactly when every forward file is usable and no two share a version |
| MigrationFiles.ForwardIff | internal/platform/postgres/migrator.go:24-24 | a forward migration is a file named six digits, an underscore, a name of lower-case letters, digits and underscores, and .up.sql |
| MigrationFiles.MigrationIs | internal/platform/postgres/migrator.go:50-65 | it has the number its digits write, that name and the contents of the file |
| MigrationFiles.NumbersOrderAsNames | internal/platform/postgres/migrator.go:67-67 | numbers of equally many digits are ordered as their digits are, so version order is the order of the file names |
| MigrationFiles.LoadMigrations | internal/platform/postgres/migrator.go:34-72 | loading succeeds exactly on a non-empty directory of usable, differently numbered forward files and lists exactly these, ascending |
| MigrationRunner.ApplyOneIff | internal/platform/postgres/migrator.go:107-129 | a transaction succeeds exactly when the ledger has the migration under this very name, or lacks the version and the script works; only then it adds an entry and runs the script |
| MigrationRunner.ApplyOneExtendsPrefix | internal/platform/postgres/migrator.go:107-129 | one transaction finds its migration applied or extends the applied prefix by it |
| MigrationRunner.NextConsistent | internal/platform/postgres/migrator.go:87-103 | any step of any runner keeps the ledger a prefix no runner has passed |
| MigrationRunner.EveryRunAppliesAPrefix | internal/platform/postgres/migrator.go:77-105 | however runners are interleaved and stopped, the ledger is a prefix of the list with each script run exactly once and in order, and a runner at the end has seen it all applied |
| MigrationRunner.RerunCompletes | internal/platform/postgres/migrator.go:87-104 | from an untouched database, whatever runners did and wherever they stopped, a runner that starts and gets as many working turns as the list is long completes it, with other runners' steps anywhere in between |
| MigrationRunner.PassEnds | internal/platform/postgres/migrator.go:87-96 | a pass undoes nothing and stops only at a script that fails in it; with no other runner about it completes the list exactly when every script left works |
| MigrationRunner.Connection.ApplyOne | internal/platform/postgres/migrator.go:107-129 | the transaction on the changing ledger does what its specification says, or nothing |
| MigrationRunner.Connection.OthersApply | internal/platform/postgres/migrator.go:74-76 | other runners' transactions extend the applied prefix |
| MigrationRunner.Connection.ApplyMigrations | internal/platform/postgres/migrator.go:77-105 | from any prefix, with other runners' transactions before each of its own, a pass ends where its specification says and reports success exactly when that is the end of the list |

## Left out

- Interleaving inside a transaction: except for a commit, whose insert and locked part are two steps with others in between, each transaction is one step, as its row locks and conditions make it appear. (Where a business version or a scenario is read without a lock, the transaction that may overtake neither reads nor writes what is then written.) Deadlocks are not modelled, and the code does not promise their absence; an aborted transaction is a step that changes nothing.
- RequestHumanReview's returned version: not claimed to equal what is stored, because it does not.
- Committing.ApplySucceedsIff: for the form that reads goal and scenario ids; the program text refuses every fresh commit.
- Finishing.DraftsCommit: for the form that reads goal and scenario ids, as are `Completion.FittingPlansCommit` and `Longest.LongestLife`.
- RateLimiter.Limiter.EveryWindowBounded: for calls that take the lock in order, which the code does not enforce; `SlidingWindow.BoundHoldsIff` shows that no weaker bound on lateness would do.
- MigrationRunner.Connection.ApplyMigrations: starts from a ledger that is a prefix of the list, as every run leaves it; a ledger written from another list is covered one transaction at a time, by `ApplyOne`.
- Order of listed scenarios: ids are ordered bytewise, where the database orders them by its collation; the items of a comparison may come in another order, its recommendation does not change.
- Floating point: simulation is over exact reals, so rounding, NaN and overflow are not covered; a constraint value is an optional parsed number.
- Integer widths: versions and counts are unbounded.
- Text: one char is one byte; white space is the ASCII set, so trimming of other Unicode spaces is not covered. Letter case is folded for ASCII letters.
- Hashes and random ids: audit and decision ids are taken as injective in what they are hashed from, and fresh ids are arguments that the uniqueness checks of the tables still guard.
- Users, goals and businesses: created by seeding only, as no modelled transaction changes them (businesses change by commits). Scenario statuses compared and archived are never written by any transaction.
- Snapshot reads: what a simulation reads of the business is arbitrary, because the code does not check the consistency of the queries among themselves. Only the snapshot's business version is checked again at the write.
- Later budgets: a goal and its constraints are read from the store in one step, in whatever order; constraints set between that reading and the write, or after it, are not looked at again by the code, so `Budgets.RecommendationWithinBudgets` speaks of those stored at the reading.
- Customers, metrics and assumptions: they take no part in simulation or comparison.
- Formatted text: messages, the text of warnings and of change values are kept as the data they are made from.
- Error values: errors that callers cannot tell apart share one constructor, and validation order among them is not distinguished.
- The order in which PostgreSQL returns equal rows, query plans and isolation anomalies below read committed.
- HTTP routing, decoding, authentication, configuration, seeding, the agent chat and its adapters, the analysis and planning services.
