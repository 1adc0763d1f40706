/** internal/application/proposalworkflow/service.go: what the client computes
    between reading a proposal and writing it back. */
module Workflow {
  import opened Core
  import opened Text
  import opened Database
  import opened Transactions
  import S = Scenarios
  import P = Proposals
  import A = Approvals

  const REVISION_MARK := "\nRevision: "
  const MARK_LENGTH := 11
  const MAX_SUMMARY := 5000
  const MAX_TEXT := 2000

  datatype CreateArgs = CreateArgs(actor: Actor, business: Id, goal: Id, scenario: Id, summary: string, request: string)
  datatype ReviseArgs = ReviseArgs(actor: Actor, business: Id, proposal: Id, feedback: string, request: string)
  datatype ReviewArgs = ReviewArgs(actor: Actor, business: Id, proposal: Id, request: string)
  datatype DecideArgs = DecideArgs(actor: Actor, proposal: Id, versionId: Id, business: Id,
                                   status: A.Status, reason: string, request: string)

  function ChangeOf(action: S.Action): P.Change {
    P.StrategicAction(action.target, action.kind, action.value, action.unit)
  }

  /** One change per action, in order. */
  function ChangesFor(actions: seq<S.Action>): seq<P.Change> {
    seq(|actions|, i requires 0 <= i < |actions| => ChangeOf(actions[i]))
  }

  method ChangesForScenario(candidate: S.Scenario) returns (changes: seq<P.Change>)
    ensures changes == ChangesFor(candidate.actions)
  {
    changes := [];
    for i := 0 to |candidate.actions|
      invariant changes == ChangesFor(candidate.actions[..i])
    {
      assert candidate.actions[..i + 1][..i] == candidate.actions[..i];
      changes := changes + [ChangeOf(candidate.actions[i])];
    }
    assert candidate.actions[..|candidate.actions|] == candidate.actions;
  }

  predicate ValidText(text: string) {
    TrimSpace(text) != "" && |TrimSpace(text)| <= MAX_TEXT
  }

  // ---- CreateProposal ----

  predicate ValidCreate(args: CreateArgs) {
    && ValidId(args.actor.org) && ValidId(args.actor.id) && ValidId(args.business) && ValidId(args.goal)
    && ValidId(args.scenario) && ValidText(args.summary) && !IsBlank(args.request)
  }

  /** The first version of a proposal, built from the scenario as it was read. */
  function PlanProposal(args: CreateArgs, scenario: S.Scenario, proposalId: Id, versionId: Id): Result<P.Proposal> {
    if scenario.business != args.business || scenario.goal != args.goal
       || !S.Usable(scenario) || !scenario.result.calculated then Failure(ProposalContext)
    else
      var first := P.Proposal(proposalId, args.business, args.goal,
                              P.Version(versionId, proposalId, 1, scenario.id, scenario.base,
                                        TrimSpace(args.summary), ChangesFor(scenario.actions), P.Draft), 1);
      if first.Valid() then Success(first) else Failure(InvalidInput)
  }

  // ---- ReviseProposal ----

  predicate ValidRevise(args: ReviseArgs) {
    && ValidId(args.actor.org) && ValidId(args.actor.id) && ValidId(args.proposal)
    && ValidText(args.feedback) && !IsBlank(args.request)
  }

  /** The next version, built from the proposal as it was read. */
  function PlanRevision(args: ReviseArgs, view: P.Proposal, versionId: Id): Result<P.Proposal> {
    var feedback := TrimSpace(args.feedback);
    var v := view.current;
    var next := P.Version(versionId, view.id, v.number + 1, v.scenario, v.base,
                          TrimSpace(v.summary + REVISION_MARK + feedback),
                          v.changes + [P.HumanFeedback(view.id, feedback)], P.Draft);
    if v.status != P.Draft then Failure(ProposalState)
    else if |next.summary| > MAX_SUMMARY || !next.Valid() then Failure(InvalidInput)
    else Success(P.Proposal(view.id, view.business, view.goal, next, view.version + 1))
  }

  // ---- RequestHumanReview ----

  predicate ValidReview(args: ReviewArgs) {
    && ValidId(args.actor.org) && ValidId(args.actor.id) && ValidId(args.business) && ValidId(args.proposal)
    && !IsBlank(args.request)
  }

  predicate Reviewable(args: ReviewArgs, view: P.Proposal) {
    view.business == args.business && view.current.status == P.Draft
  }

  // ---- internal/application/approvalworkflow/service.go ----

  predicate ValidDecide(args: DecideArgs) {
    && ValidId(args.actor.org) && ValidId(args.actor.id) && ValidId(args.proposal) && ValidId(args.versionId)
    && ValidId(args.business) && (args.status == A.Approved || args.status == A.Rejected)
    && ValidText(args.reason) && !IsBlank(args.request)
  }

  function DecisionOf(args: DecideArgs, id: Id, expiresAt: Option<int>): A.Decision {
    A.Decision(id, args.proposal, args.versionId, args.business, args.actor.id, args.status,
               TrimSpace(args.reason), expiresAt)
  }

  // ---- Each call as one undisturbed operation on the store ----

  function ProposeNow(db: Db, args: CreateArgs, proposalId: Id, versionId: Id): Result<Db> {
    if !ValidCreate(args) then Failure(InvalidInput)
    else match GetScenario(db, args.actor.org, args.business, args.scenario)
      case Failure(e) => Failure(e)
      case Success(scenario) =>
        match PlanProposal(args, scenario, proposalId, versionId)
        case Failure(e) => Failure(e)
        case Success(first) => CreateProposalTx(db, args.actor, first, args.request)
  }

  function ReviseNow(db: Db, args: ReviseArgs, versionId: Id): Result<Db> {
    if !ValidRevise(args) then Failure(InvalidInput)
    else match GetProposal(db, args.actor.org, args.business, args.proposal)
      case Failure(e) => Failure(e)
      case Success(view) =>
        match PlanRevision(args, view, versionId)
        case Failure(e) => Failure(e)
        case Success(next) => SaveRevisionTx(db, args.actor, next, view.current.number, args.request)
  }

  function DecideNow(db: Db, args: DecideArgs, id: Id, expiresAt: Option<int>, createdAt: int): Result<Db> {
    if ValidDecide(args) && ValidId(id)
    then RecordDecisionTx(db, args.actor.org, DecisionOf(args, id, expiresAt), createdAt, args.request)
    else Failure(InvalidInput)
  }

  function ReviewNow(db: Db, args: ReviewArgs): Result<Db> {
    if !ValidReview(args) then Failure(InvalidInput)
    else match GetProposal(db, args.actor.org, args.business, args.proposal)
      case Failure(e) => Failure(e)
      case Success(view) =>
        if !Reviewable(args, view) then Failure(ProposalState)
        else SubmitReviewTx(db, args.actor, args.proposal, view.current.number, args.request)
  }
}
