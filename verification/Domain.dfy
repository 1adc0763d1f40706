/** internal/domain/business/business.go: the verified snapshot a simulation reads. */
module Businesses {
  import opened Core
  import opened Text

  datatype Product = Product(id: Id, sku: string, name: string, priceCents: int, costCents: int,
                             inventoryUnits: int, active: bool, version: nat)
  {
    predicate Valid() {
      && ValidId(id) && !IsBlank(sku) && !IsBlank(name)
      && priceCents >= 0 && costCents >= 0 && inventoryUnits >= 0
      && costCents <= priceCents && version != 0
    }
  }

  datatype Order = Order(id: Id, customer: Id, product: Id, quantity: int, revenueCents: int,
                         costCents: int, version: nat)
  {
    predicate Valid() {
      && ValidId(id) && ValidId(customer) && ValidId(product)
      && quantity > 0 && revenueCents >= 0 && costCents >= 0 && version != 0
      && costCents <= revenueCents
    }
  }

  /** Customers and metrics take no part in simulation and are not modelled. */
  datatype Snapshot = Snapshot(business: Id, version: nat, products: seq<Product>, orders: seq<Order>)
  {
    predicate Valid() {
      && ValidId(business) && version != 0
      && (forall p :: p in products ==> p.Valid())
      && (forall o :: o in orders ==> o.Valid())
    }
  }
}

/** internal/domain/planning/planning.go: goals and their constraints. */
module Planning {
  import opened Core
  import opened Text

  datatype GoalStatus = GoalDraft | GoalActive | GoalCompleted | GoalCancelled

  /** `limit` is the constraint value parsed as a number, None when it is not a finite number. */
  datatype Constraint = Constraint(id: Id, key: string, limit: Option<real>, hard: bool)
  {
    predicate Valid() {
      ValidId(id) && !IsBlank(key)
    }

    predicate HardBudget() {
      hard && EqualFold(TrimSpace(key), "budget")
    }
  }

  datatype Goal = Goal(id: Id, business: Id, objective: string, horizonDays: int,
                       constraints: seq<Constraint>, status: GoalStatus, version: nat)
  {
    predicate Valid() {
      && ValidId(id) && ValidId(business) && !IsBlank(objective) && horizonDays > 0 && version != 0
      && forall c :: c in constraints ==> c.Valid()
    }
  }
}

/** internal/domain/scenario/scenario.go: bounded actions and the scenario life cycle. */
module Scenarios {
  import opened Core
  import opened Text

  datatype Status = Draft | Simulated | Compared | Archived

  datatype ActionType = PriceAdjustment | InventoryReplenish | MarketingBudget | OtherAction(name: string)

  datatype Unit = Percent | Units | Cents | OtherUnit(name: string)

  datatype Action = Action(kind: ActionType, target: Id, value: real, unit: Unit)
  {
    predicate Valid() {
      match kind
      case PriceAdjustment =>
        ValidId(target) && unit == Percent && -90.0 <= value <= 200.0
      case InventoryReplenish =>
        ValidId(target) && unit == Units && IsWhole(value) && 0.0 < value <= 1000000000.0
      case MarketingBudget =>
        unit == Cents && IsWhole(value) && 0.0 < value <= 1000000000000.0
      case OtherAction(_) => false
    }
  }

  predicate IsWhole(value: real) {
    value.Floor as real == value
  }

  /** The metric maps of a result as a record: a key a map lacks reads as zero in Go. */
  datatype Metrics = Metrics(revenue: real, cost: real, margin: real, inventory: real, spend: real)

  const NO_METRICS := Metrics(0.0, 0.0, 0.0, 0.0, 0.0)

  datatype Warning = NoObservedRevenue(product: Id) | BudgetNotNumeric | BudgetOverspent

  datatype SimulationResult = SimulationResult(baseline: Metrics, projected: Metrics, deltas: Metrics,
                                               warnings: seq<Warning>, calculated: bool)

  const EMPTY_RESULT := SimulationResult(NO_METRICS, NO_METRICS, NO_METRICS, [], false)

  datatype RiskKey = BudgetConstraintUnknown | BudgetExceeded

  datatype Risk = Risk(key: RiskKey, severity: string)

  datatype Scenario = Scenario(id: Id, goal: Id, business: Id, base: nat, name: string, objective: string,
                               actions: seq<Action>, result: SimulationResult, risks: seq<Risk>,
                               status: Status, version: nat)
  {
    predicate Valid() {
      && ValidId(id) && ValidId(goal) && ValidId(business)
      && base != 0 && version != 0 && !IsBlank(name) && !IsBlank(objective)
      && actions != [] && forall a :: a in actions ==> a.Valid()
    }
  }

  /** A scenario that proposals may be built on. */
  predicate Usable(s: Scenario) {
    s.status == Simulated || s.status == Compared
  }
}

/** internal/domain/proposal/proposal.go: versions and their life cycle. */
module Proposals {
  import opened Core
  import opened Text
  import opened Scenarios

  datatype Status = Draft | InReview | Approved | Rejected | Committed | Superseded

  /** One entry of a version's change list: an action of the scenario, or
      human feedback on the proposal itself. */
  datatype Change =
    | StrategicAction(target: Id, field: ActionType, value: real, unit: Unit)
    | HumanFeedback(proposal: Id, text: string)

  datatype Version = Version(id: Id, proposal: Id, number: nat, scenario: Id, base: nat,
                             summary: string, changes: seq<Change>, status: Status)
  {
    predicate Valid() {
      && ValidId(id) && ValidId(proposal) && ValidId(scenario)
      && number > 0 && base != 0 && !IsBlank(summary)
    }
  }

  datatype Proposal = Proposal(id: Id, business: Id, goal: Id, current: Version, version: nat)
  {
    predicate Valid() {
      ValidId(id) && ValidId(business) && ValidId(goal) && version != 0 && current.Valid()
    }
  }

  predicate CanTransition(from: Status, to: Status) {
    match from
    case Draft => to == InReview || to == Superseded
    case InReview => to == Approved || to == Rejected || to == Superseded
    case Approved => to == Committed || to == Superseded
    case Rejected => false
    case Committed => false
    case Superseded => false
  }

  /** Statuses that only a human decision on an up-to-date version can produce. */
  predicate Decided(s: Status) {
    s == Approved || s == Rejected || s == Committed
  }
}

/** internal/domain/approval/approval.go: a version-bound human decision. */
module Approvals {
  import opened Core
  import opened Text

  datatype Status = Pending | Approved | Rejected | Expired | Revoked

  datatype Decision = Decision(id: Id, proposal: Id, versionId: Id, business: Id, decidedBy: Id,
                               status: Status, reason: string, expiresAt: Option<int>)
  {
    predicate Valid(now: int) {
      && ValidId(id) && ValidId(proposal) && ValidId(versionId) && ValidId(business) && ValidId(decidedBy)
      && (status == Approved ==> !IsBlank(reason))
      && !(status == Pending && expiresAt.Some? && expiresAt.value <= now)
    }

    predicate Unexpired(now: int) {
      expiresAt.Some? ==> now < expiresAt.value
    }

    predicate IsValidForCommit(forProposal: Id, forVersion: Id, forBusiness: Id, now: int) {
      && status == Approved && proposal == forProposal && versionId == forVersion && business == forBusiness
      && Unexpired(now)
    }
  }
}

/** internal/domain/commit/commit.go: the guard every fresh commit passes. */
module Commits {
  import opened Core
  import opened Text
  import Proposals
  import Approvals

  datatype Status = Requested | Succeeded | Failed

  datatype Operation = Operation(id: Id, key: string, proposal: Id, versionId: Id, business: Id,
                                 expected: nat, status: Status)
  {
    predicate Valid() {
      && ValidId(id) && ValidId(proposal) && ValidId(versionId) && ValidId(business)
      && !IsBlank(key) && expected != 0
    }
  }

  datatype ValidationInput = ValidationInput(now: int, business: Id, businessVersion: nat,
                                             proposal: Proposals.Proposal, approval: Approvals.Decision,
                                             operation: Operation, authorized: bool)

  predicate Accepts(input: ValidationInput) {
    && ValidId(input.business) && input.businessVersion != 0
    && input.proposal.Valid()
    && input.approval.Valid(input.now)
    && input.operation.Valid()
    && input.authorized
    && input.proposal.business == input.business && input.proposal.current.base == input.businessVersion
    && input.proposal.current.status == Proposals.Approved
    && input.approval.IsValidForCommit(input.proposal.id, input.proposal.current.id, input.business, input.now)
    && input.operation.proposal == input.proposal.id && input.operation.versionId == input.proposal.current.id
    && input.operation.business == input.business
    && input.operation.expected == input.businessVersion
  }
}
