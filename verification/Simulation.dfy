/** Sums over sequences, and their indifference to order. */
module Sums {

  function Total<T>(f: T -> real, s: seq<T>): real {
    if s == [] then 0.0 else Total(f, s[..|s| - 1]) + f(s[|s| - 1])
  }

  function Collect<T, U>(f: T -> seq<U>, s: seq<T>): seq<U> {
    if s == [] then [] else Collect(f, s[..|s| - 1]) + f(s[|s| - 1])
  }

  lemma TotalNext<T>(f: T -> real, s: seq<T>, i: nat)
    requires i < |s|
    ensures Total(f, s[..i + 1]) == Total(f, s[..i]) + f(s[i])
  {
    assert s[..i + 1][..i] == s[..i];
  }

  lemma CollectNext<T, U>(f: T -> seq<U>, s: seq<T>, i: nat)
    requires i < |s|
    ensures Collect(f, s[..i + 1]) == Collect(f, s[..i]) + f(s[i])
  {
    assert s[..i + 1][..i] == s[..i];
  }

  /** `s` without its element at `i`. */
  function Without<T>(s: seq<T>, i: nat): (r: seq<T>)
    requires i < |s|
    ensures multiset(r) == multiset(s) - multiset{s[i]}
  {
    assert s == s[..i] + [s[i]] + s[i + 1..];
    s[..i] + s[i + 1..]
  }

  lemma {:induction false} TotalWithout<T>(f: T -> real, s: seq<T>, i: nat)
    requires i < |s|
    ensures Total(f, s) == Total(f, Without(s, i)) + f(s[i])
  {
    if i == |s| - 1 {
      assert Without(s, i) == s[..i];
    } else {
      TotalWithout(f, s[..|s| - 1], i);
      WithoutFront(s, i);
    }
  }

  lemma {:induction false} CollectWithout<T, U>(f: T -> seq<U>, s: seq<T>, i: nat)
    requires i < |s|
    ensures multiset(Collect(f, s)) == multiset(Collect(f, Without(s, i))) + multiset(f(s[i]))
  {
    var front, last := s[..|s| - 1], s[|s| - 1];
    var w := Without(s, i);
    if i == |s| - 1 {
      assert w == front;
    } else {
      CollectWithout(f, front, i);
      WithoutFront(s, i);
      SwapLast(Collect(f, front), Collect(f, Without(front, i)), f(s[i]), f(last));
    }
  }

  lemma WithoutFront<T>(s: seq<T>, i: nat)
    requires i < |s| - 1
    ensures var w := Without(s, i); w[..|w| - 1] == Without(s[..|s| - 1], i) && w[|w| - 1] == s[|s| - 1]
  {
  }

  lemma SwapLast<U>(all: seq<U>, rest: seq<U>, mid: seq<U>, last: seq<U>)
    requires multiset(all) == multiset(rest) + multiset(mid)
    ensures multiset(all + last) == multiset(rest + last) + multiset(mid)
  {
  }

  lemma SameThenSame<T>(a: seq<T>, b: seq<T>, tail: seq<T>)
    requires multiset(a) == multiset(b)
    ensures multiset(a + tail) == multiset(b + tail)
  {
  }

  /** Rearranging the terms of a sum does not change it. */
  lemma {:induction false} TotalPermuted<T>(f: T -> real, a: seq<T>, b: seq<T>)
    requires multiset(a) == multiset(b)
    ensures Total(f, a) == Total(f, b)
  {
    assert |a| == |multiset(a)| == |b|;
    if a != [] {
      var x := a[|a| - 1];
      assert x in multiset(b);
      var i :| 0 <= i < |b| && b[i] == x;
      assert a == a[..|a| - 1] + [x];
      TotalPermuted(f, a[..|a| - 1], Without(b, i));
      TotalWithout(f, b, i);
    }
  }

  /** Rearranging the sources of collected items only rearranges the items. */
  lemma {:induction false} CollectPermuted<T, U>(f: T -> seq<U>, a: seq<T>, b: seq<T>)
    requires multiset(a) == multiset(b)
    ensures multiset(Collect(f, a)) == multiset(Collect(f, b))
  {
    assert |a| == |multiset(a)| == |b|;
    if a != [] {
      var x := a[|a| - 1];
      assert x in multiset(b);
      var i :| 0 <= i < |b| && b[i] == x;
      assert a == a[..|a| - 1] + [x];
      CollectPermuted(f, a[..|a| - 1], Without(b, i));
      CollectWithout(f, b, i);
    }
  }
}

/** internal/domain/scenario/simulation.go: deterministic simulation and comparison, in exact arithmetic. */
module Simulation {
  import opened Core
  import opened Text
  import opened Sums
  import opened Scenarios
  import opened Businesses
  import opened Planning

  const MARKETING_RETURN := 2.0

  // ---- The closed form ----

  function OrderRevenue(o: Order): real { o.revenueCents as real }
  function OrderCost(o: Order): real { o.costCents as real }
  function ProductInventory(p: Product): real { p.inventoryUnits as real }

  function RevenueOn(product: Id): Order -> real {
    (o: Order) => if o.product == product then o.revenueCents as real else 0.0
  }

  /** The observed revenue of one product. */
  function RevenueOf(product: Id, orders: seq<Order>): real {
    Total(RevenueOn(product), orders)
  }

  function PriceTerm(orders: seq<Order>): Action -> real {
    (a: Action) => if a.kind.PriceAdjustment? then RevenueOf(a.target, orders) * a.value / 100.0 else 0.0
  }

  function SpendTerm(a: Action): real { if a.kind.MarketingBudget? then a.value else 0.0 }
  function ReplenishTerm(a: Action): real { if a.kind.InventoryReplenish? then a.value else 0.0 }

  function PriceEffect(actions: seq<Action>, orders: seq<Order>): real { Total(PriceTerm(orders), actions) }
  function Spend(actions: seq<Action>): real { Total(SpendTerm, actions) }
  function Replenished(actions: seq<Action>): real { Total(ReplenishTerm, actions) }

  function NoRevenueWarning(orders: seq<Order>): Action -> seq<Warning> {
    (a: Action) =>
      if a.kind.PriceAdjustment? && RevenueOf(a.target, orders) == 0.0
      then [NoObservedRevenue(a.target)] else []
  }

  /** Later products overwrite earlier ones with the same id. */
  function ProductWith(products: seq<Product>, id: Id): Option<Product> {
    if products == [] then None
    else if products[|products| - 1].id == id then Some(products[|products| - 1])
    else ProductWith(products[..|products| - 1], id)
  }

  /** Price and inventory actions need an active product. */
  predicate Applicable(a: Action, products: seq<Product>) {
    a.kind.PriceAdjustment? || a.kind.InventoryReplenish? ==>
      var p := ProductWith(products, a.target); p.Some? && p.value.active
  }

  const UNKNOWN_BUDGET := Risk(BudgetConstraintUnknown, "high")
  const BUDGET_EXCEEDED := Risk(BudgetExceeded, "high")

  function BudgetRisk(spend: real): Constraint -> seq<Risk> {
    (c: Constraint) =>
      if !c.HardBudget() then []
      else if c.limit.None? || c.limit.value < 0.0 then [UNKNOWN_BUDGET]
      else if spend > c.limit.value then [BUDGET_EXCEEDED]
      else []
  }

  function BudgetWarning(spend: real): Constraint -> seq<Warning> {
    (c: Constraint) =>
      if !c.HardBudget() then []
      else if c.limit.None? || c.limit.value < 0.0 then [BudgetNotNumeric]
      else if spend > c.limit.value then [BudgetOverspent]
      else []
  }

  predicate Simulatable(snapshot: Snapshot, goal: Goal, candidate: Scenario) {
    && snapshot.Valid() && goal.Valid() && candidate.Valid()
    && candidate.status == Scenarios.Draft
    && candidate.business == snapshot.business && candidate.goal == goal.id && candidate.base == snapshot.version
    && forall a :: a in candidate.actions ==> Applicable(a, snapshot.products)
  }

  /** The metrics of a simulation from its six totals and its spend. */
  function ResultOf(revenue: real, cost: real, inventory: real,
                    projectedRevenue: real, projectedCost: real, projectedInventory: real,
                    spend: real, warnings: seq<Warning>): SimulationResult
  {
    SimulationResult(
      Metrics(revenue, cost, revenue - cost, inventory, 0.0),
      Metrics(projectedRevenue, projectedCost, projectedRevenue - projectedCost, projectedInventory, spend),
      Metrics(projectedRevenue - revenue, projectedCost - cost,
              (projectedRevenue - projectedCost) - (revenue - cost), projectedInventory - inventory, 0.0),
      warnings, true)
  }

  function ClosedForm(snapshot: Snapshot, goal: Goal, actions: seq<Action>): SimulationResult {
    var revenue := Total(OrderRevenue, snapshot.orders);
    var cost := Total(OrderCost, snapshot.orders);
    var inventory := Total(ProductInventory, snapshot.products);
    var spend := Spend(actions);
    ResultOf(revenue, cost, inventory,
             revenue + PriceEffect(actions, snapshot.orders) + MARKETING_RETURN * spend,
             cost + spend, inventory + Replenished(actions), spend,
             Collect(NoRevenueWarning(snapshot.orders), actions) + Collect(BudgetWarning(spend), goal.constraints))
  }

  /** What simulation promises, as one expression in the sums above. */
  function SimulationOf(snapshot: Snapshot, goal: Goal, candidate: Scenario): Result<Scenario> {
    if !Simulatable(snapshot, goal, candidate) then Failure(InvalidInput)
    else Success(candidate.(result := ClosedForm(snapshot, goal, candidate.actions),
                            risks := Collect(BudgetRisk(Spend(candidate.actions)), goal.constraints),
                            status := Scenarios.Simulated, version := candidate.version + 1))
  }

  // ---- The loops of the program ----

  lemma ProductWithNext(products: seq<Product>, i: nat, id: Id)
    requires i < |products|
    ensures ProductWith(products[..i + 1], id) ==
            if products[i].id == id then Some(products[i]) else ProductWith(products[..i], id)
  {
    assert products[..i + 1][..i] == products[..i];
  }

  method IndexProducts(products: seq<Product>) returns (index: map<Id, Product>)
    ensures forall id :: ProductWith(products, id) == if id in index then Some(index[id]) else None
  {
    index := map[];
    for i := 0 to |products|
      invariant forall id :: ProductWith(products[..i], id) == if id in index then Some(index[id]) else None
    {
      forall id ensures ProductWith(products[..i + 1], id) ==
                        if products[i].id == id then Some(products[i]) else ProductWith(products[..i], id) {
        ProductWithNext(products, i, id);
      }
      index := index[products[i].id := products[i]];
    }
    assert products[..|products|] == products;
  }

  /** Reading a missing key of a Go map yields zero. */
  function RevenueIn(byProduct: map<Id, real>, product: Id): real {
    if product in byProduct then byProduct[product] else 0.0
  }

  method TallyOrders(orders: seq<Order>) returns (byProduct: map<Id, real>, revenue: real, cost: real)
    ensures forall p :: RevenueIn(byProduct, p) == RevenueOf(p, orders)
    ensures revenue == Total(OrderRevenue, orders) && cost == Total(OrderCost, orders)
  {
    byProduct, revenue, cost := map[], 0.0, 0.0;
    for i := 0 to |orders|
      invariant forall p :: RevenueIn(byProduct, p) == RevenueOf(p, orders[..i])
      invariant revenue == Total(OrderRevenue, orders[..i]) && cost == Total(OrderCost, orders[..i])
    {
      var order := orders[i];
      TotalNext(OrderRevenue, orders, i);
      TotalNext(OrderCost, orders, i);
      forall p ensures RevenueOf(p, orders[..i + 1]) == RevenueOf(p, orders[..i]) + RevenueOn(p)(order) {
        TotalNext(RevenueOn(p), orders, i);
      }
      byProduct := byProduct[order.product := RevenueIn(byProduct, order.product) + order.revenueCents as real];
      revenue := revenue + order.revenueCents as real;
      cost := cost + order.costCents as real;
    }
    assert orders[..|orders|] == orders;
  }

  method TallyInventory(products: seq<Product>) returns (units: real)
    ensures units == Total(ProductInventory, products)
  {
    units := 0.0;
    for i := 0 to |products|
      invariant units == Total(ProductInventory, products[..i])
    {
      TotalNext(ProductInventory, products, i);
      units := units + products[i].inventoryUnits as real;
    }
    assert products[..|products|] == products;
  }

  /** The hard-budget pass appends to the warnings and risks gathered so far. */
  method ApplyHardBudgetRisk(goal: Goal, spend: real, warnings0: seq<Warning>, risks0: seq<Risk>)
    returns (warnings: seq<Warning>, risks: seq<Risk>)
    ensures warnings == warnings0 + Collect(BudgetWarning(spend), goal.constraints)
    ensures risks == risks0 + Collect(BudgetRisk(spend), goal.constraints)
  {
    hide Constraint.HardBudget;
    warnings, risks := warnings0, risks0;
    var constraints := goal.constraints;
    for i := 0 to |constraints|
      invariant warnings == warnings0 + Collect(BudgetWarning(spend), constraints[..i])
      invariant risks == risks0 + Collect(BudgetRisk(spend), constraints[..i])
    {
      var c := constraints[i];
      CollectNext(BudgetWarning(spend), constraints, i);
      CollectNext(BudgetRisk(spend), constraints, i);
      if !c.HardBudget() {
        continue;
      }
      if c.limit.None? || c.limit.value < 0.0 {
        warnings := warnings + [BudgetNotNumeric];
        risks := risks + [UNKNOWN_BUDGET];
        continue;
      }
      if spend > c.limit.value {
        warnings := warnings + [BudgetOverspent];
        risks := risks + [BUDGET_EXCEEDED];
      }
    }
    assert constraints[..|constraints|] == constraints;
  }

  /** One turn of the action loop: what a single action adds to each total. */
  method ApplyAction(action: Action, index: map<Id, Product>, byProduct: map<Id, real>,
                     ghost products: seq<Product>, ghost orders: seq<Order>)
    returns (ok: bool, revenue: real, units: real, spend: real, warnings: seq<Warning>)
    requires forall id :: ProductWith(products, id) == if id in index then Some(index[id]) else None
    requires forall p :: RevenueIn(byProduct, p) == RevenueOf(p, orders)
    ensures ok <==> Applicable(action, products)
    ensures ok ==>
              && revenue == PriceTerm(orders)(action) + MARKETING_RETURN * SpendTerm(action)
              && units == ReplenishTerm(action)
              && spend == SpendTerm(action)
              && warnings == NoRevenueWarning(orders)(action)
  {
    ok, revenue, units, spend, warnings := true, 0.0, 0.0, 0.0, [];
    match action.kind
    case PriceAdjustment =>
      if action.target !in index || !index[action.target].active {
        ok := false;
        return;
      }
      var productRevenue := RevenueIn(byProduct, action.target);
      revenue := productRevenue * action.value / 100.0;
      if productRevenue == 0.0 {
        warnings := [NoObservedRevenue(action.target)];
      }
    case InventoryReplenish =>
      if action.target !in index || !index[action.target].active {
        ok := false;
        return;
      }
      units := action.value;
    case MarketingBudget =>
      spend := action.value;
      revenue := action.value * MARKETING_RETURN;
    case OtherAction(_) =>
  }

  /** The running totals of the action loop; stops at the first action whose target is not an active product. */
  method ApplyActions(actions: seq<Action>, index: map<Id, Product>, byProduct: map<Id, real>,
                      ghost products: seq<Product>, ghost orders: seq<Order>,
                      revenue0: real, cost0: real, inventory0: real)
    returns (ok: bool, revenue: real, cost: real, inventory: real, spend: real, warnings: seq<Warning>)
    requires forall id :: ProductWith(products, id) == if id in index then Some(index[id]) else None
    requires forall p :: RevenueIn(byProduct, p) == RevenueOf(p, orders)
    ensures ok <==> forall a :: a in actions ==> Applicable(a, products)
    ensures ok ==>
              && spend == Spend(actions)
              && revenue == revenue0 + PriceEffect(actions, orders) + MARKETING_RETURN * spend
              && cost == cost0 + spend
              && inventory == inventory0 + Replenished(actions)
              && warnings == Collect(NoRevenueWarning(orders), actions)
  {
    ok, revenue, cost, inventory, spend, warnings := true, revenue0, cost0, inventory0, 0.0, [];
    for i := 0 to |actions|
      invariant ok
      invariant forall a :: a in actions[..i] ==> Applicable(a, products)
      invariant spend == Spend(actions[..i])
      invariant revenue == revenue0 + PriceEffect(actions[..i], orders) + MARKETING_RETURN * spend
      invariant cost == cost0 + spend
      invariant inventory == inventory0 + Replenished(actions[..i])
      invariant warnings == Collect(NoRevenueWarning(orders), actions[..i])
    {
      var addedRevenue, addedUnits, addedSpend, addedWarnings;
      ok, addedRevenue, addedUnits, addedSpend, addedWarnings :=
        ApplyAction(actions[i], index, byProduct, products, orders);
      assert actions[i] in actions;
      if !ok {
        return;
      }
      TotalNext(PriceTerm(orders), actions, i);
      TotalNext(SpendTerm, actions, i);
      TotalNext(ReplenishTerm, actions, i);
      CollectNext(NoRevenueWarning(orders), actions, i);
      assert actions[..i + 1] == actions[..i] + [actions[i]];
      revenue := revenue + addedRevenue;
      cost := cost + addedSpend;
      inventory := inventory + addedUnits;
      spend := spend + addedSpend;
      warnings := warnings + addedWarnings;
    }
    assert actions[..|actions|] == actions;
  }

  method Project(snapshot: Snapshot, goal: Goal, actions: seq<Action>)
    returns (ok: bool, result: SimulationResult, risks: seq<Risk>)
    ensures ok <==> forall a :: a in actions ==> Applicable(a, snapshot.products)
    ensures ok ==> result == ClosedForm(snapshot, goal, actions)
    ensures ok ==> risks == Collect(BudgetRisk(Spend(actions)), goal.constraints)
  {
    var products := IndexProducts(snapshot.products);
    var ordersByProduct, baselineRevenue, baselineCost := TallyOrders(snapshot.orders);
    var baselineInventory := TallyInventory(snapshot.products);
    var projectedRevenue, projectedCost, projectedInventory, marketingSpend, warnings;
    ok, projectedRevenue, projectedCost, projectedInventory, marketingSpend, warnings :=
      ApplyActions(actions, products, ordersByProduct, snapshot.products, snapshot.orders,
                   baselineRevenue, baselineCost, baselineInventory);
    if !ok {
      return false, EMPTY_RESULT, [];
    }
    warnings, risks := ApplyHardBudgetRisk(goal, marketingSpend, warnings, []);
    assert [] + Collect(BudgetRisk(marketingSpend), goal.constraints)
        == Collect(BudgetRisk(marketingSpend), goal.constraints);
    result := ResultOf(baselineRevenue, baselineCost, baselineInventory,
                       projectedRevenue, projectedCost, projectedInventory, marketingSpend, warnings);
  }

  // ---- What the metrics of a simulation are ----

  /** What the orders of one product brought in. */
  ghost function RevenueFor(product: Id, orders: seq<Order>): real {
    Total((o: Order) => if o.product == product then o.revenueCents as real else 0.0, orders)
  }

  /** The baseline sums up orders and products. The projection moves revenue by the price effects and twice the
      spend, cost by the spend and stock by the replenishments. The deltas are projection minus baseline. */
  ghost predicate Measures(r: SimulationResult, snapshot: Snapshot, actions: seq<Action>) {
    var spend := Total((a: Action) => if a.kind == MarketingBudget then a.value else 0.0, actions);
    var units := Total((a: Action) => if a.kind == InventoryReplenish then a.value else 0.0, actions);
    var prices := Total((a: Action) => if a.kind == PriceAdjustment
                                       then RevenueFor(a.target, snapshot.orders) * a.value / 100.0 else 0.0, actions);
    && r.baseline.revenue == Total((o: Order) => o.revenueCents as real, snapshot.orders)
    && r.baseline.cost == Total((o: Order) => o.costCents as real, snapshot.orders)
    && r.baseline.inventory == Total((p: Product) => p.inventoryUnits as real, snapshot.products)
    && r.baseline.margin == r.baseline.revenue - r.baseline.cost
    && r.projected.revenue == r.baseline.revenue + prices + 2.0 * spend
    && r.projected.cost == r.baseline.cost + spend
    && r.projected.inventory == r.baseline.inventory + units
    && r.projected.margin == r.projected.revenue - r.projected.cost
    && r.projected.spend == spend
    && r.deltas.revenue == r.projected.revenue - r.baseline.revenue
    && r.deltas.cost == r.projected.cost - r.baseline.cost
    && r.deltas.inventory == r.projected.inventory - r.baseline.inventory
    && r.deltas.margin == r.projected.margin - r.baseline.margin
    && r.calculated
  }

  lemma {:induction false} TotalAgrees<T>(f: T -> real, g: T -> real, s: seq<T>)
    requires forall x :: x in s ==> f(x) == g(x)
    ensures Total(f, s) == Total(g, s)
  {
    if s != [] {
      TotalAgrees(f, g, s[..|s| - 1]);
    }
  }

  /** What a simulation leaves of the draft: everything but its result, its risks, its status and its version. */
  predicate Completes(made: Scenario, draft: Scenario) {
    && made.id == draft.id && made.goal == draft.goal && made.business == draft.business && made.base == draft.base
    && made.name == draft.name && made.objective == draft.objective && made.actions == draft.actions
    && made.status == Scenarios.Simulated && made.version == draft.version + 1
  }

  lemma SimulationMeasures(snapshot: Snapshot, goal: Goal, candidate: Scenario)
    requires SimulationOf(snapshot, goal, candidate).Success?
    ensures var made := SimulationOf(snapshot, goal, candidate).value;
            Measures(made.result, snapshot, candidate.actions) && Completes(made, candidate)
  {
    TotalAgrees(OrderRevenue, (o: Order) => o.revenueCents as real, snapshot.orders);
    TotalAgrees(OrderCost, (o: Order) => o.costCents as real, snapshot.orders);
    TotalAgrees(ProductInventory, (p: Product) => p.inventoryUnits as real, snapshot.products);
    EffectsAgree(candidate.actions, snapshot.orders);
  }

  /** The sums over the actions, with their terms written out. */
  lemma EffectsAgree(actions: seq<Action>, orders: seq<Order>)
    ensures Spend(actions) == Total((a: Action) => if a.kind == MarketingBudget then a.value else 0.0, actions)
    ensures Replenished(actions) == Total((a: Action) => if a.kind == InventoryReplenish then a.value else 0.0, actions)
    ensures PriceEffect(actions, orders)
         == Total((a: Action) => if a.kind == PriceAdjustment
                                 then RevenueFor(a.target, orders) * a.value / 100.0 else 0.0, actions)
  {
    TotalAgrees(SpendTerm, (a: Action) => if a.kind == MarketingBudget then a.value else 0.0, actions);
    TotalAgrees(ReplenishTerm, (a: Action) => if a.kind == InventoryReplenish then a.value else 0.0, actions);
    forall product ensures RevenueOf(product, orders) == RevenueFor(product, orders) {
      TotalAgrees(RevenueOn(product), (o: Order) => if o.product == product then o.revenueCents as real else 0.0,
                  orders);
    }
    TotalAgrees(PriceTerm(orders), (a: Action) => if a.kind == PriceAdjustment
                                                  then RevenueFor(a.target, orders) * a.value / 100.0 else 0.0,
                actions);
  }

  /** The loops compute the closed form, and refuse exactly the inputs that are not simulatable. */
  method Simulate(snapshot: Snapshot, goal: Goal, candidate: Scenario) returns (r: Result<Scenario>)
    ensures r == SimulationOf(snapshot, goal, candidate)
    ensures r.Success? ==> Measures(r.value.result, snapshot, candidate.actions) && Completes(r.value, candidate)
  {
    if !snapshot.Valid() || !goal.Valid() || !candidate.Valid() {
      return Failure(InvalidInput);
    }
    if candidate.status != Scenarios.Draft {
      return Failure(InvalidInput);
    }
    if candidate.business != snapshot.business || candidate.goal != goal.id || candidate.base != snapshot.version {
      return Failure(InvalidInput);
    }
    var ok, result, risks := Project(snapshot, goal, candidate.actions);
    if !ok {
      return Failure(InvalidInput);
    }
    r := Success(candidate.(result := result, risks := risks, status := Scenarios.Simulated,
                            version := candidate.version + 1));
    SimulationMeasures(snapshot, goal, candidate);
  }

  /** The margin moves by the price effects plus the marketing spend, the stock by the replenishments. */
  lemma MetricsClosedForm(snapshot: Snapshot, goal: Goal, candidate: Scenario)
    requires SimulationOf(snapshot, goal, candidate).Success?
    ensures var r := SimulationOf(snapshot, goal, candidate).value.result;
            && r.deltas.revenue == PriceEffect(candidate.actions, snapshot.orders) + 2.0 * Spend(candidate.actions)
            && r.deltas.cost == Spend(candidate.actions) == r.projected.spend
            && r.deltas.margin == PriceEffect(candidate.actions, snapshot.orders) + Spend(candidate.actions)
            && r.deltas.inventory == Replenished(candidate.actions)
  {
    hide SimulationOf;
    SimulationMeasures(snapshot, goal, candidate);
    EffectsAgree(candidate.actions, snapshot.orders);
  }

  // ---- Order independence ----

  lemma SameMembers<T>(a: seq<T>, b: seq<T>)
    requires multiset(a) == multiset(b)
    ensures |a| == |b| && forall x :: x in a <==> x in b
  {
    assert |a| == |multiset(a)| && |b| == |multiset(b)|;
    forall x ensures x in a <==> x in b {
      assert x in a <==> x in multiset(a);
      assert x in b <==> x in multiset(b);
    }
  }

  lemma SimulatableIgnoresOrder(snapshot: Snapshot, goal: Goal, candidate: Scenario, reordered: seq<Action>)
    requires multiset(reordered) == multiset(candidate.actions)
    ensures Simulatable(snapshot, goal, candidate.(actions := reordered)) <==> Simulatable(snapshot, goal, candidate)
  {
    SameMembers(reordered, candidate.actions);
    assert candidate.(actions := reordered).Valid() <==> candidate.Valid();
  }

  lemma ClosedFormIgnoresOrder(snapshot: Snapshot, goal: Goal, actions: seq<Action>, reordered: seq<Action>)
    requires multiset(reordered) == multiset(actions)
    ensures Spend(reordered) == Spend(actions)
    ensures var a, b := ClosedForm(snapshot, goal, actions), ClosedForm(snapshot, goal, reordered);
            && a.baseline == b.baseline && a.projected == b.projected && a.deltas == b.deltas
            && multiset(a.warnings) == multiset(b.warnings)
  {
    hide Total, Collect;
    TotalPermuted(PriceTerm(snapshot.orders), reordered, actions);
    TotalPermuted(SpendTerm, reordered, actions);
    TotalPermuted(ReplenishTerm, reordered, actions);
    CollectPermuted(NoRevenueWarning(snapshot.orders), reordered, actions);
    SameThenSame(Collect(NoRevenueWarning(snapshot.orders), actions),
                 Collect(NoRevenueWarning(snapshot.orders), reordered),
                 Collect(BudgetWarning(Spend(actions)), goal.constraints));
  }

  /** Reordering the actions changes neither metrics nor risks, and warnings only up to order. */
  lemma SimulationIgnoresActionOrder(snapshot: Snapshot, goal: Goal, candidate: Scenario, reordered: seq<Action>)
    requires multiset(reordered) == multiset(candidate.actions)
    ensures var a := SimulationOf(snapshot, goal, candidate);
            var b := SimulationOf(snapshot, goal, candidate.(actions := reordered));
            && (a.Success? <==> b.Success?)
            && (a.Success? ==>
                  && a.value.result.baseline == b.value.result.baseline
                  && a.value.result.projected == b.value.result.projected
                  && a.value.result.deltas == b.value.result.deltas
                  && a.value.risks == b.value.risks
                  && multiset(a.value.result.warnings) == multiset(b.value.result.warnings))
  {
    hide Simulatable, ClosedForm;
    SimulatableIgnoresOrder(snapshot, goal, candidate, reordered);
    ClosedFormIgnoresOrder(snapshot, goal, candidate.actions, reordered);
  }

  // ---- The revenue bound ----

  function PercentOn(product: Id): Action -> real {
    (a: Action) => if a.kind.PriceAdjustment? && a.target == product then a.value else 0.0
  }

  /** All price changes of one product together, in percent. */
  function PercentFor(product: Id, actions: seq<Action>): real {
    Total(PercentOn(product), actions)
  }

  function OrderEffect(actions: seq<Action>): Order -> real {
    (o: Order) => o.revenueCents as real * PercentFor(o.product, actions) / 100.0
  }

  lemma {:induction false} OneMoreOrder(actions: seq<Action>, orders: seq<Order>, o: Order)
    ensures PriceEffect(actions, orders + [o]) == PriceEffect(actions, orders) + OrderEffect(actions)(o)
  {
    hide PriceEffect, PercentFor, PriceTerm, PercentOn;
    if actions == [] {
      NoActions(orders, o.product);
      NoActions(orders + [o], o.product);
    } else {
      var front, last := actions[..|actions| - 1], actions[|actions| - 1];
      OneMoreOrder(front, orders, o);
      OneMoreTerm(last, orders, o);
      LastAction(actions, orders, o.product);
      LastAction(actions, orders + [o], o.product);
      Distributes(o.revenueCents as real, PercentFor(o.product, front), PercentOn(o.product)(last));
    }
  }

  lemma NoActions(orders: seq<Order>, product: Id)
    ensures PriceEffect([], orders) == 0.0 && PercentFor(product, []) == 0.0
  {
  }

  lemma LastAction(actions: seq<Action>, orders: seq<Order>, product: Id)
    requires actions != []
    ensures var front, last := actions[..|actions| - 1], actions[|actions| - 1];
            && PriceEffect(actions, orders) == PriceEffect(front, orders) + PriceTerm(orders)(last)
            && PercentFor(product, actions) == PercentFor(product, front) + PercentOn(product)(last)
  {
  }

  lemma OneMoreTerm(a: Action, orders: seq<Order>, o: Order)
    ensures PriceTerm(orders + [o])(a)
         == PriceTerm(orders)(a) + o.revenueCents as real * PercentOn(o.product)(a) / 100.0
  {
    assert (orders + [o])[..|orders|] == orders;
    assert RevenueOf(a.target, orders + [o]) == RevenueOf(a.target, orders) + RevenueOn(a.target)(o);
    Distributes(a.value, RevenueOf(a.target, orders), RevenueOn(a.target)(o));
  }

  lemma Distributes(x: real, y: real, z: real)
    ensures x * (y + z) / 100.0 == x * y / 100.0 + x * z / 100.0
    ensures (y + z) * x / 100.0 == y * x / 100.0 + z * x / 100.0
  {
  }

  /** The price effects counted per action and product map are those counted per order: the map partitions the
      orders. */
  lemma {:induction false} PriceEffectByOrder(actions: seq<Action>, orders: seq<Order>)
    ensures PriceEffect(actions, orders) == Total(OrderEffect(actions), orders)
  {
    if orders == [] {
      NoOrdersNoEffect(actions);
    } else {
      var front, last := orders[..|orders| - 1], orders[|orders| - 1];
      PriceEffectByOrder(actions, front);
      OneMoreOrder(actions, front, last);
      assert orders == front + [last];
    }
  }

  lemma {:induction false} NoOrdersNoEffect(actions: seq<Action>)
    ensures PriceEffect(actions, []) == 0.0
  {
    if actions != [] {
      NoOrdersNoEffect(actions[..|actions| - 1]);
    }
  }

  /** No product's price changes leave the range one price action may have. */
  predicate PercentsInRange(actions: seq<Action>) {
    forall a :: a in actions && a.kind.PriceAdjustment? ==> -90.0 <= PercentFor(a.target, actions) <= 200.0
  }

  lemma {:induction false} UntargetedPercent(product: Id, actions: seq<Action>)
    requires forall a :: a in actions && a.kind.PriceAdjustment? ==> a.target != product
    ensures PercentFor(product, actions) == 0.0
  {
    if actions != [] {
      UntargetedPercent(product, actions[..|actions| - 1]);
    }
  }

  lemma OrderEffectBounds(actions: seq<Action>, o: Order)
    requires PercentsInRange(actions) && o.revenueCents >= 0
    ensures -0.9 * OrderRevenue(o) <= OrderEffect(actions)(o) <= 2.0 * OrderRevenue(o)
  {
    var revenue, percent := o.revenueCents as real, PercentFor(o.product, actions);
    if a :| a in actions && a.kind.PriceAdjustment? && a.target == o.product {
      assert -90.0 <= PercentFor(a.target, actions) <= 200.0;
    } else {
      UntargetedPercent(o.product, actions);
    }
    PercentBounds(revenue, percent);
    assert OrderEffect(actions)(o) == revenue * percent / 100.0;
  }

  lemma PercentBounds(revenue: real, percent: real)
    requires revenue >= 0.0 && -90.0 <= percent <= 200.0
    ensures -0.9 * revenue <= revenue * percent / 100.0 <= 2.0 * revenue
  {
    NonNegativeProduct(revenue, percent + 90.0);
    NonNegativeProduct(revenue, 200.0 - percent);
  }

  lemma NonNegativeProduct(x: real, y: real)
    requires x >= 0.0 && y >= 0.0
    ensures x * y >= 0.0
  {
  }

  lemma {:induction false} PriceEffectBounds(actions: seq<Action>, orders: seq<Order>)
    requires PercentsInRange(actions) && forall o :: o in orders ==> o.revenueCents >= 0
    ensures -0.9 * Total(OrderRevenue, orders) <= Total(OrderEffect(actions), orders)
    ensures Total(OrderEffect(actions), orders) <= 2.0 * Total(OrderRevenue, orders)
  {
    if orders != [] {
      assert orders[|orders| - 1] in orders;
      PriceEffectBounds(actions, orders[..|orders| - 1]);
      OrderEffectBounds(actions, orders[|orders| - 1]);
    }
  }

  /** Projected revenue within a tenth and three times the baseline, twice the marketing spend added. */
  predicate RevenueBounded(r: SimulationResult) {
    && r.baseline.revenue / 10.0 + 2.0 * r.projected.spend <= r.projected.revenue
    && r.projected.revenue <= 3.0 * r.baseline.revenue + 2.0 * r.projected.spend
  }

  lemma RangeGivesBound(snapshot: Snapshot, goal: Goal, candidate: Scenario)
    requires PercentsInRange(candidate.actions) && SimulationOf(snapshot, goal, candidate).Success?
    ensures RevenueBounded(SimulationOf(snapshot, goal, candidate).value.result)
  {
    PriceEffectByOrder(candidate.actions, snapshot.orders);
    PriceEffectBounds(candidate.actions, snapshot.orders);
  }

  /** One order for an overcharged product is enough to leave the bound. */
  lemma OneOrderLeavesBound(snapshot: Snapshot, goal: Goal, candidate: Scenario, a: Action)
    requires SimulationOf(snapshot, goal, candidate).Success?
    requires a in candidate.actions && a.kind.PriceAdjustment?
    requires !(-90.0 <= PercentFor(a.target, candidate.actions) <= 200.0)
    ensures var order := Order(snapshot.business, snapshot.business, a.target, 1, 1, 0, 1);
            var simulated := SimulationOf(snapshot.(orders := [order]), goal, candidate);
            order.Valid() && simulated.Success? && !RevenueBounded(simulated.value.result)
  {
    var order := Order(snapshot.business, snapshot.business, a.target, 1, 1, 0, 1);
    assert a.Valid();
    PriceEffectByOrder(candidate.actions, [order]);
    assert Total(OrderEffect(candidate.actions), [order])
        == Total(OrderEffect(candidate.actions), []) + OrderEffect(candidate.actions)(order);
    assert Total(OrderRevenue, [order]) == Total(OrderRevenue, []) + OrderRevenue(order);
    assert snapshot.(orders := [order]).Valid();
  }

  ghost predicate BoundedWith(snapshot: Snapshot, goal: Goal, candidate: Scenario, orders: seq<Order>) {
    var simulated := SimulationOf(snapshot.(orders := orders), goal, candidate);
    simulated.Success? ==> RevenueBounded(simulated.value.result)
  }

  /** The revenue bound holds whatever the orders are exactly when the price changes of each
      product, added up, stay in the range of a single one. */
  lemma RevenueBoundIff(snapshot: Snapshot, goal: Goal, candidate: Scenario)
    requires SimulationOf(snapshot, goal, candidate).Success?
    ensures PercentsInRange(candidate.actions) <==> forall orders :: BoundedWith(snapshot, goal, candidate, orders)
  {
    if PercentsInRange(candidate.actions) {
      forall orders ensures BoundedWith(snapshot, goal, candidate, orders) {
        if SimulationOf(snapshot.(orders := orders), goal, candidate).Success? {
          RangeGivesBound(snapshot.(orders := orders), goal, candidate);
        }
      }
    } else {
      var a :| a in candidate.actions && a.kind.PriceAdjustment?
               && !(-90.0 <= PercentFor(a.target, candidate.actions) <= 200.0);
      OneOrderLeavesBound(snapshot, goal, candidate, a);
      assert !BoundedWith(snapshot, goal, candidate,
                          [Order(snapshot.business, snapshot.business, a.target, 1, 1, 0, 1)]);
    }
  }

  ghost predicate OnePriceActionPerProduct(actions: seq<Action>) {
    forall i, j :: 0 <= i < j < |actions| && actions[i].kind.PriceAdjustment? && actions[j].kind.PriceAdjustment?
      ==> actions[i].target != actions[j].target
  }

  lemma {:induction false} SinglePercent(product: Id, actions: seq<Action>)
    requires OnePriceActionPerProduct(actions) && forall a :: a in actions ==> a.Valid()
    ensures -90.0 <= PercentFor(product, actions) <= 200.0
  {
    if actions != [] {
      var front, last := actions[..|actions| - 1], actions[|actions| - 1];
      assert last in actions;
      if last.kind.PriceAdjustment? && last.target == product {
        UntargetedPercent(product, front);
      } else {
        SinglePercent(product, front);
      }
    }
  }

  /** So one price action per product at most is enough. */
  lemma RevenueBound(snapshot: Snapshot, goal: Goal, candidate: Scenario)
    requires OnePriceActionPerProduct(candidate.actions)
    requires SimulationOf(snapshot, goal, candidate).Success?
    ensures RevenueBounded(SimulationOf(snapshot, goal, candidate).value.result)
  {
    forall a | a in candidate.actions ensures -90.0 <= PercentFor(a.target, candidate.actions) <= 200.0 {
      SinglePercent(a.target, candidate.actions);
    }
    RangeGivesBound(snapshot, goal, candidate);
  }

  const RAISE := Action(PriceAdjustment, "p", 200.0, Percent)

  lemma TwoRaises(order: Order)
    requires order.product == "p" && order.revenueCents == 100
    ensures PriceEffect([RAISE, RAISE], [order]) == 400.0 && Spend([RAISE, RAISE]) == 0.0
    ensures Total(OrderRevenue, [order]) == 100.0
  {
    var two := [RAISE, RAISE];
    assert RevenueOf("p", [order]) == Total(RevenueOn("p"), []) + RevenueOn("p")(order) == 100.0;
    TotalNext(PriceTerm([order]), two, 0);
    TotalNext(PriceTerm([order]), two, 1);
    TotalNext(SpendTerm, two, 0);
    TotalNext(SpendTerm, two, 1);
    assert two[..2] == two && two[..0] == [];
    assert Total(OrderRevenue, [order]) == Total(OrderRevenue, []) + OrderRevenue(order);
  }

  /** Price actions on one product add up, so two of them can leave the bound. */
  lemma TwoPriceActionsExceedTheBound() returns (snapshot: Snapshot, goal: Goal, candidate: Scenario)
    ensures candidate.actions == [RAISE, RAISE] && RAISE.kind == PriceAdjustment
    ensures SimulationOf(snapshot, goal, candidate).Success?
    ensures !RevenueBounded(SimulationOf(snapshot, goal, candidate).value.result)
  {
    var id := "p";
    assert TrimLeft(id) == id && TrimRight(id) == id && ValidId(id);
    var order := Order(id, id, id, 1, 100, 0, 1);
    var product := Product(id, id, id, 100, 0, 1, true, 1);
    snapshot := Snapshot(id, 1, [product], [order]);
    goal := Goal(id, id, id, 1, [], GoalActive, 1);
    candidate := Scenario(id, id, id, 1, id, id, [RAISE, RAISE], EMPTY_RESULT, [], Scenarios.Draft, 1);
    assert ProductWith([product], id) == Some(product);
    assert snapshot.Valid() && goal.Valid() && candidate.Valid();
    TwoRaises(order);
  }

  // ---- Hard budgets ----

  predicate HasHighRisk(risks: seq<Risk>) {
    exists i :: 0 <= i < |risks| && EqualFold(risks[i].severity, "high")
  }

  /** A hard constraint whose key is the word budget, in any case, with spaces around it or without. */
  predicate LimitsBudget(c: Constraint) {
    c.hard && EqualFold(TrimSpace(c.key), "budget")
  }

  /** Every hard budget of the goal is a number the spend does not exceed. */
  predicate WithinBudgets(constraints: seq<Constraint>, spend: real) {
    forall c :: c in constraints && LimitsBudget(c)
      ==> c.limit.Some? && 0.0 <= spend && spend <= c.limit.value && 0.0 <= c.limit.value
  }

  lemma {:induction false} SpendNonNegative(actions: seq<Action>)
    requires forall a :: a in actions ==> a.Valid()
    ensures Spend(actions) >= 0.0
  {
    if actions != [] {
      assert actions[|actions| - 1] in actions;
      SpendNonNegative(actions[..|actions| - 1]);
    }
  }

  lemma {:induction false} BudgetRisksExact(constraints: seq<Constraint>, spend: real)
    requires spend >= 0.0
    ensures HasHighRisk(Collect(BudgetRisk(spend), constraints)) <==> !WithinBudgets(constraints, spend)
  {
    if constraints != [] {
      var front, last := constraints[..|constraints| - 1], constraints[|constraints| - 1];
      BudgetRisksExact(front, spend);
      var before, added := Collect(BudgetRisk(spend), front), BudgetRisk(spend)(last);
      var all := before + added;
      assert constraints == front + [last];
      assert HasHighRisk(all) <==> HasHighRisk(before) || HasHighRisk(added) by {
        if HasHighRisk(before) {
          var i :| 0 <= i < |before| && EqualFold(before[i].severity, "high");
          assert all[i] == before[i];
        }
        if HasHighRisk(added) {
          assert all[|before|] == added[0];
        }
      }
      assert EqualFold("high", "high");
      if added != [] { assert EqualFold(added[0].severity, "high"); }
      assert HasHighRisk(added)
        <==> last.HardBudget() && !(last.limit.Some? && 0.0 <= last.limit.value && spend <= last.limit.value);
    }
  }

  /** A simulated scenario carries a high risk exactly when some hard budget is
      not a number or is overspent. */
  lemma HighRiskExactlyOverBudget(snapshot: Snapshot, goal: Goal, candidate: Scenario)
    requires SimulationOf(snapshot, goal, candidate).Success?
    ensures HasHighRisk(SimulationOf(snapshot, goal, candidate).value.risks)
       <==> !WithinBudgets(goal.constraints, Spend(candidate.actions))
  {
    SpendNonNegative(candidate.actions);
    BudgetRisksExact(goal.constraints, Spend(candidate.actions));
  }

  lemma {:induction false} Collected<T, U>(f: T -> seq<U>, s: seq<T>, y: U)
    ensures y in Collect(f, s) <==> exists x :: x in s && y in f(x)
  {
    if s != [] {
      var front, last := s[..|s| - 1], s[|s| - 1];
      Collected(f, front, y);
      assert s == front + [last];
      if y in Collect(f, s) && y !in f(last) {
        var x :| x in front && y in f(x);
        assert x in s;
      }
    }
  }

  /** The risks of a simulated scenario are those of its hard budgets: an unknown one for a limit that is no
      number or a negative one, an exceeded one for a limit below the spend, and no other. */
  lemma RisksAreOfBudgets(snapshot: Snapshot, goal: Goal, candidate: Scenario, risk: Risk)
    requires SimulationOf(snapshot, goal, candidate).Success?
    ensures risk in SimulationOf(snapshot, goal, candidate).value.risks
       <==> exists c :: c in goal.constraints && LimitsBudget(c) &&
              if c.limit.None? || c.limit.value < 0.0 then risk == Risk(BudgetConstraintUnknown, "high")
              else c.limit.value < Spend(candidate.actions) && risk == Risk(BudgetExceeded, "high")
  {
    Collected(BudgetRisk(Spend(candidate.actions)), goal.constraints, risk);
  }

  /** And its warnings are of those budgets, or of price changes for products without observed revenue. */
  lemma WarningsAreExplained(snapshot: Snapshot, goal: Goal, candidate: Scenario, warning: Warning)
    requires SimulationOf(snapshot, goal, candidate).Success?
    ensures warning in SimulationOf(snapshot, goal, candidate).value.result.warnings
       <==> || (exists a :: a in candidate.actions && a.kind == PriceAdjustment
                            && RevenueOf(a.target, snapshot.orders) == 0.0 && warning == NoObservedRevenue(a.target))
            || (exists c :: c in goal.constraints && LimitsBudget(c) &&
                  if c.limit.None? || c.limit.value < 0.0 then warning == BudgetNotNumeric
                  else c.limit.value < Spend(candidate.actions) && warning == BudgetOverspent)
  {
    Collected(NoRevenueWarning(snapshot.orders), candidate.actions, warning);
    Collected(BudgetWarning(Spend(candidate.actions)), goal.constraints, warning);
  }
}
