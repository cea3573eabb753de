/** Sizing of an equity position within the risk budget (M5). */
module EquityPlanning {
  import opened Arithmetic
  import opened Wrappers
  import opened RiskRules

  /** `Undirected` stands for any direction that is neither bullish nor bearish. */
  datatype Direction = Bullish | Bearish | Undirected

  datatype EquityPlan = EquityPlan(
    side: PositionSide, referencePrice: real, maxNotional: real, plannedNotional: real, quantity: real, loss: real)

  /** The stop the risk was measured with, as a share of the price planned at. */
  function StopShare(budget: RiskBudget, price: real): (pct: real)
    requires price > 0.0
    ensures pct > 0.0
  {
    StopPct(price, budget.stop)
  }

  /** What a notional buys: all of it, or whole units of at least one. */
  function Quantity(fractional: bool, notional: real, price: real): Option<real>
    requires price > 0.0
  {
    if fractional then Some(notional / price)
    else if Truncate(notional / price) < 1 then None
    else Some(Truncate(notional / price) as real)
  }

  function Allowed(budget: RiskBudget, price: real): real
    requires price > 0.0
  {
    Min(budget.adjusted / StopShare(budget, price), budget.maxNotional)
  }

  /** What a quantity is worth at a price. */
  function Worth(quantity: real, price: real): real { quantity * price }

  function Notional(fractional: bool, notional: real, quantity: real, price: real): real {
    if fractional then notional else Worth(quantity, price)
  }

  /** The planner's own check of its result, with a cent of tolerance. */
  predicate NeedsRepair(budget: RiskBudget, loss: real) {
    loss > budget.adjusted + 0.01
  }

  function CalculatePlan(fractional: bool, price: real, evaluated: Option<RiskBudget>, direction: Direction)
    : Option<EquityPlan>
  {
    if evaluated.None? || price <= 0.0 || direction.Undirected? then None else
    var budget := evaluated.value;
    var side := if direction.Bullish? then Long else Short;
    var pct := StopShare(budget, price);
    var quantity := Quantity(fractional, Allowed(budget, price), price);
    if quantity.None? then None else
    var planned := Notional(fractional, Allowed(budget, price), quantity.value, price);
    if !NeedsRepair(budget, planned * pct) then
      Some(EquityPlan(side, price, budget.maxNotional, planned, quantity.value, planned * pct))
    else
      var cut := budget.adjusted / pct;
      var units := Quantity(fractional, cut, price);
      if units.None? then None else
      var reduced := Notional(fractional, cut, units.value, price);
      Some(EquityPlan(side, price, budget.maxNotional, reduced, units.value, reduced * pct))
  }

  /** A quantity is worth no more than the notional it was bought for. */
  lemma QuantityFits(fractional: bool, notional: real, price: real)
    requires price > 0.0
    ensures var q := Quantity(fractional, notional, price);
            q.Some? ==>
              && Notional(fractional, notional, q.value, price) == Worth(q.value, price) <= notional
              && (fractional ==> Worth(q.value, price) == notional) && (!fractional ==> q.value >= 1.0)
  {
    QuotientTimes(notional, price);
    var x := notional / price;
    if Truncate(x) >= 1 {
      assert Truncate(x) as real <= x;
      TimesMonotone(Truncate(x) as real, x, price);
    }
  }

  lemma LossFits(budget: RiskBudget, price: real, planned: real)
    requires price > 0.0 && planned <= Allowed(budget, price)
    ensures planned * StopShare(budget, price) <= budget.adjusted
  {
    var pct := StopShare(budget, price);
    hide StopShare;
    QuotientTimes(budget.adjusted, pct);
    TimesMonotone(planned, budget.adjusted / pct, pct);
  }

  lemma AllowedFits(fractional: bool, price: real, budget: RiskBudget)
    requires price > 0.0
    ensures Allowed(budget, price) <= budget.maxNotional
    ensures var q := Quantity(fractional, Allowed(budget, price), price);
            q.Some? ==>
              var planned := Notional(fractional, Allowed(budget, price), q.value, price);
              && planned == Worth(q.value, price) <= Allowed(budget, price)
              && (fractional ==> planned == Allowed(budget, price))
              && planned * StopShare(budget, price) <= budget.adjusted
              && (!fractional ==> q.value >= 1.0 && q.value == q.value.Floor as real)
  {
    var allowed := Allowed(budget, price);
    QuantityFits(fractional, allowed, price);
    var q := Quantity(fractional, allowed, price);
    if q.Some? {
      LossFits(budget, price, Notional(fractional, allowed, q.value, price));
    }
  }

  /** In both modes and for every budget: the position is worth what its quantity costs, never more than
      the ceiling, and loses at the stop never more than the budget. In exact arithmetic the branch that
      repairs an excessive loss is therefore never entered. */
  lemma PlanWithinCeilings(fractional: bool, price: real, budget: RiskBudget, direction: Direction)
    ensures var plan := CalculatePlan(fractional, price, Some(budget), direction);
            plan.Some? ==>
              && plan.value.plannedNotional == Worth(plan.value.quantity, price)
              && plan.value.plannedNotional <= Allowed(budget, price) <= budget.maxNotional == plan.value.maxNotional
              && plan.value.loss == plan.value.plannedNotional * StopShare(budget, price)
              && plan.value.loss <= budget.adjusted
              && (!fractional ==>
                    plan.value.quantity >= 1.0 && plan.value.quantity == plan.value.quantity.Floor as real)
    ensures price > 0.0 ==>
              var q := Quantity(fractional, Allowed(budget, price), price);
              q.Some? ==>
                var planned := Notional(fractional, Allowed(budget, price), q.value, price);
                !NeedsRepair(budget, planned * StopShare(budget, price))
  {
    hide Allowed, StopShare, Quantity, Notional, Worth;
    if price > 0.0 {
      AllowedFits(fractional, price, budget);
    }
  }

  /** A plan exists exactly when there is a budget, a price and a direction, and, for whole shares, when one
      is affordable. It is long exactly for a bullish thesis and short exactly for a bearish one. */
  lemma PlanExists(fractional: bool, price: real, budget: RiskBudget, direction: Direction)
    ensures CalculatePlan(fractional, price, Some(budget), direction).Some? <==>
              price > 0.0 && !direction.Undirected? && (fractional || Allowed(budget, price) >= price)
    ensures var plan := CalculatePlan(fractional, price, Some(budget), direction);
            plan.Some? ==> (plan.value.side == Long <==> direction == Bullish)
                           && (plan.value.side == Short <==> direction == Bearish)
  {
    if price > 0.0 {
      PlanWithinCeilings(fractional, price, budget, direction);
      OneAffordable(Allowed(budget, price), price);
    }
  }

  lemma OneAffordable(notional: real, price: real)
    requires price > 0.0
    ensures Truncate(notional / price) >= 1 <==> notional >= price
  {
    QuotientTimes(notional, price);
    if notional / price >= 1.0 {
      TimesMonotone(1.0, notional / price, price);
    } else {
      assert notional / price * price < 1.0 * price;
    }
  }

  // ---- How large a plan is at least ---------------------------------------------

  /** A stop of at most 10% of the price the risk was measured at is at most 20% of a price half as high. */
  lemma StopShareSmall(budget: RiskBudget, measured: real, price: real)
    requires price > 0.0 && 2.0 * price >= measured
    requires budget.stop.Some? ==> budget.stop.value <= 0.10 * measured
    ensures StopShare(budget, price) <= 0.2
  {
    if budget.stop.Some? && budget.stop.value > 0.0 {
      QuotientMonotone(budget.stop.value, 0.2 * price, price);
      assert 0.2 * price / price == 0.2;
    }
  }

  /** A plan is worth at least two and a half times the risk budget. */
  lemma PlanIsLarge(fractional: bool, price: real, budget: RiskBudget, direction: Direction, measured: real)
    requires budget.adjusted > 0.0 && budget.maxNotional >= 10.0 * budget.adjusted
    requires price > 0.0 && 2.0 * price >= measured
    requires budget.stop.Some? ==> budget.stop.value <= 0.10 * measured
    requires CalculatePlan(fractional, price, Some(budget), direction).Some?
    ensures var q := CalculatePlan(fractional, price, Some(budget), direction).value.quantity;
            q > 0.0 && Worth(q, price) >= 2.5 * budget.adjusted
  {
    AllowedIsLarge(price, budget, measured);
    PlanWorth(fractional, price, budget, direction);
    hide Allowed, StopShare, CalculatePlan, Worth;
  }

  /** A plan uses at least half of what is allowed, and all of it when fractions can be bought. */
  lemma PlanWorth(fractional: bool, price: real, budget: RiskBudget, direction: Direction)
    requires budget.adjusted > 0.0 && budget.maxNotional > 0.0 && price > 0.0
    requires CalculatePlan(fractional, price, Some(budget), direction).Some?
    ensures var q := CalculatePlan(fractional, price, Some(budget), direction).value.quantity;
            var allowed := Allowed(budget, price);
            && q > 0.0 && 0.0 < 0.5 * allowed <= Worth(q, price) <= allowed <= budget.maxNotional
            && (fractional ==> q == allowed / price && Worth(q, price) == allowed)
  {
    AllowedPositive(price, budget);
    PlanBuysAllowed(fractional, price, budget, direction);
    AllowedFits(fractional, price, budget);
    FractionalQuantity(Allowed(budget, price), price);
    hide Allowed, StopShare, Quantity, Notional, CalculatePlan, Worth;
    QuantityIsLarge(fractional, Allowed(budget, price), price);
  }

  lemma FractionalQuantity(notional: real, price: real)
    requires price > 0.0
    ensures Quantity(true, notional, price) == Some(notional / price)
  {
  }

  lemma AllowedPositive(price: real, budget: RiskBudget)
    requires budget.adjusted > 0.0 && budget.maxNotional > 0.0 && price > 0.0
    ensures Allowed(budget, price) > 0.0
  {
    var pct := StopShare(budget, price);
    hide StopShare;
    assert budget.adjusted / pct > 0.0;
  }

  lemma PlanBuysAllowed(fractional: bool, price: real, budget: RiskBudget, direction: Direction)
    requires price > 0.0
    ensures var plan := CalculatePlan(fractional, price, Some(budget), direction);
            plan.Some? ==> Quantity(fractional, Allowed(budget, price), price) == Some(plan.value.quantity)
  {
    hide Allowed, StopShare, Quantity, Notional;
    AllowedFits(fractional, price, budget);
  }

  lemma QuantityIsLarge(fractional: bool, notional: real, price: real)
    requires price > 0.0 && notional > 0.0
    ensures var q := Quantity(fractional, notional, price);
            q.Some? ==> q.value > 0.0 && Worth(q.value, price) >= 0.5 * notional
  {
    AtLeastHalf(notional, price);
    QuotientTimes(notional, price);
  }

  lemma AllowedIsLarge(price: real, budget: RiskBudget, measured: real)
    requires budget.adjusted > 0.0 && budget.maxNotional >= 10.0 * budget.adjusted
    requires price > 0.0 && 2.0 * price >= measured
    requires budget.stop.Some? ==> budget.stop.value <= 0.10 * measured
    ensures Allowed(budget, price) >= 5.0 * budget.adjusted
  {
    StopShareSmall(budget, measured, price);
    var pct := StopShare(budget, price);
    hide StopShare;
    QuotientAtLeast(budget.adjusted, pct, 5.0);
  }

  /** Rounding a quantity of at least one down to whole units keeps more than half of it. */
  lemma AtLeastHalf(notional: real, price: real)
    requires price > 0.0 && notional > 0.0
    ensures notional / price > 0.0
    ensures Truncate(notional / price) >= 1 ==> Truncate(notional / price) as real * price >= 0.5 * notional
  {
    QuotientTimes(notional, price);
    var x := notional / price;
    assert x > 0.0;
    if Truncate(x) >= 1 {
      assert Truncate(x) as real >= 0.5 * x;
      TimesMonotone(0.5 * x, Truncate(x) as real, price);
    }
  }
}
