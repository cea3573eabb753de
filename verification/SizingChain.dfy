/** The sizing chain end to end: a risk budget (M4), a position planned from it (M5) and the gate that
    authorizes the order (M6). The gate compares the order's full notional with the amount at risk. */
module SizingChain {
  import opened Wrappers
  import opened Arithmetic
  import opened RiskRules
  import opened RiskProperties
  import opened EquityPlanning
  import opened ExecutionGate

  /** An entry from evaluation to built order: `price` is the reference the position was planned at. */
  datatype Entry = Entry(
    settings: Settings, context: RiskContext, fractional: bool, price: real, direction: Direction,
    quote: Quote, asset: Asset, builtAt: int, now: int)

  function Equity(e: Entry): Option<EquityPlan> {
    CalculatePlan(e.fractional, e.price, Evaluation(e.context).budget, e.direction)
  }

  function Instrument(e: Entry): InstrumentPlan {
    InstrumentPlan(STOCK, Equity(e), None, false)
  }

  function BuiltOrder(e: Entry): Build {
    BuildExecutionPlan(e.settings, true, Instrument(e), Evaluation(e.context), e.quote, e.asset, e.builtAt)
  }

  /** The risk was accepted, the position planned, the order built and not yet expired. */
  ghost predicate Submittable(e: Entry) {
    && Evaluation(e.context).decision != REJECTED && Equity(e).Some?
    && ConfigOk(e.settings) && BuiltOrder(e).Built? && e.now < e.builtAt + e.settings.ttlSeconds
  }

  /** The position was planned at no less than half the price the risk was measured at, and the order built
      under a deviation limit of at most 20% (0.5% as configured). */
  ghost predicate NearPrices(e: Entry) {
    2.0 * e.price >= e.context.price && e.settings.maxDeviation <= 0.2
  }

  predicate GateAuthorizes(e: Entry)
    requires BuiltOrder(e).Built?
  {
    Authorized(e.settings, BuiltOrder(e).plan, Instrument(e), Evaluation(e.context),
               Some(e.context.state.killSwitch), e.now)
  }

  /** What the position is worth, what is allowed for it, and what may be lost. */
  ghost predicate Amounts(e: Entry, quantity: real, budget: RiskBudget) {
    && e.price > 0.0 && quantity > 0.0 && budget.adjusted > 0.0 && 10.0 * budget.adjusted <= budget.maxNotional
    && var allowed := Allowed(budget, e.price);
       && 0.0 < 0.5 * allowed <= Worth(quantity, e.price) <= allowed <= budget.maxNotional
       && (e.fractional ==> quantity == allowed / e.price)
  }

  lemma AcceptedBudget(ctx: RiskContext)
    requires Evaluation(ctx).decision != REJECTED
    ensures GatesOpen(ctx) && Evaluation(ctx).budget.Some?
    ensures var b := Evaluation(ctx).budget.value;
            && b.adjusted > 0.0 && b.maxNotional >= 10.0 * b.adjusted
            && (b.stop.Some? ==> b.stop.value <= 0.10 * ctx.price)
  {
    hide Evaluation, GatesOpen, BudgetOf, StopDistance;
    EvaluationBounds(ctx);
    StopBelowTenth(ctx.price, ctx.atr);
  }

  lemma StopBelowTenth(price: real, atr: Option<real>)
    ensures var stop := StopDistance(price, atr); stop.Some? && price > 0.0 ==> stop.value <= 0.10 * price
  {
  }

  lemma EntryAmounts(e: Entry)
    requires Submittable(e)
    ensures Evaluation(e.context).budget.Some?
    ensures Amounts(e, Equity(e).value.quantity, Evaluation(e.context).budget.value)
  {
    hide Evaluation, GatesOpen, BuiltOrder, CalculatePlan, Allowed, StopShare, Worth;
    AcceptedBudget(e.context);
    var budget := Evaluation(e.context).budget.value;
    PlanExists(e.fractional, e.price, budget, e.direction);
    PlanWorth(e.fractional, e.price, budget, e.direction);
  }

  /** Near the measured price the position is worth at least two and a half times what may be lost. */
  lemma NearAmounts(e: Entry)
    requires Submittable(e) && NearPrices(e)
    ensures Evaluation(e.context).budget.Some?
    ensures Worth(Equity(e).value.quantity, e.price) >= 2.5 * Evaluation(e.context).budget.value.adjusted
  {
    hide Evaluation, GatesOpen, BuiltOrder, CalculatePlan, Allowed, StopShare, Worth;
    AcceptedBudget(e.context);
    var budget := Evaluation(e.context).budget.value;
    PlanExists(e.fractional, e.price, budget, e.direction);
    PlanIsLarge(e.fractional, e.price, budget, e.direction, e.context.price);
  }

  /** The built order buys for a bullish thesis and sells for a bearish one, asks for the planned quantity at the
      rounded mid, and lies within the deviation limit. */
  lemma EntryOrder(e: Entry)
    requires Submittable(e)
    ensures var plan := BuiltOrder(e).plan; var equity := Equity(e).value; var mid := Mid(e.quote);
            && Evaluation(e.context).budget.Some?
            && (plan.side == Keys.BUY <==> e.direction == Bullish)
            && (plan.side == Keys.SELL <==> e.direction == Bearish)
            && mid > 0.0 && Abs(mid - e.price) / e.price <= e.settings.maxDeviation && e.price > 0.0
            && plan.quantity == equity.quantity && plan.expectedNotional == Worth(equity.quantity, RoundToTick(mid))
            && plan.riskBudget == Evaluation(e.context).budget.value.adjusted
            && plan.maxNotional == Evaluation(e.context).budget.value.maxNotional
            && plan.expiresAt == e.builtAt + e.settings.ttlSeconds
  {
    hide Evaluation, GatesOpen, CalculatePlan, RoundToTick;
    AcceptedBudget(e.context);
    var budget := Evaluation(e.context).budget.value;
    PlanFollowsPrice(e.fractional, e.price, budget, e.direction);
  }

  lemma PlanFollowsPrice(fractional: bool, price: real, budget: RiskBudget, direction: Direction)
    ensures var plan := CalculatePlan(fractional, price, Some(budget), direction);
            plan.Some? ==>
              && price > 0.0 && plan.value.referencePrice == price && !direction.Undirected?
              && (plan.value.side == Long <==> direction == Bullish)
  {
    hide StopShare, Quantity, Notional, Allowed, NeedsRepair;
  }

  /** The gate authorizes an accepted, planned and built entry, at any prices, exactly when the order's whole
      cost is within the amount that may be lost. */
  lemma EntryAuthorizedExactly(e: Entry)
    requires Submittable(e)
    ensures Evaluation(e.context).budget.Some?
    ensures GateAuthorizes(e) <==>
              Worth(Equity(e).value.quantity, RoundToTick(Mid(e.quote))) <= Evaluation(e.context).budget.value.adjusted
  {
    hide Evaluation, BuiltOrder, Equity, RoundToTick, Mid, GatesOpen, Failures, ConfigOk, Worth, Allowed;
    AcceptedBudget(e.context);
    EntryAmounts(e);
    EntryOrder(e);
    GatesOpenMeansSwitchOff(e.context);
    AuthorizedMeans(e.settings, BuiltOrder(e).plan, Instrument(e), Evaluation(e.context),
                    Some(e.context.state.killSwitch), e.now);
  }

  // ---- In terms of prices ----------------------------------------------------------

  /** The loss per unit at the stop the position was planned with. */
  function StopAmount(e: Entry): real
    requires e.price > 0.0 && Evaluation(e.context).budget.Some?
  {
    StopShare(Evaluation(e.context).budget.value, e.price) * e.price
  }

  lemma SameFactor(x: real, y: real, k: real)
    requires k > 0.0
    ensures k * x <= k * y <==> x <= y
  {
    if x <= y { TimesMonotone(x, y, k); } else { assert k * (x - y) > 0.0; }
  }

  /** Buying for the budget over its stop share costs at most the budget exactly up to the stop amount. */
  lemma StopCost(risk: real, pct: real, price: real, limit: real)
    requires risk > 0.0 && pct > 0.0
    ensures risk / pct * limit <= risk * price <==> limit <= pct * price
  {
    assert risk / pct * limit == risk * limit / pct;
    QuotientCompare(risk * limit, pct, risk * price);
    assert risk * price * pct == risk * (pct * price);
    SameFactor(limit, pct * price, risk);
  }

  lemma SmallerCost(small: real, large: real, limit: real)
    requires small <= large && limit >= 0.0
    ensures small * limit <= large * limit
  {
    TimesMonotone(small, large, limit);
  }

  lemma AllowedCost(budget: RiskBudget, price: real, limit: real)
    requires budget.adjusted > 0.0 && price > 0.0 && limit >= 0.0
    ensures Allowed(budget, price) * limit <= budget.adjusted * price <==>
              || limit <= StopShare(budget, price) * price
              || budget.maxNotional * limit <= budget.adjusted * price
  {
    var pct := StopShare(budget, price);
    hide StopShare;
    StopCost(budget.adjusted, pct, price, limit);
    SmallerCost(Allowed(budget, price), budget.adjusted / pct, limit);
    SmallerCost(Allowed(budget, price), budget.maxNotional, limit);
  }

  lemma LimitNonNegative(price: real)
    requires price > 0.0
    ensures RoundToTick(price) >= 0.0
  {
    hide RoundToTick;
    TickError(price);
    if price >= 0.00005 { TickKeeps(price); }
  }

  lemma WorthOfQuotient(notional: real, price: real, limit: real, risk: real)
    requires price > 0.0
    ensures Worth(notional / price, limit) <= risk <==> notional * limit <= risk * price
  {
    assert notional / price * limit == notional * limit / price;
    QuotientCompare(notional * limit, price, risk);
  }

  /** When fractions can be bought: authorized exactly when the limit price is at most the stop amount, or at
      most the share of the price that the risk is of the ceiling (never more than a tenth). */
  lemma FractionalAuthorizedIff(e: Entry)
    requires Submittable(e) && e.fractional
    ensures e.price > 0.0 && Evaluation(e.context).budget.Some?
    ensures var b := Evaluation(e.context).budget.value; var limit := RoundToTick(Mid(e.quote));
            GateAuthorizes(e) <==> limit <= StopAmount(e) || b.maxNotional * limit <= b.adjusted * e.price
  {
    hide Evaluation, BuiltOrder, Equity, RoundToTick, Mid, GatesOpen, ConfigOk, Worth, Allowed, StopShare;
    hide GateAuthorizes;
    EntryAmounts(e);
    EntryOrder(e);
    EntryAuthorizedExactly(e);
    var b, limit := Evaluation(e.context).budget.value, RoundToTick(Mid(e.quote));
    LimitNonNegative(Mid(e.quote));
    WorthOfQuotient(Allowed(b, e.price), e.price, limit, b.adjusted);
    AllowedCost(b, e.price, limit);
  }

  lemma CostExceedsRisk(quantity: real, price: real, mid: real, limit: real, risk: real, deviation: real)
    requires quantity > 0.0 && price > 0.0 && risk > 0.0 && Worth(quantity, price) >= 2.5 * risk
    requires Abs(mid - price) / price <= deviation <= 0.2
    requires 3.0 * limit >= 2.0 * mid
    ensures Worth(quantity, limit) > risk
  {
    QuotientTimes(Abs(mid - price), price);
    TimesMonotone(Abs(mid - price) / price, 0.2, price);
    assert mid >= 0.8 * price;
    assert 3.0 * limit >= 1.6 * price;
    TimesMonotone(1.6 * price, 3.0 * limit, quantity);
    assert 1.6 * price * quantity == 1.6 * (quantity * price);
    assert 3.0 * limit * quantity == 3.0 * (limit * quantity);
  }

  /** Near the measured price the gate authorizes an entry, fractional or not, exactly when its quote is so
      small that the limit rounds to zero: any order with a positive limit costs more than it may lose. */
  lemma EntryAuthorizedIff(e: Entry)
    requires Submittable(e) && NearPrices(e)
    ensures GateAuthorizes(e) <==> Mid(e.quote) < 0.00005
  {
    hide Evaluation, BuiltOrder, Equity, RoundToTick, Mid, GatesOpen, ConfigOk, GateAuthorizes;
    EntryAmounts(e);
    NearAmounts(e);
    EntryOrder(e);
    EntryAuthorizedExactly(e);
    var mid := Mid(e.quote);
    TickError(mid);
    if mid >= 0.00005 {
      TickKeeps(mid);
      CostExceedsRisk(Equity(e).value.quantity, e.price, mid, RoundToTick(mid),
                      Evaluation(e.context).budget.value.adjusted, e.settings.maxDeviation);
    }
  }

  lemma GatesOpenMeansSwitchOff(ctx: RiskContext)
    ensures GatesOpen(ctx) ==> !ctx.state.killSwitch
  {
  }

  /** The README's own example: eight shares at $531.25 against an adjusted budget of $850 are denied. */
  lemma DocumentedEntryDenied(s: Settings, instrument: InstrumentPlan, evaluation: RiskEvaluation,
                              plan: ExecutionPlan, now: int)
    requires ConfigOk(s) && instrument.kind.STOCK? && !instrument.riskRejected && instrument.equity.Some?
    requires evaluation.decision == APPROVED && evaluation.budget.Some? && now < plan.expiresAt
    requires plan.quantity == 8.0 == instrument.equity.value.quantity && plan.limit == 531.25
    requires plan.expectedNotional == Worth(plan.quantity, plan.limit)
    requires plan.riskBudget == 850.0 && plan.maxNotional == 5000.0
    ensures Failures(s, plan, instrument, evaluation, Some(false), now) == [RISK_BUDGET_EXCEEDED]
  {
    assert plan.expectedNotional == 4250.0;
    assert ConfigFailures(s) == [] && UpstreamFailures(instrument) == [];
    assert AuthorityFailures(evaluation, Some(false)) == [];
    assert PlanFailures(plan, instrument, now) == [RISK_BUDGET_EXCEEDED];
  }
}
