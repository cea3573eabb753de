/** The sizing chain of an option: contracts sized by the option's ask (M5), and the gate on an order whose limit is
    taken from a stock quote of the underlying (M6). */
module OptionEntry {
  import opened Wrappers
  import opened Arithmetic
  import R = RiskRules
  import S = SizingChain
  import O = OptionSelection
  import opened ExecutionGate

  /** `quote` is the underlying's: the execution planner asks for the plan's symbol. */
  datatype Entry = Entry(
    settings: Settings, context: R.RiskContext, snapshot: O.Snapshot, cap: int,
    quote: Quote, asset: Asset, builtAt: int, now: int)

  function Sized(e: Entry): Option<O.Plan> {
    var budget := R.Evaluation(e.context).budget;
    if budget.None? then None else O.CalculatePlan(e.snapshot, budget.value.adjusted, e.cap)
  }

  function Contracts(e: Entry): OptionPlan
    requires Sized(e).Some?
  {
    OptionPlan(Sized(e).value.contracts, e.snapshot.contract.multiplier, Sized(e).value.totalPremium)
  }

  function Instrument(e: Entry): InstrumentPlan
    requires Sized(e).Some?
  {
    InstrumentPlan(OPTION, None, Some(Contracts(e)), false)
  }

  function BuiltOrder(e: Entry): Build
    requires Sized(e).Some?
  {
    BuildExecutionPlan(e.settings, true, Instrument(e), R.Evaluation(e.context), e.quote, e.asset, e.builtAt)
  }

  /** The risk was accepted, contracts were sized, the order built and not yet expired. */
  ghost predicate Submittable(e: Entry) {
    && R.Evaluation(e.context).decision != R.REJECTED && Sized(e).Some?
    && ConfigOk(e.settings) && BuiltOrder(e).Built? && e.now < e.builtAt + e.settings.ttlSeconds
  }

  predicate GateAuthorizes(e: Entry)
    requires Sized(e).Some? && BuiltOrder(e).Built?
  {
    Authorized(e.settings, BuiltOrder(e).plan, Instrument(e), R.Evaluation(e.context),
               Some(e.context.state.killSwitch), e.now)
  }

  function OneMore(option: OptionPlan): OptionPlan {
    option.(contracts := option.contracts + 1)
  }

  /** What the sizing chose, in prices: the contracts cost at the ask no more than the budget, and one more would
      exceed the budget or the cap. */
  lemma SizedAtTheAsk(e: Entry)
    requires Sized(e).Some?
    ensures R.Evaluation(e.context).budget.Some? && e.snapshot.quote.Some?
    ensures var budget, ask := R.Evaluation(e.context).budget.value.adjusted, e.snapshot.quote.value.ask;
            var option := Contracts(e);
            && ask > 0.0 && option.multiplier as real * ask > 0.0 && 1 <= option.contracts <= e.cap
            && ContractsAt(option, ask) == option.maximumLoss <= budget
            && (option.contracts < e.cap ==> budget < ContractsAt(OneMore(option), ask))
  {
    hide R.Evaluation, O.CalculatePlan;
    var budget := R.Evaluation(e.context).budget.value.adjusted;
    O.PlanIsMaximal(e.snapshot, budget, e.cap);
    var ask, m := e.snapshot.quote.value.ask, e.snapshot.contract.multiplier as real;
    var n := Contracts(e).contracts as real;
    SizedCost(ask, m, n);
  }

  lemma SizedCost(ask: real, m: real, n: real)
    ensures O.Cost(ask * m, n) == n * (m * ask)
    ensures (n + 1.0) * (m * ask) == n * (m * ask) + ask * m
  {
  }

  /** An accepted, sized and built option entry is authorized exactly when its contracts cost, at the price of the
      underlying, no more than the risk budget. */
  lemma OptionEntryAuthorizedIff(e: Entry)
    requires Submittable(e)
    ensures R.Evaluation(e.context).budget.Some?
    ensures GateAuthorizes(e) <==>
              ContractsAt(Contracts(e), RoundToTick(Mid(e.quote))) <= R.Evaluation(e.context).budget.value.adjusted
  {
    S.AcceptedBudget(e.context);
    S.GatesOpenMeansSwitchOff(e.context);
    SizedAtTheAsk(e);
    hide R.Evaluation, R.GatesOpen, RoundToTick, Mid, ContractsAt, ConfigOk, Sized, Authorized;
    OptionAuthorizedIff(e.settings, true, Instrument(e), R.Evaluation(e.context), e.quote, e.asset,
                        Some(e.context.state.killSwitch), e.builtAt, e.now);
  }

  lemma PriceOrder(option: OptionPlan, price: real, ask: real)
    requires option.contracts >= 1 && option.multiplier as real * ask > 0.0 && ask > 0.0
    ensures price <= ask ==> ContractsAt(option, price) <= ContractsAt(option, ask)
    ensures price >= 2.0 * ask ==> ContractsAt(option, price) >= ContractsAt(OneMore(option), ask)
  {
    var n, m := option.contracts as real, option.multiplier as real;
    assert m > 0.0;
    if price <= ask {
      TimesMonotone(price, ask, m);
      TimesMonotone(m * price, m * ask, n);
    }
    if price >= 2.0 * ask {
      TimesMonotone(2.0 * ask, price, m);
      TimesMonotone(m * (2.0 * ask), m * price, n);
      assert n * (m * (2.0 * ask)) == n * (m * ask) + n * (m * ask);
      TimesMonotone(1.0, n, m * ask);
    }
  }

  /** A limit no higher than the ask the contracts were sized at is always authorized. Taken from the underlying it
      is authorized, where the budget and not the cap chose the number of contracts, only for a stock that costs less
      than twice its option. */
  lemma PricedByTheUnderlying(e: Entry)
    requires Submittable(e)
    ensures e.snapshot.quote.Some?
    ensures var limit, ask := RoundToTick(Mid(e.quote)), e.snapshot.quote.value.ask;
            && (limit <= ask ==> GateAuthorizes(e))
            && (Contracts(e).contracts < e.cap && GateAuthorizes(e) ==> limit < 2.0 * ask)
  {
    OptionEntryAuthorizedIff(e);
    SizedAtTheAsk(e);
    var limit, ask := RoundToTick(Mid(e.quote)), e.snapshot.quote.value.ask;
    PriceOrder(Contracts(e), limit, ask);
    hide RoundToTick, Mid, GateAuthorizes, R.Evaluation, Sized, Submittable, Contracts, OneMore, ContractsAt;
  }
}
