/** Building an execution plan from a fresh quote, and authorizing it (M6). */
module ExecutionGate {
  import opened Wrappers
  import opened Arithmetic
  import opened RiskRules
  import opened EquityPlanning
  import Keys = ExecutionKeys

  datatype Settings = Settings(
    enableExecution: bool, paperMode: bool, liveTrade: bool, enablePaperExecution: bool,
    maxSpread: real, maxDeviation: real, ttlSeconds: nat)

  datatype Quote = Quote(bid: real, ask: real)
  datatype Asset = Asset(tradable: bool, shortable: bool, easyToBorrow: bool)

  datatype InstrumentType = STOCK | OPTION | NO_TRADE

  datatype OptionPlan = OptionPlan(contracts: int, multiplier: int, maximumLoss: real)

  datatype InstrumentPlan = InstrumentPlan(
    kind: InstrumentType, equity: Option<EquityPlan>, option: Option<OptionPlan>, riskRejected: bool)

  datatype ReasonCode =
    | EXECUTION_DISABLED | NOT_PAPER_MODE | LIVE_FLAG_ACTIVE
    | UPSTREAM_NO_TRADE | RISK_REJECTED | RISK_BUDGET_MISSING | KILL_SWITCH_ACTIVE
    | MARKET_CLOSED | INVALID_QUOTE | SPREAD_TOO_WIDE | PRICE_MOVED_TOO_FAR | ASSET_NOT_TRADABLE | ASSET_NOT_SHORTABLE
    | PLAN_EXPIRED | INVALID_QUANTITY | NOTIONAL_EXCEEDED | RISK_BUDGET_EXCEEDED
    | NO_INSTRUMENT | WITHIN_LIMITS

  datatype ExecutionPlan = ExecutionPlan(
    side: Keys.OrderSide, quantity: real, reference: real, mid: real, limit: real,
    expectedNotional: real, riskBudget: real, maxNotional: real, expiresAt: int)

  datatype Build = Built(plan: ExecutionPlan) | Refused(reason: ReasonCode)

  // ---- Limit price -------------------------------------------------------------

  /** Half away from zero, to an integer. */
  function RoundHalfUp(x: real): int {
    if x >= 0.0 then (x + 0.5).Floor else -((-x + 0.5).Floor)
  }

  /** A cent at one dollar and above, a hundredth of a cent below. */
  function RoundToTick(price: real): real {
    if price >= 1.0 then RoundHalfUp(price * 100.0) as real / 100.0
    else RoundHalfUp(price * 10000.0) as real / 10000.0
  }

  predicate OnTick(price: real) {
    if price >= 1.0 then price * 100.0 == (price * 100.0).Floor as real
    else price * 10000.0 == (price * 10000.0).Floor as real
  }

  lemma RoundNear(x: real)
    requires x >= 0.0
    ensures x - 0.5 < RoundHalfUp(x) as real <= x + 0.5
    ensures RoundHalfUp(x) >= 0
  {
  }

  lemma RoundInteger(n: int)
    ensures RoundHalfUp(n as real) == n
  {
  }

  lemma RoundMonotone(x: real, y: real)
    requires x <= y
    ensures RoundHalfUp(x) <= RoundHalfUp(y)
  {
  }

  /** The tick count of a price below a dollar: at most a dollar's worth, and none only under half a tick. */
  lemma SmallTicks(price: real)
    requires 0.0 < price < 1.0
    ensures var n := RoundHalfUp(price * 10000.0);
            0 <= n <= 10000 && RoundToTick(price) * 10000.0 == n as real && (n == 0 <==> price < 0.00005)
  {
    RoundNear(price * 10000.0);
    RoundInteger(10000);
    RoundMonotone(price * 10000.0, 10000.0);
  }

  lemma CentTicks(price: real)
    requires price >= 1.0
    ensures var n := RoundHalfUp(price * 100.0); n >= 100 && RoundToTick(price) * 100.0 == n as real
  {
    RoundInteger(100);
    RoundMonotone(100.0, price * 100.0);
  }

  /** The limit is within half a tick of the price, and vanishes only for a price under half a tick. */
  lemma TickError(price: real)
    requires price > 0.0
    ensures -0.005 <= RoundToTick(price) - price <= 0.005
    ensures price < 1.0 ==> -0.00005 <= RoundToTick(price) - price <= 0.00005
    ensures RoundToTick(price) == 0.0 <==> price < 0.00005
  {
    if price >= 1.0 {
      CentTicks(price);
      RoundNear(price * 100.0);
    } else {
      SmallTicks(price);
      RoundNear(price * 10000.0);
    }
  }

  /** The limit lies on the tick grid of its own size, and rounding it again changes nothing. */
  lemma TickStable(price: real)
    requires price > 0.0
    ensures OnTick(RoundToTick(price))
    ensures RoundToTick(RoundToTick(price)) == RoundToTick(price)
  {
    var limit := RoundToTick(price);
    if price >= 1.0 {
      CentTicks(price);
      RoundInteger(RoundHalfUp(price * 100.0));
    } else {
      SmallTicks(price);
      if limit < 1.0 {
        RoundInteger(RoundHalfUp(price * 10000.0));
      } else {
        assert limit == 1.0;
        RoundInteger(100);
      }
    }
  }

  lemma TickMonotone(a: real, b: real)
    requires 0.0 < a <= b
    ensures RoundToTick(a) <= RoundToTick(b)
  {
    hide RoundHalfUp;
    if b < 1.0 {
      RoundMonotone(a * 10000.0, b * 10000.0);
    } else if a >= 1.0 {
      RoundMonotone(a * 100.0, b * 100.0);
    } else {
      SmallTicks(a);
      CentTicks(b);
    }
  }

  /** A limit that does not vanish keeps two thirds of the price. */
  lemma TickKeeps(price: real)
    requires price >= 0.00005
    ensures 3.0 * RoundToTick(price) >= 2.0 * price
  {
    hide RoundHalfUp;
    TickError(price);
    if price < 1.0 {
      SmallTicks(price);
      RoundNear(price * 10000.0);
    }
  }

  // ---- The plan ------------------------------------------------------------------

  function Mid(q: Quote): real { (q.bid + q.ask) / 2.0 }

  function Deviation(mid: real, reference: real): real
    requires reference > 0.0
  {
    Abs(mid - reference) / reference
  }

  function Reference(instrument: InstrumentPlan): real {
    if instrument.equity.Some? then instrument.equity.value.referencePrice else 0.0
  }

  predicate GoesShort(instrument: InstrumentPlan) {
    instrument.kind.STOCK? && instrument.equity.Some? && instrument.equity.value.side.Short?
  }

  /** The guards in the order they are checked. A positive bid below the ask makes the mid positive. */
  function Refusal(s: Settings, marketOpen: bool, instrument: InstrumentPlan, q: Quote, asset: Asset)
    : Option<ReasonCode>
  {
    if !marketOpen then Some(MARKET_CLOSED)
    else if q.bid <= 0.0 || q.ask <= 0.0 then Some(INVALID_QUOTE)
    else if q.bid >= q.ask then Some(INVALID_QUOTE)
    else if (q.ask - q.bid) / Mid(q) > s.maxSpread then Some(SPREAD_TOO_WIDE)
    else if !asset.tradable then Some(ASSET_NOT_TRADABLE)
    else if GoesShort(instrument) && !(asset.shortable && asset.easyToBorrow) then Some(ASSET_NOT_SHORTABLE)
    else if Reference(instrument) > 0.0 && Deviation(Mid(q), Reference(instrument)) > s.maxDeviation
    then Some(PRICE_MOVED_TOO_FAR)
    else None
  }

  function BuildExecutionPlan(s: Settings, marketOpen: bool, instrument: InstrumentPlan, evaluation: RiskEvaluation,
                              q: Quote, asset: Asset, now: int): Build
  {
    var refusal := Refusal(s, marketOpen, instrument, q, asset);
    if refusal.Some? then Refused(refusal.value) else
    var limit := RoundToTick(Mid(q));
    var budget := if evaluation.budget.Some? then evaluation.budget.value.adjusted else 0.0;
    var ceiling := if evaluation.budget.Some? then evaluation.budget.value.maxNotional else 0.0;
    if instrument.kind.STOCK? && instrument.equity.Some? then
      var plan := instrument.equity.value;
      var side := if plan.side.Long? then Keys.BUY else Keys.SELL;
      Built(ExecutionPlan(side, plan.quantity, Reference(instrument), Mid(q), limit,
                          Worth(plan.quantity, limit), budget, ceiling, now + s.ttlSeconds))
    else if instrument.kind.OPTION? && instrument.option.Some? then
      var plan := instrument.option.value;
      Built(ExecutionPlan(Keys.BUY, plan.contracts as real, Reference(instrument), Mid(q), limit,
                          limit * plan.contracts as real * plan.multiplier as real, budget, ceiling,
                          now + s.ttlSeconds))
    else Refused(NO_INSTRUMENT)
  }

  /** A plan is built exactly for an open market, an uncrossed quote with a narrow spread and a mid near the
      planned price, and an asset that can be traded that way; any later change of the order of the guards
      would change the reason given, not this. */
  lemma BuiltIff(s: Settings, marketOpen: bool, instrument: InstrumentPlan, evaluation: RiskEvaluation,
                 q: Quote, asset: Asset, now: int)
    ensures BuildExecutionPlan(s, marketOpen, instrument, evaluation, q, asset, now).Built? <==>
              && marketOpen && 0.0 < q.bid < q.ask && (q.ask - q.bid) / Mid(q) <= s.maxSpread && asset.tradable
              && (instrument.kind.STOCK? && instrument.equity.Some? && instrument.equity.value.side.Short? ==>
                    asset.shortable && asset.easyToBorrow)
              && (Reference(instrument) > 0.0 ==> Deviation(Mid(q), Reference(instrument)) <= s.maxDeviation)
              && ((instrument.kind.STOCK? && instrument.equity.Some?)
                  || (instrument.kind.OPTION? && instrument.option.Some?))
    ensures var b := BuildExecutionPlan(s, marketOpen, instrument, evaluation, q, asset, now);
            && (b.Built? ==> q.bid < b.plan.mid < q.ask && -0.005 <= b.plan.limit - b.plan.mid <= 0.005)
            && (b == Refused(NO_INSTRUMENT) <==> b.Refused? && Refusal(s, marketOpen, instrument, q, asset).None?)
  {
    if 0.0 < q.bid < q.ask {
      TickError(Mid(q));
    }
    hide RoundToTick, Deviation;
  }

  /** Why a plan is refused, whatever the order of the checks: every reason with the condition on prices under which
      it is given. */
  lemma RefusalReason(s: Settings, marketOpen: bool, instrument: InstrumentPlan, q: Quote, asset: Asset)
    ensures var r := Refusal(s, marketOpen, instrument, q, asset); var mid := (q.bid + q.ask) / 2.0;
            var quoted := marketOpen && 0.0 < q.bid < q.ask; var narrow := q.ask - q.bid <= s.maxSpread * mid;
            var short := instrument.kind.STOCK? && instrument.equity.Some? && instrument.equity.value.side == Short;
            var borrowed := !short || (asset.shortable && asset.easyToBorrow);
            && (r == Some(MARKET_CLOSED) <==> !marketOpen)
            && (r == Some(INVALID_QUOTE) <==> marketOpen && !quoted)
            && (r == Some(SPREAD_TOO_WIDE) <==> quoted && !narrow)
            && (r == Some(ASSET_NOT_TRADABLE) <==> quoted && narrow && !asset.tradable)
            && (r == Some(ASSET_NOT_SHORTABLE) <==> quoted && narrow && asset.tradable && !borrowed)
            && (r == Some(PRICE_MOVED_TOO_FAR) <==>
                  quoted && narrow && asset.tradable && borrowed && Moved(s, instrument, mid))
  {
    if 0.0 < q.bid < q.ask {
      QuotientCompare(q.ask - q.bid, Mid(q), s.maxSpread);
    }
    if Reference(instrument) > 0.0 {
      QuotientCompare(Abs(Mid(q) - Reference(instrument)), Reference(instrument), s.maxDeviation);
    }
  }

  /** The mid lies further from the planned price than the limit allows; without an equity plan nothing is compared. */
  predicate Moved(s: Settings, instrument: InstrumentPlan, mid: real) {
    instrument.equity.Some? && instrument.equity.value.referencePrice > 0.0
    && Abs(mid - instrument.equity.value.referencePrice) > s.maxDeviation * instrument.equity.value.referencePrice
  }

  // ---- Validators ----------------------------------------------------------------

  function Failing(bad: bool, reason: ReasonCode): seq<ReasonCode> {
    if bad then [reason] else []
  }

  function ConfigFailures(s: Settings): seq<ReasonCode> {
    Failing(!s.enableExecution, EXECUTION_DISABLED) + Failing(!s.paperMode, NOT_PAPER_MODE)
    + Failing(s.liveTrade, LIVE_FLAG_ACTIVE) + Failing(!s.enablePaperExecution, EXECUTION_DISABLED)
  }

  function UpstreamFailures(instrument: InstrumentPlan): seq<ReasonCode> {
    Failing(instrument.kind.NO_TRADE?, UPSTREAM_NO_TRADE) + Failing(instrument.riskRejected, RISK_REJECTED)
  }

  /** `killSwitch` is absent when no risk state is given. */
  function AuthorityFailures(evaluation: RiskEvaluation, killSwitch: Option<bool>): seq<ReasonCode> {
    Failing(evaluation.decision == REJECTED, RISK_REJECTED) + Failing(evaluation.budget.None?, RISK_BUDGET_MISSING)
    + Failing(killSwitch == Some(true), KILL_SWITCH_ACTIVE)
  }

  predicate AboveM5(plan: ExecutionPlan, instrument: InstrumentPlan) {
    if instrument.kind.STOCK? && instrument.equity.Some? then plan.quantity > instrument.equity.value.quantity
    else instrument.kind.OPTION? && instrument.option.Some? && plan.quantity > instrument.option.value.contracts as real
  }

  predicate LosesTooMuch(plan: ExecutionPlan, instrument: InstrumentPlan) {
    instrument.kind.OPTION? && instrument.option.Some? && instrument.option.value.maximumLoss > plan.riskBudget
  }

  function PlanFailures(plan: ExecutionPlan, instrument: InstrumentPlan, now: int): seq<ReasonCode> {
    Failing(now >= plan.expiresAt, PLAN_EXPIRED) + Failing(plan.quantity <= 0.0, INVALID_QUANTITY)
    + Failing(AboveM5(plan, instrument), INVALID_QUANTITY)
    + Failing(plan.expectedNotional > plan.maxNotional, NOTIONAL_EXCEEDED)
    + Failing(plan.expectedNotional > plan.riskBudget, RISK_BUDGET_EXCEEDED)
    + Failing(LosesTooMuch(plan, instrument), RISK_BUDGET_EXCEEDED)
  }

  method ValidateExecutionConfig(s: Settings) returns (failures: seq<ReasonCode>)
    ensures failures == ConfigFailures(s)
    ensures failures == [] <==> s.enableExecution && s.paperMode && !s.liveTrade && s.enablePaperExecution
  {
    failures := Failing(!s.enableExecution, EXECUTION_DISABLED);
    failures := failures + Failing(!s.paperMode, NOT_PAPER_MODE);
    failures := failures + Failing(s.liveTrade, LIVE_FLAG_ACTIVE);
    failures := failures + Failing(!s.enablePaperExecution, EXECUTION_DISABLED);
  }

  method ValidateUpstreamGates(instrument: InstrumentPlan) returns (failures: seq<ReasonCode>)
    ensures failures == UpstreamFailures(instrument)
    ensures failures == [] <==> !instrument.kind.NO_TRADE? && !instrument.riskRejected
  {
    failures := Failing(instrument.kind.NO_TRADE?, UPSTREAM_NO_TRADE);
    failures := failures + Failing(instrument.riskRejected, RISK_REJECTED);
  }

  method ValidateM4Authority(evaluation: RiskEvaluation, killSwitch: Option<bool>) returns (failures: seq<ReasonCode>)
    ensures failures == AuthorityFailures(evaluation, killSwitch)
    ensures failures == [] <==> evaluation.decision != REJECTED && evaluation.budget.Some? && killSwitch != Some(true)
  {
    failures := Failing(evaluation.decision == REJECTED, RISK_REJECTED);
    failures := failures + Failing(evaluation.budget.None?, RISK_BUDGET_MISSING);
    failures := failures + Failing(killSwitch == Some(true), KILL_SWITCH_ACTIVE);
  }

  method ValidateExecutionPlan(plan: ExecutionPlan, instrument: InstrumentPlan, now: int)
    returns (failures: seq<ReasonCode>)
    ensures failures == PlanFailures(plan, instrument, now)
    ensures failures == [] <==> PlanOk(plan, instrument, now)
  {
    PlanFailuresMean(plan, instrument, now);
    hide PlanOk;
    failures := Failing(now >= plan.expiresAt, PLAN_EXPIRED);
    failures := failures + Failing(plan.quantity <= 0.0, INVALID_QUANTITY);
    failures := failures + Failing(AboveM5(plan, instrument), INVALID_QUANTITY);
    failures := failures + Failing(plan.expectedNotional > plan.maxNotional, NOTIONAL_EXCEEDED);
    failures := failures + Failing(plan.expectedNotional > plan.riskBudget, RISK_BUDGET_EXCEEDED);
    failures := failures + Failing(LosesTooMuch(plan, instrument), RISK_BUDGET_EXCEEDED);
  }

  function Failures(s: Settings, plan: ExecutionPlan, instrument: InstrumentPlan, evaluation: RiskEvaluation,
                    killSwitch: Option<bool>, now: int): seq<ReasonCode>
  {
    ConfigFailures(s) + UpstreamFailures(instrument) + AuthorityFailures(evaluation, killSwitch)
    + PlanFailures(plan, instrument, now)
  }

  ghost predicate ConfigOk(s: Settings) {
    s.enableExecution && s.paperMode && !s.liveTrade && s.enablePaperExecution
  }

  ghost predicate PlanOk(plan: ExecutionPlan, instrument: InstrumentPlan, now: int) {
    && now < plan.expiresAt && plan.quantity > 0.0 && !AboveM5(plan, instrument)
    && plan.expectedNotional <= Min(plan.riskBudget, plan.maxNotional) && !LosesTooMuch(plan, instrument)
  }

  /** AUTHORIZED means every gate holds; a denial names the first gate that does not. */
  method Authorize(s: Settings, plan: ExecutionPlan, instrument: InstrumentPlan, evaluation: RiskEvaluation,
                   killSwitch: Option<bool>, now: int) returns (authorized: bool, reason: ReasonCode)
    ensures authorized <==>
              && ConfigOk(s) && !instrument.kind.NO_TRADE? && !instrument.riskRejected
              && evaluation.decision != REJECTED && evaluation.budget.Some? && killSwitch != Some(true)
              && PlanOk(plan, instrument, now)
    ensures var failures := Failures(s, plan, instrument, evaluation, killSwitch, now);
            reason == if failures == [] then WITHIN_LIMITS else failures[0]
  {
    var reasons := ValidateExecutionConfig(s);
    var upstream := ValidateUpstreamGates(instrument);
    reasons := reasons + upstream;
    var authority := ValidateM4Authority(evaluation, killSwitch);
    reasons := reasons + authority;
    var checks := ValidateExecutionPlan(plan, instrument, now);
    reasons := reasons + checks;
    hide ConfigFailures, UpstreamFailures, AuthorityFailures, PlanFailures, PlanOk;
    assert reasons == Failures(s, plan, instrument, evaluation, killSwitch, now);
    authorized := |reasons| == 0;
    reason := if authorized then WITHIN_LIMITS else reasons[0];
  }

  lemma PlanFailuresMean(plan: ExecutionPlan, instrument: InstrumentPlan, now: int)
    ensures PlanFailures(plan, instrument, now) == [] <==> PlanOk(plan, instrument, now)
  {
  }

  /** What `Authorize` decides, for statements about it. */
  predicate Authorized(s: Settings, plan: ExecutionPlan, instrument: InstrumentPlan, evaluation: RiskEvaluation,
                       killSwitch: Option<bool>, now: int)
  {
    Failures(s, plan, instrument, evaluation, killSwitch, now) == []
  }

  lemma AuthorizedMeans(s: Settings, plan: ExecutionPlan, instrument: InstrumentPlan, evaluation: RiskEvaluation,
                        killSwitch: Option<bool>, now: int)
    ensures Authorized(s, plan, instrument, evaluation, killSwitch, now) <==>
              && ConfigOk(s) && !instrument.kind.NO_TRADE? && !instrument.riskRejected
              && evaluation.decision != REJECTED && evaluation.budget.Some? && killSwitch != Some(true)
              && PlanOk(plan, instrument, now)
  {
    PlanFailuresMean(plan, instrument, now);
  }

  /** A denial names the first gate that does not hold. */
  lemma DenialReason(s: Settings, plan: ExecutionPlan, instrument: InstrumentPlan, evaluation: RiskEvaluation,
                     killSwitch: Option<bool>, now: int)
    requires !Authorized(s, plan, instrument, evaluation, killSwitch, now)
    ensures Failures(s, plan, instrument, evaluation, killSwitch, now)[0]
         == if !s.enableExecution then EXECUTION_DISABLED
            else if !s.paperMode then NOT_PAPER_MODE
            else if s.liveTrade then LIVE_FLAG_ACTIVE
            else if !s.enablePaperExecution then EXECUTION_DISABLED
            else if instrument.kind == NO_TRADE then UPSTREAM_NO_TRADE
            else if instrument.riskRejected || evaluation.decision == REJECTED then RISK_REJECTED
            else if evaluation.budget.None? then RISK_BUDGET_MISSING
            else if killSwitch == Some(true) then KILL_SWITCH_ACTIVE
            else if now >= plan.expiresAt then PLAN_EXPIRED
            else if plan.quantity <= 0.0 || AboveM5(plan, instrument) then INVALID_QUANTITY
            else if plan.expectedNotional > plan.maxNotional then NOTIONAL_EXCEEDED
            else RISK_BUDGET_EXCEEDED
  {
    hide AboveM5, LosesTooMuch;
    var a, b := ConfigFailures(s), UpstreamFailures(instrument);
    var c, d := AuthorityFailures(evaluation, killSwitch), PlanFailures(plan, instrument, now);
    assert Failures(s, plan, instrument, evaluation, killSwitch, now) == a + b + c + d;
  }

  /** Any authorized order for a built plan: a paper order of exactly the planned, positive quantity of shares or
      contracts, costing no more than the risk budget or the ceiling, at a price near the planned one. */
  lemma AuthorizationSound(s: Settings, marketOpen: bool, instrument: InstrumentPlan, evaluation: RiskEvaluation,
                           q: Quote, asset: Asset, killSwitch: Option<bool>, built: int, now: int)
    requires var b := BuildExecutionPlan(s, marketOpen, instrument, evaluation, q, asset, built);
             b.Built? && Authorized(s, b.plan, instrument, evaluation, killSwitch, now)
    ensures marketOpen && asset.tradable && (GoesShort(instrument) ==> asset.shortable && asset.easyToBorrow)
    ensures ConfigOk(s) && killSwitch != Some(true) && now < built + s.ttlSeconds
    ensures evaluation.decision != REJECTED && evaluation.budget.Some?
    ensures var plan := BuildExecutionPlan(s, marketOpen, instrument, evaluation, q, asset, built).plan;
            var budget := evaluation.budget.value;
            && plan.quantity > 0.0
            && plan.expectedNotional <= Min(budget.adjusted, budget.maxNotional)
            && (instrument.equity.Some? && plan.reference > 0.0 ==>
                  var reference := instrument.equity.value.referencePrice;
                  Abs(plan.mid - reference) / reference <= s.maxDeviation)
            && plan.limit == RoundToTick(plan.mid) && 2.0 * plan.mid == q.bid + q.ask
            && (instrument.kind.STOCK? ==>
                  && instrument.equity.Some? && plan.quantity == instrument.equity.value.quantity
                  && (plan.side == Keys.BUY <==> instrument.equity.value.side == Long)
                  && instrument.equity.value.quantity * plan.limit <= Min(budget.adjusted, budget.maxNotional))
            && (instrument.kind.OPTION? ==>
                  && instrument.option.Some? && plan.quantity == instrument.option.value.contracts as real
                  && plan.side == Keys.BUY
                  && ContractsAt(instrument.option.value, plan.limit) <= Min(budget.adjusted, budget.maxNotional)
                  && instrument.option.value.maximumLoss <= budget.adjusted)
  {
    var plan := BuildExecutionPlan(s, marketOpen, instrument, evaluation, q, asset, built).plan;
    AuthorizedMeans(s, plan, instrument, evaluation, killSwitch, now);
    BuiltCost(s, marketOpen, instrument, evaluation, q, asset, built);
    hide RoundToTick, Deviation, Authorized, Worth, ContractsAt;
  }

  /** What the planned contracts cost, each for so many units of the underlying, at a price per unit. */
  ghost function ContractsAt(plan: OptionPlan, price: real): real {
    plan.contracts as real * (plan.multiplier as real * price)
  }

  /** The order's notional is what the planned shares or contracts cost at the limit, the rounded mid. */
  lemma BuiltCost(s: Settings, marketOpen: bool, instrument: InstrumentPlan, evaluation: RiskEvaluation,
                  q: Quote, asset: Asset, now: int)
    requires BuildExecutionPlan(s, marketOpen, instrument, evaluation, q, asset, now).Built?
    ensures var plan := BuildExecutionPlan(s, marketOpen, instrument, evaluation, q, asset, now).plan;
            && plan.limit == RoundToTick(Mid(q)) && plan.mid == Mid(q)
            && (instrument.kind.STOCK? ==>
                  && instrument.equity.Some?
                  && plan.expectedNotional == instrument.equity.value.quantity * plan.limit)
            && (instrument.kind.OPTION? ==>
                  && instrument.option.Some?
                  && plan.expectedNotional == ContractsAt(instrument.option.value, plan.limit))
  {
    var limit := RoundToTick(Mid(q));
    if instrument.option.Some? {
      var o := instrument.option.value;
      Regrouped(limit, o.contracts as real, o.multiplier as real);
    }
    hide RoundToTick, Deviation, Mid;
  }

  lemma Regrouped(x: real, y: real, z: real)
    ensures x * y * z == y * (z * x)
  {
  }

  /** A built option order is authorized exactly when the gates hold, there are contracts, their whole cost at the
      limit is within budget and ceiling, and what they may lose is within the budget. */
  lemma OptionAuthorizedIff(s: Settings, marketOpen: bool, instrument: InstrumentPlan, evaluation: RiskEvaluation,
                            q: Quote, asset: Asset, killSwitch: Option<bool>, built: int, now: int)
    requires instrument.kind.OPTION?
    requires BuildExecutionPlan(s, marketOpen, instrument, evaluation, q, asset, built).Built?
    ensures instrument.option.Some?
    ensures var b := BuildExecutionPlan(s, marketOpen, instrument, evaluation, q, asset, built);
            var option := instrument.option.value;
            Authorized(s, b.plan, instrument, evaluation, killSwitch, now) <==>
              && ConfigOk(s) && !instrument.riskRejected && evaluation.decision != REJECTED && evaluation.budget.Some?
              && killSwitch != Some(true) && now < built + s.ttlSeconds && option.contracts > 0
              && ContractsAt(option, RoundToTick(Mid(q))) <= evaluation.budget.value.adjusted
              && ContractsAt(option, RoundToTick(Mid(q))) <= evaluation.budget.value.maxNotional
              && option.maximumLoss <= evaluation.budget.value.adjusted
  {
    var plan := BuildExecutionPlan(s, marketOpen, instrument, evaluation, q, asset, built).plan;
    AuthorizedMeans(s, plan, instrument, evaluation, killSwitch, now);
    BuiltCost(s, marketOpen, instrument, evaluation, q, asset, built);
    hide RoundToTick, Deviation, Authorized, Mid, ContractsAt, ConfigOk;
  }
}
