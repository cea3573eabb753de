/** Risk checks, position sizing and the final decision (M4). Decimals are exact reals. */
module RiskRules {
  import opened Arithmetic
  import opened Wrappers
  import opened RiskConstitution

  datatype PositionSide = Long | Short

  datatype Position = Position(symbol: string, marketValue: real, side: PositionSide)

  datatype RiskState = RiskState(
    sessionStartEquity: real, peakEquity: real, currentEquity: real, dailyPnl: real, killSwitch: bool)

  /** `committeeNoTrade`: the committee's decision is NO_TRADE. */
  datatype Thesis = Thesis(symbol: string, hasDirection: bool, confidence: real, committeeNoTrade: bool)

  datatype RiskContext = RiskContext(
    thesis: Thesis,
    price: real, atr: Option<real>, bid: Option<real>, ask: Option<real>,
    dollarVolume: Option<real>, volatility: Option<real>,
    equity: real, positions: seq<Position>, state: RiskState)

  datatype Reason =
    | M3NoTrade | InvalidThesis | PoorDataQuality | LowCommitteeConfidence | InvalidPrice
    | KillSwitchActive | DailyLossLimit | MaxDrawdown | CalculationFailure
    | VolatilityReduction | LiquidityReduction | ConfidenceReduction | SymbolConcentration
    | GrossExposure | NetExposure | MaxPositions
    | WithinLimits

  /** A rule that held, a violated hard gate, or a violated soft limit with its reduction factor. */
  datatype Check = Passed | HardFail(reason: Reason) | SoftFail(reason: Reason, factor: real)

  datatype Decision = REJECTED | REDUCED | APPROVED

  // ---- What the context says -----------------------------------------------

  function DailyReturn(s: RiskState): real {
    if s.sessionStartEquity <= 0.0 then 0.0 else s.dailyPnl / s.sessionStartEquity
  }

  function Drawdown(s: RiskState): real {
    if s.peakEquity <= 0.0 then 0.0 else (s.peakEquity - s.currentEquity) / s.peakEquity
  }

  function Gross(positions: seq<Position>): real {
    if positions == [] then 0.0 else positions[0].marketValue + Gross(positions[1..])
  }

  function Net(positions: seq<Position>): real {
    if positions == [] then 0.0
    else
      var first := positions[0];
      (if first.side == Long then first.marketValue else -first.marketValue) + Net(positions[1..])
  }

  function PositionIn(positions: seq<Position>, symbol: string): Option<Position> {
    if positions == [] then None
    else if positions[0].symbol == symbol then Some(positions[0])
    else PositionIn(positions[1..], symbol)
  }

  // ---- Hard gates ------------------------------------------------------------

  predicate ThesisValid(t: Thesis) {
    t.symbol != "" && t.hasDirection && 0.0 < t.confidence <= 1.0
  }

  predicate PriceValid(ctx: RiskContext) {
    && ctx.price > 0.0
    && (ctx.bid.Some? && ctx.ask.Some? ==>
          var bid, ask := ctx.bid.value, ctx.ask.value;
          bid > 0.0 && ask > 0.0 && ask >= bid && (ask - bid) / ((bid + ask) / 2.0) <= MAX_SPREAD)
  }

  function Gate(ok: bool, reason: Reason): Check {
    if ok then Passed else HardFail(reason)
  }

  function HardChecks(ctx: RiskContext): seq<Check> {
    [ Gate(!ctx.state.killSwitch, KillSwitchActive),
      Gate(!ctx.thesis.committeeNoTrade, M3NoTrade),
      Gate(ThesisValid(ctx.thesis), InvalidThesis),
      Gate(ctx.price > 0.0, PoorDataQuality),
      Gate(ctx.thesis.confidence >= MIN_COMMITTEE_CONFIDENCE, LowCommitteeConfidence),
      Gate(PriceValid(ctx), InvalidPrice),
      Gate(DailyReturn(ctx.state) >= -DAILY_LOSS_LIMIT, DailyLossLimit),
      Gate(Drawdown(ctx.state) <= MAX_DRAWDOWN, MaxDrawdown) ]
  }

  // ---- Soft reductions ------------------------------------------------------

  function Floored(factor: real, proportional: real): real {
    Max(Max(factor, proportional), REDUCTION_FLOOR)
  }

  function VolatilityCheck(ctx: RiskContext): Check {
    if ctx.volatility.None? || ctx.volatility.value <= VOLATILITY_THRESHOLD then Passed
    else SoftFail(VolatilityReduction,
                  Floored(VOLATILITY_FACTOR, 1.0 - (ctx.volatility.value - VOLATILITY_THRESHOLD) * VOLATILITY_SLOPE))
  }

  function LiquidityCheck(ctx: RiskContext): Check {
    if ctx.dollarVolume.None? || ctx.dollarVolume.value >= LIQUIDITY_THRESHOLD then Passed
    else SoftFail(LiquidityReduction, Floored(LIQUIDITY_FACTOR, ctx.dollarVolume.value / LIQUIDITY_THRESHOLD))
  }

  function ConfidenceCheck(ctx: RiskContext): Check {
    if ctx.thesis.confidence >= CONFIDENCE_THRESHOLD then Passed
    else SoftFail(ConfidenceReduction, CONFIDENCE_FACTOR)
  }

  /** Share of equity already held in the symbol, when there is a position and equity to divide by. */
  function SymbolShare(ctx: RiskContext): Option<real> {
    var existing := PositionIn(ctx.positions, ctx.thesis.symbol);
    if existing.None? || ctx.equity <= 0.0 then None else Some(existing.value.marketValue / ctx.equity)
  }

  function ConcentrationCheck(ctx: RiskContext): Check {
    var share := SymbolShare(ctx);
    if share.None? || share.value <= CONCENTRATION_THRESHOLD then Passed
    else SoftFail(SymbolConcentration,
                  Floored(CONCENTRATION_FACTOR, 1.0 - (share.value - CONCENTRATION_THRESHOLD) * 10.0))
  }

  /** Gross or net exposure against its limit. */
  function ExposureCheck(equity: real, exposure: real, limit: real, reason: Reason): Check
    requires equity > 0.0 ==> limit > 0.0
  {
    if equity <= 0.0 || exposure <= ExposureStart(limit) then Passed
    else SoftFail(reason, Floored(EXPOSURE_FACTOR, 1.0 - (exposure - ExposureStart(limit)) / limit))
  }

  function PositionsCheck(ctx: RiskContext): Check {
    if |ctx.positions| < POSITIONS_THRESHOLD then Passed else SoftFail(MaxPositions, POSITIONS_FACTOR)
  }

  function GrossCheck(ctx: RiskContext): Check {
    ExposureCheck(ctx.equity, Gross(ctx.positions), MaxGrossExposure(ctx.equity), GrossExposure)
  }

  function NetCheck(ctx: RiskContext): Check {
    ExposureCheck(ctx.equity, Abs(Net(ctx.positions)), MaxNetExposure(ctx.equity), NetExposure)
  }

  /** In evaluation order; the group and correlation rules are placeholders that always pass. */
  function SoftChecks(ctx: RiskContext): seq<Check> {
    [ VolatilityCheck(ctx), LiquidityCheck(ctx), ConfidenceCheck(ctx), ConcentrationCheck(ctx),
      GrossCheck(ctx), NetCheck(ctx), PositionsCheck(ctx), Passed, Passed ]
  }

  predicate HasHardFail(checks: seq<Check>) {
    exists i :: 0 <= i < |checks| && checks[i].HardFail?
  }

  predicate HasSoftFail(checks: seq<Check>) {
    exists i :: 0 <= i < |checks| && checks[i].SoftFail?
  }

  function AllChecks(ctx: RiskContext): seq<Check> {
    if HasHardFail(HardChecks(ctx)) then HardChecks(ctx) else HardChecks(ctx) + SoftChecks(ctx)
  }

  method EvaluateAll(ctx: RiskContext) returns (checks: seq<Check>)
    ensures checks == AllChecks(ctx)
    ensures HasHardFail(checks) <==>
              || ctx.state.killSwitch || ctx.thesis.committeeNoTrade || !ThesisValid(ctx.thesis) || !PriceValid(ctx)
              || ctx.thesis.confidence < MIN_COMMITTEE_CONFIDENCE
              || DailyReturn(ctx.state) < -DAILY_LOSS_LIMIT || Drawdown(ctx.state) > MAX_DRAWDOWN
    ensures HasHardFail(checks) ==> !HasSoftFail(checks)
  {
    hide VolatilityCheck, LiquidityCheck, ConfidenceCheck, ConcentrationCheck, GrossCheck, NetCheck, PositionsCheck;
    hide PriceValid, ThesisValid, DailyReturn, Drawdown;
    checks := [];
    checks := checks + [Gate(!ctx.state.killSwitch, KillSwitchActive)];
    checks := checks + [Gate(!ctx.thesis.committeeNoTrade, M3NoTrade)];
    checks := checks + [Gate(ThesisValid(ctx.thesis), InvalidThesis)];
    checks := checks + [Gate(ctx.price > 0.0, PoorDataQuality)];
    checks := checks + [Gate(ctx.thesis.confidence >= MIN_COMMITTEE_CONFIDENCE, LowCommitteeConfidence)];
    checks := checks + [Gate(PriceValid(ctx), InvalidPrice)];
    checks := checks + [Gate(DailyReturn(ctx.state) >= -DAILY_LOSS_LIMIT, DailyLossLimit)];
    checks := checks + [Gate(Drawdown(ctx.state) <= MAX_DRAWDOWN, MaxDrawdown)];
    assert checks == HardChecks(ctx);
    if !HasHardFail(checks) {
      checks := checks + [VolatilityCheck(ctx)];
      checks := checks + [LiquidityCheck(ctx)];
      checks := checks + [ConfidenceCheck(ctx)];
      checks := checks + [ConcentrationCheck(ctx)];
      checks := checks + [GrossCheck(ctx)];
      checks := checks + [NetCheck(ctx)];
      checks := checks + [PositionsCheck(ctx)];
      checks := checks + [Passed, Passed];
      assert checks == HardChecks(ctx) + SoftChecks(ctx);
    }
    AllChecksMeans(ctx);
  }

  ghost predicate GatesOpen(ctx: RiskContext) {
    && !ctx.state.killSwitch && !ctx.thesis.committeeNoTrade && ThesisValid(ctx.thesis) && PriceValid(ctx)
    && ctx.thesis.confidence >= MIN_COMMITTEE_CONFIDENCE
    && DailyReturn(ctx.state) >= -DAILY_LOSS_LIMIT && Drawdown(ctx.state) <= MAX_DRAWDOWN
  }

  lemma HardFailMeans(ctx: RiskContext)
    ensures HasHardFail(HardChecks(ctx)) <==> !GatesOpen(ctx)
  {
    var h := HardChecks(ctx);
    assert (h[0].HardFail? || h[1].HardFail? || h[2].HardFail? || h[3].HardFail?
            || h[4].HardFail? || h[5].HardFail? || h[6].HardFail? || h[7].HardFail?) <==> !GatesOpen(ctx);
  }

  lemma AllChecksMeans(ctx: RiskContext)
    ensures HasHardFail(AllChecks(ctx)) <==> !GatesOpen(ctx)
    ensures HasSoftFail(AllChecks(ctx)) <==> GatesOpen(ctx) && HasSoftFail(SoftChecks(ctx))
  {
    HardFailMeans(ctx);
    var h, s := HardChecks(ctx), SoftChecks(ctx);
    if GatesOpen(ctx) {
      assert forall i :: 0 <= i < |s| ==> (h + s)[|h| + i] == s[i];
    }
  }

  // ---- Sizing ----------------------------------------------------------------

  datatype Reductions = Reductions(
    confidence: real, volatility: real, liquidity: real, concentration: real, exposure: real)

  function Total(r: Reductions): real {
    r.confidence * r.volatility * r.liquidity * r.concentration * r.exposure
  }

  function Factor(c: Check): real {
    if c.SoftFail? then c.factor else 1.0
  }

  /** The reductions a list of checks adds up to: later checks of one kind replace earlier ones,
      exposure kinds keep the minimum. */
  function Accumulated(checks: seq<Check>): Reductions {
    if checks == [] then Reductions(1.0, 1.0, 1.0, 1.0, 1.0) else
    var r := Accumulated(checks[..|checks| - 1]);
    WithCheck(r, checks[|checks| - 1])
  }

  function WithCheck(r: Reductions, c: Check): Reductions {
    if !c.SoftFail? then r else
    Reductions(
      if c.reason == ConfidenceReduction then c.factor else r.confidence,
      if c.reason == VolatilityReduction then c.factor else r.volatility,
      if c.reason == LiquidityReduction then c.factor else r.liquidity,
      if c.reason == SymbolConcentration then c.factor else r.concentration,
      if c.reason == GrossExposure || c.reason == NetExposure || c.reason == MaxPositions
      then Min(r.exposure, c.factor) else r.exposure)
  }

  /** `stop` is the ATR stop distance, absent or possibly not positive for a worthless price. */
  datatype RiskBudget = RiskBudget(
    base: real, reductions: Reductions, adjusted: real, stop: Option<real>, maxNotional: real, shares: nat)

  function StopDistance(price: real, atr: Option<real>): Option<real> {
    if atr.None? || atr.value <= 0.0 then None
    else Some(Max(MinStop(price), Min(atr.value * ATR_STOP_MULTIPLIER, MaxStop(price))))
  }

  /** A positive stop means a positive price: the division by the price below is safe. */
  function StopPct(price: real, stop: Option<real>): (pct: real)
    requires stop.Some? && stop.value > 0.0 ==> price > 0.0
    ensures pct > 0.0
  {
    if stop.Some? && stop.value > 0.0 then
      assert stop.value / price > 0.0;
      stop.value / price
    else MIN_STOP_DISTANCE_PCT
  }

  lemma PositiveStopHasPrice(price: real, atr: Option<real>)
    ensures StopDistance(price, atr).Some? && StopDistance(price, atr).value > 0.0 ==> price > 0.0
    ensures price > 0.0 && atr.Some? && atr.value > 0.0 ==>
              MinStop(price) <= StopDistance(price, atr).value <= MaxStop(price)
  {
  }

  function SharesFor(equity: real, price: real, pct: real, adjusted: real): nat
    requires pct > 0.0
  {
    var notional := Min(adjusted / pct, NotionalCeiling(equity));
    if price > 0.0 && Truncate(notional / price) > 0 then Truncate(notional / price) else 0
  }

  /** The position an amount at risk buys. */
  function SharesAtStop(equity: real, price: real, atr: Option<real>, adjusted: real): nat {
    PositiveStopHasPrice(price, atr);
    SharesFor(equity, price, StopPct(price, StopDistance(price, atr)), adjusted)
  }

  /** The budget the reductions leave of the base risk. */
  function AdjustedRisk(equity: real, r: Reductions): real {
    BaseRisk(equity) * Total(r)
  }

  /** The budget for given reductions. */
  function BudgetFor(equity: real, price: real, atr: Option<real>, r: Reductions): RiskBudget {
    if equity <= 0.0 then RiskBudget(0.0, Reductions(1.0, 1.0, 1.0, 1.0, 1.0), 0.0, None, 0.0, 0) else
    var shares := SharesAtStop(equity, price, atr, AdjustedRisk(equity, r));
    RiskBudget(BaseRisk(equity), r, if shares == 0 then 0.0 else AdjustedRisk(equity, r), StopDistance(price, atr),
               NotionalCeiling(equity), shares)
  }

  method ApplyReductions(checks: seq<Check>) returns (r: Reductions)
    ensures r == Accumulated(checks)
  {
    var confidence, volatility, liquidity, concentration, exposure := 1.0, 1.0, 1.0, 1.0, 1.0;
    var i := 0;
    while i < |checks|
      invariant 0 <= i <= |checks|
      invariant Reductions(confidence, volatility, liquidity, concentration, exposure) == Accumulated(checks[..i])
    {
      assert checks[..i + 1][..i] == checks[..i];
      var c := checks[i];
      if c.SoftFail? {
        match c.reason {
          case ConfidenceReduction => confidence := c.factor;
          case VolatilityReduction => volatility := c.factor;
          case LiquidityReduction => liquidity := c.factor;
          case SymbolConcentration => concentration := c.factor;
          case GrossExposure => exposure := Min(exposure, c.factor);
          case NetExposure => exposure := Min(exposure, c.factor);
          case MaxPositions => exposure := Min(exposure, c.factor);
          case _ =>
        }
      }
      i := i + 1;
    }
    assert checks[..|checks|] == checks;
    r := Reductions(confidence, volatility, liquidity, concentration, exposure);
  }

  method ComputeBudget(ctx: RiskContext, checks: seq<Check>) returns (b: RiskBudget)
    ensures b == BudgetFor(ctx.equity, ctx.price, ctx.atr, Accumulated(checks))
  {
    if ctx.equity <= 0.0 {
      return RiskBudget(0.0, Reductions(1.0, 1.0, 1.0, 1.0, 1.0), 0.0, None, 0.0, 0);
    }
    hide AdjustedRisk, Accumulated, BaseRisk, NotionalCeiling;
    var base := BaseRisk(ctx.equity);
    var r := ApplyReductions(checks);
    var adjusted := AdjustedRisk(ctx.equity, r);
    var stop := StopDistance(ctx.price, ctx.atr);
    PositiveStopHasPrice(ctx.price, ctx.atr);
    var pct := StopPct(ctx.price, stop);
    hide StopPct, StopDistance, Min, Truncate;
    var notional := Min(adjusted / pct, NotionalCeiling(ctx.equity));
    var shares := if ctx.price > 0.0 then Truncate(notional / ctx.price) else 0;
    if shares < 0 {
      shares := 0;
    }
    if shares == 0 {
      adjusted := 0.0;
    }
    b := RiskBudget(base, r, adjusted, stop, NotionalCeiling(ctx.equity), shares);
  }

  // ---- Decision --------------------------------------------------------------

  datatype RiskEvaluation = RiskEvaluation(decision: Decision, reason: Reason, budget: Option<RiskBudget>)

  function FirstHard(checks: seq<Check>): Reason
    requires HasHardFail(checks)
  {
    if checks[0].HardFail? then checks[0].reason
    else
      assert exists i :: 0 <= i < |checks[1..]| && checks[1..][i].HardFail? by {
        var j :| 0 <= j < |checks| && checks[j].HardFail?;
        assert checks[1..][j - 1].HardFail?;
      }
      FirstHard(checks[1..])
  }

  function FirstSoft(checks: seq<Check>): Reason {
    if checks == [] then WithinLimits
    else if checks[0].SoftFail? then checks[0].reason
    else FirstSoft(checks[1..])
  }

  function Decide(checks: seq<Check>, budget: RiskBudget): RiskEvaluation {
    if HasHardFail(checks) then RiskEvaluation(REJECTED, FirstHard(checks), None)
    else if budget.adjusted <= 0.0 || budget.shares == 0 then RiskEvaluation(REJECTED, CalculationFailure, Some(budget))
    else if HasSoftFail(checks) then RiskEvaluation(REDUCED, FirstSoft(checks), Some(budget))
    else RiskEvaluation(APPROVED, WithinLimits, Some(budget))
  }

  /** The whole evaluation of a context. */
  function Evaluation(ctx: RiskContext): RiskEvaluation {
    Decide(AllChecks(ctx), BudgetFor(ctx.equity, ctx.price, ctx.atr, Accumulated(AllChecks(ctx))))
  }

  method Evaluate(ctx: RiskContext) returns (e: RiskEvaluation)
    ensures e == Evaluation(ctx)
  {
    var checks := EvaluateAll(ctx);
    var budget := ComputeBudget(ctx, checks);
    e := Decide(checks, budget);
  }
}
