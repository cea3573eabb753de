/** Bounds, agreement and monotonicity of the risk evaluation. */
module RiskProperties {
  import opened Arithmetic
  import opened Wrappers
  import opened RiskConstitution
  import opened RiskRules

  // ---- What the loop over the checks adds up to ------------------------------

  const NO_REDUCTION := Reductions(1.0, 1.0, 1.0, 1.0, 1.0)

  /** Exposure takes the strictest of its three rules; the other four multiply. */
  ghost function ContextReductions(ctx: RiskContext): Reductions {
    if !GatesOpen(ctx) then NO_REDUCTION
    else Reductions(Factor(ConfidenceCheck(ctx)), Factor(VolatilityCheck(ctx)), Factor(LiquidityCheck(ctx)),
                    Factor(ConcentrationCheck(ctx)),
                    Min(Min(Factor(GrossCheck(ctx)), Factor(NetCheck(ctx))), Factor(PositionsCheck(ctx))))
  }

  lemma AccumulatedSnoc(s: seq<Check>, c: Check)
    ensures Accumulated(s + [c]) == WithCheck(Accumulated(s), c)
  {
    assert (s + [c])[..|s|] == s;
  }

  lemma {:induction false} AccumulatedHard(s: seq<Check>)
    requires forall i :: 0 <= i < |s| ==> !s[i].SoftFail?
    ensures Accumulated(s) == NO_REDUCTION
  {
    if s != [] {
      AccumulatedHard(s[..|s| - 1]);
    }
  }

  lemma AccumulatedPair(s: seq<Check>, a: Check, b: Check)
    ensures Accumulated(s + [a, b]) == WithCheck(WithCheck(Accumulated(s), a), b)
  {
    hide Accumulated, WithCheck;
    AccumulatedSnoc(s, a);
    AccumulatedSnoc(s + [a], b);
    assert s + [a, b] == (s + [a]) + [b];
  }

  /** A check that is soft only for one reason. */
  ghost predicate For(c: Check, reason: Reason) {
    (c.SoftFail? ==> c.reason == reason && c.factor <= 1.0) && !c.HardFail?
  }

  lemma AccumulatedFactors(h: seq<Check>, v: Check, l: Check, c: Check, s: Check)
    requires Accumulated(h) == NO_REDUCTION
    requires For(v, VolatilityReduction) && For(l, LiquidityReduction)
    requires For(c, ConfidenceReduction) && For(s, SymbolConcentration)
    ensures Accumulated((h + [v, l]) + [c, s]) == Reductions(Factor(c), Factor(v), Factor(l), Factor(s), 1.0)
  {
    AccumulatedPair(h, v, l);
    AccumulatedPair(h + [v, l], c, s);
  }

  lemma AccumulatedExposure(h: seq<Check>, r: Reductions, g: Check, n: Check, m: Check)
    requires Accumulated(h) == r && r.exposure == 1.0
    requires For(g, GrossExposure) && For(n, NetExposure) && For(m, MaxPositions)
    ensures Accumulated(((h + [g, n]) + [m, Passed]) + [Passed])
         == r.(exposure := Min(Min(Factor(g), Factor(n)), Factor(m)))
  {
    AccumulatedPair(h, g, n);
    AccumulatedPair(h + [g, n], m, Passed);
    AccumulatedSnoc((h + [g, n]) + [m, Passed], Passed);
  }

  lemma FactorRange(ctx: RiskContext)
    ensures forall c :: c in SoftChecks(ctx) && c.SoftFail? ==> 0.5 <= c.factor < 1.0
  {
    ExposureRange(ctx.equity, Gross(ctx.positions), MaxGrossExposure(ctx.equity), GrossExposure);
    ExposureRange(ctx.equity, Abs(Net(ctx.positions)), MaxNetExposure(ctx.equity), NetExposure);
  }

  lemma ExposureRange(equity: real, exposure: real, limit: real, reason: Reason)
    requires equity > 0.0 ==> limit > 0.0
    ensures var c := ExposureCheck(equity, exposure, limit, reason); c.SoftFail? ==> 0.5 <= c.factor < 1.0
  {
    if equity > 0.0 && exposure > ExposureStart(limit) {
      assert (exposure - ExposureStart(limit)) / limit > 0.0;
    }
  }

  lemma AccumulatedIsContextReductions(ctx: RiskContext)
    ensures Accumulated(AllChecks(ctx)) == ContextReductions(ctx)
  {
    HardFailMeans(ctx);
    AccumulatedHard(HardChecks(ctx));
    if GatesOpen(ctx) {
      SoftChecksSplit(HardChecks(ctx), VolatilityCheck(ctx), LiquidityCheck(ctx), ConfidenceCheck(ctx),
                      ConcentrationCheck(ctx), GrossCheck(ctx), NetCheck(ctx), PositionsCheck(ctx));
      SoftReasons(ctx);
    }
  }

  lemma SoftReasons(ctx: RiskContext)
    ensures For(VolatilityCheck(ctx), VolatilityReduction) && For(LiquidityCheck(ctx), LiquidityReduction)
    ensures For(ConfidenceCheck(ctx), ConfidenceReduction) && For(ConcentrationCheck(ctx), SymbolConcentration)
    ensures For(GrossCheck(ctx), GrossExposure) && For(NetCheck(ctx), NetExposure)
    ensures For(PositionsCheck(ctx), MaxPositions)
  {
    FactorRange(ctx);
    var s := SoftChecks(ctx);
    assert s[0] in s && s[1] in s && s[2] in s && s[3] in s && s[4] in s && s[5] in s && s[6] in s;
  }

  lemma SoftChecksSplit(h: seq<Check>, v: Check, l: Check, c: Check, s: Check, g: Check, n: Check, m: Check)
    requires Accumulated(h) == NO_REDUCTION
    ensures For(v, VolatilityReduction) && For(l, LiquidityReduction) && For(c, ConfidenceReduction)
            && For(s, SymbolConcentration) && For(g, GrossExposure) && For(n, NetExposure) && For(m, MaxPositions)
            ==>
            Accumulated(h + [v, l, c, s, g, n, m, Passed, Passed])
            == Reductions(Factor(c), Factor(v), Factor(l), Factor(s), Min(Min(Factor(g), Factor(n)), Factor(m)))
  {
    if For(v, VolatilityReduction) && For(l, LiquidityReduction) && For(c, ConfidenceReduction)
       && For(s, SymbolConcentration) && For(g, GrossExposure) && For(n, NetExposure) && For(m, MaxPositions) {
      hide Accumulated, Factor, Min;
      AccumulatedFactors(h, v, l, c, s);
      var four := (h + [v, l]) + [c, s];
      AccumulatedExposure(four, Accumulated(four), g, n, m);
      assert h + [v, l, c, s, g, n, m, Passed, Passed] == ((four + [g, n]) + [m, Passed]) + [Passed];
    }
  }

  // ---- Size of the reduction ---------------------------------------------------

  ghost predicate InRange(r: Reductions) {
    && 0.75 <= r.confidence <= 1.0 && 0.5 <= r.volatility <= 1.0 && 0.5 <= r.liquidity <= 1.0
    && 0.5 <= r.concentration <= 1.0 && 0.5 <= r.exposure <= 1.0
  }

  lemma ProductBounds(x: real, y: real, lx: real, ly: real)
    requires 0.0 <= lx <= x <= 1.0 && 0.0 <= ly <= y <= 1.0
    ensures lx * ly <= x * y <= 1.0
    ensures x * y == 1.0 <==> x == 1.0 && y == 1.0
  {
    assert x * y <= x * 1.0;
    assert lx * ly <= x * ly <= x * y;
    if x < 1.0 { assert x * y <= 1.0 * x; }
    if y < 1.0 { assert x * y <= 1.0 * y; }
  }

  lemma TotalBounds(r: Reductions)
    requires InRange(r)
    ensures 0.046875 <= Total(r) <= 1.0
    ensures Total(r) == 1.0 <==> r == NO_REDUCTION
  {
    ProductBounds(r.confidence, r.volatility, 0.75, 0.5);
    ProductBounds(r.confidence * r.volatility, r.liquidity, 0.375, 0.5);
    ProductBounds(r.confidence * r.volatility * r.liquidity, r.concentration, 0.1875, 0.5);
    ProductBounds(r.confidence * r.volatility * r.liquidity * r.concentration, r.exposure, 0.09375, 0.5);
  }

  lemma ContextReductionsInRange(ctx: RiskContext)
    ensures InRange(ContextReductions(ctx))
    ensures ContextReductions(ctx) == NO_REDUCTION <==> !HasSoftFail(AllChecks(ctx))
  {
    AllChecksMeans(ctx);
    var s := SoftChecks(ctx);
    FactorRange(ctx);
    assert s[0] in s && s[1] in s && s[2] in s && s[3] in s && s[4] in s && s[5] in s && s[6] in s;
    assert HasSoftFail(s) <==> s[0].SoftFail? || s[1].SoftFail? || s[2].SoftFail? || s[3].SoftFail?
                               || s[4].SoftFail? || s[5].SoftFail? || s[6].SoftFail?;
  }

  // ---- The budget ---------------------------------------------------------------

  ghost function BudgetOf(ctx: RiskContext): RiskBudget {
    BudgetFor(ctx.equity, ctx.price, ctx.atr, ContextReductions(ctx))
  }

  /** The evaluation in terms of the gates, the soft limits and the budget of the context. */
  lemma EvaluationMeans(ctx: RiskContext)
    ensures var e := Evaluation(ctx); var b := BudgetOf(ctx);
            if !GatesOpen(ctx) then e.decision == REJECTED && e.budget.None?
            else
              && e.budget == Some(b)
              && (e.decision == REJECTED <==> b.adjusted <= 0.0 || b.shares == 0)
              && (e.decision == APPROVED <==>
                    b.adjusted > 0.0 && b.shares > 0 && ContextReductions(ctx) == NO_REDUCTION)
  {
    AllChecksMeans(ctx);
    AccumulatedIsContextReductions(ctx);
    ContextReductionsInRange(ctx);
  }

  /** The stop the sizing works with: the ATR stop, or 2% of the price without one. */
  ghost function UsedStop(price: real, stop: Option<real>): real {
    if stop.Some? && stop.value > 0.0 then stop.value else MinStop(price)
  }

  lemma FloorBelow(x: real)
    ensures Truncate(x) > 0 ==> Truncate(x) as real <= x
  {
  }

  /** Whole shares at a price fit the notional they were cut from. */
  lemma SharesFit(notional: real, price: real)
    requires price > 0.0 && Truncate(notional / price) > 0
    ensures Truncate(notional / price) as real * price <= notional
  {
    var n := Truncate(notional / price) as real;
    FloorBelow(notional / price);
    assert n <= notional / price;
    assert n * price <= notional / price * price;
  }

  /** The position a positive budget buys: worth at most the ceiling, losing at most the budget at the stop. */
  lemma SharesBounds(equity: real, price: real, atr: Option<real>, adjusted: real)
    requires equity > 0.0 && adjusted > 0.0
    ensures var n := SharesAtStop(equity, price, atr, adjusted);
            && (n > 0 ==> price > 0.0)
            && n as real * price <= NotionalCeiling(equity)
            && n as real * UsedStop(price, StopDistance(price, atr)) <= adjusted
  {
    if price > 0.0 {
      PricedSharesBounds(equity, price, atr, adjusted);
    } else {
      NoSharesWithoutPrice(equity, price, atr, adjusted);
      assert NotionalCeiling(equity) > 0.0;
      hide SharesAtStop, UsedStop, StopDistance, NotionalCeiling;
    }
  }

  lemma NoSharesWithoutPrice(equity: real, price: real, atr: Option<real>, adjusted: real)
    ensures price <= 0.0 ==> SharesAtStop(equity, price, atr, adjusted) == 0
  {
    hide StopDistance, StopPct;
    PositiveStopHasPrice(price, atr);
  }

  lemma PricedSharesBounds(equity: real, price: real, atr: Option<real>, adjusted: real)
    requires equity > 0.0 && adjusted > 0.0 && price > 0.0
    ensures var n := SharesAtStop(equity, price, atr, adjusted);
            && n as real * price <= NotionalCeiling(equity)
            && n as real * UsedStop(price, StopDistance(price, atr)) <= adjusted
  {
    hide StopDistance, StopPct, UsedStop, SharesFor, NotionalCeiling;
    PositiveStopHasPrice(price, atr);
    var stop := StopDistance(price, atr);
    UsedStopIsShare(price, stop);
    SharesForBounds(equity, price, StopPct(price, stop), adjusted, UsedStop(price, stop));
  }

  lemma UsedStopIsShare(price: real, stop: Option<real>)
    requires stop.Some? && stop.value > 0.0 ==> price > 0.0
    ensures price > 0.0 ==> UsedStop(price, stop) == StopPct(price, stop) * price
  {
  }

  lemma SharesForBounds(equity: real, price: real, pct: real, adjusted: real, stop: real)
    requires equity > 0.0 && adjusted > 0.0 && price > 0.0 && pct > 0.0 && stop == pct * price
    ensures var n := SharesFor(equity, price, pct, adjusted);
            n as real * price <= NotionalCeiling(equity) && n as real * stop <= adjusted
  {
    var notional := Min(adjusted / pct, NotionalCeiling(equity));
    if Truncate(notional / price) > 0 {
      SharesFit(notional, price);
      StopLoss(Truncate(notional / price) as real, price, pct, adjusted, stop);
    }
  }

  /** What is left of the base risk: at least 4.6875% of it, and (below) all of it only without a reduction. */
  lemma AdjustedBounds(equity: real, r: Reductions)
    requires equity > 0.0 && InRange(r)
    ensures 0.0 < 0.046875 * BaseRisk(equity) <= AdjustedRisk(equity, r) <= BaseRisk(equity)
  {
    TotalBounds(r);
    var total := Total(r);
    hide Total, InRange;
    Scaled(BaseRisk(equity), total);
    assert AdjustedRisk(equity, r) == BaseRisk(equity) * total;
  }

  lemma AdjustedFull(equity: real, r: Reductions)
    requires equity > 0.0 && InRange(r)
    ensures AdjustedRisk(equity, r) == BaseRisk(equity) <==> r == NO_REDUCTION
  {
    TotalBounds(r);
    var total := Total(r);
    hide Total, InRange;
    Scaled(BaseRisk(equity), total);
    assert AdjustedRisk(equity, r) == BaseRisk(equity) * total;
  }

  /** A budget never exceeds its base, and its shares neither exceed a tenth of equity in value nor
      lose more than the budget at the stop, so the budget's own validators cannot fail. */
  lemma BudgetBounds(equity: real, price: real, atr: Option<real>, r: Reductions)
    requires InRange(r)
    ensures var b := BudgetFor(equity, price, atr, r);
            && 0.0 <= b.adjusted <= b.base && b.maxNotional >= 0.0
            && (b.shares > 0 ==> equity > 0.0 && price > 0.0 && b.adjusted > 0.0)
            && b.shares as real * price <= b.maxNotional
            && b.shares as real * UsedStop(price, b.stop) <= b.adjusted
  {
    hide AdjustedRisk, SharesAtStop, UsedStop;
    if equity > 0.0 {
      AdjustedBounds(equity, r);
      SharesBounds(equity, price, atr, AdjustedRisk(equity, r));
    }
  }

  lemma Scaled(base: real, total: real)
    requires base > 0.0 && 0.046875 <= total <= 1.0
    ensures 0.0 < 0.046875 * base <= base * total <= base
    ensures base * total == base <==> total == 1.0
  {
    assert base * 0.046875 <= base * total <= base * 1.0;
    if total < 1.0 {
      assert base * (1.0 - total) > 0.0;
    }
  }

  lemma StopLoss(n: real, price: real, pct: real, adjusted: real, stop: real)
    requires n > 0.0 && price > 0.0 && pct > 0.0 && stop == pct * price && n * price <= adjusted / pct
    ensures n * stop <= adjusted
  {
    assert n * stop == n * price * pct;
    assert n * price * pct <= adjusted / pct * pct;
  }

  /** With every gate open and at least one share, APPROVED means an untouched budget and REDUCED a
      budget cut by less than the largest possible total reduction. */
  lemma DecisionMatchesBudget(ctx: RiskContext)
    requires GatesOpen(ctx) && BudgetOf(ctx).shares > 0
    ensures var b := BudgetOf(ctx); var d := Evaluation(ctx).decision;
            && (d == APPROVED <==> b.adjusted == b.base)
            && (d == REDUCED <==> 0.046875 * b.base <= b.adjusted < b.base)
  {
    hide AdjustedRisk, SharesAtStop, ContextReductions, Evaluation, GatesOpen;
    EvaluationMeans(ctx);
    ContextReductionsInRange(ctx);
    BudgetBounds(ctx.equity, ctx.price, ctx.atr, ContextReductions(ctx));
    AdjustedBounds(ctx.equity, ContextReductions(ctx));
    AdjustedFull(ctx.equity, ContextReductions(ctx));
  }

  /** Every evaluation that is not rejected carries a budget within the constitution's limits. */
  lemma EvaluationBounds(ctx: RiskContext)
    requires Evaluation(ctx).decision != REJECTED
    ensures Evaluation(ctx).budget == Some(BudgetOf(ctx)) && GatesOpen(ctx)
    ensures var b := BudgetOf(ctx);
            && ctx.equity > 0.0 && ctx.price > 0.0 && b.shares > 0
            && 0.0 < b.adjusted <= BaseRisk(ctx.equity)
            && b.shares as real * ctx.price <= b.maxNotional == NotionalCeiling(ctx.equity)
            && b.shares as real * UsedStop(ctx.price, b.stop) <= b.adjusted
            && b.stop == StopDistance(ctx.price, ctx.atr)
  {
    hide AdjustedRisk, SharesAtStop, ContextReductions, Evaluation, GatesOpen, UsedStop, StopDistance;
    EvaluationMeans(ctx);
    ContextReductionsInRange(ctx);
    BudgetBounds(ctx.equity, ctx.price, ctx.atr, ContextReductions(ctx));
  }

  /** The sizing's stop is between 2% and 10% of the price. */
  lemma UsedStopRange(price: real, atr: Option<real>)
    requires price > 0.0
    ensures 0.02 * price <= UsedStop(price, StopDistance(price, atr)) <= 0.10 * price
  {
    PositiveStopHasPrice(price, atr);
  }

  // ---- Monotonicity ---------------------------------------------------------------

  /** Absent volatility and volume count as unproblematic. */
  ghost predicate NoLess(a: Option<real>, b: Option<real>) {
    a.Some? ==> b.Some? && a.value <= b.value
  }

  ghost predicate NoMore(a: Option<real>, b: Option<real>) {
    a.Some? ==> b.Some? && a.value >= b.value
  }

  /** `worse` is no better than `ctx` in any respect the rules look at, and equal in what sizes a position. */
  ghost predicate NoBetter(worse: RiskContext, ctx: RiskContext) {
    && worse.equity == ctx.equity && worse.price == ctx.price && worse.atr == ctx.atr
    && worse.bid == ctx.bid && worse.ask == ctx.ask
    && worse.thesis == ctx.thesis.(confidence := worse.thesis.confidence)
    && worse.thesis.confidence <= ctx.thesis.confidence <= 1.0
    && NoLess(ctx.volatility, worse.volatility) && NoMore(ctx.dollarVolume, worse.dollarVolume)
    && NoLess(SymbolShare(ctx), SymbolShare(worse))
    && Gross(ctx.positions) <= Gross(worse.positions) && Abs(Net(ctx.positions)) <= Abs(Net(worse.positions))
    && |ctx.positions| <= |worse.positions|
    && DailyReturn(worse.state) <= DailyReturn(ctx.state) && Drawdown(ctx.state) <= Drawdown(worse.state)
    && (ctx.state.killSwitch ==> worse.state.killSwitch)
  }

  ghost predicate NoLooser(a: Check, b: Check) {
    Factor(a) <= Factor(b) && (b.SoftFail? ==> a.SoftFail?)
  }

  lemma FlooredMonotone(factor: real, low: real, high: real)
    requires low <= high
    ensures Floored(factor, low) <= Floored(factor, high)
  {
  }

  lemma ExposureMonotone(equity: real, more: real, less: real, limit: real, reason: Reason)
    requires equity > 0.0 ==> limit > 0.0
    requires less <= more
    ensures NoLooser(ExposureCheck(equity, more, limit, reason), ExposureCheck(equity, less, limit, reason))
  {
    ExposureRange(equity, more, limit, reason);
    if equity > 0.0 {
      var start := ExposureStart(limit);
      hide ExposureStart, Floored;
      QuotientMonotone(less - start, more - start, limit);
      FlooredMonotone(EXPOSURE_FACTOR, 1.0 - (more - start) / limit, 1.0 - (less - start) / limit);
    }
  }

  lemma ChecksMonotone(worse: RiskContext, ctx: RiskContext)
    requires NoBetter(worse, ctx)
    ensures GatesOpen(worse) ==> GatesOpen(ctx)
    ensures forall i :: 0 <= i < |SoftChecks(ctx)| ==> NoLooser(SoftChecks(worse)[i], SoftChecks(ctx)[i])
  {
    GatesMonotone(worse, ctx);
    OwnChecksMonotone(worse, ctx);
    BookChecksMonotone(worse, ctx);
    hide NoBetter, NoLooser, GatesOpen, VolatilityCheck, LiquidityCheck, ConfidenceCheck, ConcentrationCheck;
    hide GrossCheck, NetCheck, PositionsCheck;
    PassedIsNoLooser();
  }

  lemma GatesMonotone(worse: RiskContext, ctx: RiskContext)
    requires NoBetter(worse, ctx)
    ensures GatesOpen(worse) ==> GatesOpen(ctx)
  {
    hide Gross, Net, SymbolShare, DailyReturn, Drawdown;
  }

  lemma OwnChecksMonotone(worse: RiskContext, ctx: RiskContext)
    requires NoBetter(worse, ctx)
    ensures NoLooser(VolatilityCheck(worse), VolatilityCheck(ctx))
    ensures NoLooser(LiquidityCheck(worse), LiquidityCheck(ctx))
    ensures NoLooser(ConfidenceCheck(worse), ConfidenceCheck(ctx))
    ensures NoLooser(ConcentrationCheck(worse), ConcentrationCheck(ctx))
  {
    SoftFactors(worse);
    hide Gross, Net, SymbolShare, DailyReturn, Drawdown;
  }

  /** The range of the factors, check by check. */
  lemma SoftFactors(ctx: RiskContext)
    ensures forall c ::
              c in {VolatilityCheck(ctx), LiquidityCheck(ctx), ConfidenceCheck(ctx), ConcentrationCheck(ctx)} ==>
              Factor(c) <= 1.0
  {
    FactorRange(ctx);
    var s := SoftChecks(ctx);
    assert s[0] in s && s[1] in s && s[2] in s && s[3] in s;
  }

  lemma BookChecksMonotone(worse: RiskContext, ctx: RiskContext)
    requires NoBetter(worse, ctx)
    ensures NoLooser(GrossCheck(worse), GrossCheck(ctx)) && NoLooser(NetCheck(worse), NetCheck(ctx))
    ensures NoLooser(PositionsCheck(worse), PositionsCheck(ctx))
  {
    hide ExposureCheck, Gross, Net, SymbolShare, DailyReturn, Drawdown;
    var equity := ctx.equity;
    ExposureMonotone(equity, Gross(worse.positions), Gross(ctx.positions), MaxGrossExposure(equity), GrossExposure);
    ExposureMonotone(equity, Abs(Net(worse.positions)), Abs(Net(ctx.positions)), MaxNetExposure(equity), NetExposure);
  }

  lemma PassedIsNoLooser()
    ensures NoLooser(Passed, Passed)
  {
  }

  lemma TotalMonotone(a: Reductions, b: Reductions)
    requires InRange(a) && InRange(b)
    requires a.confidence <= b.confidence && a.volatility <= b.volatility && a.liquidity <= b.liquidity
    requires a.concentration <= b.concentration && a.exposure <= b.exposure
    ensures Total(a) <= Total(b)
  {
    ProductMonotone(a.confidence, b.confidence, a.volatility, b.volatility);
    ProductMonotone(a.confidence * a.volatility, b.confidence * b.volatility, a.liquidity, b.liquidity);
    ProductMonotone(a.confidence * a.volatility * a.liquidity, b.confidence * b.volatility * b.liquidity,
                    a.concentration, b.concentration);
    ProductMonotone(a.confidence * a.volatility * a.liquidity * a.concentration,
                    b.confidence * b.volatility * b.liquidity * b.concentration, a.exposure, b.exposure);
  }

  lemma AdjustedMonotone(equity: real, a: Reductions, b: Reductions)
    requires equity > 0.0 && InRange(a) && InRange(b)
    requires a.confidence <= b.confidence && a.volatility <= b.volatility && a.liquidity <= b.liquidity
    requires a.concentration <= b.concentration && a.exposure <= b.exposure
    ensures AdjustedRisk(equity, a) <= AdjustedRisk(equity, b)
  {
    TotalMonotone(a, b);
    TotalBounds(a);
    hide Total;
    ProductMonotone(BaseRisk(equity), BaseRisk(equity), Total(a), Total(b));
  }

  lemma SharesMonotone(equity: real, price: real, atr: Option<real>, less: real, more: real)
    requires less <= more
    ensures SharesAtStop(equity, price, atr, less) <= SharesAtStop(equity, price, atr, more)
  {
    PositiveStopHasPrice(price, atr);
    var pct := StopPct(price, StopDistance(price, atr));
    QuotientMonotone(less, more, pct);
    if price > 0.0 {
      QuotientMonotone(Min(less / pct, NotionalCeiling(equity)),
                       Min(more / pct, NotionalCeiling(equity)), price);
    }
  }

  lemma BudgetMonotone(equity: real, price: real, atr: Option<real>, a: Reductions, b: Reductions)
    requires InRange(a) && InRange(b)
    requires equity > 0.0 ==> AdjustedRisk(equity, a) <= AdjustedRisk(equity, b)
    ensures BudgetFor(equity, price, atr, a).shares <= BudgetFor(equity, price, atr, b).shares
    ensures BudgetFor(equity, price, atr, a).adjusted <= BudgetFor(equity, price, atr, b).adjusted
  {
    hide AdjustedRisk, SharesAtStop;
    if equity > 0.0 {
      AdjustedBounds(equity, a);
      AdjustedBounds(equity, b);
      SharesMonotone(equity, price, atr, AdjustedRisk(equity, a), AdjustedRisk(equity, b));
    }
  }

  function Rank(d: Decision): nat {
    match d
    case REJECTED => 0
    case REDUCED => 1
    case APPROVED => 2
  }

  ghost function UsableBudget(e: RiskEvaluation): real {
    if e.budget.Some? then e.budget.value.adjusted else 0.0
  }

  ghost function UsableShares(e: RiskEvaluation): nat {
    if e.budget.Some? then e.budget.value.shares else 0
  }

  /** No worsening of confidence, volatility, volume, concentration, exposure, position count, daily
      return, drawdown or kill switch ever improves the decision or enlarges the budget or the position. */
  lemma RiskMonotone(worse: RiskContext, ctx: RiskContext)
    requires NoBetter(worse, ctx)
    ensures Rank(Evaluation(worse).decision) <= Rank(Evaluation(ctx).decision)
    ensures UsableBudget(Evaluation(worse)) <= UsableBudget(Evaluation(ctx))
    ensures UsableShares(Evaluation(worse)) <= UsableShares(Evaluation(ctx))
  {
    ChecksMonotone(worse, ctx);
    EvaluationMeans(worse);
    EvaluationMeans(ctx);
    ContextReductionsInRange(worse);
    ContextReductionsInRange(ctx);
    BudgetBounds(ctx.equity, ctx.price, ctx.atr, ContextReductions(ctx));
    hide ContextReductions, GatesOpen, Evaluation, AdjustedRisk, SharesAtStop;
    if GatesOpen(worse) {
      ReductionsMonotone(worse, ctx);
      if ctx.equity > 0.0 {
        AdjustedMonotone(ctx.equity, ContextReductions(worse), ContextReductions(ctx));
      }
      BudgetMonotone(ctx.equity, ctx.price, ctx.atr, ContextReductions(worse), ContextReductions(ctx));
    }
  }

  lemma ReductionsMonotone(worse: RiskContext, ctx: RiskContext)
    requires NoBetter(worse, ctx) && GatesOpen(worse)
    ensures var a, b := ContextReductions(worse), ContextReductions(ctx);
            && a.confidence <= b.confidence && a.volatility <= b.volatility && a.liquidity <= b.liquidity
            && a.concentration <= b.concentration && a.exposure <= b.exposure
            && (b != NO_REDUCTION ==> a != NO_REDUCTION)
  {
    ChecksMonotone(worse, ctx);
    ContextReductionsInRange(worse);
    ContextReductionsInRange(ctx);
    var s, t := SoftChecks(worse), SoftChecks(ctx);
    assert NoLooser(s[0], t[0]) && NoLooser(s[1], t[1]) && NoLooser(s[2], t[2]) && NoLooser(s[3], t[3]);
    assert NoLooser(s[4], t[4]) && NoLooser(s[5], t[5]) && NoLooser(s[6], t[6]);
  }
}
