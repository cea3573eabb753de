/** The limits of the constitution as conditions on dollars and shares, and the reason an evaluation gives (M4). */
module RiskLimits {
  import opened Arithmetic
  import opened Wrappers
  import opened RiskConstitution
  import opened RiskRules
  import opened RiskProperties
  import opened RiskExposure

  // ---- The hard gates -------------------------------------------------------------------

  predicate ThesisUsable(t: Thesis) {
    t.symbol != "" && t.hasDirection && t.confidence > 0.0 && t.confidence <= 1.0
  }

  /** No crossed or empty quote, and a spread of at most 5% of the mid. */
  predicate QuoteUsable(ctx: RiskContext) {
    ctx.bid.Some? && ctx.ask.Some? ==>
      0.0 < ctx.bid.value <= ctx.ask.value && 40.0 * (ctx.ask.value - ctx.bid.value) <= ctx.bid.value + ctx.ask.value
  }

  /** The session has not lost more than 3% of the equity it started with. */
  predicate SessionHolds(s: RiskState) {
    s.sessionStartEquity > 0.0 ==> s.dailyPnl >= -0.03 * s.sessionStartEquity
  }

  /** At least 90% of the highest equity is left. */
  predicate EquityHolds(s: RiskState) {
    s.peakEquity > 0.0 ==> s.currentEquity >= 0.90 * s.peakEquity
  }

  lemma SessionIs(s: RiskState)
    ensures DailyReturn(s) >= -0.03 <==> SessionHolds(s)
    ensures Drawdown(s) <= 0.10 <==> EquityHolds(s)
  {
    if s.sessionStartEquity > 0.0 {
      QuotientCompare(s.dailyPnl, s.sessionStartEquity, -0.03);
    }
    if s.peakEquity > 0.0 {
      QuotientCompare(s.peakEquity - s.currentEquity, s.peakEquity, 0.10);
    }
  }

  lemma PriceIs(ctx: RiskContext)
    ensures PriceValid(ctx) <==> ctx.price > 0.0 && QuoteUsable(ctx)
  {
    if ctx.bid.Some? && ctx.ask.Some? && ctx.bid.value > 0.0 && ctx.ask.value > 0.0 {
      QuotientCompare(ctx.ask.value - ctx.bid.value, (ctx.bid.value + ctx.ask.value) / 2.0, 0.05);
    }
  }

  /** Every gate is open exactly for a usable thesis with a confidence of at least 60%, a price and a usable quote, the
      switch off, and losses within 3% of the session's and 10% of the highest equity. */
  lemma GatesOpenIff(ctx: RiskContext)
    ensures GatesOpen(ctx) <==>
              && !ctx.state.killSwitch && !ctx.thesis.committeeNoTrade
              && ctx.thesis.symbol != "" && ctx.thesis.hasDirection && 0.60 <= ctx.thesis.confidence <= 1.0
              && ctx.price > 0.0 && QuoteUsable(ctx) && SessionHolds(ctx.state) && EquityHolds(ctx.state)
  {
    SessionIs(ctx.state);
    PriceIs(ctx);
    hide DailyReturn, Drawdown, PriceValid, QuoteUsable, SessionHolds, EquityHolds;
  }

  // ---- The soft limits --------------------------------------------------------------------

  /** The position found for a symbol is the first one in it. */
  lemma {:induction false} PositionInIsFirst(positions: seq<Position>, symbol: string)
    ensures var r := PositionIn(positions, symbol);
            if r.None? then forall i :: 0 <= i < |positions| ==> positions[i].symbol != symbol
            else exists i :: 0 <= i < |positions| && positions[i] == r.value && r.value.symbol == symbol
                             && forall j :: 0 <= j < i ==> positions[j].symbol != symbol
  {
    if positions != [] && positions[0].symbol != symbol {
      var rest := positions[1..];
      PositionInIsFirst(rest, symbol);
      var r := PositionIn(rest, symbol);
      if r.Some? {
        var i :| 0 <= i < |rest| && rest[i] == r.value && forall j :: 0 <= j < i ==> rest[j].symbol != symbol;
        assert positions[i + 1] == r.value;
        forall j | 0 <= j < i + 1 ensures positions[j].symbol != symbol {
          assert j > 0 ==> positions[j] == rest[j - 1];
        }
      }
    }
  }

  /** A factor that falls linearly from one, down to a half. */
  function Falling(cut: real): real {
    if cut <= 0.5 then 1.0 - cut else 0.5
  }

  /** What the thesis itself leaves of the budget: 75% below a confidence of 80%, half a percent less for every percent
      of volatility above 3%, and the share a dollar volume is of a million, the last two never below half. */
  lemma OwnFactors(ctx: RiskContext)
    ensures Factor(ConfidenceCheck(ctx)) == if ctx.thesis.confidence < 0.80 then 0.75 else 1.0
    ensures Factor(VolatilityCheck(ctx))
         == if ctx.volatility.Some? && ctx.volatility.value > 0.03 then Falling((ctx.volatility.value - 0.03) / 2.0)
            else 1.0
    ensures Factor(LiquidityCheck(ctx))
         == if ctx.dollarVolume.Some? && ctx.dollarVolume.value < 1000000.0
            then Falling(1.0 - ctx.dollarVolume.value / 1000000.0) else 1.0
    ensures ConfidenceCheck(ctx).SoftFail? <==> ctx.thesis.confidence < 0.80
    ensures VolatilityCheck(ctx).SoftFail? <==> ctx.volatility.Some? && ctx.volatility.value > 0.03
    ensures LiquidityCheck(ctx).SoftFail? <==> ctx.dollarVolume.Some? && ctx.dollarVolume.value < 1000000.0
  {
  }

  /** What is held in the symbol already, as the rule sees it. */
  function HeldValue(ctx: RiskContext): real {
    var p := PositionIn(ctx.positions, ctx.thesis.symbol);
    if p.None? then 0.0 else p.value.marketValue
  }

  /** What the book leaves of the budget: one percent less for every tenth of a percent of equity held in the symbol
      above 2.5%, one for every percent of gross exposure above 80%, two for every percent of net exposure above 40%,
      none of them below half, and half from eight positions on. */
  lemma BookFactors(ctx: RiskContext)
    requires ctx.equity > 0.0
    ensures ConcentrationCheck(ctx).SoftFail? <==> HeldValue(ctx) > 0.025 * ctx.equity
    ensures ConcentrationCheck(ctx).SoftFail? ==>
              Factor(ConcentrationCheck(ctx)) == Falling(10.0 * (HeldValue(ctx) / ctx.equity - 0.025))
    ensures GrossCheck(ctx).SoftFail? <==> Gross(ctx.positions) > 0.8 * ctx.equity
    ensures GrossCheck(ctx).SoftFail? ==>
              Factor(GrossCheck(ctx)) == Falling((Gross(ctx.positions) - 0.8 * ctx.equity) / ctx.equity)
    ensures var net := Gross(OfSide(ctx.positions, Long)) - Gross(OfSide(ctx.positions, Short));
            && (NetCheck(ctx).SoftFail? <==> Abs(net) > 0.4 * ctx.equity)
            && (NetCheck(ctx).SoftFail? ==>
                  Factor(NetCheck(ctx)) == Falling((Abs(net) - 0.4 * ctx.equity) / (0.5 * ctx.equity)))
    ensures PositionsCheck(ctx).SoftFail? <==> |ctx.positions| >= 8
    ensures PositionsCheck(ctx).SoftFail? ==> Factor(PositionsCheck(ctx)) == 0.5
  {
    NetIsDifference(ctx.positions);
    ConcentrationIs(ctx);
    ExposureIs(ctx.equity, Gross(ctx.positions), MaxGrossExposure(ctx.equity), GrossExposure);
    ExposureIs(ctx.equity, Abs(Net(ctx.positions)), MaxNetExposure(ctx.equity), NetExposure);
    hide Net, Gross, PositionIn, ConcentrationCheck, ExposureCheck, Falling, Factor, HeldValue;
  }

  lemma ConcentrationIs(ctx: RiskContext)
    requires ctx.equity > 0.0
    ensures ConcentrationCheck(ctx).SoftFail? <==> HeldValue(ctx) > 0.025 * ctx.equity
    ensures ConcentrationCheck(ctx).SoftFail? ==>
              Factor(ConcentrationCheck(ctx)) == Falling(10.0 * (HeldValue(ctx) / ctx.equity - 0.025))
  {
    QuotientCompare(HeldValue(ctx), ctx.equity, 0.025);
    hide PositionIn;
  }

  lemma ExposureIs(equity: real, exposure: real, limit: real, reason: Reason)
    requires equity > 0.0 && limit > 0.0
    ensures var c := ExposureCheck(equity, exposure, limit, reason);
            && (c.SoftFail? <==> exposure > 0.8 * limit)
            && (c.SoftFail? ==> Factor(c) == Falling((exposure - 0.8 * limit) / limit))
  {
  }

  /** Without equity no rule on the book applies. */
  lemma NoEquityNoBookRules(ctx: RiskContext)
    requires ctx.equity <= 0.0
    ensures ConcentrationCheck(ctx) == GrossCheck(ctx) == NetCheck(ctx) == Passed
  {
  }

  // ---- The reason --------------------------------------------------------------------------

  lemma {:induction false} FirstHardIs(checks: seq<Check>, i: nat)
    requires i < |checks| && checks[i].HardFail? && forall j :: 0 <= j < i ==> !checks[j].HardFail?
    ensures HasHardFail(checks) && FirstHard(checks) == checks[i].reason
  {
    if i > 0 {
      FirstHardIs(checks[1..], i - 1);
    }
  }

  lemma {:induction false} FirstSoftIs(checks: seq<Check>, i: nat)
    requires i < |checks| && checks[i].SoftFail? && forall j :: 0 <= j < i ==> !checks[j].SoftFail?
    ensures FirstSoft(checks) == checks[i].reason
  {
    if i > 0 {
      FirstSoftIs(checks[1..], i - 1);
    }
  }

  /** A rejection by a gate names the first one that is closed. */
  lemma RejectionReason(ctx: RiskContext)
    requires !GatesOpen(ctx)
    ensures Evaluation(ctx).reason
         == if ctx.state.killSwitch then KillSwitchActive
            else if ctx.thesis.committeeNoTrade then M3NoTrade
            else if !ThesisUsable(ctx.thesis) then InvalidThesis
            else if ctx.price <= 0.0 then PoorDataQuality
            else if ctx.thesis.confidence < 0.60 then LowCommitteeConfidence
            else if !QuoteUsable(ctx) then InvalidPrice
            else if !SessionHolds(ctx.state) then DailyLossLimit
            else MaxDrawdown
  {
    SessionIs(ctx.state);
    PriceIs(ctx);
    HardFailMeans(ctx);
    hide DailyReturn, Drawdown, PriceValid, QuoteUsable, SessionHolds, EquityHolds, FirstHard, SoftChecks;
    var h := HardChecks(ctx);
    var i := if ctx.state.killSwitch then 0
             else if ctx.thesis.committeeNoTrade then 1
             else if !ThesisUsable(ctx.thesis) then 2
             else if ctx.price <= 0.0 then 3
             else if ctx.thesis.confidence < 0.60 then 4
             else if !QuoteUsable(ctx) then 5
             else if !SessionHolds(ctx.state) then 6
             else 7;
    FirstHardIs(h, i);
  }

  /** A reduction names the first soft limit that is exceeded. */
  lemma ReductionReason(ctx: RiskContext)
    requires Evaluation(ctx).decision == REDUCED
    ensures Evaluation(ctx).reason
         == if VolatilityCheck(ctx).SoftFail? then VolatilityReduction
            else if LiquidityCheck(ctx).SoftFail? then LiquidityReduction
            else if ConfidenceCheck(ctx).SoftFail? then ConfidenceReduction
            else if ConcentrationCheck(ctx).SoftFail? then SymbolConcentration
            else if GrossCheck(ctx).SoftFail? then GrossExposure
            else if NetCheck(ctx).SoftFail? then NetExposure
            else MaxPositions
  {
    SoftReasons(ctx);
    AllChecksMeans(ctx);
    hide VolatilityCheck, LiquidityCheck, ConfidenceCheck, ConcentrationCheck, GrossCheck, NetCheck, PositionsCheck;
    hide BudgetFor, Accumulated, PriceValid, ThesisValid, DailyReturn, Drawdown, FirstSoft, FirstHard;
    var h, s, all := HardChecks(ctx), SoftChecks(ctx), AllChecks(ctx);
    assert forall i :: 0 <= i < |h| ==> !h[i].SoftFail?;
    var i := if s[0].SoftFail? then 0 else if s[1].SoftFail? then 1 else if s[2].SoftFail? then 2
             else if s[3].SoftFail? then 3 else if s[4].SoftFail? then 4 else if s[5].SoftFail? then 5 else 6;
    assert all == h + s && |h| == 8;
    assert s[i].SoftFail?;
    FirstSoftIs(all, 8 + i);
  }

  // ---- The amounts ------------------------------------------------------------------------

  /** The stop is twice the average range, but at least 2% and at most 10% of the price. */
  lemma StopIsTwiceTheRange(price: real, atr: real)
    requires price > 0.0 && atr > 0.0
    ensures StopDistance(price, Some(atr))
         == Some(if 2.0 * atr < 0.02 * price then 0.02 * price
                 else if 2.0 * atr > 0.10 * price then 0.10 * price else 2.0 * atr)
  {
  }

  /** One percent of equity, cut by five factors. */
  function CutRisk(equity: real, a: real, b: real, c: real, d: real, e: real): real {
    equity * 0.01 * (a * b * c * d * e)
  }

  lemma AdjustedIsCut(equity: real, r: Reductions)
    ensures AdjustedRisk(equity, r)
         == CutRisk(equity, r.confidence, r.volatility, r.liquidity, r.concentration, r.exposure)
  {
  }

  /** What an accepted evaluation puts at risk: 1% of equity, times the four factors of the thesis and the symbol and
      the smallest of the three on the book; and the largest position is 10% of equity. */
  lemma AmountAtRisk(ctx: RiskContext)
    requires Evaluation(ctx).decision != REJECTED
    ensures Evaluation(ctx).budget.Some?
    ensures var b := Evaluation(ctx).budget.value;
            var book := Min(Min(Factor(GrossCheck(ctx)), Factor(NetCheck(ctx))), Factor(PositionsCheck(ctx)));
            && b.adjusted == CutRisk(ctx.equity, Factor(ConfidenceCheck(ctx)), Factor(VolatilityCheck(ctx)),
                                     Factor(LiquidityCheck(ctx)), Factor(ConcentrationCheck(ctx)), book)
            && b.base == ctx.equity * 0.01 && b.maxNotional == ctx.equity * 0.10
  {
    EvaluationBounds(ctx);
    AdjustedIsCut(ctx.equity, ContextReductions(ctx));
    hide Evaluation, VolatilityCheck, LiquidityCheck, ConfidenceCheck, ConcentrationCheck, GrossCheck, NetCheck;
    hide PositionsCheck, Factor, StopDistance, UsedStop, SharesAtStop, Min, AdjustedRisk, CutRisk;
  }

  // ---- The shares ---------------------------------------------------------------------------

  lemma WholeShares(notional: real, price: real)
    requires price > 0.0 && notional >= 0.0
    ensures var n := Truncate(notional / price); n >= 0 && n as real * price <= notional < (n as real + 1.0) * price
  {
    QuotientCompare(notional, price, 0.0);
    var n := Truncate(notional / price);
    assert n as real <= notional / price < n as real + 1.0;
    QuotientCompare(notional, price, n as real);
    QuotientCompare(notional, price, n as real + 1.0);
  }

  /** So many units fit a ceiling on their worth and an amount at risk at the stop, and one more would not. */
  ghost predicate Largest(n: real, price: real, stop: real, ceiling: real, risk: real) {
    n * price <= ceiling && n * stop <= risk && ((n + 1.0) * price > ceiling || (n + 1.0) * stop > risk)
  }

  lemma LossAt(n: real, price: real, pct: real, stop: real, adjusted: real)
    requires pct > 0.0 && stop == pct * price
    ensures n * price <= adjusted / pct <==> n * stop <= adjusted
  {
    QuotientCompare(adjusted, pct, n * price);
    assert n * price * pct == n * stop;
  }

  lemma MostUnits(n: real, price: real, pct: real, stop: real, ceiling: real, adjusted: real)
    requires pct > 0.0 && stop == pct * price
    requires n * price <= Min(adjusted / pct, ceiling) < (n + 1.0) * price
    ensures Largest(n, price, stop, ceiling, adjusted)
  {
    LossAt(n, price, pct, stop, adjusted);
    LossAt(n + 1.0, price, pct, stop, adjusted);
  }

  lemma MostShares(equity: real, price: real, pct: real, adjusted: real, stop: real)
    requires equity > 0.0 && price > 0.0 && pct > 0.0 && adjusted > 0.0 && stop == pct * price
    ensures Largest(SharesFor(equity, price, pct, adjusted) as real, price, stop, NotionalCeiling(equity), adjusted)
  {
    var notional := Min(adjusted / pct, NotionalCeiling(equity));
    QuotientCompare(adjusted, pct, 0.0);
    assert NotionalCeiling(equity) > 0.0;
    hide NotionalCeiling, Largest;
    WholeShares(notional, price);
    assert SharesFor(equity, price, pct, adjusted) == Truncate(notional / price);
    hide SharesFor, Truncate, Min;
    MostUnits(Truncate(notional / price) as real, price, pct, stop, NotionalCeiling(equity), adjusted);
  }

  /** The number of shares is the largest that fits: their worth is within the ceiling and their loss at the stop
      within the amount at risk, and with one more share one of the two would not be. */
  lemma SharesAreMaximal(equity: real, price: real, atr: Option<real>, adjusted: real)
    requires equity > 0.0 && price > 0.0 && adjusted > 0.0
    ensures Largest(SharesAtStop(equity, price, atr, adjusted) as real, price,
                    UsedStop(price, StopDistance(price, atr)), 0.10 * equity, adjusted)
  {
    PositiveStopHasPrice(price, atr);
    var stop := StopDistance(price, atr);
    UsedStopIsShare(price, stop);
    var pct := StopPct(price, stop);
    hide StopPct, StopDistance, UsedStop, SharesFor, Largest;
    MostShares(equity, price, pct, adjusted, UsedStop(price, stop));
    assert NotionalCeiling(equity) == 0.10 * equity;
  }

  /** The cut risk of a context. */
  ghost function RiskLeft(ctx: RiskContext): real {
    AdjustedRisk(ctx.equity, ContextReductions(ctx))
  }

  /** An evaluation is accepted exactly when the gates are open, there is equity, and a single share is worth at most
      10% of it and loses at the stop at most what the reductions leave of the risk. */
  lemma AcceptedIff(ctx: RiskContext)
    ensures Evaluation(ctx).decision != REJECTED <==>
              && GatesOpen(ctx) && ctx.equity > 0.0
              && ctx.price <= 0.10 * ctx.equity
              && UsedStop(ctx.price, StopDistance(ctx.price, ctx.atr)) <= RiskLeft(ctx)
  {
    EvaluationMeans(ctx);
    ContextReductionsInRange(ctx);
    hide Evaluation, ContextReductions, AdjustedRisk, SharesAtStop, UsedStop, StopDistance, PriceValid, ThesisValid;
    hide Largest;
    if GatesOpen(ctx) && ctx.equity > 0.0 {
      GatesOpenIff(ctx);
      AdjustedBounds(ctx.equity, ContextReductions(ctx));
      SharesAreMaximal(ctx.equity, ctx.price, ctx.atr, RiskLeft(ctx));
      OneShareFits(SharesAtStop(ctx.equity, ctx.price, ctx.atr, RiskLeft(ctx)) as real, ctx.price,
                   UsedStop(ctx.price, StopDistance(ctx.price, ctx.atr)), 0.10 * ctx.equity, RiskLeft(ctx));
      StopPositive(ctx.price, ctx.atr);
    }
  }

  lemma StopPositive(price: real, atr: Option<real>)
    ensures price > 0.0 ==> UsedStop(price, StopDistance(price, atr)) > 0.0
  {
  }

  lemma OneShareFits(n: real, price: real, stop: real, ceiling: real, risk: real)
    requires price > 0.0 && (n == 0.0 || n >= 1.0)
    requires Largest(n, price, stop, ceiling, risk)
    ensures stop > 0.0 ==> (n >= 1.0 <==> price <= ceiling && stop <= risk)
  {
    if n >= 1.0 && stop > 0.0 {
      TimesMonotone(1.0, n, price);
      TimesMonotone(1.0, n, stop);
    }
  }

  /** What comes with each outcome: nothing named within the limits, and a budget of nothing when the gates are open but
      no share fits. */
  lemma OutcomeReasons(ctx: RiskContext)
    ensures Evaluation(ctx).decision == APPROVED ==> Evaluation(ctx).reason == WithinLimits
    ensures GatesOpen(ctx) && Evaluation(ctx).decision == REJECTED ==>
              && Evaluation(ctx).reason == CalculationFailure && Evaluation(ctx).budget.Some?
              && Evaluation(ctx).budget.value.adjusted == 0.0 && Evaluation(ctx).budget.value.shares == 0
  {
    AllChecksMeans(ctx);
    EvaluationMeans(ctx);
    ContextReductionsInRange(ctx);
    if ctx.equity > 0.0 {
      AdjustedBounds(ctx.equity, ContextReductions(ctx));
    }
    hide AllChecks, ContextReductions, AdjustedRisk, SharesAtStop, GatesOpen, StopDistance;
  }
}
