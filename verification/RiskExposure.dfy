/** Gross and net exposure of a book of positions, and what the exposure rules make of them (M4). */
module RiskExposure {
  import opened Arithmetic
  import opened RiskRules
  import opened RiskProperties

  function Flipped(p: Position): Position {
    p.(side := if p.side.Long? then Short else Long)
  }

  /** The book with every side turned around. */
  function Reverse(positions: seq<Position>): (r: seq<Position>)
    ensures |r| == |positions|
  {
    if positions == [] then [] else [Flipped(positions[0])] + Reverse(positions[1..])
  }

  /** The positions of one side. */
  function OfSide(positions: seq<Position>, side: PositionSide): seq<Position> {
    if positions == [] then []
    else (if positions[0].side == side then [positions[0]] else []) + OfSide(positions[1..], side)
  }

  /** Net exposure is what the longs are worth less what the shorts are worth; gross exposure is both together. */
  lemma {:induction false} NetIsDifference(positions: seq<Position>)
    ensures Net(positions) == Gross(OfSide(positions, Long)) - Gross(OfSide(positions, Short))
    ensures Gross(positions) == Gross(OfSide(positions, Long)) + Gross(OfSide(positions, Short))
  {
    if positions != [] {
      NetIsDifference(positions[1..]);
      var longs, shorts := OfSide(positions[1..], Long), OfSide(positions[1..], Short);
      assert ([positions[0]] + longs)[1..] == longs && ([positions[0]] + shorts)[1..] == shorts;
      assert [] + longs == longs && [] + shorts == shorts;
    }
  }

  lemma {:induction false} ExposuresAdd(a: seq<Position>, b: seq<Position>)
    ensures Net(a + b) == Net(a) + Net(b) && Gross(a + b) == Gross(a) + Gross(b)
  {
    if a == [] {
      assert a + b == b;
    } else {
      assert (a + b)[1..] == a[1..] + b;
      ExposuresAdd(a[1..], b);
    }
  }

  /** Turning every side around negates the net and keeps the gross. */
  lemma {:induction false} ReverseNegatesNet(positions: seq<Position>)
    ensures Net(Reverse(positions)) == -Net(positions) && Gross(Reverse(positions)) == Gross(positions)
  {
    if positions != [] {
      ReverseNegatesNet(positions[1..]);
      assert Reverse(positions)[1..] == Reverse(positions[1..]);
    }
  }

  /** A book on one side is exposed by all of it. */
  lemma {:induction false} OneSidedNetIsGross(positions: seq<Position>, side: PositionSide)
    requires forall p :: p in positions ==> p.side == side
    ensures Net(positions) == if side.Long? then Gross(positions) else -Gross(positions)
  {
    if positions != [] {
      assert positions[0] in positions;
      OneSidedNetIsGross(positions[1..], side);
    }
  }

  /** Net exposure never exceeds gross exposure when no market value is negative. */
  lemma {:induction false} NetWithinGross(positions: seq<Position>)
    requires forall p :: p in positions ==> p.marketValue >= 0.0
    ensures Abs(Net(positions)) <= Gross(positions)
  {
    if positions != [] {
      assert positions[0] in positions;
      NetWithinGross(positions[1..]);
    }
  }

  // ---- The net rule ---------------------------------------------------------------------

  /** The rule cuts exactly when longs and shorts differ by more than 40% of equity. */
  lemma NetRuleIff(ctx: RiskContext)
    ensures NetCheck(ctx).SoftFail? <==>
              && ctx.equity > 0.0
              && Abs(Gross(OfSide(ctx.positions, Long)) - Gross(OfSide(ctx.positions, Short))) > 0.4 * ctx.equity
  {
    NetIsDifference(ctx.positions);
  }

  /** Adding a long and an equal short leaves the net rule as it was. */
  lemma HedgeLeavesNetRule(ctx: RiskContext, p: Position)
    ensures NetCheck(ctx.(positions := ctx.positions + [p, Flipped(p)])) == NetCheck(ctx)
  {
    ExposuresAdd(ctx.positions, [p, Flipped(p)]);
    PairIsNeutral(p);
    hide Net, ExposureCheck;
  }

  lemma PairIsNeutral(p: Position)
    ensures Net([p, Flipped(p)]) == 0.0
  {
    assert [p, Flipped(p)][1..] == [Flipped(p)];
    assert Net([Flipped(p)]) == -Net([p]);
  }

  lemma {:induction false} SoftReasonFromChecks(checks: seq<Check>, reason: Reason)
    requires forall i :: 0 <= i < |checks| && checks[i].SoftFail? ==> checks[i].reason != reason
    requires reason != WithinLimits
    ensures FirstSoft(checks) != reason
  {
    if checks != [] && !checks[0].SoftFail? {
      SoftReasonFromChecks(checks[1..], reason);
    }
  }

  lemma {:induction false} HardReasonFromChecks(checks: seq<Check>, reason: Reason)
    requires HasHardFail(checks)
    requires forall i :: 0 <= i < |checks| && checks[i].HardFail? ==> checks[i].reason != reason
    ensures FirstHard(checks) != reason
  {
    if !checks[0].HardFail? {
      assert HasHardFail(checks[1..]) by {
        var j :| 0 <= j < |checks| && checks[j].HardFail?;
        assert checks[1..][j - 1].HardFail?;
      }
      HardReasonFromChecks(checks[1..], reason);
    }
  }

  /** A book whose shorts are worth what its longs are worth, in whatever order, is never reduced or rejected for its
      net exposure. */
  lemma HedgedBookHasNoNetReason(ctx: RiskContext)
    requires Gross(OfSide(ctx.positions, Long)) == Gross(OfSide(ctx.positions, Short))
    ensures NetCheck(ctx) == Passed && Evaluation(ctx).reason != NetExposure
  {
    NetIsDifference(ctx.positions);
    assert NetCheck(ctx) == Passed;
    NetReasonFromNetRule(ctx);
  }

  lemma NetReasonFromNetRule(ctx: RiskContext)
    requires !NetCheck(ctx).SoftFail?
    ensures Evaluation(ctx).reason != NetExposure
  {
    SoftReasons(ctx);
    hide VolatilityCheck, LiquidityCheck, ConfidenceCheck, ConcentrationCheck, GrossCheck, NetCheck, PositionsCheck;
    hide BudgetFor, Accumulated, PriceValid, ThesisValid, DailyReturn, Drawdown, FirstSoft, FirstHard;
    var h, s, all := HardChecks(ctx), SoftChecks(ctx), AllChecks(ctx);
    assert forall i :: 0 <= i < |h| ==> !h[i].SoftFail? && (h[i].HardFail? ==> h[i].reason != NetExposure);
    assert forall i :: 0 <= i < |s| ==> !s[i].HardFail? && (s[i].SoftFail? ==> s[i].reason != NetExposure);
    hide HardChecks, SoftChecks;
    SoftReasonFromChecks(all, NetExposure);
    if HasHardFail(all) {
      HardReasonFromChecks(all, NetExposure);
    }
  }
}
