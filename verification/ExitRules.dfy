/** The exit rules of an open position (M7). */
module ExitRules {
  import opened Wrappers
  import opened Arithmetic
  import opened PositionMetrics

  datatype Status = PENDING_ENTRY | OPEN | PARTIALLY_EXITED | EXIT_PENDING | CLOSED | RECONCILIATION_REQUIRED | UNKNOWN

  datatype Instrument = STOCK | ETF | OPTION

  datatype Position = Position(
    id: string, symbol: string, instrument: Instrument, side: Side, status: Status,
    quantity: real, entryPrice: real, currentPrice: real, currentNotional: real, unrealizedPnl: real,
    riskBudgetAtEntry: real, stop: Option<real>, marks: Watermarks, heldSeconds: int)

  datatype Trend = UP | DOWN | SIDEWAYS

  /** `trend` folds the strong and plain forms of a direction together. */
  datatype Features = Features(trend: Trend, momentum5d: Option<real>, volatility20: Option<real>)

  datatype ExitReason =
    | KILL_SWITCH | PROVIDER_RECONCILIATION_REQUIRED | HARD_STOP_TRIGGERED | MAX_LOSS_REACHED
    | MAX_HOLDING_PERIOD | TRAILING_STOP_TRIGGERED | TAKE_PROFIT
    | TREND_REVERSAL | MOMENTUM_REVERSAL | VOLATILITY_SPIKE

  datatype Urgency = NoUrgency | NORMAL | HIGH | IMMEDIATE

  datatype Decision = HOLD | REDUCE | EXIT

  const TAKE_PROFIT_PCT: real := 0.10
  const MAX_HOLDING_SECONDS: int := 168 * 3600

  // ---- When a rule fires ----------------------------------------------------------------

  /** The price as the position sees it: the higher, the better. */
  function Favour(side: Side, price: real): real {
    if side.LONG? then price else -price
  }

  predicate StopHit(p: Position, mid: real) {
    Truthy(p.stop) && mid != 0.0 && (if p.side.LONG? then mid <= p.stop.value else mid >= p.stop.value)
  }

  /** The stored loss or gain is at least the whole notional. */
  predicate MaxLossHit(p: Position) {
    p.riskBudgetAtEntry > 0.0 && p.currentNotional > 0.0
    && Abs(p.unrealizedPnl) / p.currentNotional >= 1.0
  }

  /** The stored best price in the position's own direction. */
  function BestMark(p: Position): Option<real> {
    if p.side.LONG? then p.marks.highest else p.marks.lowest
  }

  /** The trailing rule divides by the entry price once there is a best price; a zero entry price then raises. */
  predicate TrailingRaises(p: Position) {
    p.entryPrice == 0.0 && Truthy(BestMark(p))
  }

  /** A gain of 5% was followed by a retreat of 3% from the stored best price. */
  predicate TrailingStopHit(p: Position, mid: real) {
    Truthy(BestMark(p)) && !TrailingRaises(p)
    && if p.side.LONG? then (mid - p.entryPrice) / p.entryPrice >= 0.05 && mid <= BestMark(p).value * 0.97
       else (p.entryPrice - mid) / p.entryPrice >= 0.05 && mid >= BestMark(p).value * 1.03
  }

  predicate TrendReversed(p: Position, f: Option<Features>) {
    f.Some? && (if p.side.LONG? then f.value.trend.DOWN? else f.value.trend.UP?)
  }

  predicate MomentumReversed(p: Position, f: Option<Features>) {
    f.Some? && Truthy(f.value.momentum5d)
    && (if p.side.LONG? then f.value.momentum5d.value < -0.05 else f.value.momentum5d.value > 0.05)
  }

  predicate VolatilitySpiked(f: Option<Features>) {
    f.Some? && Truthy(f.value.volatility20) && f.value.volatility20.value > 0.05
  }

  predicate Fires(r: ExitReason, p: Position, mid: real, killSwitch: bool, f: Option<Features>) {
    match r
    case KILL_SWITCH => killSwitch
    case PROVIDER_RECONCILIATION_REQUIRED => p.status.RECONCILIATION_REQUIRED?
    case HARD_STOP_TRIGGERED => StopHit(p, mid)
    case MAX_LOSS_REACHED => MaxLossHit(p)
    case MAX_HOLDING_PERIOD => p.heldSeconds >= MAX_HOLDING_SECONDS
    case TRAILING_STOP_TRIGGERED => TrailingStopHit(p, mid)
    case TAKE_PROFIT => Return(p.side, p.entryPrice, mid) >= TAKE_PROFIT_PCT
    case TREND_REVERSAL => TrendReversed(p, f)
    case MOMENTUM_REVERSAL => MomentumReversed(p, f)
    case VOLATILITY_SPIKE => VolatilitySpiked(f)
  }

  const HARD_RULES := {KILL_SWITCH, PROVIDER_RECONCILIATION_REQUIRED, HARD_STOP_TRIGGERED, MAX_LOSS_REACHED}
  const PROFIT_RULES := {MAX_HOLDING_PERIOD, TRAILING_STOP_TRIGGERED, TAKE_PROFIT}
  const THESIS_RULES := {TREND_REVERSAL, MOMENTUM_REVERSAL, VOLATILITY_SPIKE}

  // ---- What the fired rules say ----------------------------------------------------------

  function SeverityOf(r: ExitReason): Urgency {
    match r
    case KILL_SWITCH => IMMEDIATE
    case PROVIDER_RECONCILIATION_REQUIRED => IMMEDIATE
    case HARD_STOP_TRIGGERED => HIGH
    case MAX_LOSS_REACHED => HIGH
    case _ => NORMAL
  }

  function Level(u: Urgency): nat {
    match u
    case NoUrgency => 0
    case NORMAL => 1
    case HIGH => 2
    case IMMEDIATE => 3
  }

  /** No reason is more severe than the urgency, and one is as severe; without reasons there is none. */
  ghost predicate IsHighest(u: Urgency, reasons: seq<ExitReason>) {
    && (forall r :: r in reasons ==> Level(SeverityOf(r)) <= Level(u))
    && (u == NoUrgency <==> reasons == [])
    && (reasons != [] ==> exists r :: r in reasons && SeverityOf(r) == u)
  }

  ghost predicate NoRepeats(reasons: seq<ExitReason>) {
    forall i, j :: 0 <= i < j < |reasons| ==> reasons[i] != reasons[j]
  }

  /** The state of the evaluation after the rules in `rules` were considered. */
  ghost predicate Evaluated(reasons: seq<ExitReason>, urgency: Urgency, decision: Decision, rules: set<ExitReason>,
                            p: Position, mid: real, killSwitch: bool, f: Option<Features>)
  {
    && (forall r :: r in reasons <==> r in rules && Fires(r, p, mid, killSwitch, f))
    && NoRepeats(reasons)
    && IsHighest(urgency, reasons)
    && decision == if reasons == [] then HOLD else EXIT
  }

  /** Considering one more rule: append the reason, raise the urgency if the rule is more severe, exit. */
  lemma RuleConsidered(reasons: seq<ExitReason>, urgency: Urgency, decision: Decision,
                       rules: set<ExitReason>, rule: ExitReason,
                       p: Position, mid: real, killSwitch: bool, f: Option<Features>)
    requires Evaluated(reasons, urgency, decision, rules, p, mid, killSwitch, f) && rule !in rules
    ensures if Fires(rule, p, mid, killSwitch, f)
            then Evaluated(reasons + [rule],
                           if Level(urgency) < Level(SeverityOf(rule)) then SeverityOf(rule) else urgency, EXIT,
                           rules + {rule}, p, mid, killSwitch, f)
            else Evaluated(reasons, urgency, decision, rules + {rule}, p, mid, killSwitch, f)
  {
    NoRepeatsAppended(reasons, rule);
    hide Fires, SeverityOf, Level, IsHighest, NoRepeats;
    Appended(reasons, rule);
    HighestAppended(urgency, reasons, rule);
  }

  lemma NoRepeatsAppended(s: seq<ExitReason>, x: ExitReason)
    requires NoRepeats(s)
    ensures x !in s ==> NoRepeats(s + [x])
  {
  }

  lemma Appended(s: seq<ExitReason>, x: ExitReason)
    ensures forall r :: r in s + [x] <==> r in s || r == x
  {
  }

  lemma HighestAppended(urgency: Urgency, reasons: seq<ExitReason>, rule: ExitReason)
    requires IsHighest(urgency, reasons)
    ensures IsHighest(if Level(urgency) < Level(SeverityOf(rule)) then SeverityOf(rule) else urgency, reasons + [rule])
  {
    assert SeverityOf(rule) != NoUrgency && Level(SeverityOf(rule)) > 0;
    hide SeverityOf;
    Appended(reasons, rule);
    if Level(urgency) < Level(SeverityOf(rule)) {
      assert rule in reasons + [rule];
    } else if reasons != [] {
      var r :| r in reasons && SeverityOf(r) == urgency;
      assert r in reasons + [rule];
    }
  }

  /** Priorities 1 to 5: rules that exit at once or with high urgency. */
  method HardRules(p: Position, mid: real, killSwitch: bool, ghost f: Option<Features>)
    returns (reasons: seq<ExitReason>, urgency: Urgency, decision: Decision)
    ensures Evaluated(reasons, urgency, decision, HARD_RULES, p, mid, killSwitch, f)
  {
    reasons, urgency, decision := [], NoUrgency, HOLD;
    ghost var done: set<ExitReason> := {};
    hide StopHit, MaxLossHit, Evaluated, TrailingStopHit, TrendReversed, MomentumReversed, VolatilitySpiked;
    hide Return, IsHighest;
    NothingEvaluated(p, mid, killSwitch, f);

    RuleConsidered(reasons, urgency, decision, done, KILL_SWITCH, p, mid, killSwitch, f);
    if killSwitch {
      reasons, urgency, decision := reasons + [KILL_SWITCH], IMMEDIATE, EXIT;
    }
    done := done + {KILL_SWITCH};

    RuleConsidered(reasons, urgency, decision, done, PROVIDER_RECONCILIATION_REQUIRED, p, mid, killSwitch, f);
    if p.status.RECONCILIATION_REQUIRED? {
      reasons := reasons + [PROVIDER_RECONCILIATION_REQUIRED];
      if urgency != IMMEDIATE { urgency := IMMEDIATE; }
      decision := EXIT;
    }
    done := done + {PROVIDER_RECONCILIATION_REQUIRED};

    RuleConsidered(reasons, urgency, decision, done, HARD_STOP_TRIGGERED, p, mid, killSwitch, f);
    if StopHit(p, mid) {
      reasons := reasons + [HARD_STOP_TRIGGERED];
      if urgency != IMMEDIATE { urgency := HIGH; }
      decision := EXIT;
    }
    done := done + {HARD_STOP_TRIGGERED};

    RuleConsidered(reasons, urgency, decision, done, MAX_LOSS_REACHED, p, mid, killSwitch, f);
    if MaxLossHit(p) {
      reasons := reasons + [MAX_LOSS_REACHED];
      if urgency != IMMEDIATE && urgency != HIGH { urgency := HIGH; }
      decision := EXIT;
    }
    done := done + {MAX_LOSS_REACHED};
    assert HARD_RULES == done;
  }

  lemma NothingEvaluated(p: Position, mid: real, killSwitch: bool, f: Option<Features>)
    ensures Evaluated([], NoUrgency, HOLD, {}, p, mid, killSwitch, f)
  {
  }

  /** Priorities 7 to 9: rules on time and price. */
  method ProfitRules(p: Position, mid: real, ghost killSwitch: bool, ghost f: Option<Features>,
                     reasons0: seq<ExitReason>, urgency0: Urgency, decision0: Decision)
    returns (reasons: seq<ExitReason>, urgency: Urgency, decision: Decision)
    requires Evaluated(reasons0, urgency0, decision0, HARD_RULES, p, mid, killSwitch, f) && !TrailingRaises(p)
    ensures Evaluated(reasons, urgency, decision, HARD_RULES + PROFIT_RULES, p, mid, killSwitch, f)
  {
    reasons, urgency, decision := reasons0, urgency0, decision0;
    ghost var done := HARD_RULES;
    hide StopHit, MaxLossHit, Evaluated, TrailingStopHit, TrendReversed, MomentumReversed, VolatilitySpiked;
    hide Return, IsHighest;

    RuleConsidered(reasons, urgency, decision, done, MAX_HOLDING_PERIOD, p, mid, killSwitch, f);
    if p.heldSeconds >= MAX_HOLDING_SECONDS {
      reasons := reasons + [MAX_HOLDING_PERIOD];
      if urgency != IMMEDIATE && urgency != HIGH { urgency := NORMAL; }
      decision := EXIT;
    }
    done := done + {MAX_HOLDING_PERIOD};

    RuleConsidered(reasons, urgency, decision, done, TRAILING_STOP_TRIGGERED, p, mid, killSwitch, f);
    if TrailingStopHit(p, mid) {
      reasons := reasons + [TRAILING_STOP_TRIGGERED];
      if urgency != IMMEDIATE && urgency != HIGH { urgency := NORMAL; }
      decision := EXIT;
    }
    done := done + {TRAILING_STOP_TRIGGERED};

    RuleConsidered(reasons, urgency, decision, done, TAKE_PROFIT, p, mid, killSwitch, f);
    if Return(p.side, p.entryPrice, mid) >= TAKE_PROFIT_PCT {
      reasons := reasons + [TAKE_PROFIT];
      if urgency != IMMEDIATE && urgency != HIGH { urgency := NORMAL; }
      decision := EXIT;
    }
    done := done + {TAKE_PROFIT};
    assert HARD_RULES + PROFIT_RULES == done;
  }

  /** Priority 10: the thesis has deteriorated. */
  method ThesisRules(p: Position, ghost mid: real, ghost killSwitch: bool, f: Option<Features>,
                     reasons0: seq<ExitReason>, urgency0: Urgency, decision0: Decision)
    returns (reasons: seq<ExitReason>, urgency: Urgency, decision: Decision)
    requires Evaluated(reasons0, urgency0, decision0, HARD_RULES + PROFIT_RULES, p, mid, killSwitch, f)
    ensures Evaluated(reasons, urgency, decision, HARD_RULES + PROFIT_RULES + THESIS_RULES, p, mid, killSwitch, f)
  {
    reasons, urgency, decision := reasons0, urgency0, decision0;
    ghost var done := HARD_RULES + PROFIT_RULES;
    hide StopHit, MaxLossHit, Evaluated, TrailingStopHit, TrendReversed, MomentumReversed, VolatilitySpiked;
    hide Return, IsHighest;

    RuleConsidered(reasons, urgency, decision, done, TREND_REVERSAL, p, mid, killSwitch, f);
    if TrendReversed(p, f) {
      reasons := reasons + [TREND_REVERSAL];
      if urgency == NoUrgency { urgency := NORMAL; }
      decision := EXIT;
    }
    done := done + {TREND_REVERSAL};

    RuleConsidered(reasons, urgency, decision, done, MOMENTUM_REVERSAL, p, mid, killSwitch, f);
    if MomentumReversed(p, f) {
      reasons := reasons + [MOMENTUM_REVERSAL];
      if urgency == NoUrgency { urgency := NORMAL; }
      decision := EXIT;
    }
    done := done + {MOMENTUM_REVERSAL};

    RuleConsidered(reasons, urgency, decision, done, VOLATILITY_SPIKE, p, mid, killSwitch, f);
    if VolatilitySpiked(f) {
      reasons := reasons + [VOLATILITY_SPIKE];
      if urgency == NoUrgency { urgency := NORMAL; }
      decision := EXIT;
    }
    done := done + {VOLATILITY_SPIKE};
    assert HARD_RULES + PROFIT_RULES + THESIS_RULES == done;
  }

  lemma EveryRule(r: ExitReason)
    ensures r in HARD_RULES + PROFIT_RULES + THESIS_RULES
  {
    match r {
      case KILL_SWITCH => assert r in HARD_RULES;
      case PROVIDER_RECONCILIATION_REQUIRED => assert r in HARD_RULES;
      case HARD_STOP_TRIGGERED => assert r in HARD_RULES;
      case MAX_LOSS_REACHED => assert r in HARD_RULES;
      case MAX_HOLDING_PERIOD => assert r in PROFIT_RULES;
      case TRAILING_STOP_TRIGGERED => assert r in PROFIT_RULES;
      case TAKE_PROFIT => assert r in PROFIT_RULES;
      case _ => assert r in THESIS_RULES;
    }
  }

  predicate Immediate(reasons: seq<ExitReason>) {
    KILL_SWITCH in reasons || PROVIDER_RECONCILIATION_REQUIRED in reasons
  }

  predicate Urgent(reasons: seq<ExitReason>) {
    HARD_STOP_TRIGGERED in reasons || MAX_LOSS_REACHED in reasons
  }

  /** The urgency in terms of the reasons given. */
  lemma UrgencyMeans(urgency: Urgency, reasons: seq<ExitReason>)
    requires IsHighest(urgency, reasons)
    ensures urgency == IMMEDIATE <==> Immediate(reasons)
    ensures urgency == HIGH <==> Urgent(reasons) && !Immediate(reasons)
    ensures urgency == NoUrgency <==> reasons == []
  {
    if reasons != [] {
      var r :| r in reasons && SeverityOf(r) == urgency;
      assert Immediate(reasons) ==> Level(IMMEDIATE) <= Level(urgency);
      assert Urgent(reasons) ==> Level(HIGH) <= Level(urgency);
    }
  }

  /** Once the price is known, a stop fires exactly at the stop and beyond it. */
  lemma StopFiresIff(p: Position, mid: real)
    requires Truthy(p.stop) && mid != 0.0
    ensures StopHit(p, mid) <==> Favour(p.side, mid) <= Favour(p.side, p.stop.value)
  {
  }

  /** The reasons are exactly the rules that fire, each once; the position is exited exactly when there is one, with the
      highest severity among them as urgency, and held otherwise. A price at the stop or beyond it exits, at least with
      high urgency; a better one does not for that reason. */
  method Evaluate(p: Position, mid: real, killSwitch: bool, f: Option<Features>)
    returns (reasons: seq<ExitReason>, urgency: Urgency, decision: Decision)
    requires !TrailingRaises(p)
    ensures forall r :: r in reasons <==> Fires(r, p, mid, killSwitch, f)
    ensures NoRepeats(reasons)
    ensures IsHighest(urgency, reasons)
    ensures decision == if reasons == [] then HOLD else EXIT
    ensures urgency == IMMEDIATE <==> killSwitch || p.status == RECONCILIATION_REQUIRED
    ensures urgency == HIGH <==> Urgent(reasons) && !Immediate(reasons)
    ensures Truthy(p.stop) && mid != 0.0 && Favour(p.side, mid) <= Favour(p.side, p.stop.value) ==>
              HARD_STOP_TRIGGERED in reasons && decision == EXIT && urgency in {HIGH, IMMEDIATE}
    ensures Truthy(p.stop) && Favour(p.side, mid) > Favour(p.side, p.stop.value) ==>
              HARD_STOP_TRIGGERED !in reasons
  {
    reasons, urgency, decision := HardRules(p, mid, killSwitch, f);
    reasons, urgency, decision := ProfitRules(p, mid, killSwitch, f, reasons, urgency, decision);
    reasons, urgency, decision := ThesisRules(p, mid, killSwitch, f, reasons, urgency, decision);
    forall r: ExitReason ensures r in HARD_RULES + PROFIT_RULES + THESIS_RULES { EveryRule(r); }
    UrgencyMeans(urgency, reasons);
    if Truthy(p.stop) && mid != 0.0 { StopFiresIff(p, mid); }
    assert Fires(HARD_STOP_TRIGGERED, p, mid, killSwitch, f) <==> StopHit(p, mid);
    assert Fires(KILL_SWITCH, p, mid, killSwitch, f) <==> killSwitch;
    assert Fires(PROVIDER_RECONCILIATION_REQUIRED, p, mid, killSwitch, f) <==> p.status.RECONCILIATION_REQUIRED?;
    hide Fires, IsHighest, NoRepeats, Favour;
  }

  /** A long position that has retreated from its best price by 3% or more and is still 5% up trails out;
      so the trailing rule can only fire once the best gain has reached about 8.2%. */
  lemma TrailingNeedsGain(p: Position, mid: real)
    requires p.entryPrice > 0.0 && p.side.LONG? && TrailingStopHit(p, mid)
    ensures p.marks.highest.value * 0.97 >= p.entryPrice * 1.05
  {
    var x := (mid - p.entryPrice) / p.entryPrice;
    assert x * p.entryPrice == mid - p.entryPrice;
    assert x * p.entryPrice >= 0.05 * p.entryPrice;
  }

  // ---- At which prices the rules fire -----------------------------------------------------------

  /** Take profit starts at 10% above the entry of a long position, and 10% below that of a short one; without a
      positive entry price it never does. */
  lemma TakeProfitIff(p: Position, mid: real, killSwitch: bool, f: Option<Features>)
    ensures Fires(TAKE_PROFIT, p, mid, killSwitch, f) <==>
              && p.entryPrice > 0.0
              && if p.side.LONG? then mid >= 1.10 * p.entryPrice else mid <= 0.90 * p.entryPrice
  {
    if p.entryPrice > 0.0 {
      QuotientCompare(mid - p.entryPrice, p.entryPrice, 0.10);
      QuotientCompare(p.entryPrice - mid, p.entryPrice, 0.10);
    }
  }

  /** The trailing stop of a long position fires between 5% above the entry and 3% below the best price; that of a
      short position between 3% above the best price and 5% below the entry. */
  lemma TrailingIff(p: Position, mid: real, killSwitch: bool, f: Option<Features>)
    requires p.entryPrice > 0.0 && Truthy(BestMark(p))
    ensures Fires(TRAILING_STOP_TRIGGERED, p, mid, killSwitch, f) <==>
              if p.side.LONG? then 1.05 * p.entryPrice <= mid <= 0.97 * BestMark(p).value
              else 1.03 * BestMark(p).value <= mid <= 0.95 * p.entryPrice
  {
    QuotientCompare(mid - p.entryPrice, p.entryPrice, 0.05);
    QuotientCompare(p.entryPrice - mid, p.entryPrice, 0.05);
  }

  /** A long position is left after a week, on a falling trend, on a loss of momentum of more than 5% and on a
      volatility of more than 5%. */
  lemma LongThesisIff(p: Position, mid: real, killSwitch: bool, f: Features)
    requires p.side.LONG?
    ensures Fires(MAX_HOLDING_PERIOD, p, mid, killSwitch, Some(f)) <==> p.heldSeconds >= 7 * 86400
    ensures Fires(TREND_REVERSAL, p, mid, killSwitch, Some(f)) <==> f.trend == DOWN
    ensures Fires(MOMENTUM_REVERSAL, p, mid, killSwitch, Some(f)) <==>
              exists x :: f.momentum5d == Some(x) && x < -0.05
    ensures Fires(VOLATILITY_SPIKE, p, mid, killSwitch, Some(f)) <==>
              exists x :: f.volatility20 == Some(x) && x > 0.05
  {
  }

  function Reflected(entry: real, price: real): real { 2.0 * entry - price }

  function ReflectedOption(entry: real, price: Option<real>): Option<real> {
    if price.None? then None else Some(Reflected(entry, price.value))
  }

  /** The position on the other side, with prices reflected about the entry. */
  function Mirror(p: Position): Position {
    p.(side := if p.side.LONG? then SHORT else LONG, stop := ReflectedOption(p.entryPrice, p.stop))
  }

  /** The market seen from the other side. */
  function MirrorFeatures(f: Features): Features {
    Features(match f.trend { case UP => DOWN case DOWN => UP case SIDEWAYS => SIDEWAYS },
             if f.momentum5d.None? then None else Some(-f.momentum5d.value), f.volatility20)
  }

  /** Short positions are treated as long ones in a mirrored market, by every rule that looks at prices or features
      but the trailing stop and the maximum loss. */
  lemma ShortMirrorsLong(p: Position, mid: real, killSwitch: bool, f: Features, r: ExitReason)
    requires r !in {TRAILING_STOP_TRIGGERED, MAX_LOSS_REACHED}
    requires mid != 0.0 && Reflected(p.entryPrice, mid) != 0.0
    requires p.stop.Some? ==> p.stop.value != 0.0 && Reflected(p.entryPrice, p.stop.value) != 0.0
    ensures Fires(r, Mirror(p), Reflected(p.entryPrice, mid), killSwitch, Some(MirrorFeatures(f)))
        <==> Fires(r, p, mid, killSwitch, Some(f))
  {
    var e, m := p.entryPrice, Reflected(p.entryPrice, mid);
    assert m - e == e - mid && e - m == mid - e;
  }

  // ---- What the rules amount to ---------------------------------------------------------------

  function Value(price: real, quantity: real): real { price * quantity }

  /** What the position has moved in its own favour since entry, per unit. */
  function Gain(p: Position): real {
    if p.side.LONG? then p.currentPrice - p.entryPrice else p.entryPrice - p.currentPrice
  }

  /** The stored notional and profit are those of the stored price. */
  ghost predicate MarkedToMarket(p: Position) {
    && p.quantity > 0.0 && p.currentPrice > 0.0
    && p.currentNotional == Value(p.currentPrice, p.quantity) && p.unrealizedPnl == Value(Gain(p), p.quantity)
  }

  lemma AtLeastWhole(x: real, d: real)
    requires d > 0.0
    ensures x / d >= 1.0 <==> x >= d
  {
    QuotientTimes(x, d);
    if x >= d {
      QuotientMonotone(d, x, d);
    }
  }

  lemma SameScale(x: real, y: real, quantity: real)
    requires quantity > 0.0
    ensures Value(x, quantity) >= Value(y, quantity) <==> x >= y
  {
    if x >= y {
      TimesMonotone(y, x, quantity);
    } else {
      assert (y - x) * quantity > 0.0;
    }
  }

  lemma ValueOfSize(x: real, quantity: real)
    requires quantity > 0.0
    ensures Value(0.0, quantity) == 0.0
    ensures Value(-x, quantity) == -Value(x, quantity)
  {
  }

  /** For a position marked to market the maximum loss rule fires exactly when the price is at most half the
      entry, on either side. For a long position that is the loss it is meant for; for a short position it is
      a gain, and no loss of a short position ever fires it. */
  lemma MaxLossIsHalvedPrice(p: Position)
    requires MarkedToMarket(p) && p.entryPrice > 0.0
    ensures MaxLossHit(p) <==> p.riskBudgetAtEntry > 0.0 && 2.0 * p.currentPrice <= p.entryPrice
    ensures p.side.SHORT? && MaxLossHit(p) ==> p.unrealizedPnl > 0.0
  {
    hide Value;
    var gain := Gain(p);
    ValueOfSize(gain, p.quantity);
    SameScale(p.currentPrice, 0.0, p.quantity);
    SameScale(0.0, p.currentPrice, p.quantity);
    SameScale(gain, 0.0, p.quantity);
    SameScale(0.0, gain, p.quantity);
    SameScale(gain, p.currentPrice, p.quantity);
    SameScale(-gain, p.currentPrice, p.quantity);
    AtLeastWhole(Abs(p.unrealizedPnl), p.currentNotional);
  }

  /** A protective stop, at or behind the entry, never fires together with a profit rule. */
  lemma StopExcludesProfit(p: Position, mid: real)
    requires p.entryPrice > 0.0 && StopHit(p, mid)
    requires if p.side.LONG? then p.stop.value <= p.entryPrice else p.stop.value >= p.entryPrice
    ensures Return(p.side, p.entryPrice, mid) <= 0.0
    ensures !TrailingStopHit(p, mid)
  {
    if p.side.LONG? {
      QuotientMonotone(mid - p.entryPrice, 0.0, p.entryPrice);
    } else {
      QuotientMonotone(p.entryPrice - mid, 0.0, p.entryPrice);
    }
  }
}
