/** Planning the exit of a monitored position, and whether the execution gate lets it through (M7, M6). */
module ExitPlanning {
  import opened Wrappers
  import opened PositionMetrics
  import opened ExitRules
  import opened PositionMonitor
  import R = RiskRules
  import E = EquityPlanning
  import G = ExecutionGate
  import Keys = ExecutionKeys

  // ---- Limit price ------------------------------------------------------------------------

  /** The default rounding of Decimal.quantize: half to even. */
  function RoundHalfEven(x: real): int {
    var n := x.Floor;
    var rest := x - n as real;
    if rest < 0.5 || (rest == 0.5 && n % 2 == 0) then n else n + 1
  }

  /** The exit planner's own tick rounding; the entry planner rounds halves up. */
  function ExitTick(price: real): real {
    if price >= 1.0 then RoundHalfEven(price * 100.0) as real / 100.0
    else RoundHalfEven(price * 10000.0) as real / 10000.0
  }

  /** Urgent exits cross the spread, all others ask for the mid. The quote is not validated. */
  function ChosenPrice(side: Side, d: ExitDecision, q: G.Quote): real {
    if d.decision == EXIT && (d.urgency == IMMEDIATE || d.urgency == HIGH) then
      if side.LONG? then q.bid else q.ask
    else G.Mid(q)
  }

  lemma HalfEvenSign(x: real)
    ensures RoundHalfEven(x) <= 0 <==> x <= 0.5
  {
  }

  /** The limit vanishes, or is negative, exactly up to half of the small tick. */
  lemma ExitTickSign(price: real)
    ensures ExitTick(price) <= 0.0 <==> price <= 0.00005
  {
    HalfEvenSign(price * 100.0);
    HalfEvenSign(price * 10000.0);
    hide RoundHalfEven;
    if price >= 1.0 {
      assert RoundHalfEven(price * 100.0) >= 1;
    }
  }

  lemma HalvesDiffer(x: real)
    requires x >= 0.0
    ensures RoundHalfEven(x) == G.RoundHalfUp(x) <==> !(x - x.Floor as real == 0.5 && x.Floor % 2 == 0)
  {
  }

  /** Entries and exits round one price to different limits exactly when it lies halfway above an even tick. */
  lemma TicksDifferIff(price: real)
    requires price > 0.0
    ensures var x := if price >= 1.0 then price * 100.0 else price * 10000.0;
            ExitTick(price) == G.RoundToTick(price) <==> !(x - x.Floor as real == 0.5 && x.Floor % 2 == 0)
  {
    var x := if price >= 1.0 then price * 100.0 else price * 10000.0;
    HalvesDiffer(x);
    hide RoundHalfEven, G.RoundHalfUp;
  }

  // ---- Quantity ------------------------------------------------------------------------------

  /** The exit planner clamps to what the broker holds, on whichever side, when the row is found. */
  function PlannedQuantity(target: real, row: Option<Position>, broker: Broker): real {
    if row.Some? && BrokerQuantity(row.value.symbol, broker) < target
    then BrokerQuantity(row.value.symbol, broker) else target
  }

  /** The broker's signed quantity, nothing for a symbol it does not list. */
  function Held(symbol: string, broker: Broker): real {
    if symbol in broker then broker[symbol] else 0.0
  }

  /** The side the exit order closes: options are always sold. */
  function ClosedSide(row: Position): Side {
    if row.instrument.OPTION? then LONG else row.side
  }

  /** The broker's signed quantity after an exit of the given quantity. */
  function AfterExit(row: Position, signed: real, quantity: real): real {
    if ClosedSide(row).LONG? then signed - quantity else signed + quantity
  }

  /** The exit neither crosses zero nor enlarges the position. */
  ghost predicate OnlyReduces(before: real, after: real) {
    (before >= 0.0 ==> 0.0 <= after <= before) && (before <= 0.0 ==> before <= after <= 0.0)
  }

  /** A planned exit never exceeds the broker's quantity, and it only reduces the broker's position exactly
      when the broker holds the side that is closed or nothing is planned: quantity is checked, side is not. */
  lemma PlannedExitReducesIff(row: Position, target: real, broker: Broker)
    requires target >= 0.0
    ensures var q := PlannedQuantity(target, Some(row), broker); var signed := Held(row.symbol, broker);
            && 0.0 <= q <= BrokerQuantity(row.symbol, broker)
            && (row.symbol !in broker ==> q == 0.0 && AfterExit(row, signed, q) == 0.0)
            && (OnlyReduces(signed, AfterExit(row, signed, q)) <==> q == 0.0 || BrokerSide(signed) == ClosedSide(row))
  {
  }

  /** It happens: a long row of five shares the pass confirmed, and a broker that is short five when the exit
      is planned. The exit sells five more. */
  lemma SideFlipEnlarges(row: Position, d: ExitDecision, m: Market, killSwitch: bool)
    requires row.instrument.STOCK? && row.side.LONG? && row.quantity == 5.0
    requires DecisionFor(d, row, m, killSwitch) && d.decision == EXIT
    ensures var atPass: Broker := map[row.symbol := 5.0]; var atPlanning: Broker := map[row.symbol := -5.0];
            && Agrees(row, atPass)
            && PlannedQuantity(d.target, Some(row), atPlanning) == 5.0
            && AfterExit(row, Held(row.symbol, atPlanning), 5.0) == -10.0
  {
  }

  /** Decided and planned against one broker snapshot, an exit leaves exactly nothing, unless it sells an
      option that is held short. */
  lemma DecidedExitFlattensIff(row: Position, d: ExitDecision, m: Market, killSwitch: bool, broker: Broker)
    requires Agrees(row, broker) && DecisionFor(d, row, m, killSwitch) && d.decision == EXIT
    ensures AfterExit(row, Held(row.symbol, broker), PlannedQuantity(d.target, Some(row), broker)) == 0.0 <==>
              row.quantity == 0.0 || ClosedSide(row) == row.side
  {
  }

  // ---- The plan and its authorization -----------------------------------------------------------

  /** `reference` is the price of the decision; `stored` the row the planner finds for the position. */
  datatype Planning = Planning(
    row: Position, decision: ExitDecision, stored: Option<Position>, broker: Broker,
    quote: G.Quote, reference: real, builtAt: int)

  function ExitQuantity(x: Planning): real {
    PlannedQuantity(x.decision.target, x.stored, x.broker)
  }

  function ExitLimit(x: Planning): real {
    ExitTick(ChosenPrice(x.row.side, x.decision, x.quote))
  }

  function ExitNotional(x: Planning): real {
    E.Worth(ExitQuantity(x), ExitLimit(x))
  }

  /** The execution plan of an exit: no risk budget, and the position's notional as ceiling. */
  function ExitOrder(s: G.Settings, x: Planning): G.ExecutionPlan {
    G.ExecutionPlan(
      if ClosedSide(x.row).LONG? then Keys.SELL else Keys.BUY, ExitQuantity(x), x.reference, G.Mid(x.quote),
      if ExitLimit(x) != 0.0 then ExitLimit(x) else x.reference, ExitNotional(x), 0.0, x.row.currentNotional,
      x.builtAt + s.ttlSeconds)
  }

  lemma HalfEvenNear(x: real)
    ensures x - 0.5 <= RoundHalfEven(x) as real <= x + 0.5
  {
  }

  lemma ExitTickError(price: real)
    ensures -0.005 <= ExitTick(price) - price <= 0.005
    ensures price < 1.0 ==> -0.00005 <= ExitTick(price) - price <= 0.00005
  {
    HalfEvenNear(price * 100.0);
    HalfEvenNear(price * 10000.0);
    hide RoundHalfEven;
  }

  /** The price a decided exit asks for: the bid of a long or the ask of a short position when a hard rule fired, so
      that it can be filled at once, and otherwise the mid. The limit is that price to half a tick, or the price of
      the decision when it rounds to nothing. */
  lemma ExitLimitFollowsUrgency(s: G.Settings, x: Planning, m: Market, killSwitch: bool)
    requires DecisionFor(x.decision, x.row, m, killSwitch) && 0.0 <= x.quote.bid <= x.quote.ask
    ensures var urgent := Immediate(x.decision.reasons) || Urgent(x.decision.reasons);
            var price := if !urgent then (x.quote.bid + x.quote.ask) / 2.0
                         else if x.row.side.LONG? then x.quote.bid else x.quote.ask;
            var limit := ExitOrder(s, x).limit;
            && (price > 0.00005 ==>
                  && -0.005 <= limit - price <= 0.005
                  && (price < 1.0 ==> -0.00005 <= limit - price <= 0.00005))
            && (price <= 0.00005 ==> limit == x.reference)
  {
    UrgencyMeans(x.decision.urgency, x.decision.reasons);
    var price := ChosenPrice(x.row.side, x.decision, x.quote);
    ExitTickError(price);
    ExitTickSign(price);
    hide ExitTick, IsHighest, Immediate, Urgent, Fires, ExitNotional, ExitQuantity;
    assert price >= 0.0;
    if price <= 0.00005 { NoTickBelow(price); }
  }

  lemma NoTickBelow(price: real)
    requires 0.0 <= price <= 0.00005
    ensures ExitTick(price) == 0.0
  {
  }

  /** The broker's signed quantity once an order is filled. */
  function Filled(signed: real, plan: G.ExecutionPlan): real {
    if plan.side == Keys.BUY then signed + plan.quantity else signed - plan.quantity
  }

  /** Filling the exit order of a confirmed decision, with the row still stored and the broker's position unchanged,
      leaves nothing, unless it sells an option that is held short. */
  lemma FilledExitFlattensIff(s: G.Settings, x: Planning, m: Market, killSwitch: bool)
    requires x.stored == Some(x.row) && Agrees(x.row, x.broker)
    requires DecisionFor(x.decision, x.row, m, killSwitch) && x.decision.decision == EXIT
    ensures Filled(Held(x.row.symbol, x.broker), ExitOrder(s, x)) == 0.0 <==>
              x.row.quantity == 0.0 || !(x.row.instrument.OPTION? && x.row.side.SHORT?)
  {
    DecidedExitFlattensIff(x.row, x.decision, m, killSwitch, x.broker);
    hide DecisionFor, Agrees, ExitTick, PlannedQuantity;
  }

  /** The approval an exit is checked against. */
  function ExitEvaluation(x: Planning): R.RiskEvaluation {
    R.RiskEvaluation(R.APPROVED, R.WithinLimits,
      Some(R.RiskBudget(0.0, R.Reductions(1.0, 1.0, 1.0, 1.0, 1.0), 0.0, None, x.row.currentNotional, 0)))
  }

  function ExitInstrument(x: Planning): G.InstrumentPlan {
    var side := if x.row.side.LONG? then R.Long else R.Short;
    G.InstrumentPlan(if x.row.instrument.OPTION? then G.OPTION else G.STOCK,
      Some(E.EquityPlan(side, x.reference, x.row.currentNotional, ExitNotional(x), ExitQuantity(x), 0.0)), None, false)
  }

  predicate ExitAuthorized(s: G.Settings, x: Planning, killSwitch: Option<bool>, now: int) {
    G.Authorized(s, ExitOrder(s, x), ExitInstrument(x), ExitEvaluation(x), killSwitch, now)
  }

  lemma WorthSign(quantity: real, price: real)
    requires quantity > 0.0
    ensures E.Worth(quantity, price) <= 0.0 <==> price <= 0.0
  {
    if price > 0.0 { assert quantity * price > 0.0; } else { assert quantity * -price >= 0.0; }
  }

  /** A planned exit is authorized exactly when the other gates hold, something is to be closed, and the chosen
      price is at most half of the smallest tick: otherwise the order is worth something, and its budget is zero.
      A negative notional of the position makes the program raise before the gate. */
  lemma ExitAuthorizedIff(s: G.Settings, x: Planning, killSwitch: Option<bool>, now: int)
    requires x.row.currentNotional >= 0.0
    ensures ExitAuthorized(s, x, killSwitch, now) <==>
              && G.ConfigOk(s) && killSwitch != Some(true) && now < x.builtAt + s.ttlSeconds
              && ExitQuantity(x) > 0.0 && ChosenPrice(x.row.side, x.decision, x.quote) <= 0.00005
  {
    G.AuthorizedMeans(s, ExitOrder(s, x), ExitInstrument(x), ExitEvaluation(x), killSwitch, now);
    ExitTickSign(ChosenPrice(x.row.side, x.decision, x.quote));
    if ExitQuantity(x) > 0.0 {
      WorthSign(ExitQuantity(x), ExitLimit(x));
    }
    hide G.Authorized, G.ConfigOk, E.Worth, ChosenPrice, ExitQuantity, ExitTick;
  }

  /** The exit planned for a decision of a monitoring pass, with the decided row still stored. */
  lemma DecidedExitAuthorizedIff(s: G.Settings, x: Planning, m: Market, switchAtPass: bool,
                                 killSwitch: Option<bool>, now: int)
    requires x.row.currentNotional >= 0.0 && x.row.quantity >= 0.0
    requires DecisionFor(x.decision, x.row, m, switchAtPass) && x.stored == Some(x.row)
    ensures ExitAuthorized(s, x, killSwitch, now) <==>
              && G.ConfigOk(s) && killSwitch != Some(true) && now < x.builtAt + s.ttlSeconds
              && x.decision.decision == EXIT && x.row.quantity > 0.0 && BrokerQuantity(x.row.symbol, x.broker) > 0.0
              && ChosenPrice(x.row.side, x.decision, x.quote) <= 0.00005
  {
    ExitAuthorizedIff(s, x, killSwitch, now);
    hide G.ConfigOk, ChosenPrice, ExitAuthorized, IsHighest, Fires;
  }

  /** So no exit that a pass decides is authorized on any quote whose bid is above half the smallest tick,
      whatever the broker holds by then. The hypotheses are what `MonitorOnce` leaves behind. */
  lemma NoDecidedExitAuthorized(rows: seq<Position>, broker: Broker, market: string -> Market, switchAtPass: bool,
                                decisions: seq<ExitDecision>, i: nat,
                                s: G.Settings, x: Planning, killSwitch: Option<bool>, now: int)
    requires var open := OpenRows(Reconciled(rows, broker));
             && DecisionsFor(decisions, open, market, switchAtPass)
             && i < |open| && x.row == open[i] && x.decision == decisions[i]
    requires x.stored == Some(x.row) && x.row.currentNotional >= 0.0
    requires 0.00005 < x.quote.bid <= x.quote.ask
    ensures Agrees(x.row, broker) && !ExitAuthorized(s, x, killSwitch, now)
  {
    hide OpenRows, Reconciled, DecisionFor, ExitAuthorized;
    var open := OpenRows(Reconciled(rows, broker));
    OpenRowsAgree(rows, broker);
    assert open[i] in open;
    DecidedExitAuthorizedIff(s, x, market(x.row.symbol), switchAtPass, killSwitch, now);
  }

  /** The kill switch turns every decision of a pass into an immediate exit, and under the same switch the gate
      denies that exit, whatever the quote: it cannot be carried out until the switch is off. */
  lemma KillSwitchExitDenied(s: G.Settings, x: Planning, m: Market, now: int)
    requires DecisionFor(x.decision, x.row, m, true)
    ensures x.decision.decision == EXIT && x.decision.urgency == IMMEDIATE && KILL_SWITCH in x.decision.reasons
    ensures !ExitAuthorized(s, x, Some(true), now)
  {
    G.AuthorizedMeans(s, ExitOrder(s, x), ExitInstrument(x), ExitEvaluation(x), Some(true), now);
    hide G.Authorized, ExitOrder, ExitInstrument, ExitEvaluation;
    assert Fires(KILL_SWITCH, x.row, MidOf(x.row, m), true, m.features);
    assert Level(SeverityOf(KILL_SWITCH)) <= Level(x.decision.urgency);
  }
}
