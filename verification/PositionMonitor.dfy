/** Monitoring passes over the position store, against the broker's positions (M7). */
module PositionMonitor {
  import opened Arithmetic
  import opened Wrappers
  import opened PositionMetrics
  import opened ExitRules

  /** The broker's signed quantity by symbol. */
  type Broker = map<string, real>

  /** What a market state builder returned for a symbol: the mid of a quote, and features. */
  datatype Market = Market(mid: Option<real>, features: Option<Features>)

  datatype ExitDecision = ExitDecision(
    id: string, symbol: string, decision: Decision, reasons: seq<ExitReason>, urgency: Urgency,
    target: real, remaining: real)

  /** A reconciliation result: whether row and broker agree. */
  datatype Finding = Finding(id: string, reconciled: bool)

  predicate OpenStatus(s: Status) {
    s.OPEN? || s.PARTIALLY_EXITED? || s.EXIT_PENDING?
  }

  predicate IsOpen(p: Position) {
    OpenStatus(p.status)
  }

  function BrokerSide(signed: real): Side { if signed > 0.0 then LONG else SHORT }

  /** The broker holds the symbol, on the row's side and in the row's quantity. */
  predicate Agrees(p: Position, broker: Broker) {
    p.symbol in broker && BrokerSide(broker[p.symbol]) == p.side && Abs(broker[p.symbol]) == p.quantity
  }

  function OpenRows(rows: seq<Position>): seq<Position> {
    if rows == [] then []
    else OpenRows(rows[..|rows| - 1]) + (if IsOpen(rows[|rows| - 1]) then [rows[|rows| - 1]] else [])
  }

  function WithStatus(rows: seq<Position>, ids: set<string>, status: Status): (r: seq<Position>)
    ensures |r| == |rows|
  {
    seq(|rows|, i requires 0 <= i < |rows| => if rows[i].id in ids then rows[i].(status := status) else rows[i])
  }

  function Ids(rows: seq<Position>): set<string> {
    set p | p in rows :: p.id
  }

  /** ON CONFLICT(position_id): the whole row is replaced, its status included. */
  function UpsertedRows(rows: seq<Position>, position: Position): (r: seq<Position>)
    ensures |r| >= |rows|
  {
    if position.id in Ids(rows) then
      seq(|rows|, i requires 0 <= i < |rows| => if rows[i].id == position.id then position else rows[i])
    else rows + [position]
  }

  /** Every open row the broker contradicts is set aside. */
  function Reconciled(rows: seq<Position>, broker: Broker): (r: seq<Position>)
    ensures |r| == |rows|
  {
    seq(|rows|, i requires 0 <= i < |rows| =>
      if IsOpen(rows[i]) && !Agrees(rows[i], broker) then rows[i].(status := RECONCILIATION_REQUIRED) else rows[i])
  }

  ghost predicate DistinctIds(rows: seq<Position>) {
    forall i, j :: 0 <= i < j < |rows| ==> rows[i].id != rows[j].id
  }

  function MidOf(p: Position, m: Market): real {
    if m.mid.Some? then m.mid.value else p.currentPrice
  }

  /** The evaluation of a row divides by its entry price, for the excursions or in the trailing rule. */
  predicate Raises(p: Position, m: Market) {
    ExcursionsRaise(p.entryPrice, UpdateWatermarks(p.marks, MidOf(p, m))) || TrailingRaises(p)
  }

  /** A row without an entry price raises unless its price is zero too and no mark stands against it. At any
      other price every such row raises. */
  lemma RaisesIff(p: Position, m: Market)
    ensures Raises(p, m) <==>
              && p.entryPrice == 0.0
              && (MidOf(p, m) != 0.0 || Truthy(BestMark(p))
                  || (p.marks.highest.Some? && p.marks.highest.value > 0.0)
                  || (p.marks.lowest.Some? && p.marks.lowest.value < 0.0))
  {
    var w := UpdateWatermarks(p.marks, MidOf(p, m));
    assert w.lowest.value <= MidOf(p, m) <= w.highest.value;
  }

  /** What the exit rules decide for a row, and the quantities that follow from the decision. */
  ghost predicate DecisionFor(d: ExitDecision, p: Position, m: Market, killSwitch: bool) {
    && d.id == p.id && d.symbol == p.symbol
    && (forall r :: r in d.reasons <==> Fires(r, p, MidOf(p, m), killSwitch, m.features))
    && IsHighest(d.urgency, d.reasons)
    && (if d.reasons == [] then d.decision == HOLD && d.target == 0.0 && d.remaining == p.quantity
        else d.decision == EXIT && d.target == p.quantity && d.remaining == 0.0)
  }

  /** Row and broker agree on the signed quantity; holding nothing counts as short. */
  lemma AgreesIff(p: Position, broker: Broker)
    ensures Agrees(p, broker) <==>
              && p.symbol in broker && p.quantity >= 0.0
              && if p.side.LONG? then broker[p.symbol] == p.quantity > 0.0 else broker[p.symbol] == -p.quantity
  {
  }

  // ---- Rows ------------------------------------------------------------------------------

  lemma {:induction false} OpenRowsAre(rows: seq<Position>)
    ensures forall p :: p in OpenRows(rows) <==> p in rows && IsOpen(p)
  {
    if rows != [] {
      OpenRowsAre(rows[..|rows| - 1]);
      assert rows == rows[..|rows| - 1] + [rows[|rows| - 1]];
    }
  }

  lemma RowsAre(rows: seq<Position>, broker: Broker, p: Position)
    requires p in Reconciled(rows, broker) && IsOpen(p)
    ensures p in rows && Agrees(p, broker)
  {
    var i :| 0 <= i < |rows| && Reconciled(rows, broker)[i] == p;
    assert rows[i] == p;
  }

  /** After reconciliation the open rows are exactly the open rows the broker agrees with. */
  lemma OpenRowsAgree(rows: seq<Position>, broker: Broker)
    ensures forall p :: p in OpenRows(Reconciled(rows, broker)) <==> p in rows && IsOpen(p) && Agrees(p, broker)
  {
    var after := Reconciled(rows, broker);
    OpenRowsAre(after);
    forall p | p in rows && IsOpen(p) && Agrees(p, broker) ensures p in after {
      var i :| 0 <= i < |rows| && rows[i] == p;
      assert after[i] == p;
    }
    forall p | p in after && IsOpen(p) ensures p in rows && Agrees(p, broker) {
      RowsAre(rows, broker, p);
    }
  }

  /** Upserts keep every id, add at most the written one, and keep ids distinct. */
  lemma UpsertKeepsIds(rows: seq<Position>, position: Position)
    requires DistinctIds(rows)
    ensures DistinctIds(UpsertedRows(rows, position))
    ensures forall i :: 0 <= i < |rows| ==>
              var r := UpsertedRows(rows, position)[i];
              r.id == rows[i].id && (r == if rows[i].id == position.id then position else rows[i])
    ensures position in UpsertedRows(rows, position)
  {
    var after := UpsertedRows(rows, position);
    if position.id in Ids(rows) {
      var p :| p in rows && p.id == position.id;
      var i :| 0 <= i < |rows| && rows[i] == p;
      assert after[i] == position;
    } else {
      forall i | 0 <= i < |rows| ensures rows[i].id != position.id {
        assert rows[i] in rows;
      }
      assert after[|rows|] == position;
    }
  }

  /** Writing a status takes the position out of the open rows or puts it there, as the status says, and
      moves no other. */
  lemma StatusMovesOpenRows(rows: seq<Position>, id: string, status: Status)
    ensures forall p :: p in OpenRows(WithStatus(rows, {id}, status)) <==>
              if p.id == id then p.status == status && IsOpen(p) && exists r :: r in rows && r.(status := status) == p
              else p in OpenRows(rows)
  {
    var after := WithStatus(rows, {id}, status);
    OpenRowsAre(rows);
    OpenRowsAre(after);
    forall p ensures p in after <==>
        if p.id == id then p.status == status && exists r :: r in rows && r.(status := status) == p else p in rows {
      if i :| 0 <= i < |after| && after[i] == p {
        assert rows[i] in rows;
        assert p.id == id ==> rows[i].(status := status) == p;
      }
      if p.id == id && p.status == status && exists r :: r in rows && r.(status := status) == p {
        var r :| r in rows && r.(status := status) == p;
        var i :| 0 <= i < |rows| && rows[i] == r;
        assert after[i] == p;
      }
      if p.id != id && p in rows {
        var i :| 0 <= i < |rows| && rows[i] == p;
        assert after[i] == p;
      }
    }
  }

  // ---- Store and pass ---------------------------------------------------------------------

  class PositionStore {
    var rows: seq<Position>

    ghost predicate Valid()
      reads this
    {
      DistinctIds(rows)
    }

    constructor ()
      ensures Valid() && rows == []
    {
      rows := [];
    }

    method GetOpenPositions() returns (open: seq<Position>)
      ensures open == OpenRows(rows)
      ensures forall p :: p in open <==> p in rows && p.status in {OPEN, PARTIALLY_EXITED, EXIT_PENDING}
    {
      open := [];
      var i := 0;
      while i < |rows|
        invariant 0 <= i <= |rows|
        invariant open == OpenRows(rows[..i])
      {
        assert rows[..i + 1][..i] == rows[..i];
        if IsOpen(rows[i]) {
          open := open + [rows[i]];
        } else {
          assert open + [] == open;
        }
        i := i + 1;
      }
      assert rows[..|rows|] == rows;
      OpenRowsAre(rows);
    }

    method Upsert(position: Position)
      requires Valid()
      modifies this
      ensures Valid() && rows == UpsertedRows(old(rows), position) && position in rows
    {
      UpsertKeepsIds(rows, position);
      rows := UpsertedRows(rows, position);
    }

    method UpdateStatus(id: string, status: Status)
      modifies this
      ensures rows == WithStatus(old(rows), {id}, status)
    {
      rows := WithStatus(rows, {id}, status);
    }
  }

  ghost function Rejected(findings: seq<Finding>): set<string> {
    if findings == [] then {}
    else Rejected(findings[..|findings| - 1])
         + (if findings[|findings| - 1].reconciled then {} else {findings[|findings| - 1].id})
  }

  ghost predicate FindingsFor(findings: seq<Finding>, open: seq<Position>, broker: Broker) {
    |findings| == |open|
    && forall i :: 0 <= i < |open| ==> findings[i] == Finding(open[i].id, Agrees(open[i], broker))
  }

  lemma {:induction false} RejectedAre(findings: seq<Finding>, open: seq<Position>, broker: Broker)
    requires FindingsFor(findings, open, broker)
    ensures forall id :: id in Rejected(findings) <==> exists p :: p in open && p.id == id && !Agrees(p, broker)
  {
    if open != [] {
      var n := |open| - 1;
      RejectedAre(findings[..n], open[..n], broker);
      assert open == open[..n] + [open[n]];
      forall id ensures id in Rejected(findings) <==> exists p :: p in open && p.id == id && !Agrees(p, broker) {
        if id == open[n].id && !Agrees(open[n], broker) {
          assert open[n] in open;
        } else if p :| p in open[..n] && p.id == id && !Agrees(p, broker) {
          assert p in open;
        }
      }
    }
  }

  lemma MarkingReconciles(rows: seq<Position>, findings: seq<Finding>, broker: Broker)
    requires DistinctIds(rows) && FindingsFor(findings, OpenRows(rows), broker)
    ensures WithStatus(rows, Rejected(findings), RECONCILIATION_REQUIRED) == Reconciled(rows, broker)
  {
    RejectedAre(findings, OpenRows(rows), broker);
    OpenRowsAre(rows);
    forall i | 0 <= i < |rows|
      ensures rows[i].id in Rejected(findings) <==> IsOpen(rows[i]) && !Agrees(rows[i], broker)
    {
      if rows[i].id in Rejected(findings) {
        var p :| p in OpenRows(rows) && p.id == rows[i].id && !Agrees(p, broker);
        var j :| 0 <= j < |rows| && rows[j] == p;
        assert i == j;
      } else {
        assert rows[i] in rows;
      }
    }
  }

  /** Each open row is compared with the broker's position in its symbol. */
  method ReconcileAll(store: PositionStore, broker: Broker) returns (findings: seq<Finding>)
    ensures FindingsFor(findings, OpenRows(store.rows), broker)
  {
    var records := store.GetOpenPositions();
    findings := [];
    var i := 0;
    while i < |records|
      invariant 0 <= i <= |records|
      invariant FindingsFor(findings, records[..i], broker)
    {
      var mismatch := false;
      if records[i].symbol !in broker {
        mismatch := true;
      } else {
        var signed := broker[records[i].symbol];
        var side := if signed > 0.0 then LONG else SHORT;
        if side != records[i].side { mismatch := true; }
        if Abs(signed) != records[i].quantity { mismatch := true; }
      }
      findings := findings + [Finding(records[i].id, !mismatch)];
      i := i + 1;
    }
    assert records[..|records|] == records;
  }

  method ApplyReconciliation(store: PositionStore, findings: seq<Finding>)
    modifies store
    ensures store.rows == WithStatus(old(store.rows), Rejected(findings), RECONCILIATION_REQUIRED)
  {
    var i := 0;
    while i < |findings|
      invariant 0 <= i <= |findings|
      invariant store.rows == WithStatus(old(store.rows), Rejected(findings[..i]), RECONCILIATION_REQUIRED)
    {
      assert findings[..i + 1][..i] == findings[..i];
      if !findings[i].reconciled {
        store.UpdateStatus(findings[i].id, RECONCILIATION_REQUIRED);
      }
      i := i + 1;
    }
    assert findings[..|findings|] == findings;
  }

  /** An exit closes everything, a reduction half, holding nothing. */
  function TargetFor(decision: Decision, quantity: real): real {
    match decision
    case EXIT => quantity
    case REDUCE => quantity / 2.0
    case HOLD => 0.0
  }

  /** No decision when the evaluation raises. */
  method EvaluatePosition(p: Position, m: Market, killSwitch: bool) returns (d: Option<ExitDecision>)
    ensures d.None? <==> Raises(p, m)
    ensures d.Some? ==> DecisionFor(d.value, p, m, killSwitch)
  {
    if ExcursionsRaise(p.entryPrice, UpdateWatermarks(p.marks, MidOf(p, m))) { return None; }
    if TrailingRaises(p) { return None; }
    var reasons, urgency, decision := Evaluate(p, MidOf(p, m), killSwitch, m.features);
    var target := TargetFor(decision, p.quantity);
    d := Some(ExitDecision(p.id, p.symbol, decision, reasons, urgency, target, p.quantity - target));
  }

  ghost predicate DecisionsFor(decisions: seq<ExitDecision>, records: seq<Position>, market: string -> Market,
                               killSwitch: bool)
  {
    |decisions| == |records|
    && forall i :: 0 <= i < |records| ==> DecisionFor(decisions[i], records[i], market(records[i].symbol), killSwitch)
  }

  ghost predicate AnyRaises(records: seq<Position>, market: string -> Market) {
    exists p :: p in records && Raises(p, market(p.symbol))
  }

  /** One row that raises costs the decisions on all. */
  method EvaluateRecords(records: seq<Position>, market: string -> Market, killSwitch: bool)
    returns (decisions: Option<seq<ExitDecision>>)
    ensures decisions.None? <==> AnyRaises(records, market)
    ensures decisions.Some? ==> DecisionsFor(decisions.value, records, market, killSwitch)
  {
    var made := [];
    var i := 0;
    hide DecisionFor, Raises;
    while i < |records|
      invariant 0 <= i <= |records|
      invariant DecisionsFor(made, records[..i], market, killSwitch)
      invariant !AnyRaises(records[..i], market)
    {
      var d := EvaluatePosition(records[i], market(records[i].symbol), killSwitch);
      if d.None? {
        assert records[i] in records;
        return None;
      }
      made := made + [d.value];
      i := i + 1;
    }
    assert records[..|records|] == records;
    decisions := Some(made);
  }

  /** What a pass decides on: open rows that the broker holds on the same side in the same quantity. */
  ghost predicate AllConfirmed(records: seq<Position>, rows: seq<Position>, broker: Broker) {
    forall p :: p in records <==> p in rows && IsOpen(p) && Agrees(p, broker)
  }

  lemma ReconciledKeeps(rows: seq<Position>, broker: Broker)
    requires DistinctIds(rows)
    ensures DistinctIds(Reconciled(rows, broker))
  {
    var after := Reconciled(rows, broker);
    assert forall i :: 0 <= i < |rows| ==> after[i].id == rows[i].id;
  }

  /** A pass sets aside what the broker contradicts and decides exactly the open rows it confirms, in order,
      unless the evaluation of one of them raises: the rows stay set aside, but nothing is decided. */
  method MonitorOnce(store: PositionStore, broker: Broker, market: string -> Market, killSwitch: bool)
    returns (decisions: Option<seq<ExitDecision>>)
    requires store.Valid()
    modifies store
    ensures store.Valid() && store.rows == Reconciled(old(store.rows), broker)
    ensures AllConfirmed(OpenRows(store.rows), old(store.rows), broker)
    ensures decisions.None? <==> AnyRaises(OpenRows(store.rows), market)
    ensures decisions.Some? ==> DecisionsFor(decisions.value, OpenRows(store.rows), market, killSwitch)
  {
    hide Agrees, IsOpen;
    ghost var before := store.rows;
    var findings := ReconcileAll(store, broker);
    MarkingReconciles(before, findings, broker);
    OpenRowsAgree(before, broker);
    ReconciledKeeps(before, broker);
    ApplyReconciliation(store, findings);
    hide Reconciled, DecisionsFor, AnyRaises;
    var records := store.GetOpenPositions();
    decisions := EvaluateRecords(records, market, killSwitch);
  }

  function BrokerQuantity(symbol: string, broker: Broker): real {
    if symbol in broker then Abs(broker[symbol]) else 0.0
  }

  /** A decision of a pass closes and keeps exactly the broker's quantity between them, and never gives the
      reconciliation reason: rows in that state are not evaluated. */
  lemma DecisionMatchesBroker(d: ExitDecision, p: Position, m: Market, killSwitch: bool, broker: Broker)
    requires DecisionFor(d, p, m, killSwitch) && IsOpen(p) && Agrees(p, broker)
    ensures d.target + d.remaining == BrokerQuantity(p.symbol, broker)
    ensures PROVIDER_RECONCILIATION_REQUIRED !in d.reasons
  {
  }

  // ---- Runs --------------------------------------------------------------------------------

  /** What touches the store between and during passes: the pass itself, upserts of whole positions, status
      updates (of exits, say), and the updates of market data. */
  datatype Op =
    | Pass(broker: Broker)
    | Upsert(position: Position)
    | SetStatus(id: string, status: Status)
    | Price(id: string, price: real, notional: real, pnl: real)
    | Marks(id: string, marks: Watermarks)
    | Quantity(id: string, quantity: real)
    | Stop(id: string, stop: Option<real>)

  function Updated(p: Position, op: Op): Position {
    match op
    case Pass(_) => p
    case Upsert(_) => p
    case SetStatus(id, status) => if p.id == id then p.(status := status) else p
    case Price(id, price, notional, pnl) =>
      if p.id == id then p.(currentPrice := price, currentNotional := notional, unrealizedPnl := pnl) else p
    case Marks(id, marks) => if p.id == id then p.(marks := marks) else p
    case Quantity(id, quantity) => if p.id == id then p.(quantity := quantity) else p
    case Stop(id, stop) => if p.id == id then p.(stop := stop) else p
  }

  /** Everything but the fields that the updates of one position write. */
  ghost predicate SameOrigin(p: Position, q: Position) {
    && p.id == q.id && p.symbol == q.symbol && p.instrument == q.instrument && p.side == q.side
    && p.entryPrice == q.entryPrice && p.riskBudgetAtEntry == q.riskBudgetAtEntry && p.heldSeconds == q.heldSeconds
  }

  /** An update of one position leaves every other row alone, and in its own row it writes what it is for. */
  lemma UpdatesAreLocal(rows: seq<Position>, op: Op, k: nat)
    requires k < |rows| && !op.Pass? && !op.Upsert?
    ensures var p, q := rows[k], Step(rows, op)[k];
            && SameOrigin(p, q) && |Step(rows, op)| == |rows|
            && (p.id != op.id ==> q == p)
            && (p.id == op.id && op.SetStatus? ==> q.status == op.status && q.quantity == p.quantity)
            && (p.id == op.id && op.Quantity? ==> q.quantity == op.quantity && q.status == p.status)
            && (p.id == op.id && op.Stop? ==> q.stop == op.stop && q.status == p.status && q.marks == p.marks)
            && (p.id == op.id && op.Marks? ==> q.marks == op.marks && q.status == p.status && q.stop == p.stop)
            && (p.id == op.id && op.Price? ==>
                  && q.currentPrice == op.price && q.currentNotional == op.notional && q.unrealizedPnl == op.pnl
                  && q.status == p.status && q.marks == p.marks && q.stop == p.stop && q.quantity == p.quantity)
  {
  }

  function AllUpdated(rows: seq<Position>, op: Op): (r: seq<Position>)
    ensures |r| == |rows|
  {
    seq(|rows|, i requires 0 <= i < |rows| => Updated(rows[i], op))
  }

  function Step(rows: seq<Position>, op: Op): (r: seq<Position>)
    ensures |r| >= |rows|
  {
    if op.Pass? then Reconciled(rows, op.broker)
    else if op.Upsert? then UpsertedRows(rows, op.position)
    else AllUpdated(rows, op)
  }

  /** The positions that any pass of a run decides on. */
  function EverEvaluated(rows: seq<Position>, ops: seq<Op>): set<string>
    decreases |ops|
  {
    if ops == [] then {}
    else (if ops[0].Pass? then Ids(OpenRows(Step(rows, ops[0]))) else {}) + EverEvaluated(Step(rows, ops[0]), ops[1..])
  }

  /** The row is not open, so passes do not look at it. */
  ghost predicate Dormant(rows: seq<Position>, k: nat)
    requires k < |rows|
  {
    !IsOpen(rows[k])
  }

  /** The step writes an open status over the position. */
  predicate Reopens(op: Op, id: string) {
    || (op.Upsert? && op.position.id == id && IsOpen(op.position))
    || (op.SetStatus? && op.id == id && OpenStatus(op.status))
  }

  lemma StepKeepsDormant(rows: seq<Position>, op: Op, k: nat)
    requires k < |rows| && Dormant(rows, k) && DistinctIds(rows)
    requires !Reopens(op, rows[k].id)
    ensures Dormant(Step(rows, op), k) && DistinctIds(Step(rows, op)) && Step(rows, op)[k].id == rows[k].id
  {
    hide Agrees;
    if op.Upsert? {
      UpsertKeepsIds(rows, op.position);
    } else {
      assert forall i :: 0 <= i < |rows| ==> Step(rows, op)[i].id == rows[i].id;
    }
  }

  /** With distinct ids no other row stands in for a row that is not open. */
  lemma DormantIsNotEvaluated(rows: seq<Position>, k: nat)
    requires k < |rows| && Dormant(rows, k) && DistinctIds(rows)
    ensures rows[k].id !in Ids(OpenRows(rows))
  {
    OpenRowsAre(rows);
    forall p | p in rows && IsOpen(p) ensures p.id != rows[k].id {
      var i :| 0 <= i < |rows| && rows[i] == p;
    }
  }

  /** Once a position is not open, in particular once it needs reconciliation, no later pass of any run
      decides on it again, whatever the broker reports and whatever is stored meanwhile, as long as no
      step writes an open status over it. */
  lemma {:induction false} NeverEvaluatedAgain(rows: seq<Position>, ops: seq<Op>, k: nat)
    requires k < |rows| && Dormant(rows, k) && DistinctIds(rows)
    requires forall op :: op in ops ==> !Reopens(op, rows[k].id)
    ensures rows[k].id !in EverEvaluated(rows, ops)
    decreases |ops|
  {
    if ops != [] {
      assert ops[0] in ops;
      StepKeepsDormant(rows, ops[0], k);
      DormantIsNotEvaluated(Step(rows, ops[0]), k);
      NeverEvaluatedAgain(Step(rows, ops[0]), ops[1..], k);
    }
  }

  /** The upsert overwrites the status too: a dormant position written anew is decided on by the next pass
      exactly when it was written open and the broker confirms it. */
  lemma ReopenedIsEvaluatedIff(rows: seq<Position>, k: nat, p: Position, broker: Broker)
    requires k < |rows| && Dormant(rows, k) && DistinctIds(rows) && p.id == rows[k].id
    ensures p.id in EverEvaluated(rows, [Upsert(p), Pass(broker)]) <==> IsOpen(p) && Agrees(p, broker)
  {
    hide Agrees, IsOpen, Reconciled, UpsertedRows, OpenRows, EverEvaluated;
    UpsertThenPass(rows, p, broker);
    OnlyTheWritten(rows, p);
    OpenRowsAgree(UpsertedRows(rows, p), broker);
    if IsOpen(p) && Agrees(p, broker) {
      assert p in OpenRows(Reconciled(UpsertedRows(rows, p), broker));
    }
  }

  lemma UpsertThenPass(rows: seq<Position>, p: Position, broker: Broker)
    ensures EverEvaluated(rows, [Upsert(p), Pass(broker)]) == Ids(OpenRows(Reconciled(UpsertedRows(rows, p), broker)))
  {
    hide UpsertedRows, Reconciled, OpenRows, Ids;
    var ops := [Upsert(p), Pass(broker)];
    assert ops[1..] == [Pass(broker)] && ops[1..][1..] == [];
    var written := UpsertedRows(rows, p);
    var after := Reconciled(written, broker);
    assert Step(rows, ops[0]) == written && Step(written, ops[1]) == after;
    assert EverEvaluated(after, ops[1..][1..]) == {};
    assert EverEvaluated(written, ops[1..]) == Ids(OpenRows(after));
  }

  lemma OnlyTheWritten(rows: seq<Position>, p: Position)
    requires DistinctIds(rows)
    ensures p in UpsertedRows(rows, p)
    ensures forall q :: q in UpsertedRows(rows, p) && q.id == p.id ==> q == p
  {
    UpsertKeepsIds(rows, p);
    hide UpsertedRows;
    var written := UpsertedRows(rows, p);
    var j :| 0 <= j < |written| && written[j] == p;
    forall q | q in written && q.id == p.id ensures q == p {
      var i :| 0 <= i < |written| && written[i] == q;
      assert i == j;
    }
  }

  /** A single contradicted pass is enough to set a position aside for good. */
  lemma ContradictedOnceMeansNeverAgain(rows: seq<Position>, broker: Broker, ops: seq<Op>, k: nat)
    requires k < |rows| && DistinctIds(rows) && IsOpen(rows[k]) && !Agrees(rows[k], broker)
    requires forall op :: op in ops ==> !Reopens(op, rows[k].id)
    ensures rows[k].id !in EverEvaluated(rows, [Pass(broker)] + ops)
  {
    var after := Reconciled(rows, broker);
    assert forall i :: 0 <= i < |rows| ==> after[i].id == rows[i].id;
    DormantIsNotEvaluated(after, k);
    NeverEvaluatedAgain(after, ops, k);
    assert ([Pass(broker)] + ops)[1..] == ops;
  }

  // ---- What passes leave behind ---------------------------------------------------------------

  function After(rows: seq<Position>, ops: seq<Op>): (r: seq<Position>)
    ensures |r| >= |rows|
    decreases |ops|
  {
    if ops == [] then rows else After(Step(rows, ops[0]), ops[1..])
  }

  /** Passes and status updates; nothing in the program calls the updates of market data. */
  predicate StatusOnly(op: Op) {
    op.Pass? || op.SetStatus?
  }

  lemma StepWritesStatus(rows: seq<Position>, op: Op, k: nat)
    requires k < |rows| && StatusOnly(op)
    ensures |Step(rows, op)| == |rows| && Step(rows, op)[k] == rows[k].(status := Step(rows, op)[k].status)
  {
    hide Agrees, IsOpen;
  }

  /** Over any run of passes and status updates a row keeps everything but its status. */
  lemma {:induction false} RunWritesStatuses(rows: seq<Position>, ops: seq<Op>, k: nat)
    requires k < |rows| && forall op :: op in ops ==> StatusOnly(op)
    ensures |After(rows, ops)| == |rows|
    ensures After(rows, ops)[k] == rows[k].(status := After(rows, ops)[k].status)
    decreases |ops|
  {
    if ops != [] {
      assert ops[0] in ops;
      StepWritesStatus(rows, ops[0], k);
      hide Step;
      RunWritesStatuses(Step(rows, ops[0]), ops[1..], k);
    }
  }

  /** So after any such run, whatever the market did, a decision gives the maximum loss as a reason exactly when
      the row as it was first stored did, never for a row stored without profit or loss, and it never gives the
      trailing stop for a row stored without marks. */
  lemma StoredMarksDecide(rows: seq<Position>, ops: seq<Op>, k: nat, d: ExitDecision, m: Market, killSwitch: bool)
    requires k < |rows| && forall op :: op in ops ==> StatusOnly(op)
    requires DecisionFor(d, After(rows, ops)[k], m, killSwitch)
    ensures MAX_LOSS_REACHED in d.reasons <==> MaxLossHit(rows[k])
    ensures rows[k].unrealizedPnl == 0.0 ==> MAX_LOSS_REACHED !in d.reasons
    ensures TRAILING_STOP_TRIGGERED in d.reasons <==> TrailingStopHit(rows[k], MidOf(rows[k], m))
    ensures rows[k].marks == UNSEEN ==> TRAILING_STOP_TRIGGERED !in d.reasons
  {
    RunWritesStatuses(rows, ops, k);
    MarksPlayTheirPart(rows[k], After(rows, ops)[k].status, m);
    hide After, IsHighest, MaxLossHit, TrailingStopHit, MidOf, StopHit;
  }

  lemma MarksPlayTheirPart(p: Position, status: Status, m: Market)
    ensures var q := p.(status := status);
            && MidOf(q, m) == MidOf(p, m) && MaxLossHit(q) == MaxLossHit(p)
            && TrailingStopHit(q, MidOf(p, m)) == TrailingStopHit(p, MidOf(p, m))
    ensures p.unrealizedPnl == 0.0 ==> !MaxLossHit(p)
    ensures p.marks == UNSEEN ==> !TrailingStopHit(p, MidOf(p, m))
  {
  }
}
