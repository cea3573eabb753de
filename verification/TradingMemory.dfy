/** The trading memory: evaluating closed positions into its tables, again and again (M8). */
module TradingMemory {
  import opened Wrappers
  import opened TradeRecords
  import ExitRules

  /** The six evaluation tables, each with the trade id as primary key. */
  datatype Table =
    | TRADE_OUTCOMES | THESIS_EVALUATIONS | EXECUTION_QUALITY | EXIT_QUALITY | RISK_OUTCOMES | INSTRUMENT_OUTCOMES

  const TABLES: seq<Table> :=
    [TRADE_OUTCOMES, THESIS_EVALUATIONS, EXECUTION_QUALITY, EXIT_QUALITY, RISK_OUTCOMES, INSTRUMENT_OUTCOMES]

  /** What one evaluation of a position computes. The contents of the six tables' rows and of the agents'
      records (name and content) are left abstract. */
  datatype Evaluation = Evaluation(
    positionId: string, status: ExitRules.Status, now: int, symbol: string, numbers: map<Column, real>,
    exitReasonCodes: seq<string>, dataQualityFlags: seq<string>,
    payload: Table -> string, agents: seq<(string, string)>)

  /** All tables: trade records in row order, evaluations by table and trade, agents by trade and name. */
  datatype Memory = Memory(
    trades: seq<Row>, evaluations: map<(Table, string), string>, agents: map<(string, string), string>)

  /** Only positions that are closed, or whose exit is pending, are evaluated. */
  predicate Evaluable(e: Evaluation) {
    e.status.CLOSED? || e.status.EXIT_PENDING?
  }

  const EMPTY := Memory([], map[], map[])

  function TradeId(positionId: string): string { "trade-" + positionId }

  /** The evaluator's record for a position, before it is merged with an earlier one. */
  function FreshRecord(e: Evaluation): TradeRecord {
    TradeRecord(TradeId(e.positionId), e.positionId, e.symbol, e.numbers, e.exitReasonCodes, e.dataQualityFlags,
                e.now, e.now, 1)
  }

  function RowFor(trades: seq<Row>, positionId: string): Option<Row> {
    if trades == [] then None
    else if trades[0].positionId == positionId then Some(trades[0])
    else RowFor(trades[1..], positionId)
  }

  /** The version is raised once for the merge and once for the copy. */
  function Merged(record: TradeRecord, existing: Option<Row>): TradeRecord {
    if existing.None? then record
    else
      var earlier := Load(existing.value);
      record.(tradeId := earlier.tradeId, createdAt := earlier.createdAt, version := (earlier.version + 1) + 1)
  }

  /** ON CONFLICT(trade_id): every column but the creation time. */
  function Upserted(trades: seq<Row>, row: Row): seq<Row> {
    if trades == [] then [row]
    else if trades[0].tradeId == row.tradeId then [row.(createdAt := trades[0].createdAt)] + trades[1..]
    else [trades[0]] + Upserted(trades[1..], row)
  }

  /** Another trade already has the position: the UNIQUE constraint fails. */
  predicate Violates(trades: seq<Row>, row: Row) {
    exists i :: 0 <= i < |trades| && trades[i].positionId == row.positionId && trades[i].tradeId != row.tradeId
  }

  function WithAgents(agents: map<(string, string), string>, tradeId: string, records: seq<(string, string)>)
    : map<(string, string), string>
  {
    if records == [] then agents
    else
      var last := records[|records| - 1];
      WithAgents(agents, tradeId, records[..|records| - 1])[(tradeId, last.0) := last.1]
  }

  function WithTables(evaluations: map<(Table, string), string>, tradeId: string, tables: seq<Table>,
                      payload: Table -> string)
    : map<(Table, string), string>
  {
    if tables == [] then evaluations
    else
      var last := tables[|tables| - 1];
      WithTables(evaluations, tradeId, tables[..|tables| - 1], payload)[(last, tradeId) := payload(last)]
  }

  /** The row an evaluation writes. */
  function NextRow(trades: seq<Row>, e: Evaluation): Row {
    Save(Merged(FreshRecord(e), RowFor(trades, e.positionId)))
  }

  /** The memory after an evaluation; other positions are refused before anything is written. */
  function Evaluated(m: Memory, e: Evaluation): Memory {
    var row := NextRow(m.trades, e);
    if !Evaluable(e) || Violates(m.trades, row) then m
    else
      Memory(Upserted(m.trades, row), WithTables(m.evaluations, TradeId(e.positionId), TABLES, e.payload),
             WithAgents(m.agents, TradeId(e.positionId), e.agents))
  }

  // ---- The store and the service -----------------------------------------------------------

  class TradingMemoryStore {
    var trades: seq<Row>
    var evaluations: map<(Table, string), string>
    var agents: map<(string, string), string>

    function Contents(): Memory
      reads this
    {
      Memory(trades, evaluations, agents)
    }

    constructor ()
      ensures Contents() == EMPTY
    {
      trades, evaluations, agents := [], map[], map[];
    }

    method GetTradeRecordByPositionId(positionId: string) returns (row: Option<Row>)
      ensures row == RowFor(trades, positionId)
    {
      var i := 0;
      while i < |trades|
        invariant 0 <= i <= |trades|
        invariant RowFor(trades, positionId) == RowFor(trades[i..], positionId)
      {
        if trades[i].positionId == positionId {
          return Some(trades[i]);
        }
        i := i + 1;
      }
      row := None;
    }

    method UpsertTradeRecord(record: TradeRecord) returns (ok: bool)
      modifies this`trades
      ensures ok == !Violates(old(trades), Save(record))
      ensures trades == if ok then Upserted(old(trades), Save(record)) else old(trades)
    {
      var row := Save(record);
      ok := !Violates(trades, row);
      if ok {
        trades := Upserted(trades, row);
      }
    }

    method UpsertEvaluation(table: Table, tradeId: string, payload: string)
      modifies this`evaluations
      ensures evaluations == old(evaluations)[(table, tradeId) := payload]
    {
      evaluations := evaluations[(table, tradeId) := payload];
    }

    method UpsertAgentPerformance(tradeId: string, agent: string, payload: string)
      modifies this`agents
      ensures agents == old(agents)[(tradeId, agent) := payload]
    {
      agents := agents[(tradeId, agent) := payload];
    }
  }

  method EvaluateClosedPosition(store: TradingMemoryStore, e: Evaluation) returns (ok: bool)
    modifies store
    ensures store.Contents() == Evaluated(old(store.Contents()), e)
    ensures ok <==> Evaluable(e) && !Violates(old(store.trades), NextRow(old(store.trades), e))
  {
    hide Save, Merged, FreshRecord, Upserted, Violates, TradeId, RowFor;
    var existing := store.GetTradeRecordByPositionId(e.positionId);
    if !Evaluable(e) {
      return false;
    }
    var record := Merged(FreshRecord(e), existing);
    ok := store.UpsertTradeRecord(record);
    if !ok {
      return;
    }
    var tradeId := TradeId(e.positionId);
    var i := 0;
    while i < |TABLES|
      modifies store`evaluations
      invariant 0 <= i <= |TABLES|
      invariant store.evaluations == WithTables(old(store.evaluations), tradeId, TABLES[..i], e.payload)
    {
      assert TABLES[..i + 1][..i] == TABLES[..i];
      store.UpsertEvaluation(TABLES[i], tradeId, e.payload(TABLES[i]));
      i := i + 1;
    }
    assert TABLES[..|TABLES|] == TABLES;
    var j := 0;
    while j < |e.agents|
      modifies store`agents
      invariant 0 <= j <= |e.agents|
      invariant store.agents == WithAgents(old(store.agents), tradeId, e.agents[..j])
    {
      assert e.agents[..j + 1][..j] == e.agents[..j];
      store.UpsertAgentPerformance(tradeId, e.agents[j].0, e.agents[j].1);
      j := j + 1;
    }
    assert e.agents[..|e.agents|] == e.agents;
  }

  lemma NothingCounted()
    ensures OutcomesOf(AllLoaded([])) == Outcomes(0, 0, 0, 0)
  {
  }

  /** The win and loss counts of the performance summary. */
  method CountOutcomes(store: TradingMemoryStore) returns (trades: nat, wins: nat, losses: nat, breakevens: nat)
    ensures Outcomes(trades, wins, losses, breakevens) == OutcomesOf(AllLoaded(store.trades))
  {
    hide Load, AllLoaded, OutcomesOf;
    assert OutcomesOf(AllLoaded(store.trades[..0])) == Outcomes(0, 0, 0, 0) by { NothingCounted(); }
    trades, wins, losses, breakevens := 0, 0, 0, 0;
    var i := 0;
    while i < |store.trades|
      invariant 0 <= i <= |store.trades|
      invariant Outcomes(trades, wins, losses, breakevens) == OutcomesOf(AllLoaded(store.trades[..i]))
    {
      assert store.trades[..i + 1] == store.trades[..i] + [store.trades[i]];
      OutcomesSnoc(store.trades[..i], store.trades[i]);
      var r := Load(store.trades[i]);
      if IsComplete(r) {
        var pnl := r.numbers[REALIZED_PNL];
        trades := trades + 1;
        if pnl > 0.0 { wins := wins + 1; }
        if pnl < 0.0 { losses := losses + 1; }
        if pnl == 0.0 { breakevens := breakevens + 1; }
      }
      i := i + 1;
    }
    assert store.trades[..|store.trades|] == store.trades;
  }

  /** A row is refused exactly when some row of the table has its position under another trade id. */
  lemma ViolatesIff(trades: seq<Row>, row: Row)
    ensures Violates(trades, row) <==>
              exists other :: other in trades && other.positionId == row.positionId && other.tradeId != row.tradeId
  {
    if other :| other in trades && other.positionId == row.positionId && other.tradeId != row.tradeId {
      var i :| 0 <= i < |trades| && trades[i] == other;
    }
  }

  /** A position that is closed, or whose exit is pending, is recorded; one of any other status changes nothing. */
  lemma StatusDecides(m: Memory, e: Evaluation)
    ensures e.status in {ExitRules.CLOSED, ExitRules.EXIT_PENDING} && !Violates(m.trades, NextRow(m.trades, e)) ==>
              exists row :: row in Evaluated(m, e).trades && row.positionId == e.positionId
    ensures e.status !in {ExitRules.CLOSED, ExitRules.EXIT_PENDING} ==> Evaluated(m, e) == m
  {
    UpsertedHolds(m.trades, NextRow(m.trades, e));
    hide Upserted, Violates, Join, RowFor;
  }

  lemma {:induction false} UpsertedHolds(trades: seq<Row>, row: Row)
    ensures exists r :: r in Upserted(trades, row) && r.tradeId == row.tradeId && r.positionId == row.positionId
  {
    if trades == [] {
      assert row in Upserted(trades, row);
    } else if trades[0].tradeId == row.tradeId {
      assert Upserted(trades, row)[0] in Upserted(trades, row);
    } else {
      UpsertedHolds(trades[1..], row);
      var r :| r in Upserted(trades[1..], row) && r.tradeId == row.tradeId && r.positionId == row.positionId;
      assert r in Upserted(trades, row);
    }
  }

  // ---- Runs -----------------------------------------------------------------------------------

  function Run(m: Memory, run: seq<Evaluation>): Memory {
    if run == [] then m else Evaluated(Run(m, run[..|run| - 1]), run[|run| - 1])
  }

  predicate Evaluates(e: Evaluation, positionId: string) {
    Evaluable(e) && e.positionId == positionId
  }

  /** How often a run evaluates a position. */
  function Times(run: seq<Evaluation>, positionId: string): nat {
    if run == [] then 0
    else Times(run[..|run| - 1], positionId)
         + (if Evaluates(run[|run| - 1], positionId) then 1 else 0)
  }

  /** When it first did. */
  function FirstTime(run: seq<Evaluation>, positionId: string): int
    requires Times(run, positionId) > 0
  {
    if Times(run[..|run| - 1], positionId) > 0 then FirstTime(run[..|run| - 1], positionId) else run[|run| - 1].now
  }

  function RowsOf(trades: seq<Row>, positionId: string): nat {
    if trades == [] then 0
    else (if trades[0].positionId == positionId then 1 else 0) + RowsOf(trades[1..], positionId)
  }

  /** Every row belongs to the position its trade id names, and was written by the store. */
  ghost predicate Kept(trades: seq<Row>) {
    forall i :: 0 <= i < |trades| ==> trades[i].tradeId == TradeId(trades[i].positionId) && Written(trades[i])
  }

  lemma TradeIdInjective(a: string, b: string)
    requires TradeId(a) == TradeId(b)
    ensures a == b
  {
    assert TradeId(a)[6..] == a && TradeId(b)[6..] == b;
  }

  /** Writing a position's row touches no other position's row, and leaves exactly one of its own. */
  lemma {:induction false} UpsertedRows(trades: seq<Row>, row: Row, positionId: string)
    requires Kept(trades) && row.tradeId == TradeId(row.positionId) && Written(row)
    requires RowsOf(trades, row.positionId) <= 1
    ensures Kept(Upserted(trades, row))
    ensures RowsOf(Upserted(trades, row), positionId)
         == if positionId == row.positionId then 1 else RowsOf(trades, positionId)
    ensures RowFor(Upserted(trades, row), positionId)
         == if positionId != row.positionId then RowFor(trades, positionId)
            else if RowFor(trades, positionId).None? then Some(row)
            else Some(row.(createdAt := RowFor(trades, positionId).value.createdAt))
  {
    if trades != [] {
      var head, rest := trades[0], trades[1..];
      assert trades == [head] + rest;
      assert Kept(rest);
      if head.tradeId == row.tradeId {
        TradeIdInjective(head.positionId, row.positionId);
        var written := row.(createdAt := head.createdAt);
        assert ([written] + rest)[1..] == rest;
      } else {
        UpsertedRows(rest, row, positionId);
        assert ([head] + Upserted(rest, row))[1..] == Upserted(rest, row);
      }
    }
  }

  lemma {:induction false} RowForBelongs(trades: seq<Row>, positionId: string)
    requires Kept(trades)
    ensures RowFor(trades, positionId).Some? <==> RowsOf(trades, positionId) > 0
    ensures RowFor(trades, positionId).Some? ==>
              RowFor(trades, positionId).value.tradeId == TradeId(positionId)
              && RowFor(trades, positionId).value.positionId == positionId
  {
    if trades != [] {
      assert Kept(trades[1..]);
      RowForBelongs(trades[1..], positionId);
    }
  }

  lemma NeverViolates(trades: seq<Row>, row: Row)
    requires Kept(trades) && row.tradeId == TradeId(row.positionId)
    ensures !Violates(trades, row)
  {
  }

  /** What holds of a position after a run: one row once evaluated, its trade id and creation time those of
      the first evaluation, and the version two higher with every further one. */
  ghost predicate Accounted(trades: seq<Row>, run: seq<Evaluation>, positionId: string) {
    var row := RowFor(trades, positionId);
    var times := Times(run, positionId);
    && RowsOf(trades, positionId) == (if times == 0 then 0 else 1)
    && (row.Some? <==> times > 0)
    && (times > 0 ==>
          && row.value.tradeId == TradeId(positionId)
          && row.value.createdAt == FirstTime(run, positionId)
          && row.value.version == 2 * times - 1)
  }

  /** The row a closed evaluation writes. */
  lemma MergedRow(trades: seq<Row>, e: Evaluation)
    requires Kept(trades)
    ensures var existing := RowFor(trades, e.positionId);
            var row := NextRow(trades, e);
            && row.positionId == e.positionId && row.tradeId == TradeId(e.positionId) && Written(row)
            && row.version == (if existing.None? then 1 else existing.value.version + 2)
            && row.createdAt == (if existing.None? then e.now else existing.value.createdAt)
  {
    RowForBelongs(trades, e.positionId);
    SavedIsWritten(Merged(FreshRecord(e), RowFor(trades, e.positionId)));
    hide Join, ReadCodes, NonZero, Written;
  }

  /** Over any run of evaluations of any positions, whatever their status, in any order. */
  lemma {:induction false} RunAccounts(run: seq<Evaluation>, positionId: string)
    ensures var m := Run(EMPTY, run);
            Kept(m.trades) && Accounted(m.trades, run, positionId)
  {
    if run != [] {
      var front, e := run[..|run| - 1], run[|run| - 1];
      var m := Run(EMPTY, front);
      RunAccounts(front, positionId);
      RunAccounts(front, e.positionId);
      if Evaluable(e) {
        MergedRow(m.trades, e);
        var row := NextRow(m.trades, e);
        hide NextRow, WithTables, WithAgents, Violates, Kept;
        NeverViolates(m.trades, row);
        UpsertedRows(m.trades, row, positionId);
      }
    }
  }

  // ---- The evaluation tables -------------------------------------------------------------------

  lemma {:induction false} TablesWritten(evaluations: map<(Table, string), string>, tradeId: string, tables: seq<Table>,
                                         payload: Table -> string, k: (Table, string))
    ensures var after := WithTables(evaluations, tradeId, tables, payload);
            && (k in after <==> k in evaluations || (k.1 == tradeId && k.0 in tables))
            && (k.1 == tradeId && k.0 in tables ==> after[k] == payload(k.0))
            && (!(k.1 == tradeId && k.0 in tables) && k in evaluations ==> after[k] == evaluations[k])
  {
    if tables != [] {
      TablesWritten(evaluations, tradeId, tables[..|tables| - 1], payload, k);
      assert tables == tables[..|tables| - 1] + [tables[|tables| - 1]];
    }
  }

  lemma EveryTable(t: Table)
    ensures t in TABLES
  {
    var i := match t
      case TRADE_OUTCOMES => 0
      case THESIS_EVALUATIONS => 1
      case EXECUTION_QUALITY => 2
      case EXIT_QUALITY => 3
      case RISK_OUTCOMES => 4
      case INSTRUMENT_OUTCOMES => 5;
    assert TABLES[i] == t;
  }

  /** What the last evaluation of a position in a run computed for a table. */
  function LastPayload(run: seq<Evaluation>, positionId: string, t: Table): string
    requires Times(run, positionId) > 0
  {
    var last := run[|run| - 1];
    if Evaluates(last, positionId) then last.payload(t) else LastPayload(run[..|run| - 1], positionId, t)
  }

  /** A step of a run writes its own row without a violation. */
  lemma RunStep(run: seq<Evaluation>)
    requires run != []
    ensures var m, e := Run(EMPTY, run[..|run| - 1]), run[|run| - 1];
            var after := Run(EMPTY, run);
            if Evaluable(e) then
              && after.evaluations == WithTables(m.evaluations, TradeId(e.positionId), TABLES, e.payload)
              && after.agents == WithAgents(m.agents, TradeId(e.positionId), e.agents)
            else after == m
  {
    var front, e := run[..|run| - 1], run[|run| - 1];
    RunAccounts(front, e.positionId);
    MergedRow(Run(EMPTY, front).trades, e);
    hide NextRow, WithTables, WithAgents, Kept, Accounted;
    NeverViolates(Run(EMPTY, front).trades, NextRow(Run(EMPTY, front).trades, e));
  }

  /** Every evaluation table has a row for a trade exactly when the trade record exists, one row, holding what
      the last evaluation computed. */
  lemma {:induction false} TablesFollowRecords(run: seq<Evaluation>, positionId: string, t: Table)
    ensures var k := (t, TradeId(positionId)); var evaluations := Run(EMPTY, run).evaluations;
            && (k in evaluations <==> Times(run, positionId) > 0)
            && (k in evaluations ==> evaluations[k] == LastPayload(run, positionId, t))
  {
    if run != [] {
      var front, e := run[..|run| - 1], run[|run| - 1];
      TablesFollowRecords(front, positionId, t);
      RunStep(run);
      hide Run, WithTables, TradeId;
      TablesWritten(Run(EMPTY, front).evaluations, TradeId(e.positionId), TABLES, e.payload, (t, TradeId(positionId)));
      EveryTable(t);
      if TradeId(positionId) == TradeId(e.positionId) {
        TradeIdInjective(positionId, e.positionId);
      }
    }
  }

  // ---- The agents' records -------------------------------------------------------------------------

  /** The last record of an agent in a list. */
  function RecordOf(records: seq<(string, string)>, agent: string): Option<string> {
    if records == [] then None
    else if records[|records| - 1].0 == agent then Some(records[|records| - 1].1)
    else RecordOf(records[..|records| - 1], agent)
  }

  /** The last record of an agent in all evaluations of a position. */
  function LastRecord(run: seq<Evaluation>, positionId: string, agent: string): Option<string> {
    if run == [] then None
    else
      var last := run[|run| - 1];
      if Evaluates(last, positionId) && RecordOf(last.agents, agent).Some? then RecordOf(last.agents, agent)
      else LastRecord(run[..|run| - 1], positionId, agent)
  }

  lemma {:induction false} AgentsWritten(agents: map<(string, string), string>, tradeId: string,
                                         records: seq<(string, string)>, k: (string, string))
    ensures var after := WithAgents(agents, tradeId, records);
            if k.0 == tradeId && RecordOf(records, k.1).Some?
            then k in after && after[k] == RecordOf(records, k.1).value
            else (k in after <==> k in agents) && (k in agents ==> after[k] == agents[k])
  {
    if records != [] {
      AgentsWritten(agents, tradeId, records[..|records| - 1], k);
    }
  }

  /** Over any run there is one record per trade and agent, exactly for the agents that some evaluation of the
      position reported, and it is the one last reported: agents missing from a later evaluation keep theirs. */
  lemma {:induction false} AgentsFollowRecords(run: seq<Evaluation>, positionId: string, agent: string)
    ensures var k := (TradeId(positionId), agent); var agents := Run(EMPTY, run).agents;
            && (k in agents <==> LastRecord(run, positionId, agent).Some?)
            && (k in agents ==> Some(agents[k]) == LastRecord(run, positionId, agent))
  {
    if run != [] {
      var front, e := run[..|run| - 1], run[|run| - 1];
      AgentsFollowRecords(front, positionId, agent);
      RunStep(run);
      hide Run, WithAgents, TradeId, RecordOf;
      AgentsWritten(Run(EMPTY, front).agents, TradeId(e.positionId), e.agents, (TradeId(positionId), agent));
      if TradeId(positionId) == TradeId(e.positionId) {
        TradeIdInjective(positionId, e.positionId);
      }
    }
  }

  /** Whatever was evaluated, break-even or not, the summary's wins and losses make up all completed trades. */
  lemma SummaryNeverBreaksEven(run: seq<Evaluation>)
    ensures var o := OutcomesOf(AllLoaded(Run(EMPTY, run).trades)); o.breakevens == 0 && o.trades == o.wins + o.losses
  {
    RunAccounts(run, "");
    var trades := Run(EMPTY, run).trades;
    forall row | row in trades ensures Written(row) {
      var i :| 0 <= i < |trades| && trades[i] == row;
    }
    LoadedNeverBreakEven(trades);
  }
}
