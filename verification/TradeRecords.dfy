/** Saving and loading trade records (M8), and what is lost on the way. */
module TradeRecords {

  /** The numeric columns; an optional number that is absent is not in the record's map. */
  datatype Column =
    | ENTRY_PRICE | EXIT_PRICE | ENTRY_QUANTITY | EXIT_QUANTITY | ENTRY_NOTIONAL | EXIT_NOTIONAL
    | REALIZED_PNL | RETURN_PCT | MFE_AMOUNT | MFE_PCT | MFE_R_MULTIPLE | MAE_AMOUNT | MAE_PCT | MAE_R_MULTIPLE
    | INITIAL_RISK_AMOUNT | R_MULTIPLE | RISK_BUDGET | MAX_POSITION_NOTIONAL | INITIAL_STOP
    | COMMITTEE_CONFIDENCE | INSTRUMENT_SELECTION_SCORE

  datatype TradeRecord = TradeRecord(
    tradeId: string, positionId: string, symbol: string, numbers: map<Column, real>,
    exitReasonCodes: seq<string>, dataQualityFlags: seq<string>, createdAt: int, updatedAt: int, version: int)

  /** A row of the table: code lists are one comma-separated text each. */
  datatype Row = Row(
    tradeId: string, positionId: string, symbol: string, numbers: map<Column, real>,
    exitReasonCodes: string, dataQualityFlags: string, createdAt: int, updatedAt: int, version: int)

  /** A number is written only when it is truthy: zeros are stored as NULL. */
  function NonZero(numbers: map<Column, real>): map<Column, real> {
    map c | c in numbers && numbers[c] != 0.0 :: numbers[c]
  }

  function Join(codes: seq<string>): string {
    if codes == [] then ""
    else if |codes| == 1 then codes[0]
    else codes[0] + [','] + Join(codes[1..])
  }

  /** Python's `split(",")`: always at least one piece. */
  function Split(text: string): (pieces: seq<string>)
    ensures |pieces| >= 1
  {
    if text == "" then [""]
    else
      var rest := Split(text[1..]);
      if text[0] == ',' then [""] + rest else [[text[0]] + rest[0]] + rest[1..]
  }

  function ReadCodes(text: string): seq<string> {
    if text == "" then [] else Split(text)
  }

  function Save(r: TradeRecord): Row {
    Row(r.tradeId, r.positionId, r.symbol, NonZero(r.numbers), Join(r.exitReasonCodes), Join(r.dataQualityFlags),
        r.createdAt, r.updatedAt, r.version)
  }

  function Load(row: Row): TradeRecord {
    TradeRecord(row.tradeId, row.positionId, row.symbol, row.numbers, ReadCodes(row.exitReasonCodes),
                ReadCodes(row.dataQualityFlags), row.createdAt, row.updatedAt, row.version)
  }

  // ---- Code lists ------------------------------------------------------------------------

  ghost predicate CommaFree(codes: seq<string>) {
    forall i :: 0 <= i < |codes| ==> ',' !in codes[i]
  }

  lemma {:induction false} SplitWord(word: string)
    requires ',' !in word
    ensures Split(word) == [word]
  {
    if word != "" {
      SplitWord(word[1..]);
      assert word == [word[0]] + word[1..];
    }
  }

  lemma {:induction false} SplitAfterWord(word: string, rest: string)
    requires ',' !in word
    ensures Split(word + [','] + rest) == [word] + Split(rest)
  {
    var text := word + [','] + rest;
    if word == "" {
      assert text[1..] == rest;
    } else {
      assert text[1..] == word[1..] + [','] + rest;
      SplitAfterWord(word[1..], rest);
      assert word == [word[0]] + word[1..];
    }
  }

  lemma {:induction false} SplitJoin(codes: seq<string>)
    requires codes != [] && CommaFree(codes)
    ensures Split(Join(codes)) == codes
  {
    if |codes| == 1 {
      SplitWord(codes[0]);
    } else {
      SplitJoin(codes[1..]);
      SplitAfterWord(codes[0], Join(codes[1..]));
    }
  }

  lemma {:induction false} SplitIsCommaFree(text: string)
    ensures CommaFree(Split(text))
  {
    if text != "" {
      SplitIsCommaFree(text[1..]);
    }
  }

  lemma JoinEmpty(codes: seq<string>)
    ensures Join(codes) == "" <==> codes == [] || codes == [""]
  {
    if |codes| > 1 {
      assert |Join(codes)| >= 1;
    }
  }

  /** A code list survives exactly when no code contains a comma and it is not the single empty code. */
  lemma CodesRoundTripIff(codes: seq<string>)
    ensures ReadCodes(Join(codes)) == codes <==> CommaFree(codes) && codes != [""]
  {
    JoinEmpty(codes);
    SplitIsCommaFree(Join(codes));
    if codes != [] && CommaFree(codes) {
      SplitJoin(codes);
    }
  }

  // ---- Records ---------------------------------------------------------------------------

  /** The exact normal form: everything survives but numbers that are zero, which come back absent, and
      code lists that are not comma-free. */
  lemma LoadSaveIs(r: TradeRecord)
    ensures Load(Save(r)) == r.(numbers := NonZero(r.numbers)) <==>
              && CommaFree(r.exitReasonCodes) && r.exitReasonCodes != [""]
              && CommaFree(r.dataQualityFlags) && r.dataQualityFlags != [""]
  {
    CodesRoundTripIff(r.exitReasonCodes);
    CodesRoundTripIff(r.dataQualityFlags);
    hide Join, ReadCodes;
  }

  /** What is loaded is saved again unchanged. */
  lemma SaveLoadSave(r: TradeRecord)
    requires CommaFree(r.exitReasonCodes) && r.exitReasonCodes != [""]
    requires CommaFree(r.dataQualityFlags) && r.dataQualityFlags != [""]
    ensures Save(Load(Save(r))) == Save(r)
  {
    LoadSaveIs(r);
    assert NonZero(NonZero(r.numbers)) == NonZero(r.numbers);
  }

  // ---- Analytics --------------------------------------------------------------------------

  predicate IsComplete(r: TradeRecord) {
    ENTRY_PRICE in r.numbers && EXIT_PRICE in r.numbers && ENTRY_QUANTITY in r.numbers && REALIZED_PNL in r.numbers
  }

  /** A saved trade counts as completed exactly when none of its four required numbers was zero: a trade
      that broke even is no longer complete after loading. */
  lemma CompleteAfterLoading(r: TradeRecord)
    ensures IsComplete(Load(Save(r))) <==>
              && IsComplete(r) && r.numbers[ENTRY_PRICE] != 0.0 && r.numbers[EXIT_PRICE] != 0.0
              && r.numbers[ENTRY_QUANTITY] != 0.0 && r.numbers[REALIZED_PNL] != 0.0
  {
    hide ReadCodes;
  }

  datatype Outcomes = Outcomes(trades: nat, wins: nat, losses: nat, breakevens: nat)

  function Counted(o: Outcomes, r: TradeRecord): Outcomes {
    if !IsComplete(r) then o
    else
      var pnl := r.numbers[REALIZED_PNL];
      Outcomes(o.trades + 1, o.wins + (if pnl > 0.0 then 1 else 0), o.losses + (if pnl < 0.0 then 1 else 0),
               o.breakevens + (if pnl == 0.0 then 1 else 0))
  }

  function OutcomesOf(records: seq<TradeRecord>): Outcomes {
    if records == [] then Outcomes(0, 0, 0, 0)
    else Counted(OutcomesOf(records[..|records| - 1]), records[|records| - 1])
  }

  lemma OutcomesSnoc(rows: seq<Row>, row: Row)
    ensures OutcomesOf(AllLoaded(rows + [row])) == Counted(OutcomesOf(AllLoaded(rows)), Load(row))
  {
    hide Load, Counted;
    assert (rows + [row])[..|rows|] == rows;
    var loaded := AllLoaded(rows);
    assert (loaded + [Load(row)])[..|loaded|] == loaded;
  }

  lemma {:induction false} OutcomesPartition(records: seq<TradeRecord>)
    ensures var o := OutcomesOf(records); o.trades == o.wins + o.losses + o.breakevens
  {
    if records != [] {
      OutcomesPartition(records[..|records| - 1]);
    }
  }

  /** The places of the completed trades whose profit is of a kind. */
  ghost function CompletedWith(records: seq<TradeRecord>, kind: real -> bool): set<int> {
    set i | 0 <= i < |records| && IsComplete(records[i]) && kind(records[i].numbers[REALIZED_PNL])
  }

  lemma CompletedSnoc(records: seq<TradeRecord>, kind: real -> bool)
    requires records != []
    ensures var n := |records| - 1;
            CompletedWith(records, kind) == CompletedWith(records[..n], kind)
              + if IsComplete(records[n]) && kind(records[n].numbers[REALIZED_PNL]) then {n} else {}
  {
  }

  /** Wins are the completed trades with a profit, losses those with a loss, break-evens those with neither. */
  lemma {:induction false} OutcomesAreCounts(records: seq<TradeRecord>)
    ensures var o := OutcomesOf(records);
            && o.trades == |CompletedWith(records, (x: real) => true)|
            && o.wins == |CompletedWith(records, (x: real) => x > 0.0)|
            && o.losses == |CompletedWith(records, (x: real) => x < 0.0)|
            && o.breakevens == |CompletedWith(records, (x: real) => x == 0.0)|
  {
    if records == [] {
      assert CompletedWith(records, (x: real) => true) == {};
      assert CompletedWith(records, (x: real) => x > 0.0) == {};
      assert CompletedWith(records, (x: real) => x < 0.0) == {};
      assert CompletedWith(records, (x: real) => x == 0.0) == {};
    } else {
      OutcomesAreCounts(records[..|records| - 1]);
      CompletedSnoc(records, (x: real) => true);
      CompletedSnoc(records, (x: real) => x > 0.0);
      CompletedSnoc(records, (x: real) => x < 0.0);
      CompletedSnoc(records, (x: real) => x == 0.0);
    }
  }

  function AllLoaded(rows: seq<Row>): seq<TradeRecord> {
    if rows == [] then [] else AllLoaded(rows[..|rows| - 1]) + [Load(rows[|rows| - 1])]
  }

  /** A row as the store writes it. */
  ghost predicate Written(row: Row) {
    forall c :: c in row.numbers ==> row.numbers[c] != 0.0
  }

  lemma SavedIsWritten(r: TradeRecord)
    ensures Written(Save(r))
  {
    hide Join;
  }

  /** No trade read back from the store ever counts as a break-even. */
  lemma {:induction false} LoadedNeverBreakEven(rows: seq<Row>)
    requires forall row :: row in rows ==> Written(row)
    ensures var o := OutcomesOf(AllLoaded(rows)); o.breakevens == 0 && o.trades == o.wins + o.losses
  {
    OutcomesPartition(AllLoaded(rows));
    if rows != [] {
      var front := rows[..|rows| - 1];
      LoadedNeverBreakEven(front);
      assert Written(rows[|rows| - 1]);
      var all := AllLoaded(rows);
      assert all[..|all| - 1] == AllLoaded(front);
    }
  }
}
