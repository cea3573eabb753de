/** The durable `executions` table: primary key, UNIQUE idempotency key, one atomic step per method. */
module ExecutionStore {
  import opened Wrappers

  /** Position of an order in the broker's log; it stands for the broker's order id. */
  type OrderId = nat

  datatype Row = Row(
    idempotencyKey: string,
    clientOrderId: string,
    authorized: bool,
    providerOrderId: Option<OrderId>,
    providerStatus: Option<string>,
    createdAt: int,
    submittedAt: Option<int>,
    updatedAt: int)

  /** Rows by execution plan id, the primary key. */
  type Table = map<string, Row>

  /** The UNIQUE constraint on idempotency_key. */
  ghost predicate UniqueKeys(t: Table) {
    forall p, q :: p in t && q in t && t[p].idempotencyKey == t[q].idempotencyKey ==> p == q
  }

  predicate UpsertConflicts(t: Table, planId: string, idempotencyKey: string) {
    exists q :: q in t && q != planId && t[q].idempotencyKey == idempotencyKey
  }

  /** ON CONFLICT(execution_plan_id) DO UPDATE replaces every column but created_at. */
  function Upserted(t: Table, planId: string, row: Row): Table {
    t[planId := if planId in t then row.(createdAt := t[planId].createdAt) else row]
  }

  function WithProviderInfo(t: Table, planId: string, id: OrderId, status: string, submittedAt: int, now: int): Table {
    if planId in t then
      t[planId := t[planId].(providerOrderId := Some(id), providerStatus := Some(status),
                             submittedAt := Some(submittedAt), updatedAt := now)]
    else t
  }

  function WithStatus(t: Table, planId: string, status: string, now: int): Table {
    if planId in t then t[planId := t[planId].(providerStatus := Some(status), updatedAt := now)] else t
  }

  /** The row with an idempotency key; at most one under UniqueKeys. */
  ghost function RowWithKey(t: Table, idempotencyKey: string): Option<Row> {
    if p :| p in t && t[p].idempotencyKey == idempotencyKey then Some(t[p]) else None
  }

  const SECONDS_PER_DAY := 86400
  const PENDING_WINDOW := 3600

  /** The pending query compares an ISO text ("...T...") with an SQLite text ("... ..."): once the
      calendar dates agree, 'T' sorts after ' ', so only the UTC dates decide (see WindowComparesDates). */
  predicate InWindow(updatedAt: int, now: int) {
    updatedAt / SECONDS_PER_DAY >= (now - PENDING_WINDOW) / SECONDS_PER_DAY
  }

  /** The first moment at which a row updated then is no longer found: an hour after the next midnight. */
  function WindowEnd(updatedAt: int): int {
    (updatedAt / SECONDS_PER_DAY + 1) * SECONDS_PER_DAY + PENDING_WINDOW
  }

  predicate Pending(row: Row, now: int) {
    row.authorized && row.providerOrderId.None? && InWindow(row.updatedAt, now)
  }

  const TERMINAL_STATUSES: set<string> := {"FILLED", "CANCELED", "EXPIRED", "REJECTED"}

  /** SQL's NOT IN is not true of NULL, so a row without a status is not active. */
  predicate Active(row: Row) {
    row.authorized && row.providerOrderId.Some?
    && row.providerStatus.Some? && row.providerStatus.value !in TERMINAL_STATUSES
  }

  class ExecutionStore {
    var rows: Table

    constructor ()
      ensures rows == map[]
    {
      rows := map[];
    }

    /** Reports whether the transaction went through; the UNIQUE constraint rolls it back otherwise. */
    method Upsert(planId: string, row: Row) returns (ok: bool)
      modifies this
      ensures ok <==> !UpsertConflicts(old(rows), planId, row.idempotencyKey)
      ensures rows == if ok then Upserted(old(rows), planId, row) else old(rows)
      ensures old(UniqueKeys(rows)) ==> UniqueKeys(rows)
    {
      ok := !UpsertConflicts(rows, planId, row.idempotencyKey);
      if ok {
        rows := Upserted(rows, planId, row);
      }
    }

    method UpdateProviderInfo(planId: string, id: OrderId, status: string, submittedAt: int, now: int)
      modifies this
      ensures rows == WithProviderInfo(old(rows), planId, id, status, submittedAt, now)
      ensures old(UniqueKeys(rows)) ==> UniqueKeys(rows)
    {
      if planId in rows {
        var row := rows[planId];
        rows := rows[planId := row.(providerOrderId := Some(id), providerStatus := Some(status),
                                    submittedAt := Some(submittedAt), updatedAt := now)];
      }
    }

    method UpdateStatus(planId: string, status: string, now: int)
      modifies this
      ensures rows == WithStatus(old(rows), planId, status, now)
      ensures old(UniqueKeys(rows)) ==> UniqueKeys(rows)
    {
      if planId in rows {
        rows := rows[planId := rows[planId].(providerStatus := Some(status), updatedAt := now)];
      }
    }

    method GetByIdempotencyKey(idempotencyKey: string) returns (r: Option<Row>)
      requires UniqueKeys(rows)
      ensures r == RowWithKey(rows, idempotencyKey)
    {
      if p :| p in rows && rows[p].idempotencyKey == idempotencyKey {
        r := Some(rows[p]);
      } else {
        r := None;
      }
    }

    method GetPendingExecutions(now: int) returns (planIds: set<string>)
      ensures planIds == set p | p in rows && Pending(rows[p], now)
      ensures forall p :: p in planIds <==>
                && p in rows && rows[p].authorized && rows[p].providerOrderId.None?
                && now < WindowEnd(rows[p].updatedAt)
    {
      forall p | p in rows ensures InWindow(rows[p].updatedAt, now) <==> now < WindowEnd(rows[p].updatedAt) {
        WindowContainsTheHour(rows[p].updatedAt, now);
      }
      planIds := set p | p in rows && Pending(rows[p], now);
    }

    method GetActiveExecutions() returns (planIds: set<string>)
      ensures planIds == set p | p in rows && Active(rows[p])
      ensures forall p, now :: p in planIds ==> !Pending(rows[p], now)
      ensures forall p :: p in rows && rows[p].authorized && rows[p].providerOrderId.Some? && p !in planIds ==>
                rows[p].providerStatus.None? || rows[p].providerStatus.value in TERMINAL_STATUSES
    {
      planIds := set p | p in rows && Active(rows[p]);
    }
  }

  // ---- The text comparison behind InWindow --------------------------------

  /** SQLite's binary text order. */
  predicate TextLess(a: string, b: string) {
    b != [] && (a == [] || a[0] < b[0] || (a[0] == b[0] && TextLess(a[1..], b[1..])))
  }

  /** `updated_at > datetime('now', '-1 hour')` on "date T time" against "date time" looks at the
      dates only, whatever the times are. */
  lemma {:induction false} WindowComparesDates(date: string, time: string, cutoffDate: string, cutoffTime: string)
    requires |date| == |cutoffDate|
    ensures TextLess(cutoffDate + ([' '] + cutoffTime), date + (['T'] + time))
        <==> date == cutoffDate || TextLess(cutoffDate, date)
  {
    var cutoff, updated := cutoffDate + ([' '] + cutoffTime), date + (['T'] + time);
    if date == [] {
      assert updated[0] == 'T' && cutoff[0] == ' ';
    } else {
      assert updated[1..] == date[1..] + (['T'] + time);
      assert cutoff[1..] == cutoffDate[1..] + ([' '] + cutoffTime);
      WindowComparesDates(date[1..], time, cutoffDate[1..], cutoffTime);
      assert date == cutoffDate <==> date[0] == cutoffDate[0] && date[1..] == cutoffDate[1..] by {
        assert date == [date[0]] + date[1..] && cutoffDate == [cutoffDate[0]] + cutoffDate[1..];
      }
    }
  }

  /** Texts are totally ordered. */
  lemma {:induction false} TextsAreOrdered(a: string, b: string)
    ensures !(TextLess(a, b) && TextLess(b, a))
    ensures a != b ==> TextLess(a, b) || TextLess(b, a)
    ensures a == b ==> !TextLess(a, b)
  {
    if a != [] && b != [] {
      TextsAreOrdered(a[1..], b[1..]);
      assert a == [a[0]] + a[1..] && b == [b[0]] + b[1..];
    }
  }

  /** The documented one-hour window is inside the real one; the real one ends an hour after the midnight that follows
      the update, so between one hour and a day more after it. */
  lemma WindowContainsTheHour(updatedAt: int, now: int)
    ensures updatedAt > now - 3600 ==> InWindow(updatedAt, now)
    ensures InWindow(updatedAt, now) <==> now < WindowEnd(updatedAt)
    ensures WindowEnd(updatedAt) % 86400 == 3600 && 3600 < WindowEnd(updatedAt) - updatedAt <= 3600 + 86400
  {
  }

  /** A row written without an order id is found as pending from then until its window ends; a new status
      opens the window anew; recording an order id ends it at once. */
  lemma PendingLifecycle(t: Table, planId: string, row: Row, status: string, id: OrderId, updated: int, now: int)
    requires row.authorized && row.providerOrderId.None?
    ensures var written := Upserted(t, planId, row);
            && (Pending(written[planId], now) <==> now < WindowEnd(row.updatedAt))
            && (Pending(WithStatus(written, planId, status, updated)[planId], now) <==> now < WindowEnd(updated))
            && !Pending(WithProviderInfo(written, planId, id, status, updated, updated)[planId], now)
  {
    WindowContainsTheHour(row.updatedAt, now);
    WindowContainsTheHour(updated, now);
  }

  /** A row is active from the recording of its order id until a terminal status is written, and again if a
      later status is not terminal; it is never active and pending at once. */
  lemma ActiveLifecycle(t: Table, planId: string, id: OrderId, status: string, later: string, submitted: int, now: int)
    requires planId in t && t[planId].authorized
    ensures var recorded := WithProviderInfo(t, planId, id, status, submitted, now);
            && (Active(recorded[planId]) <==> status !in TERMINAL_STATUSES)
            && (Active(WithStatus(recorded, planId, later, now)[planId]) <==> later !in TERMINAL_STATUSES)
            && !(Active(t[planId]) && Pending(t[planId], now))
  {
  }
}
