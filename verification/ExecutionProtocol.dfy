/** Write-ahead, submit, record, and the recovery pass, against a broker that may lose replies.
    A process may die between any two of its durable steps: `Env.crash` counts the steps it survives. */
module ExecutionProtocol {
  import opened Wrappers
  import opened ExecutionKeys
  import opened ExecutionStore

  datatype Order = Order(clientOrderId: string, status: string, submittedAt: int)

  /** What the service and the broker hold between two calls. Orders are an append-only log. */
  datatype World = World(rows: Table, orders: seq<Order>)

  /** `authorized` stands for planning and authorisation together; the execution plan id is the key. */
  datatype Request = Request(key: string, instrumentPlanId: string, authorized: bool, dryRun: bool)

  /** Reply to a lookup by client order id. FalseNone: "not found" although the order exists. */
  datatype Lookup = Answered | Failed | FalseNone

  /** LostReply: the order was created but the call raised. NotSent: it raised and created nothing. */
  datatype Submit = Accepted(status: string) | LostReply(status: string) | NotSent

  datatype Env = Env(lookup: Lookup, submit: Submit, recordFails: bool, crash: nat)

  datatype Outcome =
    | Denied
    | Adopted(id: OrderId)
    | DryRun
    | Submitted(id: OrderId)
    | SubmitFailed
    | Raised
    | Crashed

  const FAILED_STATUS := "FAILED: error"
  const UNKNOWN_STATUS := "UNKNOWN_PROVIDER"

  // ---- The broker ---------------------------------------------------------

  /** First order with a client order id. */
  function FindOrder(orders: seq<Order>, clientOrderId: string): (r: Option<OrderId>)
    ensures r.Some? ==> r.value < |orders| && orders[r.value].clientOrderId == clientOrderId
    ensures r.None? ==> forall i :: 0 <= i < |orders| ==> orders[i].clientOrderId != clientOrderId
  {
    if orders == [] then None
    else if orders[0].clientOrderId == clientOrderId then Some(0)
    else
      var rest := FindOrder(orders[1..], clientOrderId);
      if rest.Some? then Some(rest.value + 1) else None
  }

  function LookupReply(orders: seq<Order>, clientOrderId: string, lookup: Lookup): Option<Option<OrderId>> {
    match lookup
    case Answered => Some(FindOrder(orders, clientOrderId))
    case FalseNone => Some(None)
    case Failed => None
  }

  function AfterSubmit(orders: seq<Order>, clientOrderId: string, submit: Submit, now: int): seq<Order> {
    match submit
    case NotSent => orders
    case Accepted(status) => orders + [Order(clientOrderId, status, now)]
    case LostReply(status) => orders + [Order(clientOrderId, status, now)]
  }

  class Broker {
    var orders: seq<Order>

    constructor ()
      ensures orders == []
    {
      orders := [];
    }

    /** None: the call raised. Some(None): "not found". */
    method GetOrderByClientId(clientOrderId: string, lookup: Lookup) returns (reply: Option<Option<OrderId>>)
      ensures reply == LookupReply(orders, clientOrderId, lookup)
    {
      if lookup == Failed {
        return None;
      } else if lookup == FalseNone {
        return Some(None);
      }
      var i := 0;
      while i < |orders| && orders[i].clientOrderId != clientOrderId
        invariant i <= |orders|
        invariant FindOrder(orders, clientOrderId)
               == (var rest := FindOrder(orders[i..], clientOrderId); if rest.Some? then Some(rest.value + i) else None)
      {
        i := i + 1;
      }
      reply := Some(if i < |orders| then Some(i) else None);
    }

    /** None: the call raised, with or without an order created. */
    method Submit(clientOrderId: string, submit: Submit, now: int) returns (reply: Option<OrderId>)
      modifies this
      ensures orders == AfterSubmit(old(orders), clientOrderId, submit, now)
      ensures reply == if submit.Accepted? then Some(|old(orders)|) else None
    {
      reply := None;
      match submit {
        case NotSent =>
        case Accepted(status) =>
          reply := Some(|orders|);
          orders := orders + [Order(clientOrderId, status, now)];
        case LostReply(status) =>
          orders := orders + [Order(clientOrderId, status, now)];
      }
    }
  }

  // ---- One call of execute ------------------------------------------------

  function WriteAheadRow(req: Request, now: int): Row {
    Row(req.key, ClientOrderId(req.key), true, None, None, now, None, now)
  }

  /** The row written when an order is found at the broker: its idempotency key is the client order id. */
  function AdoptedRow(order: Order, id: OrderId): Row {
    Row(order.clientOrderId, order.clientOrderId, true, Some(id), Some(order.status),
        order.submittedAt, Some(order.submittedAt), order.submittedAt)
  }

  ghost function ExecuteStep(w: World, req: Request, env: Env, now: int): (World, Outcome) {
    var cid := ClientOrderId(req.key);
    var local := RowWithKey(w.rows, req.key);
    var reply := LookupReply(w.orders, cid, env.lookup);
    if !req.authorized then (w, Denied)
    else if local.Some? && local.value.providerOrderId.Some? then (w, Adopted(local.value.providerOrderId.value))
    else if reply.None? then (w, Raised)
    else if reply.value.Some? then AdoptStep(w, reply.value.value, env)
    else if req.dryRun then (w, DryRun)
    else SubmitStep(w, req, env, now)
  }

  ghost function AdoptStep(w: World, id: OrderId, env: Env): (World, Outcome)
    requires id < |w.orders|
  {
    var row := AdoptedRow(w.orders[id], id);
    var planId := AdoptedPlanId(row.clientOrderId);
    if env.crash == 0 then (w, Crashed)
    else if UpsertConflicts(w.rows, planId, row.idempotencyKey) then (w, Raised)
    else (w.(rows := Upserted(w.rows, planId, row)), Adopted(id))
  }

  ghost function SubmitStep(w: World, req: Request, env: Env, now: int): (World, Outcome) {
    var rows := Upserted(w.rows, req.key, WriteAheadRow(req, now));
    var orders := AfterSubmit(w.orders, ClientOrderId(req.key), env.submit, now);
    if env.crash == 0 then (w, Crashed)
    else if UpsertConflicts(w.rows, req.key, req.key) then (w, Raised)
    else if env.crash == 1 then (w.(rows := rows), Crashed)
    else if env.crash == 2 then (World(rows, orders), Crashed)
    else if env.submit.Accepted? && !env.recordFails then
      (World(WithProviderInfo(rows, req.key, |w.orders|, env.submit.status, now, now), orders), Submitted(|w.orders|))
    else (World(WithStatus(rows, req.key, FAILED_STATUS, now), orders), SubmitFailed)
  }

  // ---- One recovery pass --------------------------------------------------

  /** Plan ids whose lookup by order id, and by client order id, raises in a pass. */
  datatype Outages = Outages(byId: set<string>, byClientId: set<string>)

  predicate Selected(row: Row, now: int) {
    Pending(row, now) || Active(row)
  }

  function FoundFor(planId: string, row: Row, orders: seq<Order>, out: Outages): (r: Option<OrderId>)
    ensures r.Some? ==> r.value < |orders|
  {
    if row.providerOrderId.Some? && planId !in out.byId && row.providerOrderId.value < |orders| then row.providerOrderId
    else if row.clientOrderId != "" && planId !in out.byClientId then FindOrder(orders, row.clientOrderId)
    else None
  }

  function ReconciledRow(planId: string, row: Row, orders: seq<Order>, out: Outages, now: int): Row {
    var found := FoundFor(planId, row, orders, out);
    if found.Some? then
      var order := orders[found.value];
      row.(providerOrderId := found, providerStatus := Some(order.status),
           submittedAt := Some(order.submittedAt), updatedAt := now)
    else row.(providerStatus := Some(UNKNOWN_STATUS), updatedAt := now)
  }

  /** The pass got as far as the rows in `reached` before it ended or died. */
  function Reconciled(w: World, out: Outages, reached: set<string>, now: int): World {
    w.(rows := map p | p in w.rows ::
      if p in reached && Selected(w.rows[p], now) then ReconciledRow(p, w.rows[p], w.orders, out, now) else w.rows[p])
  }

  function ReconciledOne(w: World, planId: string, out: Outages, now: int): World {
    if planId in w.rows then
      w.(rows := w.rows[planId := ReconciledRow(planId, w.rows[planId], w.orders, out, now)])
    else w
  }

  /** One more record of a pass: its row is still the one the query returned. */
  lemma ReconciledExtends(w: World, out: Outages, reached: set<string>, planId: string, now: int)
    requires planId in w.rows && planId !in reached && Selected(w.rows[planId], now)
    ensures ReconciledOne(Reconciled(w, out, reached, now), planId, out, now)
         == Reconciled(w, out, reached + {planId}, now)
  {
    var partial := Reconciled(w, out, reached, now);
    assert partial.rows[planId] == w.rows[planId] && partial.orders == w.orders;
    assert ReconciledOne(partial, planId, out, now).rows == Reconciled(w, out, reached + {planId}, now).rows;
  }

  function SelectedIds(t: Table, now: int): set<string> {
    set p | p in t && Selected(t[p], now)
  }

  lemma ReconciledKeepsKeys(w: World, out: Outages, reached: set<string>, now: int)
    requires UniqueKeys(w.rows)
    ensures UniqueKeys(Reconciled(w, out, reached, now).rows)
  {
    var t := Reconciled(w, out, reached, now).rows;
    assert forall p :: p in t ==> t[p].idempotencyKey == w.rows[p].idempotencyKey;
  }

  lemma NothingReached(w: World, out: Outages, now: int)
    ensures Reconciled(w, out, {}, now) == w
  {
    assert Reconciled(w, out, {}, now).rows == w.rows;
  }

  // ---- The service --------------------------------------------------------

  class ExecutionService {
    const store: ExecutionStore
    const broker: Broker

    constructor (store: ExecutionStore, broker: Broker)
      ensures this.store == store && this.broker == broker
    {
      this.store := store;
      this.broker := broker;
    }

    ghost function Now(): World
      reads store, broker
    {
      World(store.rows, broker.orders)
    }

    method Execute(req: Request, env: Env, now: int) returns (out: Outcome)
      requires UniqueKeys(store.rows)
      modifies store, broker
      ensures (Now(), out) == ExecuteStep(old(Now()), req, env, now)
      ensures UniqueKeys(store.rows)
    {
      if !req.authorized {
        return Denied;
      }
      var local := store.GetByIdempotencyKey(req.key);
      if local.Some? && local.value.providerOrderId.Some? {
        return Adopted(local.value.providerOrderId.value);
      }
      var reply := broker.GetOrderByClientId(ClientOrderId(req.key), env.lookup);
      if reply.None? {
        return Raised;
      }
      if reply.value.Some? {
        out := AdoptExistingOrder(reply.value.value, env);
      } else if req.dryRun {
        out := DryRun;
      } else {
        out := SubmitAndTrack(req, env, now);
      }
    }

    method AdoptExistingOrder(id: OrderId, env: Env) returns (out: Outcome)
      requires id < |broker.orders| && UniqueKeys(store.rows)
      modifies store
      ensures (Now(), out) == AdoptStep(old(Now()), id, env)
      ensures UniqueKeys(store.rows)
    {
      if env.crash == 0 {
        return Crashed;
      }
      var row := AdoptedRow(broker.orders[id], id);
      var ok := store.Upsert(AdoptedPlanId(row.clientOrderId), row);
      out := if ok then Adopted(id) else Raised;
    }

    method SubmitAndTrack(req: Request, env: Env, now: int) returns (out: Outcome)
      requires UniqueKeys(store.rows)
      modifies store, broker
      ensures (Now(), out) == SubmitStep(old(Now()), req, env, now)
      ensures UniqueKeys(store.rows)
    {
      if env.crash == 0 {
        return Crashed;
      }
      var ok := store.Upsert(req.key, WriteAheadRow(req, now));
      if !ok {
        return Raised;
      }
      if env.crash == 1 {
        return Crashed;
      }
      var id := broker.Submit(ClientOrderId(req.key), env.submit, now);
      if env.crash == 2 {
        return Crashed;
      }
      if id.Some? && !env.recordFails {
        store.UpdateProviderInfo(req.key, id.value, env.submit.status, now, now);
        out := Submitted(id.value);
      } else {
        store.UpdateStatus(req.key, FAILED_STATUS, now);
        out := SubmitFailed;
      }
    }

    method SelectRecords(now: int) returns (planIds: set<string>)
      ensures planIds == SelectedIds(store.rows, now)
    {
      var pending := store.GetPendingExecutions(now);
      var active := store.GetActiveExecutions();
      planIds := pending + active;
    }

    /** Handles at most `limit` of the selected records, in whatever order the queries return them. */
    method ReconcilePendingExecutions(out: Outages, limit: nat, now: int) returns (reached: set<string>)
      requires UniqueKeys(store.rows)
      modifies store
      ensures Now() == Reconciled(old(Now()), out, reached, now)
      ensures reached <= SelectedIds(old(store.rows), now)
      ensures |reached| < limit ==> reached == SelectedIds(old(store.rows), now)
      ensures UniqueKeys(store.rows)
    {
      var todo := SelectRecords(now);
      ghost var before := Now();
      ghost var all := SelectedIds(before.rows, now);
      reached := {};
      NothingReached(before, out, now);
      while todo != {} && |reached| < limit
        invariant todo == all - reached && reached <= all
        invariant Now() == Reconciled(before, out, reached, now)
        decreases todo
      {
        var planId :| planId in todo;
        ReconciledExtends(before, out, reached, planId, now);
        ReconcileRecord(planId, out, now);
        todo := todo - {planId};
        reached := reached + {planId};
      }
      ReconciledKeepsKeys(before, out, reached, now);
    }

    method ReconcileRecord(planId: string, out: Outages, now: int)
      requires planId in store.rows
      modifies store
      ensures Now() == ReconciledOne(old(Now()), planId, out, now)
    {
      var row := store.rows[planId];
      var found: Option<OrderId> := None;
      if row.providerOrderId.Some? && planId !in out.byId && row.providerOrderId.value < |broker.orders| {
        found := row.providerOrderId;
      }
      if found.None? && row.clientOrderId != "" {
        var lookup := if planId in out.byClientId then Failed else Answered;
        var reply := broker.GetOrderByClientId(row.clientOrderId, lookup);
        found := if reply.Some? then reply.value else None;
      }
      if found.Some? {
        var order := broker.orders[found.value];
        store.UpdateProviderInfo(planId, found.value, order.status, order.submittedAt, now);
      } else {
        store.UpdateStatus(planId, UNKNOWN_STATUS, now);
      }
    }
  }
}
