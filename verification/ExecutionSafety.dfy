/** What every run of the execution protocol keeps, and when recovery succeeds. */
module ExecutionSafety {
  import opened Wrappers
  import opened ExecutionKeys
  import opened ExecutionStore
  import opened ExecutionProtocol

  /** A step of a run: a call, a recovery pass, a write of the order tracker, or the broker moving. */
  datatype Op =
    | Execute(req: Request, env: Env)
    | Reconcile(out: Outages, reached: set<string>)
    | ReconcileOne(planId: string, out: Outages)
    | TrackStatus(planId: string, status: string)
    | BrokerMoves(id: OrderId, status: string)

  datatype Step = Step(now: int, op: Op)

  function WithOrderStatus(orders: seq<Order>, id: OrderId, status: string): seq<Order> {
    if id < |orders| then orders[id := orders[id].(status := status)] else orders
  }

  ghost function Apply(w: World, step: Step): World {
    match step.op
    case Execute(req, env) => ExecuteStep(w, req, env, step.now).0
    case Reconcile(out, reached) => Reconciled(w, out, reached, step.now)
    case ReconcileOne(planId, out) => ReconciledOne(w, planId, out, step.now)
    case TrackStatus(planId, status) => w.(rows := WithStatus(w.rows, planId, status, step.now))
    case BrokerMoves(id, status) => w.(orders := WithOrderStatus(w.orders, id, status))
  }

  ghost function Run(w: World, steps: seq<Step>): World
    decreases |steps|
  {
    if steps == [] then w else Run(Apply(w, steps[0]), steps[1..])
  }

  // ---- At most one order ----------------------------------------------------

  ghost predicate AtMostOne(orders: seq<Order>) {
    forall i, j :: 0 <= i < j < |orders| ==> orders[i].clientOrderId != orders[j].clientOrderId
  }

  ghost predicate HasOrder(orders: seq<Order>, clientOrderId: string) {
    exists i :: 0 <= i < |orders| && orders[i].clientOrderId == clientOrderId
  }

  ghost predicate Truthful(step: Step) {
    step.op.Execute? ==> step.op.env.lookup != FalseNone
  }

  /** The call goes past its lookups and its write-ahead row, and the broker creates the order. */
  ghost predicate CreatesOrder(w: World, req: Request, env: Env) {
    var local := RowWithKey(w.rows, req.key);
    && req.authorized && !req.dryRun
    && (local.Some? ==> local.value.providerOrderId.None?)
    && LookupReply(w.orders, ClientOrderId(req.key), env.lookup) == Some(None)
    && !UpsertConflicts(w.rows, req.key, req.key)
    && env.crash >= 2 && env.submit != NotSent
  }

  lemma ExecuteOrders(w: World, req: Request, env: Env, now: int)
    ensures var orders := ExecuteStep(w, req, env, now).0.orders;
            if CreatesOrder(w, req, env) then
              orders == w.orders + [Order(ClientOrderId(req.key), env.submit.status, now)]
            else orders == w.orders
  {
  }

  /** One call leaves the broker with a duplicate exactly when it creates an order after being told
      "not found" about one that exists. No crash point, lost reply or failed lookup does it. */
  lemma DuplicateExactlyAfterFalseNone(w: World, req: Request, env: Env, now: int)
    requires AtMostOne(w.orders)
    ensures !AtMostOne(ExecuteStep(w, req, env, now).0.orders)
        <==> CreatesOrder(w, req, env) && HasOrder(w.orders, ClientOrderId(req.key))
    ensures CreatesOrder(w, req, env) && HasOrder(w.orders, ClientOrderId(req.key)) ==> env.lookup == FalseNone
  {
    ExecuteOrders(w, req, env, now);
    var orders := ExecuteStep(w, req, env, now).0.orders;
    if CreatesOrder(w, req, env) && HasOrder(w.orders, ClientOrderId(req.key)) {
      var i :| 0 <= i < |w.orders| && w.orders[i].clientOrderId == ClientOrderId(req.key);
      assert orders[i].clientOrderId == orders[|w.orders|].clientOrderId;
    }
  }

  lemma AtMostOneStep(w: World, step: Step)
    requires AtMostOne(w.orders) && Truthful(step)
    ensures AtMostOne(Apply(w, step).orders)
  {
    if step.op.Execute? {
      DuplicateExactlyAfterFalseNone(w, step.op.req, step.op.env, step.now);
    }
  }

  /** In every run of calls, crashes, lost replies, failed lookups, recovery passes and broker
      moves, the broker never holds two orders with one client order id. */
  lemma {:induction false} AtMostOneOrder(w: World, steps: seq<Step>)
    requires AtMostOne(w.orders)
    requires forall s :: s in steps ==> Truthful(s)
    ensures AtMostOne(Run(w, steps).orders)
    decreases |steps|
  {
    if steps != [] {
      AtMostOneStep(w, steps[0]);
      AtMostOneOrder(Apply(w, steps[0]), steps[1..]);
    }
  }

  // ---- Coherence of table and broker ---------------------------------------

  /** Written by the service itself: the plan id is the key. */
  ghost predicate OwnRow(planId: string, row: Row) {
    StartsWithAc(planId) && row.idempotencyKey == planId && row.clientOrderId == ClientOrderId(planId)
  }

  /** Filed for an order found at the broker. */
  ghost predicate FiledRow(planId: string, row: Row) {
    && !StartsWithAc(planId) && row.clientOrderId == AC + planId
    && row.idempotencyKey == row.clientOrderId && row.providerOrderId.Some?
  }

  ghost predicate GoodRow(planId: string, row: Row, orders: seq<Order>) {
    && (OwnRow(planId, row) || FiledRow(planId, row))
    && (row.providerOrderId.Some? ==>
          row.providerOrderId.value < |orders| && orders[row.providerOrderId.value].clientOrderId == row.clientOrderId)
  }

  ghost predicate RowFor(planId: string, t: Table, clientOrderId: string) {
    planId in t && t[planId].clientOrderId == clientOrderId
  }

  ghost predicate HasRow(t: Table, clientOrderId: string) {
    exists p :: RowFor(p, t, clientOrderId)
  }

  /** Every order has a durable row. */
  ghost predicate Durable(w: World) {
    forall i :: 0 <= i < |w.orders| ==> HasRow(w.rows, w.orders[i].clientOrderId)
  }

  ghost predicate GoodRows(t: Table, orders: seq<Order>) {
    forall p :: p in t ==> GoodRow(p, t[p], orders)
  }

  /** Unique keys; every recorded order id names an order with the row's client order id; every
      order has a durable row; no client order id has two orders. */
  ghost predicate Coherent(w: World) {
    UniqueKeys(w.rows) && GoodRows(w.rows, w.orders) && Durable(w) && AtMostOne(w.orders)
  }

  lemma SameOrder(orders: seq<Order>, i: nat, j: nat)
    requires AtMostOne(orders) && i < |orders| && j < |orders|
    requires orders[i].clientOrderId == orders[j].clientOrderId
    ensures i == j
  {
  }

  /** The new row for a place keeps what the old one had of its identity. */
  ghost predicate SameIdentity(v: Row, w: Row) {
    && v.idempotencyKey == w.idempotencyKey && v.clientOrderId == w.clientOrderId && v.createdAt == w.createdAt
    && (w.providerOrderId.Some? ==> v.providerOrderId == w.providerOrderId)
  }

  ghost predicate RowsExtend(v: Table, w: Table) {
    forall p :: p in w ==> p in v && SameIdentity(v[p], w[p])
  }

  ghost predicate OrdersExtend(v: seq<Order>, w: seq<Order>) {
    |w| <= |v| && forall i :: 0 <= i < |w| ==> v[i].clientOrderId == w[i].clientOrderId
  }

  /** Nothing durable is lost: rows stay, with their key, client order id, creation time and any
      recorded order id; orders stay, with their client order id. */
  ghost predicate Extends(v: World, w: World) {
    RowsExtend(v.rows, w.rows) && OrdersExtend(v.orders, w.orders)
  }

  ghost predicate Legal(step: Step) {
    Truthful(step) && (step.op.Execute? ==> StableKey(step.op.req.key))
  }

  lemma RowsExtendKeepsDurable(w: World, t: Table)
    requires Durable(w) && RowsExtend(t, w.rows)
    ensures Durable(w.(rows := t))
  {
    forall i | 0 <= i < |w.orders| ensures HasRow(t, w.orders[i].clientOrderId) {
      var p :| RowFor(p, w.rows, w.orders[i].clientOrderId);
      assert RowFor(p, t, w.orders[i].clientOrderId);
    }
  }

  /** One row written over itself or into a free place. */
  lemma WriteKeepsCoherence(w: World, planId: string, row: Row)
    requires Coherent(w) && GoodRow(planId, row, w.orders)
    requires planId in w.rows ==> SameIdentity(row, w.rows[planId])
    requires !UpsertConflicts(w.rows, planId, row.idempotencyKey)
    ensures Coherent(w.(rows := w.rows[planId := row]))
    ensures Extends(w.(rows := w.rows[planId := row]), w)
  {
    RowsExtendKeepsDurable(w, w.rows[planId := row]);
  }

  lemma RewriteKeepsCoherence(w: World, planId: string, row: Row)
    requires Coherent(w) && planId in w.rows
    requires SameIdentity(row, w.rows[planId])
    requires row.providerOrderId.Some? ==>
               && row.providerOrderId.value < |w.orders|
               && w.orders[row.providerOrderId.value].clientOrderId == row.clientOrderId
    ensures Coherent(w.(rows := w.rows[planId := row]))
    ensures Extends(w.(rows := w.rows[planId := row]), w)
  {
    assert GoodRow(planId, w.rows[planId], w.orders);
    WriteKeepsCoherence(w, planId, row);
  }

  /** The write-ahead row is there first, so the new order has its row. */
  lemma NewOrderKeepsCoherence(w: World, order: Order, planId: string)
    requires Coherent(w) && !HasOrder(w.orders, order.clientOrderId)
    requires RowFor(planId, w.rows, order.clientOrderId)
    ensures Coherent(w.(orders := w.orders + [order]))
    ensures Extends(w.(orders := w.orders + [order]), w)
  {
    var v := w.(orders := w.orders + [order]);
    assert Durable(v) by {
      assert HasRow(w.rows, order.clientOrderId);
    }
    assert GoodRows(v.rows, v.orders) by {
      forall p | p in w.rows ensures GoodRow(p, w.rows[p], v.orders) {
        assert GoodRow(p, w.rows[p], w.orders);
      }
    }
  }

  lemma ReconciledRowGood(w: World, planId: string, out: Outages, now: int)
    requires Coherent(w) && planId in w.rows
    ensures var row := ReconciledRow(planId, w.rows[planId], w.orders, out, now);
            GoodRow(planId, row, w.orders) && SameIdentity(row, w.rows[planId])
  {
    var row := w.rows[planId];
    assert GoodRow(planId, row, w.orders);
    var found := FoundFor(planId, row, w.orders, out);
    if found.Some? && row.providerOrderId.Some? {
      SameOrder(w.orders, found.value, row.providerOrderId.value);
    }
  }

  lemma AdoptKeepsCoherence(w: World, key: string, id: OrderId, env: Env)
    requires Coherent(w) && StableKey(key)
    requires FindOrder(w.orders, ClientOrderId(key)) == Some(id)
    ensures Coherent(AdoptStep(w, id, env).0) && Extends(AdoptStep(w, id, env).0, w)
  {
    StableKeyAdoption(key);
    var row := AdoptedRow(w.orders[id], id);
    var planId := AdoptedPlanId(row.clientOrderId);
    if !UpsertConflicts(w.rows, planId, row.idempotencyKey) {
      if planId in w.rows {
        assert GoodRow(planId, w.rows[planId], w.orders);
        SameOrder(w.orders, id, w.rows[planId].providerOrderId.value);
        WriteKeepsCoherence(w, planId, row.(createdAt := w.rows[planId].createdAt));
      } else {
        WriteKeepsCoherence(w, planId, row);
      }
    }
  }

  lemma WriteAheadKeepsCoherence(w: World, req: Request, now: int)
    requires Coherent(w) && StableKey(req.key)
    requires RowWithKey(w.rows, req.key).Some? ==> RowWithKey(w.rows, req.key).value.providerOrderId.None?
    requires !UpsertConflicts(w.rows, req.key, req.key)
    ensures var v := w.(rows := Upserted(w.rows, req.key, WriteAheadRow(req, now)));
            Coherent(v) && Extends(v, w) && v.rows[req.key].providerOrderId.None?
  {
    var key, row := req.key, WriteAheadRow(req, now);
    if key in w.rows {
      assert GoodRow(key, w.rows[key], w.orders);
      assert RowWithKey(w.rows, key) == Some(w.rows[key]);
      WriteKeepsCoherence(w, key, row.(createdAt := w.rows[key].createdAt));
    } else {
      WriteKeepsCoherence(w, key, row);
    }
  }

  /** After the write-ahead row and the submission, before the reply is recorded. */
  ghost function Sent(w: World, req: Request, env: Env, now: int): World {
    World(Upserted(w.rows, req.key, WriteAheadRow(req, now)),
          AfterSubmit(w.orders, ClientOrderId(req.key), env.submit, now))
  }

  lemma SentKeepsCoherence(w: World, req: Request, env: Env, now: int)
    requires Coherent(w) && StableKey(req.key)
    requires RowWithKey(w.rows, req.key).Some? ==> RowWithKey(w.rows, req.key).value.providerOrderId.None?
    requires !HasOrder(w.orders, ClientOrderId(req.key)) && !UpsertConflicts(w.rows, req.key, req.key)
    ensures var v := Sent(w, req, env, now);
            && Coherent(v) && Extends(v, w)
            && v.rows[req.key].providerOrderId.None? && v.rows[req.key].clientOrderId == ClientOrderId(req.key)
  {
    WriteAheadKeepsCoherence(w, req, now);
    var w1 := w.(rows := Upserted(w.rows, req.key, WriteAheadRow(req, now)));
    if env.submit != NotSent {
      NewOrderKeepsCoherence(w1, Order(ClientOrderId(req.key), env.submit.status, now), req.key);
    }
    ExtendsTransitive(Sent(w, req, env, now), w1, w);
  }

  lemma SubmitKeepsCoherence(w: World, req: Request, env: Env, now: int)
    requires Coherent(w) && StableKey(req.key)
    requires RowWithKey(w.rows, req.key).Some? ==> RowWithKey(w.rows, req.key).value.providerOrderId.None?
    requires !HasOrder(w.orders, ClientOrderId(req.key))
    ensures Coherent(SubmitStep(w, req, env, now).0) && Extends(SubmitStep(w, req, env, now).0, w)
  {
    var key, cid := req.key, ClientOrderId(req.key);
    if !UpsertConflicts(w.rows, key, key) {
      WriteAheadKeepsCoherence(w, req, now);
      SentKeepsCoherence(w, req, env, now);
      var w2 := Sent(w, req, env, now);
      var row := w2.rows[key];
      hide Coherent, Extends, RowWithKey, ClientOrderId;
      RecordKeepsCoherence(w, w2, key, row.(providerStatus := Some(FAILED_STATUS), updatedAt := now));
      if env.submit.Accepted? {
        RecordKeepsCoherence(w, w2, key, row.(providerOrderId := Some(|w.orders|),
          providerStatus := Some(env.submit.status), submittedAt := Some(now), updatedAt := now));
      }
    }
  }

  lemma RecordKeepsCoherence(w: World, v: World, planId: string, row: Row)
    requires Coherent(v) && Extends(v, w) && planId in v.rows
    requires SameIdentity(row, v.rows[planId])
    requires row.providerOrderId.Some? ==>
               && row.providerOrderId.value < |v.orders|
               && v.orders[row.providerOrderId.value].clientOrderId == row.clientOrderId
    ensures Coherent(v.(rows := v.rows[planId := row]))
    ensures Extends(v.(rows := v.rows[planId := row]), w)
  {
    RewriteKeepsCoherence(v, planId, row);
    ExtendsTransitive(v.(rows := v.rows[planId := row]), v, w);
  }

  lemma ReconcileKeepsCoherence(w: World, out: Outages, reached: set<string>, now: int)
    requires Coherent(w)
    ensures Coherent(Reconciled(w, out, reached, now)) && Extends(Reconciled(w, out, reached, now), w)
  {
    var v := Reconciled(w, out, reached, now);
    forall p | p in v.rows ensures GoodRow(p, v.rows[p], v.orders) && SameIdentity(v.rows[p], w.rows[p]) {
      assert GoodRow(p, w.rows[p], w.orders);
      ReconciledRowGood(w, p, out, now);
    }
    ReconciledKeepsKeys(w, out, reached, now);
    RowsExtendKeepsDurable(w, v.rows);
  }

  lemma ExecuteKeepsCoherence(w: World, req: Request, env: Env, now: int)
    requires Coherent(w) && StableKey(req.key) && env.lookup != FalseNone
    ensures Coherent(ExecuteStep(w, req, env, now).0) && Extends(ExecuteStep(w, req, env, now).0, w)
  {
    var found := FindOrder(w.orders, ClientOrderId(req.key));
    var local := RowWithKey(w.rows, req.key);
    if found.Some? {
      AdoptKeepsCoherence(w, req.key, found.value, env);
    } else if local.Some? ==> local.value.providerOrderId.None? {
      SubmitKeepsCoherence(w, req, env, now);
    }
  }

  lemma BrokerMoveKeepsCoherence(w: World, id: OrderId, status: string)
    requires Coherent(w)
    ensures var v := w.(orders := WithOrderStatus(w.orders, id, status)); Coherent(v) && Extends(v, w)
  {
    var v := w.(orders := WithOrderStatus(w.orders, id, status));
    forall p | p in w.rows ensures GoodRow(p, w.rows[p], v.orders) {
      assert GoodRow(p, w.rows[p], w.orders);
    }
    forall i | 0 <= i < |v.orders| ensures HasRow(v.rows, v.orders[i].clientOrderId) {
      assert HasRow(w.rows, w.orders[i].clientOrderId);
    }
  }

  lemma CoherentStep(w: World, step: Step)
    requires Coherent(w) && Legal(step)
    ensures Coherent(Apply(w, step)) && Extends(Apply(w, step), w)
  {
    match step.op
    case Execute(req, env) =>
      ExecuteKeepsCoherence(w, req, env, step.now);
    case Reconcile(out, reached) =>
      ReconcileKeepsCoherence(w, out, reached, step.now);
    case ReconcileOne(planId, out) =>
      if planId in w.rows {
        var row := ReconciledRow(planId, w.rows[planId], w.orders, out, step.now);
        ReconciledRowGood(w, planId, out, step.now);
        RewriteKeepsCoherence(w, planId, row);
      }
    case TrackStatus(planId, status) =>
      if planId in w.rows {
        assert GoodRow(planId, w.rows[planId], w.orders);
        RewriteKeepsCoherence(w, planId, w.rows[planId].(providerStatus := Some(status), updatedAt := step.now));
      }
    case BrokerMoves(id, status) =>
      BrokerMoveKeepsCoherence(w, id, status);
  }

  /** Write-ahead and coherence hold after every run, whatever crashed; and the run loses nothing
      durable that was there before it, in particular no recorded order id. */
  lemma {:induction false} CoherentRun(w: World, steps: seq<Step>)
    requires Coherent(w)
    requires forall s :: s in steps ==> Legal(s)
    ensures Coherent(Run(w, steps)) && Extends(Run(w, steps), w)
    decreases |steps|
  {
    if steps != [] {
      var v := Apply(w, steps[0]);
      CoherentStep(w, steps[0]);
      CoherentRun(v, steps[1..]);
      ExtendsTransitive(Run(v, steps[1..]), v, w);
    }
  }

  lemma ExtendsTransitive(u: World, v: World, w: World)
    requires Extends(u, v) && Extends(v, w)
    ensures Extends(u, w)
  {
  }

  /** The empty store and broker are coherent, so every reachable world is. */
  lemma ReachableIsCoherent(steps: seq<Step>)
    requires forall s :: s in steps ==> Legal(s)
    ensures Coherent(Run(World(map[], []), steps))
  {
    CoherentRun(World(map[], []), steps);
  }
}
