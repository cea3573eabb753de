/** When a pending execution is recovered, and when it never is. */
module ExecutionRecovery {
  import opened Wrappers
  import opened ExecutionKeys
  import opened ExecutionStore
  import opened ExecutionProtocol
  import opened ExecutionSafety

  /** A row whose submission was not recorded, although the broker holds its order. */
  ghost predicate LostOrder(w: World, planId: string) {
    && planId in w.rows && w.rows[planId].authorized && w.rows[planId].providerOrderId.None?
    && w.rows[planId].clientOrderId != "" && HasOrder(w.orders, w.rows[planId].clientOrderId)
  }

  ghost predicate Reachable(planId: string, out: Outages) {
    planId !in out.byId && planId !in out.byClientId
  }

  /** A pass that reaches a lost order with working lookups records its id exactly when the row is
      inside the window; the broker is untouched. */
  lemma PassRepairsIffInWindow(w: World, planId: string, out: Outages, reached: set<string>, now: int)
    requires LostOrder(w, planId) && planId in reached && Reachable(planId, out)
    ensures var v := Reconciled(w, out, reached, now);
            var id := v.rows[planId].providerOrderId;
            && v.orders == w.orders
            && (id.Some? <==> InWindow(w.rows[planId].updatedAt, now))
            && (id.Some? ==> id.value < |w.orders| && w.orders[id.value].clientOrderId == w.rows[planId].clientOrderId)
  {
    var found := FindOrder(w.orders, w.rows[planId].clientOrderId);
    assert found.Some?;
  }

  /** A lookup of the pass finds the row's order, by its recorded id or by its client order id. */
  ghost predicate Findable(planId: string, row: Row, orders: seq<Order>, out: Outages) {
    || (row.providerOrderId.Some? && planId !in out.byId)
    || (row.clientOrderId != "" && planId !in out.byClientId && HasOrder(orders, row.clientOrderId))
  }

  /** The row says of its order what the broker says of it now. */
  ghost predicate Current(row: Row, orders: seq<Order>) {
    row.providerOrderId.Some? && row.providerOrderId.value < |orders|
    && var order := orders[row.providerOrderId.value];
       && order.clientOrderId == row.clientOrderId
       && row.providerStatus == Some(order.status) && row.submittedAt == Some(order.submittedAt)
  }

  /** What a pass leaves in a row it selected and reached: a findable order is recorded as it stands at the broker,
      and an id recorded before is kept; otherwise the status is unknown and nothing else is learned. */
  lemma PassRecordsTheBroker(w: World, planId: string, out: Outages, reached: set<string>, now: int)
    requires Coherent(w) && planId in w.rows && planId in reached && Selected(w.rows[planId], now)
    ensures var row, after := w.rows[planId], Reconciled(w, out, reached, now).rows[planId];
            && after.updatedAt == now && SameIdentity(after, row) && after.authorized == row.authorized
            && if Findable(planId, row, w.orders, out) then Current(after, w.orders)
               else after == row.(providerStatus := Some(UNKNOWN_STATUS), updatedAt := now)
  {
    var row := w.rows[planId];
    assert GoodRow(planId, row, w.orders);
    var found := FindOrder(w.orders, row.clientOrderId);
    if row.providerOrderId.Some? && found.Some? {
      SameOrder(w.orders, row.providerOrderId.value, found.value);
    }
  }

  /** So a reached row whose order can be found is active afterwards exactly when the broker says that the order is
      not done, and once it is done no later pass selects the row again. */
  lemma DoneOrdersLeaveTheQueue(w: World, planId: string, out: Outages, reached: set<string>, now: int, later: int)
    requires Coherent(w) && planId in w.rows && planId in reached && Selected(w.rows[planId], now)
    requires Findable(planId, w.rows[planId], w.orders, out)
    ensures var after := Reconciled(w, out, reached, now).rows[planId];
            && Current(after, w.orders)
            && (Selected(after, later) <==> Active(after))
            && (Active(after) <==>
                  w.orders[after.providerOrderId.value].status !in {"FILLED", "CANCELED", "EXPIRED", "REJECTED"})
  {
    PassRecordsTheBroker(w, planId, out, reached, now);
  }

  /** Texts are compared, not statuses: a status whose text carries anything besides one of the four bare words, such
      as a dotted name, is never done, and the row is selected by every later pass. */
  lemma DottedTextsStayActive(w: World, planId: string, out: Outages, reached: set<string>, now: int, later: int)
    requires Coherent(w) && planId in w.rows && planId in reached && Selected(w.rows[planId], now)
    requires Findable(planId, w.rows[planId], w.orders, out)
    requires forall i :: 0 <= i < |w.orders| ==> '.' in w.orders[i].status
    ensures Selected(Reconciled(w, out, reached, now).rows[planId], later)
  {
    DoneOrdersLeaveTheQueue(w, planId, out, reached, now, later);
    assert '.' !in "FILLED" && '.' !in "CANCELED" && '.' !in "EXPIRED" && '.' !in "REJECTED";
  }

  /** What each outcome of a call means. A call that is denied, dry or raises leaves everything as it was, and a dry run
      never reaches the broker. */
  lemma CallOutcomes(w: World, req: Request, env: Env, now: int)
    ensures var (v, out) := ExecuteStep(w, req, env, now); var local := RowWithKey(w.rows, req.key);
            var unrecorded := local.None? || local.value.providerOrderId.None?;
            var found := LookupReply(w.orders, ClientOrderId(req.key), env.lookup);
            && (out == Denied <==> !req.authorized)
            && (out == DryRun <==> req.authorized && unrecorded && found == Some(None) && req.dryRun)
            && (req.authorized && unrecorded && env.lookup == Failed ==> out == Raised)
            && (out == Crashed ==> env.crash <= 2)
            && (out == SubmitFailed ==> env.crash > 2 && (!env.submit.Accepted? || env.recordFails))
            && (out in {Denied, DryRun, Raised} ==> v == w)
            && (req.dryRun ==> v.orders == w.orders)
  {
    SubmitOutcomes(w, req, env, now);
    var found := LookupReply(w.orders, ClientOrderId(req.key), env.lookup);
    if found.Some? && found.value.Some? {
      AdoptOutcomes(w, found.value.value, env);
    }
    hide SubmitStep, AdoptStep, ClientOrderId, RowWithKey, FindOrder;
  }

  lemma SubmitOutcomes(w: World, req: Request, env: Env, now: int)
    ensures var (v, out) := SubmitStep(w, req, env, now);
            && out != Denied && out != DryRun
            && (out == Crashed ==> env.crash <= 2)
            && (out == SubmitFailed ==> env.crash > 2 && (!env.submit.Accepted? || env.recordFails))
            && (out == Raised ==> v == w)
  {
    hide ClientOrderId, UpsertConflicts, Upserted, WithProviderInfo, WithStatus, AfterSubmit;
  }

  lemma AdoptOutcomes(w: World, id: OrderId, env: Env)
    requires id < |w.orders|
    ensures var (v, out) := AdoptStep(w, id, env);
            && out != Denied && out != DryRun && out != SubmitFailed
            && (out == Crashed ==> env.crash <= 2) && (out == Raised ==> v == w) && v.orders == w.orders
  {
    hide AdoptedPlanId, UpsertConflicts, Upserted;
  }

  lemma SubmitRecords(w: World, req: Request, env: Env, now: int)
    ensures var (v, out) := SubmitStep(w, req, env, now);
            && (out.Submitted? ==>
                  && req.key in v.rows && v.rows[req.key].providerOrderId == Some(out.id)
                  && Current(v.rows[req.key], v.orders))
            && (out.SubmitFailed? ==>
                  && req.key in v.rows && v.rows[req.key].providerOrderId.None?
                  && v.rows[req.key].providerStatus == Some(FAILED_STATUS))
            && !out.Adopted?
  {
    hide ClientOrderId, UpsertConflicts;
  }

  lemma AdoptRecords(w: World, id: OrderId, env: Env)
    requires id < |w.orders|
    ensures var (v, out) := AdoptStep(w, id, env); var adopted := AdoptedPlanId(w.orders[id].clientOrderId);
            && (out.Adopted? ==>
                  && adopted in v.rows && v.rows[adopted].providerOrderId == Some(out.id)
                  && Current(v.rows[adopted], v.orders))
            && !out.Submitted? && !out.SubmitFailed?
  {
    hide AdoptedPlanId, UpsertConflicts;
  }

  /** What a call records: the order it created or found as it stands at the broker, or that its submission
      failed. */
  lemma CallRecordsTheBroker(w: World, req: Request, env: Env, now: int)
    ensures var (v, out) := ExecuteStep(w, req, env, now); var adopted := AdoptedPlanId(ClientOrderId(req.key));
            && (out.Submitted? ==>
                  && req.key in v.rows && v.rows[req.key].providerOrderId == Some(out.id)
                  && Current(v.rows[req.key], v.orders))
            && (out.Adopted? && v != w ==>
                  && adopted in v.rows && v.rows[adopted].providerOrderId == Some(out.id)
                  && Current(v.rows[adopted], v.orders))
            && (out.SubmitFailed? ==>
                  && req.key in v.rows && v.rows[req.key].providerOrderId.None?
                  && v.rows[req.key].providerStatus == Some(FAILED_STATUS))
  {
    SubmitRecords(w, req, env, now);
    var reply := LookupReply(w.orders, ClientOrderId(req.key), env.lookup);
    if reply.Some? && reply.value.Some? {
      AdoptRecords(w, reply.value.value, env);
    }
    hide SubmitStep, AdoptStep, Current, ClientOrderId, AdoptedPlanId, RowWithKey;
  }

  /** Once a row carries an order id, every later call for its key adopts that order, whatever the
      lookups answer, and changes nothing. */
  lemma RecordedIsAdopted(w: World, req: Request, env: Env, now: int)
    requires UniqueKeys(w.rows) && req.authorized
    requires req.key in w.rows && w.rows[req.key].idempotencyKey == req.key
    requires w.rows[req.key].providerOrderId.Some?
    ensures ExecuteStep(w, req, env, now) == (w, Adopted(w.rows[req.key].providerOrderId.value))
  {
    assert RowWithKey(w.rows, req.key) == Some(w.rows[req.key]);
  }

  /** An in-window pass over a lost order, and the next call adopts it. */
  lemma LostIsAdoptedAfterPass(w: World, req: Request, out: Outages, reached: set<string>, now: int,
                               env: Env, later: int)
    requires UniqueKeys(w.rows) && LostOrder(w, req.key) && w.rows[req.key].idempotencyKey == req.key
    requires req.key in reached && Reachable(req.key, out)
    requires InWindow(w.rows[req.key].updatedAt, now) && req.authorized
    ensures var v := Reconciled(w, out, reached, now);
            exists id | 0 <= id < |w.orders| ::
              && w.orders[id].clientOrderId == w.rows[req.key].clientOrderId
              && ExecuteStep(v, req, env, later) == (v, Adopted(id))
  {
    var v := Reconciled(w, out, reached, now);
    PassRepairsIffInWindow(w, req.key, out, reached, now);
    ReconciledKeepsKeys(w, out, reached, now);
    RecordedIsAdopted(v, req, env, later);
    assert w.orders[v.rows[req.key].providerOrderId.value].clientOrderId == w.rows[req.key].clientOrderId;
  }

  /** A complete pass with working lookups. */
  ghost function FullPass(w: World, now: int): World {
    Reconciled(w, Outages({}, {}), w.rows.Keys, now)
  }

  /** A second pass changes nothing but the time of the last update. */
  lemma SecondPassOnlyTouches(w: World, now: int, later: int)
    requires Coherent(w) && now <= later
    ensures var v := FullPass(w, now); var u := FullPass(v, later);
            && u.orders == v.orders && u.rows.Keys == v.rows.Keys
            && forall p :: p in v.rows ==> u.rows[p].(updatedAt := v.rows[p].updatedAt) == v.rows[p]
  {
    var v := FullPass(w, now);
    var u := FullPass(v, later);
    forall p | p in v.rows ensures u.rows[p].(updatedAt := v.rows[p].updatedAt) == v.rows[p] {
      SecondRowOnlyTouched(w, p, now, later);
    }
  }

  lemma SecondRowOnlyTouched(w: World, p: string, now: int, later: int)
    requires Coherent(w) && now <= later && p in w.rows
    ensures var v := FullPass(w, now);
            FullPass(v, later).rows[p].(updatedAt := v.rows[p].updatedAt) == v.rows[p]
  {
    var row := w.rows[p];
    assert GoodRow(p, row, w.orders);
    if !Selected(row, now) {
      assert !Selected(row, later);
    }
  }

  /** A pass whose lookups fail for a pending row leaves it pending with a fresh timestamp, so a
      later pass within that timestamp's window still repairs it. */
  lemma FailedPassStaysRepairable(w: World, planId: string, out: Outages, reached: set<string>, now: int,
                                  out': Outages, reached': set<string>, later: int)
    requires LostOrder(w, planId) && planId in reached && planId in out.byClientId
    requires InWindow(w.rows[planId].updatedAt, now) && InWindow(now, later)
    requires planId in reached' && Reachable(planId, out')
    ensures var v := Reconciled(w, out, reached, now);
            && LostOrder(v, planId) && v.rows[planId].updatedAt == now
            && Reconciled(v, out', reached', later).rows[planId].providerOrderId.Some?
  {
    PassRepairsIffInWindow(Reconciled(w, out, reached, now), planId, out', reached', later);
  }

  // ---- Adoption through execute ---------------------------------------------

  /** Adopting a broker order from execute aborts on the UNIQUE constraint exactly when some row's
      plan id is the client order id itself: filing the order would repeat that row's key. */
  lemma AdoptionAbortsIff(w: World, req: Request, env: Env, now: int)
    requires Coherent(w) && StableKey(req.key) && req.authorized
    requires RowWithKey(w.rows, req.key).Some? ==> RowWithKey(w.rows, req.key).value.providerOrderId.None?
    requires HasOrder(w.orders, ClientOrderId(req.key)) && env.lookup == Answered && env.crash >= 1
    ensures ExecuteStep(w, req, env, now).1 == Raised <==> ClientOrderId(req.key) in w.rows
    ensures ExecuteStep(w, req, env, now).1 == Raised ==> ExecuteStep(w, req, env, now).0 == w
    ensures ExecuteStep(w, req, env, now).1 != Raised ==>
              exists id :: FindOrder(w.orders, ClientOrderId(req.key)) == Some(id)
                           && ExecuteStep(w, req, env, now).1 == Adopted(id)
  {
    StableKeyAdoption(req.key);
    var cid := ClientOrderId(req.key);
    forall p | p in w.rows ensures w.rows[p].idempotencyKey == cid <==> p == cid || (p == AdoptedPlanId(cid)) {
      assert GoodRow(p, w.rows[p], w.orders);
    }
    var found := FindOrder(w.orders, cid);
    assert found.Some?;
    assert UpsertConflicts(w.rows, AdoptedPlanId(cid), cid) <==> cid in w.rows;
  }

  /** A call for a lost order whose key is its own client order id aborts and changes nothing. */
  lemma LostOrderBlocks(w: World, req: Request, env: Env, now: int)
    requires LostOrder(w, req.key) && w.rows[req.key].idempotencyKey == req.key
    requires w.rows[req.key].clientOrderId == ClientOrderId(req.key) == req.key
    requires UniqueKeys(w.rows) && StableKey(req.key) && req.authorized && env.lookup != FalseNone
    ensures ExecuteStep(w, req, env, now).0 == w
    ensures ExecuteStep(w, req, env, now).1 == Raised || ExecuteStep(w, req, env, now).1 == Crashed
  {
    StableKeyAdoption(req.key);
    assert RowWithKey(w.rows, req.key) == Some(w.rows[req.key]);
    var found := FindOrder(w.orders, req.key);
    assert found.Some?;
    assert UpsertConflicts(w.rows, AdoptedPlanId(req.key), req.key);
  }

  /** A submission that created nothing can be repeated: the retry rewrites the row and submits. */
  lemma RetrySubmits(w: World, req: Request, status: string, crash: nat, now: int)
    requires Coherent(w) && StableKey(req.key) && req.authorized && !req.dryRun && crash >= 3
    requires RowWithKey(w.rows, req.key).Some? ==> RowWithKey(w.rows, req.key).value.providerOrderId.None?
    requires !HasOrder(w.orders, ClientOrderId(req.key))
    ensures var (v, out) := ExecuteStep(w, req, Env(Answered, Accepted(status), false, crash), now);
            && out == Submitted(|w.orders|)
            && req.key in v.rows && v.rows[req.key].providerOrderId == Some(|w.orders|)
            && v.orders == w.orders + [Order(ClientOrderId(req.key), status, now)]
  {
    forall p | p in w.rows && w.rows[p].idempotencyKey == req.key ensures p == req.key {
      assert GoodRow(p, w.rows[p], w.orders);
      assert RowWithKey(w.rows, req.key) == Some(w.rows[p]);
    }
    assert !UpsertConflicts(w.rows, req.key, req.key);
  }

  // ---- Runs with lying lookups ----------------------------------------------

  /** The service's own row for a key carries an order id. */
  ghost predicate Recorded(t: Table, key: string) {
    && UniqueKeys(t) && StartsWithAc(key)
    && key in t && t[key].idempotencyKey == key && t[key].providerOrderId.Some?
  }

  function CountOrders(orders: seq<Order>, clientOrderId: string): nat {
    if orders == [] then 0
    else CountOrders(orders[..|orders| - 1], clientOrderId)
         + if orders[|orders| - 1].clientOrderId == clientOrderId then 1 else 0
  }

  lemma {:induction false} CountIgnoresStatus(v: seq<Order>, w: seq<Order>, clientOrderId: string)
    requires |v| == |w| && OrdersExtend(v, w)
    ensures CountOrders(v, clientOrderId) == CountOrders(w, clientOrderId)
  {
    if w != [] {
      CountIgnoresStatus(v[..|v| - 1], w[..|w| - 1], clientOrderId);
    }
  }

  /** Calls for the key itself, or for keys that print another client order id. */
  ghost predicate NoSharedClientId(step: Step, key: string) {
    step.op.Execute? ==>
      StableKey(step.op.req.key)
      && (step.op.req.key == key || ClientOrderId(step.op.req.key) != ClientOrderId(key))
  }

  lemma UpsertKeepsKeys(t: Table, planId: string, row: Row)
    requires UniqueKeys(t) && !UpsertConflicts(t, planId, row.idempotencyKey)
    ensures UniqueKeys(Upserted(t, planId, row))
  {
  }

  lemma UpdatesKeepKeys(t: Table, planId: string, id: OrderId, status: string, submittedAt: int, now: int)
    requires UniqueKeys(t)
    ensures UniqueKeys(WithProviderInfo(t, planId, id, status, submittedAt, now))
    ensures UniqueKeys(WithStatus(t, planId, status, now))
  {
  }

  lemma AdoptKeepsKeys(w: World, id: OrderId, env: Env)
    requires UniqueKeys(w.rows) && id < |w.orders|
    ensures UniqueKeys(AdoptStep(w, id, env).0.rows)
  {
    hide UniqueKeys, Upserted, UpsertConflicts, AdoptedPlanId;
    var row := AdoptedRow(w.orders[id], id);
    if !UpsertConflicts(w.rows, AdoptedPlanId(row.clientOrderId), row.idempotencyKey) {
      UpsertKeepsKeys(w.rows, AdoptedPlanId(row.clientOrderId), row);
    }
  }

  lemma SubmitKeepsKeys(w: World, req: Request, env: Env, now: int)
    requires UniqueKeys(w.rows)
    ensures UniqueKeys(SubmitStep(w, req, env, now).0.rows)
  {
    hide UniqueKeys, Upserted, UpsertConflicts, WithProviderInfo, WithStatus, AfterSubmit, ClientOrderId;
    if !UpsertConflicts(w.rows, req.key, req.key) {
      var rows := Upserted(w.rows, req.key, WriteAheadRow(req, now));
      UpsertKeepsKeys(w.rows, req.key, WriteAheadRow(req, now));
      if env.submit.Accepted? {
        UpdatesKeepKeys(rows, req.key, |w.orders|, env.submit.status, now, now);
      }
      UpdatesKeepKeys(rows, req.key, 0, FAILED_STATUS, now, now);
    }
  }

  lemma ExecuteKeepsKeys(w: World, req: Request, env: Env, now: int)
    requires UniqueKeys(w.rows)
    ensures UniqueKeys(ExecuteStep(w, req, env, now).0.rows)
  {
    hide UniqueKeys, AdoptStep, SubmitStep, RowWithKey;
    var found := FindOrder(w.orders, ClientOrderId(req.key));
    if found.Some? {
      AdoptKeepsKeys(w, found.value, env);
    }
    SubmitKeepsKeys(w, req, env, now);
  }

  /** A call for one key never touches the row the service wrote for another. */
  lemma OtherKeyLeavesRow(w: World, req: Request, env: Env, now: int, planId: string)
    requires planId in w.rows && StartsWithAc(planId) && StableKey(req.key) && req.key != planId
    ensures planId in ExecuteStep(w, req, env, now).0.rows
    ensures ExecuteStep(w, req, env, now).0.rows[planId] == w.rows[planId]
  {
    StableKeyAdoption(req.key);
  }

  lemma RecordedStep(w: World, step: Step, key: string)
    requires Recorded(w.rows, key) && NoSharedClientId(step, key)
    ensures Recorded(Apply(w, step).rows, key)
    ensures CountOrders(Apply(w, step).orders, ClientOrderId(key)) == CountOrders(w.orders, ClientOrderId(key))
  {
    match step.op
    case Execute(req, env) =>
      if req.key == key {
        RecordedCallDoesNothing(w, req, env, step.now);
      } else {
        ExecuteKeepsKeys(w, req, env, step.now);
        OtherKeyLeavesRow(w, req, env, step.now, key);
        ExecuteOrders(w, req, env, step.now);
        var orders := ExecuteStep(w, req, env, step.now).0.orders;
        assert orders[..|w.orders|] == w.orders;
      }
    case Reconcile(out, reached) =>
      ReconciledKeepsKeys(w, out, reached, step.now);
    case ReconcileOne(planId, out) =>
    case TrackStatus(planId, status) =>
    case BrokerMoves(id, status) =>
      CountIgnoresStatus(WithOrderStatus(w.orders, id, status), w.orders, ClientOrderId(key));
  }

  lemma RecordedCallDoesNothing(w: World, req: Request, env: Env, now: int)
    requires Recorded(w.rows, req.key)
    ensures ExecuteStep(w, req, env, now).0 == w
  {
    assert RowWithKey(w.rows, req.key) == Some(w.rows[req.key]);
  }

  /** The local table alone is a second guard: once a key's order id is recorded, no run submits
      for that key again, even if every lookup wrongly answers "not found". */
  lemma {:induction false} RecordedKeyNeverResubmits(w: World, steps: seq<Step>, key: string)
    requires Recorded(w.rows, key)
    requires forall s :: s in steps ==> NoSharedClientId(s, key)
    ensures Recorded(Run(w, steps).rows, key)
    ensures CountOrders(Run(w, steps).orders, ClientOrderId(key)) == CountOrders(w.orders, ClientOrderId(key))
    decreases |steps|
  {
    if steps != [] {
      RecordedStep(w, steps[0], key);
      RecordedKeyNeverResubmits(Apply(w, steps[0]), steps[1..], key);
    }
  }

  // ---- A lost order outside the window --------------------------------------

  /** A lost order whose key is its own client order id and whose row has left the window. */
  ghost predicate Stuck(w: World, key: string, updatedAt: int) {
    && UniqueKeys(w.rows) && StableKey(key) && ClientOrderId(key) == key
    && LostOrder(w, key) && w.rows[key].idempotencyKey == key && w.rows[key].clientOrderId == key
    && w.rows[key].updatedAt == updatedAt
  }

  /** Anything that can happen after the window has closed, short of reconciling this very record
      by hand or tracking it. */
  ghost predicate AfterWindow(step: Step, key: string, updatedAt: int) {
    && Legal(step) && !InWindow(updatedAt, step.now)
    && (step.op.ReconcileOne? ==> step.op.planId != key)
    && (step.op.TrackStatus? ==> step.op.planId != key)
  }

  lemma StuckStep(w: World, step: Step, key: string, updatedAt: int)
    requires Stuck(w, key, updatedAt) && AfterWindow(step, key, updatedAt)
    ensures Stuck(Apply(w, step), key, updatedAt) && Apply(w, step).rows[key] == w.rows[key]
  {
    match step.op
    case Execute(req, env) =>
      if req.key == key {
        if req.authorized { LostOrderBlocks(w, req, env, step.now); }
      } else {
        ExecuteKeepsKeys(w, req, env, step.now);
        OtherKeyLeavesRow(w, req, env, step.now, key);
        ExecuteOrders(w, req, env, step.now);
        OrdersStay(ExecuteStep(w, req, env, step.now).0.orders, w.orders, key);
      }
    case Reconcile(out, reached) =>
      ReconciledKeepsKeys(w, out, reached, step.now);
    case ReconcileOne(planId, out) =>
    case TrackStatus(planId, status) =>
    case BrokerMoves(id, status) =>
      OrdersStay(WithOrderStatus(w.orders, id, status), w.orders, key);
  }

  lemma OrdersStay(v: seq<Order>, w: seq<Order>, clientOrderId: string)
    requires OrdersExtend(v, w) && HasOrder(w, clientOrderId)
    ensures HasOrder(v, clientOrderId)
  {
    var i :| 0 <= i < |w| && w[i].clientOrderId == clientOrderId;
    assert v[i].clientOrderId == clientOrderId;
  }

  /** A stuck order stays stuck over every run outside its window. */
  lemma {:induction false} StuckForever(w: World, steps: seq<Step>, key: string, updatedAt: int,
                                        req: Request, env: Env, now: int)
    requires Stuck(w, key, updatedAt)
    requires forall s :: s in steps ==> AfterWindow(s, key, updatedAt)
    requires req.key == key && req.authorized && env.lookup != FalseNone
    ensures key in Run(w, steps).rows && Run(w, steps).rows[key] == w.rows[key]
    ensures ExecuteStep(Run(w, steps), req, env, now).0 == Run(w, steps)
    ensures ExecuteStep(Run(w, steps), req, env, now).1 in {Raised, Crashed}
    decreases |steps|
  {
    if steps == [] {
      LostOrderBlocks(w, req, env, now);
    } else {
      StuckStep(w, steps[0], key, updatedAt);
      StuckForever(Apply(w, steps[0]), steps[1..], key, updatedAt, req, env, now);
    }
  }

  // ---- From the lost reply on -------------------------------------------------

  /** The call got its order created, but the order's id did not get recorded: the process died in between,
      the reply was lost, or recording it failed. */
  ghost predicate ReplyLost(w: World, req: Request, env: Env) {
    CreatesOrder(w, req, env) && (env.crash == 2 || !env.submit.Accepted? || env.recordFails)
  }

  /** A call that creates an order loses it exactly then; its row is the one it wrote ahead, at its time. */
  lemma LostExactlyWithoutReply(w: World, req: Request, env: Env, now: int)
    requires Coherent(w) && StableKey(req.key) && env.lookup != FalseNone && CreatesOrder(w, req, env)
    ensures var v := ExecuteStep(w, req, env, now).0;
            && (LostOrder(v, req.key) <==> ReplyLost(w, req, env))
            && UniqueKeys(v.rows) && req.key in v.rows
            && v.orders == w.orders + [Order(ClientOrderId(req.key), env.submit.status, now)]
            && v.rows[req.key].idempotencyKey == req.key && v.rows[req.key].clientOrderId == ClientOrderId(req.key)
            && v.rows[req.key].updatedAt == now
  {
    ExecuteKeepsKeys(w, req, env, now);
    ExecuteOrders(w, req, env, now);
    var v := ExecuteStep(w, req, env, now).0;
    assert v.orders[|w.orders|].clientOrderId == ClientOrderId(req.key);
  }

  /** Recovery converges: a call whose reply is lost, a pass in the window that reaches its row with working
      lookups, and the next call adopts exactly the order the first one created. */
  lemma RecoveryThenAdoption(w: World, req: Request, env: Env, sent: int, out: Outages, reached: set<string>, now: int,
                             env': Env, later: int)
    requires Coherent(w) && StableKey(req.key) && env.lookup != FalseNone && ReplyLost(w, req, env)
    requires req.key in reached && Reachable(req.key, out) && InWindow(sent, now)
    ensures var v := Reconciled(ExecuteStep(w, req, env, sent).0, out, reached, now);
            ExecuteStep(v, req, env', later) == (v, Adopted(|w.orders|))
  {
    LostExactlyWithoutReply(w, req, env, sent);
    var u := ExecuteStep(w, req, env, sent).0;
    LostIsAdoptedAfterPass(u, req, out, reached, now, env', later);
    NotAtBroker(w, req, env);
    OnlyNewOrder(w.orders, u.orders, ClientOrderId(req.key));
  }

  lemma NotAtBroker(w: World, req: Request, env: Env)
    requires env.lookup != FalseNone && CreatesOrder(w, req, env)
    ensures !HasOrder(w.orders, ClientOrderId(req.key))
  {
  }

  lemma OnlyNewOrder(before: seq<Order>, after: seq<Order>, clientOrderId: string)
    requires |after| == |before| + 1 && after[..|before|] == before && !HasOrder(before, clientOrderId)
    ensures forall id :: 0 <= id < |after| && after[id].clientOrderId == clientOrderId ==> id == |before|
  {
    forall id | 0 <= id < |before| ensures after[id].clientOrderId != clientOrderId {
      assert after[..|before|][id] == before[id];
    }
  }

  /** After a lost reply for a key that is its own client order id, every repeated call raises or dies and
      changes nothing: only a recovery pass picks the order up. */
  lemma LostReplyBlocksExecute(w: World, req: Request, env: Env, sent: int, env': Env, now: int)
    requires Coherent(w) && StableKey(req.key) && ClientOrderId(req.key) == req.key
    requires env.lookup != FalseNone && ReplyLost(w, req, env) && env'.lookup != FalseNone
    ensures var u := ExecuteStep(w, req, env, sent).0;
            && ExecuteStep(u, req, env', now).0 == u
            && ExecuteStep(u, req, env', now).1 in {Raised, Crashed}
  {
    LostExactlyWithoutReply(w, req, env, sent);
    LostOrderBlocks(ExecuteStep(w, req, env, sent).0, req, env', now);
  }

  /** In general the next call, its lookup working, aborts exactly when the key is its own client order id or
      another row has that id as its plan id. Otherwise, as for a plan prefix that ends in "ac", it adopts the very
      order the first call created. */
  lemma LostReplyAbortsIff(w: World, req: Request, env: Env, sent: int, env': Env, now: int)
    requires Coherent(w) && StableKey(req.key) && env.lookup != FalseNone && ReplyLost(w, req, env)
    requires env'.lookup == Answered && env'.crash >= 1
    ensures var u := ExecuteStep(w, req, env, sent).0; var cid := ClientOrderId(req.key);
            var blocked := cid == req.key || cid in w.rows;
            ExecuteStep(u, req, env', now).1 == if blocked then Raised else Adopted(|w.orders|)
  {
    LostExactlyWithoutReply(w, req, env, sent);
    ExecuteKeepsCoherence(w, req, env, sent);
    CreatingAddsRow(w, req, env, sent);
    NotAtBroker(w, req, env);
    hide ExecuteStep, ReplyLost, CreatesOrder, Coherent, StableKey, ClientOrderId, UniqueKeys;
    var u := ExecuteStep(w, req, env, sent).0;
    OnlyNewOrder(w.orders, u.orders, ClientOrderId(req.key));
    assert u.orders[|w.orders|].clientOrderId == ClientOrderId(req.key);
    AdoptionAbortsIff(u, req, env', now);
  }

  lemma CreatingAddsRow(w: World, req: Request, env: Env, now: int)
    requires Coherent(w) && StableKey(req.key) && env.lookup != FalseNone && ReplyLost(w, req, env)
    ensures var v := ExecuteStep(w, req, env, now).0;
            && v.rows.Keys == w.rows.Keys + {req.key}
            && RowWithKey(v.rows, req.key).Some? && RowWithKey(v.rows, req.key).value.providerOrderId.None?
            && req.authorized
  {
    LostExactlyWithoutReply(w, req, env, now);
    var v := ExecuteStep(w, req, env, now).0;
    hide Coherent, StableKey;
    assert RowWithKey(v.rows, req.key) == Some(v.rows[req.key]);
  }

  /** And once its row has left the window, the order is lost for good: over every later run of calls and
      passes the row never changes, and every call for its key aborts. */
  lemma LostForever(w: World, req: Request, env: Env, sent: int, steps: seq<Step>, env': Env, now: int)
    requires Coherent(w) && StableKey(req.key) && ClientOrderId(req.key) == req.key
    requires env.lookup != FalseNone && ReplyLost(w, req, env) && env'.lookup != FalseNone
    requires forall s :: s in steps ==> AfterWindow(s, req.key, sent)
    ensures var u := ExecuteStep(w, req, env, sent).0; var v := Run(u, steps);
            && req.key in v.rows && v.rows[req.key] == u.rows[req.key] && v.rows[req.key].providerOrderId.None?
            && ExecuteStep(v, req, env', now).0 == v && ExecuteStep(v, req, env', now).1 in {Raised, Crashed}
  {
    LostExactlyWithoutReply(w, req, env, sent);
    StuckForever(ExecuteStep(w, req, env, sent).0, steps, req.key, sent, req, env', now);
  }

  const EXAMPLE := IdempotencyKey("12345678-9", "SPY", BUY, "1", "v1.0.0")

  lemma ExamplePrints()
    ensures KeyText(EXAMPLE) == AC + "12345678-SPY-BUY-1-v1.0.0"
  {
    hide ClientOrderId;
    assert Prefix(EXAMPLE.planId, 8) == "12345678" && Prefix(EXAMPLE.version, 8) == "v1.0.0";
  }

  lemma NoCMeansNoAc(s: string)
    requires NoLowerC(s)
    ensures !HasAc(s)
  {
  }

  lemma ExampleIsStable()
    ensures StableKey(KeyText(EXAMPLE))
  {
    hide KeyText, StableKey;
    assert Prefix(EXAMPLE.planId, 8) == "12345678";
    PrintedKeysAreStable(EXAMPLE);
  }

  lemma OwnId(body: string)
    requires NoLowerC(body) && |body| <= CLIENT_ID_LENGTH - 3
    ensures ClientOrderId(AC + body) == AC + body
  {
    hide ClientOrderId;
    NoCMeansNoAc(body);
    assert (AC + body)[3..] == body;
    ClientIdIsKey(AC + body);
  }

  lemma ExampleIsItsOwnId()
    ensures StableKey(KeyText(EXAMPLE)) && ClientOrderId(KeyText(EXAMPLE)) == KeyText(EXAMPLE)
  {
    hide KeyText, ClientOrderId, StableKey;
    ExamplePrints();
    ExampleIsStable();
    OwnId("12345678-SPY-BUY-1-v1.0.0");
  }

  /** The state is reached: one lost reply on the empty store, for a key the service prints. */
  lemma StuckIsReached(sent: int)
    ensures var req := Request(KeyText(EXAMPLE), EXAMPLE.planId, true, false);
            var env := Env(Answered, LostReply("new"), false, 3);
            && ReplyLost(World(map[], []), req, env)
            && Stuck(ExecuteStep(World(map[], []), req, env, sent).0, req.key, sent)
  {
    ExampleIsItsOwnId();
    hide KeyText, ClientOrderId, StableKey;
    var req := Request(KeyText(EXAMPLE), EXAMPLE.planId, true, false);
    LostExactlyWithoutReply(World(map[], []), req, Env(Answered, LostReply("new"), false, 3), sent);
  }
}
