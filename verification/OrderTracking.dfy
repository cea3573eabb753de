/** Bounded polling of an order's status. */
module OrderTracking {
  import opened Wrappers
  import opened ExecutionStore
  import opened ExecutionProtocol
  import opened ExecutionSafety

  datatype ExecutionStatus =
    | PLANNED | AUTHORIZED | SUBMITTED | PARTIALLY_FILLED | FILLED | REJECTED | CANCELED | EXPIRED
    | NOT_EXECUTED | UNKNOWN | FAILED | PENDING_NEW | ACCEPTED | NEW

  predicate IsTerminal(s: ExecutionStatus) {
    s == FILLED || s == CANCELED || s == EXPIRED || s == REJECTED
  }

  /** Missing: no order under the client order id, asked only when there is no order id. */
  datatype PollReply = Seen(status: ExecutionStatus, providerStatus: string) | Missing | Error

  /** `completed` stands for completed_at being set. */
  datatype TrackResult = TrackResult(status: ExecutionStatus, completed: bool)

  /** The last status seen in the first n polls. */
  ghost function LastSeen(first: ExecutionStatus, polls: nat -> PollReply, n: nat): ExecutionStatus {
    if n == 0 then first
    else if polls(n - 1).Seen? then polls(n - 1).status
    else LastSeen(first, polls, n - 1)
  }

  /** The table after the writes of the first n polls: one for each change of status. */
  ghost function TrackedTable(t: Table, planId: string, first: ExecutionStatus, polls: nat -> PollReply,
                              n: nat, now: int): Table
  {
    if n == 0 then t else
    var before := TrackedTable(t, planId, first, polls, n - 1, now);
    if polls(n - 1).Seen? && polls(n - 1).status != LastSeen(first, polls, n - 1)
    then WithStatus(before, planId, polls(n - 1).providerStatus, now) else before
  }

  ghost predicate SawTerminal(polls: nat -> PollReply, n: nat) {
    exists k :: 0 <= k < n && polls(k).Seen? && IsTerminal(polls(k).status)
  }

  function Ceiling(x: real): int {
    -((-x).Floor)
  }

  /** The loop test at clock reading i passes only for so many i. */
  lemma PollBound(start: real, timeout: real, interval: real, reading: real, i: nat)
    requires interval > 0.0 && reading >= start + i as real * interval && reading - start < timeout
    ensures i < Ceiling(timeout / interval)
  {
    assert i as real * interval < timeout;
    var q := timeout / interval;
    assert q * interval == timeout;
    assert (i as real - q) * interval < 0.0;
    assert i as real < q;
  }

  /** `clock(i)` is the reading at the i-th loop test; every poll is followed by a sleep. */
  method TrackOrder(store: ExecutionStore, planId: string, hasOrderId: bool, first: ExecutionStatus,
                    timeout: real, interval: real, start: real, clock: nat -> real, polls: nat -> PollReply, now: int)
    returns (r: TrackResult, n: nat)
    requires interval > 0.0
    requires clock(0) >= start && forall i: nat :: clock(i + 1) >= clock(i) + interval
    requires hasOrderId ==> forall i: nat :: polls(i) != Missing
    modifies store
    // bounded, even if every poll fails
    ensures n == 0 || n <= Ceiling(timeout / interval)
    // truthful: the last status seen, complete exactly when a terminal one was seen
    ensures r.status == LastSeen(first, polls, n)
    ensures r.completed <==> SawTerminal(polls, n)
    ensures r.completed ==> r.status in {FILLED, CANCELED, EXPIRED, REJECTED}
    ensures !r.completed ==>
              forall k :: 0 <= k < n && polls(k).Seen? ==> polls(k).status !in {FILLED, CANCELED, EXPIRED, REJECTED}
    // it gives up only at the timeout, or when the order is not there to be asked for
    ensures !r.completed ==> clock(n) - start >= timeout || (n > 0 && polls(n - 1) == Missing)
    ensures store.rows == TrackedTable(old(store.rows), planId, first, polls, n, now)
  {
    n := 0;
    var lastStatus := first;
    while clock(n) - start < timeout
      invariant clock(n) >= start + n as real * interval
      invariant n == 0 || n <= Ceiling(timeout / interval)
      invariant lastStatus == LastSeen(first, polls, n)
      invariant !SawTerminal(polls, n)
      invariant store.rows == TrackedTable(old(store.rows), planId, first, polls, n, now)
      decreases Ceiling(timeout / interval) - n
    {
      PollBound(start, timeout, interval, clock(n), n);
      var reply := polls(n);
      n := n + 1;
      if reply == Missing {
        break;
      }
      if reply.Seen? {
        if reply.status != lastStatus {
          lastStatus := reply.status;
          store.UpdateStatus(planId, reply.providerStatus, now);
        }
        if IsTerminal(reply.status) {
          assert polls(n - 1).Seen?;
          return TrackResult(reply.status, true), n;
        }
      }
    }
    r := TrackResult(lastStatus, false);
  }

  /** The status reported is that of the latest poll that saw one. */
  lemma {:induction false} LastSeenIs(first: ExecutionStatus, polls: nat -> PollReply, n: nat, k: nat)
    requires k < n && polls(k).Seen? && forall j :: k < j < n ==> !polls(j).Seen?
    ensures LastSeen(first, polls, n) == polls(k).status
  {
    if k < n - 1 {
      LastSeenIs(first, polls, n - 1, k);
    }
  }

  /** Writing only changes is enough: when each status has one text, the row always shows the last one seen. */
  lemma {:induction false} TableFollowsStatus(t: Table, planId: string, first: ExecutionStatus,
                                              polls: nat -> PollReply, n: nat, now: int,
                                              text: ExecutionStatus -> string)
    requires planId in t && t[planId].providerStatus == Some(text(first))
    requires forall k: nat :: polls(k).Seen? ==> polls(k).providerStatus == text(polls(k).status)
    ensures var after := TrackedTable(t, planId, first, polls, n, now);
            && planId in after && after[planId].providerStatus == Some(text(LastSeen(first, polls, n)))
            && after[planId].providerOrderId == t[planId].providerOrderId
  {
    if n > 0 {
      TableFollowsStatus(t, planId, first, polls, n - 1, now, text);
    }
  }

  /** Tracking's writes are status steps of a protocol run: they keep coherence and lose nothing. */
  lemma {:induction false} TrackingKeepsCoherence(w: World, planId: string, first: ExecutionStatus,
                                                  polls: nat -> PollReply, n: nat, now: int)
    requires Coherent(w)
    ensures var v := w.(rows := TrackedTable(w.rows, planId, first, polls, n, now)); Coherent(v) && Extends(v, w)
  {
    if n > 0 {
      TrackingKeepsCoherence(w, planId, first, polls, n - 1, now);
      var v := w.(rows := TrackedTable(w.rows, planId, first, polls, n - 1, now));
      hide Coherent, Extends, WithStatus;
      if polls(n - 1).Seen? {
        var step := Step(now, TrackStatus(planId, polls(n - 1).providerStatus));
        CoherentStep(v, step);
        ExtendsTransitive(Apply(v, step), v, w);
      }
    }
  }
}
