/** The text of an idempotency key and of the broker-side client order id derived from it. */
module ExecutionKeys {
  import opened Wrappers

  datatype OrderSide = BUY | SELL

  /** `quantity` is the printed Decimal: two keys are told apart by its text. */
  datatype IdempotencyKey = IdempotencyKey(
    planId: string, symbol: string, side: OrderSide, quantity: string, version: string)

  const AC: string := "ac-"

  const CLIENT_ID_LENGTH: nat := 64

  function SideText(side: OrderSide): string {
    match side
    case BUY => "BUY"
    case SELL => "SELL"
  }

  function KeyText(k: IdempotencyKey): string {
    AC + (Prefix(k.planId, 8) + ("-" + KeyTail(k)))
  }

  function KeyTail(k: IdempotencyKey): string {
    k.symbol + ("-" + OrderPart(k.side, k.quantity, Prefix(k.version, 8)))
  }

  function OrderPart(side: OrderSide, quantity: string, version: string): string {
    SideText(side) + ("-" + (quantity + ("-" + version)))
  }

  /** "ac-" stands at position `i`. */
  predicate AcAt(s: string, i: nat) {
    i + 3 <= |s| && s[i] == 'a' && s[i + 1] == 'c' && s[i + 2] == '-'
  }

  ghost predicate HasAc(s: string) {
    exists i: nat :: AcAt(s, i)
  }

  predicate StartsWithAc(s: string) {
    AcAt(s, 0)
  }

  /** Python's `s.replace("ac-", "")`: one pass from the left, occurrences do not overlap. */
  function RemoveAc(s: string): string {
    if |s| < 3 then s
    else if AcAt(s, 0) then RemoveAc(s[3..])
    else [s[0]] + RemoveAc(s[1..])
  }

  function ClientOrderId(key: string): string {
    Prefix(AC + RemoveAc(key), CLIENT_ID_LENGTH)
  }

  /** The primary key under which an order found at the broker is filed. */
  function AdoptedPlanId(clientOrderId: string): string {
    RemoveAc(clientOrderId)
  }

  // ---- Reading a key back -------------------------------------------------

  /** Position of the first dash, or |s|. */
  function FirstDash(s: string): (i: nat)
    ensures i <= |s|
    ensures forall j :: 0 <= j < i ==> s[j] != '-'
    ensures i < |s| ==> s[i] == '-'
  {
    if s == [] || s[0] == '-' then 0 else 1 + FirstDash(s[1..])
  }

  ghost predicate DashFree(s: string) {
    forall i :: 0 <= i < |s| ==> s[i] != '-'
  }

  /** The parts of a key that its text keeps: 8 characters of plan id and of version. */
  function Printed(k: IdempotencyKey): IdempotencyKey {
    k.(planId := Prefix(k.planId, 8), version := Prefix(k.version, 8))
  }

  /** What str() prints for a Decimal: never empty, a dash only as the leading sign or right after the E of an
      exponent, and never that E at the end. */
  predicate PrintedDecimal(q: string) {
    q != [] && q[|q| - 1] != 'E' && forall i :: 0 < i < |q| && q[i] == '-' ==> q[i - 1] == 'E'
  }

  /** Position, from `i` on, of the first dash that is neither leading nor part of an exponent, or |s|. */
  function QuantityEnd(s: string, i: nat): (end: nat)
    requires i <= |s|
    ensures i <= end <= |s|
    decreases |s| - i
  {
    if i == |s| || (i > 0 && s[i] == '-' && s[i - 1] != 'E') then i else QuantityEnd(s, i + 1)
  }

  /** A reader for key texts. */
  function ParseKey(text: string): Option<IdempotencyKey> {
    if |text| < 12 then None else
    var tail := text[12..];
    var i := FirstDash(tail);
    if i == |tail| then None else ParseOrder(text[3..11], tail[..i], tail[i + 1..])
  }

  function ParseOrder(plan: string, symbol: string, rest: string): Option<IdempotencyKey> {
    var j := FirstDash(rest);
    if j == |rest| then None else
    var side := if rest[..j] == "BUY" then Some(BUY) else if rest[..j] == "SELL" then Some(SELL) else None;
    var order := rest[j + 1..];
    var cut := QuantityEnd(order, 0);
    if side.None? || cut == |order| then None
    else Some(IdempotencyKey(plan, symbol, side.value, order[..cut], order[cut + 1..]))
  }

  lemma {:induction false} FirstDashAfter(head: string, rest: string)
    requires DashFree(head)
    ensures var s := head + ("-" + rest);
            FirstDash(s) == |head| && s[..|head|] == head && s[|head| + 1..] == rest
  {
    if head == [] {
      assert (head + ("-" + rest))[0] == '-';
    } else {
      assert (head + ("-" + rest))[1..] == head[1..] + ("-" + rest);
      FirstDashAfter(head[1..], rest);
    }
  }

  /** The reader cuts a printed Decimal from whatever version follows it. */
  lemma {:induction false} QuantityReads(quantity: string, version: string, i: nat)
    requires PrintedDecimal(quantity) && i <= |quantity|
    ensures QuantityEnd(quantity + ("-" + version), i) == |quantity|
    decreases |quantity| - i
  {
    var s := quantity + ("-" + version);
    if i < |quantity| {
      assert s[i] == quantity[i] && (i > 0 ==> s[i - 1] == quantity[i - 1]);
      QuantityReads(quantity, version, i + 1);
    } else {
      assert s[i] == '-' && s[i - 1] == quantity[i - 1];
    }
  }

  /** Side, quantity and version as the reader finds them after the symbol. */
  lemma OrderPartReads(plan: string, symbol: string, side: OrderSide, quantity: string, version: string)
    requires PrintedDecimal(quantity)
    ensures ParseOrder(plan, symbol, OrderPart(side, quantity, version))
         == Some(IdempotencyKey(plan, symbol, side, quantity, version))
  {
    var order := quantity + ("-" + version);
    QuantityReads(quantity, version, 0);
    hide QuantityEnd, PrintedDecimal;
    FirstDashAfter(SideText(side), order);
    hide FirstDash;
    assert order[..|quantity|] == quantity && order[|quantity| + 1..] == version;
  }

  /** Printing loses nothing of a key but the ends of its plan id and version: the text alone gives back the rest. */
  lemma KeyTextRoundTrip(k: IdempotencyKey)
    requires |k.planId| >= 8 && DashFree(k.symbol) && PrintedDecimal(k.quantity)
    ensures ParseKey(KeyText(k)) == Some(Printed(k))
  {
    OrderPartReads(Prefix(k.planId, 8), k.symbol, k.side, k.quantity, Prefix(k.version, 8));
    FirstDashAfter(k.symbol, OrderPart(k.side, k.quantity, Prefix(k.version, 8)));
    PlanReads(Prefix(k.planId, 8), KeyTail(k));
  }

  lemma PlanReads(plan: string, tail: string)
    requires |plan| == 8
    ensures var s := AC + (plan + ("-" + tail)); s[12..] == tail && s[3..11] == plan
  {
  }

  /** Quantity and version as they stand in the text, with one dash between them. */
  function QuantityVersion(k: IdempotencyKey): string {
    k.quantity + ("-" + Prefix(k.version, 8))
  }

  /** Two keys print alike exactly when plan prefix, symbol and side agree, and quantity and version read the
      same together. */
  lemma KeyTextsEqualIff(k1: IdempotencyKey, k2: IdempotencyKey)
    requires |k1.planId| >= 8 && |k2.planId| >= 8
    requires DashFree(k1.symbol) && DashFree(k2.symbol)
    ensures KeyText(k1) == KeyText(k2) <==>
              && Prefix(k1.planId, 8) == Prefix(k2.planId, 8) && k1.symbol == k2.symbol && k1.side == k2.side
              && QuantityVersion(k1) == QuantityVersion(k2)
  {
    if KeyText(k1) == KeyText(k2) {
      PlanReads(Prefix(k1.planId, 8), KeyTail(k1));
      PlanReads(Prefix(k2.planId, 8), KeyTail(k2));
      FirstDashAfter(k1.symbol, OrderPart(k1.side, k1.quantity, Prefix(k1.version, 8)));
      FirstDashAfter(k2.symbol, OrderPart(k2.side, k2.quantity, Prefix(k2.version, 8)));
      FirstDashAfter(SideText(k1.side), QuantityVersion(k1));
      FirstDashAfter(SideText(k2.side), QuantityVersion(k2));
      assert |SideText(BUY)| == 3 && |SideText(SELL)| == 4;
    }
  }

  /** Two keys print alike exactly when they agree on everything the text keeps, whatever their versions. */
  lemma KeyTextInjective(k1: IdempotencyKey, k2: IdempotencyKey)
    requires |k1.planId| >= 8 && |k2.planId| >= 8
    requires DashFree(k1.symbol) && DashFree(k2.symbol)
    requires PrintedDecimal(k1.quantity) && PrintedDecimal(k2.quantity)
    ensures KeyText(k1) == KeyText(k2) <==> Printed(k1) == Printed(k2)
  {
    hide ParseKey;
    KeyTextRoundTrip(k1);
    KeyTextRoundTrip(k2);
  }

  // ---- The client order id ------------------------------------------------

  /** Removal shortens a text exactly when there is something to remove. */
  lemma {:induction false} RemoveAcShortens(s: string)
    ensures |RemoveAc(s)| <= |s|
    ensures |RemoveAc(s)| == |s| <==> !HasAc(s)
    ensures !HasAc(s) ==> RemoveAc(s) == s
  {
    if |s| >= 3 {
      if AcAt(s, 0) {
        RemoveAcShortens(s[3..]);
      } else {
        var t := s[1..];
        RemoveAcShortens(t);
        assert forall i: nat :: AcAt(t, i) ==> AcAt(s, i + 1);
        assert forall i: nat :: AcAt(s, i) ==> i > 0 && AcAt(t, i - 1);
      }
    }
  }

  /** The client order id is the key itself exactly when nothing is cut off and nothing is removed. */
  lemma ClientIdIsKey(key: string)
    requires StartsWithAc(key)
    ensures ClientOrderId(key) == key <==> |key| <= CLIENT_ID_LENGTH && !HasAc(key[3..])
  {
    var tail := key[3..];
    assert key == AC + tail;
    RemoveAcShortens(tail);
    var full := AC + RemoveAc(tail);
    if ClientOrderId(key) == key {
      assert |full| <= |key|;
      assert full[3..] == RemoveAc(tail);
    }
  }

  /** A key whose client order id has no inner "ac-". */
  ghost predicate StableKey(key: string) {
    StartsWithAc(key) && !HasAc(ClientOrderId(key)[3..])
  }

  /** Under a stable key the adopted plan id is the client order id without its prefix,
      so no adopted row shares a primary key with a row the service wrote itself. */
  lemma StableKeyAdoption(key: string)
    requires StableKey(key)
    ensures ClientOrderId(key) == AC + AdoptedPlanId(ClientOrderId(key))
    ensures !StartsWithAc(AdoptedPlanId(ClientOrderId(key)))
  {
    var cid := ClientOrderId(key);
    RemoveAcShortens(cid[3..]);
    assert cid == AC + cid[3..];
  }

  lemma DashIsLater(head: string, rest: string)
    requires DashFree(head) && head != []
    requires |head| < 2 || head[|head| - 2..] != "ac"
    ensures var s := head + ("-" + rest);
            !AcAt(s, 0) && s[0] == head[0] && s[1..] == head[1..] + ("-" + rest)
    ensures |head[1..]| < 2 || head[1..][|head| - 3..] != "ac"
    ensures DashFree(head[1..])
  {
    var s := head + ("-" + rest);
    assert |head| == 2 ==> head[0..] == [s[0], s[1]];
    assert |head| >= 3 ==> s[2] == head[2];
    if |head| >= 3 {
      assert head[1..][|head| - 3..] == head[|head| - 2..];
    }
  }

  /** Removal leaves a dash-free head that does not end in "ac" alone, with the dash after it. */
  lemma {:induction false} RemoveAcSkips(head: string, rest: string)
    requires DashFree(head)
    requires |head| < 2 || head[|head| - 2..] != "ac"
    ensures RemoveAc(head + ("-" + rest)) == head + ("-" + RemoveAc(rest))
    decreases |head|
  {
    var s := head + ("-" + rest);
    if head == [] {
      assert s[1..] == rest;
      assert RemoveAc(s) == [s[0]] + RemoveAc(rest);
    } else {
      DashIsLater(head, rest);
      RemoveAcStep(s);
      RemoveAcSkips(head[1..], rest);
      hide RemoveAc, AcAt, DashFree;
      Regroup(head, "-" + RemoveAc(rest));
    }
  }

  lemma RemoveAcStep(s: string)
    requires s != [] && !AcAt(s, 0)
    ensures RemoveAc(s) == [s[0]] + RemoveAc(s[1..])
  {
  }

  lemma Regroup(head: string, rest: string)
    requires head != []
    ensures [head[0]] + (head[1..] + rest) == head + rest
  {
  }

  lemma GapIsLater(head: string, rest: string)
    requires DashFree(head) && head != []
    ensures var s := head + (AC + rest);
            |s| > 3 && !AcAt(s, 0) && s[0] == head[0] && s[1..] == head[1..] + (AC + rest)
  {
    var s := head + (AC + rest);
    assert |head| >= 3 ==> s[2] == head[2];
    assert |head| == 2 ==> s[2] == AC[0];
    assert |head| == 1 ==> s[2] == AC[1];
  }

  /** Removal closes the gap after a dash-free head. */
  lemma {:induction false} RemoveAcCuts(head: string, rest: string)
    requires DashFree(head)
    ensures RemoveAc(head + (AC + rest)) == head + RemoveAc(rest)
    decreases |head|
  {
    var s := head + (AC + rest);
    if head == [] {
      assert s == AC + rest;
      assert s[3..] == rest;
    } else {
      GapIsLater(head, rest);
      RemoveAcStep(s);
      RemoveAcCuts(head[1..], rest);
      hide RemoveAc, AcAt, DashFree;
      Regroup(head, RemoveAc(rest));
    }
  }

  ghost predicate NoLowerC(s: string) {
    forall i :: 0 <= i < |s| ==> s[i] != 'c'
  }

  /** A dash-free head that does not end in "ac", before a tail without c, hides no "ac-". */
  lemma JoinHasNoAc(head: string, tail: string)
    requires DashFree(head) && NoLowerC(tail)
    requires tail != [] && (tail[0] == '-' ==> |head| < 2 || head[|head| - 2..] != "ac")
    ensures !HasAc(head + tail)
  {
    var s := head + tail;
    forall i: nat ensures !AcAt(s, i) {
      if i + 3 <= |s| {
        if i + 2 < |head| {
          assert s[i + 2] == head[i + 2];
        } else if i + 2 == |head| {
          assert s[i + 2] == tail[0] && [s[i], s[i + 1]] == head[|head| - 2..];
        } else {
          assert s[i + 1] == tail[i + 1 - |head|];
        }
      }
    }
  }

  lemma BodyHasNoAc(plan: string, tail: string)
    requires |plan| == 8 && DashFree(plan) && NoLowerC(tail) && tail != [] && tail[0] != '-'
    ensures !HasAc(RemoveAc(plan + ("-" + tail)))
  {
    RemoveAcShortens(tail);
    if plan[6..] == "ac" {
      assert plan + ("-" + tail) == plan[..6] + (AC + tail);
      RemoveAcCuts(plan[..6], tail);
      JoinHasNoAc(plan[..6], tail);
    } else {
      RemoveAcSkips(plan, tail);
      JoinHasNoAc(plan, "-" + tail);
    }
  }

  /** Every key the service can print is stable when the first eight characters of the plan id
      hold no dash (a UUID) and the symbol, quantity and version hold no lower-case c. The plan id
      itself may end in "ac": the key then differs from its client order id. */
  lemma PrintedKeysAreStable(k: IdempotencyKey)
    requires |k.planId| >= 8 && DashFree(Prefix(k.planId, 8))
    requires k.symbol != [] && DashFree(k.symbol)
    requires NoLowerC(k.symbol) && NoLowerC(k.quantity) && NoLowerC(k.version)
    ensures StableKey(KeyText(k))
  {
    var body := Prefix(k.planId, 8) + ("-" + KeyTail(k));
    BodyHasNoAc(Prefix(k.planId, 8), KeyTail(k));
    PrefixHasNoAc(RemoveAc(body));
    PrefixedTail(body);
  }

  lemma PrefixedTail(body: string)
    ensures StartsWithAc(AC + body)
    ensures ClientOrderId(AC + body)[3..] == Prefix(RemoveAc(body), CLIENT_ID_LENGTH - 3)
  {
    assert (AC + body)[3..] == body;
  }

  lemma PrefixHasNoAc(s: string)
    ensures HasAc(Prefix(s, CLIENT_ID_LENGTH - 3)) ==> HasAc(s)
  {
    if HasAc(Prefix(s, CLIENT_ID_LENGTH - 3)) {
      var i: nat :| AcAt(Prefix(s, CLIENT_ID_LENGTH - 3), i);
      assert AcAt(s, i);
    }
  }
}
