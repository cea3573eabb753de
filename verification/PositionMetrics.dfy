/** Price watermarks of a position and the excursions computed from them (M7). */
module PositionMetrics {
  import opened Wrappers
  import opened Arithmetic

  datatype Side = LONG | SHORT

  datatype Watermarks = Watermarks(highest: Option<real>, lowest: Option<real>)

  const UNSEEN := Watermarks(None, None)

  function UpdateWatermarks(w: Watermarks, price: real): Watermarks {
    Watermarks(if w.highest.None? || price > w.highest.value then Some(price) else w.highest,
               if w.lowest.None? || price < w.lowest.value then Some(price) else w.lowest)
  }

  /** Python's truth of an optional number: present and not zero. */
  predicate Truthy(x: Option<real>) {
    x.Some? && x.value != 0.0
  }

  /** The entry price is not validated: a zero one is divided by as soon as a mark lies on either side of it. */
  predicate ExcursionsRaise(entry: real, w: Watermarks) {
    entry == 0.0 && ((w.highest.Some? && w.highest.value > entry) || (w.lowest.Some? && w.lowest.value < entry))
  }

  /** Maximum favourable excursion, as a share of the entry price. */
  function Mfe(side: Side, entry: real, w: Watermarks): real
    requires !ExcursionsRaise(entry, w)
  {
    if side.LONG? then
      if Truthy(w.highest) && w.highest.value > entry then (w.highest.value - entry) / entry else 0.0
    else
      if Truthy(w.lowest) && w.lowest.value < entry then (entry - w.lowest.value) / entry else 0.0
  }

  /** Maximum adverse excursion. */
  function Mae(side: Side, entry: real, w: Watermarks): real
    requires !ExcursionsRaise(entry, w)
  {
    if side.LONG? then
      if Truthy(w.lowest) && w.lowest.value < entry then (entry - w.lowest.value) / entry else 0.0
    else
      if Truthy(w.highest) && w.highest.value > entry then (w.highest.value - entry) / entry else 0.0
  }

  /** The unrealised return at a price. */
  function Return(side: Side, entry: real, price: real): real {
    if entry <= 0.0 then 0.0
    else if side.LONG? then (price - entry) / entry else (entry - price) / entry
  }

  /** The watermarks after a run of prices. */
  function Observed(w: Watermarks, prices: seq<real>): Watermarks {
    if prices == [] then w
    else UpdateWatermarks(Observed(w, prices[..|prices| - 1]), prices[|prices| - 1])
  }

  ghost predicate AllPositive(prices: seq<real>) {
    forall i :: 0 <= i < |prices| ==> prices[i] > 0.0
  }

  /** After any run of prices the watermarks are exactly its maximum and its minimum. */
  lemma {:induction false} WatermarksAreExtremes(prices: seq<real>)
    requires prices != []
    ensures var w := Observed(UNSEEN, prices);
            && w.highest.Some? && w.highest.value in prices && (forall p :: p in prices ==> p <= w.highest.value)
            && w.lowest.Some? && w.lowest.value in prices && (forall p :: p in prices ==> w.lowest.value <= p)
  {
    var front, last := prices[..|prices| - 1], prices[|prices| - 1];
    assert prices == front + [last];
    if front != [] {
      WatermarksAreExtremes(front);
    }
  }

  ghost predicate Ordered(w: Watermarks) {
    && (w.highest.Some? <==> w.lowest.Some?)
    && (w.lowest.Some? ==> 0.0 < w.lowest.value <= w.highest.value)
  }

  lemma {:induction false} ObservedOrdered(w: Watermarks, prices: seq<real>)
    requires Ordered(w) && AllPositive(prices)
    ensures Ordered(Observed(w, prices))
  {
    if prices != [] {
      ObservedOrdered(w, prices[..|prices| - 1]);
    }
  }

  /** One more price never shrinks an excursion, and the return at it lies between the two. */
  lemma ExcursionsCover(side: Side, entry: real, w: Watermarks, price: real)
    requires entry > 0.0 && price > 0.0 && Ordered(w)
    ensures var u := UpdateWatermarks(w, price);
            && Mfe(side, entry, w) <= Mfe(side, entry, u) && Mae(side, entry, w) <= Mae(side, entry, u)
            && -Mae(side, entry, u) <= Return(side, entry, price) <= Mfe(side, entry, u)
  {
    var u := UpdateWatermarks(w, price);
    ShareOf(u.highest.value, entry);
    ShareOf(u.lowest.value, entry);
    ShareOf(price, entry);
    QuotientMonotone(price, u.highest.value, entry);
    QuotientMonotone(u.lowest.value, price, entry);
    if w.highest.Some? {
      ShareOf(w.highest.value, entry);
      ShareOf(w.lowest.value, entry);
      QuotientMonotone(w.highest.value, u.highest.value, entry);
      QuotientMonotone(u.lowest.value, w.lowest.value, entry);
    }
  }

  lemma ShareOf(price: real, entry: real)
    requires entry > 0.0
    ensures (price - entry) / entry == price / entry - 1.0
    ensures (entry - price) / entry == 1.0 - price / entry
    ensures price > entry ==> price / entry > 1.0
    ensures price < entry ==> price / entry < 1.0
  {
    QuotientsAdd(price - entry, entry, entry);
    QuotientsAdd(entry - price, price, entry);
    Whole(entry);
    assert price - entry + entry == price && entry - price + price == entry;
  }

  lemma Whole(entry: real)
    requires entry > 0.0
    ensures entry / entry == 1.0
  {
  }

  /** Over a whole run the excursions only grow from the first price to the last. */
  lemma {:induction false} ExcursionsGrow(side: Side, entry: real, prices: seq<real>, n: nat)
    requires entry > 0.0 && AllPositive(prices) && n <= |prices|
    ensures Mfe(side, entry, Observed(UNSEEN, prices[..n])) <= Mfe(side, entry, Observed(UNSEEN, prices))
    ensures Mae(side, entry, Observed(UNSEEN, prices[..n])) <= Mae(side, entry, Observed(UNSEEN, prices))
  {
    if n == |prices| {
      assert prices[..n] == prices;
    } else {
      var front := prices[..|prices| - 1];
      assert front[..n] == prices[..n];
      ExcursionsGrow(side, entry, front, n);
      ObservedOrdered(UNSEEN, front);
      ExcursionsCover(side, entry, Observed(UNSEEN, front), prices[|prices| - 1]);
    }
  }

  /** The excursions bound the return at every price ever seen, not only at the last. */
  lemma ReturnsWithinExcursions(side: Side, entry: real, prices: seq<real>, i: nat)
    requires entry > 0.0 && AllPositive(prices) && i < |prices|
    ensures var w := Observed(UNSEEN, prices);
            -Mae(side, entry, w) <= Return(side, entry, prices[i]) <= Mfe(side, entry, w)
  {
    var front := prices[..i];
    assert prices[..i + 1][..i] == front;
    ObservedOrdered(UNSEEN, front);
    ExcursionsCover(side, entry, Observed(UNSEEN, front), prices[i]);
    ExcursionsGrow(side, entry, prices, i + 1);
  }

  /** And neither is larger than what was seen: each is zero or the gain or loss at a price of the run. */
  lemma ExcursionsAttained(side: Side, entry: real, prices: seq<real>)
    requires entry > 0.0 && AllPositive(prices) && prices != []
    ensures var w := Observed(UNSEEN, prices);
            && (Mfe(side, entry, w) == 0.0 || exists p :: p in prices && Mfe(side, entry, w) == Return(side, entry, p))
            && (Mae(side, entry, w) == 0.0 || exists p :: p in prices && Mae(side, entry, w) == -Return(side, entry, p))
  {
    WatermarksAreExtremes(prices);
    var w := Observed(UNSEEN, prices);
    ShareOf(w.highest.value, entry);
    ShareOf(w.lowest.value, entry);
    assert w.highest.value in prices && w.lowest.value in prices;
    hide Observed;
    if side.LONG? {
      assert Mfe(side, entry, w) != 0.0 ==> Mfe(side, entry, w) == Return(side, entry, w.highest.value);
      assert Mae(side, entry, w) != 0.0 ==> Mae(side, entry, w) == -Return(side, entry, w.lowest.value);
    } else {
      assert Mfe(side, entry, w) != 0.0 ==> Mfe(side, entry, w) == Return(side, entry, w.lowest.value);
      assert Mae(side, entry, w) != 0.0 ==> Mae(side, entry, w) == -Return(side, entry, w.highest.value);
    }
  }
}
