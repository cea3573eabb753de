/** The option filters as conditions on days, prices and sizes (M5). */
module OptionLimits {
  import opened Wrappers
  import opened Arithmetic
  import opened OptionSelection

  predicate Uncrossed(q: Quote) {
    0.0 < q.bid <= q.ask
  }

  /** A contract is in scope exactly within the configured days to expiry, both ends included, and when the price is
      between the configured multiples of the strike, or for a put the strike between those of the price. */
  lemma ScopeIff(x: Context, c: Contract)
    requires c.strike > 0.0
    ensures InScope(x, c) <==>
              && x.today + x.config.minDte <= c.expiration <= x.today + x.config.maxDte
              && x.price > 0.0
              && if c.call then x.config.minMoneyness * c.strike <= x.price <= x.config.maxMoneyness * c.strike
                 else x.config.minMoneyness * x.price <= c.strike <= x.config.maxMoneyness * x.price
  {
    if x.price > 0.0 {
      QuotientCompare(x.price, c.strike, x.config.minMoneyness);
      QuotientCompare(x.price, c.strike, x.config.maxMoneyness);
      QuotientCompare(c.strike, x.price, x.config.minMoneyness);
      QuotientCompare(c.strike, x.price, x.config.maxMoneyness);
    }
  }

  lemma SpreadIs(q: Quote, limit: real)
    requires Uncrossed(q)
    ensures SpreadShare(q) == 0.0 <==> q.ask == q.bid
    ensures SpreadShare(q) <= limit <==> q.ask - q.bid <= limit * ((q.bid + q.ask) / 2.0)
  {
    var mid := (q.bid + q.ask) / 2.0;
    QuotientCompare(q.ask - q.bid, mid, limit);
    QuotientCompare(q.ask - q.bid, mid, 0.0);
  }

  /** A snapshot is liquid exactly with an uncrossed quote of both sizes, and no spread or one within the limit. The
      switch for zero bids decides nothing. */
  lemma LiquidIff(x: Context, s: Snapshot)
    ensures LiquidityOk(x, s) <==>
              && s.quote.Some? && Uncrossed(s.quote.value)
              && s.quote.value.bidSize >= x.config.minBidSize && s.quote.value.askSize >= x.config.minAskSize
              && var bid, ask := s.quote.value.bid, s.quote.value.ask;
                 (ask == bid || ask - bid <= x.config.maxSpread * ((bid + ask) / 2.0))
  {
    if s.quote.Some? && Uncrossed(s.quote.value) {
      SpreadIs(s.quote.value, x.config.maxSpread);
    }
    hide SpreadShare;
  }

  /** Delta is compared without its sign, both ends included; without one, greeks must not be required. */
  lemma DeltaIff(x: Context, s: Snapshot)
    ensures s.delta.None? ==> (DeltaOk(x, s) <==> !x.config.requireGreeks)
    ensures s.delta.Some? ==>
              (DeltaOk(x, s) <==>
                 exists size: real :: (s.delta.value == size || s.delta.value == -size) && InDeltaRange(x, size))
  {
    if s.delta.Some? {
      var size := Abs(s.delta.value);
      assert InDeltaRange(x, size) || !DeltaOk(x, s);
    }
  }

  predicate InDeltaRange(x: Context, size: real) {
    size >= 0.0 && x.config.minAbsDelta <= size <= x.config.maxAbsDelta
  }

  lemma PremiumSign(ask: real, multiplier: int)
    requires ask > 0.0
    ensures ask * multiplier as real > 0.0 <==> multiplier > 0
    ensures ask * multiplier as real == 0.0 <==> multiplier == 0
  {
    var m := multiplier as real;
    if multiplier > 0 {
      assert ask * m > 0.0;
    } else if multiplier < 0 {
      assert ask * -m > 0.0;
    }
  }

  /** A snapshot is affordable exactly when one contract at the ask is within the budget and the cap allows one. The
      filter raises exactly, with a budget, for an uncrossed quote of a contract with a multiplier of zero. */
  lemma AffordableIff(x: Context, s: Snapshot)
    ensures AffordabilityOk(x, s) <==>
              && s.quote.Some? && Uncrossed(s.quote.value) && s.contract.multiplier > 0
              && s.quote.value.ask * s.contract.multiplier as real <= x.budget && x.config.maxContracts >= 1
    ensures AffordabilityRaises(x, s) <==>
              x.budget > 0.0 && s.quote.Some? && Uncrossed(s.quote.value) && s.contract.multiplier == 0
  {
    if s.quote.Some? && Uncrossed(s.quote.value) {
      var premium := s.quote.value.ask * s.contract.multiplier as real;
      PremiumSign(s.quote.value.ask, s.contract.multiplier);
      PremiumIs(s);
      if premium != 0.0 {
        AffordableCount(x.budget, premium, x.config.maxContracts);
      }
    } else {
      assert Premium(s).None?;
    }
    hide Affordable, Premium;
  }

  lemma PremiumIs(s: Snapshot)
    requires s.quote.Some? && Uncrossed(s.quote.value)
    ensures Premium(s) == Some(s.quote.value.ask * s.contract.multiplier as real)
  {
    var q := s.quote.value;
    assert q.ask - q.bid >= 0.0;
    assert ValidQuote(q);
    assert Premium(s).Some?;
    assert Premium(s).value == s.quote.value.ask * s.contract.multiplier as real;
  }

  lemma AffordableCount(budget: real, premium: real, cap: int)
    requires premium != 0.0
    ensures premium > 0.0 ==> (Affordable(budget, premium, cap) >= 1 <==> premium <= budget && cap >= 1)
    ensures premium < 0.0 < budget ==> Affordable(budget, premium, cap) <= 0
  {
    if premium > 0.0 {
      TruncatePremium(budget, premium);
    } else if budget > 0.0 {
      NegativeBuysNothing(budget, premium, cap);
    }
    hide Truncate, Cost;
  }

  /** The filters as a whole raise for a chain exactly when it holds an unexpired call with a zero strike, or a contract
      in scope whose snapshot is liquid, has a suitable delta and a multiplier of zero. */
  lemma BreaksIff(x: Context, c: Contract)
    ensures BreaksFilters(x, c) <==>
              && x.today + x.config.minDte <= c.expiration <= x.today + x.config.maxDte && x.price > 0.0
              && ((c.call && c.strike == 0.0)
                  || (InScope(x, c) && c.symbol in x.snapshots && x.budget > 0.0
                      && var s := x.snapshots[c.symbol];
                         DeltaOk(x, s) && LiquidityOk(x, s) && s.contract.multiplier == 0))
  {
    if c.symbol in x.snapshots {
      AffordableIff(x, x.snapshots[c.symbol]);
      LiquidIff(x, x.snapshots[c.symbol]);
    }
    hide DeltaOk, LiquidityOk, AffordabilityRaises, AffordabilityOk;
  }
}
