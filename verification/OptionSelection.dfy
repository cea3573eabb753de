/** Filtering an option chain and sizing a long option position (M5). */
module OptionSelection {
  import opened Wrappers
  import opened Arithmetic

  /** `expiration` is a day number. Strike and multiplier are not validated. */
  datatype Contract = Contract(symbol: string, call: bool, expiration: int, strike: real, multiplier: int)

  datatype Quote = Quote(bid: real, bidSize: real, ask: real, askSize: real)

  datatype Snapshot = Snapshot(contract: Contract, quote: Option<Quote>, delta: Option<real>)

  datatype Config = Config(
    minDte: int, maxDte: int, minMoneyness: real, maxMoneyness: real,
    minAbsDelta: real, maxAbsDelta: real, requireGreeks: bool,
    rejectZeroBid: bool, minBidSize: real, minAskSize: real, maxSpread: real, maxContracts: int)

  datatype Stats = Stats(total: nat, expiry: nat, moneyness: nat, delta: nat, quote: nat, premium: nat, eligible: nat)

  /** Everything the filters look at besides the contracts. */
  datatype Context = Context(config: Config, today: int, price: real, budget: real, snapshots: map<string, Snapshot>)

  // ---- Single filters --------------------------------------------------------------------

  predicate ExpiryOk(x: Context, c: Contract) {
    x.config.minDte <= c.expiration - x.today <= x.config.maxDte
  }

  /** The price of the underlying is divided by the strike of a call. */
  predicate MoneynessRaises(x: Context, c: Contract) {
    x.price > 0.0 && c.call && c.strike == 0.0
  }

  predicate MoneynessOk(x: Context, c: Contract) {
    x.price > 0.0 && !MoneynessRaises(x, c)
    && var moneyness := if c.call then x.price / c.strike else c.strike / x.price;
       x.config.minMoneyness <= moneyness <= x.config.maxMoneyness
  }

  predicate DeltaOk(x: Context, s: Snapshot) {
    if s.delta.None? then !x.config.requireGreeks
    else x.config.minAbsDelta <= Abs(s.delta.value) <= x.config.maxAbsDelta
  }

  predicate ValidQuote(q: Quote) {
    q.ask - q.bid >= 0.0 && q.bid > 0.0 && q.ask > 0.0
  }

  function SpreadShare(q: Quote): real
    requires ValidQuote(q)
  {
    (q.ask - q.bid) / ((q.bid + q.ask) / 2.0)
  }

  predicate LiquidityOk(x: Context, s: Snapshot) {
    s.quote.Some?
    && var q := s.quote.value;
       && ValidQuote(q) && !(x.config.rejectZeroBid && q.bid <= 0.0)
       && q.bidSize >= x.config.minBidSize && q.askSize >= x.config.minAskSize
       && (SpreadShare(q) == 0.0 || SpreadShare(q) <= x.config.maxSpread)
  }

  /** The ask, for the whole contract. */
  function Premium(s: Snapshot): Option<real> {
    if s.quote.Some? && ValidQuote(s.quote.value) then Some(s.quote.value.ask * s.contract.multiplier as real) else None
  }

  /** How many contracts a budget buys, under a cap. */
  function Affordable(budget: real, premium: real, cap: int): int
    requires premium != 0.0
  {
    var n := Truncate(budget / premium);
    if n <= cap then n else cap
  }

  /** The budget is divided by the premium: a multiplier of zero makes it zero. */
  predicate AffordabilityRaises(x: Context, s: Snapshot) {
    x.budget > 0.0 && Premium(s) == Some(0.0)
  }

  predicate AffordabilityOk(x: Context, s: Snapshot) {
    x.budget > 0.0 && !AffordabilityRaises(x, s)
    && var premium := Premium(s);
       premium.Some? && premium.value <= x.budget && Affordable(x.budget, premium.value, x.config.maxContracts) >= 1
  }

  function ContractFilter(x: Context, moneyness: bool): Contract -> bool {
    if moneyness then (c: Contract) => MoneynessOk(x, c) else (c: Contract) => ExpiryOk(x, c)
  }

  datatype SnapshotRule = DELTA | LIQUIDITY | AFFORDABILITY

  function SnapshotFilter(x: Context, rule: SnapshotRule): Snapshot -> bool {
    match rule
    case DELTA => (s: Snapshot) => DeltaOk(x, s)
    case LIQUIDITY => (s: Snapshot) => LiquidityOk(x, s)
    case AFFORDABILITY => (s: Snapshot) => AffordabilityOk(x, s)
  }

  function ContractRaises(x: Context, moneyness: bool): Contract -> bool {
    if moneyness then (c: Contract) => MoneynessRaises(x, c) else (c: Contract) => false
  }

  function SnapshotRaises(x: Context, rule: SnapshotRule): Snapshot -> bool {
    if rule.AFFORDABILITY? then (s: Snapshot) => AffordabilityRaises(x, s) else (s: Snapshot) => false
  }

  function Kept<T>(items: seq<T>, ok: T -> bool): seq<T> {
    if items == [] then []
    else Kept(items[..|items| - 1], ok) + (if ok(items[|items| - 1]) then [items[|items| - 1]] else [])
  }

  /** The loop of every filter: keep or count, unless an item raises. */
  method Filter<T>(items: seq<T>, ok: T -> bool, raises: T -> bool) returns (eligible: Option<seq<T>>, rejected: nat)
    ensures eligible.None? <==> exists item :: item in items && raises(item)
    ensures eligible.Some? ==> eligible.value == Kept(items, ok) && rejected + |eligible.value| == |items|
  {
    var kept := [];
    rejected := 0;
    var i := 0;
    while i < |items|
      invariant 0 <= i <= |items|
      invariant kept == Kept(items[..i], ok)
      invariant rejected + |kept| == i
      invariant forall item :: item in items[..i] ==> !raises(item)
    {
      assert items[..i + 1][..i] == items[..i];
      if raises(items[i]) {
        assert items[i] in items;
        return None, rejected;
      }
      if ok(items[i]) {
        kept := kept + [items[i]];
      } else {
        assert kept + [] == kept;
        rejected := rejected + 1;
      }
      i := i + 1;
    }
    assert items[..|items|] == items;
    eligible := Some(kept);
  }

  /** The snapshots there are for the remaining contracts, in chain order. */
  function SnapshotsOf(chain: seq<Contract>, snapshots: map<string, Snapshot>): seq<Snapshot> {
    if chain == [] then []
    else
      var c := chain[|chain| - 1];
      SnapshotsOf(chain[..|chain| - 1], snapshots) + (if c.symbol in snapshots then [snapshots[c.symbol]] else [])
  }

  // ---- The chain as a whole ----------------------------------------------------------------

  predicate InScope(x: Context, c: Contract) {
    ExpiryOk(x, c) && MoneynessOk(x, c)
  }

  predicate Qualifies(x: Context, s: Snapshot) {
    DeltaOk(x, s) && LiquidityOk(x, s) && AffordabilityOk(x, s)
  }

  /** The snapshots of the contracts that pass every filter, in chain order. */
  function Eligible(x: Context, chain: seq<Contract>): seq<Snapshot> {
    if chain == [] then []
    else
      var c := chain[|chain| - 1];
      Eligible(x, chain[..|chain| - 1])
      + (if InScope(x, c) && c.symbol in x.snapshots && Qualifies(x, x.snapshots[c.symbol])
         then [x.snapshots[c.symbol]] else [])
  }

  /** Contracts in scope for which no snapshot was delivered: no counter mentions them. */
  function Lacking(x: Context, chain: seq<Contract>): nat {
    if chain == [] then 0
    else
      var c := chain[|chain| - 1];
      Lacking(x, chain[..|chain| - 1]) + (if InScope(x, c) && c.symbol !in x.snapshots then 1 else 0)
  }

  function AfterContractFilters(x: Context, chain: seq<Contract>): seq<Contract> {
    Kept(Kept(chain, ContractFilter(x, false)), ContractFilter(x, true))
  }

  function AfterSnapshotFilters(x: Context, s: seq<Snapshot>): seq<Snapshot> {
    Kept(Kept(Kept(s, SnapshotFilter(x, DELTA)), SnapshotFilter(x, LIQUIDITY)), SnapshotFilter(x, AFFORDABILITY))
  }

  lemma KeptSnoc<T>(items: seq<T>, item: T, ok: T -> bool)
    ensures Kept(items + [item], ok) == if ok(item) then Kept(items, ok) + [item] else Kept(items, ok)
  {
    assert (items + [item])[..|items|] == items;
  }

  lemma SnapshotsSnoc(chain: seq<Contract>, c: Contract, snapshots: map<string, Snapshot>)
    ensures SnapshotsOf(chain + [c], snapshots)
         == if c.symbol in snapshots then SnapshotsOf(chain, snapshots) + [snapshots[c.symbol]]
            else SnapshotsOf(chain, snapshots)
  {
    assert (chain + [c])[..|chain|] == chain;
  }

  lemma ContractFiltersSnoc(x: Context, chain: seq<Contract>, c: Contract)
    ensures AfterContractFilters(x, chain + [c])
         == if InScope(x, c) then AfterContractFilters(x, chain) + [c] else AfterContractFilters(x, chain)
  {
    hide ExpiryOk, MoneynessOk, Kept;
    KeptSnoc(chain, c, ContractFilter(x, false));
    KeptSnoc(Kept(chain, ContractFilter(x, false)), c, ContractFilter(x, true));
  }

  lemma SnapshotFiltersSnoc(x: Context, all: seq<Snapshot>, s: Snapshot)
    ensures AfterSnapshotFilters(x, all + [s])
         == if Qualifies(x, s) then AfterSnapshotFilters(x, all) + [s] else AfterSnapshotFilters(x, all)
  {
    hide DeltaOk, LiquidityOk, AffordabilityOk, Kept;
    var d, l, a := SnapshotFilter(x, DELTA), SnapshotFilter(x, LIQUIDITY), SnapshotFilter(x, AFFORDABILITY);
    KeptSnoc(all, s, d);
    KeptSnoc(Kept(all, d), s, l);
    KeptSnoc(Kept(Kept(all, d), l), s, a);
  }

  /** Filtering stage by stage is filtering contract by contract, and the stages drop unseen exactly the
      contracts without a snapshot. */
  lemma {:induction false} StagesAreEligible(x: Context, chain: seq<Contract>)
    ensures var scope := AfterContractFilters(x, chain);
            && AfterSnapshotFilters(x, SnapshotsOf(scope, x.snapshots)) == Eligible(x, chain)
            && |scope| == |SnapshotsOf(scope, x.snapshots)| + Lacking(x, chain)
  {
    if chain == [] {
      assert AfterSnapshotFilters(x, []) == [];
    } else {
      hide InScope, Qualifies, Kept;
      var front, c := chain[..|chain| - 1], chain[|chain| - 1];
      StagesAreEligible(x, front);
      assert chain == front + [c];
      hide AfterContractFilters, AfterSnapshotFilters;
      ContractFiltersSnoc(x, front, c);
      if InScope(x, c) {
        var scope := AfterContractFilters(x, front);
        SnapshotsSnoc(scope, c, x.snapshots);
        if c.symbol in x.snapshots {
          SnapshotFiltersSnoc(x, SnapshotsOf(scope, x.snapshots), x.snapshots[c.symbol]);
        }
      }
    }
  }

  method CollectSnapshots(chain: seq<Contract>, snapshots: map<string, Snapshot>) returns (s: seq<Snapshot>)
    ensures s == SnapshotsOf(chain, snapshots)
  {
    s := [];
    var i := 0;
    while i < |chain|
      invariant 0 <= i <= |chain|
      invariant s == SnapshotsOf(chain[..i], snapshots)
    {
      assert chain[..i + 1] == chain[..i] + [chain[i]];
      SnapshotsSnoc(chain[..i], chain[i], snapshots);
      if chain[i].symbol in snapshots {
        s := s + [snapshots[chain[i].symbol]];
      }
      i := i + 1;
    }
    assert chain[..|chain|] == chain;
  }

  /** Each counter is what its filter rejects, and together they leave only the contracts without a snapshot. */
  ghost predicate Accounted(x: Context, chain: seq<Contract>, stats: Stats) {
    var byExpiry := Kept(chain, ContractFilter(x, false));
    var s := SnapshotsOf(AfterContractFilters(x, chain), x.snapshots);
    var byDelta := Kept(s, SnapshotFilter(x, DELTA));
    var liquid := Kept(byDelta, SnapshotFilter(x, LIQUIDITY));
    && stats.total == |chain| && stats.eligible == |Eligible(x, chain)|
    && stats.expiry == |chain| - |byExpiry| && stats.moneyness == |byExpiry| - |AfterContractFilters(x, chain)|
    && stats.delta == |s| - |byDelta| && stats.quote == |byDelta| - |liquid|
    && stats.premium == |liquid| - stats.eligible
    && stats.total == stats.expiry + stats.moneyness + stats.delta + stats.quote + stats.premium + stats.eligible
                      + Lacking(x, chain)
  }

  lemma {:induction false} KeptAre<T>(items: seq<T>, ok: T -> bool)
    ensures forall item :: item in Kept(items, ok) <==> item in items && ok(item)
  {
    if items != [] {
      KeptAre(items[..|items| - 1], ok);
      assert items == items[..|items| - 1] + [items[|items| - 1]];
    }
  }

  lemma {:induction false} SnapshotsAre(chain: seq<Contract>, snapshots: map<string, Snapshot>)
    ensures forall s :: s in SnapshotsOf(chain, snapshots) <==>
              exists c :: c in chain && c.symbol in snapshots && snapshots[c.symbol] == s
  {
    if chain != [] {
      var front, c := chain[..|chain| - 1], chain[|chain| - 1];
      SnapshotsAre(front, snapshots);
      assert chain == front + [c];
      forall s ensures s in SnapshotsOf(chain, snapshots) <==>
          exists c :: c in chain && c.symbol in snapshots && snapshots[c.symbol] == s {
        if d :| d in front && d.symbol in snapshots && snapshots[d.symbol] == s {
          assert d in chain;
        }
        if c.symbol in snapshots && snapshots[c.symbol] == s {
          assert c in chain;
        }
      }
    }
  }

  /** The snapshot is that of a contract in scope and passes the delta and liquidity filters. */
  ghost predicate Reaches(x: Context, chain: seq<Contract>, s: Snapshot) {
    && (exists c :: c in chain && InScope(x, c) && c.symbol in x.snapshots && x.snapshots[c.symbol] == s)
    && DeltaOk(x, s) && LiquidityOk(x, s)
  }

  /** The contracts in scope, and the snapshots that reach the last filter. */
  lemma ReachingLast(x: Context, chain: seq<Contract>)
    ensures forall c :: c in AfterContractFilters(x, chain) <==> c in chain && InScope(x, c)
    ensures var s := SnapshotsOf(AfterContractFilters(x, chain), x.snapshots);
            forall r :: r in Kept(Kept(s, SnapshotFilter(x, DELTA)), SnapshotFilter(x, LIQUIDITY)) <==>
              Reaches(x, chain, r)
  {
    hide Kept, SnapshotsOf, ExpiryOk, MoneynessOk, DeltaOk, LiquidityOk;
    var byExpiry := Kept(chain, ContractFilter(x, false));
    KeptAre(chain, ContractFilter(x, false));
    KeptAre(byExpiry, ContractFilter(x, true));
    var s := SnapshotsOf(AfterContractFilters(x, chain), x.snapshots);
    SnapshotsAre(AfterContractFilters(x, chain), x.snapshots);
    KeptAre(s, SnapshotFilter(x, DELTA));
    KeptAre(Kept(s, SnapshotFilter(x, DELTA)), SnapshotFilter(x, LIQUIDITY));
  }

  /** What a contract does to the filters: a call with a zero strike raises by its moneyness, and a contract whose
      snapshot gets as far as the affordability filter with a premium of zero raises there. */
  predicate BreaksFilters(x: Context, c: Contract) {
    ExpiryOk(x, c)
    && (MoneynessRaises(x, c)
        || (MoneynessOk(x, c) && c.symbol in x.snapshots
            && var s := x.snapshots[c.symbol]; DeltaOk(x, s) && LiquidityOk(x, s) && AffordabilityRaises(x, s)))
  }

  ghost predicate AnyBreaks(x: Context, chain: seq<Contract>) {
    exists c :: c in chain && BreaksFilters(x, c)
  }

  /** The two filters that can raise do so exactly for such a contract. */
  lemma RaisingFilters(x: Context, chain: seq<Contract>)
    ensures var byExpiry := Kept(chain, ContractFilter(x, false));
            var s := SnapshotsOf(AfterContractFilters(x, chain), x.snapshots);
            var liquid := Kept(Kept(s, SnapshotFilter(x, DELTA)), SnapshotFilter(x, LIQUIDITY));
            AnyBreaks(x, chain) <==>
              || (exists c :: c in byExpiry && MoneynessRaises(x, c))
              || (exists r :: r in liquid && AffordabilityRaises(x, r))
  {
    ReachingLast(x, chain);
    KeptAre(chain, ContractFilter(x, false));
    hide Kept, SnapshotsOf, AfterContractFilters, ExpiryOk, MoneynessOk, MoneynessRaises;
    hide DeltaOk, LiquidityOk, AffordabilityRaises;
    var byExpiry := Kept(chain, ContractFilter(x, false));
    var s := SnapshotsOf(AfterContractFilters(x, chain), x.snapshots);
    var liquid := Kept(Kept(s, SnapshotFilter(x, DELTA)), SnapshotFilter(x, LIQUIDITY));
    if c :| c in byExpiry && MoneynessRaises(x, c) {
      assert BreaksFilters(x, c);
    }
    if r :| r in liquid && AffordabilityRaises(x, r) {
      assert Reaches(x, chain, r);
      var c :| c in chain && InScope(x, c) && c.symbol in x.snapshots && x.snapshots[c.symbol] == r;
      assert BreaksFilters(x, c);
    }
    if c :| c in chain && BreaksFilters(x, c) {
      if MoneynessRaises(x, c) {
        assert c in byExpiry;
      } else {
        assert Reaches(x, chain, x.snapshots[c.symbol]);
      }
    }
  }

  datatype Filtered = Filtered(eligible: seq<Snapshot>, stats: Stats)

  /** The eligible snapshots are exactly those of the contracts that pass every filter, and every contract
      retrieved is accounted for: rejected once, eligible, or without a snapshot. There is no result exactly when
      some contract breaks a filter. */
  method ApplyOptionFilters(x: Context, chain: seq<Contract>) returns (r: Option<Filtered>)
    ensures r.None? <==> AnyBreaks(x, chain)
    ensures r.Some? ==> r.value.eligible == Eligible(x, chain) && Accounted(x, chain, r.value.stats)
  {
    RaisingFilters(x, chain);
    StagesAreEligible(x, chain);
    hide Kept, SnapshotsOf, Eligible, Lacking, ContractFilter, SnapshotFilter, AnyBreaks;
    var remaining, expiry := Filter(chain, ContractFilter(x, false), ContractRaises(x, false));
    var scope, moneyness := Filter(remaining.value, ContractFilter(x, true), ContractRaises(x, true));
    if scope.None? { return None; }
    var snapshots := CollectSnapshots(scope.value, x.snapshots);
    var byDelta, delta := Filter(snapshots, SnapshotFilter(x, DELTA), SnapshotRaises(x, DELTA));
    var liquid, quote := Filter(byDelta.value, SnapshotFilter(x, LIQUIDITY), SnapshotRaises(x, LIQUIDITY));
    var eligible, premium := Filter(liquid.value, SnapshotFilter(x, AFFORDABILITY), SnapshotRaises(x, AFFORDABILITY));
    if eligible.None? { return None; }
    var stats := Stats(|chain|, expiry, moneyness, delta, quote, premium, |eligible.value|);
    r := Some(Filtered(eligible.value, stats));
  }

  // ---- Sizing ----------------------------------------------------------------------------------

  datatype Plan = Plan(contracts: int, totalPremium: real)

  function Cost(premium: real, contracts: real): real { premium * contracts }

  /** `cap` is the sizer's own limit, configured apart from the filter's. */
  function CalculatePlan(s: Snapshot, budget: real, cap: int): Option<Plan> {
    var premium := Premium(s);
    if premium.None? || premium.value <= 0.0 then None
    else
      var contracts := Affordable(budget, premium.value, cap);
      if contracts < 1 then None
      else
        var total := Cost(premium.value, contracts as real);
        if total > budget + 0.01 then None else Some(Plan(contracts, total))
  }

  lemma TimesStrict(x: real, y: real, k: real)
    requires x < y && k > 0.0
    ensures x * k < y * k
  {
    assert (y - x) * k > 0.0;
  }

  lemma CostMonotone(few: real, many: real, premium: real)
    requires few <= many && premium > 0.0
    ensures Cost(premium, few) <= Cost(premium, many)
  {
    TimesMonotone(few, many, premium);
  }

  lemma CostOfOneMore(few: real, x: real, premium: real)
    requires x < few + 1.0 && premium > 0.0
    ensures Cost(premium, x) < Cost(premium, few) + premium
  {
    TimesStrict(x, few + 1.0, premium);
  }

  lemma CostOfOne(premium: real)
    ensures Cost(premium, 1.0) == premium
  {
  }

  lemma CostOfNone(premium: real)
    ensures Cost(premium, 0.0) == 0.0
  {
  }

  lemma TruncateProduct(x: real, premium: real)
    requires premium > 0.0
    ensures var n := Truncate(x);
            && (n >= 1 <==> premium <= Cost(premium, x))
            && (n >= 1 ==> Cost(premium, n as real) <= Cost(premium, x) < Cost(premium, n as real) + premium)
  {
    hide Cost;
    var n := Truncate(x);
    if x >= 1.0 {
      CostMonotone(1.0, x, premium);
      CostMonotone(n as real, x, premium);
      CostOfOneMore(n as real, x, premium);
      CostOfOne(premium);
    } else {
      CostOfOneMore(0.0, x, premium);
      CostOfNone(premium);
    }
  }

  lemma CostOfQuotient(budget: real, premium: real)
    requires premium > 0.0
    ensures Cost(premium, budget / premium) == budget
  {
  }

  lemma TruncatePremium(budget: real, premium: real)
    requires premium > 0.0
    ensures var n := Truncate(budget / premium);
            && (n >= 1 <==> premium <= budget)
            && (n >= 1 ==> Cost(premium, n as real) <= budget < Cost(premium, n as real) + premium)
  {
    hide Cost, Truncate;
    CostOfQuotient(budget, premium);
    TruncateProduct(budget / premium, premium);
  }

  /** A plan exists exactly when the premium is positive, one contract is affordable and the cap allows one. It then
      fits the budget without tolerance, and no further contract would fit the budget or the cap. */
  lemma PlanIsMaximal(s: Snapshot, budget: real, cap: int)
    ensures CalculatePlan(s, budget, cap).Some? <==>
              Premium(s).Some? && 0.0 < Premium(s).value <= budget && cap >= 1
    ensures CalculatePlan(s, budget, cap).Some? ==>
              var plan := CalculatePlan(s, budget, cap).value; var premium := Premium(s).value;
              && 1 <= plan.contracts <= cap
              && plan.totalPremium == Cost(premium, plan.contracts as real) <= budget
              && (plan.contracts < cap ==> plan.totalPremium + premium > budget)
  {
    hide Premium, Cost, Truncate;
    if Premium(s).Some? && Premium(s).value > 0.0 {
      var premium := Premium(s).value;
      TruncatePremium(budget, premium);
      var n := Truncate(budget / premium);
      if n > cap {
        CostMonotone(cap as real, n as real, premium);
      }
    }
  }

  lemma NegativeBuysNothing(budget: real, premium: real, cap: int)
    requires premium < 0.0 < budget
    ensures Affordable(budget, premium, cap) <= 0
  {
    assert budget / premium * premium == budget;
    assert budget / premium < 0.0;
  }

  lemma AffordableIsPositive(x: Context, s: Snapshot)
    requires AffordabilityOk(x, s)
    ensures 0.0 < Premium(s).value <= x.budget
  {
    hide Premium, Affordable;
    if Premium(s).value < 0.0 {
      NegativeBuysNothing(x.budget, Premium(s).value, x.config.maxContracts);
    }
  }

  /** Whatever the filters let through can be sized, with any cap of at least one contract. */
  lemma {:induction false} EligibleIsSizable(x: Context, chain: seq<Contract>, s: Snapshot, cap: int)
    requires s in Eligible(x, chain) && cap >= 1
    ensures CalculatePlan(s, x.budget, cap).Some?
  {
    var front, c := chain[..|chain| - 1], chain[|chain| - 1];
    if s in Eligible(x, front) {
      EligibleIsSizable(x, front, s, cap);
    } else {
      AffordableIsPositive(x, s);
      PlanIsMaximal(s, x.budget, cap);
    }
  }
}
