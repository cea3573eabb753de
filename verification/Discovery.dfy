/** The discovery pipeline from scored observations to the final list, and its optimality. */
module Discovery {
  import opened Wrappers
  import opened CandidateRanking
  import opened Diversification

  const MIN_VIABLE_SCORE: real := 30.0

  /** Python's `s[:k]`, also for a negative `k`. */
  function Slice<T>(s: seq<T>, k: int): seq<T> {
    if k >= 0 then Prefix(s, k) else if |s| + k >= 0 then s[..|s| + k] else []
  }

  function Viable(s: seq<Candidate>): seq<Candidate> {
    if s == [] then []
    else Viable(s[..|s| - 1]) + (if s[|s| - 1].score >= MIN_VIABLE_SCORE then [s[|s| - 1]] else [])
  }

  function RankedViable(eligible: seq<Candidate>): seq<Candidate> {
    Ranked(Viable(eligible))
  }

  /** The candidates sent to deep analysis: the best of each category, and of those the best `k`. */
  function DeepList(eligible: seq<Candidate>, cap: int, k: int): seq<Candidate> {
    var diversified := Capped(RankedViable(eligible), cap);
    Slice(diversified, Least(k, |diversified|))
  }

  /** Which of the first `n` deep analyses succeed. */
  function Outcomes(succeeds: nat -> bool, n: nat): (mask: seq<bool>)
    ensures |mask| == n
  {
    if n == 0 then [] else Outcomes(succeeds, n - 1) + [succeeds(n - 1)]
  }

  function Survivors(deep: seq<Candidate>, succeeds: nat -> bool): seq<Candidate> {
    Chosen(deep, Outcomes(succeeds, |deep|))
  }

  /** The symbols whose deep analysis failed, in order. */
  function FailedSymbols(deep: seq<Candidate>, succeeds: nat -> bool): seq<string> {
    if deep == [] then []
    else
      FailedSymbols(deep[..|deep| - 1], succeeds) + (if succeeds(|deep| - 1) then [] else [deep[|deep| - 1].symbol])
  }

  function FinalCount(requested: Option<int>, configured: int): int {
    if requested.None? || requested.value == 0 then configured else requested.value
  }

  // ---- Consequences of the order ------------------------------------------------------

  lemma {:induction false} ViableScores(s: seq<Candidate>)
    ensures ScoresAtLeast(Viable(s), MIN_VIABLE_SCORE)
  {
    if s != [] {
      ViableScores(s[..|s| - 1]);
    }
  }

  lemma RankedViableScores(eligible: seq<Candidate>)
    ensures Sorted(RankedViable(eligible)) && ScoresAtLeast(RankedViable(eligible), MIN_VIABLE_SCORE)
  {
    var v, r := Viable(eligible), RankedViable(eligible);
    RankedSorts(v);
    ViableScores(eligible);
    forall i | 0 <= i < |r| ensures r[i].score >= MIN_VIABLE_SCORE {
      assert r[i] in multiset(v);
    }
  }

  /** What is ranked is exactly what scores at least 30. */
  lemma {:induction false} ViableIff(eligible: seq<Candidate>)
    ensures forall c :: c in Viable(eligible) <==> c in eligible && c.score >= 30.0
  {
    if eligible != [] {
      ViableIff(eligible[..|eligible| - 1]);
      assert eligible == eligible[..|eligible| - 1] + [eligible[|eligible| - 1]];
    }
  }

  lemma RankedViableIff(eligible: seq<Candidate>)
    ensures forall c :: c in RankedViable(eligible) <==> c in eligible && c.score >= 30.0
  {
    ViableIff(eligible);
    RankedSorts(Viable(eligible));
    hide Ranked, Viable, Sorted;
    forall c ensures c in RankedViable(eligible) <==> c in multiset(Viable(eligible)) {
      assert c in RankedViable(eligible) <==> c in multiset(RankedViable(eligible));
    }
  }

  /** The candidate stands at a place whose analysis ended that way. */
  ghost predicate Analyzed(deep: seq<Candidate>, succeeds: nat -> bool, j: nat, c: Candidate, success: bool) {
    j < |deep| && deep[j] == c && succeeds(j) == success
  }

  lemma SurvivorsSnoc(deep: seq<Candidate>, succeeds: nat -> bool)
    requires deep != []
    ensures var n := |deep| - 1;
            Survivors(deep, succeeds) == Survivors(deep[..n], succeeds) + (if succeeds(n) then [deep[n]] else [])
  {
    var n := |deep| - 1;
    assert Outcomes(succeeds, n + 1)[..n] == Outcomes(succeeds, n);
  }

  /** What survives is what was analysed with success, and what is reported as failed is what was not. */
  lemma {:induction false} SurvivorsIff(deep: seq<Candidate>, succeeds: nat -> bool, c: Candidate)
    ensures c in Survivors(deep, succeeds) <==> exists j: nat :: Analyzed(deep, succeeds, j, c, true)
    ensures c.symbol in FailedSymbols(deep, succeeds) <==>
              exists j: nat, d :: Analyzed(deep, succeeds, j, d, false) && d.symbol == c.symbol
  {
    if deep != [] {
      var n := |deep| - 1;
      var front, last := deep[..n], deep[n];
      SurvivorsIff(front, succeeds, c);
      SurvivorsSnoc(deep, succeeds);
      hide Survivors;
      assert forall j: nat, d, b :: Analyzed(front, succeeds, j, d, b) ==> Analyzed(deep, succeeds, j, d, b);
      assert forall j: nat, d, b :: Analyzed(deep, succeeds, j, d, b) && j < n ==> Analyzed(front, succeeds, j, d, b);
      assert Analyzed(deep, succeeds, n, last, succeeds(n));
    }
  }

  lemma SliceIsPrefix<T>(s: seq<T>, k: int)
    ensures |Slice(s, k)| <= |s| && Slice(s, k) == s[..|Slice(s, k)|]
    ensures 0 <= k <= |s| ==> |Slice(s, k)| == k
  {
  }

  lemma PrefixWithinCap(s: seq<Candidate>, n: nat, cap: int)
    requires n <= |s| && WithinCap(s, cap)
    ensures WithinCap(s[..n], cap)
  {
    forall c ensures CountCategory(s[..n], c) <= cap {
      CountPrefix(s, n, c);
      assert CountCategory(s, c) <= cap;
    }
  }

  lemma ChosenWithinCap(s: seq<Candidate>, pick: seq<bool>, cap: int)
    requires |pick| == |s| && WithinCap(s, cap)
    ensures WithinCap(Chosen(s, pick), cap)
  {
    forall c ensures CountCategory(Chosen(s, pick), c) <= cap {
      ChosenCounts(s, pick, c);
      assert CountCategory(s, c) <= cap;
    }
  }

  /** The deep list respects both limits and only holds viable candidates in ranked order. */
  lemma DeepListFeasible(eligible: seq<Candidate>, cap: int, k: int)
    ensures var deep := DeepList(eligible, cap, k);
            && (k >= 0 ==> |deep| <= k)
            && WithinCap(deep, if cap > 0 then cap else 0)
            && Sorted(deep) && forall y :: y in deep ==> y in RankedViable(eligible)
  {
    var r := RankedViable(eligible);
    RankedViableScores(eligible);
    var d := Capped(r, cap);
    CappedSublist(r, cap);
    forall c ensures CountCategory(d, c) <= (if cap > 0 then cap else 0) {
      CappedCounts(r, cap, c);
    }
    SliceIsPrefix(d, Least(k, |d|));
    PrefixWithinCap(d, |DeepList(eligible, cap, k)|, if cap > 0 then cap else 0);
  }

  /** Greedy is optimal: against any choice of viable candidates with at most `cap` per category and at most
      `k` in all, the deep list's i-th best is at least as good as the choice's, and so is its total score. */
  lemma DeepListOptimal(eligible: seq<Candidate>, cap: int, k: nat, pick: seq<bool>)
    requires |pick| == |RankedViable(eligible)|
    requires WithinCap(Chosen(RankedViable(eligible), pick), cap)
    requires |Chosen(RankedViable(eligible), pick)| <= k
    ensures Dominates(DeepList(eligible, cap, k), Chosen(RankedViable(eligible), pick))
    ensures TotalScore(DeepList(eligible, cap, k)) >= TotalScore(Chosen(RankedViable(eligible), pick))
  {
    var r := RankedViable(eligible);
    var choice, d := Chosen(r, pick), Capped(r, cap);
    RankedViableScores(eligible);
    CappedDominates(r, pick, cap);
    CappedScores(r, cap, MIN_VIABLE_SCORE);
    var n := Least(k, |d|);
    SliceIsPrefix(d, n);
    PrefixDominates(d, choice, n);
    TotalMonotone(d[..n], choice);
  }

  /** Whatever deep analyses fail, the second diversification and the second sort change nothing. */
  lemma SurvivorsUnchanged(eligible: seq<Candidate>, cap: int, k: int, succeeds: nat -> bool)
    ensures var s := Survivors(DeepList(eligible, cap, k), succeeds);
            Capped(s, cap) == s && Ranked(s) == s
  {
    var deep := DeepList(eligible, cap, k);
    var pick := Outcomes(succeeds, |deep|);
    DeepListFeasible(eligible, cap, k);
    ChosenWithinCap(deep, pick, if cap > 0 then cap else 0);
    ChosenSorted(deep, pick);
    RankedIdentity(Chosen(deep, pick));
    if cap >= 0 {
      CappedIdentity(Chosen(deep, pick), cap);
    } else {
      LengthByCategory(Chosen(deep, pick));
      assert forall c :: CountCategory(Chosen(deep, pick), c) <= 0;
    }
  }

  // ---- The pipeline ---------------------------------------------------------------------

  /** Stage 3: drop what does not score enough. */
  method KeepViable(eligible: seq<Candidate>) returns (preliminary: seq<Candidate>)
    ensures preliminary == Viable(eligible)
  {
    preliminary := [];
    var i := 0;
    while i < |eligible|
      invariant 0 <= i <= |eligible|
      invariant preliminary == Viable(eligible[..i])
    {
      assert eligible[..i + 1][..i] == eligible[..i];
      if eligible[i].score >= MIN_VIABLE_SCORE {
        preliminary := preliminary + [eligible[i]];
      } else {
        assert preliminary + [] == preliminary;
      }
      i := i + 1;
    }
    assert eligible[..|eligible|] == eligible;
  }

  /** Stage 7: every candidate either survives or is rejected. */
  method AnalyzeDeep(deep: seq<Candidate>, succeeds: nat -> bool)
    returns (survivors: seq<Candidate>, rejected: seq<string>)
    ensures survivors == Survivors(deep, succeeds) && rejected == FailedSymbols(deep, succeeds)
    ensures |rejected| + |survivors| == |deep|
  {
    survivors, rejected := [], [];
    var j := 0;
    while j < |deep|
      invariant 0 <= j <= |deep|
      invariant survivors == Chosen(deep[..j], Outcomes(succeeds, j))
      invariant rejected == FailedSymbols(deep[..j], succeeds)
      invariant |rejected| + |survivors| == j
    {
      assert deep[..j + 1][..j] == deep[..j];
      assert Outcomes(succeeds, j + 1)[..j] == Outcomes(succeeds, j);
      if succeeds(j) {
        survivors := survivors + [deep[j]];
        assert rejected + [] == rejected;
      } else {
        assert survivors + [] == survivors;
        rejected := rejected + [deep[j].symbol];
      }
      j := j + 1;
    }
    assert deep[..|deep|] == deep;
  }

  /** Stages 3 to 9. The final list is the start of what survived deep analysis, in ranked order: as many as were
      requested, or as configured when none were. */
  method Discover(eligible: seq<Candidate>, cap: int, deepK: int, requested: Option<int>, finalK: int,
                  succeeds: nat -> bool)
    returns (deep: seq<Candidate>, final: seq<Candidate>, rejected: seq<string>)
    ensures deep == DeepList(eligible, cap, deepK)
    ensures final == Slice(Survivors(deep, succeeds), FinalCount(requested, finalK))
    ensures final <= Survivors(deep, succeeds)
    ensures var wanted := if requested.Some? && requested.value != 0 then requested.value else finalK;
            wanted >= 0 ==> |final| == Least(wanted, |Survivors(deep, succeeds)|)
    ensures rejected == FailedSymbols(deep, succeeds) && |rejected| + |Survivors(deep, succeeds)| == |deep|
  {
    hide Sorted, ScoresAtLeast, Capped, CountCategory, Ranked, Survivors;
    var preliminary := KeepViable(eligible);
    var ranked := Ranked(preliminary);
    var diversified := Diversify(ranked, cap);
    RankedViableScores(eligible);
    CappedSublist(ranked, cap);
    RankedIdentity(diversified);
    deep := Slice(Ranked(diversified), Least(deepK, |diversified|));
    var survivors;
    survivors, rejected := AnalyzeDeep(deep, succeeds);
    SurvivorsUnchanged(eligible, cap, deepK, succeeds);
    var again := Diversify(survivors, cap);
    final := Slice(Ranked(again), FinalCount(requested, finalK));
  }
}
