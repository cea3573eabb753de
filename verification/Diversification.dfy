/** The category cap on a ranked list, and why taking greedily is best. */
module Diversification {
  import opened CandidateRanking

  function CountCategory(s: seq<Candidate>, c: Category): nat {
    if s == [] then 0
    else CountCategory(s[..|s| - 1], c) + (if s[|s| - 1].category == c then 1 else 0)
  }

  /** The candidates with fewer than `cap` better ranked ones of their category. */
  function Capped(s: seq<Candidate>, cap: int): seq<Candidate> {
    if s == [] then []
    else
      var x := s[|s| - 1];
      Capped(s[..|s| - 1], cap) + (if CountCategory(s[..|s| - 1], x.category) < cap then [x] else [])
  }

  function Least(a: int, b: int): int { if a <= b then a else b }

  lemma CountSnoc(s: seq<Candidate>, x: Candidate, c: Category)
    ensures CountCategory(s + [x], c) == CountCategory(s, c) + (if x.category == c then 1 else 0)
  {
    assert (s + [x])[..|s|] == s;
  }

  lemma {:induction false} CappedCounts(s: seq<Candidate>, cap: int, c: Category)
    ensures CountCategory(Capped(s, cap), c) == Least(CountCategory(s, c), if cap > 0 then cap else 0)
  {
    if s != [] {
      var t, x := s[..|s| - 1], s[|s| - 1];
      CappedCounts(t, cap, c);
      CountSnoc(Capped(t, cap), x, c);
      assert Capped(t, cap) + [] == Capped(t, cap);
    }
  }

  /** The loop with a dictionary of counts keeps exactly the capped list. */
  method Diversify(candidates: seq<Candidate>, cap: int) returns (diversified: seq<Candidate>)
    ensures diversified == Capped(candidates, cap)
    ensures forall c :: CountCategory(diversified, c) == Least(CountCategory(candidates, c), if cap > 0 then cap else 0)
  {
    var counts: map<Category, nat> := map[];
    diversified := [];
    var i := 0;
    while i < |candidates|
      invariant 0 <= i <= |candidates|
      invariant diversified == Capped(candidates[..i], cap)
      invariant forall c :: (if c in counts then counts[c] else 0) == CountCategory(diversified, c)
    {
      var x := candidates[i];
      assert candidates[..i + 1][..i] == candidates[..i];
      CappedCounts(candidates[..i], cap, x.category);
      var count := if x.category in counts then counts[x.category] else 0;
      if count < cap {
        forall c
          ensures CountCategory(diversified + [x], c)
               == CountCategory(diversified, c) + (if x.category == c then 1 else 0)
        {
          CountSnoc(diversified, x, c);
        }
        diversified := diversified + [x];
        counts := counts[x.category := count + 1];
      } else {
        assert diversified == diversified + [];
      }
      i := i + 1;
    }
    assert candidates[..|candidates|] == candidates;
    forall c ensures CountCategory(diversified, c) == Least(CountCategory(candidates, c), if cap > 0 then cap else 0) {
      CappedCounts(candidates, cap, c);
    }
  }

  // ---- Competitors -----------------------------------------------------------------

  /** The candidates a choice of positions takes. */
  function Chosen(s: seq<Candidate>, pick: seq<bool>): seq<Candidate>
    requires |pick| == |s|
  {
    if s == [] then []
    else Chosen(s[..|s| - 1], pick[..|s| - 1]) + (if pick[|s| - 1] then [s[|s| - 1]] else [])
  }

  ghost predicate WithinCap(s: seq<Candidate>, cap: int) {
    forall c :: CountCategory(s, c) <= cap
  }

  function TotalScore(s: seq<Candidate>): real {
    if s == [] then 0.0 else TotalScore(s[..|s| - 1]) + s[|s| - 1].score
  }

  lemma {:induction false} LengthByCategory(s: seq<Candidate>)
    ensures |s| == CountCategory(s, EQUITY) + CountCategory(s, ETF) + CountCategory(s, UNKNOWN)
  {
    if s != [] {
      LengthByCategory(s[..|s| - 1]);
    }
  }

  lemma {:induction false} ChosenCounts(s: seq<Candidate>, pick: seq<bool>, c: Category)
    requires |pick| == |s|
    ensures CountCategory(Chosen(s, pick), c) <= CountCategory(s, c)
  {
    if s != [] {
      var t := s[..|s| - 1];
      ChosenCounts(t, pick[..|t|], c);
      CountSnoc(Chosen(t, pick[..|t|]), s[|t|], c);
      assert Chosen(t, pick[..|t|]) + [] == Chosen(t, pick[..|t|]);
    }
  }

  /** A capped list is at least as long as any choice within the cap. */
  lemma CappedIsLongest(s: seq<Candidate>, pick: seq<bool>, cap: int)
    requires |pick| == |s| && WithinCap(Chosen(s, pick), cap)
    ensures |Chosen(s, pick)| <= |Capped(s, cap)|
  {
    LengthByCategory(Chosen(s, pick));
    LengthByCategory(Capped(s, cap));
    forall c ensures CountCategory(Chosen(s, pick), c) <= CountCategory(Capped(s, cap), c) {
      ChosenCounts(s, pick, c);
      CappedCounts(s, cap, c);
      assert CountCategory(Chosen(s, pick), c) <= cap;
    }
  }

  ghost predicate ScoresAtLeast(s: seq<Candidate>, score: real) {
    forall i :: 0 <= i < |s| ==> s[i].score >= score
  }

  lemma {:induction false} CappedScores(s: seq<Candidate>, cap: int, score: real)
    requires ScoresAtLeast(s, score)
    ensures ScoresAtLeast(Capped(s, cap), score)
  {
    if s != [] {
      CappedScores(s[..|s| - 1], cap, score);
    }
  }

  /** `a` is at least as long as `b` and at every position at least as good. */
  ghost predicate Dominates(a: seq<Candidate>, b: seq<Candidate>) {
    |a| >= |b| && forall i :: 0 <= i < |b| ==> a[i].score >= b[i].score
  }

  /** The i-th best of the capped list is at least as good as the i-th best of any choice within the cap. */
  lemma {:induction false} CappedDominates(s: seq<Candidate>, pick: seq<bool>, cap: int)
    requires Sorted(s) && |pick| == |s| && WithinCap(Chosen(s, pick), cap)
    ensures Dominates(Capped(s, cap), Chosen(s, pick))
  {
    if s != [] {
      var t, x := s[..|s| - 1], s[|s| - 1];
      var p := pick[..|t|];
      forall c ensures CountCategory(Chosen(t, p), c) <= cap {
        CountSnoc(Chosen(t, p), x, c);
        assert Chosen(t, p) + [] == Chosen(t, p);
        assert CountCategory(Chosen(s, pick), c) <= cap;
      }
      CappedDominates(t, p, cap);
      CappedIsLongest(s, pick, cap);
      assert ScoresAtLeast(s, x.score) by {
        forall i | 0 <= i < |s| ensures s[i].score >= x.score {
          if i < |t| { assert Leq(s[i], s[|s| - 1]); }
        }
      }
      CappedScores(s, cap, x.score);
    }
  }

  // ---- Prefixes ---------------------------------------------------------------------

  lemma {:induction false} TotalMonotone(a: seq<Candidate>, b: seq<Candidate>)
    requires Dominates(a, b) && ScoresAtLeast(a, 0.0)
    ensures TotalScore(a) >= TotalScore(b)
  {
    if |a| > |b| {
      TotalMonotone(a[..|a| - 1], b);
    } else if b != [] {
      TotalMonotone(a[..|a| - 1], b[..|b| - 1]);
    }
  }

  /** Dropping from the end of a dominating list, down to the length of the other, keeps it dominating. */
  lemma PrefixDominates(a: seq<Candidate>, b: seq<Candidate>, k: nat)
    requires Dominates(a, b) && |b| <= k <= |a|
    ensures Dominates(a[..k], b)
  {
  }

  // ---- Sub-lists --------------------------------------------------------------------

  lemma {:induction false} CountPrefix(s: seq<Candidate>, n: nat, c: Category)
    requires n <= |s|
    ensures CountCategory(s[..n], c) <= CountCategory(s, c)
  {
    if n < |s| {
      CountPrefix(s[..|s| - 1], n, c);
      assert s[..|s| - 1][..n] == s[..n];
    } else {
      assert s[..n] == s;
    }
  }

  lemma {:induction false} CappedIdentity(s: seq<Candidate>, cap: int)
    requires WithinCap(s, cap)
    ensures Capped(s, cap) == s
  {
    if s != [] {
      var t, x := s[..|s| - 1], s[|s| - 1];
      forall c ensures CountCategory(t, c) <= cap {
        CountPrefix(s, |t|, c);
      }
      CappedIdentity(t, cap);
      assert CountCategory(s, x.category) <= cap;
      assert s == t + [x];
    }
  }

  lemma {:induction false} ChosenSorted(s: seq<Candidate>, pick: seq<bool>)
    requires Sorted(s) && |pick| == |s|
    ensures Sorted(Chosen(s, pick))
    ensures forall y :: y in Chosen(s, pick) ==> y in s
  {
    hide Leq;
    if s != [] {
      var t := s[..|s| - 1];
      ChosenSorted(t, pick[..|t|]);
      forall y | y in Chosen(t, pick[..|t|]) ensures Leq(y, s[|t|]) {
        var i :| 0 <= i < |t| && t[i] == y;
        assert Leq(s[i], s[|t|]);
      }
    }
  }

  lemma {:induction false} CappedSublist(s: seq<Candidate>, cap: int)
    ensures Sorted(s) ==> Sorted(Capped(s, cap))
    ensures forall y :: y in Capped(s, cap) ==> y in s
  {
    if s != [] {
      var t := s[..|s| - 1];
      CappedSublist(t, cap);
      if Sorted(s) {
        forall y | y in Capped(t, cap) ensures Leq(y, s[|t|]) {
          var i :| 0 <= i < |t| && t[i] == y;
          assert Leq(s[i], s[|t|]);
        }
      }
    }
  }
}
