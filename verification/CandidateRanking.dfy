/** Ranking of discovery candidates: best score first, ties by symbol. */
module CandidateRanking {
  datatype Category = EQUITY | ETF | UNKNOWN

  /** `category` is the universe provider's answer for the symbol. */
  datatype Candidate = Candidate(symbol: string, score: real, category: Category)

  /** Lexicographic order on symbols, by code point. */
  predicate SymbolLeq(a: string, b: string) {
    a == [] || (b != [] && (a[0] < b[0] || (a[0] == b[0] && SymbolLeq(a[1..], b[1..]))))
  }

  predicate Leq(a: Candidate, b: Candidate) {
    a.score > b.score || (a.score == b.score && SymbolLeq(a.symbol, b.symbol))
  }

  lemma {:induction false} SymbolTotal(a: string, b: string)
    ensures SymbolLeq(a, b) || SymbolLeq(b, a)
    ensures SymbolLeq(a, b) && SymbolLeq(b, a) ==> a == b
  {
    if a != [] && b != [] {
      SymbolTotal(a[1..], b[1..]);
      assert a == [a[0]] + a[1..] && b == [b[0]] + b[1..];
    }
  }

  lemma {:induction false} SymbolTransitive(a: string, b: string, c: string)
    requires SymbolLeq(a, b) && SymbolLeq(b, c)
    ensures SymbolLeq(a, c)
  {
    if a != [] && a[0] == b[0] == c[0] {
      SymbolTransitive(a[1..], b[1..], c[1..]);
    }
  }

  lemma LeqTransitive(a: Candidate, b: Candidate, c: Candidate)
    requires Leq(a, b) && Leq(b, c)
    ensures Leq(a, c)
  {
    if a.score == b.score == c.score {
      SymbolTransitive(a.symbol, b.symbol, c.symbol);
    }
  }

  lemma LeqTotal(a: Candidate, b: Candidate)
    ensures Leq(a, b) || Leq(b, a)
  {
    SymbolTotal(a.symbol, b.symbol);
  }

  ghost predicate Sorted(s: seq<Candidate>) {
    forall i, j :: 0 <= i < j < |s| ==> Leq(s[i], s[j])
  }

  /** Before the first element that it does not follow, so equal keys keep their order. */
  function Insert(c: Candidate, s: seq<Candidate>): seq<Candidate> {
    if s == [] || Leq(c, s[0]) then [c] + s else [s[0]] + Insert(c, s[1..])
  }

  /** A stable sort by rank. */
  function Ranked(s: seq<Candidate>): seq<Candidate> {
    if s == [] then [] else Insert(s[0], Ranked(s[1..]))
  }

  lemma {:induction false} InsertSorts(c: Candidate, s: seq<Candidate>)
    requires Sorted(s)
    ensures Sorted(Insert(c, s)) && multiset(Insert(c, s)) == multiset(s) + multiset{c}
  {
    if s == [] {
    } else if Leq(c, s[0]) {
      forall j | 0 <= j < |s| ensures Leq(c, s[j]) {
        if j > 0 { LeqTransitive(c, s[0], s[j]); }
      }
    } else {
      LeqTotal(c, s[0]);
      InsertSorts(c, s[1..]);
      var r := Insert(c, s[1..]);
      assert s == [s[0]] + s[1..];
      forall j | 0 <= j < |r| ensures Leq(s[0], r[j]) {
        assert r[j] in multiset(r);
        assert r[j] == c || r[j] in s[1..];
      }
    }
  }

  /** Ranking sorts and loses or invents no candidate. */
  lemma {:induction false} RankedSorts(s: seq<Candidate>)
    ensures Sorted(Ranked(s)) && multiset(Ranked(s)) == multiset(s)
  {
    if s != [] {
      RankedSorts(s[1..]);
      InsertSorts(s[0], Ranked(s[1..]));
      assert s == [s[0]] + s[1..];
    }
  }

  /** Ranking what is ranked changes nothing. */
  lemma {:induction false} RankedIdentity(s: seq<Candidate>)
    requires Sorted(s)
    ensures Ranked(s) == s
  {
    if s != [] {
      RankedIdentity(s[1..]);
      assert s == [s[0]] + s[1..];
    }
  }

  ghost predicate DistinctSymbols(s: seq<Candidate>) {
    forall i, j :: 0 <= i < j < |s| ==> s[i].symbol != s[j].symbol
  }

  lemma SameHead(s: seq<Candidate>, t: seq<Candidate>)
    requires Sorted(s) && Sorted(t) && multiset(s) == multiset(t) && DistinctSymbols(s) && s != [] && t != []
    ensures s[0] == t[0]
  {
    hide SymbolLeq, Leq;
    assert s[0] in multiset(t) && t[0] in multiset(s);
    var i :| 0 <= i < |t| && t[i] == s[0];
    var j :| 0 <= j < |s| && s[j] == t[0];
    if j > 0 && i > 0 {
      assert Leq(s[0], s[j]) && Leq(t[0], t[i]);
      LeqAntisymmetric(s[0], s[j]);
    }
  }

  lemma LeqAntisymmetric(a: Candidate, b: Candidate)
    requires Leq(a, b) && Leq(b, a)
    ensures a.symbol == b.symbol
  {
    SymbolTotal(a.symbol, b.symbol);
  }

  lemma TailSorted(s: seq<Candidate>)
    requires Sorted(s) && s != []
    ensures Sorted(s[1..])
  {
    hide Leq;
  }

  lemma TailDistinct(s: seq<Candidate>)
    requires DistinctSymbols(s) && s != []
    ensures DistinctSymbols(s[1..])
  {
  }

  /** Two sorted lists of the same candidates with distinct symbols are one list. */
  lemma {:induction false} SortedUnique(s: seq<Candidate>, t: seq<Candidate>)
    requires Sorted(s) && Sorted(t) && multiset(s) == multiset(t) && DistinctSymbols(s)
    ensures s == t
  {
    hide Sorted, DistinctSymbols;
    if s == [] {
      assert |multiset(t)| == 0;
    } else {
      assert s[0] in multiset(t);
      SameHead(s, t);
      TailSorted(s);
      TailSorted(t);
      TailDistinct(s);
      assert s == [s[0]] + s[1..] && t == [t[0]] + t[1..];
      assert multiset(s[1..]) == multiset(s) - multiset{s[0]} == multiset(t) - multiset{t[0]} == multiset(t[1..]);
      SortedUnique(s[1..], t[1..]);
    }
  }

  /** The ranking does not depend on the order in which the candidates were screened. */
  lemma RankingIsDeterministic(s: seq<Candidate>, t: seq<Candidate>)
    requires multiset(s) == multiset(t) && DistinctSymbols(s)
    ensures Ranked(s) == Ranked(t)
  {
    RankedSorts(s);
    RankedSorts(t);
    DistinctKeeps(s, Ranked(s));
    SortedUnique(Ranked(s), Ranked(t));
  }

  lemma DistinctKeeps(s: seq<Candidate>, t: seq<Candidate>)
    requires multiset(s) == multiset(t) && DistinctSymbols(s)
    ensures DistinctSymbols(t)
  {
    forall i, j | 0 <= i < j < |t| ensures t[i].symbol != t[j].symbol {
      assert t[i] in multiset(s) && t[j] in multiset(s);
      if t[i].symbol == t[j].symbol {
        var k :| 0 <= k < |s| && s[k] == t[i];
        var l :| 0 <= l < |s| && s[l] == t[j];
        assert k == l;
        TwiceMeansTwo(t, i, j);
        OnceMeansOne(s, k);
        assert false;
      }
    }
  }

  lemma TwiceMeansTwo(t: seq<Candidate>, i: nat, j: nat)
    requires i < j < |t| && t[i] == t[j]
    ensures multiset(t)[t[i]] >= 2
  {
    assert t == t[..j] + [t[j]] + t[j + 1..];
    assert t[i] in t[..j];
  }

  lemma OnceMeansOne(s: seq<Candidate>, k: nat)
    requires k < |s| && DistinctSymbols(s)
    ensures multiset(s)[s[k]] == 1
  {
    assert s == s[..k] + [s[k]] + s[k + 1..];
    assert s[k] !in s[..k] && s[k] !in s[k + 1..];
  }
}
