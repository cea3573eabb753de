/** Confidence calibration: bucket statistics, Brier score and expected calibration error (ECE). */
module Calibration {
  import opened Wrappers
  import opened Arithmetic

  /** A prediction recorded without a confidence is ignored. */
  datatype Recorded = Recorded(confidence: Option<real>, correct: bool)

  datatype Prediction = Prediction(confidence: real, correct: bool)

  datatype Range = Range(low: real, high: real)

  /** `gap` is mean confidence minus success rate; an empty bucket has none. */
  datatype Bucket = Bucket(range: Range, count: nat, gap: Option<real>)

  datatype Summary = Summary(buckets: seq<Bucket>, brier: Option<real>, ece: Option<real>, total: nat)

  const DEFAULT_RANGES: seq<Range> :=
    [Range(0.50, 0.60), Range(0.60, 0.70), Range(0.70, 0.80), Range(0.80, 0.90), Range(0.90, 1.00)]

  /** Half open, except that a range ending at 1 includes it. */
  predicate Covers(r: Range, confidence: real) {
    r.low <= confidence < r.high || (r.high == 1.0 && r.low <= confidence <= 1.0)
  }

  function Valid(s: seq<Recorded>): seq<Prediction> {
    if s == [] then []
    else
      var x := s[|s| - 1];
      Valid(s[..|s| - 1]) + (if x.confidence.Some? then [Prediction(x.confidence.value, x.correct)] else [])
  }

  function Within(s: seq<Prediction>, r: Range): seq<Prediction> {
    if s == [] then []
    else Within(s[..|s| - 1], r) + (if Covers(r, s[|s| - 1].confidence) then [s[|s| - 1]] else [])
  }

  function Outcome(p: Prediction): real { if p.correct then 1.0 else 0.0 }

  function Confidences(s: seq<Prediction>): real {
    if s == [] then 0.0 else Confidences(s[..|s| - 1]) + s[|s| - 1].confidence
  }

  function Successes(s: seq<Prediction>): real {
    if s == [] then 0.0 else Successes(s[..|s| - 1]) + Outcome(s[|s| - 1])
  }

  function BucketOf(s: seq<Prediction>, r: Range): Bucket {
    var inside := Within(s, r);
    if inside == [] then Bucket(r, 0, None)
    else Bucket(r, |inside|, Some(Confidences(inside) / |inside| as real - Successes(inside) / |inside| as real))
  }

  function Buckets(s: seq<Prediction>, ranges: seq<Range>): seq<Bucket> {
    if ranges == [] then [] else Buckets(s, ranges[..|ranges| - 1]) + [BucketOf(s, ranges[|ranges| - 1])]
  }

  function Error(p: Prediction): real { p.confidence - Outcome(p) }

  function Times(x: real, y: real): real { x * y }

  function SquaredErrors(s: seq<Prediction>): real {
    if s == [] then 0.0
    else SquaredErrors(s[..|s| - 1]) + Times(Error(s[|s| - 1]), Error(s[|s| - 1]))
  }

  function Brier(s: seq<Prediction>): real {
    if s == [] then 0.0 else SquaredErrors(s) / |s| as real
  }

  function Term(b: Bucket, total: nat): real
    requires total > 0
  {
    if b.count > 0 && b.gap.Some? then b.count as real / total as real * Abs(b.gap.value) else 0.0
  }

  function Ece(buckets: seq<Bucket>, total: nat): real
    requires total > 0
  {
    if buckets == [] then 0.0
    else
      var b := buckets[|buckets| - 1];
      Ece(buckets[..|buckets| - 1], total)
      + Term(b, total)
  }

  function SampleCount(buckets: seq<Bucket>): nat {
    if buckets == [] then 0 else SampleCount(buckets[..|buckets| - 1]) + buckets[|buckets| - 1].count
  }

  // ---- ECE against the errors of single predictions --------------------------------

  function ErrorSum(s: seq<Prediction>): real {
    if s == [] then 0.0 else ErrorSum(s[..|s| - 1]) + Error(s[|s| - 1])
  }

  function AbsoluteErrors(s: seq<Prediction>): real {
    if s == [] then 0.0 else AbsoluteErrors(s[..|s| - 1]) + Abs(Error(s[|s| - 1]))
  }

  /** What the ranges' net errors add up to in size. */
  function NetErrors(s: seq<Prediction>, ranges: seq<Range>): real {
    if ranges == [] then 0.0
    else NetErrors(s, ranges[..|ranges| - 1]) + Abs(ErrorSum(Within(s, ranges[|ranges| - 1])))
  }

  /** Every confidence was certain, and right. */
  ghost predicate Perfect(s: seq<Recorded>) {
    forall x :: x in s && x.confidence.Some? ==> x.confidence.value == if x.correct then 1.0 else 0.0
  }

  lemma TimesSign(x: real, y: real)
    ensures x > 0.0 && y > 0.0 ==> Times(x, y) > 0.0
    ensures x < 0.0 && y < 0.0 ==> Times(x, y) > 0.0
    ensures x == 0.0 ==> Times(x, y) == 0.0
  {
    if x > 0.0 && y > 0.0 {
      assert x * y > 0.0;
    } else if x < 0.0 && y < 0.0 {
      assert (-x) * (-y) > 0.0 && x * y == (-x) * (-y);
    }
  }

  lemma SquaredErrorsSnoc(s: seq<Prediction>, p: Prediction)
    ensures p.confidence == Outcome(p) ==> SquaredErrors(s + [p]) == SquaredErrors(s)
    ensures p.confidence != Outcome(p) ==> SquaredErrors(s + [p]) > SquaredErrors(s)
  {
    assert (s + [p])[..|s|] == s;
    TimesSign(Error(p), Error(p));
    hide Times;
  }

  lemma ValidSnoc(s: seq<Recorded>, x: Recorded)
    ensures Valid(s + [x])
         == Valid(s) + (if x.confidence.Some? then [Prediction(x.confidence.value, x.correct)] else [])
  {
    assert (s + [x])[..|s|] == s;
  }

  lemma {:induction false} SquaredErrorsZero(s: seq<Recorded>)
    ensures SquaredErrors(Valid(s)) >= 0.0
    ensures SquaredErrors(Valid(s)) == 0.0 <==> Perfect(s)
  {
    if s != [] {
      var front, x := s[..|s| - 1], s[|s| - 1];
      SquaredErrorsZero(front);
      assert s == front + [x];
      ValidSnoc(front, x);
      PerfectSnoc(front, x);
      hide SquaredErrors, Valid, Perfect;
      if x.confidence.Some? {
        SquaredErrorsSnoc(Valid(front), Prediction(x.confidence.value, x.correct));
      } else {
        assert Valid(s) == Valid(front);
      }
    }
  }

  lemma PerfectSnoc(s: seq<Recorded>, x: Recorded)
    ensures Perfect(s + [x]) <==>
              Perfect(s) && (x.confidence.Some? ==> x.confidence.value == if x.correct then 1.0 else 0.0)
  {
    assert x in s + [x];
  }

  /** The Brier score is zero exactly when every prediction was certain and came true, or certainly denied and did
      not. */
  lemma BrierZeroIff(s: seq<Recorded>)
    ensures Brier(Valid(s)) >= 0.0
    ensures Brier(Valid(s)) == 0.0 <==> Perfect(s)
  {
    SquaredErrorsZero(s);
    hide SquaredErrors, Valid, Perfect;
    if Valid(s) != [] {
      QuotientTimes(SquaredErrors(Valid(s)), |Valid(s)| as real);
      QuotientMonotone(0.0, SquaredErrors(Valid(s)), |Valid(s)| as real);
    } else {
      NothingSquared();
    }
  }

  lemma NothingSquared()
    ensures SquaredErrors([]) == 0.0
  {
  }

  lemma {:induction false} ErrorIsGap(s: seq<Prediction>)
    ensures ErrorSum(s) == Confidences(s) - Successes(s)
  {
    if s != [] {
      ErrorIsGap(s[..|s| - 1]);
    }
  }

  lemma WeightedGap(n: real, total: real, c: real, k: real)
    requires n > 0.0 && total > 0.0
    ensures n / total * Abs(c / n - k / n) == Abs(c - k) / total
  {
    var x := c - k;
    assert c / n - k / n == x / n;
    QuotientMonotone(if x >= 0.0 then 0.0 else x, if x >= 0.0 then x else 0.0, n);
    assert n * (x / n) == x;
    assert Abs(x / n) == Abs(x) / n;
    assert n / total * (Abs(x) / n) == n * (Abs(x) / n) / total;
  }

  lemma TermIsNetError(s: seq<Prediction>, r: Range, total: nat)
    requires total > 0
    ensures Term(BucketOf(s, r), total) == Abs(ErrorSum(Within(s, r))) / total as real
  {
    var inside := Within(s, r);
    ErrorIsGap(inside);
    hide Confidences, Successes, Within, ErrorSum;
    if inside == [] {
      assert ErrorSum(inside) == 0.0 by { NoError(); }
    } else {
      TermOf(r, |inside|, Confidences(inside), Successes(inside), total);
    }
  }

  lemma NoError()
    ensures ErrorSum([]) == 0.0
  {
  }

  lemma TermOf(r: Range, n: nat, c: real, k: real, total: nat)
    requires n > 0 && total > 0
    ensures Term(Bucket(r, n, Some(c / n as real - k / n as real)), total) == Abs(c - k) / total as real
  {
    hide Abs;
    WeightedGap(n as real, total as real, c, k);
  }

  lemma EceSnoc(front: seq<Bucket>, b: Bucket, total: nat)
    requires total > 0
    ensures Ece(front + [b], total) == Ece(front, total) + Term(b, total)
  {
    hide Term;
    assert (front + [b])[..|front|] == front;
  }

  /** The ECE is the ranges' net errors per prediction. */
  lemma {:induction false} EceIsNetError(s: seq<Prediction>, ranges: seq<Range>, total: nat)
    requires total > 0
    ensures Ece(Buckets(s, ranges), total) == NetErrors(s, ranges) / total as real
  {
    hide BucketOf, Within, Term, Ece, ErrorSum;
    if ranges == [] {
      EceEmpty(total);
    } else {
      var front, r := ranges[..|ranges| - 1], ranges[|ranges| - 1];
      EceIsNetError(s, front, total);
      TermIsNetError(s, r, total);
      EceSnoc(Buckets(s, front), BucketOf(s, r), total);
      QuotientsAdd(NetErrors(s, front), Abs(ErrorSum(Within(s, r))), total as real);
    }
  }

  lemma EceEmpty(total: nat)
    requires total > 0
    ensures Ece([], total) == 0.0
  {
  }

  /** No confidence lies in two ranges. */
  ghost predicate Disjoint(ranges: seq<Range>) {
    forall i, j, c :: 0 <= i < j < |ranges| && Covers(ranges[i], c) ==> !Covers(ranges[j], c)
  }

  ghost predicate Covered(ranges: seq<Range>, confidence: real) {
    exists i :: 0 <= i < |ranges| && Covers(ranges[i], confidence)
  }

  /** One more prediction moves the net error of at most one range, by at most its own error. */
  lemma {:induction false} NetErrorsSnoc(s: seq<Prediction>, p: Prediction, ranges: seq<Range>)
    requires Disjoint(ranges)
    ensures NetErrors(s + [p], ranges)
         <= NetErrors(s, ranges) + (if Covered(ranges, p.confidence) then Abs(Error(p)) else 0.0)
  {
    if ranges != [] {
      var front, r := ranges[..|ranges| - 1], ranges[|ranges| - 1];
      NetErrorsSnoc(s, p, front);
      assert (s + [p])[..|s|] == s;
      if Covers(r, p.confidence) {
        assert Covers(ranges[|ranges| - 1], p.confidence);
        assert !Covered(front, p.confidence);
        assert (Within(s, r) + [p])[..|Within(s, r)|] == Within(s, r);
      } else {
        assert Within(s + [p], r) == Within(s, r);
        if Covered(front, p.confidence) {
          var i :| 0 <= i < |front| && Covers(front[i], p.confidence);
          assert Covers(ranges[i], p.confidence);
        }
      }
    }
  }

  lemma {:induction false} NetWithinAbsolute(s: seq<Prediction>, ranges: seq<Range>)
    requires Disjoint(ranges)
    ensures NetErrors(s, ranges) <= AbsoluteErrors(s)
  {
    if s == [] {
      NoNetErrors(ranges);
    } else {
      var t, p := s[..|s| - 1], s[|s| - 1];
      NetWithinAbsolute(t, ranges);
      NetErrorsSnoc(t, p, ranges);
      assert t + [p] == s;
    }
  }

  lemma {:induction false} NoNetErrors(ranges: seq<Range>)
    ensures NetErrors([], ranges) == 0.0
  {
    if ranges != [] {
      NoNetErrors(ranges[..|ranges| - 1]);
    }
  }

  // ---- Cauchy and Schwarz -------------------------------------------------------------

  /** The squared distances of the absolute errors from any level are not negative. */
  lemma {:induction false} SpreadNonNegative(s: seq<Prediction>, level: real)
    ensures SquaredErrors(s) - 2.0 * level * AbsoluteErrors(s) + |s| as real * (level * level) >= 0.0
  {
    if s != [] {
      SpreadNonNegative(s[..|s| - 1], level);
      Expand(SquaredErrors(s[..|s| - 1]), AbsoluteErrors(s[..|s| - 1]), (|s| - 1) as real, level, Error(s[|s| - 1]));
    }
  }

  lemma Expand(squares: real, sum: real, n: real, level: real, e: real)
    ensures (squares + e * e) - 2.0 * level * (sum + Abs(e)) + (n + 1.0) * (level * level)
         == (squares - 2.0 * level * sum + n * (level * level)) + (Abs(e) - level) * (Abs(e) - level)
    ensures (Abs(e) - level) * (Abs(e) - level) >= 0.0
  {
    assert e * e == Abs(e) * Abs(e);
    var a := Abs(e);
    assert (a - level) * (a - level) == a * a - 2.0 * level * a + level * level;
    assert 2.0 * level * (sum + a) == 2.0 * level * sum + 2.0 * level * a;
    assert (n + 1.0) * (level * level) == n * (level * level) + level * level;
  }

  lemma MeanSquare(squares: real, sum: real, n: real, mean: real)
    requires n > 0.0 && mean == sum / n
    requires squares - 2.0 * mean * sum + n * (mean * mean) >= 0.0
    ensures mean * mean <= squares / n
  {
    assert n * mean == sum;
    assert 2.0 * mean * sum == 2.0 * (n * (mean * mean));
    assert squares >= n * (mean * mean);
    QuotientMonotone(n * (mean * mean), squares, n);
    assert n * (mean * mean) / n == mean * mean;
  }

  lemma {:induction false} ErrorsNonNegative(s: seq<Prediction>, ranges: seq<Range>)
    ensures NetErrors(s, ranges) >= 0.0
  {
    if ranges != [] {
      ErrorsNonNegative(s, ranges[..|ranges| - 1]);
    }
  }

  ghost predicate Probabilities(s: seq<Prediction>) {
    forall p :: p in s ==> 0.0 <= p.confidence <= 1.0
  }

  lemma {:induction false} SquaresBounded(s: seq<Prediction>)
    requires Probabilities(s)
    ensures SquaredErrors(s) <= |s| as real
  {
    if s != [] {
      SquaresBounded(s[..|s| - 1]);
      assert s[|s| - 1] in s;
      UnitSquare(Error(s[|s| - 1]));
    }
  }

  lemma UnitSquare(e: real)
    requires -1.0 <= e <= 1.0
    ensures e * e <= 1.0
  {
    if e >= 0.0 { assert e * e <= 1.0 * e; } else { assert -e * -e <= 1.0 * -e; }
  }

  /** For disjoint ranges the squared calibration error never exceeds the Brier score, which for
      probabilities never exceeds one. */
  lemma EceWithinBrier(s: seq<Prediction>, ranges: seq<Range>)
    requires s != [] && Disjoint(ranges)
    ensures var ece := Ece(Buckets(s, ranges), |s|); 0.0 <= ece && ece * ece <= Brier(s)
    ensures Probabilities(s) ==> Brier(s) <= 1.0
  {
    hide Ece, Buckets, NetErrors, AbsoluteErrors, SquaredErrors, Disjoint;
    var n := |s| as real;
    EceIsNetError(s, ranges, |s|);
    ErrorsNonNegative(s, ranges);
    NetWithinAbsolute(s, ranges);
    SpreadNonNegative(s, AbsoluteErrors(s) / n);
    SquareOfMean(NetErrors(s, ranges), AbsoluteErrors(s), SquaredErrors(s), n);
    if Probabilities(s) {
      SquaresBounded(s);
      QuotientMonotone(SquaredErrors(s), n, n);
    }
  }

  lemma SquareOfMean(net: real, absolute: real, squares: real, n: real)
    requires 0.0 <= net <= absolute && n > 0.0
    requires squares - 2.0 * (absolute / n) * absolute + n * (absolute / n * (absolute / n)) >= 0.0
    ensures 0.0 <= net / n && net / n * (net / n) <= squares / n
  {
    var mean := absolute / n;
    QuotientMonotone(net, absolute, n);
    QuotientMonotone(0.0, net, n);
    MeanSquare(squares, absolute, n, mean);
    ProductMonotone(net / n, mean, net / n, mean);
  }

  lemma TimesOne()
    ensures Times(1.0, 1.0) == 1.0
  {
  }

  lemma OneMiss()
    ensures Brier([Prediction(1.0, false)]) == 1.0
  {
    var s := [Prediction(1.0, false)];
    TimesOne();
    hide Times;
    assert s[..0] == [] && Error(s[0]) == 1.0;
  }

  lemma MissBucket(r: Range)
    requires r == Range(0.0, 1.0)
    ensures BucketOf([Prediction(1.0, false)], r) == Bucket(r, 1, Some(1.0))
    ensures Term(Bucket(r, 1, Some(1.0)), 1) == 1.0
  {
    var s := [Prediction(1.0, false)];
    assert s[..0] == [];
    assert Within(s, r) == s;
    assert Confidences(s) == 1.0 && Successes(s) == 0.0;
  }

  /** A range listed twice counts its gap twice. */
  lemma OverlapDoubles(s: seq<Prediction>, r: Range, total: nat)
    requires total > 0
    ensures Ece(Buckets(s, [r, r]), total) == 2.0 * Term(BucketOf(s, r), total)
  {
    hide BucketOf, Term, Ece;
    var b := BucketOf(s, r);
    assert [r, r][..1] == [r] && [r][..0] == [];
    assert Buckets(s, [r]) == [b] && Buckets(s, [r, r]) == [b] + [b];
    var none: seq<Bucket> := [];
    assert none + [b] == [b];
    EceEmpty(total);
    EceSnoc(none, b, total);
    EceSnoc([b], b, total);
  }

  /** Disjointness is needed: counting one range twice lets the error reach twice its bound. */
  lemma OverlapBreaksBound(ranges: seq<Range>, s: seq<Prediction>)
    requires ranges == [Range(0.0, 1.0), Range(0.0, 1.0)] && s == [Prediction(1.0, false)]
    ensures Ece(Buckets(s, ranges), |s|) == 2.0 && Brier(s) == 1.0
  {
    MissBucket(Range(0.0, 1.0));
    OneMiss();
    hide *;
    OverlapDoubles(s, Range(0.0, 1.0), 1);
  }

  // ---- The default ranges -------------------------------------------------------------

  lemma DefaultRangesDisjoint()
    ensures Disjoint(DEFAULT_RANGES)
  {
    assert DEFAULT_RANGES[0] == Range(0.50, 0.60) && DEFAULT_RANGES[1] == Range(0.60, 0.70);
    assert DEFAULT_RANGES[2] == Range(0.70, 0.80) && DEFAULT_RANGES[3] == Range(0.80, 0.90);
    assert DEFAULT_RANGES[4] == Range(0.90, 1.00);
  }

  function ConfidentCount(s: seq<Prediction>): nat {
    if s == [] then 0 else ConfidentCount(s[..|s| - 1]) + (if s[|s| - 1].confidence >= 0.50 then 1 else 0)
  }

  ghost function CoveredCount(s: seq<Prediction>, ranges: seq<Range>): nat {
    if s == [] then 0
    else CoveredCount(s[..|s| - 1], ranges) + (if Covered(ranges, s[|s| - 1].confidence) then 1 else 0)
  }

  function CoveringRanges(ranges: seq<Range>, confidence: real): nat {
    if ranges == [] then 0
    else
      CoveringRanges(ranges[..|ranges| - 1], confidence) + (if Covers(ranges[|ranges| - 1], confidence) then 1 else 0)
  }

  /** A range that ends at 1 holds both its ends, any other only its lower one. */
  lemma CoversIff(low: real, high: real, confidence: real)
    ensures high == 1.0 && low <= 1.0 ==> (Covers(Range(low, high), confidence) <==> low <= confidence <= 1.0)
    ensures high != 1.0 ==> (Covers(Range(low, high), confidence) <==> low <= confidence < high)
  {
  }

  lemma {:induction false} CoveringDisjoint(ranges: seq<Range>, confidence: real)
    requires Disjoint(ranges)
    ensures CoveringRanges(ranges, confidence) == if Covered(ranges, confidence) then 1 else 0
  {
    if ranges != [] {
      var front, r := ranges[..|ranges| - 1], ranges[|ranges| - 1];
      CoveringDisjoint(front, confidence);
      if Covered(front, confidence) {
        var i :| 0 <= i < |front| && Covers(front[i], confidence);
        assert Covers(ranges[i], confidence);
      }
    }
  }

  lemma RangeSizeSnoc(s: seq<Prediction>, p: Prediction, r: Range)
    ensures |Within(s + [p], r)| == |Within(s, r)| + (if Covers(r, p.confidence) then 1 else 0)
  {
    assert (s + [p])[..|s|] == s;
  }

  lemma {:induction false} SampleCountSnoc(s: seq<Prediction>, p: Prediction, ranges: seq<Range>)
    ensures SampleCount(Buckets(s + [p], ranges))
         == SampleCount(Buckets(s, ranges)) + CoveringRanges(ranges, p.confidence)
  {
    if ranges != [] {
      var front, r := ranges[..|ranges| - 1], ranges[|ranges| - 1];
      SampleCountSnoc(s, p, front);
      RangeSizeSnoc(s, p, r);
      hide Within;
      CountAppend(Buckets(s + [p], front), BucketOf(s + [p], r));
      CountAppend(Buckets(s, front), BucketOf(s, r));
    }
  }

  lemma CountAppend(front: seq<Bucket>, b: Bucket)
    ensures SampleCount(front + [b]) == SampleCount(front) + b.count
  {
    assert (front + [b])[..|front|] == front;
  }

  lemma {:induction false} NoSamples(ranges: seq<Range>)
    ensures SampleCount(Buckets([], ranges)) == 0
  {
    if ranges != [] {
      NoSamples(ranges[..|ranges| - 1]);
      CountAppend(Buckets([], ranges[..|ranges| - 1]), BucketOf([], ranges[|ranges| - 1]));
    }
  }

  /** Disjoint ranges count every prediction one of them covers exactly once. */
  lemma {:induction false} DisjointRangesCountOnce(s: seq<Prediction>, ranges: seq<Range>)
    requires Disjoint(ranges)
    ensures SampleCount(Buckets(s, ranges)) == CoveredCount(s, ranges)
  {
    if s == [] {
      NoSamples(ranges);
    } else {
      var t, p := s[..|s| - 1], s[|s| - 1];
      assert t + [p] == s;
      DisjointRangesCountOnce(t, ranges);
      SampleCountSnoc(t, p, ranges);
      CoveringDisjoint(ranges, p.confidence);
    }
  }

  lemma DefaultRangesCover(c: real)
    requires c <= 1.0
    ensures Covered(DEFAULT_RANGES, c) <==> c >= 0.50
  {
    if c >= 0.50 {
      var i := if c < 0.60 then 0 else if c < 0.70 then 1 else if c < 0.80 then 2 else if c < 0.90 then 3 else 4;
      assert Covers(DEFAULT_RANGES[i], c);
    }
  }

  /** With the default ranges every prediction of at least 50% is counted exactly once, and no other. */
  lemma {:induction false} DefaultRangesCountConfident(s: seq<Prediction>)
    requires Probabilities(s)
    ensures SampleCount(Buckets(s, DEFAULT_RANGES)) == ConfidentCount(s)
  {
    DefaultRangesDisjoint();
    DisjointRangesCountOnce(s, DEFAULT_RANGES);
    CoveredIsConfident(s);
  }

  lemma {:induction false} CoveredIsConfident(s: seq<Prediction>)
    requires Probabilities(s)
    ensures CoveredCount(s, DEFAULT_RANGES) == ConfidentCount(s)
  {
    if s != [] {
      assert s[|s| - 1] in s;
      CoveredIsConfident(s[..|s| - 1]);
      DefaultRangesCover(s[|s| - 1].confidence);
    }
  }

  // ---- The engine -----------------------------------------------------------------------

  method ValidPredictions(predictions: seq<Recorded>) returns (valid: seq<Prediction>)
    ensures valid == Valid(predictions)
  {
    valid := [];
    var i := 0;
    while i < |predictions|
      invariant 0 <= i <= |predictions|
      invariant valid == Valid(predictions[..i])
    {
      assert predictions[..i + 1][..i] == predictions[..i];
      if predictions[i].confidence.Some? {
        valid := valid + [Prediction(predictions[i].confidence.value, predictions[i].correct)];
      } else {
        assert valid + [] == valid;
      }
      i := i + 1;
    }
    assert predictions[..|predictions|] == predictions;
  }

  /** Below the sample minimum only the Brier score is reported; from it on the two scores are bound together. */
  method ComputeCalibration(ranges: seq<Range>, minSamples: nat, predictions: seq<Recorded>) returns (summary: Summary)
    ensures summary.total == |Valid(predictions)|
    ensures predictions != [] ==> summary.brier == Some(Brier(Valid(predictions)))
    ensures summary.ece.Some? <==> predictions != [] && summary.total >= minSamples
    ensures summary.ece.Some? ==> summary.buckets == Buckets(Valid(predictions), ranges)
    ensures summary.ece.Some? && summary.total > 0 ==> summary.ece == Some(Ece(summary.buckets, summary.total))
    ensures summary.ece.Some? && Disjoint(ranges) ==>
              0.0 <= summary.ece.value && summary.ece.value * summary.ece.value <= summary.brier.value
  {
    if |predictions| == 0 {
      return Summary([], None, None, 0);
    }
    var valid := ValidPredictions(predictions);
    var total := |valid|;
    if total < minSamples {
      return Summary([], Some(Brier(valid)), None, total);
    }
    var results := [];
    var i := 0;
    while i < |ranges|
      invariant 0 <= i <= |ranges|
      invariant results == Buckets(valid, ranges[..i])
    {
      assert ranges[..i + 1][..i] == ranges[..i];
      results := results + [BucketOf(valid, ranges[i])];
      i := i + 1;
    }
    assert ranges[..|ranges|] == ranges;
    var ece := if total == 0 then 0.0 else Ece(results, total);
    if total > 0 && Disjoint(ranges) {
      EceWithinBrier(valid, ranges);
    }
    summary := Summary(results, Some(Brier(valid)), Some(ece), total);
  }
}
