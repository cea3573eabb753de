/** Deterministic aggregation of the committee's opinions (M3). */
module Committee {
  import opened Wrappers
  import opened Arithmetic

  datatype Role = QUANT | BULL | BEAR | REGIME

  datatype Stance = STRONG_LONG | LONG | NEUTRAL | SHORT | STRONG_SHORT | ABSTAIN

  datatype Opinion = Opinion(role: Role, stance: Stance, confidence: real)

  /** An agent's run; the role of the run and the role in its opinion are recorded separately. */
  datatype AgentResult = AgentResult(role: Role, success: bool, opinion: Option<Opinion>)

  datatype Severity = NONE | LOW | MEDIUM | HIGH

  datatype Verdict = PROPOSE_LONG | PROPOSE_SHORT | NO_TRADE

  datatype NoTradeReason = INSUFFICIENT_ANALYSIS | HIGH_DISAGREEMENT | LOW_CONVICTION | MIXED_EVIDENCE

  datatype Aggregation = Aggregation(verdict: Verdict, score: real, confidence: real, reason: Option<NoTradeReason>)

  const MIN_SUCCESSFUL_AGENTS: nat := 3
  const MIN_SUCCESSFUL_WEIGHT: real := 0.6

  function DefaultWeight(r: Role): real {
    match r
    case QUANT => 0.30
    case BULL => 0.25
    case BEAR => 0.25
    case REGIME => 0.20
  }

  function StanceValue(s: Stance): real {
    match s
    case STRONG_LONG => 2.0
    case LONG => 1.0
    case NEUTRAL => 0.0
    case SHORT => -1.0
    case STRONG_SHORT => -2.0
    case ABSTAIN => 0.0
  }

  function Penalty(disagreement: Option<Severity>): (p: real)
    ensures 0.70 <= p <= 1.0
  {
    match disagreement
    case None => 1.0
    case Some(NONE) => 1.0
    case Some(LOW) => 0.95
    case Some(MEDIUM) => 0.85
    case Some(HIGH) => 0.70
  }

  predicate Usable(r: AgentResult) {
    r.success && r.opinion.Some? && !r.opinion.value.stance.ABSTAIN?
  }

  // ---- What the loops add up ---------------------------------------------------------

  /** Sums over the usable results: how many, their weight, stance, confidence weight and confidence. */
  datatype Tally = Tally(count: nat, coverage: real, stance: real, weight: real, confidence: real)

  const NOTHING := Tally(0, 0.0, 0.0, 0.0, 0.0)

  function Plus(a: Tally, b: Tally): Tally {
    Tally(a.count + b.count, a.coverage + b.coverage, a.stance + b.stance, a.weight + b.weight,
          a.confidence + b.confidence)
  }

  /** The pull of an opinion: the weight of its role times its confidence. */
  function Pull(weight: real, confidence: real): real { weight * confidence }

  function Lean(stance: real, weight: real, confidence: real): real { stance * weight * confidence }

  function Contribution(r: AgentResult, weights: Role -> real): Tally {
    if !Usable(r) then NOTHING
    else
      var o := r.opinion.value;
      var w := weights(o.role);
      Tally(1, weights(r.role), Lean(StanceValue(o.stance), w, o.confidence), Pull(w, o.confidence), o.confidence)
  }

  function TallyOf(results: seq<AgentResult>, weights: Role -> real): Tally {
    if results == [] then NOTHING
    else Plus(TallyOf(results[..|results| - 1], weights), Contribution(results[|results| - 1], weights))
  }

  function Normalized(t: Tally): real {
    if t.weight > 0.0 then t.stance / t.weight else 0.0
  }

  function Clamped(x: real): real {
    if x <= 0.0 then 0.0 else if x >= 100.0 then 100.0 else x
  }

  function BaseScore(stance: real, penalty: real): real {
    (stance + 1.0) * 50.0 * penalty
  }

  function Score(stance: real, penalty: real): real {
    Clamped(BaseScore(stance, penalty))
  }

  function VerdictFor(score: real): Verdict {
    if score >= 60.0 then PROPOSE_LONG else if score <= 40.0 then PROPOSE_SHORT else NO_TRADE
  }

  function ReasonFor(disagreement: Option<Severity>, confidence: real): NoTradeReason {
    if disagreement == Some(HIGH) || disagreement == Some(MEDIUM) then HIGH_DISAGREEMENT
    else if confidence < 0.5 then LOW_CONVICTION
    else MIXED_EVIDENCE
  }

  const INSUFFICIENT := Aggregation(NO_TRADE, 0.0, 0.0, Some(INSUFFICIENT_ANALYSIS))

  predicate Quorum(t: Tally) {
    t.count >= MIN_SUCCESSFUL_AGENTS && t.coverage >= MIN_SUCCESSFUL_WEIGHT
  }

  /** The mean confidence after the penalty. */
  function Conviction(confidences: real, count: nat, penalty: real): real
    requires count > 0
  {
    confidences / count as real * penalty
  }

  function FromTally(t: Tally, disagreement: Option<Severity>): Aggregation {
    if !Quorum(t) then INSUFFICIENT
    else
      var p := Penalty(disagreement);
      var score := Score(Normalized(t), p);
      var confidence := Conviction(t.confidence, t.count, p);
      var verdict := VerdictFor(score);
      Aggregation(verdict, score, confidence,
                  if verdict == NO_TRADE then Some(ReasonFor(disagreement, confidence)) else None)
  }

  function Aggregate(results: seq<AgentResult>, weights: Role -> real, disagreement: Option<Severity>): Aggregation {
    FromTally(TallyOf(results, weights), disagreement)
  }

  // ---- The algorithm -----------------------------------------------------------------

  lemma TallySnoc(results: seq<AgentResult>, r: AgentResult, weights: Role -> real)
    ensures TallyOf(results + [r], weights) == Plus(TallyOf(results, weights), Contribution(r, weights))
  {
    assert (results + [r])[..|results|] == results;
  }

  method UsableResults(results: seq<AgentResult>, ghost weights: Role -> real) returns (valid: seq<AgentResult>)
    ensures forall r :: r in valid ==> Usable(r)
    ensures TallyOf(valid, weights) == TallyOf(results, weights)
    ensures |valid| == TallyOf(results, weights).count
  {
    valid := [];
    var i := 0;
    while i < |results|
      invariant 0 <= i <= |results|
      invariant forall r :: r in valid ==> Usable(r)
      invariant TallyOf(valid, weights) == TallyOf(results[..i], weights)
      invariant |valid| == TallyOf(valid, weights).count
    {
      assert results[..i + 1][..i] == results[..i];
      if Usable(results[i]) {
        TallySnoc(valid, results[i], weights);
        valid := valid + [results[i]];
      }
      i := i + 1;
    }
    assert results[..|results|] == results;
  }

  /** The accumulation loop over the usable opinions. */
  method SumOpinions(valid: seq<AgentResult>, weights: Role -> real)
    returns (coverage: real, weightedStance: real, confidenceWeight: real, confidences: real)
    requires forall r :: r in valid ==> Usable(r)
    ensures Tally(|valid|, coverage, weightedStance, confidenceWeight, confidences) == TallyOf(valid, weights)
  {
    coverage, weightedStance, confidenceWeight, confidences := 0.0, 0.0, 0.0, 0.0;
    assert TallyOf(valid[..0], weights) == NOTHING;
    hide TallyOf, StanceValue, Lean, Pull;
    var i := 0;
    while i < |valid|
      invariant 0 <= i <= |valid|
      invariant Tally(i, coverage, weightedStance, confidenceWeight, confidences) == TallyOf(valid[..i], weights)
    {
      assert valid[..i + 1] == valid[..i] + [valid[i]];
      TallySnoc(valid[..i], valid[i], weights);
      assert valid[i] in valid;
      var opinion := valid[i].opinion.value;
      var weight := weights(opinion.role);
      coverage := coverage + weights(valid[i].role);
      weightedStance := weightedStance + Lean(StanceValue(opinion.stance), weight, opinion.confidence);
      confidenceWeight := confidenceWeight + Pull(weight, opinion.confidence);
      confidences := confidences + opinion.confidence;
      i := i + 1;
    }
    assert valid[..|valid|] == valid;
  }

  method AggregateOpinions(results: seq<AgentResult>, weights: Role -> real, disagreement: Option<Severity>)
    returns (a: Aggregation)
    ensures a == Aggregate(results, weights, disagreement)
  {
    hide TallyOf, Score, Penalty, VerdictFor, ReasonFor, Conviction;
    var valid := UsableResults(results, weights);
    if |valid| < MIN_SUCCESSFUL_AGENTS {
      return INSUFFICIENT;
    }
    var coverage, weightedStance, confidenceWeight, confidences := SumOpinions(valid, weights);
    if coverage < MIN_SUCCESSFUL_WEIGHT {
      return INSUFFICIENT;
    }
    assert TallyOf(results, weights) == Tally(|valid|, coverage, weightedStance, confidenceWeight, confidences);
    var normalized := if confidenceWeight > 0.0 then weightedStance / confidenceWeight else 0.0;
    var penalty := Penalty(disagreement);
    var score := Score(normalized, penalty);
    var confidence := Conviction(confidences, |valid|, penalty);
    var verdict := VerdictFor(score);
    var reason := if verdict == NO_TRADE then Some(ReasonFor(disagreement, confidence)) else None;
    a := Aggregation(verdict, score, confidence, reason);
  }

  // ---- Order of the agents -----------------------------------------------------------

  lemma {:induction false} TallyRemoves(results: seq<AgentResult>, i: nat, weights: Role -> real)
    requires i < |results|
    ensures TallyOf(results, weights)
         == Plus(TallyOf(results[..i] + results[i + 1..], weights), Contribution(results[i], weights))
  {
    hide Contribution;
    var n := |results| - 1;
    if i < n {
      var front := results[..n];
      TallyRemoves(front, i, weights);
      assert front[..i] + front[i + 1..] + [results[n]] == results[..i] + results[i + 1..];
      TallySnoc(front[..i] + front[i + 1..], results[n], weights);
    } else {
      assert results[..i] + results[i + 1..] == results[..n];
    }
  }

  lemma {:induction false} TallyOrderIrrelevant(a: seq<AgentResult>, b: seq<AgentResult>, weights: Role -> real)
    requires multiset(a) == multiset(b)
    ensures TallyOf(a, weights) == TallyOf(b, weights)
  {
    hide Contribution, Plus;
    if a == [] {
      assert |multiset(b)| == 0;
    } else {
      var n := |a| - 1;
      assert a == a[..n] + [a[n]];
      assert a[n] in multiset(b);
      var i :| 0 <= i < |b| && b[i] == a[n];
      SplitMultiset(b, i);
      assert multiset(a[..n]) == multiset(a) - multiset{a[n]};
      TallyRemoves(b, i, weights);
      TallyOrderIrrelevant(a[..n], b[..i] + b[i + 1..], weights);
    }
  }

  lemma SplitMultiset(b: seq<AgentResult>, i: nat)
    requires i < |b|
    ensures multiset(b[..i] + b[i + 1..]) == multiset(b) - multiset{b[i]}
  {
    assert b == b[..i] + [b[i]] + b[i + 1..];
    assert multiset(b) == multiset(b[..i]) + multiset{b[i]} + multiset(b[i + 1..]);
  }

  /** Score, confidence, verdict and reason do not depend on the order in which agents report. */
  lemma OrderIrrelevant(a: seq<AgentResult>, b: seq<AgentResult>, weights: Role -> real, disagreement: Option<Severity>)
    requires multiset(a) == multiset(b)
    ensures Aggregate(a, weights, disagreement) == Aggregate(b, weights, disagreement)
  {
    TallyOrderIrrelevant(a, b, weights);
  }

  // ---- Ranges ---------------------------------------------------------------------------

  ghost predicate Confident(results: seq<AgentResult>) {
    forall r :: r in results && r.opinion.Some? ==> 0.0 <= r.opinion.value.confidence <= 1.0
  }

  ghost predicate NonNegative(weights: Role -> real) {
    forall r :: weights(r) >= 0.0
  }

  /** What holds of every tally of confident results. */
  ghost predicate Plausible(t: Tally) {
    && 0.0 <= t.confidence <= t.count as real && t.weight >= 0.0
    && -2.0 * t.weight <= t.stance <= 2.0 * t.weight
  }

  lemma ContributionRanges(r: AgentResult, weights: Role -> real)
    requires r.opinion.Some? ==> 0.0 <= r.opinion.value.confidence <= 1.0
    requires NonNegative(weights)
    ensures Plausible(Contribution(r, weights))
  {
    if Usable(r) {
      var o := r.opinion.value;
      var k, w := StanceValue(o.stance), weights(o.role);
      hide StanceValue;
      StanceTerm(k, w, o.confidence);
    }
  }

  lemma {:induction false} TallyRanges(results: seq<AgentResult>, weights: Role -> real)
    requires Confident(results) && NonNegative(weights)
    ensures Plausible(TallyOf(results, weights))
  {
    hide Contribution, NonNegative;
    if results != [] {
      var r := results[|results| - 1];
      TallyRanges(results[..|results| - 1], weights);
      assert r in results;
      ContributionRanges(r, weights);
    }
  }

  lemma StanceTerm(stance: real, weight: real, confidence: real)
    requires -2.0 <= stance <= 2.0 && weight >= 0.0 && confidence >= 0.0
    ensures weight * confidence >= 0.0
    ensures -2.0 * (weight * confidence) <= stance * weight * confidence <= 2.0 * (weight * confidence)
  {
    var k := weight * confidence;
    assert k >= 0.0;
    assert stance * weight * confidence == stance * k;
    TimesMonotone(stance, 2.0, k);
    TimesMonotone(-2.0, stance, k);
  }

  /** The score is a percentage, the confidence a probability, and the normalized stance between -2 and 2. */
  lemma AggregateRanges(results: seq<AgentResult>, weights: Role -> real, disagreement: Option<Severity>)
    requires Confident(results) && NonNegative(weights)
    ensures var a := Aggregate(results, weights, disagreement);
            0.0 <= a.score <= 100.0 && 0.0 <= a.confidence <= 1.0
    ensures -2.0 <= Normalized(TallyOf(results, weights)) <= 2.0
  {
    hide TallyOf, BaseScore, Normalized, NonNegative;
    TallyRanges(results, weights);
    var t := TallyOf(results, weights);
    StanceRange(t);
    if Quorum(t) {
      MeanConfidence(t.confidence, t.count as real, Penalty(disagreement));
    }
  }

  lemma StanceRange(t: Tally)
    requires -2.0 * t.weight <= t.stance <= 2.0 * t.weight
    ensures -2.0 <= Normalized(t) <= 2.0
  {
    if t.weight > 0.0 {
      QuotientMonotone(t.stance, 2.0 * t.weight, t.weight);
      QuotientMonotone(-2.0 * t.weight, t.stance, t.weight);
    }
  }

  lemma MeanConfidence(sum: real, n: real, p: real)
    requires n > 0.0 && 0.0 <= sum <= n && 0.0 <= p <= 1.0
    ensures 0.0 <= sum / n * p <= 1.0
  {
    QuotientMonotone(sum, n, n);
    QuotientMonotone(0.0, sum, n);
    ProductMonotone(sum / n, 1.0, p, 1.0);
  }

  // ---- Thresholds -----------------------------------------------------------------------

  /** With a quorum the verdict is long from a stance of 1.2/p - 1 and short up to 0.8/p - 1. */
  lemma VerdictThresholds(t: Tally, disagreement: Option<Severity>)
    requires Quorum(t)
    ensures var a := FromTally(t, disagreement); var n, p := Normalized(t), Penalty(disagreement);
            && (a.verdict == PROPOSE_LONG <==> n >= 1.2 / p - 1.0)
            && (a.verdict == PROPOSE_SHORT <==> n <= 0.8 / p - 1.0)
            && (a.verdict == NO_TRADE <==> a.reason.Some?)
  {
    ScoreThreshold(Normalized(t), Penalty(disagreement), 1.2);
    ScoreThreshold(Normalized(t), Penalty(disagreement), 0.8);
  }

  /** The lean each severity of disagreement asks for: 0.2 either way without any; 5/19 for a long and -3/19 for a
      short under LOW, 7/17 and -1/17 under MEDIUM, 5/7 and even +1/7 under HIGH. */
  lemma LeanNeeded(t: Tally, disagreement: Option<Severity>)
    requires Quorum(t)
    ensures var v, n := FromTally(t, disagreement).verdict, Normalized(t);
            match disagreement
            case Some(LOW) => (v == PROPOSE_LONG <==> 19.0 * n >= 5.0) && (v == PROPOSE_SHORT <==> 19.0 * n <= -3.0)
            case Some(MEDIUM) => (v == PROPOSE_LONG <==> 17.0 * n >= 7.0) && (v == PROPOSE_SHORT <==> 17.0 * n <= -1.0)
            case Some(HIGH) => (v == PROPOSE_LONG <==> 7.0 * n >= 5.0) && (v == PROPOSE_SHORT <==> 7.0 * n <= 1.0)
            case _ => (v == PROPOSE_LONG <==> n >= 0.2) && (v == PROPOSE_SHORT <==> n <= -0.2)
  {
    hide Normalized, Conviction;
  }

  /** Why nothing is traded: too few opinions, disagreement, too little confidence, or else mixed evidence. */
  lemma NoTradeReasonIff(t: Tally, disagreement: Option<Severity>)
    requires FromTally(t, disagreement).verdict == NO_TRADE
    ensures var a := FromTally(t, disagreement);
            && (a.reason == Some(INSUFFICIENT_ANALYSIS) <==> t.count < 3 || t.coverage < 0.6)
            && (Quorum(t) ==>
                  && (a.reason == Some(HIGH_DISAGREEMENT) <==> disagreement in {Some(MEDIUM), Some(HIGH)})
                  && (a.reason == Some(LOW_CONVICTION) <==>
                        disagreement !in {Some(MEDIUM), Some(HIGH)} && a.confidence < 0.5))
  {
    hide Normalized, Conviction, Score;
  }

  ghost predicate Uniform(t: Tally, confidence: real) {
    t.confidence == t.count as real * confidence
  }

  lemma UniformPlus(t: Tally, u: Tally, confidence: real)
    requires Uniform(t, confidence) && Uniform(u, confidence)
    ensures Uniform(Plus(t, u), confidence)
  {
    var m, n := t.count as real, u.count as real;
    assert (m + n) * confidence == m * confidence + n * confidence;
    assert (t.count + u.count) as real == m + n;
  }

  lemma {:induction false} ConfidencesAddUp(results: seq<AgentResult>, weights: Role -> real, confidence: real)
    requires forall r :: r in results && Usable(r) ==> r.opinion.value.confidence == confidence
    ensures Uniform(TallyOf(results, weights), confidence)
  {
    if results != [] {
      var front, r := results[..|results| - 1], results[|results| - 1];
      assert results == front + [r] && r in results;
      ConfidencesAddUp(front, weights, confidence);
      assert Uniform(Contribution(r, weights), confidence);
      UniformPlus(TallyOf(front, weights), Contribution(r, weights), confidence);
      hide Uniform, Contribution, Plus;
    }
  }

  /** Agents of one confidence make a committee of that confidence, less the penalty. */
  lemma CommonConfidence(results: seq<AgentResult>, weights: Role -> real, disagreement: Option<Severity>,
                         confidence: real)
    requires forall r :: r in results && Usable(r) ==> r.opinion.value.confidence == confidence
    requires Quorum(TallyOf(results, weights))
    ensures Aggregate(results, weights, disagreement).confidence == confidence * Penalty(disagreement)
  {
    ConfidencesAddUp(results, weights, confidence);
    var t := TallyOf(results, weights);
    MeanOfUniform(t, confidence, Penalty(disagreement));
    hide TallyOf, Score, Penalty, Normalized, Conviction, Uniform;
  }

  lemma MeanOfUniform(t: Tally, confidence: real, penalty: real)
    requires t.count > 0 && Uniform(t, confidence)
    ensures Conviction(t.confidence, t.count, penalty) == confidence * penalty
  {
    var n := t.count as real;
    assert confidence * n == n * confidence;
    ProductQuotient(confidence, n);
    assert t.confidence / n == confidence;
  }

  lemma ScoreThreshold(n: real, p: real, k: real)
    requires p > 0.0 && 0.0 < k < 2.0
    ensures Score(n, p) >= 50.0 * k <==> n >= k / p - 1.0
    ensures Score(n, p) <= 50.0 * k <==> n <= k / p - 1.0
  {
    BaseThreshold(n, p, k / p);
    QuotientTimes(k, p);
    hide BaseScore;
  }

  /** The score of a stance against the score of the level's own stance. */
  lemma BaseThreshold(n: real, p: real, level: real)
    requires p > 0.0
    ensures BaseScore(n, p) >= 50.0 * (level * p) <==> n + 1.0 >= level
    ensures BaseScore(n, p) <= 50.0 * (level * p) <==> n + 1.0 <= level
  {
    var distance := n + 1.0 - level;
    assert BaseScore(n, p) - 50.0 * (level * p) == 50.0 * (distance * p);
    SignOfProduct(distance, p);
    hide BaseScore;
  }

  lemma SignOfProduct(x: real, p: real)
    requires p > 0.0
    ensures x * p >= 0.0 <==> x >= 0.0
    ensures x * p <= 0.0 <==> x <= 0.0
  {
  }

  /** A committee without any directional lean is proposed short exactly under high disagreement: the
      penalty scales the score towards zero, which is the short end. */
  lemma NeutralIsShortUnderHighDisagreement(t: Tally, disagreement: Option<Severity>)
    requires Quorum(t) && Normalized(t) == 0.0
    ensures FromTally(t, disagreement).verdict == if disagreement == Some(HIGH) then PROPOSE_SHORT else NO_TRADE
  {
    assert Score(0.0, Penalty(disagreement)) == 50.0 * Penalty(disagreement);
  }

  // ---- Symmetry and monotonicity ----------------------------------------------------------

  function Opposite(s: Stance): Stance {
    match s
    case STRONG_LONG => STRONG_SHORT
    case LONG => SHORT
    case NEUTRAL => NEUTRAL
    case SHORT => LONG
    case STRONG_SHORT => STRONG_LONG
    case ABSTAIN => ABSTAIN
  }

  function WithStance(r: AgentResult, s: Stance): AgentResult
    requires r.opinion.Some?
  {
    r.(opinion := Some(r.opinion.value.(stance := s)))
  }

  function Negated(r: AgentResult): AgentResult {
    if r.opinion.None? then r else WithStance(r, Opposite(r.opinion.value.stance))
  }

  function AllNegated(results: seq<AgentResult>): seq<AgentResult> {
    if results == [] then [] else AllNegated(results[..|results| - 1]) + [Negated(results[|results| - 1])]
  }

  function VerdictMirror(v: Verdict): Verdict {
    match v
    case PROPOSE_LONG => PROPOSE_SHORT
    case PROPOSE_SHORT => PROPOSE_LONG
    case NO_TRADE => NO_TRADE
  }

  lemma NegatedContribution(r: AgentResult, weights: Role -> real)
    ensures var c := Contribution(r, weights); Contribution(Negated(r), weights) == c.(stance := -c.stance)
  {
    if Usable(r) {
      var o := r.opinion.value;
      var k, w := StanceValue(o.stance), weights(o.role);
      assert StanceValue(Opposite(o.stance)) == -k;
      hide StanceValue, Opposite;
      NegatedTerm(k, w, o.confidence);
    }
  }

  lemma {:induction false} NegatedTally(results: seq<AgentResult>, weights: Role -> real)
    ensures var t := TallyOf(results, weights); TallyOf(AllNegated(results), weights) == t.(stance := -t.stance)
  {
    hide Contribution, Negated;
    if results != [] {
      var front, r := results[..|results| - 1], results[|results| - 1];
      NegatedTally(front, weights);
      TallySnoc(AllNegated(front), Negated(r), weights);
      NegatedContribution(r, weights);
    }
  }

  lemma NegatedTerm(s: real, w: real, c: real)
    ensures -s * w * c == -(s * w * c)
  {
  }

  /** Without a penalty, turning every stance around mirrors the score about 50 and swaps long and short. */
  lemma NegationMirrors(results: seq<AgentResult>, weights: Role -> real, disagreement: Option<Severity>)
    requires Quorum(TallyOf(results, weights)) && Penalty(disagreement) == 1.0
    ensures var a := Aggregate(results, weights, disagreement);
            var b := Aggregate(AllNegated(results), weights, disagreement);
            b.score == 100.0 - a.score && b.verdict == VerdictMirror(a.verdict) && b.confidence == a.confidence
  {
    hide TallyOf, Score, Normalized;
    NegatedTally(results, weights);
    var t := TallyOf(results, weights);
    NormalizedMirror(t);
    ScoreMirror(Normalized(t));
  }

  lemma NormalizedMirror(t: Tally)
    ensures Normalized(t.(stance := -t.stance)) == -Normalized(t)
  {
    if t.weight > 0.0 {
      assert -t.stance / t.weight == -(t.stance / t.weight);
    }
  }

  lemma ScoreMirror(n: real)
    ensures Score(-n, 1.0) == 100.0 - Score(n, 1.0)
  {
  }

  /** Raising one agent's stance never lowers the score. */
  lemma StanceMonotone(results: seq<AgentResult>, i: nat, s: Stance, weights: Role -> real,
                       disagreement: Option<Severity>)
    requires Confident(results) && NonNegative(weights) && i < |results| && Usable(results[i]) && !s.ABSTAIN?
    requires StanceValue(results[i].opinion.value.stance) <= StanceValue(s)
    ensures Aggregate(results, weights, disagreement).score
         <= Aggregate(results[i := WithStance(results[i], s)], weights, disagreement).score
  {
    hide Contribution, TallyOf, Score, Normalized;
    var raised := results[i := WithStance(results[i], s)];
    assert results[i] in results;
    TallyRemoves(results, i, weights);
    TallyRemoves(raised, i, weights);
    assert raised[..i] + raised[i + 1..] == results[..i] + results[i + 1..];
    RaisedContribution(results[i], s, weights);
    TallyRanges(results, weights);
    NormalizedMonotone(TallyOf(results, weights), TallyOf(raised, weights));
    ScoreMonotone(Normalized(TallyOf(results, weights)), Normalized(TallyOf(raised, weights)), Penalty(disagreement));
    BaseScoreIsBounded(Normalized(TallyOf(raised, weights)), Penalty(disagreement));
  }

  lemma BaseScoreIsBounded(n: real, p: real)
    ensures 0.0 <= Score(n, p) <= 100.0
  {
  }

  lemma NormalizedMonotone(t: Tally, u: Tally)
    requires u == t.(stance := u.stance) && t.stance <= u.stance
    ensures Normalized(t) <= Normalized(u)
  {
    if t.weight > 0.0 {
      QuotientMonotone(t.stance, u.stance, t.weight);
    }
  }

  lemma RaisedContribution(r: AgentResult, s: Stance, weights: Role -> real)
    requires Usable(r) && !s.ABSTAIN? && StanceValue(r.opinion.value.stance) <= StanceValue(s)
    requires r.opinion.value.confidence >= 0.0 && NonNegative(weights)
    ensures var c, d := Contribution(r, weights), Contribution(WithStance(r, s), weights);
            d == c.(stance := d.stance) && c.stance <= d.stance
  {
    var o := r.opinion.value;
    var low, high, w := StanceValue(o.stance), StanceValue(s), weights(o.role);
    hide StanceValue;
    TermMonotone(low, high, w, o.confidence);
  }

  lemma TermMonotone(low: real, high: real, w: real, c: real)
    requires low <= high && w >= 0.0 && c >= 0.0
    ensures low * w * c <= high * w * c
  {
    TimesMonotone(low, high, w);
    TimesMonotone(low * w, high * w, c);
  }

  lemma ScoreMonotone(n: real, m: real, p: real)
    requires n <= m && p >= 0.0
    ensures Score(n, p) <= Score(m, p)
  {
    hide BaseScore;
    BaseScoreMonotone(n, m, p);
  }

  lemma BaseScoreMonotone(n: real, m: real, p: real)
    requires n <= m && p >= 0.0
    ensures BaseScore(n, p) <= BaseScore(m, p)
  {
    TimesMonotone((n + 1.0) * 50.0, (m + 1.0) * 50.0, p);
  }

  // ---- What confidence and weight do ---------------------------------------------------------

  function WithConfidence(r: AgentResult, confidence: real): AgentResult
    requires r.opinion.Some?
  {
    r.(opinion := Some(r.opinion.value.(confidence := confidence)))
  }

  function PullOf(r: AgentResult, weights: Role -> real): real
    requires r.opinion.Some?
  {
    Pull(weights(r.opinion.value.role), r.opinion.value.confidence)
  }

  lemma ReplacedTally(results: seq<AgentResult>, i: nat, r: AgentResult, weights: Role -> real)
    requires i < |results|
    ensures var rest := TallyOf(results[..i] + results[i + 1..], weights);
            && TallyOf(results, weights) == Plus(rest, Contribution(results[i], weights))
            && TallyOf(results[i := r], weights) == Plus(rest, Contribution(r, weights))
  {
    hide Contribution, Plus, TallyOf;
    TallyRemoves(results, i, weights);
    TallyRemoves(results[i := r], i, weights);
    assert results[i := r][..i] + results[i := r][i + 1..] == results[..i] + results[i + 1..];
  }

  /** The stance of an agent without confidence, or of a role without weight, is of no consequence at all. */
  lemma StanceWithoutPullIsIgnored(results: seq<AgentResult>, i: nat, s: Stance, weights: Role -> real,
                                   disagreement: Option<Severity>)
    requires i < |results| && Usable(results[i]) && !s.ABSTAIN? && PullOf(results[i], weights) == 0.0
    ensures Aggregate(results[i := WithStance(results[i], s)], weights, disagreement)
         == Aggregate(results, weights, disagreement)
  {
    ReplacedTally(results, i, WithStance(results[i], s), weights);
    var o := results[i].opinion.value;
    NoLean(StanceValue(o.stance), weights(o.role), o.confidence);
    NoLean(StanceValue(s), weights(o.role), o.confidence);
    hide TallyOf, FromTally, StanceValue, Lean, Pull;
    assert Contribution(results[i], weights) == Contribution(WithStance(results[i], s), weights);
  }

  lemma NoLean(stance: real, weight: real, confidence: real)
    requires Pull(weight, confidence) == 0.0
    ensures Lean(stance, weight, confidence) == 0.0
  {
  }

  /** A pull towards `s` moves a weighted mean towards it. */
  lemma MeanMoves(stance: real, weight: real, s: real, more: real)
    requires weight >= 0.0 && more >= 0.0 && -2.0 * weight <= stance <= 2.0 * weight
    ensures var before := if weight > 0.0 then stance / weight else 0.0;
            var after := if weight + more > 0.0 then (stance + s * more) / (weight + more) else 0.0;
            && (s >= before ==> before <= after <= s || more == 0.0)
            && (s <= before ==> s <= after <= before || more == 0.0)
            && (more == 0.0 ==> after == before)
  {
    NothingMoves(s);
    if more > 0.0 {
      var before := if weight > 0.0 then stance / weight else 0.0;
      assert before * weight == stance;
      var total := weight + more;
      var sum := stance + s * more;
      MeanBetween(before, weight, s, more, sum, total);
    } else {
      assert s * more == s * 0.0;
    }
  }

  lemma NothingMoves(s: real)
    ensures s * 0.0 == 0.0
  {
  }

  lemma QuotientBetween(x: real, low: real, high: real, d: real)
    requires d > 0.0 && low * d <= x <= high * d
    ensures low <= x / d <= high
  {
    ProductQuotient(low, d);
    ProductQuotient(high, d);
    QuotientMonotone(low * d, x, d);
    QuotientMonotone(x, high * d, d);
  }

  lemma MixBetween(low: real, high: real, k: real, m: real)
    requires low <= high && k >= 0.0 && m >= 0.0
    ensures low * (k + m) <= low * k + high * m <= high * (k + m)
  {
    TimesMonotone(low, high, k);
    TimesMonotone(low, high, m);
  }

  lemma MeanBetween(before: real, weight: real, s: real, more: real, sum: real, total: real)
    requires weight >= 0.0 && more > 0.0 && total == weight + more && sum == before * weight + s * more
    ensures s >= before ==> before <= sum / total <= s
    ensures s <= before ==> s <= sum / total <= before
  {
    if s >= before {
      MixBetween(before, s, weight, more);
      QuotientBetween(sum, before, s, total);
    }
    if s <= before {
      MixBetween(s, before, more, weight);
      QuotientBetween(sum, s, before, total);
    }
  }

  lemma LeanGrows(stance: real, weight: real, low: real, high: real)
    requires weight >= 0.0 && low <= high
    ensures var more := Pull(weight, high) - Pull(weight, low);
            more >= 0.0 && Lean(stance, weight, high) == Lean(stance, weight, low) + stance * more
  {
    TimesMonotone(low, high, weight);
    var a, b := weight * low, weight * high;
    assert Lean(stance, weight, low) == stance * a && Lean(stance, weight, high) == stance * b;
    assert stance * b == stance * a + stance * (b - a);
  }

  /** The tally after `more` pull towards a stance. */
  ghost predicate Moved(t: Tally, u: Tally, stance: real, more: real) {
    && u.weight == t.weight + more && u.stance == t.stance + stance * more
    && u.count == t.count && u.coverage == t.coverage
  }

  lemma MovedPlus(rest: Tally, t: Tally, u: Tally, stance: real, more: real)
    requires Moved(t, u, stance, more)
    ensures Moved(Plus(rest, t), Plus(rest, u), stance, more)
  {
  }

  lemma ContributionMoves(r: AgentResult, confidence: real, weights: Role -> real) returns (more: real)
    requires NonNegative(weights) && Usable(r) && r.opinion.value.confidence <= confidence
    ensures more >= 0.0
    ensures Moved(Contribution(r, weights), Contribution(WithConfidence(r, confidence), weights),
                  StanceValue(r.opinion.value.stance), more)
  {
    var o := r.opinion.value;
    LeanGrows(StanceValue(o.stance), weights(o.role), o.confidence, confidence);
    hide StanceValue, Lean, Pull;
    more := Pull(weights(o.role), confidence) - Pull(weights(o.role), o.confidence);
  }

  lemma MoreConfident(results: seq<AgentResult>, i: nat, confidence: real, weights: Role -> real)
    returns (more: real)
    requires NonNegative(weights) && i < |results| && Usable(results[i])
    requires results[i].opinion.value.confidence <= confidence
    ensures more >= 0.0
    ensures Moved(TallyOf(results, weights), TallyOf(results[i := WithConfidence(results[i], confidence)], weights),
                  StanceValue(results[i].opinion.value.stance), more)
  {
    var r, q := results[i], WithConfidence(results[i], confidence);
    ReplacedTally(results, i, q, weights);
    more := ContributionMoves(r, confidence, weights);
    hide Contribution, Plus, TallyOf, StanceValue, Moved, NonNegative;
    var rest := TallyOf(results[..i] + results[i + 1..], weights);
    MovedPlus(rest, Contribution(r, weights), Contribution(q, weights), StanceValue(r.opinion.value.stance), more);
  }

  /** The more confident an agent is, the further the score lies towards its stance: raising the confidence of an
      agent above the mean stance never lowers the score, of one below it never raises it. */
  lemma ConfidenceMovesTheScore(results: seq<AgentResult>, i: nat, confidence: real, weights: Role -> real,
                                disagreement: Option<Severity>)
    requires Confident(results) && NonNegative(weights) && i < |results| && Usable(results[i])
    requires results[i].opinion.value.confidence <= confidence
    ensures var raised := results[i := WithConfidence(results[i], confidence)];
            var before := Aggregate(results, weights, disagreement).score;
            var after := Aggregate(raised, weights, disagreement).score;
            var stance, mean := StanceValue(results[i].opinion.value.stance), Normalized(TallyOf(results, weights));
            && (stance >= mean ==> after >= before) && (stance <= mean ==> after <= before)
  {
    var more := MoreConfident(results, i, confidence, weights);
    TallyRanges(results, weights);
    hide TallyOf, StanceValue, Confident, NonNegative, Usable, Moved, Plausible, Score, Penalty, Normalized, Conviction;
    var t := TallyOf(results, weights);
    var u := TallyOf(results[i := WithConfidence(results[i], confidence)], weights);
    ScoreMoves(t, u, StanceValue(results[i].opinion.value.stance), more, disagreement);
  }

  lemma ScoreMoves(t: Tally, u: Tally, stance: real, more: real, disagreement: Option<Severity>)
    requires Plausible(t) && Moved(t, u, stance, more) && more >= 0.0
    ensures stance >= Normalized(t) ==> FromTally(u, disagreement).score >= FromTally(t, disagreement).score
    ensures stance <= Normalized(t) ==> FromTally(u, disagreement).score <= FromTally(t, disagreement).score
  {
    MeanMoves(t.stance, t.weight, stance, more);
    assert Normalized(u) == if t.weight + more > 0.0 then (t.stance + stance * more) / (t.weight + more) else 0.0;
    var p := Penalty(disagreement);
    if stance >= Normalized(t) { ScoreMonotone(Normalized(t), Normalized(u), p); }
    if stance <= Normalized(t) { ScoreMonotone(Normalized(u), Normalized(t), p); }
    hide Score, Penalty, Normalized, Conviction;
  }

  ghost predicate StancesWithin(results: seq<AgentResult>, low: real, high: real) {
    forall r :: r in results && Usable(r) ==> low <= StanceValue(r.opinion.value.stance) <= high
  }

  ghost predicate MeanIn(t: Tally, low: real, high: real) {
    low * t.weight <= t.stance <= high * t.weight
  }

  lemma MeanInPlus(t: Tally, u: Tally, low: real, high: real)
    requires MeanIn(t, low, high) && MeanIn(u, low, high)
    ensures MeanIn(Plus(t, u), low, high)
  {
    assert low * (t.weight + u.weight) == low * t.weight + low * u.weight;
    assert high * (t.weight + u.weight) == high * t.weight + high * u.weight;
  }

  lemma LeanWithin(stance: real, weight: real, confidence: real, low: real, high: real)
    requires low <= stance <= high && weight >= 0.0 && confidence >= 0.0
    ensures low * Pull(weight, confidence) <= Lean(stance, weight, confidence) <= high * Pull(weight, confidence)
  {
    var pull := weight * confidence;
    assert pull >= 0.0;
    assert Lean(stance, weight, confidence) == stance * pull;
    TimesMonotone(low, stance, pull);
    TimesMonotone(stance, high, pull);
  }

  lemma ContributionWithin(r: AgentResult, weights: Role -> real, low: real, high: real)
    requires NonNegative(weights)
    requires Usable(r) ==> low <= StanceValue(r.opinion.value.stance) <= high && r.opinion.value.confidence >= 0.0
    ensures MeanIn(Contribution(r, weights), low, high)
  {
    if Usable(r) {
      var o := r.opinion.value;
      LeanWithin(StanceValue(o.stance), weights(o.role), o.confidence, low, high);
    }
    hide StanceValue, Lean, Pull;
  }

  lemma {:induction false} TallyWithin(results: seq<AgentResult>, weights: Role -> real, low: real, high: real)
    requires Confident(results) && NonNegative(weights) && StancesWithin(results, low, high)
    ensures MeanIn(TallyOf(results, weights), low, high)
  {
    if results != [] {
      var front, r := results[..|results| - 1], results[|results| - 1];
      assert results == front + [r] && r in results;
      TallyWithin(front, weights, low, high);
      ContributionWithin(r, weights, low, high);
      MeanInPlus(TallyOf(front, weights), Contribution(r, weights), low, high);
      hide MeanIn, Contribution, Plus, StanceValue;
    }
  }

  /** The mean stance lies between the lowest and the highest stance that was given. In particular it is the common
      stance of a unanimous committee, whatever its confidences. */
  lemma MeanWithinStances(results: seq<AgentResult>, weights: Role -> real, low: real, high: real)
    requires Confident(results) && NonNegative(weights) && StancesWithin(results, low, high)
    requires TallyOf(results, weights).weight > 0.0
    ensures low <= Normalized(TallyOf(results, weights)) <= high
  {
    TallyWithin(results, weights, low, high);
    hide TallyOf, Confident, NonNegative, StancesWithin;
    var t := TallyOf(results, weights);
    QuotientBetween(t.stance, low, high, t.weight);
  }

  // ---- The weight gate ----------------------------------------------------------------------

  ghost predicate DistinctRoles(results: seq<AgentResult>) {
    forall i, j :: 0 <= i < j < |results| ==> results[i].role != results[j].role
  }

  function UsableIn(results: seq<AgentResult>, role: Role): nat {
    if results == [] then 0
    else UsableIn(results[..|results| - 1], role)
         + (if Usable(results[|results| - 1]) && results[|results| - 1].role == role then 1 else 0)
  }

  lemma {:induction false} CoverageByRole(results: seq<AgentResult>)
    ensures var t := TallyOf(results, DefaultWeight);
            var q, b := UsableIn(results, QUANT), UsableIn(results, BULL);
            var e, r := UsableIn(results, BEAR), UsableIn(results, REGIME);
            && t.count == q + b + e + r
            && t.coverage == 0.30 * q as real + 0.25 * b as real + 0.25 * e as real + 0.20 * r as real
  {
    if results != [] {
      CoverageByRole(results[..|results| - 1]);
    }
  }

  lemma {:induction false} OnePerRole(results: seq<AgentResult>, role: Role)
    requires DistinctRoles(results)
    ensures UsableIn(results, role) <= 1
    ensures UsableIn(results, role) == 1 ==> exists i :: 0 <= i < |results| && results[i].role == role
  {
    if results != [] {
      var front := results[..|results| - 1];
      OnePerRole(front, role);
      if UsableIn(front, role) == 1 {
        var i :| 0 <= i < |front| && front[i].role == role;
        assert results[i].role == role;
      }
    }
  }

  /** With the default weights and one run per role, enough agents always carry enough weight: the second
      gate never rejects what the first lets through. */
  lemma WeightGateNeverFires(results: seq<AgentResult>)
    requires DistinctRoles(results)
    ensures var t := TallyOf(results, DefaultWeight);
            t.count >= MIN_SUCCESSFUL_AGENTS ==> t.coverage >= 0.70 && Quorum(t)
  {
    CoverageByRole(results);
    OnePerRole(results, QUANT);
    OnePerRole(results, BULL);
    OnePerRole(results, BEAR);
    OnePerRole(results, REGIME);
  }
}
