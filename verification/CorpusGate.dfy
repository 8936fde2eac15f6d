/** The certification gates over the scoring counters, in exact arithmetic. */
module CorpusGate {
  import opened Common
  import opened CorpusMatcher
  import opened CorpusScoring
  import opened CorpusValidation

  function Ratio(numerator: real, denominator: real): real {
    if denominator == 0.0 then 0.0 else numerator / denominator
  }

  function Rate(t: Tally): real {
    Ratio(t.correct as real, t.total as real)
  }

  function Precision(s: Score): real {
    Ratio(s.tp as real, (s.tp + s.fp) as real)
  }

  function Recall(s: Score): real {
    Ratio(s.tp as real, (s.tp + s.fn) as real)
  }

  function F1(s: Score): real {
    Ratio(2.0 * Precision(s) * Recall(s), Precision(s) + Recall(s))
  }

  predicate CriticalFalsePositive(r: CaseResult) {
    r.verdict == FP && r.severity == Some(CRITICAL)
  }

  /** `INITIAL_GATES` and the critical-false-positive gate, all passed. */
  predicate Certified(s: Score, results: seq<CaseResult>, reviewed: nat, positives: nat, negatives: nat) {
    && reviewed >= 100 && positives >= 30 && negatives >= 50
    && Precision(s) >= 0.98 && s.fp <= 1 && Recall(s) >= 0.85
    && Rate(s.numeric) >= 0.98 && Rate(s.fields.metric) >= 0.98 && Rate(s.fields.period) >= 0.95
    && Rate(s.fields.unit) >= 0.98 && Rate(s.fields.currency) >= 0.98
    && forall r | r in results :: !CriticalFalsePositive(r)
  }

  // ---- Fractions as integers -------------------------------------------------------------------

  lemma {:induction false} MulPositive(x: real, y: real, d: real)
    requires d > 0.0
    ensures x >= y <==> x * d >= y * d
  {
    if x >= y {
      assert (x - y) * d >= 0.0;
    } else {
      assert (y - x) * d > 0.0;
    }
  }

  /** A percentage threshold on a ratio of counts, cross-multiplied. */
  lemma {:induction false} RatioAtLeast(n: nat, d: nat, percent: nat)
    requires percent > 0
    ensures Ratio(n as real, d as real) >= (percent as real) / 100.0 <==> d > 0 && 100 * n >= percent * d
  {
    if d > 0 {
      var q := (n as real) / (d as real);
      assert q * (d as real) == n as real;
      MulPositive(q, (percent as real) / 100.0, 100.0 * (d as real));
      assert q * (100.0 * (d as real)) == 100.0 * (n as real);
      assert ((percent as real) / 100.0) * (100.0 * (d as real)) == (percent as real) * (d as real);
      assert (100 * n) as real == 100.0 * (n as real);
      assert (percent * d) as real == (percent as real) * (d as real);
    }
  }

  /** F1 is the harmonic mean of precision and recall, under the zero conventions. */
  lemma {:induction false} F1Identity(s: Score)
    ensures F1(s) == Ratio((2 * s.tp) as real, (2 * s.tp + s.fp + s.fn) as real)
  {
    if s.tp > 0 {
      var t, p, q := s.tp as real, (s.tp + s.fp) as real, (s.tp + s.fn) as real;
      HarmonicMean(t, p, q);
      assert (2 * s.tp + s.fp + s.fn) as real == p + q;
      assert (2 * s.tp) as real == 2.0 * t;
    } else {
      assert Precision(s) == 0.0 && Recall(s) == 0.0;
    }
  }

  lemma {:induction false} HarmonicMean(t: real, p: real, q: real)
    requires t > 0.0 && p > 0.0 && q > 0.0
    ensures t / p + t / q > 0.0
    ensures (2.0 * (t / p) * (t / q)) / (t / p + t / q) == (2.0 * t) / (p + q)
  {
    var a, b := t / p, t / q;
    assert a > 0.0 && b > 0.0;
    assert a * p == t && b * q == t;
    var f := (2.0 * t) / (p + q);
    assert f * (p + q) == 2.0 * t;
    assert f * (a + b) == 2.0 * a * b by {
      assert (a + b) * (p * q) == t * (p + q) by {
        assert (a + b) * (p * q) == (a * p) * q + (b * q) * p;
      }
      assert (2.0 * a * b) * (p * q) == 2.0 * (a * p) * (b * q);
      assert (f * (a + b)) * (p * q) == f * ((a + b) * (p * q));
      assert f * (t * (p + q)) == t * (f * (p + q));
      CancelRight(f * (a + b), 2.0 * a * b, p * q);
    }
    DivideBy(f, a + b, 2.0 * a * b);
  }

  lemma {:induction false} CancelRight(x: real, y: real, z: real)
    requires z > 0.0 && x * z == y * z
    ensures x == y
  {
    assert (x - y) * z == 0.0;
  }

  lemma {:induction false} DivideBy(f: real, d: real, n: real)
    requires d > 0.0 && f * d == n
    ensures n / d == f
  {
    assert (n / d) * d == n;
    CancelRight(n / d, f, d);
  }

  // ---- What a certificate means ----------------------------------------------------------------

  /** The gates as integer conditions on the counters. */
  ghost predicate IntegerGates(s: Score, results: seq<CaseResult>, reviewed: nat, positives: nat, negatives: nat) {
    && reviewed >= 100 && positives >= 30 && negatives >= 50
    && s.fp <= 1 && s.tp >= 1 && 100 * s.tp >= 98 * (s.tp + s.fp) && 100 * s.tp >= 85 * (s.tp + s.fn)
    && s.numeric.total > 0 && 100 * s.numeric.correct >= 98 * s.numeric.total
    && s.fields.metric.total > 0 && 100 * s.fields.metric.correct >= 98 * s.fields.metric.total
    && s.fields.period.total > 0 && 100 * s.fields.period.correct >= 95 * s.fields.period.total
    && s.fields.unit.total > 0 && 100 * s.fields.unit.correct >= 98 * s.fields.unit.total
    && s.fields.currency.total > 0 && 100 * s.fields.currency.correct >= 98 * s.fields.currency.total
    && forall r | r in results :: !CriticalFalsePositive(r)
  }

  lemma {:induction false} GatesExactly(s: Score, results: seq<CaseResult>, reviewed: nat, positives: nat, negatives: nat)
    ensures Certified(s, results, reviewed, positives, negatives) <==> IntegerGates(s, results, reviewed, positives, negatives)
  {
    RatioAtLeast(s.tp, s.tp + s.fp, 98);
    RatioAtLeast(s.tp, s.tp + s.fn, 85);
    RatioAtLeast(s.numeric.correct, s.numeric.total, 98);
    RatioAtLeast(s.fields.metric.correct, s.fields.metric.total, 98);
    RatioAtLeast(s.fields.period.correct, s.fields.period.total, 95);
    RatioAtLeast(s.fields.unit.correct, s.fields.unit.total, 98);
    RatioAtLeast(s.fields.currency.correct, s.fields.currency.total, 98);
  }

  datatype Outcome = Rejected | Report(score: Score, results: seq<CaseResult>, certified: bool)

  /** The corpus certifies exactly by the integer gates on its specified score. */
  ghost predicate Reports(r: Outcome, cases: seq<Case>) {
    && r.Report? && r.score == ScoreAll(Scored(cases)) && r.results == Results(Scored(cases))
    && var scored := Scored(cases);
    r.certified == IntegerGates(r.score, r.results, |scored|, Labelled(scored, Positive), Labelled(scored, Negative))
  }

  /** Scoring and gating of a valid corpus; unresolved cases are not scored. */
  method CertifyCases(cases: seq<Case>) returns (r: Outcome)
    requires forall i | 0 <= i < |cases| :: ValidCase(cases[i])
    ensures Reports(r, cases)
  {
    var scored := Scored(cases);
    forall k | 0 <= k < |scored| ensures ValidCase(scored[k]) && scored[k].tag != ReviewRequired {
      assert scored[k] in scored && scored[k] in cases;
    }
    var score, results := RunScoring(scored);
    GatesExactly(score, results, |scored|, Labelled(scored, Positive), Labelled(scored, Negative));
    r := Report(score, results, Certified(score, results, |scored|, Labelled(scored, Positive), Labelled(scored, Negative)));
  }

  /**
   `certify`: rejected exactly when some case is not well formed or some positive case has no valid expected row;
   otherwise the specified score, certified exactly by the integer gates.
   */
  method Certify(raws: seq<Raw>, sha: string -> string) returns (r: Outcome)
    ensures r.Rejected? <==> exists i :: 0 <= i < |raws| && !Usable(raws[i], sha)
    ensures r.Report? ==> (forall i | 0 <= i < |raws| :: Usable(raws[i], sha)) && Reports(r, CasesOf(raws, sha))
  {
    var cases := ReadCorpus(raws, sha);
    if cases.None? {
      return Rejected;
    }
    r := CertifyCases(cases.value);
  }

  /**
   A certified corpus has at least 26 true positives and 49 true negatives, at most one false
   positive, 49 true positives if there is one, and no critical false positive.
   */
  lemma {:induction false} CertifiedMeans(cases: seq<Case>)
    requires forall k | 0 <= k < |cases| :: ValidCase(cases[k]) && cases[k].tag != ReviewRequired
    requires IntegerGates(ScoreAll(cases), Results(cases), |cases|, Labelled(cases, Positive), Labelled(cases, Negative))
    ensures var s := ScoreAll(cases);
            && s.tp >= 26 && s.tn >= 49 && s.fp <= 1 && (s.fp == 1 ==> s.tp >= 49)
            && forall k | 0 <= k < |cases| :: !(cases[k].tag == Negative && cases[k].criticalText && AcceptedRows(cases[k].extracted) != [])
  {
    var s := ScoreAll(cases);
    ScoringConserves(cases);
    forall k | 0 <= k < |cases|
      ensures !(cases[k].tag == Negative && cases[k].criticalText && AcceptedRows(cases[k].extracted) != [])
    {
      ResultsAt(cases, k);
      assert Results(cases)[k] in Results(cases);
      assert !CriticalFalsePositive(ResultOf(cases[k]));
    }
  }
}
