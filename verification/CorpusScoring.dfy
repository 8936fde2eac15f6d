/** The scoring loop of the guidance-corpus certifier, and what its counters conserve. */
module CorpusScoring {
  import opened Common
  import opened CorpusMatcher

  datatype Label = Positive | Negative | ReviewRequired

  /** A reviewed passage with everything the extractor returned for it. */
  datatype Case = Case(
    tag: Label, expected: seq<Cells>, extracted: seq<Actual>, passageHash: string, locator: string, criticalText: bool)

  datatype Class = TP | FP | FN | TN

  datatype FailureType = FalsePositive | FalseNegative | FieldMismatch

  datatype Severity = CRITICAL | HIGH | MEDIUM | LOW

  datatype CaseResult = CaseResult(
    tag: Label, verdict: Class, passed: bool, failure: Option<FailureType>, severity: Option<Severity>)

  datatype Tally = Tally(correct: nat, total: nat)

  datatype FieldTallies = FieldTallies(
    metric: Tally, period: Tally, low: Tally, high: Tally, point: Tally, unit: Tally, currency: Tally, claim: Tally)

  datatype SeverityCounts = SeverityCounts(critical: nat, high: nat, medium: nat, low: nat)

  datatype Score = Score(
    tp: nat, fp: nat, fn: nat, tn: nat,
    fields: FieldTallies, numeric: Tally, structured: Tally, evidence: Tally,
    severity: SeverityCounts)

  const ZERO: Tally := Tally(0, 0)

  const EMPTY: Score := Score(
    0, 0, 0, 0, FieldTallies(ZERO, ZERO, ZERO, ZERO, ZERO, ZERO, ZERO, ZERO), ZERO, ZERO, ZERO, SeverityCounts(0, 0, 0, 0))

  function Count(t: Tally, ok: bool): Tally {
    Tally(t.correct + if ok then 1 else 0, t.total + 1)
  }

  function Of(t: FieldTallies, f: Field): Tally {
    match f
    case Metric => t.metric
    case Period => t.period
    case Low => t.low
    case High => t.high
    case Point => t.point
    case Unit => t.unit
    case Currency => t.currency
    case Claim => t.claim
  }

  /** Every field is counted once, as correct unless it is mismatched. */
  function CountFields(t: FieldTallies, mismatched: seq<Field>): (r: FieldTallies)
    ensures forall f: Field :: Of(r, f) == Count(Of(t, f), f !in mismatched)
  {
    FieldTallies(Count(t.metric, Metric !in mismatched), Count(t.period, Period !in mismatched),
                 Count(t.low, Low !in mismatched), Count(t.high, High !in mismatched),
                 Count(t.point, Point !in mismatched), Count(t.unit, Unit !in mismatched),
                 Count(t.currency, Currency !in mismatched), Count(t.claim, Claim !in mismatched))
  }

  function CountSeverity(t: SeverityCounts, s: Severity): SeverityCounts {
    match s
    case CRITICAL => t.(critical := t.critical + 1)
    case HIGH => t.(high := t.high + 1)
    case MEDIUM => t.(medium := t.medium + 1)
    case LOW => t.(low := t.low + 1)
  }

  // ---- One case --------------------------------------------------------------------------------

  function AcceptedRows(rows: seq<Actual>): (r: seq<Actual>)
    ensures forall a :: a in r <==> a in rows && Accepted(a)
  {
    if rows == [] then [] else (if Accepted(rows[0]) then [rows[0]] else []) + AcceptedRows(rows[1..])
  }

  /** `_expected_rows`, once the corpus is valid. */
  function ExpectedRows(c: Case): seq<Cells> {
    if c.tag == Positive then c.expected else []
  }

  predicate EvidenceVerified(c: Case, a: Option<Actual>) {
    a.Some? && a.value.textHash == c.passageHash && c.locator + "#paragraph-" <= a.value.locator
  }

  function Classify(c: Case, anyAccepted: bool): Class {
    if c.tag == Positive then (if anyAccepted then TP else FN) else (if anyAccepted then FP else TN)
  }

  predicate NumericOk(mismatched: seq<Field>) {
    Low !in mismatched && High !in mismatched && Point !in mismatched
  }

  /** One match is added to every counter. */
  function ScoreMatch(s: Score, c: Case, m: Match): Score {
    s.(fields := CountFields(s.fields, m.mismatched),
       numeric := Count(s.numeric, NumericOk(m.mismatched)),
       evidence := Count(s.evidence, EvidenceVerified(c, m.actual)))
  }

  function ScoreMatches(s: Score, c: Case, ms: seq<Match>): Score {
    if ms == [] then s else ScoreMatch(ScoreMatches(s, c, ms[..|ms| - 1]), c, ms[|ms| - 1])
  }

  predicate RowExact(c: Case, m: Match) {
    m.mismatched == [] && EvidenceVerified(c, m.actual)
  }

  predicate AnyMismatch(ms: seq<Match>) {
    exists m | m in ms :: m.mismatched != []
  }

  predicate EvidenceFailed(c: Case, ms: seq<Match>) {
    exists m | m in ms :: !EvidenceVerified(c, m.actual)
  }

  /** Only the evidence failed: no field is mismatched. */
  predicate OnlyEvidence(c: Case, ms: seq<Match>) {
    !AnyMismatch(ms) && EvidenceFailed(c, ms)
  }

  /** The management claim is the only effective field. */
  predicate OnlyClaim(c: Case, ms: seq<Match>) {
    && !EvidenceFailed(c, ms) && AnyMismatch(ms)
    && forall m | m in ms :: forall f | f in m.mismatched :: f == Claim
  }

  function SeverityOf(c: Case, ms: seq<Match>, unexpected: bool): Severity {
    if c.tag == Negative && c.criticalText then CRITICAL
    else if OnlyEvidence(c, ms) then LOW
    else if OnlyClaim(c, ms) || unexpected then MEDIUM
    else HIGH
  }

  function FailureOf(c: Case, verdict: Class, ms: seq<Match>, left: seq<Actual>): Option<FailureType> {
    if verdict == FP then Some(FalsePositive)
    else if verdict == FN then Some(FalseNegative)
    else if c.tag == Positive && (AnyMismatch(ms) || left != [] || EvidenceFailed(c, ms)) then Some(FieldMismatch)
    else None
  }

  /** `structured_score` counts a case whose every expected row is exact and which left nothing over. */
  predicate StructuredCorrect(c: Case, ms: seq<Match>, left: seq<Actual>) {
    ms != [] && (forall m | m in ms :: RowExact(c, m)) && left == [] && |ms| == |ExpectedRows(c)|
  }

  function ResultOf(c: Case): CaseResult {
    var actual := AcceptedRows(c.extracted);
    var (ms, left) := MatchRows(ExpectedRows(c), actual);
    var verdict := Classify(c, actual != []);
    var failure := FailureOf(c, verdict, ms, left);
    CaseResult(c.tag, verdict,
               verdict in {TP, TN} && !(c.tag == Positive && (AnyMismatch(ms) || left != [] || EvidenceFailed(c, ms))),
               failure,
               if failure.Some? then Some(SeverityOf(c, ms, left != [])) else None)
  }

  /** Everything of a case that is counted once: its class, its structured verdict, its severity. */
  function Enter(s: Score, r: CaseResult, structured: Option<bool>): Score {
    s.(tp := s.tp + if r.verdict == TP then 1 else 0,
       fp := s.fp + if r.verdict == FP then 1 else 0,
       fn := s.fn + if r.verdict == FN then 1 else 0,
       tn := s.tn + if r.verdict == TN then 1 else 0,
       structured := if structured.None? then s.structured else Count(s.structured, structured.value),
       severity := if r.severity.Some? then CountSeverity(s.severity, r.severity.value) else s.severity)
  }

  function Matching(c: Case): (seq<Match>, seq<Actual>) {
    MatchRows(ExpectedRows(c), AcceptedRows(c.extracted))
  }

  function StructuredOf(c: Case): Option<bool> {
    var (ms, left) := Matching(c);
    if ExpectedRows(c) == [] then None else Some(StructuredCorrect(c, ms, left))
  }

  function ScoreCase(s: Score, c: Case): Score {
    Enter(ScoreMatches(s, c, Matching(c).0), ResultOf(c), StructuredOf(c))
  }

  function ScoreAll(cases: seq<Case>): Score {
    if cases == [] then EMPTY else ScoreCase(ScoreAll(cases[..|cases| - 1]), cases[|cases| - 1])
  }

  /** The cases that are scored: everything but the unresolved ones. */
  function Scored(cases: seq<Case>): (r: seq<Case>)
    ensures forall c :: c in r <==> c in cases && c.tag != ReviewRequired
  {
    if cases == [] then [] else (if cases[0].tag != ReviewRequired then [cases[0]] else []) + Scored(cases[1..])
  }

  /** A positive case must carry at least one expected row. */
  predicate ValidCase(c: Case) {
    c.tag == Positive ==> c.expected != []
  }

  // ---- One case, exactly -----------------------------------------------------------------------

  /** The verdict on one positive case, without the matcher: equal bags of rows, all with evidence. */
  ghost predicate RowsAgree(c: Case) {
    && multiset(ExpectedRows(c)) == multiset(CellsOf(AcceptedRows(c.extracted)))
    && forall a | a in AcceptedRows(c.extracted) :: EvidenceVerified(c, Some(a))
  }

  lemma {:induction false} TakenIn(ms: seq<Match>, a: Actual)
    ensures a in Taken(ms) <==> exists m :: m in ms && m.actual == Some(a)
  {
    if ms != [] {
      TakenIn(ms[1..], a);
      assert ms == [ms[0]] + ms[1..];
      assert forall m :: m in ms <==> m == ms[0] || m in ms[1..];
      assert ms[0] in ms;
    }
  }

  /** The structured verdict is exact, whatever the row order or the tie-breaking. */
  lemma {:induction false} StructuredIsExact(c: Case)
    requires c.tag == Positive && c.expected != []
    ensures var (ms, left) := MatchRows(ExpectedRows(c), AcceptedRows(c.extracted));
            StructuredCorrect(c, ms, left) <==> RowsAgree(c)
  {
    var rows := AcceptedRows(c.extracted);
    var (ms, left) := MatchRows(c.expected, rows);
    GreedyIsExact(c.expected, rows);
    MatcherConserves(c.expected, rows);
    if left == [] {
      assert multiset(Taken(ms)) == multiset(rows);
      forall a ensures a in rows <==> exists m :: m in ms && m.actual == Some(a) {
        TakenIn(ms, a);
        assert a in rows <==> a in multiset(rows);
        assert a in Taken(ms) <==> a in multiset(Taken(ms));
      }
      if AllExact(ms) && (forall a | a in rows :: EvidenceVerified(c, Some(a))) {
        forall m | m in ms ensures RowExact(c, m) {
          assert m.actual == Some(m.actual.value);
          assert m.actual.value in rows;
        }
      }
      if StructuredCorrect(c, ms, left) {
        forall a | a in rows ensures EvidenceVerified(c, Some(a)) {
          var m :| m in ms && m.actual == Some(a);
          assert RowExact(c, m);
        }
      }
    }
    if StructuredCorrect(c, ms, left) {
      assert forall m | m in ms :: RowExact(c, m);
      assert AllExact(ms);
    }
  }

  lemma {:induction false} RowsExactly(c: Case, ms: seq<Match>)
    ensures (forall m | m in ms :: RowExact(c, m)) <==> !AnyMismatch(ms) && !EvidenceFailed(c, ms)
  {
  }

  /** A structured-correct case used an accepted row. */
  lemma {:induction false} StructuredAccepts(c: Case)
    requires c.tag == Positive
    ensures var (ms, left) := Matching(c); StructuredCorrect(c, ms, left) ==> AcceptedRows(c.extracted) != []
  {
    var rows := AcceptedRows(c.extracted);
    var (ms, left) := Matching(c);
    if StructuredCorrect(c, ms, left) {
      MatcherConserves(c.expected, rows);
      assert ms[0] in ms && RowExact(c, ms[0]);
      TakenIn(ms, ms[0].actual.value);
      assert ms[0].actual.value in multiset(Taken(ms)) + multiset(left);
    }
  }

  /** A case passes exactly when it has no failure type, and a positive one exactly when its rows agree. */
  lemma {:induction false} CasePasses(c: Case)
    requires ValidCase(c) && c.tag != ReviewRequired
    ensures var r := ResultOf(c);
            && r.tag == c.tag && (r.passed <==> r.failure.None?) && (r.failure.None? <==> r.severity.None?)
            && (c.tag == Positive ==> r.verdict in {TP, FN} && StructuredOf(c) == Some(r.passed) && (r.passed <==> RowsAgree(c)))
            && (c.tag == Negative ==> r.verdict in {FP, TN} && StructuredOf(c) == None && (r.passed <==> r.verdict == TN))
  {
    var (ms, left) := Matching(c);
    if c.tag == Positive {
      StructuredIsExact(c);
      StructuredAccepts(c);
      RowsExactly(c, ms);
    }
  }

  /** One result per case, in order. */
  function Results(cases: seq<Case>): seq<CaseResult> {
    if cases == [] then [] else Results(cases[..|cases| - 1]) + [ResultOf(cases[|cases| - 1])]
  }

  lemma {:induction false} ResultsAt(cases: seq<Case>, k: nat)
    requires k < |cases|
    ensures |Results(cases)| == |cases| && Results(cases)[k] == ResultOf(cases[k])
  {
    var front := cases[..|cases| - 1];
    if front != [] {
      ResultsAt(front, if k < |front| then k else 0);
    }
  }

  // ---- Conservation ----------------------------------------------------------------------------

  function Labelled(cases: seq<Case>, tag: Label): nat {
    if cases == [] then 0 else Labelled(cases[..|cases| - 1], tag) + if cases[|cases| - 1].tag == tag then 1 else 0
  }

  function ExpectedCount(cases: seq<Case>): nat {
    if cases == [] then 0 else ExpectedCount(cases[..|cases| - 1]) + |ExpectedRows(cases[|cases| - 1])|
  }

  /** How many results satisfy both: of this label, and passed. */
  function PassedOf(rs: seq<CaseResult>, tag: Label): nat {
    if rs == [] then 0 else
      PassedOf(rs[..|rs| - 1], tag) + if rs[|rs| - 1].tag == tag && rs[|rs| - 1].passed then 1 else 0
  }

  function Severities(t: SeverityCounts): nat {
    t.critical + t.high + t.medium + t.low
  }

  lemma {:induction false} MatchesCounted(s: Score, c: Case, ms: seq<Match>)
    ensures var t := ScoreMatches(s, c, ms);
            && (forall f: Field :: Of(t.fields, f).total == Of(s.fields, f).total + |ms|)
            && (forall f: Field :: Of(s.fields, f).correct <= Of(t.fields, f).correct <= Of(s.fields, f).correct + |ms|)
            && t.numeric.total == s.numeric.total + |ms| && t.evidence.total == s.evidence.total + |ms|
            && t == s.(fields := t.fields, numeric := t.numeric, evidence := t.evidence)
  {
    if ms != [] {
      MatchesCounted(s, c, ms[..|ms| - 1]);
    }
  }

  /** One entry per expected row in every row counter. */
  ghost predicate RowsBalanced(s: Score, cases: seq<Case>) {
    && (forall f: Field :: Of(s.fields, f).total == ExpectedCount(cases))
    && s.numeric.total == ExpectedCount(cases) && s.evidence.total == ExpectedCount(cases)
  }

  /** One class per case, and one severity for every case that is neither structured-correct nor a true negative. */
  ghost predicate CasesBalanced(s: Score, rs: seq<CaseResult>, cases: seq<Case>) {
    && s.tp + s.fn == Labelled(cases, Positive)
    && s.fp + s.tn == Labelled(cases, Negative)
    && s.structured.total == Labelled(cases, Positive)
    && s.structured.correct == PassedOf(rs, Positive)
    && s.tn == PassedOf(rs, Negative)
    && |rs| == |cases|
    && Severities(s.severity) + s.structured.correct + s.tn == |cases|
  }

  lemma {:induction false} EnterBalanced(s: Score, rs: seq<CaseResult>, cases: seq<Case>, c: Case, r: CaseResult, structured: Option<bool>)
    requires CasesBalanced(s, rs, cases) && c.tag != ReviewRequired && r.tag == c.tag
    requires r.passed <==> r.severity.None?
    requires c.tag == Positive ==> r.verdict in {TP, FN} && structured == Some(r.passed)
    requires c.tag == Negative ==> r.verdict in {FP, TN} && structured == None && (r.passed <==> r.verdict == TN)
    ensures CasesBalanced(Enter(s, r, structured), rs + [r], cases + [c])
  {
    assert (cases + [c])[..|cases|] == cases;
    assert (rs + [r])[..|rs|] == rs;
  }

  lemma {:induction false} RowsGrow(s: Score, cases: seq<Case>, c: Case)
    requires RowsBalanced(s, cases)
    ensures RowsBalanced(ScoreCase(s, c), cases + [c])
  {
    MatchesCounted(s, c, Matching(c).0);
    assert (cases + [c])[..|cases|] == cases;
  }

  lemma {:induction false} CasesGrow(s: Score, rs: seq<CaseResult>, cases: seq<Case>, c: Case)
    requires CasesBalanced(s, rs, cases) && ValidCase(c) && c.tag != ReviewRequired
    ensures CasesBalanced(ScoreCase(s, c), rs + [ResultOf(c)], cases + [c])
  {
    var ms := Matching(c).0;
    MatchesCounted(s, c, ms);
    CasePasses(c);
    EnterBalanced(ScoreMatches(s, c, ms), rs, cases, c, ResultOf(c), StructuredOf(c));
  }

  lemma {:induction false} ScoreSnoc(cases: seq<Case>, c: Case)
    ensures ScoreAll(cases + [c]) == ScoreCase(ScoreAll(cases), c)
  {
    assert (cases + [c])[..|cases|] == cases;
  }

  lemma {:induction false} RowsConserve(cases: seq<Case>)
    ensures RowsBalanced(ScoreAll(cases), cases)
  {
    if cases != [] {
      var front, c := cases[..|cases| - 1], cases[|cases| - 1];
      assert cases == front + [c];
      RowsConserve(front);
      RowsGrow(ScoreAll(front), front, c);
      ScoreSnoc(front, c);
    }
  }

  lemma {:induction false} ResultsSnoc(cases: seq<Case>, c: Case)
    ensures Results(cases + [c]) == Results(cases) + [ResultOf(c)]
  {
    assert (cases + [c])[..|cases|] == cases;
  }

  lemma {:induction false} CasesSnoc(cases: seq<Case>, c: Case)
    requires CasesBalanced(ScoreAll(cases), Results(cases), cases) && ValidCase(c) && c.tag != ReviewRequired
    ensures CasesBalanced(ScoreAll(cases + [c]), Results(cases + [c]), cases + [c])
  {
    CasesGrow(ScoreAll(cases), Results(cases), cases, c);
    ScoreSnoc(cases, c);
    ResultsSnoc(cases, c);
  }

  lemma {:induction false} CasesConserve(cases: seq<Case>)
    requires forall k | 0 <= k < |cases| :: ValidCase(cases[k]) && cases[k].tag != ReviewRequired
    ensures CasesBalanced(ScoreAll(cases), Results(cases), cases)
  {
    if cases != [] {
      var front, c := cases[..|cases| - 1], cases[|cases| - 1];
      assert cases == front + [c];
      CasesConserve(front);
      CasesSnoc(front, c);
    }
  }

  /** Scoring conserves, for every corpus: nothing is counted twice and nothing is lost. */
  lemma {:induction false} ScoringConserves(cases: seq<Case>)
    requires forall k | 0 <= k < |cases| :: ValidCase(cases[k]) && cases[k].tag != ReviewRequired
    ensures RowsBalanced(ScoreAll(cases), cases) && CasesBalanced(ScoreAll(cases), Results(cases), cases)
  {
    RowsConserve(cases);
    CasesConserve(cases);
  }

  // ---- The loop --------------------------------------------------------------------------------

  /** `certify`'s inner loop: the matches of one case, counter by counter. */
  method CountMatches(s: Score, c: Case, matches: seq<Match>) returns (t: Score, allExact: bool)
    ensures t == ScoreMatches(s, c, matches)
    ensures allExact <==> forall m | m in matches :: RowExact(c, m)
  {
    t := s;
    allExact := true;
    for j := 0 to |matches|
      invariant t == ScoreMatches(s, c, matches[..j])
      invariant allExact <==> forall i | 0 <= i < j :: RowExact(c, matches[i])
    {
      assert matches[..j + 1][..j] == matches[..j];
      t := ScoreMatch(t, c, matches[j]);
      allExact := allExact && RowExact(c, matches[j]);
    }
    assert matches[..|matches|] == matches;
  }

  /** What went wrong in the matches of one case: the mismatched fields, and whether evidence is missing. */
  method InspectMatches(c: Case, matches: seq<Match>) returns (fields: set<Field>, evidenceFailed: bool)
    ensures forall f :: f in fields <==> exists m | m in matches :: f in m.mismatched
    ensures evidenceFailed <==> EvidenceFailed(c, matches)
  {
    fields, evidenceFailed := {}, false;
    for j := 0 to |matches|
      invariant forall f :: f in fields <==> exists i | 0 <= i < j :: f in matches[i].mismatched
      invariant evidenceFailed <==> exists i | 0 <= i < j :: !EvidenceVerified(c, matches[i].actual)
    {
      fields := fields + set f | f in matches[j].mismatched;
      evidenceFailed := evidenceFailed || !EvidenceVerified(c, matches[j].actual);
    }
  }

  /** The class, failure and severity of one case, from the flags its inner loop left behind. */
  method JudgeCase(c: Case, accepted: seq<Actual>, fields: set<Field>, evidenceFailed: bool, unexpected: seq<Actual>)
    returns (r: CaseResult)
    requires accepted == AcceptedRows(c.extracted) && unexpected == Matching(c).1
    requires forall f :: f in fields <==> exists m | m in Matching(c).0 :: f in m.mismatched
    requires evidenceFailed == EvidenceFailed(c, Matching(c).0)
    ensures r == ResultOf(c)
  {
    FlagsExactly(c, Matching(c).0, fields);
    var positive := c.tag == Positive;
    var verdict := TN;
    if positive && accepted != [] {
      verdict := TP;
    } else if positive {
      verdict := FN;
    } else if accepted != [] {
      verdict := FP;
    }
    var defective := positive && (fields != {} || unexpected != [] || evidenceFailed);
    var failure, severity := None, None;
    if verdict == FP {
      failure := Some(FalsePositive);
    } else if verdict == FN {
      failure := Some(FalseNegative);
    } else if defective {
      failure := Some(FieldMismatch);
    }
    if failure.Some? {
      if c.tag == Negative && c.criticalText {
        severity := Some(CRITICAL);
      } else if fields == {} && evidenceFailed {
        severity := Some(LOW);
      } else if (fields == {Claim} && !evidenceFailed) || unexpected != [] {
        severity := Some(MEDIUM);
      } else {
        severity := Some(HIGH);
      }
    }
    r := CaseResult(c.tag, verdict, verdict in {TP, TN} && !defective, failure, severity);
  }

  lemma {:induction false} FlagsExactly(c: Case, ms: seq<Match>, fields: set<Field>)
    requires forall f :: f in fields <==> exists m | m in ms :: f in m.mismatched
    ensures fields != {} <==> AnyMismatch(ms)
    ensures fields == {} && EvidenceFailed(c, ms) <==> OnlyEvidence(c, ms)
    ensures fields == {Claim} && !EvidenceFailed(c, ms) <==> OnlyClaim(c, ms)
  {
    if AnyMismatch(ms) {
      var m :| m in ms && m.mismatched != [];
      assert m.mismatched[0] in fields;
    }
    if fields == {Claim} {
      forall m, f | m in ms && f in m.mismatched ensures f == Claim {
        assert f in fields;
      }
    }
    if OnlyClaim(c, ms) {
      assert forall f | f in fields :: f == Claim;
      assert fields == {Claim};
    }
  }

  /** One iteration of `certify`'s scoring loop. */
  method ScoreOne(score: Score, c: Case) returns (next: Score, result: CaseResult)
    ensures next == ScoreCase(score, c) && result == ResultOf(c)
  {
    var accepted := AcceptedRows(c.extracted);
    var matches, unexpected := RunMatcher(ExpectedRows(c), accepted);
    var counted, allExact := CountMatches(score, c, matches);
    var structured := None;
    if ExpectedRows(c) != [] {
      structured := Some(allExact && unexpected == []);
    }
    var fields, evidenceFailed := InspectMatches(c, matches);
    result := JudgeCase(c, accepted, fields, evidenceFailed, unexpected);
    next := Enter(counted, result, structured);
  }

  /** `certify`'s scoring loop over the scored cases. */
  method RunScoring(cases: seq<Case>) returns (score: Score, results: seq<CaseResult>)
    requires forall k | 0 <= k < |cases| :: ValidCase(cases[k]) && cases[k].tag != ReviewRequired
    ensures score == ScoreAll(cases) && results == Results(cases)
    ensures RowsBalanced(score, cases) && CasesBalanced(score, results, cases)
  {
    score, results := EMPTY, [];
    for k := 0 to |cases|
      invariant score == ScoreAll(cases[..k]) && results == Results(cases[..k])
    {
      assert cases[..k + 1][..k] == cases[..k];
      var result;
      score, result := ScoreOne(score, cases[k]);
      results := results + [result];
    }
    assert cases[..|cases|] == cases;
    ScoringConserves(cases);
  }
}
