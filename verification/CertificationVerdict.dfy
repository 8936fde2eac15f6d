/** The exact-pipeline certification runner, the release aggregate, the live runner, and the promotion chain between them. */
module CertificationVerdict {
  import opened Common

  datatype TestId = WithoutHandoff | WithHandoff | OtherTest(name: int)

  const EXACT: seq<TestId> := [WithoutHandoff, WithHandoff]

  /** NONCERTIFIED is the aggregate's word for failure. */
  datatype Verdict = CERTIFIED | FAILED | BLOCKED | INCOMPLETE | NONCERTIFIED

  datatype Certificate = Certificate(test: TestId, verdict: Verdict)

  datatype Reason =
    | BadCollection | RegressionsFailed | PrerequisiteEvidenceInvalid | PrerequisitesFailed
    | InvalidScenario | ScenarioSetDiffers

  /** A failed entry names a test, or says that the JUnit file is missing. */
  datatype Failure = FailedTest(test: TestId) | MissingResults

  datatype Invocation = Invocation(
    selected: seq<TestId>, collected: seq<TestId>, executed: seq<TestId>, failed: seq<Failure>, exitCode: Option<int>)

  // ---- The verdict -----------------------------------------------------------------------------

  function Statuses(certificates: seq<Certificate>): set<Verdict> {
    set c | c in certificates :: c.verdict
  }

  function Tests(certificates: seq<Certificate>): (r: seq<TestId>)
    ensures |r| == |certificates| && forall i | 0 <= i < |r| :: r[i] == certificates[i].test
  {
    seq(|certificates|, i requires 0 <= i < |certificates| => certificates[i].test)
  }

  /** `invocation_verdict`; two lists have the same sorted form exactly when they are the same bag. */
  function InvocationVerdict(invocation: Invocation, certificates: seq<Certificate>, reasons: seq<Reason>): Verdict {
    var statuses := Statuses(certificates);
    if || reasons != [] || FAILED in statuses
       || (invocation.exitCode.Some? && invocation.exitCode.value != 0)
       || invocation.failed != []
       || invocation.selected != EXACT || invocation.collected != EXACT
       || (invocation.exitCode == Some(0) && invocation.executed != EXACT)
       || multiset(Tests(certificates)) != multiset(EXACT)
    then FAILED
    else if BLOCKED in statuses then BLOCKED
    else if INCOMPLETE in statuses || invocation.exitCode.None? then INCOMPLETE
    else if statuses == {CERTIFIED} then CERTIFIED else INCOMPLETE
  }

  function ExitCode(verdict: Verdict): int
    requires verdict != NONCERTIFIED
  {
    match verdict
    case CERTIFIED => 0
    case FAILED => 1
    case BLOCKED => 2
    case INCOMPLETE => 3
  }

  /** Exactly one certificate per exact test, each CERTIFIED. */
  predicate OneCertifiedEach(certificates: seq<Certificate>) {
    || certificates == [Certificate(WithoutHandoff, CERTIFIED), Certificate(WithHandoff, CERTIFIED)]
    || certificates == [Certificate(WithHandoff, CERTIFIED), Certificate(WithoutHandoff, CERTIFIED)]
  }

  lemma {:induction false} ExactBag(tests: seq<TestId>)
    ensures multiset(tests) == multiset(EXACT) <==> tests == [WithoutHandoff, WithHandoff] || tests == [WithHandoff, WithoutHandoff]
  {
    if multiset(tests) == multiset(EXACT) {
      assert |tests| == |multiset(tests)| == 2;
      assert tests == [tests[0], tests[1]];
      assert multiset(tests)[WithoutHandoff] == 1 && multiset(tests)[WithHandoff] == 1;
    }
  }

  lemma {:induction false} CertificatesExactly(certificates: seq<Certificate>)
    ensures multiset(Tests(certificates)) == multiset(EXACT) && Statuses(certificates) == {CERTIFIED}
       <==> OneCertifiedEach(certificates)
  {
    ExactBag(Tests(certificates));
    if multiset(Tests(certificates)) == multiset(EXACT) && Statuses(certificates) == {CERTIFIED} {
      assert |certificates| == 2;
      assert certificates[0].verdict in Statuses(certificates) && certificates[1].verdict in Statuses(certificates);
      assert certificates == [certificates[0], certificates[1]];
    }
    if OneCertifiedEach(certificates) {
      assert certificates[0] in certificates;
      assert |Tests(certificates)| == 2;
      assert Tests(certificates) == [certificates[0].test, certificates[1].test];
    }
  }

  /** CERTIFIED, and exit code zero, exactly for a complete clean run with one CERTIFIED certificate per exact test. */
  lemma {:induction false} CertifiedExactly(invocation: Invocation, certificates: seq<Certificate>, reasons: seq<Reason>)
    ensures var verdict := InvocationVerdict(invocation, certificates, reasons);
            && (verdict == CERTIFIED <==> ExitCode(verdict) == 0)
            && (verdict == CERTIFIED <==>
                && reasons == [] && invocation.exitCode == Some(0) && invocation.failed == []
                && invocation.selected == invocation.collected == invocation.executed == EXACT
                && OneCertifiedEach(certificates))
  {
    CertificatesExactly(certificates);
  }

  // ---- The deterministic runner -----------------------------------------------------------------

  /** A JUnit test case; `bad` when it has a failure, error or skipped child. */
  datatype Case = Case(test: TestId, bad: bool)

  /** A scenario contract: unreadable, or readable with the outcome of finalizing its certificate. */
  datatype Contract = Unreadable | Readable(test: TestId, final: Option<Verdict>)

  /** What the commands and files of one deterministic run return. */
  datatype Observed = Observed(
    collectExit: int, collected: seq<TestId>, regressionExit: int,
    prerequisite: Option<Option<int>>, junit: Option<seq<Case>>, nativeExit: int, contracts: seq<Contract>)

  datatype Gate = ExactPipeline | FullRelease | CoreRelease | LiveCanary | OtherGate(name: int)

  datatype Status = PASS | FAIL | NOT_RUN | OtherStatus(verdict: Verdict)

  datatype Mode = Deterministic | Live

  datatype Report = Report(mode: Mode, fingerprint: string, verdict: Option<Verdict>, gates: map<Gate, Status>, safe: bool)

  function Executed(cases: seq<Case>): (r: seq<TestId>)
    ensures |r| == |cases| && forall i | 0 <= i < |r| :: r[i] == cases[i].test
  {
    seq(|cases|, i requires 0 <= i < |cases| => cases[i].test)
  }

  function FailedCases(cases: seq<Case>): (r: seq<Failure>)
    ensures r == [] <==> forall c | c in cases :: !c.bad
  {
    if cases == [] then [] else
      (if cases[0].bad then [FailedTest(cases[0].test)] else []) + FailedCases(cases[1..])
  }

  /** The invocation record and the reasons up to the scenario contracts. */
  function Invoke(o: Observed): (Invocation, seq<Reason>) {
    var base := Invocation(EXACT, o.collected, [], [], None);
    if o.collectExit != 0 || o.collected != EXACT then (base, [BadCollection])
    else if o.regressionExit != 0 then (base, [RegressionsFailed])
    else if o.prerequisite == Some(None) then (base, [PrerequisiteEvidenceInvalid, PrerequisitesFailed, RegressionsFailed])
    else if o.prerequisite.Some? && o.prerequisite.value != Some(0) then (base, [PrerequisitesFailed, RegressionsFailed])
    else
      (base.(executed := if o.junit.Some? then Executed(o.junit.value) else [],
             failed := if o.junit.Some? then FailedCases(o.junit.value) else [MissingResults],
             exitCode := Some(o.nativeExit)), [])
  }

  predicate Finalized(c: Contract) {
    c.Readable? && c.final.Some?
  }

  function CertificatesOf(contracts: seq<Contract>): (r: seq<Certificate>)
    requires forall i | 0 <= i < |contracts| :: Finalized(contracts[i])
    ensures |r| == |contracts|
  {
    seq(|contracts|, i requires 0 <= i < |contracts| && Finalized(contracts[i]) =>
                       Certificate(contracts[i].test, contracts[i].final.value))
  }

  /** The loop over the scenario contracts. */
  method Finalize(contracts: seq<Contract>) returns (certificates: seq<Certificate>, seen: seq<TestId>, reasons: seq<Reason>)
    ensures reasons == [] <==> forall i | 0 <= i < |contracts| :: Finalized(contracts[i])
    ensures reasons == [] ==> certificates == CertificatesOf(contracts) && seen == Tests(certificates)
  {
    certificates, seen, reasons := [], [], [];
    for k := 0 to |contracts|
      invariant reasons == [] <==> forall i | 0 <= i < k :: Finalized(contracts[i])
      invariant reasons == [] ==> certificates == CertificatesOf(contracts[..k]) && seen == Tests(certificates)
    {
      var c := contracts[k];
      if c.Unreadable? {
        reasons := reasons + [InvalidScenario];
      } else {
        seen := seen + [c.test];
        if c.final.None? {
          reasons := reasons + [InvalidScenario];
        } else {
          certificates := certificates + [Certificate(c.test, c.final.value)];
        }
      }
    }
    assert contracts[..|contracts|] == contracts;
  }

  /** `_run_exact_deterministic`: certified exactly for a clean run; its gates never say PASS. */
  method RunExact(o: Observed, fingerprint: string) returns (report: Report)
    ensures report.mode == Deterministic && report.fingerprint == fingerprint && !report.safe && report.verdict.Some?
    ensures report.gates == map[ExactPipeline := OtherStatus(report.verdict.value), FullRelease := NOT_RUN, LiveCanary := NOT_RUN]
    ensures report.verdict == Some(CERTIFIED) <==> CleanRun(o)
  {
    var (invocation, early) := Invoke(o);
    var certificates, seen, late := Finalize(o.contracts);
    var reasons := early + late;
    if multiset(seen) != multiset(EXACT) {
      reasons := reasons + [ScenarioSetDiffers];
    }
    var verdict := InvocationVerdict(invocation, certificates, reasons);
    report := Report(Deterministic, fingerprint, Some(verdict),
                     map[ExactPipeline := OtherStatus(verdict), FullRelease := NOT_RUN, LiveCanary := NOT_RUN], false);
    CertifiedExactly(invocation, certificates, reasons);
    CertificatesExactly(certificates);
    CleanInvocation(o);
  }

  /** The whole chain clean: collection, regressions, prerequisites, the exact tests, and one certificate each. */
  ghost predicate CleanRun(o: Observed) {
    && o.collectExit == 0 && o.collected == EXACT && o.regressionExit == 0
    && (o.prerequisite.None? || o.prerequisite == Some(Some(0)))
    && o.nativeExit == 0
    && o.junit.Some? && Executed(o.junit.value) == EXACT && (forall c | c in o.junit.value :: !c.bad)
    && (forall i | 0 <= i < |o.contracts| :: Finalized(o.contracts[i]))
    && OneCertifiedEach(CertificatesOf(o.contracts))
  }

  lemma {:induction false} CleanInvocation(o: Observed)
    ensures var (invocation, reasons) := Invoke(o);
            (&& reasons == [] && invocation.exitCode == Some(0) && invocation.failed == []
             && invocation.selected == invocation.collected == invocation.executed == EXACT) <==>
            (&& o.collectExit == 0 && o.collected == EXACT && o.regressionExit == 0
             && (o.prerequisite.None? || o.prerequisite == Some(Some(0)))
             && o.nativeExit == 0
             && o.junit.Some? && Executed(o.junit.value) == EXACT && (forall c | c in o.junit.value :: !c.bad))
  {
  }

  // ---- The live runner ---------------------------------------------------------------------------

  /** Every gate besides the live canary passes, and the two named gates are among them. */
  predicate Acceptable(r: Report, fingerprint: string) {
    && (r.gates != map[] && forall g | g in r.gates :: g != LiveCanary ==> r.gates[g] == PASS)
    && r.mode == Deterministic && r.fingerprint == fingerprint && r.verdict == Some(CERTIFIED)
    && FullRelease in r.gates && r.gates[FullRelease] == PASS
    && ExactPipeline in r.gates && r.gates[ExactPipeline] == PASS
  }

  /** `_matching_deterministic_report`: the first acceptable report, unreadable ones skipped. */
  method MatchingReport(reports: seq<Option<Report>>, fingerprint: string) returns (found: Option<Report>)
    ensures found.Some? ==> found in reports && Acceptable(found.value, fingerprint)
    ensures found.None? <==> forall r | r in reports :: r.Some? ==> !Acceptable(r.value, fingerprint)
  {
    for k := 0 to |reports|
      invariant forall i | 0 <= i < k :: reports[i].Some? ==> !Acceptable(reports[i].value, fingerprint)
    {
      if reports[k].Some? && Acceptable(reports[k].value, fingerprint) {
        return reports[k];
      }
    }
    found := None;
  }

  /** One runtime report: its verdict, and whether each invariant sample had failures. */
  datatype Evidence = Evidence(passed: bool, samples: Option<seq<bool>>)

  predicate CleanEvidence(evidence: seq<Evidence>) {
    evidence != [] &&
    forall e | e in evidence :: e.passed && e.samples.Some? && e.samples.value != [] && forall f | f in e.samples.value :: !f
  }

  /** `_runtime_invariants_pass` together with the verdicts of the runtime reports. */
  method RuntimePasses(evidence: seq<Evidence>) returns (ok: bool)
    ensures ok <==> CleanEvidence(evidence)
  {
    if evidence == [] {
      return false;
    }
    for k := 0 to |evidence|
      invariant forall i | 0 <= i < k :: var e := evidence[i];
                  e.passed && e.samples.Some? && e.samples.value != [] && forall f | f in e.samples.value :: !f
    {
      var e := evidence[k];
      if !e.passed || e.samples.None? || e.samples.value == [] || (exists f | f in e.samples.value :: f) {
        assert e in evidence;
        return false;
      }
    }
    ok := true;
  }

  /** `_run_live_certification`; `ready` is the provider preflight, `groupPassed` the live test group. */
  method RunLive(reports: seq<Option<Report>>, fingerprint: string, ready: bool, groupPassed: bool, evidence: seq<Evidence>)
    returns (report: Report, exitCode: int)
    ensures report.mode == Live && report.fingerprint == fingerprint
    ensures report.safe <==> && ready && groupPassed && CleanEvidence(evidence)
                             && exists r :: r in reports && r.Some? && Acceptable(r.value, fingerprint)
    ensures exitCode == 0 <==> report.safe
  {
    var found := MatchingReport(reports, fingerprint);
    if !ready || found.None? {
      report := Report(Live, fingerprint, Some(BLOCKED), map[LiveCanary := OtherStatus(BLOCKED)], false);
      exitCode := 2;
      return;
    }
    var clean := RuntimePasses(evidence);
    var passed := groupPassed && clean;
    var gates := found.value.gates[LiveCanary := if passed then PASS else FAIL];
    var safe := forall g | g in gates :: gates[g] == PASS;
    assert gates[LiveCanary] == PASS <==> passed;
    report := Report(Live, fingerprint, None, gates, safe);
    exitCode := if safe then 0 else 1;
  }

  // ---- The release aggregate ---------------------------------------------------------------------

  datatype LaneName = A04 | OtherLane(name: int)

  /** One required lane; `certified` when its receipt is sealed, current, consistent and CERTIFIED. */
  datatype Lane = Lane(name: LaneName, certified: bool)

  datatype Problem = JobFailed(index: nat) | LaneInvalid(lane: LaneName)

  predicate ReleaseClean(jobs: seq<bool>, lanes: seq<Lane>) {
    (forall i | 0 <= i < |jobs| :: jobs[i]) && forall l | l in lanes :: l.certified
  }

  predicate ExactLaneCertified(lanes: seq<Lane>) {
    exists l | l in lanes :: l.name == A04 && l.certified
  }

  /**
   `aggregate`: `jobs` says of each required job whether it succeeded. The lanes of a plan have distinct names.
   Its report meets the live prerequisite exactly for a clean release with a certified exact-pipeline lane under a
   plan that is not a core plan: a core plan leaves the full release NOT_RUN.
   */
  method Aggregate(jobs: seq<bool>, lanes: seq<Lane>, fingerprint: string, core: bool) returns (report: Report)
    requires forall i, j | 0 <= i < j < |lanes| :: lanes[i].name != lanes[j].name
    ensures report.mode == Deterministic && report.fingerprint == fingerprint && !report.safe
    ensures report.verdict == Some(if ReleaseClean(jobs, lanes) then CERTIFIED else NONCERTIFIED)
    ensures CoreRelease in report.gates <==> core
    ensures core ==> FullRelease in report.gates && report.gates[FullRelease] == NOT_RUN
    ensures core ==> (report.gates[CoreRelease] == PASS <==> ReleaseClean(jobs, lanes))
    ensures forall f :: Acceptable(report, f) <==> !core && f == fingerprint && ReleaseClean(jobs, lanes) && ExactLaneCertified(lanes)
  {
    var problems: seq<Problem> := [];
    for k := 0 to |jobs|
      invariant problems == [] <==> forall i | 0 <= i < k :: jobs[i]
    {
      if !jobs[k] {
        problems := problems + [JobFailed(k)];
      }
    }
    var results: map<LaneName, bool> := map[];
    for k := 0 to |lanes|
      invariant problems == [] <==> (forall i | 0 <= i < |jobs| :: jobs[i]) && forall l | l in lanes[..k] :: l.certified
      invariant forall n :: n in results <==> exists l | l in lanes[..k] :: l.name == n
      invariant forall l | l in lanes[..k] :: results[l.name] == l.certified
    {
      assert lanes[..k + 1] == lanes[..k] + [lanes[k]];
      results := results[lanes[k].name := lanes[k].certified];
      if !lanes[k].certified {
        problems := problems + [LaneInvalid(lanes[k].name)];
      }
    }
    assert lanes[..|lanes|] == lanes;
    var clean, exact := problems == [], A04 in results && results[A04];
    assert exact <==> ExactLaneCertified(lanes);
    report := Report(Deterministic, fingerprint, Some(if clean then CERTIFIED else NONCERTIFIED), AggregateGates(clean, exact, core), false);
    AggregateAcceptable(report, clean, exact, core);
  }

  /** The gates of an aggregate; a core plan moves the release status to its own gate. */
  function AggregateGates(clean: bool, exact: bool, core: bool): map<Gate, Status> {
    var full := if clean then PASS else FAIL;
    var gates := map[FullRelease := full, ExactPipeline := if exact then PASS else FAIL, LiveCanary := NOT_RUN];
    if core then gates[CoreRelease := full][FullRelease := NOT_RUN] else gates
  }

  lemma {:induction false} AggregateAcceptable(r: Report, clean: bool, exact: bool, core: bool)
    requires r.mode == Deterministic && r.verdict == Some(if clean then CERTIFIED else NONCERTIFIED)
    requires r.gates == AggregateGates(clean, exact, core)
    ensures forall f :: Acceptable(r, f) <==> !core && f == r.fingerprint && clean && exact
  {
    assert r.gates[FullRelease] == if core then NOT_RUN else if clean then PASS else FAIL;
    assert r.gates[ExactPipeline] == if exact then PASS else FAIL;
  }

  // ---- The promotion chain -----------------------------------------------------------------------

  /** The shapes of report the two runners write: the full deterministic one, the one without gates, the live ones. */
  predicate WrittenByRunner(r: Report) {
    || (r.mode == Deterministic && r.verdict.Some?
        && r.gates == map[ExactPipeline := OtherStatus(r.verdict.value), FullRelease := NOT_RUN, LiveCanary := NOT_RUN])
    || (r.mode == Deterministic && r.gates == map[])
    || r.mode == Live
  }

  /** No report of either runner, certified or not, meets the live prerequisite. */
  lemma {:induction false} OwnReportsNeverPromote(r: Report, fingerprint: string)
    requires WrittenByRunner(r)
    ensures !Acceptable(r, fingerprint)
  {
    if r.mode == Deterministic && r.gates != map[] {
      assert r.gates[FullRelease] == NOT_RUN;
    }
  }

  /** A certified candidate adds nothing: the live run is safe exactly when an earlier report already met its prerequisite. */
  method CertifyThenGoLive(
    o: Observed, earlier: seq<Option<Report>>, fingerprint: string, ready: bool, groupPassed: bool, evidence: seq<Evidence>)
    returns (candidate: Report, live: Report, exitCode: int)
    ensures candidate.verdict == Some(CERTIFIED) <==> CleanRun(o)
    ensures live.safe <==> && ready && groupPassed && CleanEvidence(evidence)
                           && exists r :: r in earlier && r.Some? && Acceptable(r.value, fingerprint) && !WrittenByRunner(r.value)
    ensures exitCode == 0 <==> live.safe
  {
    candidate := RunExact(o, fingerprint);
    var reports := [Some(candidate)] + earlier;
    live, exitCode := RunLive(reports, fingerprint, ready, groupPassed, evidence);
    forall r | r in reports && r.Some? && WrittenByRunner(r.value) ensures !Acceptable(r.value, fingerprint) {
      OwnReportsNeverPromote(r.value, fingerprint);
    }
    assert forall r :: r in reports <==> r == Some(candidate) || r in earlier;
  }

  /** An aggregated release does promote, unless its plan is a core plan: the live run is then safe whenever its own checks pass. */
  method AggregateThenGoLive(
    jobs: seq<bool>, lanes: seq<Lane>, core: bool, earlier: seq<Option<Report>>, fingerprint: string, ready: bool,
    groupPassed: bool, evidence: seq<Evidence>)
    returns (release: Report, live: Report, exitCode: int)
    requires forall i, j | 0 <= i < j < |lanes| :: lanes[i].name != lanes[j].name
    ensures live.safe <==>
            && ready && groupPassed && CleanEvidence(evidence)
            && ((!core && ReleaseClean(jobs, lanes) && ExactLaneCertified(lanes))
                || exists r :: r in earlier && r.Some? && Acceptable(r.value, fingerprint))
    ensures exitCode == 0 <==> live.safe
  {
    release := Aggregate(jobs, lanes, fingerprint, core);
    var reports := [Some(release)] + earlier;
    live, exitCode := RunLive(reports, fingerprint, ready, groupPassed, evidence);
    assert forall r :: r in reports <==> r == Some(release) || r in earlier;
    assert Some(release) in reports;
  }
}
