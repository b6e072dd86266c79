/** Choosing a candidate from its reports, finalising its report, and creating a release from it. */
module ReleaseDecision {
  import opened Wrappers
  import opened Domain
  import opened Registry
  import opened Evaluation
  import opened Counting
  import opened Generalization

  datatype Stage = ValidationStage | TestStage | FinalStage

  datatype Verdict = Eligible | InsufficientEvidence | Rejected

  datatype Decision = Decision(
    candidateId: string,
    targetName: string,
    contractHash: string,
    snapshotId: string,
    baselineReleaseId: ReleaseId,
    verdict: Verdict,
    selectedReportId: string,
    blockers: seq<string>)

  /** Measured latency and cost of a candidate's cascade. */
  datatype Measured = Measured(p95: Option<real>, memoryMb: Option<real>, throughput: Option<real>, cascadeCost: Option<real>, localComputeCost: real)

  datatype Report = Report(
    reportId: string,
    stage: Stage,
    candidateId: string,
    targetName: string,
    contractHash: string,
    snapshotId: string,
    baselineReleaseId: ReleaseId,
    local: MetricSummary,
    generalization: GeneralizationSummary,
    measured: Measured,
    faultFallbackPasses: bool,
    decision: Option<Decision>)

  datatype L4Baseline = L4Baseline(
    targetName: string,
    contractHash: string,
    releaseId: ReleaseId,
    coverage: Option<real>,
    p95: Option<real>,
    servingCost: Option<real>)

  datatype Baseline = Baseline(release: Release, report: Option<Report>, l4: Option<L4Baseline>)

  datatype Optimize = OptimizeCoverage | OptimizeLatency | OptimizeCost

  datatype CoverageObjective = Maximize | Hold | NoObjective

  datatype ReleaseRequirements = ReleaseRequirements(
    transfer: Requirements,
    precisionMin: real,
    wrongAcceptRateMax: Option<real>,
    p95Max: Option<real>,
    memoryMbMax: Option<real>,
    throughputMin: Option<real>,
    servingCostMax: Option<real>,
    coverageObjective: CoverageObjective)

  datatype Objective = Objective(optimize: Optimize, requirements: Option<ReleaseRequirements>)

  datatype Result = Result(name: string, status: Evidence)

  // ---------------------------------------------------------------------------
  // Checks on one report
  // ---------------------------------------------------------------------------

  function FailIf(failed: bool): Evidence { if failed then Fail else Pass }

  function PrecisionLowerBound(m: MetricSummary): Option<real> {
    if m.acceptedCount == 0 then None
    else
      var p := (if m.precision.Some? then m.precision.value else 0.0) - 0.05;
      Some(if p < 0.0 then 0.0 else p)
  }

  function WrongAcceptUpperBound(m: MetricSummary): real {
    var r := Ratio(m.wrongAcceptCount, m.acceptedCount) + 0.05;
    if r > 1.0 then 1.0 else r
  }

  /** A result that is only reported when it is asked for. */
  function When(asked: bool, result: Result): seq<Result> {
    if asked then [result] else []
  }

  function QualityChecks(m: MetricSummary, q: ReleaseRequirements): seq<Result> {
    [if m.acceptedCount < q.transfer.minAcceptedSamples then Result("min_accepted_samples", Insufficient)
     else Result("precision_min", FailIf(!Reaches(JudgedPrecision(m), q.precisionMin)))]
    + When(q.wrongAcceptRateMax.Some?, Result("wrong_accept_rate_max", FailIf(Exceeds(Some(WrongAcceptUpperBound(m)), q.wrongAcceptRateMax))))
  }

  /** The precision that is judged: the lower bound, when something was accepted. */
  function JudgedPrecision(m: MetricSummary): Option<real> {
    if PrecisionLowerBound(m).Some? then PrecisionLowerBound(m) else m.precision
  }

  /** A value that must be known and reach its bound. */
  predicate Reaches(value: Option<real>, bound: real) { value.Some? && value.value >= bound }

  /** A value that is missing or above the bound that is set. */
  predicate Exceeds(value: Option<real>, bound: Option<real>) { bound.Some? && (value.None? || value.value > bound.value) }

  /** A value that is missing or below the bound that is set. */
  predicate FallsShort(value: Option<real>, bound: Option<real>) { bound.Some? && !Reaches(value, bound.value) }

  function KnownOrZero(value: Option<real>): Option<real> { if value.Some? then value else Some(0.0) }

  /** Of the measured resources only a missing latency counts as zero. */
  function ResourceChecks(measured: Measured, q: ReleaseRequirements): seq<Result> {
    When(q.p95Max.Some?, Result("p95_latency_ms_max", FailIf(Exceeds(KnownOrZero(measured.p95), q.p95Max))))
    + When(q.memoryMbMax.Some?, Result("memory_mb_max", FailIf(Exceeds(measured.memoryMb, q.memoryMbMax))))
    + When(q.throughputMin.Some?, Result("throughput_per_second_min", FailIf(FallsShort(measured.throughput, q.throughputMin))))
    + When(q.servingCostMax.Some?, Result("serving_cost_per_1000_max", FailIf(Exceeds(measured.cascadeCost, q.servingCostMax))))
  }

  function TransferChecks(g: GeneralizationSummary, q: Requirements): seq<Result> {
    When(q.precisionDropMax.Some?, Result("precision_drop", if g.precisionDrop.None? then Insufficient else FailIf(DropTooLarge(g.precisionDrop, q))))
    + When(q.coverageRetentionMin.Some?, Result("coverage_retention", if g.coverageRetention.None? then Insufficient else FailIf(RetentionTooSmall(g.coverageRetention, q))))
    + When(g.minSliceCheck != Pass, Result("min_slice_samples", g.minSliceCheck))
  }

  function CriticalChecks(cohort: CohortFloor, q: Requirements): seq<Result> {
    if q.criticalSlices == [] then []
    else if cohort.criticalMissing > 0 || cohort.criticalMinSamples < q.minSliceSamples then [Result("critical_slices", Insufficient)]
    else
      When(q.criticalPrecisionMin.Some?, Result("critical_slice_precision_min", FailIf(FallsShort(cohort.criticalMinPrecision, q.criticalPrecisionMin))))
      + When(q.criticalCoverageMin.Some?, Result("critical_slice_coverage_min", FailIf(FallsShort(cohort.criticalMinCoverage, q.criticalCoverageMin))))
  }

  /** The requirement results of a candidate, one per configured bound. */
  function CheckRequirements(m: MetricSummary, g: GeneralizationSummary, measured: Measured, q: ReleaseRequirements): seq<Result> {
    QualityChecks(m, q) + ResourceChecks(measured, q) + TransferChecks(g, q.transfer) + CriticalChecks(g.cohort, q.transfer) + [Result("generalization", g.evidence)]
  }

  function CandidateServingCost(r: Report): real {
    if r.measured.cascadeCost.Some? then r.measured.cascadeCost.value else r.measured.localComputeCost
  }

  function BaselineCoverage(b: Baseline): Option<real> {
    if b.report.Some? then Some(b.report.value.local.coverage) else if b.l4.Some? then b.l4.value.coverage else None
  }

  function BaselineP95(b: Baseline): Option<real> {
    if b.report.Some? then b.report.value.measured.p95 else if b.l4.Some? then b.l4.value.p95 else None
  }

  function BaselineCost(b: Baseline): Option<real> {
    if b.report.Some? then Some(CandidateServingCost(b.report.value)) else if b.l4.Some? then b.l4.value.servingCost else None
  }

  predicate MaximizesCoverage(o: Objective) {
    o.optimize == OptimizeCoverage && (o.requirements.Some? ==> o.requirements.value.coverageObjective == Maximize)
  }

  function CheckBaselineImprovement(r: Report, b: Baseline, o: Objective): seq<Result> {
    When(!CoverageImproves(r, b, o), Result("baseline_coverage_improvement", Fail))
    + When(!LatencyImproves(r, b, o), Result("baseline_latency_improvement", Fail))
    + When(!CostImproves(r, b, o), Result("baseline_cost_improvement", Fail))
  }

  predicate CoverageImproves(r: Report, b: Baseline, o: Objective) {
    MaximizesCoverage(o) && BaselineCoverage(b).Some? ==> r.local.coverage > BaselineCoverage(b).value
  }

  predicate LatencyImproves(r: Report, b: Baseline, o: Objective) {
    o.optimize == OptimizeLatency && BaselineP95(b).Some? ==> r.measured.p95.Some? && r.measured.p95.value < BaselineP95(b).value
  }

  predicate CostImproves(r: Report, b: Baseline, o: Objective) {
    o.optimize == OptimizeCost && BaselineCost(b).Some? ==> CandidateServingCost(r) < BaselineCost(b).value
  }

  function QualityResults(r: Report, o: Objective): seq<Result> {
    if o.requirements.None?
    then [Result("default_quality", FailIf(!(r.local.wrongAcceptCount == 0 && r.local.acceptedCount > 0)))]
    else CheckRequirements(r.local, r.generalization, r.measured, o.requirements.value)
  }

  function CandidateResults(r: Report, b: Baseline, o: Objective): seq<Result> {
    QualityResults(r, o) + CheckBaselineImprovement(r, b, o) + When(!r.faultFallbackPasses, Result("fault_fallback", Fail))
  }

  predicate Passes(r: Report, b: Baseline, o: Objective) {
    AllPass(CandidateResults(r, b, o))
  }

  // ---------------------------------------------------------------------------
  // Selection
  // ---------------------------------------------------------------------------

  /** An objective value; nothing stands for minus infinity. */
  type Score = Option<real>

  predicate Below(a: Score, b: Score) {
    b.Some? && (a.Some? ==> a.value < b.value)
  }

  function ObjectiveScore(r: Report, o: Objective): Score {
    match o.optimize
    case OptimizeLatency => if r.measured.p95.Some? then Some(-r.measured.p95.value) else None
    case OptimizeCost => Some(-CandidateServingCost(r))
    case OptimizeCoverage => Some(r.local.coverage)
  }

  /** The first report with the greatest score. */
  function Best(reports: seq<Report>, score: Report -> Score): Report
    requires reports != []
  {
    var n := |reports| - 1;
    if n == 0 then reports[0]
    else
      var best := Best(reports[..n], score);
      if Below(score(best), score(reports[n])) then reports[n] else best
  }

  lemma {:induction false} BestIsGreatest(reports: seq<Report>, score: Report -> Score)
    requires reports != []
    ensures Best(reports, score) in reports
    ensures forall r <- reports :: !Below(score(Best(reports, score)), score(r))
  {
    var n := |reports| - 1;
    if n > 0 {
      BestIsGreatest(reports[..n], score);
    }
  }

  predicate IsTest(r: Report) { r.stage == TestStage }

  function TestReports(reports: seq<Report>): seq<Report> { Selected(reports, IsTest) }

  function PassingReports(reports: seq<Report>, b: Baseline, o: Objective): seq<Report> {
    Selected(reports, (r: Report) => Passes(r, b, o))
  }

  function Blockers(results: seq<Result>): seq<string> {
    if results == [] then []
    else
      var n := |results| - 1;
      Blockers(results[..n]) + (if results[n].status != Pass then [results[n].name] else [])
  }

  /** The reports, and the baseline they are compared with, belong together. */
  predicate ComparableReports(reports: seq<Report>, b: Baseline) {
    && (b.release.candidateId.None? ==> b.l4.Some?)
    && (b.release.candidateId.Some? ==> b.report.Some?)
    && reports != []
    && (forall r <- reports ::
          && r.stage in {ValidationStage, TestStage} && r.decision.None?
          && r.baselineReleaseId == b.release.releaseId
          && r.snapshotId == reports[0].snapshotId
          && r.targetName == b.release.targetName && r.contractHash == b.release.contractHash)
    && (b.report.Some? ==>
          var br := b.report.value;
          && br.targetName == b.release.targetName && br.contractHash == b.release.contractHash
          && b.release.reportId == Some(br.reportId) && b.release.candidateId == Some(br.candidateId)
          && (b.release.snapshotId.Some? ==> b.release.snapshotId.value == br.snapshotId))
    && (b.l4.Some? ==>
          && b.l4.value.targetName == b.release.targetName && b.l4.value.contractHash == b.release.contractHash
          && b.l4.value.releaseId == b.release.releaseId)
  }

  function Decide(best: Report, results: seq<Result>): Decision {
    var blockers := Blockers(results);
    var hasFail := exists x <- results :: x.status == Fail;
    var hasInsufficient := exists x <- results :: x.status == Insufficient;
    Decision(best.candidateId, best.targetName, best.contractHash, best.snapshotId, best.baselineReleaseId,
             if blockers == [] then Eligible else if hasInsufficient && !hasFail then InsufficientEvidence else Rejected,
             best.reportId, blockers)
  }

  function Compare(reports: seq<Report>, b: Baseline, o: Objective): Option<Decision> {
    if !ComparableReports(reports, b) then None
    else
      var tests := TestReports(reports);
      if tests == [] then
        var best := Best(reports, (r: Report) => Some(r.local.coverage));
        Some(Decision(best.candidateId, best.targetName, best.contractHash, best.snapshotId, best.baselineReleaseId,
                      InsufficientEvidence, best.reportId, ["test_report_required"]))
      else
        var passing := PassingReports(tests, b, o);
        var best := Best(if passing != [] then passing else tests, (r: Report) => ObjectiveScore(r, o));
        Some(Decide(best, CandidateResults(best, b, o)))
  }

  lemma OneMorePasses(tests: seq<Report>, r: Report, b: Baseline, o: Objective)
    ensures PassingReports(tests + [r], b, o) == PassingReports(tests, b, o) + (if Passes(r, b, o) then [r] else [])
  {
    SelectedOneMore(tests, r, (x: Report) => Passes(x, b, o));
  }

  method FilterReports(reports: seq<Report>, b: Baseline, o: Objective) returns (tests: seq<Report>, passing: seq<Report>)
    ensures tests == TestReports(reports) && passing == PassingReports(tests, b, o)
  {
    tests, passing := [], [];
    for i := 0 to |reports|
      invariant tests == TestReports(reports[..i])
      invariant passing == PassingReports(tests, b, o)
    {
      SelectedGrows(reports, i, IsTest);
      if reports[i].stage == TestStage {
        OneMorePasses(tests, reports[i], b, o);
        if Passes(reports[i], b, o) {
          passing := passing + [reports[i]];
        }
        tests := tests + [reports[i]];
      }
    }
    assert reports[..|reports|] == reports;
  }

  method CompareCandidates(reports: seq<Report>, b: Baseline, o: Objective) returns (decision: Option<Decision>)
    ensures decision == Compare(reports, b, o)
  {
    if !ComparableReports(reports, b) {
      return None;
    }
    var tests, passing := FilterReports(reports, b, o);
    if tests == [] {
      var widest := Best(reports, (r: Report) => Some(r.local.coverage));
      return Some(Decision(widest.candidateId, widest.targetName, widest.contractHash, widest.snapshotId, widest.baselineReleaseId,
                           InsufficientEvidence, widest.reportId, ["test_report_required"]));
    }
    var best := Best(if passing != [] then passing else tests, (r: Report) => ObjectiveScore(r, o));
    decision := Some(Decide(best, CandidateResults(best, b, o)));
  }

  lemma TestReportsAreTests(reports: seq<Report>)
    ensures forall r: Report :: r in TestReports(reports) <==> r in reports && r.stage == TestStage
  {
    SelectedSatisfy(reports, IsTest);
  }

  lemma PassingReportsPass(reports: seq<Report>, b: Baseline, o: Objective)
    ensures forall r: Report :: r in PassingReports(reports, b, o) <==> r in reports && Passes(r, b, o)
  {
    SelectedSatisfy(reports, (r: Report) => Passes(r, b, o));
  }

  lemma {:induction false} NoBlockersMeansAllPass(results: seq<Result>)
    ensures Blockers(results) == [] <==> AllPass(results)
  {
    if results != [] {
      NoBlockersMeansAllPass(results[..|results| - 1]);
    }
  }

  /** A report the decision could release: tested, and passing every check. */
  ghost predicate Releasable(r: Report, reports: seq<Report>, b: Baseline, o: Objective) {
    r in reports && r.stage == TestStage && Passes(r, b, o)
  }

  /** The passing test reports are just the releasable ones. */
  lemma PassingTestsAreReleasable(reports: seq<Report>, b: Baseline, o: Objective)
    ensures forall r: Report :: r in PassingReports(TestReports(reports), b, o) <==> Releasable(r, reports, b, o)
  {
    TestReportsAreTests(reports);
    PassingReportsPass(TestReports(reports), b, o);
  }

  /** The report the selection settles on. */
  function Settled(reports: seq<Report>, b: Baseline, o: Objective): Report
    requires TestReports(reports) != []
  {
    var passing := PassingReports(TestReports(reports), b, o);
    Best(if passing != [] then passing else TestReports(reports), (r: Report) => ObjectiveScore(r, o))
  }

  lemma SettledIsBest(reports: seq<Report>, b: Baseline, o: Objective)
    requires TestReports(reports) != []
    ensures var best := Settled(reports, b, o);
            var passing := PassingReports(TestReports(reports), b, o);
            && (best in passing <==> passing != [])
            && (Passes(best, b, o) <==> passing != [])
            && (forall r <- passing :: !Below(ObjectiveScore(best, o), ObjectiveScore(r, o)))
  {
    var score := (r: Report) => ObjectiveScore(r, o);
    var tests := TestReports(reports);
    var passing := PassingReports(tests, b, o);
    PassingReportsPass(tests, b, o);
    BestIsGreatest(if passing != [] then passing else tests, score);
    forall r | r in passing ensures !Below(ObjectiveScore(Settled(reports, b, o), o), ObjectiveScore(r, o)) {
      assert !Below(score(Settled(reports, b, o)), score(r));
    }
  }

  /** A releasable report that no releasable one scores above. */
  ghost predicate Champion(best: Report, reports: seq<Report>, b: Baseline, o: Objective) {
    Releasable(best, reports, b, o) && forall r :: Releasable(r, reports, b, o) ==> !Below(ObjectiveScore(best, o), ObjectiveScore(r, o))
  }

  lemma VerdictOnSettled(reports: seq<Report>, b: Baseline, o: Objective)
    requires TestReports(reports) != []
    ensures Compare(reports, b, o).Some? ==>
            var d, best := Compare(reports, b, o).value, Settled(reports, b, o);
            && (d.verdict == Eligible <==> PassingReports(TestReports(reports), b, o) != [])
            && d.selectedReportId == best.reportId && d.candidateId == best.candidateId
  {
    var best := Settled(reports, b, o);
    SettledIsBest(reports, b, o);
    NoBlockersMeansAllPass(CandidateResults(best, b, o));
  }

  lemma SettledIsChampion(reports: seq<Report>, b: Baseline, o: Objective)
    ensures PassingReports(TestReports(reports), b, o) != [] ==>
              TestReports(reports) != [] && Champion(Settled(reports, b, o), reports, b, o)
  {
    PassingTestsAreReleasable(reports, b, o);
    if TestReports(reports) != [] {
      SettledIsBest(reports, b, o);
    }
  }

  /** A decision is eligible exactly when some test report passes every check, and then it names such a
      report, with no releasable report scoring higher. */
  lemma EligibleIffSomeTestPasses(reports: seq<Report>, b: Baseline, o: Objective)
    ensures Compare(reports, b, o).Some? ==>
            var d := Compare(reports, b, o).value;
            && (d.verdict == Eligible <==> exists r :: Releasable(r, reports, b, o))
            && (d.verdict == Eligible ==>
                  exists best :: Champion(best, reports, b, o) && d.selectedReportId == best.reportId && d.candidateId == best.candidateId)
  {
    if PassingReports(TestReports(reports), b, o) != [] {
      SettledIsChampion(reports, b, o);
      VerdictOnSettled(reports, b, o);
    } else {
      PassingTestsAreReleasable(reports, b, o);
      if TestReports(reports) != [] {
        VerdictOnSettled(reports, b, o);
      }
    }
  }

  // ---------------------------------------------------------------------------
  // What passing means
  // ---------------------------------------------------------------------------

  predicate AllPass(results: seq<Result>) {
    forall x <- results :: x.status == Pass
  }

  lemma AllPassConcat(a: seq<Result>, b: seq<Result>)
    ensures AllPass(a + b) <==> AllPass(a) && AllPass(b)
  {
    assert forall x :: x in a + b <==> x in a || x in b;
  }

  lemma WhenPasses(asked: bool, result: Result)
    ensures AllPass(When(asked, result)) <==> (asked ==> result.status == Pass)
  {
    assert asked ==> When(asked, result)[0] == result;
  }

  /** No bound that is set is exceeded. */
  predicate AtMost(value: Option<real>, bound: Option<real>) { bound.Some? ==> value.Some? && value.value <= bound.value }

  predicate AtLeast(value: Option<real>, bound: Option<real>) { bound.Some? ==> value.Some? && value.value >= bound.value }

  predicate QualityMet(m: MetricSummary, q: ReleaseRequirements) {
    && m.acceptedCount >= q.transfer.minAcceptedSamples && AtLeast(JudgedPrecision(m), Some(q.precisionMin))
    && AtMost(Some(WrongAcceptUpperBound(m)), q.wrongAcceptRateMax)
  }

  predicate ResourcesMet(measured: Measured, q: ReleaseRequirements) {
    && AtMost(KnownOrZero(measured.p95), q.p95Max) && AtMost(measured.memoryMb, q.memoryMbMax)
    && AtLeast(measured.throughput, q.throughputMin) && AtMost(measured.cascadeCost, q.servingCostMax)
  }

  predicate TransferMet(g: GeneralizationSummary, q: Requirements) {
    AtMost(g.precisionDrop, q.precisionDropMax) && AtLeast(g.coverageRetention, q.coverageRetentionMin) && g.minSliceCheck == Pass
  }

  predicate CriticalMet(cohort: CohortFloor, q: Requirements) {
    q.criticalSlices != [] ==>
      && cohort.criticalMissing == 0 && cohort.criticalMinSamples >= q.minSliceSamples
      && AtLeast(cohort.criticalMinPrecision, q.criticalPrecisionMin) && AtLeast(cohort.criticalMinCoverage, q.criticalCoverageMin)
  }

  predicate RequirementsMet(m: MetricSummary, g: GeneralizationSummary, measured: Measured, q: ReleaseRequirements) {
    && QualityMet(m, q) && ResourcesMet(measured, q) && TransferMet(g, q.transfer) && CriticalMet(g.cohort, q.transfer)
    && g.evidence == Pass
  }

  lemma QualityPasses(m: MetricSummary, q: ReleaseRequirements)
    ensures AllPass(QualityChecks(m, q)) <==> QualityMet(m, q)
  {
    var first := if m.acceptedCount < q.transfer.minAcceptedSamples then Result("min_accepted_samples", Insufficient)
                 else Result("precision_min", FailIf(!Reaches(JudgedPrecision(m), q.precisionMin)));
    var second := Result("wrong_accept_rate_max", FailIf(Exceeds(Some(WrongAcceptUpperBound(m)), q.wrongAcceptRateMax)));
    WhenPasses(true, first);
    WhenPasses(q.wrongAcceptRateMax.Some?, second);
    AllPassConcat(When(true, first), When(q.wrongAcceptRateMax.Some?, second));
  }

  lemma FourPass(a: seq<Result>, b: seq<Result>, c: seq<Result>, d: seq<Result>)
    ensures AllPass(a + b + c + d) <==> AllPass(a) && AllPass(b) && AllPass(c) && AllPass(d)
  {
    AllPassConcat(a + b + c, d);
    AllPassConcat(a + b, c);
    AllPassConcat(a, b);
  }

  lemma ThreePass(a: seq<Result>, b: seq<Result>, c: seq<Result>)
    ensures AllPass(a + b + c) <==> AllPass(a) && AllPass(b) && AllPass(c)
  {
    AllPassConcat(a + b, c);
    AllPassConcat(a, b);
  }

  lemma ResourcesPass(measured: Measured, q: ReleaseRequirements)
    ensures AllPass(ResourceChecks(measured, q)) <==> ResourcesMet(measured, q)
  {
    var latency := Result("p95_latency_ms_max", FailIf(Exceeds(KnownOrZero(measured.p95), q.p95Max)));
    var memory := Result("memory_mb_max", FailIf(Exceeds(measured.memoryMb, q.memoryMbMax)));
    var throughput := Result("throughput_per_second_min", FailIf(FallsShort(measured.throughput, q.throughputMin)));
    var cost := Result("serving_cost_per_1000_max", FailIf(Exceeds(measured.cascadeCost, q.servingCostMax)));
    WhenPasses(q.p95Max.Some?, latency);
    WhenPasses(q.memoryMbMax.Some?, memory);
    WhenPasses(q.throughputMin.Some?, throughput);
    WhenPasses(q.servingCostMax.Some?, cost);
    FourPass(When(q.p95Max.Some?, latency), When(q.memoryMbMax.Some?, memory), When(q.throughputMin.Some?, throughput), When(q.servingCostMax.Some?, cost));
  }

  lemma TransferPasses(g: GeneralizationSummary, q: Requirements)
    ensures AllPass(TransferChecks(g, q)) <==> TransferMet(g, q)
  {
    var drop := Result("precision_drop", if g.precisionDrop.None? then Insufficient else FailIf(DropTooLarge(g.precisionDrop, q)));
    var retention := Result("coverage_retention", if g.coverageRetention.None? then Insufficient else FailIf(RetentionTooSmall(g.coverageRetention, q)));
    var slices := Result("min_slice_samples", g.minSliceCheck);
    WhenPasses(q.precisionDropMax.Some?, drop);
    WhenPasses(q.coverageRetentionMin.Some?, retention);
    WhenPasses(g.minSliceCheck != Pass, slices);
    ThreePass(When(q.precisionDropMax.Some?, drop), When(q.coverageRetentionMin.Some?, retention), When(g.minSliceCheck != Pass, slices));
  }

  lemma CriticalPasses(cohort: CohortFloor, q: Requirements)
    ensures AllPass(CriticalChecks(cohort, q)) <==> CriticalMet(cohort, q)
  {
    var precision := Result("critical_slice_precision_min", FailIf(FallsShort(cohort.criticalMinPrecision, q.criticalPrecisionMin)));
    var coverage := Result("critical_slice_coverage_min", FailIf(FallsShort(cohort.criticalMinCoverage, q.criticalCoverageMin)));
    WhenPasses(q.criticalPrecisionMin.Some?, precision);
    WhenPasses(q.criticalCoverageMin.Some?, coverage);
    AllPassConcat(When(q.criticalPrecisionMin.Some?, precision), When(q.criticalCoverageMin.Some?, coverage));
    WhenPasses(true, Result("critical_slices", Insufficient));
  }

  /** The results all pass exactly when every bound that is set is met. */
  lemma ChecksPassIff(m: MetricSummary, g: GeneralizationSummary, measured: Measured, q: ReleaseRequirements)
    ensures AllPass(CheckRequirements(m, g, measured, q)) <==> RequirementsMet(m, g, measured, q)
  {
    var quality, resources, transfer, critical := QualityChecks(m, q), ResourceChecks(measured, q), TransferChecks(g, q.transfer), CriticalChecks(g.cohort, q.transfer);
    QualityPasses(m, q);
    ResourcesPass(measured, q);
    TransferPasses(g, q.transfer);
    CriticalPasses(g.cohort, q.transfer);
    WhenPasses(true, Result("generalization", g.evidence));
    AllPassConcat(quality + resources + transfer + critical, When(true, Result("generalization", g.evidence)));
    FourPass(quality, resources, transfer, critical);
  }

  /** Whether the report strictly beats its baseline, where the objective asks for it. */
  predicate Improves(r: Report, b: Baseline, o: Objective) {
    CoverageImproves(r, b, o) && LatencyImproves(r, b, o) && CostImproves(r, b, o)
  }

  /** The quality that is asked for: every bound that is set, or without bounds some accepts and none wrong. */
  predicate QualityAsked(r: Report, o: Objective) {
    if o.requirements.Some? then RequirementsMet(r.local, r.generalization, r.measured, o.requirements.value)
    else r.local.wrongAcceptCount == 0 && r.local.acceptedCount > 0
  }

  lemma ImprovementPasses(r: Report, b: Baseline, o: Objective)
    ensures AllPass(CheckBaselineImprovement(r, b, o)) <==> Improves(r, b, o)
  {
    var coverage, latency, cost :=
      Result("baseline_coverage_improvement", Fail), Result("baseline_latency_improvement", Fail), Result("baseline_cost_improvement", Fail);
    WhenPasses(!CoverageImproves(r, b, o), coverage);
    WhenPasses(!LatencyImproves(r, b, o), latency);
    WhenPasses(!CostImproves(r, b, o), cost);
    ThreePass(When(!CoverageImproves(r, b, o), coverage), When(!LatencyImproves(r, b, o), latency), When(!CostImproves(r, b, o), cost));
  }

  lemma QualityResultsPass(r: Report, o: Objective)
    ensures AllPass(QualityResults(r, o)) <==> QualityAsked(r, o)
  {
    if o.requirements.Some? {
      ChecksPassIff(r.local, r.generalization, r.measured, o.requirements.value);
    } else {
      WhenPasses(true, Result("default_quality", FailIf(!(r.local.wrongAcceptCount == 0 && r.local.acceptedCount > 0))));
    }
  }

  /** A report passes exactly when it meets what is asked for, beats its baseline and survives its faults. */
  lemma PassingMeetsTheRequirements(r: Report, b: Baseline, o: Objective)
    ensures Passes(r, b, o) <==> QualityAsked(r, o) && Improves(r, b, o) && r.faultFallbackPasses
  {
    QualityResultsPass(r, o);
    ImprovementPasses(r, b, o);
    WhenPasses(!r.faultFallbackPasses, Result("fault_fallback", Fail));
    ThreePass(QualityResults(r, o), CheckBaselineImprovement(r, b, o), When(!r.faultFallbackPasses, Result("fault_fallback", Fail)));
  }

  /** With metrics computed from evaluated rows, whatever passes has accepted something, and under a bound on the
      precision its judged precision is the lower bound. */
  lemma PassingHasAccepted(r: Report, b: Baseline, o: Objective, rows: seq<Row>)
    requires Passes(r, b, o) && r.local == Summary(rows)
    ensures r.local.acceptedCount > 0
    ensures o.requirements.Some? ==> PrecisionLowerBound(r.local).Some? && PrecisionLowerBound(r.local).value >= o.requirements.value.precisionMin
  {
    PassingMeetsTheRequirements(r, b, o);
  }

  /** What the critical slices must satisfy, slice by slice: each occurs with enough samples and coverage, some of
      them accepts, and each that accepts is precise enough. A critical slice without accepts escapes the bound on
      precision. */
  predicate EveryCriticalSlice(slices: map<string, SliceStats>, q: Requirements) {
    && (forall tag <- q.criticalSlices :: tag in slices && slices[tag].samples >= q.minSliceSamples)
    && (q.criticalPrecisionMin.Some? ==>
          && (exists tag <- q.criticalSlices :: tag in slices && slices[tag].accepted > 0)
          && (forall tag <- q.criticalSlices :: tag in slices && slices[tag].accepted > 0
                                                ==> Reaches(SlicePrecision(slices[tag]), q.criticalPrecisionMin.value)))
    && (q.criticalCoverageMin.Some? ==>
          forall tag <- q.criticalSlices :: tag in slices ==> SliceCoverage(slices[tag]) >= q.criticalCoverageMin.value)
  }

  /** The check of the cohort floor is that of every critical slice. */
  lemma CriticalMeansEverySlice(slices: map<string, SliceStats>, q: Requirements)
    ensures CriticalMet(FloorOf(slices, q), q) <==> q.criticalSlices == [] || EveryCriticalSlice(slices, q)
  {
    MissingCritical(slices, q);
    if q.criticalSlices != [] && forall tag <- q.criticalSlices :: tag in slices {
      assert q.criticalSlices[0] in q.criticalSlices;
      CriticalSamplesMean(slices, q);
      CriticalPrecisionMeans(slices, q);
      CriticalCoverageMeans(slices, q);
    }
  }

  const HOME_AND_WORK: map<string, SliceStats> := map["home" := SliceStats(1, 1, 1), "work" := SliceStats(1, 0, 0)]

  const BOTH_CRITICAL: Requirements := Requirements(None, None, 0, 1, ["home", "work"], Some(1.0), None)

  /** Two critical slices, one of which accepts nothing: it escapes a precision bound of one. */
  lemma SilentSliceEscapes()
    ensures CriticalMet(FloorOf(HOME_AND_WORK, BOTH_CRITICAL), BOTH_CRITICAL)
    ensures HOME_AND_WORK["work"].accepted == 0 && BOTH_CRITICAL.criticalSlices[1] == "work"
  {
    assert BOTH_CRITICAL.criticalSlices[0] == "home";
    assert EveryCriticalSlice(HOME_AND_WORK, BOTH_CRITICAL) by {
      assert SlicePrecision(HOME_AND_WORK["home"]) == Some(1.0);
    }
    CriticalMeansEverySlice(HOME_AND_WORK, BOTH_CRITICAL);
  }

  lemma CriticalSamplesMean(slices: map<string, SliceStats>, q: Requirements)
    requires q.criticalSlices != [] && forall tag <- q.criticalSlices :: tag in slices
    ensures FloorOf(slices, q).criticalMinSamples >= q.minSliceSamples <==> forall tag <- q.criticalSlices :: slices[tag].samples >= q.minSliceSamples
  {
    var critical := Critical(slices, q);
    assert q.criticalSlices[0] in critical;
    assert forall tag :: tag in critical <==> tag in q.criticalSlices;
    LeastSampleIsWhole(slices, critical, q.minSliceSamples);
  }

  lemma MissingCritical(slices: map<string, SliceStats>, q: Requirements)
    ensures FloorOf(slices, q).criticalMissing == 0 <==> forall tag <- q.criticalSlices :: tag in slices
  {
    var asked := set tag <- q.criticalSlices;
    assert asked - Critical(slices, q) == {} <==> forall tag <- q.criticalSlices :: tag in slices by {
      assert forall tag :: tag in asked - Critical(slices, q) <==> tag in q.criticalSlices && tag !in slices;
    }
  }

  lemma CriticalPrecisionMeans(slices: map<string, SliceStats>, q: Requirements)
    ensures q.criticalPrecisionMin.Some? ==>
              (AtLeast(FloorOf(slices, q).criticalMinPrecision, q.criticalPrecisionMin)
               <==> (exists tag <- q.criticalSlices :: tag in slices && slices[tag].accepted > 0)
                    && (forall tag <- q.criticalSlices :: tag in slices && slices[tag].accepted > 0
                                                          ==> Reaches(SlicePrecision(slices[tag]), q.criticalPrecisionMin.value)))
  {
    if q.criticalPrecisionMin.Some? {
      var values := Precisions(slices, Critical(slices, q));
      LeastReaches(values, q.criticalPrecisionMin.value);
      forall tag | tag in q.criticalSlices && tag in slices && slices[tag].accepted > 0 ensures SlicePrecision(slices[tag]).value in values {
        assert tag in Critical(slices, q);
      }
    }
  }

  lemma CriticalCoverageMeans(slices: map<string, SliceStats>, q: Requirements)
    requires q.criticalSlices != [] && q.criticalSlices[0] in slices
    ensures q.criticalCoverageMin.Some? ==>
              (AtLeast(FloorOf(slices, q).criticalMinCoverage, q.criticalCoverageMin)
               <==> forall tag <- q.criticalSlices :: tag in slices ==> SliceCoverage(slices[tag]) >= q.criticalCoverageMin.value)
  {
    if q.criticalCoverageMin.Some? {
      var values := Coverages(slices, Critical(slices, q));
      LeastReaches(values, q.criticalCoverageMin.value);
      forall tag | tag in q.criticalSlices && tag in slices ensures SliceCoverage(slices[tag]) in values {
        assert tag in Critical(slices, q);
      }
      assert SliceCoverage(slices[q.criticalSlices[0]]) in values;
    }
  }

  // ---------------------------------------------------------------------------
  // Final reports and releases
  // ---------------------------------------------------------------------------

  function Finalize(r: Report, d: Decision, validation: Option<Report>, newId: string): Option<Report> {
    if || r.candidateId != d.candidateId || r.targetName != d.targetName || r.contractHash != d.contractHash
       || r.snapshotId != d.snapshotId || r.baselineReleaseId != d.baselineReleaseId then None
    else if d.verdict == Eligible && r.stage != TestStage then None
    else if d.selectedReportId != r.reportId then None
    else if r.stage == TestStage then
      if validation.None? || validation.value.stage != ValidationStage then None
      else
        var v := validation.value;
        if || v.candidateId != r.candidateId || v.targetName != r.targetName || v.contractHash != r.contractHash
           || v.snapshotId != r.snapshotId || v.baselineReleaseId != r.baselineReleaseId then None
        else Some(r.(reportId := newId, stage := FinalStage, decision := Some(d),
                     generalization := Reconcile(r.generalization, v.local, r.local, None)))
    else Some(r.(reportId := newId, stage := FinalStage, decision := Some(d)))
  }

  datatype CandidateRecord = CandidateRecord(
    candidateId: string,
    targetName: string,
    contractHash: string,
    snapshotId: string,
    baseReleaseId: ReleaseId,
    artifacts: map<Layer, Package>,
    routing: Routing,
    digestMatches: bool)

  datatype SnapshotRef = SnapshotRef(snapshotId: string, snapshotDigest: string, targetName: string, contractHash: string)

  /** `disk` says which artifact files still match their digest. */
  function CreateRelease(c: CandidateRecord, s: SnapshotRef, base: Release, r: Report, approval: Approval, newId: ReleaseId, disk: Disk): Option<Release> {
    if r.stage != FinalStage || r.decision.None? || r.decision.value.verdict != Eligible then None
    else
      var d := r.decision.value;
      if approval.candidateId != c.candidateId || approval.reportId != r.reportId then None
      else if approval.targetName != c.targetName || approval.contractHash != c.contractHash then None
      else if s.targetName != c.targetName || s.contractHash != c.contractHash then None
      else if || r.candidateId != c.candidateId || r.targetName != c.targetName || r.contractHash != c.contractHash || r.snapshotId != s.snapshotId then None
      else if || d.candidateId != c.candidateId || d.targetName != c.targetName || d.contractHash != c.contractHash || d.snapshotId != s.snapshotId then None
      else if c.snapshotId != s.snapshotId || approval.snapshotId != s.snapshotId then None
      else if base.targetName != c.targetName || base.contractHash != c.contractHash then None
      else if || c.baseReleaseId != base.releaseId || r.baselineReleaseId != base.releaseId || d.baselineReleaseId != base.releaseId then None
      else if !c.digestMatches then None
      else if exists layer <- c.artifacts :: c.artifacts[layer].snapshotDigest != s.snapshotDigest || !disk(c.artifacts[layer]) then None
      else Some(Release(newId, c.targetName, c.contractHash, Some(c.candidateId), Some(s.snapshotId), Some(s.snapshotDigest),
                        Some(r.reportId), Some(approval), c.artifacts, c.routing, Created))
  }

  /** Every artifact is filed under its own layer and carries the contract. */
  predicate Filed(artifacts: map<Layer, Package>, contractHash: string) {
    forall layer <- artifacts :: artifacts[layer].layer == layer && artifacts[layer].contractHash == contractHash
  }

  /** A created release loads back from the registry exactly when its artifacts are filed; creation itself does not
      check that. */
  lemma CreatedReleaseIsAtomic(c: CandidateRecord, s: SnapshotRef, base: Release, r: Report, approval: Approval, newId: ReleaseId, disk: Disk)
    requires CreateRelease(c, s, base, r, approval, newId, disk).Some?
    ensures var release := CreateRelease(c, s, base, r, approval, newId, disk).value;
            LoadRelease(newId, map[newId := release], disk).Some? <==> Filed(c.artifacts, c.contractHash)
  {
    var release := CreateRelease(c, s, base, r, approval, newId, disk).value;
    assert ApprovalMatches(release);
    forall layer | layer in c.artifacts ensures disk(c.artifacts[layer]) && c.artifacts[layer].snapshotDigest == s.snapshotDigest {
    }
  }

  // ---------------------------------------------------------------------------
  // Chains of releases
  // ---------------------------------------------------------------------------

  /** One turn of the loop: the reports compared, the decision's context, and what the release was created from. */
  datatype Turn = Turn(
    reports: seq<Report>,
    baseline: Baseline,
    objective: Objective,
    testReport: Report,
    validation: Option<Report>,
    candidate: CandidateRecord,
    snapshot: SnapshotRef,
    approval: Approval,
    disk: Disk)

  /** A release and the final report it was created from. */
  datatype Link = Link(release: Release, report: Report)

  /** Report identifiers are unique: `lookup` finds the one report with an identifier. */
  ghost predicate Identified(r: Report, lookup: string -> Report) {
    lookup(r.reportId) == r
  }

  /** `next` was created on `prev`: its report was finalised from a test report that the comparison with
      `prev` as baseline selected. */
  ghost predicate CreatedOn(prev: Link, next: Link, t: Turn, lookup: string -> Report) {
    && SameButStatus(prev.release, t.baseline.release)
    && (forall r <- t.reports :: Identified(r, lookup)) && Identified(t.testReport, lookup)
    && (t.baseline.report.Some? ==> Identified(t.baseline.report.value, lookup))
    && MaximizesCoverage(t.objective)
    && Compare(t.reports, t.baseline, t.objective).Some?
    && Finalize(t.testReport, Compare(t.reports, t.baseline, t.objective).value, t.validation, next.report.reportId) == Some(next.report)
    && CreateRelease(t.candidate, t.snapshot, t.baseline.release, next.report, t.approval, next.release.releaseId, t.disk) == Some(next.release)
  }

  ghost predicate Compiled(link: Link, lookup: string -> Report) {
    link.release.candidateId.Some? && link.release.reportId == Some(link.report.reportId) && Identified(link.report, lookup)
  }

  lemma SelectedIsTheTestReport(prev: Link, next: Link, t: Turn, lookup: string -> Report)
    ensures CreatedOn(prev, next, t, lookup) ==> t.testReport.stage == TestStage && Passes(t.testReport, t.baseline, t.objective)
  {
    if CreatedOn(prev, next, t, lookup) {
      var d := Compare(t.reports, t.baseline, t.objective).value;
      EligibleIffSomeTestPasses(t.reports, t.baseline, t.objective);
      var best :| Champion(best, t.reports, t.baseline, t.objective) && d.selectedReportId == best.reportId;
      assert Identified(best, lookup);
      assert best == t.testReport;
    }
  }

  lemma NextReleaseCoversMore(prev: Link, next: Link, t: Turn, lookup: string -> Report)
    requires Compiled(prev, lookup)
    ensures CreatedOn(prev, next, t, lookup) ==>
              && next.report.local.coverage > prev.report.local.coverage
              && (Identified(next.report, lookup) ==> Compiled(next, lookup))
  {
    if CreatedOn(prev, next, t, lookup) {
      SelectedIsTheTestReport(prev, next, t, lookup);
      PassingMeetsTheRequirements(t.testReport, t.baseline, t.objective);
      assert t.baseline.report.value == prev.report;
    }
  }

  /** The test report was evaluated on `rows`, under the requirements, beside the validation report. */
  ghost predicate EvaluatedOn(t: Turn, rows: seq<Row>) {
    && t.validation.Some? && t.objective.requirements.Some?
    && t.testReport.local == Summary(rows)
    && t.testReport.generalization == TestVerdict(Some(t.validation.value.local), rows, t.objective.requirements.value.transfer)
  }

  /** Reports that differ in neither metrics nor verdict pass together. */
  lemma SameMeasuresPassTogether(a: Report, z: Report, b: Baseline, o: Objective)
    requires a.local == z.local && a.generalization == z.generalization && a.measured == z.measured && a.faultFallbackPasses == z.faultFallbackPasses
    ensures Passes(a, b, o) <==> Passes(z, b, o)
  {
    assert CandidateResults(a, b, o) == CandidateResults(z, b, o);
  }

  lemma FinalizingKeepsMeasures(r: Report, d: Decision, v: Report, newId: string, rows: seq<Row>, q: Requirements)
    requires r.local == Summary(rows) && r.generalization == TestVerdict(Some(v.local), rows, q)
    requires r.stage == TestStage && Finalize(r, d, Some(v), newId).Some?
    ensures var final := Finalize(r, d, Some(v), newId).value;
            final.local == r.local && final.generalization == r.generalization && final.measured == r.measured
            && final.faultFallbackPasses == r.faultFallbackPasses
  {
    FinalizingKeepsTheVerdict(v.local, rows, q);
  }

  /** Finalising keeps such a report's verdict, so the report that a release carries still passes every check it was
      selected by. */
  lemma ReleasedReportStillPasses(prev: Link, next: Link, t: Turn, lookup: string -> Report, rows: seq<Row>)
    ensures CreatedOn(prev, next, t, lookup) && EvaluatedOn(t, rows) ==>
              && next.report.generalization == t.testReport.generalization
              && Passes(next.report, t.baseline, t.objective)
  {
    if CreatedOn(prev, next, t, lookup) && EvaluatedOn(t, rows) {
      SelectedIsTheTestReport(prev, next, t, lookup);
      FinalizingKeepsMeasures(t.testReport, Compare(t.reports, t.baseline, t.objective).value, t.validation.value, next.report.reportId, rows,
                              t.objective.requirements.value.transfer);
      SameMeasuresPassTogether(t.testReport, next.report, t.baseline, t.objective);
    }
  }

  /** A chain of compiled releases, each created on the one before it under the coverage objective. */
  ghost predicate Chain(links: seq<Link>, turns: seq<Turn>, lookup: string -> Report) {
    && |turns| + 1 == |links|
    && (forall i | 0 <= i < |links| :: Identified(links[i].report, lookup))
    && Compiled(links[0], lookup)
    && (forall i {:trigger turns[i]} | 0 <= i < |turns| :: CreatedOn(links[i], links[i + 1], turns[i], lookup))
  }

  lemma LinkCoversMore(links: seq<Link>, turns: seq<Turn>, lookup: string -> Report, i: nat)
    requires Chain(links, turns, lookup) && i + 1 < |links| && Compiled(links[i], lookup)
    ensures Compiled(links[i + 1], lookup) && links[i].report.local.coverage < links[i + 1].report.local.coverage
  {
    var turn := turns[i];
    NextReleaseCoversMore(links[i], links[i + 1], turn, lookup);
  }

  lemma {:induction false} ChainIsCompiled(links: seq<Link>, turns: seq<Turn>, lookup: string -> Report, i: nat)
    requires Chain(links, turns, lookup) && i < |links|
    ensures Compiled(links[i], lookup)
  {
    if i > 0 {
      ChainIsCompiled(links, turns, lookup, i - 1);
      LinkCoversMore(links, turns, lookup, i - 1);
    }
  }

  lemma EachLinkCoversMore(links: seq<Link>, turns: seq<Turn>, lookup: string -> Report, i: nat)
    requires Chain(links, turns, lookup) && i + 1 < |links|
    ensures links[i].report.local.coverage < links[i + 1].report.local.coverage
  {
    ChainIsCompiled(links, turns, lookup, i);
    LinkCoversMore(links, turns, lookup, i);
  }

  /** Along such a chain the test coverage strictly increases. */
  lemma {:induction false} CoverageStrictlyIncreases(links: seq<Link>, turns: seq<Turn>, lookup: string -> Report, i: nat, j: nat)
    requires Chain(links, turns, lookup) && i < j < |links|
    ensures links[i].report.local.coverage < links[j].report.local.coverage
    decreases j - i
  {
    EachLinkCoversMore(links, turns, lookup, j - 1);
    if i < j - 1 {
      CoverageStrictlyIncreases(links, turns, lookup, i, j - 1);
    }
  }
}
