/** The generalisation verdict of a candidate: validation metrics against test metrics. */
module Generalization {
  import opened Wrappers
  import opened Domain
  import opened Evaluation
  import opened Counting

  datatype Evidence = Pass | Insufficient | Fail

  datatype Requirements = Requirements(
    precisionDropMax: Option<real>,
    coverageRetentionMin: Option<real>,
    minAcceptedSamples: int,
    minSliceSamples: int,
    criticalSlices: seq<string>,
    criticalPrecisionMin: Option<real>,
    criticalCoverageMin: Option<real>)

  /** Counts over the rows that carry one slice tag, a tag that a row carries twice counting twice. */
  datatype SliceStats = SliceStats(samples: nat, accepted: nat, correct: nat)

  /** What the slices say as a group; the minima are over the critical slices there are. */
  datatype CohortFloor = CohortFloor(
    minSamples: int,
    criticalCount: nat,
    criticalMissing: nat,
    criticalMinSamples: int,
    criticalMinPrecision: Option<real>,
    criticalMinCoverage: Option<real>)

  datatype GeneralizationSummary = GeneralizationSummary(
    validationPrecision: Option<real>,
    testPrecision: Option<real>,
    validationCoverage: real,
    testCoverage: real,
    precisionDrop: Option<real>,
    coverageRetention: Option<real>,
    cohort: CohortFloor,
    minAcceptedCheck: Evidence,
    minSliceCheck: Evidence,
    evidence: Evidence)

  // ---------------------------------------------------------------------------
  // Slices
  // ---------------------------------------------------------------------------

  const NO_SAMPLES := SliceStats(0, 0, 0)

  function StatsAt(slices: map<string, SliceStats>, tag: string): SliceStats {
    if tag in slices then slices[tag] else NO_SAMPLES
  }

  function AddSample(slices: map<string, SliceStats>, tag: string, row: Row): map<string, SliceStats> {
    var s := StatsAt(slices, tag);
    slices[tag := SliceStats(s.samples + 1, s.accepted + (if IsAccepted(row) then 1 else 0), s.correct + (if IsCorrectAccept(row) then 1 else 0))]
  }

  function AddTags(slices: map<string, SliceStats>, row: Row, tags: seq<string>): map<string, SliceStats> {
    if tags == [] then slices else AddSample(AddTags(slices, row, tags[..|tags| - 1]), tags[|tags| - 1], row)
  }

  function SliceResults(rows: seq<Row>): map<string, SliceStats> {
    if rows == [] then map[]
    else
      var row := rows[|rows| - 1];
      AddTags(SliceResults(rows[..|rows| - 1]), row, row.tags)
  }

  method ComputeSliceResults(rows: seq<Row>) returns (slices: map<string, SliceStats>)
    ensures slices == SliceResults(rows)
  {
    slices := map[];
    for i := 0 to |rows|
      invariant slices == SliceResults(rows[..i])
    {
      assert rows[..i + 1][..i] == rows[..i];
      var tags := rows[i].tags;
      for j := 0 to |tags|
        invariant slices == AddTags(SliceResults(rows[..i]), rows[i], tags[..j])
      {
        assert tags[..j + 1][..j] == tags[..j];
        var s := if tags[j] in slices then slices[tags[j]] else NO_SAMPLES;
        s := s.(samples := s.samples + 1);
        if rows[i].chosen.Some? {
          s := s.(accepted := s.accepted + 1);
          if rows[i].isCorrect == Some(true) {
            s := s.(correct := s.correct + 1);
          }
        }
        slices := slices[tags[j] := s];
      }
      assert tags[..|tags|] == tags;
    }
    assert rows[..|rows|] == rows;
  }

  /** How often the rows that satisfy `p` carry the tag. */
  function TagCount(rows: seq<Row>, tag: string, p: Row -> bool): nat {
    if rows == [] then 0
    else
      var row := rows[|rows| - 1];
      TagCount(rows[..|rows| - 1], tag, p) + (if p(row) then Occurrences(row.tags, tag) else 0)
  }

  lemma {:induction false} TagsAdd(slices: map<string, SliceStats>, row: Row, tags: seq<string>, tag: string)
    ensures var before, after, n := StatsAt(slices, tag), StatsAt(AddTags(slices, row, tags), tag), Occurrences(tags, tag);
            && after.samples == before.samples + n
            && after.accepted == before.accepted + (if IsAccepted(row) then n else 0)
            && after.correct == before.correct + (if IsCorrectAccept(row) then n else 0)
            && (tag in AddTags(slices, row, tags) <==> tag in slices || n > 0)
  {
    if tags != [] {
      TagsAdd(slices, row, tags[..|tags| - 1], tag);
    }
  }

  /** The slices are the tags that occur, each with the samples, accepts and correct accepts that carry it. */
  lemma {:induction false} SlicesCountTheRows(rows: seq<Row>, tag: string)
    ensures StatsAt(SliceResults(rows), tag) == SliceStats(TagCount(rows, tag, (row: Row) => true), TagCount(rows, tag, IsAccepted), TagCount(rows, tag, IsCorrectAccept))
    ensures tag in SliceResults(rows) <==> TagCount(rows, tag, (row: Row) => true) > 0
    ensures var s := StatsAt(SliceResults(rows), tag); s.correct <= s.accepted <= s.samples
  {
    if rows != [] {
      var row := rows[|rows| - 1];
      SlicesCountTheRows(rows[..|rows| - 1], tag);
      TagsAdd(SliceResults(rows[..|rows| - 1]), row, row.tags, tag);
    }
  }

  function SlicePrecision(s: SliceStats): Option<real> {
    if s.accepted == 0 then None else Some(Ratio(s.correct, s.accepted))
  }

  function SliceCoverage(s: SliceStats): real { Ratio(s.accepted, s.samples) }

  // ---------------------------------------------------------------------------
  // The cohort floor
  // ---------------------------------------------------------------------------

  lemma SomeElement(values: set<real>)
    ensures values == {} || exists x :: x in values
  {
    if forall x :: x !in values {
      assert values == {};
    }
  }

  lemma MinExists(values: set<real>)
    requires values != {}
    ensures exists m :: m in values && forall v <- values :: m <= v
  {
    SomeElement(values);
    var x :| x in values;
    if values != {x} {
      MinExists(values - {x});
      var m :| m in values - {x} && forall v <- values - {x} :: m <= v;
      assert forall v <- values :: v == x || v in values - {x};
      assert x <= m ==> forall v <- values :: x <= v;
      assert m <= x ==> forall v <- values :: m <= v;
    }
  }

  function Least(values: set<real>): Option<real> {
    if values == {} then None
    else
      MinExists(values);
      var m :| m in values && forall v <- values :: m <= v;
      Some(m)
  }

  function Critical(slices: map<string, SliceStats>, q: Requirements): set<string> {
    set tag <- q.criticalSlices | tag in slices
  }

  function SampleCounts(slices: map<string, SliceStats>, tags: set<string>): set<real> {
    set tag <- tags | tag in slices :: slices[tag].samples as real
  }

  function Precisions(slices: map<string, SliceStats>, tags: set<string>): set<real> {
    set tag <- tags | tag in slices && SlicePrecision(slices[tag]).Some? :: SlicePrecision(slices[tag]).value
  }

  function Coverages(slices: map<string, SliceStats>, tags: set<string>): set<real> {
    set tag <- tags | tag in slices :: SliceCoverage(slices[tag])
  }

  function OrElse(least: Option<real>, default: int): int {
    if least.Some? then least.value.Floor else default
  }

  function FloorOf(slices: map<string, SliceStats>, q: Requirements): CohortFloor {
    var critical := Critical(slices, q);
    CohortFloor(
      if q.minSliceSamples > 0 then OrElse(Least(SampleCounts(slices, slices.Keys)), 0) else 0,
      |critical|,
      |(set tag <- q.criticalSlices) - critical|,
      OrElse(Least(SampleCounts(slices, critical)), if q.criticalSlices != [] then 0 else q.minSliceSamples),
      Least(Precisions(slices, critical)),
      Least(Coverages(slices, critical)))
  }

  /** Whether the slices hold enough samples. */
  function SliceCheck(slices: map<string, SliceStats>, q: Requirements): Evidence {
    if q.minSliceSamples == 0 || (slices != map[] && FloorOf(slices, q).minSamples >= q.minSliceSamples) then Pass else Insufficient
  }

  lemma LeastReaches(values: set<real>, bound: real)
    ensures Least(values).Some? ==> (Least(values).value >= bound <==> forall v <- values :: v >= bound)
  {
  }

  lemma LeastSampleIsWhole(slices: map<string, SliceStats>, tags: set<string>, bound: int)
    ensures Least(SampleCounts(slices, tags)).None? <==> forall tag <- tags :: tag !in slices
    ensures Least(SampleCounts(slices, tags)).Some? ==>
              (OrElse(Least(SampleCounts(slices, tags)), 0) >= bound <==> forall tag <- tags :: tag in slices ==> slices[tag].samples >= bound)
  {
    var values := SampleCounts(slices, tags);
    forall tag | tag in tags && tag in slices ensures slices[tag].samples as real in values {
    }
    if Least(values).Some? {
      var m := Least(values).value;
      var least :| least in tags && least in slices && slices[least].samples as real == m;
      assert m.Floor == slices[least].samples;
    }
  }

  /** The slice check passes exactly when no minimum is set, or there are slices and each reaches it. */
  lemma SliceCheckMeans(slices: map<string, SliceStats>, q: Requirements)
    requires q.minSliceSamples >= 0
    ensures SliceCheck(slices, q) == Pass
            <==> q.minSliceSamples == 0 || (slices != map[] && forall tag <- slices :: slices[tag].samples >= q.minSliceSamples)
  {
    LeastSampleIsWhole(slices, slices.Keys, q.minSliceSamples);
    if slices != map[] {
      var tag :| tag in slices;
    }
  }

  // ---------------------------------------------------------------------------
  // The two ways to the verdict
  // ---------------------------------------------------------------------------

  function PrecisionDrop(validation: MetricSummary, test: MetricSummary): Option<real> {
    if validation.precision.Some? && test.precision.Some? then Some(validation.precision.value - test.precision.value) else None
  }

  function CoverageRetention(validation: MetricSummary, test: MetricSummary): Option<real> {
    if validation.coverage != 0.0 then Some(test.coverage / validation.coverage) else None
  }

  predicate DropTooLarge(drop: Option<real>, requirements: Requirements) {
    requirements.precisionDropMax.Some? && drop.Some? && drop.value > requirements.precisionDropMax.value
  }

  predicate RetentionTooSmall(retention: Option<real>, requirements: Requirements) {
    requirements.coverageRetentionMin.Some? && retention.Some? && retention.value < requirements.coverageRetentionMin.value
  }

  /** A failed measure fails the evidence; otherwise there may not be enough of it. */
  function Judged(wrongAccepts: bool, drop: Option<real>, retention: Option<real>, enough: Evidence, requirements: Requirements): Evidence {
    if wrongAccepts || DropTooLarge(drop, requirements) || RetentionTooSmall(retention, requirements) then Fail else enough
  }

  /** The direct summary of a validation result against a test result, if there is one. */
  function Summarize(validation: seq<Row>, test: Option<seq<Row>>, requirements: Requirements): GeneralizationSummary {
    var v := Summary(validation);
    var t := if test.Some? then Some(Summary(test.value)) else None;
    var drop := if t.Some? then PrecisionDrop(v, t.value) else None;
    var retention :=
      if t.Some? then CoverageRetention(v, t.value)
      else if v.coverage != 0.0 then Some(0.0) else None;
    var accepted := if t.Some? then t.value.acceptedCount else v.acceptedCount;
    var slices := SliceResults(if test.Some? then test.value else validation);
    var minAccepted := if accepted >= requirements.minAcceptedSamples then Pass else Insufficient;
    var minSlice := SliceCheck(slices, requirements);
    var enough := if minAccepted == Insufficient || minSlice == Insufficient then Insufficient else Pass;
    var evidence := Judged(t.Some? && t.value.wrongAcceptCount > 0, drop, retention, enough, requirements);
    GeneralizationSummary(
      v.precision, if t.Some? then t.value.precision else None,
      v.coverage, if t.Some? then t.value.coverage else 0.0,
      drop, retention, FloorOf(slices, requirements), minAccepted, minSlice, evidence)
  }

  /** Evidence once a required measure is known, or known to be undefined. */
  function Weighed(evidence: Evidence, undefined: bool, failed: bool): Evidence {
    if undefined then (if evidence != Fail then Insufficient else evidence) else if failed then Fail else evidence
  }

  function Reconciled(evidence: Evidence, drop: Option<real>, retention: Option<real>, requirements: Requirements): Evidence {
    var dropped := Weighed(evidence, requirements.precisionDropMax.Some? && drop.None?, DropTooLarge(drop, requirements));
    Weighed(dropped, requirements.coverageRetentionMin.Some? && retention.None?, RetentionTooSmall(retention, requirements))
  }

  /** Replaces the validation side of a summary, and its verdict, by those of paired metrics. */
  function Reconcile(base: GeneralizationSummary, v: MetricSummary, t: MetricSummary, requirements: Option<Requirements>): GeneralizationSummary {
    var drop, retention := PrecisionDrop(v, t), CoverageRetention(v, t);
    var evidence := if requirements.None? then base.evidence else Reconciled(base.evidence, drop, retention, requirements.value);
    base.(validationPrecision := v.precision, testPrecision := t.precision,
          validationCoverage := v.coverage, testCoverage := t.coverage,
          precisionDrop := drop, coverageRetention := retention, evidence := evidence)
  }

  /** What a test evaluation reports: the test summarised against itself, then reconciled with the validation
      report's metrics, or stripped of its transfer measures when there is no such report. */
  function TestVerdict(validation: Option<MetricSummary>, test: seq<Row>, requirements: Requirements): GeneralizationSummary {
    var base := Summarize(test, Some(test), requirements);
    if validation.Some? then Reconcile(base, validation.value, Summary(test), Some(requirements))
    else if requirements.precisionDropMax.Some? || requirements.coverageRetentionMin.Some? then
      base.(precisionDrop := None, coverageRetention := None, evidence := Insufficient)
    else base
  }

  // ---------------------------------------------------------------------------
  // They agree
  // ---------------------------------------------------------------------------

  function Rank(e: Evidence): nat {
    match e case Pass => 0 case Insufficient => 1 case Fail => 2
  }

  function Worst(a: Evidence, b: Evidence): Evidence {
    if Rank(a) >= Rank(b) then a else b
  }

  /** A transfer measure is required but undefined. */
  predicate RequiredButUndefined(v: MetricSummary, t: MetricSummary, requirements: Requirements) {
    || (requirements.precisionDropMax.Some? && PrecisionDrop(v, t).None?)
    || (requirements.coverageRetentionMin.Some? && CoverageRetention(v, t).None?)
  }

  /** Bounds that even a result compared with itself violates: a negative drop, a retention above one. */
  predicate FailsAgainstItself(t: MetricSummary, requirements: Requirements) {
    || (requirements.precisionDropMax.Some? && t.precision.Some? && requirements.precisionDropMax.value < 0.0)
    || (requirements.coverageRetentionMin.Some? && t.coverage != 0.0 && requirements.coverageRetentionMin.value > 1.0)
  }

  predicate BoundsAreFractions(requirements: Requirements) {
    && (requirements.precisionDropMax.Some? ==> 0.0 <= requirements.precisionDropMax.value <= 1.0)
    && (requirements.coverageRetentionMin.Some? ==> 0.0 <= requirements.coverageRetentionMin.value <= 1.0)
  }

  /** For every requirement: the two-stage summary is the direct one, its verdict raised to "insufficient"
      when a required measure is undefined and to "fail" when the test fails against itself, which no bound in
      [0, 1], and so none of a loaded target, brings about. */
  lemma TwoStageVerdict(validation: seq<Row>, test: seq<Row>, requirements: Requirements)
    ensures var v, t := Summary(validation), Summary(test);
            var direct := Summarize(validation, Some(test), requirements);
            var undefinedEvidence := if RequiredButUndefined(v, t, requirements) then Insufficient else Pass;
            var selfEvidence := if FailsAgainstItself(t, requirements) then Fail else Pass;
            TestVerdict(Some(v), test, requirements)
            == direct.(evidence := Worst(direct.evidence, Worst(undefinedEvidence, selfEvidence)))
  {
    var v, t := Summary(validation), Summary(test);
    var slices := SliceResults(test);
    var enough := Enough(t, slices, requirements);
    EvidenceIsWorst(v, t, enough, requirements);
    TestAgainstItself(test, requirements);
    TestAgainst(validation, test, requirements);
  }

  /** Whether a test result holds enough accepts and samples. */
  function Enough(t: MetricSummary, slices: map<string, SliceStats>, requirements: Requirements): Evidence {
    if t.acceptedCount >= requirements.minAcceptedSamples && SliceCheck(slices, requirements) == Pass then Pass else Insufficient
  }

  lemma TestAgainst(validation: seq<Row>, test: seq<Row>, requirements: Requirements)
    ensures var v, t := Summary(validation), Summary(test);
            var g := Summarize(validation, Some(test), requirements);
            && g.evidence == Judged(t.wrongAcceptCount > 0, PrecisionDrop(v, t), CoverageRetention(v, t), Enough(t, SliceResults(test), requirements), requirements)
            && g == GeneralizationSummary(v.precision, t.precision, v.coverage, t.coverage, PrecisionDrop(v, t), CoverageRetention(v, t),
                                          FloorOf(SliceResults(test), requirements), g.minAcceptedCheck, SliceCheck(SliceResults(test), requirements), g.evidence)
            && g.minAcceptedCheck == (if t.acceptedCount >= requirements.minAcceptedSamples then Pass else Insufficient)
  {
  }

  lemma TestAgainstItself(test: seq<Row>, requirements: Requirements)
    ensures var t := Summary(test);
            Summarize(test, Some(test), requirements).evidence
            == Judged(t.wrongAcceptCount > 0, PrecisionDrop(t, t), CoverageRetention(t, t), Enough(t, SliceResults(test), requirements), requirements)
  {
    TestAgainst(test, test, requirements);
  }

  /** Judging the test against itself and reconciling it is judging it against the validation, made worse by what is
      undefined and by the test's own failure. */
  lemma EvidenceIsWorst(v: MetricSummary, t: MetricSummary, enough: Evidence, q: Requirements)
    requires enough != Fail
    ensures var wrong, drop, retention := t.wrongAcceptCount > 0, PrecisionDrop(v, t), CoverageRetention(v, t);
            Reconciled(Judged(wrong, PrecisionDrop(t, t), CoverageRetention(t, t), enough, q), drop, retention, q)
            == Worst(Judged(wrong, drop, retention, enough, q),
                     Worst(if RequiredButUndefined(v, t, q) then Insufficient else Pass, if FailsAgainstItself(t, q) then Fail else Pass))
  {
    SelfMeasures(t, q);
  }

  /** A result compared with itself has no drop, and keeps its coverage whole. */
  lemma SelfMeasures(t: MetricSummary, requirements: Requirements)
    ensures DropTooLarge(PrecisionDrop(t, t), requirements) || RetentionTooSmall(CoverageRetention(t, t), requirements) <==> FailsAgainstItself(t, requirements)
  {
    if t.coverage != 0.0 {
      assert t.coverage / t.coverage == 1.0;
    }
  }

  /** With bounds in [0, 1] the two ways agree on everything, except that an undefined required measure makes
      the two-stage verdict at least "insufficient"; it is never the weaker of the two. */
  lemma TwoStageNeverWeaker(validation: seq<Row>, test: seq<Row>, requirements: Requirements)
    requires BoundsAreFractions(requirements)
    ensures var v, t := Summary(validation), Summary(test);
            var direct := Summarize(validation, Some(test), requirements);
            var twoStage := TestVerdict(Some(v), test, requirements);
            && twoStage == direct.(evidence := twoStage.evidence)
            && Rank(twoStage.evidence) >= Rank(direct.evidence)
            && (twoStage != direct <==> direct.evidence == Pass && RequiredButUndefined(v, t, requirements))
  {
    TwoStageVerdict(validation, test, requirements);
  }

  /** Finalising a report reconciles it once more, without requirements, and changes nothing. */
  lemma FinalizingKeepsTheVerdict(validation: MetricSummary, test: seq<Row>, requirements: Requirements)
    ensures var verdict := TestVerdict(Some(validation), test, requirements);
            Reconcile(verdict, validation, Summary(test), None) == verdict
  {
  }

  /** Without a validation report a required transfer measure forces "insufficient", which hides a failure
      of the test itself. */
  lemma MissingValidationHidesFailure(test: seq<Row>, requirements: Requirements)
    ensures var base := Summarize(test, Some(test), requirements);
            var verdict := TestVerdict(None, test, requirements);
            Rank(verdict.evidence) < Rank(base.evidence) <==>
            base.evidence == Fail && (requirements.precisionDropMax.Some? || requirements.coverageRetentionMin.Some?)
  {
  }

  /** One wrong accept, with a bound on the precision drop: the test alone fails, yet without a validation report
      the verdict is only "insufficient". */
  lemma WrongAcceptHidden()
    ensures var test := [Row("record", Some(L1), Some("wrong"), None, 0.0, 0.0, Some(false), 1.0, [])];
            var q := Requirements(Some(0.1), None, 0, 0, [], None, None);
            Summarize(test, Some(test), q).evidence == Fail && TestVerdict(None, test, q).evidence == Insufficient
  {
    var row := Row("record", Some(L1), Some("wrong"), None, 0.0, 0.0, Some(false), 1.0, []);
    assert [row][..0] == [];
    assert Count([row], IsWrongAccept) == 1;
  }
}
