/** Offline evaluation of a candidate: the layers of its cascade run over held-out records. */
module Evaluation {
  import opened Wrappers
  import opened Domain
  import opened Cascade
  import opened Sequences
  import opened Counting

  datatype Candidate = Candidate(artifacts: map<Layer, Package>, routing: Routing)

  datatype Record = Record(recordId: string, input: Payload, reference: Payload, tags: seq<string>)

  /** One evaluated record: the layer's output, or the reference in its place with what that costs. */
  datatype Row = Row(
    recordId: string,
    chosen: Option<Layer>,
    output: Option<Payload>,
    fallbackOutput: Option<Payload>,
    fallbackCost: real,
    fallbackLatency: real,
    isCorrect: Option<bool>,
    latency: real,
    tags: seq<string>)

  /** The layers run so far for one record, the last of which may have raised. */
  datatype Route = Route(chosen: Option<Layer>, output: Option<Payload>, attempts: seq<Attempt>, calls: seq<Call>, elapsed: Time, raised: bool)

  const START: Route := Route(None, None, [], [], 0.0, false)

  /** The timeout never falls below one millisecond, however late the route is. */
  function CandidateTimeout(candidate: Candidate, layer: Layer, package: Package, elapsed: Time): int {
    var remaining := Max(1, RemainingMs(elapsed, candidate.routing.totalDeadlineMs));
    Min(Min(remaining, LayerTimeout(candidate.routing, layer, package)), package.timeoutMs)
  }

  function RouteLayer(candidate: Candidate, contract: Contract, input: Payload, world: World, r: Route, layer: Layer): Route {
    if layer !in candidate.routing.enabledLayers || layer !in candidate.artifacts then r
    else
      var package := candidate.artifacts[layer];
      var timeout := CandidateTimeout(candidate, layer, package, r.elapsed);
      var duration := world.workerTime(package, input, timeout);
      var attempt := RunLayerAttempt(package, contract, world.worker(package, input, timeout), layer);
      var called := r.(calls := r.calls + [Call(Some(layer), r.elapsed, timeout, duration)], elapsed := r.elapsed + duration);
      if attempt.None? then called.(raised := true)
      else
        var tried := called.(attempts := r.attempts + [attempt.value]);
        if attempt.value.decision == Accept && attempt.value.output.Some? then tried.(chosen := Some(layer), output := attempt.value.output)
        else tried
  }

  predicate Stopped(r: Route) { r.chosen.Some? || r.raised }

  function RouteLayers(candidate: Candidate, contract: Contract, input: Payload, world: World, n: nat): Route
    requires n <= |LAYERS|
  {
    if n == 0 then START
    else
      var r := RouteLayers(candidate, contract, input, world, n - 1);
      if Stopped(r) then r else RouteLayer(candidate, contract, input, world, r, LAYERS[n - 1])
  }

  lemma {:induction false} RouteStops(candidate: Candidate, contract: Contract, input: Payload, world: World, n: nat, m: nat)
    requires n <= m <= |LAYERS| && Stopped(RouteLayers(candidate, contract, input, world, n))
    ensures RouteLayers(candidate, contract, input, world, m) == RouteLayers(candidate, contract, input, world, n)
    decreases m
  {
    if n < m {
      RouteStops(candidate, contract, input, world, n, m - 1);
    }
  }

  /** One pass of the loop over the layers. */
  method RunLayerForRecord(candidate: Candidate, contract: Contract, input: Payload, world: World, r0: Route, layer: Layer) returns (r: Route)
    requires !Stopped(r0)
    ensures r == RouteLayer(candidate, contract, input, world, r0, layer)
  {
    if layer !in candidate.routing.enabledLayers || layer !in candidate.artifacts {
      return r0;
    }
    var package := candidate.artifacts[layer];
    var timeout := CandidateTimeout(candidate, layer, package, r0.elapsed);
    var attempt := RunLayerAttempt(package, contract, world.worker(package, input, timeout), layer);
    var duration := world.workerTime(package, input, timeout);
    r := r0.(calls := r0.calls + [Call(Some(layer), r0.elapsed, timeout, duration)], elapsed := r0.elapsed + duration);
    if attempt.None? {
      return r.(raised := true);
    }
    r := r.(attempts := r.attempts + [attempt.value]);
    if attempt.value.decision == Accept && attempt.value.output.Some? {
      r := r.(chosen := Some(layer), output := attempt.value.output);
    }
  }

  method RunLayersForRecord(candidate: Candidate, contract: Contract, input: Payload, world: World) returns (r: Route)
    ensures r == RouteLayers(candidate, contract, input, world, |LAYERS|)
  {
    r := START;
    for i := 0 to |LAYERS|
      invariant !Stopped(r) && r == RouteLayers(candidate, contract, input, world, i)
    {
      r := RunLayerForRecord(candidate, contract, input, world, r, LAYERS[i]);
      if Stopped(r) {
        RouteStops(candidate, contract, input, world, i + 1, |LAYERS|);
        return;
      }
    }
  }

  // ---------------------------------------------------------------------------
  // The full cascade over a set of records
  // ---------------------------------------------------------------------------

  /** The target's judgement of an output against the reference output. */
  type Judge = (Payload, Payload) -> bool

  /** What one answer of the reference model is taken to cost, in money and in milliseconds. */
  datatype ReferencePolicy = ReferencePolicy(fallbackCost: Option<real>, fallbackLatency: Option<real>)

  function FallbackCost(policy: ReferencePolicy): real { if policy.fallbackCost.Some? then policy.fallbackCost.value else 0.01 }

  function FallbackLatency(policy: ReferencePolicy): real { if policy.fallbackLatency.Some? then policy.fallbackLatency.value else 3.0 }

  /** The evaluation of the record ends in an exception. */
  predicate RecordRaises(candidate: Candidate, contract: Contract, world: World, record: Record) {
    RouteLayers(candidate, contract, record.input, world, |LAYERS|).raised
  }

  predicate SomeRecordRaises(candidate: Candidate, contract: Contract, world: World, planned: seq<Record>) {
    exists record <- planned :: RecordRaises(candidate, contract, world, record)
  }

  /** The row of a record that does not raise. */
  function RowFor(candidate: Candidate, contract: Contract, judge: Judge, policy: ReferencePolicy, world: World, record: Record): Row {
    var r := RouteLayers(candidate, contract, record.input, world, |LAYERS|);
    var isCorrect := if r.output.Some? then Some(judge(r.output.value, record.reference)) else None;
    if r.chosen.Some? then Row(record.recordId, r.chosen, r.output, None, 0.0, 0.0, isCorrect, r.elapsed, record.tags)
    else Row(record.recordId, None, r.output, Some(record.reference), FallbackCost(policy), FallbackLatency(policy), isCorrect,
             r.elapsed + FallbackLatency(policy), record.tags)
  }

  /** The records in the order of the plan. */
  function RowsFor(candidate: Candidate, contract: Contract, judge: Judge, policy: ReferencePolicy, world: World, planned: seq<Record>): seq<Row> {
    if planned == [] then []
    else
      var n := |planned| - 1;
      RowsFor(candidate, contract, judge, policy, world, planned[..n]) + [RowFor(candidate, contract, judge, policy, world, planned[n])]
  }

  predicate IsAccepted(row: Row) { row.chosen.Some? }

  predicate IsFallback(row: Row) { row.chosen.None? }

  predicate IsCorrectAccept(row: Row) { row.chosen.Some? && row.isCorrect == Some(true) }

  predicate IsWrongAccept(row: Row) { row.chosen.Some? && row.isCorrect == Some(false) }

  datatype EvaluationResult = EvaluationResult(
    rows: seq<Row>,
    sampleCount: nat,
    fallbackCount: nat,
    fallbackShare: real,
    fallbackCost: real,
    fallbackLatency: real)

  function Times(n: nat, x: real): real { n as real * x }

  function Evaluated(rows: seq<Row>, policy: ReferencePolicy): EvaluationResult {
    var fallbacks := Count(rows, IsFallback);
    EvaluationResult(rows, |rows|, fallbacks, Ratio(fallbacks, |rows|),
                     Times(fallbacks, FallbackCost(policy)), Times(fallbacks, FallbackLatency(policy)))
  }

  /** The evaluation of records in the order of the plan; one that raises ends it without a result. */
  function FullEvaluation(candidate: Candidate, contract: Contract, judge: Judge, policy: ReferencePolicy, world: World, planned: seq<Record>): Option<EvaluationResult> {
    if SomeRecordRaises(candidate, contract, world, planned) then None
    else Some(Evaluated(RowsFor(candidate, contract, judge, policy, world, planned), policy))
  }

  method EvaluateRecord(candidate: Candidate, contract: Contract, judge: Judge, policy: ReferencePolicy, world: World, record: Record) returns (row: Option<Row>)
    ensures row == if RecordRaises(candidate, contract, world, record) then None else Some(RowFor(candidate, contract, judge, policy, world, record))
  {
    var r := RunLayersForRecord(candidate, contract, record.input, world);
    if r.raised {
      return None;
    }
    var isCorrect := if r.output.Some? then Some(judge(r.output.value, record.reference)) else None;
    var evaluated := Row(record.recordId, r.chosen, r.output, None, 0.0, 0.0, isCorrect, r.elapsed, record.tags);
    if r.chosen.None? {
      evaluated := evaluated.(fallbackOutput := Some(record.reference), fallbackCost := FallbackCost(policy), fallbackLatency := FallbackLatency(policy),
                              latency := evaluated.latency + FallbackLatency(policy));
    }
    row := Some(evaluated);
  }

  method EvaluateRecords(candidate: Candidate, contract: Contract, judge: Judge, policy: ReferencePolicy, world: World, planned: seq<Record>)
    returns (ok: bool, rows: seq<Row>, fallbackCount: nat)
    ensures ok <==> !SomeRecordRaises(candidate, contract, world, planned)
    ensures ok ==> rows == RowsFor(candidate, contract, judge, policy, world, planned) && |rows| == |planned|
    ensures ok ==> fallbackCount == Count(rows, IsFallback)
  {
    ok, rows, fallbackCount := true, [], 0;
    for i := 0 to |planned|
      invariant !SomeRecordRaises(candidate, contract, world, planned[..i])
      invariant rows == RowsFor(candidate, contract, judge, policy, world, planned[..i]) && |rows| == i
      invariant fallbackCount == Count(rows, IsFallback)
    {
      assert planned[..i + 1][..i] == planned[..i];
      var row := EvaluateRecord(candidate, contract, judge, policy, world, planned[i]);
      if row.None? {
        assert planned[i] in planned;
        return false, rows, fallbackCount;
      }
      if row.value.chosen.None? {
        fallbackCount := fallbackCount + 1;
      }
      assert (rows + [row.value])[..i] == rows;
      rows := rows + [row.value];
    }
    assert planned[..|planned|] == planned;
  }

  /** `planned` is the shuffled order of the records. */
  method EvaluateFullCascade(candidate: Candidate, contract: Contract, judge: Judge, policy: ReferencePolicy, world: World, records: seq<Record>, planned: seq<Record>)
    returns (result: Option<EvaluationResult>)
    requires multiset(planned) == multiset(records)
    ensures result == FullEvaluation(candidate, contract, judge, policy, world, planned)
    ensures result.Some? ==> result.value.sampleCount == |records|
  {
    var ok, rows, fallbackCount := EvaluateRecords(candidate, contract, judge, policy, world, planned);
    if !ok {
      return None;
    }
    SameLength(planned, records);
    result := Some(EvaluationResult(rows, |records|, fallbackCount, Ratio(fallbackCount, |records|),
                                    Times(fallbackCount, FallbackCost(policy)), Times(fallbackCount, FallbackLatency(policy))));
  }

  function Total(rows: seq<Row>, f: Row -> real): real {
    if rows == [] then 0.0 else Total(rows[..|rows| - 1], f) + f(rows[|rows| - 1])
  }

  /** A row answers with exactly one output: its layer's, at no fallback cost, or the record's reference. */
  ghost predicate AnsweredOnce(row: Row, record: Record, policy: ReferencePolicy) {
    && row.recordId == record.recordId && row.tags == record.tags
    && (row.chosen.Some? <==> row.output.Some?) && (row.isCorrect.Some? <==> row.output.Some?)
    && row.fallbackOutput == (if row.chosen.Some? then None else Some(record.reference))
    && row.fallbackCost == (if row.chosen.Some? then 0.0 else FallbackCost(policy))
    && row.fallbackLatency == (if row.chosen.Some? then 0.0 else FallbackLatency(policy))
  }

  lemma {:induction false} RouteAnswersOnce(candidate: Candidate, contract: Contract, input: Payload, world: World, n: nat)
    requires n <= |LAYERS|
    ensures var r := RouteLayers(candidate, contract, input, world, n); r.chosen.Some? <==> r.output.Some?
  {
    if n > 0 {
      RouteAnswersOnce(candidate, contract, input, world, n - 1);
    }
  }

  lemma {:induction false} RowsAnswerOnce(candidate: Candidate, contract: Contract, judge: Judge, policy: ReferencePolicy, world: World, planned: seq<Record>)
    ensures var rows := RowsFor(candidate, contract, judge, policy, world, planned);
            |rows| == |planned| && forall i | 0 <= i < |rows| :: AnsweredOnce(rows[i], planned[i], policy)
  {
    if planned != [] {
      var n := |planned| - 1;
      RowsAnswerOnce(candidate, contract, judge, policy, world, planned[..n]);
      RouteAnswersOnce(candidate, contract, planned[n].input, world, |LAYERS|);
    }
  }

  lemma {:induction false} AcceptedOrFallback(rows: seq<Row>)
    ensures Count(rows, IsFallback) + Count(rows, IsAccepted) == |rows|
  {
    if rows != [] {
      AcceptedOrFallback(rows[..|rows| - 1]);
    }
  }

  lemma TimesOneMore(n: nat, x: real)
    ensures Times(n + 1, x) == Times(n, x) + x
  {
  }

  /** A charge that each fallback makes, and nothing else, totals the fallbacks times the charge. */
  lemma {:induction false} TotalOfFallbacks(rows: seq<Row>, f: Row -> real, x: real)
    requires forall i | 0 <= i < |rows| :: f(rows[i]) == if IsFallback(rows[i]) then x else 0.0
    ensures Total(rows, f) == Times(Count(rows, IsFallback), x)
  {
    if rows != [] {
      var before := rows[..|rows| - 1];
      TotalOfFallbacks(before, f, x);
      TimesOneMore(Count(before, IsFallback), x);
    }
  }

  /** An evaluation that gives a result answers every record once, in the plan's order, and its totals are those of
      the rows. */
  lemma EvaluationAddsUp(candidate: Candidate, contract: Contract, judge: Judge, policy: ReferencePolicy, world: World, planned: seq<Record>)
    ensures var evaluated := FullEvaluation(candidate, contract, judge, policy, world, planned);
            evaluated.Some? ==>
              var result := evaluated.value;
              var rows := result.rows;
              && |rows| == |planned| && (forall i | 0 <= i < |rows| :: AnsweredOnce(rows[i], planned[i], policy))
              && result.fallbackCount + Count(rows, IsAccepted) == result.sampleCount == |planned|
              && result.fallbackCost == Total(rows, (row: Row) => row.fallbackCost)
              && result.fallbackLatency == Total(rows, (row: Row) => row.fallbackLatency)
  {
    var rows := RowsFor(candidate, contract, judge, policy, world, planned);
    RowsAnswerOnce(candidate, contract, judge, policy, world, planned);
    AcceptedOrFallback(rows);
    forall i | 0 <= i < |rows| ensures rows[i].fallbackCost == (if IsFallback(rows[i]) then FallbackCost(policy) else 0.0)
                                       && rows[i].fallbackLatency == (if IsFallback(rows[i]) then FallbackLatency(policy) else 0.0)
    {
      assert AnsweredOnce(rows[i], planned[i], policy);
    }
    TotalOfFallbacks(rows, (row: Row) => row.fallbackCost, FallbackCost(policy));
    TotalOfFallbacks(rows, (row: Row) => row.fallbackLatency, FallbackLatency(policy));
  }

  // ---------------------------------------------------------------------------
  // Metrics
  // ---------------------------------------------------------------------------

  datatype MetricSummary = MetricSummary(
    acceptedCount: nat,
    correctAcceptCount: nat,
    wrongAcceptCount: nat,
    precision: Option<real>,
    coverage: real)

  function Summary(rows: seq<Row>): MetricSummary {
    var accepted, correct, wrong := Count(rows, IsAccepted), Count(rows, IsCorrectAccept), Count(rows, IsWrongAccept);
    MetricSummary(accepted, correct, wrong, if accepted == 0 then None else Some(Ratio(correct, accepted)), Ratio(accepted, |rows|))
  }
}
