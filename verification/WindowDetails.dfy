/** The parts of a metric window beside its coverages: errors, reasons, confidences, metadata, latency, cost and audits. */
module WindowDetails {
  import opened Wrappers
  import opened Domain
  import opened Cascade
  import opened Traces
  import opened Percentile
  import opened Counting
  import opened Costs

  // ---------------------------------------------------------------------------
  // Tallies
  // ---------------------------------------------------------------------------

  function At<K>(m: map<K, nat>, k: K): nat { if k in m then m[k] else 0 }

  function Tallied<K>(m: map<K, nat>, k: K): map<K, nat> { m[k := At(m, k) + 1] }

  function TallyOn<K>(m: map<K, nat>, keys: seq<K>): map<K, nat> {
    if keys == [] then m else Tallied(TallyOn(m, keys[..|keys| - 1]), keys[|keys| - 1])
  }

  // ---------------------------------------------------------------------------
  // What traces and attempts are counted under
  // ---------------------------------------------------------------------------

  datatype AttemptError = HealthError | CircuitError | TimeoutError | CrashError | InvalidOutputError | ProtocolFault

  datatype ErrorKey = TraceError(error: ErrorType) | LocalError(attemptError: AttemptError)

  function AttemptErrorOf(a: Attempt): Option<AttemptError> {
    match a.decision
    case Error => Some(if a.reason == HealthFailure then HealthError else if a.reason == CircuitOpen then CircuitError else CrashError)
    case Timeout => Some(TimeoutError)
    case InvalidOutput => Some(InvalidOutputError)
    case ProtocolError => Some(ProtocolFault)
    case Accept => None
    case Abstain => None
  }

  function ErrorKeys(a: Attempt): seq<ErrorKey> {
    if AttemptErrorOf(a).Some? then [LocalError(AttemptErrorOf(a).value)] else []
  }

  function OwnErrorKeys(t: Trace): seq<ErrorKey> {
    if t.errorType != NoError then [TraceError(t.errorType)] else []
  }

  function ReasonKeys(a: Attempt): seq<string> {
    match a.reason
    case NoReason => []
    case HealthFailure => ["health_failure"]
    case CircuitOpen => ["circuit_open"]
    case Code(code) => if code == "" then [] else [code]
  }

  function Truncated(x: real): int { if x >= 0.0 then x.Floor else -((-x).Floor) }

  /** Confidences are counted by tenths, rounded towards zero; one beyond range has no tenths, and raises. */
  function ConfidenceKeys(a: Attempt): seq<int> {
    if a.confidence.Some? && a.confidence.value.Within? then [Truncated(a.confidence.value.value * 10.0)] else []
  }

  predicate Countable(a: Attempt) { a.confidence != Some(BeyondRange) }

  predicate IsBeyondRange(a: Attempt) { !Countable(a) }

  predicate AllCountable(t: Trace) { forall a <- t.attempts :: Countable(a) }

  /** Three tallies kept side by side. */
  datatype Tallies = Tallies(errors: map<ErrorKey, nat>, reasons: map<string, nat>, confidences: map<int, nat>)

  const EMPTY_TALLIES := Tallies(map[], map[], map[])

  function WithAttempt(t: Tallies, a: Attempt): Tallies {
    Tallies(TallyOn(t.errors, ErrorKeys(a)), TallyOn(t.reasons, ReasonKeys(a)), TallyOn(t.confidences, ConfidenceKeys(a)))
  }

  function WithAttempts(t: Tallies, attempts: seq<Attempt>): Tallies {
    if attempts == [] then t else WithAttempt(WithAttempts(t, attempts[..|attempts| - 1]), attempts[|attempts| - 1])
  }

  function WithTrace(t: Tallies, trace: Trace): Tallies {
    WithAttempts(t.(errors := TallyOn(t.errors, OwnErrorKeys(trace))), trace.attempts)
  }

  function TalliesOf(traces: seq<Trace>): Tallies {
    if traces == [] then EMPTY_TALLIES else WithTrace(TalliesOf(traces[..|traces| - 1]), traces[|traces| - 1])
  }

  lemma OneKey<K>(m: map<K, nat>, k: K)
    ensures TallyOn(m, [k]) == Tallied(m, k)
  {
    assert [k][..0] == [];
  }

  /** The tallies of the traces, unless one of their attempts raises. */
  function Tally(traces: seq<Trace>): Option<Tallies> {
    if forall t <- traces :: AllCountable(t) then Some(TalliesOf(traces)) else None
  }

  method TallyAttempt(t0: Tallies, a: Attempt) returns (ok: bool, t: Tallies)
    ensures ok <==> Countable(a)
    ensures ok ==> t == WithAttempt(t0, a)
  {
    ok, t := true, t0;
    var error := AttemptErrorOf(a);
    if error.Some? {
      OneKey(t.errors, LocalError(error.value));
      t := t.(errors := t.errors[LocalError(error.value) := At(t.errors, LocalError(error.value)) + 1]);
    }
    if a.confidence.Some? {
      if a.confidence.value.BeyondRange? {
        return false, t;
      }
      var bucket := Truncated(a.confidence.value.value * 10.0);
      OneKey(t.confidences, bucket);
      t := t.(confidences := t.confidences[bucket := At(t.confidences, bucket) + 1]);
    }
    var reason := match a.reason case NoReason => "" case HealthFailure => "health_failure" case CircuitOpen => "circuit_open" case Code(code) => code;
    if reason != "" {
      OneKey(t.reasons, reason);
      t := t.(reasons := t.reasons[reason := At(t.reasons, reason) + 1]);
    }
  }

  method TallyAttempts(t0: Tallies, attempts: seq<Attempt>) returns (ok: bool, t: Tallies)
    ensures ok <==> forall a <- attempts :: Countable(a)
    ensures ok ==> t == WithAttempts(t0, attempts)
  {
    t := t0;
    for j := 0 to |attempts|
      invariant forall a <- attempts[..j] :: Countable(a)
      invariant t == WithAttempts(t0, attempts[..j])
    {
      assert attempts[..j + 1][..j] == attempts[..j];
      ok, t := TallyAttempt(t, attempts[j]);
      if !ok {
        assert attempts[j] in attempts;
        return;
      }
    }
    assert attempts[..|attempts|] == attempts;
    ok := true;
  }

  method TallyTrace(t0: Tallies, trace: Trace) returns (ok: bool, t: Tallies)
    ensures ok <==> AllCountable(trace)
    ensures ok ==> t == WithTrace(t0, trace)
  {
    t := t0;
    if trace.errorType != NoError {
      OneKey(t.errors, TraceError(trace.errorType));
      t := t.(errors := t.errors[TraceError(trace.errorType) := At(t.errors, TraceError(trace.errorType)) + 1]);
    }
    ok, t := TallyAttempts(t, trace.attempts);
  }

  lemma TalliesGrow(traces: seq<Trace>, i: nat)
    requires i < |traces|
    ensures TalliesOf(traces[..i + 1]) == WithTrace(TalliesOf(traces[..i]), traces[i])
  {
    assert traces[..i + 1][..i] == traces[..i];
  }

  method TallyAll(traces: seq<Trace>) returns (ok: bool, tallies: Tallies)
    ensures ok <==> forall i | 0 <= i < |traces| :: AllCountable(traces[i])
    ensures ok ==> tallies == TalliesOf(traces)
  {
    tallies := EMPTY_TALLIES;
    for i := 0 to |traces|
      invariant forall j | 0 <= j < i :: AllCountable(traces[j])
      invariant tallies == TalliesOf(traces[..i])
    {
      ok, tallies := TallyTrace(tallies, traces[i]);
      if !ok {
        return;
      }
      TalliesGrow(traces, i);
    }
    assert traces[..|traces|] == traces;
    ok := true;
  }

  method TallyTraces(traces: seq<Trace>) returns (t: Option<Tallies>)
    ensures t == Tally(traces)
  {
    var ok, tallies := TallyAll(traces);
    if ok {
      return Some(tallies);
    }
    var i :| 0 <= i < |traces| && !AllCountable(traces[i]);
    assert traces[i] in traces;
    t := None;
  }

  // ---------------------------------------------------------------------------
  // What the tallies count
  // ---------------------------------------------------------------------------

  function CountAllAttempts(traces: seq<Trace>, p: Attempt -> bool): nat {
    if traces == [] then 0 else CountAllAttempts(traces[..|traces| - 1], p) + Count(traces[|traces| - 1].attempts, p)
  }

  lemma {:induction false} AttemptsAdd(t: Tallies, attempts: seq<Attempt>, e: AttemptError, reason: string, tenth: int)
    requires reason != ""
    ensures var u := WithAttempts(t, attempts);
            && (forall x: ErrorType :: At(u.errors, TraceError(x)) == At(t.errors, TraceError(x)))
            && At(u.errors, LocalError(e)) == At(t.errors, LocalError(e)) + Count(attempts, (a: Attempt) => AttemptErrorOf(a) == Some(e))
            && At(u.reasons, reason) == At(t.reasons, reason) + Count(attempts, (a: Attempt) => ReasonKeys(a) == [reason])
            && At(u.confidences, tenth) == At(t.confidences, tenth) + Count(attempts, (a: Attempt) => ConfidenceKeys(a) == [tenth])
  {
    if attempts != [] {
      var n := |attempts| - 1;
      AttemptsAdd(t, attempts[..n], e, reason, tenth);
      OneAttemptAdds(WithAttempts(t, attempts[..n]), attempts[n], e, reason, tenth);
    }
  }

  lemma OneAttemptAdds(t: Tallies, a: Attempt, e: AttemptError, reason: string, tenth: int)
    requires reason != ""
    ensures var u := WithAttempt(t, a);
            && (forall x: ErrorType :: At(u.errors, TraceError(x)) == At(t.errors, TraceError(x)))
            && At(u.errors, LocalError(e)) == At(t.errors, LocalError(e)) + (if AttemptErrorOf(a) == Some(e) then 1 else 0)
            && At(u.reasons, reason) == At(t.reasons, reason) + (if ReasonKeys(a) == [reason] then 1 else 0)
            && At(u.confidences, tenth) == At(t.confidences, tenth) + (if ConfidenceKeys(a) == [tenth] then 1 else 0)
  {
    if ErrorKeys(a) != [] { OneKey(t.errors, ErrorKeys(a)[0]); }
    if ReasonKeys(a) != [] { OneKey(t.reasons, ReasonKeys(a)[0]); }
    if ConfidenceKeys(a) != [] { OneKey(t.confidences, ConfidenceKeys(a)[0]); }
  }

  lemma {:induction false} TalliesOfCount(traces: seq<Trace>, x: ErrorType, e: AttemptError, reason: string, tenth: int)
    requires reason != "" && x != NoError
    ensures CountedIn(TalliesOf(traces), traces, x, e, reason, tenth)
  {
    if traces != [] {
      var n := |traces| - 1;
      TalliesOfCount(traces[..n], x, e, reason, tenth);
      var t, trace := TalliesOf(traces[..n]), traces[n];
      if trace.errorType != NoError { OneKey(t.errors, TraceError(trace.errorType)); }
      AttemptsAdd(t.(errors := TallyOn(t.errors, OwnErrorKeys(trace))), trace.attempts, e, reason, tenth);
    }
  }

  ghost predicate CountedIn(t: Tallies, traces: seq<Trace>, x: ErrorType, e: AttemptError, reason: string, tenth: int) {
    && At(t.errors, TraceError(x)) == Count(traces, (trace: Trace) => trace.errorType == x)
    && At(t.errors, LocalError(e)) == CountAllAttempts(traces, (a: Attempt) => AttemptErrorOf(a) == Some(e))
    && At(t.reasons, reason) == CountAllAttempts(traces, (a: Attempt) => ReasonKeys(a) == [reason])
    && At(t.confidences, tenth) == CountAllAttempts(traces, (a: Attempt) => ConfidenceKeys(a) == [tenth])
  }

  /** No confidence is beyond range exactly when there are tallies. Errors of traces, errors of attempts, reasons and
      confidences are then each counted as often as they occur. */
  lemma TalliesCount(traces: seq<Trace>, x: ErrorType, e: AttemptError, reason: string, tenth: int)
    requires reason != "" && x != NoError
    ensures Tally(traces).Some? <==> CountAllAttempts(traces, IsBeyondRange) == 0
    ensures Tally(traces).Some? ==> CountedIn(Tally(traces).value, traces, x, e, reason, tenth)
  {
    TalliesOfCount(traces, x, e, reason, tenth);
    CountableTraces(traces);
  }

  lemma {:induction false} CountableAttempts(attempts: seq<Attempt>)
    ensures (forall a <- attempts :: Countable(a)) <==> Count(attempts, IsBeyondRange) == 0
  {
    if attempts != [] {
      CountableAttempts(attempts[..|attempts| - 1]);
      assert forall a :: a in attempts <==> a in attempts[..|attempts| - 1] || a == attempts[|attempts| - 1];
    }
  }

  lemma {:induction false} CountableTraces(traces: seq<Trace>)
    ensures (forall t <- traces :: AllCountable(t)) <==> CountAllAttempts(traces, IsBeyondRange) == 0
  {
    if traces != [] {
      var before, last := traces[..|traces| - 1], traces[|traces| - 1];
      CountableTraces(before);
      CountableAttempts(last.attempts);
      assert traces == before + [last];
      assert AllCountable(last) <==> Count(last.attempts, IsBeyondRange) == 0;
      assert (forall t <- traces :: AllCountable(t)) <==> (forall t <- before :: AllCountable(t)) && AllCountable(last);
    }
  }

  // ---------------------------------------------------------------------------
  // Source metadata
  // ---------------------------------------------------------------------------

  function Pairs(buckets: map<string, string>): set<(string, string)> { set k <- buckets :: (k, buckets[k]) }

  function WithBuckets(counts: map<(string, string), nat>, pairs: set<(string, string)>): map<(string, string), nat> {
    map p <- counts.Keys + pairs :: At(counts, p) + (if p in pairs then 1 else 0)
  }

  function MetadataOf(traces: seq<Trace>): map<(string, string), nat> {
    if traces == [] then map[] else WithBuckets(MetadataOf(traces[..|traces| - 1]), Pairs(traces[|traces| - 1].buckets))
  }

  method CountMetadata(traces: seq<Trace>) returns (counts: map<(string, string), nat>)
    ensures counts == MetadataOf(traces)
  {
    counts := map[];
    for i := 0 to |traces|
      invariant counts == MetadataOf(traces[..i])
    {
      assert traces[..i + 1][..i] == traces[..i];
      counts := AddBuckets(counts, traces[i].buckets);
    }
    assert traces[..|traces|] == traces;
  }

  method AddBuckets(counts0: map<(string, string), nat>, buckets: map<string, string>) returns (counts: map<(string, string), nat>)
    ensures counts == WithBuckets(counts0, Pairs(buckets))
  {
    counts := counts0;
    var rest := buckets.Keys;
    ghost var done: set<(string, string)> := {};
    assert counts == WithBuckets(counts0, {});
    while rest != {}
      invariant rest <= buckets.Keys
      invariant done == set k <- buckets.Keys - rest :: (k, buckets[k])
      invariant counts == WithBuckets(counts0, done)
    {
      var k :| k in rest;
      var pair := (k, buckets[k]);
      counts := counts[pair := At(counts, pair) + 1];
      assert pair !in done;
      rest, done := rest - {k}, done + {pair};
    }
    assert done == Pairs(buckets);
  }

  /** A bucket is counted once for each trace that carries it. */
  lemma {:induction false} MetadataCounts(traces: seq<Trace>, k: string, v: string)
    ensures At(MetadataOf(traces), (k, v)) == Count(traces, (t: Trace) => k in t.buckets && t.buckets[k] == v)
  {
    if traces != [] {
      MetadataCounts(traces[..|traces| - 1], k, v);
      var buckets := traces[|traces| - 1].buckets;
      assert (k, v) in Pairs(buckets) <==> k in buckets && buckets[k] == v;
    }
  }

  // ---------------------------------------------------------------------------
  // Audits
  // ---------------------------------------------------------------------------

  datatype AuditStatus = AuditOk | AuditFailed | AuditPending

  datatype AuditRecord = AuditRecord(
    targetName: string,
    releaseId: ReleaseId,
    contractHash: string,
    random: bool,
    status: AuditStatus,
    isCorrect: Option<bool>,
    createdAt: int)

  predicate AuditInScope(release: Release, a: AuditRecord) {
    a.targetName == release.targetName && a.releaseId == release.releaseId && a.contractHash == release.contractHash
  }

  predicate IsRandom(a: AuditRecord) { a.random }

  predicate HasSucceeded(a: AuditRecord) { a.status == AuditOk }

  predicate HasFailed(a: AuditRecord) { a.status == AuditFailed }

  predicate IsEvaluable(a: AuditRecord) { a.isCorrect.Some? }

  predicate IsRight(a: AuditRecord) { a.isCorrect == Some(true) }

  predicate IsWrong(a: AuditRecord) { a.isCorrect == Some(false) }

  datatype AuditSummary = AuditSummary(
    attempts: nat,
    successes: nat,
    evaluable: nat,
    correct: nat,
    wrong: nat,
    failures: nat,
    precision: Option<real>,
    precisionLowerBound: Option<real>,
    wrongEstimate: Option<real>,
    wrongUpperBound: Option<real>,
    failureRate: Option<real>)

  function Fraction(part: nat, whole: nat): Option<real> {
    if whole == 0 then None else Some(part as real / whole as real)
  }

  function SummarizeAudits(audits: seq<AuditRecord>): AuditSummary {
    var random := Selected(audits, IsRandom);
    var successes := Selected(random, HasSucceeded);
    var evaluable := Selected(successes, IsEvaluable);
    var correct := Selected(evaluable, IsRight);
    var wrong := Selected(evaluable, IsWrong);
    var failures := Selected(random, HasFailed);
    var precision, wrongEstimate := Fraction(|correct|, |evaluable|), Fraction(|wrong|, |evaluable|);
    AuditSummary(
      |random|, |successes|, |evaluable|, |correct|, |wrong|, |failures|,
      precision,
      if precision.None? then None else Some(if precision.value - 0.05 < 0.0 then 0.0 else precision.value - 0.05),
      wrongEstimate,
      if wrongEstimate.None? then None else Some(if wrongEstimate.value + 0.05 > 1.0 then 1.0 else wrongEstimate.value + 0.05),
      Fraction(|failures|, |random|))
  }

  /** Of the random audits the evaluable ones are correct or wrong, and among those that succeeded; successes and
      failures are apart; and precision and wrong estimate are complements. */
  lemma AuditsAddUp(audits: seq<AuditRecord>)
    ensures var s := SummarizeAudits(audits);
            && s.correct + s.wrong == s.evaluable <= s.successes && s.successes + s.failures <= s.attempts <= |audits|
            && (s.precision.Some? <==> s.evaluable > 0) && (s.wrongEstimate.Some? <==> s.evaluable > 0)
            && (s.evaluable > 0 ==> s.precision.value + s.wrongEstimate.value == 1.0)
  {
    var random := Selected(audits, IsRandom);
    var successes := Selected(random, HasSucceeded);
    var evaluable := Selected(successes, IsEvaluable);
    SelectedSatisfy(audits, IsRandom);
    SelectedTwoWays(random, HasSucceeded, HasFailed);
    SelectedSatisfy(successes, IsEvaluable);
    SelectedTwoWays(evaluable, IsRight, IsWrong);
    forall a | a in evaluable ensures IsRight(a) || IsWrong(a) {
      assert IsEvaluable(a);
      if a.isCorrect.value {
        assert IsRight(a);
      } else {
        assert IsWrong(a);
      }
    }
    var s := SummarizeAudits(audits);
    if s.evaluable > 0 {
      FractionsComplement(s.correct, s.wrong, s.evaluable);
    }
  }

  lemma FractionsComplement(a: nat, b: nat, n: nat)
    requires n > 0 && a + b == n
    ensures a as real / n as real + b as real / n as real == 1.0
  {
    assert a as real + b as real == n as real;
    assert (a as real + b as real) / n as real == 1.0;
  }

  // ---------------------------------------------------------------------------
  // All the details
  // ---------------------------------------------------------------------------

  function Sum(values: seq<real>): real {
    if values == [] then 0.0 else Sum(values[..|values| - 1]) + values[|values| - 1]
  }

  function Latencies(traces: seq<Trace>): seq<real> { seq(|traces|, i requires 0 <= i < |traces| => traces[i].latency) }

  function CostsOf(traces: seq<Trace>): seq<Cost> { seq(|traces|, i requires 0 <= i < |traces| => traces[i].cost) }

  function Average(total: real, n: nat): real { if n == 0 then 0.0 else total / n as real }

  datatype Details = Details(
    tallies: Tallies,
    metadata: map<(string, string), nat>,
    audits: AuditSummary,
    schemaFailureRate: real,
    latencyAverage: real,
    latencyP95: real,
    costTotal: Cost,
    costPer1000: Cost,
    errorRates: map<ErrorKey, real>)

  function Assemble(t: Tallies, metadata: map<(string, string), nat>, audits: seq<AuditRecord>, latencies: seq<real>, costs: seq<Cost>, n: nat, nonCache: nat): Details {
    Details(
      t, metadata, SummarizeAudits(audits),
      Ratio(At(t.errors, TraceError(NoValidOutput)) + At(t.errors, LocalError(InvalidOutputError)), nonCache),
      Average(Sum(latencies), n), NearestRank(latencies, 0.95),
      Total(costs), if n == 0 then NOTHING else Scaled(Total(costs), 1000.0 / n as real),
      map k <- t.errors :: Ratio(t.errors[k], n))
  }

  function DetailsOf(traces: seq<Trace>, audits: seq<AuditRecord>, nonCache: nat): Option<Details> {
    var tallies := Tally(traces);
    if tallies.None? then None
    else Some(Assemble(tallies.value, MetadataOf(traces), audits, Latencies(traces), CostsOf(traces), |traces|, nonCache))
  }

  method CollectTimes(traces: seq<Trace>) returns (latencies: seq<real>, costs: seq<Cost>)
    ensures latencies == Latencies(traces) && costs == CostsOf(traces)
  {
    latencies, costs := [], [];
    for i := 0 to |traces|
      invariant latencies == Latencies(traces[..i]) && costs == CostsOf(traces[..i])
    {
      latencies, costs := latencies + [traces[i].latency], costs + [traces[i].cost];
    }
    assert traces[..|traces|] == traces;
  }

  method CollectDetails(traces: seq<Trace>, audits: seq<AuditRecord>, nonCache: nat) returns (d: Option<Details>)
    ensures d == DetailsOf(traces, audits, nonCache)
  {
    var latencies, costs := CollectTimes(traces);
    var tallies := TallyTraces(traces);
    if tallies.None? {
      return None;
    }
    var metadata := CountMetadata(traces);
    d := Some(Assemble(tallies.value, metadata, audits, latencies, costs, |traces|, nonCache));
  }
}
