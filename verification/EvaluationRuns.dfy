/** Runs of the serving runtime over evaluated records: what evaluation says of them is what the metric window says. */
module EvaluationRuns {
  import opened Wrappers
  import opened Domain
  import opened Registry
  import opened Cascade
  import opened CascadeProperties
  import opened Traces
  import opened TraceMetrics
  import W = WindowDetails
  import opened Serving
  import opened ServingRuns
  import opened Evaluation
  import opened EvaluationRefinement
  import opened Counting

  /** The event is a request for the record's input: the release is selected for it, the cache is off, nothing
      shortens the deadline, and the workers are healthy and behave as they did offline. */
  ghost predicate RequestFor(s: RegistryState, release: Release, contract: Contract, offline: World, record: Record, e: Event) {
    && e.RequestEvent?
    && Select(s, e.request.targetName, e.env.bucket, e.env.disk) == Some(release)
    && e.env.contract == contract && contract.contractHash == release.contractHash
    && contract.validateInput(e.request.input) == Some(record.input)
    && Deadline(release, e.request) == release.routing.totalDeadlineMs
    && !(e.env.withCache && release.routing.cacheEnabled)
    && FairWorld(e.env.world, offline)
  }

  /** No circuit of the release is open and its pooled workers run its own artifacts, as in an idle runtime. */
  ghost predicate Ready(release: Release, r: Runtime) {
    NoOpenCircuit(release, r.breakers) && PoolFaithful(release, r.pool)
  }

  /** The request ended with the layer and the output of the record's route, or went on to L4 when it has none; a
      request ends in an exception here only when L4's budget is exhausted. */
  ghost predicate AsEvaluated(release: Release, contract: Contract, offline: World, record: Record, e: Served) {
    var r := RouteLayers(CandidateOf(release), contract, record.input, offline, |LAYERS|);
    && e.end.Some? && e.attempts == r.attempts && e.hit.None?
    && (if r.chosen.Some? && r.output.Some? then e.end.value == LocalAnswer(r.chosen.value, r.output.value) else SentToL4(e))
    && (r.chosen.Some? <==> r.output.Some?)
  }

  predicate AnsweredLocally(e: Served) { e.end.Some? && e.end.value.LocalAnswer? }

  predicate SentToL4(e: Served) {
    e.end.Some? && (e.end.value.L4Answer? || e.end.value.L4Failed? || e.end.value.L4TimedOut? || e.end.value.Raised?)
  }

  /** Nothing that comes after the cascade raises, and L4's budget lasts. */
  ghost predicate Quiet(e: Event) {
    && e.RequestEvent? && !e.env.auditRaises && !e.env.traceLeaks && !e.env.evidenceRaises
    && forall input, timeout :: e.env.world.l4(input, timeout) != L4BudgetExhausted
  }

  /** The trace reports the record's route. */
  ghost predicate Reports(release: Release, contract: Contract, offline: World, record: Record, e: Event, t: Trace) {
    var r := RouteLayers(CandidateOf(release), contract, record.input, offline, |LAYERS|);
    && e.RequestEvent? && t.releaseId == release.releaseId && t.timestamp == e.env.timestamp && t.attempts == r.attempts && !t.cacheHit
    && t.chosen == (if r.chosen.Some? then Local(r.chosen.value) else Reference) && (r.chosen.Some? ==> t.ok)
  }

  lemma CascadeGoesAsEvaluated(release: Release, contract: Contract, offline: World, record: Record, s: Setting)
    requires SameConditions(release, offline, s) && Settled(release, contract, offline, record)
    ensures var q := ServedEnd(release, contract, record, s);
            var r := RouteLayers(CandidateOf(release), contract, record.input, offline, |LAYERS|);
            && q.attempts == r.attempts && (r.chosen.Some? <==> r.output.Some?)
            && (if r.chosen.Some? then q.end == LocalAnswer(r.chosen.value, r.output.value)
                else q.end.L4Answer? || q.end.L4Failed? || q.end.L4TimedOut? || q.end.Raised?)
            && (q.end.Raised? ==> exists timeout :: s.world.l4(record.input, timeout) == L4BudgetExhausted)
  {
    EvaluationPredictsServing(release, contract, record.input, offline, s);
    RouteCallsAreLocal(CandidateOf(release), contract, record.input, offline, |LAYERS|);
    var r := RouteLayers(CandidateOf(release), contract, record.input, offline, |LAYERS|);
    var q := ServedEnd(release, contract, record, s);
    if r.chosen.None? {
      assert ReachesL4(q);
      EndOfL4(release, contract, record, s);
    }
  }

  lemma L4EndsTheCascade(job: Job, world: World, p: Progress)
    requires !ReachesL4(p) && ReachesL4(CascadeL4(job, world, p))
    ensures var end := CascadeL4(job, world, p).end;
            && (end.L4Answer? || end.L4Failed? || end.L4TimedOut? || end.Raised?)
            && (end.Raised? ==> exists timeout :: world.l4(job.input, timeout) == L4BudgetExhausted)
  {
  }

  /** A cascade that calls L4 ends with what L4 does. */
  lemma EndOfL4(release: Release, contract: Contract, record: Record, s: Setting)
    requires ReachesL4(ServedEnd(release, contract, record, s))
    ensures var end := ServedEnd(release, contract, record, s).end;
            && (end.L4Answer? || end.L4Failed? || end.L4TimedOut? || end.Raised?)
            && (end.Raised? ==> exists timeout :: s.world.l4(record.input, timeout) == L4BudgetExhausted)
  {
    var p := Prepare(release, s.world, Prepared(s.breakers, s.pool, map[], []), |LAYERS|);
    var job := Job(release, p.workers, contract, record.input, release.routing.totalDeadlineMs);
    var first := Progress(p.breakers, p.attempts, [], 0.0, Undecided);
    LayersCallNoL4(job, s.world, first, |LAYERS|);
    L4EndsTheCascade(job, s.world, CascadeLayers(job, s.world, first, |LAYERS|));
  }

  lemma LayerCallsNoL4(job: Job, world: World, p: Progress, layer: Layer)
    requires !ReachesL4(p)
    ensures !ReachesL4(CascadeLayer(job, world, p, layer))
  {
    var q := CascadeLayer(job, world, p, layer);
    assert q.calls == p.calls || (|q.calls| == |p.calls| + 1 && q.calls[|p.calls|].layer == Some(layer));
  }

  lemma {:induction false} LayersCallNoL4(job: Job, world: World, p: Progress, n: nat)
    requires n <= |LAYERS| && p.calls == []
    ensures !ReachesL4(CascadeLayers(job, world, p, n))
  {
    if n > 0 {
      LayersCallNoL4(job, world, p, n - 1);
      LayerCallsNoL4(job, world, CascadeLayers(job, world, p, n - 1), LAYERS[n - 1]);
    }
  }

  lemma OneRequest(h: History, e: Event, release: Release, contract: Contract, offline: World, record: Record)
    requires RequestFor(h.runtime.registry, release, contract, offline, record, e) && Ready(release, h.runtime)
    requires Settled(release, contract, offline, record)
    ensures var n := Next(h, e);
            && n.runtime.registry == h.runtime.registry
            && |n.log| == |h.log| + 1 && n.log[..|h.log|] == h.log && AsEvaluated(release, contract, offline, record, n.log[|h.log|])
            && (NeverFails(contract, offline) ==> Ready(release, n.runtime))
  {
    var s := Setting(e.env.world, h.runtime.breakers, h.runtime.pool);
    assert SameConditions(release, offline, s);
    CascadeGoesAsEvaluated(release, contract, offline, record, s);
    if NeverFails(contract, offline) {
      RequestKeepsConditions(release, contract, record.input, offline, s);
    }
  }

  /** Nothing but the one trace is written when nothing after the cascade raises. */
  lemma QuietlyConcluded(release: Release, request: Request, env: Env, serving: ServingResult)
    requires !env.auditRaises && !env.traceLeaks && !env.evidenceRaises && serving.path.CascadePath? && serving.chosen != CacheAnswer
    requires serving.errorType == L4FallbackFailure ==> serving.output.None?
    ensures Conclude(release, request, env, Some(serving)).0
         == [Trace(request.targetName, release.contractHash, serving.releaseId, if serving.attempts.Some? then serving.attempts.value else [], false,
                   serving.ok, serving.chosen, serving.errorType, serving.cost, serving.latency, env.buckets, env.timestamp)]
  {
  }

  lemma OneTrace(h: History, e: Event, release: Release, contract: Contract, offline: World, record: Record)
    requires RequestFor(h.runtime.registry, release, contract, offline, record, e) && Ready(release, h.runtime)
    requires Settled(release, contract, offline, record) && Quiet(e)
    ensures var traces := Next(h, e).runtime.traces;
            |traces| == |h.runtime.traces| + 1 && traces[..|h.runtime.traces|] == h.runtime.traces
            && Reports(release, contract, offline, record, e, traces[|h.runtime.traces|])
  {
    var s := Setting(e.env.world, h.runtime.breakers, h.runtime.pool);
    assert SameConditions(release, offline, s);
    CascadeGoesAsEvaluated(release, contract, offline, record, s);
    var q := ServedEnd(release, contract, record, s);
    QuietlyConcluded(release, e.request, e.env,
                     CascadeServing(release, e.env.world, record.input, q.end, q.attempts, q.calls, q.elapsed));
  }

  // ---------------------------------------------------------------------------
  // Whole runs
  // ---------------------------------------------------------------------------

  /** One request for each record, in order. */
  ghost predicate RequestsFor(s: RegistryState, release: Release, contract: Contract, offline: World, records: seq<Record>, requests: seq<Event>) {
    |requests| == |records| && forall i | 0 <= i < |records| ::
      RequestFor(s, release, contract, offline, records[i], requests[i]) && Settled(release, contract, offline, records[i])
  }

  /** From `h` to `n`, with the registry as it was, each record's request went as the record was evaluated. */
  ghost predicate WentAsEvaluated(release: Release, contract: Contract, offline: World, records: seq<Record>, h: History, n: History) {
    && n.runtime.registry == h.runtime.registry && Ready(release, n.runtime)
    && |n.log| == |h.log| + |records| && n.log[..|h.log|] == h.log
    && forall i | 0 <= i < |records| :: AsEvaluated(release, contract, offline, records[i], n.log[|h.log| + i])
  }

  lemma OneMoreWent(release: Release, contract: Contract, offline: World, records: seq<Record>, h: History, m: History, n: History)
    requires records != [] && WentAsEvaluated(release, contract, offline, records[..|records| - 1], h, m)
    requires n.runtime.registry == m.runtime.registry && Ready(release, n.runtime)
    requires |n.log| == |m.log| + 1 && n.log[..|m.log|] == m.log
    requires AsEvaluated(release, contract, offline, records[|records| - 1], n.log[|m.log|])
    ensures WentAsEvaluated(release, contract, offline, records, h, n)
  {
    var k := |records| - 1;
    assert n.log[..|h.log|] == m.log[..|h.log|];
    forall i | 0 <= i < |records| ensures AsEvaluated(release, contract, offline, records[i], n.log[|h.log| + i]) {
      if i < k {
        assert records[i] == records[..k][i] && n.log[|h.log| + i] == m.log[|h.log| + i];
      }
    }
  }

  lemma LastEvent(before: seq<Event>, requests: seq<Event>)
    requires requests != []
    ensures RunAll(before + requests) == Next(RunAll(before + requests[..|requests| - 1]), requests[|requests| - 1])
  {
    assert (before + requests)[..|before + requests| - 1] == before + requests[..|requests| - 1];
  }

  /** Over any run that finds the release ready, and whose workers only accept or abstain, every request goes as its
      record was evaluated: both conditions are kept from request to request. */
  lemma {:induction false} RunGoesAsEvaluated(before: seq<Event>, requests: seq<Event>, release: Release, contract: Contract, offline: World, records: seq<Record>)
    requires RequestsFor(RunAll(before).runtime.registry, release, contract, offline, records, requests)
    requires Ready(release, RunAll(before).runtime) && NeverFails(contract, offline)
    ensures WentAsEvaluated(release, contract, offline, records, RunAll(before), RunAll(before + requests))
    decreases |requests|
  {
    if requests == [] {
      assert before + requests == before;
    } else {
      var k := |requests| - 1;
      RunGoesAsEvaluated(before, requests[..k], release, contract, offline, records[..k]);
      LastEvent(before, requests);
      var h, m, n := RunAll(before), RunAll(before + requests[..k]), RunAll(before + requests);
      OneRequest(m, requests[k], release, contract, offline, records[k]);
      OneMoreWent(release, contract, offline, records, h, m, n);
    }
  }

  /** The traces since `early` report the records' routes, one each. */
  ghost predicate AllReported(release: Release, contract: Contract, offline: World, records: seq<Record>, requests: seq<Event>, early: seq<Trace>, all: seq<Trace>)
    requires |requests| == |records|
  {
    && |all| == |early| + |records| && all[..|early|] == early
    && forall i | 0 <= i < |records| :: Reports(release, contract, offline, records[i], requests[i], all[|early| + i])
  }

  lemma OneMoreReported(release: Release, contract: Contract, offline: World, records: seq<Record>, requests: seq<Event>, early: seq<Trace>, most: seq<Trace>, all: seq<Trace>)
    requires |requests| == |records| > 0
    requires AllReported(release, contract, offline, records[..|records| - 1], requests[..|records| - 1], early, most)
    requires |all| == |most| + 1 && all[..|most|] == most
    requires Reports(release, contract, offline, records[|records| - 1], requests[|records| - 1], all[|most|])
    ensures AllReported(release, contract, offline, records, requests, early, all)
  {
    var k := |records| - 1;
    assert all[..|early|] == most[..|early|];
    forall i | 0 <= i < |records| ensures Reports(release, contract, offline, records[i], requests[i], all[|early| + i]) {
      if i < k {
        assert Reports(release, contract, offline, records[..k][i], requests[..k][i], most[|early| + i]);
        assert all[|early| + i] == most[|early| + i];
      }
    }
  }

  lemma {:induction false} RunWritesItsTraces(before: seq<Event>, requests: seq<Event>, release: Release, contract: Contract, offline: World, records: seq<Record>)
    requires RequestsFor(RunAll(before).runtime.registry, release, contract, offline, records, requests)
    requires Ready(release, RunAll(before).runtime) && NeverFails(contract, offline)
    requires forall i | 0 <= i < |requests| :: Quiet(requests[i])
    ensures AllReported(release, contract, offline, records, requests, RunAll(before).runtime.traces, RunAll(before + requests).runtime.traces)
    decreases |requests|
  {
    if requests == [] {
      assert before + requests == before;
    } else {
      var k := |requests| - 1;
      RunWritesItsTraces(before, requests[..k], release, contract, offline, records[..k]);
      RunGoesAsEvaluated(before, requests[..k], release, contract, offline, records[..k]);
      LastEvent(before, requests);
      var h, m, n := RunAll(before), RunAll(before + requests[..k]), RunAll(before + requests);
      OneTrace(m, requests[k], release, contract, offline, records[k]);
      OneMoreReported(release, contract, offline, records, requests, h.runtime.traces, m.runtime.traces, n.runtime.traces);
    }
  }

  // ---------------------------------------------------------------------------
  // Fractions of the run and of its window
  // ---------------------------------------------------------------------------

  /** What the requests after `before` did. */
  ghost function ServedSince(before: seq<Event>, requests: seq<Event>): seq<Served> {
    Later(RunAll(before).log, RunAll(before + requests).log)
  }

  function Later<T>(early: seq<T>, all: seq<T>): seq<T> {
    if |early| <= |all| then all[|early|..] else []
  }

  ghost predicate AllSettled(release: Release, contract: Contract, offline: World, records: seq<Record>) {
    forall i | 0 <= i < |records| :: Settled(release, contract, offline, records[i])
  }

  lemma ServedAreCounted(release: Release, contract: Contract, offline: World, records: seq<Record>, served: seq<Served>)
    requires |served| == |records| && forall i | 0 <= i < |records| :: AsEvaluated(release, contract, offline, records[i], served[i])
    ensures var accepted := AcceptedRecords(release, contract, offline, records);
            Count(served, AnsweredLocally) == accepted && Count(served, SentToL4) == |records| - accepted
  {
    CountPairs(records, served, (r: Record) => AcceptsRecord(release, contract, offline, r), AnsweredLocally);
    CountPairs(records, served, (r: Record) => !AcceptsRecord(release, contract, offline, r), SentToL4);
    CountOthers(records, (r: Record) => AcceptsRecord(release, contract, offline, r), (r: Record) => !AcceptsRecord(release, contract, offline, r));
  }

  lemma TracesAreCounted(release: Release, contract: Contract, offline: World, records: seq<Record>, requests: seq<Event>, traces: seq<Trace>)
    requires |traces| == |records| == |requests|
    requires forall i | 0 <= i < |records| :: Reports(release, contract, offline, records[i], requests[i], traces[i])
    ensures AnsweredBy(traces, AcceptedRecords(release, contract, offline, records), |records|)
  {
    CountPairs(records, traces, (r: Record) => AcceptsRecord(release, contract, offline, r), IsLocal);
    CountPairs(records, traces, (r: Record) => !AcceptsRecord(release, contract, offline, r), IsReference);
    CountPairs(records, traces, (r: Record) => false, IsHit);
    CountBounded(records, (r: Record) => AcceptsRecord(release, contract, offline, r));
    CountNone(records, (r: Record) => false);
    CountOthers(records, (r: Record) => AcceptsRecord(release, contract, offline, r), (r: Record) => !AcceptsRecord(release, contract, offline, r));
  }

  lemma SettledSucceed(release: Release, contract: Contract, judge: Judge, policy: ReferencePolicy, offline: World, records: seq<Record>, planned: seq<Record>)
    requires multiset(planned) == multiset(records) && AllSettled(release, contract, offline, records)
    ensures FullEvaluation(CandidateOf(release), contract, judge, policy, offline, planned)
         == Some(Evaluated(RowsFor(CandidateOf(release), contract, judge, policy, offline, planned), policy))
  {
    NoPlannedRaises(release, contract, offline, records, planned);
  }

  /** An evaluation of `n` records that succeeded and accepted so many of them. */
  ghost predicate Shares(evaluated: Option<EvaluationResult>, accepted: nat, n: nat) {
    && accepted <= n && evaluated.Some?
    && Summary(evaluated.value.rows).coverage == Ratio(accepted, n)
    && evaluated.value.fallbackShare == Ratio(n - accepted, n)
  }

  lemma RowShares(rows: seq<Row>, policy: ReferencePolicy, accepted: nat, n: nat)
    requires |rows| == n && accepted <= n && Count(rows, IsAccepted) == accepted && Count(rows, IsFallback) == n - accepted
    ensures Shares(Some(Evaluated(rows, policy)), accepted, n)
  {
  }

  lemma SettledAreEvaluated(release: Release, contract: Contract, judge: Judge, policy: ReferencePolicy, offline: World, records: seq<Record>, planned: seq<Record>)
    requires multiset(planned) == multiset(records) && AllSettled(release, contract, offline, records)
    ensures Shares(FullEvaluation(CandidateOf(release), contract, judge, policy, offline, planned),
                   AcceptedRecords(release, contract, offline, records), |records|)
  {
    EvaluatedCounts(release, contract, judge, policy, offline, records, planned);
    SettledSucceed(release, contract, judge, policy, offline, records, planned);
    RowShares(RowsFor(CandidateOf(release), contract, judge, policy, offline, planned), policy, AcceptedRecords(release, contract, offline, records), |records|);
  }

  lemma LaterServed(release: Release, contract: Contract, offline: World, records: seq<Record>, h: History, n: History)
    requires WentAsEvaluated(release, contract, offline, records, h, n)
    ensures var served := Later(h.log, n.log);
            |served| == |records| && forall i | 0 <= i < |records| :: AsEvaluated(release, contract, offline, records[i], served[i])
  {
    forall i | 0 <= i < |records| ensures AsEvaluated(release, contract, offline, records[i], Later(h.log, n.log)[i]) {
      assert Later(h.log, n.log)[i] == n.log[|h.log| + i];
    }
  }

  /** Over such a run the evaluated coverage and fallback share, in whatever order the records were evaluated, are
      the fractions of its requests that were answered locally and that went on to L4. */
  lemma CoveragePredictsTheRun(before: seq<Event>, requests: seq<Event>, release: Release, contract: Contract, judge: Judge, policy: ReferencePolicy,
                               offline: World, records: seq<Record>, planned: seq<Record>)
    requires RequestsFor(RunAll(before).runtime.registry, release, contract, offline, records, requests)
    requires Ready(release, RunAll(before).runtime) && NeverFails(contract, offline)
    requires multiset(planned) == multiset(records)
    ensures var evaluated := FullEvaluation(CandidateOf(release), contract, judge, policy, offline, planned);
            var served := ServedSince(before, requests);
            && evaluated.Some? && |served| == |records|
            && Summary(evaluated.value.rows).coverage == Ratio(Count(served, AnsweredLocally), |records|)
            && evaluated.value.fallbackShare == Ratio(Count(served, SentToL4), |records|)
  {
    RunGoesAsEvaluated(before, requests, release, contract, offline, records);
    LaterServed(release, contract, offline, records, RunAll(before), RunAll(before + requests));
    ServedAreCounted(release, contract, offline, records, ServedSince(before, requests));
    SettledAreEvaluated(release, contract, judge, policy, offline, records, planned);
  }

  /** The traces of the release in a window that encloses those since `early` and none before are just those. */
  lemma WindowOfReports(release: Release, contract: Contract, offline: World, records: seq<Record>, requests: seq<Event>, early: seq<Trace>, all: seq<Trace>,
                        start: int, end: int)
    requires |requests| == |records| && AllReported(release, contract, offline, records, requests, early, all)
    requires forall i | 0 <= i < |requests| :: requests[i].RequestEvent? && start <= requests[i].env.timestamp <= end
    requires forall t <- early :: t.releaseId == release.releaseId ==> !(start <= t.timestamp <= end)
    ensures var traces := Windowed(TracesOf(all, release.releaseId), start, end);
            |traces| == |records| && forall i | 0 <= i < |records| :: Reports(release, contract, offline, records[i], requests[i], traces[i])
  {
    var traces := all[|early|..];
    forall i | 0 <= i < |records|
      ensures Reports(release, contract, offline, records[i], requests[i], traces[i])
      ensures traces[i].releaseId == release.releaseId && start <= traces[i].timestamp <= end
    {
      assert traces[i] == all[|early| + i];
    }
    assert all == early + traces;
    SelectedLater(early, traces, (t: Trace) => t.releaseId == release.releaseId, (t: Trace) => start <= t.timestamp <= end);
  }

  /** A window over `n` requests of which so many were answered locally, and the others by L4. */
  ghost predicate Figures(window: Window, accepted: nat, n: nat) {
    accepted <= n && window.requestCount == n && window.localCoverage == Ratio(accepted, n) && window.l4FallbackRate == Ratio(n - accepted, n)
  }

  lemma AssembledFigures(release: Release, attempts: PerLayer<nat>, accepts: PerLayer<nat>, details: W.Details, accepted: nat, n: nat)
    requires accepted <= n
    ensures Figures(TraceMetrics.Assemble(release, n, 0, accepted, n - accepted, attempts, accepts, n, details), accepted, n)
  {
  }

  /** A summary of such traces reports their shares. */
  lemma SummaryHasFigures(inside: seq<Trace>, audits: seq<W.AuditRecord>, release: Release, accepted: nat, n: nat)
    requires AnsweredBy(inside, accepted, n)
    ensures var window := Summarize(inside, audits, release);
            window.Some? ==> Figures(window.value, accepted, n)
  {
    var details := W.DetailsOf(inside, audits, NonCache(inside));
    if details.Some? {
      AssembledFigures(release, LayerCounts(inside, false), LayerCounts(inside, true), details.value, accepted, n);
    }
  }

  lemma WindowIsSummary(traces: seq<Trace>, audits: seq<W.AuditRecord>, start: int, end: int, release: Release)
    ensures var window := Aggregate(traces, audits, start, end, release);
            window.Some? ==> window == Summarize(Windowed(traces, start, end), WindowedAudits(audits, start, end), release)
  {
  }

  /** `n` traces without a hit, so many of them answered locally, and the others by L4. */
  ghost predicate AnsweredBy(traces: seq<Trace>, accepted: nat, n: nat) {
    accepted <= n == |traces| && Count(traces, IsLocal) == accepted && Count(traces, IsReference) == n - accepted && Count(traces, IsHit) == 0
  }

  lemma ReportsMakeFigures(release: Release, contract: Contract, offline: World, records: seq<Record>, requests: seq<Event>, early: seq<Trace>, all: seq<Trace>,
                           audits: seq<W.AuditRecord>, start: int, end: int)
    requires |requests| == |records| && AllReported(release, contract, offline, records, requests, early, all)
    requires forall i | 0 <= i < |requests| :: requests[i].RequestEvent? && start <= requests[i].env.timestamp <= end
    requires forall t <- early :: t.releaseId == release.releaseId ==> !(start <= t.timestamp <= end)
    ensures var window := Aggregate(TracesOf(all, release.releaseId), audits, start, end, release);
            window.Some? ==> Figures(window.value, AcceptedRecords(release, contract, offline, records), |records|)
  {
    var traces := TracesOf(all, release.releaseId);
    WindowOfReports(release, contract, offline, records, requests, early, all, start, end);
    TracesAreCounted(release, contract, offline, records, requests, Windowed(traces, start, end));
    WindowIsSummary(traces, audits, start, end, release);
    SummaryHasFigures(Windowed(traces, start, end), WindowedAudits(audits, start, end), release, AcceptedRecords(release, contract, offline, records), |records|);
  }

  /** The metric window over such a run, when nothing in it is beyond range, reports the evaluated coverage and
      fallback share; `start` and `end` enclose the run and no earlier trace of the release. */
  lemma WindowReportsTheEvaluation(before: seq<Event>, requests: seq<Event>, release: Release, contract: Contract, judge: Judge, policy: ReferencePolicy,
                                   offline: World, records: seq<Record>, planned: seq<Record>, audits: seq<W.AuditRecord>, start: int, end: int)
    requires RequestsFor(RunAll(before).runtime.registry, release, contract, offline, records, requests)
    requires Ready(release, RunAll(before).runtime) && NeverFails(contract, offline)
    requires multiset(planned) == multiset(records)
    requires forall i | 0 <= i < |requests| :: Quiet(requests[i]) && start <= requests[i].env.timestamp <= end
    requires forall t <- RunAll(before).runtime.traces :: t.releaseId == release.releaseId ==> !(start <= t.timestamp <= end)
    ensures var evaluated := FullEvaluation(CandidateOf(release), contract, judge, policy, offline, planned);
            var window := Aggregate(TracesOf(RunAll(before + requests).runtime.traces, release.releaseId), audits, start, end, release);
            window.Some? ==>
              && evaluated.Some?
              && window.value.requestCount == |records|
              && window.value.localCoverage == Summary(evaluated.value.rows).coverage
              && window.value.l4FallbackRate == evaluated.value.fallbackShare
  {
    var early, all := RunAll(before).runtime.traces, RunAll(before + requests).runtime.traces;
    RunWritesItsTraces(before, requests, release, contract, offline, records);
    ReportsMakeFigures(release, contract, offline, records, requests, early, all, audits, start, end);
    SettledAreEvaluated(release, contract, judge, policy, offline, records, planned);
  }
}
