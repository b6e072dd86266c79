/** Offline evaluation predicts what serving does with the same artifacts. */
module EvaluationRefinement {
  import opened Wrappers
  import opened Domain
  import opened CircuitBreaker
  import opened Cascade
  import opened CascadeProperties
  import opened Evaluation
  import opened Sequences
  import opened Counting

  /** One served request: the world it met and the circuits and workers it found. */
  datatype Setting = Setting(world: World, breakers: map<CircuitKey, Breaker>, pool: map<string, Package>)

  ghost predicate NoOpenCircuit(release: Release, breakers: map<CircuitKey, Breaker>) {
    forall layer: Layer :: var b := Lookup(breakers, CircuitKey(release.releaseId, layer)); b.None? || !b.value.open
  }

  /** Artifact identifiers stand for one artifact each, in the pool and across the layers. */
  ghost predicate PoolFaithful(release: Release, pool: map<string, Package>) {
    && (forall layer <- release.artifacts :: release.artifacts[layer].artifactId in pool ==>
          pool[release.artifacts[layer].artifactId] == release.artifacts[layer])
    && (forall a <- release.artifacts, b <- release.artifacts ::
          release.artifacts[a].artifactId == release.artifacts[b].artifactId ==> release.artifacts[a] == release.artifacts[b])
  }

  /** Healthy workers that behave as they did offline, and a runtime that loses no time of its own. */
  ghost predicate SameConditions(release: Release, offline: World, s: Setting) {
    && s.world.worker == offline.worker && s.world.workerTime == offline.workerTime
    && (forall layer :: s.world.healthy(layer))
    && (forall layer, again :: s.world.pause(layer, again) == 0.0)
    && NoOpenCircuit(release, s.breakers)
    && PoolFaithful(release, s.pool)
  }

  function CandidateOf(release: Release): Candidate {
    Candidate(release.artifacts, release.routing)
  }

  /** A healthy layer with a closed circuit gets a worker running the release's own artifact. */
  lemma HealthyLayerPrepared(release: Release, world: World, p: Prepared, layer: Layer)
    requires PoolFaithful(release, p.pool) && world.healthy(layer)
    requires !Check(Lookup(p.breakers, CircuitKey(release.releaseId, layer)), false).0
    requires NoOpenCircuit(release, p.breakers)
    ensures var q := PrepareLayer(release, world, p, layer);
            && q.breakers == p.breakers && q.attempts == p.attempts
            && PoolFaithful(release, q.pool)
            && q.workers == (if ActiveLayer(release, layer) then p.workers[layer := release.artifacts[layer]] else p.workers)
  {
    var key := CircuitKey(release.releaseId, layer);
    assert Store(p.breakers, key, Lookup(p.breakers, key)) == p.breakers;
  }

  lemma {:induction false} PreparedAllWorkers(release: Release, offline: World, s: Setting, n: nat)
    requires n <= |LAYERS| && SameConditions(release, offline, s)
    ensures var p := Prepare(release, s.world, Prepared(s.breakers, s.pool, map[], []), n);
            && p.breakers == s.breakers && p.attempts == []
            && PoolFaithful(release, p.pool)
            && (forall layer: Layer :: layer in p.workers <==> ActiveLayer(release, layer) && Index(layer) < n)
            && (forall layer <- p.workers :: p.workers[layer] == release.artifacts[layer])
  {
    if n > 0 {
      PreparedAllWorkers(release, offline, s, n - 1);
      assert forall layer: Layer :: layer == LAYERS[n - 1] <==> Index(layer) == n - 1;
      HealthyLayerPrepared(release, s.world, Prepare(release, s.world, Prepared(s.breakers, s.pool, map[], []), n - 1), LAYERS[n - 1]);
    }
  }

  /** The route reaches an enabled layer with no whole millisecond of the deadline left. */
  ghost predicate LateAt(release: Release, contract: Contract, input: Payload, world: World, n: nat)
    requires n < |LAYERS|
  {
    var r := RouteLayers(CandidateOf(release), contract, input, world, n);
    !Stopped(r) && LAYERS[n] in release.routing.enabledLayers && RemainingMs(r.elapsed, release.routing.totalDeadlineMs) <= 0
  }

  ghost predicate LateBefore(release: Release, contract: Contract, input: Payload, world: World, n: nat) {
    exists k | 0 <= k < n && k < |LAYERS| :: LateAt(release, contract, input, world, k)
  }

  /** The cascade after some layers is the offline route after the same layers. */
  ghost predicate SameProgress(p: Progress, r: Route) {
    && p.attempts == r.attempts && p.calls == r.calls && p.elapsed == r.elapsed
    && p.end == (if r.raised then Raised else if r.chosen.Some? && r.output.Some? then LocalAnswer(r.chosen.value, r.output.value) else Undecided)
    && (r.raised ==> r.chosen.None?)
    && (r.chosen.Some? <==> r.output.Some?)
  }

  ghost predicate LaterLayersClosed(release: Release, breakers: map<CircuitKey, Breaker>, n: nat) {
    forall layer: Layer :: Index(layer) >= n ==>
      var b := Lookup(breakers, CircuitKey(release.releaseId, layer)); b.None? || !b.value.open
  }

  ghost predicate AllWorkers(job: Job) {
    && (forall layer: Layer :: layer in job.workers <==> ActiveLayer(job.release, layer))
    && (forall layer <- job.workers :: job.workers[layer] == job.release.artifacts[layer])
    && job.deadlineMs == job.release.routing.totalDeadlineMs
  }

  ghost predicate NoPause(world: World, offline: World) {
    && world.worker == offline.worker && world.workerTime == offline.workerTime
    && (forall layer, again :: world.pause(layer, again) == 0.0)
  }

  /** One layer, met in time and with its circuit closed, goes the same way offline and in serving. */
  lemma LayerRefines(job: Job, world: World, offline: World, p: Progress, r: Route, n: nat)
    requires n < |LAYERS| && AllWorkers(job) && NoPause(world, offline)
    requires SameProgress(p, r) && !Stopped(r) && LaterLayersClosed(job.release, p.breakers, n)
    requires LAYERS[n] in job.release.routing.enabledLayers ==> RemainingMs(r.elapsed, job.deadlineMs) > 0
    ensures var q := CascadeLayer(job, world, p, LAYERS[n]);
            && SameProgress(q, RouteLayer(CandidateOf(job.release), job.contract, job.input, offline, r, LAYERS[n]))
            && LaterLayersClosed(job.release, q.breakers, n + 1)
  {
    var layer := LAYERS[n];
    assert Index(layer) == n;
    assert world.pause(Some(layer), false) == 0.0 && world.pause(Some(layer), true) == 0.0;
    assert ActiveLayer(job.release, layer) <==> layer in job.workers;
  }

  /** Serving the layers follows the offline route, or stops exactly where that route is late. */
  lemma {:induction false} LayersRefine(job: Job, world: World, offline: World, start: Progress, n: nat)
    requires n <= |LAYERS| && AllWorkers(job) && NoPause(world, offline)
    requires start.attempts == [] && start.calls == [] && start.elapsed == 0.0 && start.end == Undecided
    requires LaterLayersClosed(job.release, start.breakers, 0)
    ensures var q := CascadeLayers(job, world, start, n);
            if LateBefore(job.release, job.contract, job.input, offline, n) then q.end == DeadlineHit
            else
              && SameProgress(q, RouteLayers(CandidateOf(job.release), job.contract, job.input, offline, n))
              && LaterLayersClosed(job.release, q.breakers, n)
  {
    if n > 0 {
      LayersRefine(job, world, offline, start, n - 1);
      var release := job.release;
      var p := CascadeLayers(job, world, start, n - 1);
      var r := RouteLayers(CandidateOf(release), job.contract, job.input, offline, n - 1);
      assert world.pause(Some(LAYERS[n - 1]), false) == 0.0;
      if LateBefore(release, job.contract, job.input, offline, n - 1) {
        assert LateBefore(release, job.contract, job.input, offline, n);
      } else if LateAt(release, job.contract, job.input, offline, n - 1) {
        assert LateBefore(release, job.contract, job.input, offline, n);
      } else {
        assert !LateBefore(release, job.contract, job.input, offline, n);
        if !Stopped(r) {
          LayerRefines(job, world, offline, p, r, n - 1);
        }
      }
    }
  }

  /** Whether the offline route, run to its end without an answer, has used up the deadline. */
  ghost predicate LateAtEnd(release: Release, contract: Contract, input: Payload, world: World) {
    var r := RouteLayers(CandidateOf(release), contract, input, world, |LAYERS|);
    !Stopped(r) && RemainingMs(r.elapsed, release.routing.totalDeadlineMs) <= 0
  }

  ghost predicate Late(release: Release, contract: Contract, input: Payload, world: World) {
    LateBefore(release, contract, input, world, |LAYERS|) || LateAtEnd(release, contract, input, world)
  }

  ghost predicate ReachesL4(q: Progress) {
    q.calls != [] && q.calls[|q.calls| - 1].layer == None
  }

  /** Under the same conditions serving makes the same worker calls, with the same timeouts, and takes the
      same layer's same output as offline evaluation, or raises on the same reply; evaluation's "none" is a call to
      L4. The exception is a route that overruns the deadline, which evaluation carries on with and serving cuts
      off. */
  lemma EvaluationPredictsServing(release: Release, contract: Contract, input: Payload, offline: World, s: Setting)
    requires SameConditions(release, offline, s)
    ensures var q := PrepareAndRun(release, contract, input, release.routing.totalDeadlineMs, s.world, s.breakers, s.pool).1;
            var r := RouteLayers(CandidateOf(release), contract, input, offline, |LAYERS|);
            && (q.end == DeadlineHit <==> Late(release, contract, input, offline))
            && (q.end != DeadlineHit ==>
                  && q.attempts == r.attempts
                  && (forall layer, answer :: q.end == LocalAnswer(layer, answer) <==> r.chosen == Some(layer) && r.output == Some(answer))
                  && (r.raised <==> q.end.Raised? && !ReachesL4(q))
                  && (Stopped(r) <==> !ReachesL4(q))
                  && (if ReachesL4(q) then q.calls[..|q.calls| - 1] else q.calls) == r.calls)
  {
    var start := Prepared(s.breakers, s.pool, map[], []);
    PreparedAllWorkers(release, offline, s, |LAYERS|);
    var p := Prepare(release, s.world, start, |LAYERS|);
    var job := Job(release, p.workers, contract, input, release.routing.totalDeadlineMs);
    var first := Progress(p.breakers, p.attempts, [], 0.0, Undecided);
    LayersRefine(job, s.world, offline, first, |LAYERS|);
    var q := CascadeLayers(job, s.world, first, |LAYERS|);
    var r := RouteLayers(CandidateOf(release), contract, input, offline, |LAYERS|);
    assert s.world.pause(None, false) == 0.0 && s.world.pause(None, true) == 0.0;
    RouteCallsAreLocal(CandidateOf(release), contract, input, offline, |LAYERS|);
  }

  lemma {:induction false} RouteCallsAreLocal(candidate: Candidate, contract: Contract, input: Payload, world: World, n: nat)
    requires n <= |LAYERS|
    ensures var r := RouteLayers(candidate, contract, input, world, n);
            && (forall c <- r.calls :: c.layer.Some?)
            && (r.chosen.Some? <==> r.output.Some?) && (r.raised ==> r.chosen.None?)
  {
    if n > 0 {
      RouteCallsAreLocal(candidate, contract, input, world, n - 1);
    }
  }

  // ---------------------------------------------------------------------------
  // Fractions over many requests
  // ---------------------------------------------------------------------------

  ghost function AcceptsRecord(release: Release, contract: Contract, offline: World, record: Record): bool {
    RouteLayers(CandidateOf(release), contract, record.input, offline, |LAYERS|).chosen.Some?
  }

  /** How many of the records a layer answers. */
  ghost function AcceptedRecords(release: Release, contract: Contract, offline: World, records: seq<Record>): nat {
    Count(records, (r: Record) => AcceptsRecord(release, contract, offline, r))
  }

  lemma {:induction false} RowsCountRecords(release: Release, contract: Contract, judge: Judge, policy: ReferencePolicy, offline: World, planned: seq<Record>)
    ensures var rows := RowsFor(CandidateOf(release), contract, judge, policy, offline, planned);
            Count(rows, IsAccepted) == AcceptedRecords(release, contract, offline, planned)
  {
    if planned != [] {
      var n := |planned| - 1;
      RowsCountRecords(release, contract, judge, policy, offline, planned[..n]);
      var rows := RowsFor(CandidateOf(release), contract, judge, policy, offline, planned);
      assert rows[..|rows| - 1] == RowsFor(CandidateOf(release), contract, judge, policy, offline, planned[..n]);
    }
  }

  ghost function ServedEnd(release: Release, contract: Contract, record: Record, s: Setting): Progress {
    PrepareAndRun(release, contract, record.input, release.routing.totalDeadlineMs, s.world, s.breakers, s.pool).1
  }

  /** How many of the requests a local layer answered, and how many went on to L4. */
  ghost function ServedLocally(release: Release, contract: Contract, records: seq<Record>, settings: seq<Setting>): nat
    requires |settings| == |records|
  {
    if records == [] then 0
    else
      var n := |records| - 1;
      ServedLocally(release, contract, records[..n], settings[..n])
      + (if ServedEnd(release, contract, records[n], settings[n]).end.LocalAnswer? then 1 else 0)
  }

  ghost function ServedByL4(release: Release, contract: Contract, records: seq<Record>, settings: seq<Setting>): nat
    requires |settings| == |records|
  {
    if records == [] then 0
    else
      var n := |records| - 1;
      ServedByL4(release, contract, records[..n], settings[..n])
      + (if ReachesL4(ServedEnd(release, contract, records[n], settings[n])) then 1 else 0)
  }

  /** The record's route neither overruns the deadline nor raises. */
  ghost predicate Settled(release: Release, contract: Contract, offline: World, record: Record) {
    !Late(release, contract, record.input, offline) && !RecordRaises(CandidateOf(release), contract, offline, record)
  }

  ghost predicate Comparable(release: Release, contract: Contract, offline: World, records: seq<Record>, settings: seq<Setting>) {
    && |settings| == |records|
    && (forall i | 0 <= i < |records| ::
          SameConditions(release, offline, settings[i]) && Settled(release, contract, offline, records[i]))
  }

  /** A request in time is answered locally when its record is accepted, and goes on to L4 otherwise. */
  lemma ServedAsEvaluated(release: Release, contract: Contract, offline: World, record: Record, s: Setting)
    requires SameConditions(release, offline, s) && Settled(release, contract, offline, record)
    ensures var q := ServedEnd(release, contract, record, s);
            && (q.end.LocalAnswer? <==> AcceptsRecord(release, contract, offline, record))
            && (ReachesL4(q) <==> !AcceptsRecord(release, contract, offline, record))
  {
    EvaluationPredictsServing(release, contract, record.input, offline, s);
    var q := ServedEnd(release, contract, record, s);
    var r := RouteLayers(CandidateOf(release), contract, record.input, offline, |LAYERS|);
    RouteCallsAreLocal(CandidateOf(release), contract, record.input, offline, |LAYERS|);
    if r.chosen.Some? {
      assert q.end == LocalAnswer(r.chosen.value, r.output.value);
    }
  }

  lemma {:induction false} ServedCounts(release: Release, contract: Contract, offline: World, records: seq<Record>, settings: seq<Setting>)
    requires Comparable(release, contract, offline, records, settings)
    ensures var accepted := AcceptedRecords(release, contract, offline, records);
            && ServedLocally(release, contract, records, settings) == accepted
            && ServedByL4(release, contract, records, settings) == |records| - accepted
  {
    if records != [] {
      var n := |records| - 1;
      ServedCounts(release, contract, offline, records[..n], settings[..n]);
      ServedAsEvaluated(release, contract, offline, records[n], settings[n]);
    }
  }

  /** The evaluation of settled records, in whatever order, succeeds, and its coverage and fallback share are the
      fractions of the same requests that serving answers locally and sends to L4. */
  lemma CoveragePredictsServedFractions(release: Release, contract: Contract, judge: Judge, policy: ReferencePolicy, offline: World,
                                        records: seq<Record>, settings: seq<Setting>, planned: seq<Record>)
    requires Comparable(release, contract, offline, records, settings)
    requires multiset(planned) == multiset(records)
    ensures var evaluated := FullEvaluation(CandidateOf(release), contract, judge, policy, offline, planned);
            && evaluated.Some?
            && Summary(evaluated.value.rows).coverage == Ratio(ServedLocally(release, contract, records, settings), |records|)
            && evaluated.value.fallbackShare == Ratio(ServedByL4(release, contract, records, settings), |records|)
  {
    EvaluatedCounts(release, contract, judge, policy, offline, records, planned);
    ServedCounts(release, contract, offline, records, settings);
    NoPlannedRaises(release, contract, offline, records, planned);
  }

  lemma NoPlannedRaises(release: Release, contract: Contract, offline: World, records: seq<Record>, planned: seq<Record>)
    requires multiset(planned) == multiset(records) && forall i | 0 <= i < |records| :: Settled(release, contract, offline, records[i])
    ensures !SomeRecordRaises(CandidateOf(release), contract, offline, planned)
  {
    forall record | record in planned ensures !RecordRaises(CandidateOf(release), contract, offline, record) {
      assert record in multiset(records);
      var i :| 0 <= i < |records| && records[i] == record;
      assert Settled(release, contract, offline, records[i]);
    }
  }

  lemma EvaluatedCounts(release: Release, contract: Contract, judge: Judge, policy: ReferencePolicy, offline: World, records: seq<Record>, planned: seq<Record>)
    requires multiset(planned) == multiset(records)
    ensures var rows := RowsFor(CandidateOf(release), contract, judge, policy, offline, planned);
            && |rows| == |records|
            && Count(rows, IsAccepted) == AcceptedRecords(release, contract, offline, records)
            && Count(rows, IsFallback) == |records| - Count(rows, IsAccepted)
  {
    RowsCountRecords(release, contract, judge, policy, offline, planned);
    RowsAnswerOnce(CandidateOf(release), contract, judge, policy, offline, planned);
    AcceptedOrFallback(RowsFor(CandidateOf(release), contract, judge, policy, offline, planned));
    CountIgnoresOrder(planned, records, (r: Record) => AcceptsRecord(release, contract, offline, r));
    SameLength(planned, records);
  }

  // ---------------------------------------------------------------------------
  // What a request leaves for the next one
  // ---------------------------------------------------------------------------

  /** A world with the offline workers, all healthy, and no time lost. */
  ghost predicate FairWorld(world: World, offline: World) {
    && world.worker == offline.worker && world.workerTime == offline.workerTime
    && (forall layer :: world.healthy(layer)) && (forall layer, again :: world.pause(layer, again) == 0.0)
  }

  /** Workers that only abstain, or accept with a valid output. */
  ghost predicate NeverFails(contract: Contract, offline: World) {
    forall worker: Package, input: Payload, timeout: int, layer: Layer ::
      var attempt := RunLayerAttempt(worker, contract, offline.worker(worker, input, timeout), layer);
      attempt.Some? && !IsFailure(attempt.value.decision)
  }

  lemma {:induction false} CircuitsStayClosed(job: Job, world: World, offline: World, p: Progress, n: nat)
    requires n <= |LAYERS| && NeverFails(job.contract, offline) && world.worker == offline.worker && NoOpenCircuit(job.release, p.breakers)
    ensures NoOpenCircuit(job.release, CascadeLayers(job, world, p, n).breakers)
  {
    if n > 0 {
      CircuitsStayClosed(job, world, offline, p, n - 1);
      var q := CascadeLayers(job, world, p, n - 1);
      if q.end.Undecided? {
        LayerStaysClosed(job, world, offline, q, LAYERS[n - 1]);
      }
    }
  }

  lemma LayerStaysClosed(job: Job, world: World, offline: World, p: Progress, layer: Layer)
    requires NeverFails(job.contract, offline) && world.worker == offline.worker && NoOpenCircuit(job.release, p.breakers)
    ensures NoOpenCircuit(job.release, CascadeLayer(job, world, p, layer).breakers)
  {
    var key := CircuitKey(job.release.releaseId, layer);
    assert !Check(Lookup(p.breakers, key), true).0 && Check(Lookup(p.breakers, key), true).1 == Lookup(p.breakers, key);
    assert Store(p.breakers, key, Lookup(p.breakers, key)) == p.breakers;
    if layer in job.workers {
      var worker := job.workers[layer];
      forall timeout: int
        ensures var attempt := RunLayerAttempt(worker, job.contract, world.worker(worker, job.input, timeout), layer);
                attempt.Some? && !IsFailure(attempt.value.decision)
      {
      }
    }
  }

  /** One request under fair conditions leaves the circuits closed and the pool faithful. */
  lemma RequestKeepsConditions(release: Release, contract: Contract, input: Payload, offline: World, s: Setting)
    requires SameConditions(release, offline, s) && NeverFails(contract, offline)
    ensures var (p, q) := PrepareAndRun(release, contract, input, release.routing.totalDeadlineMs, s.world, s.breakers, s.pool);
            NoOpenCircuit(release, q.breakers) && PoolFaithful(release, p.pool)
  {
    PreparedAllWorkers(release, offline, s, |LAYERS|);
    var p := Prepare(release, s.world, Prepared(s.breakers, s.pool, map[], []), |LAYERS|);
    var job := Job(release, p.workers, contract, input, release.routing.totalDeadlineMs);
    CircuitsStayClosed(job, s.world, offline, Progress(p.breakers, p.attempts, [], 0.0, Undecided), |LAYERS|);
  }
}
