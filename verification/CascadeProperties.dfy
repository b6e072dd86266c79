/** What every cascade keeps, whatever its workers, its clock and its fallback do. */
module CascadeProperties {
  import opened Wrappers
  import opened Domain
  import opened CircuitBreaker
  import opened Cascade

  // ---------------------------------------------------------------------------
  // Deadline
  // ---------------------------------------------------------------------------

  /** A call starts only while whole milliseconds remain, and is given no more than those. */
  ghost predicate WithinDeadline(call: Call, deadlineMs: int) {
    && RemainingMs(call.start, deadlineMs) > 0
    && call.timeout <= RemainingMs(call.start, deadlineMs)
  }

  lemma {:induction false} LayerCallsWithinDeadline(job: Job, world: World, p: Progress, n: nat)
    requires n <= |LAYERS| && forall c <- p.calls :: WithinDeadline(c, job.deadlineMs)
    ensures forall c <- CascadeLayers(job, world, p, n).calls :: WithinDeadline(c, job.deadlineMs)
  {
    if n > 0 {
      LayerCallsWithinDeadline(job, world, p, n - 1);
    }
  }

  /** Whatever the pauses and the durations, every call the cascade makes respects the deadline. */
  lemma CallsWithinDeadline(job: Job, world: World, p: Progress)
    requires p.calls == []
    ensures forall c <- WholeCascade(job, world, p).calls :: WithinDeadline(c, job.deadlineMs)
  {
    LayerCallsWithinDeadline(job, world, p, |LAYERS|);
  }

  function Allowance(timeout: int): real { Max(timeout, 0) as real }

  /** Calls return within their timeouts and nothing else takes time. */
  ghost predicate Punctual(world: World) {
    && (forall layer, again :: world.pause(layer, again) == 0.0)
    && (forall worker, input, timeout :: world.workerTime(worker, input, timeout) <= Allowance(timeout))
    && (forall input, timeout :: world.l4Time(input, timeout) <= Allowance(timeout))
  }

  ghost predicate InTime(elapsed: Time, deadlineMs: int) {
    elapsed == 0.0 || (deadlineMs > 0 && elapsed < deadlineMs as real + 1.0)
  }

  lemma PunctualCallInTime(start: Time, duration: Time, timeout: int, deadlineMs: int)
    requires RemainingMs(start, deadlineMs) > 0 && timeout <= RemainingMs(start, deadlineMs)
    requires duration <= Allowance(timeout)
    ensures InTime(start + duration, deadlineMs)
  {
    assert duration <= RemainingMs(start, deadlineMs) as real;
    assert start < start.Floor as real + 1.0;
  }

  /** Without pauses a turn takes no time, or that of one call made with time remaining. */
  lemma TurnTakes(job: Job, world: World, p: Progress, layer: Layer)
    requires world.pause(Some(layer), false) == 0.0 && world.pause(Some(layer), true) == 0.0
    ensures var after := CascadeLayer(job, world, p, layer).elapsed;
            || after == p.elapsed
            || (layer in job.workers && RemainingMs(p.elapsed, job.deadlineMs) > 0
                && var worker := job.workers[layer];
                   after == p.elapsed + world.workerTime(worker, job.input, CallTimeout(job, layer, worker, RemainingMs(p.elapsed, job.deadlineMs))))
  {
    MetTakes(job, world, p, layer);
  }

  lemma MetTakes(job: Job, world: World, p: Progress, layer: Layer)
    requires world.pause(Some(layer), true) == 0.0
    ensures var after := MetLayer(job, world, p, layer).elapsed;
            || after == p.elapsed
            || (layer in job.workers && RemainingMs(p.elapsed, job.deadlineMs) > 0
                && var worker := job.workers[layer];
                   after == p.elapsed + world.workerTime(worker, job.input, CallTimeout(job, layer, worker, RemainingMs(p.elapsed, job.deadlineMs))))
  {
  }

  lemma LayerInTime(job: Job, world: World, p: Progress, layer: Layer)
    requires Punctual(world) && InTime(p.elapsed, job.deadlineMs)
    ensures InTime(CascadeLayer(job, world, p, layer).elapsed, job.deadlineMs)
  {
    TurnTakes(job, world, p, layer);
    if CascadeLayer(job, world, p, layer).elapsed != p.elapsed {
      var worker := job.workers[layer];
      var timeout := CallTimeout(job, layer, worker, RemainingMs(p.elapsed, job.deadlineMs));
      PunctualCallInTime(p.elapsed, world.workerTime(worker, job.input, timeout), timeout, job.deadlineMs);
    }
  }

  lemma {:induction false} LayersInTime(job: Job, world: World, p: Progress, n: nat)
    requires n <= |LAYERS| && Punctual(world) && InTime(p.elapsed, job.deadlineMs)
    ensures InTime(CascadeLayers(job, world, p, n).elapsed, job.deadlineMs)
  {
    if n > 0 {
      LayersInTime(job, world, p, n - 1);
      LayerInTime(job, world, CascadeLayers(job, world, p, n - 1), LAYERS[n - 1]);
    }
  }

  /** A chain of up to three layers and L4 whose calls keep to their timeouts ends strictly before the
      deadline plus one millisecond, for every non-negative deadline; with a negative one it ends at once. */
  lemma CascadeEndsInTime(job: Job, world: World, p: Progress)
    requires Punctual(world) && p.elapsed == 0.0
    ensures var end := WholeCascade(job, world, p).elapsed;
            && (end < job.deadlineMs as real + 1.0 <==> job.deadlineMs >= 0)
            && (job.deadlineMs <= 0 ==> end == 0.0)
  {
    LayersInTime(job, world, p, |LAYERS|);
    var q := CascadeLayers(job, world, p, |LAYERS|);
    var end := WholeCascade(job, world, p);
    if q.end.Undecided? {
      assert world.pause(None, false) == 0.0 && world.pause(None, true) == 0.0;
      var remaining := RemainingMs(q.elapsed, job.deadlineMs);
      if remaining > 0 {
        PunctualCallInTime(q.elapsed, world.l4Time(job.input, remaining), remaining, job.deadlineMs);
      }
    }
    assert InTime(end.elapsed, job.deadlineMs);
  }

  // ---------------------------------------------------------------------------
  // Attempts
  // ---------------------------------------------------------------------------

  /** An attempt names a layer the release serves from and carries that layer's artifact. */
  predicate AttemptFits(release: Release, a: Attempt) {
    && ActiveLayer(release, a.layer)
    && a.artifactId == release.artifacts[a.layer].artifactId
    && (a.decision == Accept ==> a.output.Some?)
  }

  /** A circuit is only ever kept for a layer the release serves from. */
  ghost predicate KeysActive(release: Release, breakers: map<CircuitKey, Breaker>) {
    forall k <- breakers :: k.releaseId == release.releaseId ==> ActiveLayer(release, k.layer)
  }

  /** A pooled worker runs the artifact it is filed under. */
  ghost predicate PoolMatches(pool: map<string, Package>) {
    forall id <- pool :: pool[id].artifactId == id
  }

  ghost predicate WorkersFit(release: Release, workers: map<Layer, Package>) {
    forall l <- workers :: ActiveLayer(release, l) && workers[l].artifactId == release.artifacts[l].artifactId
  }

  ghost predicate AttemptsFit(release: Release, attempts: seq<Attempt>) {
    forall a <- attempts :: AttemptFits(release, a)
  }

  /** The layers whose attempts were accepted, in order. */
  function Accepted(attempts: seq<Attempt>): seq<Layer> {
    if attempts == [] then []
    else
      var last := attempts[|attempts| - 1];
      Accepted(attempts[..|attempts| - 1]) + (if last.decision == Accept then [last.layer] else [])
  }

  lemma AcceptedAppend(attempts: seq<Attempt>, a: Attempt)
    ensures Accepted(attempts + [a]) == Accepted(attempts) + (if a.decision == Accept then [a.layer] else [])
  {
    assert (attempts + [a])[..|attempts + [a]| - 1] == attempts;
  }

  /** Exactly one attempt is accepted when a local layer answers, and none otherwise. */
  function AnsweringLayers(end: End): seq<Layer> {
    if end.LocalAnswer? then [end.layer] else []
  }

  ghost predicate PreparedFits(release: Release, p: Prepared) {
    && KeysActive(release, p.breakers)
    && PoolMatches(p.pool)
    && WorkersFit(release, p.workers)
    && AttemptsFit(release, p.attempts)
    && Accepted(p.attempts) == []
  }

  lemma PrepareLayerFits(release: Release, world: World, p: Prepared, layer: Layer)
    requires PreparedFits(release, p)
    ensures PreparedFits(release, PrepareLayer(release, world, p, layer))
  {
    var q := PrepareLayer(release, world, p, layer);
    if ActiveLayer(release, layer) {
      var key := CircuitKey(release.releaseId, layer);
      var a := SkipLayerAttempt(layer, release.artifacts[layer].artifactId, HealthFailure);
      AcceptedAppend(p.attempts, a);
      assert AttemptFits(release, a);
      assert forall k <- q.breakers :: k in p.breakers || k == key;
      assert KeysActive(release, q.breakers);
      assert q.attempts == p.attempts || q.attempts == p.attempts + [a];
      assert AttemptsFit(release, q.attempts) && Accepted(q.attempts) == [];
      PrepareLayerFitsWorkers(release, world, p, layer);
    }
  }

  lemma PrepareLayerFitsWorkers(release: Release, world: World, p: Prepared, layer: Layer)
    requires ActiveLayer(release, layer) && PoolMatches(p.pool) && WorkersFit(release, p.workers)
    ensures PoolMatches(PrepareLayer(release, world, p, layer).pool) && WorkersFit(release, PrepareLayer(release, world, p, layer).workers)
  {
    var q, id := PrepareLayer(release, world, p, layer), release.artifacts[layer].artifactId;
    assert (q.pool == p.pool && q.workers == p.workers)
        || (exists worker: Package :: worker.artifactId == id && q.pool == p.pool[id := worker] && q.workers == p.workers[layer := worker]);
  }

  lemma {:induction false} PrepareFits(release: Release, world: World, p: Prepared, n: nat)
    requires n <= |LAYERS| && PreparedFits(release, p)
    ensures PreparedFits(release, Prepare(release, world, p, n))
  {
    if n > 0 {
      PrepareFits(release, world, p, n - 1);
      PrepareLayerFits(release, world, Prepare(release, world, p, n - 1), LAYERS[n - 1]);
    }
  }

  ghost predicate ProgressFits(job: Job, p: Progress) {
    && KeysActive(job.release, p.breakers)
    && WorkersFit(job.release, job.workers)
    && AttemptsFit(job.release, p.attempts)
    && Accepted(p.attempts) == AnsweringLayers(p.end)
  }

  /** One pass of the loop adds at most one attempt: a skip of an open circuit, or the layer's worker. */
  lemma LayerAppends(job: Job, world: World, p: Progress, layer: Layer) returns (a: Option<Attempt>)
    ensures var q := CascadeLayer(job, world, p, layer);
            var key := CircuitKey(job.release.releaseId, layer);
            match a
            case None => q.attempts == p.attempts && (q.end.LocalAnswer? ==> p.end.LocalAnswer?)
            case Some(a) =>
              && q.attempts == p.attempts + [a]
              && a.layer == layer && layer in job.release.routing.enabledLayers
              && (if EventOf(a) == Skipped then
                    && Check(Lookup(p.breakers, key), true).0 && q.end == p.end && a.decision != Accept
                    && a.artifactId == ArtifactIdAt(job.release, layer)
                  else
                    && layer in job.workers && a.artifactId == job.workers[layer].artifactId
                    && (a.decision == Accept ==> a.output.Some? && q.end == LocalAnswer(layer, a.output.value))
                    && (a.decision != Accept ==> q.end == Undecided))
  {
    var q := CascadeLayer(job, world, p, layer);
    a := if q.attempts == p.attempts then None else Some(q.attempts[|p.attempts|]);
  }

  /** A turn only ever touches the circuit of a layer with a worker, or one that was kept before. */
  lemma LayerKeepsKeys(job: Job, world: World, p: Progress, layer: Layer)
    requires KeysActive(job.release, p.breakers) && WorkersFit(job.release, job.workers)
    ensures KeysActive(job.release, CascadeLayer(job, world, p, layer).breakers)
  {
    var key := CircuitKey(job.release.releaseId, layer);
    assert forall k <- CascadeLayer(job, world, p, layer).breakers :: k in p.breakers || (k == key && layer in job.workers);
  }

  lemma LayerFits(job: Job, world: World, p: Progress, layer: Layer)
    requires ProgressFits(job, p) && p.end.Undecided?
    ensures ProgressFits(job, CascadeLayer(job, world, p, layer))
  {
    LayerKeepsKeys(job, world, p, layer);
    var a := LayerAppends(job, world, p, layer);
    var key := CircuitKey(job.release.releaseId, layer);
    assert Check(Lookup(p.breakers, key), true).0 ==> key in p.breakers;
    if a.Some? {
      AcceptedAppend(p.attempts, a.value);
      assert AttemptFits(job.release, a.value);
    }
  }

  lemma {:induction false} LayersFit(job: Job, world: World, p: Progress, n: nat)
    requires n <= |LAYERS| && ProgressFits(job, p) && p.end.Undecided?
    ensures ProgressFits(job, CascadeLayers(job, world, p, n))
  {
    if n > 0 {
      LayersFit(job, world, p, n - 1);
      if CascadeLayers(job, world, p, n - 1).end.Undecided? {
        LayerFits(job, world, CascadeLayers(job, world, p, n - 1), LAYERS[n - 1]);
      }
    }
  }

  lemma CascadeFits(job: Job, world: World, p: Progress)
    requires ProgressFits(job, p) && p.end.Undecided?
    ensures ProgressFits(job, WholeCascade(job, world, p))
  {
    LayersFit(job, world, p, |LAYERS|);
    L4AddsNoAttempt(job, world, CascadeLayers(job, world, p, |LAYERS|));
  }

  lemma L4AddsNoAttempt(job: Job, world: World, p: Progress)
    ensures var q := CascadeL4(job, world, p);
            q.attempts == p.attempts && q.breakers == p.breakers && !q.end.LocalAnswer?
  {
  }

  // ---------------------------------------------------------------------------
  // Attempts record what happened to the circuits
  // ---------------------------------------------------------------------------

  function EventOf(a: Attempt): Event {
    if a.decision == Error && a.reason == CircuitOpen then Skipped
    else if IsFailure(a.decision) then Failed
    else Succeeded
  }

  /** What a list of attempts says happened at one layer. */
  function Events(attempts: seq<Attempt>, layer: Layer): seq<Event> {
    if attempts == [] then []
    else
      var last := attempts[|attempts| - 1];
      Events(attempts[..|attempts| - 1], layer) + (if last.layer == layer then [EventOf(last)] else [])
  }

  lemma EventsAppend(attempts: seq<Attempt>, a: Attempt, layer: Layer)
    ensures Events(attempts + [a], layer) == Events(attempts, layer) + (if a.layer == layer then [EventOf(a)] else [])
  {
    assert (attempts + [a])[..|attempts + [a]| - 1] == attempts;
  }

  /** An open circuit still has requests to skip. */
  ghost predicate Sound(breakers: map<CircuitKey, Breaker>) {
    forall k <- breakers :: breakers[k].open ==> breakers[k].remaining >= 1
  }

  /** The circuits of one layer moved exactly as the attempts say, skipping only while open. */
  ghost predicate LayerRecorded(release: Release, before: map<CircuitKey, Breaker>, after: map<CircuitKey, Breaker>,
                                attempts: seq<Attempt>, layer: Layer)
  {
    var key := CircuitKey(release.releaseId, layer);
    var events := Events(attempts, layer);
    && Legal(Lookup(before, key), events, Threshold(release), Cooldown(release))
    && Lookup(after, key) == Replay(Lookup(before, key), events, Threshold(release), Cooldown(release))
  }

  ghost predicate OthersUntouched(release: Release, before: map<CircuitKey, Breaker>, after: map<CircuitKey, Breaker>) {
    forall k: CircuitKey :: k.releaseId != release.releaseId ==> Lookup(before, k) == Lookup(after, k)
  }

  ghost predicate Recorded(release: Release, before: map<CircuitKey, Breaker>, after: map<CircuitKey, Breaker>, attempts: seq<Attempt>) {
    && Sound(after)
    && OthersUntouched(release, before, after)
    && (forall layer: Layer :: LayerRecorded(release, before, after, attempts, layer))
  }

  lemma EventRecorded(record: Option<Breaker>, events: seq<Event>, e: Event, threshold: int, cooldown: int)
    requires Legal(record, events, threshold, cooldown)
    requires Allowed(Replay(record, events, threshold, cooldown), e)
    ensures Legal(record, events + [e], threshold, cooldown)
    ensures Replay(record, events + [e], threshold, cooldown) == Apply(Replay(record, events, threshold, cooldown), e, threshold, cooldown)
  {
    assert [e][..0] == [];
    LegalConcat(record, events, [e], threshold, cooldown);
    assert (events + [e])[..|events + [e]| - 1] == events;
  }

  /** `a` moved its own layer's circuit, and nothing else, as it says. */
  ghost predicate Moves(release: Release, b: map<CircuitKey, Breaker>, a: Attempt, after: map<CircuitKey, Breaker>) {
    var key := CircuitKey(release.releaseId, a.layer);
    && Allowed(Lookup(b, key), EventOf(a))
    && after == Store(b, key, Apply(Lookup(b, key), EventOf(a), Threshold(release), Cooldown(release)))
  }

  lemma AttemptRecordedAtLayer(release: Release, before: map<CircuitKey, Breaker>, b: map<CircuitKey, Breaker>, attempts: seq<Attempt>,
                               a: Attempt, after: map<CircuitKey, Breaker>, layer: Layer)
    requires LayerRecorded(release, before, b, attempts, layer) && Moves(release, b, a, after)
    ensures LayerRecorded(release, before, after, attempts + [a], layer)
  {
    EventsAppend(attempts, a, layer);
    if layer == a.layer {
      EventRecorded(Lookup(before, CircuitKey(release.releaseId, layer)), Events(attempts, layer), EventOf(a),
                    Threshold(release), Cooldown(release));
    } else {
      assert Events(attempts + [a], layer) == Events(attempts, layer);
    }
  }

  lemma MovesKeepSound(release: Release, b: map<CircuitKey, Breaker>, a: Attempt, after: map<CircuitKey, Breaker>)
    requires Sound(b) && Moves(release, b, a, after)
    ensures Sound(after)
  {
    var key := CircuitKey(release.releaseId, a.layer);
    assert forall k <- after :: k == key || (k in b && after[k] == b[k]);
  }

  /** One more attempt that moved its own layer's circuit as it says keeps the record. */
  lemma AttemptRecorded(release: Release, before: map<CircuitKey, Breaker>, b: map<CircuitKey, Breaker>, attempts: seq<Attempt>,
                        a: Attempt, after: map<CircuitKey, Breaker>)
    requires Recorded(release, before, b, attempts) && Moves(release, b, a, after)
    ensures Recorded(release, before, after, attempts + [a])
  {
    forall layer: Layer
      ensures LayerRecorded(release, before, after, attempts + [a], layer)
    {
      assert LayerRecorded(release, before, b, attempts, layer);
      AttemptRecordedAtLayer(release, before, b, attempts, a, after, layer);
    }
    MovesKeepSound(release, b, a, after);
  }

  /** A failed health check moves its layer's circuit as its attempt says; nothing else in preparation moves any. */
  lemma PrepareLayerRecorded(release: Release, world: World, before: map<CircuitKey, Breaker>, p: Prepared, layer: Layer)
    requires Recorded(release, before, p.breakers, p.attempts)
    ensures var q := PrepareLayer(release, world, p, layer);
            Recorded(release, before, q.breakers, q.attempts)
  {
    var key := CircuitKey(release.releaseId, layer);
    assert Store(p.breakers, key, Lookup(p.breakers, key)) == p.breakers;
    if ActiveLayer(release, layer) && !Check(Lookup(p.breakers, key), false).0 && !world.healthy(layer) {
      var a := SkipLayerAttempt(layer, release.artifacts[layer].artifactId, HealthFailure);
      AttemptRecorded(release, before, p.breakers, p.attempts, a, PrepareLayer(release, world, p, layer).breakers);
    }
  }

  lemma {:induction false} PrepareRecorded(release: Release, world: World, before: map<CircuitKey, Breaker>, p: Prepared, n: nat)
    requires n <= |LAYERS| && Recorded(release, before, p.breakers, p.attempts)
    ensures var q := Prepare(release, world, p, n);
            Recorded(release, before, q.breakers, q.attempts)
  {
    if n > 0 {
      PrepareRecorded(release, world, before, p, n - 1);
      PrepareLayerRecorded(release, world, before, Prepare(release, world, p, n - 1), LAYERS[n - 1]);
    }
  }

  lemma LayerMoves(job: Job, world: World, p: Progress, layer: Layer, a: Attempt)
    requires Sound(p.breakers) && CascadeLayer(job, world, p, layer).attempts == p.attempts + [a]
    ensures a.layer == layer && Moves(job.release, p.breakers, a, CascadeLayer(job, world, p, layer).breakers)
  {
    var key := CircuitKey(job.release.releaseId, layer);
    assert (p.attempts + [a])[|p.attempts|] == a;
    if !Check(Lookup(p.breakers, key), true).0 {
      assert Store(p.breakers, key, Lookup(p.breakers, key)) == p.breakers;
    }
  }

  lemma LayerStepRecorded(job: Job, world: World, before: map<CircuitKey, Breaker>, p: Progress, layer: Layer)
    requires Recorded(job.release, before, p.breakers, p.attempts)
    ensures var q := CascadeLayer(job, world, p, layer);
            Recorded(job.release, before, q.breakers, q.attempts)
  {
    var q := CascadeLayer(job, world, p, layer);
    var a := LayerAppends(job, world, p, layer);
    if a.Some? {
      LayerMoves(job, world, p, layer, a.value);
      AttemptRecorded(job.release, before, p.breakers, p.attempts, a.value, q.breakers);
    } else {
      var key := CircuitKey(job.release.releaseId, layer);
      assert Store(p.breakers, key, Lookup(p.breakers, key)) == p.breakers;
    }
  }

  lemma {:induction false} LayersRecorded(job: Job, world: World, before: map<CircuitKey, Breaker>, p: Progress, n: nat)
    requires n <= |LAYERS| && Recorded(job.release, before, p.breakers, p.attempts)
    ensures var q := CascadeLayers(job, world, p, n);
            Recorded(job.release, before, q.breakers, q.attempts)
  {
    if n > 0 {
      LayersRecorded(job, world, before, p, n - 1);
      var q := CascadeLayers(job, world, p, n - 1);
      if q.end.Undecided? {
        LayerStepRecorded(job, world, before, q, LAYERS[n - 1]);
      }
    }
  }

  function Index(layer: Layer): nat {
    match layer case L1 => 0 case L2 => 1 case L3 => 2
  }

  // ---------------------------------------------------------------------------
  // Preparation and cascade together
  // ---------------------------------------------------------------------------

  /** The cascade half of serving one request: prepare the workers, then run the cascade. */
  function PrepareAndRun(release: Release, contract: Contract, input: Payload, deadlineMs: int, world: World,
                         breakers: map<CircuitKey, Breaker>, pool: map<string, Package>): (Prepared, Progress)
  {
    var p := Prepare(release, world, Prepared(breakers, pool, map[], []), |LAYERS|);
    var job := Job(release, p.workers, contract, input, deadlineMs);
    (p, WholeCascade(job, world, Progress(p.breakers, p.attempts, [], 0.0, Undecided)))
  }

  lemma NothingRecorded(release: Release, breakers: map<CircuitKey, Breaker>)
    requires Sound(breakers)
    ensures Recorded(release, breakers, breakers, [])
  {
    forall layer: Layer ensures LayerRecorded(release, breakers, breakers, [], layer) { }
  }

  /** Every attempt of a served request fits its release; exactly one is accepted when a local layer
      answers; and the circuits moved exactly as the attempts say. */
  lemma ServedAttempts(release: Release, contract: Contract, input: Payload, deadlineMs: int, world: World,
                       breakers: map<CircuitKey, Breaker>, pool: map<string, Package>)
    requires KeysActive(release, breakers) && PoolMatches(pool) && Sound(breakers)
    ensures var (p, q) := PrepareAndRun(release, contract, input, deadlineMs, world, breakers, pool);
            && PoolMatches(p.pool)
            && KeysActive(release, q.breakers)
            && AttemptsFit(release, q.attempts)
            && Accepted(q.attempts) == AnsweringLayers(q.end)
            && Recorded(release, breakers, q.breakers, q.attempts)
  {
    var start := Prepared(breakers, pool, map[], []);
    PrepareFits(release, world, start, |LAYERS|);
    NothingRecorded(release, breakers);
    PrepareRecorded(release, world, breakers, start, |LAYERS|);
    var p := Prepare(release, world, start, |LAYERS|);
    var job := Job(release, p.workers, contract, input, deadlineMs);
    var first := Progress(p.breakers, p.attempts, [], 0.0, Undecided);
    CascadeFits(job, world, first);
    LayersRecorded(job, world, breakers, first, |LAYERS|);
  }
}
