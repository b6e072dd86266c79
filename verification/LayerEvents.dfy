/** What one request does to the circuit of one layer. */
module LayerEvents {
  import opened Wrappers
  import opened Domain
  import opened CircuitBreaker
  import opened Cascade
  import opened CascadeProperties

  /** The layer is prepared for the request, and its worker fails the health check. */
  predicate FailsPreparation(release: Release, world: World, record: Option<Breaker>, layer: Layer) {
    ActiveLayer(release, layer) && !Check(record, false).0 && !world.healthy(layer)
  }

  /** The circuit after preparation. */
  function PreparedRecord(release: Release, world: World, record: Option<Breaker>, layer: Layer): Option<Breaker> {
    if FailsPreparation(release, world, record, layer)
    then Some(Update(Check(record, false).1, true, Threshold(release), Cooldown(release)))
    else if ActiveLayer(release, layer) then Check(record, false).1 else record
  }

  function KeyAt(release: Release, layer: Layer): CircuitKey { CircuitKey(release.releaseId, layer) }

  lemma PrepareTurn(release: Release, world: World, p: Prepared, turn: Layer, layer: Layer)
    ensures var q := PrepareLayer(release, world, p, turn);
            var record := Lookup(p.breakers, KeyAt(release, layer));
            if turn != layer then
              && Lookup(q.breakers, KeyAt(release, layer)) == record
              && Events(q.attempts, layer) == Events(p.attempts, layer) && (layer in q.workers <==> layer in p.workers)
            else
              && Lookup(q.breakers, KeyAt(release, layer)) == PreparedRecord(release, world, record, layer)
              && Events(q.attempts, layer) == Events(p.attempts, layer) + (if FailsPreparation(release, world, record, layer) then [Failed] else [])
              && (FailsPreparation(release, world, record, layer) ==> q.workers == p.workers)
  {
    if ActiveLayer(release, turn) {
      EventsAppend(p.attempts, SkipLayerAttempt(turn, release.artifacts[turn].artifactId, HealthFailure), layer);
    }
  }

  /** Preparation does to a layer's circuit what that layer's turn does. */
  lemma {:induction false} PreparedLayer(release: Release, world: World, p: Prepared, n: nat, layer: Layer)
    requires n <= |LAYERS| && p.attempts == [] && p.workers == map[]
    ensures var q := Prepare(release, world, p, n);
            var record := Lookup(p.breakers, KeyAt(release, layer));
            if Index(layer) >= n then
              Lookup(q.breakers, KeyAt(release, layer)) == record && Events(q.attempts, layer) == [] && layer !in q.workers
            else
              && Lookup(q.breakers, KeyAt(release, layer)) == PreparedRecord(release, world, record, layer)
              && Events(q.attempts, layer) == (if FailsPreparation(release, world, record, layer) then [Failed] else [])
              && (FailsPreparation(release, world, record, layer) ==> layer !in q.workers)
  {
    if n > 0 {
      PreparedLayer(release, world, p, n - 1, layer);
      assert Index(LAYERS[n - 1]) == n - 1;
      PrepareTurn(release, world, Prepare(release, world, p, n - 1), LAYERS[n - 1], layer);
    }
  }

  /** A cascade turn at one layer leaves the others' circuits and events alone. */
  lemma OtherTurn(job: Job, world: World, p: Progress, turn: Layer, layer: Layer)
    requires turn != layer
    ensures var q := CascadeLayer(job, world, p, turn);
            && Lookup(q.breakers, KeyAt(job.release, layer)) == Lookup(p.breakers, KeyAt(job.release, layer))
            && Events(q.attempts, layer) == Events(p.attempts, layer)
  {
    var a := LayerAppends(job, world, p, turn);
    if a.Some? {
      EventsAppend(p.attempts, a.value, layer);
    }
  }

  lemma {:induction false} EarlierTurns(job: Job, world: World, p: Progress, n: nat, layer: Layer)
    requires n <= Index(layer)
    ensures var q := CascadeLayers(job, world, p, n);
            && Lookup(q.breakers, KeyAt(job.release, layer)) == Lookup(p.breakers, KeyAt(job.release, layer))
            && Events(q.attempts, layer) == Events(p.attempts, layer)
  {
    if n > 0 {
      EarlierTurns(job, world, p, n - 1, layer);
      assert Index(LAYERS[n - 1]) == n - 1;
      OtherTurn(job, world, CascadeLayers(job, world, p, n - 1), LAYERS[n - 1], layer);
    }
  }

  lemma {:induction false} LaterTurns(job: Job, world: World, p: Progress, n: nat, layer: Layer)
    requires Index(layer) < n <= |LAYERS|
    ensures Events(CascadeLayers(job, world, p, n).attempts, layer) == Events(CascadeLayers(job, world, p, Index(layer) + 1).attempts, layer)
    decreases n
  {
    if n > Index(layer) + 1 {
      LaterTurns(job, world, p, n - 1, layer);
      assert Index(LAYERS[n - 1]) == n - 1;
      OtherTurn(job, world, CascadeLayers(job, world, p, n - 1), LAYERS[n - 1], layer);
    }
  }

  /** The cascade comes to the layer undecided and in time. */
  predicate Arrives(job: Job, world: World, first: Progress, layer: Layer) {
    var q := CascadeLayers(job, world, first, Index(layer));
    && q.end.Undecided? && layer in job.release.routing.enabledLayers
    && RemainingMs(q.elapsed + world.pause(Some(layer), false), job.deadlineMs) > 0
  }

  /** What the layer's own turn adds: a skip of an open circuit, or at most its worker's outcome. */
  lemma OwnTurn(job: Job, world: World, p: Progress, layer: Layer)
    ensures var events := Events(CascadeLayer(job, world, p, layer).attempts, layer);
            var before := Events(p.attempts, layer);
            var inTime := layer in job.release.routing.enabledLayers && RemainingMs(p.elapsed + world.pause(Some(layer), false), job.deadlineMs) > 0;
            var open := Check(Lookup(p.breakers, KeyAt(job.release, layer)), true).0;
            if !inTime then events == before
            else if open then events == before + [Skipped]
            else events == before || (layer in job.workers && exists e: Event :: e != Skipped && events == before + [e])
  {
    var a := LayerAppends(job, world, p, layer);
    if a.Some? {
      EventsAppend(p.attempts, a.value, layer);
    }
  }

  function JobFor(release: Release, contract: Contract, input: Payload, deadlineMs: int, p: Prepared): Job {
    Job(release, p.workers, contract, input, deadlineMs)
  }

  function First(p: Prepared): Progress { Progress(p.breakers, p.attempts, [], 0.0, Undecided) }

  lemma CascadeAtLayer(job: Job, world: World, first: Progress, layer: Layer)
    ensures var events := Events(WholeCascade(job, world, first).attempts, layer);
            var before := Events(first.attempts, layer);
            if !Arrives(job, world, first, layer) then events == before
            else if Check(Lookup(first.breakers, KeyAt(job.release, layer)), true).0 then events == before + [Skipped]
            else events == before || (layer in job.workers && exists e: Event :: e != Skipped && events == before + [e])
  {
    var q := CascadeLayers(job, world, first, Index(layer));
    EarlierTurns(job, world, first, Index(layer), layer);
    LaterTurns(job, world, first, |LAYERS|, layer);
    assert LAYERS[Index(layer)] == layer;
    if q.end.Undecided? {
      OwnTurn(job, world, q, layer);
    }
    L4AddsNoAttempt(job, world, CascadeLayers(job, world, first, |LAYERS|));
  }

  /** What a request records at a layer: its preparation, and then its arrival. */
  lemma RequestAtLayer(release: Release, contract: Contract, input: Payload, deadlineMs: int, world: World,
                       breakers: map<CircuitKey, Breaker>, pool: map<string, Package>, layer: Layer)
    ensures var (p, q) := PrepareAndRun(release, contract, input, deadlineMs, world, breakers, pool);
            var record := Lookup(breakers, KeyAt(release, layer));
            var fails := FailsPreparation(release, world, record, layer);
            var before := if fails then [Failed] else [];
            var events := Events(q.attempts, layer);
            if !Arrives(JobFor(release, contract, input, deadlineMs, p), world, First(p), layer) then events == before
            else if Check(PreparedRecord(release, world, record, layer), true).0 then events == before + [Skipped]
            else events == before || (!fails && exists e: Event :: e != Skipped && events == [e])
  {
    var start := Prepared(breakers, pool, map[], []);
    PreparedLayer(release, world, start, |LAYERS|, layer);
    var p := Prepare(release, world, start, |LAYERS|);
    CascadeAtLayer(JobFor(release, contract, input, deadlineMs, p), world, First(p), layer);
  }

  /** A failed preparation opens the circuit exactly when it brings the failures to the threshold. */
  lemma OpensAtThreshold(release: Release, world: World, record: Option<Breaker>, layer: Layer)
    requires record.Some? && record.value.open ==> record.value.remaining >= 1
    ensures var failures := if record.Some? then record.value.failures else 0;
            && (FailsPreparation(release, world, record, layer)
                <==> ActiveLayer(release, layer) && (record.None? || !record.value.open) && !world.healthy(layer))
            && (FailsPreparation(release, world, record, layer)
                ==> (Check(PreparedRecord(release, world, record, layer), true).0 <==> failures + 1 >= Threshold(release)))
  {
  }

  /** One request records at a layer nothing, one event, or a failed health check and then a skip. The pair happens
      exactly when the layer serves, its circuit is closed, its worker is unhealthy, this failure brings the trailing
      failures to the threshold, and the cascade still arrives at the layer. */
  lemma AtMostOneOutcomePerLayer(release: Release, contract: Contract, input: Payload, deadlineMs: int, world: World,
                                 breakers: map<CircuitKey, Breaker>, pool: map<string, Package>, layer: Layer)
    requires Sound(breakers)
    ensures var (p, q) := PrepareAndRun(release, contract, input, deadlineMs, world, breakers, pool);
            var events := Events(q.attempts, layer);
            var record := Lookup(breakers, KeyAt(release, layer));
            var failures := if record.Some? then record.value.failures else 0;
            && (|events| <= 1 || events == [Failed, Skipped])
            && (events == [Failed, Skipped] <==>
                  && ActiveLayer(release, layer) && (record.None? || !record.value.open) && !world.healthy(layer)
                  && failures + 1 >= Threshold(release)
                  && Arrives(JobFor(release, contract, input, deadlineMs, p), world, First(p), layer))
  {
    RequestAtLayer(release, contract, input, deadlineMs, world, breakers, pool, layer);
    OpensAtThreshold(release, world, Lookup(breakers, KeyAt(release, layer)), layer);
  }

  // ---------------------------------------------------------------------------
  // Replies that raise
  // ---------------------------------------------------------------------------

  /** The artifact's worker sends only replies on which parsing raises. */
  ghost predicate AlwaysRaises(world: World, artifactId: string) {
    forall worker: Package, input: Payload, timeout: int :: worker.artifactId == artifactId ==> world.worker(worker, input, timeout) == Raises
  }

  predicate Closed(record: Option<Breaker>) { record.Some? ==> !record.value.open }

  ghost predicate Called(calls: seq<Call>, layer: Option<Layer>) {
    exists c <- calls :: c.layer == layer
  }

  ghost predicate CallsOnly(before: seq<Call>, after: seq<Call>, turn: Layer) {
    after == before || (exists c: Call :: c.layer == Some(turn) && after == before + [c])
  }

  lemma MetCalls(job: Job, world: World, p: Progress, turn: Layer)
    ensures CallsOnly(p.calls, MetLayer(job, world, p, turn).calls, turn)
  {
  }

  lemma TurnCalls(job: Job, world: World, p: Progress, turn: Layer, layer: Option<Layer>)
    ensures Called(CascadeLayer(job, world, p, turn).calls, layer) ==> Called(p.calls, layer) || layer == Some(turn)
  {
    MetCalls(job, world, p.(elapsed := p.elapsed + world.pause(Some(turn), false)), turn);
    assert CallsOnly(p.calls, CascadeLayer(job, world, p, turn).calls, turn);
  }

  /** What a call to the layer's worker records: nothing exactly when its reply raises, which ends the cascade, and
      otherwise one event that is no skip. */
  ghost predicate Counted(job: Job, world: World, before: seq<Event>, q: Progress, c: Call, layer: Layer) {
    var events := Events(q.attempts, layer);
    && layer in job.workers
    && var raises := world.worker(job.workers[layer], job.input, c.timeout).Raises?;
       && (events == before <==> raises)
       && (raises ==> q.end.Raised?)
       && (!raises ==> exists e: Event :: e != Skipped && events == before + [e])
  }

  /** A turn that calls its worker is a worker's turn, after whatever time has passed. */
  lemma TurnThatCalls(job: Job, world: World, p: Progress, layer: Layer) returns (called: Progress)
    requires CascadeLayer(job, world, p, layer).calls != p.calls
    ensures layer in job.workers && called.attempts == p.attempts && called.calls == p.calls
    ensures CascadeLayer(job, world, p, layer) == WorkerTurn(job, world, called, layer)
  {
    var key := KeyAt(job.release, layer);
    var record := Check(Lookup(p.breakers, key), true).1;
    called := p.(elapsed := p.elapsed + world.pause(Some(layer), false) + world.pause(Some(layer), true), breakers := Store(p.breakers, key, record));
  }

  lemma AttemptIsNoSkip(worker: Package, contract: Contract, reply: WorkerReply, layer: Layer)
    ensures var a := RunLayerAttempt(worker, contract, reply, layer);
            (a.None? <==> reply.Raises?) && (a.Some? ==> a.value.layer == layer && EventOf(a.value) != Skipped)
  {
  }

  lemma WorkerTurnIsCounted(job: Job, world: World, p: Progress, layer: Layer) returns (c: Call)
    requires layer in job.workers
    ensures var q := WorkerTurn(job, world, p, layer);
            q.calls == p.calls + [c] && c.layer == Some(layer) && Counted(job, world, Events(p.attempts, layer), q, c, layer)
  {
    var q := WorkerTurn(job, world, p, layer);
    var worker := job.workers[layer];
    var timeout := CallTimeout(job, layer, worker, RemainingMs(p.elapsed, job.deadlineMs));
    var a := RunLayerAttempt(worker, job.contract, world.worker(worker, job.input, timeout), layer);
    c := Call(Some(layer), p.elapsed, timeout, world.workerTime(worker, job.input, timeout));
    AttemptIsNoSkip(worker, job.contract, world.worker(worker, job.input, timeout), layer);
    if a.Some? {
      assert q.attempts == p.attempts + [a.value];
      EventsAppend(p.attempts, a.value, layer);
    } else {
      assert q.attempts == p.attempts;
    }
  }

  lemma TurnIsCounted(job: Job, world: World, p: Progress, layer: Layer) returns (c: Call)
    requires CascadeLayer(job, world, p, layer).calls != p.calls
    ensures var q := CascadeLayer(job, world, p, layer);
            q.calls == p.calls + [c] && c.layer == Some(layer) && Counted(job, world, Events(p.attempts, layer), q, c, layer)
  {
    var called := TurnThatCalls(job, world, p, layer);
    c := WorkerTurnIsCounted(job, world, called, layer);
  }

  lemma {:induction false} EarlierCalls(job: Job, world: World, p: Progress, n: nat, layer: Layer)
    requires n <= Index(layer) && p.calls == []
    ensures !Called(CascadeLayers(job, world, p, n).calls, Some(layer))
  {
    if n > 0 {
      EarlierCalls(job, world, p, n - 1, layer);
      assert Index(LAYERS[n - 1]) == n - 1;
      TurnCalls(job, world, CascadeLayers(job, world, p, n - 1), LAYERS[n - 1], Some(layer));
    }
  }

  lemma {:induction false} LaterCalls(job: Job, world: World, p: Progress, n: nat, layer: Layer)
    requires Index(layer) < n <= |LAYERS|
    ensures Called(CascadeLayers(job, world, p, n).calls, Some(layer)) ==> Called(CascadeLayers(job, world, p, Index(layer) + 1).calls, Some(layer))
    decreases n
  {
    if n > Index(layer) + 1 {
      LaterCalls(job, world, p, n - 1, layer);
      assert Index(LAYERS[n - 1]) == n - 1;
      TurnCalls(job, world, CascadeLayers(job, world, p, n - 1), LAYERS[n - 1], Some(layer));
    }
  }

  lemma {:induction false} LayersCallNoL4(job: Job, world: World, p: Progress, n: nat)
    requires n <= |LAYERS| && p.calls == []
    ensures !Called(CascadeLayers(job, world, p, n).calls, None)
  {
    if n > 0 {
      LayersCallNoL4(job, world, p, n - 1);
      TurnCalls(job, world, CascadeLayers(job, world, p, n - 1), LAYERS[n - 1], None);
    }
  }

  /** Whenever a cascade calls a layer, that call is counted against the layer, once, unless its reply raises; in that
      case nothing is, and the cascade ends without L4. */
  lemma CallIsCountedUnlessItRaises(job: Job, world: World, first: Progress, layer: Layer) returns (c: Call)
    requires first.calls == [] && Called(WholeCascade(job, world, first).calls, Some(layer))
    ensures c.layer == Some(layer) && Counted(job, world, Events(first.attempts, layer), WholeCascade(job, world, first), c, layer)
    ensures world.worker(job.workers[layer], job.input, c.timeout).Raises? ==> !Called(WholeCascade(job, world, first).calls, None)
  {
    var i := Index(layer);
    var p, q := CascadeLayers(job, world, first, i), CascadeLayers(job, world, first, |LAYERS|);
    L4AddsNoAttempt(job, world, q);
    L4CallsNoLayer(job, world, q, layer);
    EarlierTurns(job, world, first, i, layer);
    EarlierCalls(job, world, first, i, layer);
    LaterTurns(job, world, first, |LAYERS|, layer);
    LaterCalls(job, world, first, |LAYERS|, layer);
    assert LAYERS[i] == layer;
    LayersCallNoL4(job, world, first, |LAYERS|);
    c := TurnIsCounted(job, world, p, layer);
    if CascadeLayer(job, world, p, layer).end.Raised? {
      DecidedLayersStop(job, world, first, i + 1, |LAYERS|);
    }
  }

  /** Up to the call of such a worker nothing is recorded at its layer, and that call ends the cascade. */
  ghost predicate Uncounted(job: Job, first: Progress, q: Progress, layer: Layer) {
    && Lookup(q.breakers, KeyAt(job.release, layer)) == Lookup(first.breakers, KeyAt(job.release, layer))
    && Events(q.attempts, layer) == Events(first.attempts, layer)
    && (Called(q.calls, Some(layer)) ==> q.end.Raised?)
    && !Called(q.calls, None)
  }

  lemma RaisingTurn(job: Job, world: World, first: Progress, p: Progress, turn: Layer, layer: Layer)
    requires Uncounted(job, first, p, layer) && p.end.Undecided?
    requires layer in job.workers ==> AlwaysRaises(world, job.workers[layer].artifactId)
    requires Closed(Lookup(first.breakers, KeyAt(job.release, layer)))
    ensures Uncounted(job, first, CascadeLayer(job, world, p, turn), layer)
  {
    TurnCalls(job, world, p, turn, Some(layer));
    TurnCalls(job, world, p, turn, None);
    if turn == layer {
      OwnRaisingTurn(job, world, p, layer);
    } else {
      OtherTurn(job, world, p, turn, layer);
    }
  }

  lemma OwnRaisingTurn(job: Job, world: World, p: Progress, layer: Layer)
    requires layer in job.workers ==> AlwaysRaises(world, job.workers[layer].artifactId)
    requires Closed(Lookup(p.breakers, KeyAt(job.release, layer)))
    ensures var q := CascadeLayer(job, world, p, layer);
            && Lookup(q.breakers, KeyAt(job.release, layer)) == Lookup(p.breakers, KeyAt(job.release, layer))
            && q.attempts == p.attempts && (q.calls == p.calls || q.end.Raised?)
  {
    var key := KeyAt(job.release, layer);
    assert Store(p.breakers, key, Lookup(p.breakers, key)) == p.breakers;
  }

  lemma {:induction false} RaisingLayers(job: Job, world: World, first: Progress, n: nat, layer: Layer)
    requires n <= |LAYERS| && first.calls == []
    requires layer in job.workers ==> AlwaysRaises(world, job.workers[layer].artifactId)
    requires Closed(Lookup(first.breakers, KeyAt(job.release, layer)))
    ensures Uncounted(job, first, CascadeLayers(job, world, first, n), layer)
  {
    if n > 0 {
      RaisingLayers(job, world, first, n - 1, layer);
      if CascadeLayers(job, world, first, n - 1).end.Undecided? {
        RaisingTurn(job, world, first, CascadeLayers(job, world, first, n - 1), LAYERS[n - 1], layer);
      }
    }
  }

  /** A worker whose replies raise is never counted against its layer: as long as it is healthy, no event is recorded
      and its circuit stays closed, while every request that calls it ends in an exception without asking L4. */
  lemma RaisingWorkerIsNeverCounted(release: Release, contract: Contract, input: Payload, deadlineMs: int, world: World,
                                    breakers: map<CircuitKey, Breaker>, pool: map<string, Package>, layer: Layer)
    requires KeysActive(release, breakers) && PoolMatches(pool)
    requires layer in release.artifacts && AlwaysRaises(world, release.artifacts[layer].artifactId)
    requires world.healthy(layer) && Closed(Lookup(breakers, KeyAt(release, layer)))
    ensures var q := PrepareAndRun(release, contract, input, deadlineMs, world, breakers, pool).1;
            && Events(q.attempts, layer) == []
            && Lookup(q.breakers, KeyAt(release, layer)) == Lookup(breakers, KeyAt(release, layer))
            && (Called(q.calls, Some(layer)) ==> q.end.Raised? && !Called(q.calls, None))
  {
    var p := Prepare(release, world, Prepared(breakers, pool, map[], []), |LAYERS|);
    var job := JobFor(release, contract, input, deadlineMs, p);
    PreparedClosed(release, world, breakers, pool, layer);
    RaisingLayers(job, world, First(p), |LAYERS|, layer);
    L4AddsNoAttempt(job, world, CascadeLayers(job, world, First(p), |LAYERS|));
    L4CallsNoLayer(job, world, CascadeLayers(job, world, First(p), |LAYERS|), layer);
  }

  lemma PreparedClosed(release: Release, world: World, breakers: map<CircuitKey, Breaker>, pool: map<string, Package>, layer: Layer)
    requires KeysActive(release, breakers) && PoolMatches(pool) && layer in release.artifacts
    requires world.healthy(layer) && Closed(Lookup(breakers, KeyAt(release, layer)))
    ensures var p := Prepare(release, world, Prepared(breakers, pool, map[], []), |LAYERS|);
            && Lookup(p.breakers, KeyAt(release, layer)) == Lookup(breakers, KeyAt(release, layer))
            && Events(p.attempts, layer) == []
            && (layer in p.workers ==> p.workers[layer].artifactId == release.artifacts[layer].artifactId)
  {
    var start := Prepared(breakers, pool, map[], []);
    PrepareFits(release, world, start, |LAYERS|);
    PreparedLayer(release, world, start, |LAYERS|, layer);
  }

  lemma L4CallsNoLayer(job: Job, world: World, p: Progress, layer: Layer)
    ensures Called(CascadeL4(job, world, p).calls, Some(layer)) ==> Called(p.calls, Some(layer))
  {
    var q := CascadeL4(job, world, p);
    assert q.calls == p.calls || (q.calls[..|p.calls|] == p.calls && |q.calls| == |p.calls| + 1 && q.calls[|p.calls|].layer == None);
  }
}
