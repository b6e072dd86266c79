/** What holds after any interleaving of registry operations and requests. */
module ServingRuns {
  import opened Wrappers
  import opened Domain
  import opened Registry
  import opened CircuitBreaker
  import opened Cascade
  import opened CascadeProperties
  import opened Traces
  import opened TraceMetrics
  import W = WindowDetails
  import opened Serving
  import opened Counting

  datatype Event = RegistryEvent(op: Op) | RequestEvent(request: Request, env: Env)

  /** The runtime together with what its requests did so far. */
  datatype History = History(runtime: Runtime, log: seq<Served>)

  ghost function Next(h: History, e: Event): History {
    match e
    case RegistryEvent(op) => h.(runtime := h.runtime.(registry := Registry.Step(h.runtime.registry, op)))
    case RequestEvent(request, env) =>
      var (runtime, served, _) := Serve(h.runtime, request, env);
      History(runtime, if served.Some? then h.log + [served.value] else h.log)
  }

  ghost function RunAll(events: seq<Event>): History
    decreases |events|
  {
    if events == [] then History(IDLE, []) else Next(RunAll(events[..|events| - 1]), events[|events| - 1])
  }

  // ---------------------------------------------------------------------------
  // Registry, circuits and pool
  // ---------------------------------------------------------------------------

  ghost predicate RegistryOk(s: RegistryState) {
    KeysMatch(s) && forall target: string :: OneContract(s, target)
  }

  lemma SelectedIsInScope(s: RegistryState, target: string, bucket: real, disk: Disk)
    requires RegistryOk(s) && Select(s, target, bucket, disk).Some?
    ensures var r := Select(s, target, bucket, disk).value;
            r.targetName == target && r.releaseId in s.releases && s.releases[r.releaseId] == r
  {
    assert OneContract(s, target);
  }

  ghost predicate CircuitsOk(r: Runtime) {
    && Sound(r.breakers)
    && PoolMatches(r.pool)
    && (forall k <- r.breakers :: k.releaseId in r.registry.releases && ActiveLayer(r.registry.releases[k.releaseId], k.layer))
  }

  ghost predicate TracesOk(r: Runtime) {
    forall t <- r.traces :: t.releaseId in r.registry.releases && TraceFits(r.registry.releases[t.releaseId], t)
  }

  /** A status change does not change which layers a release serves from, nor what its traces must say. */
  lemma StatusIsIrrelevant(a: Release, b: Release, t: Trace)
    requires SameButStatus(a, b)
    ensures forall layer: Layer :: ActiveLayer(a, layer) <==> ActiveLayer(b, layer)
    ensures TraceFits(a, t) ==> TraceFits(b, t)
  {
    if TraceFits(a, t) {
      forall x | x in t.attempts ensures AttemptFits(b, x) { assert AttemptFits(a, x); }
    }
  }

  lemma RegistryEventKeeps(h: History, op: Op)
    requires RegistryOk(h.runtime.registry) && CircuitsOk(h.runtime) && TracesOk(h.runtime)
    ensures var n := Next(h, RegistryEvent(op)).runtime;
            RegistryOk(n.registry) && CircuitsOk(n) && TracesOk(n)
  {
    var s := h.runtime.registry;
    var t := Registry.Step(s, op);
    StepExtends(s, op);
    forall target: string ensures OneContract(t, target) {
      StepKeepsOneContract(s, op, target);
    }
    forall k | k in h.runtime.breakers ensures ActiveLayer(t.releases[k.releaseId], k.layer) {
      assert SameButStatus(s.releases[k.releaseId], t.releases[k.releaseId]);
    }
    forall x | x in h.runtime.traces ensures TraceFits(t.releases[x.releaseId], x) {
      StatusIsIrrelevant(s.releases[x.releaseId], t.releases[x.releaseId], x);
    }
  }

  /** A serving result whose attempts belong to the release and agree with the layer it chose. */
  ghost predicate ServingFits(release: Release, v: ServingResult) {
    && v.releaseId == release.releaseId
    && (v.path.CachePath? <==> v.chosen == CacheAnswer)
    && (v.attempts.None? ==> v.chosen == CacheAnswer)
    && (v.attempts.Some? ==> AttemptsFit(release, v.attempts.value) && Accepted(v.attempts.value) == ChosenLayers(v.chosen))
  }

  lemma ServedRecords(release: Release, request: Request, env: Env, r: Runtime, input: Payload)
    requires KeysActive(release, r.breakers) && PoolMatches(r.pool) && Sound(r.breakers)
    ensures var (p, q) := PrepareAndRun(release, env.contract, input, Deadline(release, request), env.world, r.breakers, r.pool);
            && KeysActive(release, q.breakers) && PoolMatches(p.pool)
            && Recorded(release, r.breakers, q.breakers, q.attempts)
            && (!q.end.Raised? ==> ServingFits(release, CascadeServing(release, env.world, input, q.end, q.attempts, q.calls, q.elapsed)))
  {
    ServedAttempts(release, env.contract, input, Deadline(release, request), env.world, r.breakers, r.pool);
  }

  /** A refused request or a cache hit touches no circuit and no worker. */
  lemma WithoutCascade(release: Release, request: Request, env: Env, r: Runtime)
    requires Attend(release, request, env, r.breakers, r.pool, r.cache).served.end.None?
    ensures var a := Attend(release, request, env, r.breakers, r.pool, r.cache);
            && a.breakers == r.breakers && a.pool == r.pool && a.served.attempts == []
            && (a.serving.Some? ==> ServingFits(release, a.serving.value))
  {
  }

  /** Any other request leaves what its preparation and cascade leave. */
  lemma WithCascade(release: Release, request: Request, env: Env, r: Runtime)
    requires Attend(release, request, env, r.breakers, r.pool, r.cache).served.end.Some?
    ensures env.contract.validateInput(request.input).Some?
    ensures var a := Attend(release, request, env, r.breakers, r.pool, r.cache);
            var input := env.contract.validateInput(request.input).value;
            var (p, q) := PrepareAndRun(release, env.contract, input, Deadline(release, request), env.world, r.breakers, r.pool);
            && a.breakers == q.breakers && a.pool == p.pool && a.served.attempts == q.attempts
            && (a.serving.Some? ==> !q.end.Raised? && a.serving.value == CascadeServing(release, env.world, input, q.end, q.attempts, q.calls, q.elapsed))
  {
  }

  /** What the attended request leaves behind, whichever way it ended. */
  lemma AttendRecords(release: Release, request: Request, env: Env, r: Runtime)
    requires KeysActive(release, r.breakers) && PoolMatches(r.pool) && Sound(r.breakers)
    ensures var a := Attend(release, request, env, r.breakers, r.pool, r.cache);
            && a.served.releaseId == release.releaseId
            && KeysActive(release, a.breakers) && PoolMatches(a.pool)
            && Recorded(release, r.breakers, a.breakers, a.served.attempts)
            && (a.serving.Some? ==> ServingFits(release, a.serving.value))
  {
    var a := Attend(release, request, env, r.breakers, r.pool, r.cache);
    if a.served.end.Some? {
      WithCascade(release, request, env, r);
      ServedRecords(release, request, env, r, env.contract.validateInput(request.input).value);
    } else {
      WithoutCascade(release, request, env, r);
      NothingRecorded(release, r.breakers);
    }
  }

  lemma AttendKeeps(release: Release, request: Request, env: Env, r: Runtime)
    requires CircuitsOk(r) && release.releaseId in r.registry.releases && r.registry.releases[release.releaseId] == release
    ensures var a := Attend(release, request, env, r.breakers, r.pool, r.cache);
            && a.served.releaseId == release.releaseId
            && CircuitsOk(r.(breakers := a.breakers, pool := a.pool))
            && Recorded(release, r.breakers, a.breakers, a.served.attempts)
            && (a.serving.Some? ==> ServingFits(release, a.serving.value))
  {
    var a := Attend(release, request, env, r.breakers, r.pool, r.cache);
    AttendRecords(release, request, env, r);
    forall k | k in a.breakers
      ensures k.releaseId in r.registry.releases && ActiveLayer(r.registry.releases[k.releaseId], k.layer)
    {
      if k.releaseId != release.releaseId {
        assert Lookup(r.breakers, k) == Lookup(a.breakers, k);
      }
    }
  }

  lemma ConcludeFits(release: Release, request: Request, env: Env, serving: Option<ServingResult>)
    requires request.targetName == release.targetName
    requires serving.Some? ==> ServingFits(release, serving.value)
    ensures forall t <- Conclude(release, request, env, serving).0 :: t.releaseId == release.releaseId && TraceFits(release, t)
  {
  }

  lemma RequestEventKeeps(h: History, request: Request, env: Env)
    requires RegistryOk(h.runtime.registry) && CircuitsOk(h.runtime) && TracesOk(h.runtime)
    ensures var n := Next(h, RequestEvent(request, env)).runtime;
            n.registry == h.runtime.registry && CircuitsOk(n) && TracesOk(n)
  {
    var s := h.runtime;
    var selected := Select(s.registry, request.targetName, env.bucket, env.disk);
    if selected.Some? {
      SelectedIsInScope(s.registry, request.targetName, env.bucket, env.disk);
      AttendKeeps(selected.value, request, env, s);
      var a := Attend(selected.value, request, env, s.breakers, s.pool, s.cache);
      ConcludeFits(selected.value, request, env, a.serving);
    }
  }

  // ---------------------------------------------------------------------------
  // Each circuit against its layer's history
  // ---------------------------------------------------------------------------

  /** Everything that happened at one layer of one release, over all the requests so far. */
  ghost function LayerHistory(log: seq<Served>, id: ReleaseId, layer: Layer): seq<CircuitBreaker.Event>
    decreases |log|
  {
    if log == [] then []
    else
      var last := log[|log| - 1];
      LayerHistory(log[..|log| - 1], id, layer) + (if last.releaseId == id then Events(last.attempts, layer) else [])
  }

  ghost predicate CircuitMatches(h: History, id: ReleaseId, layer: Layer)
    requires id in h.runtime.registry.releases
  {
    var release := h.runtime.registry.releases[id];
    var events := LayerHistory(h.log, id, layer);
    && Legal(None, events, Threshold(release), Cooldown(release))
    && Lookup(h.runtime.breakers, CircuitKey(id, layer)) == Replay(None, events, Threshold(release), Cooldown(release))
  }

  ghost predicate HistoryOk(h: History) {
    && (forall e <- h.log :: e.releaseId in h.runtime.registry.releases)
    && (forall id <- h.runtime.registry.releases, layer: Layer :: CircuitMatches(h, id, layer))
  }

  lemma {:induction false} NoHistoryBeforeRegistration(log: seq<Served>, id: ReleaseId, layer: Layer)
    requires forall e <- log :: e.releaseId != id
    ensures LayerHistory(log, id, layer) == []
    decreases |log|
  {
    if log != [] {
      NoHistoryBeforeRegistration(log[..|log| - 1], id, layer);
    }
  }

  lemma RegistryEventKeepsHistory(h: History, op: Op)
    requires RegistryOk(h.runtime.registry) && CircuitsOk(h.runtime) && HistoryOk(h)
    ensures HistoryOk(Next(h, RegistryEvent(op)))
  {
    var s := h.runtime.registry;
    var n := Next(h, RegistryEvent(op));
    StepExtends(s, op);
    forall id, layer: Layer | id in n.runtime.registry.releases
      ensures CircuitMatches(n, id, layer)
    {
      if id in s.releases {
        assert CircuitMatches(h, id, layer);
        assert SameButStatus(s.releases[id], n.runtime.registry.releases[id]);
      } else {
        NoHistoryBeforeRegistration(h.log, id, layer);
      }
    }
  }

  lemma RequestKeepsCircuit(h: History, n: History, e: Served, release: Release, id: ReleaseId, layer: Layer)
    requires id in h.runtime.registry.releases && CircuitMatches(h, id, layer)
    requires n.log == h.log + [e] && n.runtime.registry == h.runtime.registry && e.releaseId == release.releaseId
    requires id == release.releaseId ==> h.runtime.registry.releases[id] == release
    requires Recorded(release, h.runtime.breakers, n.runtime.breakers, e.attempts)
    ensures CircuitMatches(n, id, layer)
  {
    assert n.log[..|n.log| - 1] == h.log;
    if id == release.releaseId {
      var threshold, cooldown := Threshold(release), Cooldown(release);
      var events, more := LayerHistory(h.log, id, layer), Events(e.attempts, layer);
      assert LayerRecorded(release, h.runtime.breakers, n.runtime.breakers, e.attempts, layer);
      LegalConcat(None, events, more, threshold, cooldown);
      ReplayConcat(None, events, more, threshold, cooldown);
    } else {
      assert LayerHistory(n.log, id, layer) == LayerHistory(h.log, id, layer);
      assert Lookup(h.runtime.breakers, CircuitKey(id, layer)) == Lookup(n.runtime.breakers, CircuitKey(id, layer));
    }
  }

  lemma RequestEventKeepsHistory(h: History, request: Request, env: Env)
    requires RegistryOk(h.runtime.registry) && CircuitsOk(h.runtime) && HistoryOk(h)
    ensures HistoryOk(Next(h, RequestEvent(request, env)))
  {
    var s := h.runtime;
    var n := Next(h, RequestEvent(request, env));
    var selected := Select(s.registry, request.targetName, env.bucket, env.disk);
    if selected.Some? {
      SelectedIsInScope(s.registry, request.targetName, env.bucket, env.disk);
      AttendKeeps(selected.value, request, env, s);
      var a := Attend(selected.value, request, env, s.breakers, s.pool, s.cache);
      forall id, layer: Layer | id in s.registry.releases
        ensures CircuitMatches(n, id, layer)
      {
        assert CircuitMatches(h, id, layer);
        RequestKeepsCircuit(h, n, a.served, selected.value, id, layer);
      }
    }
  }

  // ---------------------------------------------------------------------------
  // The result cache against the cascades that filled it
  // ---------------------------------------------------------------------------

  /** The entry of a written key is the output of the ok cascade that wrote it. */
  ghost predicate Wrote(e: Served, key: CacheKey, output: Payload) {
    e.wrote && e.key == Some(key) && e.end.Some? && OkOutput(e.end.value) == Some(output)
  }

  /** The normalized form of a request's input, when the input is valid. */
  ghost function NormalizedInput(e: Served): Option<string> {
    var input := e.contract.validateInput(e.input);
    if input.Some? then Some(e.contract.normalize(input.value)) else None
  }

  ghost predicate WrittenBy(log: seq<Served>, key: CacheKey, output: Payload) {
    exists i | 0 <= i < |log| :: Wrote(log[i], key, output)
  }

  ghost predicate EntryOk(log: seq<Served>, j: nat)
    requires j < |log|
  {
    var e := log[j];
    // the key names the release, its contract, the reference version and the normalized input
    && (e.key.Some? ==>
          && NormalizedInput(e).Some?
          && e.key.value == CacheKey(e.contract.contractHash, e.releaseId, e.referenceVersion, NormalizedInput(e).value))
    && (e.wrote ==> e.key.Some? && e.cacheOn && e.end.Some? && OkOutput(e.end.value).Some?)
    // an ok cascade behind an active cache is the one that writes its key ...
    && (e.cacheOn && e.end.Some? && OkOutput(e.end.value).Some? ==> e.wrote)
    // ... and no earlier request wrote that key
    && (e.wrote ==> forall i | 0 <= i < j :: !(log[i].wrote && log[i].key == e.key))
    // a hit returns the revalidated output of the request that wrote the key
    && (e.hit.Some? ==> e.key.Some? && exists i, output | 0 <= i < j :: Wrote(log[i], e.key.value, output) && e.hit == e.contract.validateOutput(output))
  }

  ghost predicate CacheOk(h: History) {
    && (forall key <- h.runtime.cache :: WrittenBy(h.log, key, h.runtime.cache[key]))
    && (forall i | 0 <= i < |h.log| && h.log[i].wrote :: h.log[i].key.Some? && h.log[i].key.value in h.runtime.cache)
    && (forall j | 0 <= j < |h.log| :: EntryOk(h.log, j))
  }

  lemma OlderEntriesOk(log: seq<Served>, e: Served)
    requires forall j | 0 <= j < |log| :: EntryOk(log, j)
    ensures forall j | 0 <= j < |log| :: EntryOk(log + [e], j)
  {
    forall j | 0 <= j < |log| ensures EntryOk(log + [e], j) {
      assert EntryOk(log, j);
      assert (log + [e])[j] == log[j];
      if log[j].hit.Some? {
        var i, output :| 0 <= i < j && Wrote(log[i], log[j].key.value, output) && log[j].hit == log[j].contract.validateOutput(output);
        assert (log + [e])[i] == log[i];
      }
    }
  }

  /** What one request says of its own key and write. */
  ghost predicate EntryShape(e: Served, cache: map<CacheKey, Payload>, after: map<CacheKey, Payload>) {
    && (e.key.Some? ==>
          && NormalizedInput(e).Some?
          && e.key.value == CacheKey(e.contract.contractHash, e.releaseId, e.referenceVersion, NormalizedInput(e).value))
    && (e.wrote ==> e.key.Some? && e.cacheOn && e.end.Some? && OkOutput(e.end.value).Some? && e.key.value !in cache)
    && (e.cacheOn && e.end.Some? && OkOutput(e.end.value).Some? ==> e.wrote)
    && (e.hit.Some? ==> e.key.Some? && e.key.value in cache && e.hit == e.contract.validateOutput(cache[e.key.value]))
    && after == (if e.wrote then cache[e.key.value := OkOutput(e.end.value).value] else cache)
  }

  lemma AttendShapesEntry(release: Release, request: Request, env: Env, r: Runtime)
    ensures var a := Attend(release, request, env, r.breakers, r.pool, r.cache);
            EntryShape(a.served, r.cache, a.cache)
  {
    var a := Attend(release, request, env, r.breakers, r.pool, r.cache);
    var input := env.contract.validateInput(request.input);
    if env.contract.contractHash != release.contractHash || input.None? {
      assert a.served.key.None? && !a.served.wrote && a.served.hit.None? && !a.served.cacheOn;
    } else {
      assert a.served.key == Some(KeyFor(release, env.contract, input.value, env.referenceVersion));
      assert NormalizedInput(a.served) == Some(env.contract.normalize(input.value));
    }
  }

  lemma NewEntryOk(h: History, e: Served, after: map<CacheKey, Payload>)
    requires CacheOk(h) && EntryShape(e, h.runtime.cache, after)
    ensures EntryOk(h.log + [e], |h.log|)
  {
    var log := h.log + [e];
    assert log[|h.log|] == e;
    if e.wrote {
      forall i | 0 <= i < |h.log| ensures !(log[i].wrote && log[i].key == e.key) {
        assert log[i] == h.log[i];
      }
    }
    if e.hit.Some? {
      var key := e.key.value;
      assert WrittenBy(h.log, key, h.runtime.cache[key]);
      var i :| 0 <= i < |h.log| && Wrote(h.log[i], key, h.runtime.cache[key]);
      assert log[i] == h.log[i];
      assert Wrote(log[i], key, h.runtime.cache[key]) && e.hit == e.contract.validateOutput(h.runtime.cache[key]);
    }
  }

  lemma StillWritten(log: seq<Served>, e: Served, key: CacheKey, output: Payload)
    requires WrittenBy(log, key, output) || Wrote(e, key, output)
    ensures WrittenBy(log + [e], key, output)
  {
    if WrittenBy(log, key, output) {
      var i :| 0 <= i < |log| && Wrote(log[i], key, output);
      assert Wrote((log + [e])[i], key, output);
    } else {
      assert Wrote((log + [e])[|log|], key, output);
    }
  }

  lemma EntryKeepsCache(h: History, n: History, e: Served)
    requires CacheOk(h) && EntryShape(e, h.runtime.cache, n.runtime.cache) && n.log == h.log + [e]
    ensures CacheOk(n)
  {
    OlderEntriesOk(h.log, e);
    NewEntryOk(h, e, n.runtime.cache);
    forall key | key in n.runtime.cache ensures WrittenBy(n.log, key, n.runtime.cache[key]) {
      StillWritten(h.log, e, key, n.runtime.cache[key]);
    }
  }

  lemma RequestEventKeepsCache(h: History, request: Request, env: Env)
    requires CacheOk(h)
    ensures CacheOk(Next(h, RequestEvent(request, env)))
  {
    var s := h.runtime;
    var selected := Select(s.registry, request.targetName, env.bucket, env.disk);
    if selected.Some? {
      AttendShapesEntry(selected.value, request, env, s);
      EntryKeepsCache(h, Next(h, RequestEvent(request, env)), Attend(selected.value, request, env, s.breakers, s.pool, s.cache).served);
    }
  }

  // ---------------------------------------------------------------------------
  // All runs
  // ---------------------------------------------------------------------------

  ghost predicate Reachable(h: History) {
    RegistryOk(h.runtime.registry) && CircuitsOk(h.runtime) && TracesOk(h.runtime) && HistoryOk(h) && CacheOk(h)
  }

  lemma {:induction false} EveryRunKeepsTheInvariants(events: seq<Event>)
    ensures Reachable(RunAll(events))
    decreases |events|
  {
    if events != [] {
      var h := RunAll(events[..|events| - 1]);
      EveryRunKeepsTheInvariants(events[..|events| - 1]);
      match events[|events| - 1]
      case RegistryEvent(op) =>
        RegistryEventKeeps(h, op);
        RegistryEventKeepsHistory(h, op);
      case RequestEvent(request, env) =>
        RequestEventKeeps(h, request, env);
        RequestEventKeepsHistory(h, request, env);
        RequestEventKeepsCache(h, request, env);
    }
  }

  function TracesOf(traces: seq<Trace>, id: ReleaseId): seq<Trace> {
    Selected(traces, (t: Trace) => t.releaseId == id)
  }

  /** After any run, a release's metric window over the traces written for it is computed exactly when none in it
      holds a confidence beyond range; it then takes every one of them, and its counts add up. */
  lemma MetricsAcceptEveryServedTrace(events: seq<Event>, id: ReleaseId, audits: seq<W.AuditRecord>, start: int, end: int)
    requires id in RunAll(events).runtime.registry.releases
    requires forall a <- audits :: W.AuditInScope(RunAll(events).runtime.registry.releases[id], a)
    ensures var r := RunAll(events).runtime;
            var traces := TracesOf(r.traces, id);
            var window := Aggregate(traces, audits, start, end, r.registry.releases[id]);
            && (window.Some? <==> forall t <- traces :: start <= t.timestamp <= end ==> W.AllCountable(t))
            && (window.Some? ==> AddsUp(window.value, Windowed(traces, start, end)))
  {
    EveryRunKeepsTheInvariants(events);
    var r := RunAll(events).runtime;
    SelectedSatisfy(r.traces, (t: Trace) => t.releaseId == id);
    assert forall t <- TracesOf(r.traces, id) :: TraceFits(r.registry.releases[id], t);
    WindowAcceptsServedTraces(r.registry.releases[id], TracesOf(r.traces, id), audits, start, end);
  }

  /** After any run, each circuit is the one its layer's history alone determines. */
  lemma CircuitIsFunctionOfHistory(events: seq<Event>, id: ReleaseId, layer: Layer)
    requires id in RunAll(events).runtime.registry.releases
    ensures var h := RunAll(events);
            var release := h.runtime.registry.releases[id];
            var history := LayerHistory(h.log, id, layer);
            var threshold, cooldown := Threshold(release), Cooldown(release);
            && Legal(None, history, threshold, cooldown)
            && Lookup(h.runtime.breakers, CircuitKey(id, layer)) == Expected(history, threshold, cooldown)
            && Trailing(history, Failed) <= threshold && Trailing(history, Skipped) <= cooldown
  {
    EveryRunKeepsTheInvariants(events);
    var h := RunAll(events);
    var release := h.runtime.registry.releases[id];
    assert CircuitMatches(h, id, layer);
    RecordIsFunctionOfHistory(LayerHistory(h.log, id, layer), Threshold(release), Cooldown(release));
  }

  /** The layer's history under the settings of its release, after a run. */
  ghost predicate HistoryOf(events: seq<Event>, id: ReleaseId, layer: Layer, threshold: int, cooldown: int, history: seq<CircuitBreaker.Event>) {
    var h := RunAll(events);
    && id in h.runtime.registry.releases && history == LayerHistory(h.log, id, layer)
    && threshold == Threshold(h.runtime.registry.releases[id]) && cooldown == Cooldown(h.runtime.registry.releases[id])
  }

  lemma HistoryIsLegal(events: seq<Event>, id: ReleaseId, layer: Layer, threshold: int, cooldown: int, history: seq<CircuitBreaker.Event>)
    requires HistoryOf(events, id, layer, threshold, cooldown, history)
    ensures Legal(None, history, threshold, cooldown) && threshold >= 1 && cooldown >= 1
  {
    CircuitIsFunctionOfHistory(events, id, layer);
  }

  /** After any run: once the failures at a layer reach the threshold, exactly its next `cooldown` arrivals
      are skipped. */
  lemma EveryOpeningSkipsExactlyCooldown(events: seq<Event>, id: ReleaseId, layer: Layer, threshold: int, cooldown: int,
                                         history: seq<CircuitBreaker.Event>, openedAt: nat)
    requires HistoryOf(events, id, layer, threshold, cooldown, history)
    requires openedAt <= |history| && Trailing(history[..openedAt], Failed) == threshold
    ensures forall j | openedAt <= j < |history| && j < openedAt + cooldown :: history[j] == Skipped
    ensures openedAt + cooldown < |history| ==> history[openedAt + cooldown] != Skipped
  {
    HistoryIsLegal(events, id, layer, threshold, cooldown, history);
    ExactlyCooldownSkips(history, openedAt, threshold, cooldown);
  }

  /** Request `i` ran an ok cascade behind an active cache, for the key that request `j` looked up. */
  ghost predicate OkMissOf(log: seq<Served>, i: nat, j: nat)
    requires i < |log| && j < |log|
  {
    log[i].cacheOn && log[i].key.Some? && log[i].key == log[j].key && log[i].end.Some? && OkOutput(log[i].end.value).Some?
  }

  /** The two requests went to one release and contract, with one reference version and one normalized input. */
  ghost predicate SameQuestion(a: Served, b: Served) {
    && a.releaseId == b.releaseId && a.contract.contractHash == b.contract.contractHash && a.referenceVersion == b.referenceVersion
    && NormalizedInput(a) == NormalizedInput(b)
  }

  lemma EntriesAreOk(events: seq<Event>, j: nat)
    requires j < |RunAll(events).log|
    ensures EntryOk(RunAll(events).log, j)
  {
    EveryRunKeepsTheInvariants(events);
  }

  /** After any run: a key is written at most once. Two ok cascades behind an active cache for one key are the same,
      and whoever looked it up asked the same question. */
  lemma KeysAreWrittenOnce(events: seq<Event>, i: nat, j: nat, k: nat)
    requires i < |RunAll(events).log| && j < |RunAll(events).log| && k < |RunAll(events).log|
    ensures var log := RunAll(events).log;
            OkMissOf(log, i, j) && OkMissOf(log, k, j) ==> i == k && SameQuestion(log[i], log[j])
  {
    EntriesAreOk(events, i);
    EntriesAreOk(events, j);
    EntriesAreOk(events, k);
  }

  /** After any run: every hit has exactly one earlier ok miss of its key, which asked the same question of the same
      release, and it returns that miss's output, revalidated. */
  lemma HitsReturnTheFirstOkMiss(events: seq<Event>, j: nat) returns (i: nat)
    requires j < |RunAll(events).log| && RunAll(events).log[j].hit.Some?
    ensures var log := RunAll(events).log;
            && i < j && OkMissOf(log, i, j) && SameQuestion(log[i], log[j])
            && log[j].hit == log[j].contract.validateOutput(OkOutput(log[i].end.value).value)
            && forall k | 0 <= k < |log| && OkMissOf(log, k, j) :: k == i
  {
    var log := RunAll(events).log;
    EntriesAreOk(events, j);
    var n, output :| 0 <= n < j && Wrote(log[n], log[j].key.value, output) && log[j].hit == log[j].contract.validateOutput(output);
    i := n;
    EntriesAreOk(events, i);
    KeysAreWrittenOnce(events, i, j, i);
    forall k | 0 <= k < |log| && OkMissOf(log, k, j) ensures k == i {
      KeysAreWrittenOnce(events, i, j, k);
    }
  }
}
