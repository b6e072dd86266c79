/** Serving requests: release selection, result cache, cascade, traces. */
module Serving {
  import opened Wrappers
  import opened Domain
  import opened Registry
  import opened CircuitBreaker
  import opened Cascade
  import opened CascadeProperties
  import opened Traces
  import opened Costs

  /** A cache key is the hash of these four values; the hash is taken to be injective. */
  datatype CacheKey = CacheKey(contractHash: string, releaseId: ReleaseId, referenceVersion: Option<string>, normalizedInput: string)

  datatype Request = Request(requestId: string, targetName: string, input: Payload, deadlineMs: Option<int>)

  /** What a request meets from outside: the routing bucket its hash falls in, the artifact files, the loaded
      contract and the buckets it puts the request's metadata in, whether a result cache is passed in, which of the
      callbacks raise, and how long a request that ends in an exception took. */
  datatype Env = Env(
    bucket: real,
    disk: Disk,
    contract: Contract,
    referenceVersion: Option<string>,
    withCache: bool,
    world: World,
    auditRaises: bool,
    traceLeaks: bool,
    evidenceRaises: bool,
    errorTraceLeaks: bool,
    errorLatency: real,
    buckets: map<string, string>,
    timestamp: int)

  datatype Response = NoResponse | Answer(output: Payload, chosen: Chosen) | Failure(error: ErrorType, failedLayer: Chosen)

  class ResultCache {
    var entries: map<CacheKey, Payload>

    constructor ()
      ensures entries == map[]
    {
      entries := map[];
    }
  }

  class TraceLog {
    var traces: seq<Trace>

    constructor ()
      ensures traces == []
    {
      traces := [];
    }
  }

  function KeyFor(release: Release, contract: Contract, input: Payload, referenceVersion: Option<string>): CacheKey {
    CacheKey(release.contractHash, release.releaseId, referenceVersion, contract.normalize(input))
  }

  function Deadline(release: Release, request: Request): int {
    if request.deadlineMs.Some? then Min(request.deadlineMs.value, release.routing.totalDeadlineMs)
    else release.routing.totalDeadlineMs
  }

  /** The output of a cascade that ended well. */
  function OkOutput(end: End): Option<Payload> {
    match end
    case LocalAnswer(_, answer) => Some(answer)
    case L4Answer(answer) => Some(answer)
    case _ => None
  }

  function ChosenBy(end: End): Chosen {
    match end
    case LocalAnswer(layer, _) => Local(layer)
    case L4Answer(_) => Reference
    case L4Failed => Reference
    case L4TimedOut => Reference
    case _ => Nobody
  }

  function ErrorOf(end: End): ErrorType {
    match end
    case DeadlineHit => DeadlineExceeded
    case L4TimedOut => DeadlineExceeded
    case L4Failed => L4FallbackFailure
    case _ => NoError
  }

  /** Only L4's answers and failures cost anything; its one call is the last. */
  function ServingCost(world: World, input: Payload, end: End, calls: seq<Call>): Cost {
    if (end.L4Answer? || end.L4Failed?) && calls != [] then world.l4Cost(input, calls[|calls| - 1].timeout) else NOTHING
  }

  function CascadeServing(release: Release, world: World, input: Payload, end: End, attempts: seq<Attempt>, calls: seq<Call>, elapsed: real): ServingResult {
    ServingResult(release.releaseId, CascadePath, OkOutput(end).Some?, Some(attempts), OkOutput(end), ChosenBy(end), ErrorOf(end),
                  ServingCost(world, input, end, calls), elapsed)
  }

  function CacheServing(release: Release, output: Payload): ServingResult {
    ServingResult(release.releaseId, CachePath, true, None, Some(output), CacheAnswer, NoError, NOTHING, 0.0)
  }

  function ErrorServing(release: Release, env: Env): ServingResult {
    ServingResult(release.releaseId, CascadePath, false, None, None, Nobody, RuntimeError, NOTHING, env.errorLatency)
  }

  // ---------------------------------------------------------------------------
  // The value of the runtime, and one request's effect on it
  // ---------------------------------------------------------------------------

  /** What one request did between selecting its release and answering. */
  datatype Served = Served(
    releaseId: ReleaseId,
    input: Payload,
    contract: Contract,
    referenceVersion: Option<string>,
    key: Option<CacheKey>,
    cacheOn: bool,
    hit: Option<Payload>,
    attempts: seq<Attempt>,
    end: Option<End>,
    wrote: bool)

  datatype Attended = Attended(
    breakers: map<CircuitKey, Breaker>,
    pool: map<string, Package>,
    cache: map<CacheKey, Payload>,
    served: Served,
    serving: Option<ServingResult>)

  /** The body of `serve_request` up to a serving result; no result stands for an exception. */
  function Attend(release: Release, request: Request, env: Env, breakers: map<CircuitKey, Breaker>,
                  pool: map<string, Package>, cache: map<CacheKey, Payload>): Attended
  {
    var served := Served(release.releaseId, request.input, env.contract, env.referenceVersion, None, false, None, [], None, false);
    var input := env.contract.validateInput(request.input);
    if env.contract.contractHash != release.contractHash || input.None? then
      Attended(breakers, pool, cache, served, None)
    else
      var key := KeyFor(release, env.contract, input.value, env.referenceVersion);
      var cacheOn := env.withCache && release.routing.cacheEnabled;
      var looked := served.(key := Some(key), cacheOn := cacheOn);
      if cacheOn && key in cache then
        var output := env.contract.validateOutput(cache[key]);
        Attended(breakers, pool, cache, looked.(hit := output),
                 if output.Some? then Some(CacheServing(release, output.value)) else None)
      else
        var (p, q) := PrepareAndRun(release, env.contract, input.value, Deadline(release, request), env.world, breakers, pool);
        var write := cacheOn && OkOutput(q.end).Some?;
        Attended(
          q.breakers, p.pool,
          if write then cache[key := OkOutput(q.end).value] else cache,
          looked.(attempts := q.attempts, end := Some(q.end), wrote := write),
          if q.end.Raised? then None else Some(CascadeServing(release, env.world, input.value, q.end, q.attempts, q.calls, q.elapsed)))
  }

  datatype Runtime = Runtime(
    registry: RegistryState,
    breakers: map<CircuitKey, Breaker>,
    pool: map<string, Package>,
    cache: map<CacheKey, Payload>,
    traces: seq<Trace>)

  const IDLE: Runtime := Runtime(EMPTY, map[], map[], map[], [])

  function Respond(serving: ServingResult): Response {
    if serving.ok && serving.output.Some? then Answer(serving.output.value, serving.chosen)
    else Failure(if serving.errorType == NoError then RuntimeError else serving.errorType, serving.chosen)
  }

  function ContextOf(release: Release, request: Request, env: Env): TraceContext {
    TraceContext(request.targetName, release.contractHash, env.buckets, env.timestamp)
  }

  /** The traces written for a request and its response; an exception after the first trace adds a second. */
  function Conclude(release: Release, request: Request, env: Env, serving: Option<ServingResult>): (seq<Trace>, Response) {
    var first :=
      if serving.None? || env.auditRaises then None
      else WriteTrace(ContextOf(release, request, env), serving.value, env.traceLeaks);
    var written := if first.Some? then [first.value] else [];
    var evidenceFails := env.evidenceRaises && serving.Some? && serving.value.ok && serving.value.chosen == Reference;
    if first.Some? && !evidenceFails then (written, Respond(serving.value))
    else
      var second := WriteTrace(ContextOf(release, request, env), ErrorServing(release, env), env.errorTraceLeaks);
      if second.None? then (written, NoResponse) else (written + [second.value], Respond(ErrorServing(release, env)))
  }

  function Serve(s: Runtime, request: Request, env: Env): (Runtime, Option<Served>, Response) {
    var release := Select(s.registry, request.targetName, env.bucket, env.disk);
    if release.None? then (s, None, NoResponse)
    else
      var a := Attend(release.value, request, env, s.breakers, s.pool, s.cache);
      var (written, response) := Conclude(release.value, request, env, a.serving);
      (Runtime(s.registry, a.breakers, a.pool, a.cache, s.traces + written), Some(a.served), response)
  }

  // ---------------------------------------------------------------------------
  // The serving loop's objects
  // ---------------------------------------------------------------------------

  method AttendRequest(release: Release, request: Request, env: Env, breakers: CircuitBreakers, pool: WorkerPool, cache: ResultCache)
    returns (serving: Option<ServingResult>, ghost served: Served)
    modifies breakers, pool, cache
    ensures Attended(breakers.records, pool.workers, cache.entries, served, serving)
         == Attend(release, request, env, old(breakers.records), old(pool.workers), old(cache.entries))
  {
    served := Attend(release, request, env, breakers.records, pool.workers, cache.entries).served;
    var input := env.contract.validateInput(request.input);
    if env.contract.contractHash != release.contractHash || input.None? {
      return None, served;
    }
    var key := KeyFor(release, env.contract, input.value, env.referenceVersion);
    var cacheOn := env.withCache && release.routing.cacheEnabled;
    if cacheOn && key in cache.entries {
      var output := env.contract.validateOutput(cache.entries[key]);
      serving := if output.Some? then Some(CacheServing(release, output.value)) else None;
      return;
    }
    var workers, prepared := PrepareWorkersForServing(release, env.world, pool, breakers);
    var job := Job(release, workers, env.contract, input.value, Deadline(release, request));
    var attempts, calls, elapsed, end := RunCascade(job, env.world, breakers, prepared);
    if cacheOn && OkOutput(end).Some? {
      cache.entries := cache.entries[key := OkOutput(end).value];
    }
    serving := if end.Raised? then None else Some(CascadeServing(release, env.world, input.value, end, attempts, calls, elapsed));
  }

  method ConcludeRequest(release: Release, request: Request, env: Env, serving: Option<ServingResult>, log: TraceLog) returns (response: Response)
    modifies log
    ensures var (written, answer) := Conclude(release, request, env, serving);
            log.traces == old(log.traces) + written && response == answer
  {
    if serving.Some? && !env.auditRaises {
      var trace := WriteTrace(ContextOf(release, request, env), serving.value, env.traceLeaks);
      if trace.Some? {
        log.traces := log.traces + [trace.value];
        if !(env.evidenceRaises && serving.value.ok && serving.value.chosen == Reference) {
          return Respond(serving.value);
        }
      }
    }
    var trace := WriteTrace(ContextOf(release, request, env), ErrorServing(release, env), env.errorTraceLeaks);
    if trace.None? {
      return NoResponse;
    }
    log.traces := log.traces + [trace.value];
    response := Respond(ErrorServing(release, env));
  }

  method ServeRequest(request: Request, env: Env, registry: ReleaseRegistry, breakers: CircuitBreakers, pool: WorkerPool,
                      cache: ResultCache, log: TraceLog)
    returns (response: Response, ghost served: Option<Served>)
    modifies breakers, pool, cache, log
    ensures (Runtime(registry.State(), breakers.records, pool.workers, cache.entries, log.traces), served, response)
         == Serve(Runtime(registry.State(), old(breakers.records), old(pool.workers), old(cache.entries), old(log.traces)), request, env)
  {
    var selected := Select(RegistryState(registry.releases, registry.channels, registry.previousChannels, registry.channelOptions),
                           request.targetName, env.bucket, env.disk);
    if selected.None? {
      return NoResponse, None;
    }
    var release := selected.value;
    var serving, s := AttendRequest(release, request, env, breakers, pool, cache);
    served := Some(s);
    response := ConcludeRequest(release, request, env, serving, log);
  }
}
