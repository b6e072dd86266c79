/** Traces written by serving. */
module Traces {
  import opened Wrappers
  import opened Domain
  import opened Cascade
  import opened Costs

  datatype Chosen = Nobody | CacheAnswer | Local(layer: Layer) | Reference

  /** Serving itself never reports `NoValidOutput`; traces may. */
  datatype ErrorType = NoError | DeadlineExceeded | L4FallbackFailure | NoValidOutput | RuntimeError

  datatype Path = CachePath | CascadePath

  /** What serving produced; `attempts` is absent when no cascade result exists. */
  datatype ServingResult = ServingResult(
    releaseId: ReleaseId,
    path: Path,
    ok: bool,
    attempts: Option<seq<Attempt>>,
    output: Option<Payload>,
    chosen: Chosen,
    errorType: ErrorType,
    cost: Cost,
    latency: real)

  datatype Trace = Trace(
    targetName: string,
    contractHash: string,
    releaseId: ReleaseId,
    attempts: seq<Attempt>,
    cacheHit: bool,
    ok: bool,
    chosen: Chosen,
    errorType: ErrorType,
    cost: Cost,
    latency: real,
    buckets: map<string, string>,
    timestamp: int)

  /** What a trace takes from its request: where it was sent, and its metadata in the contract's buckets. */
  datatype TraceContext = TraceContext(targetName: string, contractHash: string, buckets: map<string, string>, timestamp: int)

  /** Writing a trace fails on an inconsistent result, or when provider text would leak into it. */
  function WriteTrace(c: TraceContext, serving: ServingResult, leaks: bool): Option<Trace> {
    if serving.path.CachePath? && (serving.attempts.Some? || serving.chosen != CacheAnswer) then None
    else if !serving.path.CachePath? && serving.chosen == CacheAnswer then None
    else if serving.errorType == L4FallbackFailure && serving.output.Some? then None
    else if leaks then None
    else Some(Trace(
                c.targetName, c.contractHash, serving.releaseId,
                if serving.path.CachePath? || serving.attempts.None? then [] else serving.attempts.value,
                serving.path.CachePath?, serving.ok, serving.chosen, serving.errorType, serving.cost, serving.latency, c.buckets, c.timestamp))
  }

  predicate InScope(release: Release, t: Trace) {
    t.targetName == release.targetName && t.releaseId == release.releaseId && t.contractHash == release.contractHash
  }
}
