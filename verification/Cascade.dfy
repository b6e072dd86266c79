/** Worker preparation and the L1, L2, L3, L4 cascade of one request. */
module Cascade {
  import opened Wrappers
  import opened Domain
  import opened CircuitBreaker
  import opened Costs

  // ---------------------------------------------------------------------------
  // The surroundings of one request
  // ---------------------------------------------------------------------------

  type Time = t: real | 0.0 <= t witness 0.0

  /** The target's own callables, which are deterministic. */
  datatype Contract = Contract(
    contractHash: string,
    validateInput: Payload -> Option<Payload>,
    validateOutput: Payload -> Option<Payload>,
    normalize: Payload -> string)

  /** A confidence is whatever number the worker sends. Beyond range are those that are no finite number once they
      are multiplied by ten: NaN, the infinities and the greatest of the finite ones. */
  datatype Confidence = Within(value: real) | BeyondRange

  /** A worker's reply once its line has been parsed; a code may not be one the artifact is allowed, and parsing
      raises on some replies, such as an integer confidence that no float can hold. */
  datatype WorkerReply =
    | NoReply
    | Crashed
    | Malformed
    | Raises
    | BadCode(badConfidence: Option<Confidence>)
    | Abstains(code: Option<string>, confidence: Option<Confidence>)
    | Accepts(output: Payload, acceptCode: Option<string>, acceptConfidence: Option<Confidence>)

  datatype L4Reply = L4Output(output: Payload) | L4Error | L4NoReply | L4BudgetExhausted

  /** Everything a request meets that the runtime does not decide: whether each layer's digest, start and
      health check pass, what the workers and L4 answer, how long they take and what L4 costs, and how much time
      the runtime itself loses before each of its deadline checks. */
  datatype World = World(
    healthy: Layer -> bool,
    worker: (Package, Payload, int) -> WorkerReply,
    workerTime: (Package, Payload, int) -> Time,
    l4: (Payload, int) -> L4Reply,
    l4Time: (Payload, int) -> Time,
    l4Cost: (Payload, int) -> Cost,
    pause: (Option<Layer>, bool) -> Time)

  // ---------------------------------------------------------------------------
  // Attempts
  // ---------------------------------------------------------------------------

  datatype Decision = Accept | Abstain | Timeout | Error | ProtocolError | InvalidOutput

  datatype Reason = NoReason | HealthFailure | CircuitOpen | Code(code: string)

  datatype Attempt = Attempt(layer: Layer, artifactId: string, decision: Decision, output: Option<Payload>, reason: Reason, confidence: Option<Confidence>)

  function ReasonCode(code: Option<string>): Reason {
    if code.Some? then Code(code.value) else NoReason
  }

  function SkipLayerAttempt(layer: Layer, artifactId: string, reason: Reason): Attempt {
    Attempt(layer, artifactId, Error, None, reason, None)
  }

  /** No attempt stands for an exception. */
  function RunLayerAttempt(worker: Package, contract: Contract, reply: WorkerReply, layer: Layer): Option<Attempt> {
    match reply
    case NoReply => Some(Attempt(layer, worker.artifactId, Timeout, None, NoReason, None))
    case Crashed => Some(Attempt(layer, worker.artifactId, Error, None, NoReason, None))
    case Malformed => Some(Attempt(layer, worker.artifactId, ProtocolError, None, NoReason, None))
    case Raises => None
    case BadCode(confidence) => Some(Attempt(layer, worker.artifactId, ProtocolError, None, NoReason, confidence))
    case Abstains(code, confidence) => Some(Attempt(layer, worker.artifactId, Abstain, None, ReasonCode(code), confidence))
    case Accepts(output, code, confidence) =>
      var valid := contract.validateOutput(output);
      Some(Attempt(layer, worker.artifactId, if valid.None? then InvalidOutput else Accept, valid, ReasonCode(code), confidence))
  }

  predicate IsFailure(decision: Decision) {
    decision in {Timeout, Error, ProtocolError, InvalidOutput}
  }

  // ---------------------------------------------------------------------------
  // Preparation
  // ---------------------------------------------------------------------------

  /** A running worker is known by the package it was started from. */
  datatype Prepared = Prepared(
    breakers: map<CircuitKey, Breaker>,
    pool: map<string, Package>,
    workers: map<Layer, Package>,
    attempts: seq<Attempt>)

  function PrepareLayer(release: Release, world: World, p: Prepared, layer: Layer): Prepared {
    if !ActiveLayer(release, layer) then p
    else
      var package := release.artifacts[layer];
      var key := CircuitKey(release.releaseId, layer);
      var (open, record) := Check(Lookup(p.breakers, key), false);
      var breakers := Store(p.breakers, key, record);
      if open then p.(breakers := breakers)
      else if !world.healthy(layer) then
        p.(breakers := breakers[key := Update(Lookup(breakers, key), true, Threshold(release), Cooldown(release))],
           attempts := p.attempts + [SkipLayerAttempt(layer, package.artifactId, HealthFailure)])
      else
        var worker := if package.artifactId in p.pool then p.pool[package.artifactId] else package;
        p.(breakers := breakers,
           pool := p.pool[package.artifactId := worker],
           workers := p.workers[layer := worker])
  }

  function Prepare(release: Release, world: World, p: Prepared, n: nat): Prepared
    requires n <= |LAYERS|
  {
    if n == 0 then p else PrepareLayer(release, world, Prepare(release, world, p, n - 1), LAYERS[n - 1])
  }

  class WorkerPool {
    var workers: map<string, Package>

    constructor ()
      ensures workers == map[]
    {
      workers := map[];
    }
  }

  method PrepareWorkersForServing(release: Release, world: World, pool: WorkerPool, breakers: CircuitBreakers)
    returns (workers: map<Layer, Package>, attempts: seq<Attempt>)
    modifies pool, breakers
    ensures Prepared(breakers.records, pool.workers, workers, attempts)
         == Prepare(release, world, Prepared(old(breakers.records), old(pool.workers), map[], []), |LAYERS|)
  {
    workers, attempts := map[], [];
    ghost var start := Prepared(breakers.records, pool.workers, map[], []);
    for i := 0 to |LAYERS|
      invariant Prepared(breakers.records, pool.workers, workers, attempts) == Prepare(release, world, start, i)
    {
      var layer := LAYERS[i];
      if ActiveLayer(release, layer) {
        var package := release.artifacts[layer];
        var open := breakers.IsLayerCircuitOpen(release, layer, false);
        if !open {
          if world.healthy(layer) {
            var worker := package;
            if package.artifactId in pool.workers {
              worker := pool.workers[package.artifactId];
            }
            pool.workers := pool.workers[package.artifactId := worker];
            workers := workers[layer := worker];
          } else {
            breakers.UpdateCircuitBreaker(release, layer, true);
            attempts := attempts + [SkipLayerAttempt(layer, package.artifactId, HealthFailure)];
          }
        }
      }
    }
  }

  // ---------------------------------------------------------------------------
  // The cascade
  // ---------------------------------------------------------------------------

  /** A call to a worker, or to L4: when it started, the timeout it was given, how long it took. */
  datatype Call = Call(layer: Option<Layer>, start: Time, timeout: int, duration: Time)

  datatype End =
    | Undecided
    | LocalAnswer(layer: Layer, answer: Payload)
    | L4Answer(answer: Payload)
    | L4Failed
    | L4TimedOut
    | DeadlineHit
    | Raised

  datatype Progress = Progress(
    breakers: map<CircuitKey, Breaker>,
    attempts: seq<Attempt>,
    calls: seq<Call>,
    elapsed: Time,
    end: End)

  /** The request a cascade serves: the release, its workers, the input and the deadline. */
  datatype Job = Job(
    release: Release,
    workers: map<Layer, Package>,
    contract: Contract,
    input: Payload,
    deadlineMs: int)

  function RemainingMs(elapsed: Time, deadlineMs: int): int {
    deadlineMs - elapsed.Floor
  }

  function CallTimeout(job: Job, layer: Layer, worker: Package, remaining: int): int {
    Min(Min(remaining, LayerTimeout(job.release.routing, layer, worker)), worker.timeoutMs)
  }

  /** A call to the layer's worker, with time remaining, and what its reply does to the circuit; a reply that raises
      ends the cascade and leaves the circuit alone. */
  function WorkerTurn(job: Job, world: World, p: Progress, layer: Layer): Progress
    requires layer in job.workers
  {
    var key := CircuitKey(job.release.releaseId, layer);
    var worker := job.workers[layer];
    var timeout := CallTimeout(job, layer, worker, RemainingMs(p.elapsed, job.deadlineMs));
    var duration := world.workerTime(worker, job.input, timeout);
    var attempt := RunLayerAttempt(worker, job.contract, world.worker(worker, job.input, timeout), layer);
    var called := p.(calls := p.calls + [Call(Some(layer), p.elapsed, timeout, duration)], elapsed := p.elapsed + duration);
    if attempt.None? then called.(end := Raised)
    else called.(
           breakers := p.breakers[key := Update(Lookup(p.breakers, key), IsFailure(attempt.value.decision), Threshold(job.release), Cooldown(job.release))],
           attempts := p.attempts + [attempt.value],
           end := if attempt.value.decision == Accept && attempt.value.output.Some? then LocalAnswer(layer, attempt.value.output.value) else Undecided)
  }

  /** A layer whose circuit is closed: its worker is called, when there is one and time remains. */
  function ClosedLayer(job: Job, world: World, p: Progress, layer: Layer): Progress {
    if layer !in job.workers then p
    else
      var t: Time := p.elapsed + world.pause(Some(layer), true);
      if RemainingMs(t, job.deadlineMs) <= 0 then p.(elapsed := t, end := DeadlineHit)
      else WorkerTurn(job, world, p.(elapsed := t), layer)
  }

  /** A layer met in time is skipped while its circuit is open. */
  function MetLayer(job: Job, world: World, p: Progress, layer: Layer): Progress {
    var key := CircuitKey(job.release.releaseId, layer);
    var (open, record) := Check(Lookup(p.breakers, key), true);
    var q := p.(breakers := Store(p.breakers, key, record));
    if open then q.(attempts := p.attempts + [SkipLayerAttempt(layer, ArtifactIdAt(job.release, layer), CircuitOpen)])
    else ClosedLayer(job, world, q, layer)
  }

  function ArtifactIdAt(release: Release, layer: Layer): string {
    if layer in release.artifacts then release.artifacts[layer].artifactId else "missing"
  }

  function CascadeLayer(job: Job, world: World, p: Progress, layer: Layer): Progress {
    var t: Time := p.elapsed + world.pause(Some(layer), false);
    if layer !in job.release.routing.enabledLayers then p
    else if RemainingMs(t, job.deadlineMs) <= 0 then p.(elapsed := t, end := DeadlineHit)
    else MetLayer(job, world, p.(elapsed := t), layer)
  }

  function CascadeLayers(job: Job, world: World, p: Progress, n: nat): Progress
    requires n <= |LAYERS|
  {
    if n == 0 then p
    else
      var q := CascadeLayers(job, world, p, n - 1);
      if q.end.Undecided? then CascadeLayer(job, world, q, LAYERS[n - 1]) else q
  }

  /** What is left for L4: a last deadline check, then one call with the time that remains. */
  function CascadeL4(job: Job, world: World, p: Progress): Progress {
    var t0: Time := p.elapsed + world.pause(None, false);
    if RemainingMs(t0, job.deadlineMs) <= 0 then p.(elapsed := t0, end := DeadlineHit)
    else
      var t1: Time := t0 + world.pause(None, true);
      var remaining := RemainingMs(t1, job.deadlineMs);
      if remaining <= 0 then p.(elapsed := t1, end := L4TimedOut)
      else
        var timeout := Max(remaining, 1);
        var duration := world.l4Time(job.input, timeout);
        p.(calls := p.calls + [Call(None, t1, timeout, duration)],
           elapsed := t1 + duration,
           end := match world.l4(job.input, timeout)
                  case L4Output(output) => L4Answer(output)
                  case L4Error => L4Failed
                  case L4NoReply => L4TimedOut
                  case L4BudgetExhausted => Raised)
  }

  function WholeCascade(job: Job, world: World, p: Progress): Progress {
    var q := CascadeLayers(job, world, p, |LAYERS|);
    if q.end.Undecided? then CascadeL4(job, world, q) else q
  }

  lemma {:induction false} DecidedLayersStop(job: Job, world: World, p: Progress, n: nat, m: nat)
    requires n <= m <= |LAYERS| && !CascadeLayers(job, world, p, n).end.Undecided?
    ensures CascadeLayers(job, world, p, m) == CascadeLayers(job, world, p, n)
    decreases m
  {
    if n < m {
      DecidedLayersStop(job, world, p, n, m - 1);
    }
  }

  lemma MetInTime(job: Job, world: World, p: Progress, layer: Layer, t: Time)
    requires layer in job.release.routing.enabledLayers
    requires t == p.elapsed + world.pause(Some(layer), false) && RemainingMs(t, job.deadlineMs) > 0
    ensures CascadeLayer(job, world, p, layer) == MetLayer(job, world, p.(elapsed := t), layer)
  {
  }

  /** One pass of the loop over the layers. */
  method RunLayer(job: Job, world: World, breakers: CircuitBreakers, layer: Layer,
                  attempts0: seq<Attempt>, calls0: seq<Call>, elapsed0: Time)
    returns (attempts: seq<Attempt>, calls: seq<Call>, elapsed: Time, end: End)
    modifies breakers
    ensures Progress(breakers.records, attempts, calls, elapsed, end)
         == CascadeLayer(job, world, Progress(old(breakers.records), attempts0, calls0, elapsed0, Undecided), layer)
  {
    if layer !in job.release.routing.enabledLayers {
      return attempts0, calls0, elapsed0, Undecided;
    }
    var t: Time := elapsed0 + world.pause(Some(layer), false);
    if RemainingMs(t, job.deadlineMs) <= 0 {
      return attempts0, calls0, t, DeadlineHit;
    }
    MetInTime(job, world, Progress(breakers.records, attempts0, calls0, elapsed0, Undecided), layer, t);
    attempts, calls, elapsed, end := MeetLayer(job, world, breakers, layer, attempts0, calls0, t);
  }

  method MeetLayer(job: Job, world: World, breakers: CircuitBreakers, layer: Layer,
                   attempts0: seq<Attempt>, calls0: seq<Call>, t: Time)
    returns (attempts: seq<Attempt>, calls: seq<Call>, elapsed: Time, end: End)
    modifies breakers
    ensures Progress(breakers.records, attempts, calls, elapsed, end)
         == MetLayer(job, world, Progress(old(breakers.records), attempts0, calls0, t, Undecided), layer)
  {
    var open := breakers.IsLayerCircuitOpen(job.release, layer, true);
    if open {
      return attempts0 + [SkipLayerAttempt(layer, ArtifactIdAt(job.release, layer), CircuitOpen)], calls0, t, Undecided;
    }
    assert MetLayer(job, world, Progress(old(breakers.records), attempts0, calls0, t, Undecided), layer)
        == ClosedLayer(job, world, Progress(breakers.records, attempts0, calls0, t, Undecided), layer);
    attempts, calls, elapsed, end := RunClosedLayer(job, world, breakers, layer, attempts0, calls0, t);
  }

  method RunClosedLayer(job: Job, world: World, breakers: CircuitBreakers, layer: Layer,
                        attempts0: seq<Attempt>, calls0: seq<Call>, elapsed0: Time)
    returns (attempts: seq<Attempt>, calls: seq<Call>, elapsed: Time, end: End)
    modifies breakers
    ensures Progress(breakers.records, attempts, calls, elapsed, end)
         == ClosedLayer(job, world, Progress(old(breakers.records), attempts0, calls0, elapsed0, Undecided), layer)
  {
    if layer !in job.workers {
      return attempts0, calls0, elapsed0, Undecided;
    }
    var t: Time := elapsed0 + world.pause(Some(layer), true);
    if RemainingMs(t, job.deadlineMs) <= 0 {
      return attempts0, calls0, t, DeadlineHit;
    }
    assert ClosedLayer(job, world, Progress(breakers.records, attempts0, calls0, elapsed0, Undecided), layer)
        == WorkerTurn(job, world, Progress(breakers.records, attempts0, calls0, t, Undecided), layer);
    attempts, calls, elapsed, end := CallWorker(job, world, breakers, layer, attempts0, calls0, t);
  }

  method CallWorker(job: Job, world: World, breakers: CircuitBreakers, layer: Layer,
                    attempts0: seq<Attempt>, calls0: seq<Call>, start: Time)
    returns (attempts: seq<Attempt>, calls: seq<Call>, elapsed: Time, end: End)
    requires layer in job.workers
    modifies breakers
    ensures Progress(breakers.records, attempts, calls, elapsed, end)
         == WorkerTurn(job, world, Progress(old(breakers.records), attempts0, calls0, start, Undecided), layer)
  {
    attempts, calls, elapsed, end := attempts0, calls0, start, Undecided;
    var worker := job.workers[layer];
    var timeout := CallTimeout(job, layer, worker, RemainingMs(start, job.deadlineMs));
    var attempt := RunLayerAttempt(worker, job.contract, world.worker(worker, job.input, timeout), layer);
    calls := calls + [Call(Some(layer), elapsed, timeout, world.workerTime(worker, job.input, timeout))];
    elapsed := elapsed + world.workerTime(worker, job.input, timeout);
    if attempt.None? {
      end := Raised;
      return;
    }
    attempts := attempts + [attempt.value];
    breakers.UpdateCircuitBreaker(job.release, layer, IsFailure(attempt.value.decision));
    if attempt.value.decision == Accept && attempt.value.output.Some? {
      end := LocalAnswer(layer, attempt.value.output.value);
    }
  }

  /** The fallback call at the end of the cascade. */
  method CallL4Fallback(job: Job, world: World, calls0: seq<Call>, elapsed0: Time, ghost p: Progress)
    returns (calls: seq<Call>, elapsed: Time, end: End)
    requires p.calls == calls0 && p.elapsed == elapsed0
    ensures p.(calls := calls, elapsed := elapsed, end := end) == CascadeL4(job, world, p)
  {
    calls, elapsed := calls0, elapsed0 + world.pause(None, false);
    if RemainingMs(elapsed, job.deadlineMs) <= 0 {
      end := DeadlineHit;
      return;
    }
    elapsed := elapsed + world.pause(None, true);
    var remaining := RemainingMs(elapsed, job.deadlineMs);
    if remaining <= 0 {
      end := L4TimedOut;
      return;
    }
    var timeout := Max(remaining, 1);
    calls := calls + [Call(None, elapsed, timeout, world.l4Time(job.input, timeout))];
    elapsed := elapsed + world.l4Time(job.input, timeout);
    match world.l4(job.input, timeout)
    case L4Output(output) => end := L4Answer(output);
    case L4Error => end := L4Failed;
    case L4NoReply => end := L4TimedOut;
    case L4BudgetExhausted => end := Raised;
  }

  method RunCascade(job: Job, world: World, breakers: CircuitBreakers, initialAttempts: seq<Attempt>)
    returns (attempts: seq<Attempt>, calls: seq<Call>, elapsed: Time, end: End)
    modifies breakers
    ensures Progress(breakers.records, attempts, calls, elapsed, end)
         == WholeCascade(job, world, Progress(old(breakers.records), initialAttempts, [], 0.0, Undecided))
  {
    attempts, calls, elapsed, end := initialAttempts, [], 0.0, Undecided;
    ghost var start := Progress(breakers.records, attempts, calls, elapsed, end);
    for i := 0 to |LAYERS|
      invariant end == Undecided
      invariant Progress(breakers.records, attempts, calls, elapsed, end) == CascadeLayers(job, world, start, i)
    {
      attempts, calls, elapsed, end := RunLayer(job, world, breakers, LAYERS[i], attempts, calls, elapsed);
      if end != Undecided {
        DecidedLayersStop(job, world, start, i + 1, |LAYERS|);
        return;
      }
    }
    calls, elapsed, end := CallL4Fallback(job, world, calls, elapsed, Progress(breakers.records, attempts, calls, elapsed, end));
  }
}
