/** The per-layer circuit breaker shared by worker preparation and the cascade. */
module CircuitBreaker {
  import opened Wrappers
  import opened Domain

  datatype Breaker = Breaker(open: bool, failures: int, remaining: int)

  datatype CircuitKey = CircuitKey(releaseId: ReleaseId, layer: Layer)

  const CLOSED: Breaker := Breaker(false, 0, 0)

  const DEFAULT_THRESHOLD := 3

  const DEFAULT_COOLDOWN := 1

  /** A setting that is not an integer falls back to its default; an integer is at least one. */
  function Setting(value: Option<int>, default: int): int {
    if value.None? then default else Max(1, value.value)
  }

  function Threshold(release: Release): int { Setting(release.routing.failureThreshold, DEFAULT_THRESHOLD) }

  function Cooldown(release: Release): int { Setting(release.routing.cooldownRequests, DEFAULT_COOLDOWN) }

  function Lookup(records: map<CircuitKey, Breaker>, key: CircuitKey): Option<Breaker> {
    if key in records then Some(records[key]) else None
  }

  function Store(records: map<CircuitKey, Breaker>, key: CircuitKey, record: Option<Breaker>): map<CircuitKey, Breaker> {
    if record.Some? then records[key := record.value] else records
  }

  /** Checking a circuit: whether the layer is to be skipped, and the record left behind. */
  function Check(record: Option<Breaker>, consumeSkip: bool): (bool, Option<Breaker>) {
    if record.None? || !record.value.open then (false, record)
    else if record.value.remaining <= 0 then (false, Some(CLOSED))
    else if !consumeSkip then (true, record)
    else if record.value.remaining - 1 <= 0 then (true, Some(CLOSED))
    else (true, Some(record.value.(remaining := record.value.remaining - 1)))
  }

  /** Recording the outcome of a health check or of an attempt. */
  function Update(record: Option<Breaker>, failure: bool, threshold: int, cooldown: int): Breaker {
    if !failure then CLOSED
    else
      var failures := (if record.Some? then record.value.failures else 0) + 1;
      if failures >= threshold then Breaker(true, failures, cooldown)
      else Breaker(false, failures, 0)
  }

  class CircuitBreakers {
    var records: map<CircuitKey, Breaker>

    constructor ()
      ensures records == map[]
    {
      records := map[];
    }

    method IsLayerCircuitOpen(release: Release, layer: Layer, consumeSkip: bool) returns (open: bool)
      modifies this
      ensures var key := CircuitKey(release.releaseId, layer);
              var (skip, record) := Check(Lookup(old(records), key), consumeSkip);
              open == skip && records == Store(old(records), key, record)
    {
      var key := CircuitKey(release.releaseId, layer);
      if key !in records {
        return false;
      }
      var state := records[key];
      if !state.open {
        assert records == records[key := state];
        return false;
      }
      if state.remaining <= 0 {
        records := records[key := CLOSED];
        return false;
      }
      if consumeSkip {
        state := state.(remaining := state.remaining - 1);
        if state.remaining <= 0 {
          state := CLOSED;
        }
      }
      records := records[key := state];
      open := true;
    }

    method UpdateCircuitBreaker(release: Release, layer: Layer, failure: bool)
      modifies this
      ensures var key := CircuitKey(release.releaseId, layer);
              records == old(records)[key := Update(Lookup(old(records), key), failure, Threshold(release), Cooldown(release))]
    {
      var key := CircuitKey(release.releaseId, layer);
      if key !in records {
        records := records[key := CLOSED];
      }
      var state := records[key];
      if !failure {
        state := CLOSED;
      } else {
        var failures := state.failures + 1;
        if failures >= Threshold(release) {
          state := Breaker(true, failures, Cooldown(release));
        } else {
          state := Breaker(false, failures, 0);
        }
      }
      records := records[key := state];
    }
  }

  // ---------------------------------------------------------------------------
  // A layer's record is a function of what happened at the layer
  // ---------------------------------------------------------------------------

  /** What can happen at a layer: an outcome is recorded, or an arriving request is skipped. */
  datatype Event = Failed | Succeeded | Skipped

  ghost function Apply(record: Option<Breaker>, event: Event, threshold: int, cooldown: int): Option<Breaker> {
    match event
    case Failed => Some(Update(record, true, threshold, cooldown))
    case Succeeded => Some(Update(record, false, threshold, cooldown))
    case Skipped => Check(record, true).1
  }

  ghost function Replay(record: Option<Breaker>, history: seq<Event>, threshold: int, cooldown: int): Option<Breaker> {
    if history == [] then record
    else Apply(Replay(record, history[..|history| - 1], threshold, cooldown), history[|history| - 1], threshold, cooldown)
  }

  lemma {:induction false} ReplayConcat(record: Option<Breaker>, a: seq<Event>, b: seq<Event>, threshold: int, cooldown: int)
    ensures Replay(record, a + b, threshold, cooldown) == Replay(Replay(record, a, threshold, cooldown), b, threshold, cooldown)
    decreases |b|
  {
    if b == [] {
      assert a + b == a;
    } else {
      assert (a + b)[..|a + b| - 1] == a + b[..|b| - 1];
      ReplayConcat(record, a, b[..|b| - 1], threshold, cooldown);
    }
  }

  /** Requests are skipped exactly while the circuit is open. */
  ghost predicate Allowed(record: Option<Breaker>, event: Event) {
    event == Skipped <==> record.Some? && record.value.open
  }

  ghost predicate Legal(record: Option<Breaker>, history: seq<Event>, threshold: int, cooldown: int) {
    forall i | 0 <= i < |history| :: Allowed(Replay(record, history[..i], threshold, cooldown), history[i])
  }

  lemma LegalConcat(record: Option<Breaker>, a: seq<Event>, b: seq<Event>, threshold: int, cooldown: int)
    requires Legal(record, a, threshold, cooldown)
    requires Legal(Replay(record, a, threshold, cooldown), b, threshold, cooldown)
    ensures Legal(record, a + b, threshold, cooldown)
  {
    forall i | 0 <= i < |a + b|
      ensures Allowed(Replay(record, (a + b)[..i], threshold, cooldown), (a + b)[i])
    {
      if i < |a| {
        assert (a + b)[..i] == a[..i];
      } else {
        assert (a + b)[..i] == a + b[..i - |a|];
        ReplayConcat(record, a, b[..i - |a|], threshold, cooldown);
      }
    }
  }

  /** How many of the latest events are all `event`. */
  ghost function Trailing(history: seq<Event>, event: Event): nat {
    if history == [] || history[|history| - 1] != event then 0
    else 1 + Trailing(history[..|history| - 1], event)
  }

  /** The record read off the history alone: a run of failures that reaches the threshold opens the
      circuit, the skips that follow wear the cooldown down, and anything else leaves it closed. */
  ghost function Expected(history: seq<Event>, threshold: int, cooldown: int): Option<Breaker> {
    if history == [] then None
    else
      var failures, skips := Trailing(history, Failed), Trailing(history, Skipped);
      if 0 < skips < cooldown then Some(Breaker(true, threshold, cooldown - skips))
      else if failures >= threshold then Some(Breaker(true, threshold, cooldown))
      else Some(Breaker(false, failures, 0))
  }

  lemma LegalPrefix(history: seq<Event>, n: nat, threshold: int, cooldown: int)
    requires n <= |history| && Legal(None, history, threshold, cooldown)
    ensures Legal(None, history[..n], threshold, cooldown)
  {
    assert forall i | 0 <= i < n :: history[..n][..i] == history[..i];
  }

  lemma TrailingStep(before: seq<Event>, e: Event, event: Event)
    ensures Trailing(before + [e], event) == if e == event then 1 + Trailing(before, event) else 0
  {
    assert (before + [e])[..|before|] == before;
  }

  lemma TrailingAt(history: seq<Event>, n: nat, event: Event)
    requires 0 < n <= |history|
    ensures Trailing(history[..n], event) == if history[n - 1] == event then 1 + Trailing(history[..n - 1], event) else 0
  {
    assert history[..n][..n - 1] == history[..n - 1];
  }

  /** What the history says of its record. */
  ghost predicate RecordFits(history: seq<Event>, threshold: int, cooldown: int) {
    && Trailing(history, Failed) <= threshold && Trailing(history, Skipped) <= cooldown
    && (history != [] ==>
          var b := Expected(history, threshold, cooldown).value;
          if b.open then b.failures == threshold && 1 <= b.remaining <= cooldown
          else b.failures == Trailing(history, Failed) < threshold && b.remaining == 0)
  }

  lemma ExpectedStep(before: seq<Event>, e: Event, threshold: int, cooldown: int)
    requires threshold >= 1 && cooldown >= 1
    requires RecordFits(before, threshold, cooldown) && Allowed(Expected(before, threshold, cooldown), e)
    ensures RecordFits(before + [e], threshold, cooldown)
    ensures Apply(Expected(before, threshold, cooldown), e, threshold, cooldown) == Expected(before + [e], threshold, cooldown)
  {
    TrailingStep(before, e, Failed);
    TrailingStep(before, e, Skipped);
  }

  /** On a legal history the record is the one read off the history: closed with the trailing failure
      run, always below the threshold, or open with exactly `threshold` failures and a remaining
      cooldown between one and `cooldown`. */
  lemma {:induction false} RecordIsFunctionOfHistory(history: seq<Event>, threshold: int, cooldown: int)
    requires threshold >= 1 && cooldown >= 1
    requires Legal(None, history, threshold, cooldown)
    ensures Replay(None, history, threshold, cooldown) == Expected(history, threshold, cooldown)
    ensures RecordFits(history, threshold, cooldown)
  {
    if history != [] {
      var n := |history| - 1;
      LegalPrefix(history, n, threshold, cooldown);
      RecordIsFunctionOfHistory(history[..n], threshold, cooldown);
      assert Allowed(Replay(None, history[..n], threshold, cooldown), history[n]);
      ExpectedStep(history[..n], history[n], threshold, cooldown);
      assert history == history[..n] + [history[n]];
    }
  }

  /** After a legal history's first `n` events the circuit is open exactly when the next event is a skip. */
  lemma NextIsAllowed(history: seq<Event>, n: nat, threshold: int, cooldown: int)
    requires threshold >= 1 && cooldown >= 1 && Legal(None, history, threshold, cooldown) && n < |history|
    ensures RecordFits(history[..n], threshold, cooldown) && Allowed(Expected(history[..n], threshold, cooldown), history[n])
  {
    LegalPrefix(history, n, threshold, cooldown);
    RecordIsFunctionOfHistory(history[..n], threshold, cooldown);
    assert Allowed(Replay(None, history[..n], threshold, cooldown), history[n]);
  }

  lemma {:induction false} SkipsSinceOpening(history: seq<Event>, openedAt: nat, n: nat, threshold: int, cooldown: int)
    requires threshold >= 1 && cooldown >= 1 && Legal(None, history, threshold, cooldown)
    requires openedAt <= n <= |history| && n - openedAt <= cooldown
    requires Trailing(history[..openedAt], Failed) == threshold
    ensures Trailing(history[..n], Skipped) == n - openedAt
    ensures n > openedAt ==> Trailing(history[..n], Failed) == 0
    decreases n
  {
    if n > openedAt {
      SkipsSinceOpening(history, openedAt, n - 1, threshold, cooldown);
      NextIsAllowed(history, n - 1, threshold, cooldown);
      TrailingAt(history, n, Failed);
      TrailingAt(history, n, Skipped);
    }
  }

  /** Once a failure run reaches the threshold, exactly the next `cooldown` arrivals are skipped. */
  lemma ExactlyCooldownSkips(history: seq<Event>, openedAt: nat, threshold: int, cooldown: int)
    requires threshold >= 1 && cooldown >= 1 && Legal(None, history, threshold, cooldown)
    requires openedAt <= |history| && Trailing(history[..openedAt], Failed) == threshold
    ensures forall j | openedAt <= j < |history| && j < openedAt + cooldown :: history[j] == Skipped
    ensures openedAt + cooldown < |history| ==> history[openedAt + cooldown] != Skipped
  {
    forall j | openedAt <= j < |history| && j <= openedAt + cooldown
      ensures history[j] == Skipped <==> j < openedAt + cooldown
    {
      SkipsSinceOpening(history, openedAt, j, threshold, cooldown);
      NextIsAllowed(history, j, threshold, cooldown);
    }
  }

  /** Conversely, every skip falls within `cooldown` arrivals of a failure run that reached the threshold. */
  lemma {:induction false} SkipsFollowThresholdFailures(history: seq<Event>, j: nat, threshold: int, cooldown: int)
    returns (openedAt: nat)
    requires threshold >= 1 && cooldown >= 1 && Legal(None, history, threshold, cooldown)
    requires j < |history| && history[j] == Skipped
    ensures openedAt <= j < openedAt + cooldown && Trailing(history[..openedAt], Failed) == threshold
  {
    NextIsAllowed(history, j, threshold, cooldown);
    if Trailing(history[..j], Failed) == threshold {
      openedAt := j;
    } else {
      assert Trailing(history[..j], Skipped) > 0;
      openedAt := SkipsFollowThresholdFailures(history, j - 1, threshold, cooldown);
      if j >= openedAt + cooldown {
        SkipsSinceOpening(history, openedAt, j, threshold, cooldown);
      }
    }
  }
}
