/** The metric window built from traces. */
module TraceMetrics {
  import opened Wrappers
  import opened Domain
  import opened Cascade
  import opened CascadeProperties
  import opened Traces
  import opened Counting
  import W = WindowDetails

  // ---------------------------------------------------------------------------
  // The metric window
  // ---------------------------------------------------------------------------

  /** One value for each of the three layers. */
  datatype PerLayer<+T> = PerLayer(l1: T, l2: T, l3: T)

  function Bump(counts: PerLayer<nat>, layer: Layer): PerLayer<nat> {
    match layer
    case L1 => counts.(l1 := counts.l1 + 1)
    case L2 => counts.(l2 := counts.l2 + 1)
    case L3 => counts.(l3 := counts.l3 + 1)
  }

  function Plus(a: PerLayer<nat>, b: PerLayer<nat>): PerLayer<nat> {
    PerLayer(a.l1 + b.l1, a.l2 + b.l2, a.l3 + b.l3)
  }

  datatype Window = Window(
    requestCount: nat,
    cacheHits: nat,
    localAccepts: nat,
    l4Count: nat,
    attemptCounts: PerLayer<nat>,
    acceptCounts: PerLayer<nat>,
    localCoverage: real,
    layerCoverage: PerLayer<real>,
    cacheHitRate: real,
    l4FallbackRate: real,
    disabledLayers: set<Layer>,
    details: W.Details)

  /** The traces whose timestamps fall in the window, bounds included. */
  function Windowed(traces: seq<Trace>, start: int, end: int): seq<Trace> {
    Selected(traces, (t: Trace) => start <= t.timestamp <= end)
  }

  /** How many of the attempts are for the layer, all of them or only the accepted ones. */
  function LayerAttempts(attempts: seq<Attempt>, layer: Layer, onlyAccepted: bool): nat {
    if attempts == [] then 0
    else
      var last := attempts[|attempts| - 1];
      LayerAttempts(attempts[..|attempts| - 1], layer, onlyAccepted)
      + (if last.layer == layer && (onlyAccepted ==> last.decision == Accept) then 1 else 0)
  }

  function TotalAttempts(traces: seq<Trace>, layer: Layer, onlyAccepted: bool): nat {
    if traces == [] then 0
    else TotalAttempts(traces[..|traces| - 1], layer, onlyAccepted)
         + LayerAttempts(traces[|traces| - 1].attempts, layer, onlyAccepted)
  }

  function IsLocal(t: Trace): bool { t.chosen.Local? }

  function IsHit(t: Trace): bool { t.cacheHit }

  function IsReference(t: Trace): bool { t.chosen == Reference }

  function IsUnanswered(t: Trace): bool { t.chosen == Nobody }

  predicate AttemptAdmitted(release: Release, a: Attempt) {
    ActiveLayer(release, a.layer) && a.artifactId == release.artifacts[a.layer].artifactId
  }

  /** The window takes a trace of the release's own layers, with the artifacts they carry. */
  predicate Admitted(release: Release, t: Trace) {
    && InScope(release, t)
    && (t.chosen.Local? ==> ActiveLayer(release, t.chosen.layer))
    && (forall a <- t.attempts :: AttemptAdmitted(release, a))
  }

  function LayerCounts(traces: seq<Trace>, onlyAccepted: bool): PerLayer<nat> {
    PerLayer(TotalAttempts(traces, L1, onlyAccepted), TotalAttempts(traces, L2, onlyAccepted), TotalAttempts(traces, L3, onlyAccepted))
  }

  function AttemptCounts(attempts: seq<Attempt>, onlyAccepted: bool): PerLayer<nat> {
    PerLayer(LayerAttempts(attempts, L1, onlyAccepted), LayerAttempts(attempts, L2, onlyAccepted), LayerAttempts(attempts, L3, onlyAccepted))
  }

  function Shares(counts: PerLayer<nat>, total: nat): PerLayer<real> {
    PerLayer(Ratio(counts.l1, total), Ratio(counts.l2, total), Ratio(counts.l3, total))
  }

  function NonCache(traces: seq<Trace>): nat {
    if Count(traces, IsHit) <= |traces| then |traces| - Count(traces, IsHit) else 0
  }

  /** A window from its counters. */
  function Assemble(release: Release, count: nat, hits: nat, local: nat, reference: nat, attempts: PerLayer<nat>, accepts: PerLayer<nat>,
                    nonCache: nat, details: W.Details): Window
  {
    Window(count, hits, local, reference, attempts, accepts, Ratio(local, nonCache), Shares(accepts, nonCache), Ratio(hits, count),
           Ratio(reference, count), {L1, L2, L3} - release.routing.enabledLayers, details)
  }

  function Summarize(traces: seq<Trace>, audits: seq<W.AuditRecord>, release: Release): Option<Window> {
    var details := W.DetailsOf(traces, audits, NonCache(traces));
    if details.None? then None
    else Some(Assemble(release, |traces|, Count(traces, IsHit), Count(traces, IsLocal), Count(traces, IsReference), LayerCounts(traces, false),
                       LayerCounts(traces, true), NonCache(traces), details.value))
  }

  function WindowedAudits(audits: seq<W.AuditRecord>, start: int, end: int): seq<W.AuditRecord> {
    Selected(audits, (a: W.AuditRecord) => start <= a.createdAt <= end)
  }

  /** The window over the traces and audits in it, or nothing when one of them does not belong to the release or an
      attempt has a confidence beyond range. */
  function Aggregate(traces: seq<Trace>, audits: seq<W.AuditRecord>, start: int, end: int, release: Release): Option<Window> {
    var inside, audited := Windowed(traces, start, end), WindowedAudits(audits, start, end);
    if (forall t <- inside :: Admitted(release, t)) && (forall a <- audited :: W.AuditInScope(release, a))
    then Summarize(inside, audited, release) else None
  }

  method CollectWindow(traces: seq<Trace>, start: int, end: int) returns (inside: seq<Trace>)
    ensures inside == Windowed(traces, start, end)
  {
    inside := [];
    for i := 0 to |traces|
      invariant inside == Windowed(traces[..i], start, end)
    {
      SelectedGrows(traces, i, (t: Trace) => start <= t.timestamp <= end);
      if start <= traces[i].timestamp <= end {
        inside := inside + [traces[i]];
      }
    }
    assert traces[..|traces|] == traces;
  }

  lemma AttemptCountsGrow(attempts: seq<Attempt>, j: nat, onlyAccepted: bool)
    requires j < |attempts|
    ensures AttemptCounts(attempts[..j + 1], onlyAccepted)
         == var before := AttemptCounts(attempts[..j], onlyAccepted);
            if onlyAccepted && attempts[j].decision != Accept then before else Bump(before, attempts[j].layer)
  {
    assert attempts[..j + 1][..j] == attempts[..j];
  }

  /** Adds the attempts of one trace to the counters, or reports that one does not match the release. */
  method AddAttempts(t: Trace, release: Release, attempts0: PerLayer<nat>, accepts0: PerLayer<nat>)
    returns (ok: bool, attempts: PerLayer<nat>, accepts: PerLayer<nat>)
    ensures ok <==> forall a <- t.attempts :: AttemptAdmitted(release, a)
    ensures ok ==> attempts == Plus(attempts0, AttemptCounts(t.attempts, false))
    ensures ok ==> accepts == Plus(accepts0, AttemptCounts(t.attempts, true))
  {
    attempts, accepts := attempts0, accepts0;
    for j := 0 to |t.attempts|
      invariant forall a <- t.attempts[..j] :: AttemptAdmitted(release, a)
      invariant attempts == Plus(attempts0, AttemptCounts(t.attempts[..j], false))
      invariant accepts == Plus(accepts0, AttemptCounts(t.attempts[..j], true))
    {
      var a := t.attempts[j];
      AttemptCountsGrow(t.attempts, j, false);
      AttemptCountsGrow(t.attempts, j, true);
      if !AttemptAdmitted(release, a) {
        return false, attempts, accepts;
      }
      attempts := Bump(attempts, a.layer);
      if a.decision == Accept {
        accepts := Bump(accepts, a.layer);
      }
    }
    assert t.attempts[..|t.attempts|] == t.attempts;
    ok := true;
  }

  lemma LayerCountsGrow(traces: seq<Trace>, i: nat, onlyAccepted: bool)
    requires i < |traces|
    ensures LayerCounts(traces[..i + 1], onlyAccepted)
         == Plus(LayerCounts(traces[..i], onlyAccepted), AttemptCounts(traces[i].attempts, onlyAccepted))
  {
    assert traces[..i + 1][..i] == traces[..i];
  }

  method CountLayers(inside: seq<Trace>, release: Release) returns (ok: bool, attempts: PerLayer<nat>, accepts: PerLayer<nat>)
    ensures ok <==> forall t <- inside :: Admitted(release, t)
    ensures ok ==> attempts == LayerCounts(inside, false) && accepts == LayerCounts(inside, true)
  {
    attempts, accepts := PerLayer<nat>.PerLayer(0, 0, 0), PerLayer<nat>.PerLayer(0, 0, 0);
    for i := 0 to |inside|
      invariant forall t <- inside[..i] :: Admitted(release, t)
      invariant attempts == LayerCounts(inside[..i], false) && accepts == LayerCounts(inside[..i], true)
    {
      var t := inside[i];
      LayerCountsGrow(inside, i, false);
      LayerCountsGrow(inside, i, true);
      if !InScope(release, t) || (t.chosen.Local? && !ActiveLayer(release, t.chosen.layer)) {
        assert !Admitted(release, t);
        return false, attempts, accepts;
      }
      ok, attempts, accepts := AddAttempts(t, release, attempts, accepts);
      if !ok {
        assert !Admitted(release, t);
        return;
      }
    }
    assert inside[..|inside|] == inside;
    ok := true;
  }

  method DescribeWindow(inside: seq<Trace>, audited: seq<W.AuditRecord>, release: Release) returns (window: Option<Window>)
    ensures window == if forall t <- inside :: Admitted(release, t) then Summarize(inside, audited, release) else None
  {
    var hits, local, reference := CountChosen(inside);
    var ok, attempts, accepts := CountLayers(inside, release);
    if !ok {
      return None;
    }
    CountBounded(inside, IsHit);
    var nonCache := |inside| - hits;
    assert nonCache == NonCache(inside);
    var details := W.CollectDetails(inside, audited, nonCache);
    if details.None? {
      return None;
    }
    window := Some(Assemble(release, |inside|, hits, local, reference, attempts, accepts, nonCache, details.value));
  }

  method AggregateRuntimeMetrics(traces: seq<Trace>, audits: seq<W.AuditRecord>, start: int, end: int, release: Release) returns (window: Option<Window>)
    ensures window == Aggregate(traces, audits, start, end, release)
  {
    var inside := CollectWindow(traces, start, end);
    var audited := WindowedAudits(audits, start, end);
    if exists a <- audited :: !W.AuditInScope(release, a) {
      return None;
    }
    window := DescribeWindow(inside, audited, release);
  }

  method CountChosen(inside: seq<Trace>) returns (hits: nat, local: nat, reference: nat)
    ensures hits == Count(inside, IsHit) && local == Count(inside, IsLocal) && reference == Count(inside, IsReference)
  {
    hits, local, reference := 0, 0, 0;
    for i := 0 to |inside|
      invariant hits == Count(inside[..i], IsHit) && local == Count(inside[..i], IsLocal)
      invariant reference == Count(inside[..i], IsReference)
    {
      var t := inside[i];
      CountGrows(inside, i, IsHit);
      CountGrows(inside, i, IsLocal);
      CountGrows(inside, i, IsReference);
      if t.cacheHit { hits := hits + 1; }
      if t.chosen.Local? { local := local + 1; }
      if t.chosen == Reference { reference := reference + 1; }
    }
    assert inside[..|inside|] == inside;
  }

  // ---------------------------------------------------------------------------
  // What the window says about traces that serving writes
  // ---------------------------------------------------------------------------

  function ChosenLayers(chosen: Chosen): seq<Layer> {
    if chosen.Local? then [chosen.layer] else []
  }

  /** A trace as serving writes it: every attempt is one of the release's layers with that layer's
      artifact, and the accepted attempts are the chosen local layer, once, or none at all. */
  ghost predicate TraceFits(release: Release, t: Trace) {
    && InScope(release, t)
    && AttemptsFit(release, t.attempts)
    && Accepted(t.attempts) == ChosenLayers(t.chosen)
    && (t.cacheHit <==> t.chosen == CacheAnswer)
  }

  lemma {:induction false} AcceptedLayerFits(release: Release, attempts: seq<Attempt>, layer: Layer)
    requires AttemptsFit(release, attempts) && layer in Accepted(attempts)
    ensures ActiveLayer(release, layer)
  {
    var n := |attempts| - 1;
    if layer in Accepted(attempts[..n]) {
      AcceptedLayerFits(release, attempts[..n], layer);
    } else {
      assert AttemptFits(release, attempts[n]);
    }
  }

  lemma FittingTraceAdmitted(release: Release, t: Trace)
    requires TraceFits(release, t)
    ensures Admitted(release, t)
  {
    if t.chosen.Local? {
      AcceptedLayerFits(release, t.attempts, t.chosen.layer);
    }
    forall a | a in t.attempts
      ensures AttemptAdmitted(release, a)
    {
      assert AttemptFits(release, a);
    }
  }

  /** The accepted attempts of one trace, counted layer by layer. */
  lemma {:induction false} AcceptCountsAddUp(attempts: seq<Attempt>)
    ensures LayerAttempts(attempts, L1, true) + LayerAttempts(attempts, L2, true) + LayerAttempts(attempts, L3, true) == |Accepted(attempts)|
  {
    if attempts != [] {
      AcceptCountsAddUp(attempts[..|attempts| - 1]);
    }
  }

  /** Every request is answered by the cache, by a local layer, by L4, or by nobody; and each local answer
      is one accepted attempt. */
  lemma {:induction false} CountsAddUp(release: Release, traces: seq<Trace>)
    requires forall t <- traces :: TraceFits(release, t)
    ensures Count(traces, IsHit) + Count(traces, IsLocal) + Count(traces, IsReference) + Count(traces, IsUnanswered) == |traces|
    ensures TotalAttempts(traces, L1, true) + TotalAttempts(traces, L2, true) + TotalAttempts(traces, L3, true) == Count(traces, IsLocal)
  {
    if traces != [] {
      CountsAddUp(release, traces[..|traces| - 1]);
      var last := traces[|traces| - 1];
      assert TraceFits(release, last);
      AcceptCountsAddUp(last.attempts);
    }
  }

  lemma SharesAddUp(a: nat, b: nat, c: nat, total: nat)
    ensures Ratio(a, total) + Ratio(b, total) + Ratio(c, total) == Ratio(a + b + c, total)
  {
    if total > 0 {
      var t := total as real;
      assert a as real / t + b as real / t + c as real / t == (a as real + b as real + c as real) / t;
      assert (a + b + c) as real == a as real + b as real + c as real;
    }
  }

  lemma {:induction false} AttemptKinds(attempts: seq<Attempt>)
    ensures LayerAttempts(attempts, L1, false) + LayerAttempts(attempts, L2, false) + LayerAttempts(attempts, L3, false)
            == Count(attempts, IsAccept) + Count(attempts, IsAbstain) + LocalErrors(attempts)
    ensures Count(attempts, IsAccept) == |Accepted(attempts)|
  {
    if attempts != [] {
      var n := |attempts| - 1;
      AttemptKinds(attempts[..n]);
      var decision := attempts[n].decision;
      assert decision.Accept? || decision.Abstain? || decision.Timeout? || decision.Error? || decision.ProtocolError? || decision.InvalidOutput?;
    }
  }

  predicate IsAccept(a: Attempt) { a.decision == Accept }

  predicate IsAbstain(a: Attempt) { a.decision == Abstain }

  predicate HasError(a: Attempt) { W.AttemptErrorOf(a).Some? }

  function LocalErrors(attempts: seq<Attempt>): nat { Count(attempts, HasError) }

  /** Every attempt of a window is accepted, abstains, or is counted as an error. */
  lemma {:induction false} AttemptsAddUp(traces: seq<Trace>)
    ensures TotalAttempts(traces, L1, false) + TotalAttempts(traces, L2, false) + TotalAttempts(traces, L3, false)
            == W.CountAllAttempts(traces, IsAccept) + W.CountAllAttempts(traces, IsAbstain) + W.CountAllAttempts(traces, HasError)
  {
    if traces != [] {
      AttemptsAddUp(traces[..|traces| - 1]);
      AttemptKinds(traces[|traces| - 1].attempts);
    }
  }

  ghost predicate CoveragesAddUp(w: Window) {
    && w.layerCoverage.l1 + w.layerCoverage.l2 + w.layerCoverage.l3 == w.localCoverage
    && w.acceptCounts.l1 + w.acceptCounts.l2 + w.acceptCounts.l3 == w.localAccepts
  }

  ghost predicate RequestsAddUp(w: Window, inside: seq<Trace>) {
    w.cacheHits + w.localAccepts + w.l4Count + Count(inside, IsUnanswered) == w.requestCount
  }

  ghost predicate AttemptsAccountedFor(w: Window, inside: seq<Trace>) {
    w.attemptCounts.l1 + w.attemptCounts.l2 + w.attemptCounts.l3
    == W.CountAllAttempts(inside, IsAccept) + W.CountAllAttempts(inside, IsAbstain) + W.CountAllAttempts(inside, HasError)
  }

  /** Layer coverages sum to the local coverage; cache, local, L4 and unanswered requests make up all of them; every
      attempt is accepted, abstains or is counted as an error; and the audits add up. */
  ghost predicate AddsUp(w: Window, inside: seq<Trace>) {
    && CoveragesAddUp(w) && RequestsAddUp(w, inside) && AttemptsAccountedFor(w, inside)
    && w.details.audits.correct + w.details.audits.wrong == w.details.audits.evaluable
  }

  lemma AssembledCoverages(release: Release, count: nat, hits: nat, local: nat, reference: nat, attempts: PerLayer<nat>, accepts: PerLayer<nat>,
                           nonCache: nat, details: W.Details)
    requires accepts.l1 + accepts.l2 + accepts.l3 == local
    ensures CoveragesAddUp(Assemble(release, count, hits, local, reference, attempts, accepts, nonCache, details))
  {
    SharesAddUp(accepts.l1, accepts.l2, accepts.l3, nonCache);
  }

  lemma SummaryAddsUp(release: Release, inside: seq<Trace>, audits: seq<W.AuditRecord>)
    requires forall t <- inside :: TraceFits(release, t)
    ensures var window := Summarize(inside, audits, release);
            && (window.Some? <==> forall t <- inside :: W.AllCountable(t))
            && (window.Some? ==> AddsUp(window.value, inside))
  {
    var nonCache := NonCache(inside);
    var details := W.DetailsOf(inside, audits, nonCache);
    CountsAddUp(release, inside);
    if details.Some? {
      AssembledCoverages(release, |inside|, Count(inside, IsHit), Count(inside, IsLocal), Count(inside, IsReference), LayerCounts(inside, false),
                         LayerCounts(inside, true), nonCache, details.value);
      AttemptsAddUp(inside);
      AuditsOfDetails(inside, audits, nonCache);
    }
  }

  lemma AuditsOfDetails(inside: seq<Trace>, audits: seq<W.AuditRecord>, nonCache: nat)
    requires W.DetailsOf(inside, audits, nonCache).Some?
    ensures var a := W.DetailsOf(inside, audits, nonCache).value.audits; a.correct + a.wrong == a.evaluable
  {
    W.AuditsAddUp(audits);
  }

  /** Of the traces that serving can write, with audits in scope, a window is computed exactly when no attempt in it
      has a confidence beyond range; and then it adds up. */
  lemma WindowAcceptsServedTraces(release: Release, traces: seq<Trace>, audits: seq<W.AuditRecord>, start: int, end: int)
    requires forall t <- traces :: TraceFits(release, t)
    requires forall a <- audits :: W.AuditInScope(release, a)
    ensures var window := Aggregate(traces, audits, start, end, release);
            && (window.Some? <==> forall t <- traces :: start <= t.timestamp <= end ==> W.AllCountable(t))
            && (window.Some? ==> AddsUp(window.value, Windowed(traces, start, end)))
  {
    var inside := Windowed(traces, start, end);
    SelectedSatisfy(traces, (t: Trace) => start <= t.timestamp <= end);
    SelectedSatisfy(audits, (a: W.AuditRecord) => start <= a.createdAt <= end);
    forall t | t in inside ensures Admitted(release, t) {
      FittingTraceAdmitted(release, t);
    }
    SummaryAddsUp(release, inside, WindowedAudits(audits, start, end));
  }
}
