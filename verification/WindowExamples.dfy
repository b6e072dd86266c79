/** A request that is served well, and whose trace no metric window takes. */
module WindowExamples {
  import opened Wrappers
  import opened Domain
  import opened Registry
  import opened Cascade
  import opened Costs
  import opened Traces
  import opened TraceMetrics
  import W = WindowDetails
  import opened Serving
  import opened ServingRuns
  import opened Evaluation
  import opened EvaluationRefinement
  import opened EvaluationRuns
  import opened ServingExamples
  import opened Counting

  const EVERYBODY := ChannelKey("target", Stable)

  const NO_SHARE := Options(None, None)

  /** The release of two layers is registered and made stable. */
  function Deployment(): seq<Event> {
    [RegistryEvent(RegisterOp(TWO_LAYERS.(status := Created))), RegistryEvent(SetChannelOp("target", Stable, "release", NO_SHARE, _ => true))]
  }

  const DEPLOYED: RegistryState := RegistryState(map["release" := TWO_LAYERS], map[EVERYBODY := "release"], map[], map[EVERYBODY := NO_SHARE])

  lemma DeploymentSucceeds()
    ensures RunAll(Deployment()) == History(IDLE.(registry := DEPLOYED), [])
  {
    var registered := TWO_LAYERS.(status := Created);
    var before := EMPTY.(releases := map["release" := registered]);
    assert Atomic(registered);
    assert LoadRelease("release", before.releases, _ => true) == Some(registered);
    assert Step(EMPTY, RegisterOp(registered)) == before;
    assert Step(before, SetChannelOp("target", Stable, "release", NO_SHARE, _ => true)) == DEPLOYED;
    assert Deployment()[..1] == [Deployment()[0]];
    assert Deployment()[..1][..0] == [];
  }

  /** All layers are healthy and answer at once: the first abstains with a confidence that is no finite number, the
      second accepts. */
  function WildWorld(): World {
    World((layer: Layer) => true,
          (worker: Package, input: Payload, timeout: int) => if worker.layer == L1 then Abstains(None, Some(BeyondRange)) else Accepts("answer", None, None),
          (worker: Package, input: Payload, timeout: int) => 0.0,
          (input: Payload, timeout: int) => L4Output("answer"),
          (input: Payload, timeout: int) => 0.0,
          (input: Payload, timeout: int) => NOTHING,
          (layer: Option<Layer>, again: bool) => 0.0)
  }

  const RECORD := Record("record", "input", "answer", [])

  const REQUEST := Request("request", "target", "input", None)

  function WildEnv(): Env {
    Env(0.0, _ => true, ANY, None, false, WildWorld(), false, false, false, false, 0.0, map[], 0)
  }

  /** The route of the first two layers. */
  lemma WildRoute()
    ensures var r := RouteLayers(CandidateOf(TWO_LAYERS), ANY, "input", WildWorld(), |LAYERS|);
            && r.chosen == Some(L2) && !r.raised
            && r.attempts != [] && r.attempts[0].confidence == Some(BeyondRange)
    ensures !Late(TWO_LAYERS, ANY, "input", WildWorld())
  {
    var candidate, world := CandidateOf(TWO_LAYERS), WildWorld();
    var first := RouteLayers(candidate, ANY, "input", world, 1);
    assert LAYERS[0] == L1 && LAYERS[1] == L2;
    assert RouteLayers(candidate, ANY, "input", world, 0) == START;
    assert !Stopped(first) && first.elapsed == 0.0 && first.attempts[0].confidence == Some(BeyondRange);
    assert RouteLayers(candidate, ANY, "input", world, 2).chosen == Some(L2);
    RouteStops(candidate, ANY, "input", world, 2, |LAYERS|);
  }

  const RUNNING: History := History(IDLE.(registry := DEPLOYED), [])

  function WildEvent(): Event { RequestEvent(REQUEST, WildEnv()) }

  lemma WildRequestSelects()
    ensures Select(DEPLOYED, "target", WildEnv().bucket, WildEnv().disk) == Some(TWO_LAYERS)
  {
    assert Atomic(TWO_LAYERS);
    assert LoadRelease("release", DEPLOYED.releases, WildEnv().disk) == Some(TWO_LAYERS);
  }

  lemma WildRequestFits()
    ensures RequestFor(DEPLOYED, TWO_LAYERS, ANY, WildWorld(), RECORD, WildEvent())
    ensures Quiet(WildEvent())
  {
    WildRequestSelects();
    assert FairWorld(WildWorld(), WildWorld());
    assert Deadline(TWO_LAYERS, REQUEST) == TWO_LAYERS.routing.totalDeadlineMs;
  }

  lemma WildRequestIsServed()
    ensures var n := Next(RUNNING, WildEvent());
            && n.runtime.registry == DEPLOYED
            && |n.runtime.traces| == 1 && Reports(TWO_LAYERS, ANY, WildWorld(), RECORD, WildEvent(), n.runtime.traces[0])
  {
    WildRequestFits();
    WildRoute();
    ArtifactsDiffer();
    assert Ready(TWO_LAYERS, RUNNING.runtime);
    assert Settled(TWO_LAYERS, ANY, WildWorld(), RECORD);
    OneTrace(RUNNING, WildEvent(), TWO_LAYERS, ANY, WildWorld(), RECORD);
    OneRequest(RUNNING, WildEvent(), TWO_LAYERS, ANY, WildWorld(), RECORD);
  }

  function WildRun(): seq<Event> { Deployment() + [WildEvent()] }

  lemma WildRunServes()
    ensures RunAll(WildRun()) == Next(RUNNING, WildEvent())
  {
    assert WildRun()[..|WildRun()| - 1] == Deployment();
    DeploymentSucceeds();
  }

  lemma WildTrace(t: Trace)
    requires Reports(TWO_LAYERS, ANY, WildWorld(), RECORD, WildEvent(), t)
    ensures t.ok && t.chosen == Local(L2) && t.releaseId == "release" && t.timestamp == 0 && !W.AllCountable(t)
  {
    WildRoute();
    assert t.attempts[0] in t.attempts;
  }

  /** The second layer answers the request, and no window that holds its trace can be computed. */
  lemma OneConfidenceStopsTheWindow()
    ensures var r := RunAll(WildRun()).runtime;
            && r.registry == DEPLOYED
            && |r.traces| == 1 && r.traces[0].ok && r.traces[0].chosen == Local(L2)
            && Aggregate(TracesOf(r.traces, "release"), [], 0, 0, TWO_LAYERS).None?
  {
    var r := RunAll(WildRun()).runtime;
    WildRunServes();
    WildRequestIsServed();
    WildTrace(r.traces[0]);
    SelectedSatisfy(r.traces, (t: Trace) => t.releaseId == "release");
    assert r.traces[0] in TracesOf(r.traces, "release");
    MetricsAcceptEveryServedTrace(WildRun(), "release", [], 0, 0);
  }
}
