/** A release and a world in which serving and evaluation part ways, and one in which a circuit opens and skips at once. */
module ServingExamples {
  import opened Wrappers
  import opened Domain
  import opened CircuitBreaker
  import opened Cascade
  import opened Costs
  import opened CascadeProperties
  import opened LayerEvents
  import opened Evaluation
  import opened EvaluationRefinement

  function Artifact(layer: Layer): Package {
    Package(match layer case L1 => "one" case L2 => "two" case L3 => "three", layer, 10, "contract", "snapshot")
  }

  /** Two layers of ten milliseconds each, and a deadline of ten in all; circuits open at one failure. */
  const TWO_LAYERS: Release :=
    Release("release", "target", "contract", Some("candidate"), Some("snapshot"), Some("snapshot"), Some("report"),
            Some(Approval("candidate", "report", "target", "contract", "snapshot")), map[L1 := Artifact(L1), L2 := Artifact(L2)],
            Routing(false, {L1, L2}, map[], 10, Some(1), None), StableStatus)

  const ANY: Contract := Contract("contract", (p: Payload) => Some(p), (p: Payload) => Some(p), (p: Payload) => p)

  /** The first layer abstains and the second accepts, each when its time is up. */
  function SlowWorld(health: Layer -> bool): World {
    World(health,
          (worker: Package, input: Payload, timeout: int) => if worker.layer == L1 then Abstains(None, None) else Accepts("answer", None, None),
          (worker: Package, input: Payload, timeout: int) => Allowance(timeout),
          (input: Payload, timeout: int) => L4Output("answer"),
          (input: Payload, timeout: int) => 0.0,
          (input: Payload, timeout: int) => NOTHING,
          (layer: Option<Layer>, again: bool) => 0.0)
  }

  lemma FirstTurn(world: World)
    requires world == SlowWorld((layer: Layer) => true)
    ensures var r := RouteLayers(CandidateOf(TWO_LAYERS), ANY, "input", world, 1);
            !Stopped(r) && r.elapsed == 10.0
  {
    assert LAYERS[0] == L1;
    assert RouteLayers(CandidateOf(TWO_LAYERS), ANY, "input", world, 0) == START;
  }

  lemma SecondAccepts(world: World, r: Route)
    requires world == SlowWorld((layer: Layer) => true)
    ensures RouteLayer(CandidateOf(TWO_LAYERS), ANY, "input", world, r, L2).chosen == Some(L2)
  {
    assert RunLayerAttempt(Artifact(L2), ANY, Accepts("answer", None, None), L2)
        == Some(Attempt(L2, Artifact(L2).artifactId, Accept, Some("answer"), NoReason, None));
  }

  lemma SecondTurn(world: World)
    requires world == SlowWorld((layer: Layer) => true)
    ensures RouteLayers(CandidateOf(TWO_LAYERS), ANY, "input", world, |LAYERS|).chosen == Some(L2)
  {
    FirstTurn(world);
    SecondAccepts(world, RouteLayers(CandidateOf(TWO_LAYERS), ANY, "input", world, 1));
    assert LAYERS[1] == L2;
    RouteStops(CandidateOf(TWO_LAYERS), ANY, "input", world, 2, |LAYERS|);
  }

  lemma SecondIsLate(world: World)
    requires world == SlowWorld((layer: Layer) => true)
    ensures Late(TWO_LAYERS, ANY, "input", world)
  {
    FirstTurn(world);
    assert LAYERS[1] == L2 && L2 in TWO_LAYERS.routing.enabledLayers;
    assert LateAt(TWO_LAYERS, ANY, "input", world, 1);
    assert LateBefore(TWO_LAYERS, ANY, "input", world, |LAYERS|);
  }

  lemma ArtifactsDiffer()
    ensures Artifact(L1).artifactId != Artifact(L2).artifactId
    ensures PoolFaithful(TWO_LAYERS, map[])
  {
    assert Artifact(L1).artifactId[0] != Artifact(L2).artifactId[0];
  }

  /** Evaluation gives the second layer one millisecond past the deadline and takes its answer; serving, under the
      same conditions, cuts the route off. */
  lemma EvaluationOutlastsTheDeadline()
    ensures var world := SlowWorld((layer: Layer) => true);
            && RouteLayers(CandidateOf(TWO_LAYERS), ANY, "input", world, |LAYERS|).chosen == Some(L2)
            && PrepareAndRun(TWO_LAYERS, ANY, "input", 10, world, map[], map[]).1.end == DeadlineHit
  {
    var world := SlowWorld((layer: Layer) => true);
    var s := Setting(world, map[], map[]);
    SecondTurn(world);
    SecondIsLate(world);
    ArtifactsDiffer();
    assert SameConditions(TWO_LAYERS, world, s);
    LateIsCutOff(TWO_LAYERS, ANY, "input", world, s);
  }

  lemma LateIsCutOff(release: Release, contract: Contract, input: Payload, offline: World, s: Setting)
    requires SameConditions(release, offline, s) && Late(release, contract, input, offline)
    ensures PrepareAndRun(release, contract, input, release.routing.totalDeadlineMs, s.world, s.breakers, s.pool).1.end == DeadlineHit
  {
    EvaluationPredictsServing(release, contract, input, offline, s);
  }

  /** With an unhealthy first layer, the first request of all opens its circuit and is skipped by it. */
  lemma OpenedAndSkippedAtOnce()
    ensures var world := SlowWorld((layer: Layer) => layer != L1);
            Events(PrepareAndRun(TWO_LAYERS, ANY, "input", 10, world, map[], map[]).1.attempts, L1) == [Failed, Skipped]
  {
    var world := SlowWorld((layer: Layer) => layer != L1);
    AtMostOneOutcomePerLayer(TWO_LAYERS, ANY, "input", 10, world, map[], map[], L1);
  }
}
