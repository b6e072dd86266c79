/** Values shared by the registry, the serving runtime, evaluation and release decisions. */
module Domain {
  import opened Wrappers

  /** The three local layers, tried in this order; L4 is the reference model behind them. */
  datatype Layer = L1 | L2 | L3

  const LAYERS: seq<Layer> := [L1, L2, L3]

  /** Inputs and outputs are opaque JSON objects to the runtime. */
  type Payload = string

  /** Identifiers come from `new_id` and are never the empty string. */
  type ReleaseId = s: string | s != "" witness "release"

  datatype Package = Package(
    artifactId: string,
    layer: Layer,
    timeoutMs: int,
    contractHash: string,
    snapshotDigest: string)

  datatype Routing = Routing(
    cacheEnabled: bool,
    enabledLayers: set<Layer>,
    layerTimeoutMs: map<Layer, int>,
    totalDeadlineMs: int,
    failureThreshold: Option<int>,
    cooldownRequests: Option<int>)

  datatype Approval = Approval(
    candidateId: string,
    reportId: string,
    targetName: string,
    contractHash: string,
    snapshotId: string)

  datatype Status = Created | ShadowStatus | CanaryStatus | StableStatus | RolledBack | Retired

  datatype Release = Release(
    releaseId: ReleaseId,
    targetName: string,
    contractHash: string,
    candidateId: Option<string>,
    snapshotId: Option<string>,
    snapshotDigest: Option<string>,
    reportId: Option<string>,
    approval: Option<Approval>,
    artifacts: map<Layer, Package>,
    routing: Routing,
    status: Status)

  /** A layer the release can serve from: enabled in the routing and carrying an artifact. */
  predicate ActiveLayer(release: Release, layer: Layer) {
    layer in release.routing.enabledLayers && layer in release.artifacts
  }

  /** A per-layer timeout that is missing or zero falls back to the artifact's own. */
  function LayerTimeout(routing: Routing, layer: Layer, package: Package): int {
    if layer in routing.layerTimeoutMs && routing.layerTimeoutMs[layer] != 0
    then routing.layerTimeoutMs[layer]
    else package.timeoutMs
  }

  function Min(a: int, b: int): int { if a <= b then a else b }

  function Max(a: int, b: int): int { if a >= b then a else b }
}
