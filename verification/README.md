# Darjeeling: a verified model of serving, snapshots, the compile loop and release decisions

Darjeeling compiles a slow reference model ("L4") into local artifacts (layers L1 to L3), serves requests through
them, and recompiles from what it served. These Dafny modules model the four state machines that keep the local
artifacts honest, and prove what the repository promises of them over every input, run and reachable state.

| part | modules |
|---|---|
| releases and channels | `Registry`, `RegistryExamples` |
| serving | `CircuitBreaker`, `Cascade`, `CascadeProperties`, `LayerEvents`, `Serving`, `ServingRuns` |
| traces and metric windows | `Traces`, `TraceMetrics`, `WindowDetails`, `WindowExamples`, `Percentile`, `Drift` |
| offline evaluation and release decisions | `CandidateFreeze`, `Evaluation`, `EvaluationRefinement`, `EvaluationRuns`, `ServingExamples`, `Generalization`, `ReleaseDecision` |
| snapshots and holdout rows | `SnapshotPipeline`, `Snapshot`, `SnapshotProperties`, `SnapshotConservation`, `SnapshotPlans`, `SnapshotOrder`, `SnapshotRuns` |
| compile loop | `UsageLedger`, `CompileLoop`, `CompileLoopProperties`, `UsageExamples` |
| telemetry | `Telemetry`, `TelemetryProperties` |

`Domain`, `Wrappers`, `Costs`, `Sequences` and `Counting` hold shared values and a few facts about sequences and counts.

## How the program is modelled

- Objects whose methods change fields are classes (`ReleaseRegistry`, `CircuitBreakers`, `WorkerPool`, `ResultCache`,
  `TraceLog`, the compile loop's `Loop`), and loops are loops. Each method is proved equal to a function of the old
  state; the theorems are then about those functions and about whole runs of them.
- What the program cannot decide is an argument: a worker's or L4's answer and duration, each pause of the runtime,
  the clock, the usage file the agent left, which submissions are ready, which artifact files still match their
  digest, the random numbers of a seed. The theorems hold for all of them.
- Contract callables are deterministic functions. `stable_hash` is injective where an order or a key depends on it.
- Rates and elapsed times are `real`. Numbers that come from outside are what floating point makes of them: what the
  agent and the reference model say something cost may be infinite or no number, a confidence may be beyond range, and
  a traffic share may be anything. Millisecond timeouts and counts are `int`, with the source's floor.
- An exception is `None`, an `Err`, or a run that ends there; one that ends a compile run is the reason `Crash`. A
  compile run may be cut short after any write to disk.

## What the proofs found

- **Promotion can stop serving.** A release has one status but may be named by two channels. Promoting the canary
  release to stable leaves the canary channel naming a release whose status no longer matches, and selection then
  fails for every request (`RegistryExamples.PromotingTheCanaryStopsServing`). `Registry.PromotionKeepsServing` gives
  the exact condition.
- **A traffic share that is no number stops serving.** Promotion stores a canary's options unread; a share that `float`
  does not take makes selection fail for every request (`RegistryExamples.UnreadableShareStopsServing`). These two
  promotions, and retiring a release that a serving channel names, are all that stops a served target
  (`Registry.ServingStopsExactly`).
- **One confidence can stop a metric window.** Workers may send any number as a confidence. One that is NaN, infinite or
  so great that ten times it is infinite is served and traced as usual, but every window that holds its trace raises
  (`WindowExamples.OneConfidenceStopsTheWindow`). Nothing else about a served trace does
  (`ServingRuns.MetricsAcceptEveryServedTrace` is an iff), and evaluation does not notice.
- **A reply that raises is never counted against its layer.** An integer confidence that no float can hold raises where
  the reply is parsed. The request then ends in an exception without asking L4 and leaves no event at the layer, while
  every other call leaves one (`LayerEvents.CallIsCountedUnlessItRaises`), so the circuit never opens
  (`LayerEvents.RaisingWorkerIsNeverCounted`). The same reply ends an evaluation without a result.
- **One event of the usage file decides what all of it counts.** NaN as a cost makes the file's cost undefined, and it is
  never kept (`UsageExamples.OneUndefinedCostHidesTheFile`). An infinite cost is kept for good
  (`UsageExamples.AnInfiniteCostIsKept`): every later run with a budget stops before it starts anything
  (`CompileLoopProperties.NothingStartsOverBudget`), and without a budget every candidate that saves costs fails, because
  its payback cannot be computed. An integer that no float can hold raises: outside an evaluation it ends the run
  (`UsageExamples.OneOversizedCostEndsTheRun`), inside it fails the submission, which is then never looked at again
  (`UsageExamples.OneOversizedCostFailsTheSubmission`). `UsageLedger.FileMovesKeptCostIff` says which files count.
- **One undefined cost ends the cost budget of labelling.** A provider may report NaN in a response header; from then on
  the total is NaN and never over any budget (`SnapshotPipeline.UndefinedCostEndsTheCostBudget`).
- **Promoting the stable release again loses the rollback target.** It changes no channel, but overwrites the previous
  entry with the release itself, so a later rollback stays where it is
  (`RegistryExamples.RepromotionLosesTheRollbackTarget`, and `Registry.RollbackUndoesSetChannel` for all cases).
- **A health check can open a circuit that the same request then skips.** One request can add two events at a layer, a
  failure and a skip that counts towards the cooldown. `LayerEvents.AtMostOneOutcomePerLayer` says exactly when, and
  `ServingExamples.OpenedAndSkippedAtOnce` shows it on a first request.
- **Evaluation does not cut off at the deadline.** It predicts serving exactly until a route overruns the deadline
  (`EvaluationRefinement.EvaluationPredictsServing`, with an input in `ServingExamples.EvaluationOutlastsTheDeadline`).
- **The two-stage verdict differs from the direct one** only when a required measure is undefined
  (`Generalization.TwoStageNeverWeaker`). Without a validation report a required measure turns a failure into
  "insufficient" (`Generalization.MissingValidationHidesFailure`, `Generalization.WrongAcceptHidden`).
- **A critical slice that accepts nothing escapes the bound on critical precision**, as long as another critical slice
  accepts (`ReleaseDecision.CriticalMeansEverySlice`, `ReleaseDecision.SilentSliceEscapes`).
- **An artifact whose candidate passes the manifest check never crosses snapshots.** Inherited from a base release of
  another snapshot it fails the creation of the release; declared again with the same contents it fails that check
  (`CandidateFreeze.NoArtifactCrossesSnapshots`). So a candidate on such a base must change every layer the base has.
- **Creation leaves two checks to loading**: that artifacts are filed under their own layers and carry the contract
  (`ReleaseDecision.CreatedReleaseIsAtomic`). A candidate that was frozen, or whose manifest was checked, always meets
  them (`CandidateFreeze.FrozenCandidateLoads`); only one made by hand does not.
- **The order of source records can show in a split plan**, but only through the contract's split group of merged
  duplicates, which is computed from whichever duplicate came first (`SnapshotOrder.PlanIgnoresOrderIffGroupingDoes`,
  with an input in `SnapshotOrder.OrderCanShow`). **It also shows in a merging error**, which names the first of
  several conflicting inputs (`SnapshotOrder.MergingErrorIgnoresOrderIff`, `SnapshotOrder.ErrorFollowsTheOrder`).

## Model

| member | source | states |
|---|---|---|
| Registry.ReleaseRegistry.SetChannel | src/darjeeling/release_runtime.py:294-324 | Succeeds exactly for a loadable release of the target that agrees with every other channel's contract; then the channel, its previous entry, its options and the status change, and nothing else; a refused call changes nothing. |
| Registry.ReleaseRegistry.RollbackRelease | src/darjeeling/release_runtime.py:1158-1174 | Returns the stable channel to its previous release, if that one is still active, and marks the current one rolled back; a refused call changes nothing. |
| Registry.ReleaseRegistry.RetireRelease | src/darjeeling/release_runtime.py:1177-1180 | Marks a loadable release retired and touches nothing else. |
| Registry.PromotedReleaseIsCompatible | src/darjeeling/release_runtime.py:300-311 | Whatever the channel check lets in carries the contract that all the target's channels already name. |
| Registry.ContractNeverChanges | src/darjeeling/release_runtime.py:294-350 | From a target's first channel on, no sequence of operations changes its contract: all current and previous entries keep naming registered releases of the target with it. |
| Registry.SelectedReleaseKeepsTheContract | src/darjeeling/release_runtime.py:327-350 | In every reachable registry the target's channels agree on one contract, and releases selected before and after any further run have it. |
| Registry.RollbackIsIdempotent | src/darjeeling/release_runtime.py:1158-1174 | A successful rollback leaves the stable channel on a release with status stable, and repeating it changes nothing, though current and previous are then the same release. |
| Registry.RollbackUndoesSetChannel | src/darjeeling/release_runtime.py:312-318 | Rolling back the latest stable promotion succeeds exactly when the channel already named that release or left a release that is active. The channels are then as before; only the promoted release is marked, rolled back in the one case and stable in the other. |
| Registry.RepromotionRollsBack | src/darjeeling/release_runtime.py:1158-1174 | After promoting again what stable already names, previous and current are that release: a rollback always succeeds, moves nothing, makes the release stable and forgets the earlier target. |
| Registry.PromotionKeepsServing | src/darjeeling/release_runtime.py:327-350 | A promotion leaves a servable target served for requests of every bucket, or for none: for none exactly when another serving channel names the promoted release, or the channel is the canary and its traffic share is no number. |
| Registry.RollbackKeepsServing | src/darjeeling/release_runtime.py:1158-1174 | A successful rollback leaves a served target served. |
| Registry.RetirementStopsServing | src/darjeeling/release_runtime.py:1177-1180 | Retiring a release stops a served target iff its stable or canary channel names the release. |
| Registry.ServingStopsExactly | src/darjeeling/release_runtime.py:327-350 | Of all operations on a registry that a run reached, on any target, just three stop a served target: promoting a release that another of its serving channels names, promoting a canary whose traffic share is no number, and retiring a release that a serving channel names. |
| RegistryExamples.PromotingTheCanaryStopsServing | src/darjeeling/release_runtime.py:327-350 | Two releases, one stable and one canary, are served; once the canary is promoted to stable no request is. |
| RegistryExamples.UnreadableShareStopsServing | src/darjeeling/release_runtime.py:337-348 | A new release becomes the canary with a share given as a word: the promotion succeeds, no other channel names the release, and no request is served any more. |
| RegistryExamples.BothAreReached | src/darjeeling/release_runtime.py:294-324 | The registries of both examples are reached by registering and promoting two releases. |
| RegistryExamples.RepromotionLosesTheRollbackTarget | src/darjeeling/release_runtime.py:1158-1174 | A rollback would return to the first release; promoting the second once more changes no channel and no status, and the rollback then stays on the second. |
| CircuitBreaker.CircuitBreakers.IsLayerCircuitOpen | src/darjeeling/release_runtime.py:433-453 | Whether the layer is skipped, and how an arrival or a look without arrival changes the record. |
| CircuitBreaker.CircuitBreakers.UpdateCircuitBreaker | src/darjeeling/release_runtime.py:456-496 | A success closes the circuit; a failure counts, and opens it at the threshold with a full cooldown. |
| CircuitBreaker.RecordIsFunctionOfHistory | src/darjeeling/release_runtime.py:422-496 | The record is read off the layer's history: closed with its trailing failures, below the threshold, or open with exactly the threshold and between one and `cooldown` skips to go. |
| CircuitBreaker.ExactlyCooldownSkips | src/darjeeling/release_runtime.py:433-453 | Once a failure run reaches the threshold exactly the next `cooldown` arrivals are skipped. |
| CircuitBreaker.SkipsFollowThresholdFailures | src/darjeeling/release_runtime.py:433-496 | Conversely every skip lies within `cooldown` arrivals of a failure run that reached the threshold. |
| Cascade.PrepareWorkersForServing | src/darjeeling/release_runtime.py:520-567 | Preparation layer by layer: circuits are looked at but not worn down, an unhealthy layer leaves a failed attempt and an updated circuit, a healthy one a worker, pooled by artifact. |
| Cascade.RunCascade | src/darjeeling/release_runtime.py:695-797 | The layers in order under what remains of the deadline, then L4: attempts, circuits, calls with their timeouts, elapsed time and end. |
| Cascade.CallL4Fallback | src/darjeeling/release_runtime.py:585-668 | L4 is called only with time remaining, with all of it as timeout, and its answer, failure or silence decides the end. |
| CascadeProperties.CallsWithinDeadline | src/darjeeling/release_runtime.py:671-758 | For all timeouts, durations and pauses: a call starts only while whole milliseconds remain, and gets no more than those. |
| CascadeProperties.CascadeEndsInTime | src/darjeeling/release_runtime.py:695-797 | If calls keep to their timeouts and nothing else takes time, the whole chain ends strictly before the deadline plus one millisecond, exactly when the deadline is not negative. |
| CascadeProperties.CascadeFits | src/darjeeling/release_runtime.py:695-797 | A cascade accepts exactly one attempt when a local layer answers and none otherwise, and every attempt is for a layer the release serves from, with its artifact. |
| LayerEvents.AtMostOneOutcomePerLayer | src/darjeeling/release_runtime.py:520-752 | One request records at a layer nothing, one event, or a failed health check and a skip; the pair exactly when the layer serves, its circuit is closed, its worker is unhealthy, this failure reaches the threshold, and the cascade still arrives there undecided and in time. |
| LayerEvents.CallIsCountedUnlessItRaises | src/darjeeling/release_runtime.py:732-742 | Whenever a cascade calls a layer, the layer's events stay as they were iff that reply raises, which ends the cascade without L4, and otherwise grow by one that is no skip. |
| LayerEvents.RaisingWorkerIsNeverCounted | src/darjeeling/release_runtime.py:732-742 | A healthy layer with a closed circuit whose worker's replies raise: every request that calls it ends in an exception without L4, and its circuit and events do not change. |
| ServingExamples.OpenedAndSkippedAtOnce | src/darjeeling/release_runtime.py:520-752 | With a threshold of one and an unhealthy first layer the first request records the failure and the skip. |
| Serving.AttendRequest | src/darjeeling/release_runtime.py:854-906 | Contract check, cache lookup, preparation, cascade and cache write of one request, on the shared circuits, pool and cache. |
| Serving.ServeRequest | src/darjeeling/release_runtime.py:833-985 | The whole request: selection, answer or error, and which traces are written, including the second trace after an exception. |
| ServingRuns.EveryRunKeepsTheInvariants | src/darjeeling/release_runtime.py:294-985 | After any interleaving of registry operations and requests: one contract per target, circuit keys and traces only for artifacts the release has, a pool keyed by artifact, circuits that match their histories, and cache entries with a known writer. |
| ServingRuns.MetricsAcceptEveryServedTrace | src/darjeeling/runtime_trace_metrics.py:144-256 | After any run the metric window of a release, with any audits of its scope, is computed iff no attempt in it has a confidence whose tenfold is not finite; it then takes every trace, its coverages, attempts and audits add up, and cache, local, L4 and unanswered requests make up all. |
| ServingRuns.CircuitIsFunctionOfHistory | src/darjeeling/release_runtime.py:422-752 | After any run each circuit is the one determined by what happened at its layer, over all requests. |
| ServingRuns.EveryOpeningSkipsExactlyCooldown | src/darjeeling/release_runtime.py:531-742 | After any run, each time failures reach the threshold the layer's next `cooldown` arrivals, and no more, are skipped. |
| ServingRuns.HitsReturnTheFirstOkMiss | src/darjeeling/release_runtime.py:353-394 | After any run every hit has exactly one earlier ok miss of its key; it asked the same release the same question under the same contract and reference version, and the hit returns its output, revalidated. |
| ServingRuns.KeysAreWrittenOnce | src/darjeeling/release_runtime.py:382-394 | Over any run a key is written at most once. |
| TraceMetrics.AggregateRuntimeMetrics | src/darjeeling/runtime_trace_metrics.py:144-256 | The loops compute the window of the traces in time: counts, coverages, attempt outcomes, latency, cost, errors, reasons, confidences, metadata and audits, or nothing when a trace or audit is out of scope or a confidence's tenfold is not finite. |
| TraceMetrics.WindowAcceptsServedTraces | src/darjeeling/runtime_trace_metrics.py:154-229 | A window over traces whose attempts fit the release and audits of its scope is computed iff no confidence in it is beyond range, and then its counts, coverages, attempts and audits add up. |
| WindowExamples.OneConfidenceStopsTheWindow | src/darjeeling/runtime_trace_metrics.py:196-198 | A run of two layers: the first abstains with such a confidence, the second answers; the one trace says so, and its window cannot be computed. |
| WindowDetails.TalliesCount | src/darjeeling/runtime_trace_metrics.py:178-205 | There are tallies iff no confidence is beyond range; each error, reason and tenth of confidence is then counted as often as it occurs over all traces and their attempts. |
| WindowDetails.MetadataCounts | src/darjeeling/runtime_trace_metrics.py:178-205 | Each metadata bucket is counted once for each trace that carries it. |
| WindowDetails.AuditsAddUp | src/darjeeling/runtime_trace_metrics.py:206-256 | Evaluable random audits are right or wrong and among those that succeeded, failures are apart from successes, and precision and wrong estimate are complements. |
| Percentile.PercentileIsLeastCover | src/darjeeling/runtime_trace_metrics.py:136-141 | For all values and quantiles: zero for no values, otherwise the least value that at least the asked share of them does not exceed; below zero and above one that is the least and the greatest value. |
| Drift.DistributionDistance | src/darjeeling/runtime_trace_metrics.py:429-445 | The loop computes half the sum of absolute share differences, in whatever order the keys come. |
| Drift.DistanceBounds | src/darjeeling/runtime_trace_metrics.py:429-445 | On distributions it lies in [0, 1], is 0 iff all shares agree and 1 iff supports are disjoint. |
| Drift.DistanceIsSymmetric | src/darjeeling/runtime_trace_metrics.py:429-445 | The two sides can be exchanged. |
| Drift.TriangleInequality | src/darjeeling/runtime_trace_metrics.py:429-445 | It satisfies the triangle inequality. |
| Drift.EmptySideIsHalf | src/darjeeling/runtime_trace_metrics.py:429-445 | Against an empty side it is exactly one half. |
| Evaluation.RunLayersForRecord | src/darjeeling/candidate_evaluation.py:388-429 | The offline route of one record: the calls with their timeouts, the attempts, and the layer that answers or the reply that raises. |
| Evaluation.EvaluateFullCascade | src/darjeeling/candidate_evaluation.py:491-552 | One row per planned record, in order, with its answer, fallback, cost, latency and correctness, and the totals; nothing when a record raises. |
| Evaluation.EvaluationAddsUp | src/darjeeling/candidate_evaluation.py:491-552 | An evaluation with a result answers each record once, locally or by a fallback that is charged for it; accepted and fallback rows make up all, and cost and latency are the sums over the fallbacks. |
| EvaluationRefinement.EvaluationPredictsServing | src/darjeeling/candidate_evaluation.py:388-551 | With healthy workers, no open circuit and equal answers, serving makes the same calls with the same timeouts, takes the same layer and output as evaluation, "none" being L4, and raises on the same reply, unless the route overruns the deadline, which is when serving reports it. |
| ServingExamples.EvaluationOutlastsTheDeadline | src/darjeeling/candidate_evaluation.py:388-429 | Two slow layers and a short deadline: evaluation takes the second layer's answer, serving reports the deadline. |
| EvaluationRefinement.CoveragePredictsServedFractions | src/darjeeling/candidate_evaluation.py:865-885 | Under conditions that hold before each request, the evaluation of records that neither overrun the deadline nor raise succeeds, and its coverage and fallback share are the fractions that serving answers locally and sends to L4, in any order. |
| EvaluationRuns.CoveragePredictsTheRun | src/darjeeling/candidate_evaluation.py:865-885 | The same for the requests of any run of the serving runtime that finds the release ready, with the cache off, and whose workers only accept or abstain. |
| EvaluationRuns.RunGoesAsEvaluated | src/darjeeling/release_runtime.py:833-985 | In such a run every request ends with the layer, output and attempts of its record's offline route, or goes on to L4; closed circuits and a faithful pool are kept from request to request. |
| EvaluationRuns.WindowReportsTheEvaluation | src/darjeeling/runtime_trace_metrics.py:207-229 | The metric window that encloses such a run, when it can be computed, reports the evaluated coverage as its local coverage and the evaluated fallback share as its L4 rate. |
| Generalization.ComputeSliceResults | src/darjeeling/candidate_evaluation.py:920-950 | Per slice tag the samples, the accepted and the correctly accepted ones. |
| Generalization.SlicesCountTheRows | src/darjeeling/candidate_evaluation.py:920-950 | The slices are exactly the tags that occur, and their three counts are those of the rows that carry the tag. |
| Generalization.SliceCheckMeans | src/darjeeling/candidate_evaluation.py:977-986 | The slice check passes iff no minimum is set, or there are slices and each reaches it. |
| Generalization.TwoStageVerdict | src/darjeeling/candidate_evaluation.py:1948-1981 | For all bounds the two-stage summary is the direct one, with its verdict raised exactly when a required measure is undefined or the test fails against itself, which bounds in [0, 1] rule out. |
| Generalization.TwoStageNeverWeaker | src/darjeeling/candidate_evaluation.py:1551-1558 | For bounds in [0, 1] the two agree on everything except that an undefined required measure makes the verdict at least "insufficient". |
| Generalization.MissingValidationHidesFailure | src/darjeeling/candidate_evaluation.py:1551-1570 | Without a validation report the verdict is weaker than the test's own exactly when a transfer measure is required and the test fails. |
| Generalization.WrongAcceptHidden | src/darjeeling/candidate_evaluation.py:1551-1570 | One wrong accept under a bound on the precision drop: the test alone fails, without a validation report it is only insufficient. |
| ReleaseDecision.CompareCandidates | src/darjeeling/candidate_evaluation.py:1747-1892 | The selection loop: test reports, those that pass, the best of them, and the decision with its blockers. |
| ReleaseDecision.EligibleIffSomeTestPasses | src/darjeeling/candidate_evaluation.py:1839-1892 | A decision is eligible iff some test report passes every check; it then names one that no passing report beats on the objective. |
| ReleaseDecision.PassingMeetsTheRequirements | src/darjeeling/candidate_evaluation.py:1064-1251 | A report passes iff it meets every bound that is set (without bounds: some accepts, none wrong), strictly beats its baseline on the objective, and survives its faults. |
| ReleaseDecision.PassingHasAccepted | src/darjeeling/candidate_evaluation.py:1710-1732 | With metrics computed from evaluated rows, whatever passes has accepted something, and its precision bound is met by a defined lower bound. |
| ReleaseDecision.CriticalMeansEverySlice | src/darjeeling/candidate_evaluation.py:1204-1248 | The check of the cohort floor, which holds only minima, is that of every critical slice, except that one without accepts escapes the precision bound. |
| ReleaseDecision.SilentSliceEscapes | src/darjeeling/candidate_evaluation.py:1012-1023 | Two critical slices and a precision bound of one: the slice without accepts passes. |
| ReleaseDecision.NextReleaseCoversMore | src/darjeeling/candidate_evaluation.py:1895-1934 | A release created on a compiled one, through comparison, finalising and creation, covers strictly more. |
| ReleaseDecision.ReleasedReportStillPasses | src/darjeeling/candidate_evaluation.py:1895-1934 | Finalising keeps the verdict and measures, so the report that a release carries still passes every check it was selected by. |
| ReleaseDecision.CoverageStrictlyIncreases | src/darjeeling/candidate_evaluation.py:1839-1934 | Along any chain of compiled releases, each created on the one before it under the coverage objective, test coverage strictly increases. |
| ReleaseDecision.CreatedReleaseIsAtomic | src/darjeeling/release_runtime.py:127-213 | A created release loads back if and only if its artifacts are filed under their own layers and carry its contract, the two checks that creation leaves to loading. |
| CandidateFreeze.FreezeCandidate | src/darjeeling/candidate_evaluation.py:163-182 | The base's artifacts with the declared layers frozen in their place, or nothing when a directory is refused. |
| CandidateFreeze.FrozenCandidateLoads | src/darjeeling/candidate_evaluation.py:241-244 | Every frozen candidate, and every one whose manifest passes, has its artifacts filed, so a release created from it loads back. |
| CandidateFreeze.ForeignArtifactsAreInherited | src/darjeeling/candidate_evaluation.py:175-182 | A frozen candidate holds an artifact of another snapshot iff its base is of another snapshot and has a layer that it does not declare. |
| CandidateFreeze.NoArtifactCrossesSnapshots | src/darjeeling/release_runtime.py:190-194 | With a candidate whose manifest passes, no release carries an artifact over from a base of another snapshot. |
| Snapshot.IntersectSplitEligibility | src/darjeeling/snapshot_reference.py:455-466 | The known roles that all lists allow, in their fixed order. |
| Snapshot.DeduplicateRecords | src/darjeeling/snapshot_reference.py:469-500 | One merged record for each group of duplicates that agrees, in order of first sight, or the first conflict. |
| Snapshot.BuildSplitPlan | src/darjeeling/snapshot_reference.py:512-556 | The plan over the sorted groups: who is left out, who draws a roll, which split results, or the first group without one. |
| Snapshot.MaterializeSnapshotRecords | src/darjeeling/snapshot_reference.py:559-600 | The records of planned groups, in order, or the first without reference or provenance. |
| Snapshot.WriteSnapshot | src/darjeeling/snapshot_reference.py:603-655 | The three splits, in order, and their counts. |
| Snapshot.BuildSnapshot | src/darjeeling/snapshot_reference.py:697-700 | The passes from labelled records to a snapshot, and the first error. |
| SnapshotPipeline.ValidateSourceRecords | src/darjeeling/snapshot_reference.py:226-252 | The validated records in order, or the first invalid one. |
| SnapshotPipeline.ValidationIsExact | src/darjeeling/snapshot_reference.py:226-252 | Validation succeeds iff every record is valid, and then replaces input and reference by what the validators return. |
| SnapshotPipeline.QualifyReferenceBaseline | src/darjeeling/snapshot_reference.py:376-452 | The comparison loop's tally and its judgement, or nothing when the broker is exhausted. |
| SnapshotPipeline.TallyCounts | src/darjeeling/snapshot_reference.py:383-412 | Every record with a reference is a sample, gold samples are those of gold or human origin, and outcomes never exceed the samples. |
| SnapshotPipeline.ReferenceMissingOutputs | src/darjeeling/snapshot_reference.py:320-373 | The labelling loop: which records get a label, which fail, the calls, the cost, and the first limit met. |
| SnapshotPipeline.LabellingStaysInBudget | src/darjeeling/snapshot_reference.py:320-373 | One call for each record without a reference, within the budget of calls, and within that of cost unless the cost is undefined. |
| SnapshotPipeline.UndefinedCostEndsTheCostBudget | src/darjeeling/snapshot_reference.py:343-347 | After one call of undefined cost labelling never stops for its cost, whatever the others cost. |
| SnapshotPipeline.LabellingIsExact | src/darjeeling/snapshot_reference.py:320-373 | Labelling without failures keeps every record in order, and adds a reference, with its source, only where there was none. |
| SnapshotPipeline.BuildFromSources | src/darjeeling/snapshot_reference.py:668-700 | The whole build from source records, and the first error of any of its passes. |
| SnapshotPipeline.SnapshotsAreQualified | src/darjeeling/snapshot_reference.py:676-682 | A snapshot is only built when every sampled rate is within its bound, and with too few samples only where that is allowed. |
| SnapshotPipeline.SourcesPermitTheirSplits | src/darjeeling/snapshot_reference.py:668-700 | In every snapshot built from sources, a row with a source's normalized input lies in a split that the source itself allowed. |
| SnapshotPipeline.SourcesAreAllListed | src/darjeeling/snapshot_reference.py:668-700 | In "fail" mode each source identifier is listed in the built snapshot's records as often as it was given. |
| SnapshotProperties.SnapshotIsIsolated | src/darjeeling/snapshot_reference.py:469-655 | No normalized key occurs twice in a snapshot and no split group lies in two splits. |
| SnapshotProperties.SplitsArePermitted | src/darjeeling/snapshot_reference.py:528-566 | Each row's split was allowed by every source record merged into any record of the row's group. |
| SnapshotProperties.SplitFollowsTheRoll | src/darjeeling/snapshot_reference.py:534-555 | A group gets the split its roll asks for when that is legal, otherwise the first legal one, and none only when no split is legal. |
| SnapshotProperties.ConsumedNeverHidden | src/darjeeling/snapshot_reference.py:518-545 | No validation or test row shares its normalized key or group with a row consumed before the build. |
| SnapshotConservation.DuplicatesPartitionTheInput | src/darjeeling/snapshot_reference.py:474-500 | Each input identifier is listed as a duplicate as often as it was given, or lies in a conflicting group; in "fail" mode the lists partition the input. |
| SnapshotConservation.EachIdInOneList | src/darjeeling/snapshot_reference.py:489-492 | In "fail" mode an identifier given once is listed by exactly one merged record. |
| SnapshotConservation.SplitsConserveRecords | src/darjeeling/snapshot_reference.py:616-651 | The splits hold each materialised record once, the counts add up, and in "fail" mode every merged record is there. |
| SnapshotPlans.PlanIgnoresOrder | src/darjeeling/snapshot_reference.py:503-556 | The plan, or its error, is the same for every order, and repetition, of the grouped records. |
| SnapshotPlans.OneMoreManifestMovesOnlyTouched | src/darjeeling/snapshot_reference.py:518-556 | One manifest more moves exactly the groups it touches, to train; all others keep their split. |
| SnapshotPlans.OneMoreManifestSucceeds | src/darjeeling/snapshot_reference.py:534-546 | A plan that succeeds still does with one manifest more iff every touched group may be trained on. |
| SnapshotOrder.PlanIgnoresOrderIffGroupingDoes | src/darjeeling/snapshot_reference.py:469-556 | From source records with at most one conflict to plan or error, order is irrelevant iff the contract's split group of merged duplicates ignores which comes first. |
| SnapshotOrder.PlanForIgnoresOrder | src/darjeeling/snapshot_reference.py:469-556 | Whether merging succeeds never depends on the order. For contracts whose split group ignores it neither does planning's success, nor, unless several inputs conflict, the plan or error itself. |
| SnapshotOrder.MergingErrorIgnoresOrderIff | src/darjeeling/snapshot_reference.py:474-484 | A merging error is the same for every order iff at most one input conflicts. |
| SnapshotOrder.ErrorFollowsTheOrder | src/darjeeling/snapshot_reference.py:474-484 | Two inputs with two references each: the error names the one that comes first. |
| SnapshotOrder.OrderCanShow | src/darjeeling/snapshot_reference.py:488-500 | Two spellings of one input, grouped by spelling, give two different plans in the two orders. |
| SnapshotRuns.ManifestNamesItsRows | src/darjeeling/snapshot_reference.py:833-864 | Rows are consumed exactly when they are holdout rows shown to a known audience, and the manifest names their keys. |
| SnapshotRuns.ConsumedNeverReturns | src/darjeeling/snapshot_reference.py:518-545 | In any sequence of builds and consumptions, no later holdout row shares a normalized key or split group with a consumed row. |
| SnapshotRuns.EverySnapshotIsIsolated | src/darjeeling/snapshot_reference.py:658-700 | Every snapshot of such a sequence is isolated. |
| UsageLedger.ReadAgentUsageLedger | src/darjeeling/compile_orchestration.py:602-636 | What a usage file says: an exception when it is nested too deep or an event's cost is an integer that no float can hold, nothing when malformed, no events when missing, else the events with a cost that is not negative, which may be infinite or undefined. |
| UsageLedger.KeptCostIsRunningMaximum | src/darjeeling/compile_orchestration.py:662-672 | Over any files the kept cost is the running maximum of those that can be read and whose cost is defined; the others change nothing. |
| UsageLedger.FileMovesKeptCostIff | src/darjeeling/compile_orchestration.py:602-672 | A file moves the kept cost iff that is finite, the file is a list, no event has NaN or an oversized integer as its cost, and one is infinite or the finite ones that are not negative sum to more. |
| UsageExamples.OneUndefinedCostHidesTheFile | src/darjeeling/compile_orchestration.py:602-672 | A file with a cost of five is kept; with one more event that costs NaN it is not. |
| UsageExamples.AnInfiniteCostIsKept | src/darjeeling/compile_orchestration.py:662-672 | A file with an infinite cost is kept, and no file is kept in its place. |
| UsageExamples.OneOversizedCostEndsTheRun | src/darjeeling/compile_orchestration.py:1033-1078 | A run whose first reading meets an oversized cost ends in the exception, with nothing started and nothing recorded. |
| UsageExamples.OneOversizedCostFailsTheSubmission | src/darjeeling/compile_orchestration.py:1164-1237 | Met by the reading that starts an evaluation, the same file makes the submission a failed entry, after which it counts as recorded. |
| CompileLoop.Loop.CurrentStopReason | src/darjeeling/compile_orchestration.py:1049-1066 | The time limit, then the user's stop, then the refreshed budget; or the exception of the reading. |
| CompileLoop.Loop.CandidateLimitStopReason | src/darjeeling/compile_orchestration.py:1068-1076 | The refreshed budget, or the exception of the reading, then the candidate limit. |
| CompileLoop.Loop.EvaluateCandidate | src/darjeeling/compile_orchestration.py:1086-1140 | An evaluation that is polled, reports the cost of the usage synced before it, fails when a reading raises or an infinite cost would have to be paid back, and is stopped with a pending reason when a limit is met while it runs or as it answers. |
| CompileLoop.Loop.DrainReadySubmissions | src/darjeeling/compile_orchestration.py:1142-1246 | Each ready submission in turn: limits, digest, ledger check, evaluation, the recorded entry or failure, the write, the limits again; exceptions of the check before an evaluation and of the evaluation are failures, others end the drain. |
| CompileLoop.Loop.Run | src/darjeeling/compile_orchestration.py:1014-1263 | The whole run from what is on disk to its stop reason and last refreshed cost, or to the exception that ends it. |
| CompileLoopProperties.DrainKeeps | src/darjeeling/compile_orchestration.py:1142-1246 | A drain keeps all invariants, and one that ends without a reason to stop has recorded every submission that was ready. |
| CompileLoopProperties.EveryRunIsSound | src/darjeeling/compile_orchestration.py:1014-1263 | Every run, and everything it ever writes: no submission recorded twice, counters equal to folds over the ledger, evaluated count within max(initial, limit), no evaluation started at a limit, no cost going down, a stop reason that holds, and an exception only when some usage file raises; a run without one reports all that was used. |
| CompileLoopProperties.EverySequenceOfRunsIsSound | src/darjeeling/compile_orchestration.py:366-397 | The same across any sequence of runs, each cut short after any write and resumed from disk. |
| CompileLoopProperties.NothingStartsAtTheLimit | src/darjeeling/compile_orchestration.py:1068-1078 | A run resumed at the candidate limit starts and records nothing. |
| CompileLoopProperties.NothingStartsOverBudget | src/darjeeling/compile_orchestration.py:1049-1078 | Nor does a run resumed when what is kept is over its budget, as an infinite cost is over every budget. |
| CompileLoopProperties.RestartRecoversTheCost | src/darjeeling/compile_orchestration.py:400-406 | Wherever a run is cut short or crashes, a run resumed from what is on disk, with no smaller fixed costs, reports at least the cost that the first had reached, unless it crashes itself. |
| CompileLoopProperties.SelectedIsBest | src/darjeeling/compile_orchestration.py:409-427 | The selected entry passed the gate and has the greatest coverage, the latest of equals; there is none iff none passed. |
| CompileLoopProperties.SelectionOnlyImproves | src/darjeeling/compile_orchestration.py:409-427 | As the ledger grows the selected coverage never goes down. |
| Telemetry.BuildTelemetryDataSource | src/darjeeling/telemetry_recompile.py:273-357 | The rows and permissions of the evidence in time, or the first scope, provenance or eligibility error. |
| Telemetry.CollectTelemetryRecords | src/darjeeling/snapshot_reference.py:99-182 | The records of a data source, or the first scope, cutoff or permission error. |
| TelemetryProperties.ApprovalFollowsThePolicy | src/darjeeling/telemetry_recompile.py:33-256 | Evidence is approved iff its carriers are complete and the policy allows its source raw and some role; it then has exactly the allowed roles and is acceptable to a data source. |
| TelemetryProperties.InclusionIsExact | src/darjeeling/telemetry_recompile.py:293-320 | A source can be built iff all evidence is in scope and all in time has its provenance; it holds just what is in time, in order. |
| TelemetryProperties.CollectionFailsIff | src/darjeeling/snapshot_reference.py:113-166 | Collecting a built source at any later cutoff fails iff a role is unknown or one identifier carries different roles. |
| TelemetryProperties.TelemetryRoundTrip | src/darjeeling/snapshot_reference.py:99-182 | With distinct identifiers and known roles, building and collecting gives one record per piece in time, with its payloads and approved roles. |
| TelemetryProperties.SplitsObeyThePolicy | src/darjeeling/telemetry_recompile.py:72-81 | A snapshot row that merges approved evidence lies in a split that the policy allows for its source. |

## Left out

- Worker processes, signals, sandboxes, JSON-line parsing and the forked validation process: a worker is a function of artifact, input and timeout, and an evaluation one step that answers, raises or is stopped.
- Files, directories, directory digests and atomic writes: maps, injective digests and a history of what was written.
- YAML and JSON schemas, module import checks, the HTTP provider, the CLI, reports and briefs.
- Floating-point rounding and the overflow of sums: finite costs, rates, fractions, times and confidences within range are exact.
- Configured numbers (bounds, budgets, fixed and fallback costs, thresholds) are finite.
- Drift.DistributionDistance: covers baselines whose numbers are finite; with another the source's distance is undefined, which is over no threshold.
- Shadow requests, audit sampling and the audit queue; runtime failure detection and the thresholds of drift detection, which only compare numbers.
- The contents of traces after redaction.
- The worst slice of a generalization summary, precision per reference source, standalone, residual and ablation evaluations, fault scenarios (one flag) and latency measurement (given values).
- Digests and workspace commits of a candidate, and its routing file: freezing returns the artifacts.
- Watermarks, reference usage records and reports of a snapshot build.
- Field-by-field agreement of the carriers of telemetry evidence: approval starts from carriers that describe one request. Expiry of audit payloads is part of that.
- The other properties of a usage event, and user-written changes to core-owned files: the core ledger on disk is what the core wrote.
- The validation gate of a ledger entry is an input of the compile loop, as are its evaluation outcomes, except for the cost that they report.
- CompileLoop.Loop.Run: the agent ends after some number of polls chosen by the environment, and so does each evaluation; the source's loops have no such bound of their own.
- Cascade.RunCascade: the provider's worker thread that outlives an L4 timeout is not modelled, because it changes no state.
- Serving.ServeRequest: `Serving.Served`, the record of what a request did, is ghost; the program keeps no such record.
- EvaluationRefinement.CoveragePredictsServedFractions: assumes that no route overruns the deadline, because evaluation has none, or raises, because evaluation then has no result; the exact difference is in EvaluationRefinement.EvaluationPredictsServing. It also assumes closed circuits before each request; EvaluationRuns.CoveragePredictsTheRun derives them.
- EvaluationRuns.CoveragePredictsTheRun: covers workers that only accept or abstain, because a run in which others fail opens circuits that evaluation does not have.
- EvaluationRuns.WindowReportsTheEvaluation: assumes that nothing after the cascade raises and that L4's budget lasts, because the traces of other requests count as unanswered.
