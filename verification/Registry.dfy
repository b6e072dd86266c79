/** The release registry: channels, previous channels and release statuses. */
module Registry {
  import opened Wrappers
  import opened Domain

  datatype Channel = Shadow | Canary | Stable

  datatype ChannelKey = ChannelKey(target: string, channel: Channel)

  /** What `float` makes of a traffic share. Anything may be given as one, and promotion does not look at it. */
  datatype Share = Number(value: real) | PlusInfinity | MinusInfinity | NaN | NotANumber

  /** Only the traffic share of a channel's options is ever read. */
  datatype Options = Options(trafficFraction: Option<Share>, traffic: Option<Share>)

  function ShareOf(options: Options): Share {
    if options.trafficFraction.Some? then options.trafficFraction.value
    else if options.traffic.Some? then options.traffic.value
    else Number(0.0)
  }

  /** The share can be read as a number. */
  predicate Readable(options: Options) { !ShareOf(options).NotANumber? }

  /** The part of the requests, between none and all, that a share stands for. */
  function PartOf(share: Share): real {
    match share
    case Number(value) => if value < 0.0 then 0.0 else if value > 1.0 then 1.0 else value
    case PlusInfinity => 1.0
    case _ => 0.0
  }

  datatype RegistryState = RegistryState(
    releases: map<ReleaseId, Release>,
    channels: map<ChannelKey, ReleaseId>,
    previous: map<ChannelKey, ReleaseId>,
    options: map<ChannelKey, Options>)

  const EMPTY: RegistryState := RegistryState(map[], map[], map[], map[])

  /** Whether an artifact's files still hash to its recorded digest. */
  type Disk = Package -> bool

  function StatusOf(channel: Channel): Status {
    match channel
    case Shadow => ShadowStatus
    case Canary => CanaryStatus
    case Stable => StableStatus
  }

  // ---------------------------------------------------------------------------
  // Operations, as functions of the registry's value
  // ---------------------------------------------------------------------------

  predicate ApprovalMatches(r: Release) {
    r.approval.Some? ==>
      var a := r.approval.value;
      && r.candidateId == Some(a.candidateId)
      && r.reportId == Some(a.reportId)
      && r.targetName == a.targetName
      && r.contractHash == a.contractHash
      && r.snapshotId == Some(a.snapshotId)
  }

  /** The release, its compile provenance and its artifacts belong together. */
  predicate Atomic(r: Release) {
    var any := r.candidateId.Some? || r.snapshotId.Some? || r.snapshotDigest.Some? || r.reportId.Some? || r.approval.Some?;
    var all := r.candidateId.Some? && r.snapshotId.Some? && r.snapshotDigest.Some? && r.reportId.Some? && r.approval.Some?;
    && (r.artifacts != map[] ==> any)
    && (any ==> all)
    && ApprovalMatches(r)
    && (forall layer <- r.artifacts ::
          && r.artifacts[layer].layer == layer
          && r.artifacts[layer].contractHash == r.contractHash
          && (r.snapshotDigest.Some? ==> r.artifacts[layer].snapshotDigest == r.snapshotDigest.value))
  }

  function LoadRelease(id: ReleaseId, releases: map<ReleaseId, Release>, disk: Disk): Option<Release> {
    if id !in releases || releases[id].releaseId != id || !Atomic(releases[id]) then None
    else if exists layer <- releases[id].artifacts :: !disk(releases[id].artifacts[layer]) then None
    else Some(releases[id])
  }

  /** The compatibility check of one existing channel entry against the release being promoted. */
  predicate Compatible(s: RegistryState, key: ChannelKey, release: Release, disk: Disk)
    requires key in s.channels
  {
    || key.target != release.targetName
    || s.channels[key] == release.releaseId
    || (var existing := LoadRelease(s.channels[key], s.releases, disk);
        existing.Some? && existing.value.contractHash == release.contractHash)
  }

  function WithStatus(s: RegistryState, id: ReleaseId, release: Release, status: Status): map<ReleaseId, Release> {
    s.releases[id := release.(status := status)]
  }

  function AfterSetChannel(s: RegistryState, target: string, channel: Channel, id: ReleaseId,
                      options: Options, disk: Disk): Option<RegistryState>
  {
    var loaded := LoadRelease(id, s.releases, disk);
    var key := ChannelKey(target, channel);
    if loaded.None? || loaded.value.targetName != target then None
    else if exists k <- s.channels :: !Compatible(s, k, loaded.value, disk) then None
    else Some(RegistryState(
                WithStatus(s, id, loaded.value, StatusOf(channel)),
                s.channels[key := id],
                if key in s.channels then s.previous[key := s.channels[key]] else s.previous,
                s.options[key := options]))
  }

  function AfterRollback(s: RegistryState, target: string, disk: Disk): Option<RegistryState> {
    var key := ChannelKey(target, Stable);
    if key !in s.previous then None
    else
      var id := s.previous[key];
      var loaded := LoadRelease(id, s.releases, disk);
      if loaded.None? || loaded.value.targetName != target || loaded.value.status != StableStatus then None
      else if key !in s.channels then
        Some(s.(releases := WithStatus(s, id, loaded.value, StableStatus), channels := s.channels[key := id]))
      else
        var current := LoadRelease(s.channels[key], s.releases, disk);
        if current.None? then None
        else
          var demoted := s.(releases := WithStatus(s, s.channels[key], current.value, RolledBack));
          Some(s.(releases := WithStatus(demoted, id, loaded.value, StableStatus), channels := s.channels[key := id]))
  }

  function AfterRetire(s: RegistryState, id: ReleaseId, disk: Disk): Option<RegistryState> {
    var loaded := LoadRelease(id, s.releases, disk);
    if loaded.None? then None
    else Some(s.(releases := WithStatus(s, id, loaded.value, Retired)))
  }

  /** A release enters the registry under its own fresh identifier. */
  function AfterRegister(s: RegistryState, release: Release): Option<RegistryState> {
    if release.releaseId in s.releases then None
    else Some(s.(releases := s.releases[release.releaseId := release]))
  }

  function CanaryOptions(s: RegistryState, target: string): Options {
    var key := ChannelKey(target, Canary);
    if key in s.options then s.options[key] else Options(None, None)
  }

  /** `bucket` is the request's hash bucket in [0, 1]. */
  function Select(s: RegistryState, target: string, bucket: real, disk: Disk): Option<Release> {
    var stableKey, canaryKey := ChannelKey(target, Stable), ChannelKey(target, Canary);
    if stableKey !in s.channels then None
    else
      var stable := LoadRelease(s.channels[stableKey], s.releases, disk);
      if stable.None? || stable.value.status != StableStatus then None
      else if canaryKey !in s.channels then stable
      else
        var canary := LoadRelease(s.channels[canaryKey], s.releases, disk);
        var options := CanaryOptions(s, target);
        if canary.None? || canary.value.status != CanaryStatus || !Readable(options) then None
        else
          var part := PartOf(ShareOf(options));
          if part > 0.0 && bucket < part then canary else stable
  }

  // ---------------------------------------------------------------------------
  // The registry object
  // ---------------------------------------------------------------------------

  class ReleaseRegistry {
    var releases: map<ReleaseId, Release>
    var channels: map<ChannelKey, ReleaseId>
    var previousChannels: map<ChannelKey, ReleaseId>
    var channelOptions: map<ChannelKey, Options>

    ghost function State(): RegistryState
      reads this
    {
      RegistryState(releases, channels, previousChannels, channelOptions)
    }

    constructor ()
      ensures State() == EMPTY
    {
      releases, channels, previousChannels, channelOptions := map[], map[], map[], map[];
    }

    method SetChannel(target: string, channel: Channel, id: ReleaseId, options: Options, disk: Disk)
      returns (ok: bool, previous: Option<ReleaseId>)
      modifies this
      ensures var result := AfterSetChannel(old(State()), target, channel, id, options, disk);
              ok == result.Some? && State() == (if ok then result.value else old(State()))
      ensures var key := ChannelKey(target, channel);
              previous == if ok && key in old(channels) then Some(old(channels)[key]) else None
    {
      var loaded := LoadRelease(id, releases, disk);
      if loaded.None? || loaded.value.targetName != target {
        return false, None;
      }
      var release := loaded.value;
      var pending := channels.Keys;
      while pending != {}
        invariant pending <= channels.Keys
        invariant forall k <- channels.Keys - pending :: Compatible(State(), k, release, disk)
        invariant State() == old(State())
      {
        var k :| k in pending;
        if k.target == target && channels[k] != id {
          var existing := LoadRelease(channels[k], releases, disk);
          if existing.None? || existing.value.contractHash != release.contractHash {
            assert !Compatible(State(), k, release, disk);
            return false, None;
          }
        }
        pending := pending - {k};
      }
      var key := ChannelKey(target, channel);
      previous := None;
      if key in channels {
        previous := Some(channels[key]);
        previousChannels := previousChannels[key := channels[key]];
      }
      channels := channels[key := id];
      channelOptions := channelOptions[key := options];
      releases := releases[id := release.(status := StatusOf(channel))];
      ok := true;
    }

    method RollbackRelease(target: string, disk: Disk) returns (ok: bool)
      modifies this
      ensures var result := AfterRollback(old(State()), target, disk);
              ok == result.Some? && State() == (if ok then result.value else old(State()))
    {
      var key := ChannelKey(target, Stable);
      if key !in previousChannels {
        return false;
      }
      var previous := previousChannels[key];
      var loaded := LoadRelease(previous, releases, disk);
      if loaded.None? || loaded.value.targetName != target || loaded.value.status != StableStatus {
        return false;
      }
      if key in channels {
        var current := channels[key];
        var currentRelease := LoadRelease(current, releases, disk);
        if currentRelease.None? {
          return false;
        }
        channels := channels[key := previous];
        releases := releases[current := currentRelease.value.(status := RolledBack)];
      } else {
        channels := channels[key := previous];
      }
      releases := releases[previous := loaded.value.(status := StableStatus)];
      ok := true;
    }

    method RetireRelease(id: ReleaseId, disk: Disk) returns (ok: bool)
      modifies this`releases
      ensures var result := AfterRetire(old(State()), id, disk);
              ok == result.Some? && State() == (if ok then result.value else old(State()))
    {
      var loaded := LoadRelease(id, releases, disk);
      if loaded.None? {
        return false;
      }
      releases := releases[id := loaded.value.(status := Retired)];
      ok := true;
    }
  }

  // ---------------------------------------------------------------------------
  // Runs
  // ---------------------------------------------------------------------------

  datatype Op =
    | RegisterOp(release: Release)
    | SetChannelOp(target: string, channel: Channel, id: ReleaseId, options: Options, disk: Disk)
    | RollbackOp(rollbackTarget: string, rollbackDisk: Disk)
    | RetireOp(retiredId: ReleaseId, retireDisk: Disk)

  /** A failing operation raises before it touches the registry. */
  ghost function Step(s: RegistryState, op: Op): RegistryState {
    var result :=
      match op
      case RegisterOp(release) => AfterRegister(s, release)
      case SetChannelOp(target, channel, id, options, disk) => AfterSetChannel(s, target, channel, id, options, disk)
      case RollbackOp(target, disk) => AfterRollback(s, target, disk)
      case RetireOp(id, disk) => AfterRetire(s, id, disk);
    if result.Some? then result.value else s
  }

  ghost function Run(s: RegistryState, ops: seq<Op>): RegistryState
    decreases |ops|
  {
    if ops == [] then s else Run(Step(s, ops[0]), ops[1..])
  }

  /** `id` names a registered release of `target` that carries contract `hash`. */
  ghost predicate Names(s: RegistryState, id: ReleaseId, target: string, hash: string) {
    && id in s.releases
    && s.releases[id].releaseId == id
    && s.releases[id].targetName == target
    && s.releases[id].contractHash == hash
  }

  /** Every current and previous channel entry of `target` names a release of it with contract `hash`. */
  ghost predicate ServesContract(s: RegistryState, target: string, hash: string) {
    && (forall k <- s.channels :: k.target == target ==> Names(s, s.channels[k], target, hash))
    && (forall k <- s.previous :: k.target == target ==> k in s.channels && Names(s, s.previous[k], target, hash))
  }

  ghost predicate HasChannel(s: RegistryState, target: string) {
    exists k <- s.channels :: k.target == target
  }

  ghost predicate KeysMatch(s: RegistryState) {
    forall id <- s.releases :: s.releases[id].releaseId == id
  }

  ghost predicate SameButStatus(a: Release, b: Release) {
    a.(status := b.status) == b
  }

  /** Releases are never dropped, and nothing but their status ever changes. */
  ghost predicate Extends(s: RegistryState, t: RegistryState) {
    forall id <- s.releases :: id in t.releases && SameButStatus(s.releases[id], t.releases[id])
  }

  lemma StepExtends(s: RegistryState, op: Op)
    requires KeysMatch(s)
    ensures KeysMatch(Step(s, op)) && Extends(s, Step(s, op))
  {
  }

  lemma {:induction false} RunExtends(s: RegistryState, ops: seq<Op>)
    requires KeysMatch(s)
    ensures KeysMatch(Run(s, ops)) && Extends(s, Run(s, ops))
    decreases |ops|
  {
    if ops != [] {
      StepExtends(s, ops[0]);
      RunExtends(Step(s, ops[0]), ops[1..]);
    }
  }

  /** A changed status leaves every name in the registry meaning the same release. */
  lemma NamesSurvive(s: RegistryState, t: RegistryState, id: ReleaseId, target: string, hash: string)
    requires Extends(s, t) && Names(s, id, target, hash)
    ensures Names(t, id, target, hash)
  {
  }

  /** The compatibility check lets a release in only with the contract already served. */
  lemma PromotedReleaseIsCompatible(s: RegistryState, target: string, channel: Channel, id: ReleaseId,
                                    options: Options, disk: Disk, hash: string)
    requires KeysMatch(s) && HasChannel(s, target) && ServesContract(s, target, hash)
    requires AfterSetChannel(s, target, channel, id, options, disk).Some?
    ensures Names(s, id, target, hash)
  {
    var k :| k in s.channels && k.target == target;
    assert Compatible(s, k, s.releases[id], disk);
    assert Names(s, s.channels[k], target, hash);
  }

  /** After one operation every entry of a target that already has a channel still names releases that were
      registered before, with its contract. */
  lemma EntriesNameOldReleases(s: RegistryState, op: Op, target: string, hash: string)
    requires KeysMatch(s) && HasChannel(s, target) && ServesContract(s, target, hash)
    ensures var t := Step(s, op);
            && (forall k <- t.channels :: k.target == target ==> Names(s, t.channels[k], target, hash))
            && (forall k <- t.previous :: k.target == target ==> k in t.channels && Names(s, t.previous[k], target, hash))
            && s.channels.Keys <= t.channels.Keys
  {
    if op.SetChannelOp? && op.target == target && AfterSetChannel(s, target, op.channel, op.id, op.options, op.disk).Some? {
      PromotedReleaseIsCompatible(s, target, op.channel, op.id, op.options, op.disk, hash);
    }
  }

  /** One operation keeps the contract of a target that already has a channel. */
  lemma StepKeepsContract(s: RegistryState, op: Op, target: string, hash: string)
    requires KeysMatch(s) && HasChannel(s, target) && ServesContract(s, target, hash)
    ensures HasChannel(Step(s, op), target) && ServesContract(Step(s, op), target, hash)
  {
    var t := Step(s, op);
    StepExtends(s, op);
    EntriesNameOldReleases(s, op, target, hash);
    var some :| some in s.channels && some.target == target;
    assert some in t.channels;
    forall id: ReleaseId | Names(s, id, target, hash) ensures Names(t, id, target, hash) {
      NamesSurvive(s, t, id, target, hash);
    }
  }

  /** From the first `set_channel` of a target on, no sequence of operations changes its contract. */
  lemma {:induction false} ContractNeverChanges(s: RegistryState, ops: seq<Op>, target: string, hash: string)
    requires KeysMatch(s) && HasChannel(s, target) && ServesContract(s, target, hash)
    ensures HasChannel(Run(s, ops), target) && ServesContract(Run(s, ops), target, hash)
    decreases |ops|
  {
    if ops != [] {
      StepExtends(s, ops[0]);
      StepKeepsContract(s, ops[0], target, hash);
      ContractNeverChanges(Step(s, ops[0]), ops[1..], target, hash);
    }
  }

  /** What a registry reached by any run satisfies for each target. */
  ghost predicate OneContract(s: RegistryState, target: string) {
    if HasChannel(s, target) then exists hash :: ServesContract(s, target, hash)
    else forall k <- s.previous :: k.target != target
  }

  lemma StepKeepsOneContract(s: RegistryState, op: Op, target: string)
    requires KeysMatch(s) && OneContract(s, target)
    ensures OneContract(Step(s, op), target)
  {
    var t := Step(s, op);
    if HasChannel(s, target) {
      var hash :| ServesContract(s, target, hash);
      StepKeepsContract(s, op, target, hash);
    } else if HasChannel(t, target) {
      assert op.SetChannelOp? && op.target == target;
      assert ServesContract(t, target, s.releases[op.id].contractHash);
    }
  }

  lemma {:induction false} RunKeepsOneContract(s: RegistryState, ops: seq<Op>, target: string)
    requires KeysMatch(s) && OneContract(s, target)
    ensures KeysMatch(Run(s, ops)) && OneContract(Run(s, ops), target)
    decreases |ops|
  {
    if ops != [] {
      StepExtends(s, ops[0]);
      StepKeepsOneContract(s, ops[0], target);
      RunKeepsOneContract(Step(s, ops[0]), ops[1..], target);
    }
  }

  /** In every reachable registry a target's channels, present and previous, agree on one contract,
      and any release selected for one of its requests carries it, now and after any further run. */
  lemma SelectedReleaseKeepsTheContract(ops: seq<Op>, more: seq<Op>, target: string,
                                        b0: real, b1: real, disk0: Disk, disk1: Disk)
    ensures var s := Run(EMPTY, ops);
            var t := Run(s, more);
            var before, after := Select(s, target, b0, disk0), Select(t, target, b1, disk1);
            && (HasChannel(s, target) ==> exists hash :: ServesContract(s, target, hash) && ServesContract(t, target, hash))
            && (before.Some? && after.Some? ==>
                  && before.value.targetName == target == after.value.targetName
                  && before.value.contractHash == after.value.contractHash)
  {
    RunKeepsOneContract(EMPTY, ops, target);
    var s := Run(EMPTY, ops);
    if HasChannel(s, target) {
      var hash :| ServesContract(s, target, hash);
      ContractNeverChanges(s, more, target, hash);
    }
  }

  // ---------------------------------------------------------------------------
  // Rollback
  // ---------------------------------------------------------------------------

  /** A successful rollback leaves the stable channel on an active release, and repeating it changes nothing. */
  lemma RollbackIsIdempotent(s: RegistryState, target: string, disk: Disk)
    requires AfterRollback(s, target, disk).Some?
    ensures var t := AfterRollback(s, target, disk).value;
            var key := ChannelKey(target, Stable);
            && t.channels == s.channels[key := s.previous[key]]
            && t.channels[key] in t.releases && t.releases[t.channels[key]].status == StableStatus
            && AfterRollback(t, target, disk) == Some(t)
  {
    var t := AfterRollback(s, target, disk).value;
    var key := ChannelKey(target, Stable);
    assert t.previous[key] == t.channels[key] == s.previous[key];
    assert Atomic(t.releases[t.channels[key]]);
    var again := AfterRollback(t, target, disk).value;
    assert again.releases == t.releases;
    assert again.channels == t.channels;
  }

  /** In every reachable registry: rolling back a stable `set_channel` right away succeeds exactly when it moved
      the channel off an active release, or promoted again the release that the channel already named. In the first
      case it restores every channel, and every release but the one rolled back. In the second it changes nothing
      but the status of that release, and what the channel could be rolled back to before is lost. */
  lemma RollbackUndoesSetChannel(s: RegistryState, target: string, id: ReleaseId, options: Options, disk: Disk)
    requires KeysMatch(s) && OneContract(s, target)
    requires AfterSetChannel(s, target, Stable, id, options, disk).Some?
    ensures var key := ChannelKey(target, Stable);
            var t := AfterSetChannel(s, target, Stable, id, options, disk).value;
            var back := AfterRollback(t, target, disk);
            && (back.Some? <==> key in s.channels && (s.channels[key] == id || s.releases[s.channels[key]].status == StableStatus))
            && (back.Some? ==>
                  && back.value.channels == s.channels
                  && back.value.releases == s.releases[id := s.releases[id].(status := if s.channels[key] == id then StableStatus else RolledBack)]
                  && back.value.previous == s.previous[key := s.channels[key]]
                  && back.value.options == s.options[key := options])
  {
    var key := ChannelKey(target, Stable);
    if key !in s.channels {
      FirstStableHasNoPrevious(s, target);
    } else if s.channels[key] == id {
      RepromotionRollsBack(s, target, id, options, disk);
    } else {
      ReplacementRollsBack(s, target, id, options, disk);
    }
  }

  /** A reachable registry keeps a previous entry only beside a current one. */
  lemma FirstStableHasNoPrevious(s: RegistryState, target: string)
    requires OneContract(s, target) && ChannelKey(target, Stable) !in s.channels
    ensures ChannelKey(target, Stable) !in s.previous
  {
    if HasChannel(s, target) {
      var hash :| ServesContract(s, target, hash);
    }
  }

  lemma RepromotionRollsBack(s: RegistryState, target: string, id: ReleaseId, options: Options, disk: Disk)
    requires ChannelKey(target, Stable) in s.channels && s.channels[ChannelKey(target, Stable)] == id
    requires AfterSetChannel(s, target, Stable, id, options, disk).Some?
    ensures var key := ChannelKey(target, Stable);
            var t := AfterSetChannel(s, target, Stable, id, options, disk).value;
            && t.previous[key] == id
            && AfterRollback(t, target, disk)
               == Some(RegistryState(s.releases[id := s.releases[id].(status := StableStatus)], s.channels,
                                     s.previous[key := id], s.options[key := options]))
  {
    var key := ChannelKey(target, Stable);
    var t := AfterSetChannel(s, target, Stable, id, options, disk).value;
    assert Atomic(t.releases[id]);
    assert LoadRelease(id, t.releases, disk) == Some(t.releases[id]);
    var back := AfterRollback(t, target, disk).value;
    assert back.channels == s.channels;
    assert back.releases == s.releases[id := s.releases[id].(status := StableStatus)];
  }

  lemma ReplacementRollsBack(s: RegistryState, target: string, id: ReleaseId, options: Options, disk: Disk)
    requires KeysMatch(s) && OneContract(s, target)
    requires ChannelKey(target, Stable) in s.channels && s.channels[ChannelKey(target, Stable)] != id
    requires AfterSetChannel(s, target, Stable, id, options, disk).Some?
    ensures var key := ChannelKey(target, Stable);
            var t := AfterSetChannel(s, target, Stable, id, options, disk).value;
            var back := AfterRollback(t, target, disk);
            && s.channels[key] in s.releases
            && back == (if s.releases[s.channels[key]].status == StableStatus
                        then Some(RegistryState(s.releases[id := s.releases[id].(status := RolledBack)], s.channels,
                                                s.previous[key := s.channels[key]], s.options[key := options]))
                        else None)
  {
    var key := ChannelKey(target, Stable);
    var t := AfterSetChannel(s, target, Stable, id, options, disk).value;
    ReplacedStillLoads(s, target, id, options, disk);
    var back := AfterRollback(t, target, disk);
    if back.Some? {
      assert back.value.channels == s.channels;
      assert back.value.releases == s.releases[id := s.releases[id].(status := RolledBack)];
    }
  }

  lemma ReplacedStillLoads(s: RegistryState, target: string, id: ReleaseId, options: Options, disk: Disk)
    requires KeysMatch(s) && OneContract(s, target)
    requires ChannelKey(target, Stable) in s.channels && s.channels[ChannelKey(target, Stable)] != id
    requires AfterSetChannel(s, target, Stable, id, options, disk).Some?
    ensures var replaced := s.channels[ChannelKey(target, Stable)];
            var t := AfterSetChannel(s, target, Stable, id, options, disk).value;
            && replaced in s.releases && s.releases[replaced].targetName == target
            && LoadRelease(replaced, t.releases, disk) == Some(s.releases[replaced])
            && LoadRelease(id, t.releases, disk) == Some(t.releases[id])
  {
    var key := ChannelKey(target, Stable);
    var t := AfterSetChannel(s, target, Stable, id, options, disk).value;
    var hash :| ServesContract(s, target, hash);
    assert Names(s, s.channels[key], target, hash);
    assert Compatible(s, key, s.releases[id], disk);
    assert Atomic(t.releases[id]);
  }

  // ---------------------------------------------------------------------------
  // Promotion and availability
  // ---------------------------------------------------------------------------

  /** A target is servable when some release is selected for its requests. */
  predicate Servable(s: RegistryState, target: string, disk: Disk) {
    Select(s, target, 0.0, disk).Some?
  }

  lemma ServableForEveryBucket(s: RegistryState, target: string, bucket: real, disk: Disk)
    ensures Select(s, target, bucket, disk).Some? <==> Servable(s, target, disk)
  {
  }

  /** A serving channel of the target, other than `but`, names the release. */
  predicate NamedElsewhere(s: RegistryState, target: string, but: Option<Channel>, id: ReleaseId) {
    exists c <- {Stable, Canary} :: Some(c) != but && ChannelKey(target, c) in s.channels && s.channels[ChannelKey(target, c)] == id
  }

  /** A promotion makes its target unservable: another serving channel names the release, whose one status can match
      only one channel; or the release becomes the canary with a share that cannot be read. */
  predicate Stops(s: RegistryState, target: string, channel: Channel, id: ReleaseId, options: Options) {
    NamedElsewhere(s, target, Some(channel), id) || (channel == Canary && !Readable(options))
  }

  /** Moving a release onto a channel keeps a servable target served for requests of every bucket, or, exactly in those
      two cases, for none. */
  lemma PromotionKeepsServing(s: RegistryState, target: string, channel: Channel, id: ReleaseId, options: Options, disk: Disk)
    requires Servable(s, target, disk)
    requires AfterSetChannel(s, target, channel, id, options, disk).Some?
    ensures var t := AfterSetChannel(s, target, channel, id, options, disk).value;
            if Stops(s, target, channel, id, options) then forall bucket: real :: Select(t, target, bucket, disk).None?
            else forall bucket: real :: Select(t, target, bucket, disk).Some?
  {
    var t := AfterSetChannel(s, target, channel, id, options, disk).value;
    PromotionKeepsServable(s, target, channel, id, options, disk);
    forall bucket: real ensures Select(t, target, bucket, disk).Some? <==> Servable(t, target, disk) {
      ServableForEveryBucket(t, target, bucket, disk);
    }
  }

  lemma PromotionKeepsServable(s: RegistryState, target: string, channel: Channel, id: ReleaseId, options: Options, disk: Disk)
    requires Servable(s, target, disk)
    requires AfterSetChannel(s, target, channel, id, options, disk).Some?
    ensures var t := AfterSetChannel(s, target, channel, id, options, disk).value;
            Servable(t, target, disk) <==> !Stops(s, target, channel, id, options)
  {
    var t := AfterSetChannel(s, target, channel, id, options, disk).value;
    assert Atomic(t.releases[id]);
    assert LoadRelease(id, t.releases, disk).Some?;
    forall other | other in s.releases && other != id
      ensures LoadRelease(other, t.releases, disk) == LoadRelease(other, s.releases, disk)
    {
    }
    assert ChannelKey(target, Stable) in s.channels;
    assert Stable in {Stable, Canary} && Canary in {Stable, Canary};
  }

  /** Rolling back a served target leaves it served. */
  lemma RollbackKeepsServing(s: RegistryState, target: string, disk: Disk)
    requires Servable(s, target, disk) && AfterRollback(s, target, disk).Some?
    ensures Servable(AfterRollback(s, target, disk).value, target, disk)
  {
    var t := AfterRollback(s, target, disk).value;
    var key := ChannelKey(target, Stable);
    assert Atomic(t.releases[s.previous[key]]);
  }

  /** Retiring a release stops a served target exactly when one of the target's serving channels names it. */
  lemma RetirementStopsServing(s: RegistryState, target: string, id: ReleaseId, disk: Disk)
    requires Servable(s, target, disk) && AfterRetire(s, id, disk).Some?
    ensures Servable(AfterRetire(s, id, disk).value, target, disk) <==> !NamedElsewhere(s, target, None, id)
  {
    assert Stable in {Stable, Canary} && Canary in {Stable, Canary};
    assert ChannelKey(target, Stable) in s.channels;
  }

  /** The operations that stop a target from being served: promoting a release, or retiring it, that a serving
      channel of the target keeps naming, and promoting a canary with a share that cannot be read. */
  predicate StopsServing(s: RegistryState, op: Op, target: string, disk: Disk) {
    match op
    case SetChannelOp(t, channel, id, options, _) =>
      t == target && AfterSetChannel(s, t, channel, id, options, disk).Some? && Stops(s, target, channel, id, options)
    case RetireOp(id, _) => AfterRetire(s, id, disk).Some? && NamedElsewhere(s, target, None, id)
    case _ => false
  }

  /** The operation meets the same artifact files as the requests around it. */
  ghost predicate OnDisk(op: Op, disk: Disk) {
    match op
    case RegisterOp(_) => true
    case SetChannelOp(_, _, _, _, d) => d == disk
    case RollbackOp(_, d) => d == disk
    case RetireOp(_, d) => d == disk
  }

  /** The target's serving channels, the releases they name and the canary's options are the same in both registries. */
  predicate SameService(s: RegistryState, t: RegistryState, target: string) {
    && CanaryOptions(s, target) == CanaryOptions(t, target)
    && forall c <- {Stable, Canary} ::
      var key := ChannelKey(target, c);
      && (key in s.channels <==> key in t.channels)
      && (key in s.channels ==>
            && t.channels[key] == s.channels[key] && s.channels[key] in s.releases
            && s.channels[key] in t.releases && t.releases[s.channels[key]] == s.releases[s.channels[key]])
  }

  lemma SameServiceIsServed(s: RegistryState, t: RegistryState, target: string, disk: Disk)
    requires SameService(s, t, target)
    ensures Servable(s, target, disk) <==> Servable(t, target, disk)
  {
    assert Stable in {Stable, Canary} && Canary in {Stable, Canary};
  }

  lemma ChannelNamesItsTarget(s: RegistryState, k: ChannelKey)
    requires OneContract(s, k.target) && k in s.channels
    ensures s.channels[k] in s.releases && s.releases[s.channels[k]].targetName == k.target
  {
    var hash :| ServesContract(s, k.target, hash);
    assert Names(s, s.channels[k], k.target, hash);
  }

  lemma OtherTargetsAreUntouched(s: RegistryState, op: Op, target: string)
    requires KeysMatch(s) && (forall t: string :: OneContract(s, t))
    requires match op
             case RegisterOp(_) => true
             case SetChannelOp(t, _, _, _, _) => t != target
             case RollbackOp(t, _) => t != target
             case RetireOp(_, _) => false
    ensures SameService(s, Step(s, op), target)
  {
    forall c | c in {Stable, Canary} && ChannelKey(target, c) in s.channels
      ensures s.channels[ChannelKey(target, c)] in s.releases && s.releases[s.channels[ChannelKey(target, c)]].targetName == target
    {
      assert OneContract(s, target);
      ChannelNamesItsTarget(s, ChannelKey(target, c));
    }
    if op.RollbackOp? && ChannelKey(op.rollbackTarget, Stable) in s.channels {
      assert OneContract(s, op.rollbackTarget);
      ChannelNamesItsTarget(s, ChannelKey(op.rollbackTarget, Stable));
    }
  }

  /** In a registry that a run reached, one operation leaves a served target served exactly when it is not one of
      those that stop it. */
  lemma ServingStopsExactly(s: RegistryState, op: Op, target: string, disk: Disk)
    requires KeysMatch(s) && (forall t: string :: OneContract(s, t)) && Servable(s, target, disk) && OnDisk(op, disk)
    ensures Servable(Step(s, op), target, disk) <==> !StopsServing(s, op, target, disk)
  {
    match op
    case RegisterOp(release) =>
      OtherTargetsAreUntouched(s, op, target);
      SameServiceIsServed(s, Step(s, op), target, disk);
    case SetChannelOp(t, channel, id, options, _) =>
      if t != target {
        OtherTargetsAreUntouched(s, op, target);
        SameServiceIsServed(s, Step(s, op), target, disk);
      } else if AfterSetChannel(s, t, channel, id, options, disk).Some? {
        PromotionKeepsServable(s, target, channel, id, options, disk);
      }
    case RollbackOp(t, _) =>
      if t != target {
        OtherTargetsAreUntouched(s, op, target);
        SameServiceIsServed(s, Step(s, op), target, disk);
      } else if AfterRollback(s, t, disk).Some? {
        RollbackKeepsServing(s, target, disk);
      }
    case RetireOp(id, _) =>
      if AfterRetire(s, id, disk).Some? {
        RetirementStopsServing(s, target, id, disk);
      }
  }
}
