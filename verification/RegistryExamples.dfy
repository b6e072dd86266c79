/** Two registries in which a promotion does more than it seems to. */
module RegistryExamples {
  import opened Wrappers
  import opened Domain
  import opened Registry

  /** A release without artifacts, as one is made for a target's first deployment. */
  function PlainRelease(id: ReleaseId, status: Status): Release {
    Release(id, "target", "contract", None, None, None, None, None, map[], Routing(false, {}, map[], 1000, None, None), status)
  }

  const NO_OPTIONS := Options(None, None)

  const STABLE := ChannelKey("target", Stable)

  const CANARY := ChannelKey("target", Canary)

  ghost function Register(id: ReleaseId): Op { RegisterOp(PlainRelease(id, Created)) }

  ghost function Promote(channel: Channel, id: ReleaseId): Op {
    SetChannelOp("target", channel, id, NO_OPTIONS, _ => true)
  }

  /** A share given as a word. */
  const IN_WORDS := Options(Some(NotANumber), None)

  ghost function RollBack(): Op { RollbackOp("target", _ => true) }

  const ONE_REGISTERED: RegistryState := RegistryState(map["one" := PlainRelease("one", Created)], map[], map[], map[])

  const ONE_STABLE: RegistryState :=
    RegistryState(map["one" := PlainRelease("one", StableStatus)], map[STABLE := "one"], map[], map[STABLE := NO_OPTIONS])

  const TWO_REGISTERED: RegistryState :=
    ONE_STABLE.(releases := map["one" := PlainRelease("one", StableStatus), "two" := PlainRelease("two", Created)])

  /** Release "one" is stable and "two" the canary. */
  const WITH_CANARY: RegistryState :=
    RegistryState(map["one" := PlainRelease("one", StableStatus), "two" := PlainRelease("two", CanaryStatus)],
                  map[STABLE := "one", CANARY := "two"], map[], map[STABLE := NO_OPTIONS, CANARY := NO_OPTIONS])

  /** Release "two" replaced "one" on stable. */
  const REPLACED: RegistryState :=
    RegistryState(map["one" := PlainRelease("one", StableStatus), "two" := PlainRelease("two", StableStatus)],
                  map[STABLE := "two"], map[STABLE := "one"], map[STABLE := NO_OPTIONS])

  lemma PlainReleaseLoads(s: RegistryState, id: ReleaseId, status: Status)
    requires id in s.releases && s.releases[id] == PlainRelease(id, status)
    ensures LoadRelease(id, s.releases, _ => true) == Some(PlainRelease(id, status))
  {
    assert Atomic(PlainRelease(id, status));
  }

  lemma FirstPromotion()
    ensures Step(EMPTY, Register("one")) == ONE_REGISTERED
    ensures Step(ONE_REGISTERED, Promote(Stable, "one")) == ONE_STABLE
    ensures Step(ONE_STABLE, Register("two")) == TWO_REGISTERED
  {
    PlainReleaseLoads(ONE_REGISTERED, "one", Created);
  }

  lemma SecondPromotion(channel: Channel)
    requires channel == Canary || channel == Stable
    ensures Step(TWO_REGISTERED, Promote(channel, "two")) == if channel == Canary then WITH_CANARY else REPLACED
  {
    PlainReleaseLoads(TWO_REGISTERED, "one", StableStatus);
    PlainReleaseLoads(TWO_REGISTERED, "two", Created);
    assert forall k <- TWO_REGISTERED.channels :: Compatible(TWO_REGISTERED, k, PlainRelease("two", Created), _ => true);
  }

  lemma RunsThrough(s: RegistryState, op: Op, ops: seq<Op>)
    ensures Run(s, [op] + ops) == Run(Step(s, op), ops)
  {
    assert ([op] + ops)[1..] == ops;
  }

  /** Both registries are reached by registering and promoting the two releases. */
  lemma BothAreReached(channel: Channel)
    requires channel == Canary || channel == Stable
    ensures exists ops :: Run(EMPTY, ops) == if channel == Canary then WITH_CANARY else REPLACED
  {
    var last := [Promote(channel, "two")] + [];
    var third := [Register("two")] + last;
    var second := [Promote(Stable, "one")] + third;
    FirstPromotion();
    SecondPromotion(channel);
    RunsThrough(EMPTY, Register("one"), second);
    RunsThrough(ONE_REGISTERED, Promote(Stable, "one"), third);
    RunsThrough(ONE_STABLE, Register("two"), last);
    RunsThrough(TWO_REGISTERED, Promote(channel, "two"), []);
    assert Run(EMPTY, [Register("one")] + second) == if channel == Canary then WITH_CANARY else REPLACED;
  }

  lemma CanaryCanBePromoted()
    ensures AfterSetChannel(WITH_CANARY, "target", Stable, "two", NO_OPTIONS, _ => true).Some?
  {
    PlainReleaseLoads(WITH_CANARY, "one", StableStatus);
    PlainReleaseLoads(WITH_CANARY, "two", CanaryStatus);
    assert forall k <- WITH_CANARY.channels :: Compatible(WITH_CANARY, k, PlainRelease("two", CanaryStatus), _ => true);
  }

  /** Promoting the canary to stable stops serving: the canary channel still names it. */
  lemma PromotingTheCanaryStopsServing(bucket: real)
    ensures Select(WITH_CANARY, "target", bucket, _ => true).Some?
    ensures Select(Step(WITH_CANARY, Promote(Stable, "two")), "target", bucket, _ => true).None?
  {
    PlainReleaseLoads(WITH_CANARY, "one", StableStatus);
    PlainReleaseLoads(WITH_CANARY, "two", CanaryStatus);
    ServableForEveryBucket(WITH_CANARY, "target", bucket, _ => true);
    CanaryCanBePromoted();
    assert WITH_CANARY.channels[CANARY] == "two" && Canary in {Stable, Canary};
    PromotionKeepsServing(WITH_CANARY, "target", Stable, "two", NO_OPTIONS, _ => true);
  }

  /** Making a release the canary that no channel names yet stops serving when the share is given as a word: promotion
      takes it, and selection then fails for every request. */
  lemma UnreadableShareStopsServing(bucket: real)
    ensures Select(TWO_REGISTERED, "target", bucket, _ => true).Some?
    ensures AfterSetChannel(TWO_REGISTERED, "target", Canary, "two", IN_WORDS, _ => true).Some?
    ensures !NamedElsewhere(TWO_REGISTERED, "target", Some(Canary), "two")
    ensures Select(AfterSetChannel(TWO_REGISTERED, "target", Canary, "two", IN_WORDS, _ => true).value, "target", bucket, _ => true).None?
  {
    PlainReleaseLoads(TWO_REGISTERED, "one", StableStatus);
    PlainReleaseLoads(TWO_REGISTERED, "two", Created);
    ServableForEveryBucket(TWO_REGISTERED, "target", bucket, _ => true);
    assert forall k <- TWO_REGISTERED.channels :: Compatible(TWO_REGISTERED, k, PlainRelease("two", Created), _ => true);
    PromotionKeepsServing(TWO_REGISTERED, "target", Canary, "two", IN_WORDS, _ => true);
  }

  lemma RollbackReturns()
    ensures Step(REPLACED, RollBack()).channels == map[STABLE := "one"]
  {
    PlainReleaseLoads(REPLACED, "one", StableStatus);
    PlainReleaseLoads(REPLACED, "two", StableStatus);
  }

  lemma PromotedAgain()
    ensures AfterSetChannel(REPLACED, "target", Stable, "two", NO_OPTIONS, _ => true).Some?
  {
    PlainReleaseLoads(REPLACED, "two", StableStatus);
    assert forall k <- REPLACED.channels :: Compatible(REPLACED, k, PlainRelease("two", StableStatus), _ => true);
  }

  /** A rollback returns from "two" to "one"; promoting "two" once more changes no channel and no status, yet the
      rollback then stays on "two". */
  lemma RepromotionLosesTheRollbackTarget()
    ensures var again := Step(REPLACED, Promote(Stable, "two"));
            && Step(REPLACED, RollBack()).channels[STABLE] == "one"
            && again.channels == REPLACED.channels && again.releases == REPLACED.releases
            && Step(again, RollBack()).channels[STABLE] == "two"
  {
    RollbackReturns();
    PromotedAgain();
    PlainReleaseLoads(REPLACED, "two", StableStatus);
    RepromotionRollsBack(REPLACED, "target", "two", NO_OPTIONS, _ => true);
  }
}
