/** What a snapshot promises: isolated splits, permission, no record lost, and a plan that ignores order. */
module SnapshotProperties {
  import opened Wrappers
  import opened Snapshot
  import opened Sequences

  function RoleOf(split: Split): Role {
    match split
    case Train => TrainRole
    case Validation => ValidationCandidate
    case Test => TestCandidate
  }

  // ---------------------------------------------------------------------------
  // Merged records
  // ---------------------------------------------------------------------------

  ghost predicate MergedFrom(d: SourceRecord, c: Contract, records: seq<SourceRecord>) {
    var group := GroupOf(records, NormalizedKey(c), c.normalizeInput(d.input));
    group != [] && d == Merged(group) && MergeConflict(group, c.normalizeInput(d.input)).None?
  }

  lemma MergedGroup(c: Contract, records: seq<SourceRecord>, k: string)
    requires GroupOf(records, NormalizedKey(c), k) != []
    ensures var group := GroupOf(records, NormalizedKey(c), k);
            && c.normalizeInput(Merged(group).input) == k
            && (MergeConflict(group, k).None? ==> MergedFrom(Merged(group), c, records))
  {
    GroupHasItsKey(records, NormalizedKey(c), k);
    var group := GroupOf(records, NormalizedKey(c), k);
    assert group[0] in group;
  }

  /** Every merged record stands for one whole group of duplicates. */
  lemma {:induction false} MergedRecordIsGroup(c: Contract, records: seq<SourceRecord>, keys: seq<string>, mode: ConflictMode, i: nat)
    requires forall k <- keys :: GroupOf(records, NormalizedKey(c), k) != []
    requires MergeGroups(records, NormalizedKey(c), keys, mode).Ok? && i < |MergeGroups(records, NormalizedKey(c), keys, mode).value|
    ensures var d := MergeGroups(records, NormalizedKey(c), keys, mode).value[i];
            MergedFrom(d, c, records) && c.normalizeInput(d.input) in keys
  {
    var n := |keys| - 1;
    var before := MergeGroups(records, NormalizedKey(c), keys[..n], mode).value;
    assert forall k <- keys[..n] :: k in keys;
    if i < |before| {
      MergedRecordIsGroup(c, records, keys[..n], mode, i);
    } else {
      MergedGroup(c, records, keys[n]);
      assert keys[n] in keys;
    }
  }

  lemma MergedRecordsAreGroups(c: Contract, records: seq<SourceRecord>, keys: seq<string>, mode: ConflictMode)
    requires forall k <- keys :: GroupOf(records, NormalizedKey(c), k) != []
    requires MergeGroups(records, NormalizedKey(c), keys, mode).Ok?
    ensures forall d <- MergeGroups(records, NormalizedKey(c), keys, mode).value ::
              MergedFrom(d, c, records) && c.normalizeInput(d.input) in keys
  {
    var deduped := MergeGroups(records, NormalizedKey(c), keys, mode).value;
    forall d | d in deduped ensures MergedFrom(d, c, records) && c.normalizeInput(d.input) in keys {
      var i :| 0 <= i < |deduped| && deduped[i] == d;
      MergedRecordIsGroup(c, records, keys, mode, i);
    }
  }

  ghost predicate DistinctInputs(c: Contract, deduped: seq<SourceRecord>) {
    forall i, j | 0 <= i < j < |deduped| :: c.normalizeInput(deduped[i].input) != c.normalizeInput(deduped[j].input)
  }

  lemma {:induction false} MergedRecordsAreDistinct(c: Contract, records: seq<SourceRecord>, keys: seq<string>, mode: ConflictMode)
    requires forall k <- keys :: GroupOf(records, NormalizedKey(c), k) != []
    requires Distinct(keys) && MergeGroups(records, NormalizedKey(c), keys, mode).Ok?
    ensures DistinctInputs(c, MergeGroups(records, NormalizedKey(c), keys, mode).value)
  {
    if keys != [] {
      var n := |keys| - 1;
      MergedRecordsAreDistinct(c, records, keys[..n], mode);
      MergedRecordsAreGroups(c, records, keys[..n], mode);
      MergedGroup(c, records, keys[n]);
      assert forall k <- keys[..n] :: k != keys[n];
    }
  }

  /** A group without conflict is merged. */
  lemma {:induction false} MergeableGroupsAreMerged(c: Contract, records: seq<SourceRecord>, keys: seq<string>, mode: ConflictMode, i: nat)
    requires forall k <- keys :: GroupOf(records, NormalizedKey(c), k) != []
    requires i < |keys| && MergeGroups(records, NormalizedKey(c), keys, mode).Ok?
    ensures MergeConflict(GroupOf(records, NormalizedKey(c), keys[i]), keys[i]).None?
            ==> Merged(GroupOf(records, NormalizedKey(c), keys[i])) in MergeGroups(records, NormalizedKey(c), keys, mode).value
  {
    var n := |keys| - 1;
    assert forall k <- keys[..n] :: k in keys;
    assert keys[..n + 1] == keys;
    MergeStep(records, NormalizedKey(c), keys, mode, n);
    if i < n {
      MergeableGroupsAreMerged(c, records, keys[..n], mode, i);
    }
  }

  lemma DeduplicationIsExact(c: Contract, records: seq<SourceRecord>, mode: ConflictMode)
    requires Deduplicated(c, records, mode).Ok?
    ensures var deduped := Deduplicated(c, records, mode).value;
            && (forall d <- deduped :: MergedFrom(d, c, records))
            && DistinctInputs(c, deduped)
  {
    GroupingIsExact(records, NormalizedKey(c));
    MergedRecordsAreGroups(c, records, KeysOf(records, NormalizedKey(c)), mode);
    MergedRecordsAreDistinct(c, records, KeysOf(records, NormalizedKey(c)), mode);
  }

  lemma EligibleForAll(group: seq<SourceRecord>, role: Role)
    requires !role.UnknownRole?
    ensures role in Intersection(Eligibilities(group)) <==> group != [] && forall r <- group :: role in r.eligibility
  {
    var lists := Eligibilities(group);
    assert forall r <- group :: r.eligibility in lists by {
      forall r | r in group ensures r.eligibility in lists {
        var i :| 0 <= i < |group| && group[i] == r;
        assert lists[i] == r.eligibility;
      }
    }
    assert Common(lists, role) <==> group != [] && forall r <- group :: role in r.eligibility;
  }

  // ---------------------------------------------------------------------------
  // The plan, entry by entry
  // ---------------------------------------------------------------------------

  /** What a plan says of a group that would draw `roll`. */
  ghost predicate Entry(plan: map<string, Split>, v: View, k: string, o: Options, consumed: set<string>, roll: real) {
    && (k in plan <==> v.eligibility != [])
    && (k in plan ==> SplitOf(k, v, o, consumed, roll) == Some(plan[k]))
    && (v.eligibility == [] ==> o.onConflict == ExcludeOnConflict)
  }

  /** The plan holds exactly the groups with a common legal split, each with the split it drew. */
  lemma {:induction false} PlanEntry(views: map<string, View>, keys: seq<string>, o: Options, rnd: Randomness, consumed: set<string>, i: nat)
    requires forall k <- keys :: k in views
    requires Distinct(keys) && i < |keys| && PlanOver(views, keys, o, rnd, consumed).Ok?
    ensures Entry(PlanOver(views, keys, o, rnd, consumed).value, views[keys[i]], keys[i], o, consumed, rnd.roll(o.seed, Draws(views, keys[..i])))
  {
    var n := |keys| - 1;
    assert keys[..n + 1] == keys;
    assert keys[..n][..i] == keys[..i];
    assert PlanOver(views, keys[..n], o, rnd, consumed).Ok?;
    PlanStep(views, keys, o, rnd, consumed, n);
    if i < n {
      PlanEntry(views, keys[..n], o, rnd, consumed, i);
      assert keys[i] != keys[n];
    } else {
      PlannedGroupsAreKeys(views, keys[..n], o, rnd, consumed);
      assert keys[n] !in keys[..n];
    }
  }

  lemma {:induction false} PlannedGroupsAreKeys(views: map<string, View>, keys: seq<string>, o: Options, rnd: Randomness, consumed: set<string>)
    requires forall k <- keys :: k in views
    requires PlanOver(views, keys, o, rnd, consumed).Ok?
    ensures forall k <- PlanOver(views, keys, o, rnd, consumed).value :: k in keys
  {
    if keys != [] {
      assert keys == keys[..|keys| - 1] + [keys[|keys| - 1]];
      PlannedGroupsAreKeys(views, keys[..|keys| - 1], o, rnd, consumed);
    }
  }

  lemma ChosenSplitIsLegal(k: string, v: View, o: Options, consumed: set<string>, roll: real)
    ensures SplitOf(k, v, o, consumed, roll).Some? ==>
              var split := SplitOf(k, v, o, consumed, roll).value;
              RoleOf(split) in v.eligibility && (split != Train ==> HiddenAllowed(k, v, consumed))
    ensures !HiddenAllowed(k, v, consumed) ==>
              SplitOf(k, v, o, consumed, roll) == if TrainRole in v.eligibility then Some(Train) else None
  {
    var choices := Choices(v, HiddenAllowed(k, v, consumed));
    assert forall split <- choices :: RoleOf(split) in v.eligibility && (split != Train ==> HiddenAllowed(k, v, consumed));
    if choices != [] {
      assert choices[0] in choices;
    }
  }

  /** A split that the group's permissions and the consumed rows leave open. */
  predicate LegalSplit(k: string, v: View, consumed: set<string>, split: Split) {
    RoleOf(split) in v.eligibility && (split == Train || HiddenAllowed(k, v, consumed))
  }

  /** A group gets the split its roll asks for when that is legal, and otherwise the first legal one of train,
      validation and test; the roll asks for test and for validation over ranges of just their fractions. */
  lemma SplitFollowsTheRoll(k: string, v: View, o: Options, consumed: set<string>, roll: real)
    ensures var split := SplitOf(k, v, o, consumed, roll);
            var asked := Desired(o, roll);
            && (split.None? <==> forall s: Split :: !LegalSplit(k, v, consumed, s))
            && (LegalSplit(k, v, consumed, asked) ==> split == Some(asked))
            && (!LegalSplit(k, v, consumed, asked) && split.Some? ==>
                  && LegalSplit(k, v, consumed, split.value)
                  && (split == Some(Train) || !LegalSplit(k, v, consumed, Train))
                  && (split == Some(Test) ==> !LegalSplit(k, v, consumed, Validation)))
    ensures Desired(o, roll) == Test <==> roll < o.testFraction
    ensures Desired(o, roll) == Validation <==> o.testFraction <= roll < o.testFraction + o.validationFraction
  {
    var choices := Choices(v, HiddenAllowed(k, v, consumed));
    assert forall s: Split :: s in choices <==> LegalSplit(k, v, consumed, s) by {
      forall s: Split ensures s in choices <==> LegalSplit(k, v, consumed, s) {
        assert s.Train? || s.Validation? || s.Test?;
      }
    }
    if choices != [] {
      assert choices[0] in choices;
    }
  }

  /** A planned split is legal for its group, and hidden only when nothing of the group was consumed. */
  lemma PlannedSplitIsLegal(c: Contract, groups: Groups, o: Options, rnd: Randomness, manifests: seq<Manifest>, k: string)
    requires forall g <- groups.order :: g in groups.members
    requires Distinct(groups.order)
    requires SplitPlan(c, groups, o, rnd, manifests).Ok? && k in SplitPlan(c, groups, o, rnd, manifests).value
    ensures var split := SplitPlan(c, groups, o, rnd, manifests).value[k];
            && k in groups.order
            && RoleOf(split) in ViewOf(c, groups.members[k]).eligibility
            && (split != Train ==> HiddenAllowed(k, ViewOf(c, groups.members[k]), ConsumedKeys(manifests)))
  {
    var i := PlannedAt(c, groups, o, rnd, manifests, k);
    var views, keys := Views(c, groups), Sorted(groups.order, ByRank(Seeded(o, rnd)));
    SortKeepsKeys(groups.order, Seeded(o, rnd));
    ChosenSplitIsLegal(k, views[k], o, ConsumedKeys(manifests), rnd.roll(o.seed, Draws(views, keys[..i])));
  }

  lemma PlannedAt(c: Contract, groups: Groups, o: Options, rnd: Randomness, manifests: seq<Manifest>, k: string) returns (i: nat)
    requires forall g <- groups.order :: g in groups.members
    requires Distinct(groups.order)
    requires SplitPlan(c, groups, o, rnd, manifests).Ok? && k in SplitPlan(c, groups, o, rnd, manifests).value
    ensures var views, keys := Views(c, groups), Sorted(groups.order, ByRank(Seeded(o, rnd)));
            && k in groups.order && i < |keys| && keys[i] == k
            && (forall g <- keys :: g in views)
            && SplitOf(k, views[k], o, ConsumedKeys(manifests), rnd.roll(o.seed, Draws(views, keys[..i])))
               == Some(SplitPlan(c, groups, o, rnd, manifests).value[k])
  {
    var views, keys := Views(c, groups), Sorted(groups.order, ByRank(Seeded(o, rnd)));
    SortKeepsKeys(groups.order, Seeded(o, rnd));
    SortIsDistinct(groups.order, Seeded(o, rnd));
    PlannedGroupsAreKeys(views, keys, o, rnd, ConsumedKeys(manifests));
    i :| 0 <= i < |keys| && keys[i] == k;
    PlanEntry(views, keys, o, rnd, ConsumedKeys(manifests), i);
  }

  lemma {:induction false} InsertIsDistinct(k: string, sorted: seq<string>, rank: string -> int)
    requires Distinct(sorted) && k !in sorted
    ensures Distinct(Inserted(k, sorted, ByRank(rank)))
  {
    if sorted != [] && rank(k) >= rank(sorted[0]) {
      InsertIsDistinct(k, sorted[1..], rank);
      InsertKeepsKeys(k, sorted[1..], rank);
      assert sorted[0] !in multiset(Inserted(k, sorted[1..], ByRank(rank))) by {
        assert sorted[0] !in sorted[1..];
      }
    }
  }

  lemma {:induction false} SortIsDistinct(keys: seq<string>, rank: string -> int)
    requires Distinct(keys)
    ensures Distinct(Sorted(keys, ByRank(rank)))
  {
    if keys != [] {
      var n := |keys| - 1;
      SortIsDistinct(keys[..n], rank);
      SortKeepsKeys(keys[..n], rank);
      InsertIsDistinct(keys[n], Sorted(keys[..n], ByRank(rank)), rank);
    }
  }

  // ---------------------------------------------------------------------------
  // Isolation and permission
  // ---------------------------------------------------------------------------

  lemma {:induction false} AssignedRows(records: seq<SnapshotRecord>, plan: map<string, Split>, split: Split)
    ensures forall r: SnapshotRecord :: r in Assigned(records, plan, split) <==> r in records && r.groupKey in plan && plan[r.groupKey] == split
  {
    if records != [] {
      var n := |records| - 1;
      AssignedRows(records[..n], plan, split);
      assert records == records[..n] + [records[n]];
    }
  }

  lemma RowsArePlanned(b: Build, split: Split)
    requires b.snapshot == Partitioned(b.records, b.plan)
    ensures forall r: SnapshotRecord :: r in Rows(b.snapshot, split) <==> r in b.records && r.groupKey in b.plan && b.plan[r.groupKey] == split
  {
    AssignedRows(b.records, b.plan, split);
    assert split.Train? || split.Validation? || split.Test?;
  }

  ghost predicate DistinctKeys(rows: seq<SnapshotRecord>) {
    forall i, j | 0 <= i < j < |rows| :: rows[i].normalizedKey != rows[j].normalizedKey
  }

  lemma {:induction false} MaterializedKeysAreDistinct(c: Contract, records: seq<SourceRecord>, plan: map<string, Split>, newId: nat -> string)
    requires DistinctInputs(c, records) && Materialized(c, records, plan, newId).Ok?
    ensures DistinctKeys(Materialized(c, records, plan, newId).value)
  {
    if records != [] {
      var n := |records| - 1;
      MaterializedKeysAreDistinct(c, records[..n], plan, newId);
      MaterializedGroupsArePlanned(c, records[..n], plan, newId);
      assert forall r <- records[..n] :: c.normalizeInput(r.input) != c.normalizeInput(records[n].input);
    }
  }

  lemma RowsOfTwoSplits(b: Build, one: Split, other: Split, x: SnapshotRecord, y: SnapshotRecord)
    requires b.snapshot == Partitioned(b.records, b.plan) && DistinctKeys(b.records) && one != other
    requires x in Rows(b.snapshot, one) && y in Rows(b.snapshot, other)
    ensures x.normalizedKey != y.normalizedKey && x.groupKey != y.groupKey
  {
    RowsArePlanned(b, one);
    RowsArePlanned(b, other);
    var i :| 0 <= i < |b.records| && b.records[i] == x;
    var j :| 0 <= j < |b.records| && b.records[j] == y;
  }

  /** No normalized key occurs twice, and no group lies in two splits. */
  ghost predicate Isolated(b: Build) {
    && DistinctKeys(b.records)
    && forall one: Split, other: Split, x: SnapshotRecord, y: SnapshotRecord ::
         one != other && x in Rows(b.snapshot, one) && y in Rows(b.snapshot, other)
         ==> x.normalizedKey != y.normalizedKey && x.groupKey != y.groupKey
  }

  lemma DistinctKeysIsolate(b: Build)
    requires b.snapshot == Partitioned(b.records, b.plan) && DistinctKeys(b.records)
    ensures Isolated(b)
  {
    forall one: Split, other: Split, x: SnapshotRecord, y: SnapshotRecord
      | one != other && x in Rows(b.snapshot, one) && y in Rows(b.snapshot, other)
      ensures x.normalizedKey != y.normalizedKey && x.groupKey != y.groupKey
    {
      RowsOfTwoSplits(b, one, other, x, y);
    }
  }

  lemma SnapshotIsIsolated(c: Contract, records: seq<SourceRecord>, o: Options, rnd: Randomness, manifests: seq<Manifest>, newId: nat -> string)
    requires Built(c, records, o, rnd, manifests, newId).Ok?
    ensures Isolated(Built(c, records, o, rnd, manifests, newId).value)
  {
    var b := Built(c, records, o, rnd, manifests, newId).value;
    DeduplicationIsExact(c, records, o.onConflict);
    MaterializedKeysAreDistinct(c, b.deduped, b.plan, newId);
    DistinctKeysIsolate(b);
  }

  /** `r` was merged into `d`. */
  ghost predicate MergedInput(c: Contract, r: SourceRecord, d: SourceRecord) {
    c.normalizeInput(r.input) == c.normalizeInput(d.input)
  }

  /** The split was allowed by every source record merged into any record of the row's group; the row's own
      duplicates are among them. */
  ghost predicate PermittedRow(c: Contract, records: seq<SourceRecord>, b: Build, split: Split, x: SnapshotRecord) {
    && x.source in b.deduped && c.splitGroup(x.source) == x.groupKey && c.normalizeInput(x.source.input) == x.normalizedKey
    && (forall d <- b.deduped, r <- records | c.splitGroup(d) == x.groupKey && MergedInput(c, r, d) :: RoleOf(split) in r.eligibility)
  }

  lemma RowIsPermitted(c: Contract, records: seq<SourceRecord>, o: Options, rnd: Randomness, manifests: seq<Manifest>, newId: nat -> string, split: Split, x: SnapshotRecord)
    requires Built(c, records, o, rnd, manifests, newId).Ok?
    requires x in Rows(Built(c, records, o, rnd, manifests, newId).value.snapshot, split)
    ensures PermittedRow(c, records, Built(c, records, o, rnd, manifests, newId).value, split, x)
  {
    var b := Built(c, records, o, rnd, manifests, newId).value;
    RowsArePlanned(b, split);
    MaterializedGroupsArePlanned(c, b.deduped, b.plan, newId);
    var groups := GroupsOf(b.deduped, c.splitGroup);
    GroupingIsExact(b.deduped, c.splitGroup);
    PlannedSplitIsLegal(c, groups, o, rnd, manifests, x.groupKey);
    var group := GroupOf(b.deduped, c.splitGroup, x.groupKey);
    EligibleForAll(group, RoleOf(split));
    DeduplicationIsExact(c, records, o.onConflict);
    forall d, r | d in b.deduped && r in records && c.splitGroup(d) == x.groupKey && MergedInput(c, r, d)
      ensures RoleOf(split) in r.eligibility
    {
      assert d in group;
      MergedEligibility(c, records, d, r, RoleOf(split));
    }
  }

  /** In every snapshot that is built, every row lies in a split that all its sources allowed. */
  lemma SplitsArePermitted(c: Contract, records: seq<SourceRecord>, o: Options, rnd: Randomness, manifests: seq<Manifest>, newId: nat -> string)
    requires Built(c, records, o, rnd, manifests, newId).Ok?
    ensures var b := Built(c, records, o, rnd, manifests, newId).value;
            forall split: Split, x: SnapshotRecord :: x in Rows(b.snapshot, split) ==> PermittedRow(c, records, b, split, x)
  {
    var b := Built(c, records, o, rnd, manifests, newId).value;
    forall split: Split, x: SnapshotRecord | x in Rows(b.snapshot, split) ensures PermittedRow(c, records, b, split, x) {
      RowIsPermitted(c, records, o, rnd, manifests, newId, split, x);
    }
  }

  lemma MergedEligibility(c: Contract, records: seq<SourceRecord>, d: SourceRecord, r: SourceRecord, role: Role)
    requires MergedFrom(d, c, records) && r in records && MergedInput(c, r, d) && role in d.eligibility && !role.UnknownRole?
    ensures role in r.eligibility
  {
    var group := GroupOf(records, NormalizedKey(c), c.normalizeInput(d.input));
    GroupingIsExact(records, NormalizedKey(c));
    EligibleForAll(group, role);
  }

  lemma HiddenRowIsFresh(c: Contract, records: seq<SourceRecord>, o: Options, rnd: Randomness, manifests: seq<Manifest>, newId: nat -> string, split: Split, x: SnapshotRecord)
    requires Built(c, records, o, rnd, manifests, newId).Ok? && split != Train
    requires x in Rows(Built(c, records, o, rnd, manifests, newId).value.snapshot, split)
    ensures x.normalizedKey !in ConsumedKeys(manifests) && x.groupKey !in ConsumedKeys(manifests)
  {
    var b := Built(c, records, o, rnd, manifests, newId).value;
    RowsArePlanned(b, split);
    MaterializedGroupsArePlanned(c, b.deduped, b.plan, newId);
    GroupingIsExact(b.deduped, c.splitGroup);
    PlannedSplitIsLegal(c, GroupsOf(b.deduped, c.splitGroup), o, rnd, manifests, x.groupKey);
    var v := ViewOf(c, GroupOf(b.deduped, c.splitGroup, x.groupKey));
    assert x.source in GroupOf(b.deduped, c.splitGroup, x.groupKey);
    assert x.normalizedKey in v.normalizedKeys;
  }

  /** A holdout row shares neither its normalized key nor its group with any row consumed before the build. */
  lemma ConsumedNeverHidden(c: Contract, records: seq<SourceRecord>, o: Options, rnd: Randomness, manifests: seq<Manifest>, newId: nat -> string)
    requires Built(c, records, o, rnd, manifests, newId).Ok?
    ensures var s := Built(c, records, o, rnd, manifests, newId).value.snapshot;
            forall x <- s.validation + s.test :: x.normalizedKey !in ConsumedKeys(manifests) && x.groupKey !in ConsumedKeys(manifests)
  {
    var s := Built(c, records, o, rnd, manifests, newId).value.snapshot;
    forall x | x in s.validation + s.test ensures x.normalizedKey !in ConsumedKeys(manifests) && x.groupKey !in ConsumedKeys(manifests) {
      HiddenRowIsFresh(c, records, o, rnd, manifests, newId, if x in s.validation then Validation else Test, x);
    }
  }
}
