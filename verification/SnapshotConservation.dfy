/** No record is lost or duplicated between the labelled records and the three splits. */
module SnapshotConservation {
  import opened Wrappers
  import opened Snapshot
  import opened SnapshotProperties
  import opened Sequences
  import opened Counting

  function DuplicatesOf(d: SourceRecord): seq<string> {
    if d.metadata.duplicates.Some? then d.metadata.duplicates.value else []
  }

  /** How often an identifier is listed among the duplicates of the merged records. */
  function Listed(deduped: seq<SourceRecord>, id: string): nat {
    if deduped == [] then 0
    else Listed(deduped[..|deduped| - 1], id) + Occurrences(DuplicatesOf(deduped[|deduped| - 1]), id)
  }

  /** How often it occurs in the groups of the given keys. */
  function Grouped(records: seq<SourceRecord>, key: SourceRecord -> string, keys: seq<string>, id: string): nat {
    if keys == [] then 0
    else Grouped(records, key, keys[..|keys| - 1], id) + Occurrences(Ids(GroupOf(records, key, keys[|keys| - 1])), id)
  }

  lemma CountOneMore(records: seq<SourceRecord>, r: SourceRecord, id: string)
    ensures Occurrences(Ids(records + [r]), id) == Occurrences(Ids(records), id) + (if r.recordId == id then 1 else 0)
  {
    assert Ids(records + [r])[..|records|] == Ids(records);
  }

  lemma GroupCount(records: seq<SourceRecord>, key: SourceRecord -> string, k: string, id: string)
    requires records != []
    ensures var n := |records| - 1;
            Occurrences(Ids(GroupOf(records, key, k)), id)
            == Occurrences(Ids(GroupOf(records[..n], key, k)), id) + (if key(records[n]) == k && records[n].recordId == id then 1 else 0)
  {
    var n := |records| - 1;
    if key(records[n]) == k {
      CountOneMore(GroupOf(records[..n], key, k), records[n], id);
    } else {
      assert GroupOf(records, key, k) == GroupOf(records[..n], key, k);
    }
  }

  /** One more record is counted in the groups that include its key. */
  lemma {:induction false} OneMoreRecord(records: seq<SourceRecord>, key: SourceRecord -> string, keys: seq<string>, id: string)
    requires records != [] && Distinct(keys)
    ensures var n := |records| - 1;
            Grouped(records, key, keys, id)
            == Grouped(records[..n], key, keys, id) + (if key(records[n]) in keys && records[n].recordId == id then 1 else 0)
  {
    if keys != [] {
      var n, m := |records| - 1, |keys| - 1;
      OneMoreRecord(records, key, keys[..m], id);
      GroupCount(records, key, keys[m], id);
      var k := key(records[n]);
      assert k in keys <==> k in keys[..m] || k == keys[m];
      assert k == keys[m] ==> k !in keys[..m];
    }
  }

  lemma GroupedAfter(records: seq<SourceRecord>, key: SourceRecord -> string, keys: seq<string>, k: string, id: string)
    ensures Grouped(records, key, keys + [k], id) == Grouped(records, key, keys, id) + Occurrences(Ids(GroupOf(records, key, k)), id)
  {
    assert (keys + [k])[..|keys|] == keys;
  }

  lemma NewKeyAddsNothing(records: seq<SourceRecord>, key: SourceRecord -> string, k: string, id: string)
    requires k !in KeysOf(records, key)
    ensures Grouped(records, key, KeysOf(records, key) + [k], id) == Grouped(records, key, KeysOf(records, key), id)
  {
    GroupHasItsKey(records, key, k);
    GroupedAfter(records, key, KeysOf(records, key), k, id);
  }

  lemma IdsOneMore(records: seq<SourceRecord>, id: string)
    requires records != []
    ensures var n := |records| - 1;
            Occurrences(Ids(records), id) == Occurrences(Ids(records[..n]), id) + (if records[n].recordId == id then 1 else 0)
  {
    assert Ids(records)[..|records| - 1] == Ids(records[..|records| - 1]);
  }

  lemma LastKey(records: seq<SourceRecord>, key: SourceRecord -> string)
    requires records != []
    ensures var n := |records| - 1;
            var before := KeysOf(records[..n], key);
            && KeysOf(records, key) == (if key(records[n]) in before then before else before + [key(records[n])])
            && key(records[n]) in KeysOf(records, key)
  {
  }

  /** The groups of all keys hold each record once. */
  lemma {:induction false} GroupsConserveIds(records: seq<SourceRecord>, key: SourceRecord -> string, id: string)
    ensures Grouped(records, key, KeysOf(records, key), id) == Occurrences(Ids(records), id)
  {
    if records != [] {
      var n := |records| - 1;
      var before, k := records[..n], key(records[n]);
      GroupsConserveIds(before, key, id);
      KeysAreDistinct(records, key);
      LastKey(records, key);
      ghost var keys := KeysOf(records, key);
      OneMoreRecord(records, key, keys, id);
      IdsOneMore(records, id);
      assert Grouped(before, key, keys, id) == Grouped(before, key, KeysOf(before, key), id) by {
        if k !in KeysOf(before, key) {
          NewKeyAddsNothing(before, key, k, id);
        }
      }
    }
  }

  /** How often an identifier occurs in the groups that cannot be merged. */
  function Excluded(records: seq<SourceRecord>, key: SourceRecord -> string, keys: seq<string>, id: string): nat {
    if keys == [] then 0
    else
      var n := |keys| - 1;
      var group := GroupOf(records, key, keys[n]);
      Excluded(records, key, keys[..n], id) + (if MergeConflict(group, keys[n]).Some? then Occurrences(Ids(group), id) else 0)
  }

  lemma ListedAfter(deduped: seq<SourceRecord>, d: SourceRecord, id: string)
    ensures Listed(deduped + [d], id) == Listed(deduped, id) + Occurrences(DuplicatesOf(d), id)
  {
    assert (deduped + [d])[..|deduped|] == deduped;
  }

  lemma MergedListsIds(group: seq<SourceRecord>)
    requires group != []
    ensures DuplicatesOf(Merged(group)) == Ids(group)
  {
  }

  lemma {:induction false} MergedPlusExcluded(records: seq<SourceRecord>, key: SourceRecord -> string, keys: seq<string>, mode: ConflictMode, id: string)
    requires forall k <- keys :: GroupOf(records, key, k) != []
    requires MergeGroups(records, key, keys, mode).Ok?
    ensures Listed(MergeGroups(records, key, keys, mode).value, id) + Excluded(records, key, keys, id) == Grouped(records, key, keys, id)
    ensures mode == FailOnConflict ==> Excluded(records, key, keys, id) == 0
  {
    if keys != [] {
      var n := |keys| - 1;
      assert forall k <- keys[..n] :: k in keys;
      assert keys[n] in keys && keys[..n + 1] == keys;
      MergeStep(records, key, keys, mode, n);
      MergedPlusExcluded(records, key, keys[..n], mode, id);
      MergedListsIds(GroupOf(records, key, keys[n]));
      ListedAfter(MergeGroups(records, key, keys[..n], mode).value, Merged(GroupOf(records, key, keys[n])), id);
    }
  }

  /** Every input identifier is listed among the duplicates, as often as it was given, or belongs to a
      conflicting group; in "fail" mode no group conflicts, so the lists partition the input. */
  lemma DuplicatesPartitionTheInput(c: Contract, records: seq<SourceRecord>, mode: ConflictMode, id: string)
    requires Deduplicated(c, records, mode).Ok?
    ensures var key := NormalizedKey(c);
            var deduped := Deduplicated(c, records, mode).value;
            && Listed(deduped, id) + Excluded(records, key, KeysOf(records, key), id) == Occurrences(Ids(records), id)
            && (mode == FailOnConflict ==> Listed(deduped, id) == Occurrences(Ids(records), id))
  {
    var key := NormalizedKey(c);
    GroupingIsExact(records, key);
    GroupsConserveIds(records, key, id);
    MergedPlusExcluded(records, key, KeysOf(records, key), mode, id);
  }

  lemma {:induction false} ListedTwice(deduped: seq<SourceRecord>, i: nat, j: nat, id: string)
    requires i <= j < |deduped| && id in DuplicatesOf(deduped[i]) && id in DuplicatesOf(deduped[j])
    ensures Listed(deduped, id) > (if i == j then 0 else 1)
  {
    var n := |deduped| - 1;
    Occurs(DuplicatesOf(deduped[n]), id);
    if j < n {
      ListedTwice(deduped[..n], i, j, id);
    } else if i < n {
      ListedTwice(deduped[..n], i, i, id);
    }
  }

  lemma {:induction false} SomeListHasIt(deduped: seq<SourceRecord>, id: string) returns (i: nat)
    requires Listed(deduped, id) > 0
    ensures i < |deduped| && id in DuplicatesOf(deduped[i])
  {
    var n := |deduped| - 1;
    Occurs(DuplicatesOf(deduped[n]), id);
    if id in DuplicatesOf(deduped[n]) {
      return n;
    }
    i := SomeListHasIt(deduped[..n], id);
  }

  /** In "fail" mode an identifier given once is listed by exactly one merged record. */
  lemma EachIdInOneList(c: Contract, records: seq<SourceRecord>, id: string) returns (i: nat)
    requires Deduplicated(c, records, FailOnConflict).Ok? && Occurrences(Ids(records), id) == 1
    ensures var deduped := Deduplicated(c, records, FailOnConflict).value;
            && i < |deduped| && id in DuplicatesOf(deduped[i])
            && forall j | 0 <= j < |deduped| && id in DuplicatesOf(deduped[j]) :: j == i
  {
    var deduped := Deduplicated(c, records, FailOnConflict).value;
    DuplicatesPartitionTheInput(c, records, FailOnConflict, id);
    i := SomeListHasIt(deduped, id);
    forall j | 0 <= j < |deduped| && id in DuplicatesOf(deduped[j]) ensures j == i {
      ListedTwice(deduped, if i <= j then i else j, if i <= j then j else i, id);
    }
  }

  // ---------------------------------------------------------------------------
  // The three splits
  // ---------------------------------------------------------------------------

  lemma AssignedAfter(records: seq<SnapshotRecord>, plan: map<string, Split>, split: Split, x: SnapshotRecord)
    requires records != [] && records[|records| - 1].groupKey in plan
    ensures var n := |records| - 1;
            var here := plan[records[n].groupKey] == split;
            && Occurrences(Assigned(records, plan, split), x) == Occurrences(Assigned(records[..n], plan, split), x) + (if here && records[n] == x then 1 else 0)
            && |Assigned(records, plan, split)| == |Assigned(records[..n], plan, split)| + (if here then 1 else 0)
  {
    var n := |records| - 1;
    if plan[records[n].groupKey] == split {
      var before := Assigned(records[..n], plan, split);
      assert (before + [records[n]])[..|before|] == before;
    } else {
      assert Assigned(records, plan, split) == Assigned(records[..n], plan, split);
    }
  }

  /** Each record lies in one split, as often as it was materialised. */
  lemma {:induction false} SplitsPartitionRecords(records: seq<SnapshotRecord>, plan: map<string, Split>, x: SnapshotRecord)
    requires forall r <- records :: r.groupKey in plan
    ensures var train, validation, test := Assigned(records, plan, Train), Assigned(records, plan, Validation), Assigned(records, plan, Test);
            && Occurrences(train, x) + Occurrences(validation, x) + Occurrences(test, x) == Occurrences(records, x)
            && |train| + |validation| + |test| == |records|
  {
    if records != [] {
      var n := |records| - 1;
      SplitsPartitionRecords(records[..n], plan, x);
      AssignedAfter(records, plan, Train, x);
      AssignedAfter(records, plan, Validation, x);
      AssignedAfter(records, plan, Test, x);
      var split := plan[records[n].groupKey];
      assert split.Train? || split.Validation? || split.Test?;
    }
  }

  lemma {:induction false} AllPlannedAreMaterialized(c: Contract, records: seq<SourceRecord>, plan: map<string, Split>, newId: nat -> string)
    requires Materialized(c, records, plan, newId).Ok?
    requires forall r <- records :: c.splitGroup(r) in plan
    ensures var done := Materialized(c, records, plan, newId).value;
            |done| == |records| && forall i | 0 <= i < |done| :: done[i].source == records[i] && done[i].id == newId(i)
  {
    if records != [] {
      AllPlannedAreMaterialized(c, records[..|records| - 1], plan, newId);
    }
  }

  /** The splits hold the materialised records, each once, and the counts add up; in "fail" mode those are all
      the merged records, in their order. */
  lemma SplitsConserveRecords(c: Contract, records: seq<SourceRecord>, o: Options, rnd: Randomness, manifests: seq<Manifest>, newId: nat -> string, x: SnapshotRecord)
    requires Built(c, records, o, rnd, manifests, newId).Ok?
    ensures var b := Built(c, records, o, rnd, manifests, newId).value;
            var s := b.snapshot;
            && Occurrences(s.train, x) + Occurrences(s.validation, x) + Occurrences(s.test, x) == Occurrences(b.records, x)
            && s.count[Train] + s.count[Validation] + s.count[Test] == |b.records|
            && (o.onConflict == FailOnConflict ==>
                  |b.records| == |b.deduped| && forall i | 0 <= i < |b.deduped| :: b.records[i].source == b.deduped[i])
  {
    var b := Built(c, records, o, rnd, manifests, newId).value;
    MaterializedGroupsArePlanned(c, b.deduped, b.plan, newId);
    SplitsPartitionRecords(b.records, b.plan, x);
    if o.onConflict == FailOnConflict {
      NothingIsExcluded(c, b.deduped, o, rnd, manifests, newId);
    }
  }

  lemma NothingIsExcluded(c: Contract, deduped: seq<SourceRecord>, o: Options, rnd: Randomness, manifests: seq<Manifest>, newId: nat -> string)
    requires o.onConflict == FailOnConflict && SplitPlan(c, GroupsOf(deduped, c.splitGroup), o, rnd, manifests).Ok?
    requires Materialized(c, deduped, SplitPlan(c, GroupsOf(deduped, c.splitGroup), o, rnd, manifests).value, newId).Ok?
    ensures var done := Materialized(c, deduped, SplitPlan(c, GroupsOf(deduped, c.splitGroup), o, rnd, manifests).value, newId).value;
            |done| == |deduped| && forall i | 0 <= i < |done| :: done[i].source == deduped[i]
  {
    forall r | r in deduped ensures c.splitGroup(r) in SplitPlan(c, GroupsOf(deduped, c.splitGroup), o, rnd, manifests).value {
      AllGroupsArePlanned(c, deduped, o, rnd, manifests, r);
    }
    AllPlannedAreMaterialized(c, deduped, SplitPlan(c, GroupsOf(deduped, c.splitGroup), o, rnd, manifests).value, newId);
  }

  lemma AllGroupsArePlanned(c: Contract, deduped: seq<SourceRecord>, o: Options, rnd: Randomness, manifests: seq<Manifest>, r: SourceRecord)
    requires o.onConflict == FailOnConflict && r in deduped
    requires SplitPlan(c, GroupsOf(deduped, c.splitGroup), o, rnd, manifests).Ok?
    ensures c.splitGroup(r) in SplitPlan(c, GroupsOf(deduped, c.splitGroup), o, rnd, manifests).value
  {
    var groups := GroupsOf(deduped, c.splitGroup);
    var views, keys := Views(c, groups), Sorted(groups.order, ByRank(Seeded(o, rnd)));
    GroupingIsExact(deduped, c.splitGroup);
    assert r in GroupOf(deduped, c.splitGroup, c.splitGroup(r));
    SortKeepsKeys(groups.order, Seeded(o, rnd));
    SortIsDistinct(groups.order, Seeded(o, rnd));
    var i :| 0 <= i < |keys| && keys[i] == c.splitGroup(r);
    PlanEntry(views, keys, o, rnd, ConsumedKeys(manifests), i);
  }
}
