/** When the outcome of a whole build ignores the order of the source records. The merging of duplicates keeps the
    first of each group, so the order can show through the contract's split group; and when several groups cannot
    be merged, it shows in which of them the error names. It shows nowhere else. */
module SnapshotOrder {
  import opened Wrappers
  import opened Domain
  import opened Snapshot
  import opened SnapshotProperties
  import opened SnapshotPlans
  import opened Sequences

  /** The plan for labelled records, or the first error, of merging or of planning. */
  function PlanFor(c: Contract, records: seq<SourceRecord>, o: Options, rnd: Randomness, manifests: seq<Manifest>): Result<map<string, Split>, Error> {
    var deduped := Deduplicated(c, records, o.onConflict);
    if deduped.Err? then Err(deduped.error) else SplitPlan(c, GroupsOf(deduped.value, c.splitGroup), o, rnd, manifests)
  }

  /** Duplicates of one input that can be merged. */
  ghost predicate Mergeable(c: Contract, group: seq<SourceRecord>) {
    && group != []
    && (forall r <- group :: c.normalizeInput(r.input) == c.normalizeInput(group[0].input))
    && MergeConflict(group, c.normalizeInput(group[0].input)).None?
  }

  /** The split group of merged duplicates does not depend on which of them comes first. */
  ghost predicate GroupingIgnoresOrder(c: Contract) {
    forall g: seq<SourceRecord>, h: seq<SourceRecord> ::
      Mergeable(c, g) && multiset(g) == multiset(h) ==> c.splitGroup(Merged(g)) == c.splitGroup(Merged(h))
  }

  lemma {:induction false} GroupCounts(records: seq<SourceRecord>, key: SourceRecord -> string, k: string, r: SourceRecord)
    ensures multiset(GroupOf(records, key, k))[r] == if key(r) == k then multiset(records)[r] else 0
  {
    if records != [] {
      var n := |records| - 1;
      GroupCounts(records[..n], key, k, r);
      assert records == records[..n] + [records[n]];
    }
  }

  lemma PermutedGroups(a: seq<SourceRecord>, b: seq<SourceRecord>, key: SourceRecord -> string, k: string)
    requires multiset(a) == multiset(b)
    ensures multiset(GroupOf(a, key, k)) == multiset(GroupOf(b, key, k))
  {
    forall r: SourceRecord ensures multiset(GroupOf(a, key, k))[r] == multiset(GroupOf(b, key, k))[r] {
      GroupCounts(a, key, k, r);
      GroupCounts(b, key, k, r);
    }
  }

  lemma SameElements(g: seq<SourceRecord>, h: seq<SourceRecord>)
    requires multiset(g) == multiset(h)
    ensures SameRecords(g, h)
    ensures g == [] <==> h == []
  {
    forall r: SourceRecord ensures r in g <==> r in h {
      assert r in g <==> r in multiset(g);
      assert r in h <==> r in multiset(h);
    }
    if g != [] {
      assert g[0] in h;
    }
    if h != [] {
      assert h[0] in g;
    }
  }

  lemma ConflictIgnoresOrder(c: Contract, g: seq<SourceRecord>, h: seq<SourceRecord>, k: string)
    requires SameRecords(g, h)
    ensures Intersection(Eligibilities(g)) == Intersection(Eligibilities(h))
    ensures MergeConflict(g, k) == MergeConflict(h, k)
  {
    assert Profiles(c, g) == Profiles(c, h);
    AlikeGroupsLookAlike(c, g, h);
    assert ReferencesAgree(g) <==> ReferencesAgree(h);
  }

  ghost predicate Conflicts(records: seq<SourceRecord>, key: SourceRecord -> string, k: string) {
    MergeConflict(GroupOf(records, key, k), k).Some?
  }

  lemma {:induction false} MergingSucceeds(records: seq<SourceRecord>, key: SourceRecord -> string, keys: seq<string>, mode: ConflictMode)
    requires forall k <- keys :: GroupOf(records, key, k) != []
    ensures MergeGroups(records, key, keys, mode).Ok? <==> mode == ExcludeOnConflict || forall k <- keys :: !Conflicts(records, key, k)
  {
    if keys != [] {
      var n := |keys| - 1;
      assert keys[..n + 1] == keys;
      assert forall k <- keys[..n] :: k in keys;
      assert forall k <- keys :: k in keys[..n] || k == keys[n];
      MergingSucceeds(records, key, keys[..n], mode);
      if MergeGroups(records, key, keys[..n], mode).Ok? {
        MergeStep(records, key, keys, mode, n);
        assert MergeGroups(records, key, keys, mode).Ok? <==> mode == ExcludeOnConflict || !Conflicts(records, key, keys[n]);
      } else {
        MergeErrorPersists(records, key, keys, mode, n);
      }
    }
  }

  /** Merging succeeds for one order exactly when it does for another. */
  lemma MergingIgnoresOrder(c: Contract, a: seq<SourceRecord>, b: seq<SourceRecord>, mode: ConflictMode)
    requires multiset(a) == multiset(b) && Deduplicated(c, a, mode).Ok?
    ensures Deduplicated(c, b, mode).Ok?
  {
    var key := NormalizedKey(c);
    GroupingIsExact(a, key);
    GroupingIsExact(b, key);
    MergingSucceeds(a, key, KeysOf(a, key), mode);
    MergingSucceeds(b, key, KeysOf(b, key), mode);
    forall k | k in KeysOf(b, key) ensures k in KeysOf(a, key) && MergeConflict(GroupOf(a, key, k), k) == MergeConflict(GroupOf(b, key, k), k) {
      PermutedGroups(a, b, key, k);
      SameElements(GroupOf(a, key, k), GroupOf(b, key, k));
      ConflictIgnoresOrder(c, GroupOf(a, key, k), GroupOf(b, key, k), k);
    }
  }

  /** What the plan sees of two merged records is the same. */
  ghost predicate Counterparts(c: Contract, d: SourceRecord, e: SourceRecord) {
    && d.eligibility == e.eligibility
    && c.normalizeInput(d.input) == c.normalizeInput(e.input)
    && c.splitGroup(d) == c.splitGroup(e)
  }

  lemma Counterpart(c: Contract, a: seq<SourceRecord>, b: seq<SourceRecord>, mode: ConflictMode, d: SourceRecord) returns (e: SourceRecord)
    requires GroupingIgnoresOrder(c) && multiset(a) == multiset(b)
    requires Deduplicated(c, a, mode).Ok? && Deduplicated(c, b, mode).Ok?
    requires d in Deduplicated(c, a, mode).value
    ensures e in Deduplicated(c, b, mode).value && Counterparts(c, d, e)
  {
    var key, k := NormalizedKey(c), c.normalizeInput(d.input);
    var g, h := GroupOf(a, key, k), GroupOf(b, key, k);
    e := MergedInBoth(c, a, b, mode, d);
    PermutedGroups(a, b, key, k);
    SameElements(g, h);
    ConflictIgnoresOrder(c, g, h, k);
    assert Mergeable(c, g) by {
      GroupHasItsKey(a, key, k);
      assert g[0] in g;
    }
  }

  lemma MergedInBoth(c: Contract, a: seq<SourceRecord>, b: seq<SourceRecord>, mode: ConflictMode, d: SourceRecord) returns (e: SourceRecord)
    requires multiset(a) == multiset(b)
    requires Deduplicated(c, a, mode).Ok? && Deduplicated(c, b, mode).Ok?
    requires d in Deduplicated(c, a, mode).value
    ensures var key, k := NormalizedKey(c), c.normalizeInput(d.input);
            var g, h := GroupOf(a, key, k), GroupOf(b, key, k);
            && g != [] && h != [] && d == Merged(g) && e == Merged(h) && MergeConflict(g, k).None?
            && e in Deduplicated(c, b, mode).value && c.normalizeInput(e.input) == k
  {
    var key, k := NormalizedKey(c), c.normalizeInput(d.input);
    var g, h := GroupOf(a, key, k), GroupOf(b, key, k);
    DeduplicationIsExact(c, a, mode);
    assert MergedFrom(d, c, a);
    PermutedGroups(a, b, key, k);
    SameElements(g, h);
    ConflictIgnoresOrder(c, g, h, k);
    GroupingIsExact(b, key);
    var keys := KeysOf(b, key);
    assert k in keys;
    var i :| 0 <= i < |keys| && keys[i] == k;
    MergeableGroupsAreMerged(c, b, keys, mode, i);
    MergedGroup(c, b, k);
    e := Merged(h);
  }

  lemma InCounterpartGroup(c: Contract, a: seq<SourceRecord>, b: seq<SourceRecord>, mode: ConflictMode, group: string, d: SourceRecord) returns (e: SourceRecord)
    requires GroupingIgnoresOrder(c) && multiset(a) == multiset(b)
    requires Deduplicated(c, a, mode).Ok? && Deduplicated(c, b, mode).Ok?
    requires d in GroupOf(Deduplicated(c, a, mode).value, c.splitGroup, group)
    ensures e in GroupOf(Deduplicated(c, b, mode).value, c.splitGroup, group) && Counterparts(c, d, e)
  {
    var dedupedA, dedupedB := Deduplicated(c, a, mode).value, Deduplicated(c, b, mode).value;
    assert d in dedupedA && c.splitGroup(d) == group by {
      GroupHasItsKey(dedupedA, c.splitGroup, group);
    }
    e := Counterpart(c, a, b, mode, d);
    var i :| 0 <= i < |dedupedB| && dedupedB[i] == e;
    RecordInItsGroup(dedupedB, c.splitGroup, i);
  }

  lemma ProfilesIncluded(c: Contract, a: seq<SourceRecord>, b: seq<SourceRecord>, o: Options, group: string)
    requires GroupingIgnoresOrder(c) && multiset(a) == multiset(b)
    requires Deduplicated(c, a, o.onConflict).Ok? && Deduplicated(c, b, o.onConflict).Ok?
    ensures var dedupedA, dedupedB := Deduplicated(c, a, o.onConflict).value, Deduplicated(c, b, o.onConflict).value;
            && Profiles(c, GroupOf(dedupedA, c.splitGroup, group)) <= Profiles(c, GroupOf(dedupedB, c.splitGroup, group))
            && (group in KeysOf(dedupedA, c.splitGroup) ==> group in KeysOf(dedupedB, c.splitGroup))
  {
    var dedupedA, dedupedB := Deduplicated(c, a, o.onConflict).value, Deduplicated(c, b, o.onConflict).value;
    var g, h := GroupOf(dedupedA, c.splitGroup, group), GroupOf(dedupedB, c.splitGroup, group);
    forall d | d in g ensures h != [] && (d.eligibility, c.normalizeInput(d.input)) in Profiles(c, h) {
      var e := InCounterpartGroup(c, a, b, o.onConflict, group, d);
    }
    GroupHasItsKey(dedupedA, c.splitGroup, group);
    GroupHasItsKey(dedupedB, c.splitGroup, group);
    assert g != [] ==> g[0] in g;
  }

  lemma MergedPlanIgnoresOrder(c: Contract, a: seq<SourceRecord>, b: seq<SourceRecord>, o: Options, rnd: Randomness, manifests: seq<Manifest>)
    requires Injective(Seeded(o, rnd)) && GroupingIgnoresOrder(c) && multiset(a) == multiset(b)
    requires Deduplicated(c, a, o.onConflict).Ok?
    ensures PlanFor(c, a, o, rnd, manifests) == PlanFor(c, b, o, rnd, manifests)
  {
    MergingIgnoresOrder(c, a, b, o.onConflict);
    var dedupedA, dedupedB := Deduplicated(c, a, o.onConflict).value, Deduplicated(c, b, o.onConflict).value;
    var key := c.splitGroup;
    forall k: string ensures (k in KeysOf(dedupedA, key) <==> k in KeysOf(dedupedB, key))
                             && ViewOf(c, GroupOf(dedupedA, key, k)) == ViewOf(c, GroupOf(dedupedB, key, k))
    {
      ProfilesIncluded(c, a, b, o, k);
      ProfilesIncluded(c, b, a, o, k);
      AlikeGroupsLookAlike(c, GroupOf(dedupedA, key, k), GroupOf(dedupedB, key, k));
    }
    KeysAreDistinct(dedupedA, key);
    KeysAreDistinct(dedupedB, key);
    PlanReadsOnlyViews(c, GroupsOf(dedupedA, key), GroupsOf(dedupedB, key), o, rnd, manifests);
  }

  /** A contract whose split groups ignore order gives, for every order of the records, one plan or one planning
      error; whether merging succeeds is the same for all contracts. */
  lemma PlanForIgnoresOrder(c: Contract, a: seq<SourceRecord>, b: seq<SourceRecord>, o: Options, rnd: Randomness, manifests: seq<Manifest>)
    requires Injective(Seeded(o, rnd)) && multiset(a) == multiset(b)
    ensures Deduplicated(c, a, o.onConflict).Ok? <==> Deduplicated(c, b, o.onConflict).Ok?
    ensures GroupingIgnoresOrder(c) ==>
              && (PlanFor(c, a, o, rnd, manifests).Ok? <==> PlanFor(c, b, o, rnd, manifests).Ok?)
              && (Deduplicated(c, a, o.onConflict).Ok? || OneConflictAtMost(c, a)
                  ==> PlanFor(c, a, o, rnd, manifests) == PlanFor(c, b, o, rnd, manifests))
  {
    if Deduplicated(c, a, o.onConflict).Ok? {
      MergingIgnoresOrder(c, a, b, o.onConflict);
      if GroupingIgnoresOrder(c) {
        MergedPlanIgnoresOrder(c, a, b, o, rnd, manifests);
      }
    } else {
      if Deduplicated(c, b, o.onConflict).Ok? {
        MergingIgnoresOrder(c, b, a, o.onConflict);
      }
      if OneConflictAtMost(c, a) {
        OneConflictOneError(c, a, b, o.onConflict);
      }
    }
  }

  // ---------------------------------------------------------------------------
  // The merging error
  // ---------------------------------------------------------------------------

  /** The records of input `k` cannot be merged. */
  ghost predicate ConflictAt(c: Contract, records: seq<SourceRecord>, k: string) {
    k in KeysOf(records, NormalizedKey(c)) && Conflicts(records, NormalizedKey(c), k)
  }

  ghost predicate OneConflictAtMost(c: Contract, records: seq<SourceRecord>) {
    forall j: string, k: string :: ConflictAt(c, records, j) && ConflictAt(c, records, k) ==> j == k
  }

  /** A merging error names some conflicting input, and why it cannot be merged. */
  lemma {:induction false} ErrorNamesAConflict(records: seq<SourceRecord>, key: SourceRecord -> string, keys: seq<string>, mode: ConflictMode) returns (i: nat)
    requires forall k <- keys :: GroupOf(records, key, k) != []
    requires MergeGroups(records, key, keys, mode).Err?
    ensures i < |keys| && mode == FailOnConflict && MergeConflict(GroupOf(records, key, keys[i]), keys[i]) == Some(MergeGroups(records, key, keys, mode).error)
  {
    var n := |keys| - 1;
    assert forall k <- keys[..n] :: k in keys;
    assert keys[..n + 1] == keys;
    if MergeGroups(records, key, keys[..n], mode).Err? {
      i := ErrorNamesAConflict(records, key, keys[..n], mode);
      MergeErrorPersists(records, key, keys, mode, n);
    } else {
      MergeStep(records, key, keys, mode, n);
      i := n;
    }
  }

  lemma MergingErrorAt(c: Contract, records: seq<SourceRecord>, mode: ConflictMode) returns (k: string)
    requires Deduplicated(c, records, mode).Err?
    ensures mode == FailOnConflict && ConflictAt(c, records, k)
    ensures MergeConflict(GroupOf(records, NormalizedKey(c), k), k) == Some(Deduplicated(c, records, mode).error)
  {
    var key := NormalizedKey(c);
    var keys := KeysOf(records, key);
    assert forall j <- keys :: GroupOf(records, key, j) != [] by {
      GroupingIsExact(records, key);
    }
    var i := ErrorNamesAConflict(records, key, keys, mode);
    k := keys[i];
  }

  /** Which inputs conflict, and why, does not depend on the order. */
  lemma ConflictsIgnoreOrder(c: Contract, a: seq<SourceRecord>, b: seq<SourceRecord>, k: string)
    requires multiset(a) == multiset(b)
    ensures ConflictAt(c, a, k) <==> ConflictAt(c, b, k)
    ensures MergeConflict(GroupOf(a, NormalizedKey(c), k), k) == MergeConflict(GroupOf(b, NormalizedKey(c), k), k)
  {
    var key := NormalizedKey(c);
    PermutedGroups(a, b, key, k);
    SameElements(GroupOf(a, key, k), GroupOf(b, key, k));
    ConflictIgnoresOrder(c, GroupOf(a, key, k), GroupOf(b, key, k), k);
    GroupHasItsKey(a, key, k);
    GroupHasItsKey(b, key, k);
  }

  lemma OneConflictOneError(c: Contract, a: seq<SourceRecord>, b: seq<SourceRecord>, mode: ConflictMode)
    requires multiset(a) == multiset(b) && OneConflictAtMost(c, a)
    requires Deduplicated(c, a, mode).Err? && Deduplicated(c, b, mode).Err?
    ensures Deduplicated(c, a, mode) == Deduplicated(c, b, mode)
  {
    var j := MergingErrorAt(c, a, mode);
    var k := MergingErrorAt(c, b, mode);
    ConflictsIgnoreOrder(c, a, b, k);
  }

  lemma {:induction false} FirstKey(records: seq<SourceRecord>, key: SourceRecord -> string)
    requires records != []
    ensures KeysOf(records, key) != [] && KeysOf(records, key)[0] == key(records[0])
  {
    if |records| > 1 {
      FirstKey(records[..|records| - 1], key);
    }
  }

  /** When the first record's input conflicts, the error names it. */
  lemma FirstConflictIsNamed(c: Contract, records: seq<SourceRecord>)
    requires records != [] && Conflicts(records, NormalizedKey(c), c.normalizeInput(records[0].input))
    ensures var k := c.normalizeInput(records[0].input);
            Deduplicated(c, records, FailOnConflict) == Err(MergeConflict(GroupOf(records, NormalizedKey(c), k), k).value)
  {
    var key := NormalizedKey(c);
    var keys := KeysOf(records, key);
    assert forall j <- keys :: GroupOf(records, key, j) != [] by {
      GroupingIsExact(records, key);
    }
    FirstKey(records, key);
    assert MergeGroups(records, key, keys[..0], FailOnConflict) == Ok([]);
    MergeStep(records, key, keys, FailOnConflict, 0);
  }

  /** The same records with one of them in front. */
  function Fronted(records: seq<SourceRecord>, i: nat): seq<SourceRecord>
    requires i < |records|
  {
    [records[i]] + Without(records, i)
  }

  /** For each conflicting input some order raises the error that names it. */
  lemma SomeOrderNamesIt(c: Contract, a: seq<SourceRecord>, k: string) returns (b: seq<SourceRecord>)
    requires ConflictAt(c, a, k)
    ensures multiset(b) == multiset(a)
    ensures Deduplicated(c, b, FailOnConflict) == Err(MergeConflict(GroupOf(a, NormalizedKey(c), k), k).value)
  {
    var key := NormalizedKey(c);
    GroupHasItsKey(a, key, k);
    var r := GroupOf(a, key, k)[0];
    assert r in GroupOf(a, key, k);
    var i :| 0 <= i < |a| && a[i] == r;
    b := Fronted(a, i);
    WithoutMultiset(a, i);
    assert multiset(b) == multiset(a);
    ConflictsIgnoreOrder(c, a, b, k);
    FirstConflictIsNamed(c, b);
  }

  lemma ConflictNamesItsKey(group: seq<SourceRecord>, h: seq<SourceRecord>, j: string, k: string)
    requires MergeConflict(group, j).Some? && MergeConflict(group, j) == MergeConflict(h, k)
    ensures j == k
  {
  }

  /** In "fail" mode every order of the records gives the same result of merging if and only if at most one
      input's records cannot be merged. */
  lemma MergingErrorIgnoresOrderIff(c: Contract, a: seq<SourceRecord>)
    requires Deduplicated(c, a, FailOnConflict).Err?
    ensures OneConflictAtMost(c, a)
            <==> forall b: seq<SourceRecord> :: multiset(b) == multiset(a) ==> Deduplicated(c, b, FailOnConflict) == Deduplicated(c, a, FailOnConflict)
  {
    if OneConflictAtMost(c, a) {
      forall b: seq<SourceRecord> | multiset(b) == multiset(a) ensures Deduplicated(c, b, FailOnConflict) == Deduplicated(c, a, FailOnConflict) {
        if Deduplicated(c, b, FailOnConflict).Ok? {
          MergingIgnoresOrder(c, b, a, FailOnConflict);
        }
        OneConflictOneError(c, a, b, FailOnConflict);
      }
    } else {
      var j: string, k: string :| ConflictAt(c, a, j) && ConflictAt(c, a, k) && j != k;
      var x := SomeOrderNamesIt(c, a, j);
      var y := SomeOrderNamesIt(c, a, k);
      if Deduplicated(c, x, FailOnConflict) == Deduplicated(c, y, FailOnConflict) {
        ConflictNamesItsKey(GroupOf(a, NormalizedKey(c), j), GroupOf(a, NormalizedKey(c), k), j, k);
      }
    }
  }

  /** A record that may be trained on, with its reference. */
  function Labelled(input: Payload, reference: Payload): SourceRecord {
    SourceRecord(input + reference, input, Some(reference), Some(Gold), [TrainRole], "source", Metadata("source", None))
  }

  const BY_INPUT: Contract := Contract((input: Payload) => input, (r: SourceRecord) => r.input)

  /** Two inputs, each given twice with different references: the error names the one that comes first. */
  lemma ErrorFollowsTheOrder()
    ensures var x1, x2, y1, y2 := Labelled("x", "1"), Labelled("x", "2"), Labelled("y", "1"), Labelled("y", "2");
            && Deduplicated(BY_INPUT, [x1, x2, y1, y2], FailOnConflict) == Err(ConflictingReferences("x"))
            && Deduplicated(BY_INPUT, [y1, y2, x1, x2], FailOnConflict) == Err(ConflictingReferences("y"))
  {
    assert "x"[0] != "y"[0] && "1"[0] != "2"[0];
    PairsConflict(BY_INPUT, Labelled("x", "1"), Labelled("x", "2"), Labelled("y", "1"), Labelled("y", "2"));
    PairsConflict(BY_INPUT, Labelled("y", "1"), Labelled("y", "2"), Labelled("x", "1"), Labelled("x", "2"));
  }

  lemma PairsConflict(c: Contract, x1: SourceRecord, x2: SourceRecord, y1: SourceRecord, y2: SourceRecord)
    requires c.normalizeInput(x1.input) == c.normalizeInput(x2.input) != c.normalizeInput(y1.input) == c.normalizeInput(y2.input)
    requires x1.eligibility == x2.eligibility == [TrainRole] && !SameReference(x1, x2)
    ensures Deduplicated(c, [x1, x2, y1, y2], FailOnConflict) == Err(ConflictingReferences(c.normalizeInput(x1.input)))
  {
    var records, key, k := [x1, x2, y1, y2], NormalizedKey(c), c.normalizeInput(x1.input);
    FourRecords(x1, x2, y1, y2, key, k);
    var group := [x1, x2];
    EligibleForAll(group, TrainRole);
    assert group[0] in group && group[1] in group;
    assert MergeConflict(group, k) == Some(ConflictingReferences(k));
    FirstConflictIsNamed(c, records);
  }

  lemma FourRecords(x1: SourceRecord, x2: SourceRecord, y1: SourceRecord, y2: SourceRecord, key: SourceRecord -> string, k: string)
    requires key(x1) == key(x2) == k && key(y1) != k && key(y2) != k
    ensures GroupOf([x1, x2, y1, y2], key, k) == [x1, x2]
  {
    assert [x1][..0] == [];
    assert GroupOf([x1], key, k) == [x1];
    assert [x1, x2][..1] == [x1];
    assert GroupOf([x1, x2], key, k) == [x1, x2];
    assert [x1, x2, y1][..2] == [x1, x2];
    assert GroupOf([x1, x2, y1], key, k) == [x1, x2];
    assert [x1, x2, y1, y2][..3] == [x1, x2, y1];
  }

  // ---------------------------------------------------------------------------
  // Contracts whose grouping shows the order
  // ---------------------------------------------------------------------------

  lemma {:induction false} OneGroup(records: seq<SourceRecord>, key: SourceRecord -> string, k: string)
    requires forall i | 0 <= i < |records| :: key(records[i]) == k
    ensures GroupOf(records, key, k) == records
  {
    if records != [] {
      OneGroup(records[..|records| - 1], key, k);
    }
  }

  lemma {:induction false} OneKeyListed(records: seq<SourceRecord>, key: SourceRecord -> string, k: string)
    requires records != [] && forall i | 0 <= i < |records| :: key(records[i]) == k
    ensures KeysOf(records, key) == [k]
  {
    var n := |records| - 1;
    if n > 0 {
      OneKeyListed(records[..n], key, k);
    } else {
      assert KeysOf(records[..n], key) == [];
    }
  }

  lemma OneKey(c: Contract, group: seq<SourceRecord>, k: string)
    requires group != [] && forall i | 0 <= i < |group| :: c.normalizeInput(group[i].input) == k
    ensures KeysOf(group, NormalizedKey(c)) == [k] && GroupOf(group, NormalizedKey(c), k) == group
  {
    OneGroup(group, NormalizedKey(c), k);
    OneKeyListed(group, NormalizedKey(c), k);
  }

  lemma OneGroupMerges(records: seq<SourceRecord>, key: SourceRecord -> string, k: string, mode: ConflictMode)
    requires GroupOf(records, key, k) != [] && MergeConflict(GroupOf(records, key, k), k).None?
    ensures MergeGroups(records, key, [k], mode) == Ok([Merged(GroupOf(records, key, k))])
  {
    assert [k][..0] == [] && [k][..1] == [k];
    assert MergeGroups(records, key, [k][..0], mode) == Ok([]);
    MergeStep(records, key, [k], mode, 0);
    assert [] + [Merged(GroupOf(records, key, k))] == [Merged(GroupOf(records, key, k))];
  }

  lemma DeduplicatedAlone(c: Contract, group: seq<SourceRecord>, mode: ConflictMode)
    requires Mergeable(c, group)
    ensures Deduplicated(c, group, mode) == Ok([Merged(group)])
  {
    var k, key := c.normalizeInput(group[0].input), NormalizedKey(c);
    OneKey(c, group, k);
    OneGroupMerges(group, key, k, mode);
  }

  lemma GroupedAlone(c: Contract, d: SourceRecord)
    ensures GroupsOf([d], c.splitGroup) == Groups([c.splitGroup(d)], map[c.splitGroup(d) := [d]])
  {
    assert [d][..0] == [];
    assert KeysOf([d], c.splitGroup) == [c.splitGroup(d)] && GroupOf([d], c.splitGroup, c.splitGroup(d)) == [d];
  }

  lemma PlanOfOne(views: map<string, View>, g: string, o: Options, rnd: Randomness)
    requires g in views && Choices(views[g], HiddenAllowed(g, views[g], {})) != [] && views[g].eligibility != []
    ensures PlanOver(views, [g], o, rnd, {}).Ok? && PlanOver(views, [g], o, rnd, {}).value.Keys == {g}
  {
    assert [g][..0] == [];
    assert PlanOver(views, [g][..0], o, rnd, {}) == Ok(map[]);
  }

  lemma PlannedAlone(c: Contract, d: SourceRecord, o: Options, rnd: Randomness)
    requires d.eligibility != [] && exists values: seq<seq<Role>> :: d.eligibility == Intersection(values)
    ensures var plan := SplitPlan(c, GroupsOf([d], c.splitGroup), o, rnd, []);
            plan.Ok? && plan.value.Keys == {c.splitGroup(d)}
  {
    var g := c.splitGroup(d);
    GroupedAlone(c, d);
    assert [g][..0] == [];
    assert Sorted([g], ByRank(Seeded(o, rnd))) == [g];
    assert ConsumedKeys([]) == {};
    var view := ViewOf(c, [d]);
    SameEligibilityAlone(d);
    SomeKnownRole(d.eligibility);
    assert view.eligibility == d.eligibility && HiddenAllowed(g, view, {});
    assert Choices(view, true) != [];
    PlanOfOne(Views(c, GroupsOf([d], c.splitGroup)), g, o, rnd);
  }

  lemma SomeKnownRole(eligibility: seq<Role>)
    requires eligibility != [] && exists values: seq<seq<Role>> :: eligibility == Intersection(values)
    ensures TrainRole in eligibility || ValidationCandidate in eligibility || TestCandidate in eligibility
  {
    var values: seq<seq<Role>> :| eligibility == Intersection(values);
    assert eligibility[0] in eligibility;
  }

  /** Mergeable duplicates alone, with nothing consumed, are planned as their one split group. */
  lemma DuplicatesAlone(c: Contract, group: seq<SourceRecord>, o: Options, rnd: Randomness)
    requires Mergeable(c, group)
    ensures var plan := PlanFor(c, group, o, rnd, []);
            plan.Ok? && plan.value.Keys == {c.splitGroup(Merged(group))}
  {
    DeduplicatedAlone(c, group, o.onConflict);
    PlannedAlone(c, Merged(group), o, rnd);
  }

  lemma SameEligibilityAlone(d: SourceRecord)
    requires exists values: seq<seq<Role>> :: d.eligibility == Intersection(values)
    ensures Intersection(Eligibilities([d])) == d.eligibility
  {
    assert Eligibilities([d]) == [d.eligibility];
    forall role: Role ensures Common([d.eligibility], role) <==> role in d.eligibility {
    }
  }

  /** The outcome of a whole build, plan or error, ignores the order of records with at most one conflict exactly
      when the split group of merged duplicates ignores theirs. */
  lemma PlanIgnoresOrderIffGroupingDoes(c: Contract, o: Options, rnd: Randomness)
    requires Injective(Seeded(o, rnd))
    ensures GroupingIgnoresOrder(c)
            <==> forall a: seq<SourceRecord>, b: seq<SourceRecord> :: multiset(a) == multiset(b) && OneConflictAtMost(c, a)
                   ==> PlanFor(c, a, o, rnd, []) == PlanFor(c, b, o, rnd, [])
  {
    if GroupingIgnoresOrder(c) {
      forall a: seq<SourceRecord>, b: seq<SourceRecord> | multiset(a) == multiset(b) && OneConflictAtMost(c, a)
        ensures PlanFor(c, a, o, rnd, []) == PlanFor(c, b, o, rnd, [])
      {
        PlanForIgnoresOrder(c, a, b, o, rnd, []);
      }
    } else {
      var g: seq<SourceRecord>, h: seq<SourceRecord> :| Mergeable(c, g) && multiset(g) == multiset(h)
        && c.splitGroup(Merged(g)) != c.splitGroup(Merged(h));
      OrderShowsInThePlan(c, g, h, o, rnd);
    }
  }

  lemma MergeablePermutes(c: Contract, g: seq<SourceRecord>, h: seq<SourceRecord>)
    requires Mergeable(c, g) && multiset(g) == multiset(h)
    ensures Mergeable(c, h)
  {
    SameElements(g, h);
    ConflictIgnoresOrder(c, g, h, c.normalizeInput(g[0].input));
    assert h[0] in h;
  }

  lemma NoConflictAlone(c: Contract, g: seq<SourceRecord>)
    requires Mergeable(c, g)
    ensures OneConflictAtMost(c, g)
  {
    OneKey(c, g, c.normalizeInput(g[0].input));
  }

  lemma OrderShowsInThePlan(c: Contract, g: seq<SourceRecord>, h: seq<SourceRecord>, o: Options, rnd: Randomness)
    requires Mergeable(c, g) && multiset(g) == multiset(h) && h != []
    requires c.splitGroup(Merged(g)) != c.splitGroup(Merged(h))
    ensures OneConflictAtMost(c, g) && PlanFor(c, g, o, rnd, []) != PlanFor(c, h, o, rnd, [])
  {
    MergeablePermutes(c, g, h);
    NoConflictAlone(c, g);
    DuplicatesAlone(c, g, o, rnd);
    DuplicatesAlone(c, h, o, rnd);
    assert c.splitGroup(Merged(g)) in PlanFor(c, g, o, rnd, []).value;
  }

  /** A contract that normalizes away the spelling of an input, yet groups by that spelling. */
  lemma OrderCanShow(a: SourceRecord, b: SourceRecord, o: Options, rnd: Randomness)
    requires a.input == "Paris" && b.input == "paris" && a.eligibility == b.eligibility == [TrainRole]
    requires SameReference(a, b)
    ensures var c := Contract(_ => "paris", (r: SourceRecord) => r.input);
            PlanFor(c, [a, b], o, rnd, []) != PlanFor(c, [b, a], o, rnd, [])
  {
    var c := Contract(_ => "paris", (r: SourceRecord) => r.input);
    EligibleForAll([a, b], TrainRole);
    EligibleForAll([b, a], TrainRole);
    DuplicatesAlone(c, [a, b], o, rnd);
    DuplicatesAlone(c, [b, a], o, rnd);
    assert "Paris" in PlanFor(c, [a, b], o, rnd, []).value;
    assert "Paris"[0] != "paris"[0];
  }
}
