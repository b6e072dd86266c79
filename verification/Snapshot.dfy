/** Building a snapshot: duplicates are merged, records grouped, groups split, and records materialised. */
module Snapshot {
  import opened Wrappers
  import opened Domain
  import opened Sequences

  /** A split a record may be used for. Telemetry files and data configurations can also name unknown ones. */
  datatype Role = TrainRole | ValidationCandidate | TestCandidate | UnknownRole(name: string)

  datatype Split = Train | Validation | Test

  datatype ReferenceSource = Gold | Human | VersionedL4 | VerifiedL4 | UserFeedback | UnknownSource(name: string)

  /** `duplicates` is present once the record stands for a group of duplicates. */
  datatype Metadata = Metadata(origin: string, duplicates: Option<seq<string>>)

  datatype SourceRecord = SourceRecord(
    recordId: string,
    input: Payload,
    referenceOutput: Option<Payload>,
    referenceSource: Option<ReferenceSource>,
    eligibility: seq<Role>,
    sourceName: string,
    metadata: Metadata)

  datatype Contract = Contract(normalizeInput: Payload -> string, splitGroup: SourceRecord -> string)

  datatype ConflictMode = FailOnConflict | ExcludeOnConflict

  datatype Options = Options(seed: int, validationFraction: real, testFraction: real, onConflict: ConflictMode)

  /** The order of seeded hashes of group keys, and the random numbers drawn from a seed. */
  datatype Randomness = Randomness(rank: (int, string) -> int, roll: (int, nat) -> real)

  datatype Manifest = Manifest(split: Split, recordIds: seq<string>, normalizedKeys: seq<string>, groupKeys: seq<string>)

  datatype Error =
    | DuplicatesWithoutCommonSplit(key: string)
    | ConflictingReferences(key: string)
    | GroupWithoutCommonSplit(group: string)
    | NoSplitAfterConsumption(group: string)
    | MissingReference(recordId: string)
    | InvalidProvenance(recordId: string)

  // ---------------------------------------------------------------------------
  // Split permissions
  // ---------------------------------------------------------------------------

  const KNOWN_ROLES: seq<Role> := [TrainRole, ValidationCandidate, TestCandidate]

  /** Roles every list allows; no list allows nothing. */
  predicate Common(values: seq<seq<Role>>, role: Role) {
    values != [] && forall v <- values :: role in v
  }

  function Only(allowed: bool, role: Role): seq<Role> {
    if allowed then [role] else []
  }

  /** The known common roles in their fixed order. */
  function Intersection(values: seq<seq<Role>>): seq<Role> {
    Only(Common(values, TrainRole), TrainRole)
    + Only(Common(values, ValidationCandidate), ValidationCandidate)
    + Only(Common(values, TestCandidate), TestCandidate)
  }

  method IntersectSplitEligibility(values: seq<seq<Role>>) returns (ordered: seq<Role>)
    ensures ordered == Intersection(values)
  {
    if values == [] {
      return [];
    }
    var current: set<Role> := set role <- values[0];
    for i := 1 to |values|
      invariant forall role :: role in current <==> Common(values[..i], role)
    {
      assert values[..i + 1] == values[..i] + [values[i]];
      current := current * set role <- values[i];
    }
    assert values[..|values|] == values;
    ordered := [];
    for i := 0 to |KNOWN_ROLES|
      invariant ordered == Only(i > 0 && Common(values, TrainRole), TrainRole)
                           + Only(i > 1 && Common(values, ValidationCandidate), ValidationCandidate)
                           + Only(i > 2 && Common(values, TestCandidate), TestCandidate)
    {
      if KNOWN_ROLES[i] in current {
        ordered := ordered + [KNOWN_ROLES[i]];
      }
    }
  }

  function Eligibilities(records: seq<SourceRecord>): seq<seq<Role>> {
    seq(|records|, i requires 0 <= i < |records| => records[i].eligibility)
  }

  function Ids(records: seq<SourceRecord>): seq<string> {
    seq(|records|, i requires 0 <= i < |records| => records[i].recordId)
  }

  // ---------------------------------------------------------------------------
  // Grouping by a key
  // ---------------------------------------------------------------------------

  /** A dictionary of lists, with its keys in the order they were first seen. */
  datatype Groups = Groups(order: seq<string>, members: map<string, seq<SourceRecord>>)

  function KeysOf(records: seq<SourceRecord>, key: SourceRecord -> string): seq<string> {
    if records == [] then []
    else
      var n := |records| - 1;
      var before := KeysOf(records[..n], key);
      if key(records[n]) in before then before else before + [key(records[n])]
  }

  function GroupOf(records: seq<SourceRecord>, key: SourceRecord -> string, k: string): seq<SourceRecord> {
    if records == [] then []
    else
      var n := |records| - 1;
      GroupOf(records[..n], key, k) + (if key(records[n]) == k then [records[n]] else [])
  }

  function GroupsOf(records: seq<SourceRecord>, key: SourceRecord -> string): Groups {
    Groups(KeysOf(records, key), map k <- KeysOf(records, key) :: GroupOf(records, key, k))
  }

  ghost predicate Distinct<T(!new)>(s: seq<T>) {
    forall i, j | 0 <= i < j < |s| :: s[i] != s[j]
  }

  lemma {:induction false} GroupHasItsKey(records: seq<SourceRecord>, key: SourceRecord -> string, k: string)
    ensures k in KeysOf(records, key) <==> GroupOf(records, key, k) != []
    ensures forall r <- GroupOf(records, key, k) :: r in records && key(r) == k
  {
    if records != [] {
      GroupHasItsKey(records[..|records| - 1], key, k);
    }
  }

  lemma {:induction false} RecordInItsGroup(records: seq<SourceRecord>, key: SourceRecord -> string, i: nat)
    requires i < |records|
    ensures records[i] in GroupOf(records, key, key(records[i]))
  {
    if i < |records| - 1 {
      RecordInItsGroup(records[..|records| - 1], key, i);
    }
  }

  lemma {:induction false} KeysAreDistinct(records: seq<SourceRecord>, key: SourceRecord -> string)
    ensures Distinct(KeysOf(records, key))
  {
    if records != [] {
      KeysAreDistinct(records[..|records| - 1], key);
    }
  }

  /** Keys are listed once; each group holds exactly the records with its key. */
  lemma GroupingIsExact(records: seq<SourceRecord>, key: SourceRecord -> string)
    ensures Distinct(KeysOf(records, key))
    ensures forall k: string :: k in KeysOf(records, key) <==> GroupOf(records, key, k) != []
    ensures forall k: string, r: SourceRecord :: r in GroupOf(records, key, k) <==> r in records && key(r) == k
  {
    KeysAreDistinct(records, key);
    forall k: string ensures k in KeysOf(records, key) <==> GroupOf(records, key, k) != [] {
      GroupHasItsKey(records, key, k);
    }
    forall k: string, r: SourceRecord ensures r in GroupOf(records, key, k) <==> r in records && key(r) == k {
      GroupHasItsKey(records, key, k);
      if r in records && key(r) == k {
        var i :| 0 <= i < |records| && records[i] == r;
        RecordInItsGroup(records, key, i);
      }
    }
  }

  function Added(groups: Groups, k: string, r: SourceRecord): Groups
    requires k in groups.order ==> k in groups.members
  {
    if k in groups.order then groups.(members := groups.members[k := groups.members[k] + [r]])
    else Groups(groups.order + [k], groups.members[k := [r]])
  }

  lemma GroupsAfter(records: seq<SourceRecord>, key: SourceRecord -> string, i: nat)
    requires i < |records|
    ensures GroupsOf(records[..i + 1], key) == Added(GroupsOf(records[..i], key), key(records[i]), records[i])
  {
    var before, after := records[..i], records[..i + 1];
    assert after[..i] == before && after[i] == records[i];
    var k := key(records[i]);
    assert GroupOf(before, key, k) == [] || k in KeysOf(before, key) by {
      GroupingIsExact(before, key);
    }
    forall j | j in KeysOf(after, key) ensures GroupsOf(after, key).members[j] == Added(GroupsOf(before, key), k, records[i]).members[j] {
    }
  }

  method GroupBy(records: seq<SourceRecord>, key: SourceRecord -> string) returns (groups: Groups)
    ensures groups == GroupsOf(records, key)
  {
    var order: seq<string> := [];
    var members: map<string, seq<SourceRecord>> := map[];
    for i := 0 to |records|
      invariant Groups(order, members) == GroupsOf(records[..i], key)
    {
      GroupsAfter(records, key, i);
      var k := key(records[i]);
      if k in members {
        members := members[k := members[k] + [records[i]]];
      } else {
        order, members := order + [k], members[k := [records[i]]];
      }
    }
    assert records[..|records|] == records;
    groups := Groups(order, members);
  }

  // ---------------------------------------------------------------------------
  // Merging duplicates
  // ---------------------------------------------------------------------------

  function NormalizedKey(c: Contract): SourceRecord -> string {
    (r: SourceRecord) => c.normalizeInput(r.input)
  }

  predicate SameReference(a: SourceRecord, b: SourceRecord) {
    a.referenceOutput == b.referenceOutput && a.referenceSource == b.referenceSource
  }

  predicate ReferencesAgree(group: seq<SourceRecord>) {
    forall a <- group, b <- group :: SameReference(a, b)
  }

  function Merged(group: seq<SourceRecord>): SourceRecord
    requires group != []
  {
    group[0].(eligibility := Intersection(Eligibilities(group)),
              metadata := group[0].metadata.(duplicates := Some(Ids(group))))
  }

  /** Why a group of duplicates cannot be merged. */
  function MergeConflict(group: seq<SourceRecord>, key: string): Option<Error> {
    if Intersection(Eligibilities(group)) == [] then Some(DuplicatesWithoutCommonSplit(key))
    else if !ReferencesAgree(group) then Some(ConflictingReferences(key))
    else None
  }

  function MergeGroups(records: seq<SourceRecord>, key: SourceRecord -> string, keys: seq<string>, mode: ConflictMode): Result<seq<SourceRecord>, Error>
    requires forall k <- keys :: GroupOf(records, key, k) != []
  {
    if keys == [] then Ok([])
    else
      var n := |keys| - 1;
      var before := MergeGroups(records, key, keys[..n], mode);
      var group := GroupOf(records, key, keys[n]);
      var conflict := MergeConflict(group, keys[n]);
      if before.Err? then before
      else if conflict.None? then Ok(before.value + [Merged(group)])
      else if mode == ExcludeOnConflict then before
      else Err(conflict.value)
  }

  function Deduplicated(c: Contract, records: seq<SourceRecord>, mode: ConflictMode): Result<seq<SourceRecord>, Error> {
    var key := NormalizedKey(c);
    GroupingIsExact(records, key);
    MergeGroups(records, key, KeysOf(records, key), mode)
  }

  lemma {:induction false} MergeErrorPersists(records: seq<SourceRecord>, key: SourceRecord -> string, keys: seq<string>, mode: ConflictMode, i: nat)
    requires forall k <- keys :: GroupOf(records, key, k) != []
    requires i <= |keys| && MergeGroups(records, key, keys[..i], mode).Err?
    ensures MergeGroups(records, key, keys, mode) == MergeGroups(records, key, keys[..i], mode)
  {
    if i == |keys| {
      assert keys[..i] == keys;
    } else {
      assert keys[..|keys| - 1][..i] == keys[..i];
      MergeErrorPersists(records, key, keys[..|keys| - 1], mode, i);
    }
  }

  lemma MergeStep(records: seq<SourceRecord>, key: SourceRecord -> string, keys: seq<string>, mode: ConflictMode, i: nat)
    requires forall k <- keys :: GroupOf(records, key, k) != []
    requires i < |keys| && MergeGroups(records, key, keys[..i], mode).Ok?
    ensures var before := MergeGroups(records, key, keys[..i], mode);
            var group := GroupOf(records, key, keys[i]);
            var conflict := MergeConflict(group, keys[i]);
            var after := MergeGroups(records, key, keys[..i + 1], mode);
            && after == (if conflict.None? then Ok(before.value + [Merged(group)])
                         else if mode == ExcludeOnConflict then before else Err(conflict.value))
            && (after.Err? ==> MergeGroups(records, key, keys, mode) == after)
  {
    assert keys[..i + 1][..i] == keys[..i];
    if MergeGroups(records, key, keys[..i + 1], mode).Err? {
      MergeErrorPersists(records, key, keys, mode, i + 1);
    }
  }

  method DeduplicateRecords(c: Contract, records: seq<SourceRecord>, mode: ConflictMode) returns (result: Result<seq<SourceRecord>, Error>)
    ensures result == Deduplicated(c, records, mode)
  {
    ghost var key := NormalizedKey(c);
    var grouped := GroupBy(records, NormalizedKey(c));
    var keys := grouped.order;
    assert forall k <- keys :: GroupOf(records, key, k) != [] by {
      GroupingIsExact(records, key);
    }
    var deduped := [];
    for i := 0 to |keys|
      invariant MergeGroups(records, key, keys[..i], mode) == Ok(deduped)
    {
      MergeStep(records, key, keys, mode, i);
      var group := grouped.members[keys[i]];
      var eligibility := IntersectSplitEligibility(Eligibilities(group));
      if eligibility == [] {
        if mode == ExcludeOnConflict {
          continue;
        }
        return Err(DuplicatesWithoutCommonSplit(keys[i]));
      }
      if !ReferencesAgree(group) {
        if mode == ExcludeOnConflict {
          continue;
        }
        return Err(ConflictingReferences(keys[i]));
      }
      deduped := deduped + [group[0].(eligibility := eligibility, metadata := group[0].metadata.(duplicates := Some(Ids(group))))];
    }
    assert keys[..|keys|] == keys;
    result := Ok(deduped);
  }

  // ---------------------------------------------------------------------------
  // The split plan
  // ---------------------------------------------------------------------------

  /** What the plan needs to know of a group, in whatever order its records came. */
  datatype View = View(eligibility: seq<Role>, normalizedKeys: set<string>)

  function ViewOf(c: Contract, group: seq<SourceRecord>): View {
    View(Intersection(Eligibilities(group)), set r <- group :: c.normalizeInput(r.input))
  }

  function ByRank(rank: string -> int): (string, string) -> bool { (j: string, k: string) => rank(j) < rank(k) }

  function Seeded(o: Options, rnd: Randomness): string -> int {
    (k: string) => rnd.rank(o.seed, k)
  }

  function ConsumedKeys(manifests: seq<Manifest>): set<string> {
    set m <- manifests, k <- m.normalizedKeys + m.groupKeys :: k
  }

  predicate HiddenAllowed(k: string, v: View, consumed: set<string>) {
    k !in consumed && v.normalizedKeys !! consumed
  }

  function Desired(o: Options, roll: real): Split {
    if roll < o.testFraction then Test
    else if roll < o.testFraction + o.validationFraction then Validation
    else Train
  }

  function Choices(v: View, hidden: bool): seq<Split> {
    (if TrainRole in v.eligibility then [Train] else [])
    + (if hidden && ValidationCandidate in v.eligibility then [Validation] else [])
    + (if hidden && TestCandidate in v.eligibility then [Test] else [])
  }

  /** The split of one group, given the random number it draws. */
  function SplitOf(k: string, v: View, o: Options, consumed: set<string>, roll: real): Option<Split> {
    var choices := Choices(v, HiddenAllowed(k, v, consumed));
    if choices == [] then None
    else if Desired(o, roll) in choices then Some(Desired(o, roll))
    else Some(choices[0])
  }

  /** The number of groups with a common legal split: each of them draws one random number. */
  function Draws(views: map<string, View>, keys: seq<string>): nat
    requires forall k <- keys :: k in views
  {
    if keys == [] then 0
    else Draws(views, keys[..|keys| - 1]) + (if views[keys[|keys| - 1]].eligibility == [] then 0 else 1)
  }

  function PlanOver(views: map<string, View>, keys: seq<string>, o: Options, rnd: Randomness, consumed: set<string>): Result<map<string, Split>, Error>
    requires forall k <- keys :: k in views
  {
    if keys == [] then Ok(map[])
    else
      var n := |keys| - 1;
      var k := keys[n];
      var before := PlanOver(views, keys[..n], o, rnd, consumed);
      var split := SplitOf(k, views[k], o, consumed, rnd.roll(o.seed, Draws(views, keys[..n])));
      if before.Err? then before
      else if views[k].eligibility == [] then
        if o.onConflict == ExcludeOnConflict then before else Err(GroupWithoutCommonSplit(k))
      else if split.None? then Err(NoSplitAfterConsumption(k))
      else Ok(before.value[k := split.value])
  }

  function Views(c: Contract, groups: Groups): map<string, View> {
    map k <- groups.members :: ViewOf(c, groups.members[k])
  }

  lemma {:induction false} InsertKeepsKeys(k: string, sorted: seq<string>, rank: string -> int)
    ensures multiset(Inserted(k, sorted, ByRank(rank))) == multiset(sorted) + multiset{k}
  {
    if sorted != [] {
      assert sorted == [sorted[0]] + sorted[1..];
      InsertKeepsKeys(k, sorted[1..], rank);
    }
  }

  lemma {:induction false} SortKeepsKeys(keys: seq<string>, rank: string -> int)
    ensures multiset(Sorted(keys, ByRank(rank))) == multiset(keys)
    ensures |Sorted(keys, ByRank(rank))| == |keys|
    ensures forall k: string :: k in Sorted(keys, ByRank(rank)) <==> k in keys
  {
    if keys != [] {
      var n := |keys| - 1;
      assert keys == keys[..n] + [keys[n]];
      SortKeepsKeys(keys[..n], rank);
      InsertKeepsKeys(keys[n], Sorted(keys[..n], ByRank(rank)), rank);
    }
    assert |multiset(Sorted(keys, ByRank(rank)))| == |Sorted(keys, ByRank(rank))|;
    forall k: string ensures k in Sorted(keys, ByRank(rank)) <==> k in keys {
      assert k in multiset(Sorted(keys, ByRank(rank))) <==> k in multiset(keys);
    }
  }

  function SplitPlan(c: Contract, groups: Groups, o: Options, rnd: Randomness, manifests: seq<Manifest>): Result<map<string, Split>, Error>
    requires forall k <- groups.order :: k in groups.members
  {
    SortKeepsKeys(groups.order, Seeded(o, rnd));
    PlanOver(Views(c, groups), Sorted(groups.order, ByRank(Seeded(o, rnd))), o, rnd, ConsumedKeys(manifests))
  }

  lemma {:induction false} PlanErrorPersists(views: map<string, View>, keys: seq<string>, o: Options, rnd: Randomness, consumed: set<string>, i: nat)
    requires forall k <- keys :: k in views
    requires i <= |keys| && PlanOver(views, keys[..i], o, rnd, consumed).Err?
    ensures PlanOver(views, keys, o, rnd, consumed) == PlanOver(views, keys[..i], o, rnd, consumed)
  {
    if i == |keys| {
      assert keys[..i] == keys;
    } else {
      assert keys[..|keys| - 1][..i] == keys[..i];
      PlanErrorPersists(views, keys[..|keys| - 1], o, rnd, consumed, i);
    }
  }

  lemma PlanStep(views: map<string, View>, keys: seq<string>, o: Options, rnd: Randomness, consumed: set<string>, i: nat)
    requires forall k <- keys :: k in views
    requires i < |keys| && PlanOver(views, keys[..i], o, rnd, consumed).Ok?
    ensures var before := PlanOver(views, keys[..i], o, rnd, consumed);
            var after := PlanOver(views, keys[..i + 1], o, rnd, consumed);
            var v := views[keys[i]];
            var split := SplitOf(keys[i], v, o, consumed, rnd.roll(o.seed, Draws(views, keys[..i])));
            && after == (if v.eligibility == [] then
                           if o.onConflict == ExcludeOnConflict then before else Err(GroupWithoutCommonSplit(keys[i]))
                         else if split.None? then Err(NoSplitAfterConsumption(keys[i]))
                         else Ok(before.value[keys[i] := split.value]))
            && Draws(views, keys[..i + 1]) == Draws(views, keys[..i]) + (if v.eligibility == [] then 0 else 1)
            && (after.Err? ==> PlanOver(views, keys, o, rnd, consumed) == after)
  {
    assert keys[..i + 1][..i] == keys[..i];
    if PlanOver(views, keys[..i + 1], o, rnd, consumed).Err? {
      PlanErrorPersists(views, keys, o, rnd, consumed, i + 1);
    }
  }

  method ChooseSplit(k: string, v: View, o: Options, consumed: set<string>, roll: real) returns (split: Option<Split>)
    ensures split == SplitOf(k, v, o, consumed, roll)
  {
    var hidden := k !in consumed && v.normalizedKeys !! consumed;
    var choices := [];
    if TrainRole in v.eligibility {
      choices := choices + [Train];
    }
    if hidden && ValidationCandidate in v.eligibility {
      choices := choices + [Validation];
    }
    if hidden && TestCandidate in v.eligibility {
      choices := choices + [Test];
    }
    if choices == [] {
      return None;
    }
    var desired := if roll < o.testFraction then Test
                   else if roll < o.testFraction + o.validationFraction then Validation
                   else Train;
    split := Some(if desired in choices then desired else choices[0]);
  }

  /** One turn of the planning loop, over the groups rather than their views. */
  lemma GroupStep(c: Contract, groups: Groups, keys: seq<string>, o: Options, rnd: Randomness, consumed: set<string>, i: nat)
    requires forall k <- keys :: k in groups.members
    requires i < |keys| && PlanOver(Views(c, groups), keys[..i], o, rnd, consumed).Ok?
    ensures var views := Views(c, groups);
            var before := PlanOver(views, keys[..i], o, rnd, consumed);
            var after := PlanOver(views, keys[..i + 1], o, rnd, consumed);
            var v := ViewOf(c, groups.members[keys[i]]);
            var split := SplitOf(keys[i], v, o, consumed, rnd.roll(o.seed, Draws(views, keys[..i])));
            && after == (if v.eligibility == [] then
                           if o.onConflict == ExcludeOnConflict then before else Err(GroupWithoutCommonSplit(keys[i]))
                         else if split.None? then Err(NoSplitAfterConsumption(keys[i]))
                         else Ok(before.value[keys[i] := split.value]))
            && Draws(views, keys[..i + 1]) == Draws(views, keys[..i]) + (if v.eligibility == [] then 0 else 1)
            && (after.Err? ==> PlanOver(views, keys, o, rnd, consumed) == after)
  {
    PlanStep(Views(c, groups), keys, o, rnd, consumed, i);
  }

  method PlanGroups(c: Contract, groups: Groups, keys: seq<string>, o: Options, rnd: Randomness, consumed: set<string>)
    returns (plan: Result<map<string, Split>, Error>)
    requires forall k <- keys :: k in groups.members
    ensures plan == PlanOver(Views(c, groups), keys, o, rnd, consumed)
  {
    var splits: map<string, Split> := map[];
    var drawn := 0;
    for i := 0 to |keys|
      invariant PlanOver(Views(c, groups), keys[..i], o, rnd, consumed) == Ok(splits)
      invariant drawn == Draws(Views(c, groups), keys[..i])
    {
      GroupStep(c, groups, keys, o, rnd, consumed, i);
      var k, records := keys[i], groups.members[keys[i]];
      var eligibility := IntersectSplitEligibility(Eligibilities(records));
      if eligibility == [] {
        if o.onConflict == ExcludeOnConflict {
          continue;
        }
        return Err(GroupWithoutCommonSplit(k));
      }
      var view := View(eligibility, set r <- records :: c.normalizeInput(r.input));
      var split := ChooseSplit(k, view, o, consumed, rnd.roll(o.seed, drawn));
      if split.None? {
        return Err(NoSplitAfterConsumption(k));
      }
      drawn := drawn + 1;
      splits := splits[k := split.value];
    }
    assert keys[..|keys|] == keys;
    plan := Ok(splits);
  }

  method BuildSplitPlan(c: Contract, groups: Groups, o: Options, rnd: Randomness, manifests: seq<Manifest>)
    returns (plan: Result<map<string, Split>, Error>)
    requires forall k <- groups.order :: k in groups.members
    ensures plan == SplitPlan(c, groups, o, rnd, manifests)
  {
    SortKeepsKeys(groups.order, Seeded(o, rnd));
    plan := PlanGroups(c, groups, Sorted(groups.order, ByRank(Seeded(o, rnd))), o, rnd, ConsumedKeys(manifests));
  }

  // ---------------------------------------------------------------------------
  // Materialised records and the three splits
  // ---------------------------------------------------------------------------

  datatype SnapshotRecord = SnapshotRecord(
    id: string,
    normalizedKey: string,
    groupKey: string,
    referenceOutput: Payload,
    referenceSource: ReferenceSource,
    eligibility: seq<Role>,
    source: SourceRecord,
    split: Split)

  predicate KnownEligibility(eligibility: seq<Role>) {
    eligibility != [] && forall role <- eligibility :: !role.UnknownRole?
  }

  /** `n` is the number of identifiers drawn so far. */
  function MaterializedRecord(c: Contract, r: SourceRecord, plan: map<string, Split>, newId: nat -> string, n: nat): Result<SnapshotRecord, Error>
    requires c.splitGroup(r) in plan
  {
    if r.referenceOutput.None? || r.referenceSource.None? then Err(MissingReference(r.recordId))
    else if r.referenceSource.value.UnknownSource? || !KnownEligibility(r.eligibility) then Err(InvalidProvenance(r.recordId))
    else
      var group := c.splitGroup(r);
      Ok(SnapshotRecord(newId(n), c.normalizeInput(r.input), group, r.referenceOutput.value, r.referenceSource.value,
                        r.eligibility, r, plan[group]))
  }

  function Materialized(c: Contract, records: seq<SourceRecord>, plan: map<string, Split>, newId: nat -> string): Result<seq<SnapshotRecord>, Error> {
    if records == [] then Ok([])
    else
      var n := |records| - 1;
      var before := Materialized(c, records[..n], plan, newId);
      if before.Err? || c.splitGroup(records[n]) !in plan then before
      else
        var record := MaterializedRecord(c, records[n], plan, newId, |before.value|);
        if record.Err? then Err(record.error) else Ok(before.value + [record.value])
  }

  lemma {:induction false} MaterializeErrorPersists(c: Contract, records: seq<SourceRecord>, plan: map<string, Split>, newId: nat -> string, i: nat)
    requires i <= |records| && Materialized(c, records[..i], plan, newId).Err?
    ensures Materialized(c, records, plan, newId) == Materialized(c, records[..i], plan, newId)
  {
    if i == |records| {
      assert records[..i] == records;
    } else {
      assert records[..|records| - 1][..i] == records[..i];
      MaterializeErrorPersists(c, records[..|records| - 1], plan, newId, i);
    }
  }

  method MaterializeSnapshotRecords(c: Contract, records: seq<SourceRecord>, plan: map<string, Split>, newId: nat -> string)
    returns (result: Result<seq<SnapshotRecord>, Error>)
    ensures result == Materialized(c, records, plan, newId)
  {
    var done: seq<SnapshotRecord> := [];
    for i := 0 to |records|
      invariant Materialized(c, records[..i], plan, newId) == Ok(done)
    {
      assert records[..i + 1][..i] == records[..i];
      var r := records[i];
      var group := c.splitGroup(r);
      if group !in plan {
        continue;
      }
      if r.referenceOutput.None? || r.referenceSource.None? {
        MaterializeErrorPersists(c, records, plan, newId, i + 1);
        return Err(MissingReference(r.recordId));
      }
      if r.referenceSource.value.UnknownSource? || !KnownEligibility(r.eligibility) {
        MaterializeErrorPersists(c, records, plan, newId, i + 1);
        return Err(InvalidProvenance(r.recordId));
      }
      done := done + [SnapshotRecord(newId(|done|), c.normalizeInput(r.input), group, r.referenceOutput.value,
                                     r.referenceSource.value, r.eligibility, r, plan[group])];
    }
    assert records[..|records|] == records;
    result := Ok(done);
  }

  datatype Snapshot = Snapshot(train: seq<SnapshotRecord>, validation: seq<SnapshotRecord>, test: seq<SnapshotRecord>, count: map<Split, nat>)

  function Rows(s: Snapshot, split: Split): seq<SnapshotRecord> {
    match split
    case Train => s.train
    case Validation => s.validation
    case Test => s.test
  }

  function Assigned(records: seq<SnapshotRecord>, plan: map<string, Split>, split: Split): seq<SnapshotRecord> {
    if records == [] then []
    else
      var n := |records| - 1;
      Assigned(records[..n], plan, split)
      + (if records[n].groupKey in plan && plan[records[n].groupKey] == split then [records[n]] else [])
  }

  function Partitioned(records: seq<SnapshotRecord>, plan: map<string, Split>): Snapshot {
    var train, validation, test := Assigned(records, plan, Train), Assigned(records, plan, Validation), Assigned(records, plan, Test);
    Snapshot(train, validation, test, map[Train := |train|, Validation := |validation|, Test := |test|])
  }

  method WriteSnapshot(records: seq<SnapshotRecord>, plan: map<string, Split>) returns (snapshot: Snapshot)
    requires forall r <- records :: r.groupKey in plan
    ensures snapshot == Partitioned(records, plan)
  {
    var bySplit: map<Split, seq<SnapshotRecord>> := map[Train := [], Validation := [], Test := []];
    for i := 0 to |records|
      invariant Train in bySplit && Validation in bySplit && Test in bySplit
      invariant forall split <- bySplit :: bySplit[split] == Assigned(records[..i], plan, split)
    {
      assert records[..i + 1][..i] == records[..i];
      var split := plan[records[i].groupKey];
      assert split.Train? || split.Validation? || split.Test?;
      bySplit := bySplit[split := bySplit[split] + [records[i]]];
    }
    assert records[..|records|] == records;
    snapshot := Snapshot(bySplit[Train], bySplit[Validation], bySplit[Test],
                         map[Train := |bySplit[Train]|, Validation := |bySplit[Validation]|, Test := |bySplit[Test]|]);
  }

  /** A finished build: the merged records, the plan and the snapshot. */
  datatype Build = Build(deduped: seq<SourceRecord>, plan: map<string, Split>, records: seq<SnapshotRecord>, snapshot: Snapshot)

  function Built(c: Contract, records: seq<SourceRecord>, o: Options, rnd: Randomness, manifests: seq<Manifest>, newId: nat -> string): Result<Build, Error> {
    var deduped := Deduplicated(c, records, o.onConflict);
    if deduped.Err? then Err(deduped.error)
    else
      var plan := SplitPlan(c, GroupsOf(deduped.value, c.splitGroup), o, rnd, manifests);
      if plan.Err? then Err(plan.error)
      else
        var materialized := Materialized(c, deduped.value, plan.value, newId);
        if materialized.Err? then Err(materialized.error)
        else Ok(Build(deduped.value, plan.value, materialized.value, Partitioned(materialized.value, plan.value)))
  }

  /** From labelled records to a snapshot. */
  method BuildSnapshot(c: Contract, records: seq<SourceRecord>, o: Options, rnd: Randomness, manifests: seq<Manifest>, newId: nat -> string)
    returns (result: Result<Build, Error>)
    ensures result == Built(c, records, o, rnd, manifests, newId)
  {
    var deduped := DeduplicateRecords(c, records, o.onConflict);
    if deduped.Err? {
      return Err(deduped.error);
    }
    var groups := GroupBy(deduped.value, c.splitGroup);
    var plan := BuildSplitPlan(c, groups, o, rnd, manifests);
    if plan.Err? {
      return Err(plan.error);
    }
    var materialized := MaterializeSnapshotRecords(c, deduped.value, plan.value, newId);
    if materialized.Err? {
      return Err(materialized.error);
    }
    MaterializedGroupsArePlanned(c, deduped.value, plan.value, newId);
    var snapshot := WriteSnapshot(materialized.value, plan.value);
    result := Ok(Build(deduped.value, plan.value, materialized.value, snapshot));
  }

  /** Materialised records come from the given ones and carry their keys, permissions and planned split. */
  lemma {:induction false} MaterializedGroupsArePlanned(c: Contract, records: seq<SourceRecord>, plan: map<string, Split>, newId: nat -> string)
    requires Materialized(c, records, plan, newId).Ok?
    ensures forall r <- Materialized(c, records, plan, newId).value ::
              && r.groupKey in plan && r.split == plan[r.groupKey] && r.source in records
              && r.groupKey == c.splitGroup(r.source) && r.normalizedKey == c.normalizeInput(r.source.input)
              && r.eligibility == r.source.eligibility
              && r.source.referenceOutput == Some(r.referenceOutput) && r.source.referenceSource == Some(r.referenceSource)
  {
    if records != [] {
      MaterializedGroupsArePlanned(c, records[..|records| - 1], plan, newId);
    }
  }
}
