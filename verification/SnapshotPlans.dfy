/** How the split plan depends on its inputs: not on their order, and on consumed rows only where they touch a group. */
module SnapshotPlans {
  import opened Wrappers
  import opened Snapshot
  import opened SnapshotProperties
  import opened Sequences

  // ---------------------------------------------------------------------------
  // The sorted keys depend only on which keys there are
  // ---------------------------------------------------------------------------

  /** No two keys share a hash. */
  ghost predicate Injective(rank: string -> int) {
    forall a: string, b: string :: rank(a) == rank(b) ==> a == b
  }

  ghost predicate Increasing(s: seq<string>, rank: string -> int) {
    forall i, j | 0 <= i < j < |s| :: rank(s[i]) < rank(s[j])
  }

  lemma {:induction false} InsertIncreases(k: string, sorted: seq<string>, rank: string -> int)
    requires Injective(rank) && Increasing(sorted, rank) && k !in sorted
    ensures Increasing(Inserted(k, sorted, ByRank(rank)), rank)
  {
    if sorted != [] && rank(k) >= rank(sorted[0]) {
      assert sorted[0] in sorted;
      InsertIncreases(k, sorted[1..], rank);
      InsertKeepsKeys(k, sorted[1..], rank);
      var rest := Inserted(k, sorted[1..], ByRank(rank));
      forall x | x in rest ensures rank(sorted[0]) < rank(x) {
        assert x in multiset(rest);
      }
    }
  }

  lemma {:induction false} SortIncreases(keys: seq<string>, rank: string -> int)
    requires Injective(rank) && Distinct(keys)
    ensures Increasing(Sorted(keys, ByRank(rank)), rank)
  {
    if keys != [] {
      var n := |keys| - 1;
      SortIncreases(keys[..n], rank);
      SortKeepsKeys(keys[..n], rank);
      InsertIncreases(keys[n], Sorted(keys[..n], ByRank(rank)), rank);
    }
  }

  lemma InTail(s: seq<string>, rank: string -> int, k: string)
    requires s != [] && Increasing(s, rank)
    ensures k in s[1..] <==> k in s && k != s[0]
  {
    if k in s[1..] {
      var i :| 0 <= i < |s[1..]| && s[1..][i] == k;
      assert rank(s[0]) < rank(s[i + 1]);
    }
    assert s == [s[0]] + s[1..];
  }

  lemma EmptyTogether(a: seq<string>, b: seq<string>)
    requires forall k: string :: k in a <==> k in b
    ensures a == [] <==> b == []
  {
    if a != [] {
      assert a[0] in b;
    }
    if b != [] {
      assert b[0] in a;
    }
  }

  lemma {:induction false} IncreasingIsUnique(a: seq<string>, b: seq<string>, rank: string -> int)
    requires Increasing(a, rank) && Increasing(b, rank)
    requires forall k: string :: k in a <==> k in b
    ensures a == b
  {
    EmptyTogether(a, b);
    if a != [] {
      assert a[0] in b && b[0] in a;
      assert a[0] == b[0];
      forall k: string ensures k in a[1..] <==> k in b[1..] {
        InTail(a, rank, k);
        InTail(b, rank, k);
      }
      IncreasingIsUnique(a[1..], b[1..], rank);
    }
  }

  lemma SortIgnoresOrder(a: seq<string>, b: seq<string>, rank: string -> int)
    requires Injective(rank) && Distinct(a) && Distinct(b)
    requires forall k: string :: k in a <==> k in b
    ensures Sorted(a, ByRank(rank)) == Sorted(b, ByRank(rank))
  {
    SortIncreases(a, rank);
    SortIncreases(b, rank);
    SortKeepsKeys(a, rank);
    SortKeepsKeys(b, rank);
    IncreasingIsUnique(Sorted(a, ByRank(rank)), Sorted(b, ByRank(rank)), rank);
  }

  // ---------------------------------------------------------------------------
  // The plan depends only on the views of its groups
  // ---------------------------------------------------------------------------

  /** Two groupings with the same keys that show the plan the same views. */
  ghost predicate SameViews(c: Contract, g: Groups, h: Groups) {
    && (forall k: string :: k in g.order <==> k in h.order)
    && (forall k: string :: k in g.members <==> k in h.members)
    && (forall k <- g.members :: ViewOf(c, g.members[k]) == ViewOf(c, h.members[k]))
  }

  lemma PlanReadsOnlyViews(c: Contract, g: Groups, h: Groups, o: Options, rnd: Randomness, manifests: seq<Manifest>)
    requires Injective(Seeded(o, rnd)) && SameViews(c, g, h)
    requires Distinct(g.order) && Distinct(h.order)
    requires forall k <- g.order :: k in g.members
    ensures SplitPlan(c, g, o, rnd, manifests) == SplitPlan(c, h, o, rnd, manifests)
  {
    SortIgnoresOrder(g.order, h.order, Seeded(o, rnd));
    assert Views(c, g) == Views(c, h);
  }

  /** All the plan can see of a list of records: their permissions and inputs. */
  function Profiles(c: Contract, group: seq<SourceRecord>): set<(seq<Role>, string)> {
    set r <- group :: (r.eligibility, c.normalizeInput(r.input))
  }

  lemma CommonToProfiles(c: Contract, group: seq<SourceRecord>, role: Role)
    requires !role.UnknownRole?
    ensures role in Intersection(Eligibilities(group)) <==> Profiles(c, group) != {} && forall p <- Profiles(c, group) :: role in p.0
  {
    EligibleForAll(group, role);
    if group != [] {
      assert (group[0].eligibility, c.normalizeInput(group[0].input)) in Profiles(c, group);
    }
    forall r | r in group ensures (r.eligibility, c.normalizeInput(r.input)) in Profiles(c, group) {
    }
  }

  lemma IntersectionIsDetermined(a: seq<seq<Role>>, b: seq<seq<Role>>)
    requires forall role: Role :: !role.UnknownRole? ==> (role in Intersection(a) <==> role in Intersection(b))
    ensures Intersection(a) == Intersection(b)
  {
    assert TrainRole in Intersection(a) <==> Common(a, TrainRole);
    assert TrainRole in Intersection(b) <==> Common(b, TrainRole);
    assert ValidationCandidate in Intersection(a) <==> Common(a, ValidationCandidate);
    assert ValidationCandidate in Intersection(b) <==> Common(b, ValidationCandidate);
    assert TestCandidate in Intersection(a) <==> Common(a, TestCandidate);
    assert TestCandidate in Intersection(b) <==> Common(b, TestCandidate);
  }

  lemma AlikeGroupsLookAlike(c: Contract, a: seq<SourceRecord>, b: seq<SourceRecord>)
    requires Profiles(c, a) == Profiles(c, b)
    ensures ViewOf(c, a) == ViewOf(c, b)
  {
    forall role: Role | !role.UnknownRole? ensures role in Intersection(Eligibilities(a)) <==> role in Intersection(Eligibilities(b)) {
      CommonToProfiles(c, a, role);
      CommonToProfiles(c, b, role);
    }
    IntersectionIsDetermined(Eligibilities(a), Eligibilities(b));
    KeysOfProfiles(c, a);
    KeysOfProfiles(c, b);
  }

  lemma KeysOfProfiles(c: Contract, group: seq<SourceRecord>)
    ensures ViewOf(c, group).normalizedKeys == set p <- Profiles(c, group) :: p.1
  {
    forall r | r in group ensures c.normalizeInput(r.input) in (set p <- Profiles(c, group) :: p.1) {
      assert (r.eligibility, c.normalizeInput(r.input)) in Profiles(c, group);
    }
  }

  ghost predicate SameRecords(a: seq<SourceRecord>, b: seq<SourceRecord>) {
    forall r: SourceRecord :: r in a <==> r in b
  }

  /** The plan, or the error it raises, is the same for every order of the records that are grouped. */
  lemma PlanIgnoresOrder(c: Contract, a: seq<SourceRecord>, b: seq<SourceRecord>, o: Options, rnd: Randomness, manifests: seq<Manifest>)
    requires Injective(Seeded(o, rnd)) && SameRecords(a, b)
    ensures SplitPlan(c, GroupsOf(a, c.splitGroup), o, rnd, manifests) == SplitPlan(c, GroupsOf(b, c.splitGroup), o, rnd, manifests)
  {
    var key := c.splitGroup;
    KeysAreDistinct(a, key);
    KeysAreDistinct(b, key);
    forall k: string ensures k in KeysOf(a, key) <==> k in KeysOf(b, key) {
      SameGroup(a, b, key, k);
    }
    forall k: string ensures ViewOf(c, GroupOf(a, key, k)) == ViewOf(c, GroupOf(b, key, k)) {
      SameGroup(a, b, key, k);
      assert Profiles(c, GroupOf(a, key, k)) == Profiles(c, GroupOf(b, key, k));
      AlikeGroupsLookAlike(c, GroupOf(a, key, k), GroupOf(b, key, k));
    }
    PlanReadsOnlyViews(c, GroupsOf(a, key), GroupsOf(b, key), o, rnd, manifests);
  }

  lemma SameGroup(a: seq<SourceRecord>, b: seq<SourceRecord>, key: SourceRecord -> string, k: string)
    requires SameRecords(a, b)
    ensures SameRecords(GroupOf(a, key, k), GroupOf(b, key, k))
    ensures k in KeysOf(a, key) <==> k in KeysOf(b, key)
  {
    GroupingIsExact(a, key);
    GroupingIsExact(b, key);
    var g, h := GroupOf(a, key, k), GroupOf(b, key, k);
    forall r: SourceRecord ensures r in g <==> r in h {
      assert r in a <==> r in b;
    }
    assert g != [] ==> g[0] in g;
    assert h != [] ==> h[0] in h;
  }

  // ---------------------------------------------------------------------------
  // One manifest more
  // ---------------------------------------------------------------------------

  /** Why a plan succeeds: every group has a common legal split, or is excluded, and still one to go to. */
  lemma {:induction false} PlanSucceeds(views: map<string, View>, keys: seq<string>, o: Options, rnd: Randomness, consumed: set<string>)
    requires forall k <- keys :: k in views
    ensures PlanOver(views, keys, o, rnd, consumed).Ok?
            <==> forall k <- keys :: if views[k].eligibility == [] then o.onConflict == ExcludeOnConflict
                                     else Choices(views[k], HiddenAllowed(k, views[k], consumed)) != []
  {
    if keys != [] {
      var n := |keys| - 1;
      assert keys == keys[..n] + [keys[n]];
      PlanSucceeds(views, keys[..n], o, rnd, consumed);
    }
  }

  /** A manifest touches a group when it names the group or a normalized key of one of its records. */
  predicate Touches(m: Manifest, k: string, v: View) {
    !HiddenAllowed(k, v, ConsumedKeys([m]))
  }

  lemma ConsumedWithOneMore(manifests: seq<Manifest>, m: Manifest, k: string, v: View)
    ensures HiddenAllowed(k, v, ConsumedKeys(manifests + [m])) <==> HiddenAllowed(k, v, ConsumedKeys(manifests)) && !Touches(m, k, v)
  {
    assert ConsumedKeys(manifests + [m]) == ConsumedKeys(manifests) + ConsumedKeys([m]) by {
      forall x: string ensures x in ConsumedKeys(manifests + [m]) <==> x in ConsumedKeys(manifests) + ConsumedKeys([m]) {
        assert m in manifests + [m] && m in [m];
        assert forall y <- manifests :: y in manifests + [m];
      }
    }
  }

  /** When a plan succeeds, it still does with one manifest more exactly when every group the manifest touches
      may be trained on. */
  lemma OneMoreManifestSucceeds(c: Contract, groups: Groups, o: Options, rnd: Randomness, manifests: seq<Manifest>, m: Manifest)
    requires forall k <- groups.order :: k in groups.members
    requires SplitPlan(c, groups, o, rnd, manifests).Ok?
    ensures SplitPlan(c, groups, o, rnd, manifests + [m]).Ok?
            <==> forall k <- groups.order ::
                   var v := ViewOf(c, groups.members[k]);
                   v.eligibility != [] && Touches(m, k, v) ==> TrainRole in v.eligibility
  {
    var views, keys := Views(c, groups), Sorted(groups.order, ByRank(Seeded(o, rnd)));
    SortKeepsKeys(groups.order, Seeded(o, rnd));
    PlanSucceeds(views, keys, o, rnd, ConsumedKeys(manifests));
    PlanSucceeds(views, keys, o, rnd, ConsumedKeys(manifests + [m]));
    forall k | k in keys ensures HiddenAllowed(k, views[k], ConsumedKeys(manifests + [m]))
                                 <==> HiddenAllowed(k, views[k], ConsumedKeys(manifests)) && !Touches(m, k, views[k])
    {
      ConsumedWithOneMore(manifests, m, k, views[k]);
    }
    forall k | k in keys && views[k].eligibility != []
      ensures Choices(views[k], HiddenAllowed(k, views[k], ConsumedKeys(manifests + [m]))) != []
              <==> (Touches(m, k, views[k]) ==> TrainRole in views[k].eligibility)
    {
      assert Choices(views[k], HiddenAllowed(k, views[k], ConsumedKeys(manifests))) != [];
    }
  }

  /** One manifest more moves only the groups it touches, and those to train; every other group keeps its split. */
  lemma OneMoreManifestMovesOnlyTouched(c: Contract, groups: Groups, o: Options, rnd: Randomness, manifests: seq<Manifest>, m: Manifest, k: string)
    requires forall g <- groups.order :: g in groups.members
    requires Distinct(groups.order) && k in groups.order
    requires SplitPlan(c, groups, o, rnd, manifests).Ok? && SplitPlan(c, groups, o, rnd, manifests + [m]).Ok?
    ensures var before, after := SplitPlan(c, groups, o, rnd, manifests).value, SplitPlan(c, groups, o, rnd, manifests + [m]).value;
            && (k in before <==> k in after)
            && (k in before ==> after[k] == if Touches(m, k, ViewOf(c, groups.members[k])) then Train else before[k])
  {
    var views, keys := Views(c, groups), Sorted(groups.order, ByRank(Seeded(o, rnd)));
    SortKeepsKeys(groups.order, Seeded(o, rnd));
    SortIsDistinct(groups.order, Seeded(o, rnd));
    var i :| 0 <= i < |keys| && keys[i] == k;
    PlanEntry(views, keys, o, rnd, ConsumedKeys(manifests), i);
    PlanEntry(views, keys, o, rnd, ConsumedKeys(manifests + [m]), i);
    ConsumedWithOneMore(manifests, m, k, views[k]);
    ChosenSplitIsLegal(k, views[k], o, ConsumedKeys(manifests + [m]), rnd.roll(o.seed, Draws(views, keys[..i])));
  }
}
