/** The distance between a runtime distribution and its baseline, used to detect drift. */
module Drift {
  import opened Wrappers

  type Counts = map<string, real>

  /** A baseline comes from free-form options: it may be no mapping at all, or hold values that are no numbers. */
  datatype Baseline = NotAMapping | Mapping(values: map<string, Option<real>>)

  /** Values that are no numbers count as zero. */
  function Numbers(values: map<string, Option<real>>): Counts {
    map k <- values :: if values[k].Some? then values[k].value else 0.0
  }

  function At(m: Counts, k: string): real { if k in m then m[k] else 0.0 }

  function Abs(x: real): real { if x < 0.0 then -x else x }

  // ---------------------------------------------------------------------------
  // Sums over a mapping do not depend on the order of its keys
  // ---------------------------------------------------------------------------

  ghost function Sum(m: Counts): real
    decreases |m|
  {
    if m == map[] then 0.0
    else
      var k :| k in m;
      m[k] + Sum(m - {k})
  }

  lemma {:induction false} SumRemove(m: Counts, k: string)
    requires k in m
    ensures Sum(m) == m[k] + Sum(m - {k})
    decreases |m|
  {
    var j :| j in m && Sum(m) == m[j] + Sum(m - {j});
    if j != k {
      SumRemove(m - {j}, k);
      SumRemove(m - {k}, j);
      assert m - {j} - {k} == m - {k} - {j};
    }
  }

  lemma SumWithout(m: Counts, k: string)
    ensures Sum(m) == At(m, k) + Sum(m - {k})
  {
    if k in m {
      SumRemove(m, k);
    } else {
      assert m - {k} == m;
    }
  }

  /** Adding key by key adds the sums; a key absent on one side counts as zero there. */
  lemma {:induction false} SumAdd(c: Counts, a: Counts, b: Counts)
    requires a.Keys <= c.Keys && b.Keys <= c.Keys
    requires forall k <- c :: c[k] == At(a, k) + At(b, k)
    ensures Sum(c) == Sum(a) + Sum(b)
    decreases |c|
  {
    if c == map[] {
      assert a == map[] && b == map[];
    } else {
      var k :| k in c;
      SumWithout(c, k);
      SumWithout(a, k);
      SumWithout(b, k);
      SumAdd(c - {k}, a - {k}, b - {k});
    }
  }

  ghost predicate AddsAt(f: real -> real, x: real, y: real) {
    f(x + y) == f(x) + f(y)
  }

  ghost predicate Additive(f: real -> real) {
    forall x: real, y: real {:trigger AddsAt(f, x, y)} :: AddsAt(f, x, y)
  }

  /** A map of values by an additive function maps their sum. */
  lemma {:induction false} SumMapped(c: Counts, a: Counts, f: real -> real)
    requires Additive(f) && a.Keys <= c.Keys
    requires forall k <- c :: c[k] == f(At(a, k))
    ensures Sum(c) == f(Sum(a))
    decreases |c|
  {
    if c == map[] {
      assert a == map[];
      assert AddsAt(f, 0.0, 0.0);
    } else {
      var k :| k in c;
      SumMapped(c - {k}, a - {k}, f);
      SumWithout(c, k);
      SumWithout(a, k);
      assert AddsAt(f, At(a, k), Sum(a - {k}));
    }
  }

  lemma QuotientAdds(x: real, y: real, total: real)
    requires total > 0.0
    ensures (x + y) / total == x / total + y / total
  {
  }

  /** Dividing every value divides the sum. */
  lemma SumDivide(c: Counts, a: Counts, total: real)
    requires total > 0.0 && a.Keys <= c.Keys
    requires forall k <- c :: c[k] == At(a, k) / total
    ensures Sum(c) == Sum(a) / total
  {
    var f := (x: real) => if total > 0.0 then x / total else 0.0;
    forall x: real, y: real ensures AddsAt(f, x, y) {
      QuotientAdds(x, y, total);
    }
    SumMapped(c, a, f);
  }

  lemma {:induction false} SumMonotone(a: Counts, b: Counts)
    requires a.Keys == b.Keys && forall k <- a :: a[k] <= b[k]
    ensures Sum(a) <= Sum(b)
    decreases |a|
  {
    if a != map[] {
      var k :| k in a;
      SumRemove(a, k);
      SumRemove(b, k);
      SumMonotone(a - {k}, b - {k});
    }
  }

  lemma {:induction false} SumOfNonNegatives(m: Counts)
    requires forall k <- m :: m[k] >= 0.0
    ensures Sum(m) >= 0.0
    ensures Sum(m) == 0.0 <==> forall k <- m :: m[k] == 0.0
    decreases |m|
  {
    if m != map[] {
      var k :| k in m;
      SumRemove(m, k);
      SumOfNonNegatives(m - {k});
      assert forall j <- m :: j == k || j in m - {k};
    }
  }

  // ---------------------------------------------------------------------------
  // The distance
  // ---------------------------------------------------------------------------

  ghost function ShareOf(m: Counts, k: string): real {
    if Sum(m) == 0.0 then 0.0 else At(m, k) / Sum(m)
  }

  ghost function Gaps(a: Counts, b: Counts): Counts {
    map k <- a.Keys + b.Keys :: Abs(ShareOf(a, k) - ShareOf(b, k))
  }

  ghost function Tvd(a: Counts, b: Counts): real {
    if Sum(a) <= 0.0 && Sum(b) <= 0.0 then 0.0 else Sum(Gaps(a, b)) / 2.0
  }

  ghost function Distance(current: Counts, baseline: Baseline): real {
    match baseline
    case NotAMapping => 0.0
    case Mapping(values) => Tvd(current, Numbers(values))
  }

  method SumValues(m: Counts) returns (total: real)
    ensures total == Sum(m)
  {
    total := 0.0;
    var rest := m;
    while rest != map[]
      invariant total + Sum(rest) == Sum(m)
      decreases |rest|
    {
      var k :| k in rest;
      SumRemove(rest, k);
      total := total + rest[k];
      rest := rest - {k};
    }
  }

  method DistributionDistance(current: Counts, baseline: Baseline) returns (distance: real)
    ensures distance == Distance(current, baseline)
  {
    if baseline.NotAMapping? {
      return 0.0;
    }
    var numbers := Numbers(baseline.values);
    var currentTotal := SumValues(current);
    var baselineTotal := SumValues(numbers);
    if currentTotal <= 0.0 && baselineTotal <= 0.0 {
      return 0.0;
    }
    distance := 0.0;
    var keys := current.Keys + numbers.Keys;
    ghost var rest := Gaps(current, numbers);
    while keys != {}
      invariant keys == rest.Keys && forall k <- rest :: rest[k] == Abs(ShareOf(current, k) - ShareOf(numbers, k))
      invariant distance + Sum(rest) == Sum(Gaps(current, numbers))
    {
      var k :| k in keys;
      var currentShare := if currentTotal != 0.0 then At(current, k) / currentTotal else 0.0;
      var baselineShare := if baselineTotal != 0.0 then At(numbers, k) / baselineTotal else 0.0;
      distance := distance + Abs(currentShare - baselineShare);
      SumRemove(rest, k);
      keys, rest := keys - {k}, rest - {k};
    }
    distance := distance / 2.0;
  }

  // ---------------------------------------------------------------------------
  // It is a metric
  // ---------------------------------------------------------------------------

  ghost predicate NonNegative(m: Counts) {
    forall k <- m :: m[k] >= 0.0
  }

  /** Counts that make up a distribution: none negative, some positive. */
  ghost predicate Distribution(m: Counts) {
    NonNegative(m) && Sum(m) > 0.0
  }

  ghost function SharesOn(m: Counts, keys: set<string>): Counts {
    map k <- keys :: ShareOf(m, k)
  }

  lemma SharesAreNonNegative(m: Counts, k: string)
    requires NonNegative(m)
    ensures ShareOf(m, k) >= 0.0
  {
    SumOfNonNegatives(m);
    if Sum(m) > 0.0 {
      assert At(m, k) >= 0.0;
      var s, t := At(m, k), Sum(m);
      assert s / t >= 0.0;
    }
  }

  /** The shares of a distribution sum to one over any keys that include its own. */
  lemma SharesSumToOne(m: Counts, keys: set<string>)
    requires Distribution(m) && m.Keys <= keys
    ensures Sum(SharesOn(m, keys)) == 1.0
  {
    var total := Sum(m);
    forall k | k in SharesOn(m, keys) ensures SharesOn(m, keys)[k] == At(m, k) / total {
    }
    SumDivide(SharesOn(m, keys), m, total);
    WholeOfItself(total);
  }

  lemma WholeOfItself(total: real)
    requires total > 0.0
    ensures total / total == 1.0
  {
  }

  lemma SharesOfNothing(m: Counts, keys: set<string>)
    requires NonNegative(m) && Sum(m) == 0.0
    ensures Sum(SharesOn(m, keys)) == 0.0
  {
    SumOfNonNegatives(SharesOn(m, keys));
  }

  ghost function Overlap(a: Counts, b: Counts): Counts {
    map k <- a.Keys + b.Keys :: if ShareOf(a, k) <= ShareOf(b, k) then ShareOf(a, k) else ShareOf(b, k)
  }

  lemma SharesSplit(a: Counts, b: Counts, larger: Counts)
    requires larger == map k <- a.Keys + b.Keys :: if ShareOf(a, k) <= ShareOf(b, k) then ShareOf(b, k) else ShareOf(a, k)
    ensures var keys := a.Keys + b.Keys;
            Sum(SharesOn(a, keys)) + Sum(SharesOn(b, keys)) == Sum(larger) + Sum(Overlap(a, b))
  {
    var keys := a.Keys + b.Keys;
    var both: Counts := map k <- keys :: ShareOf(a, k) + ShareOf(b, k);
    SumAdd(both, SharesOn(a, keys), SharesOn(b, keys));
    SumAdd(both, larger, Overlap(a, b));
  }

  /** The gaps are the two sets of shares less twice their overlap. */
  lemma GapsAreSharesLessOverlap(a: Counts, b: Counts)
    ensures var keys := a.Keys + b.Keys;
            Sum(Gaps(a, b)) == Sum(SharesOn(a, keys)) + Sum(SharesOn(b, keys)) - 2.0 * Sum(Overlap(a, b))
  {
    var larger: Counts := map k <- a.Keys + b.Keys :: if ShareOf(a, k) <= ShareOf(b, k) then ShareOf(b, k) else ShareOf(a, k);
    SharesSplit(a, b, larger);
    SumAdd(larger, Gaps(a, b), Overlap(a, b));
  }

  lemma OverlapIsZeroIffDisjoint(a: Counts, b: Counts)
    requires NonNegative(a) && NonNegative(b)
    ensures Sum(Overlap(a, b)) >= 0.0
    ensures Sum(Overlap(a, b)) == 0.0 <==> forall k <- a.Keys + b.Keys :: ShareOf(a, k) == 0.0 || ShareOf(b, k) == 0.0
  {
    forall k | k in a.Keys + b.Keys ensures ShareOf(a, k) >= 0.0 && ShareOf(b, k) >= 0.0 {
      SharesAreNonNegative(a, k);
      SharesAreNonNegative(b, k);
    }
    SumOfNonNegatives(Overlap(a, b));
    assert forall k <- Overlap(a, b) :: Overlap(a, b)[k] == 0.0 <==> ShareOf(a, k) == 0.0 || ShareOf(b, k) == 0.0;
  }

  lemma GapsAreZeroIffEqual(a: Counts, b: Counts)
    ensures Sum(Gaps(a, b)) >= 0.0
    ensures Sum(Gaps(a, b)) == 0.0 <==> forall k <- a.Keys + b.Keys :: ShareOf(a, k) == ShareOf(b, k)
  {
    SumOfNonNegatives(Gaps(a, b));
    assert forall k <- Gaps(a, b) :: Gaps(a, b)[k] == 0.0 <==> ShareOf(a, k) == ShareOf(b, k);
  }

  lemma SharesOutsideKeys(m: Counts, k: string)
    requires k !in m
    ensures ShareOf(m, k) == 0.0
  {
  }

  /** On distributions the distance lies between zero and one, is zero exactly when all shares agree,
      and one exactly when no key has a share on both sides. */
  lemma DistanceBounds(a: Counts, b: Counts)
    requires Distribution(a) && Distribution(b)
    ensures 0.0 <= Tvd(a, b) <= 1.0
    ensures Tvd(a, b) == 0.0 <==> forall k: string :: ShareOf(a, k) == ShareOf(b, k)
    ensures Tvd(a, b) == 1.0 <==> forall k: string :: ShareOf(a, k) == 0.0 || ShareOf(b, k) == 0.0
  {
    var keys := a.Keys + b.Keys;
    SharesSumToOne(a, keys);
    SharesSumToOne(b, keys);
    GapsAreSharesLessOverlap(a, b);
    OverlapIsZeroIffDisjoint(a, b);
    GapsAreZeroIffEqual(a, b);
    forall k: string ensures k in keys || ShareOf(a, k) == ShareOf(b, k) == 0.0 {
      if k !in keys {
        SharesOutsideKeys(a, k);
        SharesOutsideKeys(b, k);
      }
    }
  }

  lemma DistanceIsSymmetric(a: Counts, b: Counts)
    ensures Tvd(a, b) == Tvd(b, a)
  {
    assert Gaps(a, b) == Gaps(b, a);
  }

  ghost function GapsOn(a: Counts, b: Counts, keys: set<string>): Counts {
    map k <- keys :: Abs(ShareOf(a, k) - ShareOf(b, k))
  }

  lemma GapsOnMoreKeys(a: Counts, b: Counts, keys: set<string>)
    requires a.Keys + b.Keys <= keys
    ensures Sum(GapsOn(a, b, keys)) == Sum(Gaps(a, b))
  {
    forall k | k in keys && k !in Gaps(a, b) ensures GapsOn(a, b, keys)[k] == 0.0 {
      SharesOutsideKeys(a, k);
      SharesOutsideKeys(b, k);
    }
    SumAdd(GapsOn(a, b, keys), Gaps(a, b), map[]);
  }

  lemma AbsTriangle(x: real, y: real, z: real)
    ensures Abs(x - z) <= Abs(x - y) + Abs(y - z)
  {
  }

  lemma DetourIsLonger(a: Counts, b: Counts, c: Counts, keys: set<string>)
    ensures Sum(GapsOn(a, c, keys)) <= Sum(GapsOn(a, b, keys)) + Sum(GapsOn(b, c, keys))
  {
    var ab, bc, ac := GapsOn(a, b, keys), GapsOn(b, c, keys), GapsOn(a, c, keys);
    var detour: Counts := map k <- keys :: ab[k] + bc[k];
    SumAdd(detour, ab, bc);
    forall k | k in keys ensures ac[k] <= detour[k] {
      AbsTriangle(ShareOf(a, k), ShareOf(b, k), ShareOf(c, k));
    }
    SumMonotone(ac, detour);
  }

  lemma TriangleInequality(a: Counts, b: Counts, c: Counts)
    requires Distribution(a) && Distribution(b) && Distribution(c)
    ensures Tvd(a, c) <= Tvd(a, b) + Tvd(b, c)
  {
    var keys := a.Keys + b.Keys + c.Keys;
    GapsOnMoreKeys(a, b, keys);
    GapsOnMoreKeys(b, c, keys);
    GapsOnMoreKeys(a, c, keys);
    DetourIsLonger(a, b, c, keys);
  }

  /** When one side is empty and the other a distribution, the distance is exactly one half. */
  lemma EmptySideIsHalf(a: Counts, b: Counts)
    requires NonNegative(a) && Sum(a) == 0.0 && Distribution(b)
    ensures Tvd(a, b) == 0.5 && Tvd(b, a) == 0.5
  {
    var keys := a.Keys + b.Keys;
    SharesOfNothing(a, keys);
    SharesSumToOne(b, keys);
    GapsAreSharesLessOverlap(a, b);
    OverlapIsZeroIffDisjoint(a, b);
    DistanceIsSymmetric(a, b);
  }
}
