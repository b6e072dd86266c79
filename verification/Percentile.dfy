/** The nearest-rank percentile of a window's latencies. */
module Percentile {
  import opened Sequences
  import opened Counting

  predicate Less(x: real, y: real) { x < y }

  function Ceil(x: real): int { -((-x).Floor) }

  /** The position, counted from zero, of the value with the rank asked for. */
  function RankIndex(quantile: real, n: int): int {
    var index := Ceil(quantile * n as real) - 1;
    var capped := if index < n - 1 then index else n - 1;
    if capped > 0 then capped else 0
  }

  function NearestRank(values: seq<real>, quantile: real): real {
    SortKeepsCounts(values);
    if values == [] then 0.0 else Sorted(values, Less)[RankIndex(quantile, |values|)]
  }

  /** How many values are at most `x`. */
  function AtMost(values: seq<real>, x: real): nat {
    Count(values, (value: real) => value <= x)
  }

  lemma AtMostFirst(values: seq<real>, x: real)
    ensures AtMost(values, x) == if values == [] then 0 else (if values[0] <= x then 1 else 0) + AtMost(values[1..], x)
  {
    if values != [] {
      CountFirst(values, (value: real) => value <= x);
    }
  }

  ghost predicate Ordered(s: seq<real>) {
    forall i, j | 0 <= i < j < |s| :: s[i] <= s[j]
  }

  lemma {:induction false} InsertKeepsCounts(x: real, sorted: seq<real>)
    ensures |Inserted(x, sorted, Less)| == |sorted| + 1
    ensures forall y: real :: AtMost(Inserted(x, sorted, Less), y) == AtMost(sorted, y) + (if x <= y then 1 else 0)
    ensures forall y: real :: y in Inserted(x, sorted, Less) <==> y == x || y in sorted
    ensures Ordered(sorted) ==> Ordered(Inserted(x, sorted, Less))
  {
    var more := Inserted(x, sorted, Less);
    forall y: real ensures AtMost(more, y) == (if more[0] <= y then 1 else 0) + AtMost(more[1..], y)
                           && (sorted != [] ==> AtMost(sorted, y) == (if sorted[0] <= y then 1 else 0) + AtMost(sorted[1..], y))
    {
      AtMostFirst(more, y);
      AtMostFirst(sorted, y);
    }
    if sorted != [] && x >= sorted[0] {
      InsertKeepsCounts(x, sorted[1..]);
      var rest := Inserted(x, sorted[1..], Less);
      assert sorted == [sorted[0]] + sorted[1..];
      assert more[1..] == rest;
      if Ordered(sorted) {
        forall j | 0 <= j < |rest| ensures sorted[0] <= rest[j] {
          assert rest[j] in rest;
        }
      }
    } else {
      assert more[1..] == sorted;
    }
  }

  lemma {:induction false} SortKeepsCounts(values: seq<real>)
    ensures |Sorted(values, Less)| == |values| && Ordered(Sorted(values, Less))
    ensures forall y: real :: AtMost(Sorted(values, Less), y) == AtMost(values, y)
    ensures forall y: real :: y in Sorted(values, Less) <==> y in values
  {
    if values != [] {
      var n := |values| - 1;
      SortKeepsCounts(values[..n]);
      InsertKeepsCounts(values[n], Sorted(values[..n], Less));
      assert values == values[..n] + [values[n]];
    }
  }

  /** Of an ordered list, the values up to position `i` are at most the one there, and only earlier ones are less. */
  lemma {:induction false} RankInOrdered(s: seq<real>, i: nat, y: real)
    requires Ordered(s) && i < |s|
    ensures s[i] <= y ==> AtMost(s, y) >= i + 1
    ensures y < s[i] ==> AtMost(s, y) <= i
  {
    AtMostFirst(s, y);
    assert forall j | 0 <= j < |s| - 1 :: s[1..][j] == s[j + 1];
    if i > 0 {
      RankInOrdered(s[1..], i - 1, y);
      assert s[0] <= s[i];
    } else if y < s[0] {
      NoneAtMost(s, y);
    }
  }

  lemma {:induction false} NoneAtMost(s: seq<real>, y: real)
    requires forall j | 0 <= j < |s| :: y < s[j]
    ensures AtMost(s, y) == 0
  {
    AtMostFirst(s, y);
    if s != [] {
      NoneAtMost(s[1..], y);
    }
  }

  lemma CeilIsLeast(x: real)
    ensures x <= Ceil(x) as real < x + 1.0
  {
  }

  /** How many of `n` values a quantile asks for: at least one, and at most all of them. */
  function Asked(share: real, n: nat): real {
    if share > n as real then n as real else if share <= 0.0 then 1.0 else share
  }

  lemma RankCoversShare(quantile: real, n: nat, share: real)
    requires n > 0 && share == quantile * n as real
    ensures var i := RankIndex(quantile, n);
            0 <= i < n && i as real < Asked(share, n) <= (i + 1) as real
  {
    CeilIsLeast(share);
    assert Ceil(quantile * n as real) == Ceil(share);
  }

  /** The percentile of no values is zero. Of others it is the least that at least the quantile's share of them does
      not exceed; quantiles outside zero and one ask for the least and the greatest value. */
  lemma PercentileIsLeastCover(values: seq<real>, quantile: real)
    ensures var p := NearestRank(values, quantile);
            if values == [] then p == 0.0
            else
              var asked := Asked(quantile * |values| as real, |values|);
              && p in values && AtMost(values, p) as real >= asked
              && forall y: real :: y < p ==> (AtMost(values, y) as real) < asked
  {
    if values != [] {
      var share := quantile * |values| as real;
      RankCoversShare(quantile, |values|, share);
      RankIsLeastCover(values, RankIndex(quantile, |values|), Asked(share, |values|));
    }
  }

  lemma RankIsLeastCover(values: seq<real>, i: nat, share: real)
    requires i < |values| && i as real < share <= (i + 1) as real
    ensures |Sorted(values, Less)| == |values|
    ensures var p := Sorted(values, Less)[i];
            && p in values && AtMost(values, p) as real >= share
            && forall y: real :: y < p ==> (AtMost(values, y) as real) < share
  {
    SortKeepsCounts(values);
    var s := Sorted(values, Less);
    RankInOrdered(s, i, s[i]);
    assert s[i] in s;
    forall y: real | y < s[i] ensures (AtMost(values, y) as real) < share {
      RankInOrdered(s, i, y);
    }
  }
}
