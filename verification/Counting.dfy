/** Counts, selections and shares, however their sequences are ordered. */
module Counting {
  import opened Sequences

  function Count<T>(s: seq<T>, p: T -> bool): nat {
    if s == [] then 0 else Count(s[..|s| - 1], p) + (if p(s[|s| - 1]) then 1 else 0)
  }

  /** How often `x` occurs. */
  function Occurrences<T(==)>(s: seq<T>, x: T): nat {
    if s == [] then 0 else Occurrences(s[..|s| - 1], x) + (if s[|s| - 1] == x then 1 else 0)
  }

  function Selected<T>(s: seq<T>, p: T -> bool): seq<T> {
    if s == [] then [] else Selected(s[..|s| - 1], p) + (if p(s[|s| - 1]) then [s[|s| - 1]] else [])
  }

  /** The share of nothing is zero. */
  function Ratio(count: nat, total: nat): real {
    if total == 0 then 0.0 else count as real / total as real
  }

  lemma {:induction false} CountBounded<T>(s: seq<T>, p: T -> bool)
    ensures Count(s, p) <= |s|
  {
    if s != [] {
      CountBounded(s[..|s| - 1], p);
    }
  }

  lemma CountGrows<T>(s: seq<T>, i: nat, p: T -> bool)
    requires i < |s|
    ensures Count(s[..i + 1], p) == Count(s[..i], p) + (if p(s[i]) then 1 else 0)
  {
    assert s[..i + 1][..i] == s[..i];
  }

  lemma {:induction false} CountConcat<T>(a: seq<T>, b: seq<T>, p: T -> bool)
    ensures Count(a + b, p) == Count(a, p) + Count(b, p)
  {
    if b == [] {
      assert a + b == a;
    } else {
      assert (a + b)[..|a + b| - 1] == a + b[..|b| - 1];
      CountConcat(a, b[..|b| - 1], p);
    }
  }

  lemma CountOne<T>(x: T, p: T -> bool)
    ensures Count([x], p) == if p(x) then 1 else 0
  {
    assert [x][..0] == [];
  }

  lemma CountFirst<T>(s: seq<T>, p: T -> bool)
    requires s != []
    ensures Count(s, p) == (if p(s[0]) then 1 else 0) + Count(s[1..], p)
  {
    assert s == [s[0]] + s[1..];
    CountConcat([s[0]], s[1..], p);
    CountOne(s[0], p);
  }

  lemma CountWithout<T>(s: seq<T>, j: nat, p: T -> bool)
    requires j < |s|
    ensures Count(s, p) == Count(Without(s, j), p) + (if p(s[j]) then 1 else 0)
  {
    var before, one, after := s[..j], [s[j]], s[j + 1..];
    CountConcat(before, one + after, p);
    CountConcat(one, after, p);
    CountConcat(before, after, p);
    CountOne(s[j], p);
    SplitAt(s, j);
  }

  lemma SplitAt<T>(s: seq<T>, j: nat)
    requires j < |s|
    ensures s == s[..j] + ([s[j]] + s[j + 1..])
  {
  }

  /** A count does not depend on the order. */
  lemma {:induction false} CountIgnoresOrder<T>(a: seq<T>, b: seq<T>, p: T -> bool)
    requires multiset(a) == multiset(b)
    ensures Count(a, p) == Count(b, p)
  {
    if a == [] {
      SameLength(a, b);
    } else {
      var j := MatchLast(a, b);
      CountIgnoresOrder(a[..|a| - 1], Without(b, j), p);
      CountWithout(b, j, p);
    }
  }

  /** Two sequences that satisfy their conditions at the same places. */
  lemma {:induction false} CountPairs<S, T>(a: seq<S>, b: seq<T>, p: S -> bool, q: T -> bool)
    requires |a| == |b| && forall i | 0 <= i < |a| :: p(a[i]) <==> q(b[i])
    ensures Count(a, p) == Count(b, q)
  {
    if a != [] {
      CountPairs(a[..|a| - 1], b[..|b| - 1], p, q);
    }
  }

  lemma {:induction false} CountOthers<T>(s: seq<T>, p: T -> bool, q: T -> bool)
    requires forall x: T :: q(x) <==> !p(x)
    ensures Count(s, p) + Count(s, q) == |s|
  {
    if s != [] {
      CountOthers(s[..|s| - 1], p, q);
    }
  }

  lemma {:induction false} CountNone<T>(s: seq<T>, p: T -> bool)
    requires forall x: T :: !p(x)
    ensures Count(s, p) == 0
  {
    if s != [] {
      CountNone(s[..|s| - 1], p);
    }
  }

  lemma {:induction false} Occurs<T>(s: seq<T>, x: T)
    ensures x in s <==> Occurrences(s, x) > 0
  {
    if s != [] {
      Occurs(s[..|s| - 1], x);
      assert s == s[..|s| - 1] + [s[|s| - 1]];
    }
  }

  /** What is selected are the elements that satisfy the condition. */
  lemma {:induction false} SelectedSatisfy<T>(s: seq<T>, p: T -> bool)
    ensures forall x: T :: x in Selected(s, p) <==> x in s && p(x)
    ensures |Selected(s, p)| <= |s|
  {
    if s != [] {
      SelectedSatisfy(s[..|s| - 1], p);
      assert forall x: T :: x in s <==> x in s[..|s| - 1] || x == s[|s| - 1];
    }
  }

  lemma SelectedGrows<T>(s: seq<T>, i: nat, p: T -> bool)
    requires i < |s|
    ensures Selected(s[..i + 1], p) == Selected(s[..i], p) + (if p(s[i]) then [s[i]] else [])
  {
    assert s[..i + 1][..i] == s[..i];
  }

  lemma SelectedOneMore<T>(s: seq<T>, x: T, p: T -> bool)
    ensures Selected(s + [x], p) == Selected(s, p) + (if p(x) then [x] else [])
  {
    assert (s + [x])[..|s|] == s;
  }

  lemma {:induction false} SelectedTwoWays<T>(s: seq<T>, p: T -> bool, q: T -> bool)
    requires forall x: T :: !(p(x) && q(x))
    ensures |Selected(s, p)| + |Selected(s, q)| <= |s|
    ensures (forall x <- s :: p(x) || q(x)) ==> |Selected(s, p)| + |Selected(s, q)| == |s|
  {
    if s != [] {
      var n := |s| - 1;
      SelectedTwoWays(s[..n], p, q);
      assert forall x <- s[..n] :: x in s;
      assert s[n] in s;
    }
  }

  lemma {:induction false} SelectedConcat<T>(a: seq<T>, b: seq<T>, p: T -> bool)
    ensures Selected(a + b, p) == Selected(a, p) + Selected(b, p)
  {
    if b == [] {
      assert a + b == a;
    } else {
      assert (a + b)[..|a + b| - 1] == a + b[..|b| - 1];
      SelectedConcat(a, b[..|b| - 1], p);
    }
  }

  lemma {:induction false} SelectedAll<T>(s: seq<T>, p: T -> bool)
    requires forall i | 0 <= i < |s| :: p(s[i])
    ensures Selected(s, p) == s
  {
    if s != [] {
      SelectedAll(s[..|s| - 1], p);
    }
  }

  lemma {:induction false} SelectedNone<T>(s: seq<T>, p: T -> bool)
    requires forall i | 0 <= i < |s| :: !p(s[i])
    ensures Selected(s, p) == []
  {
    if s != [] {
      SelectedNone(s[..|s| - 1], p);
    }
  }

  lemma {:induction false} NeverBoth<T>(s: seq<T>, p: T -> bool, q: T -> bool)
    requires forall i | 0 <= i < |s| :: p(s[i]) ==> !q(s[i])
    ensures Selected(Selected(s, p), q) == []
  {
    if s != [] {
      var n := |s| - 1;
      NeverBoth(s[..n], p, q);
      if p(s[n]) {
        SelectedConcat(Selected(s[..n], p), [s[n]], q);
        SelectedNone([s[n]], q);
      } else {
        assert Selected(s, p) == Selected(s[..n], p);
      }
    }
  }

  /** Of a longer sequence, two conditions that hold of everything later, and never both before, select what is later. */
  lemma SelectedLater<T>(early: seq<T>, later: seq<T>, p: T -> bool, q: T -> bool)
    requires forall i | 0 <= i < |later| :: p(later[i]) && q(later[i])
    requires forall i | 0 <= i < |early| :: p(early[i]) ==> !q(early[i])
    ensures Selected(Selected(early + later, p), q) == later
  {
    SelectedConcat(early, later, p);
    SelectedAll(later, p);
    SelectedConcat(Selected(early, p), later, q);
    NeverBoth(early, p, q);
    SelectedAll(later, q);
  }
}
