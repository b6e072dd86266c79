/** Sequences up to reordering, and results that a loop builds element by element. */
module Sequences {
  import opened Wrappers

  function Without<T>(s: seq<T>, j: nat): seq<T>
    requires j < |s|
  {
    s[..j] + s[j + 1..]
  }

  lemma WithoutMultiset<T>(s: seq<T>, j: nat)
    requires j < |s|
    ensures multiset(s) == multiset(Without(s, j)) + multiset{s[j]}
  {
    assert s == s[..j] + ([s[j]] + s[j + 1..]);
  }

  /** The last element of one ordering, found in another, with the same elements left over. */
  lemma MatchLast<T>(a: seq<T>, b: seq<T>) returns (j: nat)
    requires a != [] && multiset(a) == multiset(b)
    ensures j < |b| && b[j] == a[|a| - 1]
    ensures multiset(a[..|a| - 1]) == multiset(Without(b, j))
  {
    var n := |a| - 1;
    WithoutMultiset(a, n);
    assert Without(a, n) == a[..n];
    assert a[n] in multiset(b);
    j :| 0 <= j < |b| && b[j] == a[n];
    WithoutMultiset(b, j);
    assert multiset(a[..n]) == multiset(a) - multiset{a[n]};
  }

  lemma SameLength<T>(a: seq<T>, b: seq<T>)
    requires multiset(a) == multiset(b)
    ensures |a| == |b|
  {
    assert |multiset(a)| == |a| && |multiset(b)| == |b|;
  }

  /** Before the first element that it comes before. */
  function Inserted<T>(x: T, sorted: seq<T>, before: (T, T) -> bool): seq<T> {
    if sorted == [] then [x]
    else if before(x, sorted[0]) then [x] + sorted
    else [sorted[0]] + Inserted(x, sorted[1..], before)
  }

  /** Insertion sort; elements of equal rank stay in their order. */
  function Sorted<T>(s: seq<T>, before: (T, T) -> bool): seq<T> {
    if s == [] then [] else Inserted(s[|s| - 1], Sorted(s[..|s| - 1], before), before)
  }

  /** A result whose first elements are done already. */
  function After<T, E>(done: seq<T>, rest: Result<seq<T>, E>): Result<seq<T>, E> {
    if rest.Err? then rest else Ok(done + rest.value)
  }

  lemma AfterNothing<T, E>(rest: Result<seq<T>, E>)
    ensures After([], rest) == rest
  {
    if rest.Ok? {
      assert [] + rest.value == rest.value;
    }
  }

  lemma NothingAfter<T, E>(done: seq<T>, rest: Result<seq<T>, E>)
    requires rest == Ok([])
    ensures After(done, rest) == Ok(done)
  {
    assert done + [] == done;
  }

  lemma AfterOneMore<T, E>(done: seq<T>, x: T, rest: Result<seq<T>, E>)
    ensures After(done + [x], rest) == After(done, After([x], rest))
  {
    if rest.Ok? {
      assert done + [x] + rest.value == done + ([x] + rest.value);
    }
  }
}
