/** Stable sorting by a comparison, and why the result does not depend on the order one starts from. */
module Sorting {
  type Leq<!T> = (T, T) -> bool

  ghost predicate TotalOn<T(!new)>(leq: Leq<T>) {
    && (forall a, b :: leq(a, b) || leq(b, a))
    && (forall a, b, c :: leq(a, b) && leq(b, c) ==> leq(a, c))
  }

  ghost predicate SortedBy<T>(leq: Leq<T>, s: seq<T>) {
    forall i, j :: 0 <= i < j < |s| ==> leq(s[i], s[j])
  }

  function InsertBy<T>(leq: Leq<T>, x: T, sorted: seq<T>): (r: seq<T>)
    ensures multiset(r) == multiset{x} + multiset(sorted)
  {
    if sorted == [] || leq(x, sorted[0]) then [x] + sorted
    else
      assert sorted == [sorted[0]] + sorted[1..];
      [sorted[0]] + InsertBy(leq, x, sorted[1..])
  }

  function SortBy<T>(leq: Leq<T>, s: seq<T>): (r: seq<T>)
    ensures multiset(r) == multiset(s)
  {
    if s == [] then []
    else
      assert s == [s[0]] + s[1..];
      InsertBy(leq, s[0], SortBy(leq, s[1..]))
  }

  lemma {:induction false} InsertBySorts<T(!new)>(leq: Leq<T>, x: T, sorted: seq<T>)
    requires TotalOn(leq) && SortedBy(leq, sorted)
    ensures SortedBy(leq, InsertBy(leq, x, sorted))
  {
    if sorted != [] && !leq(x, sorted[0]) {
      var rest := InsertBy(leq, x, sorted[1..]);
      InsertBySorts(leq, x, sorted[1..]);
      forall y | y in rest ensures leq(sorted[0], y) {
        assert y in multiset(rest);
      }
    }
  }

  lemma {:induction false} SortBySorts<T(!new)>(leq: Leq<T>, s: seq<T>)
    requires TotalOn(leq)
    ensures SortedBy(leq, SortBy(leq, s))
  {
    if s != [] {
      SortBySorts(leq, s[1..]);
      InsertBySorts(leq, s[0], SortBy(leq, s[1..]));
    }
  }

  /** The elements that tie with `x`, in order. */
  function Ties<T>(leq: Leq<T>, x: T, s: seq<T>): seq<T> {
    if s == [] then []
    else (if leq(x, s[0]) && leq(s[0], x) then [s[0]] else []) + Ties(leq, x, s[1..])
  }

  lemma {:induction false} InsertByIsStable<T(!new)>(leq: Leq<T>, y: T, sorted: seq<T>, x: T)
    requires TotalOn(leq)
    ensures Ties(leq, x, InsertBy(leq, y, sorted)) == Ties(leq, x, [y] + sorted)
  {
    if sorted != [] && !leq(y, sorted[0]) {
      var first, rest := sorted[0], sorted[1..];
      InsertByIsStable(leq, y, rest, x);
      InsertLater(leq, y, sorted);
      NotBothTie(leq, x, y, first);
      hide *;
      Swapped(leq, x, y, first, rest, InsertBy(leq, y, rest));
      assert sorted == [first] + rest;
    } else {
      assert InsertBy(leq, y, sorted) == [y] + sorted;
    }
  }

  /** Of two elements that do not both tie with it, the order does not matter. */
  lemma Swapped<T(!new)>(leq: Leq<T>, x: T, y: T, first: T, rest: seq<T>, inserted: seq<T>)
    requires !(leq(y, x) && leq(x, first)) && Ties(leq, x, inserted) == Ties(leq, x, [y] + rest)
    ensures Ties(leq, x, [first] + inserted) == Ties(leq, x, [y] + ([first] + rest))
  {
    TiesFirst(leq, x, first, inserted);
    TiesFirst(leq, x, first, rest);
    TiesFirst(leq, x, y, rest);
    TiesFirst(leq, x, y, [first] + rest);
    hide Ties;
  }

  lemma InsertLater<T(!new)>(leq: Leq<T>, y: T, sorted: seq<T>)
    requires sorted != [] && !leq(y, sorted[0])
    ensures InsertBy(leq, y, sorted) == [sorted[0]] + InsertBy(leq, y, sorted[1..])
  {
  }

  lemma NotBothTie<T(!new)>(leq: Leq<T>, x: T, y: T, first: T)
    requires TotalOn(leq) && !leq(y, first)
    ensures !(leq(y, x) && leq(x, first))
  {
  }

  lemma TiesFirst<T(!new)>(leq: Leq<T>, x: T, first: T, rest: seq<T>)
    ensures Ties(leq, x, [first] + rest) ==
      (if leq(first, x) && leq(x, first) then [first] else []) + Ties(leq, x, rest)
  {
    assert ([first] + rest)[1..] == rest;
  }

  /** Elements that tie keep their order. */
  lemma {:induction false} SortByIsStable<T(!new)>(leq: Leq<T>, s: seq<T>, x: T)
    requires TotalOn(leq)
    ensures Ties(leq, x, SortBy(leq, s)) == Ties(leq, x, s)
  {
    if s != [] {
      var rest := SortBy(leq, s[1..]);
      SortByIsStable(leq, s[1..], x);
      InsertByIsStable(leq, s[0], rest, x);
      assert ([s[0]] + rest)[1..] == rest;
    }
  }

  ghost predicate TiesAreEqual<T(!new)>(leq: Leq<T>, s: seq<T>) {
    forall x, y | x in s && y in s :: leq(x, y) && leq(y, x) ==> x == y
  }

  /** Elements that only tie with themselves can be sorted in just one way. */
  lemma {:induction false} SortedOnce<T(!new)>(leq: Leq<T>, a: seq<T>, b: seq<T>)
    requires TotalOn(leq) && SortedBy(leq, a) && SortedBy(leq, b) && multiset(a) == multiset(b)
    requires TiesAreEqual(leq, a)
    ensures a == b
  {
    hide *;
    SameLength(a, b);
    if a != [] {
      SameFirst(leq, a, b);
      TailOnly(leq, a);
      TailOnly(leq, b);
      SortedOnce(leq, a[1..], b[1..]);
    }
  }

  lemma SameLength<T>(a: seq<T>, b: seq<T>)
    requires multiset(a) == multiset(b)
    ensures |a| == |b|
  {
    assert |multiset(a)| == |a| && |multiset(b)| == |b|;
  }

  lemma TailOnly<T(!new)>(leq: Leq<T>, s: seq<T>)
    requires s != [] && SortedBy(leq, s)
    ensures s == [s[0]] + s[1..]
    ensures SortedBy(leq, s[1..]) && multiset(s[1..]) == multiset(s) - multiset{s[0]}
    ensures TiesAreEqual(leq, s) ==> TiesAreEqual(leq, s[1..])
  {
    assert s == [s[0]] + s[1..];
  }

  lemma SameFirst<T(!new)>(leq: Leq<T>, a: seq<T>, b: seq<T>)
    requires TotalOn(leq) && SortedBy(leq, a) && SortedBy(leq, b) && multiset(a) == multiset(b)
    requires TiesAreEqual(leq, a) && a != []
    ensures b != [] && a[0] == b[0]
  {
    assert a[0] in multiset(b);
    assert b[0] in multiset(a);
    FirstIsLeast(leq, a, b[0]);
    FirstIsLeast(leq, b, a[0]);
  }

  lemma FirstIsLeast<T(!new)>(leq: Leq<T>, s: seq<T>, x: T)
    requires TotalOn(leq) && SortedBy(leq, s) && x in s
    ensures leq(s[0], x)
  {
    assert leq(x, x);
  }
}
