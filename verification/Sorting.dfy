/** Sorting by a strict order, and that its outcome does not depend on the algorithm. */
module Sorting {

  ghost predicate Transitive<T(!new)>(less: (T, T) -> bool) {
    forall a, b, c :: less(a, b) && less(b, c) ==> less(a, c)
  }

  ghost predicate Irreflexive<T(!new)>(less: (T, T) -> bool) {
    forall a :: !less(a, a)
  }

  predicate Distinct<T(==)>(s: seq<T>) {
    forall i, j :: 0 <= i < j < |s| ==> s[i] != s[j]
  }

  /** Any two different elements of `s` are ordered one way or the other. */
  ghost predicate Comparable<T(!new)>(less: (T, T) -> bool, s: seq<T>) {
    forall a, b :: a in s && b in s && a != b ==> less(a, b) || less(b, a)
  }

  ghost predicate Ordered<T>(less: (T, T) -> bool, s: seq<T>) {
    forall i, j :: 0 <= i < j < |s| ==> less(s[i], s[j])
  }

  function Insert<T>(less: (T, T) -> bool, e: T, s: seq<T>): (r: seq<T>)
    ensures multiset(r) == multiset(s) + multiset{e}
  {
    if s == [] || less(e, s[0]) then
      assert [e] + s[..] == [e] + s;
      [e] + s
    else
      assert s == [s[0]] + s[1..];
      [s[0]] + Insert(less, e, s[1..])
  }

  function Sort<T>(less: (T, T) -> bool, s: seq<T>): (r: seq<T>)
    ensures multiset(r) == multiset(s)
  {
    if s == [] then []
    else
      assert s == s[..|s| - 1] + [s[|s| - 1]];
      Insert(less, s[|s| - 1], Sort(less, s[..|s| - 1]))
  }

  lemma {:induction false} SameMembers<T>(a: seq<T>, b: seq<T>)
    requires multiset(a) == multiset(b)
    ensures |a| == |b|
    ensures forall x :: x in a <==> x in b
  {
    assert |multiset(a)| == |a| && |multiset(b)| == |b|;
    forall x
      ensures x in a <==> x in b
    {
      assert x in a <==> x in multiset(a);
      assert x in b <==> x in multiset(b);
    }
  }

  lemma {:induction false} InsertOrdered<T(!new)>(less: (T, T) -> bool, e: T, s: seq<T>)
    requires Transitive(less) && Ordered(less, s)
    requires forall x :: x in s ==> less(e, x) || less(x, e)
    ensures Ordered(less, Insert(less, e, s))
  {
    if s != [] && !less(e, s[0]) {
      InsertOrdered(less, e, s[1..]);
      var r := Insert(less, e, s[1..]);
      forall i | 0 <= i < |r|
        ensures less(s[0], r[i])
      {
        assert r[i] in multiset(r);
        assert r[i] == e || r[i] in s[1..];
      }
    }
  }

  lemma {:induction false} SortOrdered<T(!new)>(less: (T, T) -> bool, s: seq<T>)
    requires Transitive(less) && Distinct(s) && Comparable(less, s)
    ensures Ordered(less, Sort(less, s))
  {
    if s != [] {
      var n := |s| - 1;
      SortOrdered(less, s[..n]);
      var r := Sort(less, s[..n]);
      SameMembers(r, s[..n]);
      assert s[n] in s;
      forall x | x in r
        ensures less(s[n], x) || less(x, s[n])
      {
        var i :| 0 <= i < n && s[i] == x;
        assert x in s;
      }
      InsertOrdered(less, s[n], r);
    }
  }

  lemma {:induction false} HeadsAgree<T(!new)>(less: (T, T) -> bool, a: seq<T>, b: seq<T>)
    requires Transitive(less) && Irreflexive(less)
    requires Ordered(less, a) && Ordered(less, b)
    requires a != [] && b != [] && a[0] in b && b[0] in a
    ensures a[0] == b[0]
  {
    var i :| 0 <= i < |b| && b[i] == a[0];
    var j :| 0 <= j < |a| && a[j] == b[0];
  }

  lemma {:induction false} TailMultiset<T>(a: seq<T>)
    requires a != []
    ensures multiset(a[1..]) == multiset(a) - multiset{a[0]}
  {
    assert a == [a[0]] + a[1..];
  }

  /** Two ordered arrangements of the same elements are the same arrangement. */
  lemma {:induction false} OrderedUnique<T(!new)>(less: (T, T) -> bool, a: seq<T>, b: seq<T>)
    requires Transitive(less) && Irreflexive(less)
    requires Ordered(less, a) && Ordered(less, b) && multiset(a) == multiset(b)
    ensures a == b
  {
    SameMembers(a, b);
    if a != [] {
      HeadsAgree(less, a, b);
      TailMultiset(a);
      TailMultiset(b);
      OrderedUnique(less, a[1..], b[1..]);
      assert a == [a[0]] + a[1..] && b == [b[0]] + b[1..];
    }
  }

  lemma {:induction false} OrderedDistinct<T(!new)>(less: (T, T) -> bool, s: seq<T>)
    requires Irreflexive(less) && Ordered(less, s)
    ensures Distinct(s)
  {
    forall i, j | 0 <= i < j < |s|
      ensures s[i] != s[j]
    {
      assert less(s[i], s[j]);
    }
  }
}
