/** Sorting by a comparison, as slices.SortFunc does: a permutation with nothing before an earlier element. */
module Sorting {

  /** A strict weak order on given elements: what a comparison must be for sorting them to make sense. */
  ghost predicate WeakOrderOn<T(!new)>(s: seq<T>, before: (T, T) -> bool) {
    && (forall a, b :: a in s && b in s && before(a, b) ==> !before(b, a))
    && forall a, b, c :: a in s && b in s && c in s && !before(b, a) && !before(c, b) ==> !before(c, a)
  }

  predicate Sorted<T>(s: seq<T>, before: (T, T) -> bool) {
    forall i, j :: 0 <= i < j < |s| ==> !before(s[j], s[i])
  }

  lemma InsertKeepsOrder<T(!new)>(s: seq<T>, at: nat, e: T, before: (T, T) -> bool)
    requires at <= |s| && WeakOrderOn(s + [e], before) && Sorted(s, before)
    requires at > 0 ==> !before(e, s[at-1])
    requires forall j :: at <= j < |s| ==> before(e, s[j])
    ensures Sorted(s[..at] + [e] + s[at..], before)
  {
    var all := s + [e];
    var t := s[..at] + [e] + s[at..];
    assert e in all && forall i :: 0 <= i < |s| ==> s[i] in all;
    forall i, j | 0 <= i < j < |t| ensures !before(t[j], t[i]) {
      if i == at {
        assert t[j] == s[j-1] && s[j-1] in all;
      } else if j == at && i < at - 1 {
        assert !before(s[at-1], s[i]) && !before(e, s[at-1]);
      }
    }
  }

  /** Where to insert e among s[..at]: after everything it is not before, looking from the end. */
  method Place<T>(s: seq<T>, e: T, before: (T, T) -> bool) returns (at: nat)
    ensures at <= |s| && (at > 0 ==> !before(e, s[at-1]))
    ensures forall j :: at <= j < |s| ==> before(e, s[j])
  {
    at := |s|;
    while at > 0 && before(e, s[at-1])
      invariant at <= |s| && forall j :: at <= j < |s| ==> before(e, s[j])
    {
      at := at - 1;
    }
  }

  lemma WeakOrderOnPart<T(!new)>(s: seq<T>, part: seq<T>, before: (T, T) -> bool)
    requires WeakOrderOn(s, before) && forall x :: x in part ==> x in s
    ensures WeakOrderOn(part, before)
  {
  }

  /** A permutation, sorted whenever the comparison is an order on the elements. */
  method Sort<T(!new)>(s: seq<T>, before: (T, T) -> bool) returns (sorted: seq<T>)
    ensures multiset(sorted) == multiset(s)
    ensures WeakOrderOn(s, before) ==> Sorted(sorted, before)
  {
    sorted := [];
    for i := 0 to |s|
      invariant multiset(sorted) == multiset(s[..i])
      invariant WeakOrderOn(s, before) ==> Sorted(sorted, before)
    {
      var at := Place(sorted, s[i], before);
      if WeakOrderOn(s, before) {
        PartsOf(s, sorted, i);
        WeakOrderOnPart(s, sorted + [s[i]], before);
        InsertKeepsOrder(sorted, at, s[i], before);
      }
      Inserted(s, i, sorted, at);
      sorted := sorted[..at] + [s[i]] + sorted[at..];
    }
    assert s[..|s|] == s;
  }

  lemma Inserted<T>(s: seq<T>, i: nat, sorted: seq<T>, at: nat)
    requires i < |s| && at <= |sorted| && multiset(sorted) == multiset(s[..i])
    ensures multiset(sorted[..at] + [s[i]] + sorted[at..]) == multiset(s[..i+1])
  {
    assert sorted == sorted[..at] + sorted[at..];
    assert s[..i+1] == s[..i] + [s[i]];
  }

  lemma PartsOf<T>(s: seq<T>, sorted: seq<T>, i: nat)
    requires i < |s| && multiset(sorted) == multiset(s[..i])
    ensures forall x :: x in sorted + [s[i]] ==> x in s
  {
    forall x | x in sorted ensures x in s {
      assert x in multiset(sorted);
      assert x in multiset(s[..i]);
      assert x in s[..i];
    }
  }

  /** Where before tells any two elements apart, the sorted list is unique. */
  lemma {:induction false} SortedIsUnique<T(!new)>(a: seq<T>, b: seq<T>, before: (T, T) -> bool)
    requires Sorted(a, before) && Sorted(b, before) && multiset(a) == multiset(b)
    requires forall x, y :: x in multiset(a) && y in multiset(a) ==> x == y || before(x, y) || before(y, x)
    ensures a == b
    decreases |a|
  {
    assert |a| == |multiset(a)| && |b| == |multiset(b)|;
    if a != [] {
      LeastIsFirst(a, b, before);
      assert a == [a[0]] + a[1..] && b == [b[0]] + b[1..];
      assert multiset(a[1..]) == multiset(a) - multiset{a[0]};
      assert multiset(b[1..]) == multiset(b) - multiset{b[0]};
      SortedIsUnique(a[1..], b[1..], before);
    }
  }

  lemma LeastIsFirst<T(!new)>(a: seq<T>, b: seq<T>, before: (T, T) -> bool)
    requires Sorted(a, before) && Sorted(b, before) && a != [] && b != [] && multiset(a) == multiset(b)
    requires forall x, y :: x in multiset(a) && y in multiset(a) ==> x == y || before(x, y) || before(y, x)
    ensures a[0] == b[0]
  {
    assert a[0] in multiset(a) && b[0] in multiset(b);
    assert a[0] in multiset(b) && b[0] in multiset(a);
    var i :| 0 <= i < |b| && b[i] == a[0];
    var j :| 0 <= j < |a| && a[j] == b[0];
    assert i > 0 ==> !before(a[0], b[0]);
    assert j > 0 ==> !before(b[0], a[0]);
  }

  function Mapped<T, U>(s: seq<T>, f: T -> U): (r: seq<U>)
    ensures |r| == |s| && forall i :: 0 <= i < |s| ==> r[i] == f(s[i])
  {
    seq(|s|, i requires 0 <= i < |s| => f(s[i]))
  }

  lemma Removed<T>(s: seq<T>, i: nat)
    requires i < |s|
    ensures multiset(s) == multiset(s[..i] + s[i+1..]) + multiset{s[i]}
  {
    assert s == s[..i] + [s[i]] + s[i+1..];
  }

  lemma MappedWithout<T, U>(s: seq<T>, i: nat, f: T -> U)
    requires i < |s|
    ensures multiset(Mapped(s, f)) == multiset(Mapped(s[..i] + s[i+1..], f)) + multiset{f(s[i])}
  {
    Removed(Mapped(s, f), i);
    assert Mapped(s, f)[..i] + Mapped(s, f)[i+1..] == Mapped(s[..i] + s[i+1..], f);
  }

  lemma SameRest<T>(a: seq<T>, b: seq<T>, i: nat)
    requires a != [] && i < |b| && b[i] == a[0] && multiset(a) == multiset(b)
    ensures multiset(a[..0] + a[1..]) == multiset(b[..i] + b[i+1..])
  {
    Removed(a, 0);
    Removed(b, i);
    assert multiset(a[..0] + a[1..]) == multiset(a) - multiset{a[0]};
    assert multiset(b[..i] + b[i+1..]) == multiset(b) - multiset{a[0]};
  }

  /** A permutation maps to a permutation. */
  lemma {:induction false} MappedPermutation<T, U>(a: seq<T>, b: seq<T>, f: T -> U)
    requires multiset(a) == multiset(b)
    ensures multiset(Mapped(a, f)) == multiset(Mapped(b, f))
    decreases |a|
  {
    assert |a| == |multiset(a)| && |b| == |multiset(b)|;
    if a != [] {
      assert a[0] in multiset(b);
      var i :| 0 <= i < |b| && b[i] == a[0];
      SameRest(a, b, i);
      MappedPermutation(a[..0] + a[1..], b[..i] + b[i+1..], f);
      MappedWithout(a, 0, f);
      MappedWithout(b, i, f);
    }
  }
}
