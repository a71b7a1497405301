/**
 The archive writer: a directory member, then the files in the order of their
 names.  What it writes does not depend on the order it is given them in.

 Source: archive/archive.go.  gzip and tar coding are functions of a Codec; the
 laws they are held to are in ArchiveVerifier.
 */
module ArchiveWriter {
  import opened Sorting
  import opened Wrappers

  type Bytes = seq<bv8>

  datatype MemberKind = Directory | Regular | Other

  datatype Member = Member(name: string, kind: MemberKind, content: Bytes)

  /** A file to write: its name below the root, the size announced for it, and what opening it gives. */
  datatype Source = Source(name: string, size: int, data: Option<Bytes>)

  // ---------------------------------------------------- the order of names

  /** strings.Compare(a, b) < 0. */
  predicate Precedes(a: string, b: string) {
    b != [] && (a == [] || a[0] < b[0] || (a[0] == b[0] && Precedes(a[1..], b[1..])))
  }

  lemma {:induction false} PrecedesIrreflexive(a: string)
    ensures !Precedes(a, a)
  {
    if a != [] {
      PrecedesIrreflexive(a[1..]);
    }
  }

  /** They agree up to some place, where a ends or has the smaller character. */
  ghost predicate Below(a: string, b: string) {
    exists i :: 0 <= i <= |a| && i < |b| && a[..i] == b[..i] && (i == |a| || a[i] < b[i])
  }

  lemma {:induction false} PrecedesMeansBelow(a: string, b: string)
    ensures Precedes(a, b) <==> Below(a, b)
  {
    if a == [] || b == [] || a[0] != b[0] {
      assert b != [] ==> a[..0] == b[..0];
      assert a != [] && b != [] ==> forall i :: 0 < i <= |a| && i < |b| ==> a[..i][0] == a[0] && b[..i][0] == b[0];
    } else {
      var (u, v) := (a[1..], b[1..]);
      PrecedesMeansBelow(u, v);
      if i :| 0 <= i <= |u| && i < |v| && u[..i] == v[..i] && (i == |u| || u[i] < v[i]) {
        assert a[..i+1] == [a[0]] + u[..i] && b[..i+1] == [b[0]] + v[..i];
      }
      if i :| 0 <= i <= |a| && i < |b| && a[..i] == b[..i] && (i == |a| || a[i] < b[i]) {
        assert u[..i-1] == a[..i][1..] && v[..i-1] == b[..i][1..];
      }
    }
  }

  lemma {:induction false} PrecedesTransitive(a: string, b: string, c: string)
    requires Precedes(a, b) && Precedes(b, c)
    ensures Precedes(a, c)
  {
    if a != [] && a[0] == b[0] == c[0] {
      PrecedesTransitive(a[1..], b[1..], c[1..]);
    }
  }

  lemma {:induction false} PrecedesTotal(a: string, b: string)
    ensures a == b || Precedes(a, b) || Precedes(b, a)
  {
    if a != [] && b != [] && a[0] == b[0] {
      PrecedesTotal(a[1..], b[1..]);
      assert a == [a[0]] + a[1..] && b == [b[0]] + b[1..];
    }
  }

  /** Each name strictly before the next. */
  predicate Ordered(s: seq<Source>) {
    forall i, j :: 0 <= i < j < |s| ==> Precedes(s[i].name, s[j].name)
  }

  predicate DistinctNames(s: seq<Source>) {
    forall i, j :: 0 <= i < j < |s| ==> s[i].name != s[j].name
  }

  /** slices.SortFunc's comparison of entries. */
  predicate ByName(a: Source, b: Source) {
    Precedes(a.name, b.name)
  }

  lemma ByNameIsWeakOrder(s: seq<Source>)
    ensures WeakOrderOn(s, ByName)
  {
    forall a: Source, b: Source | ByName(a, b) ensures !ByName(b, a) {
      if ByName(b, a) {
        PrecedesTransitive(a.name, b.name, a.name);
        PrecedesIrreflexive(a.name);
      }
    }
    forall a: Source, b: Source, c: Source | !ByName(b, a) && !ByName(c, b) ensures !ByName(c, a) {
      if ByName(c, a) {
        PrecedesTotal(a.name, b.name);
        if Precedes(a.name, b.name) {
          PrecedesTransitive(c.name, a.name, b.name);
        }
      }
    }
  }

  /** The ordered list of given entries is unique. */
  lemma OrderIsUnique(a: seq<Source>, b: seq<Source>)
    requires Ordered(a) && Ordered(b) && multiset(a) == multiset(b)
    ensures a == b
  {
    forall x, y | x in multiset(a) && y in multiset(a) ensures x == y || ByName(x, y) || ByName(y, x) {
      assert x in a && y in a;
    }
    OrderedIsSorted(a);
    OrderedIsSorted(b);
    SortedIsUnique(a, b, ByName);
  }

  lemma OrderedIsSorted(s: seq<Source>)
    requires Ordered(s)
    ensures Sorted(s, ByName)
  {
    forall i, j | 0 <= i < j < |s| ensures !ByName(s[j], s[i]) {
      if Precedes(s[j].name, s[i].name) {
        PrecedesTransitive(s[i].name, s[j].name, s[i].name);
        PrecedesIrreflexive(s[i].name);
      }
    }
  }

  lemma DistinctAndSorted(s: seq<Source>)
    requires Sorted(s, ByName)
    ensures DistinctNames(s) <==> Ordered(s)
    ensures DistinctNames(s) <==> forall i :: 1 <= i < |s| ==> s[i].name != s[i-1].name
  {
    forall i, j | 0 <= i < j < |s| ensures s[i].name == s[j].name || Precedes(s[i].name, s[j].name) {
      PrecedesTotal(s[i].name, s[j].name);
    }
    if forall i :: 1 <= i < |s| ==> s[i].name != s[i-1].name {
      forall i, j | 0 <= i < j < |s| ensures s[i].name != s[j].name {
        assert s[i].name == s[i+1].name || Precedes(s[i].name, s[i+1].name);
      }
    }
    if Ordered(s) {
      forall i, j | 0 <= i < j < |s| ensures s[i].name != s[j].name {
        PrecedesIrreflexive(s[i].name);
      }
    }
  }

  lemma {:induction false} CountsMatch(s: seq<Source>, i: nat, j: nat)
    requires i < j < |s| && s[i] == s[j]
    ensures multiset(s)[s[i]] >= 2
  {
    assert s == s[..i] + [s[i]] + s[i+1..];
    assert s[j] == s[i+1..][j-i-1];
    assert s[i] in multiset(s[i+1..]);
    assert multiset(s) == multiset(s[..i]) + multiset{s[i]} + multiset(s[i+1..]);
  }

  // ------------------------------------------------------------ the writer

  /** A file whose bytes are there and as many as announced. */
  predicate Writable(e: Source) {
    e.data.Some? && |e.data.value| == e.size
  }

  /** What an ordered list is written as. */
  function MembersOf(root: string, sorted: seq<Source>): seq<Member>
    requires forall i :: 0 <= i < |sorted| ==> Writable(sorted[i])
  {
    [Member(root + "/", Directory, [])]
    + seq(|sorted|, i requires 0 <= i < |sorted| && Writable(sorted[i]) =>
          Member(root + "/" + sorted[i].name, Regular, sorted[i].data.value))
  }

  /** The members are those of some ordered list of the entries. */
  ghost predicate Writes(root: string, entries: seq<Source>, members: seq<Member>) {
    exists sorted :: IsListOf(sorted, entries) && members == MembersOf(root, sorted)
  }

  predicate IsListOf(sorted: seq<Source>, entries: seq<Source>) {
    Ordered(sorted) && multiset(sorted) == multiset(entries) && forall i :: 0 <= i < |sorted| ==> Writable(sorted[i])
  }

  /**
   WriteTarGz, up to the coding of its members: None is an error.  It succeeds
   exactly when no name repeats and every file can be read at its size, and then
   writes the one ordered list of the entries.
   */
  method WriteTarGz(root: string, entries: seq<Source>) returns (r: Option<seq<Member>>)
    ensures r.Some? <==> DistinctNames(entries) && forall i :: 0 <= i < |entries| ==> Writable(entries[i])
    ensures r.Some? ==> Writes(root, entries, r.value)
  {
    ByNameIsWeakOrder(entries);
    var sorted := Sort(entries, ByName);
    DistinctAndSorted(sorted);
    PermutationKeeps(entries, sorted);
    var k := 1;
    while k < |sorted|
      invariant forall j :: 1 <= j < k && j < |sorted| ==> sorted[j].name != sorted[j-1].name
    {
      if sorted[k].name == sorted[k-1].name {
        return None;
      }
      k := k + 1;
    }
    var members := [Member(root + "/", Directory, [])];
    for i := 0 to |sorted|
      invariant forall j :: 0 <= j < i ==> Writable(sorted[j])
      invariant members == MembersOf(root, sorted[..i])
    {
      if sorted[i].data == None || |sorted[i].data.value| != sorted[i].size {
        return None;
      }
      members := members + [Member(root + "/" + sorted[i].name, Regular, sorted[i].data.value)];
    }
    assert sorted[..|sorted|] == sorted;
    assert IsListOf(sorted, entries);
    r := Some(members);
  }

  lemma PermutationKeeps(a: seq<Source>, b: seq<Source>)
    requires multiset(a) == multiset(b)
    ensures DistinctNames(a) <==> DistinctNames(b)
    ensures (forall i :: 0 <= i < |a| ==> Writable(a[i])) <==> (forall i :: 0 <= i < |b| ==> Writable(b[i]))
  {
    SameElements(a, b);
    SameElements(b, a);
    if DistinctNames(a) {
      DistinctMoves(a, b);
    }
    if DistinctNames(b) {
      DistinctMoves(b, a);
    }
  }

  lemma SameElements(a: seq<Source>, b: seq<Source>)
    requires multiset(a) == multiset(b)
    ensures forall i :: 0 <= i < |a| ==> a[i] in b
  {
    forall i | 0 <= i < |a| ensures a[i] in b {
      assert a[i] in multiset(a);
      assert a[i] in multiset(b);
    }
  }

  lemma {:induction false} DistinctCount(a: seq<Source>, e: Source)
    requires DistinctNames(a)
    ensures multiset(a)[e] <= 1
  {
    if a != [] {
      assert a == [a[0]] + a[1..];
      DistinctCount(a[1..], e);
      assert e in multiset(a[1..]) ==> e in a[1..];
    }
  }

  lemma DistinctMoves(a: seq<Source>, b: seq<Source>)
    requires multiset(a) == multiset(b) && DistinctNames(a)
    ensures DistinctNames(b)
  {
    SameElements(b, a);
    forall i, j | 0 <= i < j < |b| ensures b[i].name != b[j].name {
      if b[i].name == b[j].name {
        var k :| 0 <= k < |a| && a[k] == b[i];
        var l :| 0 <= l < |a| && a[l] == b[j];
        assert k == l;
        CountsMatch(b, i, j);
        DistinctCount(a, b[i]);
      }
    }
  }

  /** The written archive does not depend on the order of the entries given. */
  lemma OrderGivenDoesNotMatter(root: string, a: seq<Source>, b: seq<Source>, x: seq<Member>, y: seq<Member>)
    requires multiset(a) == multiset(b) && Writes(root, a, x) && Writes(root, b, y)
    ensures x == y
  {
    var sa :| IsListOf(sa, a) && x == MembersOf(root, sa);
    var sb :| IsListOf(sb, b) && y == MembersOf(root, sb);
    OrderIsUnique(sa, sb);
  }

  /** The member is the entry's regular file, with the entry's bytes. */
  predicate IsFileOf(root: string, m: Member, e: Source) {
    e.data.Some? && m == Member(root + "/" + e.name, Regular, e.data.value)
  }

  /** The root's directory, then files in the order of their names. */
  ghost predicate InNameOrder(root: string, members: seq<Member>) {
    && members != [] && members[0] == Member(root + "/", Directory, [])
    && forall i, j :: 1 <= i < j < |members| ==> Below(members[i].name, members[j].name)
  }

  /** Each file is one of an entry. */
  ghost predicate OnlyFilesOf(root: string, entries: seq<Source>, members: seq<Member>) {
    forall i :: 1 <= i < |members| ==> IsFileOfSome(root, members[i], entries)
  }

  ghost predicate IsFileOfSome(root: string, m: Member, entries: seq<Source>) {
    exists k :: 0 <= k < |entries| && IsFileOf(root, m, entries[k])
  }

  /** Each entry has a file. */
  ghost predicate AllFilesOf(root: string, entries: seq<Source>, members: seq<Member>) {
    forall e :: e in entries ==> exists i :: 1 <= i < |members| && IsFileOf(root, members[i], e)
  }

  /** What is written, in full. */
  lemma WrittenMeans(root: string, entries: seq<Source>, members: seq<Member>)
    requires Writes(root, entries, members)
    ensures |members| == |entries| + 1 && InNameOrder(root, members)
    ensures OnlyFilesOf(root, entries, members) && AllFilesOf(root, entries, members)
  {
    var sorted: seq<Source> :| IsListOf(sorted, entries) && members == MembersOf(root, sorted);
    ListInNameOrder(root, sorted);
    ListIsOnly(root, sorted, entries);
    ListIsAll(root, sorted, entries);
    assert |sorted| == |multiset(sorted)| && |entries| == |multiset(entries)|;
  }

  lemma ListIsOnly(root: string, sorted: seq<Source>, entries: seq<Source>)
    requires IsListOf(sorted, entries)
    ensures OnlyFilesOf(root, entries, MembersOf(root, sorted))
  {
    var members := MembersOf(root, sorted);
    SameElements(sorted, entries);
    forall i | 1 <= i < |members| ensures IsFileOfSome(root, members[i], entries) {
      var k :| 0 <= k < |entries| && entries[k] == sorted[i-1];
      assert IsFileOf(root, members[i], entries[k]);
    }
  }

  lemma ListIsAll(root: string, sorted: seq<Source>, entries: seq<Source>)
    requires IsListOf(sorted, entries)
    ensures AllFilesOf(root, entries, MembersOf(root, sorted))
  {
    var members := MembersOf(root, sorted);
    SameElements(entries, sorted);
    forall e | e in entries ensures exists i :: 1 <= i < |members| && IsFileOf(root, members[i], e) {
      var i :| 0 <= i < |sorted| && sorted[i] == e;
      assert IsFileOf(root, members[i+1], e);
    }
  }

  lemma ListInNameOrder(root: string, sorted: seq<Source>)
    requires Ordered(sorted) && forall i :: 0 <= i < |sorted| ==> Writable(sorted[i])
    ensures InNameOrder(root, MembersOf(root, sorted))
  {
    var members := MembersOf(root, sorted);
    forall i, j | 1 <= i < j < |members| ensures Below(members[i].name, members[j].name) {
      PrecedesMeansBelow(sorted[i-1].name, sorted[j-1].name);
      BelowUnder(root + "/", sorted[i-1].name, sorted[j-1].name);
    }
  }

  /** A common prefix keeps the order. */
  lemma BelowUnder(p: string, a: string, b: string)
    requires Below(a, b)
    ensures Below(p + a, p + b)
  {
    var i :| 0 <= i <= |a| && i < |b| && a[..i] == b[..i] && (i == |a| || a[i] < b[i]);
    var k := |p| + i;
    assert (p + a)[..k] == p + a[..i] && (p + b)[..k] == p + b[..i];
  }
}
