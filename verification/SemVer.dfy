/**
 Versions and their precedence, section 11 of Semantic Versioning 2.0.0, and
 the newer stable versions of a package.

 Source: npm/semver.go.  Reading a version string is a function of its own.
 */
module SemVer {
  import opened Sorting
  import opened Wrappers

  /** A pre-release identifier. */
  datatype Identifier = Num(n: nat) | Alpha(s: string)

  datatype Version = Version(major: nat, minor: nat, patch: nat, pre: seq<Identifier>, build: string)

  // --------------------------------------------------------- precedence

  function CompareInts(a: int, b: int): int {
    if a < b then -1 else if a > b then 1 else 0
  }

  /** Identifiers in ASCII order. */
  function CompareText(a: string, b: string): int {
    if a == [] || b == [] then CompareInts(|a|, |b|)
    else if a[0] != b[0] then CompareInts(a[0] as int, b[0] as int)
    else CompareText(a[1..], b[1..])
  }

  /** Numeric identifiers by value and below all others. */
  function CompareIdentifiers(a: Identifier, b: Identifier): int {
    match (a, b)
    case (Num(m), Num(n)) => CompareInts(m, n)
    case (Num(_), Alpha(_)) => -1
    case (Alpha(_), Num(_)) => 1
    case (Alpha(s), Alpha(t)) => CompareText(s, t)
  }

  /** Field by field; where one list ends first, it is the smaller. */
  function ComparePre(a: seq<Identifier>, b: seq<Identifier>): int {
    if a == [] || b == [] then CompareInts(|a|, |b|)
    else if CompareIdentifiers(a[0], b[0]) != 0 then CompareIdentifiers(a[0], b[0])
    else ComparePre(a[1..], b[1..])
  }

  /** A version without a pre-release is above those with one; build metadata does not count. */
  function Compare(a: Version, b: Version): int {
    if a.major != b.major then CompareInts(a.major, b.major)
    else if a.minor != b.minor then CompareInts(a.minor, b.minor)
    else if a.patch != b.patch then CompareInts(a.patch, b.patch)
    else if a.pre == [] || b.pre == [] then CompareInts(if a.pre == [] then 1 else 0, if b.pre == [] then 1 else 0)
    else ComparePre(a.pre, b.pre)
  }

  predicate Less(a: Version, b: Version) {
    Compare(a, b) < 0
  }

  lemma {:induction false} TextOrder(a: string, b: string, c: string)
    ensures CompareText(a, a) == 0 && CompareText(a, b) == -CompareText(b, a) && (CompareText(a, b) == 0 ==> a == b)
    ensures CompareText(a, b) <= 0 && CompareText(b, c) <= 0 ==> CompareText(a, c) <= 0
  {
    if a != [] {
      TextOrder(a[1..], if b == [] then [] else b[1..], if c == [] then [] else c[1..]);
      assert a == [a[0]] + a[1..] && (b != [] ==> b == [b[0]] + b[1..]);
    }
  }

  lemma IdentifierOrder(a: Identifier, b: Identifier, c: Identifier)
    ensures CompareIdentifiers(a, a) == 0 && CompareIdentifiers(a, b) == -CompareIdentifiers(b, a)
    ensures CompareIdentifiers(a, b) == 0 ==> a == b
    ensures CompareIdentifiers(a, b) <= 0 && CompareIdentifiers(b, c) <= 0 ==> CompareIdentifiers(a, c) <= 0
  {
    TextOrder(if a.Alpha? then a.s else "", if b.Alpha? then b.s else "", if c.Alpha? then c.s else "");
  }

  lemma {:induction false} PreOrder(a: seq<Identifier>, b: seq<Identifier>, c: seq<Identifier>)
    ensures ComparePre(a, a) == 0 && ComparePre(a, b) == -ComparePre(b, a) && (ComparePre(a, b) == 0 ==> a == b)
    ensures ComparePre(a, b) <= 0 && ComparePre(b, c) <= 0 ==> ComparePre(a, c) <= 0
  {
    if a != [] {
      PreOrder(a[1..], if b == [] then [] else b[1..], if c == [] then [] else c[1..]);
      assert a == [a[0]] + a[1..] && (b != [] ==> b == [b[0]] + b[1..]);
      if b != [] && c != [] {
        IdentifierOrder(a[0], b[0], c[0]);
        IdentifierOrder(b[0], c[0], a[0]);
        IdentifierOrder(c[0], a[0], b[0]);
      } else if b != [] {
        IdentifierOrder(a[0], b[0], a[0]);
      } else {
        IdentifierOrder(a[0], a[0], a[0]);
      }
    }
  }

  /** Precedence is a total order on versions up to their build metadata. */
  lemma PrecedenceIsTotal(a: Version, b: Version, c: Version)
    ensures Compare(a, a) == 0 && Compare(a, b) == -Compare(b, a)
    ensures Compare(a, b) == 0 <==> a.(build := "") == b.(build := "")
    ensures Compare(a, b) <= 0 && Compare(b, c) <= 0 ==> Compare(a, c) <= 0
  {
    PreOrder(a.pre, b.pre, c.pre);
    PreOrder(b.pre, b.pre, b.pre);
  }

  // ------------------------------------------------- precedence, said outright

  /** At the first place where the two differ s has the smaller character, or ends. */
  predicate TextBelow(s: string, t: string) {
    exists i :: 0 <= i <= |s| && i < |t| && s[..i] == t[..i] && (i == |s| || s[i] < t[i])
  }

  /** Numbers below texts, numbers by value, texts in ASCII order. */
  predicate IdentifierBelow(a: Identifier, b: Identifier) {
    || (a.Num? && b.Alpha?)
    || (a.Num? && b.Num? && a.n < b.n)
    || (a.Alpha? && b.Alpha? && TextBelow(a.s, b.s))
  }

  predicate PreBelow(a: seq<Identifier>, b: seq<Identifier>) {
    exists i :: 0 <= i <= |a| && i < |b| && a[..i] == b[..i] && (i == |a| || IdentifierBelow(a[i], b[i]))
  }

  /** Section 11: major, minor and patch decide in that order, then any pre-release is below none, then they decide. */
  predicate Below(a: Version, b: Version) {
    || a.major < b.major
    || (a.major == b.major && a.minor < b.minor)
    || (a.major == b.major && a.minor == b.minor && a.patch < b.patch)
    || (a.major == b.major && a.minor == b.minor && a.patch == b.patch
        && ((a.pre != [] && b.pre == []) || (a.pre != [] && b.pre != [] && PreBelow(a.pre, b.pre))))
  }

  lemma {:induction false} TextSpelledOut(s: string, t: string)
    ensures CompareText(s, t) < 0 <==> TextBelow(s, t)
  {
    if s == [] || t == [] {
      assert t != [] ==> s[..0] == t[..0];
    } else if s[0] != t[0] {
      assert s[..0] == t[..0];
      assert forall i :: 0 < i <= |s| && i < |t| ==> s[..i][0] == s[0] && t[..i][0] == t[0];
    } else {
      var (u, v) := (s[1..], t[1..]);
      TextSpelledOut(u, v);
      if i :| 0 <= i <= |u| && i < |v| && u[..i] == v[..i] && (i == |u| || u[i] < v[i]) {
        assert s[..i+1] == [s[0]] + u[..i] && t[..i+1] == [t[0]] + v[..i];
      }
      if i :| 0 <= i <= |s| && i < |t| && s[..i] == t[..i] && (i == |s| || s[i] < t[i]) {
        assert u[..i-1] == s[..i][1..] && v[..i-1] == t[..i][1..];
      }
    }
  }

  lemma IdentifierSpelledOut(a: Identifier, b: Identifier)
    ensures CompareIdentifiers(a, b) < 0 <==> IdentifierBelow(a, b)
    ensures CompareIdentifiers(a, b) == 0 <==> a == b
  {
    if a.Alpha? && b.Alpha? {
      TextSpelledOut(a.s, b.s);
    }
    IdentifierOrder(a, b, a);
  }

  lemma {:induction false} PreSpelledOut(a: seq<Identifier>, b: seq<Identifier>)
    ensures ComparePre(a, b) < 0 <==> PreBelow(a, b)
  {
    if a == [] || b == [] {
      assert b != [] ==> a[..0] == b[..0];
    } else {
      IdentifierSpelledOut(a[0], b[0]);
      if a[0] != b[0] {
        assert a[..0] == b[..0];
        assert forall i :: 0 < i <= |a| && i < |b| ==> a[..i][0] == a[0] && b[..i][0] == b[0];
      } else {
        PreSpelledOut(a[1..], b[1..]);
        PreShift(a, b);
      }
    }
  }

  lemma PreShift(a: seq<Identifier>, b: seq<Identifier>)
    requires a != [] && b != [] && a[0] == b[0] && CompareIdentifiers(a[0], b[0]) == 0
    ensures PreBelow(a, b) <==> PreBelow(a[1..], b[1..])
  {
    var (x, y) := (a[1..], b[1..]);
    IdentifierSpelledOut(a[0], b[0]);
    if i :| 0 <= i <= |x| && i < |y| && x[..i] == y[..i] && (i == |x| || IdentifierBelow(x[i], y[i])) {
      assert a[..i+1] == [a[0]] + x[..i] && b[..i+1] == [b[0]] + y[..i];
    }
    if i :| 0 <= i <= |a| && i < |b| && a[..i] == b[..i] && (i == |a| || IdentifierBelow(a[i], b[i])) {
      assert x[..i-1] == a[..i][1..] && y[..i-1] == b[..i][1..];
    }
  }

  /** Which of two versions is lower. */
  lemma PrecedenceSpelledOut(a: Version, b: Version)
    ensures Less(a, b) <==> Below(a, b)
  {
    PreSpelledOut(a.pre, b.pre);
  }

  // ----------------------------------------------------- newer versions

  /** A version string as read: what StrictNewVersion and Original give. */
  datatype Read = Read(text: string, version: Version)

  predicate Before(a: Read, b: Read) {
    Less(a.version, b.version)
  }

  type Parser = string -> Option<Version>

  /** A stable version above another. */
  predicate IsNewer(parse: Parser, current: Version, text: string) {
    parse(text).Some? && parse(text).value.pre == [] && Less(current, parse(text).value)
  }

  function TextOf(r: Read): string {
    r.text
  }

  /** The strings that are newer versions, in the order given. */
  function Newer(parse: Parser, current: Version, versions: seq<string>): seq<string> {
    if versions == [] then []
    else
      var last := versions[|versions|-1];
      Newer(parse, current, versions[..|versions|-1]) + if IsNewer(parse, current, last) then [last] else []
  }

  lemma {:induction false} NewerMeans(parse: Parser, current: Version, versions: seq<string>, v: string)
    ensures v in Newer(parse, current, versions) <==> v in versions && IsNewer(parse, current, v)
  {
    if versions != [] {
      NewerMeans(parse, current, versions[..|versions|-1], v);
      assert versions == versions[..|versions|-1] + [versions[|versions|-1]];
    }
  }

  /** Each no lower than the one before it. */
  predicate Ascending(parse: Parser, versions: seq<string>) {
    && (forall i :: 0 <= i < |versions| ==> parse(versions[i]).Some?)
    && forall i, j :: 0 <= i < j < |versions| ==> Compare(parse(versions[i]).value, parse(versions[j]).value) <= 0
  }

  /**
   NewerStable: exactly the strings that are newer stable versions, ascending;
   None when the current version is not one.
   */
  method NewerStable(parse: Parser, current: string, versions: seq<string>) returns (r: Option<seq<string>>)
    ensures r == None <==> parse(current) == None
    ensures r.Some? ==> multiset(r.value) == multiset(Newer(parse, parse(current).value, versions))
    ensures r.Some? ==> Ascending(parse, r.value)
    ensures r.Some? ==> forall v ::
      v in r.value <==>
        v in versions && parse(v).Some? && parse(v).value.pre == [] && Below(parse(current).value, parse(v).value)
  {
    var cur := parse(current);
    if cur == None {
      return None;
    }
    var newer: seq<Read> := [];
    for i := 0 to |versions|
      invariant Mapped(newer, TextOf) == Newer(parse, cur.value, versions[..i])
      invariant forall j :: 0 <= j < |newer| ==> parse(newer[j].text) == Some(newer[j].version)
    {
      assert versions[..i+1][..i] == versions[..i];
      var v := parse(versions[i]);
      if v.Some? && v.value.pre == [] && Less(cur.value, v.value) {
        newer := newer + [Read(versions[i], v.value)];
      }
    }
    assert versions[..|versions|] == versions;
    BeforeIsWeakOrder(newer);
    var sorted := Sort(newer, Before);
    MappedPermutation(sorted, newer, TextOf);
    SortedTexts(parse, newer, sorted);
    forall v
      ensures v in Mapped(sorted, TextOf) <==>
        v in versions && parse(v).Some? && parse(v).value.pre == [] && Below(cur.value, parse(v).value)
    {
      NewerMeans(parse, cur.value, versions, v);
      assert v in Mapped(sorted, TextOf) <==> v in multiset(Mapped(sorted, TextOf));
      assert v in Newer(parse, cur.value, versions) <==> v in multiset(Newer(parse, cur.value, versions));
      if parse(v).Some? {
        PrecedenceSpelledOut(cur.value, parse(v).value);
      }
    }
    return Some(Mapped(sorted, TextOf));
  }

  lemma BeforeIsWeakOrder(s: seq<Read>)
    ensures WeakOrderOn(s, Before)
  {
    forall a: Read, b: Read, c: Read
      ensures Before(a, b) ==> !Before(b, a)
      ensures !Before(b, a) && !Before(c, b) ==> !Before(c, a)
    {
      PrecedenceIsTotal(a.version, b.version, c.version);
      PrecedenceIsTotal(a.version, c.version, a.version);
      PrecedenceIsTotal(b.version, c.version, b.version);
    }
  }

  lemma SortedTexts(parse: Parser, newer: seq<Read>, sorted: seq<Read>)
    requires multiset(sorted) == multiset(newer) && Sorted(sorted, Before)
    requires forall j :: 0 <= j < |newer| ==> parse(newer[j].text) == Some(newer[j].version)
    ensures Ascending(parse, Mapped(sorted, TextOf))
  {
    forall i | 0 <= i < |sorted| ensures parse(sorted[i].text) == Some(sorted[i].version) {
      assert sorted[i] in multiset(newer);
      assert sorted[i] in newer;
    }
    forall i, j | 0 <= i < j < |sorted| ensures Compare(sorted[i].version, sorted[j].version) <= 0 {
      PrecedenceIsTotal(sorted[i].version, sorted[j].version, sorted[i].version);
      assert !Before(sorted[j], sorted[i]);
    }
  }
}
