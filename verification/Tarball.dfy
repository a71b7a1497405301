/**
 Package tarballs: what they hold, whether two hold the same, and the copy
 without publishConfig.

 Source: npm/tarball.go.  gzip, tar and JSON coding are functions of a Coding,
 held to the laws of Faithful; SHA-256 sums stand for the bytes they are of.
 */
module Tarball {
  import opened Paths
  import opened Visiting
  import opened Wrappers

  type Bytes = seq<bv8>

  const MAX_ENTRIES := 100000
  const MAX_TARBALL_BYTES := 10 * 1024 * 1024 * 1024
  const MAX_MANIFEST_BYTES := 16 * 1024 * 1024
  const MAX_NAME_BYTES := 4096
  const REGULAR := '0'
  const PUBLISH_CONFIG := "publishConfig"

  /** A tar entry; rest is whatever else its header holds: owners, times, further records. */
  datatype Entry = Entry(name: string, link: string, typeflag: char, mode: int, rest: string, body: Bytes)

  /** How the tar data ends: with its marker and zeros, with other data after it, or by breaking. */
  datatype Ending = Ends | Trails | Breaks

  /** What decompressing and reading a tarball gives: entries, the size of the stream, and its end. */
  datatype Tar = Tar(entries: seq<Entry>, size: nat, ending: Ending)

  datatype Value = Text(s: string) | Else(raw: string)

  datatype Json = Null | Object(fields: map<string, Value>)

  /**
   parse reads one JSON object and nothing after it; encode writes one; writable: tar can write
   the header; tarSize of what it writes.
   */
  datatype Coding = Coding(parse: Bytes -> Option<Json>, encode: Json -> Bytes, writable: Entry -> bool,
                           tarSize: seq<Entry> -> nat)

  /** An encoded object reads back as itself. */
  ghost predicate Faithful(c: Coding) {
    forall j: Json :: c.parse(c.encode(j)) == Some(j)
  }

  // ------------------------------------------------------------- one entry

  /** path.Clean leaves a relative name without .. segments as it is. */
  predicate IsClean(name: string) {
    name == "." || forall s :: s in Segments(name) ==> s != "" && s != "."
  }

  function TrimSlash(name: string): string {
    if name != "" && name[|name|-1] == '/' then name[..|name|-1] else name
  }

  predicate SafeName(name: string) {
    && !("/" <= name) && ".." !in Segments(name)
    && TrimSlash(TrimPrefix(name, "./")) != "" && IsClean(TrimSlash(TrimPrefix(name, "./")))
  }

  predicate WalkPasses(e: Entry) {
    |e.name| <= MAX_NAME_BYTES && |e.link| <= MAX_NAME_BYTES && SafeName(e.name)
  }

  predicate IsManifest(e: Entry) {
    var parts := Segments(TrimPrefix(e.name, "./"));
    e.typeflag == REGULAR && |parts| == 2 && parts[1] == "package.json"
  }

  function Without(j: Json): Json {
    match j
    case Null => Null
    case Object(fields) => Object(fields - {PUBLISH_CONFIG})
  }

  /** A package.json within its bound, decoded. */
  function Manifest(c: Coding, body: Bytes): Option<Json> {
    if |body| > MAX_MANIFEST_BYTES then None else c.parse(body)
  }

  /** withoutPublishConfig. */
  function Rewritten(c: Coding, body: Bytes): Option<Bytes> {
    match Manifest(c, body)
    case None => None
    case Some(j) => Some(c.encode(Without(j)))
  }

  /** What SameContent compares of an entry. */
  datatype Digest = Digest(typeflag: char, mode: int, link: string, content: Bytes)

  predicate Digestible(c: Coding, e: Entry) {
    IsManifest(e) ==> Manifest(c, e.body).Some?
  }

  /** mode & 0o7777, for negative numbers too. */
  function PermissionBits(mode: int): int {
    mode % 4096
  }

  function DigestOf(c: Coding, e: Entry): Digest {
    Digest(e.typeflag, PermissionBits(e.mode), e.link,
           if IsManifest(e) && Rewritten(c, e.body).Some? then Rewritten(c, e.body).value else e.body)
  }

  // -------------------------------------------------------- a whole tarball

  /** The walk gets through every entry within its bounds. */
  predicate Walks(t: Tar) {
    && t.size <= MAX_TARBALL_BYTES && |t.entries| <= MAX_ENTRIES && !t.ending.Breaks?
    && forall i :: 0 <= i < |t.entries| ==> WalkPasses(t.entries[i])
  }

  predicate AllDigestible(c: Coding, t: Tar) {
    forall i :: 0 <= i < |t.entries| ==> Digestible(c, t.entries[i])
  }

  predicate NamesDiffer(entries: seq<Entry>) {
    forall i, j :: 0 <= i < j < |entries| ==> entries[i].name != entries[j].name
  }

  datatype Digests = Unreadable | TrailingData | Digested(digests: map<string, Digest>, duplicate: bool)

  /** The digests of some entries by name, a later entry replacing an earlier. */
  function ByName(c: Coding, entries: seq<Entry>): map<string, Digest> {
    if entries == [] then map[]
    else
      var last := entries[|entries|-1];
      ByName(c, entries[..|entries|-1])[last.name := DigestOf(c, last)]
  }

  lemma {:induction false} NamedIn(c: Coding, entries: seq<Entry>, name: string)
    ensures name in ByName(c, entries) <==> exists i :: 0 <= i < |entries| && entries[i].name == name
  {
    if entries != [] {
      var init := entries[..|entries|-1];
      NamedIn(c, init, name);
      if entries[|entries|-1].name != name {
        assert forall i :: 0 <= i < |init| ==> init[i] == entries[i];
      }
    }
  }

  lemma OneMoreDigest(c: Coding, entries: seq<Entry>, n: nat)
    requires n < |entries|
    ensures ByName(c, entries[..n+1]) == ByName(c, entries[..n])[entries[n].name := DigestOf(c, entries[n])]
  {
    assert entries[..n+1][..n] == entries[..n];
  }

  lemma OneMoreName(c: Coding, entries: seq<Entry>, n: nat)
    requires n < |entries|
    ensures NamesDiffer(entries[..n+1]) <==> NamesDiffer(entries[..n]) && entries[n].name !in ByName(c, entries[..n])
  {
    NamedIn(c, entries[..n], entries[n].name);
    assert forall i :: 0 <= i < n ==> entries[..n][i] == entries[i] == entries[..n+1][i];
    assert entries[..n+1][n] == entries[n];
    if !NamesDiffer(entries[..n]) {
      var i, j :| 0 <= i < j < n && entries[..n][i].name == entries[..n][j].name;
      assert entries[..n+1][i].name == entries[..n+1][j].name;
    }
  }

  predicate Accepted(c: Coding, e: Entry) {
    WalkPasses(e) && Digestible(c, e)
  }

  predicate AllAccepted(c: Coding, entries: seq<Entry>) {
    forall i :: 0 <= i < |entries| ==> Accepted(c, entries[i])
  }

  lemma OneMoreAccepted(c: Coding, entries: seq<Entry>, n: nat)
    requires n < |entries|
    ensures AllAccepted(c, entries[..n+1]) <==> AllAccepted(c, entries[..n]) && Accepted(c, entries[n])
  {
    if AllAccepted(c, entries[..n+1]) {
      assert forall i :: 0 <= i < n ==> entries[..n][i] == entries[..n+1][i];
      assert entries[..n+1][n] == entries[n];
    }
  }

  lemma AcceptedMeans(c: Coding, t: Tar)
    ensures (AllAccepted(c, t.entries) && t.size <= MAX_TARBALL_BYTES && |t.entries| <= MAX_ENTRIES
             && !t.ending.Breaks?) <==>
            Walks(t) && AllDigestible(c, t)
  {
    if AllAccepted(c, t.entries) {
      forall i | 0 <= i < |t.entries| ensures WalkPasses(t.entries[i]) && Digestible(c, t.entries[i]) {
        assert Accepted(c, t.entries[i]);
      }
    }
  }

  // ------------------------------------------------------------- digests

  /** The digests gathered so far, and whether a name came twice. */
  datatype Gathered = Gathered(digests: map<string, Digest>, duplicate: bool)

  /** digestTarball's callback, after the walk's own checks. */
  function Gather(c: Coding, g: Gathered, e: Entry): Option<Gathered> {
    if !Accepted(c, e) then None
    else Some(Gathered(g.digests[e.name := DigestOf(c, e)], g.duplicate || e.name in g.digests))
  }

  lemma {:induction false} GatheredAll(c: Coding, entries: seq<Entry>, fn: (Gathered, Entry) -> Option<Gathered>)
    requires forall g, e :: fn(g, e) == Gather(c, g, e)
    ensures Visited(entries, Gathered(map[], false), fn) ==
      if AllAccepted(c, entries) then Some(Gathered(ByName(c, entries), !NamesDiffer(entries))) else None
  {
    if entries != [] {
      var n := |entries| - 1;
      GatheredAll(c, entries[..n], fn);
      assert entries[..n+1] == entries;
      OneMoreAccepted(c, entries, n);
      OneMoreDigest(c, entries, n);
      OneMoreName(c, entries, n);
      Visiting.OneMore(entries, n, Gathered(map[], false), fn);
    }
  }

  /** digestTarball. */
  method DigestTarball(c: Coding, t: Tar) returns (d: Digests)
    ensures d.Unreadable? <==> !Walks(t) || !AllDigestible(c, t)
    ensures d.TrailingData? <==> Walks(t) && AllDigestible(c, t) && t.ending.Trails?
    ensures d.Digested? ==> d.digests == ByName(c, t.entries) && (d.duplicate <==> !NamesDiffer(t.entries))
  {
    var fn := (g: Gathered, e: Entry) => Gather(c, g, e);
    var g := Visit(t.entries, MAX_ENTRIES, Gathered(map[], false), fn);
    GatheredAll(c, t.entries, fn);
    AcceptedMeans(c, t);
    if t.size > MAX_TARBALL_BYTES || g.None? || t.ending.Breaks? {
      return Unreadable;
    }
    if t.ending.Trails? {
      return TrailingData;
    }
    return Digested(g.value.digests, g.value.duplicate);
  }

  datatype Comparison = Failed | Answer(same: bool)

  /** A tarball the comparison can say yes about. */
  predicate Plain(c: Coding, t: Tar) {
    Walks(t) && AllDigestible(c, t) && t.ending.Ends? && NamesDiffer(t.entries)
  }

  /** SameContent. */
  method SameContent(c: Coding, a: Tar, b: Tar) returns (r: Comparison)
    ensures r == Answer(true) <==> Same(c, a, b)
    ensures Faithful(c) ==>
      (r == Answer(true) <==>
         Plain(c, a) && Plain(c, b) && EachAlike(c, a.entries, b.entries) && EachAlike(c, b.entries, a.entries))
    ensures r == Failed <==>
      !(Walks(a) && AllDigestible(c, a)) || (!a.ending.Trails? && !(Walks(b) && AllDigestible(c, b)))
  {
    SpelledOutIfPlain(c, a, b);
    var da := DigestTarball(c, a);
    match da
    case Unreadable => return Failed;
    case TrailingData => return Answer(false);
    case Digested(_, _) =>
    var db := DigestTarball(c, b);
    match db
    case Unreadable => return Failed;
    case TrailingData => return Answer(false);
    case Digested(_, _) =>
    if da.duplicate || db.duplicate || |da.digests| != |db.digests| {
      return Answer(false);
    }
    var todo := da.digests.Keys;
    while todo != {}
      invariant todo <= da.digests.Keys
      invariant forall x :: x in da.digests && x !in todo ==> x in db.digests && db.digests[x] == da.digests[x]
      decreases |todo|
    {
      var x :| x in todo;
      if x !in db.digests || db.digests[x] != da.digests[x] {
        return Answer(false);
      }
      todo := todo - {x};
    }
    SubmapOfSameSize(da.digests, db.digests);
    return Answer(true);
  }

  lemma SubmapOfSameSize(a: map<string, Digest>, b: map<string, Digest>)
    requires |a| == |b| && forall x :: x in a ==> x in b && b[x] == a[x]
    ensures a == b
  {
    SubsetOfSameSize(a.Keys, b.Keys);
    assert |a.Keys| == |a| && |b.Keys| == |b|;
  }

  lemma SubsetOfSameSize(a: set<string>, b: set<string>)
    requires a <= b && |a| == |b|
    ensures a == b
  {
    assert |b - a| == |b| - |a|;
  }

  // ------------------------------------------------- what SameContent means

  /** The answer yes of SameContent. */
  predicate Same(c: Coding, a: Tar, b: Tar) {
    Plain(c, a) && Plain(c, b) && ByName(c, a.entries) == ByName(c, b.entries)
  }

  /** b holds an entry of that name, type, mode, link and content. */
  predicate HoldsLike(c: Coding, e: Entry, entries: seq<Entry>) {
    exists j :: 0 <= j < |entries| && entries[j].name == e.name && DigestOf(c, entries[j]) == DigestOf(c, e)
  }

  lemma {:induction false} DigestAt(c: Coding, entries: seq<Entry>, i: nat)
    requires NamesDiffer(entries) && i < |entries|
    ensures entries[i].name in ByName(c, entries) && ByName(c, entries)[entries[i].name] == DigestOf(c, entries[i])
  {
    var init := entries[..|entries|-1];
    if i < |init| {
      assert init[i] == entries[i] && entries[i].name != entries[|init|].name;
      assert NamesDiffer(init);
      DigestAt(c, init, i);
    }
  }

  lemma HoldsLikeIsMapped(c: Coding, e: Entry, b: seq<Entry>)
    requires NamesDiffer(b)
    ensures HoldsLike(c, e, b) <==> e.name in ByName(c, b) && ByName(c, b)[e.name] == DigestOf(c, e)
  {
    NamedIn(c, b, e.name);
    if j :| 0 <= j < |b| && b[j].name == e.name {
      DigestAt(c, b, j);
      assert forall k :: 0 <= k < |b| && b[k].name == e.name ==> k == j;
    }
  }

  predicate Agrees(x: map<string, Digest>, y: map<string, Digest>) {
    forall k :: k in x ==> k in y && y[k] == x[k]
  }

  lemma HeldIsMapped(c: Coding, a: seq<Entry>, b: seq<Entry>)
    requires NamesDiffer(a) && NamesDiffer(b)
    ensures (forall i :: 0 <= i < |a| ==> HoldsLike(c, a[i], b)) <==> Agrees(ByName(c, a), ByName(c, b))
  {
    var (x, y) := (ByName(c, a), ByName(c, b));
    forall i | 0 <= i < |a|
      ensures a[i].name in x && (HoldsLike(c, a[i], b) <==> a[i].name in y && y[a[i].name] == x[a[i].name])
    {
      DigestAt(c, a, i);
      HoldsLikeIsMapped(c, a[i], b);
    }
    forall k | k in x ensures exists i :: 0 <= i < |a| && a[i].name == k {
      NamedIn(c, a, k);
    }
  }

  predicate AllHeld(c: Coding, a: seq<Entry>, b: seq<Entry>) {
    forall i :: 0 <= i < |a| ==> HoldsLike(c, a[i], b)
  }

  lemma AgreeBothWays(x: map<string, Digest>, y: map<string, Digest>)
    ensures Agrees(x, y) && Agrees(y, x) <==> x == y
  {
  }

  /**
   What yes means, in no order and without the maps: each tarball holds an entry
   like every entry of the other.
   */
  lemma SameMeansEachHoldsTheOther(c: Coding, a: Tar, b: Tar)
    requires Plain(c, a) && Plain(c, b)
    ensures Same(c, a, b) <==> AllHeld(c, a.entries, b.entries) && AllHeld(c, b.entries, a.entries)
  {
    HeldIsMapped(c, a.entries, b.entries);
    HeldIsMapped(c, b.entries, a.entries);
    AgreeBothWays(ByName(c, a.entries), ByName(c, b.entries));
  }

  /** An equivalence on the tarballs it can say yes about, and on no others. */
  lemma SameIsAnEquivalence(c: Coding, x: Tar, y: Tar, z: Tar)
    ensures Same(c, x, x) <==> Plain(c, x)
    ensures Same(c, x, y) ==> Same(c, y, x)
    ensures Same(c, x, y) && Same(c, y, z) ==> Same(c, x, z)
  {
  }

  lemma LikeItself(c: Coding, a: seq<Entry>, b: seq<Entry>)
    requires multiset(a) == multiset(b)
    ensures AllHeld(c, a, b)
  {
    forall i | 0 <= i < |a| ensures HoldsLike(c, a[i], b) {
      assert a[i] in multiset(a);
      assert a[i] in multiset(b);
      var j :| 0 <= j < |b| && b[j] == a[i];
    }
  }

  /** Entry order is ignored. */
  lemma OrderIsIgnored(c: Coding, a: Tar, b: Tar)
    requires Plain(c, a) && Plain(c, b) && multiset(a.entries) == multiset(b.entries)
    ensures Same(c, a, b)
  {
    LikeItself(c, a.entries, b.entries);
    LikeItself(c, b.entries, a.entries);
    SameMeansEachHoldsTheOther(c, a, b);
  }

  // ------------------------------------------------- the same, said outright

  /** A regular file package.json in a directory of the first level, of whatever name. */
  lemma ManifestIsFirstLevel(e: Entry)
    ensures IsManifest(e) <==>
      e.typeflag == '0' && exists dir :: '/' !in dir && TrimPrefix(e.name, "./") == dir + ['/'] + "package.json"
  {
    var name := TrimPrefix(e.name, "./");
    if IsManifest(e) {
      TwoParts(name, '/');
    }
    forall dir | '/' !in dir && name == dir + ['/'] + "package.json" ensures Segments(name) == [dir, "package.json"] {
      TwoPartsOf(dir, "package.json", '/');
    }
  }

  /** The same field for field, publishConfig aside. */
  ghost predicate EqualApart(x: Json, y: Json) {
    && (x.Object? <==> y.Object?)
    && (x.Object? && y.Object? ==> forall k :: k != "publishConfig" ==>
          (k in x.fields <==> k in y.fields) && (k in x.fields && k in y.fields ==> x.fields[k] == y.fields[k]))
  }

  lemma WithoutMeans(x: Json, y: Json)
    ensures Without(x) == Without(y) <==> EqualApart(x, y)
    ensures EqualApart(x, Without(x)) && (Without(x).Object? ==> "publishConfig" !in Without(x).fields)
  {
    if x.Object? && y.Object? {
      var (f, g) := (x.fields - {PUBLISH_CONFIG}, y.fields - {PUBLISH_CONFIG});
      if f == g {
        forall k | k != PUBLISH_CONFIG
          ensures (k in x.fields <==> k in y.fields) && (k in x.fields && k in y.fields ==> x.fields[k] == y.fields[k])
        {
          assert k in x.fields <==> k in f;
          assert k in y.fields <==> k in g;
        }
      } else if EqualApart(x, y) {
        assert forall k :: k in f <==> k in g;
      }
    }
  }

  /**
   Two entries of one name, type, link and permission bits: a first-level
   package.json holds the same object publishConfig aside, any other the same bytes.
   */
  ghost predicate Alike(c: Coding, x: Entry, y: Entry) {
    && x.name == y.name && x.typeflag == y.typeflag && x.mode % 4096 == y.mode % 4096 && x.link == y.link
    && if IsManifest(x)
       then c.parse(x.body).Some? && c.parse(y.body).Some? && EqualApart(c.parse(x.body).value, c.parse(y.body).value)
       else x.body == y.body
  }

  lemma DigestMeans(c: Coding, x: Entry, y: Entry)
    requires Faithful(c) && Digestible(c, x) && Digestible(c, y) && x.name == y.name
    ensures DigestOf(c, x) == DigestOf(c, y) <==> Alike(c, x, y)
  {
    if x.typeflag == y.typeflag && IsManifest(x) {
      var (j, k) := (c.parse(x.body).value, c.parse(y.body).value);
      WithoutMeans(j, k);
      assert c.parse(c.encode(Without(j))) == Some(Without(j)) && c.parse(c.encode(Without(k))) == Some(Without(k));
    }
  }

  ghost predicate HasAlike(c: Coding, e: Entry, entries: seq<Entry>) {
    exists j :: 0 <= j < |entries| && Alike(c, e, entries[j])
  }

  /** Each entry of a has one like it in b. */
  ghost predicate EachAlike(c: Coding, a: seq<Entry>, b: seq<Entry>) {
    forall i :: 0 <= i < |a| ==> HasAlike(c, a[i], b)
  }

  lemma HeldIsAlike(c: Coding, a: seq<Entry>, b: seq<Entry>)
    requires Faithful(c)
    requires forall i :: 0 <= i < |a| ==> Digestible(c, a[i])
    requires forall j :: 0 <= j < |b| ==> Digestible(c, b[j])
    ensures AllHeld(c, a, b) <==> EachAlike(c, a, b)
  {
    forall i | 0 <= i < |a| ensures HoldsLike(c, a[i], b) <==> HasAlike(c, a[i], b) {
      forall j | 0 <= j < |b| && b[j].name == a[i].name
        ensures DigestOf(c, b[j]) == DigestOf(c, a[i]) <==> Alike(c, a[i], b[j])
      {
        DigestMeans(c, a[i], b[j]);
      }
    }
  }

  /** What yes means of the entries themselves. */
  lemma SameSpelledOut(c: Coding, a: Tar, b: Tar)
    requires Faithful(c) && Plain(c, a) && Plain(c, b)
    ensures Same(c, a, b) <==> EachAlike(c, a.entries, b.entries) && EachAlike(c, b.entries, a.entries)
  {
    SameMeansEachHoldsTheOther(c, a, b);
    HeldIsAlike(c, a.entries, b.entries);
    HeldIsAlike(c, b.entries, a.entries);
  }

  lemma SpelledOutIfPlain(c: Coding, a: Tar, b: Tar)
    ensures Faithful(c) && Plain(c, a) && Plain(c, b) ==>
      (Same(c, a, b) <==> EachAlike(c, a.entries, b.entries) && EachAlike(c, b.entries, a.entries))
  {
    if Faithful(c) && Plain(c, a) && Plain(c, b) {
      SameSpelledOut(c, a, b);
    }
  }

  // ----------------------------------------------------------- stripping

  function StrippedEntry(c: Coding, e: Entry): Entry {
    if IsManifest(e) && Rewritten(c, e.body).Some? then e.(body := Rewritten(c, e.body).value) else e
  }

  function Stripped(c: Coding, entries: seq<Entry>): (out: seq<Entry>)
    ensures |out| == |entries| && forall i :: 0 <= i < |out| ==> out[i] == StrippedEntry(c, entries[i])
  {
    seq(|entries|, i requires 0 <= i < |entries| => StrippedEntry(c, entries[i]))
  }

  /** What the tar and gzip writers make of entries they accept reads back as those entries. */
  function Written(c: Coding, entries: seq<Entry>): Tar {
    Tar(entries, c.tarSize(entries), Ends)
  }

  /** How many first-level package.json files there are. */
  function Manifests(entries: seq<Entry>): nat {
    if entries == [] then 0
    else Manifests(entries[..|entries|-1]) + if IsManifest(entries[|entries|-1]) then 1 else 0
  }

  predicate StripAccepts(c: Coding, e: Entry) {
    WalkPasses(e) && Digestible(c, e) && c.writable(StrippedEntry(c, e))
  }

  /** A readable tarball with one first-level package.json, whose entries tar can write. */
  predicate Strippable(c: Coding, t: Tar) {
    && t.size <= MAX_TARBALL_BYTES && |t.entries| <= MAX_ENTRIES && t.ending.Ends?
    && Manifests(t.entries) == 1 && AllStrippable(c, t.entries)
  }

  predicate AllStrippable(c: Coding, entries: seq<Entry>) {
    forall i :: 0 <= i < |entries| ==> StripAccepts(c, entries[i])
  }

  lemma OneMoreStrippable(c: Coding, entries: seq<Entry>, n: nat)
    requires n < |entries|
    ensures AllStrippable(c, entries[..n+1]) <==> AllStrippable(c, entries[..n]) && StripAccepts(c, entries[n])
    ensures AllStrippable(c, entries) ==> StripAccepts(c, entries[n])
  {
    if AllStrippable(c, entries[..n+1]) {
      assert forall i :: 0 <= i < n ==> entries[..n][i] == entries[..n+1][i];
      assert entries[..n+1][n] == entries[n];
    }
  }

  lemma {:induction false} ManifestsGrow(entries: seq<Entry>, n: nat)
    requires n <= |entries|
    ensures Manifests(entries[..n]) <= Manifests(entries)
  {
    if n == |entries| {
      assert entries[..n] == entries;
    } else {
      ManifestsGrow(entries[..|entries|-1], n);
      assert entries[..|entries|-1][..n] == entries[..n];
    }
  }

  lemma OneMoreManifest(entries: seq<Entry>, n: nat)
    requires n < |entries|
    ensures Manifests(entries[..n+1]) == Manifests(entries[..n]) + if IsManifest(entries[n]) then 1 else 0
    ensures Manifests(entries[..n+1]) <= Manifests(entries)
  {
    assert entries[..n+1][..n] == entries[..n];
    ManifestsGrow(entries, n + 1);
  }

  lemma OneMoreStripped(c: Coding, entries: seq<Entry>, n: nat)
    requires n < |entries|
    ensures Stripped(c, entries[..n+1]) == Stripped(c, entries[..n]) + [StrippedEntry(c, entries[n])]
  {
  }

  /** What was written so far, and whether a package.json was among it. */
  datatype Copied = Copied(written: seq<Entry>, rewritten: bool)

  /** StripPublishConfig's callback, after the walk's own checks. */
  function Copy(c: Coding, s: Copied, e: Entry): Option<Copied> {
    if !WalkPasses(e) then None
    else if !IsManifest(e) then
      if c.writable(e) then Some(s.(written := s.written + [e])) else None
    else if s.rewritten then None
    else
      match Rewritten(c, e.body)
      case None => None
      case Some(data) =>
        if c.writable(e.(body := data)) then Some(Copied(s.written + [e.(body := data)], true)) else None
  }

  lemma CopyMeans(c: Coding, s: Copied, e: Entry)
    ensures Copy(c, s, e) ==
      if StripAccepts(c, e) && !(s.rewritten && IsManifest(e))
      then Some(Copied(s.written + [StrippedEntry(c, e)], s.rewritten || IsManifest(e))) else None
  {
  }

  lemma {:induction false} CopiedAll(c: Coding, entries: seq<Entry>, fn: (Copied, Entry) -> Option<Copied>)
    requires forall s, e :: fn(s, e) == Copy(c, s, e)
    ensures Visited(entries, Copied([], false), fn) ==
      if AllStrippable(c, entries) && Manifests(entries) <= 1
      then Some(Copied(Stripped(c, entries), Manifests(entries) == 1)) else None
  {
    if entries != [] {
      var n := |entries| - 1;
      CopiedAll(c, entries[..n], fn);
      assert entries[..n+1] == entries;
      OneMoreStrippable(c, entries, n);
      OneMoreStripped(c, entries, n);
      OneMoreManifest(entries, n);
      Visiting.OneMore(entries, n, Copied([], false), fn);
      CopyMeans(c, Copied(Stripped(c, entries[..n]), Manifests(entries[..n]) == 1), entries[n]);
    }
  }

  /** StripPublishConfig: the entries written, or None for an error. */
  method StripPublishConfig(c: Coding, t: Tar) returns (out: Option<seq<Entry>>)
    ensures out.Some? <==> Strippable(c, t)
    ensures out.Some? ==> out.value == Stripped(c, t.entries)
  {
    var fn := (s: Copied, e: Entry) => Copy(c, s, e);
    var s := Visit(t.entries, MAX_ENTRIES, Copied([], false), fn);
    CopiedAll(c, t.entries, fn);
    if t.size > MAX_TARBALL_BYTES || s.None? || !t.ending.Ends? || !s.value.rewritten {
      return None;
    }
    return Some(s.value.written);
  }

  // ----------------------------------------------------------- inspecting

  /** ManifestPath, Name, Version and HasPublishConfig of TarballInfo. */
  datatype Info = Info(path: string, name: string, version: string, publishes: bool)

  /** A text field, or nothing. */
  function Field(j: Json, key: string): string {
    if j.Object? && key in j.fields && j.fields[key].Text? then j.fields[key].s else ""
  }

  function InfoOf(path: string, j: Json): Info {
    Info(path, Field(j, "name"), Field(j, "version"), j.Object? && PUBLISH_CONFIG in j.fields)
  }

  /** What the entries' first-level package.json reports. */
  function Report(c: Coding, entries: seq<Entry>): Option<Info> {
    if entries == [] then None
    else
      var last := entries[|entries|-1];
      if IsManifest(last) && Manifest(c, last.body).Some? then Some(InfoOf(last.name, Manifest(c, last.body).value))
      else Report(c, entries[..|entries|-1])
  }

  predicate Inspectable(c: Coding, t: Tar) {
    Walks(t) && t.ending.Ends? && AllDigestible(c, t) && Manifests(t.entries) == 1
  }

  lemma OneMoreReport(c: Coding, entries: seq<Entry>, n: nat)
    requires n < |entries|
    ensures Report(c, entries[..n+1]) ==
      if IsManifest(entries[n]) && Manifest(c, entries[n].body).Some?
      then Some(InfoOf(entries[n].name, Manifest(c, entries[n].body).value)) else Report(c, entries[..n])
  {
    assert entries[..n+1][..n] == entries[..n];
  }

  /** InspectTarball's callback, after the walk's own checks. */
  function Inspect(c: Coding, info: Option<Info>, e: Entry): Option<Option<Info>> {
    if !WalkPasses(e) then None
    else if !IsManifest(e) then Some(info)
    else if info.Some? then None
    else
      match Manifest(c, e.body)
      case None => None
      case Some(j) => Some(Some(InfoOf(e.name, j)))
  }

  lemma {:induction false} InspectedAll(c: Coding, entries: seq<Entry>,
                                        fn: (Option<Info>, Entry) -> Option<Option<Info>>)
    requires forall s, e :: fn(s, e) == Inspect(c, s, e)
    ensures Visited(entries, None, fn) ==
      if AllAccepted(c, entries) && Manifests(entries) <= 1 then Some(Report(c, entries)) else None
    ensures AllAccepted(c, entries) && Manifests(entries) <= 1 ==>
      (Report(c, entries).Some? <==> Manifests(entries) == 1)
  {
    if entries != [] {
      var n := |entries| - 1;
      InspectedAll(c, entries[..n], fn);
      assert entries[..n+1] == entries;
      OneMoreAccepted(c, entries, n);
      OneMoreManifest(entries, n);
      OneMoreReport(c, entries, n);
      Visiting.OneMore(entries, n, None, fn);
    }
  }

  /** A text field of that name has that text, or there is none and the text is empty. */
  predicate HasText(j: Json, key: string, text: string) {
    if j.Object? && key in j.fields && j.fields[key].Text? then j.fields[key].s == text else text == ""
  }

  /** The report is of entry i, the only package.json of the first level. */
  predicate ReportsOf(c: Coding, entries: seq<Entry>, info: Info, i: nat) {
    && i < |entries| && IsManifest(entries[i]) && (forall k :: 0 <= k < |entries| && k != i ==> !IsManifest(entries[k]))
    && info.path == entries[i].name && c.parse(entries[i].body).Some?
    && var j := c.parse(entries[i].body).value;
       && HasText(j, "name", info.name) && HasText(j, "version", info.version)
       && (info.publishes <==> j.Object? && "publishConfig" in j.fields)
  }

  lemma {:induction false} NoneCounted(entries: seq<Entry>)
    ensures Manifests(entries) == 0 <==> forall k :: 0 <= k < |entries| ==> !IsManifest(entries[k])
  {
    if entries != [] {
      var init := entries[..|entries|-1];
      NoneCounted(init);
      assert forall k :: 0 <= k < |init| ==> init[k] == entries[k];
    }
  }

  lemma {:induction false} ReportMeans(c: Coding, entries: seq<Entry>)
    requires Manifests(entries) == 1 && Report(c, entries).Some?
    requires forall k :: 0 <= k < |entries| ==> Digestible(c, entries[k])
    ensures exists i :: ReportsOf(c, entries, Report(c, entries).value, i)
  {
    var (init, n) := (entries[..|entries|-1], |entries| - 1);
    assert forall k :: 0 <= k < n ==> init[k] == entries[k];
    NoneCounted(init);
    if IsManifest(entries[n]) {
      assert ReportsOf(c, entries, Report(c, entries).value, n);
    } else {
      ReportMeans(c, init);
      var i :| ReportsOf(c, init, Report(c, init).value, i);
      assert ReportsOf(c, entries, Report(c, entries).value, i);
    }
  }

  /** InspectTarball. */
  method InspectTarball(c: Coding, t: Tar) returns (info: Option<Info>)
    ensures info.Some? <==> Inspectable(c, t)
    ensures info.Some? ==> info == Report(c, t.entries)
    ensures info.Some? ==> exists i :: ReportsOf(c, t.entries, info.value, i)
  {
    var fn := (s: Option<Info>, e: Entry) => Inspect(c, s, e);
    var walked := Visit(t.entries, MAX_ENTRIES, None, fn);
    InspectedAll(c, t.entries, fn);
    AcceptedMeans(c, t);
    if t.size > MAX_TARBALL_BYTES || walked.None? || !t.ending.Ends? {
      return None;
    }
    if walked.value.Some? {
      ReportMeans(c, t.entries);
    }
    return walked.value;
  }

  // ------------------------------------------------- what stripping keeps

  /** The stripped copy is within the reader's own bounds: re-encoding can make a package.json longer. */
  predicate StaysReadable(c: Coding, entries: seq<Entry>) {
    && c.tarSize(Stripped(c, entries)) <= MAX_TARBALL_BYTES
    && forall i :: 0 <= i < |entries| && IsManifest(entries[i]) ==>
      |StrippedEntry(c, entries[i]).body| <= MAX_MANIFEST_BYTES
  }

  lemma WithoutTwice(j: Json)
    ensures Without(Without(j)) == Without(j)
  {
    if j.Object? {
      assert j.fields - {PUBLISH_CONFIG} - {PUBLISH_CONFIG} == j.fields - {PUBLISH_CONFIG};
    }
  }

  lemma StrippedReads(c: Coding, e: Entry)
    requires Faithful(c) && IsManifest(e) && Manifest(c, e.body).Some?
    ensures var e' := StrippedEntry(c, e);
      Manifest(c, e'.body) == if |e'.body| <= MAX_MANIFEST_BYTES then Some(Without(Manifest(c, e.body).value)) else None
  {
  }

  /** What the copy holds in place of an entry: the package.json without publishConfig, any other as it was. */
  lemma StrippedMeans(c: Coding, entries: seq<Entry>, i: nat)
    requires Faithful(c) && i < |entries| && StripAccepts(c, entries[i])
    ensures var (e, out) := (entries[i], Stripped(c, entries)[i]);
      && out == e.(body := out.body)
      && (!IsManifest(e) ==> out.body == e.body)
      && (IsManifest(e) ==>
            && c.parse(e.body).Some? && c.parse(out.body).Some?
            && EqualApart(c.parse(e.body).value, c.parse(out.body).value)
            && (c.parse(out.body).value.Object? ==> "publishConfig" !in c.parse(out.body).value.fields))
  {
    if IsManifest(entries[i]) {
      var j := c.parse(entries[i].body).value;
      WithoutMeans(j, j);
      assert c.parse(c.encode(Without(j))) == Some(Without(j));
    }
  }

  lemma StripEntryTwice(c: Coding, e: Entry)
    requires Faithful(c)
    ensures StrippedEntry(c, StrippedEntry(c, e)) == StrippedEntry(c, e)
  {
    if IsManifest(e) && Manifest(c, e.body).Some? {
      StrippedReads(c, e);
      WithoutTwice(Manifest(c, e.body).value);
    }
  }

  /** Stripping is idempotent. */
  lemma StripTwice(c: Coding, entries: seq<Entry>)
    requires Faithful(c)
    ensures Stripped(c, Stripped(c, entries)) == Stripped(c, entries)
  {
    forall i | 0 <= i < |entries|
      ensures StrippedEntry(c, StrippedEntry(c, entries[i])) == StrippedEntry(c, entries[i])
    {
      StripEntryTwice(c, entries[i]);
    }
  }

  lemma {:induction false} SameManifests(c: Coding, entries: seq<Entry>)
    ensures Manifests(Stripped(c, entries)) == Manifests(entries)
  {
    if entries != [] {
      var init := entries[..|entries|-1];
      SameManifests(c, init);
      assert Stripped(c, entries)[..|init|] == Stripped(c, init);
    }
  }

  lemma StrippedDigestible(c: Coding, e: Entry)
    requires Faithful(c) && Digestible(c, e)
    ensures Digestible(c, StrippedEntry(c, e)) <==> (IsManifest(e) ==> |StrippedEntry(c, e).body| <= MAX_MANIFEST_BYTES)
    ensures Digestible(c, StrippedEntry(c, e)) ==> DigestOf(c, StrippedEntry(c, e)) == DigestOf(c, e)
  {
    if IsManifest(e) {
      StrippedReads(c, e);
      WithoutTwice(Manifest(c, e.body).value);
    }
  }

  lemma StrippedWalks(c: Coding, t: Tar)
    requires Faithful(c) && Strippable(c, t)
    ensures var out := Written(c, Stripped(c, t.entries));
      Walks(out) && AllDigestible(c, out) <==> StaysReadable(c, t.entries)
  {
    var out := Written(c, Stripped(c, t.entries));
    forall i | 0 <= i < |t.entries|
      ensures WalkPasses(out.entries[i])
      ensures Digestible(c, out.entries[i]) <==>
        (IsManifest(t.entries[i]) ==> |StrippedEntry(c, t.entries[i]).body| <= MAX_MANIFEST_BYTES)
    {
      assert StripAccepts(c, t.entries[i]);
      StrippedDigestible(c, t.entries[i]);
    }
  }

  lemma {:induction false} SameReport(c: Coding, entries: seq<Entry>)
    requires Faithful(c) && forall i :: 0 <= i < |entries| ==>
      Digestible(c, entries[i]) && Digestible(c, StrippedEntry(c, entries[i]))
    ensures Report(c, Stripped(c, entries)).Some? == Report(c, entries).Some?
    ensures Report(c, entries).Some? ==>
      Report(c, Stripped(c, entries)) == Some(Report(c, entries).value.(publishes := false))
  {
    if entries != [] {
      var (init, last) := (entries[..|entries|-1], entries[|entries|-1]);
      assert Stripped(c, entries)[..|init|] == Stripped(c, init);
      if IsManifest(last) {
        StrippedReads(c, last);
      } else {
        SameReport(c, init);
      }
    }
  }

  lemma {:induction false} ReportsOne(c: Coding, entries: seq<Entry>)
    requires Manifests(entries) > 0 && forall i :: 0 <= i < |entries| ==> Digestible(c, entries[i])
    ensures Report(c, entries).Some?
  {
    if !IsManifest(entries[|entries|-1]) {
      ReportsOne(c, entries[..|entries|-1]);
    }
  }

  /**
   A stripped copy is reported as its original is, name, version and path alike,
   without publishConfig, exactly when it stays within the reader's bounds.
   */
  lemma StripKeepsTheReport(c: Coding, t: Tar)
    requires Faithful(c) && Strippable(c, t)
    ensures var out := Written(c, Stripped(c, t.entries));
      && Inspectable(c, t) && (Inspectable(c, out) <==> StaysReadable(c, t.entries))
      && Report(c, t.entries).Some?
      && (Inspectable(c, out) ==> Report(c, out.entries) == Some(Report(c, t.entries).value.(publishes := false)))
  {
    StripAcceptsWalk(c, t);
    StrippedWalks(c, t);
    ReportsOne(c, t.entries);
    SameManifests(c, t.entries);
    if StaysReadable(c, t.entries) {
      forall i | 0 <= i < |t.entries|
        ensures Digestible(c, t.entries[i]) && Digestible(c, StrippedEntry(c, t.entries[i]))
      {
        assert StripAccepts(c, t.entries[i]);
        StrippedDigestible(c, t.entries[i]);
      }
      SameReport(c, t.entries);
    }
  }

  lemma StripAcceptsWalk(c: Coding, t: Tar)
    requires Strippable(c, t)
    ensures Walks(t) && AllDigestible(c, t)
  {
    forall i | 0 <= i < |t.entries| ensures WalkPasses(t.entries[i]) && Digestible(c, t.entries[i]) {
      assert StripAccepts(c, t.entries[i]);
    }
  }

  lemma {:induction false} SameDigests(c: Coding, entries: seq<Entry>)
    requires Faithful(c) && forall i :: 0 <= i < |entries| ==>
      Digestible(c, entries[i]) && Digestible(c, StrippedEntry(c, entries[i]))
    ensures ByName(c, Stripped(c, entries)) == ByName(c, entries)
  {
    if entries != [] {
      var n := |entries| - 1;
      SameDigests(c, entries[..n]);
      OneMoreStripped(c, entries, n);
      assert entries[..n+1] == entries && Stripped(c, entries)[..n] == Stripped(c, entries[..n]);
      StrippedDigestible(c, entries[n]);
    }
  }

  /** And it is the same as its original to SameContent, exactly then. */
  lemma StrippedIsTheSame(c: Coding, t: Tar)
    requires Faithful(c) && Strippable(c, t) && NamesDiffer(t.entries)
    ensures Same(c, t, Written(c, Stripped(c, t.entries))) <==> StaysReadable(c, t.entries)
  {
    StripAcceptsWalk(c, t);
    StrippedWalks(c, t);
    if StaysReadable(c, t.entries) {
      forall i | 0 <= i < |t.entries|
        ensures Digestible(c, t.entries[i]) && Digestible(c, StrippedEntry(c, t.entries[i]))
      {
        assert StripAccepts(c, t.entries[i]);
        StrippedDigestible(c, t.entries[i]);
      }
      SameDigests(c, t.entries);
    }
  }
}
