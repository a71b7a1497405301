/**
 The archive verifier: one pass over an untrusted packages_npm.tar.gz that
 accepts exactly the archive its manifest describes.

 Sources: archive/verify.go, archive/manifest.go.
 */
module ArchiveVerifier {
  import opened Paths
  import opened Wrappers
  import opened ArchiveBounds
  import opened ArchiveWriter

  const ROOT := "out/"
  const KEY_ENTRY := "signature.key"
  const MAX_KEY_SIZE := 65536
  const MAX_TRAILING := 16384

  datatype Header = Header(name: string, kind: MemberKind, size: nat, sparse: bool)

  /** An entry, and how much of the inflated stream is read once its header and its body are. */
  datatype TarEntry = TarEntry(header: Header, body: Bytes, headAt: nat, bodyAt: nat)

  /**
   What gzip and tar make of a file: the entries that can be read whole, whether
   the tar then ends rather than breaks, where, what follows, and whether the
   gzip checksum holds.
   */
  datatype Decoded =
    | NotGzip
    | Decoded(entries: seq<TarEntry>, intact: bool, endAt: nat, rest: Bytes, sound: bool)

  predicate WellFormed(d: Decoded) {
    d.Decoded? ==>
      && d.endAt <= MAX_INT64
      && forall i :: 0 <= i < |d.entries| ==>
           && |d.entries[i].body| == d.entries[i].header.size <= MAX_INT64
           && d.entries[i].headAt <= d.entries[i].bodyAt <= d.endAt
  }

  /** gzip and tar, the digests, and the reading of hex and of integrity strings. */
  datatype Codec = Codec(decode: Bytes -> Decoded, encode: seq<Member> -> Bytes, sha256: Bytes -> string,
                         sha512: Bytes -> Bytes, unhex: string -> Option<Bytes>,
                         integrity: string -> Option<Bytes -> bool>)

  datatype Package = Package(name: string, version: string, file: string, originalIntegrity: string,
                             shippedSha512: string, stripped: bool)

  datatype Manifest = Manifest(sha256: string, size: int, packages: seq<Package>)

  datatype Checked = Checked(package: Package, path: string, sha512: Bytes)

  // ------------------------------------------------------------ entry names

  /** checkEntryName. */
  predicate EntryNamePasses(h: Header, seen: set<string>) {
    if "/" <= h.name then false
    else if ".." in Segments(h.name) then false
    else if h.name in seen then false
    else if h.name == ROOT then h.kind == Directory
    else if !(ROOT <= h.name) then false
    else
      var rest := h.name[|ROOT|..];
      h.kind != Directory && '/' !in rest && h.kind == Regular
  }

  /** A file name: not empty, not a parent, no separator. */
  predicate PlainName(file: string) {
    file != "" && file != ".." && '/' !in file
  }

  /** The directory out/ itself, or a regular file directly below it. */
  predicate Allowed(h: Header) {
    || (h.name == ROOT && h.kind == Directory)
    || (ROOT <= h.name && PlainName(h.name[|ROOT|..]) && h.kind == Regular)
  }

  lemma {:induction false} OneSegment(file: string)
    requires '/' !in file
    ensures Segments(file) == [file]
  {
    if file != [] {
      OneSegment(file[1..]);
      assert file == [file[0]] + file[1..];
    }
  }

  lemma BelowRoot(name: string)
    requires ROOT <= name && '/' !in name[|ROOT|..]
    ensures Segments(name) == ["out", name[|ROOT|..]]
  {
    var rest := name[|ROOT|..];
    OneSegment(rest);
    assert name == "out/" + rest;
    assert ("/" + rest)[1..] == rest;
    assert Segments("/" + rest) == [""] + [rest];
    HeadChar('t', "/" + rest);
    assert ['t'] + ("/" + rest) == "t/" + rest && ['t'] + "" == "t";
    assert Segments("t/" + rest) == ["t", rest];
    HeadChar('u', "t/" + rest);
    assert ['u'] + ("t/" + rest) == "ut/" + rest && ['u'] + "t" == "ut";
    assert Segments("ut/" + rest) == ["ut", rest];
    HeadChar('o', "ut/" + rest);
    assert ['o'] + ("ut/" + rest) == name && ['o'] + "ut" == "out";
  }

  lemma HeadChar(c: char, rest: string)
    requires c != '/'
    ensures Segments([c] + rest) == [[c] + Segments(rest)[0]] + Segments(rest)[1..]
  {
    assert ([c] + rest)[1..] == rest;
  }

  /** The name checks, in their order, allow exactly out/ and plain regular files in it, each name once. */
  lemma EntryNameRule(h: Header, seen: set<string>)
    ensures EntryNamePasses(h, seen) <==> Allowed(h) && h.name !in seen
  {
    if ROOT <= h.name && '/' !in h.name[|ROOT|..] {
      BelowRoot(h.name);
      if h.name[|ROOT|..] == "" {
        assert h.name == ROOT;
      }
    }
  }

  // ------------------------------------------------ what the manifest lists

  /** The digests of a package can be read. */
  predicate Usable(c: Codec, p: Package) {
    c.unhex(p.shippedSha512).Some? && (p.stripped || c.integrity(p.originalIntegrity).Some?)
  }

  /** The bytes are the package's: as shipped, and unless stripped also as published. */
  predicate Matches(c: Codec, p: Package, body: Bytes)
    requires Usable(c, p)
  {
    c.sha512(body) == c.unhex(p.shippedSha512).value && (!p.stripped ==> c.integrity(p.originalIntegrity).value(body))
  }

  predicate AllUsable(c: Codec, packages: seq<Package>) {
    forall k :: 0 <= k < |packages| ==> Usable(c, packages[k])
  }

  /** No later package has the same file name. */
  predicate IsLast(packages: seq<Package>, k: nat)
    requires k < |packages|
  {
    forall j :: k < j < |packages| ==> packages[j].file != packages[k].file
  }

  /** The map from file names to packages that scan starts from: of two packages with one file name, the later. */
  predicate IsListing(listed: map<string, nat>, packages: seq<Package>) {
    && (forall f :: f in listed ==>
        listed[f] < |packages| && packages[listed[f]].file == f && IsLast(packages, listed[f]))
    && forall k :: 0 <= k < |packages| ==> packages[k].file in listed
  }

  lemma ListOneMore(listed: map<string, nat>, packages: seq<Package>, i: nat)
    requires i < |packages| && IsListing(listed, packages[..i])
    ensures IsListing(listed[packages[i].file := i], packages[..i+1])
  {
    var (more, now) := (listed[packages[i].file := i], packages[..i+1]);
    forall f | f in more ensures more[f] < |now| && now[more[f]].file == f && IsLast(now, more[f]) {
      if f != packages[i].file {
        assert packages[..i][listed[f]].file == f && IsLast(packages[..i], listed[f]);
        forall j | listed[f] < j < |now| ensures now[j].file != now[listed[f]].file {
          assert j < i ==> packages[..i][j] == now[j];
        }
      }
    }
    forall k | 0 <= k < |now| ensures now[k].file in more {
      assert k < i ==> packages[..i][k] == now[k];
    }
  }

  /** List fills the map of scan's first loop, or refuses a package whose digests cannot be read. */
  method List(c: Codec, packages: seq<Package>) returns (listed: Option<map<string, nat>>)
    ensures listed.Some? <==> AllUsable(c, packages)
    ensures listed.Some? ==> IsListing(listed.value, packages)
  {
    var found: map<string, nat> := map[];
    for i := 0 to |packages|
      invariant forall k :: 0 <= k < i ==> Usable(c, packages[k])
      invariant IsListing(found, packages[..i])
    {
      if !Usable(c, packages[i]) {
        return None;
      }
      ListOneMore(found, packages, i);
      found := found[packages[i].file := i];
    }
    assert packages[..|packages|] == packages;
    return Some(found);
  }

  // ---------------------------------------------------- what scan accepts

  function Names(entries: seq<TarEntry>): set<string> {
    if entries == [] then {} else Names(entries[..|entries|-1]) + {entries[|entries|-1].header.name}
  }

  lemma {:induction false} NameAt(entries: seq<TarEntry>, name: string)
    ensures name in Names(entries) <==> exists i :: 0 <= i < |entries| && entries[i].header.name == name
  {
    if entries != [] {
      var init := entries[..|entries|-1];
      NameAt(init, name);
      assert entries[|entries|-1].header.name == name ==>
        exists i :: 0 <= i < |entries| && entries[i].header.name == name;
      if i :| 0 <= i < |init| && init[i].header.name == name {
        assert entries[i].header.name == name;
      }
    }
  }

  /** The bytes of file content. */
  function Unpacked(entries: seq<TarEntry>): nat {
    if entries == [] then 0
    else
      var last := entries[|entries|-1];
      Unpacked(entries[..|entries|-1]) + if last.header.kind == Directory then 0 else last.header.size
  }

  lemma {:induction false} UnpackedGrows(entries: seq<TarEntry>, n: nat)
    requires n <= |entries|
    ensures Unpacked(entries[..n]) <= Unpacked(entries)
  {
    if n < |entries| {
      UnpackedGrows(entries[..|entries|-1], n);
      assert entries[..|entries|-1][..n] == entries[..n];
    } else {
      assert entries[..n] == entries;
    }
  }

  /** Entry n may stand where it does, by its header. */
  predicate HeadFine(entries: seq<TarEntry>, l: Limits, bound: int, n: nat)
    requires n < |entries|
  {
    var h := entries[n].header;
    entries[n].headAt <= bound && n < l.entries && |h.name| <= l.nameBytes && Allowed(h)
      && h.name !in Names(entries[..n])
  }

  /** The bytes are those of the listed package of that file name. */
  predicate MatchesListed(c: Codec, packages: seq<Package>, file: string, body: Bytes)
    requires AllUsable(c, packages)
  {
    exists k :: 0 <= k < |packages| && packages[k].file == file && IsLast(packages, k) && Matches(c, packages[k], body)
  }

  /** And by its content: the key, or the bytes of a listed package. */
  predicate BodyFine(c: Codec, packages: seq<Package>, key: Bytes, entries: seq<TarEntry>, l: Limits, bound: int,
                     n: nat)
    requires n < |entries| && Allowed(entries[n].header) && AllUsable(c, packages)
  {
    var (h, body) := (entries[n].header, entries[n].body);
    h.kind == Directory ||
    (!h.sparse && Unpacked(entries[..n+1]) <= l.unpacked && entries[n].bodyAt <= bound &&
     var file := h.name[|ROOT|..];
     if file == KEY_ENTRY then body == key && |body| <= MAX_KEY_SIZE
     else MatchesListed(c, packages, file, body))
  }

  predicate Fine(c: Codec, packages: seq<Package>, key: Bytes, entries: seq<TarEntry>, l: Limits, bound: int, n: nat)
    requires n < |entries| && AllUsable(c, packages)
  {
    HeadFine(entries, l, bound, n) && BodyFine(c, packages, key, entries, l, bound, n)
  }

  /** Package k is the listed one of its file, and an entry carries it. */
  predicate Present(packages: seq<Package>, entries: seq<TarEntry>, k: nat)
    requires k < |packages|
  {
    && packages[k].file != "" && packages[k].file != KEY_ENTRY && IsLast(packages, k)
    && ROOT + packages[k].file in Names(entries)
  }

  predicate Clean(rest: Bytes) {
    |rest| <= MAX_TRAILING && forall i :: 0 <= i < |rest| ==> rest[i] == 0
  }

  predicate Admissible(c: Codec, packages: seq<Package>, key: Bytes, d: Decoded, l: Limits)
    requires InRange(l) && Positive(l)
  {
    && AllUsable(c, packages)
    && d.Decoded? && d.intact && d.endAt <= StreamBound(l) && Clean(d.rest) && d.sound
    && (forall n :: 0 <= n < |d.entries| ==> Fine(c, packages, key, d.entries, l, StreamBound(l), n))
    && ROOT + KEY_ENTRY in Names(d.entries)
    && forall k :: 0 <= k < |packages| ==> Present(packages, d.entries, k)
  }

  // -------------------------------------------------------------- the scan

  /** The private directory the tarballs are copied into. */
  class Folder {
    var files: map<string, Bytes>

    /**
     copyPackage: a new file, never an existing one.  broken: writing it fails.
     What was written stays.
     */
    method Copy(c: Codec, p: Package, body: Bytes, broken: bool) returns (r: CopyResult)
      requires Usable(c, p)
      modifies this
      ensures r == LocalFailure <==> p.file in old(files) || broken
      ensures r == Mismatch <==>
        p.file !in old(files) && !broken
        && !(c.unhex(p.shippedSha512) == Some(c.sha512(body))
             && (p.stripped || c.integrity(p.originalIntegrity).value(body)))
      ensures r.Copied? ==> r.checked == Checked(p, p.file, c.sha512(body))
      ensures p.file in old(files) ==> files == old(files)
      ensures p.file !in old(files) ==> p.file in files && files == old(files)[p.file := files[p.file]]
      ensures r.Copied? ==> files == old(files)[p.file := body]
    {
      if p.file in files {
        return LocalFailure;
      }
      if broken {
        files := files[p.file := []];
        return LocalFailure;
      }
      files := files[p.file := body];
      if c.sha512(body) != c.unhex(p.shippedSha512).value {
        return Mismatch;
      }
      if !p.stripped && !c.integrity(p.originalIntegrity).value(body) {
        return Mismatch;
      }
      return Copied(Checked(p, p.file, c.sha512(body)));
    }
  }

  datatype CopyResult = Copied(checked: Checked) | Mismatch | LocalFailure

  datatype Scanned = Passed(checked: seq<Checked>) | Refused | Failed

  /** What the folder holds when everything was copied. */
  predicate AllCopied(c: Codec, packages: seq<Package>, entries: seq<TarEntry>, checked: seq<Checked>,
                      files: map<string, Bytes>) {
    && |checked| == |packages|
    && forall k :: 0 <= k < |packages| ==> CopiedAs(c, packages[k], entries, checked[k], files)
  }

  predicate CopiedAs(c: Codec, p: Package, entries: seq<TarEntry>, done: Checked, files: map<string, Bytes>) {
    exists i :: 0 <= i < |entries| && entries[i].header.name == ROOT + p.file && p.file in files
      && files[p.file] == entries[i].body && done == Checked(p, p.file, c.sha512(entries[i].body))
  }

  /** A folder that lost nothing and gained only listed files. */
  predicate OnlyGains(before: map<string, Bytes>, after: map<string, Bytes>, packages: seq<Package>) {
    && (forall f :: f in before ==> f in after && after[f] == before[f])
    && forall f :: f in after && f !in before ==> exists k :: 0 <= k < |packages| && packages[k].file == f
  }

  const NOTHING := Checked(Package("", "", "", "", "", false), "", [])

  /** scan's variables. */
  datatype Tally = Tally(checked: seq<Checked>, done: seq<bool>, seen: set<string>, keySeen: bool, unpacked: int)

  /** What they hold once the entries in got were accepted. */
  ghost predicate Tallied(c: Codec, packages: seq<Package>, got: seq<TarEntry>, t: Tally, files: map<string, Bytes>) {
    && |t.checked| == |t.done| == |packages|
    && t.seen == Names(got)
    && t.unpacked == Unpacked(got)
    && (t.keySeen <==> ROOT + KEY_ENTRY in Names(got))
    && forall k :: 0 <= k < |packages| ==>
         (t.done[k] <==> Present(packages, got, k))
           && (t.done[k] ==> CopiedAs(c, packages[k], got, t.checked[k], files))
  }

  lemma NamesSnoc(got: seq<TarEntry>, e: TarEntry)
    ensures Names(got + [e]) == Names(got) + {e.header.name}
  {
    assert (got + [e])[..|got|] == got;
  }

  lemma CopiedAsGrows(c: Codec, p: Package, got: seq<TarEntry>, e: TarEntry, done: Checked, before: map<string, Bytes>,
                      after: map<string, Bytes>)
    requires CopiedAs(c, p, got, done, before) && p.file in after
      && (p.file in before ==> after[p.file] == before[p.file])
    ensures CopiedAs(c, p, got + [e], done, after)
  {
    var i :| 0 <= i < |got| && got[i].header.name == ROOT + p.file && p.file in before
      && before[p.file] == got[i].body && done == Checked(p, p.file, c.sha512(got[i].body));
    assert (got + [e])[i] == got[i];
  }

  lemma RootedApart(a: string, b: string)
    ensures ROOT + a == ROOT + b <==> a == b
  {
    assert (ROOT + a)[|ROOT|..] == a && (ROOT + b)[|ROOT|..] == b;
  }

  /** The variables after one more accepted entry that is no package's. */
  function WithOther(t: Tally, e: TarEntry): Tally {
    t.(seen := t.seen + {e.header.name}, keySeen := t.keySeen || e.header.name == ROOT + KEY_ENTRY,
       unpacked := t.unpacked + if e.header.kind == Directory then 0 else e.header.size)
  }

  lemma OtherTallied(c: Codec, packages: seq<Package>, got: seq<TarEntry>, e: TarEntry, t: Tally,
                     files: map<string, Bytes>)
    requires Tallied(c, packages, got, t, files)
    requires e.header.name == ROOT || e.header.name == ROOT + KEY_ENTRY
    ensures Tallied(c, packages, got + [e], WithOther(t, e), files)
  {
    NamesSnoc(got, e);
    assert (got + [e])[..|got|] == got;
    forall k | 0 <= k < |packages|
      ensures Present(packages, got + [e], k) == Present(packages, got, k)
      ensures t.done[k] ==> CopiedAs(c, packages[k], got + [e], t.checked[k], files)
    {
      RootedApart(packages[k].file, "");
      RootedApart(packages[k].file, KEY_ENTRY);
      assert ROOT + "" == ROOT;
      if t.done[k] {
        CopiedAsGrows(c, packages[k], got, e, t.checked[k], files, files);
      }
    }
  }

  /** And after the entry of package k, now copied. */
  function WithPackage(t: Tally, e: TarEntry, k: nat, now: Checked): Tally
    requires k < |t.checked| == |t.done|
  {
    t.(seen := t.seen + {e.header.name}, unpacked := t.unpacked + e.header.size,
       checked := t.checked[k := now], done := t.done[k := true])
  }

  lemma PackageTallied(c: Codec, packages: seq<Package>, got: seq<TarEntry>, e: TarEntry, t: Tally,
                       files: map<string, Bytes>, k: nat)
    requires Tallied(c, packages, got, t, files) && k < |packages|
    requires e.header.kind != Directory && e.header.name == ROOT + packages[k].file && e.header.name !in Names(got)
    requires packages[k].file != "" && packages[k].file != KEY_ENTRY && IsLast(packages, k)
    ensures Tallied(c, packages, got + [e],
                    WithPackage(t, e, k, Checked(packages[k], packages[k].file, c.sha512(e.body))),
                    files[packages[k].file := e.body])
  {
    var now := Checked(packages[k], packages[k].file, c.sha512(e.body));
    var after := files[packages[k].file := e.body];
    NamesSnoc(got, e);
    RootedApart(packages[k].file, KEY_ENTRY);
    assert (got + [e])[..|got|] == got && (got + [e])[|got|] == e;
    assert CopiedAs(c, packages[k], got + [e], now, after);
    forall j | 0 <= j < |packages| && j != k
      ensures Present(packages, got + [e], j) == Present(packages, got, j)
      ensures t.done[j] ==> CopiedAs(c, packages[j], got + [e], t.checked[j], after)
    {
      RootedApart(packages[j].file, packages[k].file);
      if t.done[j] {
        CopiedAsGrows(c, packages[j], got, e, t.checked[j], files, after);
      }
    }
  }

  datatype EntryVerdict = Taken | TurnedDown | Stuck

  /** The end of scan's loop body: a file other than the key is copied if it is listed. */
  method ScanPackage(c: Codec, packages: seq<Package>, listed: map<string, nat>, ghost got: seq<TarEntry>, e: TarEntry,
                     t: Tally, dir: Folder, broken: set<string>)
    returns (v: EntryVerdict, t': Tally)
    requires AllUsable(c, packages) && IsListing(listed, packages) && Tallied(c, packages, got, t, dir.files)
    requires e.header.kind != Directory && ROOT <= e.header.name && e.header.name !in Names(got)
    requires e.header.name[|ROOT|..] != "" && e.header.name[|ROOT|..] != KEY_ENTRY
    modifies dir
    ensures v == TurnedDown ==> !MatchesListed(c, packages, e.header.name[|ROOT|..], e.body)
    ensures v == Taken ==> MatchesListed(c, packages, e.header.name[|ROOT|..], e.body)
    ensures v == Taken ==> Tallied(c, packages, got + [e], t', dir.files) && t'.unpacked == t.unpacked + e.header.size
    ensures v == Stuck ==>
      exists k :: 0 <= k < |packages| && ROOT + packages[k].file == e.header.name
        && (packages[k].file in old(dir.files) || packages[k].file in broken)
    ensures OnlyGains(old(dir.files), dir.files, packages)
    ensures forall f :: f in dir.files && f !in old(dir.files) ==> ROOT + f == e.header.name
  {
    var file := e.header.name[|ROOT|..];
    assert e.header.name == ROOT + file;
    if file !in listed {
      return TurnedDown, t;
    }
    var k := listed[file];
    OnlyLast(packages, k);
    var copied := dir.Copy(c, packages[k], e.body, file in broken);
    if copied.LocalFailure? {
      return Stuck, t;
    }
    if copied.Mismatch? {
      return TurnedDown, t;
    }
    PackageTallied(c, packages, got, e, t, old(dir.files), k);
    return Taken, WithPackage(t, e, k, copied.checked);
  }

  /** The body of scan's loop: entry n, with t telling of those before it. */
  method ScanEntry(c: Codec, packages: seq<Package>, listed: map<string, nat>, key: Bytes, l: Limits, bound: int,
                   entries: seq<TarEntry>, n: nat, t: Tally, dir: Folder, broken: set<string>)
    returns (v: EntryVerdict, t': Tally)
    requires n < |entries| && AllUsable(c, packages) && IsListing(listed, packages)
    requires 0 <= l.unpacked <= MAX_INT64 && |entries[n].body| == entries[n].header.size <= MAX_INT64
    requires Tallied(c, packages, entries[..n], t, dir.files) && t.unpacked <= l.unpacked
    modifies dir
    ensures v == TurnedDown ==> !Fine(c, packages, key, entries, l, bound, n)
    ensures v == Taken ==> Fine(c, packages, key, entries, l, bound, n)
    ensures v == Taken ==> Tallied(c, packages, entries[..n+1], t', dir.files) && t'.unpacked <= l.unpacked
    ensures v == Stuck ==>
      exists k :: 0 <= k < |packages| && ROOT + packages[k].file == entries[n].header.name
        && (packages[k].file in old(dir.files) || packages[k].file in broken)
        && entries[n].header.name !in Names(entries[..n])
    ensures OnlyGains(old(dir.files), dir.files, packages)
    ensures forall f :: f in dir.files && f !in old(dir.files) ==> ROOT + f == entries[n].header.name
  {
    var e := entries[n];
    var h := e.header;
    ghost var got := entries[..n];
    assert entries[..n+1] == got + [e];
    t' := t;
    if e.headAt > bound || n + 1 > l.entries || |h.name| > l.nameBytes {
      return TurnedDown, t;
    }
    EntryNameRule(h, t.seen);
    if !EntryNamePasses(h, t.seen) {
      return TurnedDown, t;
    }
    if h.kind == Directory {
      OtherTallied(c, packages, got, e, t, dir.files);
      RootIsNotKey();
      return Taken, t.(seen := t.seen + {h.name});
    }
    UnpackedSnoc(got, e);
    WrapsOnce(l.unpacked - t.unpacked);
    if h.sparse || h.size > Wrap(l.unpacked - t.unpacked) || e.bodyAt > bound {
      return TurnedDown, t;
    }
    WrapsOnce(t.unpacked + h.size);
    var unpacked := Wrap(t.unpacked + h.size);
    var file := h.name[|ROOT|..];
    assert h.name == ROOT + file;
    if file == KEY_ENTRY {
      if |e.body| > MAX_KEY_SIZE || e.body != key {
        return TurnedDown, t;
      }
      OtherTallied(c, packages, got, e, t, dir.files);
      return Taken, t.(seen := t.seen + {h.name}, unpacked := unpacked, keySeen := true);
    }
    v, t' := ScanPackage(c, packages, listed, got, e, t, dir, broken);
  }

  lemma RootIsNotKey()
    ensures ROOT != ROOT + KEY_ENTRY
  {
    assert |ROOT| != |ROOT + KEY_ENTRY|;
  }

  lemma UnpackedSnoc(got: seq<TarEntry>, e: TarEntry)
    ensures Unpacked(got + [e]) == Unpacked(got) + if e.header.kind == Directory then 0 else e.header.size
  {
    assert (got + [e])[..|got|] == got;
  }

  lemma OnlyLast(packages: seq<Package>, k: nat)
    requires k < |packages| && IsLast(packages, k)
    ensures forall j :: 0 <= j < |packages| && packages[j].file == packages[k].file && IsLast(packages, j) ==> j == k
  {
  }

  /** The loop over the entries: what it leaves in t, or why it stopped. */
  method ScanEntries(c: Codec, packages: seq<Package>, listed: map<string, nat>, key: Bytes, l: Limits,
                     entries: seq<TarEntry>, dir: Folder, broken: set<string>)
    returns (v: EntryVerdict, t: Tally)
    requires AllUsable(c, packages) && IsListing(listed, packages) && InRange(l) && Positive(l)
    requires forall i :: 0 <= i < |entries| ==> |entries[i].body| == entries[i].header.size <= MAX_INT64
    modifies dir
    ensures v == TurnedDown ==> exists i :: 0 <= i < |entries| && !Fine(c, packages, key, entries, l, StreamBound(l), i)
    ensures v == Taken ==> forall i :: 0 <= i < |entries| ==> Fine(c, packages, key, entries, l, StreamBound(l), i)
    ensures v == Taken ==> Tallied(c, packages, entries, t, dir.files)
    ensures v == Stuck ==>
      exists k :: 0 <= k < |packages| && (packages[k].file in old(dir.files) || packages[k].file in broken)
    ensures OnlyGains(old(dir.files), dir.files, packages)
  {
    var bound := StreamBound(l);
    t := Tally(seq(|packages|, _ => NOTHING), seq(|packages|, _ => false), {}, false, 0);
    for n := 0 to |entries|
      invariant Tallied(c, packages, entries[..n], t, dir.files) && t.unpacked <= l.unpacked
      invariant forall i :: 0 <= i < n ==> Fine(c, packages, key, entries, l, bound, i)
      invariant forall f :: f in dir.files && f !in old(dir.files) ==> ROOT + f in Names(entries[..n])
      invariant OnlyGains(old(dir.files), dir.files, packages)
    {
      assert entries[..n+1] == entries[..n] + [entries[n]];
      NamesSnoc(entries[..n], entries[n]);
      v, t := ScanEntry(c, packages, listed, key, l, bound, entries, n, t, dir, broken);
      if v != Taken {
        return;
      }
    }
    assert entries[..|entries|] == entries;
    v := Taken;
  }

  /** The first package not seen, if any. */
  method Missing(done: seq<bool>) returns (i: nat)
    ensures i <= |done| && (i < |done| ==> !done[i]) && forall k :: 0 <= k < i ==> done[k]
  {
    i := 0;
    while i < |done| && done[i]
      invariant i <= |done| && forall k :: 0 <= k < i ==> done[k]
    {
      i := i + 1;
    }
  }

  /**
   scan accepts exactly the admissible archives: it passes one, with every
   package copied and reported in manifest order, or refuses one that is not, or
   fails locally because a listed file is already there or cannot be written.
   Nothing already in the folder is touched.
   */
  method Scan(c: Codec, d: Decoded, packages: seq<Package>, key: Bytes, limits: Limits, dir: Folder,
              broken: set<string>)
    returns (r: Scanned)
    requires InRange(limits) && WellFormed(d)
    modifies dir
    ensures r.Passed? ==> Admissible(c, packages, key, d, OrDefault(limits))
    ensures r.Passed? ==> AllCopied(c, packages, d.entries, r.checked, dir.files)
    ensures r.Refused? ==> !Admissible(c, packages, key, d, OrDefault(limits))
    ensures r.Failed? ==>
      exists k :: 0 <= k < |packages| && (packages[k].file in old(dir.files) || packages[k].file in broken)
    ensures OnlyGains(old(dir.files), dir.files, packages)
  {
    var l := OrDefault(limits);
    var listing := List(c, packages);
    if listing == None || d.NotGzip? {
      return Refused;
    }
    var v, t := ScanEntries(c, packages, listing.value, key, l, d.entries, dir, broken);
    if v == Stuck {
      return Failed;
    }
    if v == TurnedDown || !d.intact || d.endAt > StreamBound(l) || !Clean(d.rest) || !d.sound {
      return Refused;
    }
    var missing := Missing(t.done);
    if missing < |packages| || !t.keySeen {
      return Refused;
    }
    return Passed(t.checked);
  }

  // ------------------------------------------------------------ the verifier

  datatype Options = Options(expectedSha256: string, key: Bytes, absolute: bool, limits: Limits)

  datatype Verdict =
    | Accepted(checked: seq<Checked>)
    | RelativeFolder
    | NoKey
    | ReadFailed
    | BadSize
    | BadDigest
    | NotExpected
    | Inadmissible
    | CopyFailed

  /** strings.ToLower of a hex digest. */
  function Lower(s: string): string {
    if s == [] then [] else [if 'A' <= s[0] <= 'Z' then s[0] - 'A' + 'a' else s[0]] + Lower(s[1..])
  }

  ghost predicate Decodes(c: Codec) {
    forall b: Bytes :: WellFormed(c.decode(b))
  }

  /** The archive is the one the manifest and the caller name by size and digest. */
  predicate Named(c: Codec, file: Bytes, m: Manifest, expected: string) {
    |file| == m.size && c.sha256(file) == m.sha256 && (expected != "" ==> c.sha256(file) == Lower(expected))
  }

  /** How many bytes Verify reads at most: one past the manifest's size. */
  function ReadLimit(m: Manifest): nat {
    if m.size + 1 > 0 then m.size + 1 else 0
  }

  /** The reader fails at the read after its last byte, and that read is made. */
  predicate FailureSeen(file: Bytes, readFails: bool, m: Manifest) {
    readFails && |file| < ReadLimit(m)
  }

  /**
   Verify.  file is what the reader delivers, readFails that it then fails
   instead of ending.  No more than one byte past the manifest's size is read,
   and a wrong size or digest takes precedence over what the scan says.
   */
  method Verify(c: Codec, file: Bytes, readFails: bool, m: Manifest, opts: Options, dir: Folder, broken: set<string>)
    returns (v: Verdict)
    requires Decodes(c) && InRange(opts.limits)
    modifies dir
    ensures v == RelativeFolder <==> !opts.absolute
    ensures v == NoKey <==> opts.absolute && opts.key == []
    ensures v == ReadFailed <==> opts.absolute && opts.key != [] && FailureSeen(file, readFails, m)
    ensures v == BadSize <==> opts.absolute && opts.key != [] && !FailureSeen(file, readFails, m) && |file| != m.size
    ensures v == BadDigest <==>
      opts.absolute && opts.key != [] && !FailureSeen(file, readFails, m) && |file| == m.size
        && c.sha256(file) != m.sha256
    ensures v == NotExpected <==>
      && opts.absolute && opts.key != [] && !FailureSeen(file, readFails, m)
      && |file| == m.size && c.sha256(file) == m.sha256
      && opts.expectedSha256 != "" && c.sha256(file) != Lower(opts.expectedSha256)
    ensures v.Accepted? ==> Named(c, file, m, opts.expectedSha256)
                            && Admissible(c, m.packages, opts.key, c.decode(file), OrDefault(opts.limits))
                            && AllCopied(c, m.packages, c.decode(file).entries, v.checked, dir.files)
    ensures v.Accepted? ==> forall k :: 0 <= k < |m.packages| ==>
      Delivered(c, m.packages[k], c.decode(file).entries, dir.files)
    ensures v == Inadmissible ==> !Admissible(c, m.packages, opts.key, c.decode(file), OrDefault(opts.limits))
    ensures v == CopyFailed ==>
      exists k :: 0 <= k < |m.packages| && (m.packages[k].file in old(dir.files) || m.packages[k].file in broken)
    ensures Named(c, file, m, opts.expectedSha256) && opts.absolute && opts.key != [] && !readFails
            ==> v.Accepted? || v == Inadmissible || v == CopyFailed
    ensures OnlyGains(old(dir.files), dir.files, m.packages)
  {
    if !opts.absolute {
      return RelativeFolder;
    }
    if opts.key == [] {
      return NoKey;
    }
    var limit := ReadLimit(m);
    var read := if |file| > limit then file[..limit] else file;
    var scanned := Scan(c, c.decode(read), m.packages, opts.key, opts.limits, dir, broken);
    if readFails && |file| < limit {
      return ReadFailed;
    }
    if |read| != m.size {
      return BadSize;
    }
    var got := c.sha256(read);
    if got != m.sha256 {
      return BadDigest;
    }
    if opts.expectedSha256 != "" && got != Lower(opts.expectedSha256) {
      return NotExpected;
    }
    match scanned
    case Refused => v := Inadmissible;
    case Failed => v := CopyFailed;
    case Passed(checked) =>
      v := Accepted(checked);
      AcceptedDelivers(c, m.packages, opts.key, c.decode(read), OrDefault(opts.limits), checked, dir.files);
  }

  /**
   An entry of the archive has the package's file name and bytes of the digest
   it was shipped under, and of the one it was published under unless the
   export stripped it; and the folder holds those bytes.
   */
  predicate Delivered(c: Codec, p: Package, entries: seq<TarEntry>, files: map<string, Bytes>) {
    exists i :: 0 <= i < |entries| && DeliveredBy(c, p, entries[i], files)
  }

  predicate DeliveredBy(c: Codec, p: Package, e: TarEntry, files: map<string, Bytes>) {
    && e.header.name == "out/" + p.file && p.file in files && files[p.file] == e.body
    && c.unhex(p.shippedSha512) == Some(c.sha512(e.body))
    && (!p.stripped ==> c.integrity(p.originalIntegrity).Some? && c.integrity(p.originalIntegrity).value(e.body))
  }

  lemma AcceptedDelivers(c: Codec, packages: seq<Package>, key: Bytes, d: Decoded, l: Limits, checked: seq<Checked>,
                         files: map<string, Bytes>)
    requires InRange(l) && Positive(l) && Admissible(c, packages, key, d, l)
    requires AllCopied(c, packages, d.entries, checked, files)
    ensures forall k :: 0 <= k < |packages| ==> Delivered(c, packages[k], d.entries, files)
  {
    forall k | 0 <= k < |packages| ensures Delivered(c, packages[k], d.entries, files) {
      assert CopiedAs(c, packages[k], d.entries, checked[k], files);
      var i :| 0 <= i < |d.entries| && d.entries[i].header.name == ROOT + packages[k].file && packages[k].file in files
               && files[packages[k].file] == d.entries[i].body;
      FineBelongs(c, packages, key, d.entries, l, StreamBound(l), i);
      assert Present(packages, d.entries, k) && IsNamedAs(packages, k, d.entries[i]);
      assert PackageEntry(c, d.entries[i], packages[k]);
      assert DeliveredBy(c, packages[k], d.entries[i], files);
    }
  }

  // ------------------------------------- what an admissible archive contains

  predicate RootEntry(e: TarEntry) {
    e.header.name == ROOT && e.header.kind == Directory
  }

  predicate KeyEntry(e: TarEntry, key: Bytes) {
    e.header.name == ROOT + KEY_ENTRY && e.header.kind == Regular && !e.header.sparse && e.body == key
  }

  predicate PackageEntry(c: Codec, e: TarEntry, p: Package)
    requires Usable(c, p)
  {
    && e.header.name == ROOT + p.file && PlainName(p.file)
    && e.header.kind == Regular && !e.header.sparse && Matches(c, p, e.body)
  }

  predicate Carries(c: Codec, entries: seq<TarEntry>, p: Package)
    requires Usable(c, p)
  {
    exists i :: 0 <= i < |entries| && PackageEntry(c, entries[i], p)
  }

  predicate Belongs(c: Codec, packages: seq<Package>, key: Bytes, e: TarEntry)
    requires AllUsable(c, packages)
  {
    RootEntry(e) || KeyEntry(e, key) || exists k :: 0 <= k < |packages| && PackageEntry(c, e, packages[k])
  }

  predicate NamesDiffer(entries: seq<TarEntry>) {
    forall i, j :: 0 <= i < j < |entries| ==> entries[i].header.name != entries[j].header.name
  }

  /** The manifest lists distinct files, none named as the key. */
  predicate FilesDiffer(packages: seq<Package>) {
    && (forall k, j :: 0 <= k < j < |packages| ==> packages[k].file != packages[j].file)
    && forall k :: 0 <= k < |packages| ==> packages[k].file != KEY_ENTRY
  }

  /**
   The archive's contents, said outright and in no order: at most the directory
   out/, the key once, and each listed package once, with nothing else.
   */
  predicate ExactContents(c: Codec, packages: seq<Package>, key: Bytes, entries: seq<TarEntry>)
    requires AllUsable(c, packages)
  {
    && FilesDiffer(packages) && NamesDiffer(entries)
    && (forall i :: 0 <= i < |entries| ==> Belongs(c, packages, key, entries[i]))
    && (exists i :: 0 <= i < |entries| && KeyEntry(entries[i], key))
    && forall k :: 0 <= k < |packages| ==> Carries(c, entries, packages[k])
  }

  predicate Within(entries: seq<TarEntry>, key: Bytes, l: Limits) {
    && |entries| <= l.entries && Unpacked(entries) <= l.unpacked && |key| <= MAX_KEY_SIZE
    && forall i :: 0 <= i < |entries| ==> |entries[i].header.name| <= l.nameBytes
  }

  predicate Readable(d: Decoded, bound: int) {
    d.Decoded? && d.intact && d.endAt <= bound && Clean(d.rest) && d.sound
  }

  lemma NamesDifferIffNew(entries: seq<TarEntry>)
    ensures NamesDiffer(entries) <==> forall n :: 0 <= n < |entries| ==> entries[n].header.name !in Names(entries[..n])
  {
    forall n | 0 <= n < |entries|
      ensures entries[n].header.name !in Names(entries[..n]) <==>
        forall i :: 0 <= i < n ==> entries[i].header.name != entries[n].header.name
    {
      NameAt(entries[..n], entries[n].header.name);
      assert forall i :: 0 <= i < n ==> entries[..n][i] == entries[i];
    }
  }

  lemma PackageIsNotKey(c: Codec, e: TarEntry, p: Package)
    requires Usable(c, p) && PackageEntry(c, e, p)
    ensures e.header.name[|ROOT|..] == p.file && Allowed(e.header)
  {
    assert e.header.name == ROOT + p.file;
  }

  lemma {:induction false} UnpackedWithin(c: Codec, packages: seq<Package>, key: Bytes, entries: seq<TarEntry>,
                                          l: Limits, bound: int, n: nat)
    requires AllUsable(c, packages) && n <= |entries| && l.unpacked >= 0
    requires forall i :: 0 <= i < n ==> Fine(c, packages, key, entries, l, bound, i)
    ensures Unpacked(entries[..n]) <= l.unpacked
  {
    if n > 0 {
      UnpackedWithin(c, packages, key, entries, l, bound, n - 1);
      assert entries[..n] == entries[..n-1] + [entries[n-1]];
      UnpackedSnoc(entries[..n-1], entries[n-1]);
      assert Fine(c, packages, key, entries, l, bound, n - 1);
    }
  }

  predicate IsNamedAs(packages: seq<Package>, k: nat, e: TarEntry)
    requires k < |packages|
  {
    e.header.name == ROOT + packages[k].file && packages[k].file != "" && packages[k].file != KEY_ENTRY
      && IsLast(packages, k)
  }

  lemma FineBelongs(c: Codec, packages: seq<Package>, key: Bytes, entries: seq<TarEntry>, l: Limits, bound: int, n: nat)
    requires AllUsable(c, packages) && n < |entries| && Fine(c, packages, key, entries, l, bound, n)
    ensures Belongs(c, packages, key, entries[n])
    ensures entries[n].header.name == ROOT + KEY_ENTRY ==> KeyEntry(entries[n], key) && |key| <= MAX_KEY_SIZE
    ensures forall k :: 0 <= k < |packages| && IsNamedAs(packages, k, entries[n]) ==>
      PackageEntry(c, entries[n], packages[k])
  {
    var e := entries[n];
    RootIsNotKey();
    if e.header.kind == Regular {
      var file := e.header.name[|ROOT|..];
      assert e.header.name == ROOT + file;
      if file != KEY_ENTRY {
        var k :| 0 <= k < |packages| && packages[k].file == file && IsLast(packages, k)
          && Matches(c, packages[k], e.body);
        assert PackageEntry(c, e, packages[k]);
        OnlyLast(packages, k);
      }
    }
    forall k | 0 <= k < |packages| && e.header.name == ROOT + packages[k].file && packages[k].file != ""
      ensures e.header.kind == Regular && e.header.name[|ROOT|..] == packages[k].file
    {
      RootedApart(packages[k].file, "");
      assert ROOT + "" == ROOT;
    }
  }

  lemma PresentIsCarried(c: Codec, packages: seq<Package>, key: Bytes, entries: seq<TarEntry>, l: Limits, bound: int,
                         k: nat)
    requires AllUsable(c, packages) && k < |packages| && Present(packages, entries, k)
    requires forall n :: 0 <= n < |entries| ==> Fine(c, packages, key, entries, l, bound, n)
    ensures Carries(c, entries, packages[k])
  {
    NameAt(entries, ROOT + packages[k].file);
    var i :| 0 <= i < |entries| && entries[i].header.name == ROOT + packages[k].file;
    FineBelongs(c, packages, key, entries, l, bound, i);
    assert IsNamedAs(packages, k, entries[i]);
  }

  lemma PresentMeansDistinct(packages: seq<Package>, entries: seq<TarEntry>)
    requires forall k :: 0 <= k < |packages| ==> Present(packages, entries, k)
    ensures FilesDiffer(packages)
  {
    forall k, j | 0 <= k < j < |packages| ensures packages[k].file != packages[j].file {
      assert Present(packages, entries, k);
    }
    forall k | 0 <= k < |packages| ensures packages[k].file != KEY_ENTRY {
      assert Present(packages, entries, k);
    }
  }

  lemma KeyIsCarried(c: Codec, packages: seq<Package>, key: Bytes, entries: seq<TarEntry>, l: Limits, bound: int)
    requires AllUsable(c, packages) && ROOT + KEY_ENTRY in Names(entries)
    requires forall n :: 0 <= n < |entries| ==> Fine(c, packages, key, entries, l, bound, n)
    ensures |key| <= MAX_KEY_SIZE && exists i :: 0 <= i < |entries| && KeyEntry(entries[i], key)
  {
    NameAt(entries, ROOT + KEY_ENTRY);
    var at :| 0 <= at < |entries| && entries[at].header.name == ROOT + KEY_ENTRY;
    FineBelongs(c, packages, key, entries, l, bound, at);
  }

  lemma HeadsWithin(entries: seq<TarEntry>, l: Limits, bound: int)
    requires Positive(l) && forall n :: 0 <= n < |entries| ==> HeadFine(entries, l, bound, n)
    ensures |entries| <= l.entries && NamesDiffer(entries)
    ensures forall n :: 0 <= n < |entries| ==> |entries[n].header.name| <= l.nameBytes
  {
    forall n | 0 <= n < |entries|
      ensures entries[n].header.name !in Names(entries[..n]) && |entries[n].header.name| <= l.nameBytes && n < l.entries
    {
      assert HeadFine(entries, l, bound, n);
    }
    NamesDifferIffNew(entries);
    if entries != [] {
      var last := entries[|entries|-1];
      assert last.header.name !in Names(entries[..|entries|-1]);
    }
  }

  lemma FineMeansWithin(c: Codec, packages: seq<Package>, key: Bytes, entries: seq<TarEntry>, l: Limits, bound: int)
    requires AllUsable(c, packages) && Positive(l)
    requires forall n :: 0 <= n < |entries| ==> Fine(c, packages, key, entries, l, bound, n)
    ensures |entries| <= l.entries && Unpacked(entries) <= l.unpacked && NamesDiffer(entries)
    ensures forall n :: 0 <= n < |entries| ==> |entries[n].header.name| <= l.nameBytes
  {
    UnpackedWithin(c, packages, key, entries, l, bound, |entries|);
    assert entries[..|entries|] == entries;
    forall n | 0 <= n < |entries| ensures HeadFine(entries, l, bound, n) {
      assert Fine(c, packages, key, entries, l, bound, n);
    }
    HeadsWithin(entries, l, bound);
  }

  lemma AdmissibleHasContents(c: Codec, packages: seq<Package>, key: Bytes, d: Decoded, l: Limits)
    requires InRange(l) && Positive(l) && AllUsable(c, packages) && Admissible(c, packages, key, d, l)
    ensures ExactContents(c, packages, key, d.entries) && Within(d.entries, key, l)
  {
    forall i | 0 <= i < |d.entries| ensures Belongs(c, packages, key, d.entries[i]) {
      FineBelongs(c, packages, key, d.entries, l, StreamBound(l), i);
    }
    forall k | 0 <= k < |packages| ensures Carries(c, d.entries, packages[k]) {
      PresentIsCarried(c, packages, key, d.entries, l, StreamBound(l), k);
    }
    PresentMeansDistinct(packages, d.entries);
    KeyIsCarried(c, packages, key, d.entries, l, StreamBound(l));
    FineMeansWithin(c, packages, key, d.entries, l, StreamBound(l));
  }

  lemma KeyIsPlain()
    ensures PlainName(KEY_ENTRY) && (ROOT + KEY_ENTRY)[|ROOT|..] == KEY_ENTRY && ROOT <= ROOT + KEY_ENTRY
  {
  }

  lemma BelongsIsAllowed(c: Codec, packages: seq<Package>, key: Bytes, e: TarEntry)
    requires AllUsable(c, packages) && Belongs(c, packages, key, e)
    ensures Allowed(e.header)
  {
    KeyIsPlain();
    if !RootEntry(e) && !KeyEntry(e, key) {
      var k :| 0 <= k < |packages| && PackageEntry(c, e, packages[k]);
      PackageIsNotKey(c, e, packages[k]);
    }
  }

  lemma BelongsIsFine(c: Codec, packages: seq<Package>, key: Bytes, entries: seq<TarEntry>, l: Limits, bound: int,
                      n: nat)
    requires AllUsable(c, packages) && FilesDiffer(packages) && |key| <= MAX_KEY_SIZE && n < |entries|
    requires Allowed(entries[n].header) && Belongs(c, packages, key, entries[n])
    requires Unpacked(entries[..n+1]) <= l.unpacked && entries[n].bodyAt <= bound
    ensures BodyFine(c, packages, key, entries, l, bound, n)
  {
    var e := entries[n];
    KeyIsPlain();
    if !RootEntry(e) && !KeyEntry(e, key) {
      var k :| 0 <= k < |packages| && PackageEntry(c, e, packages[k]);
      PackageIsNotKey(c, e, packages[k]);
      assert IsLast(packages, k);
    }
  }

  lemma ContentsAreFine(c: Codec, packages: seq<Package>, key: Bytes, d: Decoded, l: Limits, n: nat)
    requires InRange(l) && Positive(l) && AllUsable(c, packages) && WellFormed(d) && Readable(d, StreamBound(l))
    requires ExactContents(c, packages, key, d.entries) && Within(d.entries, key, l) && n < |d.entries|
    ensures Fine(c, packages, key, d.entries, l, StreamBound(l), n)
  {
    NamesDifferIffNew(d.entries);
    UnpackedGrows(d.entries, n + 1);
    assert Belongs(c, packages, key, d.entries[n]);
    BelongsIsAllowed(c, packages, key, d.entries[n]);
    BelongsIsFine(c, packages, key, d.entries, l, StreamBound(l), n);
  }

  /**
   The pass over the entries accepts exactly the archives whose contents are
   exactly the manifest's and whose size is within the limits.
   */
  lemma AdmissibleIsExact(c: Codec, packages: seq<Package>, key: Bytes, d: Decoded, l: Limits)
    requires InRange(l) && Positive(l) && WellFormed(d)
    ensures Admissible(c, packages, key, d, l) <==>
      AllUsable(c, packages) && Readable(d, StreamBound(l)) && ExactContents(c, packages, key, d.entries)
        && Within(d.entries, key, l)
  {
    if Admissible(c, packages, key, d, l) {
      AdmissibleHasContents(c, packages, key, d, l);
    } else if AllUsable(c, packages) && Readable(d, StreamBound(l)) && ExactContents(c, packages, key, d.entries)
      && Within(d.entries, key, l) {
      ContentsAreAdmissible(c, packages, key, d, l);
    }
  }

  lemma ContentsAreAdmissible(c: Codec, packages: seq<Package>, key: Bytes, d: Decoded, l: Limits)
    requires InRange(l) && Positive(l) && AllUsable(c, packages) && WellFormed(d) && Readable(d, StreamBound(l))
    requires ExactContents(c, packages, key, d.entries) && Within(d.entries, key, l)
    ensures Admissible(c, packages, key, d, l)
  {
    forall n | 0 <= n < |d.entries| ensures Fine(c, packages, key, d.entries, l, StreamBound(l), n) {
      ContentsAreFine(c, packages, key, d, l, n);
    }
    NameAt(d.entries, ROOT + KEY_ENTRY);
    forall k | 0 <= k < |packages| ensures Present(packages, d.entries, k) {
      assert Carries(c, d.entries, packages[k]);
      NameAt(d.entries, ROOT + packages[k].file);
    }
  }

  // ------------------------------------------------ acceptance, said outright

  /** The entry is the package's file: directly in out/, regular, whole, with both digests right. */
  predicate IsFileOf(c: Codec, e: TarEntry, p: Package) {
    && e.header.name == "out/" + p.file && p.file != "" && p.file != ".." && '/' !in p.file
    && e.header.kind == Regular && !e.header.sparse
    && c.unhex(p.shippedSha512) == Some(c.sha512(e.body))
    && (p.stripped || (c.integrity(p.originalIntegrity).Some? && c.integrity(p.originalIntegrity).value(e.body)))
  }

  predicate IsKeyFile(e: TarEntry, key: Bytes) {
    e.header.name == "out/signature.key" && e.header.kind == Regular && !e.header.sparse && e.body == key
  }

  predicate IsFileOfOne(c: Codec, e: TarEntry, packages: seq<Package>) {
    exists k :: 0 <= k < |packages| && IsFileOf(c, e, packages[k])
  }

  predicate HasFile(c: Codec, entries: seq<TarEntry>, p: Package) {
    exists i :: 0 <= i < |entries| && IsFileOf(c, entries[i], p)
  }

  /** The directory, the key and the packages' files, each once, and nothing else. */
  predicate HoldsExactly(c: Codec, packages: seq<Package>, key: Bytes, entries: seq<TarEntry>) {
    && (forall k, j :: 0 <= k < j < |packages| ==> packages[k].file != packages[j].file)
    && (forall k :: 0 <= k < |packages| ==> packages[k].file != "signature.key")
    && (forall i, j :: 0 <= i < j < |entries| ==> entries[i].header.name != entries[j].header.name)
    && (forall i :: 0 <= i < |entries| ==>
          || (entries[i].header.name == "out/" && entries[i].header.kind == Directory)
          || IsKeyFile(entries[i], key)
          || IsFileOfOne(c, entries[i], packages))
    && (exists i :: 0 <= i < |entries| && IsKeyFile(entries[i], key))
    && forall k :: 0 <= k < |packages| ==> HasFile(c, entries, packages[k])
  }

  predicate IsReadable(c: Codec, p: Package) {
    c.unhex(p.shippedSha512).Some? && (p.stripped || c.integrity(p.originalIntegrity).Some?)
  }

  lemma FileIsEntry(c: Codec, e: TarEntry, p: Package)
    requires Usable(c, p)
    ensures IsFileOf(c, e, p) <==> PackageEntry(c, e, p)
  {
  }

  lemma ContentsSpelledOut(c: Codec, packages: seq<Package>, key: Bytes, entries: seq<TarEntry>)
    requires AllUsable(c, packages)
    ensures ExactContents(c, packages, key, entries) <==> HoldsExactly(c, packages, key, entries)
  {
    forall e, k | 0 <= k < |packages| ensures IsFileOf(c, e, packages[k]) <==> PackageEntry(c, e, packages[k]) {
      FileIsEntry(c, e, packages[k]);
    }
    assert forall k :: 0 <= k < |packages| ==> (HasFile(c, entries, packages[k]) <==> Carries(c, entries, packages[k]));
    assert ROOT == "out/" && ROOT + KEY_ENTRY == "out/signature.key";
    forall i | 0 <= i < |entries|
      ensures Belongs(c, packages, key, entries[i]) <==>
        || (entries[i].header.name == "out/" && entries[i].header.kind == Directory)
        || IsKeyFile(entries[i], key) || IsFileOfOne(c, entries[i], packages)
    {
    }
  }

  predicate AllReadable(c: Codec, packages: seq<Package>) {
    forall k :: 0 <= k < |packages| ==> IsReadable(c, packages[k])
  }

  /** gzip and tar read to their ends, within the bound, with little behind them and that zero. */
  predicate ReadsThrough(d: Decoded, bound: int) {
    && d.Decoded? && d.intact && d.sound && d.endAt <= bound
    && |d.rest| <= 16384 && forall i :: 0 <= i < |d.rest| ==> d.rest[i] == 0
  }

  predicate StaysWithin(entries: seq<TarEntry>, key: Bytes, l: Limits) {
    && |entries| <= l.entries && Unpacked(entries) <= l.unpacked && |key| <= 65536
    && forall i :: 0 <= i < |entries| ==> |entries[i].header.name| <= l.nameBytes
  }

  lemma ReadableMeans(c: Codec, packages: seq<Package>)
    ensures AllUsable(c, packages) <==> AllReadable(c, packages)
  {
    if AllReadable(c, packages) {
      forall k | 0 <= k < |packages| ensures Usable(c, packages[k]) {
        assert IsReadable(c, packages[k]);
      }
    }
  }

  /** Acceptance in terms of the archive, the manifest's list and the limits alone. */
  lemma AcceptanceSpelledOut(c: Codec, packages: seq<Package>, key: Bytes, d: Decoded, l: Limits)
    requires InRange(l) && Positive(l) && WellFormed(d)
    ensures Admissible(c, packages, key, d, l) <==>
      && AllReadable(c, packages) && ReadsThrough(d, StreamBound(l))
      && HoldsExactly(c, packages, key, d.entries) && StaysWithin(d.entries, key, l)
  {
    AdmissibleIsExact(c, packages, key, d, l);
    ReadableMeans(c, packages);
    assert Readable(d, StreamBound(l)) <==> ReadsThrough(d, StreamBound(l));
    if AllUsable(c, packages) && d.Decoded? {
      ContentsSpelledOut(c, packages, key, d.entries);
      assert Within(d.entries, key, l) <==> StaysWithin(d.entries, key, l);
    }
  }
}
