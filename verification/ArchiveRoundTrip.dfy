/**
 From the writer to the verifier: what WriteTarGz writes for a manifest's
 packages and key, Verify accepts, and nothing about the order matters.

 Sources: archive/archive.go, archive/verify.go, archive/manifest.go.
 */
module ArchiveRoundTrip {
  import opened Wrappers
  import opened ArchiveBounds
  import opened ArchiveWriter
  import opened ArchiveVerifier

  /** A name tar keeps as it is, with its kind: a directory's ends in a slash, a file's does not. */
  predicate Encodable(m: Member) {
    && (m.kind == Directory || m.kind == Regular)
    && m.name != "" && (m.kind == Directory <==> m.name[|m.name|-1] == '/') && (m.kind == Directory ==> m.content == [])
  }

  function NameSizes(ms: seq<Member>): seq<nat> {
    seq(|ms|, i requires 0 <= i < |ms| => |ms[i].name|)
  }

  function ContentSizes(ms: seq<Member>): seq<nat> {
    seq(|ms|, i requires 0 <= i < |ms| => |ms[i].content|)
  }

  predicate SameMember(e: TarEntry, m: Member) {
    e.header == Header(m.name, m.kind, |m.content|, false) && e.body == m.content
  }

  /** Reading gives back each member, at no more than its framing, and nothing after. */
  predicate Faithful(d: Decoded, ms: seq<Member>) {
    && d.Decoded? && |d.entries| == |ms| && (forall i :: 0 <= i < |ms| ==> SameMember(d.entries[i], ms[i]))
    && d.intact && d.rest == [] && d.sound
    && d.endAt <= FramedAll(NameSizes(ms), ContentSizes(ms)) + TAR_END_BYTES
  }

  /** An archive whose length an int64 can count, as it counts every size and offset. */
  predicate Countable(ms: seq<Member>) {
    FramedAll(NameSizes(ms), ContentSizes(ms)) + TAR_END_BYTES <= MAX_INT64
  }

  /** What is asked of gzip and tar. */
  ghost predicate Lawful(c: Codec) {
    && Decodes(c)
    && forall ms: seq<Member> ::
         Countable(ms) && (forall m :: m in ms ==> Encodable(m)) ==> Faithful(c.decode(c.encode(ms)), ms)
  }

  /** The files an export hands the writer: each package's bytes under its file name. */
  function PackageSources(packages: seq<Package>, bodies: seq<Bytes>): seq<Source>
    requires |packages| == |bodies|
  {
    seq(|packages|, k requires 0 <= k < |packages| => Source(packages[k].file, |bodies[k]|, Some(bodies[k])))
  }

  function KeySource(key: Bytes): Source {
    Source(KEY_ENTRY, |key|, Some(key))
  }

  /** The manifest is one of these very files. */
  predicate Built(c: Codec, packages: seq<Package>, bodies: seq<Bytes>) {
    && |packages| == |bodies| && FilesDiffer(packages)
    && forall k :: 0 <= k < |packages| ==>
      PlainName(packages[k].file) && Usable(c, packages[k]) && Matches(c, packages[k], bodies[k])
  }

  /** What a caller can check before writing. */
  predicate Fits(ms: seq<Member>, key: Bytes, l: Limits) {
    && |ms| <= l.entries && Sum(ContentSizes(ms)) <= l.unpacked && |key| <= MAX_KEY_SIZE
    && forall i :: 0 <= i < |ms| ==> |ms[i].name| <= l.nameBytes
  }

  // -------------------------------------------------------- the members

  lemma SourceIsOneOf(packages: seq<Package>, bodies: seq<Bytes>, key: Bytes, e: Source)
    requires |packages| == |bodies| && e in multiset(PackageSources(packages, bodies) + [KeySource(key)])
    ensures e == KeySource(key) ||
            exists k :: 0 <= k < |packages| && e == Source(packages[k].file, |bodies[k]|, Some(bodies[k]))
  {
    var all := PackageSources(packages, bodies) + [KeySource(key)];
    assert e in all;
    var i :| 0 <= i < |all| && all[i] == e;
  }

  lemma MemberNames(name: string)
    requires PlainName(name)
    ensures Encodable(Member("out" + "/" + name, Regular, [])) && "out" + "/" + name == ROOT + name
  {
    var full := "out" + "/" + name;
    assert full[|full|-1] == name[|name|-1];
    assert name[|name|-1] in name;
  }

  lemma SourceIsPlain(c: Codec, packages: seq<Package>, bodies: seq<Bytes>, key: Bytes, e: Source)
    requires Built(c, packages, bodies) && e in multiset(PackageSources(packages, bodies) + [KeySource(key)])
    ensures PlainName(e.name)
  {
    SourceIsOneOf(packages, bodies, key, e);
  }

  lemma MemberEncodable(sorted: seq<Source>, i: nat)
    requires forall j :: 0 <= j < |sorted| ==> Writable(sorted[j]) && PlainName(sorted[j].name)
    requires i < |MembersOf("out", sorted)|
    ensures Encodable(MembersOf("out", sorted)[i])
  {
    if i == 0 {
      assert "out" + "/" == "out/";
    } else {
      MemberNames(sorted[i-1].name);
    }
  }

  lemma MembersEncodable(c: Codec, packages: seq<Package>, bodies: seq<Bytes>, key: Bytes, sorted: seq<Source>)
    requires Built(c, packages, bodies) && IsListOf(sorted, PackageSources(packages, bodies) + [KeySource(key)])
    ensures forall m :: m in MembersOf("out", sorted) ==> Encodable(m)
  {
    var ms := MembersOf("out", sorted);
    forall j | 0 <= j < |sorted| ensures PlainName(sorted[j].name) {
      assert sorted[j] in multiset(sorted);
      SourceIsPlain(c, packages, bodies, key, sorted[j]);
    }
    forall m | m in ms ensures Encodable(m) {
      var i :| 0 <= i < |ms| && ms[i] == m;
      MemberEncodable(sorted, i);
    }
  }

  // --------------------------------------------- what the reader then sees

  lemma KeyMember(e: TarEntry, key: Bytes)
    requires SameMember(e, Member("out" + "/" + KEY_ENTRY, Regular, key))
    ensures KeyEntry(e, key)
  {
    assert "out" + "/" + KEY_ENTRY == ROOT + KEY_ENTRY;
  }

  lemma PackageMember(c: Codec, packages: seq<Package>, bodies: seq<Bytes>, k: nat, e: TarEntry)
    requires Built(c, packages, bodies) && k < |packages|
    requires SameMember(e, Member("out" + "/" + packages[k].file, Regular, bodies[k]))
    ensures PackageEntry(c, e, packages[k])
  {
    assert "out" + "/" + packages[k].file == ROOT + packages[k].file;
  }

  lemma SourceBelongs(c: Codec, packages: seq<Package>, bodies: seq<Bytes>, key: Bytes, e: Source, t: TarEntry)
    requires Built(c, packages, bodies) && e in multiset(PackageSources(packages, bodies) + [KeySource(key)])
    requires e.data.Some? && SameMember(t, Member("out" + "/" + e.name, Regular, e.data.value))
    ensures Belongs(c, packages, key, t)
  {
    SourceIsOneOf(packages, bodies, key, e);
    if e == KeySource(key) {
      KeyMember(t, key);
    } else {
      var k :| 0 <= k < |packages| && e == Source(packages[k].file, |bodies[k]|, Some(bodies[k]));
      PackageMember(c, packages, bodies, k, t);
    }
  }

  lemma SortedBelong(c: Codec, packages: seq<Package>, bodies: seq<Bytes>, key: Bytes, sorted: seq<Source>, d: Decoded,
                     i: nat)
    requires Built(c, packages, bodies) && IsListOf(sorted, PackageSources(packages, bodies) + [KeySource(key)])
    requires Faithful(d, MembersOf("out", sorted)) && i < |d.entries|
    ensures Belongs(c, packages, key, d.entries[i])
  {
    assert SameMember(d.entries[i], MembersOf("out", sorted)[i]);
    if i == 0 {
      RootBelongs(c, packages, key, d.entries[i]);
    } else {
      MemberAt(sorted, i - 1);
      assert sorted[i-1] in multiset(sorted);
      SourceBelongs(c, packages, bodies, key, sorted[i-1], d.entries[i]);
    }
  }

  lemma RootBelongs(c: Codec, packages: seq<Package>, key: Bytes, e: TarEntry)
    requires AllUsable(c, packages) && SameMember(e, Member("out" + "/", Directory, []))
    ensures Belongs(c, packages, key, e)
  {
    assert "out" + "/" == ROOT;
  }

  lemma MemberAt(sorted: seq<Source>, i: nat)
    requires i < |sorted| && forall j :: 0 <= j < |sorted| ==> Writable(sorted[j])
    ensures MembersOf("out", sorted)[i+1] == Member("out" + "/" + sorted[i].name, Regular, sorted[i].data.value)
  {
  }

  lemma SortedAt(sorted: seq<Source>, entries: seq<Source>, e: Source) returns (i: nat)
    requires IsListOf(sorted, entries) && e in entries
    ensures i < |sorted| && sorted[i] == e
  {
    assert e in multiset(entries);
    assert e in multiset(sorted);
    i :| 0 <= i < |sorted| && sorted[i] == e;
  }

  lemma SortedCarries(c: Codec, packages: seq<Package>, bodies: seq<Bytes>, key: Bytes, sorted: seq<Source>, d: Decoded,
                      k: nat)
    requires Built(c, packages, bodies) && IsListOf(sorted, PackageSources(packages, bodies) + [KeySource(key)])
    requires Faithful(d, MembersOf("out", sorted)) && k < |packages|
    ensures Carries(c, d.entries, packages[k])
  {
    var e := Source(packages[k].file, |bodies[k]|, Some(bodies[k]));
    var all := PackageSources(packages, bodies) + [KeySource(key)];
    assert all[k] == e;
    var i := SortedAt(sorted, all, e);
    assert SameMember(d.entries[i+1], MembersOf("out", sorted)[i+1]);
    PackageMember(c, packages, bodies, k, d.entries[i+1]);
  }

  lemma SortedHasKey(packages: seq<Package>, bodies: seq<Bytes>, key: Bytes, sorted: seq<Source>, d: Decoded)
    requires |packages| == |bodies| && IsListOf(sorted, PackageSources(packages, bodies) + [KeySource(key)])
    requires Faithful(d, MembersOf("out", sorted))
    ensures exists i :: 0 <= i < |d.entries| && KeyEntry(d.entries[i], key)
  {
    var all := PackageSources(packages, bodies) + [KeySource(key)];
    assert all[|packages|] == KeySource(key);
    var i := SortedAt(sorted, all, KeySource(key));
    assert SameMember(d.entries[i+1], MembersOf("out", sorted)[i+1]);
    KeyMember(d.entries[i+1], key);
  }

  lemma SortedDiffer(sorted: seq<Source>, d: Decoded)
    requires Ordered(sorted) && (forall i :: 0 <= i < |sorted| ==> Writable(sorted[i]) && sorted[i].name != "")
    requires Faithful(d, MembersOf("out", sorted))
    ensures NamesDiffer(d.entries)
  {
    var ms := MembersOf("out", sorted);
    forall i, j | 0 <= i < j < |ms| ensures d.entries[i].header.name != d.entries[j].header.name {
      assert SameMember(d.entries[i], ms[i]) && SameMember(d.entries[j], ms[j]);
      RootedApart(if i == 0 then "" else sorted[i-1].name, sorted[j-1].name);
      assert "out" + "/" == ROOT && ROOT + "" == ROOT;
      assert i > 0 ==> "out" + "/" + sorted[i-1].name == ROOT + sorted[i-1].name;
      assert "out" + "/" + sorted[j-1].name == ROOT + sorted[j-1].name;
      if i > 0 {
        PrecedesIrreflexive(sorted[i-1].name);
      }
    }
  }

  lemma {:induction false} SumSnoc(sizes: seq<nat>, n: nat)
    ensures Sum(sizes + [n]) == Sum(sizes) + n
  {
    if sizes == [] {
      assert sizes + [n] == [n];
    } else {
      assert (sizes + [n])[1..] == sizes[1..] + [n];
      SumSnoc(sizes[1..], n);
    }
  }

  lemma {:induction false} SameUnpacked(entries: seq<TarEntry>, ms: seq<Member>)
    requires |entries| == |ms| && forall i :: 0 <= i < |ms| ==> SameMember(entries[i], ms[i]) && Encodable(ms[i])
    ensures Unpacked(entries) == Sum(ContentSizes(ms))
    decreases |ms|
  {
    if ms != [] {
      var (e, m) := (entries[..|ms|-1], ms[..|ms|-1]);
      SameUnpacked(e, m);
      assert ContentSizes(ms) == ContentSizes(m) + [|ms[|ms|-1].content|];
      SumSnoc(ContentSizes(m), |ms[|ms|-1].content|);
    }
  }

  /** Its framing never costs a written archive its place: within the other limits, the budget is enough. */
  lemma FramingFitsBudget(d: Decoded, ms: seq<Member>, key: Bytes, l: Limits)
    requires InRange(l) && Positive(l) && WellFormed(d) && Faithful(d, ms) && Fits(ms, key, l)
    ensures d.endAt <= StreamBound(l)
  {
    WithinLimitsFits(NameSizes(ms), ContentSizes(ms), l);
  }

  lemma WithinIffFits(d: Decoded, ms: seq<Member>, key: Bytes, l: Limits)
    requires Faithful(d, ms) && forall m :: m in ms ==> Encodable(m)
    ensures Within(d.entries, key, l) <==> Fits(ms, key, l)
  {
    SameUnpacked(d.entries, ms);
    assert forall i :: 0 <= i < |ms| ==> SameMember(d.entries[i], ms[i]);
  }

  /**
   The round trip.  Given the packages' files and the key in any order, whatever
   WriteTarGz writes holds exactly the manifest's contents, and is admissible if
   and only if it fits the limits on entries, names, content and key.
   */
  lemma WrittenIsAdmissible(c: Codec, packages: seq<Package>, bodies: seq<Bytes>, key: Bytes, given: seq<Source>,
                            ms: seq<Member>, l: Limits)
    requires Lawful(c) && Built(c, packages, bodies) && InRange(l) && Positive(l)
    requires multiset(given) == multiset(PackageSources(packages, bodies) + [KeySource(key)])
    requires Writes("out", given, ms) && Countable(ms)
    ensures c.decode(c.encode(ms)).Decoded? && ExactContents(c, packages, key, c.decode(c.encode(ms)).entries)
    ensures Admissible(c, packages, key, c.decode(c.encode(ms)), l) <==> Fits(ms, key, l)
  {
    var sorted :| IsListOf(sorted, given) && ms == MembersOf("out", sorted);
    var all := PackageSources(packages, bodies) + [KeySource(key)];
    assert IsListOf(sorted, all);
    MembersEncodable(c, packages, bodies, key, sorted);
    var d := c.decode(c.encode(ms));
    assert Faithful(d, ms) && WellFormed(d);
    WrittenContents(c, packages, bodies, key, sorted, d);
    WithinIffFits(d, ms, key, l);
    AdmissibleIsExact(c, packages, key, d, l);
    if Fits(ms, key, l) {
      FramingFitsBudget(d, ms, key, l);
    }
  }

  lemma WrittenContents(c: Codec, packages: seq<Package>, bodies: seq<Bytes>, key: Bytes, sorted: seq<Source>,
                        d: Decoded)
    requires Built(c, packages, bodies) && IsListOf(sorted, PackageSources(packages, bodies) + [KeySource(key)])
    requires Faithful(d, MembersOf("out", sorted))
    ensures AllUsable(c, packages) && ExactContents(c, packages, key, d.entries)
  {
    forall i | 0 <= i < |d.entries| ensures Belongs(c, packages, key, d.entries[i]) {
      SortedBelong(c, packages, bodies, key, sorted, d, i);
    }
    forall k | 0 <= k < |packages| ensures Carries(c, d.entries, packages[k]) {
      SortedCarries(c, packages, bodies, key, sorted, d, k);
    }
    SortedHasKey(packages, bodies, key, sorted, d);
    forall i | 0 <= i < |sorted| ensures sorted[i].name != "" {
      assert sorted[i] in multiset(sorted);
      SourceIsOneOf(packages, bodies, key, sorted[i]);
    }
    SortedDiffer(sorted, d);
  }

  // ---------------------------------------------------- the whole way there

  lemma SourcesDiffer(packages: seq<Package>, bodies: seq<Bytes>, key: Bytes)
    requires |packages| == |bodies| && FilesDiffer(packages)
    ensures var all := PackageSources(packages, bodies) + [KeySource(key)];
      DistinctNames(all) && forall i :: 0 <= i < |all| ==> Writable(all[i])
  {
  }

  /** Of the listed files, the one of a name has that package's bytes. */
  lemma BodyOfName(packages: seq<Package>, bodies: seq<Bytes>, key: Bytes, e: Source, k: nat)
    requires |packages| == |bodies| && FilesDiffer(packages) && k < |packages|
    requires e in multiset(PackageSources(packages, bodies) + [KeySource(key)]) && e.name == packages[k].file
    ensures e.data == Some(bodies[k])
  {
    SourceIsOneOf(packages, bodies, key, e);
  }

  lemma EntryOfName(packages: seq<Package>, bodies: seq<Bytes>, key: Bytes, sorted: seq<Source>, d: Decoded, i: nat,
                    k: nat)
    requires |packages| == |bodies| && FilesDiffer(packages) && k < |packages| && packages[k].file != ""
    requires IsListOf(sorted, PackageSources(packages, bodies) + [KeySource(key)])
    requires Faithful(d, MembersOf("out", sorted)) && i < |d.entries|
      && d.entries[i].header.name == ROOT + packages[k].file
    ensures d.entries[i].body == bodies[k]
  {
    var m := MembersOf("out", sorted)[i];
    assert SameMember(d.entries[i], m);
    assert "out" + "/" == ROOT && ROOT + "" == ROOT;
    if i == 0 {
      RootedApart(packages[k].file, "");
      assert false;
    } else {
      assert m.name == ROOT + sorted[i-1].name;
      RootedApart(packages[k].file, sorted[i-1].name);
      assert sorted[i-1] in multiset(sorted);
      BodyOfName(packages, bodies, key, sorted[i-1], k);
    }
  }

  /** A manifest that names the written archive by its size and digest. */
  function ManifestFor(c: Codec, file: Bytes, packages: seq<Package>): Manifest {
    Manifest(c.sha256(file), |file|, packages)
  }

  /** Every package is checked, in the manifest's order, and its bytes lie in the folder. */
  predicate ComesOut(c: Codec, packages: seq<Package>, bodies: seq<Bytes>, v: Verdict, files: map<string, Bytes>)
    requires |packages| == |bodies|
  {
    && v.Accepted? && |v.checked| == |packages|
    && forall k :: 0 <= k < |packages| ==>
         && v.checked[k] == Checked(packages[k], packages[k].file, c.sha512(bodies[k]))
         && packages[k].file in files && files[packages[k].file] == bodies[k]
  }

  lemma CopiedComesOut(c: Codec, packages: seq<Package>, bodies: seq<Bytes>, key: Bytes, given: seq<Source>,
                       ms: seq<Member>, v: Verdict, files: map<string, Bytes>)
    requires Lawful(c) && Built(c, packages, bodies) && Countable(ms) && Writes("out", given, ms)
    requires multiset(given) == multiset(PackageSources(packages, bodies) + [KeySource(key)])
    requires c.decode(c.encode(ms)).Decoded? && v.Accepted?
    requires AllCopied(c, packages, c.decode(c.encode(ms)).entries, v.checked, files)
    ensures ComesOut(c, packages, bodies, v, files)
  {
    var sorted :| IsListOf(sorted, given) && ms == MembersOf("out", sorted);
    assert IsListOf(sorted, PackageSources(packages, bodies) + [KeySource(key)]);
    MembersEncodable(c, packages, bodies, key, sorted);
    var d := c.decode(c.encode(ms));
    assert Faithful(d, ms);
    forall k | 0 <= k < |packages|
      ensures v.checked[k] == Checked(packages[k], packages[k].file, c.sha512(bodies[k]))
      ensures packages[k].file in files && files[packages[k].file] == bodies[k]
    {
      assert CopiedAs(c, packages[k], d.entries, v.checked[k], files);
      var i :| 0 <= i < |d.entries| && d.entries[i].header.name == ROOT + packages[k].file && packages[k].file in files
               && files[packages[k].file] == d.entries[i].body
               && v.checked[k] == Checked(packages[k], packages[k].file, c.sha512(d.entries[i].body));
      EntryOfName(packages, bodies, key, sorted, d, i, k);
    }
  }

  /**
   The whole way: write the packages' files and the key, in any order, name the
   archive in a manifest by its size and digest, and verify it into an empty
   folder.  An archive within the limits is accepted, each package comes out as
   it went in, in the manifest's order; one beyond them is refused.
   */
  method WriteAndVerify(c: Codec, packages: seq<Package>, bodies: seq<Bytes>, key: Bytes, given: seq<Source>,
                        limits: Limits, dir: Folder)
    returns (ms: seq<Member>, v: Verdict)
    requires Lawful(c) && Built(c, packages, bodies) && InRange(limits) && key != [] && dir.files == map[]
    requires multiset(given) == multiset(PackageSources(packages, bodies) + [KeySource(key)])
    modifies dir
    ensures Writes("out", given, ms)
    ensures Countable(ms) && Fits(ms, key, OrDefault(limits)) ==> ComesOut(c, packages, bodies, v, dir.files)
    ensures Countable(ms) && !Fits(ms, key, OrDefault(limits)) ==> v == Inadmissible
  {
    SourcesDiffer(packages, bodies, key);
    PermutationKeeps(PackageSources(packages, bodies) + [KeySource(key)], given);
    var written := WriteTarGz("out", given);
    ms := written.value;
    var file := c.encode(ms);
    v := Verify(c, file, false, ManifestFor(c, file, packages), Options("", key, true, limits), dir, {});
    if Countable(ms) {
      WrittenIsAdmissible(c, packages, bodies, key, given, ms, OrDefault(limits));
      if v.Accepted? {
        CopiedComesOut(c, packages, bodies, key, given, ms, v, dir.files);
      }
    }
  }
}
