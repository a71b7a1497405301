/**
 The package list of a manifest: what the checks let through, and why the
 verifier can rely on it.

 Source: archive/manifest.go.
 */
module ArchiveManifest {
  import opened Wrappers
  import opened ArchiveWriter
  import opened ArchiveVerifier

  const MAX_FILE_NAME := 255
  const MAX_VERSION := 256
  const MAX_INTEGRITY := 4096

  /** A package as the JSON has it; stripped may be absent. */
  datatype RawPackage = RawPackage(name: string, version: string, file: string, originalIntegrity: string,
                                   shippedSha512: string, stripped: Option<bool>)

  /** The name, version, hex and integrity rules. */
  datatype Rules = Rules(validName: string -> bool, exactVersion: string -> bool, hex512: string -> bool,
                         integrity: string -> bool)

  predicate Word(ch: char) {
    'A' <= ch <= 'Z' || 'a' <= ch <= 'z' || '0' <= ch <= '9' || ch == '_'
  }

  /** The packageFile pattern: a word character, then word characters, dots and ~+-, ending in .tgz. */
  predicate PackageFile(file: string) {
    && |file| >= 5 && file[|file|-4..] == ".tgz" && Word(file[0])
    && forall i :: 1 <= i < |file| - 4 ==> Word(file[i]) || file[i] in {'.', '~', '+', '-'}
  }

  predicate PackagePasses(r: Rules, p: RawPackage) {
    && p.name != "" && p.version != "" && p.file != "" && p.originalIntegrity != "" && p.shippedSha512 != ""
    && p.stripped.Some?
    && |p.file| <= MAX_FILE_NAME && PackageFile(p.file)
    && r.validName(p.name) && |p.version| <= MAX_VERSION && |p.originalIntegrity| <= MAX_INTEGRITY
    && r.exactVersion(p.version) && r.hex512(p.shippedSha512) && r.integrity(p.originalIntegrity)
  }

  function Listed(p: RawPackage): Package
    requires p.stripped.Some?
  {
    Package(p.name, p.version, p.file, p.originalIntegrity, p.shippedSha512, p.stripped.value)
  }

  function VersionId(p: RawPackage): string {
    p.name + "@" + p.version
  }

  /** No two packages share a file name, nor a name@version. */
  predicate Distinct(raw: seq<RawPackage>) {
    forall i, j :: 0 <= i < j < |raw| ==> raw[i].file != raw[j].file && VersionId(raw[i]) != VersionId(raw[j])
  }

  predicate AllPass(r: Rules, raw: seq<RawPackage>) {
    forall i :: 0 <= i < |raw| ==> PackagePasses(r, raw[i])
  }

  /** checkPackage: one field after another; None is a refusal. */
  method CheckPackage(r: Rules, p: RawPackage) returns (q: Option<Package>)
    ensures q.Some? <==> PackagePasses(r, p)
    ensures q.Some? ==> p.stripped.Some? && q.value == Listed(p)
  {
    if p.name == "" || p.version == "" || p.file == "" || p.originalIntegrity == "" || p.shippedSha512 == "" {
      return None;
    }
    if p.stripped == None {
      return None;
    }
    if |p.file| > MAX_FILE_NAME || !PackageFile(p.file) {
      return None;
    }
    if !r.validName(p.name) {
      return None;
    }
    if |p.version| > MAX_VERSION {
      return None;
    }
    if |p.originalIntegrity| > MAX_INTEGRITY {
      return None;
    }
    if !r.exactVersion(p.version) || !r.hex512(p.shippedSha512) || !r.integrity(p.originalIntegrity) {
      return None;
    }
    return Some(Listed(p));
  }

  /** What every accepted package has: each field there, within its bound, and by its rule. */
  predicate WellMade(r: Rules, p: Package) {
    && 0 < |p.name| && 0 < |p.version| <= 256 && 5 <= |p.file| <= 255 && 0 < |p.originalIntegrity| <= 4096
    && r.validName(p.name) && r.exactVersion(p.version) && r.hex512(p.shippedSha512) && r.integrity(p.originalIntegrity)
    && p.file[|p.file|-4..] == ".tgz" && p.file[0] !in {'.', '/', '~', '+', '-'} && '/' !in p.file
  }

  lemma PassesIsWellMade(r: Rules, p: RawPackage)
    requires PackagePasses(r, p)
    ensures WellMade(r, Listed(p))
  {
    PackageFileIsPlain(p.file);
  }

  /** The loop of checkManifest: None is a refusal. */
  method CheckPackages(r: Rules, raw: seq<RawPackage>) returns (packages: Option<seq<Package>>)
    ensures packages.Some? <==> raw != [] && AllPass(r, raw) && Distinct(raw)
    ensures packages.Some? ==> |packages.value| == |raw|
    ensures packages.Some? ==> forall i :: 0 <= i < |raw| ==>
      raw[i].stripped.Some? && packages.value[i] == Listed(raw[i])
    ensures packages.Some? ==> forall i :: 0 <= i < |raw| ==> WellMade(r, packages.value[i])
    ensures packages.Some? ==> forall i, j :: 0 <= i < j < |raw| ==>
      packages.value[i].file != packages.value[j].file
      && (packages.value[i].name != packages.value[j].name || packages.value[i].version != packages.value[j].version)
  {
    if raw == [] {
      return None;
    }
    var files, versions: set<string> := {}, {};
    var listed: seq<Package> := [];
    for i := 0 to |raw|
      invariant AllPass(r, raw[..i]) && Distinct(raw[..i])
      invariant files == set p | p in raw[..i] :: p.file
      invariant versions == set p | p in raw[..i] :: VersionId(p)
      invariant |listed| == i && (forall j :: 0 <= j < i ==> WellMade(r, listed[j])) && forall j :: 0 <= j < i ==>
        raw[j].stripped.Some? && listed[j] == Listed(raw[j])
    {
      assert raw[..i+1] == raw[..i] + [raw[i]];
      var checked := CheckPackage(r, raw[i]);
      if checked == None {
        return None;
      }
      PassesIsWellMade(r, raw[i]);
      if raw[i].file in files || VersionId(raw[i]) in versions {
        RepeatFound(raw, i);
        return None;
      }
      NewDistinct(raw, i);
      files, versions := files + {raw[i].file}, versions + {VersionId(raw[i])};
      listed := listed + [checked.value];
    }
    assert raw[..|raw|] == raw;
    return Some(listed);
  }

  lemma RepeatFound(raw: seq<RawPackage>, i: nat)
    requires i < |raw|
    requires exists p :: p in raw[..i] && (p.file == raw[i].file || VersionId(p) == VersionId(raw[i]))
    ensures !Distinct(raw)
  {
    var p :| p in raw[..i] && (p.file == raw[i].file || VersionId(p) == VersionId(raw[i]));
    var j :| 0 <= j < i && raw[j] == p;
  }

  lemma NewDistinct(raw: seq<RawPackage>, i: nat)
    requires i < |raw| && Distinct(raw[..i])
    requires forall p :: p in raw[..i] ==> p.file != raw[i].file && VersionId(p) != VersionId(raw[i])
    ensures Distinct(raw[..i+1])
  {
    forall a, b | 0 <= a < b < i + 1 ensures raw[a].file != raw[b].file && VersionId(raw[a]) != VersionId(raw[b]) {
      assert raw[..i][a] == raw[a];
      if b < i {
        assert raw[..i][b] == raw[b];
      } else {
        assert raw[a] in raw[..i];
      }
    }
  }

  lemma PackageFileIsPlain(file: string)
    requires PackageFile(file)
    ensures PlainName(file) && file != KEY_ENTRY
  {
    assert file[|file|-1] == ".tgz"[3];
    forall i | 0 <= i < |file| ensures file[i] != '/' {
      if i >= |file| - 4 {
        assert file[i] == ".tgz"[i - (|file| - 4)];
      }
    }
  }

  /**
   What scan relies on: in a list the manifest check accepts every file name is
   a plain one, no two are the same, none is the key's, and every digest can be
   read by a codec that reads what the rules let through.
   */
  lemma CheckedListIsSound(r: Rules, raw: seq<RawPackage>, packages: seq<Package>, c: Codec)
    requires AllPass(r, raw) && Distinct(raw) && |packages| == |raw|
    requires forall i :: 0 <= i < |raw| ==> raw[i].stripped.Some? && packages[i] == Listed(raw[i])
    requires forall s :: r.hex512(s) ==> c.unhex(s).Some?
    requires forall s :: r.integrity(s) ==> c.integrity(s).Some?
    ensures FilesDiffer(packages) && AllUsable(c, packages) && forall k :: 0 <= k < |packages| ==>
      PlainName(packages[k].file)
  {
    forall k | 0 <= k < |packages|
      ensures PlainName(packages[k].file) && packages[k].file != KEY_ENTRY && Usable(c, packages[k])
    {
      assert PackagePasses(r, raw[k]);
      PackageFileIsPlain(raw[k].file);
    }
    forall k, j | 0 <= k < j < |packages| ensures packages[k].file != packages[j].file {
      assert raw[k].file != raw[j].file;
    }
  }
}
