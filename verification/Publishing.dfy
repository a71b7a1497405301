/**
 Publishing verified packages to Nexus: look the version up, upload it when
 Nexus lacks it, read it back.

 Nexus is a map from name@version to bytes whose calls succeed atomically or
 fail; a failed upload may still have arrived.  SHA-512 is taken as free of
 collisions, so equal digests are written as equal bytes.

 Source: internal/importer/publish.go.
 */
module Publishing {
  import opened Wrappers
  import opened Records

  newtype byte = x: int | 0 <= x < 256
  type Bytes = seq<byte>

  const MAX_COPY_SLACK := 0x10_0000
  const REASON_INTERRUPTED := "interrupted"
  const NOTE_SAME_CONTENT := "same content, packed differently"

  datatype PackageKey = PackageKey(name: string, version: string)

  /** One line of a manifest's package list. */
  datatype Entry = Entry(name: string, version: string, file: string) {
    function Key(): PackageKey { PackageKey(name, version) }
  }

  /** What the archive's checks hand on for one entry: its bytes as hashed, and whether the export stripped them. */
  datatype Package = Package(entry: Entry, bytes: Bytes, stripped: bool) {
    function Key(): PackageKey { entry.Key() }
  }

  type Held = map<PackageKey, Bytes>

  /**
   What reading a tarball gives: inspect is npm.InspectTarball's name and
   version (None when it refuses the tarball), same is npm.SameContent (None
   when it cannot compare the two).
   */
  datatype Tarballs = Tarballs(inspect: Bytes -> Option<PackageKey>, same: (Bytes, Bytes) -> Option<bool>)

  /** Nexus holds the package: its very bytes, or for a stripped one the same content packed differently. */
  predicate Holds(t: Tarballs, held: Held, p: Package) {
    && p.Key() in held
    && (held[p.Key()] == p.bytes || (p.stripped && t.same(p.bytes, held[p.Key()]) == Some(true)))
  }

  predicate Names(r: Result, e: Entry) {
    r.name == e.name && r.version == e.version && r.file == e.file
  }

  /**
   Package p ended as r while Nexus went from before to after.  Nothing Nexus
   held changes; a version appears only as the shipped bytes; published,
   present and conflict say what Nexus held before and holds now.  Without
   trust in the working copy (it changed since the checks) a conflict only
   says that Nexus holds the version.
   */
  predicate Settled(t: Tarballs, before: Held, after: Held, p: Package, trusted: bool, r: Result) {
    && Names(r, p.entry)
    && (after == before || (p.Key() !in before && after == before[p.Key() := p.bytes]))
    && r.state != Pending
    && (r.state == Failed <==> r.kind != NoKind)
    && (r.state == Published ==> p.Key() !in before && after == before[p.Key() := p.bytes])
    && (r.state == Present ==> after == before && Holds(t, before, p))
    && (r.kind == KindConflict ==> after == before && p.Key() in before && (trusted ==> !Holds(t, before, p)))
    && (!trusted ==> after == before)
  }

  /** The context of a run: once done it stays done. */
  class Context {
    var done: bool

    constructor ()
    {
      done := false;
    }

    /** Err reports whether the context is done by now. */
    method Err() returns (d: bool)
      modifies this
      ensures d == done && (old(done) ==> done)
    {
      if * {
        done := true;
      }
      d := done;
    }
  }

  datatype Fetched = FetchError | Missing | Found(bytes: Bytes)

  /** What Nexus holds, and how often something was uploaded to it. */
  datatype NexusView = NexusView(held: Held, uploads: nat)

  class Nexus {
    var held: Held
    ghost var uploads: nat    // calls of Upload, successful or not
    ghost var faulted: bool   // some call, or the keeping of what a call brought, has failed
    const tarballs: Tarballs

    constructor (t: Tarballs)
      ensures held == map[] && uploads == 0 && !faulted && tarballs == t
    {
      held, uploads, faulted, tarballs := map[], 0, false, t;
    }

    ghost function View(): NexusView
      reads this
    {
      NexusView(held, uploads)
    }

    method CheckRepository() returns (ok: bool)
      modifies `faulted
      ensures faulted == (old(faulted) || !ok)
    {
      ok := *;
      faulted := faulted || !ok;
    }

    /** Fetch copies the version's tarball; a copy longer than limit bytes is an error. */
    method Fetch(key: PackageKey, limit: nat) returns (f: Fetched)
      modifies `faulted
      ensures f.Missing? ==> key !in held
      ensures f.Found? ==> key in held && f.bytes == held[key]
      ensures f.FetchError? && !faulted ==> key in held && |held[key]| > limit
      ensures f.Found? ==> |held[key]| <= limit
      ensures old(faulted) ==> faulted
    {
      if * {
        faulted, f := true, FetchError;
      } else if key !in held {
        f := Missing;
      } else if |held[key]| > limit {
        f := FetchError;
      } else {
        f := Found(held[key]);
      }
    }

    /** Upload sends a tarball; Nexus files it under the name and version its package.json gives. */
    method Upload(bytes: Bytes) returns (ok: bool)
      modifies this
      ensures uploads == old(uploads) + 1
      ensures !ok && tarballs.inspect(bytes).Some? ==> faulted
      ensures old(faulted) ==> faulted
      ensures ok ==> tarballs.inspect(bytes).Some? && held == old(held)[tarballs.inspect(bytes).value := bytes]
      ensures !ok ==> held == old(held) ||
                      (tarballs.inspect(bytes).Some? && held == old(held)[tarballs.inspect(bytes).value := bytes])
    {
      ok := false;
      uploads := uploads + 1;
      if tarballs.inspect(bytes).Some? {
        if * {
          held := held[tarballs.inspect(bytes).value := bytes];
          ok := *;
        }
        faulted := faulted || !ok;
      }
    }
  }

  function FailedResult(e: Entry, kind: Kind, reason: string): Result {
    Result(e.name, e.version, e.file, Failed, reason, "", kind)
  }

  function InResult(e: Entry, state: State, note: string): Result {
    Result(e.name, e.version, e.file, state, "", note, NoKind)
  }

  /** A failure of the given kind, or an interrupt when the context turns out to be done. */
  method FailedOr(ctx: Context, e: Entry, kind: Kind, reason: string) returns (r: Result)
    modifies ctx
    ensures r == FailedResult(e, kind, reason)
      || (ctx.done && r == FailedResult(e, KindInterrupted, REASON_INTERRUPTED))
    ensures old(ctx.done) ==> ctx.done && r == FailedResult(e, KindInterrupted, REASON_INTERRUPTED)
  {
    var d := ctx.Err();
    r := if d then FailedResult(e, KindInterrupted, REASON_INTERRUPTED) else FailedResult(e, kind, reason);
  }

  /** What fetchDigest reports of the version Nexus holds. */
  datatype Digest = DigestError(kind: Kind) | NotHeld | Holding(bytes: Bytes, same: bool)

  /** The copy Nexus holds is no longer than the limit and, where it is to be compared, can be. */
  predicate Fits(t: Tarballs, held: Held, p: Package, file: Bytes, limit: nat, compare: bool)
    requires p.Key() in held
  {
    |held[p.Key()]| <= limit
      && (compare && p.stripped && held[p.Key()] != p.bytes ==> t.same(file, held[p.Key()]).Some?)
  }

  /**
   fetchDigest: the Nexus copy and, for a stripped package with other bytes,
   whether it has the same content.  compare is false on the read back.
   */
  method FetchDigest(nexus: Nexus, p: Package, file: Bytes, limit: nat, compare: bool) returns (d: Digest)
    modifies nexus`faulted
    ensures d.DigestError? ==> d.kind == KindNexus || d.kind == KindLocal
    ensures d.NotHeld? ==> p.Key() !in nexus.held
    ensures d.Holding? ==> p.Key() in nexus.held && d.bytes == nexus.held[p.Key()]
    ensures d.Holding? && d.bytes != p.bytes ==>
      (d.same <==> compare && p.stripped && file == p.bytes && nexus.tarballs.same(file, d.bytes) == Some(true))
    ensures old(nexus.faulted) ==> nexus.faulted
    ensures !nexus.faulted ==>
      (d.DigestError? <==> p.Key() in nexus.held && !Fits(nexus.tarballs, nexus.held, p, file, limit, compare))
    ensures !nexus.faulted && d.DigestError? ==> d.kind == KindNexus
  {
    if * {
      nexus.faulted := true;
      return DigestError(KindLocal);
    }
    var f := nexus.Fetch(p.Key(), limit);
    match f
    case FetchError => d := DigestError(KindNexus);
    case Missing => d := NotHeld;
    case Found(bytes) =>
      if * {
        nexus.faulted := true;
        d := DigestError(KindLocal);
      } else if !compare || !p.stripped || bytes == p.bytes {
        d := Holding(bytes, false);
      } else {
        var same := nexus.tarballs.same(file, bytes);
        if same.None? {
          d := DigestError(KindNexus);
        } else {
          d := Holding(bytes, same.value && file == p.bytes);
        }
      }
  }

  /** The working copy still holds the bytes the checks hashed, or cannot be read at all. */
  predicate Trusted(p: Package, file: Option<Bytes>) {
    file.None? || file == Some(p.bytes)
  }

  /** The package's file is at hand, as hashed, and its package.json names what the manifest names. */
  predicate InOrder(t: Tarballs, p: Package, file: Option<Bytes>) {
    file == Some(p.bytes) && t.inspect(p.bytes) == Some(p.Key())
  }

  /** What Nexus holds of the package can be judged: the very bytes, or a copy not too long that compares. */
  predicate Judgeable(t: Tarballs, held: Held, p: Package)
    requires p.Key() in held
  {
    || held[p.Key()] == p.bytes
    || (|held[p.Key()]| <= 2 * |p.bytes| + MAX_COPY_SLACK && (p.stripped ==> t.same(p.bytes, held[p.Key()]).Some?))
  }

  /**
   The one right verdict on a package in order, given what Nexus held when
   nothing failed: published when it was not held; present when it was held as
   it is, or stripped with the same content packed differently, which the note
   then says; a conflict when it was held with other content; and a failure of
   Nexus when its copy cannot be judged.
   */
  predicate RightVerdict(t: Tarballs, held: Held, p: Package, r: Result, note: string) {
    var k := p.Key();
    && (r.state == Published <==> k !in held)
    && (r.state == Present <==> k in held && Judgeable(t, held, p) && Holds(t, held, p))
    && (r.kind == KindConflict <==> k in held && Judgeable(t, held, p) && !Holds(t, held, p))
    && (r.kind == KindNexus <==> k in held && !Judgeable(t, held, p))
    && (r.state == Published || (r.state == Present && held[k] == p.bytes) ==> r.note == note)
    && (r.state == Present && held[k] != p.bytes ==> r.note == "same content, packed differently")
  }

  /** What was hashed last is what is sent. */
  predicate Steady(p: Package, file: Option<Bytes>, sent: Bytes) {
    file == Some(p.bytes) ==> sent == p.bytes
  }

  /**
   publishOne.  file is what the working copy holds until it is hashed again, or
   None when it cannot be opened: it may have changed since the checks.  sent is
   what it holds when it is uploaded.  Should it change in between, what reaches
   Nexus is what was sent, and still only the package's own bytes, read back,
   make it published.
   */
  method PublishOne(ctx: Context, nexus: Nexus, p: Package, file: Option<Bytes>, sent: Bytes) returns (r: Result)
    modifies ctx, nexus
    ensures old(ctx.done) ==> ctx.done
    ensures r.kind == KindInterrupted ==> ctx.done
    ensures Steady(p, file, sent) ==>
      Settled(nexus.tarballs, old(nexus.held), nexus.held, p, Trusted(p, file), r)
    ensures old(nexus.faulted) ==> nexus.faulted
    ensures InOrder(nexus.tarballs, p, file) && Steady(p, file, sent) && !nexus.faulted && !ctx.done ==>
      RightVerdict(nexus.tarballs, old(nexus.held), p, r, "")
    ensures file.None? ==> r.kind == KindLocal
    ensures r.kind == KindMismatch <==> file.Some? && nexus.tarballs.inspect(file.value) != Some(p.Key())
    ensures !nexus.faulted && p.Key() !in nexus.held && file.Some? && file.value != p.bytes ==>
      r.kind == KindMismatch || r.kind == KindLocal
    ensures r.state == Published ==> p.Key() in nexus.held && nexus.held[p.Key()] == p.bytes
    ensures r.state == Present ==> nexus.held == old(nexus.held) && Holds(nexus.tarballs, nexus.held, p)
    ensures nexus.held == old(nexus.held) ||
            (file == Some(p.bytes) && p.Key() !in old(nexus.held) && nexus.tarballs.inspect(sent).Some?
             && nexus.held == old(nexus.held)[nexus.tarballs.inspect(sent).value := sent])
    ensures nexus.uploads == old(nexus.uploads) ||
            (nexus.uploads == old(nexus.uploads) + 1 && p.Key() !in old(nexus.held) && file == Some(p.bytes))
  {
    if file.None? {
      return FailedResult(p.entry, KindLocal, "cannot open the checked file");
    }
    var limit := 2 * |file.value| + MAX_COPY_SLACK;
    if nexus.tarballs.inspect(file.value) != Some(p.Key()) {
      return FailedResult(p.entry, KindMismatch, "the tarball is not the package the manifest names");
    }
    var d := FetchDigest(nexus, p, file.value, limit, true);
    if d.DigestError? {
      r := FailedOr(ctx, p.entry, d.kind, "cannot read nexus");
      return;
    }
    if d.Holding? {
      if d.bytes == p.bytes {
        return InResult(p.entry, Present, "");
      }
      if d.same {
        return InResult(p.entry, Present, NOTE_SAME_CONTENT);
      }
      return FailedResult(p.entry, KindConflict, "nexus holds this version with other bytes");
    }
    if file.value != p.bytes {
      return FailedResult(p.entry, KindLocal, "the file changed after the checks");
    }
    r := UploadAndReadBack(ctx, nexus, p, sent);
  }

  /** The second half, for a version Nexus does not hold: send it, and believe only what can be read back. */
  method UploadAndReadBack(ctx: Context, nexus: Nexus, p: Package, sent: Bytes) returns (r: Result)
    requires p.Key() !in nexus.held && nexus.tarballs.inspect(p.bytes) == Some(p.Key())
    modifies ctx, nexus
    ensures old(ctx.done) ==> ctx.done
    ensures old(nexus.faulted) ==> nexus.faulted
    ensures Names(r, p.entry) && r.state != Pending && r.state != Present && r.kind != KindConflict
    ensures r.kind != KindMismatch && (r.state == Failed <==> r.kind != NoKind)
    ensures r.kind == KindInterrupted ==> ctx.done
    ensures r.state == Published ==> r.note == "" && p.Key() in nexus.held && nexus.held[p.Key()] == p.bytes
    ensures sent == p.bytes && !nexus.faulted ==> r.state == Published
    ensures nexus.held == old(nexus.held) ||
            (nexus.tarballs.inspect(sent).Some?
             && nexus.held == old(nexus.held)[nexus.tarballs.inspect(sent).value := sent])
    ensures nexus.uploads == old(nexus.uploads) + 1
  {
    var uploaded := nexus.Upload(sent);
    if !uploaded {
      r := FailedOr(ctx, p.entry, KindNexus, "upload failed");
      return;
    }
    var d := FetchDigest(nexus, p, p.bytes, 2 * |p.bytes| + MAX_COPY_SLACK, false);
    match d
    case DigestError(kind) => r := FailedOr(ctx, p.entry, kind, "read back failed");
    case NotHeld => r := FailedResult(p.entry, KindNexus, "nexus accepted the upload but does not serve the version");
    case Holding(bytes, _) =>
      r := if bytes != p.bytes
           then FailedResult(p.entry, KindNexus, "nexus serves other bytes after the upload")
           else InResult(p.entry, Published, "");
  }

  /** Nexus only grew: every version it held keeps its bytes. */
  predicate Grows(before: Held, after: Held) {
    forall k :: k in before ==> k in after && after[k] == before[k]
  }

  /** Growth keeps what Nexus holds, and keeps what it does not hold for a version it has. */
  lemma GrowthKeepsVerdicts(t: Tarballs, before: Held, after: Held, p: Package)
    requires Grows(before, after)
    ensures Holds(t, before, p) ==> Holds(t, after, p)
    ensures p.Key() in before ==> (Holds(t, after, p) <==> Holds(t, before, p))
  {
  }

  lemma SettledGrows(t: Tarballs, before: Held, after: Held, p: Package, trusted: bool, r: Result)
    requires Settled(t, before, after, p, trusted, r)
    ensures Grows(before, after)
    ensures IsIn(r) ==> Holds(t, after, p)
    ensures trusted && r.kind == KindConflict ==> p.Key() in after && !Holds(t, after, p)
  {
  }

  /**
   Two tries at the same package, any growth of Nexus between them: one that
   ended published or present is never followed by a conflict, and one that
   ended in conflict is never followed by published or present.
   */
  lemma VerdictsNeverFlip(t: Tarballs, b1: Held, a1: Held, b2: Held, a2: Held, p: Package, r1: Result, r2: Result)
    requires Settled(t, b1, a1, p, true, r1) && Grows(a1, b2) && Settled(t, b2, a2, p, true, r2)
    ensures IsIn(r1) ==> r2.kind != KindConflict && r2.state != Published && b2 == a2
    ensures r1.kind == KindConflict ==> !IsIn(r2)
  {
    SettledGrows(t, b1, a1, p, true, r1);
    GrowthKeepsVerdicts(t, a1, b2, p);
  }
}
