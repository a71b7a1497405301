/**
 The import queue's worker and the service's run function around it: head both
 objects, run the attempt, store its end, and only then delete the archive.

 This is the sequential account of one popped attempt; Protocol covers every
 interleaving with the handlers and every crash.

 Sources: internal/store/imports/queue.go, internal/importer/service/imports.go
 and removal.go.
 */
module ImportQueue {
  import opened Wrappers
  import opened Records
  import opened RecordStore
  import opened Publishing
  import opened Attempts

  /** An object's place: the user's bucket and the key in it. */
  datatype Place = Place(user: string, key: string)

  datatype Head = HeadFailed | NotFound | Headed(etag: string)

  type Objects = map<Place, string>

  /** MinIO: each object by its ETag.  A call may fail, and a failed delete may have taken effect. */
  class MinIO {
    var objects: Objects
    ghost var faulted: bool                  // some call has failed
    ghost var deletes: seq<(Place, bool)>    // every delete asked for, and whether it said it worked

    constructor ()
    {
      objects, faulted, deletes := map[], false, [];
    }

    method HeadObject(p: Place) returns (h: Head)
      modifies `faulted
      ensures h.Headed? ==> p in objects && objects[p] == h.etag
      ensures h.NotFound? ==> p !in objects
      ensures faulted == (old(faulted) || h.HeadFailed?)
    {
      if * {
        faulted, h := true, HeadFailed;
      } else {
        h := if p in objects then Headed(objects[p]) else NotFound;
      }
    }

    method Delete(p: Place) returns (ok: bool)
      modifies this
      ensures objects == old(objects) || objects == old(objects) - {p}
      ensures ok ==> objects == old(objects) - {p}
      ensures faulted == (old(faulted) || !ok) && deletes == old(deletes) + [(p, ok)]
    {
      ok := false;
      if * {
        objects := objects - {p};
        ok := *;
      }
      faulted, deletes := faulted || !ok, deletes + [(p, ok)];
    }
  }

  function ArchivePlace(user: string, imp: Import): Place { Place(user, imp.archive.key) }

  function ManifestPlace(user: string, imp: Import): Place { Place(user, imp.manifest.key) }

  /** Both objects carry the ETags the import recorded. */
  predicate Unchanged(objects: Objects, user: string, imp: Import) {
    Carries(objects, ArchivePlace(user, imp), imp.archive) && Carries(objects, ManifestPlace(user, imp), imp.manifest)
  }

  /** The object at this place carries the ETag the import recorded. */
  predicate Carries(objects: Objects, at: Place, o: Object) {
    at in objects && objects[at] == o.etag
  }

  /** Another object lies there. */
  predicate Replaced(objects: Objects, at: Place, o: Object) {
    at in objects && objects[at] != o.etag
  }

  /** A report with no package in it, of a run that got no further than this. */
  function Stopped(outcome: Outcome, reason: string): Report {
    Report(outcome, reason, NO_COUNTS, [], Some(false))
  }

  /** The two lookups before a run: none when both ETags are as recorded, and else the report to end with. */
  method CheckUnchanged(minio: MinIO, user: string, imp: Import) returns (stop: Option<Report>)
    modifies minio`faulted
    ensures old(minio.faulted) ==> minio.faulted
    ensures stop.None? ==> Unchanged(minio.objects, user, imp)
    ensures !minio.faulted ==> (stop.None? <==> Unchanged(minio.objects, user, imp))
    ensures !minio.faulted && stop.Some? ==>
      (stop.value.outcome == Refused <==>
         || Replaced(minio.objects, ArchivePlace(user, imp), imp.archive)
         || (Carries(minio.objects, ArchivePlace(user, imp), imp.archive)
             && Replaced(minio.objects, ManifestPlace(user, imp), imp.manifest)))
    ensures stop.Some? ==> exists why :: stop.value == Stopped(Refused, why) || stop.value == Stopped(Incomplete, why)
  {
    var checks := [("the archive", imp.archive), ("the manifest", imp.manifest)];
    for i := 0 to 2
      invariant i >= 1 ==>
        ArchivePlace(user, imp) in minio.objects && minio.objects[ArchivePlace(user, imp)] == imp.archive.etag
      invariant i >= 2 ==> Unchanged(minio.objects, user, imp)
      invariant old(minio.faulted) ==> minio.faulted
    {
      var (what, obj) := checks[i];
      var h := minio.HeadObject(Place(user, obj.key));
      match h
      case Headed(etag) =>
        if etag != obj.etag {
          return Some(Stopped(Refused, what + " changed in MinIO; start a new import"));
        }
      case NotFound => return Some(Stopped(Incomplete, "could not check " + what + " in MinIO: it is no longer there"));
      case HeadFailed => return Some(Stopped(Incomplete, "could not check " + what + " in MinIO"));
    }
    return None;
  }

  /** everyPackageIn, one pass over the report. */
  method CheckEveryPackageIn(rep: Report) returns (all: bool)
    ensures all == EveryPackageIn(rep)
  {
    if rep.outcome != Complete || rep.counts.failed != 0 {
      return false;
    }
    for i := 0 to |rep.packages|
      invariant forall j :: 0 <= j < i ==> IsIn(rep.packages[j])
    {
      if rep.packages[i].state != Published && rep.packages[i].state != Present {
        return false;
      }
    }
    return true;
  }

  /** What was deleted, and the removal that says so. */
  predicate Removing(before: seq<(Place, bool)>, after: seq<(Place, bool)>, user: string, imp: Import, rem: Removal) {
    var (archive, manifest) := (ArchivePlace(user, imp), ManifestPlace(user, imp));
    || (after == before && !rem.removed)
    || (after == before + [(archive, false)] && rem == Removal(false, "could not remove the archive"))
    || (after == before + [(archive, true), (manifest, true)] && rem == Removal(true, ""))
    || (after == before + [(archive, true), (manifest, false)]
        && rem == Removal(true, "the archive was removed, but the manifest could not be and stays in the folder"))
  }

  /**
   remove: two lookups and, if both find what was recorded, two deletions, the archive's first.
   Nothing is deleted unless both still carried their recorded ETags.
   */
  method Remove(minio: MinIO, user: string, imp: Import) returns (rem: Removal)
    modifies minio
    ensures minio.objects != old(minio.objects) ==> Unchanged(old(minio.objects), user, imp)
    ensures || minio.objects == old(minio.objects)
            || minio.objects == old(minio.objects) - {ArchivePlace(user, imp)}
            || minio.objects == old(minio.objects) - {ArchivePlace(user, imp)} - {ManifestPlace(user, imp)}
    ensures rem.removed ==> Unchanged(old(minio.objects), user, imp) && ArchivePlace(user, imp) !in minio.objects
    ensures ManifestPlace(user, imp) in old(minio.objects) && ManifestPlace(user, imp) !in minio.objects
            ==> ArchivePlace(user, imp) !in minio.objects
    ensures minio.objects != old(minio.objects) ==>
      && Place(user, imp.archive.key) in old(minio.objects) && Place(user, imp.manifest.key) in old(minio.objects)
      && old(minio.objects)[Place(user, imp.archive.key)] == imp.archive.etag
      && old(minio.objects)[Place(user, imp.manifest.key)] == imp.manifest.etag
    ensures old(minio.faulted) ==> minio.faulted
    ensures Removing(old(minio.deletes), minio.deletes, user, imp, rem)
    ensures !minio.faulted && Unchanged(old(minio.objects), user, imp) ==>
      rem == Removal(true, "") && ArchivePlace(user, imp) !in minio.objects
        && ManifestPlace(user, imp) !in minio.objects
    ensures !minio.faulted && !Unchanged(old(minio.objects), user, imp) ==> minio.deletes == old(minio.deletes)
  {
    var stop := CheckUnchanged(minio, user, imp);
    if stop.Some? {
      return Removal(false, "nothing was removed");
    }
    var ok := minio.Delete(ArchivePlace(user, imp));
    if !ok {
      return Removal(false, "could not remove the archive");
    }
    ok := minio.Delete(ManifestPlace(user, imp));
    rem := if ok then Removal(true, "")
           else Removal(true, "the archive was removed, but the manifest could not be and stays in the folder");
  }

  /** The import's packages are all in Nexus. */
  predicate AllHeld(t: Tarballs, held: Held, pkgs: seq<Package>) {
    forall i :: 0 <= i < |pkgs| ==> Holds(t, held, pkgs[i])
  }

  lemma {:induction false} StepsGrow(t: Tarballs, steps: seq<NexusView>, pkgs: seq<Package>, files: seq<Option<Bytes>>,
                                     results: seq<Result>, i: nat)
    requires |files| == |pkgs| && SettledInTurn(t, steps, pkgs, files, results) && i <= |results|
    ensures Grows(steps[i].held, steps[|results|].held)
    decreases |results| - i
  {
    if i < |results| {
      SettledGrows(t, steps[i].held, steps[i+1].held, pkgs[i], Trusted(pkgs[i], files[i]), results[i]);
      StepsGrow(t, steps, pkgs, files, results, i + 1);
    }
  }

  lemma AllInMeansAllHeld(t: Tarballs, steps: seq<NexusView>, pkgs: seq<Package>, files: seq<Option<Bytes>>,
                          results: seq<Result>)
    requires |files| == |pkgs| == |results| && SettledInTurn(t, steps, pkgs, files, results) && AllIn(results)
    ensures AllHeld(t, steps[|results|].held, pkgs)
  {
    forall i | 0 <= i < |pkgs| ensures Holds(t, steps[|results|].held, pkgs[i]) {
      SettledGrows(t, steps[i].held, steps[i+1].held, pkgs[i], Trusted(pkgs[i], files[i]), results[i]);
      StepsGrow(t, steps, pkgs, files, results, i + 1);
      GrowthKeepsVerdicts(t, steps[i+1].held, steps[|results|].held, pkgs[i]);
    }
  }

  /** What RunAttempt hands the queue: a final report, and whether the archive may be removed. */
  predicate Returned(t: Tarballs, before: Held, after: Held, src: Source, rep: Report, remove: bool) {
    && Grows(before, after)
    && Allowed(Finish(1, rep))
    && (remove <==> EveryPackageIn(rep))
    && (remove ==> PassedChecks(src) && Answers(rep.packages, Entries(src)) && AllHeld(t, after, src.archive.value))
  }

  /** The service's RunAttempt. */
  method ServiceRun(store: Store, k: ImportKey, n: nat, ctx: Context, nexus: Nexus, minio: MinIO, imp: Import,
                    src: Source)
    returns (rep: Report, remove: bool, ghost noDir: bool)
    requires ValidSource(src)
    requires !store.faulted ==> StillRunning(store.records, k, n)
    modifies store, ctx, nexus, minio`faulted
    ensures (old(nexus.faulted) ==> nexus.faulted) && (old(minio.faulted) ==> minio.faulted)
    ensures !minio.faulted && !Unchanged(minio.objects, k.user, imp) ==> rep.packages == [] && !remove
    ensures Unchanged(minio.objects, k.user, imp) && !minio.faulted && !noDir && !nexus.faulted && !ctx.done
            && ReadyToPublish(nexus.tarballs, src) ==>
      && (remove <==> AllWelcome(nexus.tarballs, old(nexus.held), src.archive.value))
      && (!remove ==> rep.outcome == Incomplete)
    ensures noDir ==> rep.outcome == Refused && rep.packages == [] && !remove
    ensures Kept(old(ViewOf(store)), ViewOf(store), k, n)
    ensures old(ctx.done) ==> ctx.done
    ensures Returned(nexus.tarballs, old(nexus.held), nexus.held, src, rep, remove)
    ensures remove ==> Unchanged(minio.objects, k.user, imp)
  {
    KeptRefl(ViewOf(store), k, n);
    var stop := CheckUnchanged(minio, k.user, imp);
    noDir := false;
    if stop.Some? {
      return stop.value, false, false;
    }
    if * {
      return Stopped(Refused, "could not check the archive: no working directory"), false, true;
    }
    ghost var steps: seq<NexusView>;
    rep, steps := RunAttempt(store, k, n, ctx, nexus, src);
    remove := CheckEveryPackageIn(rep);
    if PassedChecks(src) {
      StepsGrow(nexus.tarballs, steps, src.archive.value, src.files, rep.packages, 0);
      if remove {
        AllInMeansAllHeld(nexus.tarballs, steps, src.archive.value, src.files, rep.packages);
      }
    }
  }

  /** Attempt n of k is stored as ended with report rep. */
  predicate EndedAs(records: map<ImportKey, Import>, k: ImportKey, n: nat, rep: Report) {
    && k in records && 1 <= n <= |records[k].attempts|
    && var a := records[k].attempts[n-1];
       a.n == n && a.status == Ended && a.outcome == rep.outcome && a.report == rep
  }

  lemma FinishedEndsAs(imp: Import, n: nat, rep: Report)
    requires Sound(imp) && FinishImport(imp, n, rep, None).Accepted?
    ensures var out := FinishImport(imp, n, rep, None).imp;
      && n == |out.attempts| && Latest(out).n == n && Latest(out).status == Ended
      && Latest(out).outcome == rep.outcome && Latest(out).report == rep && Latest(out).removal.None?
  {
  }

  lemma BreakEnds(imp: Import, why: string)
    requires Sound(imp)
    ensures Apply(imp, Break(why)) == Accepted(EndUnfinished(imp, Incomplete, why, "not reached"))
    ensures Latest(EndUnfinished(imp, Incomplete, why, "not reached")).status == Ended
  {
  }

  /** A complete attempt without a removal gains the one it is given. */
  lemma RemovalIsStored(imp: Import, n: nat, rem: Removal)
    requires Sound(imp) && 1 <= n <= |imp.attempts| && imp.attempts[n-1].status == Ended
    requires imp.attempts[n-1].outcome == Complete && imp.attempts[n-1].removal.None?
    ensures var up := RemovedImport(imp, n, rem);
      up.Accepted? && |up.imp.attempts| == |imp.attempts| && up.imp.attempts[n-1].removal == Some(rem)
  {
    assert imp.attempts[n-1].n == n;
  }

  lemma OnlyAtKeepsEnd(before: map<ImportKey, Import>, after: map<ImportKey, Import>, k: ImportKey, n: nat, rep: Report)
    requires OnlyAt(before, after, k) && k in before && Sound(before[k]) && EndedAs(before, k, n, rep)
    ensures EndedAs(after, k, n, rep)
  {
    assert AttemptEvolves(before[k].attempts[n-1], after[k].attempts[n-1]);
  }

  lemma StoredKeepsLength(before: map<ImportKey, Import>, after: map<ImportKey, Import>, k: ImportKey, n: nat,
                          rem: Removal, ok: bool)
    requires k in before && Stored(before, after, k, Changed(before, k, Removed(n, rem)), ok)
    ensures k in after && |after[k].attempts| == |before[k].attempts|
  {
  }

  class Queue {
    const store: Store
    const nexus: Nexus
    const minio: MinIO
    const ctx: Context
    var items: seq<ImportKey>

    constructor (store: Store, nexus: Nexus, minio: MinIO, ctx: Context)
      ensures items == []
    {
      this.store, this.nexus, this.minio, this.ctx := store, nexus, minio, ctx;
      items := [];
    }

    /** One more item at the end, or false and no change once the context is done. */
    method Submit(k: ImportKey) returns (open: bool)
      modifies `items, ctx
      ensures items == if open then old(items) + [k] else old(items)
      ensures old(ctx.done) ==> ctx.done && !open
    {
      var closed := ctx.Err();
      open := !closed;
      if open {
        items := items + [k];
      }
    }

    /** next: the first item queued, or none once the queue is closed (or, here, nothing waits). */
    method Next() returns (k: Option<ImportKey>)
      modifies `items, ctx
      ensures k.Some? ==> old(items) == [k.value] + items
      ensures k.None? ==> items == old(items) && (ctx.done || items == [])
      ensures old(ctx.done) ==> ctx.done && k.None?
    {
      var closed := ctx.Err();
      if closed || items == [] {
        return None;
      }
      k := Some(items[0]);
      items := items[1..];
    }

    /** Whatever the latest attempt of k is, it has ended afterwards, unless a store operation failed. */
    method AbandonItem(k: ImportKey, why: string)
      requires k in store.records ==> Sound(store.records[k])
      modifies store
      ensures OnlyAt(old(store.records), store.records, k)
      ensures old(store.faulted) ==> store.faulted
      ensures !store.faulted && k in store.records ==> Latest(store.records[k]).status == Ended
      ensures !store.faulted && k in old(store.records) ==>
        store.records[k] == EndUnfinished(old(store.records[k]), Interrupted, why, "interrupted")
      ensures k in store.records && old(Latest(store.records[k])).status == Ended ==>
        store.records == old(store.records)
    {
      ghost var before := store.records;
      var ok, stored := store.EndUnfinishedAttempt(k, Abandon(why));
      StoredOnlyAt(before, store.records, k, Abandon(why), stored);
      assert k in before && Latest(before[k]).status == Ended && stored ==> store.records == before;
    }

    /** The end of an attempt whose run returned: stored, or given up to abandon. */
    method FinishOrAbandon(k: ImportKey, n: nat, rep: Report) returns (ok: bool)
      requires k in store.records && Sound(store.records[k]) && Allowed(Finish(n, rep))
      requires !store.faulted ==> StillRunning(store.records, k, n)
      modifies store
      ensures OnlyAt(old(store.records), store.records, k)
      ensures old(store.faulted) ==> store.faulted
      ensures !store.faulted ==> ok
      ensures ok ==> EndedAs(store.records, k, n, rep) && n == |store.records[k].attempts|
      ensures ok ==> store.records[k].attempts[n-1].removal.None?
    {
      ghost var before := store.records;
      ghost var stored;
      ok, stored := store.FinishAttempt(k, n, rep);
      StoredOnlyAt(before, store.records, k, Finish(n, rep), stored);
      if ok {
        FinishedEndsAs(before[k], n, rep);
      } else {
        ghost var mid := store.records;
        AbandonItem(k, "the end of the import could not be stored; see the service log");
        OnlyAtTransitive(before, mid, store.records, k);
      }
    }

    /** The remover's part, run on a record that already says complete. */
    method RemoveAndStore(k: ImportKey, n: nat, imp: Import, rep: Report) returns (ghost rem: Removal)
      requires k in store.records && Sound(store.records[k]) && EndedAs(store.records, k, n, rep)
      requires rep.outcome == Complete && store.records[k].attempts[n-1].removal.None?
      modifies store, minio
      ensures OnlyAt(old(store.records), store.records, k)
      ensures (old(store.faulted) ==> store.faulted) && (old(minio.faulted) ==> minio.faulted)
      ensures EndedAs(store.records, k, n, rep) && |store.records[k].attempts| == old(|store.records[k].attempts|)
      ensures old(Latest(store.records[k])).status == Ended ==> Latest(store.records[k]).status == Ended
      ensures minio.objects != old(minio.objects) ==> Unchanged(old(minio.objects), k.user, imp)
      ensures Removing(old(minio.deletes), minio.deletes, k.user, imp, rem)
      ensures !store.faulted ==> store.records[k].attempts[n-1].removal == Some(rem)
      ensures !minio.faulted && Unchanged(old(minio.objects), k.user, imp) ==>
        rem == Removal(true, "")
        && ArchivePlace(k.user, imp) !in minio.objects && ManifestPlace(k.user, imp) !in minio.objects
    {
      var result := Remove(minio, k.user, imp);
      rem := result;
      StoreIt(k, n, rep, result);
    }

    /** The removal goes into the record, unless the store fails. */
    method StoreIt(k: ImportKey, n: nat, ghost rep: Report, rem: Removal)
      requires k in store.records && Sound(store.records[k]) && EndedAs(store.records, k, n, rep)
      requires rep.outcome == Complete && store.records[k].attempts[n-1].removal.None?
      modifies store
      ensures OnlyAt(old(store.records), store.records, k)
      ensures old(store.faulted) ==> store.faulted
      ensures EndedAs(store.records, k, n, rep) && |store.records[k].attempts| == old(|store.records[k].attempts|)
      ensures old(Latest(store.records[k])).status == Ended ==> Latest(store.records[k]).status == Ended
      ensures !store.faulted ==> store.records[k].attempts[n-1].removal == Some(rem)
    {
      ghost var before := store.records;
      var kept := store.StoreRemoval(k, n, rem);
      StoredOnlyAt(before, store.records, k, Removed(n, rem), kept);
      OnlyAtKeepsEnd(before, store.records, k, n, rep);
      StoredKeepsLength(before, store.records, k, n, rem, kept);
      RemovalIsStored(before[k], n, rem);
      assert AttemptEvolves(Latest(before[k]), Latest(store.records[k]));
    }

    /** Begin and Get, or the attempt is abandoned. */
    method StartAttempt(k: ImportKey) returns (n: nat, imp: Option<Import>)
      requires k in store.records && Sound(store.records[k])
      modifies store
      ensures OnlyAt(old(store.records), store.records, k)
      ensures old(store.faulted) ==> store.faulted
      ensures imp.Some? ==>
        && store.records[k] == imp.value && StillRunning(store.records, k, n)
        && n == |store.records[k].attempts| == old(|store.records[k].attempts|)
        && imp.value.archive == old(store.records[k].archive) && imp.value.manifest == old(store.records[k].manifest)
      ensures imp.None? && !store.faulted ==> Latest(store.records[k]).status == Ended
      ensures old(Latest(store.records[k])).status == Queued && !store.faulted ==> imp.Some?
    {
      ghost var start := store.records;
      var ok;
      n, ok := store.BeginAttempt(k);
      StoredOnlyAt(start, store.records, k, Begin, ok);
      ghost var begun := store.records;
      imp := None;
      if ok {
        imp := store.Get(k);
      }
      if imp.None? {
        AbandonItem(k, if ok then "the import could not be read; see the service log"
                       else "the import could not be started; see the service log");
        OnlyAtTransitive(start, begun, store.records, k);
      }
    }

    /** After a panic: the end keeps every result stored so far and is incomplete; a failure of it is abandoned. */
    method EndPanicked(k: ImportKey)
      requires k in store.records && Sound(store.records[k])
      modifies store
      ensures OnlyAt(old(store.records), store.records, k)
      ensures old(store.faulted) ==> store.faulted
      ensures !store.faulted ==> Latest(store.records[k]).status == Ended
      ensures !store.faulted ==>
        store.records[k] == EndUnfinished(old(store.records[k]), Incomplete,
                                          "the import stopped on an internal error; see the service log", "not reached")
    {
      BreakEnds(store.records[k], "the import stopped on an internal error; see the service log");
      ghost var before := store.records;
      var why := Break("the import stopped on an internal error; see the service log");
      var ok, stored := store.EndUnfinishedAttempt(k, why);
      StoredOnlyAt(before, store.records, k, why, stored);
      ghost var mid := store.records;
      assert !ok ==> store.faulted;
      if !ok {
        AbandonItem(k, "the end of the import could not be stored; see the service log");
        OnlyAtTransitive(before, mid, store.records, k);
      }
    }

    /** guarded, and the outcome of a run cut short by Close: a complete one stays complete. */
    method RunGuarded(k: ImportKey, n: nat, imp: Import, src: Source)
      returns (rep: Report, remove: bool, panicked: bool, ghost noDir: bool)
      requires ValidSource(src) && k in store.records && Sound(store.records[k])
      requires StillRunning(store.records, k, n)
      modifies store, nexus, ctx, minio`faulted
      ensures (old(nexus.faulted) ==> nexus.faulted) && (old(minio.faulted) ==> minio.faulted)
      ensures ctx.done ==> rep.outcome != Incomplete
      ensures Unchanged(minio.objects, k.user, imp) && !minio.faulted && !noDir && !nexus.faulted && !ctx.done
              && ReadyToPublish(nexus.tarballs, src) ==>
        && (remove <==> AllWelcome(nexus.tarballs, old(nexus.held), src.archive.value))
        && (!remove ==> rep.outcome == Incomplete)
      ensures noDir ==> rep.outcome == Refused && !remove
      ensures Kept(old(ViewOf(store)), ViewOf(store), k, n)
      ensures Grows(old(nexus.held), nexus.held)
      ensures Allowed(Finish(n, rep))
      ensures remove ==>
        && EveryPackageIn(rep) && PassedChecks(src) && Answers(rep.packages, Entries(src))
        && AllHeld(nexus.tarballs, nexus.held, src.archive.value) && Unchanged(minio.objects, k.user, imp)
    {
      rep, remove, noDir := ServiceRun(store, k, n, ctx, nexus, minio, imp, src);
      panicked := *;
      var closed := ctx.Err();
      if closed && rep.outcome == Incomplete {
        rep := rep.(outcome := Interrupted, reason := if rep.reason == "" then "interrupted" else rep.reason);
        remove := false;
      }
    }

    /** What process does once the run is back: its end, and then, if it may, the removal. */
    method EndRun(k: ImportKey, n: nat, imp: Import, rep: Report, remove: bool, panicked: bool)
      requires k in store.records && Sound(store.records[k]) && Allowed(Finish(n, rep))
      requires StillRunning(store.records, k, n) && (remove ==> EveryPackageIn(rep))
      modifies store, minio
      ensures OnlyAt(old(store.records), store.records, k)
      ensures (old(store.faulted) ==> store.faulted) && (old(minio.faulted) ==> minio.faulted)
      ensures !store.faulted ==> Latest(store.records[k]).status == Ended
      ensures minio.objects != old(minio.objects) ==>
        remove && Unchanged(old(minio.objects), k.user, imp) && EndedAs(store.records, k, n, rep)
      ensures panicked || !remove ==> minio.objects == old(minio.objects) && minio.deletes == old(minio.deletes)
      ensures panicked && !store.faulted ==>
        store.records[k] == EndUnfinished(old(store.records[k]), Incomplete,
                                          "the import stopped on an internal error; see the service log", "not reached")
      ensures !panicked && !store.faulted ==>
        EndedAs(store.records, k, n, rep) && n == |store.records[k].attempts|
      ensures !panicked && !remove && !store.faulted ==> store.records[k].attempts[n-1].removal.None?
      ensures !panicked && !remove && !store.faulted ==> EndedWith(k, rep.outcome)
      ensures panicked && !store.faulted ==> EndedWith(k, Incomplete)
      ensures !panicked && remove && !store.faulted ==>
        exists rem :: Removing(old(minio.deletes), minio.deletes, k.user, imp, rem)
                      && store.records[k].attempts[n-1].removal == Some(rem)
      ensures !panicked && remove && !store.faulted && !minio.faulted && Unchanged(old(minio.objects), k.user, imp) ==>
        && store.records[k].attempts[n-1].removal == Some(Removal(true, ""))
        && ArchivePlace(k.user, imp) !in minio.objects && ManifestPlace(k.user, imp) !in minio.objects
    {
      ghost var ran := store.records;
      if panicked {
        EndPanicked(k);
        return;
      }
      var ok := FinishOrAbandon(k, n, rep);
      ghost var ended := store.records;
      if ok && remove {
        ghost var rem := RemoveAndStore(k, n, imp, rep);
        OnlyAtTransitive(ran, ended, store.records, k);
      }
    }

    /** The latest attempt of k ended so. */
    predicate EndedWith(k: ImportKey, outcome: Outcome)
      reads this, store
    {
      && k in store.records && store.records[k].attempts != []
      && Latest(store.records[k]).status == Ended && Latest(store.records[k]).outcome == outcome
    }

    /** Attempt n of k ended complete, with a removal of everything, and MinIO has neither object. */
    predicate AllDone(k: ImportKey, n: nat, imp: Import)
      reads this, store, minio
    {
      && k in store.records && n == |store.records[k].attempts| && n > 0
      && store.records[k].attempts[n-1].status == Ended && store.records[k].attempts[n-1].outcome == Complete
      && store.records[k].attempts[n-1].removal == Some(Removal(true, ""))
      && ArchivePlace(k.user, imp) !in minio.objects && ManifestPlace(k.user, imp) !in minio.objects
    }

    /** Attempt n of k ended incomplete, and MinIO is as it was. */
    predicate NotIn(k: ImportKey, n: nat, objects: Objects)
      reads this, store, minio
    {
      && k in store.records && n == |store.records[k].attempts| && n > 0
      && store.records[k].attempts[n-1].status == Ended && store.records[k].attempts[n-1].outcome == Incomplete
      && store.records[k].attempts[n-1].removal.None? && minio.objects == objects
    }

    /**
     process: one popped attempt, whatever goes wrong on the way.  It is ended
     unless a store operation failed; Nexus only grew; and the archive is
     deleted only when the attempt's complete end is stored and every package
     of the archive is in Nexus.  When nothing goes wrong, a queued attempt of
     an unchanged archive whose files are in order ends complete with archive
     and manifest removed if Nexus could take every package, and else ends
     incomplete with both in place.  mishap: the run panicked or had no
     directory to work in, and so ended incomplete or refused.
     */
    method Process(k: ImportKey, src: Source) returns (ghost mishap: bool)
      requires ValidSource(src)
      requires k in store.records && Sound(store.records[k])
      modifies store, nexus, minio, ctx
      ensures OnlyAt(old(store.records), store.records, k)
      ensures Grows(old(nexus.held), nexus.held)
      ensures !store.faulted ==> Latest(store.records[k]).status == Ended
      ensures minio.objects != old(minio.objects) ==>
        && Unchanged(old(minio.objects), k.user, old(store.records[k]))
        && PassedChecks(src) && AllHeld(nexus.tarballs, nexus.held, src.archive.value)
        && exists rep :: EndedAs(store.records, k, old(|store.records[k].attempts|), rep)
                         && EveryPackageIn(rep) && Answers(rep.packages, Entries(src))
      ensures !store.faulted && !nexus.faulted && !minio.faulted && !ctx.done && !mishap
              && old(Latest(store.records[k])).status == Queued
              && Unchanged(old(minio.objects), k.user, old(store.records[k]))
              && ReadyToPublish(nexus.tarballs, src) ==>
        if AllWelcome(nexus.tarballs, old(nexus.held), src.archive.value)
        then AllDone(k, old(|store.records[k].attempts|), old(store.records[k]))
             && AllHeld(nexus.tarballs, nexus.held, src.archive.value)
        else NotIn(k, old(|store.records[k].attempts|), old(minio.objects))
      ensures mishap && !store.faulted ==>
        minio.objects == old(minio.objects) && (EndedWith(k, Refused) || EndedWith(k, Incomplete))
    {
      mishap := false;
      ghost var start := store.records;
      var n, imp := StartAttempt(k);
      if imp.Some? {
        ghost var begun := store.records;
        var rep, remove, panicked;
        ghost var noDir;
        rep, remove, panicked, noDir := RunGuarded(k, n, imp.value, src);
        mishap := panicked || noDir;
        ghost var ran := store.records;
        OnlyAtTransitive(start, begun, ran, k);
        EndRun(k, n, imp.value, rep, remove, panicked);
        OnlyAtTransitive(start, ran, store.records, k);
      }
    }
  }
}
