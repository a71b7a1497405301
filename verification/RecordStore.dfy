/**
 The store of import records on the data volume.  A record write is atomic and
 durable or did not happen; any read, write or directory operation may fail.

 Sources: internal/store/imports/imports.go, retry.go and sweep.go.
 */
module RecordStore {
  import opened Wrappers
  import opened Records

  datatype ImportKey = ImportKey(user: string, id: string)

  /** Attempt n of an import; it also names the attempt's working directory. */
  datatype AttemptId = AttemptId(key: ImportKey, n: nat)

  const ID_ATTEMPTS := 5

  /** The change `up` of record k was stored, or nothing was. */
  predicate Stored(before: map<ImportKey, Import>, after: map<ImportKey, Import>, k: ImportKey, up: Update, ok: bool) {
    && (ok ==> up.Accepted? && after == before[k := up.imp])
    && (!ok ==> after == before)
  }

  function Lookup(records: map<ImportKey, Import>, k: ImportKey): Option<Import> {
    if k in records then Some(records[k]) else None
  }

  function Changed(records: map<ImportKey, Import>, k: ImportKey, c: Change): Update {
    if k in records then Apply(records[k], c) else Rejected
  }

  class Store {
    var records: map<ImportKey, Import>
    var dirs: set<AttemptId>
    ghost var faulted: bool                      // some operation on the data volume has failed
    ghost var trail: seq<(ImportKey, Import)>    // every record written, in order

    constructor ()
      ensures records == map[] && dirs == {} && !faulted && trail == []
    {
      records, dirs, faulted, trail := map[], {}, false, [];
    }

    /** write: one atomic replacement of a record, which may fail. */
    method Write(k: ImportKey, imp: Import) returns (ok: bool)
      modifies this
      ensures dirs == old(dirs)
      ensures ok ==> records == old(records)[k := imp] && trail == old(trail) + [(k, imp)] && faulted == old(faulted)
      ensures !ok ==> records == old(records) && trail == old(trail) && faulted
    {
      if * {
        faulted, ok := true, false;
      } else {
        records, trail, ok := records[k := imp], trail + [(k, imp)], true;
      }
    }

    /** read, as Get and update use it. */
    method Get(k: ImportKey) returns (imp: Option<Import>)
      modifies `faulted
      ensures imp.Some? ==> Lookup(records, k) == imp && faulted == old(faulted)
      ensures imp.None? ==> k !in records || faulted
      ensures old(faulted) ==> faulted
    {
      if * {
        faulted := true;
        return None;
      }
      imp := Lookup(records, k);
    }

    /** Create draws up to five ids and records a first attempt, queued, under a free one. */
    method Create(user: string, archive: Object, manifest: Object, sha: string)
      returns (r: Option<ImportKey>, ghost drawn: seq<string>)
      modifies this
      ensures r.None? && !faulted ==>
        |drawn| == 5 && forall i :: 0 <= i < 5 ==> ImportKey(user, drawn[i]) in records
      ensures dirs == old(dirs) && (old(faulted) ==> faulted)
      ensures r.None? ==> records == old(records)
      ensures r.Some? ==>
        && r.value.user == user && r.value !in old(records)
        && records == old(records)[r.value := NewImport(archive, manifest, sha)]
    {
      drawn := [];
      for i := 0 to ID_ATTEMPTS
        invariant |drawn| == i && forall j :: 0 <= j < i ==> ImportKey(user, drawn[j]) in records
        invariant records == old(records) && dirs == old(dirs) && faulted == old(faulted)
      {
        var id: string := *;
        var k := ImportKey(user, id);
        drawn := drawn + [id];
        if k !in records {
          var ok := Write(k, NewImport(archive, manifest, sha));
          return if ok then Some(k) else None, drawn;
        }
      }
      return None, drawn;
    }

    /** A queued latest attempt starts to run: its directory, then the record, which stays if either fails. */
    method BeginAttempt(k: ImportKey) returns (n: nat, ok: bool)
      modifies this
      ensures Stored(old(records), records, k, Changed(old(records), k, Begin), ok)
      ensures ok ==> n == Latest(records[k]).n && dirs == old(dirs) + {AttemptId(k, n)}
      ensures ok ==> faulted == old(faulted)
      ensures !ok ==> Changed(old(records), k, Begin).Rejected? || faulted
      ensures !ok && Changed(old(records), k, Begin).Rejected? ==> dirs == old(dirs)
      ensures forall d :: d in old(dirs) && d.key != k ==> d in dirs
      ensures old(faulted) ==> faulted
    {
      n, ok := 0, false;
      var read := Get(k);
      if read.None? || read.value.attempts == [] || Latest(read.value).status != Queued {
        return;
      }
      var a := Latest(read.value);
      var work := AttemptId(k, a.n);
      dirs := dirs - {work};
      if * {
        faulted := true;
        return;
      }
      dirs := dirs + {work};
      ok := Write(k, WithLatest(read.value, a.(status := Running)));
      n := a.n;
    }

    /** One write of the report given for n, with counts taken from its list; none unless n is the latest and runs. */
    method List(k: ImportKey, n: nat, rep: Report) returns (ok: bool)
      modifies this
      ensures Stored(old(records), records, k, Changed(old(records), k, Listed(n, rep)), ok)
      ensures dirs == old(dirs) && (old(faulted) ==> faulted)
      ensures ok ==> faulted == old(faulted) && trail == old(trail) + [(k, records[k])]
      ensures !ok ==> trail == old(trail) && (Changed(old(records), k, Listed(n, rep)).Rejected? || faulted)
    {
      ok := false;
      var read := Get(k);
      if read.Some? && IsRunning(read.value, n) {
        var c := Recount(rep.packages);
        ok := Write(k, WithLatest(read.value, Latest(read.value).(report := rep.(counts := c))));
      }
    }

    /** One write that sets the checked mark of n; none unless n is the latest and runs. */
    method Check(k: ImportKey, n: nat) returns (ok: bool)
      modifies this
      ensures Stored(old(records), records, k, Changed(old(records), k, Checked(n)), ok)
      ensures dirs == old(dirs) && (old(faulted) ==> faulted)
      ensures ok ==> faulted == old(faulted) && trail == old(trail) + [(k, records[k])]
      ensures !ok ==> trail == old(trail) && (Changed(old(records), k, Checked(n)).Rejected? || faulted)
    {
      ok := false;
      var read := Get(k);
      if read.Some? && IsRunning(read.value, n) {
        var a := Latest(read.value);
        ok := Write(k, WithLatest(read.value, a.(report := a.report.(checked := Some(true)))));
      }
    }

    /** One write of r at place i of n's list, recounted; none for a place beyond the list or an n that does not run. */
    method PackageEnd(k: ImportKey, n: nat, i: int, r: Result) returns (ok: bool)
      modifies this
      ensures Stored(old(records), records, k, Changed(old(records), k, PackageEnded(n, i, r)), ok)
      ensures dirs == old(dirs) && (old(faulted) ==> faulted)
      ensures ok ==> faulted == old(faulted) && trail == old(trail) + [(k, records[k])]
      ensures !ok ==> trail == old(trail) && (Changed(old(records), k, PackageEnded(n, i, r)).Rejected? || faulted)
    {
      ok := false;
      var read := Get(k);
      if read.Some? && IsRunning(read.value, n) {
        var a := Latest(read.value);
        if 0 <= i < |a.report.packages| {
          var ps := a.report.packages[i := r];
          var c := Recount(ps);
          ok := Write(k, WithLatest(read.value, a.(report := a.report.(packages := ps, counts := c))));
        }
      }
    }

    /** RemoveAll of a working directory, which may fail. */
    method RemoveDir(d: AttemptId) returns (ok: bool)
      modifies `dirs, `faulted
      ensures ok ==> dirs == old(dirs) - {d} && faulted == old(faulted)
      ensures !ok ==> dirs == old(dirs) && faulted
    {
      if * {
        faulted, ok := true, false;
      } else {
        dirs, ok := dirs - {d}, true;
      }
    }

    /**
     Finish ends attempt n with its report, then removes its directory.  The
     record goes first, so stored tells whether the end is durable even when
     ok is false.
     */
    method FinishAttempt(k: ImportKey, n: nat, rep: Report) returns (ok: bool, ghost stored: bool)
      modifies this
      ensures Stored(old(records), records, k, Changed(old(records), k, Finish(n, rep)), stored)
      ensures ok ==> stored && dirs == old(dirs) - {AttemptId(k, n)} && faulted == old(faulted)
      ensures !ok ==> Changed(old(records), k, Finish(n, rep)).Rejected? || faulted
      ensures !stored ==> dirs == old(dirs)
      ensures old(dirs) - {AttemptId(k, n)} <= dirs <= old(dirs)
      ensures old(faulted) ==> faulted
    {
      ok, stored := false, false;
      var read := Get(k);
      if read.None? || read.value.attempts == [] || Latest(read.value).n != n || Latest(read.value).status == Ended {
        return;
      }
      var a := Latest(read.value).(status := Ended, outcome := rep.outcome, report := rep, removal := None);
      var wrote := Write(k, WithLatest(read.value, a));
      stored := wrote;
      if wrote {
        ok := RemoveDir(AttemptId(k, n));
      }
    }

    /** A complete attempt gains its one removal, also when retries came after it; any other is left alone. */
    method StoreRemoval(k: ImportKey, n: nat, rem: Removal) returns (ok: bool)
      modifies this
      ensures Stored(old(records), records, k, Changed(old(records), k, Removed(n, rem)), ok)
      ensures dirs == old(dirs) && (old(faulted) ==> faulted)
      ensures ok ==> faulted == old(faulted)
      ensures !ok ==> Changed(old(records), k, Removed(n, rem)).Rejected? || faulted
    {
      ok := false;
      var read := Get(k);
      if read.None? {
        return;
      }
      var i := IndexOf(read.value.attempts, n);
      if i < |read.value.attempts| {
        var a := read.value.attempts[i];
        if a.status == Ended && a.outcome == Complete && a.removal.None? {
          ok := Write(k, read.value.(attempts := read.value.attempts[i := a.(removal := Some(rem))]));
        }
      }
    }

    /** The list of attempts grows by an empty queued one if its last has ended, and else stays. */
    method RetryAttempt(k: ImportKey) returns (ok: bool)
      modifies this
      ensures Stored(old(records), records, k, Changed(old(records), k, Retry), ok)
      ensures dirs == old(dirs) && (old(faulted) ==> faulted)
      ensures !ok ==> Changed(old(records), k, Retry).Rejected? || faulted
    {
      ok := false;
      var read := Get(k);
      if read.Some? && read.value.attempts != [] && Latest(read.value).status == Ended {
        var last := Latest(read.value);
        ok := Write(k, read.value.(attempts := read.value.attempts +
                                  [Attempt(last.n + 1, Queued, NoOutcome, EMPTY_REPORT, None)]));
      }
    }

    /** endUnfinished, behind Abandon (c.Abandon?) and Break (c.Break?). */
    method EndUnfinishedAttempt(k: ImportKey, c: Change) returns (ok: bool, ghost stored: bool)
      requires c.Abandon? || c.Break?
      modifies this
      ensures Stored(old(records), records, k, Changed(old(records), k, c), stored)
      ensures ok ==> stored && faulted == old(faulted)
      ensures !ok ==> Changed(old(records), k, c).Rejected? || faulted
      ensures dirs <= old(dirs)
      ensures k in old(records) && old(records)[k].attempts != [] ==>
        old(dirs) - {AttemptId(k, Latest(old(records)[k]).n)} <= dirs
      ensures !stored || Latest(old(records)[k]).status == Ended ==> dirs == old(dirs)
      ensures ok && Latest(old(records)[k]).status != Ended ==> AttemptId(k, Latest(old(records)[k]).n) !in dirs
      ensures old(faulted) ==> faulted
    {
      ok, stored := false, false;
      var read := Get(k);
      if read.None? || read.value.attempts == [] {
        return;
      }
      var outcome := if c.Abandon? then Interrupted else Incomplete;
      var pending := if c.Abandon? then "interrupted" else "not reached";
      var out, ended := EndUnfinishedRecord(read.value, outcome, c.reason, pending);
      ok := Write(k, out);
      stored := ok;
      if ok && ended {
        ok := RemoveDir(AttemptId(k, Latest(read.value).n));
      }
    }

    /** sweepOne: the record first, then every working directory of the import. */
    method SweepOne(k: ImportKey) returns (marked: nat, ok: bool)
      modifies this
      ensures records == old(records)
        || (k in old(records) && records == old(records)[k := SweepImport(old(records)[k])])
      ensures ok ==> k in old(records) && records == old(records)[k := SweepImport(old(records)[k])]
      ensures ok ==> marked == CountUnfinished(old(records)[k].attempts) && faulted == old(faulted)
      ensures ok ==> forall d :: d in dirs ==> d.key != k
      ensures !ok ==> k !in old(records) || faulted
      ensures dirs <= old(dirs) && (forall d :: d in old(dirs) && d.key != k ==> d in dirs)
      ensures old(faulted) ==> faulted
    {
      marked, ok := 0, false;
      var read := Get(k);
      if read.None? {
        return;
      }
      var swept, m, changed := SweepRecord(read.value);
      if changed {
        var wrote := Write(k, swept);
        if !wrote {
          return;
        }
      } else {
        assert records == records[k := read.value];
      }
      marked := m;
      if * {
        faulted := true;
        return;
      }
      dirs := set d | d in dirs && d.key != k;
      ok := true;
    }

    /** Sweep: every import in turn; one that fails is left as it is and the rest go on. */
    method Sweep() returns (marked: nat)
      modifies this
      ensures records.Keys == old(records).Keys
      ensures forall k :: k in records ==> records[k] == old(records)[k] || records[k] == SweepImport(old(records)[k])
      ensures !faulted ==> forall k :: k in records ==> records[k] == SweepImport(old(records)[k])
      ensures !faulted ==> forall d :: d in dirs ==> d.key !in records
      ensures old(faulted) ==> faulted
    {
      marked := 0;
      var todo := records.Keys;
      while todo != {}
        invariant todo <= records.Keys == old(records).Keys
        invariant old(faulted) ==> faulted
        invariant forall k :: k in todo ==> records[k] == old(records)[k]
        invariant forall k :: k in records ==>
          records[k] == old(records)[k] || records[k] == SweepImport(old(records)[k])
        invariant !faulted ==> forall k :: k in records && k !in todo ==> records[k] == SweepImport(old(records)[k])
        invariant !faulted ==> forall d :: d in dirs && d.key in records ==> d.key in todo
        decreases todo
      {
        var k :| k in todo;
        ghost var before := dirs;
        var m, ok := SweepOne(k);
        if ok {
          marked := marked + m;
        }
        todo := todo - {k};
      }
    }
  }

  /**
   A sweep of every record finds nothing to do after a sweep of every record:
   running the startup sweep twice, or crashing after it, changes nothing.
   */
  lemma SweepAllIdempotent(before: map<ImportKey, Import>, after: map<ImportKey, Import>)
    requires after.Keys == before.Keys && forall k :: k in before ==> after[k] == SweepImport(before[k])
    ensures forall k :: k in after ==> SweepImport(after[k]) == after[k] && CountUnfinished(after[k].attempts) == 0
  {
    forall k | k in after ensures SweepImport(after[k]) == after[k] && CountUnfinished(after[k].attempts) == 0 {
      SweepSettles(before[k]);
    }
  }
}
