/**
 What the service's indexes and the jobs' directories hold while jobs come and
 go, and when a finalizer finds what it is to finalize.
 */
module JobRunIndex {
  import opened Wrappers
  import opened EventStream
  import opened EventFeed
  import opened JobQueue
  import opened JobRuns
  import opened JobRunSafety
  import opened JobRunDeeds

  // ------------------------------------------------------------ the indexes

  /** Every entry of the other two indexes is one of byQueue's. */
  predicate Coherent(x: Index) {
    && (forall id :: id in x.byQueue ==> x.byQueue[id].id == id)
    && (forall key :: key in x.byKey ==>
          x.byKey[key].key == key && x.byKey[key].id in x.byQueue && x.byQueue[x.byKey[key].id] == x.byKey[key])
    && (forall p :: p in x.byProject ==>
          x.byProject[p].key.project == p && x.byProject[p].id in x.byQueue
            && x.byQueue[x.byProject[p].id] == x.byProject[p])
  }

  /** No job that has been announced is indexed. */
  predicate NoneGone(s: Jobs) {
    forall id :: id in s.x.byQueue ==> 1 <= id <= s.q.nextId && !IsAnnounced(s.trail, id)
  }

  predicate MarkTrue(x: Index, f: Finishing) {
    match f.mark
    case ToLookUp => true
    case ToSettle(found) => found == f.job
    case ToDrop(found) => found == f.job
    case ToAnnounce => f.job.id !in x.byQueue
  }

  predicate MarksTrue(s: Jobs) {
    && (s.worker.Ending? ==> MarkTrue(s.x, s.worker.f))
    && forall id :: id in s.cancels ==> MarkTrue(s.x, s.cancels[id])
  }

  ghost predicate IndexTrue(s: Jobs) {
    && Coherent(s.x) && NoneGone(s) && MarksTrue(s)
    && forall j :: JobAt(s, j) && j.id in s.x.byQueue ==> s.x.byQueue[j.id] == j
  }

  /** An index that only lost entries. */
  predicate Shrinks(x: Index, x': Index) {
    && x'.byQueue.Keys <= x.byQueue.Keys && (forall id :: id in x'.byQueue ==> x'.byQueue[id] == x.byQueue[id])
  }

  lemma MarkStays(x: Index, x': Index, f: Finishing)
    requires MarkTrue(x, f) && Shrinks(x, x')
    ensures MarkTrue(x', f)
  {
  }

  lemma UntrackCoherent(x: Index, key: JobKey)
    requires Coherent(x)
    ensures Coherent(UntrackedIn(x, key)) && Shrinks(x, UntrackedIn(x, key))
  {
  }

  lemma DropCoherent(x: Index, j: Job)
    requires Coherent(x) && (j.id in x.byQueue ==> x.byQueue[j.id] == j)
    ensures Coherent(DroppedFrom(x, j.id, j)) && Shrinks(x, DroppedFrom(x, j.id, j))
  {
  }

  lemma TrackCoherent(x: Index, j: Job)
    requires Coherent(x) && j.id !in x.byQueue
    ensures Coherent(TrackedIn(x, j))
  {
  }

  lemma SubmitIndex(s: Jobs, key: JobKey)
    requires Placed(s) && IndexTrue(s) && HandlerEnabled(s, Submit(key)) && !s.q.closed
    ensures IndexTrue(SubmitNext(s, key))
  {
    var s' := SubmitNext(s, key);
    var j0 := NewJob(s.q, key);
    TrackCoherent(s.x, j0);
    assert Places(s, j0.id) == 0;
    assert IsAnnounced(s.trail, j0.id) == false;
    forall j | JobAt(s', j) && j.id in s'.x.byQueue ensures s'.x.byQueue[j.id] == j {
      HandlerJobs(s, Submit(key), j);
      if JobAt(s, j) {
        JobIsPlaced(s, j);
      }
    }
    forall id | id in s'.cancels ensures MarkTrue(s'.x, s'.cancels[id]) {
      FinishingIsAt(s, Some(id));
      JobIsPlaced(s, s.cancels[id].job);
    }
    if s.worker.Ending? {
      FinishingIsAt(s, None);
      JobIsPlaced(s, s.worker.f.job);
    }
  }

  lemma HandlerIndex(s: Jobs, h: HandlerStep)
    requires Placed(s) && IndexTrue(s) && HandlerEnabled(s, h)
    ensures IndexTrue(HandlerNext(s, h))
  {
    var s' := HandlerNext(s, h);
    if h.Submit? && !s.q.closed {
      SubmitIndex(s, h.key);
    } else {
      OtherIndex(s, h);
      forall j | JobAt(s', j) && j.id in s'.x.byQueue ensures s'.x.byQueue[j.id] == j {
        HandlerJobs(s, h, j);
      }
    }
  }

  lemma OtherIndex(s: Jobs, h: HandlerStep)
    requires IndexTrue(s) && HandlerEnabled(s, h) && !(h.Submit? && !s.q.closed)
    ensures var s' := HandlerNext(s, h); Coherent(s'.x) && Shrinks(s.x, s'.x) && NoneGone(s') && MarksTrue(s')
  {
    var s' := HandlerNext(s, h);
    OtherShrinks(s, h);
    OtherMarks(s, s');
  }

  lemma OtherShrinks(s: Jobs, h: HandlerStep)
    requires Coherent(s.x) && HandlerEnabled(s, h) && !(h.Submit? && !s.q.closed)
    ensures var s' := HandlerNext(s, h);
      && Coherent(s'.x) && Shrinks(s.x, s'.x)
      && forall id :: id in s'.cancels ==>
        s'.cancels[id].mark.ToLookUp? || (id in s.cancels && s'.cancels[id] == s.cancels[id])
  {
    if h.Untrack? {
      UntrackCoherent(s.x, h.key);
    } else {
      assert HandlerNext(s, h).x == s.x;
    }
  }

  lemma OtherMarks(s: Jobs, s': Jobs)
    requires MarksTrue(s) && Shrinks(s.x, s'.x) && s'.worker == s.worker
    requires forall id :: id in s'.cancels ==>
      s'.cancels[id].mark.ToLookUp? || (id in s.cancels && s'.cancels[id] == s.cancels[id])
    ensures MarksTrue(s')
  {
    forall id | id in s'.cancels ensures MarkTrue(s'.x, s'.cancels[id]) {
      if !s'.cancels[id].mark.ToLookUp? {
        MarkStays(s.x, s'.x, s.cancels[id]);
      }
    }
    if s.worker.Ending? {
      MarkStays(s.x, s'.x, s.worker.f);
    }
  }

  lemma WorkerIndex(s: Jobs, w: WorkerStep)
    requires Placed(s) && IndexTrue(s) && WorkerEnabled(s, w)
    ensures IndexTrue(WorkerNext(s, w))
  {
    var s' := WorkerNext(s, w);
    forall j | JobAt(s', j) && j.id in s'.x.byQueue ensures s'.x.byQueue[j.id] == j {
      WorkerJobs(s, w, j);
    }
    forall id | id in s.x.byQueue ensures !IsAnnounced(s'.trail, id) {
      if w.Pop? {
        AnnouncedAfter(s.trail, Started(s.q.pending[0].id), id);
      }
    }
  }

  lemma FinishIndexes(s: Jobs, who: Option<nat>, f: FinishStep)
    requires Placed(s) && IndexTrue(s) && FinishEnabled(s, who, f)
    ensures var s' := FinishNext(s, who, f);
      Coherent(s'.x) && Shrinks(s.x, s'.x) && (f.Drop? ==> FinishingOf(s, who).value.job.id !in s'.x.byQueue)
  {
    var x := FinishingOf(s, who).value;
    FinishingIsAt(s, who);
    if f.Drop? {
      DropCoherent(s.x, x.job);
    }
  }

  lemma FinishOwnMark(s: Jobs, who: Option<nat>, f: FinishStep)
    requires Placed(s) && IndexTrue(s) && FinishEnabled(s, who, f)
    ensures var s' := FinishNext(s, who, f);
      FinishingOf(s', who).Some? ==> MarkTrue(s'.x, FinishingOf(s', who).value)
  {
    FinishingIsAt(s, who);
    FinishIndexes(s, who, f);
  }

  lemma FinishMarks(s: Jobs, who: Option<nat>, f: FinishStep)
    requires Placed(s) && IndexTrue(s) && FinishEnabled(s, who, f)
    ensures MarksTrue(FinishNext(s, who, f))
  {
    var s' := FinishNext(s, who, f);
    FinishIndexes(s, who, f);
    FinishOwnMark(s, who, f);
    FinishAdvances(s, who, f);
    forall id | id in s'.cancels ensures MarkTrue(s'.x, s'.cancels[id]) {
      if who != Some(id) {
        MarkStays(s.x, s'.x, s.cancels[id]);
      }
    }
    if who.Some? && s.worker.Ending? {
      MarkStays(s.x, s'.x, s.worker.f);
    }
  }

  lemma FinishIndex(s: Jobs, who: Option<nat>, f: FinishStep)
    requires Placed(s) && IndexTrue(s) && FinishEnabled(s, who, f)
    ensures IndexTrue(FinishNext(s, who, f))
  {
    var s' := FinishNext(s, who, f);
    var x := FinishingOf(s, who).value;
    FinishIndexes(s, who, f);
    FinishMarks(s, who, f);
    FinishTrail(s, who, f);
    forall id | id in s'.x.byQueue ensures !IsAnnounced(s'.trail, id) {
      if DeedOf(x, f) != [] {
        AnnouncedAfter(s.trail, DeedOf(x, f)[0], id);
      }
    }
    forall j | JobAt(s', j) && j.id in s'.x.byQueue ensures s'.x.byQueue[j.id] == j {
      FinishJobs(s, who, f, j);
    }
  }

  lemma IndexStep(s: Jobs, step: Step)
    requires Placed(s) && IndexTrue(s) && Enabled(s, step)
    ensures IndexTrue(Next(s, step))
  {
    match step
    case Handler(h) => HandlerIndex(s, h);
    case Work(w) => WorkerIndex(s, w);
    case Finish(who, f) => FinishIndex(s, who, f);
    case Reader(r) =>
      forall j | JobAt(ReaderNext(s, r), j) && j.id in s.x.byQueue ensures s.x.byQueue[j.id] == j {
        assert JobAt(s, j);
      }
  }

  // -------------------------------------------------------- the directories

  predicate ByHandler(s: Jobs, key: JobKey) {
    key in s.reserved || key in s.refused || key in s.untracked
  }

  predicate OwnedBy(s: Jobs, key: JobKey, o: Owner) {
    key in s.owners && s.owners[key] == o
  }

  predicate HandlersOwn(s: Jobs) {
    && (forall key :: key in s.reserved ==> key !in s.refused && key !in s.untracked && OwnedBy(s, key, AHandler))
    && (forall key :: key in s.refused ==> key !in s.untracked && OwnedBy(s, key, AHandler))
    && (forall key :: key in s.untracked ==> OwnedBy(s, key, AHandler))
    && (forall key :: key in s.owners ==> key in s.held)
  }

  /** Every job not let go of is indexed and has its own directory name, with nobody else. */
  ghost predicate JobsOwn(s: Jobs) {
    forall j :: Unsettled(s, j) ==> OwnedBy(s, j.key, TheJob(j.id)) && j.id in s.x.byQueue
  }

  predicate LateTrue(trail: seq<Deed>, f: Finishing) {
    !Early(f.mark) ==> Settled(f.job.id, f.state) in trail
  }

  /** A finalizer that has passed its directory step has settled its job. */
  predicate LateSettled(s: Jobs) {
    && AnnouncedLast(s.trail)
    && (s.worker.Ending? ==> LateTrue(s.trail, s.worker.f))
    && forall id :: id in s.cancels ==> LateTrue(s.trail, s.cancels[id])
  }

  ghost predicate Owned(s: Jobs) {
    HandlersOwn(s) && JobsOwn(s) && LateSettled(s)
  }

  lemma HandlerHandlersOwn(s: Jobs, h: HandlerStep)
    requires HandlersOwn(s) && HandlerEnabled(s, h) && !HandlerNext(s, h).erased
    ensures HandlersOwn(HandlerNext(s, h))
  {
  }

  lemma HandlerJobsOwn(s: Jobs, h: HandlerStep)
    requires Placed(s) && IndexTrue(s) && HandlersOwn(s) && JobsOwn(s) && HandlerEnabled(s, h)
    ensures JobsOwn(HandlerNext(s, h))
  {
    var s' := HandlerNext(s, h);
    forall j | Unsettled(s', j) ensures OwnedBy(s', j.key, TheJob(j.id)) && j.id in s'.x.byQueue {
      HandlerJobs(s, h, j);
      if Unsettled(s, j) {
        UnsettledIsAt(s, j);
        JobIsPlaced(s, j);
        assert !ByHandler(s, j.key);
        assert h.Reserve? ==> h.key !in s.owners;
      }
    }
  }

  lemma HandlerLate(s: Jobs, h: HandlerStep)
    requires LateSettled(s) && HandlerEnabled(s, h)
    ensures LateSettled(HandlerNext(s, h))
  {
  }

  lemma AnnouncedLastAfter(trail: seq<Deed>, d: Deed)
    requires AnnouncedLast(trail) && (d.Announced? ==> Settled(d.id, d.state) in trail)
    ensures AnnouncedLast(trail + [d])
  {
    forall j | 0 <= j < |trail| + 1 && (trail + [d])[j].Announced?
      ensures Settled((trail + [d])[j].id, (trail + [d])[j].state) in (trail + [d])[..j]
    {
      assert (trail + [d])[..j] == trail[..j];
    }
  }

  lemma WorkerOwned(s: Jobs, w: WorkerStep)
    requires Placed(s) && Owned(s) && WorkerEnabled(s, w)
    ensures Owned(WorkerNext(s, w))
  {
    var s' := WorkerNext(s, w);
    forall j | Unsettled(s', j) ensures OwnedBy(s', j.key, TheJob(j.id)) && j.id in s'.x.byQueue {
      WorkerJobs(s, w, j);
    }
    if w.Pop? {
      AnnouncedLastAfter(s.trail, Started(s.q.pending[0].id));
    }
  }

  lemma SettleHandlersOwn(s: Jobs, who: Option<nat>, works: bool)
    requires HandlersOwn(s) && FinishEnabled(s, who, Settle(works))
    requires var x := FinishingOf(s, who).value; x.mark.found == x.job && OwnedBy(s, x.job.key, TheJob(x.job.id))
    ensures HandlersOwn(SettleNext(s, who, works))
  {
  }

  /** What a finalizing step other than a directory step leaves of the directories and their owners, and of byQueue. */
  lemma FinishKeeps(s: Jobs, who: Option<nat>, f: FinishStep)
    requires FinishEnabled(s, who, f)
    ensures var s' := FinishNext(s, who, f);
      && (!f.Settle? ==> s'.owners == s.owners && s'.held == s.held)
      && (f.Settle? ==> s'.owners == s.owners - {FinishingOf(s, who).value.mark.found.key})
      && s'.reserved == s.reserved && s'.refused == s.refused && s'.untracked == s.untracked
      && (!f.Drop? ==> s'.x == s.x)
      && (f.Drop? ==> s'.x.byQueue == s.x.byQueue - {FinishingOf(s, who).value.job.id})
  {
  }

  lemma FinishJobsOwn(s: Jobs, who: Option<nat>, f: FinishStep)
    requires Placed(s) && IndexTrue(s) && HandlersOwn(s) && JobsOwn(s) && FinishEnabled(s, who, f)
    ensures JobsOwn(FinishNext(s, who, f)) && HandlersOwn(FinishNext(s, who, f))
  {
    var s' := FinishNext(s, who, f);
    var x := FinishingOf(s, who).value;
    FinishingIsAt(s, who);
    assert f.Settle? ==> x.mark.found == x.job && Unsettled(s, x.job);
    if f.Settle? {
      SettleHandlersOwn(s, who, f.works);
    }
    FinishKeeps(s, who, f);
    forall j | Unsettled(s', j) ensures OwnedBy(s', j.key, TheJob(j.id)) && j.id in s'.x.byQueue {
      FinishJobs(s, who, f, j);
      assert OwnedBy(s, j.key, TheJob(j.id));
    }
  }

  lemma FinishLate(s: Jobs, who: Option<nat>, f: FinishStep)
    requires Placed(s) && JobsOwn(s) && LateSettled(s) && FinishEnabled(s, who, f)
    ensures LateSettled(FinishNext(s, who, f))
  {
    var s' := FinishNext(s, who, f);
    var x := FinishingOf(s, who).value;
    FinishTrail(s, who, f);
    FinishingIsAt(s, who);
    if DeedOf(x, f) != [] {
      AnnouncedLastAfter(s.trail, DeedOf(x, f)[0]);
    }
  }

  lemma FinishOwned(s: Jobs, who: Option<nat>, f: FinishStep)
    requires Placed(s) && IndexTrue(s) && Owned(s) && FinishEnabled(s, who, f)
    ensures Owned(FinishNext(s, who, f))
  {
    FinishJobsOwn(s, who, f);
    FinishLate(s, who, f);
  }

  lemma OwnedStep(s: Jobs, step: Step)
    requires Placed(s) && IndexTrue(s) && Owned(s) && Enabled(s, step) && !Next(s, step).erased
    ensures Owned(Next(s, step))
  {
    match step
    case Handler(h) =>
      HandlerHandlersOwn(s, h);
      HandlerJobsOwn(s, h);
      HandlerLate(s, h);
    case Work(w) => WorkerOwned(s, w);
    case Finish(who, f) => FinishOwned(s, who, f);
    case Reader(r) =>
      forall j | Unsettled(ReaderNext(s, r), j) ensures OwnedBy(s, j.key, TheJob(j.id)) && j.id in s.x.byQueue {
        assert Unsettled(s, j);
      }
  }
}
