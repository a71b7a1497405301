/**
 What becomes of the jobs' directories over whole runs: finished work is kept,
 and a job that never started leaves nothing behind.

 Sources: internal/jobs/service.go and internal/store/pending.go.
 */
module JobRunDirs {
  import opened Wrappers
  import opened EventStream
  import opened EventFeed
  import opened JobQueue
  import opened JobRuns
  import opened JobRunSafety
  import opened JobRunDeeds
  import opened JobRunIndex
  import opened JobRunTheorems

  /** A job nobody has started. */
  predicate NotStarted(s: Jobs, j: Job) {
    j in s.q.pending || (j.id in s.dropped && s.dropped[j.id] == j) || (j.id in s.cancels && s.cancels[j.id].job == j)
  }

  /** The directory of a job not let go of is there, and empty exactly while the job has written nothing. */
  predicate DirOf(s: Jobs, j: Job) {
    && j.key in s.held && (s.held[j.key] == Empty <==> j.id !in s.filled)
    && (NotStarted(s, j) ==> j.id !in s.filled)
  }

  ghost predicate DirsTrue(s: Jobs) {
    && (forall j :: Unsettled(s, j) ==> DirOf(s, j))
    && (forall id :: id in s.filled ==> 1 <= id <= s.q.nextId)
    && forall key :: ByHandler(s, key) ==> key in s.held && s.held[key] == Empty
  }

  lemma SubmitDirs(s: Jobs, key: JobKey)
    requires Placed(s) && DirsTrue(s) && HandlerEnabled(s, Submit(key))
    ensures DirsTrue(SubmitNext(s, key))
  {
    var s' := SubmitNext(s, key);
    assert ByHandler(s, key);
    forall j | Unsettled(s', j) ensures DirOf(s', j) {
      SubmitJobs(s, key, j);
      if !Unsettled(s, j) {
        assert j == NewJob(s.q, key) && j.id !in s.filled;
      } else {
        assert DirOf(s, j);
        UnsettledIsAt(s, j);
        JobIsPlaced(s, j);
      }
    }
  }

  /** A handler's other steps on directories are on those of handlers, or of nobody. */
  lemma HandlerDirs(s: Jobs, h: HandlerStep)
    requires Placed(s) && HandlersOwn(s) && JobsOwn(s) && DirsTrue(s) && HandlerEnabled(s, h)
    requires !HandlerNext(s, h).erased
    ensures DirsTrue(HandlerNext(s, h))
  {
    if h.Submit? {
      SubmitDirs(s, h.key);
    } else {
      var s' := HandlerNext(s, h);
      forall j | Unsettled(s', j) ensures DirOf(s', j) {
        HandlerJobs(s, h, j);
        assert DirOf(s, j) && OwnedBy(s, j.key, TheJob(j.id)) && !ByHandler(s, j.key);
        NotStartedBefore(s, h, j);
      }
      forall key | ByHandler(s', key) ensures key in s'.held && s'.held[key] == Empty {
        if !h.Reserve? || key != h.key {
          assert ByHandler(s, key) && key in s.owners;
        }
      }
    }
  }

  lemma CancelStartsNone(s: Jobs, id: nat, j: Job)
    ensures NotStarted(CancelNext(s, id), j) ==> NotStarted(s, j)
  {
    if CancelOf(s.q, id).Removed? {
      var (pending, i) := (s.q.pending, Position(s.q.pending, id));
      assert forall x :: x in pending[..i] + pending[i+1..] ==> x in pending;
      assert pending[i] in pending;
    }
  }

  lemma CloseStartsNone(s: Jobs, j: Job)
    requires Placed(s)
    ensures NotStarted(CloseNext(s), j) ==> NotStarted(s, j)
  {
    DroppedIds(s.q.pending);
  }

  lemma NotStartedBefore(s: Jobs, h: HandlerStep, j: Job)
    requires Placed(s) && HandlerEnabled(s, h) && !h.Submit?
    ensures NotStarted(HandlerNext(s, h), j) ==> NotStarted(s, j)
  {
    match h
    case Cancel(id) => CancelStartsNone(s, id, j);
    case Close => CloseStartsNone(s, j);
    case _ =>
  }

  /** The running job's directory is nobody else's. */
  lemma RunningAlone(s: Jobs, j: Job)
    requires JobsOwn(s) && s.worker.Running? && Unsettled(s, j) && j.key == s.worker.job.key
    ensures j.id == s.worker.job.id
  {
    assert Unsettled(s, s.worker.job);
    assert OwnedBy(s, j.key, TheJob(j.id)) && OwnedBy(s, j.key, TheJob(s.worker.job.id));
  }

  /** The running job has been started. */
  lemma RunningStarted(s: Jobs, j: Job)
    requires Placed(s) && s.worker.Running? && j.id == s.worker.job.id
    ensures !NotStarted(s, j) && 1 <= j.id <= s.q.nextId
  {
    assert IsCurrent(s, j.id) && Places(s, j.id) == One(1 <= j.id <= s.q.nextId);
    if j in s.q.pending {
      WaitingAt(s, j);
    }
  }

  lemma WriteDirs(s: Jobs, w: WorkerStep)
    requires Placed(s) && HandlersOwn(s) && JobsOwn(s) && DirsTrue(s) && WorkerEnabled(s, w) && (w.Fill? || w.Move?)
    ensures DirsTrue(WorkerNext(s, w))
  {
    var s' := WorkerNext(s, w);
    var job := s.worker.job;
    assert Unsettled(s, job) && OwnedBy(s, job.key, TheJob(job.id));
    RunningStarted(s, job);
    forall j | Unsettled(s', j) ensures DirOf(s', j) {
      WorkerJobs(s, w, j);
      assert DirOf(s, j);
      if j.key == job.key {
        RunningAlone(s, j);
      }
      if j.id == job.id {
        RunningStarted(s, j);
        SameIdSameJob(s, j);
      }
    }
    forall key | ByHandler(s', key) ensures key in s'.held && s'.held[key] == Empty {
      assert ByHandler(s, key) && OwnedBy(s, key, AHandler);
    }
  }

  /** An unsettled job of the running job's id is that job. */
  lemma SameIdSameJob(s: Jobs, j: Job)
    requires Placed(s) && s.worker.Running? && Unsettled(s, j) && j.id == s.worker.job.id
    ensures j == s.worker.job
  {
    RunningStarted(s, j);
  }

  lemma WorkerDirs(s: Jobs, w: WorkerStep)
    requires Placed(s) && HandlersOwn(s) && JobsOwn(s) && DirsTrue(s) && WorkerEnabled(s, w)
    ensures DirsTrue(WorkerNext(s, w))
  {
    if w.Fill? || w.Move? {
      WriteDirs(s, w);
    } else {
      var s' := WorkerNext(s, w);
      forall j | Unsettled(s', j) ensures DirOf(s', j) {
        WorkerJobs(s, w, j);
        assert DirOf(s, j);
        assert NotStarted(s', j) ==> NotStarted(s, j);
      }
      assert forall key :: ByHandler(s', key) ==> ByHandler(s, key);
    }
  }

  lemma FinishDirs(s: Jobs, who: Option<nat>, f: FinishStep)
    requires Placed(s) && IndexTrue(s) && HandlersOwn(s) && JobsOwn(s) && DirsTrue(s) && FinishEnabled(s, who, f)
    ensures DirsTrue(FinishNext(s, who, f))
  {
    var s' := FinishNext(s, who, f);
    FinishingIsAt(s, who);
    FinishKeeps(s, who, f);
    var x := FinishingOf(s, who).value;
    forall j | Unsettled(s', j) ensures DirOf(s', j) {
      FinishJobs(s, who, f, j);
      assert DirOf(s, j);
      FinishStartsNone(s, who, f, j);
      if f.Settle? {
        OthersDir(s, who, f.works, j);
      }
    }
    forall key | ByHandler(s', key) ensures key in s'.held && s'.held[key] == Empty {
      assert ByHandler(s, key) && OwnedBy(s, key, AHandler);
      if f.Settle? {
        assert Unsettled(s, x.job) && OwnedBy(s, x.job.key, TheJob(x.job.id));
      }
    }
  }

  lemma FinishStartsNone(s: Jobs, who: Option<nat>, f: FinishStep, j: Job)
    requires FinishEnabled(s, who, f)
    ensures NotStarted(FinishNext(s, who, f), j) ==> NotStarted(s, j)
    ensures FinishNext(s, who, f).filled == s.filled && FinishNext(s, who, f).q.nextId == s.q.nextId
  {
  }

  /** Settling one job leaves the directory of every job still unsettled as it was. */
  lemma OthersDir(s: Jobs, who: Option<nat>, works: bool, j: Job)
    requires Placed(s) && IndexTrue(s) && JobsOwn(s) && FinishEnabled(s, who, Settle(works))
    requires Unsettled(s, j) && Unsettled(SettleNext(s, who, works), j)
    ensures var s' := SettleNext(s, who, works);
      (j.key in s.held <==> j.key in s'.held) && (j.key in s.held ==> s'.held[j.key] == s.held[j.key])
  {
    var x := FinishingOf(s, who).value;
    FinishingIsAt(s, who);
    FinishJobs(s, who, Settle(works), j);
    assert Unsettled(s, x.job) && OwnedBy(s, x.job.key, TheJob(x.job.id)) && OwnedBy(s, j.key, TheJob(j.id));
  }

  lemma DirsStep(s: Jobs, step: Step)
    requires Placed(s) && IndexTrue(s) && Owned(s) && DirsTrue(s) && Enabled(s, step) && !Next(s, step).erased
    ensures DirsTrue(Next(s, step))
  {
    match step
    case Handler(h) => HandlerDirs(s, h);
    case Work(w) => WorkerDirs(s, w);
    case Finish(who, f) => FinishDirs(s, who, f);
    case Reader(r) =>
      forall j | Unsettled(ReaderNext(s, r), j) ensures DirOf(ReaderNext(s, r), j) {
        assert Unsettled(s, j) && DirOf(s, j);
      }
  }

  // ------------------------------------------------------------- whole runs

  lemma {:induction false} ReachableDirs(s0: Jobs, steps: seq<Step>)
    requires Initial(s0) && Possible(s0, steps) && !After(s0, steps).erased
    ensures DirsTrue(After(s0, steps))
    decreases |steps|
  {
    if steps != [] {
      var s, step := After(s0, steps[..|steps|-1]), steps[|steps|-1];
      if s.erased {
        ErasedStays(s, step);
      }
      ReachableTrue(s0, steps[..|steps|-1]);
      ReachableOwned(s0, steps[..|steps|-1]);
      ReachableDirs(s0, steps[..|steps|-1]);
      DirsStep(s, step);
    }
  }

  /** The directory is committed, and no handler's or job's any more. */
  predicate InPlace(s: Jobs, key: JobKey) {
    key in s.held && s.held[key] == Committed && key !in s.owners
  }

  /** What a finalizer's directory step leaves, when its file operation works. */
  lemma SettleKeepsWork(s: Jobs, who: Option<nat>)
    requires Placed(s) && IndexTrue(s) && Owned(s) && DirsTrue(s) && FinishEnabled(s, who, Settle(true))
    ensures var (j, s') := (FinishingOf(s, who).value.job, SettleNext(s, who, true));
      && (if j.id in s.filled then InPlace(s', j.key) else j.key !in s'.held)
      && (who.Some? ==> j.id !in s.filled)
      && forall key :: key != j.key ==>
        (key in s'.held <==> key in s.held) && (key in s.held ==> s'.held[key] == s.held[key])
  {
    FinishingIsAt(s, who);
    var j := FinishingOf(s, who).value.job;
    assert Unsettled(s, j) && DirOf(s, j) && OwnedBy(s, j.key, TheJob(j.id));
  }

  lemma HandlerInPlace(s: Jobs, h: HandlerStep, key: JobKey)
    requires HandlersOwn(s) && HandlerEnabled(s, h) && InPlace(s, key) && h != Erase(key)
    ensures InPlace(HandlerNext(s, h), key)
  {
    assert !ByHandler(s, key);
  }

  lemma WorkerInPlace(s: Jobs, w: WorkerStep, key: JobKey)
    requires JobsOwn(s) && WorkerEnabled(s, w) && InPlace(s, key)
    ensures InPlace(WorkerNext(s, w), key)
  {
    if s.worker.Running? {
      assert Unsettled(s, s.worker.job) && OwnedBy(s, s.worker.job.key, TheJob(s.worker.job.id));
    }
  }

  lemma FinishInPlace(s: Jobs, who: Option<nat>, f: FinishStep, key: JobKey)
    requires Placed(s) && IndexTrue(s) && Owned(s) && DirsTrue(s) && FinishEnabled(s, who, f) && InPlace(s, key)
    ensures InPlace(FinishNext(s, who, f), key)
  {
    FinishKeeps(s, who, f);
    if f.Settle? {
      FinishingIsAt(s, who);
      var j := FinishingOf(s, who).value.job;
      assert Unsettled(s, j) && OwnedBy(s, j.key, TheJob(j.id));
    }
  }

  lemma InPlaceStays(s: Jobs, step: Step, key: JobKey)
    requires Placed(s) && IndexTrue(s) && Owned(s) && DirsTrue(s) && Enabled(s, step) && InPlace(s, key)
    requires step != Handler(Erase(key))
    ensures InPlace(Next(s, step), key)
  {
    match step
    case Handler(h) => HandlerInPlace(s, h, key);
    case Work(w) => WorkerInPlace(s, w, key);
    case Finish(who, f) => FinishInPlace(s, who, f, key);
    case Reader(r) =>
  }

  lemma {:induction false} InPlaceThroughout(s0: Jobs, steps: seq<Step>, from: nat, key: JobKey)
    requires Initial(s0) && Possible(s0, steps) && from <= |steps| && Possible(s0, steps[..from])
    requires !After(s0, steps).erased && InPlace(After(s0, steps[..from]), key)
    requires forall i :: from <= i < |steps| ==> steps[i] != Handler(Erase(key))
    ensures InPlace(After(s0, steps), key)
    decreases |steps|
  {
    if from == |steps| {
      assert steps[..from] == steps;
    } else {
      var init := steps[..|steps|-1];
      assert init[..from] == steps[..from];
      if After(s0, init).erased {
        ErasedStays(After(s0, init), steps[|steps|-1]);
      }
      InPlaceThroughout(s0, init, from, key);
      ReachableTrue(s0, init);
      ReachableOwned(s0, init);
      ReachableDirs(s0, init);
      InPlaceStays(After(s0, init), steps[|steps|-1], key);
    }
  }

  lemma FilledGrows(s: Jobs, step: Step)
    requires Enabled(s, step)
    ensures s.filled <= Next(s, step).filled
  {
  }

  lemma {:induction false} FilledStays(s0: Jobs, steps: seq<Step>, at: nat, id: nat)
    requires Possible(s0, steps) && at <= |steps| && Possible(s0, steps[..at]) && id in After(s0, steps[..at]).filled
    ensures id in After(s0, steps).filled
    decreases |steps|
  {
    if at == |steps| {
      assert steps[..at] == steps;
    } else {
      var init := steps[..|steps|-1];
      assert init[..at] == steps[..at];
      FilledStays(s0, init, at, id);
      FilledGrows(After(s0, init), steps[|steps|-1]);
    }
  }

  lemma OneStep(s0: Jobs, steps: seq<Step>, at: nat)
    requires Possible(s0, steps) && at < |steps|
    ensures Possible(s0, steps[..at]) && Possible(s0, steps[..at+1])
    ensures Enabled(After(s0, steps[..at]), steps[at])
    ensures After(s0, steps[..at+1]) == Next(After(s0, steps[..at]), steps[at])
  {
    PrefixPossible(s0, steps, at + 1);
    assert steps[..at+1][..at] == steps[..at];
  }

  lemma {:induction false} ErasedThroughout(s0: Jobs, steps: seq<Step>, at: nat)
    requires Possible(s0, steps) && at <= |steps| && Possible(s0, steps[..at]) && !After(s0, steps).erased
    ensures !After(s0, steps[..at]).erased
    decreases |steps|
  {
    if at == |steps| {
      assert steps[..at] == steps;
    } else {
      var init := steps[..|steps|-1];
      assert init[..at] == steps[..at];
      if After(s0, init).erased {
        ErasedStays(After(s0, init), steps[|steps|-1]);
      }
      ErasedThroughout(s0, init, at);
    }
  }

  /** The job the worker finalizes at that step of the run, with its directory step working. */
  predicate SettlesJob(s0: Jobs, steps: seq<Step>, at: nat, who: Option<nat>, j: Job) {
    && at < |steps| && steps[at] == Finish(who, Settle(true)) && Possible(s0, steps[..at])
    && FinishingOf(After(s0, steps[..at]), who).Some? && FinishingOf(After(s0, steps[..at]), who).value.job == j
  }

  /** The step writes into, or moves into place, the directory of the job that runs. */
  predicate WritesFor(s0: Jobs, steps: seq<Step>, at: nat, j: Job) {
    && at < |steps| && (steps[at] == Work(Fill) || steps[at] == Work(Move)) && Possible(s0, steps[..at])
    && After(s0, steps[..at]).worker.Running? && After(s0, steps[..at]).worker.job == j
  }

  /**
   Finished work is kept: once a job has written into its directory or moved it
   into place, and its finalizer's directory step worked, the directory is
   committed and stays so to the end of the run, unless a user deletes it.
   */
  lemma FinishedWorkIsKept(s0: Jobs, steps: seq<Step>, wrote: nat, settled: nat, who: Option<nat>, j: Job)
    requires Initial(s0) && Possible(s0, steps) && !After(s0, steps).erased
    requires wrote < settled && WritesFor(s0, steps, wrote, j) && SettlesJob(s0, steps, settled, who, j)
    requires forall i :: settled < i < |steps| ==> steps[i] != Handler(Erase(j.key))
    ensures InPlace(After(s0, steps), j.key)
  {
    WroteIsFilled(s0, steps, wrote, settled, j);
    SettledInPlace(s0, steps, settled, who, j);
    InPlaceThroughout(s0, steps, settled + 1, j.key);
  }

  lemma SettledInPlace(s0: Jobs, steps: seq<Step>, at: nat, who: Option<nat>, j: Job)
    requires Initial(s0) && Possible(s0, steps) && !After(s0, steps).erased && SettlesJob(s0, steps, at, who, j)
    requires j.id in After(s0, steps[..at]).filled
    ensures Possible(s0, steps[..at+1]) && InPlace(After(s0, steps[..at+1]), j.key)
  {
    SettledAt(s0, steps, at, who, j);
  }

  lemma WroteIsFilled(s0: Jobs, steps: seq<Step>, wrote: nat, to: nat, j: Job)
    requires Possible(s0, steps) && wrote < to <= |steps| && Possible(s0, steps[..to]) && WritesFor(s0, steps, wrote, j)
    ensures j.id in After(s0, steps[..to]).filled
  {
    OneStep(s0, steps, wrote);
    assert steps[..to][..wrote+1] == steps[..wrote+1];
    FilledStays(s0, steps[..to], wrote + 1, j.id);
  }

  lemma SettledAt(s0: Jobs, steps: seq<Step>, at: nat, who: Option<nat>, j: Job)
    requires Initial(s0) && Possible(s0, steps) && !After(s0, steps).erased && SettlesJob(s0, steps, at, who, j)
    ensures Possible(s0, steps[..at+1])
    ensures var s' := After(s0, steps[..at+1]);
      && (if j.id in After(s0, steps[..at]).filled then InPlace(s', j.key) else j.key !in s'.held)
      && (who.Some? ==> j.id !in After(s0, steps[..at]).filled)
  {
    OneStep(s0, steps, at);
    ErasedThroughout(s0, steps, at);
    ReachableTrue(s0, steps[..at]);
    ReachableOwned(s0, steps[..at]);
    ReachableDirs(s0, steps[..at]);
    SettleKeepsWork(After(s0, steps[..at]), who);
  }

  /** A job cancelled before it started leaves no directory behind. */
  lemma UnstartedLeavesNothing(s0: Jobs, steps: seq<Step>, at: nat, j: Job)
    requires Initial(s0) && Possible(s0, steps) && !After(s0, steps).erased
    requires SettlesJob(s0, steps, at, Some(j.id), j)
    ensures Possible(s0, steps[..at+1]) && j.key !in After(s0, steps[..at+1]).held
  {
    SettledAt(s0, steps, at, Some(j.id), j);
  }
}
