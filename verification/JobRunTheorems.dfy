/**
 The job queue over whole runs: any series of steps of the handlers, the
 worker, the cancelling goroutines and the readers from a fresh start.
 */
module JobRunTheorems {
  import opened Wrappers
  import opened EventStream
  import opened EventFeed
  import opened JobQueue
  import opened JobRuns
  import opened JobRunSafety
  import opened JobRunDeeds
  import opened JobRunIndex

  lemma InitialTrue(s: Jobs)
    requires Initial(s)
    ensures Placed(s) && DeedsTrue(s) && Told(s) && IndexTrue(s) && Owned(s)
  {
    assert forall id: nat :: Places(s, id) == 0;
  }

  lemma {:induction false} ReachableTrue(s0: Jobs, steps: seq<Step>)
    requires Initial(s0) && Possible(s0, steps)
    ensures var s := After(s0, steps); Placed(s) && DeedsTrue(s) && Told(s) && IndexTrue(s)
    decreases |steps|
  {
    if steps == [] {
      InitialTrue(s0);
    } else {
      var s, step := After(s0, steps[..|steps|-1]), steps[|steps|-1];
      ReachableTrue(s0, steps[..|steps|-1]);
      PlacedStep(s, step);
      DeedsStep(s, step);
      ToldStep(s, step);
      IndexStep(s, step);
    }
  }

  lemma ErasedStays(s: Jobs, step: Step)
    requires Enabled(s, step) && s.erased
    ensures Next(s, step).erased
  {
  }

  lemma {:induction false} ReachableOwned(s0: Jobs, steps: seq<Step>)
    requires Initial(s0) && Possible(s0, steps) && !After(s0, steps).erased
    ensures Owned(After(s0, steps))
    decreases |steps|
  {
    if steps == [] {
      InitialTrue(s0);
    } else {
      var s, step := After(s0, steps[..|steps|-1]), steps[|steps|-1];
      if s.erased {
        ErasedStays(s, step);
      }
      ReachableTrue(s0, steps[..|steps|-1]);
      ReachableOwned(s0, steps[..|steps|-1]);
      OwnedStep(s, step);
    }
  }

  /**
   Every job ever submitted, and no other, is in exactly one place: waiting,
   being cancelled, current, announced as ended, or dropped by Close.
   */
  lemma EveryJobInOnePlace(s0: Jobs, steps: seq<Step>, id: nat)
    requires Initial(s0) && Possible(s0, steps)
    ensures var s := After(s0, steps); Places(s, id) == One(1 <= id <= s.q.nextId)
  {
    ReachableTrue(s0, steps);
  }

  /**
   Jobs start in the order they were submitted; none starts, is finalized or is
   announced twice; the end events emitted are one per announced job, in order;
   a job Close dropped is never finalized.
   */
  lemma EachDeedOnceInOrder(s0: Jobs, steps: seq<Step>)
    requires Initial(s0) && Possible(s0, steps)
    ensures var s := After(s0, steps);
      && Once(s.trail) && StartsInOrder(s.trail) && StartsFirst(s)
      && EndsOf(s.q.feed.log) == Announcements(s.trail)
      && forall id :: id in s.dropped ==> !IsSettled(s.trail, id) && !IsAnnounced(s.trail, id)
  {
    ReachableTrue(s0, steps);
    var s := After(s0, steps);
    forall id | id in s.dropped ensures !IsSettled(s.trail, id) && !IsAnnounced(s.trail, id) {
      assert Unsettled(s, s.dropped[id]);
      JobIsPlaced(s, s.dropped[id]);
    }
  }

  /**
   While no user has deleted a directory that a job had not let go of, every
   finalizer finds its job, each end event follows the job's finalizer with the
   same state, and what a finalizer settles is its own job's directory.
   */
  lemma FinalizersFindTheirJobs(s0: Jobs, steps: seq<Step>)
    requires Initial(s0) && Possible(s0, steps) && !After(s0, steps).erased
    ensures var s := After(s0, steps);
      && AnnouncedLast(s.trail)
      && forall who :: FinishEnabled(s, who, LookUp) ==>
           Found(s.x, FinishingOf(s, who).value.job.id) == Some(FinishingOf(s, who).value.job)
    ensures var s := After(s0, steps);
      forall who :: FinishEnabled(s, who, Settle(true)) ==>
        OwnedBy(s, FinishingOf(s, who).value.mark.found.key, TheJob(FinishingOf(s, who).value.job.id))
  {
    var s := After(s0, steps);
    ReachableTrue(s0, steps);
    ReachableOwned(s0, steps);
    forall who | FinishingOf(s, who).Some? && StillEarly(s, who)
      ensures Found(s.x, FinishingOf(s, who).value.job.id) == Some(FinishingOf(s, who).value.job)
      ensures OwnedBy(s, FinishingOf(s, who).value.job.key, TheJob(FinishingOf(s, who).value.job.id))
    {
      FinishingIsAt(s, who);
    }
  }

  /** An announced job is in no index: a route finds no live job after its end event. */
  lemma NoIndexNamesAnEndedJob(s0: Jobs, steps: seq<Step>, key: JobKey)
    requires Initial(s0) && Possible(s0, steps)
    ensures var s := After(s0, steps);
      && (key in s.x.byKey ==> s.x.byKey[key].key == key && !IsAnnounced(s.trail, s.x.byKey[key].id))
      && (key.project in s.x.byProject ==>
            s.x.byProject[key.project].key.project == key.project
              && !IsAnnounced(s.trail, s.x.byProject[key.project].id))
  {
    ReachableTrue(s0, steps);
  }

  // --------------------------------------------- who can lose its entry

  ghost predicate Tracked(s: Jobs) {
    forall j :: Unsettled(s, j) ==> j.id in s.x.byQueue
  }

  /** A turned-away handler clears the key of a job that is not settled. */
  predicate UntracksAnother(s: Jobs, step: Step) {
    step.Handler? && step.h.Untrack? && step.h.key in s.x.byKey && Unsettled(s, s.x.byKey[step.h.key])
  }

  lemma HandlerTracked(s: Jobs, h: HandlerStep)
    requires Placed(s) && IndexTrue(s) && Tracked(s) && HandlerEnabled(s, h)
    requires !UntracksAnother(s, Handler(h))
    ensures Tracked(HandlerNext(s, h))
  {
    var s' := HandlerNext(s, h);
    forall j | Unsettled(s', j) ensures j.id in s'.x.byQueue {
      HandlerJobs(s, h, j);
      if Unsettled(s, j) {
        UnsettledIsAt(s, j);
      }
    }
  }

  lemma UntrackTakes(s: Jobs, key: JobKey)
    requires UntracksAnother(s, Handler(Untrack(key))) && HandlerEnabled(s, Untrack(key))
    ensures !Tracked(HandlerNext(s, Untrack(key)))
  {
    assert Unsettled(HandlerNext(s, Untrack(key)), s.x.byKey[key]);
  }

  lemma FinishTracked(s: Jobs, who: Option<nat>, f: FinishStep)
    requires Placed(s) && IndexTrue(s) && Tracked(s) && FinishEnabled(s, who, f)
    ensures Tracked(FinishNext(s, who, f))
  {
    forall j | Unsettled(FinishNext(s, who, f), j) ensures j.id in FinishNext(s, who, f).x.byQueue {
      FinishJobs(s, who, f, j);
    }
  }

  /**
   The one step that can take a job from its finalizer is the clean-up of a
   turned-away handler that was given the same directory name.
   */
  lemma TrackedUnlessUntracked(s: Jobs, step: Step)
    requires Placed(s) && IndexTrue(s) && Tracked(s) && Enabled(s, step)
    ensures Tracked(Next(s, step)) <==> !UntracksAnother(s, step)
  {
    match step
    case Handler(h) =>
      if UntracksAnother(s, step) {
        UntrackTakes(s, h.key);
      } else {
        HandlerTracked(s, h);
      }
    case Work(w) =>
      forall j | Unsettled(WorkerNext(s, w), j) ensures j.id in s.x.byQueue {
        WorkerJobs(s, w, j);
      }
    case Finish(who, f) => FinishTracked(s, who, f);
    case Reader(r) =>
      forall j | Unsettled(ReaderNext(s, r), j) ensures j.id in s.x.byQueue {
        assert Unsettled(s, j);
      }
  }

  ghost predicate Routed(s: Jobs) {
    forall j :: Unsettled(s, j) ==> j.key in s.x.byKey && s.x.byKey[j.key] == j
  }

  /** A finalizer's last section removes the key of a newer job. */
  predicate DropsAnother(s: Jobs, step: Step)
    requires Enabled(s, step)
  {
    step.Finish? && step.f.Drop? &&
    var key := FinishingOf(s, step.who).value.mark.found.key;
    key in s.x.byKey && Unsettled(s, s.x.byKey[key])
  }

  lemma DropRoutes(s: Jobs, who: Option<nat>)
    requires Placed(s) && IndexTrue(s) && Routed(s) && FinishEnabled(s, who, Drop)
    ensures Routed(FinishNext(s, who, Drop)) <==> !DropsAnother(s, Finish(who, Drop))
  {
    var s' := FinishNext(s, who, Drop);
    var key := FinishingOf(s, who).value.mark.found.key;
    if DropsAnother(s, Finish(who, Drop)) {
      var j := s.x.byKey[key];
      FinisherIsAlone(s, who);
      assert Unsettled(s', j);
    } else {
      forall j | Unsettled(s', j) ensures j.key in s'.x.byKey && s'.x.byKey[j.key] == j {
        FinishJobs(s, who, Drop, j);
      }
    }
  }

  lemma HandlerRouted(s: Jobs, h: HandlerStep)
    requires Placed(s) && HandlersOwn(s) && JobsOwn(s) && Routed(s) && HandlerEnabled(s, h)
    ensures Routed(HandlerNext(s, h))
  {
    var s' := HandlerNext(s, h);
    forall j | Unsettled(s', j) ensures j.key in s'.x.byKey && s'.x.byKey[j.key] == j {
      HandlerJobs(s, h, j);
      if Unsettled(s, j) {
        assert OwnedBy(s, j.key, TheJob(j.id));
        assert h.Submit? || h.Untrack? ==> h.key != j.key;
      }
    }
  }

  lemma FinishRouted(s: Jobs, who: Option<nat>, f: FinishStep)
    requires Placed(s) && Routed(s) && FinishEnabled(s, who, f) && !f.Drop?
    ensures Routed(FinishNext(s, who, f))
  {
    forall j | Unsettled(FinishNext(s, who, f), j) ensures Unsettled(s, j) {
      FinishJobs(s, who, f, j);
    }
    assert FinishNext(s, who, f).x == s.x;
  }

  /**
   While no directory was deleted from under its job, a route finds every job
   not yet settled, until, and only until, a finalizer drops a key that a newer
   job was given in the same second.
   */
  lemma RoutedUnlessDropped(s: Jobs, step: Step)
    requires Placed(s) && IndexTrue(s) && Owned(s) && Routed(s) && Enabled(s, step)
    ensures Routed(Next(s, step)) <==> !DropsAnother(s, step)
  {
    match step
    case Handler(h) => HandlerRouted(s, h);
    case Work(w) =>
      forall j | Unsettled(WorkerNext(s, w), j) ensures Unsettled(s, j) {
        WorkerJobs(s, w, j);
      }
    case Finish(who, f) =>
      if f.Drop? {
        DropRoutes(s, who);
      } else {
        FinishRouted(s, who, f);
      }
    case Reader(r) =>
      forall j | Unsettled(ReaderNext(s, r), j) ensures Unsettled(s, j) {
      }
  }

  /** What LiveState answers for a routed job: live, and running exactly while it is the current one. */
  lemma RoutedIsLive(s: Jobs, j: Job)
    requires Placed(s) && Routed(s) && Unsettled(s, j)
    ensures LiveOf(s.x, s.q.current, j.key) == Some(Live(j, s.q.current == Some(j)))
  {
    UnsettledIsAt(s, j);
    assert Places(s, j.id) == One(1 <= j.id <= s.q.nextId);
    if j in s.q.pending {
      WaitingIsAlone(s, j);
    }
  }

  /** No step of the run drops the key of a newer job. */
  predicate NoneDropsAnother(s0: Jobs, steps: seq<Step>)
    requires Possible(s0, steps)
    decreases |steps|
  {
    steps != [] ==>
      && NoneDropsAnother(s0, steps[..|steps|-1])
      && !DropsAnother(After(s0, steps[..|steps|-1]), steps[|steps|-1])
  }

  /** So in every run without the two races, LiveState is right about every job not yet settled. */
  lemma {:induction false} RoutedThroughout(s0: Jobs, steps: seq<Step>)
    requires Initial(s0) && Possible(s0, steps) && NoneDropsAnother(s0, steps) && !After(s0, steps).erased
    ensures Routed(After(s0, steps))
    ensures var s := After(s0, steps);
      forall j :: Unsettled(s, j) ==> LiveOf(s.x, s.q.current, j.key) == Some(Live(j, s.q.current == Some(j)))
    decreases |steps|
  {
    ReachableTrue(s0, steps);
    if steps != [] {
      var s, step := After(s0, steps[..|steps|-1]), steps[|steps|-1];
      if s.erased {
        ErasedStays(s, step);
      }
      RoutedThroughout(s0, steps[..|steps|-1]);
      ReachableTrue(s0, steps[..|steps|-1]);
      ReachableOwned(s0, steps[..|steps|-1]);
      RoutedUnlessDropped(s, step);
    }
    var s := After(s0, steps);
    forall j | Unsettled(s, j) ensures LiveOf(s.x, s.q.current, j.key) == Some(Live(j, s.q.current == Some(j))) {
      RoutedIsLive(s, j);
    }
  }

  // ------------------------------------------------------------ after Close

  lemma FinishStartsNothing(s: Jobs, who: Option<nat>, f: FinishStep, id: nat)
    requires FinishEnabled(s, who, f)
    ensures Started(id) in FinishNext(s, who, f).trail ==> Started(id) in s.trail
  {
    FinishTrail(s, who, f);
  }

  lemma ClosedStep(s: Jobs, step: Step, id: nat)
    requires Placed(s) && s.q.closed && Enabled(s, step)
    ensures Next(s, step).q.closed && Next(s, step).q.nextId == s.q.nextId && Next(s, step).dropped == s.dropped
    ensures Started(id) in Next(s, step).trail ==> Started(id) in s.trail
  {
    match step
    case Handler(h) => ClosedHandler(s, h);
    case Work(w) => assert !w.Pop?;
    case Finish(who, f) => FinishStartsNothing(s, who, f, id);
    case Reader(r) =>
  }

  lemma ClosedHandler(s: Jobs, h: HandlerStep)
    requires s.q.closed && s.q.pending == [] && HandlerEnabled(s, h)
    ensures var s' := HandlerNext(s, h);
      s'.q.closed && s'.q.nextId == s.q.nextId && s'.dropped == s.dropped && s'.trail == s.trail
  {
  }

  lemma {:induction false} PrefixPossible(s0: Jobs, steps: seq<Step>, from: nat)
    requires Possible(s0, steps) && from <= |steps|
    ensures Possible(s0, steps[..from])
    decreases |steps|
  {
    if from < |steps| {
      PrefixPossible(s0, steps[..|steps|-1], from);
      assert steps[..|steps|-1][..from] == steps[..from];
    } else {
      assert steps[..from] == steps;
    }
  }

  /** Close is final: no job is submitted or started after it, and what it dropped stays dropped. */
  lemma {:induction false} ClosedStaysClosed(s0: Jobs, steps: seq<Step>, from: nat, id: nat)
    requires Initial(s0) && Possible(s0, steps) && from <= |steps|
    requires Possible(s0, steps[..from]) && After(s0, steps[..from]).q.closed
    ensures var (s, s') := (After(s0, steps[..from]), After(s0, steps));
      && s'.q.closed && s'.q.nextId == s.q.nextId && s'.dropped == s.dropped && s'.q.pending == []
      && (Started(id) in s'.trail ==> Started(id) in s.trail)
    decreases |steps|
  {
    ReachableTrue(s0, steps);
    if from == |steps| {
      assert steps[..from] == steps;
    } else {
      var init := steps[..|steps|-1];
      assert init[..from] == steps[..from];
      ClosedStaysClosed(s0, init, from, id);
      ReachableTrue(s0, init);
      ClosedStep(After(s0, init), steps[|steps|-1], id);
    }
  }

  // ---------------------------------------------------- the subscriber's side

  /**
   A subscriber that never lost an event has been sent exactly the stream of
   its connection: the trimmed replay, then everything emitted since.
   */
  lemma SubscriberGotItsStream(s0: Jobs, steps: seq<Step>, i: nat)
    requires Initial(s0) && Possible(s0, steps)
    requires i in After(s0, steps).q.feed.subs && !After(s0, steps).q.feed.subs[i].lost
    ensures var f := After(s0, steps).q.feed;
      && f.subs[i].base <= f.subs[i].joined <= |f.log|
      && f.subs[i].sent == AsSent(Stream(f.log[f.subs[i].base..], f.subs[i].joined - f.subs[i].base))
  {
    ReachableTrue(s0, steps);
  }

  // ------------------------------------------------- the two failing runs

  ghost predicate Leads(s0: Jobs, steps: seq<Step>, s: Jobs) {
    Possible(s0, steps) && After(s0, steps) == s
  }

  lemma OneMore(s0: Jobs, steps: seq<Step>, s: Jobs, step: Step) returns (more: seq<Step>, s': Jobs)
    requires Leads(s0, steps, s) && Enabled(s, step)
    ensures Leads(s0, more, s') && s' == Next(s, step)
  {
    more, s' := steps + [step], Next(s, step);
    assert more[..|more|-1] == steps;
  }

  const FRESH := Jobs(QueueState(0, [], false, None, false, Feed([], map[], 0, [], 0)), Index(map[], map[], map[]),
                      map[], Idle, map[], {}, {}, {}, map[], [], map[], false, {})
  const KEY := JobKey("project", "analysis", "20260101T000000Z")

  lemma Reserves(s0: Jobs, steps: seq<Step>, s: Jobs) returns (more: seq<Step>, s': Jobs)
    requires Leads(s0, steps, s) && KEY !in s.held
    ensures Leads(s0, more, s')
    ensures s' == s.(held := s.held[KEY := Empty], reserved := s.reserved + {KEY}, owners := s.owners[KEY := AHandler])
  {
    more, s' := OneMore(s0, steps, s, Handler(Reserve(KEY)));
  }

  /** A handler reserves the directory and submits; the queue is open. */
  lemma Submits(s0: Jobs, steps: seq<Step>, s: Jobs) returns (more: seq<Step>, s': Jobs)
    requires Leads(s0, steps, s) && KEY !in s.held && KEY !in s.reserved && !s.q.closed && s.q.pending == []
    ensures Leads(s0, more, s')
    ensures s' == s.(held := s.held[KEY := Empty],
                     q := s.q.(nextId := s.q.nextId + 1, pending := [Job(s.q.nextId + 1, KEY)]),
                     x := TrackedIn(s.x, Job(s.q.nextId + 1, KEY)), owners := s.owners[KEY := TheJob(s.q.nextId + 1)])
  {
    var a, x := Reserves(s0, steps, s);
    more, s' := OneMore(s0, a, x, Handler(Submit(KEY)));
    assert s' == SubmitNext(x, KEY);
    assert x.reserved - {KEY} == s.reserved;
    assert s.owners[KEY := AHandler][KEY := TheJob(s.q.nextId + 1)] == s.owners[KEY := TheJob(s.q.nextId + 1)];
  }

  /** The waiting job is cancelled, and its goroutine discards its empty directory. */
  lemma CancelsAndDiscards(s0: Jobs, steps: seq<Step>, s: Jobs) returns (more: seq<Step>, s': Jobs)
    requires Leads(s0, steps, s) && s.q.pending == [Job(1, KEY)] && s.q.current == None && s.cancels == map[]
    requires 1 in s.x.byQueue && s.x.byQueue[1] == Job(1, KEY) && KEY in s.held && s.held[KEY] == Empty
    ensures Leads(s0, more, s')
    ensures s'.q == s.q.(pending := []) && s'.x == s.x && KEY !in s'.held && s'.reserved == s.reserved
      && s'.erased == s.erased
    ensures FinishEnabled(s', Some(1), Drop) && s'.cancels[1].mark.found == Job(1, KEY)
      && s'.cancels[1].job == Job(1, KEY)
  {
    var a, x := OneMore(s0, steps, s, Handler(Cancel(1)));
    assert x.q == s.q.(pending := []);
    var b, y := OneMore(s0, a, x, Finish(Some(1), LookUp));
    more, s' := OneMore(s0, b, y, Finish(Some(1), Settle(true)));
  }

  /**
   Cancel a waiting job and queue another at once: the new one is given the
   directory name the old one's goroutine has just discarded, and the old one's
   last section then takes the new one's entry.  The new job waits in the queue
   and no route finds it.
   */
  lemma ANewerJobLosesItsRoute() returns (s0: Jobs, steps: seq<Step>)
    ensures Initial(s0) && Possible(s0, steps)
    ensures var s := After(s0, steps);
      !s.erased && s.q.pending == [Job(2, KEY)] && LiveOf(s.x, s.q.current, KEY) == None
  {
    s0 := FRESH;
    assert Leads(s0, [], s0);
    var a, x := Submits(s0, [], s0);
    var b, y := CancelsAndDiscards(s0, a, x);
    var c, z := Submits(s0, b, y);
    var d, last := OneMore(s0, c, z, Finish(Some(1), Drop));
    steps := d;
  }

  /** An analysis starts and moves its directory into place, and a user deletes it. */
  lemma RunsAndIsErased(s0: Jobs, steps: seq<Step>, s: Jobs) returns (more: seq<Step>, s': Jobs)
    requires Leads(s0, steps, s) && s.q.pending == [Job(1, KEY)] && s.worker == Idle && KEY in s.held && KEY in s.owners
    ensures Leads(s0, more, s')
    ensures s'.worker == Running(Job(1, KEY), true) && s'.x == s.x && KEY !in s'.held && s'.reserved == s.reserved
    ensures s'.q.closed == s.q.closed && s'.erased
  {
    var a, x := OneMore(s0, steps, s, Work(Pop));
    var b, y := OneMore(s0, a, x, Work(Move));
    more, s' := OneMore(s0, b, y, Handler(Erase(KEY)));
  }

  /** A handler is given that name again, finds the queue closed, and clears the key. */
  lemma IsTurnedAway(s0: Jobs, steps: seq<Step>, s: Jobs) returns (more: seq<Step>, s': Jobs)
    requires Leads(s0, steps, s) && KEY !in s.held && !s.q.closed && s.erased
    requires KEY in s.x.byKey && s.x.byKey[KEY] == Job(1, KEY)
    ensures Leads(s0, more, s')
    ensures s'.worker == s.worker && 1 !in s'.x.byQueue && s'.erased
  {
    var a, x := OneMore(s0, steps, s, Handler(Reserve(KEY)));
    var b, y := OneMore(s0, a, x, Handler(Close));
    var c, z := OneMore(s0, b, y, Handler(Submit(KEY)));
    more, s' := OneMore(s0, c, z, Handler(Untrack(KEY)));
  }

  /**
   Why FinalizersFindTheirJobs needs its condition: delete the directory an
   analysis has just moved into place, queue another in the same second, and
   close the queue before it is submitted.  The clean-up of the second takes the
   first, which still runs, out of the index, and its finalizer finds nothing.
   */
  lemma AFinalizerFindsNothing() returns (s0: Jobs, steps: seq<Step>)
    ensures Initial(s0) && Possible(s0, steps)
    ensures var s := After(s0, steps);
      s.erased && FinishEnabled(s, None, LookUp) && Found(s.x, FinishingOf(s, None).value.job.id) == None
  {
    s0 := FRESH;
    assert Leads(s0, [], s0);
    var a, x := Submits(s0, [], s0);
    var b, y := RunsAndIsErased(s0, a, x);
    var c, z := IsTurnedAway(s0, b, y);
    var d, last := OneMore(s0, c, z, Work(Return(NoError)));
    steps := d;
  }
}
