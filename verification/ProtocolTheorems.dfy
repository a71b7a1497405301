/**
 The import protocol over whole runs: any series of steps from a first start,
 crashes between any two of them included.
 */
module ProtocolTheorems {
  import opened Wrappers
  import opened Records
  import opened RecordStore
  import opened Publishing
  import opened Attempts
  import opened ImportQueue
  import opened Protocol
  import opened ProtocolSafety
  import opened ProtocolQueue
  import opened ProtocolTurns
  import opened ProtocolWrites

  lemma {:induction false} ReachableSafe(w: World, s0: System, steps: seq<Step>)
    requires ValidWorld(w) && Initial(s0) && Possible(w, s0, steps)
    ensures Safe(w, After(w, s0, steps)) && Disciplined(After(w, s0, steps)) && Turns(After(w, s0, steps))
    decreases |steps|
  {
    if steps != [] {
      var init := steps[..|steps|-1];
      ReachableSafe(w, s0, init);
      SafeStep(w, After(w, s0, init), steps[|steps|-1]);
      DisciplinedStep(w, After(w, s0, init), steps[|steps|-1]);
      TurnsStep(w, After(w, s0, init), steps[|steps|-1]);
    }
  }

  lemma OnePast(w: World, s0: System, a: seq<Step>, x: Step)
    ensures Possible(w, s0, a + [x]) <==> Possible(w, s0, a) && Enabled(w, After(w, s0, a), x)
    ensures After(w, s0, a + [x]) == Next(w, After(w, s0, a), x)
  {
    assert (a + [x])[..|a + [x]|-1] == a;
  }

  lemma {:induction false} PrefixPossible(w: World, s0: System, steps: seq<Step>, from: nat)
    requires Possible(w, s0, steps) && from <= |steps|
    ensures Possible(w, s0, steps[..from])
    decreases |steps|
  {
    if from < |steps| {
      PrefixPossible(w, s0, steps[..|steps|-1], from);
      assert steps[..|steps|-1][..from] == steps[..from];
    } else {
      assert steps[..from] == steps;
    }
  }

  lemma KeepsTransitive(a: System, b: System, c: System)
    requires StepKeeps(a, b) && StepKeeps(b, c)
    ensures StepKeeps(a, c)
  {
    forall k | k in a.records ensures k in c.records && Evolves(a.records[k], c.records[k]) {
      EvolvesTransitive(a.records[k], b.records[k], c.records[k]);
    }
  }

  /**
   From any moment of any run to any later one: no record is lost, an ended
   attempt stays as it ended but for one gained removal, Nexus keeps every
   byte it held, and no deletion is forgotten.
   */
  lemma {:induction false} RunKeeps(w: World, s0: System, steps: seq<Step>, from: nat)
    requires ValidWorld(w) && Initial(s0) && Possible(w, s0, steps) && from <= |steps|
    ensures StepKeeps(After(w, s0, steps[..from]), After(w, s0, steps))
    decreases |steps|
  {
    if from == |steps| {
      assert steps[..from] == steps;
      var s := After(w, s0, steps);
      forall k | k in s.records ensures Evolves(s.records[k], s.records[k]) {
        EvolvesRefl(s.records[k]);
      }
    } else {
      var init := steps[..|steps|-1];
      RunKeeps(w, s0, init, from);
      assert init[..from] == steps[..from];
      ReachableSafe(w, s0, init);
      SafeStep(w, After(w, s0, init), steps[|steps|-1]);
      KeepsTransitive(After(w, s0, steps[..from]), After(w, s0, init), After(w, s0, steps));
    }
  }

  /** Attempt n of k ended complete, its report answers for the whole archive, and Nexus holds all of it. */
  predicate ArchiveIsIn(w: World, s: System, k: ImportKey, n: nat) {
    && CompleteAt(s.records, k, n)
    && Verifiable(w, s.records[k])
    && var (rep, pkgs) := (s.records[k].attempts[n-1].report, PackagesOf(w, s.records[k]));
       && EveryPackageIn(rep) && |rep.packages| == |pkgs|
       && forall i :: 0 <= i < |pkgs| ==> Names(rep.packages[i], pkgs[i].entry) && Holds(w.t, s.nexus, pkgs[i])
  }

  lemma CompleteMeansIn(w: World, s: System, k: ImportKey, n: nat)
    requires ValidWorld(w) && RecordsTrue(w, s) && CompleteAt(s.records, k, n)
    ensures ArchiveIsIn(w, s, k, n)
  {
    var a := s.records[k].attempts[n-1];
    assert RecordTrue(w, s.nexus, s.records[k]) && AttemptTrue(w, s.nexus, s.records[k], a) && SoundAttempt(a);
    assert ResultTrue(w, s.nexus, s.records[k], 0, a.report.packages[0]);
    forall i | 0 <= i < |PackagesOf(w, s.records[k])|
      ensures Names(a.report.packages[i], PackagesOf(w, s.records[k])[i].entry)
        && Holds(w.t, s.nexus, PackagesOf(w, s.records[k])[i])
    {
      assert ResultTrue(w, s.nexus, s.records[k], i, a.report.packages[i]) && IsIn(a.report.packages[i]);
    }
  }

  /**
   No archive is lost.  Once a remover has deleted an import's archive, at that
   moment and at every later one, whatever crashed, was retried or was swept in
   between, one and the same attempt of the import is stored as ended complete
   with every package published or present, and Nexus holds each of them.
   */
  lemma NoArchiveLost(w: World, s0: System, steps: seq<Step>, from: nat, k: ImportKey) returns (n: nat)
    requires ValidWorld(w) && Initial(s0) && Possible(w, s0, steps) && from <= |steps|
    requires k in After(w, s0, steps[..from]).deleted
    ensures ArchiveIsIn(w, After(w, s0, steps[..from]), k, n) && ArchiveIsIn(w, After(w, s0, steps), k, n)
    ensures k in After(w, s0, steps).deleted
  {
    var s, s' := After(w, s0, steps[..from]), After(w, s0, steps);
    PrefixPossible(w, s0, steps, from);
    ReachableSafe(w, s0, steps[..from]);
    ReachableSafe(w, s0, steps);
    RunKeeps(w, s0, steps, from);
    n :| CompleteAt(s.records, k, n);
    CompleteStays(s.records, s'.records, k, n);
    CompleteMeansIn(w, s, k, n);
    CompleteMeansIn(w, s', k, n);
  }

  /**
   Verdicts about one package agree across every stored attempt of every import
   of the same archive: what one attempt published or found present is no
   other attempt's conflict, earlier or later.
   */
  lemma VerdictsAgree(w: World, s0: System, steps: seq<Step>, k: ImportKey, a: nat, j: ImportKey, b: nat, i: nat)
    requires ValidWorld(w) && Initial(s0) && Possible(w, s0, steps)
    requires var s := After(w, s0, steps);
      && k in s.records && j in s.records && a < |s.records[k].attempts| && b < |s.records[j].attempts|
      && s.records[j].archive == s.records[k].archive && s.records[j].manifest == s.records[k].manifest
      && i < |s.records[k].attempts[a].report.packages| && i < |s.records[j].attempts[b].report.packages|
    ensures var s := After(w, s0, steps);
      IsIn(s.records[k].attempts[a].report.packages[i]) ==>
        s.records[j].attempts[b].report.packages[i].kind != KindConflict
  {
    var s := After(w, s0, steps);
    ReachableSafe(w, s0, steps);
    assert RecordTrue(w, s.nexus, s.records[k]) && RecordTrue(w, s.nexus, s.records[j]);
    var (x, y) := (s.records[k].attempts[a], s.records[j].attempts[b]);
    assert AttemptTrue(w, s.nexus, s.records[k], x) && AttemptTrue(w, s.nexus, s.records[j], y);
    assert ResultTrue(w, s.nexus, s.records[k], i, x.report.packages[i]);
    assert ResultTrue(w, s.nexus, s.records[j], i, y.report.packages[i]);
  }

  /**
   Every stored record, in every reachable state: attempts numbered 1 to k, only
   the last unfinished, final reports in the ended ones, and a working directory
   for the running one.
   */
  lemma RecordsAlwaysSound(w: World, s0: System, steps: seq<Step>, k: ImportKey)
    requires ValidWorld(w) && Initial(s0) && Possible(w, s0, steps) && k in After(w, s0, steps).records
    ensures var s := After(w, s0, steps);
      && Sound(s.records[k])
      && (Latest(s.records[k]).status == Running ==> AttemptId(k, |s.records[k].attempts|) in s.dirs)
  {
    ReachableSafe(w, s0, steps);
    assert RecordTrue(w, After(w, s0, steps).nexus, After(w, s0, steps).records[k]);
  }

  /** Two running attempts would both be the worker's. */
  lemma OneRuns(s: System, k: ImportKey, j: ImportKey)
    requires Served(s) && k in s.records && j in s.records
    requires RunningIn(s.records, LatestId(s.records, k)) && RunningIn(s.records, LatestId(s.records, j))
    ensures k == j
  {
    assert Unfinished(s.records, k) && Unfinished(s.records, j);
    assert !QueuedIn(s.records, k) && !QueuedIn(s.records, j);
    assert Owns(s.worker, k) && Owns(s.worker, j);
  }

  // ------------------------------------------------ while records are written

  lemma {:induction false} ReachableKept(w: World, s0: System, steps: seq<Step>)
    requires ValidWorld(w) && Initial(s0) && Possible(w, s0, steps) && AllWritesOk(steps)
    ensures NoneForgotten(After(w, s0, steps))
    decreases |steps|
  {
    if steps != [] {
      var init := steps[..|steps|-1];
      assert AllWritesOk(init) && WritesOk(steps[|steps|-1]);
      ReachableKept(w, s0, init);
      ReachableSafe(w, s0, init);
      KeptStep(w, After(w, s0, init), steps[|steps|-1]);
    }
  }

  /**
   Whatever crashes, and whichever reads and directory operations fail, as long
   as records are written: every unfinished attempt of a running service is in
   the queue, with the worker or with the handler that made it; a running one is
   the worker's, so that at most one runs across all users; and every attempt
   the worker took has ended or is of the import it holds, so that a free
   worker has ended them all.
   */
  lemma NothingIsForgotten(w: World, s0: System, steps: seq<Step>)
    requires ValidWorld(w) && Initial(s0) && Possible(w, s0, steps) && AllWritesOk(steps)
    requires After(w, s0, steps).up
    ensures var s := After(w, s0, steps);
      && Covered(s) && RunnersHeld(s) && PoppedDone(s)
      && (forall k, j | k in s.records && j in s.records
                        && RunningIn(s.records, LatestId(s.records, k))
                          && RunningIn(s.records, LatestId(s.records, j)) :: k == j)
      && (s.worker.Idle? ==> forall i :: 0 <= i < |s.popped| ==> EndedIn(s.records, s.popped[i]))
  {
    ReachableKept(w, s0, steps);
    var s := After(w, s0, steps);
    assert Attended(s);
    forall k, j | k in s.records && j in s.records
                  && RunningIn(s.records, LatestId(s.records, k)) && RunningIn(s.records, LatestId(s.records, j))
      ensures k == j
    {
      assert Owns(s.worker, k) && Owns(s.worker, j);
    }
  }

  // ------------------------------------------------------- whatever may fail

  /**
   In every run, whatever fails: pops take imports in the order they were
   submitted; a pop took the very attempt that was submitted, or that one has
   ended; and an attempt that was submitted and has neither begun nor been
   popped is still in the queue.
   */
  lemma QueueKeepsItsOrder(w: World, s0: System, steps: seq<Step>)
    requires ValidWorld(w) && Initial(s0) && Possible(w, s0, steps)
    ensures var s := After(w, s0, steps);
      && Keys(s.submitted) == Keys(s.popped) + s.items
      && (forall i :: 0 <= i < |s.popped| ==> s.popped[i] == s.submitted[i] || EndedIn(s.records, s.submitted[i]))
      && (forall id | id in s.submitted && Waits(s, id) :: id.key in s.items)
  {
    ReachableSafe(w, s0, steps);
    var s := After(w, s0, steps);
    SoundRecords(w, s);
    forall id | id in s.submitted && Waits(s, id) ensures id.key in s.items {
      WaitsInQueue(s, id);
    }
  }

  /**
   In every run, whatever fails, a step ends an attempt that waits in the queue
   exactly when it is the stored abandon of a worker that still holds the same
   import.  What that worker popped is then an earlier attempt, which has
   already ended.  And a step begins one that waits, unpopped, exactly when the
   worker begins the same import on such an earlier pop.
   */
  lemma OnlyAbandonEndsAWaitingAttempt(w: World, s0: System, steps: seq<Step>, step: Step, s: System, s': System,
                                       id: AttemptId)
    requires ValidWorld(w) && Initial(s0) && Possible(w, s0, steps + [step])
    requires s == After(w, s0, steps) && s' == After(w, s0, steps + [step]) && s.up && Waits(s, id)
    ensures EndedIn(s'.records, id) <==> AbandonsIt(s, step, id.key)
    ensures RunningIn(s'.records, id) <==> BeginsIt(s, step, id.key)
    ensures s.worker == Abandoning(id.key) || s.worker == Popped(id.key) ==>
      && s.popped != [] && s.popped[|s.popped|-1].key == id.key && s.popped[|s.popped|-1].n < id.n
      && EndedIn(s.records, s.popped[|s.popped|-1])
  {
    OnePast(w, s0, steps, step);
    ReachableSafe(w, s0, steps);
    WaitingEnds(w, s, s', step, id);
    WaitsBehind(w, s, id);
  }

  /**
   Attempts begin in the order they were submitted, but for those ended while
   they waited: the attempt a worker is about to begin is the one submitted at
   its turn if and only if that one has not ended.
   */
  lemma BeginsInTurn(w: World, s0: System, steps: seq<Step>, s: System, k: ImportKey)
    requires ValidWorld(w) && Initial(s0) && Possible(w, s0, steps)
    requires s == After(w, s0, steps) && s.worker == Popped(k) && QueuedIn(s.records, k)
    ensures 1 <= |s.popped| <= |s.submitted| && s.submitted[|s.popped|-1].key == k
    ensures LatestId(s.records, k) == s.submitted[|s.popped|-1] <==> !EndedIn(s.records, s.submitted[|s.popped|-1])
  {
    ReachableSafe(w, s0, steps);
    SoundRecords(w, s);
    PoppedInTurn(s, k);
  }

  // -------------------------------------------- while no store operation fails

  /**
   While the service runs and no store operation has failed since it started:
   every unfinished attempt is in the queue, with the worker or with the
   handler that made it; attempts are taken in the order they were submitted,
   and each of those still to come waits, queued, in that order; at most one
   runs, across all users; and whenever the worker is free, every attempt it
   took has ended.
   */
  lemma EveryAttemptIsServed(w: World, s0: System, steps: seq<Step>)
    requires ValidWorld(w) && Initial(s0) && Possible(w, s0, steps)
    requires After(w, s0, steps).up && !After(w, s0, steps).faulted
    ensures var s := After(w, s0, steps);
      && Covered(s)
      && s.popped <= s.submitted && |s.submitted| == |s.popped| + |s.items|
      && (forall i :: 0 <= i < |s.items| ==>
            && QueuedIn(s.records, s.items[i]) && !Owns(s.worker, s.items[i])
            && s.submitted[|s.popped| + i] == LatestId(s.records, s.items[i]))
      && (forall k, j | k in s.records && j in s.records
                        && RunningIn(s.records, LatestId(s.records, k))
                          && RunningIn(s.records, LatestId(s.records, j)) :: k == j)
      && (s.worker.Idle? ==> forall i :: 0 <= i < |s.popped| ==> EndedIn(s.records, s.popped[i]))
  {
    ReachableSafe(w, s0, steps);
    var s := After(w, s0, steps);
    assert Served(s);
    forall i | 0 <= i < |s.items|
      ensures s.submitted[|s.popped| + i] == LatestId(s.records, s.items[i])
    {
      assert Ids(s.records, s.items)[i] == LatestId(s.records, s.items[i]);
    }
    forall k, j | k in s.records && j in s.records
                  && RunningIn(s.records, LatestId(s.records, k)) && RunningIn(s.records, LatestId(s.records, j))
      ensures k == j
    {
      OneRuns(s, k, j);
    }
  }

  /**
   A start whose sweep met no failure, or any start while records are written,
   leaves nothing unfinished and nothing pending, in any record.
   */
  lemma RestartLeavesNothingUnfinished(w: World, s0: System, steps: seq<Step>, s: System, k: ImportKey)
    requires ValidWorld(w) && Initial(s0) && Possible(w, s0, steps + [Service(Restart)])
    requires !After(w, s0, steps).faulted || AllWritesOk(steps)
    requires k in After(w, s0, steps).records
    requires s == After(w, s0, steps + [Service(Restart)])
    ensures s.up && k in s.records && s.records[k].attempts != [] && Latest(s.records[k]).status == Ended
    ensures forall i :: 0 <= i < |s.records[k].attempts| ==> NoPending(s.records[k].attempts[i].report.packages)
  {
    OnePast(w, s0, steps, Service(Restart));
    ReachableSafe(w, s0, steps);
    if AllWritesOk(steps) {
      ReachableKept(w, s0, steps);
    }
    RestartFinds(w, After(w, s0, steps), s, k);
  }

  /** When everything is swept, a record has only ended attempts and final reports. */
  lemma FinishedRecord(w: World, s: System, k: ImportKey)
    requires RecordsTrue(w, s) && SweptClean(s) && s.todo == {} && k in s.records
    ensures s.records[k].attempts != [] && Latest(s.records[k]).status == Ended
    ensures forall i :: 0 <= i < |s.records[k].attempts| ==> NoPending(s.records[k].attempts[i].report.packages)
  {
    var imp := s.records[k];
    assert RecordTrue(w, s.nexus, imp);
    forall i | 0 <= i < |imp.attempts| ensures NoPending(imp.attempts[i].report.packages) {
      assert SoundAttempt(imp.attempts[i]);
    }
  }

  lemma RestartFinds(w: World, s: System, s': System, k: ImportKey)
    requires RecordsTrue(w, s) && SweptClean(s) && Enabled(w, s, Service(Restart)) && s' == Next(w, s, Service(Restart))
    requires k in s.records
    ensures s'.up && k in s'.records && s'.records[k].attempts != [] && Latest(s'.records[k]).status == Ended
    ensures forall i :: 0 <= i < |s'.records[k].attempts| ==> NoPending(s'.records[k].attempts[i].report.packages)
  {
    FinishedRecord(w, s, k);
  }

  // --------------------------------------- what a failed clean-up can cost

  /** Nothing fails in the step but perhaps the removal of a working directory. */
  predicate OnlyCleaningFails(step: Step) {
    && WritesOk(step)
    && (step.Opening? && step.o.BeginIt? ==> step.o.made) && (step.Opening? && step.o.GetIt? ==> step.o.ok)
    && !(step.Service? && step.x.Crash?)
  }

  predicate AllButCleaning(steps: seq<Step>) {
    forall i :: 0 <= i < |steps| ==> OnlyCleaningFails(steps[i])
  }

  /** s1 is reached from s0 by steps in which nothing fails but the removal of working directories. */
  ghost predicate Leads(w: World, s0: System, steps: seq<Step>, s1: System) {
    Possible(w, s0, steps) && After(w, s0, steps) == s1 && AllButCleaning(steps)
  }

  lemma {:induction false} Joined(w: World, s0: System, a: seq<Step>, b: seq<Step>)
    requires Possible(w, s0, a) && Possible(w, After(w, s0, a), b)
    ensures Possible(w, s0, a + b) && After(w, s0, a + b) == After(w, After(w, s0, a), b)
    decreases |b|
  {
    if b == [] {
      assert a + b == a;
    } else {
      var init := b[..|b|-1];
      Joined(w, s0, a, init);
      LastApart(a, b);
      OnePast(w, s0, a + init, b[|b|-1]);
    }
  }

  lemma LastApart<T>(a: seq<T>, b: seq<T>)
    requires b != []
    ensures a + b == (a + b[..|b|-1]) + [b[|b|-1]]
  {
  }

  lemma LeadsOn(w: World, s0: System, a: seq<Step>, s1: System, b: seq<Step>, s2: System)
    requires Leads(w, s0, a, s1) && Leads(w, s1, b, s2)
    ensures Leads(w, s0, a + b, s2)
  {
    Joined(w, s0, a, b);
  }

  lemma OnePossible(w: World, s: System, x: Step)
    requires Enabled(w, s, x)
    ensures Possible(w, s, [x]) && After(w, s, [x]) == Next(w, s, x)
  {
    assert [x][..|[x]|-1] == [];
  }

  lemma PairLeads(w: World, s: System, x: Step, y: Step, s': System)
    requires Enabled(w, s, x) && Enabled(w, Next(w, s, x), y) && s' == Next(w, Next(w, s, x), y)
    requires OnlyCleaningFails(x) && OnlyCleaningFails(y)
    ensures Leads(w, s, [x, y], s')
  {
    OnePossible(w, s, x);
    OnePossible(w, Next(w, s, x), y);
    Joined(w, s, [x], [y]);
    assert [x] + [y] == [x, y];
  }

  const TINY_KEY := ImportKey("user", "id")
  const TINY_OBJECTS: Objects := map[Place("user", "a") := "1"]
  const NO_WORLD := World(Tarballs(_ => None, (_, _) => None), map[], map[])

  function TinyImport(attempts: seq<Attempt>): Import {
    Import(Object("a", "1"), Object("m", "2"), "", attempts)
  }

  function Tiny(records: map<ImportKey, Import>, dirs: set<AttemptId>, items: seq<ImportKey>, worker: Phase,
                handler: Holder, submitted: seq<AttemptId>, popped: seq<AttemptId>, faulted: bool): System {
    System(records, dirs, TINY_OBJECTS, map[], true, true, items, worker, handler, {}, {}, submitted, popped, faulted)
  }

  const FIRST := Attempt(1, Queued, NoOutcome, EMPTY_REPORT, None)
  const FIRST_ENDED := Attempt(1, Ended, Refused, Stopped(Refused, ""), None)
  const SECOND := Attempt(2, Queued, NoOutcome, EMPTY_REPORT, None)
  const IDS := [AttemptId(TINY_KEY, 1), AttemptId(TINY_KEY, 2)]

  const TINY_DOWN := System(map[], {}, TINY_OBJECTS, map[], false, false, [], Idle, NoHandler, {}, {}, [], [], false)
  const TINY_MADE := Tiny(map[TINY_KEY := TinyImport([FIRST])], {}, [], Idle, Made(TINY_KEY), [], [], false)
  const TINY_POPPED := Tiny(map[TINY_KEY := TinyImport([FIRST])], {}, [], Popped(TINY_KEY), NoHandler, IDS[..1],
                            IDS[..1], false)
  const TINY_RUNNING := Tiny(map[TINY_KEY := TinyImport([FIRST.(status := Running)])], {IDS[0]}, [],
                             Heading(TINY_KEY, 1), NoHandler, IDS[..1], IDS[..1], false)
  const TINY_ABANDONING :=
    Tiny(map[TINY_KEY := TinyImport([FIRST_ENDED])], {IDS[0]}, [], Abandoning(TINY_KEY), NoHandler,
                                IDS[..1], IDS[..1], true)
  const TINY_RETRIED := Tiny(map[TINY_KEY := TinyImport([FIRST_ENDED, SECOND])], {IDS[0]}, [TINY_KEY],
                             Abandoning(TINY_KEY), NoHandler, IDS, IDS[..1], true)

  const SECOND_LOST := Attempt(2, Ended, Interrupted, EMPTY_REPORT.(outcome := Interrupted, reason := UNRUN), None)
  const TINY_LOST := Tiny(map[TINY_KEY := TinyImport([FIRST_ENDED, SECOND_LOST])], {IDS[0]}, [TINY_KEY], Idle,
                          NoHandler, IDS, IDS[..1], true)

  lemma Rewritten(k: ImportKey, x: Import, y: Import)
    ensures map[k := x][k := y] == map[k := y]
  {
  }

  lemma TinyStart() returns (steps: seq<Step>)
    ensures Leads(NO_WORLD, TINY_DOWN, steps, TINY_MADE)
  {
    var x, y := Service(Restart), Handler(Start(TINY_KEY, Object("a", "1"), Object("m", "2"), "", true));
    PairLeads(NO_WORLD, TINY_DOWN, x, y, TINY_MADE);
    steps := [x, y];
  }

  lemma TinyPop() returns (steps: seq<Step>)
    ensures Leads(NO_WORLD, TINY_MADE, steps, TINY_POPPED)
  {
    var x, y := Handler(Submit), Opening(Pop);
    PairLeads(NO_WORLD, TINY_MADE, x, y, TINY_POPPED);
    steps := [x, y];
  }

  lemma TinyBegin() returns (steps: seq<Step>)
    ensures Leads(NO_WORLD, TINY_POPPED, steps, TINY_RUNNING)
  {
    var x, y := Opening(BeginIt(true, true)), Opening(GetIt(true));
    assert [FIRST][0 := FIRST.(status := Running)] == [FIRST.(status := Running)];
    Rewritten(TINY_KEY, TinyImport([FIRST]), TinyImport([FIRST.(status := Running)]));
    PairLeads(NO_WORLD, TINY_POPPED, x, y, TINY_RUNNING);
    steps := [x, y];
  }

  lemma TinyFinish() returns (steps: seq<Step>)
    ensures Leads(NO_WORLD, TINY_RUNNING, steps, TINY_ABANDONING)
  {
    var x, y := Checking(StopEarly(Refused, "")), Closing(FinishIt(true, false));
    assert [FIRST.(status := Running)][0 := FIRST_ENDED] == [FIRST_ENDED];
    Rewritten(TINY_KEY, TinyImport([FIRST.(status := Running)]), TinyImport([FIRST_ENDED]));
    PairLeads(NO_WORLD, TINY_RUNNING, x, y, TINY_ABANDONING);
    steps := [x, y];
  }

  lemma TinyRetry() returns (steps: seq<Step>)
    ensures Leads(NO_WORLD, TINY_ABANDONING, steps, TINY_RETRIED)
  {
    var x, y := Handler(RetryIt(TINY_KEY, true)), Handler(Submit);
    assert [FIRST_ENDED] + [SECOND] == [FIRST_ENDED, SECOND];
    Rewritten(TINY_KEY, TinyImport([FIRST_ENDED]), TinyImport([FIRST_ENDED, SECOND]));
    assert IDS[..1] + [AttemptId(TINY_KEY, 2)] == IDS;
    PairLeads(NO_WORLD, TINY_ABANDONING, x, y, TINY_RETRIED);
    steps := [x, y];
  }

  lemma TinyAbandon() returns (steps: seq<Step>)
    ensures Leads(NO_WORLD, TINY_RETRIED, steps, TINY_LOST)
  {
    var x, y := Closing(AbandonIt(true, true)), Handler(Outside(TINY_OBJECTS));
    assert [FIRST_ENDED, SECOND][1 := SECOND_LOST] == [FIRST_ENDED, SECOND_LOST];
    assert FailPending([], "interrupted") == [];
    Rewritten(TINY_KEY, TinyImport([FIRST_ENDED, SECOND]), TinyImport([FIRST_ENDED, SECOND_LOST]));
    PairLeads(NO_WORLD, TINY_RETRIED, x, y, TINY_LOST);
    steps := [x, y];
  }

  /**
   Abandon ends whatever attempt is the latest.  When only the removal of a
   working directory fails, process abandons an import whose attempt already
   ended; a retry stored in between is then ended as interrupted although it
   waits in an open queue and never ran.  OnlyAbandonEndsAWaitingAttempt says
   which steps of any run do this; EveryAttemptIsServed excludes the state it
   leaves while no store operation, this removal included, has failed.
   */
  lemma FailedCleanUpEndsARetry() returns (w: World, s0: System, steps: seq<Step>, k: ImportKey)
    ensures ValidWorld(w) && Initial(s0) && Possible(w, s0, steps) && AllButCleaning(steps)
    ensures var s := After(w, s0, steps);
      && s.up && s.open && k in s.items && k in s.records
      && |s.records[k].attempts| == 2 && Latest(s.records[k]).status == Ended
        && Latest(s.records[k]).outcome == Interrupted
      && AttemptId(k, 2) in s.submitted && AttemptId(k, 2) !in s.popped
  {
    w, s0, k := NO_WORLD, TINY_DOWN, TINY_KEY;
    var a := TinyStart();
    var b := TinyPop();
    var c := TinyBegin();
    var d := TinyFinish();
    var e := TinyRetry();
    var f := TinyAbandon();
    LeadsOn(w, s0, a, TINY_MADE, b, TINY_POPPED);
    LeadsOn(w, s0, a + b, TINY_POPPED, c, TINY_RUNNING);
    LeadsOn(w, s0, a + b + c, TINY_RUNNING, d, TINY_ABANDONING);
    LeadsOn(w, s0, a + b + c + d, TINY_ABANDONING, e, TINY_RETRIED);
    LeadsOn(w, s0, a + b + c + d + e, TINY_RETRIED, f, TINY_LOST);
    steps := a + b + c + d + e + f;
    assert IDS[..1] == [AttemptId(k, 1)] && IDS[1] == AttemptId(k, 2);
  }
}
