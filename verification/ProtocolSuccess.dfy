/**
 A good archive goes all the way: from the head of the queue, through its
 checks and each of its packages, to a complete end and its removal from MinIO.
 */
module ProtocolSuccess {
  import opened Wrappers
  import opened Records
  import opened RecordStore
  import opened Publishing
  import opened Attempts
  import opened ImportQueue
  import opened Protocol
  import opened ProtocolSafety
  import opened ProtocolQueue
  import opened ProtocolTurns
  import opened ProtocolWrites
  import opened ProtocolTheorems

  /** The steps can be taken from s one after another and lead to s'. */
  ghost predicate Runs(w: World, s: System, steps: seq<Step>, s': System) {
    Possible(w, s, steps) && After(w, s, steps) == s'
  }

  lemma RunsOn(w: World, s: System, a: seq<Step>, s1: System, b: seq<Step>, s2: System)
    requires Runs(w, s, a, s1) && Runs(w, s1, b, s2)
    ensures Runs(w, s, a + b, s2)
  {
    Joined(w, s, a, b);
  }

  /** One more step at the end of a run. */
  lemma Takes(w: World, s: System, steps: seq<Step>, s1: System, x: Step) returns (more: seq<Step>, s2: System)
    requires Runs(w, s, steps, s1) && Enabled(w, s1, x)
    ensures Runs(w, s, more, s2) && s2 == Next(w, s1, x) && more == steps + [x]
  {
    OnePossible(w, s1, x);
    RunsOn(w, s, steps, s1, [x], Next(w, s1, x));
    more, s2 := steps + [x], Next(w, s1, x);
  }

  lemma NoSteps(w: World, s: System)
    ensures Runs(w, s, [], s)
  {
  }

  /**
   The service is up, the import's objects are in MinIO as recorded, and the archive passes its checks, each
   tarball a version of its own.
   */
  predicate GoodArchive(w: World, s: System, k: ImportKey) {
    && s.up && s.open && k in s.records && Unchanged(s.objects, k.user, s.records[k])
    && Verifiable(w, s.records[k]) && KeysDiffer(PackagesOf(w, s.records[k]))
    && forall i :: 0 <= i < |PackagesOf(w, s.records[k])| ==>
         w.t.inspect(PackagesOf(w, s.records[k])[i].bytes) == Some(PackagesOf(w, s.records[k])[i].Key())
  }

  /** Nexus can take the packages from the i-th on. */
  predicate CanTake(w: World, nexus: Held, pkgs: seq<Package>, i: nat) {
    forall j :: i <= j < |pkgs| ==> pkgs[j].Key() !in nexus || Holds(w.t, nexus, pkgs[j])
  }

  /** What a stage of the run leaves of everything but the worker, Nexus and record k's attempts. */
  predicate Onward(s: System, s': System, k: ImportKey) {
    && s'.up == s.up && s'.open == s.open && s'.objects == s.objects && s'.records.Keys == s.records.Keys
    && (forall j :: j in s.records && j != k ==> s'.records[j] == s.records[j])
    && k in s.records && k in s'.records
    && s'.records[k].archive == s.records[k].archive && s'.records[k].manifest == s.records[k].manifest
  }

  lemma StaysGood(w: World, s: System, s': System, k: ImportKey)
    requires GoodArchive(w, s, k) && Onward(s, s', k)
    ensures GoodArchive(w, s', k) && PackagesOf(w, s'.records[k]) == PackagesOf(w, s.records[k])
  {
  }

  // ------------------------------------------------------------- the stages

  /** The import at the head is popped, and its attempt can begin. */
  lemma Pops(w: World, s: System, k: ImportKey) returns (steps: seq<Step>, s': System)
    requires s.up && s.open && s.worker == Idle && s.items != [] && s.items[0] == k
    ensures Runs(w, s, steps, s')
    ensures s' == s.(items := s.items[1..], worker := Popped(k), popped := s'.popped)
  {
    NoSteps(w, s);
    steps, s' := Takes(w, s, [], s, Opening(Pop));
  }

  /** Begun and read. */
  lemma Begins(w: World, s: System, k: ImportKey) returns (steps: seq<Step>, s': System)
    requires s.up && s.worker == Popped(k) && QueuedIn(s.records, k) && Sound(s.records[k])
    ensures Runs(w, s, steps, s') && Onward(s, s', k) && s'.nexus == s.nexus
    ensures s'.worker == Heading(k, |s.records[k].attempts|)
    ensures RunningIn(s'.records, AttemptId(k, |s.records[k].attempts|))
  {
    NoSteps(w, s);
    LatestIsStored(s.records, k);
    BeginsFor(s, k);
    var a, s1 := Takes(w, s, [], s, Opening(BeginIt(true, true)));
    steps, s' := Takes(w, s, a, s1, Opening(GetIt(true)));
  }

  /** What a begin that succeeds leaves. */
  lemma BeginsFor(s: System, k: ImportKey)
    requires s.worker == Popped(k) && QueuedIn(s.records, k) && Sound(s.records[k])
    ensures var s' := OpeningNext(s, BeginIt(true, true));
      && Onward(s, s', k) && s'.nexus == s.nexus && s'.worker == Begun(k, |s.records[k].attempts|)
      && RunningIn(s'.records, AttemptId(k, |s.records[k].attempts|))
  {
    LatestIsStored(s.records, k);
  }

  lemma Opens(w: World, s: System, k: ImportKey) returns (steps: seq<Step>, s': System)
    requires s.up && s.open && s.worker == Idle && s.items != [] && s.items[0] == k
    requires QueuedIn(s.records, k) && Sound(s.records[k])
    ensures Runs(w, s, steps, s') && Onward(s, s', k) && s'.nexus == s.nexus
    ensures s'.worker == Heading(k, |s.records[k].attempts|)
    ensures RunningIn(s'.records, AttemptId(k, |s.records[k].attempts|))
  {
    var a, s1 := Pops(w, s, k);
    var b;
    b, s' := Begins(w, s1, k);
    RunsOn(w, s, a, s1, b, s');
    steps := a + b;
  }

  /** Both objects headed, the packages listed, the archive checked, the client set up. */
  lemma Checks(w: World, s: System, k: ImportKey, n: nat) returns (steps: seq<Step>, s': System)
    requires ValidWorld(w) && GoodArchive(w, s, k) && s.worker == Heading(k, n) && RunningIn(s.records, AttemptId(k, n))
    ensures Runs(w, s, steps, s') && Onward(s, s', k) && s'.nexus == s.nexus
    ensures s'.worker == Handling(k, n, [], Publish(Waiting)) && RunningIn(s'.records, AttemptId(k, n))
  {
    var a, s1 := Lists(w, s, k, n);
    var b, s2 := Takes(w, s, a, s1, Checking(CheckIt(true)));
    CheckedFor(w, s1, k, n);
    steps, s' := Takes(w, s, b, s2, Checking(SetUp));
  }

  /** What the stored mark of a checked archive leaves. */
  lemma CheckedFor(w: World, s: System, k: ImportKey, n: nat)
    requires s.worker == Verifying(k, n) && RunningIn(s.records, AttemptId(k, n))
    ensures var s' := CheckingNext(w, s, CheckIt(true));
      && Onward(s, s', k) && s'.nexus == s.nexus
      && s'.worker == SettingUp(k, n) && RunningIn(s'.records, AttemptId(k, n))
  {
    SavedKeepsRunning(s, k, n, Checked(n), true);
  }

  /** Both objects carry the ETags the import recorded. */
  lemma Heads(w: World, s: System, k: ImportKey, n: nat) returns (steps: seq<Step>, s': System)
    requires GoodArchive(w, s, k) && s.worker == Heading(k, n)
    ensures Runs(w, s, steps, s') && s' == s.(worker := Reading(k, n))
  {
    NoSteps(w, s);
    var a, s1 := Takes(w, s, [], s, Checking(HeadArchive));
    steps, s' := Takes(w, s, a, s1, Checking(HeadManifest));
  }

  /** What the stored listing leaves. */
  lemma ListsFor(w: World, s: System, k: ImportKey, n: nat)
    requires ValidWorld(w) && GoodArchive(w, s, k) && s.worker == Reading(k, n) && RunningIn(s.records, AttemptId(k, n))
    ensures var s' := CheckingNext(w, s, ListIt(true));
      && Onward(s, s', k) && s'.nexus == s.nexus
      && s'.worker == Verifying(k, n) && RunningIn(s'.records, AttemptId(k, n))
  {
    SavedKeepsRunning(s, k, n, CheckingTouch(w, s, ListIt(true)).c, true);
  }

  lemma Lists(w: World, s: System, k: ImportKey, n: nat) returns (steps: seq<Step>, s': System)
    requires ValidWorld(w) && GoodArchive(w, s, k) && s.worker == Heading(k, n) && RunningIn(s.records, AttemptId(k, n))
    ensures Runs(w, s, steps, s') && Onward(s, s', k) && s'.nexus == s.nexus && GoodArchive(w, s', k)
    ensures s'.worker == Verifying(k, n) && RunningIn(s'.records, AttemptId(k, n))
  {
    var a, s1 := Heads(w, s, k, n);
    ListsFor(w, s1, k, n);
    steps, s' := Takes(w, s, a, s1, Checking(ListIt(true)));
    StaysGood(w, s, s', k);
  }

  /** The worker waits to start package i, all before it being in. */
  predicate At(w: World, s: System, k: ImportKey, n: nat, i: nat) {
    && GoodArchive(w, s, k) && RunningIn(s.records, AttemptId(k, n)) && i <= |PackagesOf(w, s.records[k])|
    && s.worker.Handling? && s.worker.k == k && s.worker.n == n && s.worker.mode == Publish(Waiting)
    && |s.worker.results| == i && AllIn(s.worker.results) && CanTake(w, s.nexus, PackagesOf(w, s.records[k]), i)
  }

  lemma Looks(w: World, s: System, k: ImportKey, n: nat, i: nat) returns (steps: seq<Step>, s': System)
    requires At(w, s, k, n, i) && i < |PackagesOf(w, s.records[k])|
    ensures Runs(w, s, steps, s') && s' == s.(worker := s.worker.(mode := Publish(Looking)))
  {
    NoSteps(w, s);
    steps, s' := Takes(w, s, [], s, Packages(StartPackage));
  }

  lemma Uploads(w: World, s: System, k: ImportKey, n: nat, i: nat) returns (steps: seq<Step>, s': System)
    requires At(w, s, k, n, i) && i < |PackagesOf(w, s.records[k])|
    requires PackagesOf(w, s.records[k])[i].Key() !in s.nexus
    ensures var p := PackagesOf(w, s.records[k])[i];
      Runs(w, s, steps, s')
      && s' == s.(nexus := s.nexus[p.Key() := p.bytes], worker := s.worker.(mode := Publish(Sent)))
  {
    var a, s1 := Looks(w, s, k, n, i);
    var b, s2 := Takes(w, s, a, s1, Packages(FindLacking));
    steps, s' := Takes(w, s, b, s2, Packages(Upload));
  }

  /** What EndPackage with a stored result leaves. */
  lemma EndedPackage(w: World, s: System, r: Result, k: ImportKey, n: nat)
    requires s.worker.Handling? && s.worker.k == k && s.worker.n == n && s.worker.mode.Publish?
    requires RunningIn(s.records, AttemptId(k, n))
    ensures var s' := PackageNext(w, s, EndPackage(r, r.reason, true));
      && s'.worker == Handling(k, n, s.worker.results + [r], Publish(Waiting)) && s'.nexus == s.nexus
      && RunningIn(s'.records, AttemptId(k, n)) && Onward(s, s', k)
  {
    SavedKeepsRunning(s, k, n, PackageTouch(s, EndPackage(r, r.reason, true)).c, true);
  }

  /** A package just uploaded may end as published. */
  lemma MayBePublished(w: World, s: System, p: Package)
    requires ValidWorld(w) && OnPackage(w, s) && PackageNow(w, s) == p && s.worker.mode == Publish(Sent)
    requires p.Key() in s.nexus && s.nexus[p.Key()] == p.bytes && w.t.inspect(p.bytes) == Some(p.Key())
    ensures MayEnd(w, s, InResult(p.entry, Published, ""))
  {
    assert s.nexus == (s.nexus - {p.Key()})[p.Key() := p.bytes];
    assert Settled(w.t, s.nexus - {p.Key()}, s.nexus, p, true, InResult(p.entry, Published, ""));
  }

  lemma Publishes(w: World, s: System, k: ImportKey, n: nat, i: nat) returns (steps: seq<Step>, s': System)
    requires ValidWorld(w) && At(w, s, k, n, i) && i < |PackagesOf(w, s.records[k])|
    requires PackagesOf(w, s.records[k])[i].Key() !in s.nexus
    ensures Runs(w, s, steps, s') && Onward(s, s', k) && At(w, s', k, n, i + 1)
  {
    var p := PackagesOf(w, s.records[k])[i];
    var a, s1 := Uploads(w, s, k, n, i);
    var r := InResult(p.entry, Published, "");
    MayBePublished(w, s1, p);
    steps, s' := Takes(w, s, a, s1, Packages(EndPackage(r, r.reason, true)));
    EndedPackage(w, s1, r, k, n);
    StaysGood(w, s, s', k);
    OthersTaken(w, s.nexus, PackagesOf(w, s.records[k]), i);
  }

  /** Uploading one package leaves Nexus able to take the rest. */
  lemma OthersTaken(w: World, nexus: Held, pkgs: seq<Package>, i: nat)
    requires i < |pkgs| && KeysDiffer(pkgs) && CanTake(w, nexus, pkgs, i)
    ensures CanTake(w, nexus[pkgs[i].Key() := pkgs[i].bytes], pkgs, i + 1)
  {
  }

  lemma IsThere(w: World, s: System, k: ImportKey, n: nat, i: nat) returns (steps: seq<Step>, s': System)
    requires ValidWorld(w) && At(w, s, k, n, i) && i < |PackagesOf(w, s.records[k])|
    requires PackagesOf(w, s.records[k])[i].Key() in s.nexus
    ensures Runs(w, s, steps, s') && Onward(s, s', k) && At(w, s', k, n, i + 1)
  {
    var p := PackagesOf(w, s.records[k])[i];
    var a, s1 := Looks(w, s, k, n, i);
    var r := InResult(p.entry, Present, "");
    assert Settled(w.t, s1.nexus, s1.nexus, p, true, r);
    steps, s' := Takes(w, s, a, s1, Packages(EndPackage(r, r.reason, true)));
    EndedPackage(w, s1, r, k, n);
    StaysGood(w, s, s', k);
  }

  /** Package after package, each ends in. */
  lemma {:induction false} AllPackages(w: World, s: System, k: ImportKey, n: nat, i: nat)
    returns (steps: seq<Step>, s': System)
    requires ValidWorld(w) && At(w, s, k, n, i)
    ensures Runs(w, s, steps, s') && Onward(s, s', k) && At(w, s', k, n, |PackagesOf(w, s.records[k])|)
    decreases |PackagesOf(w, s.records[k])| - i
  {
    if i == |PackagesOf(w, s.records[k])| {
      NoSteps(w, s);
      steps, s' := [], s;
    } else {
      var a, s1;
      if PackagesOf(w, s.records[k])[i].Key() in s.nexus {
        a, s1 := IsThere(w, s, k, n, i);
      } else {
        a, s1 := Publishes(w, s, k, n, i);
      }
      StaysGood(w, s, s1, k);
      var b;
      b, s' := AllPackages(w, s1, k, n, i + 1);
      RunsOn(w, s, a, s1, b, s');
      steps := a + b;
    }
  }

  /** Attempt n of k is stored as ended complete with nothing removed yet. */
  predicate EndedComplete(records: map<ImportKey, Import>, k: ImportKey, n: nat, rem: Option<Removal>) {
    && k in records && 1 <= n <= |records[k].attempts| && records[k].attempts[n-1].status == Ended
    && records[k].attempts[n-1].outcome == Complete && records[k].attempts[n-1].removal == rem
    && records[k].attempts[n-1].n == n
  }

  /** With every package handled the run returns. */
  lemma Returns(w: World, s: System, k: ImportKey, n: nat) returns (steps: seq<Step>, s': System)
    requires ValidWorld(w) && GoodArchive(w, s, k) && At(w, s, k, n, |PackagesOf(w, s.records[k])|)
    ensures Runs(w, s, steps, s') && s'.worker.Ending? && EveryPackageIn(s'.worker.rep)
    ensures s' == s.(worker := Ending(k, n, s'.worker.rep))
  {
    NoSteps(w, s);
    NoneFailedMeansAllIn(s.worker.results);
    steps, s' := Takes(w, s, [], s, Packages(Return));
  }

  /** What a stored end of a complete run leaves. */
  lemma FinishesFor(s: System, k: ImportKey, n: nat, rep: Report)
    requires s.worker == Ending(k, n, rep) && EveryPackageIn(rep)
    requires RunningIn(s.records, AttemptId(k, n)) && Sound(s.records[k])
    ensures var s' := EndingNext(s, FinishIt(true, true));
      && Onward(s, s', k) && s'.worker == Removing(k, n, HeadingArchive) && s'.nexus == s.nexus
      && EndedComplete(s'.records, k, n, None)
  {
  }

  lemma Finishes(w: World, s: System, k: ImportKey, n: nat) returns (steps: seq<Step>, s': System)
    requires ValidWorld(w) && GoodArchive(w, s, k) && At(w, s, k, n, |PackagesOf(w, s.records[k])|)
    requires Sound(s.records[k])
    ensures Runs(w, s, steps, s') && Onward(s, s', k) && s'.nexus == s.nexus
    ensures s'.worker == Removing(k, n, HeadingArchive) && EndedComplete(s'.records, k, n, None)
  {
    var a, s1 := Returns(w, s, k, n);
    FinishesFor(s1, k, n, s1.worker.rep);
    steps, s' := Takes(w, s, a, s1, Closing(FinishIt(true, true)));
  }

  /** The remover finds both objects unchanged. */
  lemma FindsBoth(w: World, s: System, k: ImportKey, n: nat) returns (steps: seq<Step>, s': System)
    requires s.up && s.worker == Removing(k, n, HeadingArchive) && k in s.records
    requires Unchanged(s.objects, k.user, s.records[k])
    ensures Runs(w, s, steps, s') && s' == s.(worker := Removing(k, n, DeletingArchive))
  {
    NoSteps(w, s);
    var a, s1 := Takes(w, s, [], s, Remover(HeadForRemoval(true, "")));
    steps, s' := Takes(w, s, a, s1, Remover(HeadForRemoval(true, "")));
  }

  /** And deletes both. */
  lemma DeletesBoth(w: World, s: System, k: ImportKey, n: nat) returns (steps: seq<Step>, s': System)
    requires s.up && s.worker == Removing(k, n, DeletingArchive) && k in s.records
    ensures Runs(w, s, steps, s') && k in s'.deleted
    ensures s' == s.(objects := s'.objects, deleted := s'.deleted, worker := Storing(k, n, Removal(true, "")))
    ensures ArchivePlace(k.user, s.records[k]) !in s'.objects && ManifestPlace(k.user, s.records[k]) !in s'.objects
  {
    NoSteps(w, s);
    var a, s1 := Takes(w, s, [], s, Remover(DeleteArchive(true, true, "")));
    steps, s' := Takes(w, s, a, s1, Remover(DeleteManifest(true, "")));
  }

  /** What the stored removal leaves. */
  lemma StoresFor(s: System, k: ImportKey, n: nat, rem: Removal)
    requires s.worker == Storing(k, n, rem) && EndedComplete(s.records, k, n, None) && Sound(s.records[k])
    ensures var s' := RemovalNext(s, StoreIt(true));
      && s' == s.(records := s'.records, worker := Idle) && EndedComplete(s'.records, k, n, Some(rem))
  {
    RemovalIsStored(s.records[k], n, rem);
    RemovedKeepsNumbers(s.records[k], n, rem);
  }

  lemma Removes(w: World, s: System, k: ImportKey, n: nat) returns (steps: seq<Step>, s': System)
    requires s.up && s.worker == Removing(k, n, HeadingArchive) && EndedComplete(s.records, k, n, None)
    requires Unchanged(s.objects, k.user, s.records[k]) && Sound(s.records[k])
    ensures Runs(w, s, steps, s') && s'.worker == Idle && EndedComplete(s'.records, k, n, Some(Removal(true, "")))
    ensures s'.nexus == s.nexus
    ensures ArchivePlace(k.user, s.records[k]) !in s'.objects && ManifestPlace(k.user, s.records[k]) !in s'.objects
  {
    var a, s1 := FindsBoth(w, s, k, n);
    var b, s2 := DeletesBoth(w, s1, k, n);
    RunsOn(w, s, a, s1, b, s2);
    StoresFor(s2, k, n, Removal(true, ""));
    steps, s' := Takes(w, s, a + b, s2, Remover(StoreIt(true)));
  }

  lemma RemovedKeepsNumbers(imp: Import, n: nat, rem: Removal)
    requires Sound(imp) && RemovedImport(imp, n, rem).Accepted? && 1 <= n <= |imp.attempts|
    ensures var out := RemovedImport(imp, n, rem).imp;
      |out.attempts| == |imp.attempts| && out.attempts[n-1].n == n
      && out.attempts[n-1].status == imp.attempts[n-1].status && out.attempts[n-1].outcome == imp.attempts[n-1].outcome
  {
    RemovedSound(imp, n, rem);
  }

  /** Nexus holds each of them. */
  predicate AllTaken(w: World, nexus: Held, pkgs: seq<Package>) {
    forall i :: 0 <= i < |pkgs| ==> Holds(w.t, nexus, pkgs[i])
  }

  /**
   From any reachable state with the service up and its worker free: if the
   import at the head of the queue waits with its objects unchanged, its archive
   passes its checks, and Nexus can take each package, then there is a run that
   ends it complete, with every package in Nexus and archive and manifest gone
   from MinIO, the removal stored.
   */
  lemma AGoodArchiveGoesThrough(w: World, s0: System, before: seq<Step>, s: System, k: ImportKey)
    returns (steps: seq<Step>, s': System)
    requires ValidWorld(w) && Initial(s0) && Possible(w, s0, before) && s == After(w, s0, before)
    requires s.worker == Idle && s.items != [] && s.items[0] == k && QueuedIn(s.records, k)
    requires GoodArchive(w, s, k) && CanTake(w, s.nexus, PackagesOf(w, s.records[k]), 0)
    ensures Runs(w, s, steps, s') && s'.worker == Idle
    ensures EndedComplete(s'.records, k, |s.records[k].attempts|, Some(Removal(true, "")))
    ensures ArchivePlace(k.user, s.records[k]) !in s'.objects && ManifestPlace(k.user, s.records[k]) !in s'.objects
    ensures AllTaken(w, s'.nexus, PackagesOf(w, s.records[k]))
  {
    var n := |s.records[k].attempts|;
    ReachableSafe(w, s0, before);
    SoundRecords(w, s);
    var a, s1 := Opens(w, s, k);
    StaysGood(w, s, s1, k);
    var b, s2 := Checks(w, s1, k, n);
    StaysGood(w, s1, s2, k);
    RunsOn(w, s, a, s1, b, s2);
    var c, s3 := AllPackages(w, s2, k, n, 0);
    StaysGood(w, s2, s3, k);
    RunsOn(w, s, a + b, s2, c, s3);
    SafeThere(w, s0, before, a + b + c, s3);
    var d, s4 := Finishes(w, s3, k, n);
    StaysGood(w, s3, s4, k);
    RunsOn(w, s, a + b + c, s3, d, s4);
    SafeThere(w, s0, before, a + b + c + d, s4);
    CompleteHolds(w, s4, k, n);
    var e;
    e, s' := Removes(w, s4, k, n);
    RunsOn(w, s, a + b + c + d, s4, e, s');
    steps := a + b + c + d + e;
  }

  lemma SafeThere(w: World, s0: System, before: seq<Step>, steps: seq<Step>, s': System)
    requires ValidWorld(w) && Initial(s0) && Possible(w, s0, before) && Runs(w, After(w, s0, before), steps, s')
    ensures Safe(w, s') && SoundAll(s'.records)
  {
    Joined(w, s0, before, steps);
    ReachableSafe(w, s0, before + steps);
    SoundRecords(w, s');
  }

  lemma CompleteHolds(w: World, s: System, k: ImportKey, n: nat)
    requires ValidWorld(w) && Safe(w, s) && EndedComplete(s.records, k, n, None) && Verifiable(w, s.records[k])
    ensures AllTaken(w, s.nexus, PackagesOf(w, s.records[k]))
  {
    CompleteMeansIn(w, s, k, n);
  }
}
