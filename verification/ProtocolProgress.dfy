/**
 That an attempt gets somewhere: whatever fails, the worker always has a step
 to take, and ends the attempt it popped within a bound known beforehand.
 */
module ProtocolProgress {
  import opened Wrappers
  import opened Records
  import opened RecordStore
  import opened Publishing
  import opened Attempts
  import opened ImportQueue
  import opened Protocol
  import opened ProtocolSafety
  import opened ProtocolQueue
  import opened ProtocolTurns
  import opened ProtocolTheorems

  // ------------------------------------------------------ always a next step

  /** How many packages the worker's import lists. */
  function Listing(w: World, s: System, k: ImportKey): nat {
    if k in s.records && Listable(w, s.records[k]) then |EntriesOf(w, s.records[k])| else 0
  }

  function SubRank(mode: Mode): nat {
    match mode
    case FailAll(_) => 3
    case Publish(Waiting) => 3
    case Publish(Looking) => 2
    case Publish(Lacking) => 1
    case Publish(Sent) => 0
  }

  /** A bound on the steps the worker still takes for what it holds, an import of so many packages. */
  function RankOf(p: Phase, packages: nat): int {
    match p
    case Idle => 0
    case Abandoning(_) => 1
    case Storing(_, _, _) => 1
    case Breaking(_, _) => 2
    case Removing(_, _, DeletingManifest) => 2
    case Removing(_, _, DeletingArchive) => 3
    case Removing(_, _, HeadingManifest) => 4
    case Removing(_, _, HeadingArchive) => 5
    case Ending(_, _, _) => 6
    case Handling(_, _, results, mode) => 7 + 4 * (packages - |results|) + SubRank(mode)
    case SettingUp(_, _) => 11 + 4 * packages
    case Verifying(_, _) => 12 + 4 * packages
    case Reading(_, _) => 13 + 4 * packages
    case Confirming(_, _) => 14 + 4 * packages
    case Heading(_, _) => 15 + 4 * packages
    case Begun(_, _) => 16 + 4 * packages
    case Popped(_) => 17 + 4 * packages
  }

  function Rank(w: World, s: System): int {
    if s.worker.Idle? then 0 else RankOf(s.worker, Listing(w, s, s.worker.k))
  }

  lemma RankIsNatural(w: World, s: System)
    requires WorkerTrue(w, s)
    ensures Rank(w, s) >= 0 && (Rank(w, s) == 0 <==> s.worker.Idle?)
  {
  }

  /** What the manifest lists does not change. */
  lemma ListingStays(w: World, s: System, s': System, k: ImportKey)
    requires k in s.records && RecordsEvolve(s.records, s'.records)
    ensures Listing(w, s', k) == Listing(w, s, k)
  {
  }

  /** A failure of Nexus is one of the ends every package may have. */
  lemma MayFail(w: World, s: System) returns (r: Result)
    requires WorkerTrue(w, s) && s.worker.Handling? && |s.worker.results| < |EntriesOf(w, s.records[s.worker.k])|
    requires ValidWorld(w) && (s.worker.mode != Publish(Waiting) || !s.open)
    ensures MayEnd(w, s, r)
  {
    var e := EntryNow(w, s);
    r := if s.worker.mode == Publish(Waiting) then InterruptedResult(e) else FailedResult(e, KindNexus, "");
  }

  /** Whatever failed before, a worker that holds something can go on. */
  lemma NeverStuck(w: World, s: System) returns (step: Step)
    requires ValidWorld(w) && WorkerTrue(w, s) && s.up && !s.worker.Idle?
    ensures WorkerStep(step) && Enabled(w, s, step)
  {
    match s.worker
    case Popped(_) => step := Opening(BeginIt(true, true));
    case Begun(_, _) => step := Opening(GetIt(true));
    case Heading(_, _) => step := Checking(StopEarly(Refused, ""));
    case Confirming(_, _) => step := Checking(StopEarly(Refused, ""));
    case Reading(_, _) => step := Checking(StopEarly(Refused, ""));
    case Verifying(_, _) => step := Checking(StopEarly(Refused, ""));
    case SettingUp(_, _) => step := Checking(FailEvery);
    case Handling(k, _, results, mode) =>
      if |results| == |EntriesOf(w, s.records[k])| {
        step := Packages(Return);
      } else if s.open && mode == Publish(Waiting) {
        step := Packages(StartPackage);
      } else {
        var r := MayFail(w, s);
        step := Packages(EndPackage(r, "", true));
      }
    case Ending(_, _, _) => step := Closing(FinishIt(true, true));
    case Breaking(_, _) => step := Closing(BreakIt(true, true));
    case Abandoning(_) => step := Closing(AbandonIt(true, true));
    case Removing(_, _, stage) =>
      step := match stage
              case HeadingArchive => Remover(HeadForRemoval(true, ""))
              case HeadingManifest => Remover(HeadForRemoval(true, ""))
              case DeletingArchive => Remover(DeleteArchive(true, true, ""))
              case DeletingManifest => Remover(DeleteManifest(true, ""));
    case Storing(_, _, _) => step := Remover(StoreIt(true));
  }

  lemma OpeningDrops(s: System, step: OpeningStep, m: nat)
    requires OpeningEnabled(s, step) && !step.Pop?
    ensures var p := OpeningNext(s, step).worker; RankOf(p, m) < RankOf(s.worker, m) && !p.Idle? && p.k == s.worker.k
  {
    OpeningPlace(s, step);
  }

  lemma CheckingDrops(w: World, s: System, step: CheckingStep, m: nat)
    requires CheckingEnabled(w, s, step)
    ensures var p := CheckingNext(w, s, step).worker;
      RankOf(p, m) < RankOf(s.worker, m) && !p.Idle? && p.k == s.worker.k
  {
    match step
    case ListIt(_) =>
    case CheckIt(_) =>
    case _ =>
  }

  lemma PackageDrops(w: World, s: System, step: PackageStep, m: nat)
    requires WorkerTrue(w, s) && PackageEnabled(w, s, step) && m == Listing(w, s, s.worker.k)
    ensures var p := PackageNext(w, s, step).worker;
      RankOf(p, m) < RankOf(s.worker, m) && !p.Idle? && p.k == s.worker.k
  {
    match step
    case EndPackage(_, _, _) =>
    case _ =>
  }

  lemma EndingDrops(s: System, step: EndingStep, m: nat)
    requires EndingEnabled(s, step) && (s.worker.Handling? ==> |s.worker.results| <= m)
    ensures var p := EndingNext(s, step).worker; RankOf(p, m) < RankOf(s.worker, m) && (p.Idle? || p.k == s.worker.k)
  {
    EndingPlace(s, step);
    match step
    case FinishIt(_, _) => FinishPlace(s, step);
    case _ =>
  }

  /** A stored end leads to the first head for the removal, or to none. */
  lemma FinishPlace(s: System, step: EndingStep)
    requires s.worker.Ending? && step.FinishIt?
    ensures var p := EndingNext(s, step).worker;
      p.Idle? || p.Abandoning? || (p.Removing? && p.stage == HeadingArchive)
  {
  }

  lemma RemovalDrops(s: System, step: RemovalStep, m: nat)
    requires RemovalEnabled(s, step) && s.worker.k in s.records
    ensures var p := RemovalNext(s, step).worker; RankOf(p, m) < RankOf(s.worker, m) && (p.Idle? || p.k == s.worker.k)
  {
    match step
    case HeadForRemoval(_, _) =>
    case _ =>
  }

  lemma StepDrops(w: World, s: System, step: Step, m: nat)
    requires WorkerTrue(w, s) && Enabled(w, s, step) && WorkerStep(step)
    requires !s.worker.Idle? ==> m == Listing(w, s, s.worker.k)
    ensures !s.worker.Idle?
    ensures var p := Next(w, s, step).worker; RankOf(p, m) < RankOf(s.worker, m) && (p.Idle? || p.k == s.worker.k)
  {
    match step
    case Opening(o) => OpeningDrops(s, o, m);
    case Checking(c) => CheckingDrops(w, s, c, m);
    case Packages(p) => PackageDrops(w, s, p, m);
    case Closing(e) => EndingDrops(s, e, m);
    case Remover(r) => RemovalDrops(s, r, m);
  }

  /** Every step the worker takes, a failing one too, brings it nearer to the end. */
  lemma RankDrops(w: World, s: System, step: Step)
    requires ValidWorld(w) && Safe(w, s) && Enabled(w, s, step) && WorkerStep(step)
    ensures Rank(w, Next(w, s, step)) < Rank(w, s)
  {
    RecordsSafe(w, s, step);
    StepDrops(w, s, step, if s.worker.Idle? then 0 else Listing(w, s, s.worker.k));
    ListingStays(w, s, Next(w, s, step), s.worker.k);
  }

  /** What the handlers do in between makes it no longer. */
  lemma HandlerKeepsRank(w: World, s: System, step: HandlerStep)
    requires WorkerTrue(w, s) && RecordsEvolve(s.records, HandlerNext(s, step).records)
    ensures Rank(w, HandlerNext(s, step)) == Rank(w, s)
  {
    if !s.worker.Idle? {
      ListingStays(w, s, HandlerNext(s, step), s.worker.k);
    }
  }

  /** How many of the steps are the worker's. */
  function WorkerSteps(steps: seq<Step>): nat {
    if steps == [] then 0 else WorkerSteps(steps[..|steps|-1]) + if WorkerStep(steps[|steps|-1]) then 1 else 0
  }

  /** No crash and no pop. */
  predicate OneAttempt(steps: seq<Step>) {
    forall i :: 0 <= i < |steps| ==> !steps[i].Service? && steps[i] != Opening(Pop)
  }

  lemma {:induction false} SafeAfter(w: World, s: System, steps: seq<Step>)
    requires ValidWorld(w) && Safe(w, s) && Possible(w, s, steps)
    ensures Safe(w, After(w, s, steps))
    decreases |steps|
  {
    if steps != [] {
      SafeAfter(w, s, steps[..|steps|-1]);
      SafeStep(w, After(w, s, steps[..|steps|-1]), steps[|steps|-1]);
    }
  }

  /**
   Whatever fails and whatever the handlers do meanwhile, an attempt takes the
   worker no more steps than its rank says: by then it is free.
   */
  lemma {:induction false} EndsInTime(w: World, s: System, steps: seq<Step>)
    requires ValidWorld(w) && Safe(w, s) && Possible(w, s, steps) && OneAttempt(steps)
    ensures WorkerSteps(steps) + Rank(w, After(w, s, steps)) <= Rank(w, s)
    ensures WorkerSteps(steps) <= Rank(w, s)
    ensures WorkerSteps(steps) == Rank(w, s) ==> After(w, s, steps).worker.Idle?
    decreases |steps|
  {
    SafeAfter(w, s, steps);
    RankIsNatural(w, After(w, s, steps));
    if steps != [] {
      var (init, step) := (steps[..|steps|-1], steps[|steps|-1]);
      EndsInTime(w, s, init);
      SafeAfter(w, s, init);
      if WorkerStep(step) {
        RankDrops(w, After(w, s, init), step);
      } else {
        RecordsSafe(w, After(w, s, init), step);
        HandlerKeepsRank(w, After(w, s, init), step.h);
      }
    }
  }

  /** From its pop on that is 17 steps and four for each package the manifest lists. */
  lemma PoppedEndsInTime(w: World, s: System, steps: seq<Step>)
    requires ValidWorld(w) && Safe(w, s) && Possible(w, s, steps) && OneAttempt(steps) && s.worker.Popped?
    ensures var most := 17 + 4 * Listing(w, s, s.worker.k);
      && WorkerSteps(steps) <= most
      && (WorkerSteps(steps) == most ==> After(w, s, steps).worker.Idle?)
  {
    EndsInTime(w, s, steps);
  }
}
