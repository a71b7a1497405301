/**
 What every reachable state of the import protocol keeps, whatever fails and
 wherever it crashes: sound records, true results, a Nexus that only grows, and
 no archive deleted before its complete end is stored.
 */
module ProtocolSafety {
  import opened Wrappers
  import opened Records
  import opened RecordStore
  import opened Publishing
  import opened Attempts
  import opened ImportQueue
  import opened Protocol

  // -------------------------------------------------------- true results

  /** A result that claims something of Nexus is right about it. */
  predicate ResultTrue(w: World, held: Held, imp: Import, i: nat, r: Result) {
    IsIn(r) || r.kind == KindConflict ==>
      && Verifiable(w, imp) && i < |PackagesOf(w, imp)|
      && var p := PackagesOf(w, imp)[i];
         && (IsIn(r) ==> Holds(w.t, held, p))
         && (r.kind == KindConflict ==> p.Key() in held && !Holds(w.t, held, p))
  }

  /** Results in manifest order, each naming its package and each true. */
  predicate ResultsTrue(w: World, held: Held, imp: Import, ps: seq<Result>) {
    ps != [] ==>
      && Listable(w, imp) && |ps| <= |EntriesOf(w, imp)|
      && forall i :: 0 <= i < |ps| ==> Names(ps[i], EntriesOf(w, imp)[i]) && ResultTrue(w, held, imp, i, ps[i])
  }

  /** A stored list is empty or lists the whole manifest. */
  predicate ListTrue(w: World, held: Held, imp: Import, ps: seq<Result>) {
    ResultsTrue(w, held, imp, ps) && (ps != [] ==> |ps| == |EntriesOf(w, imp)|)
  }

  predicate AttemptTrue(w: World, held: Held, imp: Import, a: Attempt) {
    && ListTrue(w, held, imp, a.report.packages)
    && (a.status == Ended && a.outcome == Complete ==> a.report.packages != [])
  }

  predicate RecordTrue(w: World, held: Held, imp: Import) {
    Sound(imp) && forall i :: 0 <= i < |imp.attempts| ==> AttemptTrue(w, held, imp, imp.attempts[i])
  }

  predicate RecordsTrue(w: World, s: System) {
    forall k :: k in s.records ==> RecordTrue(w, s.nexus, s.records[k])
  }

  /** Attempt n of k is stored as ended complete. */
  predicate CompleteAt(records: map<ImportKey, Import>, k: ImportKey, n: nat) {
    && k in records && 1 <= n <= |records[k].attempts|
    && records[k].attempts[n-1].status == Ended && records[k].attempts[n-1].outcome == Complete
  }

  predicate WorkerTrue(w: World, s: System) {
    match s.worker
    case Idle => true
    case Popped(k) => k in s.records
    case Begun(k, n) => k in s.records
    case Heading(k, n) => k in s.records
    case Confirming(k, n) => k in s.records
    case Reading(k, n) => k in s.records
    case Verifying(k, n) => k in s.records && Listable(w, s.records[k])
    case SettingUp(k, n) => k in s.records && Verifiable(w, s.records[k]) && Listable(w, s.records[k])
    case Handling(k, n, results, mode) =>
      && k in s.records && Listable(w, s.records[k])
      && |results| <= |EntriesOf(w, s.records[k])|
      && NoPending(results) && ResultsTrue(w, s.nexus, s.records[k], results)
      && (mode.Publish? ==> Verifiable(w, s.records[k]))
      && (mode == Publish(Lacking) ==>
            && OnPackage(w, s) && PackageNow(w, s).Key() !in s.nexus
            && w.t.inspect(PackageNow(w, s).bytes) == Some(PackageNow(w, s).Key()))
      && (mode == Publish(Sent) ==>
            OnPackage(w, s) && PackageNow(w, s).Key() in s.nexus
            && s.nexus[PackageNow(w, s).Key()] == PackageNow(w, s).bytes)
    case Ending(k, n, rep) =>
      && k in s.records && Allowed(Finish(n, rep)) && ListTrue(w, s.nexus, s.records[k], rep.packages)
      && (rep.outcome == Complete ==> rep.packages != [])
    case Breaking(k, n) => k in s.records
    case Abandoning(k) => k in s.records
    case Removing(k, n, _) => CompleteAt(s.records, k, n)
    case Storing(k, n, _) => CompleteAt(s.records, k, n)
  }

  /** Every import a remover has deleted the archive of has a complete end stored. */
  ghost predicate DeletedTrue(s: System) {
    forall k :: k in s.deleted ==> k in s.records && exists n :: CompleteAt(s.records, k, n)
  }

  predicate ItemsTrue(s: System) {
    && (forall i :: 0 <= i < |s.items| ==> s.items[i] in s.records)
    && (s.handler.Made? || s.handler.TurnedAway? ==> s.handler.k in s.records)
    && (!s.up ==> s.worker == Idle && s.items == [] && s.handler == NoHandler)
  }

  /** Every attempt stored as running has its working directory. */
  predicate DirsTrue(s: System) {
    forall k :: k in s.records && s.records[k].attempts != [] && Latest(s.records[k]).status == Running ==>
      AttemptId(k, Latest(s.records[k]).n) in s.dirs
  }

  ghost predicate Safe(w: World, s: System) {
    && RecordsTrue(w, s) && WorkerTrue(w, s) && DeletedTrue(s) && ItemsTrue(s) && DirsTrue(s)
  }

  /** What one step may do to what is durable. */
  predicate StepKeeps(s: System, s': System) {
    && (forall k :: k in s.records ==> k in s'.records && Evolves(s.records[k], s'.records[k]))
    && Grows(s.nexus, s'.nexus)
    && s.deleted <= s'.deleted
  }

  // -------------------------------------------------------------- growth

  lemma ResultsKeepTrue(w: World, held: Held, held': Held, imp: Import, imp': Import, ps: seq<Result>)
    requires ResultsTrue(w, held, imp, ps) && Grows(held, held')
    requires imp'.archive == imp.archive && imp'.manifest == imp.manifest
    ensures ResultsTrue(w, held', imp', ps)
  {
    forall i | 0 <= i < |ps| ensures ResultTrue(w, held', imp', i, ps[i]) {
      if IsIn(ps[i]) || ps[i].kind == KindConflict {
        GrowthKeepsVerdicts(w.t, held, held', PackagesOf(w, imp)[i]);
      }
    }
  }

  lemma RecordsKeepTrue(w: World, held: Held, held': Held, imp: Import)
    requires RecordTrue(w, held, imp) && Grows(held, held')
    ensures RecordTrue(w, held', imp)
  {
    forall i | 0 <= i < |imp.attempts| ensures AttemptTrue(w, held', imp, imp.attempts[i]) {
      ResultsKeepTrue(w, held, held', imp, imp, imp.attempts[i].report.packages);
    }
  }

  // ---------------------------------------------------- changes of a record

  /** The change stores only true results. */
  predicate ChangeTrue(w: World, held: Held, imp: Import, c: Change) {
    match c
    case Listed(_, rep) => ListTrue(w, held, imp, rep.packages)
    case PackageEnded(_, i, r) =>
      Listable(w, imp) && 0 <= i < |EntriesOf(w, imp)| && Names(r, EntriesOf(w, imp)[i])
        && ResultTrue(w, held, imp, i, r)
    case Finish(_, rep) => ListTrue(w, held, imp, rep.packages) && (rep.outcome == Complete ==> rep.packages != [])
    case _ => true
  }

  /** A record whose latest attempt was replaced by a true one, with no other change. */
  lemma LatestTrue(w: World, held: Held, imp: Import, a: Attempt)
    requires RecordTrue(w, held, imp) && Sound(WithLatest(imp, a))
    requires AttemptTrue(w, held, imp, a)
    ensures RecordTrue(w, held, WithLatest(imp, a))
  {
    var out := WithLatest(imp, a);
    forall i | 0 <= i < |out.attempts| ensures AttemptTrue(w, held, out, out.attempts[i]) {
      var b := out.attempts[i];
      assert AttemptTrue(w, held, imp, b);
      ResultsKeepTrue(w, held, held, imp, out, b.report.packages);
    }
  }

  lemma FailPendingTrue(w: World, held: Held, imp: Import, ps: seq<Result>, reason: string)
    requires ListTrue(w, held, imp, ps)
    ensures ListTrue(w, held, imp, FailPending(ps, reason))
  {
    var qs := FailPending(ps, reason);
    forall i | 0 <= i < |qs| ensures ResultTrue(w, held, imp, i, qs[i]) {
      assert ResultTrue(w, held, imp, i, ps[i]);
    }
  }

  lemma EndUnfinishedTrue(w: World, held: Held, imp: Import, outcome: Outcome, reason: string, pending: string)
    requires RecordTrue(w, held, imp) && outcome != NoOutcome && outcome != Complete
    ensures RecordTrue(w, held, EndUnfinished(imp, outcome, reason, pending))
  {
    EndUnfinishedSound(imp, outcome, reason, pending);
    var out := EndUnfinished(imp, outcome, reason, pending);
    if Latest(imp).status != Ended {
      assert AttemptTrue(w, held, imp, Latest(imp));
      FailPendingTrue(w, held, imp, Latest(imp).report.packages, pending);
      LatestTrue(w, held, imp, Latest(out));
    }
  }

  lemma SweepTrue(w: World, held: Held, imp: Import)
    requires RecordTrue(w, held, imp)
    ensures RecordTrue(w, held, SweepImport(imp))
  {
    SweepSound(imp);
    var out := SweepImport(imp);
    forall i | 0 <= i < |out.attempts| ensures AttemptTrue(w, held, out, out.attempts[i]) {
      assert AttemptTrue(w, held, imp, imp.attempts[i]);
      if imp.attempts[i].status == Ended {
        SweepKeepsFinal(imp.attempts[i].report);
      }
      FailPendingTrue(w, held, imp, imp.attempts[i].report.packages, "interrupted");
      ResultsKeepTrue(w, held, held, imp, out, FailPending(imp.attempts[i].report.packages, "interrupted"));
      ResultsKeepTrue(w, held, held, imp, out, imp.attempts[i].report.packages);
    }
  }

  lemma RetryTrue(w: World, held: Held, imp: Import)
    requires RecordTrue(w, held, imp) && RetryImport(imp).Accepted?
    ensures RecordTrue(w, held, RetryImport(imp).imp)
  {
    RetrySound(imp);
    var out := RetryImport(imp).imp;
    forall i | 0 <= i < |out.attempts| ensures AttemptTrue(w, held, out, out.attempts[i]) {
      if i < |imp.attempts| {
        assert AttemptTrue(w, held, imp, imp.attempts[i]);
        ResultsKeepTrue(w, held, held, imp, out, imp.attempts[i].report.packages);
      }
    }
  }

  lemma RemovedTrue(w: World, held: Held, imp: Import, n: nat, rem: Removal)
    requires RecordTrue(w, held, imp) && RemovedImport(imp, n, rem).Accepted?
    ensures RecordTrue(w, held, RemovedImport(imp, n, rem).imp)
  {
    RemovedSound(imp, n, rem);
    var out := RemovedImport(imp, n, rem).imp;
    forall i | 0 <= i < |out.attempts| ensures AttemptTrue(w, held, out, out.attempts[i]) {
      assert AttemptTrue(w, held, imp, imp.attempts[i]);
      ResultsKeepTrue(w, held, held, imp, out, imp.attempts[i].report.packages);
    }
  }

  lemma ChangeKeepsTrue(w: World, held: Held, imp: Import, c: Change)
    requires RecordTrue(w, held, imp) && Allowed(c) && ChangeTrue(w, held, imp, c) && Apply(imp, c).Accepted?
    ensures RecordTrue(w, held, Apply(imp, c).imp) && Evolves(imp, Apply(imp, c).imp)
  {
    ChangeSound(imp, c);
    match c
    case Retry => RetryTrue(w, held, imp);
    case Removed(n, rem) => RemovedTrue(w, held, imp, n, rem);
    case Abandon(reason) => EndUnfinishedTrue(w, held, imp, Interrupted, reason, "interrupted");
    case Break(reason) => EndUnfinishedTrue(w, held, imp, Incomplete, reason, "not reached");
    case Sweep => SweepTrue(w, held, imp);
    case _ =>
      assert AttemptTrue(w, held, imp, Latest(imp));
      LatestTrue(w, held, imp, Latest(Apply(imp, c).imp));
  }

  // ------------------------------------------------- one record of the store

  predicate RecordsEvolve(before: map<ImportKey, Import>, after: map<ImportKey, Import>) {
    forall k :: k in before ==> k in after && Evolves(before[k], after[k])
  }

  lemma EvolvesRefl(imp: Import)
    ensures Evolves(imp, imp)
  {
  }

  lemma CompleteStays(before: map<ImportKey, Import>, after: map<ImportKey, Import>, k: ImportKey, n: nat)
    requires CompleteAt(before, k, n) && RecordsEvolve(before, after)
    ensures CompleteAt(after, k, n)
  {
    assert AttemptEvolves(before[k].attempts[n-1], after[k].attempts[n-1]);
  }

  lemma WorkerStays(w: World, s: System, s': System)
    requires WorkerTrue(w, s) && s'.worker == s.worker && s'.nexus == s.nexus && RecordsEvolve(s.records, s'.records)
    ensures WorkerTrue(w, s')
  {
    match s.worker
    case Handling(k, n, results, mode) => ResultsKeepTrue(w, s.nexus, s.nexus, s.records[k], s'.records[k], results);
    case Ending(k, n, rep) => ResultsKeepTrue(w, s.nexus, s.nexus, s.records[k], s'.records[k], rep.packages);
    case Removing(k, n, _) => CompleteStays(s.records, s'.records, k, n);
    case Storing(k, n, _) => CompleteStays(s.records, s'.records, k, n);
    case _ =>
  }

  // ----------------------------------------------- what a step does to records

  /** The record a step may change, and how. */
  datatype Touch = Nothing | Touching(k: ImportKey, c: Change) | Making(k: ImportKey, imp: Import)

  const STOPPING := "the service was stopping and did not run this attempt"
  const PANICKED := "the import stopped on an internal error; see the service log"
  const UNRUN := "see the service log"

  function HandlerTouch(s: System, step: HandlerStep): Touch {
    match step
    case Start(k, archive, manifest, sha, _) => Making(k, NewImport(archive, manifest, sha))
    case RetryIt(k, _) => Touching(k, Retry)
    case EndTurnedAway(_, _) => if s.handler.TurnedAway? then Touching(s.handler.k, Abandon(STOPPING)) else Nothing
    case _ => Nothing
  }

  function OpeningTouch(s: System, step: OpeningStep): Touch {
    if step.BeginIt? && s.worker.Popped? then Touching(s.worker.k, Begin) else Nothing
  }

  function CheckingTouch(w: World, s: System, step: CheckingStep): Touch {
    match step
    case ListIt(_) =>
      if s.worker.Reading? && s.worker.k in s.records && Listable(w, s.records[s.worker.k]) then
        var pending := PendingList(EntriesOf(w, s.records[s.worker.k]));
        Touching(s.worker.k, Listed(s.worker.n, Report(NoOutcome, "", NO_COUNTS, pending, Some(false))))
      else Nothing
    case CheckIt(_) => if s.worker.Verifying? then Touching(s.worker.k, Checked(s.worker.n)) else Nothing
    case _ => Nothing
  }

  function PackageTouch(s: System, step: PackageStep): Touch {
    if step.EndPackage? && s.worker.Handling?
    then Touching(s.worker.k, PackageEnded(s.worker.n, |s.worker.results|, step.r.(reason := step.shown))) else Nothing
  }

  function EndingTouch(s: System, step: EndingStep): Touch {
    match step
    case Panic => Nothing
    case BreakIt(_, _) => if s.worker.Breaking? then Touching(s.worker.k, Break(PANICKED)) else Nothing
    case AbandonIt(_, _) => if s.worker.Abandoning? then Touching(s.worker.k, Abandon(UNRUN)) else Nothing
    case FinishIt(_, _) => if s.worker.Ending? then Touching(s.worker.k, Finish(s.worker.n, s.worker.rep)) else Nothing
  }

  function RemovalTouch(s: System, step: RemovalStep): Touch {
    if step.StoreIt? && s.worker.Storing? then Touching(s.worker.k, Removed(s.worker.n, s.worker.rem)) else Nothing
  }

  function CrashTouch(step: CrashStep): Touch {
    if step.SweepOne? then Touching(step.k, Sweep) else Nothing
  }

  function Touches(w: World, s: System, step: Step): Touch {
    match step
    case Handler(h) => HandlerTouch(s, h)
    case Opening(o) => OpeningTouch(s, o)
    case Checking(c) => CheckingTouch(w, s, c)
    case Packages(p) => PackageTouch(s, p)
    case Closing(e) => EndingTouch(s, e)
    case Remover(r) => RemovalTouch(s, r)
    case Service(x) => CrashTouch(x)
  }

  /** The record store goes from before to after: one change of one record, a new record, or nothing. */
  predicate RecordsStep(before: map<ImportKey, Import>, after: map<ImportKey, Import>, t: Touch) {
    || after == before
    || (t.Making? && after == before[t.k := t.imp])
    || (t.Touching? && Changed(before, t.k, t.c).Accepted? && after == before[t.k := Changed(before, t.k, t.c).imp])
  }

  lemma SavedStep(s: System, k: ImportKey, c: Change, ok: bool)
    ensures RecordsStep(s.records, Saved(s, k, c, ok).records, Touching(k, c))
  {
  }

  lemma EndedStep(s: System, k: ImportKey, c: Change, ok: bool, cleaned: bool)
    ensures RecordsStep(s.records, EndedUnfinished(s, k, c, ok, cleaned).records, Touching(k, c))
  {
  }

  lemma HandlerEffect(s: System, step: HandlerStep)
    ensures RecordsStep(s.records, HandlerNext(s, step).records, HandlerTouch(s, step))
  {
    match step
    case RetryIt(k, ok) => SavedStep(s, k, Retry, ok);
    case EndTurnedAway(ok, cleaned) =>
      if s.handler.TurnedAway? {
        EndedStep(s, s.handler.k, Abandon(STOPPING), ok, cleaned);
      }
    case _ =>
  }

  lemma OpeningEffect(s: System, step: OpeningStep)
    ensures RecordsStep(s.records, OpeningNext(s, step).records, OpeningTouch(s, step))
  {
  }

  lemma CrashEffect(s: System, step: CrashStep)
    ensures RecordsStep(s.records, CrashNext(s, step).records, CrashTouch(step))
  {
  }

  lemma CheckingEffect(w: World, s: System, step: CheckingStep)
    ensures RecordsStep(s.records, CheckingNext(w, s, step).records, CheckingTouch(w, s, step))
  {
    match step
    case ListIt(ok) =>
      var t := CheckingTouch(w, s, step);
      if t.Touching? {
        SavedStep(s, t.k, t.c, ok);
      }
    case CheckIt(ok) =>
      if s.worker.Verifying? {
        SavedStep(s, s.worker.k, Checked(s.worker.n), ok);
      }
    case _ =>
  }

  lemma PackageEffect(w: World, s: System, step: PackageStep)
    ensures RecordsStep(s.records, PackageNext(w, s, step).records, PackageTouch(s, step))
  {
    match step
    case EndPackage(r, shown, ok) =>
      if s.worker.Handling? {
        SavedStep(s, s.worker.k, PackageTouch(s, step).c, ok);
      }
    case _ =>
  }

  lemma EndingEffect(s: System, step: EndingStep)
    ensures RecordsStep(s.records, EndingNext(s, step).records, EndingTouch(s, step))
  {
    match step
    case BreakIt(ok, cleaned) =>
      if s.worker.Breaking? {
        EndedStep(s, s.worker.k, Break(PANICKED), ok, cleaned);
      }
    case AbandonIt(ok, cleaned) =>
      if s.worker.Abandoning? {
        EndedStep(s, s.worker.k, Abandon(UNRUN), ok, cleaned);
      }
    case _ =>
  }

  lemma RemovalEffect(s: System, step: RemovalStep)
    ensures RecordsStep(s.records, RemovalNext(s, step).records, RemovalTouch(s, step))
  {
    match step
    case StoreIt(ok) =>
      if s.worker.Storing? {
        SavedStep(s, s.worker.k, Removed(s.worker.n, s.worker.rem), ok);
      }
    case _ =>
  }

  lemma StepEffect(w: World, s: System, step: Step)
    ensures RecordsStep(s.records, Next(w, s, step).records, Touches(w, s, step))
  {
    match step
    case Handler(h) => HandlerEffect(s, h);
    case Opening(o) => OpeningEffect(s, o);
    case Checking(c) => CheckingEffect(w, s, c);
    case Packages(p) => PackageEffect(w, s, p);
    case Closing(e) => EndingEffect(s, e);
    case Remover(r) => RemovalEffect(s, r);
    case Service(x) => CrashEffect(s, x);
  }

  // --------------------------------------------------------- what Nexus sees

  lemma UploadStep(w: World, s: System)
    requires WorkerTrue(w, s) && PackageEnabled(w, s, Upload)
    ensures var p := PackageNow(w, s);
      p.Key() !in s.nexus && PackageNext(w, s, Upload).nexus == s.nexus[p.Key() := p.bytes]
  {
  }

  lemma NexusGrows(w: World, s: System, step: Step)
    requires WorkerTrue(w, s) && Enabled(w, s, step)
    ensures Grows(s.nexus, Next(w, s, step).nexus)
  {
    if step == Packages(Upload) {
      UploadStep(w, s);
    }
  }

  // ------------------------------------------------------------ the records

  lemma EndedResultTrue(w: World, s: System, r: Result, shown: string)
    requires ValidWorld(w) && WorkerTrue(w, s) && MayEnd(w, s, r)
    ensures var imp := s.records[s.worker.k]; var i := |s.worker.results|;
      && Names(r, EntriesOf(w, imp)[i]) && r.state != Pending
      && ResultTrue(w, s.nexus, imp, i, r) && ResultTrue(w, s.nexus, imp, i, r.(reason := shown))
  {
    if s.worker.mode.Publish? && s.worker.mode.sub != Waiting {
      var p := PackageNow(w, s);
      if s.worker.mode.sub == Sent {
        SettledGrows(w.t, s.nexus - {p.Key()}, s.nexus, p, true, r);
      } else {
        SettledGrows(w.t, s.nexus, s.nexus, p, true, r);
      }
    }
  }

  /** Whatever is stored is allowed and true. */
  lemma TouchesTrue(w: World, s: System, step: Step)
    requires ValidWorld(w) && Enabled(w, s, step) && WorkerTrue(w, s) && Touches(w, s, step).Touching?
    ensures var t := Touches(w, s, step);
      Allowed(t.c) && (t.k in s.records ==> ChangeTrue(w, s.nexus, s.records[t.k], t.c))
  {
    match step
    case Packages(p) =>
      if p.EndPackage? {
        EndedResultTrue(w, s, p.r, p.shown);
      }
    case _ =>
  }

  lemma RecordsStepTrue(w: World, held: Held, before: map<ImportKey, Import>, after: map<ImportKey, Import>, t: Touch)
    requires RecordsStep(before, after, t)
    requires forall k :: k in before ==> RecordTrue(w, held, before[k])
    requires t.Touching? ==> Allowed(t.c) && (t.k in before ==> ChangeTrue(w, held, before[t.k], t.c))
    requires t.Making? ==> t.k !in before && RecordTrue(w, held, t.imp)
    ensures forall k :: k in after ==> RecordTrue(w, held, after[k])
    ensures RecordsEvolve(before, after)
  {
    if t.Touching? && Changed(before, t.k, t.c).Accepted? {
      ChangeKeepsTrue(w, held, before[t.k], t.c);
    }
    forall k | k in before ensures k in after && Evolves(before[k], after[k]) {
      EvolvesRefl(before[k]);
    }
  }

  lemma MakingTrue(w: World, s: System, step: Step)
    requires Enabled(w, s, step) && Touches(w, s, step).Making?
    ensures Touches(w, s, step).k !in s.records && RecordTrue(w, s.nexus, Touches(w, s, step).imp)
  {
  }

  lemma RecordsSafe(w: World, s: System, step: Step)
    requires ValidWorld(w) && Enabled(w, s, step) && WorkerTrue(w, s) && RecordsTrue(w, s)
    ensures RecordsTrue(w, Next(w, s, step)) && RecordsEvolve(s.records, Next(w, s, step).records)
  {
    var t := Touches(w, s, step);
    var s' := Next(w, s, step);
    StepEffect(w, s, step);
    NexusGrows(w, s, step);
    if t.Touching? {
      TouchesTrue(w, s, step);
    } else if t.Making? {
      MakingTrue(w, s, step);
    }
    RecordsStepTrue(w, s.nexus, s.records, s'.records, t);
    forall k | k in s'.records ensures RecordTrue(w, s'.nexus, s'.records[k]) {
      RecordsKeepTrue(w, s.nexus, s'.nexus, s'.records[k]);
    }
  }

  // ------------------------------------------------------------- the worker

  lemma ReturnTrue(w: World, s: System)
    requires ValidWorld(w) && WorkerTrue(w, s) && PackageEnabled(w, s, Return)
    ensures WorkerTrue(w, PackageNext(w, s, Return))
  {
    CountsCover(s.worker.results);
    NoneFailedMeansAllIn(s.worker.results);
  }

  lemma EndPackageTrue(w: World, s: System, r: Result, shown: string, ok: bool)
    requires ValidWorld(w) && WorkerTrue(w, s) && MayEnd(w, s, r)
    requires RecordsEvolve(s.records, PackageNext(w, s, EndPackage(r, shown, ok)).records)
    ensures WorkerTrue(w, PackageNext(w, s, EndPackage(r, shown, ok)))
  {
    var s' := PackageNext(w, s, EndPackage(r, shown, ok));
    EndedResultTrue(w, s, r, shown);
    var k := s.worker.k;
    var results := s.worker.results + [r];
    assert ResultsTrue(w, s.nexus, s.records[k], results);
    ResultsKeepTrue(w, s.nexus, s.nexus, s.records[k], s'.records[k], results);
  }

  lemma UploadTrue(w: World, s: System)
    requires ValidWorld(w) && WorkerTrue(w, s) && PackageEnabled(w, s, Upload)
    ensures WorkerTrue(w, PackageNext(w, s, Upload))
  {
    var s' := PackageNext(w, s, Upload);
    UploadStep(w, s);
    ResultsKeepTrue(w, s.nexus, s'.nexus, s.records[s.worker.k], s.records[s.worker.k], s.worker.results);
  }

  lemma PackageWorker(w: World, s: System, step: PackageStep)
    requires ValidWorld(w) && PackageEnabled(w, s, step) && WorkerTrue(w, s)
    requires RecordsEvolve(s.records, PackageNext(w, s, step).records)
    ensures WorkerTrue(w, PackageNext(w, s, step))
  {
    match step
    case Return => ReturnTrue(w, s);
    case EndPackage(r, shown, ok) => EndPackageTrue(w, s, r, shown, ok);
    case Upload => UploadTrue(w, s);
    case _ =>
  }

  lemma OpeningWorker(w: World, s: System, step: OpeningStep)
    requires OpeningEnabled(s, step) && WorkerTrue(w, s) && ItemsTrue(s)
    requires RecordsEvolve(s.records, OpeningNext(s, step).records)
    ensures WorkerTrue(w, OpeningNext(s, step))
  {
    match step
    case Pop => PoppedWorker(w, s);
    case _ => OpeningPlace(s, step);
  }

  lemma PoppedWorker(w: World, s: System)
    requires OpeningEnabled(s, Pop) && ItemsTrue(s)
    ensures WorkerTrue(w, OpeningNext(s, Pop))
  {
  }

  /** Opening an attempt stays with its import. */
  lemma OpeningPlace(s: System, step: OpeningStep)
    requires OpeningEnabled(s, step) && !step.Pop?
    ensures var p := OpeningNext(s, step).worker;
      (p.Begun? || p.Heading? || p.Abandoning?) && p.k == s.worker.k && (s.worker.Popped? || s.worker.Begun?)
  {
  }

  lemma CheckingWorker(w: World, s: System, step: CheckingStep)
    requires ValidWorld(w) && CheckingEnabled(w, s, step) && WorkerTrue(w, s)
    requires RecordsEvolve(s.records, CheckingNext(w, s, step).records)
    ensures WorkerTrue(w, CheckingNext(w, s, step))
  {
    match step
    case StopEarly(outcome, reason) => StoppedWorker(w, s, outcome, reason);
    case ListIt(ok) => ListedWorker(w, s, ok);
    case CheckIt(ok) => CheckedWorker(w, s, ok);
    case _ =>
  }

  /** A run that stops before its list ends with an empty report. */
  lemma StoppedWorker(w: World, s: System, outcome: Outcome, reason: string)
    requires CheckingEnabled(w, s, StopEarly(outcome, reason)) && WorkerTrue(w, s)
    ensures WorkerTrue(w, CheckingNext(w, s, StopEarly(outcome, reason)))
  {
  }

  lemma ListedWorker(w: World, s: System, ok: bool)
    requires CheckingEnabled(w, s, ListIt(ok)) && WorkerTrue(w, s)
    requires RecordsEvolve(s.records, CheckingNext(w, s, ListIt(ok)).records)
    ensures WorkerTrue(w, CheckingNext(w, s, ListIt(ok)))
  {
  }

  lemma CheckedWorker(w: World, s: System, ok: bool)
    requires CheckingEnabled(w, s, CheckIt(ok)) && WorkerTrue(w, s)
    requires RecordsEvolve(s.records, CheckingNext(w, s, CheckIt(ok)).records)
    ensures WorkerTrue(w, CheckingNext(w, s, CheckIt(ok)))
  {
  }

  lemma EndingWorker(w: World, s: System, step: EndingStep)
    requires EndingEnabled(s, step) && WorkerTrue(w, s) && RecordsTrue(w, s)
    requires RecordsEvolve(s.records, EndingNext(s, step).records)
    ensures WorkerTrue(w, EndingNext(s, step))
  {
    EndingPlace(s, step);
    if EndingNext(s, step).worker.Removing? {
      FinishMeansComplete(w, s, step);
    }
  }

  /**
   An ending stays with its import: it is over, goes on to clean up, or, once stored complete,
   to remove the archive.
   */
  lemma EndingPlace(s: System, step: EndingStep)
    requires EndingEnabled(s, step)
    ensures var p := EndingNext(s, step).worker;
      || p.Idle? || (p.Breaking? && p.k == s.worker.k) || (p.Abandoning? && p.k == s.worker.k)
      || (p.Removing? && step.FinishIt? && p.k == s.worker.k && p.n == s.worker.n)
  {
  }

  lemma FinishMeansComplete(w: World, s: System, step: EndingStep)
    requires EndingEnabled(s, step) && WorkerTrue(w, s) && RecordsTrue(w, s)
    requires step.FinishIt? && EndingNext(s, step).worker.Removing?
    ensures CompleteAt(EndingNext(s, step).records, s.worker.k, s.worker.n)
  {
    assert RecordTrue(w, s.nexus, s.records[s.worker.k]);
    FinishedEndsAs(s.records[s.worker.k], s.worker.n, s.worker.rep);
  }

  lemma RemovalWorker(w: World, s: System, step: RemovalStep)
    requires RemovalEnabled(s, step) && WorkerTrue(w, s)
    requires RecordsEvolve(s.records, RemovalNext(s, step).records)
    ensures WorkerTrue(w, RemovalNext(s, step))
  {
    var (k, n) := (s.worker.k, s.worker.n);
    var s' := RemovalNext(s, step);
    CompleteStays(s.records, s'.records, k, n);
    RemovalKeepsPlace(s, step);
  }

  /** The remover stays with its attempt until it is done. */
  lemma RemovalKeepsPlace(s: System, step: RemovalStep)
    requires RemovalEnabled(s, step)
    ensures var p := RemovalNext(s, step).worker;
      p.Idle? || (p.Removing? && p.k == s.worker.k && p.n == s.worker.n)
        || (p.Storing? && p.k == s.worker.k && p.n == s.worker.n)
  {
    match step
    case HeadForRemoval(_, _) =>
    case _ =>
  }

  lemma WorkerSafe(w: World, s: System, step: Step)
    requires ValidWorld(w) && Enabled(w, s, step) && WorkerTrue(w, s) && RecordsTrue(w, s) && ItemsTrue(s)
    requires RecordsEvolve(s.records, Next(w, s, step).records)
    ensures WorkerTrue(w, Next(w, s, step))
  {
    match step
    case Handler(h) => WorkerStays(w, s, HandlerNext(s, h));
    case Opening(o) => OpeningWorker(w, s, o);
    case Checking(c) => CheckingWorker(w, s, c);
    case Packages(p) => PackageWorker(w, s, p);
    case Closing(e) => EndingWorker(w, s, e);
    case Remover(r) => RemovalWorker(w, s, r);
    case Service(x) => CrashWorker(w, s, x);
  }

  lemma CrashWorker(w: World, s: System, step: CrashStep)
    requires CrashEnabled(s, step) && WorkerTrue(w, s) && ItemsTrue(s)
    ensures WorkerTrue(w, CrashNext(s, step))
  {
  }

  // ------------------------------------------- deletions, items, directories

  lemma DeletedSafe(w: World, s: System, step: Step)
    requires Enabled(w, s, step) && WorkerTrue(w, s) && DeletedTrue(s)
    requires RecordsEvolve(s.records, Next(w, s, step).records)
    ensures DeletedTrue(Next(w, s, step)) && s.deleted <= Next(w, s, step).deleted
  {
    var s' := Next(w, s, step);
    forall k | k in s'.deleted ensures k in s'.records && exists n :: CompleteAt(s'.records, k, n) {
      if k !in s.deleted {
        assert CompleteAt(s.records, k, s.worker.n);
      }
      var n :| CompleteAt(s.records, k, n);
      CompleteStays(s.records, s'.records, k, n);
    }
  }

  lemma ItemsSafe(w: World, s: System, step: Step)
    requires Enabled(w, s, step) && ItemsTrue(s)
    requires RecordsEvolve(s.records, Next(w, s, step).records)
    ensures ItemsTrue(Next(w, s, step))
  {
    match step
    case Handler(h) => HandlerItems(s, h);
    case Opening(o) => ItemsStay(s, OpeningNext(s, o));
    case Checking(c) => ItemsStay(s, CheckingNext(w, s, c));
    case Packages(p) => ItemsStay(s, PackageNext(w, s, p));
    case Closing(e) => ItemsStay(s, EndingNext(s, e));
    case Remover(r) => ItemsStay(s, RemovalNext(s, r));
    case Service(x) => CrashItems(s, x);
  }

  lemma ItemsStay(s: System, s': System)
    requires ItemsTrue(s) && RecordsEvolve(s.records, s'.records)
    requires s.up && s'.up && s'.handler == s.handler
      && (s'.items == s.items || (s.items != [] && s'.items == s.items[1..]))
    ensures ItemsTrue(s')
  {
  }

  lemma CrashItems(s: System, step: CrashStep)
    requires CrashEnabled(s, step) && ItemsTrue(s)
    requires RecordsEvolve(s.records, CrashNext(s, step).records)
    ensures ItemsTrue(CrashNext(s, step))
  {
  }

  lemma HandlerItems(s: System, step: HandlerStep)
    requires HandlerEnabled(s, step) && ItemsTrue(s)
    requires RecordsEvolve(s.records, HandlerNext(s, step).records)
    ensures ItemsTrue(HandlerNext(s, step))
  {
    match step
    case Start(_, _, _, _, _) =>
    case RetryIt(_, _) =>
    case Submit =>
    case _ =>
  }

  predicate RunningIn(records: map<ImportKey, Import>, id: AttemptId) {
    id.key in records && IsRunning(records[id.key], id.n)
  }

  /** No change but Begin makes a running attempt, and none of those that end one leaves one. */
  lemma OnlyBeginRuns(imp: Import, c: Change)
    requires Sound(imp) && !c.Begin? && Apply(imp, c).Accepted? && Apply(imp, c).imp.attempts != []
    requires Latest(Apply(imp, c).imp).status == Running
    ensures Latest(imp).status == Running && Latest(imp).n == Latest(Apply(imp, c).imp).n
    ensures !c.Abandon? && !c.Break? && !c.Finish? && !c.Sweep?
  {
    match c
    case Sweep => SweepSettles(imp);
    case Removed(n, rem) => RemovedRuns(imp, n, rem);
    case _ =>
  }

  lemma RemovedRuns(imp: Import, n: nat, rem: Removal)
    requires RemovedImport(imp, n, rem).Accepted? && imp.attempts != []
    ensures var out := RemovedImport(imp, n, rem).imp;
      out.attempts != [] && Latest(out).status == Latest(imp).status && Latest(out).n == Latest(imp).n
  {
  }

  /** The change ends the attempt it touches, or was refused. */
  predicate Ends(t: Touch) {
    t.Touching? && (t.c.Abandon? || t.c.Break? || t.c.Finish? || t.c.Sweep?)
  }

  /** A directory goes only with the end of its attempt, or in the Begin that remakes it. */
  predicate DirsStep(s: System, s': System, t: Touch) {
    forall id :: id in s.dirs && id !in s'.dirs ==>
      || (Ends(t) && t.k == id.key && t.k in s.records && Changed(s.records, t.k, t.c).Accepted?
          && s'.records == s.records[t.k := Changed(s.records, t.k, t.c).imp])
      || (t == Touching(id.key, Begin) && s'.records == s.records && Changed(s.records, id.key, Begin).Accepted?
          && id == LatestId(s.records, id.key))
  }

  lemma EndedDirs(s: System, k: ImportKey, c: Change, ok: bool, cleaned: bool)
    requires c.Abandon? || c.Break?
    ensures DirsStep(s, EndedUnfinished(s, k, c, ok, cleaned), Touching(k, c))
  {
  }

  lemma StepDirs(w: World, s: System, step: Step)
    ensures DirsStep(s, Next(w, s, step), Touches(w, s, step))
  {
    match step
    case Handler(h) =>
      if h.EndTurnedAway? && s.handler.TurnedAway? {
        EndedDirs(s, s.handler.k, Abandon(STOPPING), h.ok, h.cleaned);
      }
    case Opening(o) => OpeningDirs(s, o);
    case Closing(e) => EndingDirs(s, e);
    case Service(x) => CrashDirs(s, x);
    case _ =>
  }

  lemma OpeningDirs(s: System, step: OpeningStep)
    ensures DirsStep(s, OpeningNext(s, step), OpeningTouch(s, step))
  {
  }

  lemma CrashDirs(s: System, step: CrashStep)
    ensures DirsStep(s, CrashNext(s, step), CrashTouch(step))
  {
  }

  lemma EndingDirs(s: System, step: EndingStep)
    ensures DirsStep(s, EndingNext(s, step), EndingTouch(s, step))
  {
    match step
    case BreakIt(ok, cleaned) =>
      if s.worker.Breaking? {
        EndedDirs(s, s.worker.k, Break(PANICKED), ok, cleaned);
      }
    case AbandonIt(ok, cleaned) =>
      if s.worker.Abandoning? {
        EndedDirs(s, s.worker.k, Abandon(UNRUN), ok, cleaned);
      }
    case _ =>
  }

  lemma BeginMakesDir(s: System, step: OpeningStep)
    requires step.BeginIt? && s.worker.Popped? && OpeningNext(s, step).records != s.records
    ensures LatestId(s.records, s.worker.k) in OpeningNext(s, step).dirs
    ensures s.dirs <= OpeningNext(s, step).dirs
  {
  }

  /** One record's part of DirsTrue, from what the step did to records and directories. */
  lemma DirsKept(s: System, s': System, t: Touch, k: ImportKey)
    requires k in s'.records && s'.records[k].attempts != [] && Latest(s'.records[k]).status == Running
    requires RecordsStep(s.records, s'.records, t) && DirsStep(s, s', t) && DirsTrue(s)
    requires k in s.records ==> Sound(s.records[k])
    requires t.Making? ==> StartsQueued(t.imp)
    requires t.Touching? && t.c.Begin? && s'.records != s.records ==>
      LatestId(s.records, t.k) in s'.dirs && s.dirs <= s'.dirs
    ensures AttemptId(k, Latest(s'.records[k]).n) in s'.dirs
  {
    if s'.records != s.records && t.Touching? && t.k == k && !t.c.Begin? {
      OnlyBeginRuns(s.records[k], t.c);
    }
  }

  predicate StartsQueued(imp: Import) {
    imp.attempts != [] && Latest(imp).status == Queued
  }

  lemma DirsSafe(w: World, s: System, step: Step)
    requires Enabled(w, s, step) && RecordsTrue(w, s) && DirsTrue(s)
    ensures DirsTrue(Next(w, s, step))
  {
    var s' := Next(w, s, step);
    var t := Touches(w, s, step);
    StepEffect(w, s, step);
    StepDirs(w, s, step);
    TouchKinds(w, s, step);
    if t.Touching? && t.c.Begin? && s'.records != s.records {
      BeginMakesDir(s, step.o);
    }
    forall k | k in s'.records && s'.records[k].attempts != [] && Latest(s'.records[k]).status == Running
      ensures AttemptId(k, Latest(s'.records[k]).n) in s'.dirs
    {
      DirsKept(s, s', t, k);
    }
  }

  lemma TouchKinds(w: World, s: System, step: Step)
    ensures var t := Touches(w, s, step);
      && (t.Making? ==> StartsQueued(t.imp))
      && (t.Touching? && t.c.Begin? ==> step.Opening? && step.o.BeginIt? && s.worker.Popped? && t.k == s.worker.k)
  {
  }

  // --------------------------------------------------------- the invariant

  lemma SafeStep(w: World, s: System, step: Step)
    requires ValidWorld(w) && Safe(w, s) && Enabled(w, s, step)
    ensures Safe(w, Next(w, s, step)) && StepKeeps(s, Next(w, s, step))
  {
    RecordsSafe(w, s, step);
    NexusGrows(w, s, step);
    WorkerSafe(w, s, step);
    DeletedSafe(w, s, step);
    ItemsSafe(w, s, step);
    DirsSafe(w, s, step);
  }
}
