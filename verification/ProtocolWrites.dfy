/**
 What holds while the writes of records succeed, whatever else fails: the
 making and removing of working directories, reads, and the process itself.
 Nothing unfinished is forgotten, and only the worker runs attempts.
 */
module ProtocolWrites {
  import opened Wrappers
  import opened Records
  import opened RecordStore
  import opened Publishing
  import opened Attempts
  import opened ImportQueue
  import opened Protocol
  import opened ProtocolSafety
  import opened ProtocolQueue
  import opened ProtocolTurns

  /** Every record the step writes is written. */
  predicate WritesOk(step: Step) {
    match step
    case Handler(h) => (h.Start? || h.RetryIt? || h.EndTurnedAway? ==> h.ok)
    case Opening(o) => (o.BeginIt? && o.made ==> o.ok)
    case Checking(c) => (c.ListIt? || c.CheckIt? ==> c.ok)
    case Packages(p) => (p.EndPackage? ==> p.ok)
    case Closing(e) => (e.BreakIt? || e.AbandonIt? || e.FinishIt? ==> e.ok)
    case Remover(r) => (r.StoreIt? ==> r.ok)
    case Service(x) => (x.SweepOne? ==> x.ok)
  }

  predicate AllWritesOk(steps: seq<Step>) {
    forall i :: 0 <= i < |steps| ==> WritesOk(steps[i])
  }

  /** Every running attempt is of the import the worker holds. */
  predicate RunnersHeld(s: System) {
    forall k :: k in s.records && RunningIn(s.records, LatestId(s.records, k)) ==> Owns(s.worker, k)
  }

  /** Every popped attempt has ended, or the worker holds its import. */
  predicate PoppedDone(s: System) {
    forall i :: 0 <= i < |s.popped| ==> EndedIn(s.records, s.popped[i]) || Owns(s.worker, s.popped[i].key)
  }

  predicate Attended(s: System) {
    Covered(s) && RunnersHeld(s) && PoppedDone(s)
  }

  predicate NoneForgotten(s: System) {
    if s.up then Attended(s) else SweptClean(s)
  }

  lemma PoppedKept(s: System, s': System)
    requires PoppedDone(s) && RecordsEvolve(s.records, s'.records) && s'.popped == s.popped
    requires forall i :: 0 <= i < |s.popped| && Owns(s.worker, s.popped[i].key) ==>
      EndedIn(s'.records, s.popped[i]) || Owns(s'.worker, s.popped[i].key)
    ensures PoppedDone(s')
  {
    forall i | 0 <= i < |s.popped|
      ensures EndedIn(s'.records, s.popped[i]) || Owns(s'.worker, s.popped[i].key)
    {
      if EndedIn(s.records, s.popped[i]) {
        EndedStays(s.records, s'.records, s.popped[i]);
      }
    }
  }

  // ------------------------------------------------------------ the handlers

  /** A handler's step on the record of k, which is with the handler afterwards or has ended. */
  lemma HandlerAttends(s: System, s': System, k: ImportKey)
    requires Attended(s) && RecordsEvolve(s.records, s'.records)
    requires s'.items == s.items && s'.popped == s.popped && s'.worker == s.worker
    requires s'.records.Keys == s.records.Keys + {k} && forall j :: j in s.records && j != k ==>
      s'.records[j] == s.records[j]
    requires forall j :: j != k && HandlerHas(s.handler, j) ==> HandlerHas(s'.handler, j)
    requires Unfinished(s'.records, k) ==> HandlerHas(s'.handler, k)
    requires !RunningIn(s'.records, LatestId(s'.records, k))
    ensures Attended(s')
  {
    PoppedKept(s, s');
  }

  lemma StartAttends(s: System, step: HandlerStep)
    requires Attended(s) && HandlerEnabled(s, step) && step.Start? && step.ok
    requires RecordsEvolve(s.records, HandlerNext(s, step).records)
    ensures Attended(HandlerNext(s, step))
  {
    HandlerAttends(s, HandlerNext(s, step), step.k);
  }

  lemma RetryAttends(s: System, s': System, k: ImportKey)
    requires Attended(s) && k in s.records && RetryImport(s.records[k]).Accepted? && s.handler == NoHandler
    requires s' == s.(records := s.records[k := RetryImport(s.records[k]).imp], handler := Made(k))
    requires RecordsEvolve(s.records, s'.records)
    ensures Attended(s')
  {
    HandlerAttends(s, s', k);
  }

  /** endUnfinished, once it is written, leaves the import finished. */
  lemma EndingWritten(s: System, k: ImportKey, c: Change, cleaned: bool)
    requires (c.Abandon? || c.Break?) && k in s.records && Sound(s.records[k])
    ensures var after := EndedUnfinished(s, k, c, true, cleaned).records;
      && after.Keys == s.records.Keys && (forall j :: j in s.records && j != k ==> after[j] == s.records[j])
      && !Unfinished(after, k) && !RunningIn(after, LatestId(after, k))
  {
  }

  lemma EndTurnedAwayAttends(s: System, s': System, k: ImportKey, cleaned: bool)
    requires Attended(s) && k in s.records && Sound(s.records[k]) && s.handler == TurnedAway(k)
    requires s' == EndedUnfinished(s, k, Abandon(STOPPING), true, cleaned).(handler := NoHandler)
    requires RecordsEvolve(s.records, s'.records)
    ensures Attended(s')
  {
    EndingWritten(s, k, Abandon(STOPPING), cleaned);
    HandlerAttends(s, s', k);
  }

  lemma SubmitAttends(s: System)
    requires Attended(s) && ItemsTrue(s) && HandlerEnabled(s, Submit)
    ensures Attended(HandlerNext(s, Submit))
  {
    if s.open {
      assert forall j :: j in s.items + [s.handler.k] <==> j in s.items || j == s.handler.k;
    }
  }

  lemma HandlerKept(s: System, step: HandlerStep)
    requires Attended(s) && SoundAll(s.records) && ItemsTrue(s) && HandlerEnabled(s, step) && WritesOk(Handler(step))
    requires RecordsEvolve(s.records, HandlerNext(s, step).records)
    ensures Attended(HandlerNext(s, step))
  {
    match step
    case Start(_, _, _, _, _) => StartAttends(s, step);
    case RetryIt(_, _) => RetriedAttends(s, step);
    case Submit => SubmitAttends(s);
    case EndTurnedAway(_, _) => EndedAwayAttends(s, step);
    case _ =>
  }

  lemma RetriedAttends(s: System, step: HandlerStep)
    requires Attended(s) && HandlerEnabled(s, step) && step.RetryIt? && step.ok
    requires RecordsEvolve(s.records, HandlerNext(s, step).records)
    ensures Attended(HandlerNext(s, step))
  {
    RetryAttends(s, HandlerNext(s, step), step.k);
  }

  lemma EndedAwayAttends(s: System, step: HandlerStep)
    requires Attended(s) && SoundAll(s.records) && ItemsTrue(s) && HandlerEnabled(s, step) && step.EndTurnedAway?
      && step.ok
    requires RecordsEvolve(s.records, HandlerNext(s, step).records)
    ensures Attended(HandlerNext(s, step))
  {
    EndTurnedAwayAttends(s, HandlerNext(s, step), s.handler.k, step.cleaned);
  }

  // --------------------------------------------------------------- the worker

  lemma PopAttends(s: System)
    requires Attended(s) && OpeningEnabled(s, Pop)
    ensures Attended(OpeningNext(s, Pop))
  {
    var s' := OpeningNext(s, Pop);
    assert forall j :: j in s.items ==> j == s.items[0] || j in s'.items;
    forall i | 0 <= i < |s'.popped|
      ensures EndedIn(s'.records, s'.popped[i]) || Owns(s'.worker, s'.popped[i].key)
    {
      if i < |s.popped| {
        assert EndedIn(s.records, s.popped[i]);
      }
    }
  }

  /** An import whose latest attempt has ended has only ended ones. */
  lemma AllEnded(records: map<ImportKey, Import>, id: AttemptId)
    requires StoredIn(records, id) && Sound(records[id.key]) && !Unfinished(records, id.key)
    ensures EndedIn(records, id)
  {
  }

  /** The worker keeps the import it holds, or has ended its latest attempt. */
  lemma HolderAttends(s: System, s': System)
    requires Attended(s) && Moves(s, s') && !Resting(s.worker) && SoundAll(s'.records)
    requires AllStored(s'.records, s'.popped) && RecordsEvolve(s.records, s'.records)
    requires s'.records.Keys == s.records.Keys && forall j :: j in s.records && j != s.worker.k ==>
      s'.records[j] == s.records[j]
    requires Resting(s'.worker) ==> !Unfinished(s'.records, s.worker.k)
    ensures Attended(s')
  {
    forall i | 0 <= i < |s.popped| && Owns(s.worker, s.popped[i].key)
      ensures EndedIn(s'.records, s.popped[i]) || Owns(s'.worker, s.popped[i].key)
    {
      if Resting(s'.worker) {
        assert StoredIn(s'.records, s'.popped[i]);
        AllEnded(s'.records, s.popped[i]);
      }
    }
    PoppedKept(s, s');
  }

  lemma RestAttends(s: System, s': System)
    requires Attended(s) && Moves(s, s') && Resting(s.worker) && SameStatuses(s.records, s'.records)
    requires RecordsEvolve(s.records, s'.records)
    ensures Attended(s')
  {
    PoppedKept(s, s');
  }

  /** A written step that lets the import go has ended its latest attempt. */
  lemma LetGo(w: World, s: System, step: Step)
    requires WorkerTrue(w, s) && SoundAll(s.records) && Enabled(w, s, step) && WritesOk(step)
    requires WorkerStep(step) && !Resting(s.worker) && Resting(Next(w, s, step).worker)
    ensures !Unfinished(Next(w, s, step).records, s.worker.k)
  {
    OnlyEndingsLetGo(w, s, step);
    EndsIt(w, s, step.e);
  }

  lemma OnlyEndingsLetGo(w: World, s: System, step: Step)
    requires Enabled(w, s, step) && WorkerStep(step) && !Resting(s.worker) && Resting(Next(w, s, step).worker)
    ensures step.Closing?
  {
    match step
    case Opening(o) => OpeningStaysOn(s, o);
    case Checking(c) => StaysOn(w, s, c);
    case Packages(p) => PackagesStayOn(w, s, p);
    case Closing(e) =>
    case Remover(r) =>
  }

  lemma OpeningStaysOn(s: System, step: OpeningStep)
    requires OpeningEnabled(s, step)
    ensures !Resting(OpeningNext(s, step).worker)
  {
  }

  lemma PackagesStayOn(w: World, s: System, step: PackageStep)
    requires PackageEnabled(w, s, step)
    ensures !Resting(PackageNext(w, s, step).worker)
  {
  }

  lemma StaysOn(w: World, s: System, step: CheckingStep)
    requires CheckingEnabled(w, s, step)
    ensures !Resting(CheckingNext(w, s, step).worker)
  {
  }

  lemma FinishEnds(s: System, cleaned: bool)
    requires s.worker.Ending? && s.worker.k in s.records && Sound(s.records[s.worker.k])
    requires Resting(EndingNext(s, FinishIt(true, cleaned)).worker)
    ensures !Unfinished(EndingNext(s, FinishIt(true, cleaned)).records, s.worker.k)
  {
  }

  lemma EndsIt(w: World, s: System, step: EndingStep)
    requires WorkerTrue(w, s) && SoundAll(s.records) && EndingEnabled(s, step) && WritesOk(Closing(step))
    requires Resting(EndingNext(s, step).worker)
    ensures !Unfinished(EndingNext(s, step).records, s.worker.k)
  {
    match step
    case BreakIt(_, cleaned) => EndingWritten(s, s.worker.k, Break(PANICKED), cleaned);
    case AbandonIt(_, cleaned) => EndingWritten(s, s.worker.k, Abandon(UNRUN), cleaned);
    case FinishIt(_, cleaned) => FinishEnds(s, cleaned);
  }

  /** A step of the worker changes no record but that of the import it is on. */
  lemma OnlyItsRecord(w: World, s: System, step: Step)
    requires WorkerTrue(w, s) && Enabled(w, s, step) && WorkerStep(step) && !Resting(s.worker)
    ensures var after := Next(w, s, step).records;
      after.Keys == s.records.Keys && forall j :: j in s.records && j != s.worker.k ==> after[j] == s.records[j]
  {
    StepEffect(w, s, step);
  }

  lemma HolderKept(w: World, s: System, step: Step)
    requires WorkerTrue(w, s) && SoundAll(s.records) && Attended(s) && Enabled(w, s, step) && WritesOk(step)
    requires WorkerStep(step) && !Resting(s.worker) && Moves(s, Next(w, s, step))
    requires ListsTrue(Next(w, s, step)) && SoundAll(Next(w, s, step).records)
    requires RecordsEvolve(s.records, Next(w, s, step).records)
    ensures Attended(Next(w, s, step))
  {
    OnlyItsRecord(w, s, step);
    if Resting(Next(w, s, step).worker) {
      LetGo(w, s, step);
    }
    HolderAttends(s, Next(w, s, step));
  }

  lemma WorkerKept(w: World, s: System, step: Step)
    requires WorkerTrue(w, s) && SoundAll(s.records) && Attended(s) && Enabled(w, s, step) && WritesOk(step)
    requires WorkerStep(step) && ListsTrue(Next(w, s, step)) && SoundAll(Next(w, s, step).records)
    requires RecordsEvolve(s.records, Next(w, s, step).records)
    ensures Attended(Next(w, s, step))
  {
    StepMoves(w, s, step);
    if Resting(s.worker) {
      RestIsRemoving(w, s, step);
      RemovalStatuses(s, step.r);
      RestAttends(s, Next(w, s, step));
    } else {
      HolderKept(w, s, step);
    }
  }

  lemma RestIsRemoving(w: World, s: System, step: Step)
    requires Resting(s.worker) && Enabled(w, s, step) && WorkerStep(step)
    ensures step.Remover?
  {
  }

  lemma CrashKept(s: System, step: CrashStep)
    requires NoneForgotten(s) && Turns(s) && ItemsTrue(s) && CrashEnabled(s, step) && WritesOk(Service(step))
    ensures NoneForgotten(CrashNext(s, step))
  {
    match step
    case Crash =>
    case SweepOne(k, ok, cleaned) => SweepKeepsClean(s, k, ok, cleaned);
    case Restart =>
  }

  lemma KeptStep(w: World, s: System, step: Step)
    requires ValidWorld(w) && Safe(w, s) && Enabled(w, s, step) && Turns(s) && NoneForgotten(s) && WritesOk(step)
    ensures NoneForgotten(Next(w, s, step))
  {
    SafeStep(w, s, step);
    TurnsStep(w, s, step);
    SoundRecords(w, s);
    SoundRecords(w, Next(w, s, step));
    if WorkerStep(step) {
      WorkerKept(w, s, step);
    } else if step == Opening(Pop) {
      PopAttends(s);
    } else if step.Service? {
      CrashKept(s, step.x);
    } else if s.up {
      HandlerKept(s, step.h);
    }
  }
}
