/**
 Whose turn it is, in every run of the import protocol, whatever fails: the
 queue is first in, first out by import; an attempt that waits in the queue is
 ended by one kind of step only; and a pop takes the attempt that was
 submitted unless that one was ended while it waited.
 */
module ProtocolTurns {
  import opened Wrappers
  import opened Records
  import opened RecordStore
  import opened Publishing
  import opened Attempts
  import opened ImportQueue
  import opened Protocol
  import opened ProtocolSafety
  import opened ProtocolQueue

  predicate StoredIn(records: map<ImportKey, Import>, id: AttemptId) {
    id.key in records && 1 <= id.n <= |records[id.key].attempts|
  }

  predicate AllStored(records: map<ImportKey, Import>, ids: seq<AttemptId>) {
    forall i :: 0 <= i < |ids| ==> StoredIn(records, ids[i])
  }

  function Keys(ids: seq<AttemptId>): (ks: seq<ImportKey>)
    ensures |ks| == |ids| && forall i :: 0 <= i < |ids| ==> ks[i] == ids[i].key
  {
    seq(|ids|, i requires 0 <= i < |ids| => ids[i].key)
  }

  /** Pops take the imports in the order they were submitted, and the items are those still to come. */
  predicate KeysInOrder(s: System) {
    Keys(s.submitted) == Keys(s.popped) + s.items
  }

  /** A pop took the very attempt that was submitted, or that one has ended. */
  predicate TakenInTurn(s: System) {
    forall i :: 0 <= i < |s.popped| && i < |s.submitted| ==>
      s.popped[i] == s.submitted[i] || EndedIn(s.records, s.submitted[i])
  }

  predicate HandlerFresh(s: System) {
    !s.handler.NoHandler? ==>
      LatestId(s.records, s.handler.k) !in s.submitted && (s.handler.TurnedAway? ==> !s.open)
  }

  /** The worker is on a begun attempt it has yet to end. */
  predicate OnAttempt(p: Phase) {
    p.Begun? || InRun(p) || p.Ending? || p.Breaking?
  }

  /** It runs, or a handler that was turned away has ended it and the queue takes no more. */
  predicate RunHeld(s: System) {
    OnAttempt(s.worker) ==>
      || RunningIn(s.records, AttemptId(s.worker.k, s.worker.n))
      || (!s.open && LatestId(s.records, s.worker.k) !in s.submitted)
  }

  /** A worker that holds an import holds the one it popped last. */
  predicate HoldsItsPop(s: System) {
    !Resting(s.worker) ==> s.popped != [] && s.popped[|s.popped|-1].key == s.worker.k
  }

  predicate ListsTrue(s: System) {
    && AllStored(s.records, s.submitted) && AllStored(s.records, s.popped)
    && KeysInOrder(s) && TakenInTurn(s)
  }

  predicate Turns(s: System) {
    && ListsTrue(s) && HandlerFresh(s) && RunHeld(s) && HoldsItsPop(s)
    && (!s.up ==> s.submitted == [] && s.popped == [])
  }

  // ---------------------------------------------------- the latest attempts

  lemma LatestKept(imp: Import, c: Change)
    requires Sound(imp) && Apply(imp, c).Accepted? && !c.Retry?
    ensures var out := Apply(imp, c).imp; out.attempts != [] && Latest(out).n == Latest(imp).n
  {
    match c
    case Removed(n, rem) => RemovedKeepsLatest(imp, n, rem);
    case _ =>
  }

  /** Only a retry gives an import a new latest attempt, and nothing takes a record away. */
  lemma StepLatest(w: World, s: System, step: Step, k: ImportKey)
    requires SoundAll(s.records) && k in s.records && step != Handler(RetryIt(k, true)) && Enabled(w, s, step)
    ensures k in Next(w, s, step).records && LatestId(Next(w, s, step).records, k) == LatestId(s.records, k)
  {
    StepEffect(w, s, step);
    var t := Touches(w, s, step);
    if t.Touching? && t.k == k && Next(w, s, step).records != s.records {
      if t.c.Retry? {
        RetryTouches(w, s, step);
      }
      LatestKept(s.records[k], t.c);
    }
  }

  lemma RetryTouches(w: World, s: System, step: Step)
    requires Touches(w, s, step).Touching? && Touches(w, s, step).c.Retry? && Next(w, s, step).records != s.records
    ensures step == Handler(RetryIt(Touches(w, s, step).k, true))
  {
  }

  lemma ListsStay(s: System, s': System)
    requires ListsTrue(s) && RecordsEvolve(s.records, s'.records)
    requires s'.items == s.items && s'.submitted == s.submitted && s'.popped == s.popped
    ensures ListsTrue(s')
  {
    forall i | 0 <= i < |s.popped| ensures s.popped[i] == s.submitted[i] || EndedIn(s'.records, s.submitted[i]) {
      if EndedIn(s.records, s.submitted[i]) {
        EndedStays(s.records, s'.records, s.submitted[i]);
      }
    }
  }

  lemma LatestIsStored(records: map<ImportKey, Import>, k: ImportKey)
    requires k in records && Sound(records[k])
    ensures StoredIn(records, LatestId(records, k)) && LatestId(records, k) == AttemptId(k, |records[k].attempts|)
  {
  }

  // ------------------------------------------------------------ the handlers

  /** A handler's step other than a submission leaves the lists and the worker alone. */
  lemma HandlerRest(s: System, s': System)
    requires Turns(s) && RecordsEvolve(s.records, s'.records) && HandlerFresh(s') && RunHeld(s') && s'.up == s.up
    requires s'.items == s.items && s'.submitted == s.submitted && s'.popped == s.popped && s'.worker == s.worker
    ensures Turns(s')
  {
    ListsStay(s, s');
  }

  lemma StartTurns(w: World, s: System, s': System, k: ImportKey, imp: Import)
    requires WorkerTrue(w, s) && Turns(s) && k !in s.records
    requires s' == s.(records := s.records[k := imp], handler := Made(k)) && RecordsEvolve(s.records, s'.records)
    ensures Turns(s')
  {
    assert forall i :: 0 <= i < |s.submitted| ==> StoredIn(s.records, s.submitted[i]);
    HandlerRest(s, s');
  }

  lemma RetryTurns(s: System, s': System, k: ImportKey)
    requires SoundAll(s.records) && Turns(s) && k in s.records && RetryImport(s.records[k]).Accepted?
    requires s' == s.(records := s.records[k := RetryImport(s.records[k]).imp], handler := Made(k))
    requires RecordsEvolve(s.records, s'.records)
    ensures Turns(s')
  {
    LatestIsStored(s.records, k);
    assert LatestId(s'.records, k) == AttemptId(k, |s.records[k].attempts| + 1);
    assert !StoredIn(s.records, LatestId(s'.records, k));
    HandlerRest(s, s');
  }

  lemma SubmitLists(s: System, s': System, k: ImportKey)
    requires ListsTrue(s) && k in s.records && Sound(s.records[k])
    requires s' == s.(items := s.items + [k], handler := NoHandler, submitted := s.submitted + [LatestId(s.records, k)])
    ensures ListsTrue(s')
  {
    LatestIsStored(s.records, k);
    KeysAnd(s.submitted, LatestId(s.records, k));
    assert Keys(s.popped) + (s.items + [k]) == Keys(s.popped) + s.items + [k];
  }

  lemma SubmitTurns(s: System)
    requires SoundAll(s.records) && ItemsTrue(s) && Turns(s) && HandlerEnabled(s, Submit)
    ensures Turns(HandlerNext(s, Submit))
  {
    if s.open {
      SubmitLists(s, HandlerNext(s, Submit), s.handler.k);
    }
  }

  lemma TurnedAwayTurns(s: System, s': System, k: ImportKey)
    requires Turns(s) && s.handler == TurnedAway(k) && RecordsEvolve(s.records, s'.records)
    requires s' == s.(records := s'.records, dirs := s'.dirs, faulted := s'.faulted, handler := NoHandler)
    requires forall j :: j in s.records && j != k ==> s'.records[j] == s.records[j]
    requires OnAttempt(s.worker) ==>
      s.worker.k in s.records && LatestId(s'.records, s.worker.k) == LatestId(s.records, s.worker.k)
    ensures Turns(s')
  {
    HandlerRest(s, s');
  }

  lemma TurnedAwayShape(s: System, step: HandlerStep)
    requires HandlerEnabled(s, step) && step.EndTurnedAway?
    ensures var s' := HandlerNext(s, step);
      && s' == s.(records := s'.records, dirs := s'.dirs, faulted := s'.faulted, handler := NoHandler)
      && forall j :: j in s.records && j != s.handler.k ==> j in s'.records && s'.records[j] == s.records[j]
  {
  }

  lemma StartedTurns(w: World, s: System, step: HandlerStep)
    requires WorkerTrue(w, s) && Turns(s) && HandlerEnabled(s, step) && step.Start?
    requires RecordsEvolve(s.records, HandlerNext(s, step).records)
    ensures Turns(HandlerNext(s, step))
  {
    if step.ok {
      StartTurns(w, s, HandlerNext(s, step), step.k, NewImport(step.archive, step.manifest, step.sha));
    } else {
      HandlerRest(s, HandlerNext(s, step));
    }
  }

  lemma RetriedTurns(s: System, step: HandlerStep)
    requires SoundAll(s.records) && Turns(s) && HandlerEnabled(s, step) && step.RetryIt?
    requires RecordsEvolve(s.records, HandlerNext(s, step).records)
    ensures Turns(HandlerNext(s, step))
  {
    if step.ok {
      RetryTurns(s, HandlerNext(s, step), step.k);
    } else {
      HandlerRest(s, HandlerNext(s, step));
    }
  }

  lemma TurnedAwayLatest(w: World, s: System, step: HandlerStep, k: ImportKey)
    requires SoundAll(s.records) && k in s.records && s.up && HandlerEnabled(s, step) && step.EndTurnedAway?
    ensures var after := HandlerNext(s, step).records; k in after && LatestId(after, k) == LatestId(s.records, k)
  {
    StepLatest(w, s, Handler(step), k);
  }

  lemma EndedAwayTurns(w: World, s: System, step: HandlerStep)
    requires WorkerTrue(w, s) && SoundAll(s.records) && Turns(s) && s.up && HandlerEnabled(s, step)
      && step.EndTurnedAway?
    requires RecordsEvolve(s.records, HandlerNext(s, step).records)
    ensures Turns(HandlerNext(s, step))
  {
    TurnedAwayShape(s, step);
    if OnAttempt(s.worker) {
      TurnedAwayLatest(w, s, step, s.worker.k);
    }
    TurnedAwayTurns(s, HandlerNext(s, step), s.handler.k);
  }

  lemma HandlerTurns(w: World, s: System, step: HandlerStep)
    requires WorkerTrue(w, s) && ItemsTrue(s) && SoundAll(s.records) && Turns(s) && s.up && HandlerEnabled(s, step)
    requires RecordsEvolve(s.records, HandlerNext(s, step).records)
    ensures Turns(HandlerNext(s, step))
  {
    match step
    case Start(_, _, _, _, _) => StartedTurns(w, s, step);
    case RetryIt(_, _) => RetriedTurns(s, step);
    case Submit => SubmitTurns(s);
    case EndTurnedAway(_, _) => EndedAwayTurns(w, s, step);
    case _ => HandlerRest(s, HandlerNext(s, step));
  }

  // --------------------------------------------------------------- the worker

  predicate WorkerStep(step: Step) {
    !step.Handler? && !step.Service? && step != Opening(Pop)
  }

  /** What a step of the worker other than a pop leaves alone, and how far it moves. */
  predicate Moves(s: System, s': System) {
    && s'.items == s.items && s'.submitted == s.submitted && s'.popped == s.popped && s'.handler == s.handler
    && s'.open == s.open && s'.up == s.up
    && (!Resting(s'.worker) ==> !Resting(s.worker) && s'.worker.k == s.worker.k)
    && (OnAttempt(s'.worker) ==>
          || (s.worker.Popped? && RunningIn(s'.records, AttemptId(s'.worker.k, s'.worker.n)))
          || (OnAttempt(s.worker) && s'.worker.n == s.worker.n
              && (RunningIn(s.records, AttemptId(s.worker.k, s.worker.n))
                  ==> RunningIn(s'.records, AttemptId(s.worker.k, s.worker.n)))))
  }

  lemma BeginMoves(s: System, made: bool, ok: bool)
    requires s.worker.Popped?
    ensures Moves(s, OpeningNext(s, BeginIt(made, ok)))
  {
  }

  lemma OpeningMoves(s: System, step: OpeningStep)
    requires OpeningEnabled(s, step) && !step.Pop?
    ensures Moves(s, OpeningNext(s, step))
  {
    match step
    case BeginIt(made, ok) => BeginMoves(s, made, ok);
    case GetIt(ok) =>
  }

  lemma CheckingMoves(w: World, s: System, step: CheckingStep)
    requires CheckingEnabled(w, s, step)
    ensures Moves(s, CheckingNext(w, s, step))
  {
    match step
    case ListIt(ok) => SavedMoves(s, CheckingNext(w, s, step), CheckingTouch(w, s, step).c, ok);
    case CheckIt(ok) => SavedMoves(s, CheckingNext(w, s, step), Checked(s.worker.n), ok);
    case _ =>
  }

  /** The worker stores a change of the attempt it is on and stays on it. */
  lemma SavedMoves(s: System, s': System, c: Change, ok: bool)
    requires OnAttempt(s.worker) && (c.Listed? || c.Checked? || c.PackageEnded?) && c.n == s.worker.n
    requires s' == Saved(s, s.worker.k, c, ok).(worker := s'.worker)
    requires InRun(s'.worker) && s'.worker.k == s.worker.k && s'.worker.n == s.worker.n
    ensures Moves(s, s')
  {
    if RunningIn(s.records, AttemptId(s.worker.k, s.worker.n)) {
      SavedKeepsRunning(s, s.worker.k, s.worker.n, c, ok);
    }
  }

  lemma PackageMoves(w: World, s: System, step: PackageStep)
    requires PackageEnabled(w, s, step)
    ensures Moves(s, PackageNext(w, s, step))
  {
    match step
    case EndPackage(r, shown, ok) => SavedMoves(s, PackageNext(w, s, step), PackageTouch(s, step).c, ok);
    case _ =>
  }

  /** The end of an attempt, or what follows an end that failed: the worker is on no attempt any more. */
  lemma LeavesMove(s: System, s': System)
    requires s' == s.(records := s'.records, dirs := s'.dirs, worker := s'.worker, faulted := s'.faulted)
    requires Resting(s'.worker) || (s'.worker.Abandoning? && !Resting(s.worker) && s'.worker.k == s.worker.k)
    ensures Moves(s, s')
  {
  }

  lemma EndingMoves(s: System, step: EndingStep)
    requires EndingEnabled(s, step)
    ensures Moves(s, EndingNext(s, step))
  {
    match step
    case Panic =>
    case _ =>
      EndingPlace(s, step);
      LeavesMove(s, EndingNext(s, step));
  }

  lemma RemovalMoves(s: System, step: RemovalStep)
    requires RemovalEnabled(s, step)
    ensures Moves(s, RemovalNext(s, step))
  {
    RemovalPhases(s, step);
  }

  lemma StepMoves(w: World, s: System, step: Step)
    requires Enabled(w, s, step) && WorkerStep(step)
    ensures Moves(s, Next(w, s, step))
  {
    match step
    case Opening(o) => OpeningMoves(s, o);
    case Checking(c) => CheckingMoves(w, s, c);
    case Packages(p) => PackageMoves(w, s, p);
    case Closing(e) => EndingMoves(s, e);
    case Remover(r) => RemovalMoves(s, r);
  }

  lemma MovesTurn(s: System, s': System)
    requires Turns(s) && Moves(s, s') && RecordsEvolve(s.records, s'.records)
    requires !s.handler.NoHandler? ==> LatestId(s'.records, s.handler.k) == LatestId(s.records, s.handler.k)
    requires OnAttempt(s.worker) ==> LatestId(s'.records, s.worker.k) == LatestId(s.records, s.worker.k)
    ensures Turns(s')
  {
    ListsStay(s, s');
  }

  lemma WorkerTurns(w: World, s: System, step: Step)
    requires WorkerTrue(w, s) && SoundAll(s.records) && ItemsTrue(s) && Turns(s) && Enabled(w, s, step)
      && WorkerStep(step)
    requires RecordsEvolve(s.records, Next(w, s, step).records)
    ensures Turns(Next(w, s, step))
  {
    StepMoves(w, s, step);
    if !s.handler.NoHandler? {
      StepLatest(w, s, step, s.handler.k);
    }
    if OnAttempt(s.worker) {
      StepLatest(w, s, step, s.worker.k);
    }
    MovesTurn(s, Next(w, s, step));
  }

  lemma KeysAnd(ids: seq<AttemptId>, id: AttemptId)
    ensures Keys(ids + [id]) == Keys(ids) + [id.key]
  {
  }

  /** The item at the head of the queue is the oldest submission not popped. */
  lemma HeadIsNext(s: System)
    requires KeysInOrder(s) && s.items != []
    ensures |s.popped| < |s.submitted| && s.submitted[|s.popped|].key == s.items[0]
  {
    assert Keys(s.submitted)[|s.popped|] == s.items[0];
  }

  lemma PopLists(s: System, s': System)
    requires SoundAll(s.records) && ItemsTrue(s) && ListsTrue(s) && s.items != []
    requires s' == OpeningNext(s, Pop)
    ensures ListsTrue(s')
  {
    var (p, k) := (|s.popped|, s.items[0]);
    LatestIsStored(s.records, k);
    HeadIsNext(s);
    assert StoredIn(s.records, s.submitted[p]);
    KeysAnd(s.popped, LatestId(s.records, k));
    Regroup(Keys(s.popped), k, s'.items);
    assert s.items == [k] + s'.items;
  }

  lemma PopTurns(s: System)
    requires SoundAll(s.records) && ItemsTrue(s) && Turns(s) && OpeningEnabled(s, Pop) && s.up
    ensures Turns(OpeningNext(s, Pop))
  {
    PopLists(s, OpeningNext(s, Pop));
  }

  /** Nothing is submitted or popped while the service is down. */
  lemma DownTurns(s: System, s': System)
    requires s'.submitted == [] && s'.popped == [] && s'.items == [] && s'.worker == Idle && s'.handler == NoHandler
    ensures Turns(s')
  {
  }

  lemma CrashTurns(s: System, step: CrashStep)
    requires Turns(s) && ItemsTrue(s) && CrashEnabled(s, step)
    ensures Turns(CrashNext(s, step))
  {
    DownTurns(s, CrashNext(s, step));
  }

  lemma SoundRecords(w: World, s: System)
    requires RecordsTrue(w, s)
    ensures SoundAll(s.records) && RecordsEvolve(s.records, s.records)
  {
    forall j | j in s.records ensures Evolves(s.records[j], s.records[j]) && Sound(s.records[j]) {
      EvolvesRefl(s.records[j]);
      assert RecordTrue(w, s.nexus, s.records[j]);
    }
  }

  lemma TurnsStep(w: World, s: System, step: Step)
    requires ValidWorld(w) && Safe(w, s) && Enabled(w, s, step) && Turns(s)
    ensures Turns(Next(w, s, step))
  {
    RecordsSafe(w, s, step);
    SoundRecords(w, s);
    if WorkerStep(step) {
      WorkerTurns(w, s, step);
    } else if step == Opening(Pop) {
      PopTurns(s);
    } else if step.Handler? {
      if s.up {
        HandlerTurns(w, s, step.h);
      } else {
        DownTurns(s, Next(w, s, step));
      }
    } else {
      CrashTurns(s, step.x);
    }
  }

  // ---------------------------------------------- the end of a waiting attempt

  /** The attempt was submitted to an open queue, has not been popped, and has not begun. */
  predicate Waits(s: System, id: AttemptId) {
    id in s.submitted && id !in s.popped && QueuedIn(s.records, id.key) && LatestId(s.records, id.key) == id
  }

  /** It is still in the queue. */
  lemma WaitsInQueue(s: System, id: AttemptId)
    requires ListsTrue(s) && SoundAll(s.records) && Waits(s, id)
    ensures id.key in s.items
  {
    var i :| 0 <= i < |s.submitted| && s.submitted[i] == id;
    LatestIsStored(s.records, id.key);
    assert !EndedIn(s.records, id);
    assert i >= |s.popped|;
    assert Keys(s.submitted)[i] == s.items[i - |s.popped|];
  }

  /** What the worker popped last of the same import is another attempt, ended before this one was made. */
  lemma AnotherPopped(s: System, id: AttemptId)
    requires Turns(s) && SoundAll(s.records) && Waits(s, id) && !Resting(s.worker) && s.worker.k == id.key
    ensures var last := s.popped[|s.popped|-1]; last.key == id.key && last.n < id.n && EndedIn(s.records, last)
  {
    var last := s.popped[|s.popped|-1];
    assert StoredIn(s.records, last) && last in s.popped;
    LatestIsStored(s.records, id.key);
  }

  /** The attempt about to begin is the one submitted at its turn if and only if that one has not ended. */
  lemma PoppedInTurn(s: System, k: ImportKey)
    requires Turns(s) && SoundAll(s.records) && s.worker == Popped(k) && QueuedIn(s.records, k)
    ensures 1 <= |s.popped| <= |s.submitted| && s.submitted[|s.popped|-1].key == k
    ensures LatestId(s.records, k) == s.submitted[|s.popped|-1] <==> !EndedIn(s.records, s.submitted[|s.popped|-1])
  {
    var i := |s.popped| - 1;
    assert Keys(s.submitted)[i] == Keys(s.popped)[i];
    assert StoredIn(s.records, s.submitted[i]);
    LatestIsStored(s.records, k);
  }

  /** What other changes make of a queued latest attempt. */
  lemma QueuedChange(imp: Import, c: Change)
    requires Sound(imp) && Latest(imp).status == Queued && Apply(imp, c).Accepted?
    requires !c.Finish? && !c.Abandon? && !c.Break? && !c.Sweep? && !c.Retry?
    ensures var out := Apply(imp, c).imp;
      out.attempts != [] && Latest(out).status == if c.Begin? then Running else Queued
  {
    match c
    case Removed(n, rem) => RemovedKeepsLatest(imp, n, rem);
    case _ =>
  }

  /** The step is the abandon of a worker that holds this import, and it is written. */
  predicate AbandonsIt(s: System, step: Step, k: ImportKey) {
    step.Closing? && step.e.AbandonIt? && step.e.ok && s.worker == Abandoning(k)
  }

  /** The step begins the import the worker popped, and it is written. */
  predicate BeginsIt(s: System, step: Step, k: ImportKey) {
    step == Opening(BeginIt(true, true)) && s.worker == Popped(k)
  }

  /** Which touches of its record a waiting attempt can meet. */
  lemma WaitingTouches(w: World, s: System, step: Step, id: AttemptId)
    requires Turns(s) && s.up && Enabled(w, s, step) && Waits(s, id)
    requires var t := Touches(w, s, step); t.Touching? && t.k == id.key
    ensures var c := Touches(w, s, step).c;
      && !c.Finish? && !c.Break? && !c.Sweep? && !c.Retry?
      && (c.Abandon? ==> step.Closing? && step.e.AbandonIt? && s.worker == Abandoning(id.key))
      && (c.Begin? ==> step.Opening? && step.o.BeginIt? && s.worker == Popped(id.key))
  {
  }

  lemma AbandonWritten(w: World, s: System, step: Step, k: ImportKey)
    requires QueuedIn(s.records, k) && AbandonsIt(s, step, k) && Sound(s.records[k])
    ensures EndedIn(Next(w, s, step).records, LatestId(s.records, k))
  {
    LatestIsStored(s.records, k);
  }

  lemma BeginWritten(w: World, s: System, step: Step, k: ImportKey)
    requires QueuedIn(s.records, k) && BeginsIt(s, step, k) && Sound(s.records[k])
    ensures RunningIn(Next(w, s, step).records, LatestId(s.records, k))
  {
  }

  lemma UnwrittenStep(w: World, s: System, step: Step)
    requires (step.Closing? && step.e.AbandonIt? && !step.e.ok)
             || (step.Opening? && step.o.BeginIt? && (!step.o.made || !step.o.ok))
    ensures Next(w, s, step).records == s.records
  {
  }

  /** Any other change of its record leaves it waiting. */
  lemma WaitingStays(w: World, s: System, step: Step, id: AttemptId)
    requires Turns(s) && SoundAll(s.records) && s.up && Enabled(w, s, step) && Waits(s, id)
    requires Touches(w, s, step).Touching? && Touches(w, s, step).k == id.key && Next(w, s, step).records != s.records
    requires RecordsStep(s.records, Next(w, s, step).records, Touches(w, s, step))
    requires !AbandonsIt(s, step, id.key) && !BeginsIt(s, step, id.key)
    ensures QueuedIn(Next(w, s, step).records, id.key) && LatestId(Next(w, s, step).records, id.key) == id
  {
    var c := Touches(w, s, step).c;
    WaitingTouches(w, s, step, id);
    if c.Abandon? || c.Begin? {
      UnwrittenStep(w, s, step);
    }
    QueuedChange(s.records[id.key], c);
    LatestKept(s.records[id.key], c);
  }

  /** A record a step does not touch stays as it was. */
  lemma RecordLeft(before: map<ImportKey, Import>, after: map<ImportKey, Import>, t: Touch, k: ImportKey)
    requires RecordsStep(before, after, t) && k in before
    requires after == before || t.Nothing? || t.k != k
    ensures k in after && after[k] == before[k]
  {
  }

  lemma WaitingKept(w: World, s: System, step: Step, id: AttemptId)
    requires Turns(s) && SoundAll(s.records) && s.up && Enabled(w, s, step) && Waits(s, id)
    requires !AbandonsIt(s, step, id.key) && !BeginsIt(s, step, id.key)
    ensures QueuedIn(Next(w, s, step).records, id.key) && LatestId(Next(w, s, step).records, id.key) == id
  {
    var after := Next(w, s, step).records;
    var t := Touches(w, s, step);
    StepEffect(w, s, step);
    if t.Touching? && t.k == id.key && after != s.records {
      WaitingStays(w, s, step, id);
    } else {
      if t.Making? {
        MadeIsNew(w, s, step);
      }
      RecordLeft(s.records, after, t, id.key);
    }
  }

  lemma MadeIsNew(w: World, s: System, step: Step)
    requires Enabled(w, s, step) && Touches(w, s, step).Making?
    ensures Touches(w, s, step).k !in s.records
  {
  }

  lemma QueuedIsNeither(records: map<ImportKey, Import>, id: AttemptId)
    requires id.key in records && Sound(records[id.key]) && LatestId(records, id.key) == id
    ensures !(QueuedIn(records, id.key) && EndedIn(records, id))
    ensures !(QueuedIn(records, id.key) && RunningIn(records, id))
    ensures !(EndedIn(records, id) && RunningIn(records, id))
  {
    LatestIsStored(records, id.key);
  }

  /**
   An attempt that waits is ended by the abandon of a worker that holds the
   same import, and by no other step; it begins when the worker begins that
   import, and at no other step.
   */
  lemma WaitingStep(w: World, s: System, step: Step, id: AttemptId)
    requires Turns(s) && SoundAll(s.records) && s.up && Enabled(w, s, step) && Waits(s, id)
    requires SoundAll(Next(w, s, step).records)
    ensures var after := Next(w, s, step).records;
      && (EndedIn(after, id) <==> AbandonsIt(s, step, id.key))
      && (RunningIn(after, id) <==> BeginsIt(s, step, id.key))
  {
    if AbandonsIt(s, step, id.key) {
      AbandonWritten(w, s, step, id.key);
    } else if BeginsIt(s, step, id.key) {
      BeginWritten(w, s, step, id.key);
    } else {
      WaitingKept(w, s, step, id);
    }
    if id.key in Next(w, s, step).records {
      StepLatest(w, s, step, id.key);
      QueuedIsNeither(Next(w, s, step).records, id);
    }
  }

  lemma WaitingEnds(w: World, s: System, s': System, step: Step, id: AttemptId)
    requires ValidWorld(w) && WorkerTrue(w, s) && RecordsTrue(w, s) && Turns(s)
    requires Enabled(w, s, step) && s' == Next(w, s, step) && s.up && Waits(s, id)
    ensures EndedIn(s'.records, id) <==> AbandonsIt(s, step, id.key)
    ensures RunningIn(s'.records, id) <==> BeginsIt(s, step, id.key)
  {
    RecordsSafe(w, s, step);
    SoundRecords(w, s);
    SoundRecords(w, s');
    WaitingStep(w, s, step, id);
  }

  lemma WaitsBehind(w: World, s: System, id: AttemptId)
    requires RecordsTrue(w, s) && Turns(s) && Waits(s, id)
    ensures s.worker == Abandoning(id.key) || s.worker == Popped(id.key) ==>
      && s.popped != [] && s.popped[|s.popped|-1].key == id.key && s.popped[|s.popped|-1].n < id.n
      && EndedIn(s.records, s.popped[|s.popped|-1])
  {
    if s.worker == Abandoning(id.key) || s.worker == Popped(id.key) {
      SoundRecords(w, s);
      AnotherPopped(s, id);
    }
  }
}
