/**
 What holds while no store operation has failed since the last start: every
 unfinished attempt has somebody behind it, attempts begin in the order they
 were submitted, one runs at a time, and each popped attempt is ended before
 the next pop.
 */
module ProtocolQueue {
  import opened Wrappers
  import opened Records
  import opened RecordStore
  import opened Publishing
  import opened Attempts
  import opened ImportQueue
  import opened Protocol
  import opened ProtocolSafety

  /** The worker holds an attempt of k that it has yet to end. */
  predicate Owns(p: Phase, k: ImportKey) {
    && !p.Idle? && !p.Removing? && !p.Storing? && p.k == k
  }

  predicate HandlerHas(h: Holder, k: ImportKey) {
    !h.NoHandler? && h.k == k
  }

  predicate QueuedIn(records: map<ImportKey, Import>, k: ImportKey) {
    k in records && records[k].attempts != [] && Latest(records[k]).status == Queued
  }

  /** Attempt id is stored as ended. */
  predicate EndedIn(records: map<ImportKey, Import>, id: AttemptId) {
    && id.key in records && 1 <= id.n <= |records[id.key].attempts|
    && records[id.key].attempts[id.n-1].status == Ended
  }

  /** Every unfinished attempt waits in the queue, is held by the worker, or is with the handler that made it. */
  predicate Covered(s: System) {
    forall k :: k in s.records && Unfinished(s.records, k) ==>
      k in s.items || Owns(s.worker, k) || HandlerHas(s.handler, k)
  }

  predicate ItemsQueued(s: System) {
    && (forall i, j :: 0 <= i < j < |s.items| ==> s.items[i] != s.items[j])
    && (forall i :: 0 <= i < |s.items| ==>
          QueuedIn(s.records, s.items[i]) && !Owns(s.worker, s.items[i]) && !HandlerHas(s.handler, s.items[i]))
  }

  predicate HandlerQueued(s: System) {
    !s.handler.NoHandler? ==> QueuedIn(s.records, s.handler.k) && !Owns(s.worker, s.handler.k)
  }

  predicate WorkerRuns(s: System) {
    match s.worker
    case Idle => true
    case Removing(_, _, _) => true
    case Storing(_, _, _) => true
    case Popped(k) => QueuedIn(s.records, k)
    case Abandoning(k) => Unfinished(s.records, k)
    case _ => RunningIn(s.records, AttemptId(s.worker.k, s.worker.n))
  }

  function Ids(records: map<ImportKey, Import>, items: seq<ImportKey>): (ids: seq<AttemptId>)
    ensures |ids| == |items| && forall i :: 0 <= i < |items| ==> ids[i] == LatestId(records, items[i])
  {
    seq(|items|, i requires 0 <= i < |items| => LatestId(records, items[i]))
  }

  predicate InOrder(s: System) {
    s.submitted == s.popped + Ids(s.records, s.items)
  }

  /** Every popped attempt has ended, but for the one the worker holds. */
  predicate PoppedEnded(s: System) {
    forall i :: 0 <= i < |s.popped| ==>
      EndedIn(s.records, s.popped[i])
        || (Owns(s.worker, s.popped[i].key) && LatestId(s.records, s.popped[i].key) == s.popped[i])
  }

  predicate Served(s: System) {
    Covered(s) && ItemsQueued(s) && HandlerQueued(s) && WorkerRuns(s) && InOrder(s) && PoppedEnded(s)
  }

  /** While the service is down, everything already swept is finished. */
  predicate SweptClean(s: System) {
    forall k :: k in s.records && k !in s.todo ==> !Unfinished(s.records, k)
  }

  predicate Disciplined(s: System) {
    !s.faulted ==> if s.up then Served(s) else SweptClean(s) && s.submitted == [] && s.popped == []
  }

  predicate SoundAll(records: map<ImportKey, Import>) {
    forall k :: k in records ==> Sound(records[k])
  }

  lemma EndedStays(before: map<ImportKey, Import>, after: map<ImportKey, Import>, id: AttemptId)
    requires EndedIn(before, id) && RecordsEvolve(before, after)
    ensures EndedIn(after, id)
  {
    assert AttemptEvolves(before[id.key].attempts[id.n-1], after[id.key].attempts[id.n-1]);
  }

  /** The popped list stays accounted for when the worker's attempt is still held, or has just ended. */
  lemma PoppedStays(s: System, s': System)
    requires PoppedEnded(s) && s'.popped == s.popped && RecordsEvolve(s.records, s'.records)
    requires forall i :: 0 <= i < |s.popped| && Owns(s.worker, s.popped[i].key) ==>
      var id := LatestId(s.records, s.popped[i].key);
      EndedIn(s'.records, id) || (Owns(s'.worker, id.key) && LatestId(s'.records, id.key) == id)
    ensures PoppedEnded(s')
  {
    forall i | 0 <= i < |s.popped|
      ensures EndedIn(s'.records, s.popped[i])
              || (Owns(s'.worker, s.popped[i].key) && LatestId(s'.records, s.popped[i].key) == s.popped[i])
    {
      if EndedIn(s.records, s.popped[i]) {
        EndedStays(s.records, s'.records, s.popped[i]);
      }
    }
  }

  /** Items keep their place when their records do. */
  lemma OrderStays(s: System, s': System)
    requires InOrder(s) && s'.items == s.items && s'.submitted == s.submitted && s'.popped == s.popped
    requires forall i :: 0 <= i < |s.items| ==> LatestId(s'.records, s.items[i]) == LatestId(s.records, s.items[i])
    ensures InOrder(s')
  {
    assert Ids(s'.records, s'.items) == Ids(s.records, s.items);
  }

  /** Nothing about any import but k changed in who holds it. */
  predicate OthersAlike(s: System, s': System, k: ImportKey) {
    && s'.items == s.items && s'.submitted == s.submitted && s'.popped == s.popped
    && (forall j :: j in s.records && j != k ==> (Owns(s'.worker, j) <==> Owns(s.worker, j)))
    && (forall j :: j in s.records && j != k ==> (HandlerHas(s'.handler, j) <==> HandlerHas(s.handler, j)))
  }

  /** The attempt the worker held of k is still held, or has ended. */
  predicate HandedOn(s: System, s': System, k: ImportKey) {
    Owns(s.worker, k) ==>
      EndedIn(s'.records, LatestId(s.records, k))
        || (Owns(s'.worker, k) && LatestId(s'.records, k) == LatestId(s.records, k))
  }

  /** One import changed, and who holds it: what has to be shown of it alone. */
  lemma OneServed(s: System, s': System, k: ImportKey)
    requires Served(s) && k !in s.items
    requires s'.records.Keys == s.records.Keys + {k} && forall j :: j in s.records && j != k ==>
      s'.records[j] == s.records[j]
    requires RecordsEvolve(s.records, s'.records) && OthersAlike(s, s', k) && HandedOn(s, s', k)
    requires Unfinished(s'.records, k) ==> Owns(s'.worker, k) || HandlerHas(s'.handler, k)
    requires HandlerQueued(s') && WorkerRuns(s')
    ensures Served(s')
  {
    OrderStays(s, s');
    forall i | 0 <= i < |s.popped| && Owns(s.worker, s.popped[i].key)
      ensures var id := LatestId(s.records, s.popped[i].key);
        EndedIn(s'.records, id) || (Owns(s'.worker, id.key) && LatestId(s'.records, id.key) == id)
    {
      if s.popped[i].key != k {
        assert s.worker.k in s.records;
      }
    }
    PoppedStays(s, s');
  }

  // ------------------------------------------------------------- the handlers

  lemma StartServed(s: System, s': System, k: ImportKey, imp: Import)
    requires Served(s) && s.handler.NoHandler? && k !in s.records && StartsQueued(imp)
    requires s' == s.(records := s.records[k := imp], handler := Made(k)) && RecordsEvolve(s.records, s'.records)
    ensures Served(s')
  {
    assert !Owns(s.worker, k);
    OneServed(s, s', k);
  }

  lemma RetryServed(s: System, s': System, k: ImportKey, imp: Import)
    requires Served(s) && s.handler.NoHandler? && k in s.records && s.records[k].attempts != []
    requires Latest(s.records[k]).status == Ended && StartsQueued(imp)
    requires s' == s.(records := s.records[k := imp], handler := Made(k)) && RecordsEvolve(s.records, s'.records)
    ensures Served(s')
  {
    assert !Owns(s.worker, k) && k !in s.items;
    OneServed(s, s', k);
  }

  lemma SubmitServed(s: System, s': System)
    requires Served(s) && s.handler.Made? && s' == HandlerNext(s, Submit)
    ensures Served(s')
  {
    if s.open {
      assert Ids(s'.records, s'.items) == Ids(s.records, s.items) + [LatestId(s.records, s.handler.k)];
    }
  }

  lemma TurnedAwayServed(s: System, s': System, k: ImportKey, imp: Import)
    requires Served(s) && s.handler == TurnedAway(k) && imp.attempts != [] && Latest(imp).status == Ended
    requires s'.records == s.records[k := imp] && s'.handler == NoHandler && s'.worker == s.worker
    requires s'.items == s.items && s'.submitted == s.submitted && s'.popped == s.popped
    requires RecordsEvolve(s.records, s'.records)
    ensures Served(s')
  {
    OneServed(s, s', k);
  }

  lemma RetryResult(s: System, k: ImportKey, ok: bool)
    requires HandlerEnabled(s, RetryIt(k, ok)) && !HandlerNext(s, RetryIt(k, ok)).faulted
    ensures HandlerNext(s, RetryIt(k, ok)) ==
      s.(records := s.records[k := RetryImport(s.records[k]).imp], handler := Made(k))
    ensures StartsQueued(RetryImport(s.records[k]).imp)
  {
  }

  lemma TurnedAwayResult(s: System, ok: bool, cleaned: bool)
    requires s.handler.TurnedAway? && s.handler.k in s.records && s.records[s.handler.k].attempts != []
    requires !HandlerNext(s, EndTurnedAway(ok, cleaned)).faulted
    ensures var s' := HandlerNext(s, EndTurnedAway(ok, cleaned));
      var imp := EndUnfinished(s.records[s.handler.k], Interrupted, STOPPING, "interrupted");
      s' == s.(records := s.records[s.handler.k := imp], dirs := s'.dirs, handler := NoHandler)
      && imp.attempts != [] && Latest(imp).status == Ended
  {
  }

  lemma HandlerServed(s: System, step: HandlerStep)
    requires SoundAll(s.records) && HandlerEnabled(s, step) && s.up && Served(s) && !HandlerNext(s, step).faulted
    requires RecordsEvolve(s.records, HandlerNext(s, step).records)
    ensures Served(HandlerNext(s, step))
  {
    match step
    case Start(k, archive, manifest, sha, ok) =>
      StartServed(s, HandlerNext(s, step), k, NewImport(archive, manifest, sha));
    case RetryIt(k, ok) =>
      RetryResult(s, k, ok);
      RetryServed(s, HandlerNext(s, step), k, RetryImport(s.records[k]).imp);
    case Submit => SubmitServed(s, HandlerNext(s, step));
    case EndTurnedAway(ok, cleaned) =>
      var k := s.handler.k;
      TurnedAwayResult(s, ok, cleaned);
      TurnedAwayServed(s, HandlerNext(s, step), k, EndUnfinished(s.records[k], Interrupted, STOPPING, "interrupted"));
    case Close => PlainServed(s, HandlerNext(s, step));
    case Outside(_) => PlainServed(s, HandlerNext(s, step));
  }

  lemma PlainServed(s: System, s': System)
    requires Served(s) && s' == s.(open := s'.open, objects := s'.objects)
    ensures Served(s')
  {
  }

  // --------------------------------------------------------------- the worker

  lemma PopIds(records: map<ImportKey, Import>, items: seq<ImportKey>)
    requires items != []
    ensures Ids(records, items) == [LatestId(records, items[0])] + Ids(records, items[1..])
  {
  }

  lemma PopOrder(s: System, s': System)
    requires InOrder(s) && s.items != []
    requires s'.records == s.records && s'.items == s.items[1..] && s'.submitted == s.submitted
    requires s'.popped == s.popped + [LatestId(s.records, s.items[0])]
    ensures InOrder(s')
  {
    PopIds(s.records, s.items);
    Regroup(s.popped, LatestId(s.records, s.items[0]), Ids(s.records, s'.items));
  }

  lemma Regroup<T>(a: seq<T>, x: T, b: seq<T>)
    ensures a + ([x] + b) == (a + [x]) + b
  {
  }

  lemma PopItems(s: System)
    requires Served(s) && OpeningEnabled(s, Pop)
    ensures var s' := OpeningNext(s, Pop); ItemsQueued(s') && Covered(s') && HandlerQueued(s')
  {
    var s' := OpeningNext(s, Pop);
    var k := s.items[0];
    assert forall i :: 0 <= i < |s'.items| ==> s'.items[i] == s.items[i+1];
    assert forall j :: j in s.items ==> j == k || j in s'.items;
  }

  lemma PopServed(s: System)
    requires Served(s) && OpeningEnabled(s, Pop)
    ensures Served(OpeningNext(s, Pop))
  {
    var s' := OpeningNext(s, Pop);
    PopOrder(s, s');
    PopItems(s);
    assert WorkerRuns(s') by {
      assert QueuedIn(s.records, s.items[0]);
    }
    forall i | 0 <= i < |s'.popped|
      ensures EndedIn(s'.records, s'.popped[i])
              || (Owns(s'.worker, s'.popped[i].key) && LatestId(s'.records, s'.popped[i].key) == s'.popped[i])
    {
      if i < |s.popped| {
        assert EndedIn(s.records, s.popped[i]);
      }
    }
  }

  /** The worker moves on with the attempt of k it holds, which stays the latest. */
  lemma HeldServed(s: System, s': System, k: ImportKey)
    requires Served(s) && Owns(s.worker, k) && Owns(s'.worker, k) && k in s.records
    requires s'.records.Keys == s.records.Keys && forall j :: j in s.records && j != k ==> s'.records[j] == s.records[j]
    requires s'.items == s.items && s'.submitted == s.submitted && s'.popped == s.popped && s'.handler == s.handler
    requires RecordsEvolve(s.records, s'.records) && LatestId(s'.records, k) == LatestId(s.records, k) && WorkerRuns(s')
    ensures Served(s')
  {
    OneServed(s, s', k);
  }

  /** The worker lets go of the attempt of k it held, which has ended. */
  lemma ReleasedServed(s: System, s': System, k: ImportKey)
    requires Served(s) && Owns(s.worker, k) && k in s.records
    requires s'.worker.Idle? || s'.worker.Removing?
    requires s'.records.Keys == s.records.Keys && forall j :: j in s.records && j != k ==> s'.records[j] == s.records[j]
    requires s'.items == s.items && s'.submitted == s.submitted && s'.popped == s.popped && s'.handler == s.handler
    requires RecordsEvolve(s.records, s'.records) && EndedIn(s'.records, LatestId(s.records, k))
      && !Unfinished(s'.records, k)
    ensures Served(s')
  {
    OneServed(s, s', k);
  }

  /** Every record's latest attempt keeps its number and its status. */
  predicate SameStatuses(before: map<ImportKey, Import>, after: map<ImportKey, Import>) {
    && after.Keys == before.Keys
    && forall k :: k in before ==>
         && before[k].attempts != [] && after[k].attempts != []
         && Latest(after[k]).status == Latest(before[k]).status && Latest(after[k]).n == Latest(before[k]).n
  }

  predicate Resting(p: Phase) {
    p.Idle? || p.Removing? || p.Storing?
  }

  /** After the end of its attempt the worker touches no record's latest attempt. */
  lemma RestingServed(s: System, s': System)
    requires Served(s) && SameStatuses(s.records, s'.records) && RecordsEvolve(s.records, s'.records)
    requires Resting(s.worker) && Resting(s'.worker)
    requires s'.items == s.items && s'.submitted == s.submitted && s'.popped == s.popped && s'.handler == s.handler
    ensures Served(s')
  {
    OrderStays(s, s');
    PoppedStays(s, s');
  }

  lemma RemovalServed(s: System, step: RemovalStep)
    requires SoundAll(s.records) && Served(s) && RemovalEnabled(s, step)
    requires RecordsEvolve(s.records, RemovalNext(s, step).records)
    ensures Served(RemovalNext(s, step))
  {
    RemovalStatuses(s, step);
    RestingServed(s, RemovalNext(s, step));
  }

  lemma RemovedKeepsLatest(imp: Import, n: nat, rem: Removal)
    requires Sound(imp) && RemovedImport(imp, n, rem).Accepted?
    ensures var out := RemovedImport(imp, n, rem).imp;
      out.attempts != [] && Latest(out).status == Latest(imp).status && Latest(out).n == Latest(imp).n
  {
  }

  lemma RemovalStatuses(s: System, step: RemovalStep)
    requires SoundAll(s.records) && RemovalEnabled(s, step)
    ensures SameStatuses(s.records, RemovalNext(s, step).records) && Resting(RemovalNext(s, step).worker)
  {
    var s' := RemovalNext(s, step);
    RemovalEffect(s, step);
    var t := RemovalTouch(s, step);
    if t.Touching? && Changed(s.records, t.k, t.c).Accepted? {
      RemovedKeepsLatest(s.records[t.k], t.c.n, t.c.rem);
    }
    forall k | k in s.records ensures s.records[k].attempts != [] {
      assert Sound(s.records[k]);
    }
    RemovalPhases(s, step);
  }

  lemma RemovalPhases(s: System, step: RemovalStep)
    requires RemovalEnabled(s, step)
    ensures var p := RemovalNext(s, step).worker; p.Idle? || p.Removing? || p.Storing?
  {
    match step
    case HeadForRemoval(_, _) =>
    case _ =>
  }

  // ------------------------------------------- the steps of a held attempt

  lemma BeginServed(s: System, made: bool, ok: bool)
    requires Served(s) && s.worker.Popped? && !OpeningNext(s, BeginIt(made, ok)).faulted
    requires RecordsEvolve(s.records, OpeningNext(s, BeginIt(made, ok)).records)
    ensures Served(OpeningNext(s, BeginIt(made, ok)))
  {
    HeldServed(s, OpeningNext(s, BeginIt(made, ok)), s.worker.k);
  }

  lemma GetServed(s: System, ok: bool)
    requires Served(s) && s.worker.Begun?
    requires RecordsEvolve(s.records, s.records)
    ensures Served(OpeningNext(s, GetIt(ok)))
  {
    HeldServed(s, OpeningNext(s, GetIt(ok)), s.worker.k);
  }

  /** A change stored while an attempt runs keeps it running. */
  lemma SavedKeepsRunning(s: System, k: ImportKey, n: nat, c: Change, ok: bool)
    requires RunningIn(s.records, AttemptId(k, n)) && (c.Listed? || c.Checked? || c.PackageEnded?) && c.n == n
    ensures var s' := Saved(s, k, c, ok);
      && RunningIn(s'.records, AttemptId(k, n)) && s'.records.Keys == s.records.Keys
      && forall j :: j in s.records && j != k ==> s'.records[j] == s.records[j]
  {
  }

  /** The worker moves on without storing anything. */
  lemma MovedServed(s: System, s': System, k: ImportKey, n: nat)
    requires Served(s) && Owns(s.worker, k) && RunningIn(s.records, AttemptId(k, n))
    requires s' == s.(worker := s'.worker, nexus := s'.nexus) && Owns(s'.worker, k)
    requires InRun(s'.worker) || s'.worker.Ending? || s'.worker.Breaking?
    requires s'.worker.n == n
    ensures Served(s')
  {
    forall j | j in s.records ensures Evolves(s.records[j], s'.records[j]) {
      EvolvesRefl(s.records[j]);
    }
    HeldServed(s, s', k);
  }

  /** The worker stores a change of the attempt it runs and moves on. */
  lemma StoredServed(s: System, s': System, k: ImportKey, n: nat, c: Change, ok: bool)
    requires Served(s) && Owns(s.worker, k) && RunningIn(s.records, AttemptId(k, n))
    requires (c.Listed? || c.Checked? || c.PackageEnded?) && c.n == n
    requires s' == Saved(s, k, c, ok).(worker := s'.worker) && RecordsEvolve(s.records, s'.records)
    requires InRun(s'.worker) && s'.worker.k == k && s'.worker.n == n
    ensures Served(s')
  {
    SavedKeepsRunning(s, k, n, c, ok);
    HeldServed(s, s', k);
  }

  lemma ListServed(w: World, s: System, ok: bool)
    requires Served(s) && CheckingEnabled(w, s, ListIt(ok))
    requires RecordsEvolve(s.records, CheckingNext(w, s, ListIt(ok)).records)
    ensures Served(CheckingNext(w, s, ListIt(ok)))
  {
    StoredServed(s, CheckingNext(w, s, ListIt(ok)), s.worker.k, s.worker.n, CheckingTouch(w, s, ListIt(ok)).c, ok);
  }

  lemma CheckServed(w: World, s: System, ok: bool)
    requires Served(s) && CheckingEnabled(w, s, CheckIt(ok))
    requires RecordsEvolve(s.records, CheckingNext(w, s, CheckIt(ok)).records)
    ensures Served(CheckingNext(w, s, CheckIt(ok)))
  {
    StoredServed(s, CheckingNext(w, s, CheckIt(ok)), s.worker.k, s.worker.n, Checked(s.worker.n), ok);
  }

  lemma CheckingMoved(w: World, s: System, step: CheckingStep)
    requires Served(s) && CheckingEnabled(w, s, step) && !step.ListIt? && !step.CheckIt?
    ensures Served(CheckingNext(w, s, step))
  {
    MovedServed(s, CheckingNext(w, s, step), s.worker.k, s.worker.n);
  }

  lemma CheckingServed(w: World, s: System, step: CheckingStep)
    requires Served(s) && CheckingEnabled(w, s, step)
    requires RecordsEvolve(s.records, CheckingNext(w, s, step).records)
    ensures Served(CheckingNext(w, s, step))
  {
    match step
    case ListIt(ok) => ListServed(w, s, ok);
    case CheckIt(ok) => CheckServed(w, s, ok);
    case _ => CheckingMoved(w, s, step);
  }

  lemma EndPackageServed(w: World, s: System, step: PackageStep)
    requires Served(s) && step.EndPackage? && s.worker.Handling?
    requires RecordsEvolve(s.records, PackageNext(w, s, step).records)
    ensures Served(PackageNext(w, s, step))
  {
    StoredServed(s, PackageNext(w, s, step), s.worker.k, s.worker.n, PackageTouch(s, step).c, step.ok);
  }

  lemma PackageMoved(w: World, s: System, step: PackageStep)
    requires Served(s) && PackageEnabled(w, s, step) && !step.EndPackage?
    ensures Served(PackageNext(w, s, step))
  {
    MovedServed(s, PackageNext(w, s, step), s.worker.k, s.worker.n);
  }

  lemma PackageServed(w: World, s: System, step: PackageStep)
    requires Served(s) && PackageEnabled(w, s, step)
    requires RecordsEvolve(s.records, PackageNext(w, s, step).records)
    ensures Served(PackageNext(w, s, step))
  {
    match step
    case EndPackage(_, _, _) => EndPackageServed(w, s, step);
    case _ => PackageMoved(w, s, step);
  }

  // ------------------------------------------------- the end of an attempt

  /** endUnfinished on the attempt the worker holds, with nothing failing. */
  lemma EndedServed(s: System, s': System, k: ImportKey, imp: Import)
    requires Served(s) && Owns(s.worker, k) && k in s.records && Sound(s.records[k]) && Sound(imp)
    requires Latest(imp).status == Ended && |imp.attempts| == |s.records[k].attempts|
    requires s'.records == s.records[k := imp] && (s'.worker.Idle? || s'.worker.Removing?)
    requires s'.items == s.items && s'.submitted == s.submitted && s'.popped == s.popped && s'.handler == s.handler
    requires RecordsEvolve(s.records, s'.records)
    ensures Served(s')
  {
    ReleasedServed(s, s', k);
  }

  lemma EndedUnfinishedResult(s: System, k: ImportKey, c: Change, ok: bool, cleaned: bool)
    requires (c.Abandon? || c.Break?) && Unfinished(s.records, k) && Sound(s.records[k])
    requires !EndedUnfinished(s, k, c, ok, cleaned).faulted
    ensures ok && cleaned
    ensures var s' := EndedUnfinished(s, k, c, ok, cleaned); var imp := Apply(s.records[k], c).imp;
      && s'.records == s.records[k := imp] && Sound(imp) && Latest(imp).status == Ended
      && |imp.attempts| == |s.records[k].attempts|
  {
    ChangeSound(s.records[k], c);
  }

  lemma FinishStored(s: System, ok: bool, cleaned: bool)
    requires s.worker.Ending? && RunningIn(s.records, AttemptId(s.worker.k, s.worker.n)) && Sound(s.records[s.worker.k])
    requires Allowed(Finish(s.worker.n, s.worker.rep)) && !EndingNext(s, FinishIt(ok, cleaned)).faulted
    ensures var s' := EndingNext(s, FinishIt(ok, cleaned)); var k := s.worker.k;
      var imp := FinishImport(s.records[k], s.worker.n, s.worker.rep, None).imp;
      && s'.records == s.records[k := imp] && Sound(imp) && Latest(imp).status == Ended
      && |imp.attempts| == |s.records[k].attempts| && (s'.worker.Idle? || s'.worker.Removing?)
  {
    ChangeSound(s.records[s.worker.k], Finish(s.worker.n, s.worker.rep));
  }

  lemma BreakServed(s: System, ok: bool, cleaned: bool)
    requires SoundAll(s.records) && Served(s) && s.worker.Breaking? && !EndingNext(s, BreakIt(ok, cleaned)).faulted
    requires RecordsEvolve(s.records, EndingNext(s, BreakIt(ok, cleaned)).records)
    ensures Served(EndingNext(s, BreakIt(ok, cleaned)))
  {
    var k := s.worker.k;
    EndedUnfinishedResult(s, k, Break(PANICKED), ok, cleaned);
    EndedServed(s, EndingNext(s, BreakIt(ok, cleaned)), k, Apply(s.records[k], Break(PANICKED)).imp);
  }

  lemma AbandonServed(s: System, ok: bool, cleaned: bool)
    requires SoundAll(s.records) && Served(s) && s.worker.Abandoning? && !EndingNext(s, AbandonIt(ok, cleaned)).faulted
    requires RecordsEvolve(s.records, EndingNext(s, AbandonIt(ok, cleaned)).records)
    ensures Served(EndingNext(s, AbandonIt(ok, cleaned)))
  {
    var k := s.worker.k;
    EndedUnfinishedResult(s, k, Abandon(UNRUN), ok, cleaned);
    EndedServed(s, EndingNext(s, AbandonIt(ok, cleaned)), k, Apply(s.records[k], Abandon(UNRUN)).imp);
  }

  lemma FinishServed(s: System, ok: bool, cleaned: bool)
    requires SoundAll(s.records) && Served(s) && s.worker.Ending? && Allowed(Finish(s.worker.n, s.worker.rep))
    requires !EndingNext(s, FinishIt(ok, cleaned)).faulted
    requires RecordsEvolve(s.records, EndingNext(s, FinishIt(ok, cleaned)).records)
    ensures Served(EndingNext(s, FinishIt(ok, cleaned)))
  {
    var k := s.worker.k;
    FinishStored(s, ok, cleaned);
    EndedServed(s, EndingNext(s, FinishIt(ok, cleaned)), k,
                FinishImport(s.records[k], s.worker.n, s.worker.rep, None).imp);
  }

  lemma EndingServed(w: World, s: System, step: EndingStep)
    requires SoundAll(s.records) && Served(s) && EndingEnabled(s, step) && WorkerTrue(w, s)
      && !EndingNext(s, step).faulted
    requires RecordsEvolve(s.records, EndingNext(s, step).records)
    ensures Served(EndingNext(s, step))
  {
    match step
    case Panic => MovedServed(s, EndingNext(s, step), s.worker.k, s.worker.n);
    case BreakIt(ok, cleaned) => BreakServed(s, ok, cleaned);
    case AbandonIt(ok, cleaned) => AbandonServed(s, ok, cleaned);
    case FinishIt(ok, cleaned) => FinishServed(s, ok, cleaned);
  }

  // ------------------------------------------------------------- every step

  lemma OpeningServed(s: System, step: OpeningStep)
    requires Served(s) && OpeningEnabled(s, step) && !OpeningNext(s, step).faulted
    requires RecordsEvolve(s.records, OpeningNext(s, step).records) && RecordsEvolve(s.records, s.records)
    ensures Served(OpeningNext(s, step))
  {
    match step
    case Pop => PopServed(s);
    case BeginIt(made, ok) => BeginServed(s, made, ok);
    case GetIt(ok) => GetServed(s, ok);
  }

  lemma SweepKeepsClean(s: System, k: ImportKey, ok: bool, cleaned: bool)
    requires SweptClean(s) && ok
    ensures SweptClean(CrashNext(s, SweepOne(k, ok, cleaned)))
  {
    var s' := CrashNext(s, SweepOne(k, ok, cleaned));
    if k in s.records {
      SweepSettles(s.records[k]);
    }
    forall j | j in s'.records && j !in s'.todo ensures !Unfinished(s'.records, j) {
      if j != k {
        assert !Unfinished(s.records, j);
      }
    }
  }

  lemma CrashDisciplined(w: World, s: System, step: CrashStep)
    requires CrashEnabled(s, step) && Disciplined(s) && ItemsTrue(s)
    ensures Disciplined(CrashNext(s, step))
  {
    match step
    case Crash =>
    case SweepOne(k, ok, cleaned) =>
      if !CrashNext(s, step).faulted {
        SweepKeepsClean(s, k, ok, cleaned);
      }
    case Restart =>
  }

  lemma FaultsStay(w: World, s: System, step: Step)
    requires !step.Service? && s.faulted
    ensures Next(w, s, step).faulted
  {
  }

  lemma UpStays(w: World, s: System, step: Step)
    requires !step.Service?
    ensures Next(w, s, step).up == s.up
  {
  }

  lemma DownSteps(s: System, step: HandlerStep)
    requires !s.up && HandlerEnabled(s, step) && Disciplined(s)
    ensures Disciplined(HandlerNext(s, step))
  {
  }

  lemma DisciplinedStep(w: World, s: System, step: Step)
    requires ValidWorld(w) && Safe(w, s) && Enabled(w, s, step) && Disciplined(s)
    ensures Disciplined(Next(w, s, step))
  {
    RecordsSafe(w, s, step);
    forall j | j in s.records ensures Evolves(s.records[j], s.records[j]) && Sound(s.records[j]) {
      EvolvesRefl(s.records[j]);
      assert RecordTrue(w, s.nexus, s.records[j]);
    }
    if step.Service? {
      CrashDisciplined(w, s, step.x);
    } else if !s.up {
      DownSteps(s, step.h);
    } else if !Next(w, s, step).faulted {
      UpStays(w, s, step);
      if s.faulted {
        FaultsStay(w, s, step);
      }
      ServedStep(w, s, step);
    } else {
      UpStays(w, s, step);
    }
  }

  lemma ServedStep(w: World, s: System, step: Step)
    requires WorkerTrue(w, s) && SoundAll(s.records) && RecordsEvolve(s.records, s.records)
    requires s.up && Served(s) && Enabled(w, s, step) && !step.Service? && !Next(w, s, step).faulted
    requires RecordsEvolve(s.records, Next(w, s, step).records)
    ensures Served(Next(w, s, step))
  {
    match step
    case Handler(h) => HandlerServed(s, h);
    case Opening(o) => OpeningServed(s, o);
    case Checking(c) => CheckingServed(w, s, c);
    case Packages(p) => PackageServed(w, s, p);
    case Closing(e) => EndingServed(w, s, e);
    case Remover(r) => RemovalServed(s, r);
  }
}
