/**
 The crash-safe import protocol as a transition system: HTTP handlers that make
 and retry attempts, the single worker that runs them, and crashes between any
 two steps, each repaired by a startup sweep.

 Durable state: the records, the working directories, the objects in MinIO and
 the versions in Nexus.  Volatile state: the queue's items, the worker's phase
 and the handler that holds startMu.  History variables say which archives a
 remover has deleted, the order of submissions and pops, and whether a store
 operation has failed since the last start.

 Sources: internal/store/imports (all files), internal/importer/attempt.go and
 publish.go, internal/importer/service/imports.go and removal.go.
 */
module Protocol {
  import opened Wrappers
  import opened Records
  import opened RecordStore
  import opened Publishing
  import opened Attempts
  import opened ImportQueue

  /**
   What the objects hold: the package list of each manifest, by its ETag, and
   the verified packages of each archive checked against each manifest.  A
   missing entry is an archive or a manifest that is refused.
   */
  datatype World = World(t: Tarballs, manifests: map<string, seq<Entry>>, archives: map<(string, string), seq<Package>>)

  predicate ValidWorld(w: World) {
    && (forall m :: m in w.manifests ==> w.manifests[m] != [])
    && (forall am :: am in w.archives ==>
          && am.1 in w.manifests && |w.archives[am]| == |w.manifests[am.1]|
          && forall i :: 0 <= i < |w.archives[am]| ==> w.archives[am][i].entry == w.manifests[am.1][i])
  }

  predicate Listable(w: World, imp: Import) {
    imp.manifest.etag in w.manifests
  }

  function EntriesOf(w: World, imp: Import): seq<Entry>
    requires Listable(w, imp)
  {
    w.manifests[imp.manifest.etag]
  }

  predicate Verifiable(w: World, imp: Import) {
    (imp.archive.etag, imp.manifest.etag) in w.archives
  }

  function PackagesOf(w: World, imp: Import): seq<Package>
    requires Verifiable(w, imp)
  {
    w.archives[(imp.archive.etag, imp.manifest.etag)]
  }

  /** Where the package being published stands: not started, being looked up, absent from Nexus, or uploaded. */
  datatype Sub = Waiting | Looking | Lacking | Sent

  datatype Mode = FailAll(checked: bool) | Publish(sub: Sub)

  datatype Stage = HeadingArchive | HeadingManifest | DeletingArchive | DeletingManifest

  datatype Phase =
    | Idle
    | Popped(k: ImportKey)
    | Begun(k: ImportKey, n: nat)
    | Heading(k: ImportKey, n: nat)
    | Confirming(k: ImportKey, n: nat)
    | Reading(k: ImportKey, n: nat)
    | Verifying(k: ImportKey, n: nat)
    | SettingUp(k: ImportKey, n: nat)
    | Handling(k: ImportKey, n: nat, results: seq<Result>, mode: Mode)
    | Ending(k: ImportKey, n: nat, rep: Report)
    | Breaking(k: ImportKey, n: nat)
    | Abandoning(k: ImportKey)
    | Removing(k: ImportKey, n: nat, stage: Stage)
    | Storing(k: ImportKey, n: nat, rem: Removal)

  /** The handler that holds startMu: it made an attempt, or found the queue closed. */
  datatype Holder = NoHandler | Made(k: ImportKey) | TurnedAway(k: ImportKey)

  datatype System = System(
    records: map<ImportKey, Import>,
    dirs: set<AttemptId>,
    objects: Objects,
    nexus: Held,
    up: bool,
    open: bool,
    items: seq<ImportKey>,
    worker: Phase,
    handler: Holder,
    todo: set<ImportKey>,
    deleted: set<ImportKey>,
    submitted: seq<AttemptId>,
    popped: seq<AttemptId>,
    faulted: bool)

  /**
   The handlers, and what happens around the service.  ok: the record write succeeds; cleaned: a
   directory's removal does.
   */
  datatype HandlerStep =
    | Start(k: ImportKey, archive: Object, manifest: Object, sha: string, ok: bool)
    | RetryIt(k: ImportKey, ok: bool)
    | Submit
    | EndTurnedAway(ok: bool, cleaned: bool)
    | Close
    | Outside(objects: Objects)

  /** The worker, from a pop to the start of the run. */
  datatype OpeningStep =
    | Pop
    | BeginIt(made: bool, ok: bool)
    | GetIt(ok: bool)

  /** The run, until the packages' turn comes. */
  datatype CheckingStep =
    | HeadArchive
    | HeadManifest
    | StopEarly(outcome: Outcome, reason: string)
    | ListIt(ok: bool)
    | CheckIt(ok: bool)
    | FailEvery
    | SetUp

  /** The run, package by package. */
  datatype PackageStep =
    | StartPackage
    | FindLacking
    | Upload
    | EndPackage(r: Result, shown: string, ok: bool)
    | Return

  /** The end of an attempt. */
  datatype EndingStep =
    | Panic
    | BreakIt(ok: bool, cleaned: bool)
    | AbandonIt(ok: bool, cleaned: bool)
    | FinishIt(ok: bool, cleaned: bool)

  /** The remover of a complete attempt. */
  datatype RemovalStep =
    | HeadForRemoval(answered: bool, reason: string)
    | DeleteArchive(gone: bool, ok: bool, reason: string)
    | DeleteManifest(gone: bool, reason: string)
    | StoreIt(ok: bool)

  /** A crash and the start after it. */
  datatype CrashStep =
    | Crash
    | SweepOne(k: ImportKey, ok: bool, cleaned: bool)
    | Restart

  datatype Step =
    | Handler(h: HandlerStep)
    | Opening(o: OpeningStep)
    | Checking(c: CheckingStep)
    | Packages(p: PackageStep)
    | Closing(e: EndingStep)
    | Remover(r: RemovalStep)
    | Service(x: CrashStep)

  // --------------------------------------------------------------- helpers

  /** A record change that may fail to be written. */
  function Saved(s: System, k: ImportKey, c: Change, ok: bool): (s': System)
    ensures s' == s.(records := s'.records, faulted := s'.faulted)
    ensures s.faulted ==> s'.faulted
  {
    var up := Changed(s.records, k, c);
    if up.Rejected? then s
    else if ok then s.(records := s.records[k := up.imp])
    else s.(faulted := true)
  }

  /** The latest attempt of k has not ended. */
  predicate Unfinished(records: map<ImportKey, Import>, k: ImportKey) {
    k in records && records[k].attempts != [] && Latest(records[k]).status != Ended
  }

  /** The latest attempt of k, by name. */
  function LatestId(records: map<ImportKey, Import>, k: ImportKey): AttemptId {
    if k in records && records[k].attempts != [] then AttemptId(k, Latest(records[k]).n) else AttemptId(k, 0)
  }

  /** endUnfinished: the record, then the working directory of the attempt it ended. */
  function EndedUnfinished(s: System, k: ImportKey, c: Change, ok: bool, cleaned: bool): (s': System)
    ensures s' == s.(records := s'.records, dirs := s'.dirs, faulted := s'.faulted)
    ensures s.faulted ==> s'.faulted
  {
    var up := Changed(s.records, k, c);
    if up.Rejected? then s
    else if !ok then s.(faulted := true)
    else
      s.(records := s.records[k := up.imp],
         dirs := if Unfinished(s.records, k) && cleaned then s.dirs - {LatestId(s.records, k)} else s.dirs,
         faulted := s.faulted || (Unfinished(s.records, k) && !cleaned))
  }

  /** What process makes of the report of a run that came back after Close. */
  function AtReturn(rep: Report, open: bool): Report {
    if !open && rep.outcome == Incomplete
    then rep.(outcome := Interrupted, reason := if rep.reason == "" then "interrupted" else rep.reason)
    else rep
  }

  /** Import.Outcome: a list of the user's imports shows this. */
  predicate IsSettled(imp: Import) {
    imp.attempts != [] && Latest(imp).status == Ended
      && (Latest(imp).outcome == Complete || Latest(imp).outcome == Refused)
  }

  /** StartImport's scan: every import the user has of these two objects is complete or refused. */
  predicate MayStart(s: System, k: ImportKey, archive: Object, manifest: Object) {
    forall j :: j in s.records && j.user == k.user
                && s.records[j].archive == archive && s.records[j].manifest.etag == manifest.etag
                ==> IsSettled(s.records[j])
  }

  // ------------------------------------------------------------ transitions

  /** The package the worker is on. */
  predicate OnPackage(w: World, s: System) {
    && s.worker.Handling? && s.worker.mode.Publish? && s.worker.k in s.records
    && Verifiable(w, s.records[s.worker.k]) && |s.worker.results| < |PackagesOf(w, s.records[s.worker.k])|
  }

  function PackageNow(w: World, s: System): Package
    requires OnPackage(w, s)
  {
    PackagesOf(w, s.records[s.worker.k])[|s.worker.results|]
  }

  function EntryNow(w: World, s: System): Entry
    requires s.worker.Handling? && s.worker.k in s.records && Listable(w, s.records[s.worker.k])
    requires |s.worker.results| < |EntriesOf(w, s.records[s.worker.k])|
  {
    EntriesOf(w, s.records[s.worker.k])[|s.worker.results|]
  }

  /** How the package the worker is on may end. */
  predicate MayEnd(w: World, s: System, r: Result) {
    && s.worker.Handling? && s.worker.k in s.records && Listable(w, s.records[s.worker.k])
    && |s.worker.results| < |EntriesOf(w, s.records[s.worker.k])|
    && match s.worker.mode
       case FailAll(_) =>
         Names(r, EntryNow(w, s)) && r.state == Failed && r.kind != NoKind && r.kind != KindConflict
       case Publish(sub) =>
         && OnPackage(w, s)
         && (r.kind == KindInterrupted ==> !s.open)
         && var p := PackageNow(w, s);
            match sub
            case Waiting => !s.open && r == InterruptedResult(p.entry)
            case Looking => Settled(w.t, s.nexus, s.nexus, p, true, r)
            case Lacking => Settled(w.t, s.nexus, s.nexus, p, true, r)
            case Sent => Settled(w.t, s.nexus - {p.Key()}, s.nexus, p, true, r)
  }

  /** The run has listed no package yet. */
  predicate BeforeList(p: Phase) {
    p.Heading? || p.Confirming? || p.Reading?
  }

  predicate InRun(p: Phase) {
    BeforeList(p) || p.Verifying? || p.SettingUp? || p.Handling?
  }

  predicate HandlerEnabled(s: System, step: HandlerStep) {
    (s.up || step.Outside?) &&
    match step
    case Start(k, archive, manifest, _, _) => s.handler.NoHandler? && k !in s.records
      && MayStart(s, k, archive, manifest)
    case RetryIt(k, _) =>
      && s.handler.NoHandler? && k in s.records && s.records[k].attempts != []
      && Latest(s.records[k]).status == Ended && ArchivePlace(k.user, s.records[k]) in s.objects
    case Submit => s.handler.Made?
    case EndTurnedAway(_, _) => s.handler.TurnedAway?
    case Close => true
    case Outside(_) => true
  }

  predicate OpeningEnabled(s: System, step: OpeningStep) {
    match step
    case Pop => s.open && s.worker.Idle? && s.items != []
    case BeginIt(_, _) => s.worker.Popped?
    case GetIt(_) => s.worker.Begun?
  }

  predicate CheckingEnabled(w: World, s: System, step: CheckingStep) {
    match step
    case HeadArchive =>
      && s.worker.Heading? && s.worker.k in s.records
      && Carries(s.objects, ArchivePlace(s.worker.k.user, s.records[s.worker.k]), s.records[s.worker.k].archive)
    case HeadManifest =>
      && s.worker.Confirming? && s.worker.k in s.records
      && Carries(s.objects, ManifestPlace(s.worker.k.user, s.records[s.worker.k]), s.records[s.worker.k].manifest)
    case StopEarly(outcome, _) =>
      || (outcome == Refused && (BeforeList(s.worker) || s.worker.Verifying?))
      || (outcome == Incomplete && BeforeList(s.worker))
    case ListIt(_) =>
      && s.worker.Reading? && s.worker.k in s.records && Listable(w, s.records[s.worker.k])
      && Carries(s.objects, ManifestPlace(s.worker.k.user, s.records[s.worker.k]), s.records[s.worker.k].manifest)
    case CheckIt(_) =>
      && s.worker.Verifying? && s.worker.k in s.records && Verifiable(w, s.records[s.worker.k])
      && Carries(s.objects, ArchivePlace(s.worker.k.user, s.records[s.worker.k]), s.records[s.worker.k].archive)
    case FailEvery => s.worker.Verifying? || s.worker.SettingUp?
    case SetUp => s.worker.SettingUp?
  }

  predicate PackageEnabled(w: World, s: System, step: PackageStep) {
    match step
    case StartPackage => s.open && OnPackage(w, s) && s.worker.mode.sub == Waiting
    case FindLacking =>
      && OnPackage(w, s) && s.worker.mode.sub == Looking
      && PackageNow(w, s).Key() !in s.nexus && w.t.inspect(PackageNow(w, s).bytes) == Some(PackageNow(w, s).Key())
    case Upload => OnPackage(w, s) && s.worker.mode.sub == Lacking
    case EndPackage(r, _, _) => MayEnd(w, s, r)
    case Return =>
      && s.worker.Handling? && s.worker.k in s.records && Listable(w, s.records[s.worker.k])
      && |s.worker.results| == |EntriesOf(w, s.records[s.worker.k])|
  }

  predicate EndingEnabled(s: System, step: EndingStep) {
    match step
    case Panic => InRun(s.worker)
    case BreakIt(_, _) => s.worker.Breaking?
    case AbandonIt(_, _) => s.worker.Abandoning?
    case FinishIt(_, _) => s.worker.Ending?
  }

  predicate RemovalEnabled(s: System, step: RemovalStep) {
    match step
    case HeadForRemoval(_, _) => s.worker.Removing?
      && (s.worker.stage == HeadingArchive || s.worker.stage == HeadingManifest)
    case DeleteArchive(gone, ok, _) => s.worker.Removing? && s.worker.stage == DeletingArchive && (ok ==> gone)
    case DeleteManifest(_, _) => s.worker.Removing? && s.worker.stage == DeletingManifest
    case StoreIt(_) => s.worker.Storing?
  }

  predicate CrashEnabled(s: System, step: CrashStep) {
    match step
    case Crash => true
    case SweepOne(k, _, _) => !s.up && k in s.todo
    case Restart => !s.up && s.todo == {}
  }

  predicate Enabled(w: World, s: System, step: Step) {
    match step
    case Handler(h) => HandlerEnabled(s, h)
    case Opening(o) => s.up && OpeningEnabled(s, o)
    case Checking(c) => s.up && CheckingEnabled(w, s, c)
    case Packages(p) => s.up && PackageEnabled(w, s, p)
    case Closing(e) => s.up && EndingEnabled(s, e)
    case Remover(r) => s.up && RemovalEnabled(s, r)
    case Service(x) => CrashEnabled(s, x)
  }

  /** The handlers' steps. */
  function HandlerNext(s: System, step: HandlerStep): (s': System)
    ensures s' == s.(records := s'.records, dirs := s'.dirs, objects := s'.objects, open := s'.open, items := s'.items,
                  handler := s'.handler, submitted := s'.submitted, faulted := s'.faulted)
    ensures s.faulted ==> s'.faulted
  {
    match step
    case Start(k, archive, manifest, sha, ok) =>
      if ok then s.(records := s.records[k := NewImport(archive, manifest, sha)], handler := Made(k))
      else s.(faulted := true)
    case RetryIt(k, ok) =>
      var s1 := Saved(s, k, Retry, ok);
      if ok && Changed(s.records, k, Retry).Accepted? then s1.(handler := Made(k)) else s1
    case Submit =>
      if !s.handler.Made? then s
      else if !s.open then s.(handler := TurnedAway(s.handler.k))
      else
        var k := s.handler.k;
        s.(items := s.items + [k], handler := NoHandler, submitted := s.submitted + [LatestId(s.records, k)])
    case EndTurnedAway(ok, cleaned) =>
      if !s.handler.TurnedAway? then s
      else EndedUnfinished(s, s.handler.k, Abandon("the service was stopping and did not run this attempt"), ok,
                           cleaned)
           .(handler := NoHandler)
    case Close => s.(open := false)
    case Outside(objects) => s.(objects := objects)
  }

  /** The worker's steps from a pop to the start of the run. */
  function OpeningNext(s: System, step: OpeningStep): (s': System)
    ensures s' == s.(records := s'.records, dirs := s'.dirs, items := s'.items, worker := s'.worker,
                     popped := s'.popped, faulted := s'.faulted)
    ensures s.faulted ==> s'.faulted
  {
    match step
    case Pop =>
      if s.items == [] then s
      else s.(items := s.items[1..], worker := Popped(s.items[0]),
              popped := s.popped + [LatestId(s.records, s.items[0])])
    case BeginIt(made, ok) =>
      if !s.worker.Popped? then s
      else
        var k := s.worker.k;
        var up := Changed(s.records, k, Begin);
        if up.Rejected? then s.(worker := Abandoning(k))
        else
          var id := LatestId(s.records, k);
          if !made then s.(dirs := s.dirs - {id}, worker := Abandoning(k), faulted := true)
          else if !ok then s.(dirs := s.dirs + {id}, worker := Abandoning(k), faulted := true)
          else s.(records := s.records[k := up.imp], dirs := s.dirs + {id}, worker := Begun(k, id.n))
    case GetIt(ok) =>
      if !s.worker.Begun? then s
      else if ok then s.(worker := Heading(s.worker.k, s.worker.n))
      else s.(worker := Abandoning(s.worker.k))
  }

  /** The run's steps before the packages. */
  function CheckingNext(w: World, s: System, step: CheckingStep): (s': System)
    ensures s' == s.(records := s'.records, worker := s'.worker, faulted := s'.faulted)
    ensures s.faulted ==> s'.faulted
  {
    match step
    case HeadArchive => if s.worker.Heading? then s.(worker := Confirming(s.worker.k, s.worker.n)) else s
    case HeadManifest => if s.worker.Confirming? then s.(worker := Reading(s.worker.k, s.worker.n)) else s
    case StopEarly(outcome, reason) =>
      if BeforeList(s.worker) || s.worker.Verifying?
      then s.(worker := Ending(s.worker.k, s.worker.n, AtReturn(Stopped(outcome, reason), s.open))) else s
    case ListIt(ok) =>
      if s.worker.Reading? && s.worker.k in s.records && Listable(w, s.records[s.worker.k]) then
        var (k, n) := (s.worker.k, s.worker.n);
        var rep := Report(NoOutcome, "", NO_COUNTS, PendingList(EntriesOf(w, s.records[k])), Some(false));
        Saved(s, k, Listed(n, rep), ok).(worker := Verifying(k, n))
      else s
    case CheckIt(ok) =>
      if s.worker.Verifying?
      then Saved(s, s.worker.k, Checked(s.worker.n), ok).(worker := SettingUp(s.worker.k, s.worker.n))
      else s
    case FailEvery =>
      if s.worker.Verifying? || s.worker.SettingUp?
      then s.(worker := Handling(s.worker.k, s.worker.n, [], FailAll(s.worker.SettingUp?))) else s
    case SetUp =>
      if s.worker.SettingUp? then s.(worker := Handling(s.worker.k, s.worker.n, [], Publish(Waiting))) else s
  }

  /** The run's steps on the packages, up to its return. */
  function PackageNext(w: World, s: System, step: PackageStep): (s': System)
    ensures s' == s.(records := s'.records, nexus := s'.nexus, worker := s'.worker, faulted := s'.faulted)
    ensures !step.Upload? ==> s'.nexus == s.nexus
    ensures s.faulted ==> s'.faulted
  {
    match step
    case StartPackage => if OnPackage(w, s) then s.(worker := s.worker.(mode := Publish(Looking))) else s
    case FindLacking => if OnPackage(w, s) then s.(worker := s.worker.(mode := Publish(Lacking))) else s
    case Upload =>
      if OnPackage(w, s) && w.t.inspect(PackageNow(w, s).bytes).Some? then
        var p := PackageNow(w, s);
        s.(nexus := s.nexus[w.t.inspect(p.bytes).value := p.bytes], worker := s.worker.(mode := Publish(Sent)))
      else s
    case EndPackage(r, shown, ok) =>
      if s.worker.Handling? then
        var mode := if s.worker.mode.Publish? then Publish(Waiting) else s.worker.mode;
        Saved(s, s.worker.k, PackageEnded(s.worker.n, |s.worker.results|, r.(reason := shown)), ok)
        .(worker := s.worker.(results := s.worker.results + [r], mode := mode))
      else s
    case Return =>
      if s.worker.Handling? then
        var checked := s.worker.mode.Publish? || s.worker.mode.checked;
        s.(worker := Ending(s.worker.k, s.worker.n, AtReturn(HandledReport(s.worker.results, checked), s.open)))
      else s
  }

  /** The worker's steps once the run is over. */
  function EndingNext(s: System, step: EndingStep): (s': System)
    ensures s' == s.(records := s'.records, dirs := s'.dirs, worker := s'.worker, faulted := s'.faulted)
    ensures s.faulted ==> s'.faulted
  {
    match step
    case Panic => if InRun(s.worker) then s.(worker := Breaking(s.worker.k, s.worker.n)) else s
    case BreakIt(ok, cleaned) =>
      if !s.worker.Breaking? then s
      else
        var s1 := EndedUnfinished(s, s.worker.k, Break("the import stopped on an internal error; see the service log"),
                                  ok, cleaned);
        s1.(worker := if ok && cleaned then Idle else Abandoning(s.worker.k), faulted := s.faulted || !ok || !cleaned)
    case AbandonIt(ok, cleaned) =>
      if !s.worker.Abandoning? then s
      else EndedUnfinished(s, s.worker.k, Abandon("see the service log"), ok, cleaned).(worker := Idle)
    case FinishIt(ok, cleaned) =>
      if !s.worker.Ending? then s
      else
        var (k, n, rep) := (s.worker.k, s.worker.n, s.worker.rep);
        var up := Changed(s.records, k, Finish(n, rep));
        if up.Rejected? then s.(worker := Abandoning(k))
        else if !ok then s.(worker := Abandoning(k), faulted := true)
        else
          var s1 := s.(records := s.records[k := up.imp]);
          if !cleaned then s1.(worker := Abandoning(k), faulted := true)
          else s1.(dirs := s.dirs - {AttemptId(k, n)},
                   worker := if EveryPackageIn(rep) then Removing(k, n, HeadingArchive) else Idle)
  }

  /** The remover's steps. */
  function RemovalNext(s: System, step: RemovalStep): (s': System)
    ensures s' == s.(records := s'.records, objects := s'.objects, deleted := s'.deleted, worker := s'.worker,
                  faulted := s'.faulted)
    ensures s'.deleted == s.deleted || (s.worker.Removing? && s'.deleted == s.deleted + {s.worker.k})
    ensures s.faulted ==> s'.faulted
  {
    match step
    case HeadForRemoval(answered, reason) =>
      if !s.worker.Removing? || s.worker.k !in s.records then s
      else
        var (k, n, imp) := (s.worker.k, s.worker.n, s.records[s.worker.k]);
        var same :=
          if s.worker.stage == HeadingArchive then Carries(s.objects, ArchivePlace(k.user, imp), imp.archive)
          else Carries(s.objects, ManifestPlace(k.user, imp), imp.manifest);
        if !answered || !same then s.(worker := Storing(k, n, Removal(false, reason)))
        else s.(worker := Removing(k, n, if s.worker.stage == HeadingArchive then HeadingManifest else DeletingArchive))
    case DeleteArchive(gone, ok, reason) =>
      if !s.worker.Removing? || s.worker.k !in s.records then s
      else
        var (k, n, imp) := (s.worker.k, s.worker.n, s.records[s.worker.k]);
        s.(objects := if gone then s.objects - {ArchivePlace(k.user, imp)} else s.objects,
           deleted := if gone then s.deleted + {k} else s.deleted,
           worker := if ok then Removing(k, n, DeletingManifest) else Storing(k, n, Removal(false, reason)))
    case DeleteManifest(gone, reason) =>
      if !s.worker.Removing? || s.worker.k !in s.records then s
      else
        var (k, n, imp) := (s.worker.k, s.worker.n, s.records[s.worker.k]);
        s.(objects := if gone then s.objects - {ManifestPlace(k.user, imp)} else s.objects,
           worker := Storing(k, n, Removal(true, reason)))
    case StoreIt(ok) =>
      if !s.worker.Storing? then s
      else Saved(s, s.worker.k, Removed(s.worker.n, s.worker.rem), ok).(worker := Idle)
  }

  /** A crash loses everything volatile; the next start sweeps every record before the queue opens. */
  function CrashNext(s: System, step: CrashStep): (s': System)
    ensures s'.nexus == s.nexus && s'.objects == s.objects && s'.deleted == s.deleted
  {
    match step
    case Crash =>
      s.(up := false, open := false, items := [], worker := Idle, handler := NoHandler, todo := s.records.Keys,
         submitted := [], popped := [], faulted := false)
    case SweepOne(k, ok, cleaned) =>
      var s1 := s.(todo := s.todo - {k});
      if !ok || k !in s.records then s1.(faulted := true)
      else s1.(records := s.records[k := SweepImport(s.records[k])],
               dirs := if cleaned then set d | d in s.dirs && d.key != k else s.dirs,
               faulted := s.faulted || !cleaned)
    case Restart => s.(up := true, open := true)
  }

  function Next(w: World, s: System, step: Step): System {
    match step
    case Handler(h) => HandlerNext(s, h)
    case Opening(o) => OpeningNext(s, o)
    case Checking(c) => CheckingNext(w, s, c)
    case Packages(p) => PackageNext(w, s, p)
    case Closing(e) => EndingNext(s, e)
    case Remover(r) => RemovalNext(s, r)
    case Service(x) => CrashNext(s, x)
  }

  /** The first start: an empty volume, whatever the users have put in MinIO and whatever Nexus holds. */
  predicate Initial(s: System) {
    && s.records == map[] && s.dirs == {} && !s.up && !s.open && s.items == [] && s.worker == Idle
    && s.handler == NoHandler && s.todo == {} && s.deleted == {} && s.submitted == [] && s.popped == [] && !s.faulted
  }

  /** The state after a series of steps. */
  function After(w: World, s: System, steps: seq<Step>): System {
    if steps == [] then s else Next(w, After(w, s, steps[..|steps|-1]), steps[|steps|-1])
  }

  /** Each step is enabled when it is taken. */
  predicate Possible(w: World, s: System, steps: seq<Step>) {
    steps != [] ==>
      && Possible(w, s, steps[..|steps|-1])
      && Enabled(w, After(w, s, steps[..|steps|-1]), steps[|steps|-1])
  }
}
