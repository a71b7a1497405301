/**
 One run of an attempt: check the archive, then publish its packages, storing
 each package's state as it ends.

 Reading the manifest and verifying the archive are inputs (see
 ArchiveVerifier for the checks themselves); the store may fail at any write
 and Nexus at any call.

 Sources: internal/importer/attempt.go and the loop of publish.go.
 */
module Attempts {
  import opened Wrappers
  import opened Records
  import opened RecordStore
  import opened Publishing

  const MAX_STORED_REASON := 1000
  const NOTE_STRIPPED := "sealift removed publishConfig at export"

  /** The outcome of reading something: a value, a refusal, or one of the three kinds of error. */
  datatype Read<T> =
    | Got(value: T)
    | Refusal(reason: string)
    | SourceFailed(reason: string)
    | Cancelled
    | LocalFailed(reason: string)

  /** What one run will find: its manifest, its checked archive, and how the client's set-up goes. */
  datatype Source = Source(
    manifest: Read<seq<Entry>>,
    archive: Read<seq<Package>>,
    setupError: Option<string>,
    files: seq<Option<Bytes>>)

  /** A manifest lists a package at least, and the checked tarballs come in its order. */
  predicate ValidSource(src: Source) {
    && (src.manifest.Got? ==> src.manifest.value != [])
    && (src.manifest.Got? && src.archive.Got? ==>
          && |src.archive.value| == |src.manifest.value|
          && |src.files| == |src.manifest.value|
          && forall i :: 0 <= i < |src.manifest.value| ==> src.archive.value[i].entry == src.manifest.value[i])
  }

  /** cut keeps the first 1,000 characters of a reason. */
  function Cut(s: string): string {
    if |s| > MAX_STORED_REASON then s[..MAX_STORED_REASON] else s
  }

  function Shown(r: Result): Result {
    r.(reason := Cut(r.reason))
  }

  function ShownAll(ps: seq<Result>): (qs: seq<Result>)
    ensures |qs| == |ps| && forall i :: 0 <= i < |ps| ==> qs[i] == Shown(ps[i])
  {
    seq(|ps|, i requires 0 <= i < |ps| => Shown(ps[i]))
  }

  function PendingResult(e: Entry): Result {
    Result(e.name, e.version, e.file, Pending, "", "", NoKind)
  }

  function PendingList(es: seq<Entry>): (ps: seq<Result>)
    ensures |ps| == |es| && forall i :: 0 <= i < |es| ==> ps[i] == PendingResult(es[i])
  {
    seq(|es|, i requires 0 <= i < |es| => PendingResult(es[i]))
  }

  /** What the store holds of a run that has handled a prefix of the list. */
  function Progress(handled: seq<Result>, es: seq<Entry>): seq<Result>
    requires |handled| <= |es|
  {
    ShownAll(handled) + PendingList(es)[|handled|..]
  }

  // --------------------------------------------------- effects on the store

  /** Only record k changed, and if it was sound it is a sound later state of itself. */
  predicate OnlyAt(before: map<ImportKey, Import>, after: map<ImportKey, Import>, k: ImportKey) {
    && after.Keys == before.Keys
    && (forall j :: j in before && j != k ==> after[j] == before[j])
    && (k in before && Sound(before[k]) ==> Sound(after[k]) && Evolves(before[k], after[k]))
  }

  predicate StillRunning(records: map<ImportKey, Import>, k: ImportKey, n: nat) {
    k in records && IsRunning(records[k], n)
  }

  lemma OnlyAtTransitive(a: map<ImportKey, Import>, b: map<ImportKey, Import>, c: map<ImportKey, Import>, k: ImportKey)
    requires OnlyAt(a, b, k) && OnlyAt(b, c, k)
    ensures OnlyAt(a, c, k)
  {
    if k in a && Sound(a[k]) {
      EvolvesTransitive(a[k], b[k], c[k]);
    }
  }

  lemma StoredOnlyAt(before: map<ImportKey, Import>, after: map<ImportKey, Import>, k: ImportKey, c: Change, ok: bool)
    requires Stored(before, after, k, Changed(before, k, c), ok) && Allowed(c)
    ensures OnlyAt(before, after, k)
  {
    if ok && Sound(before[k]) {
      ChangeSound(before[k], c);
    } else if k in before && Sound(before[k]) {
      assert Evolves(before[k], before[k]);
    }
  }

  /** The store at one moment. */
  datatype View = View(records: map<ImportKey, Import>, dirs: set<AttemptId>, faulted: bool)

  ghost function ViewOf(store: Store): View
    reads store
  {
    View(store.records, store.dirs, store.faulted)
  }

  /** A run of attempt n of k touches its own record only, and leaves the attempt running. */
  predicate Kept(v: View, w: View, k: ImportKey, n: nat) {
    && OnlyAt(v.records, w.records, k)
    && w.dirs == v.dirs
    && (v.faulted ==> w.faulted)
    && (StillRunning(v.records, k, n) ==> StillRunning(w.records, k, n))
  }

  lemma KeptTransitive(v: View, w: View, x: View, k: ImportKey, n: nat)
    requires Kept(v, w, k, n) && Kept(w, x, k, n)
    ensures Kept(v, x, k, n)
  {
    OnlyAtTransitive(v.records, w.records, x.records, k);
  }

  lemma KeptRefl(v: View, k: ImportKey, n: nat)
    ensures Kept(v, v, k, n)
  {
    assert k in v.records ==> Evolves(v.records[k], v.records[k]);
  }

  /** The packages of the running attempt n, as stored. */
  function StoredPackages(records: map<ImportKey, Import>, k: ImportKey, n: nat): seq<Result>
    requires StillRunning(records, k, n)
  {
    Latest(records[k]).report.packages
  }

  /**
   The records of k written from index `from` on, exactly: first those before
   any package was handled (the list, and the mark that the archive passed its
   checks), then one for each package, the m-th showing the first m handled
   and the rest pending.
   */
  ghost predicate TrailShows(trail: seq<(ImportKey, Import)>, from: nat, first: nat, k: ImportKey, all: seq<Result>,
                             es: seq<Entry>)
    requires |all| <= |es|
  {
    && |trail| == from + first + |all|
    && forall j :: from <= j < |trail| ==>
         ShowsHandled(trail[j], k, if j < from + first then 0 else j - from - first + 1, all, es)
  }

  /** A written record of k that shows the first m handled. */
  ghost predicate ShowsHandled(written: (ImportKey, Import), k: ImportKey, m: nat, all: seq<Result>, es: seq<Entry>)
    requires |all| <= |es|
  {
    && written.0 == k && written.1.attempts != [] && m <= |all|
    && Latest(written.1).report.packages == Progress(all[..m], es)
  }

  lemma TrailGrows(trail: seq<(ImportKey, Import)>, from: nat, first: nat, k: ImportKey, all: seq<Result>, r: Result,
                   es: seq<Entry>, written: (ImportKey, Import))
    requires |all| < |es| && TrailShows(trail, from, first, k, all, es)
    requires written.0 == k && written.1.attempts != [] && Latest(written.1).report.packages == Progress(all + [r], es)
    ensures TrailShows(trail + [written], from, first, k, all + [r], es)
  {
    var more := trail + [written];
    forall j | from <= j < |more|
      ensures ShowsHandled(more[j], k, if j < from + first then 0 else j - from - first + 1, all + [r], es)
    {
      var m := if j < from + first then 0 else j - from - first + 1;
      if j < |trail| {
        assert ShowsHandled(trail[j], k, m, all, es);
        assert (all + [r])[..m] == all[..m];
      } else {
        assert (all + [r])[..m] == all + [r];
      }
    }
  }

  lemma ProgressStep(handled: seq<Result>, r: Result, es: seq<Entry>)
    requires |handled| < |es|
    ensures Progress(handled, es)[|handled| := Shown(r)] == Progress(handled + [r], es)
  {
    assert ShownAll(handled + [r]) == ShownAll(handled) + [Shown(r)];
  }

  /** Package |handled| has ended as r: the Ended call of the run, with its reason cut. */
  method StoreResult(store: Store, k: ImportKey, n: nat, handled: seq<Result>, r: Result, es: seq<Entry>)
    requires |handled| < |es|
    modifies store
    ensures Kept(old(ViewOf(store)), ViewOf(store), k, n)
    ensures !store.faulted && StillRunning(old(store.records), k, n)
            && StoredPackages(old(store.records), k, n) == Progress(handled, es) ==>
              && StoredPackages(store.records, k, n) == Progress(handled + [r], es)
              && store.trail == old(store.trail) + [(k, store.records[k])]
  {
    ProgressStep(handled, r, es);
    var ok := store.PackageEnd(k, n, |handled|, Shown(r));
    StoredOnlyAt(old(store.records), store.records, k, PackageEnded(n, |handled|, Shown(r)), ok);
  }

  /** The state a run leaves its store in, having handled the list up to `handled`. */
  ghost predicate OnTrack(v: View, trail: seq<(ImportKey, Import)>, from: nat, first: nat,
                          k: ImportKey, n: nat, handled: seq<Result>, es: seq<Entry>)
    requires |handled| <= |es|
  {
    !v.faulted ==>
      && StillRunning(v.records, k, n) && StoredPackages(v.records, k, n) == Progress(handled, es)
      && TrailShows(trail, from, first, k, handled, es)
  }

  /** One more package handled, whatever handled it. */
  method Handle(store: Store, k: ImportKey, n: nat, handled: seq<Result>, r: Result, es: seq<Entry>, ghost from: nat,
                ghost first: nat)
    returns (handled': seq<Result>)
    requires |handled| < |es|
    requires OnTrack(ViewOf(store), store.trail, from, first, k, n, handled, es)
    modifies store
    ensures handled' == handled + [r]
    ensures Kept(old(ViewOf(store)), ViewOf(store), k, n)
    ensures OnTrack(ViewOf(store), store.trail, from, first, k, n, handled', es)
  {
    StoreResult(store, k, n, handled, r, es);
    handled' := handled + [r];
    if !store.faulted {
      TrailGrows(old(store.trail), from, first, k, handled, r, es, (k, store.records[k]));
    }
  }

  /** Every package fails with one reason: failAll, and the set-up failures of publish. */
  method FailEach(store: Store, k: ImportKey, n: nat, kind: Kind, reason: string, es: seq<Entry>, ghost from: nat,
                  ghost first: nat)
    returns (results: seq<Result>)
    requires kind != NoKind
    requires OnTrack(ViewOf(store), store.trail, from, first, k, n, [], es)
    modifies store
    ensures |results| == |es| && forall i :: 0 <= i < |es| ==> results[i] == FailedResult(es[i], kind, reason)
    ensures Kept(old(ViewOf(store)), ViewOf(store), k, n)
    ensures OnTrack(ViewOf(store), store.trail, from, first, k, n, results, es)
  {
    results := [];
    KeptRefl(ViewOf(store), k, n);
    for i := 0 to |es|
      invariant |results| == i && forall j :: 0 <= j < i ==> results[j] == FailedResult(es[j], kind, reason)
      invariant Kept(old(ViewOf(store)), ViewOf(store), k, n)
      invariant OnTrack(ViewOf(store), store.trail, from, first, k, n, results, es)
    {
      ghost var mid := ViewOf(store);
      results := Handle(store, k, n, results, FailedResult(es[i], kind, reason), es, from, first);
      KeptTransitive(old(ViewOf(store)), mid, ViewOf(store), k, n);
    }
  }

  /** finish: a note for a stripped package that has none, and the reason cut. */
  function FinishResult(p: Package, r: Result): Result {
    var r' := if p.stripped && r.state != Failed && r.note == "" then r.(note := NOTE_STRIPPED) else r;
    Shown(r')
  }

  function InterruptedResult(e: Entry): Result {
    FailedResult(e, KindInterrupted, REASON_INTERRUPTED)
  }

  /** Each package settled in turn, Nexus going through `steps`. */
  ghost predicate SettledInTurn(t: Tarballs, steps: seq<NexusView>, pkgs: seq<Package>, files: seq<Option<Bytes>>,
                                results: seq<Result>)
    requires |files| == |pkgs|
  {
    && |results| <= |pkgs| && |steps| == |results| + 1
    && forall i :: 0 <= i < |results| ==>
         Settled(t, steps[i].held, steps[i+1].held, pkgs[i], Trusted(pkgs[i], files[i]), results[i])
  }

  /** Once one package ended interrupted, every later one did, and nothing was uploaded for it. */
  ghost predicate InterruptedSuffix(steps: seq<NexusView>, es: seq<Entry>, results: seq<Result>)
    requires |results| <= |es| && |steps| == |results| + 1
  {
    forall i, j :: 0 <= i < j < |results| && results[i].kind == KindInterrupted ==>
      results[j] == InterruptedResult(es[j]) && steps[j+1] == steps[j]
  }

  lemma SettledAppend(t: Tarballs, steps: seq<NexusView>, after: NexusView, pkgs: seq<Package>,
                      files: seq<Option<Bytes>>, results: seq<Result>, r: Result)
    requires |files| == |pkgs| && |results| < |pkgs| && SettledInTurn(t, steps, pkgs, files, results)
    requires var i := |results|; Settled(t, steps[i].held, after.held, pkgs[i], Trusted(pkgs[i], files[i]), r)
    ensures SettledInTurn(t, steps + [after], pkgs, files, results + [r])
  {
  }

  lemma SuffixAppend(steps: seq<NexusView>, after: NexusView, es: seq<Entry>, results: seq<Result>, r: Result)
    requires |results| < |es| && |steps| == |results| + 1 && InterruptedSuffix(steps, es, results)
    requires (exists j :: 0 <= j < |results| && results[j].kind == KindInterrupted) ==>
               r == InterruptedResult(es[|results|]) && after == steps[|results|]
    ensures InterruptedSuffix(steps + [after], es, results + [r])
  {
  }

  /** The note on a package whose very bytes are in Nexus. */
  function PlainNote(p: Package): string {
    if p.stripped then "sealift removed publishConfig at export" else ""
  }

  /** Each package in order got the one right verdict on what Nexus held when its turn came. */
  ghost predicate RightInTurn(t: Tarballs, steps: seq<NexusView>, pkgs: seq<Package>, files: seq<Option<Bytes>>,
                              results: seq<Result>)
    requires |files| == |pkgs|
  {
    && |results| <= |pkgs| && |steps| == |results| + 1
    && forall i :: 0 <= i < |results| && InOrder(t, pkgs[i], files[i]) ==>
         RightVerdict(t, steps[i].held, pkgs[i], results[i], PlainNote(pkgs[i]))
  }

  lemma RightAppend(t: Tarballs, steps: seq<NexusView>, after: NexusView, pkgs: seq<Package>,
                    files: seq<Option<Bytes>>, results: seq<Result>, r: Result)
    requires |files| == |pkgs| && |results| < |pkgs| && RightInTurn(t, steps, pkgs, files, results)
    requires var i := |results|;
      InOrder(t, pkgs[i], files[i]) ==> RightVerdict(t, steps[i].held, pkgs[i], r, PlainNote(pkgs[i]))
    ensures RightInTurn(t, steps + [after], pkgs, files, results + [r])
  {
  }

  /** Nexus can take the package: it does not hold the version, or holds it with the right content. */
  predicate Welcome(t: Tarballs, held: Held, p: Package) {
    p.Key() !in held || (Judgeable(t, held, p) && Holds(t, held, p))
  }

  predicate AllWelcome(t: Tarballs, held: Held, pkgs: seq<Package>) {
    forall i :: 0 <= i < |pkgs| ==> Welcome(t, held, pkgs[i])
  }

  predicate KeysDiffer(pkgs: seq<Package>) {
    forall i, j :: 0 <= i < j < |pkgs| ==> pkgs[i].Key() != pkgs[j].Key()
  }

  predicate AllInOrder(t: Tarballs, pkgs: seq<Package>, files: seq<Option<Bytes>>)
    requires |files| == |pkgs|
  {
    forall i :: 0 <= i < |pkgs| ==> InOrder(t, pkgs[i], files[i])
  }

  /** What Nexus holds of a package does not change before its turn. */
  lemma {:induction false} UntilItsTurn(t: Tarballs, steps: seq<NexusView>, pkgs: seq<Package>,
                                        files: seq<Option<Bytes>>, results: seq<Result>, i: nat, at: nat)
    requires |files| == |pkgs| && SettledInTurn(t, steps, pkgs, files, results) && KeysDiffer(pkgs)
    requires at <= i < |results|
    ensures var k := pkgs[i].Key();
      (k in steps[at].held <==> k in steps[0].held) && (k in steps[0].held ==> steps[at].held[k] == steps[0].held[k])
  {
    if at > 0 {
      UntilItsTurn(t, steps, pkgs, files, results, i, at - 1);
      assert Settled(t, steps[at-1].held, steps[at].held, pkgs[at-1], Trusted(pkgs[at-1], files[at-1]), results[at-1]);
    }
  }

  /** Where every verdict is right, all packages are in exactly when Nexus could take each to begin with. */
  lemma AllInIffWelcome(t: Tarballs, steps: seq<NexusView>, pkgs: seq<Package>, files: seq<Option<Bytes>>,
                        results: seq<Result>)
    requires |files| == |pkgs| == |results| && KeysDiffer(pkgs) && AllInOrder(t, pkgs, files)
    requires SettledInTurn(t, steps, pkgs, files, results) && RightInTurn(t, steps, pkgs, files, results)
    ensures AllIn(results) <==> AllWelcome(t, steps[0].held, pkgs)
  {
    forall i | 0 <= i < |pkgs| ensures IsIn(results[i]) <==> Welcome(t, steps[0].held, pkgs[i]) {
      UntilItsTurn(t, steps, pkgs, files, results, i, i);
      assert InOrder(t, pkgs[i], files[i]) && RightVerdict(t, steps[i].held, pkgs[i], results[i], PlainNote(pkgs[i]));
    }
  }

  /** A list of results for the manifest, in its order, none pending. */
  predicate Answers(ps: seq<Result>, es: seq<Entry>) {
    |ps| == |es| && NoPending(ps) && forall i :: 0 <= i < |es| ==> Names(ps[i], es[i])
  }

  lemma SettledAnswers(t: Tarballs, steps: seq<NexusView>, pkgs: seq<Package>, files: seq<Option<Bytes>>,
                       results: seq<Result>, es: seq<Entry>)
    requires |files| == |pkgs| == |results| == |es| && SettledInTurn(t, steps, pkgs, files, results)
    requires forall i :: 0 <= i < |es| ==> pkgs[i].entry == es[i]
    ensures Answers(results, es)
  {
    forall i | 0 <= i < |es| ensures results[i].state != Pending && Names(results[i], es[i]) {
      assert Settled(t, steps[i].held, steps[i+1].held, pkgs[i], Trusted(pkgs[i], files[i]), results[i]);
    }
  }

  /** One package of PublishEach: interrupted before it starts, failed with the repository, or published. */
  method PublishNext(ctx: Context, nexus: Nexus, repoOk: bool, p: Package, file: Option<Bytes>) returns (r: Result)
    requires !repoOk ==> nexus.faulted
    modifies ctx, nexus
    ensures old(nexus.faulted) ==> nexus.faulted
    ensures InOrder(nexus.tarballs, p, file) && !nexus.faulted && !ctx.done ==>
      RightVerdict(nexus.tarballs, old(nexus.held), p, r, PlainNote(p))
    ensures old(ctx.done) ==> ctx.done
    ensures old(ctx.done) ==> ctx.done && nexus.View() == old(nexus.View()) && r == InterruptedResult(p.entry)
    ensures r.kind == KindInterrupted ==> ctx.done
    ensures Shown(r) == r
    ensures Settled(nexus.tarballs, old(nexus.held), nexus.held, p, Trusted(p, file), r)
  {
    if !repoOk {
      r := FailedOr(ctx, p.entry, KindNexus, "repository check failed");
    } else {
      // The context is asked before each package: InterruptedSuffix rests on this.
      var stopped := ctx.Err();
      if stopped {
        r := InterruptedResult(p.entry);
      } else {
        r := PublishOne(ctx, nexus, p, file, if file.Some? then file.value else []);
      }
    }
    r := FinishResult(p, r);
  }

  /**
   PublishEach over the checked packages.  steps are the contents of Nexus
   before the first package and after each one.
   */
  method PublishEach(store: Store, k: ImportKey, n: nat, ctx: Context, nexus: Nexus,
                     pkgs: seq<Package>, files: seq<Option<Bytes>>, es: seq<Entry>, ghost from: nat, ghost first: nat)
    returns (results: seq<Result>, ghost steps: seq<NexusView>)
    requires |es| == |pkgs| == |files| && forall i :: 0 <= i < |es| ==> pkgs[i].entry == es[i]
    requires OnTrack(ViewOf(store), store.trail, from, first, k, n, [], es)
    modifies store, ctx, nexus
    ensures |results| == |pkgs| && SettledInTurn(nexus.tarballs, steps, pkgs, files, results)
    ensures steps[0] == old(nexus.View()) && steps[|pkgs|] == nexus.View()
    ensures InterruptedSuffix(steps, es, results)
    ensures old(nexus.faulted) ==> nexus.faulted
    ensures !nexus.faulted && !ctx.done ==> RightInTurn(nexus.tarballs, steps, pkgs, files, results)
    ensures old(ctx.done) ==> nexus.View() == old(nexus.View()) && forall i :: 0 <= i < |pkgs| ==>
      results[i] == InterruptedResult(es[i])
    ensures ShownAll(results) == results
    ensures old(ctx.done) ==> ctx.done
    ensures Kept(old(ViewOf(store)), ViewOf(store), k, n)
    ensures OnTrack(ViewOf(store), store.trail, from, first, k, n, results, es)
  {
    results, steps := [], [nexus.View()];
    KeptRefl(ViewOf(store), k, n);
    var repoOk := nexus.CheckRepository();
    for i := 0 to |pkgs|
      invariant |results| == i && SettledInTurn(nexus.tarballs, steps, pkgs, files, results)
      invariant steps[0] == old(nexus.View()) && steps[i] == nexus.View()
      invariant InterruptedSuffix(steps, es, results)
      invariant (old(nexus.faulted) ==> nexus.faulted) && (!repoOk ==> nexus.faulted)
      invariant !nexus.faulted && !ctx.done ==> RightInTurn(nexus.tarballs, steps, pkgs, files, results)
      invariant forall j :: 0 <= j < i && results[j].kind == KindInterrupted ==> ctx.done
      invariant old(ctx.done) ==> ctx.done
      invariant old(ctx.done) ==> nexus.View() == old(nexus.View()) && forall j :: 0 <= j < i ==>
        results[j] == InterruptedResult(es[j])
      invariant forall j :: 0 <= j < i ==> Shown(results[j]) == results[j]
      invariant Kept(old(ViewOf(store)), ViewOf(store), k, n)
      invariant OnTrack(ViewOf(store), store.trail, from, first, k, n, results, es)
    {
      ghost var mid := ViewOf(store);
      var r := PublishNext(ctx, nexus, repoOk, pkgs[i], files[i]);
      SettledAppend(nexus.tarballs, steps, nexus.View(), pkgs, files, results, r);
      SuffixAppend(steps, nexus.View(), es, results, r);
      if !nexus.faulted && !ctx.done {
        RightAppend(nexus.tarballs, steps, nexus.View(), pkgs, files, results, r);
      }
      steps := steps + [nexus.View()];
      results := Handle(store, k, n, results, r, es, from, first);
      KeptTransitive(old(ViewOf(store)), mid, ViewOf(store), k, n);
    }
  }

  /** How a run ends before it lists a package. */
  method StopReport(ctx: Context, reason: Read<()>) returns (rep: Report)
    requires !reason.Got?
    modifies ctx
    ensures old(ctx.done) ==> ctx.done
    ensures !reason.Cancelled? ==> ctx.done == old(ctx.done)
    ensures rep.packages == [] && rep.counts == NO_COUNTS && rep.checked == Some(false)
    ensures reason.Refusal? || reason.LocalFailed? ==> rep.outcome == Refused
    ensures reason.SourceFailed? ==> rep.outcome == Incomplete
    ensures reason.Cancelled? ==> rep.outcome == if ctx.done then Incomplete else Refused
    ensures |rep.reason| <= MAX_STORED_REASON
  {
    rep := Report(Refused, "", NO_COUNTS, [], Some(false));
    match reason
    case Refusal(why) => rep := rep.(reason := Cut(why));
    case SourceFailed(why) => rep := rep.(outcome := Incomplete, reason := Cut(why));
    case LocalFailed(why) => rep := rep.(reason := Cut("could not check the archive: " + why));
    case Cancelled =>
      var done := ctx.Err();
      rep := if done then rep.(outcome := Incomplete, reason := REASON_INTERRUPTED)
             else rep.(reason := "could not check the archive: cancelled");
  }

  function Without<T>(r: Read<T>): Read<()> {
    match r
    case Got(_) => Got(())
    case Refusal(why) => Refusal(why)
    case SourceFailed(why) => SourceFailed(why)
    case Cancelled => Cancelled
    case LocalFailed(why) => LocalFailed(why)
  }

  function Entries(src: Source): seq<Entry> {
    if src.manifest.Got? then src.manifest.value else []
  }

  /** The archive passed its checks, so publishing was reached. */
  predicate PassedChecks(src: Source) {
    src.manifest.Got? && src.archive.Got?
  }

  /** Every listed package failed, for one kind of reason. */
  predicate AllFailed(ps: seq<Result>, es: seq<Entry>, kind: Kind) {
    |ps| == |es| && forall i :: 0 <= i < |ps| ==> ps[i].state == Failed && ps[i].kind == kind
  }

  /** How a run ends that never reaches Nexus; done: the run was told to stop. */
  predicate StopMeans(src: Source, rep: Report, done: bool) {
    match src.manifest
    case Refusal(_) => rep.outcome == Refused
    case LocalFailed(_) => rep.outcome == Refused
    case SourceFailed(_) => rep.outcome == Incomplete && rep.packages == []
    case Cancelled => rep.outcome == (if done then Incomplete else Refused) && rep.packages == []
    case Got(es) =>
      match src.archive
      case Refusal(_) => rep.outcome == Refused
      case LocalFailed(_) => rep.outcome == Refused
      case SourceFailed(_) => rep.outcome == Incomplete && AllFailed(rep.packages, es, KindSource)
      case Cancelled =>
        if done then rep.outcome == Incomplete && AllFailed(rep.packages, es, KindInterrupted)
        else rep.outcome == Refused
      case Got(_) => src.setupError.Some? ==> AllFailed(rep.packages, es, KindLocal)
  }

  /** The archive passed, the client can be set up, and every file is in order, each a version of its own. */
  predicate ReadyToPublish(t: Tarballs, src: Source) {
    && PassedChecks(src) && src.setupError.None? && |src.files| == |src.archive.value|
    && AllInOrder(t, src.archive.value, src.files) && KeysDiffer(src.archive.value)
  }

  /** The report of a handled list: its outcome follows from its counts. */
  function HandledReport(ps: seq<Result>, checked: bool): (rep: Report)
    ensures NoPending(ps) ==> Final(rep)
  {
    var c := CountsOf(ps);
    Report(if c.failed > 0 then Incomplete else Complete, "", c, ps, Some(checked))
  }

  /** The outcome of a run, of whatever source: complete, incomplete or refused, and each exactly when. */
  ghost predicate OutcomeMeans(src: Source, rep: Report) {
    && Final(rep)
    && (rep.packages == [] || Answers(rep.packages, Entries(src)))
    && (rep.outcome == Complete <==> PassedChecks(src) && Answers(rep.packages, Entries(src)) && AllIn(rep.packages))
    && (rep.outcome == Refused ==> rep.packages == [] && !PassedChecks(src))
    && (rep.outcome == Complete || rep.outcome == Incomplete || rep.outcome == Refused)
    && (rep.checked == Some(true) <==> PassedChecks(src))
    && (rep.checked == Some(false) <==> !PassedChecks(src))
    && (rep.outcome == Complete <==> EveryPackageIn(rep) && rep.packages != [])
  }

  lemma HandledOutcome(src: Source, ps: seq<Result>, checked: bool)
    requires Answers(ps, Entries(src)) && ps != [] && checked == PassedChecks(src)
    requires !checked ==> forall i :: 0 <= i < |ps| ==> ps[i].state == Failed
    ensures OutcomeMeans(src, HandledReport(ps, checked))
  {
    CountsCover(ps);
    NoneFailedMeansAllIn(ps);
    if !checked {
      assert !IsIn(ps[0]);
    }
  }

  /**
   publish: set the client up, then publish each package.  A set-up failure
   fails every package with its reason, which the store keeps cut.
   */
  method Publish(store: Store, k: ImportKey, n: nat, ctx: Context, nexus: Nexus,
                 src: Source, ghost from: nat, ghost first: nat)
    returns (results: seq<Result>, ghost steps: seq<NexusView>)
    requires ValidSource(src) && PassedChecks(src)
    requires OnTrack(ViewOf(store), store.trail, from, first, k, n, [], Entries(src))
    modifies store, ctx, nexus
    ensures Answers(results, Entries(src))
    ensures Kept(old(ViewOf(store)), ViewOf(store), k, n)
    ensures OnTrack(ViewOf(store), store.trail, from, first, k, n, results, Entries(src))
    ensures old(ctx.done) ==> ctx.done
    ensures SettledInTurn(nexus.tarballs, steps, src.archive.value, src.files, results)
    ensures steps[0] == old(nexus.View()) && steps[|results|] == nexus.View()
    ensures InterruptedSuffix(steps, Entries(src), results)
    ensures ShownAll(results) == results <==> src.setupError.None? || |src.setupError.value| <= MAX_STORED_REASON
    ensures src.setupError.Some? ==> nexus.View() == old(nexus.View())
    ensures old(nexus.faulted) ==> nexus.faulted
    ensures src.setupError.Some? ==> AllFailed(results, src.manifest.value, KindLocal)
    ensures src.setupError.None? && !nexus.faulted && !ctx.done ==>
      RightInTurn(nexus.tarballs, steps, src.archive.value, src.files, results)
  {
    var pkgs, es := src.archive.value, src.manifest.value;
    if src.setupError.Some? {
      results := FailEach(store, k, n, KindLocal, src.setupError.value, es, from, first);
      ghost var view := nexus.View();
      steps := seq(|pkgs| + 1, _ => view);
      if |src.setupError.value| > MAX_STORED_REASON {
        assert ShownAll(results)[0] != results[0];
      }
    } else {
      results, steps := PublishEach(store, k, n, ctx, nexus, pkgs, src.files, es, from, first);
    }
    SettledAnswers(nexus.tarballs, steps, pkgs, src.files, results, es);
  }

  /**
   runAttempt.  The report is final and says exactly what happened; while no
   store operation fails, the store holds at every moment the handled prefix
   of the final list followed by pending entries, and at the end that list
   with its reasons cut.
   */
  method RunAttempt(store: Store, k: ImportKey, n: nat, ctx: Context, nexus: Nexus, src: Source)
    returns (rep: Report, ghost steps: seq<NexusView>)
    requires ValidSource(src)
    requires !store.faulted ==> StillRunning(store.records, k, n)
    modifies store, ctx, nexus
    ensures OutcomeMeans(src, rep)
    ensures Kept(old(ViewOf(store)), ViewOf(store), k, n)
    ensures old(ctx.done) ==> ctx.done
    ensures rep.packages != [] ==>
      && OnTrack(ViewOf(store), store.trail, |old(store.trail)|,
                 if PassedChecks(src) then 2 else 1, k, n, rep.packages, Entries(src))
      && (!store.faulted ==> StoredPackages(store.records, k, n) == ShownAll(rep.packages))
      && (ShownAll(rep.packages) == rep.packages <==>
            !PassedChecks(src) || src.setupError.None? || |src.setupError.value| <= MAX_STORED_REASON)
    ensures !PassedChecks(src) ==> nexus.View() == old(nexus.View())
    ensures PassedChecks(src) ==>
      && SettledInTurn(nexus.tarballs, steps, src.archive.value, src.files, rep.packages)
      && |rep.packages| == |src.archive.value|
      && steps[0] == old(nexus.View()) && steps[|rep.packages|] == nexus.View()
      && InterruptedSuffix(steps, Entries(src), rep.packages)
    ensures StopMeans(src, rep, ctx.done)
    ensures old(nexus.faulted) ==> nexus.faulted
    ensures ReadyToPublish(nexus.tarballs, src) && !nexus.faulted && !ctx.done ==>
      && RightInTurn(nexus.tarballs, steps, src.archive.value, src.files, rep.packages)
      && (rep.outcome == Complete <==> AllWelcome(nexus.tarballs, old(nexus.held), src.archive.value))
  {
    steps := [nexus.View()];
    KeptRefl(ViewOf(store), k, n);
    if !src.manifest.Got? {
      rep := StopReport(ctx, Without(src.manifest));
      return;
    }
    var es := src.manifest.value;
    ghost var from := |store.trail|;
    ghost var start := ViewOf(store);
    StartListing(store, k, n, es);
    ghost var listed := ViewOf(store);

    if src.archive.Refusal? || src.archive.LocalFailed? {
      rep := StopReport(ctx, Without(src.archive));
      return;
    }
    if src.archive.Cancelled? {
      var done := ctx.Err();
      if !done {
        rep := StopReport(ctx, LocalFailed("cancelled"));
        return;
      }
    }
    if !src.archive.Got? {
      // An unread archive: the list of the manifest is all that can be reported.
      var kind := if src.archive.Cancelled? then KindInterrupted else KindSource;
      var reason := if src.archive.Cancelled? then REASON_INTERRUPTED else Cut(src.archive.reason);
      rep := FailAll(store, k, n, src, kind, reason, from);
      KeptTransitive(start, listed, ViewOf(store), k, n);
      return;
    }
    FinishChecks(store, k, n, es, from);
    ghost var checked := ViewOf(store);
    KeptTransitive(start, listed, checked, k, n);
    var results;
    results, steps := Publish(store, k, n, ctx, nexus, src, from, 2);
    KeptTransitive(start, checked, ViewOf(store), k, n);
    HandledOutcome(src, results, true);
    rep := HandledReport(results, true);
    if ReadyToPublish(nexus.tarballs, src) && !nexus.faulted && !ctx.done {
      AllInIffWelcome(nexus.tarballs, steps, src.archive.value, src.files, results);
    }
  }

  /** failAll: an archive that could not be checked fails every listed package. */
  method FailAll(store: Store, k: ImportKey, n: nat, src: Source, kind: Kind, reason: string, ghost from: nat)
    returns (rep: Report)
    requires ValidSource(src) && src.manifest.Got? && !src.archive.Got? && kind != NoKind
    requires |reason| <= MAX_STORED_REASON
    requires OnTrack(ViewOf(store), store.trail, from, 1, k, n, [], Entries(src))
    modifies store
    ensures OutcomeMeans(src, rep) && rep.packages != [] && ShownAll(rep.packages) == rep.packages
    ensures rep.outcome == Incomplete && AllFailed(rep.packages, src.manifest.value, kind)
    ensures Kept(old(ViewOf(store)), ViewOf(store), k, n)
    ensures OnTrack(ViewOf(store), store.trail, from, 1, k, n, rep.packages, Entries(src))
  {
    var results := FailEach(store, k, n, kind, reason, src.manifest.value, from, 1);
    HandledOutcome(src, results, false);
    rep := HandledReport(results, false);
  }

  /** The Listed call: every package of the manifest, pending. */
  method StartListing(store: Store, k: ImportKey, n: nat, es: seq<Entry>)
    requires !store.faulted ==> StillRunning(store.records, k, n)
    modifies store
    ensures Kept(old(ViewOf(store)), ViewOf(store), k, n)
    ensures OnTrack(ViewOf(store), store.trail, |old(store.trail)|, 1, k, n, [], es)
  {
    var snap := Report(NoOutcome, "", NO_COUNTS, PendingList(es), Some(false));
    var ok := store.List(k, n, snap);
    StoredOnlyAt(old(store.records), store.records, k, Listed(n, snap), ok);
    NothingHandled(es);
    RunningStays(old(store.records), store.records, k, n, snap, ok);
    if !store.faulted {
      assert ok;
      ListingStored(old(store.records), store.records, k, n, snap);
      BeforeAny(old(store.trail), |old(store.trail)|, 0, k, es, (k, store.records[k]));
    }
  }

  lemma RunningStays(before: map<ImportKey, Import>, after: map<ImportKey, Import>, k: ImportKey, n: nat, rep: Report,
                     ok: bool)
    requires Stored(before, after, k, Changed(before, k, Listed(n, rep)), ok)
    ensures StillRunning(before, k, n) ==> StillRunning(after, k, n) && Changed(before, k, Listed(n, rep)).Accepted?
  {
  }

  lemma ListingStored(before: map<ImportKey, Import>, after: map<ImportKey, Import>, k: ImportKey, n: nat, rep: Report)
    requires StillRunning(before, k, n) && Stored(before, after, k, Changed(before, k, Listed(n, rep)), true)
    ensures StillRunning(after, k, n) && StoredPackages(after, k, n) == rep.packages
  {
  }

  lemma NothingHandled(es: seq<Entry>)
    ensures Progress([], es) == PendingList(es)
  {
    assert PendingList(es) == Progress([], es);
  }

  /** One more record written before any package is handled. */
  lemma BeforeAny(trail: seq<(ImportKey, Import)>, from: nat, first: nat, k: ImportKey, es: seq<Entry>,
                  written: (ImportKey, Import))
    requires TrailShows(trail, from, first, k, [], es)
    requires written.0 == k && written.1.attempts != []
    requires Latest(written.1).report.packages == Progress([], es)
    ensures TrailShows(trail + [written], from, first + 1, k, [], es)
  {
    ghost var none: seq<Result> := [];
    assert none[..0] == none;
    forall j | from <= j < |trail| + 1 ensures ShowsHandled((trail + [written])[j], k, 0, [], es) {
      if j < |trail| {
        assert ShowsHandled(trail[j], k, 0, [], es);
      }
    }
  }

  /** The Checked call: the archive passed its checks. */
  method FinishChecks(store: Store, k: ImportKey, n: nat, es: seq<Entry>, ghost from: nat)
    requires OnTrack(ViewOf(store), store.trail, from, 1, k, n, [], es)
    modifies store
    ensures Kept(old(ViewOf(store)), ViewOf(store), k, n)
    ensures OnTrack(ViewOf(store), store.trail, from, 2, k, n, [], es)
  {
    var ok := store.Check(k, n);
    StoredOnlyAt(old(store.records), store.records, k, Checked(n), ok);
    if !store.faulted {
      BeforeAny(old(store.trail), from, 1, k, es, (k, store.records[k]));
    }
  }
}
