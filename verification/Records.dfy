/**
 The record of one import: a growing list of attempts, each with the report of
 its packages.  Every change the store makes to a record is a function from
 the record to either a refusal or the changed record, so that the store, the
 queue and the crash protocol share one definition of each change.

 Sources: internal/store/imports/imports.go, retry.go and sweep.go.
 */
module Records {
  import opened Wrappers

  datatype State = Pending | Published | Present | Failed

  datatype Kind = NoKind | KindConflict | KindNexus | KindSource | KindInterrupted | KindMismatch | KindLocal

  datatype Result = Result(name: string, version: string, file: string,
                           state: State, reason: string, note: string, kind: Kind)

  datatype Counts = Counts(published: nat, present: nat, failed: nat)

  datatype Outcome = NoOutcome | Complete | Incomplete | Refused | Interrupted

  /** The part of a report the protocol depends on. */
  datatype Report = Report(outcome: Outcome, reason: string, counts: Counts,
                           packages: seq<Result>, checked: Option<bool>)

  datatype Status = Queued | Running | Ended

  datatype Removal = Removal(removed: bool, reason: string)

  datatype Attempt = Attempt(n: nat, status: Status, outcome: Outcome, report: Report, removal: Option<Removal>)

  /** Where an object lies in its bucket and the ETag that a later read is compared with. */
  datatype Object = Object(key: string, etag: string)

  datatype Import = Import(archive: Object, manifest: Object, expectedSHA256: string, attempts: seq<Attempt>)

  /** What a change to a record gives: nothing is written when it is refused. */
  datatype Update = Rejected | Accepted(imp: Import)

  const NO_COUNTS := Counts(0, 0, 0)
  const EMPTY_REPORT := Report(NoOutcome, "", NO_COUNTS, [], None)

  // ---------------------------------------------------------------- counting

  function CountState(ps: seq<Result>, s: State): nat {
    if ps == [] then 0
    else CountState(ps[..|ps|-1], s) + if ps[|ps|-1].state == s then 1 else 0
  }

  function CountsOf(ps: seq<Result>): Counts {
    Counts(CountState(ps, Published), CountState(ps, Present), CountState(ps, Failed))
  }

  function Recounted(rep: Report): Report {
    rep.(counts := CountsOf(rep.packages))
  }

  /** The three totals of a list in one pass; Pending adds to none of them. */
  method Recount(ps: seq<Result>) returns (c: Counts)
    ensures c == CountsOf(ps)
  {
    c := NO_COUNTS;
    for i := 0 to |ps|
      invariant c == CountsOf(ps[..i])
    {
      assert ps[..i+1][..i] == ps[..i];
      match ps[i].state
      case Published => c := c.(published := c.published + 1);
      case Present => c := c.(present := c.present + 1);
      case Failed => c := c.(failed := c.failed + 1);
      case Pending =>
    }
    assert ps[..|ps|] == ps;
  }

  /** A package is in Nexus when it was published now or found there. */
  predicate IsIn(r: Result) {
    r.state == Published || r.state == Present
  }

  predicate NoPending(ps: seq<Result>) {
    forall i :: 0 <= i < |ps| ==> ps[i].state != Pending
  }

  predicate AllIn(ps: seq<Result>) {
    forall i :: 0 <= i < |ps| ==> IsIn(ps[i])
  }

  /** A report that needs no later change: nothing pending, and counts that match. */
  predicate Final(rep: Report) {
    NoPending(rep.packages) && rep.counts == CountsOf(rep.packages)
  }

  /** everyPackageIn: what a removal needs of a report. */
  predicate EveryPackageIn(rep: Report) {
    rep.outcome == Complete && rep.counts.failed == 0 && AllIn(rep.packages)
  }

  lemma {:induction false} CountsCover(ps: seq<Result>)
    requires NoPending(ps)
    ensures var c := CountsOf(ps); c.published + c.present + c.failed == |ps|
  {
    if ps != [] {
      CountsCover(ps[..|ps|-1]);
    }
  }

  lemma {:induction false} NoneFailedMeansAllIn(ps: seq<Result>)
    requires NoPending(ps)
    ensures CountState(ps, Failed) == 0 <==> AllIn(ps)
  {
    if ps != [] {
      var init := ps[..|ps|-1];
      NoneFailedMeansAllIn(init);
      if AllIn(ps) {
        assert forall i :: 0 <= i < |init| ==> init[i] == ps[i];
      }
    }
  }

  // ------------------------------------------------------------ the changes

  function NewImport(archive: Object, manifest: Object, sha: string): Import {
    Import(archive, manifest, sha, [Attempt(1, Queued, NoOutcome, EMPTY_REPORT, None)])
  }

  function Latest(imp: Import): Attempt
    requires imp.attempts != []
  {
    imp.attempts[|imp.attempts| - 1]
  }

  /** The record with its latest attempt replaced. */
  function WithLatest(imp: Import, a: Attempt): Import
    requires imp.attempts != []
  {
    imp.(attempts := imp.attempts[|imp.attempts| - 1 := a])
  }

  /** running(): the latest attempt must be number n and running. */
  predicate IsRunning(imp: Import, n: nat) {
    imp.attempts != [] && Latest(imp).n == n && Latest(imp).status == Running
  }

  function BeginImport(imp: Import): Update {
    if imp.attempts == [] || Latest(imp).status != Queued then Rejected
    else Accepted(WithLatest(imp, Latest(imp).(status := Running)))
  }

  function ListedImport(imp: Import, n: nat, rep: Report): Update {
    if !IsRunning(imp, n) then Rejected
    else Accepted(WithLatest(imp, Latest(imp).(report := Recounted(rep))))
  }

  function CheckedImport(imp: Import, n: nat): Update {
    if !IsRunning(imp, n) then Rejected
    else Accepted(WithLatest(imp, Latest(imp).(report := Latest(imp).report.(checked := Some(true)))))
  }

  function EndedImport(imp: Import, n: nat, i: int, r: Result): Update {
    if !IsRunning(imp, n) then Rejected
    else if !(0 <= i < |Latest(imp).report.packages|) then Rejected
    else
      var rep := Latest(imp).report;
      Accepted(WithLatest(imp, Latest(imp).(report := Recounted(rep.(packages := rep.packages[i := r])))))
  }

  function FinishImport(imp: Import, n: nat, rep: Report, rem: Option<Removal>): Update {
    if imp.attempts == [] || Latest(imp).n != n || Latest(imp).status == Ended then Rejected
    else Accepted(WithLatest(imp, Latest(imp).(status := Ended, outcome := rep.outcome, report := rep, removal := rem)))
  }

  /** The index of the first attempt numbered n, or the length when there is none. */
  function IndexOf(attempts: seq<Attempt>, n: nat): (i: nat)
    ensures i <= |attempts|
    ensures i < |attempts| ==> attempts[i].n == n
    ensures forall j :: 0 <= j < i ==> attempts[j].n != n
  {
    IndexWhere(attempts, (a: Attempt) => a.n == n)
  }

  function RemovedImport(imp: Import, n: nat, rem: Removal): Update {
    var i := IndexOf(imp.attempts, n);
    if i == |imp.attempts| then Rejected
    else if imp.attempts[i].status != Ended || imp.attempts[i].outcome != Complete then Rejected
    else if imp.attempts[i].removal.Some? then Rejected
    else Accepted(imp.(attempts := imp.attempts[i := imp.attempts[i].(removal := Some(rem))]))
  }

  function RetryImport(imp: Import): Update {
    if imp.attempts == [] || Latest(imp).status != Ended then Rejected
    else Accepted(imp.(attempts := imp.attempts + [Attempt(Latest(imp).n + 1, Queued, NoOutcome, EMPTY_REPORT, None)]))
  }

  /** A pending package becomes a failed one of kind interrupted; any other stays. */
  function FailOne(r: Result, reason: string): Result {
    if r.state == Pending then r.(state := Failed, reason := reason, kind := KindInterrupted) else r
  }

  function FailPending(ps: seq<Result>, reason: string): (qs: seq<Result>)
    ensures |qs| == |ps| && NoPending(qs)
    ensures forall i :: 0 <= i < |ps| ==> qs[i] == FailOne(ps[i], reason)
  {
    seq(|ps|, i requires 0 <= i < |ps| => FailOne(ps[i], reason))
  }

  /** endUnfinished(): the record when its latest attempt has not ended. */
  function EndUnfinished(imp: Import, outcome: Outcome, reason: string, pending: string): Import
    requires imp.attempts != []
  {
    var a := Latest(imp);
    if a.status == Ended then imp
    else
      var rep := a.report.(outcome := outcome, reason := reason, packages := FailPending(a.report.packages, pending));
      WithLatest(imp, a.(status := Ended, outcome := outcome, report := Recounted(rep), removal := None))
  }

  function AbandonImport(imp: Import, reason: string): Update {
    if imp.attempts == [] then Rejected else Accepted(EndUnfinished(imp, Interrupted, reason, "interrupted"))
  }

  function BreakImport(imp: Import, reason: string): Update {
    if imp.attempts == [] then Rejected else Accepted(EndUnfinished(imp, Incomplete, reason, "not reached"))
  }

  // -------------------------------------------------------------- the sweep

  function SweepReport(rep: Report, unfinished: bool): Report {
    var rep' := if unfinished && rep.outcome == NoOutcome
                then rep.(outcome := Incomplete, reason := "interrupted") else rep;
    Recounted(rep'.(packages := FailPending(rep.packages, "interrupted")))
  }

  function SweepAttempt(a: Attempt): Attempt {
    if a.status == Ended then a.(report := SweepReport(a.report, false))
    else a.(status := Ended, outcome := Interrupted, report := SweepReport(a.report, true))
  }

  predicate NeedsSweep(a: Attempt) {
    a.status != Ended || !NoPending(a.report.packages)
  }

  function CountUnfinished(attempts: seq<Attempt>): nat {
    if attempts == [] then 0
    else CountUnfinished(attempts[..|attempts|-1]) + if attempts[|attempts|-1].status != Ended then 1 else 0
  }

  function SweepAttempts(attempts: seq<Attempt>): (swept: seq<Attempt>)
    ensures |swept| == |attempts|
    ensures forall i :: 0 <= i < |attempts| ==> swept[i] == SweepAttempt(attempts[i])
  {
    seq(|attempts|, i requires 0 <= i < |attempts| => SweepAttempt(attempts[i]))
  }

  /** What the sweep leaves stored: a record it had nothing to change in is not rewritten. */
  function SweepImport(imp: Import): Import {
    if AnyNeedsSweep(imp.attempts) then imp.(attempts := SweepAttempts(imp.attempts)) else imp
  }

  /** The sweep's inner loop over one report's packages. */
  method SweepPackages(ps: seq<Result>, reason: string) returns (qs: seq<Result>, changed: bool)
    ensures qs == FailPending(ps, reason)
    ensures changed <==> !NoPending(ps)
  {
    qs, changed := ps, false;
    for j := 0 to |ps|
      invariant |qs| == |ps|
      invariant forall i :: 0 <= i < j ==> qs[i] == FailOne(ps[i], reason)
      invariant forall i :: j <= i < |ps| ==> qs[i] == ps[i]
      invariant changed <==> !NoPending(ps[..j])
    {
      if ps[j].state == Pending {
        qs := qs[j := ps[j].(state := Failed, reason := reason, kind := KindInterrupted)];
        changed := true;
        assert ps[..j+1][j].state == Pending;
      } else {
        assert forall i :: 0 <= i < j + 1 ==> ps[..j+1][i] == ps[i];
        assert forall i :: 0 <= i < j ==> ps[..j][i] == ps[i];
      }
    }
    assert ps[..|ps|] == ps;
  }

  /** The body of sweepOne's loop. */
  method SweepOneAttempt(was: Attempt) returns (a: Attempt, changed: bool)
    ensures a == SweepAttempt(was) && (changed <==> NeedsSweep(was))
  {
    a, changed := was, false;
    if a.status != Ended {
      a := a.(status := Ended, outcome := Interrupted);
      if a.report.outcome == NoOutcome {
        a := a.(report := a.report.(outcome := Incomplete, reason := "interrupted"));
      }
      changed := true;
    }
    var ps, failedAny := SweepPackages(a.report.packages, "interrupted");
    changed := changed || failedAny;
    var c := Recount(ps);
    a := a.(report := a.report.(packages := ps, counts := c));
  }

  predicate AnyNeedsSweep(attempts: seq<Attempt>) {
    exists i :: 0 <= i < |attempts| && NeedsSweep(attempts[i])
  }

  /** The first attempts swept, the others as they were. */
  predicate SweptUpTo(was: seq<Attempt>, now: seq<Attempt>, n: nat) {
    && |now| == |was| && n <= |was|
    && (forall j :: 0 <= j < n ==> now[j] == SweepAttempt(was[j]))
    && forall j :: n <= j < |was| ==> now[j] == was[j]
  }

  lemma OneMoreSwept(was: seq<Attempt>, now: seq<Attempt>, n: nat)
    requires n < |was| && SweptUpTo(was, now, n)
    ensures SweptUpTo(was, now[n := SweepAttempt(was[n])], n + 1)
  {
  }

  lemma OneMoreCounted(was: seq<Attempt>, n: nat)
    requires n < |was|
    ensures AnyNeedsSweep(was[..n+1]) <==> AnyNeedsSweep(was[..n]) || NeedsSweep(was[n])
    ensures CountUnfinished(was[..n+1]) == CountUnfinished(was[..n]) + if was[n].status != Ended then 1 else 0
  {
    assert was[..n+1][..n] == was[..n];
    assert was[..n+1] == was[..n] + [was[n]];
    AnyInEither(was[..n], was[n]);
  }

  lemma AnyInEither(attempts: seq<Attempt>, a: Attempt)
    ensures AnyNeedsSweep(attempts + [a]) <==> AnyNeedsSweep(attempts) || NeedsSweep(a)
  {
    var more := attempts + [a];
    assert more[|attempts|] == a;
    assert forall i :: 0 <= i < |attempts| ==> more[i] == attempts[i];
  }

  lemma AllSwept(was: seq<Attempt>, now: seq<Attempt>)
    requires SweptUpTo(was, now, |was|)
    ensures now == SweepAttempts(was)
  {
  }

  /** sweepOne's loop over the attempts of one record. */
  method SweepRecord(imp: Import) returns (swept: Import, marked: nat, changed: bool)
    ensures (if changed then swept else imp) == SweepImport(imp)
    ensures changed <==> AnyNeedsSweep(imp.attempts)
    ensures marked == CountUnfinished(imp.attempts)
  {
    swept, marked, changed := imp, 0, false;
    for i := 0 to |imp.attempts|
      invariant swept == imp.(attempts := swept.attempts) && SweptUpTo(imp.attempts, swept.attempts, i)
      invariant marked == CountUnfinished(imp.attempts[..i])
      invariant changed <==> AnyNeedsSweep(imp.attempts[..i])
    {
      OneMoreSwept(imp.attempts, swept.attempts, i);
      OneMoreCounted(imp.attempts, i);
      if swept.attempts[i].status != Ended {
        marked := marked + 1;
      }
      var a, changedHere := SweepOneAttempt(swept.attempts[i]);
      changed := changed || changedHere;
      swept := swept.(attempts := swept.attempts[i := a]);
    }
    assert imp.attempts[..|imp.attempts|] == imp.attempts;
    AllSwept(imp.attempts, swept.attempts);
  }

  /** endUnfinished's change, as the loop that fails the pending packages one by one. */
  method EndUnfinishedRecord(imp: Import, outcome: Outcome, reason: string, pending: string)
    returns (out: Import, ended: bool)
    requires imp.attempts != []
    ensures out == EndUnfinished(imp, outcome, reason, pending)
    ensures ended <==> Latest(imp).status != Ended
  {
    var a := Latest(imp);
    if a.status == Ended {
      return imp, false;
    }
    var ps, _ := SweepPackages(a.report.packages, pending);
    var c := Recount(ps);
    a := a.(status := Ended, outcome := outcome, removal := None,
            report := a.report.(outcome := outcome, reason := reason, packages := ps, counts := c));
    return WithLatest(imp, a), true;
  }

  // ------------------------------------------------------------- soundness

  /** What every stored attempt satisfies on its own. */
  predicate SoundAttempt(a: Attempt) {
    && (a.status == Queued ==> a.report == EMPTY_REPORT)
    && (a.status != Ended ==> a.outcome == NoOutcome && a.removal.None?)
    && (a.status == Running ==> a.report.counts == CountsOf(a.report.packages))
    && (a.status == Ended ==> a.outcome != NoOutcome && Final(a.report))
    && (a.status == Ended && a.outcome == Complete ==> EveryPackageIn(a.report))
    && (a.removal.Some? ==> a.status == Ended && a.outcome == Complete)
  }

  /** Attempts are numbered 1 to k and only the last may be unfinished. */
  predicate Sound(imp: Import) {
    && imp.attempts != []
    && (forall i :: 0 <= i < |imp.attempts| ==> imp.attempts[i].n == i + 1)
    && (forall i :: 0 <= i < |imp.attempts| ==> SoundAttempt(imp.attempts[i]))
    && (forall i :: 0 <= i < |imp.attempts| - 1 ==> imp.attempts[i].status == Ended)
  }

  function Rank(s: Status): nat {
    match s case Queued => 0 case Running => 1 case Ended => 2
  }

  /** a became b: an ended attempt is final, apart from the one removal a complete one may gain. */
  predicate AttemptEvolves(a: Attempt, b: Attempt) {
    && a.n == b.n
    && Rank(a.status) <= Rank(b.status)
    && (a.status == Ended ==>
          || b == a
          || (a.outcome == Complete && a.removal.None? && b.removal.Some? && b == a.(removal := b.removal)))
  }

  predicate Evolves(x: Import, y: Import) {
    && y.archive == x.archive && y.manifest == x.manifest && y.expectedSHA256 == x.expectedSHA256
    && |x.attempts| <= |y.attempts|
    && (forall i :: 0 <= i < |x.attempts| ==> AttemptEvolves(x.attempts[i], y.attempts[i]))
  }

  lemma EvolvesTransitive(x: Import, y: Import, z: Import)
    requires Evolves(x, y) && Evolves(y, z)
    ensures Evolves(x, z)
  {
    forall i | 0 <= i < |x.attempts| ensures AttemptEvolves(x.attempts[i], z.attempts[i]) {
      assert AttemptEvolves(x.attempts[i], y.attempts[i]) && AttemptEvolves(y.attempts[i], z.attempts[i]);
    }
  }

  /** Every change to a record, the crash-time sweep included. */
  datatype Change =
    | Begin
    | Listed(n: nat, rep: Report)
    | Checked(n: nat)
    | PackageEnded(n: nat, i: int, r: Result)
    | Finish(n: nat, rep: Report)
    | Removed(n: nat, rem: Removal)
    | Retry
    | Abandon(reason: string)
    | Break(reason: string)
    | Sweep

  function Apply(imp: Import, c: Change): Update {
    match c
    case Begin => BeginImport(imp)
    case Listed(n, rep) => ListedImport(imp, n, rep)
    case Checked(n) => CheckedImport(imp, n)
    case PackageEnded(n, i, r) => EndedImport(imp, n, i, r)
    case Finish(n, rep) => FinishImport(imp, n, rep, None)
    case Removed(n, rem) => RemovedImport(imp, n, rem)
    case Retry => RetryImport(imp)
    case Abandon(reason) => AbandonImport(imp, reason)
    case Break(reason) => BreakImport(imp, reason)
    case Sweep => Accepted(SweepImport(imp))
  }

  /** What the queue gives Finish: the final report of a run (see Attempts.RunAttempt). */
  predicate Allowed(c: Change) {
    c.Finish? ==> Final(c.rep) && c.rep.outcome != NoOutcome && (c.rep.outcome == Complete ==> EveryPackageIn(c.rep))
  }

  lemma SweepKeepsFinal(rep: Report)
    requires Final(rep)
    ensures SweepReport(rep, false) == rep
  {
    assert FailPending(rep.packages, "interrupted") == rep.packages;
  }

  lemma SweepSound(imp: Import)
    requires Sound(imp)
    ensures Sound(SweepImport(imp)) && Evolves(imp, SweepImport(imp))
  {
    var out := SweepImport(imp);
    forall i | 0 <= i < |imp.attempts|
      ensures SoundAttempt(out.attempts[i]) && AttemptEvolves(imp.attempts[i], out.attempts[i])
    {
      if imp.attempts[i].status == Ended {
        SweepKeepsFinal(imp.attempts[i].report);
      }
    }
  }

  /** Replacing the latest attempt of a sound record by a sound later state of it. */
  lemma WithLatestSound(imp: Import, a: Attempt)
    requires Sound(imp) && SoundAttempt(a) && AttemptEvolves(Latest(imp), a)
    ensures Sound(WithLatest(imp, a)) && Evolves(imp, WithLatest(imp, a))
  {
  }

  lemma EndUnfinishedSound(imp: Import, outcome: Outcome, reason: string, pending: string)
    requires Sound(imp) && outcome != NoOutcome && outcome != Complete
    ensures var out := EndUnfinished(imp, outcome, reason, pending); Sound(out) && Evolves(imp, out)
  {
    var out := EndUnfinished(imp, outcome, reason, pending);
    if Latest(imp).status != Ended {
      WithLatestSound(imp, Latest(out));
    }
  }

  lemma RetrySound(imp: Import)
    requires Sound(imp) && RetryImport(imp).Accepted?
    ensures var out := RetryImport(imp).imp; Sound(out) && Evolves(imp, out)
  {
    var out := RetryImport(imp).imp;
    assert forall i :: 0 <= i < |imp.attempts| ==> out.attempts[i] == imp.attempts[i];
  }

  lemma RemovedSound(imp: Import, n: nat, rem: Removal)
    requires Sound(imp) && RemovedImport(imp, n, rem).Accepted?
    ensures var out := RemovedImport(imp, n, rem).imp; Sound(out) && Evolves(imp, out)
  {
    var k := IndexOf(imp.attempts, n);
    var out := RemovedImport(imp, n, rem).imp;
    assert forall i :: 0 <= i < |imp.attempts| && i != k ==> out.attempts[i] == imp.attempts[i];
    assert SoundAttempt(imp.attempts[k]);
  }

  lemma ChangeSound(imp: Import, c: Change)
    requires Sound(imp) && Allowed(c) && Apply(imp, c).Accepted?
    ensures Sound(Apply(imp, c).imp) && Evolves(imp, Apply(imp, c).imp)
  {
    match c
    case Retry => RetrySound(imp);
    case Removed(n, rem) => RemovedSound(imp, n, rem);
    case Abandon(reason) => EndUnfinishedSound(imp, Interrupted, reason, "interrupted");
    case Break(reason) => EndUnfinishedSound(imp, Incomplete, reason, "not reached");
    case Sweep => SweepSound(imp);
    case _ =>
      var a := Latest(Apply(imp, c).imp);
      assert SoundAttempt(Latest(imp));
      WithLatestSound(imp, a);
  }

  /** A record after a series of changes; a refused one writes nothing. */
  function ApplyAll(imp: Import, cs: seq<Change>): Import {
    if cs == [] then imp
    else
      var before := ApplyAll(imp, cs[..|cs|-1]);
      match Apply(before, cs[|cs|-1])
      case Rejected => before
      case Accepted(after) => after
  }

  /**
   Over any series of record operations and sweeps: attempts stay numbered
   1 to k, only the last can be unfinished, and every ended attempt of an
   earlier moment is still there, unchanged but for one gained removal.
   */
  lemma {:induction false} HistoryIsSafe(imp: Import, cs: seq<Change>, from: nat)
    requires Sound(imp) && from <= |cs|
    requires forall i :: 0 <= i < |cs| ==> Allowed(cs[i])
    ensures Sound(ApplyAll(imp, cs)) && Sound(ApplyAll(imp, cs[..from]))
    ensures Evolves(ApplyAll(imp, cs[..from]), ApplyAll(imp, cs))
    decreases |cs|
  {
    if from == |cs| {
      assert cs[..from] == cs;
      if cs != [] {
        HistoryIsSafe(imp, cs[..|cs|-1], |cs| - 1);
        var before := ApplyAll(imp, cs[..|cs|-1]);
        if Apply(before, cs[|cs|-1]).Accepted? {
          ChangeSound(before, cs[|cs|-1]);
        }
      }
    } else {
      var init := cs[..|cs|-1];
      assert init[..from] == cs[..from];
      HistoryIsSafe(imp, init, from);
      var before := ApplyAll(imp, init);
      if Apply(before, cs[|cs|-1]).Accepted? {
        ChangeSound(before, cs[|cs|-1]);
        EvolvesTransitive(ApplyAll(imp, cs[..from]), before, ApplyAll(imp, cs));
      }
    }
  }

  /** A package that was pending failed as interrupted; any other is as it was. */
  predicate OnlyPendingFailed(was: seq<Result>, now: seq<Result>, reason: string) {
    && |now| == |was|
    && forall i :: 0 <= i < |was| ==>
         if was[i].state == Pending
         then now[i].state == Failed && now[i].kind == KindInterrupted && now[i].reason == reason
              && now[i].name == was[i].name && now[i].version == was[i].version && now[i].file == was[i].file
         else now[i] == was[i]
  }

  /**
   What the sweep makes of each attempt: an ended one stays ended as it did; any
   other is ended as interrupted, its report incomplete for that reason unless it
   had an outcome.  In both, packages still pending fail as interrupted.
   */
  lemma SweepSpelledOut(imp: Import, i: nat)
    requires i < |imp.attempts| && (imp.attempts[i].status == Ended ==> Final(imp.attempts[i].report))
    ensures |SweepImport(imp).attempts| == |imp.attempts|
    ensures var (was, now) := (imp.attempts[i], SweepImport(imp).attempts[i]);
      && now.n == was.n && now.removal == was.removal && now.status == Ended
      && OnlyPendingFailed(was.report.packages, now.report.packages, "interrupted")
      && now.report.counts == CountsOf(now.report.packages)
      && (was.status == Ended ==> now == was)
      && (was.status != Ended ==>
            && now.outcome == Interrupted
            && (was.report.outcome == NoOutcome ==>
                  now.report.outcome == Incomplete && now.report.reason == "interrupted")
            && (was.report.outcome != NoOutcome ==>
                  now.report.outcome == was.report.outcome && now.report.reason == was.report.reason))
  {
    if imp.attempts[i].status == Ended {
      SweepKeepsFinal(imp.attempts[i].report);
    } else {
      assert NeedsSweep(imp.attempts[i]);
    }
  }

  /** The end of an attempt that did not finish: abandoned as interrupted, or broken off as incomplete. */
  lemma EndingSpelledOut(imp: Import, c: Change)
    requires imp.attempts != [] && (c.Abandon? || c.Break?)
    ensures Apply(imp, c).Accepted?
    ensures var (was, now) := (Latest(imp), Latest(Apply(imp, c).imp));
      if was.status == Ended then Apply(imp, c).imp == imp
      else
        && now.status == Ended && now.n == was.n && now.removal == None
        && now.outcome == (if c.Abandon? then Interrupted else Incomplete)
        && now.report.outcome == now.outcome && now.report.reason == c.reason
        && OnlyPendingFailed(was.report.packages, now.report.packages,
                             if c.Abandon? then "interrupted" else "not reached")
        && now.report.counts == CountsOf(now.report.packages)
        && Apply(imp, c).imp.attempts[..|imp.attempts|-1] == imp.attempts[..|imp.attempts|-1]
  {
  }

  /** A retry starts from nothing, numbered one further, behind attempts that stay. */
  lemma RetrySpelledOut(imp: Import)
    ensures RetryImport(imp).Accepted? <==> imp.attempts != [] && Latest(imp).status == Ended
    ensures RetryImport(imp).Accepted? ==>
      RetryImport(imp).imp.attempts == imp.attempts +
        [Attempt(Latest(imp).n + 1, Queued, NoOutcome, Report(NoOutcome, "", Counts(0, 0, 0), [], None), None)]
  {
  }

  /** A sweep leaves nothing unfinished and nothing pending, on any record at all, and a second one changes nothing. */
  lemma SweepSettles(imp: Import)
    ensures var out := SweepImport(imp);
      && (forall i :: 0 <= i < |out.attempts| ==>
          out.attempts[i].status == Ended && NoPending(out.attempts[i].report.packages))
      && SweepImport(out) == out
      && CountUnfinished(out.attempts) == 0
  {
    var out := SweepImport(imp);
    assert forall i :: 0 <= i < |out.attempts| ==> !NeedsSweep(out.attempts[i]);
    NoneUnfinished(out.attempts);
  }

  lemma {:induction false} NoneUnfinished(attempts: seq<Attempt>)
    requires forall i :: 0 <= i < |attempts| ==> attempts[i].status == Ended
    ensures CountUnfinished(attempts) == 0
  {
    if attempts != [] {
      NoneUnfinished(attempts[..|attempts|-1]);
    }
  }

  /** On a sound record the sweep marks at most one attempt, the last. */
  lemma SweepMarksAtMostOne(imp: Import)
    requires Sound(imp)
    ensures CountUnfinished(imp.attempts) == if Latest(imp).status == Ended then 0 else 1
  {
    NoneUnfinished(imp.attempts[..|imp.attempts|-1]);
  }
}
