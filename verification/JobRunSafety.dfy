/**
 What every step of the job queue keeps, whatever the handlers, the worker, the
 cancelling goroutines and the readers do in between.
 */
module JobRunSafety {
  import opened Wrappers
  import opened EventStream
  import opened EventFeed
  import opened JobQueue
  import opened JobRuns

  // ------------------------------------------------------- where a job is

  predicate IsWaiting(s: Jobs, id: nat) {
    Position(s.q.pending, id) < |s.q.pending|
  }

  predicate IsCurrent(s: Jobs, id: nat) {
    s.q.current.Some? && s.q.current.value.id == id
  }

  predicate IsAnnounced(trail: seq<Deed>, id: nat) {
    || Announced(id, Done) in trail
    || Announced(id, Failed) in trail
    || Announced(id, Cancelled) in trail
  }

  function One(b: bool): nat {
    if b then 1 else 0
  }

  /** In how many of the five places a job is. */
  function Places(s: Jobs, id: nat): nat {
    One(IsWaiting(s, id)) + One(id in s.cancels) + One(IsCurrent(s, id))
    + One(IsAnnounced(s.trail, id)) + One(id in s.dropped)
  }

  predicate WorkerMatches(s: Jobs) {
    match s.worker
    case Idle => s.q.current == None
    case Running(job, _) => s.q.current == Some(job)
    case Ending(f) => s.q.current == Some(f.job)
    case Stopped => s.q.current == None && s.q.closed
  }

  predicate Ascending(pending: seq<Job>) {
    forall i, j :: 0 <= i < j < |pending| ==> pending[i].id < pending[j].id
  }

  /** Every submitted job is in exactly one place, and no other id is in any. */
  ghost predicate Placed(s: Jobs) {
    && WorkerMatches(s)
    && Ascending(s.q.pending)
    && (forall id :: id in s.cancels ==> s.cancels[id].job.id == id && s.cancels[id].state == Cancelled)
    && (forall id :: id in s.dropped ==> s.dropped[id].id == id)
    && (s.q.closed ==> s.q.pending == [])
    && (!s.q.closed ==> s.dropped == map[])
    && forall id: nat :: Places(s, id) == One(1 <= id <= s.q.nextId)
  }

  lemma AnnouncedAfter(trail: seq<Deed>, d: Deed, id: nat)
    ensures IsAnnounced(trail + [d], id) == (IsAnnounced(trail, id) || (d.Announced? && d.id == id))
  {
    if d.Announced? && d.id == id {
      assert d in trail + [d];
      match d.state
      case Done => assert Announced(id, Done) in trail + [d];
      case Failed => assert Announced(id, Failed) in trail + [d];
      case Cancelled => assert Announced(id, Cancelled) in trail + [d];
    }
  }

  lemma FoundAt(pending: seq<Job>, i: nat)
    requires Ascending(pending) && i < |pending|
    ensures Position(pending, pending[i].id) == i
  {
    assert forall j :: 0 <= j < i ==> pending[j].id < pending[i].id;
  }

  lemma {:induction false} DroppedIds(pending: seq<Job>)
    requires Ascending(pending)
    ensures forall id :: id in IdsOf(pending) <==> Position(pending, id) < |pending|
    ensures forall id :: id in IdsOf(pending) ==> IdsOf(pending)[id] == pending[Position(pending, id)]
  {
    if pending != [] {
      DroppedIds(pending[1..]);
    }
  }

  lemma SubmitPlaces(s: Jobs, key: JobKey, id: nat)
    requires Ascending(s.q.pending) && !s.q.closed && Places(s, s.q.nextId + 1) == 0
    ensures Places(SubmitNext(s, key), id) == Places(s, id) + One(id == s.q.nextId + 1)
  {
    SubmitPosition(s.q.pending, NewJob(s.q, key), id);
  }

  lemma SubmitPlaced(s: Jobs, key: JobKey)
    requires Placed(s) && HandlerEnabled(s, Submit(key))
    ensures Placed(SubmitNext(s, key))
  {
    var s' := SubmitNext(s, key);
    if !s.q.closed {
      var newest := s.q.nextId + 1;
      assert Places(s, newest) == 0;
      forall i | 0 <= i < |s.q.pending| ensures s.q.pending[i].id < newest {
        FoundAt(s.q.pending, i);
        assert Places(s, s.q.pending[i].id) > 0;
      }
      forall id: nat ensures Places(s', id) == One(1 <= id <= s'.q.nextId) {
        assert Places(s, id) == One(1 <= id <= s.q.nextId);
        SubmitPlaces(s, key, id);
      }
    } else {
      SamePlaces(s, s');
    }
  }

  lemma SubmitPosition(pending: seq<Job>, j: Job, id: nat)
    ensures Position(pending + [j], id) < |pending| + 1 <==> Position(pending, id) < |pending| || j.id == id
  {
    var longer := pending + [j];
    assert forall i :: 0 <= i < |pending| ==> longer[i] == pending[i];
    assert longer[|pending|] == j;
    if Position(longer, id) < |longer| && Position(longer, id) < |pending| {
      assert pending[Position(longer, id)].id == id;
    }
  }

  lemma CancelPlaces(s: Jobs, id: nat, k: nat)
    requires Ascending(s.q.pending) && CancelOf(s.q, id).Removed? && Places(s, id) <= 1
    ensures Places(CancelNext(s, id), k) == Places(s, k)
  {
    var s' := CancelNext(s, id);
    RemovePosition(s.q.pending, Position(s.q.pending, id), k);
    assert IsWaiting(s, id) && id !in s.cancels;
    MovedOnce(IsWaiting(s, k), k in s.cancels, IsWaiting(s', k), k in s'.cancels, k == id);
    assert IsCurrent(s', k) == IsCurrent(s, k) && s'.trail == s.trail && s'.dropped == s.dropped;
  }

  lemma PopPosition(pending: seq<Job>, k: nat)
    requires Ascending(pending) && pending != []
    ensures Position(pending[1..], k) < |pending| - 1 <==> Position(pending, k) < |pending| && k != pending[0].id
  {
    var tail := pending[1..];
    assert forall i :: 0 <= i < |tail| ==> tail[i] == pending[i+1] && pending[0].id < tail[i].id;
  }

  /** The first waiting job has become the current one. */
  predicate PoppedTo(s: Jobs, s': Jobs)
    requires s.q.pending != []
  {
    && s'.q.pending == s.q.pending[1..] && s'.q.current == Some(s.q.pending[0])
    && s'.cancels == s.cancels && s'.dropped == s.dropped && s'.trail == s.trail + [Started(s.q.pending[0].id)]
  }

  lemma PopPlaces(s: Jobs, s': Jobs, k: nat)
    requires Ascending(s.q.pending) && s.q.pending != [] && s.q.current == None && PoppedTo(s, s')
    ensures Places(s', k) == Places(s, k)
  {
    var first := s.q.pending[0];
    AnnouncedAfter(s.trail, Started(first.id), k);
    PopPosition(s.q.pending, k);
    MovedOnce(IsWaiting(s, k), IsCurrent(s, k), IsWaiting(s', k), IsCurrent(s', k), k == first.id);
  }

  /** A move from one place to another changes no count. */
  lemma MovedOnce(from: bool, to: bool, from': bool, to': bool, moved: bool)
    requires from' == (from && !moved) && to' == (to || moved) && (moved ==> from && !to)
    ensures One(from) + One(to) == One(from') + One(to')
  {
  }

  /** A cancelled job leaves the queue for the cancels. */
  lemma RemovedPlaced(s: Jobs, id: nat)
    requires Placed(s) && CancelOf(s.q, id).Removed?
    ensures Placed(CancelNext(s, id))
  {
    var s' := CancelNext(s, id);
    assert Places(s, id) <= 1;
    RemovePosition(s.q.pending, Position(s.q.pending, id), id);
    assert Ascending(s'.q.pending) && s'.cancels[id].job.id == id;
    assert s' == s.(q := s'.q, cancels := s'.cancels) && s'.q == s.q.(pending := s'.q.pending);
    assert s'.cancels == s.cancels[id := s'.cancels[id]];
    forall k: nat ensures Places(s', k) == One(1 <= k <= s.q.nextId) {
      CancelPlaces(s, id, k);
      assert Places(s, k) == One(1 <= k <= s.q.nextId);
    }
  }

  lemma CancelPlaced(s: Jobs, id: nat)
    requires Placed(s)
    ensures Placed(CancelNext(s, id))
  {
    if CancelOf(s.q, id).Removed? {
      RemovedPlaced(s, id);
    } else {
      SamePlaces(s, CancelNext(s, id));
    }
  }

  lemma RemovePosition(pending: seq<Job>, at: nat, id: nat)
    requires Ascending(pending) && at < |pending|
    ensures var rest := pending[..at] + pending[at+1..];
      Ascending(rest) && (Position(rest, id) < |rest| <==> Position(pending, id) < |pending| && id != pending[at].id)
  {
    var rest := pending[..at] + pending[at+1..];
    var p, r := Position(pending, id), Position(rest, id);
    assert forall i :: 0 <= i < |rest| ==> rest[i] == if i < at then pending[i] else pending[i+1];
    if p < |pending| && p != at {
      assert rest[if p < at then p else p - 1].id == id;
    }
    if r < |rest| {
      assert pending[if r < at then r else r + 1].id == id;
    }
  }

  lemma ClosePlaced(s: Jobs)
    requires Placed(s)
    ensures Placed(CloseNext(s))
  {
    var s' := CloseNext(s);
    DroppedIds(s.q.pending);
    forall k: nat ensures Places(s', k) == One(1 <= k <= s'.q.nextId) {
      assert Places(s, k) == One(1 <= k <= s.q.nextId);
    }
  }

  lemma PopPlaced(s: Jobs)
    requires Placed(s) && WorkerEnabled(s, Pop)
    ensures Placed(WorkerNext(s, Pop))
  {
    var s' := WorkerNext(s, Pop);
    RemovePosition(s.q.pending, 0, 0);
    assert s.q.pending[..0] + s.q.pending[1..] == s'.q.pending;
    forall k: nat ensures Places(s', k) == One(1 <= k <= s'.q.nextId) {
      assert Places(s, k) == One(1 <= k <= s.q.nextId);
      PopPlaces(s, s', k);
    }
  }

  /** Steps that leave every place as it is. */
  lemma SamePlaces(s: Jobs, s': Jobs)
    requires Placed(s) && WorkerMatches(s')
    requires s'.q.pending == s.q.pending && s'.q.current == s.q.current && s'.q.nextId == s.q.nextId
    requires s'.q.closed == s.q.closed && s'.dropped == s.dropped
    requires s'.cancels.Keys == s.cancels.Keys
    requires forall id :: id in s'.cancels ==>
      s'.cancels[id].job == s.cancels[id].job && s'.cancels[id].state == s.cancels[id].state
    requires forall id :: IsAnnounced(s'.trail, id) == IsAnnounced(s.trail, id)
    ensures Placed(s')
  {
    forall k: nat ensures Places(s', k) == One(1 <= k <= s'.q.nextId) {
      assert Places(s, k) == One(1 <= k <= s.q.nextId);
    }
  }

  lemma AnnouncePlaced(s: Jobs, who: Option<nat>, gaps: set<nat>)
    requires Placed(s) && FinishEnabled(s, who, Announce(gaps))
    ensures Placed(AnnounceNext(s, who, gaps))
  {
    var s' := AnnounceNext(s, who, gaps);
    var f := FinishingOf(s, who).value;
    forall k: nat ensures Places(s', k) == One(1 <= k <= s'.q.nextId) {
      assert Places(s, k) == One(1 <= k <= s.q.nextId);
      AnnouncedAfter(s.trail, Announced(f.job.id, f.state), k);
    }
  }

  lemma SettlePlaced(s: Jobs, who: Option<nat>, works: bool)
    requires Placed(s) && FinishEnabled(s, who, Settle(works))
    ensures Placed(SettleNext(s, who, works))
  {
    var f := FinishingOf(s, who).value;
    forall id ensures IsAnnounced(s.trail + [Settled(f.job.id, f.state)], id) == IsAnnounced(s.trail, id) {
      AnnouncedAfter(s.trail, Settled(f.job.id, f.state), id);
    }
    SamePlaces(s, SettleNext(s, who, works));
  }

  lemma HandlerPlaced(s: Jobs, h: HandlerStep)
    requires Placed(s) && HandlerEnabled(s, h)
    ensures Placed(HandlerNext(s, h))
  {
    match h
    case Submit(key) => SubmitPlaced(s, key);
    case Cancel(id) => CancelPlaced(s, id);
    case Close => ClosePlaced(s);
    case _ => SamePlaces(s, HandlerNext(s, h));
  }

  lemma WorkerPlaced(s: Jobs, w: WorkerStep)
    requires Placed(s) && WorkerEnabled(s, w)
    ensures Placed(WorkerNext(s, w))
  {
    if w.Pop? {
      PopPlaced(s);
    } else {
      SamePlaces(s, WorkerNext(s, w));
    }
  }

  lemma FinishPlaced(s: Jobs, who: Option<nat>, f: FinishStep)
    requires Placed(s) && FinishEnabled(s, who, f)
    ensures Placed(FinishNext(s, who, f))
  {
    match f
    case Announce(gaps) => AnnouncePlaced(s, who, gaps);
    case Settle(works) => SettlePlaced(s, who, works);
    case LookUp => LookUpPlaced(s, who);
    case Drop => DropPlaced(s, who);
  }

  lemma LookUpPlaced(s: Jobs, who: Option<nat>)
    requires Placed(s) && FinishEnabled(s, who, LookUp)
    ensures Placed(LookUpNext(s, who))
  {
    SamePlaces(s, LookUpNext(s, who));
  }

  lemma DropPlaced(s: Jobs, who: Option<nat>)
    requires Placed(s) && FinishEnabled(s, who, Drop)
    ensures Placed(DropNext(s, who))
  {
    SamePlaces(s, DropNext(s, who));
  }

  lemma PlacedStep(s: Jobs, step: Step)
    requires Placed(s) && Enabled(s, step)
    ensures Placed(Next(s, step))
  {
    match step
    case Handler(h) => HandlerPlaced(s, h);
    case Work(w) => WorkerPlaced(s, w);
    case Finish(who, f) => FinishPlaced(s, who, f);
    case Reader(r) => SamePlaces(s, ReaderNext(s, r));
  }

  // ----------------------------------------------- jobs not yet let go of

  predicate Early(mark: Mark) {
    mark.ToLookUp? || mark.ToSettle?
  }

  /** A submitted job whose directory no finalizer has dealt with. */
  predicate Unsettled(s: Jobs, j: Job) {
    || j in s.q.pending
    || (j.id in s.dropped && s.dropped[j.id] == j)
    || (s.worker.Running? && s.worker.job == j)
    || (s.worker.Ending? && s.worker.f.job == j && Early(s.worker.f.mark))
    || (j.id in s.cancels && s.cancels[j.id].job == j && Early(s.cancels[j.id].mark))
  }

  /** A job in any place but the announced. */
  predicate JobAt(s: Jobs, j: Job) {
    || j in s.q.pending
    || (j.id in s.dropped && s.dropped[j.id] == j)
    || s.q.current == Some(j)
    || (j.id in s.cancels && s.cancels[j.id].job == j)
  }

  predicate IsNew(s: Jobs, step: Step, j: Job) {
    step.Handler? && step.h.Submit? && !s.q.closed && j == NewJob(s.q, step.h.key)
  }

  lemma WaitingAt(s: Jobs, j: Job)
    requires j in s.q.pending
    ensures IsWaiting(s, j.id)
  {
    var i :| 0 <= i < |s.q.pending| && s.q.pending[i] == j;
  }

  lemma UnsettledIsAt(s: Jobs, j: Job)
    requires Placed(s) && Unsettled(s, j)
    ensures JobAt(s, j)
  {
  }

  lemma JobIsPlaced(s: Jobs, j: Job)
    requires Placed(s) && JobAt(s, j)
    ensures 1 <= j.id <= s.q.nextId && !IsAnnounced(s.trail, j.id)
  {
    if j in s.q.pending {
      WaitingAt(s, j);
    }
    assert Places(s, j.id) == One(1 <= j.id <= s.q.nextId);
  }

  lemma WaitingIsAlone(s: Jobs, j: Job)
    requires Placed(s) && j in s.q.pending
    ensures j.id !in s.cancels && j.id !in s.dropped && !IsCurrent(s, j.id)
  {
    WaitingAt(s, j);
    assert Places(s, j.id) == One(1 <= j.id <= s.q.nextId);
  }

  lemma SubmitJobs(s: Jobs, key: JobKey, j: Job)
    requires HandlerEnabled(s, Submit(key))
    ensures Unsettled(SubmitNext(s, key), j) ==> Unsettled(s, j) || IsNew(s, Handler(Submit(key)), j)
    ensures JobAt(SubmitNext(s, key), j) ==> JobAt(s, j) || IsNew(s, Handler(Submit(key)), j)
  {
  }

  lemma CancelJobs(s: Jobs, id: nat, j: Job)
    ensures Unsettled(CancelNext(s, id), j) ==> Unsettled(s, j)
    ensures JobAt(CancelNext(s, id), j) ==> JobAt(s, j)
  {
    if CancelOf(s.q, id).Removed? {
      var (pending, i) := (s.q.pending, Position(s.q.pending, id));
      assert forall x :: x in pending[..i] + pending[i+1..] ==> x in pending;
      assert pending[i] in pending;
    }
  }

  /** Nothing but a submission adds a job. */
  lemma HandlerJobs(s: Jobs, h: HandlerStep, j: Job)
    requires Placed(s) && HandlerEnabled(s, h)
    ensures Unsettled(HandlerNext(s, h), j) ==> Unsettled(s, j) || IsNew(s, Handler(h), j)
    ensures JobAt(HandlerNext(s, h), j) ==> JobAt(s, j) || IsNew(s, Handler(h), j)
  {
    match h
    case Submit(key) => SubmitJobs(s, key, j);
    case Cancel(id) => CancelJobs(s, id, j);
    case Close => DroppedIds(s.q.pending);
    case _ =>
  }

  lemma WorkerJobs(s: Jobs, w: WorkerStep, j: Job)
    requires Placed(s) && WorkerEnabled(s, w)
    ensures Unsettled(WorkerNext(s, w), j) ==> Unsettled(s, j)
    ensures JobAt(WorkerNext(s, w), j) ==> JobAt(s, j)
  {
  }

  /** A job is finalized from one place only. */
  lemma FinisherIsAlone(s: Jobs, who: Option<nat>)
    requires Placed(s) && FinishingOf(s, who).Some?
    ensures var id := FinishingOf(s, who).value.job.id;
      && (forall j :: j in s.q.pending ==> j.id != id) && id !in s.dropped
      && (who.Some? ==> who.value == id && !IsCurrent(s, id))
      && (who.None? ==> id !in s.cancels && IsCurrent(s, id))
  {
    var id := FinishingOf(s, who).value.job.id;
    assert Places(s, id) == One(1 <= id <= s.q.nextId);
    forall j | j in s.q.pending ensures j.id != id {
      if j.id == id {
        WaitingAt(s, j);
      }
    }
  }

  /** What a finalizing step can change: its own mark, or that the job is gone from its place. */
  predicate Advances(s: Jobs, s': Jobs, who: Option<nat>)
    requires FinishingOf(s, who).Some?
  {
    && s'.q.pending == s.q.pending && s'.dropped == s.dropped
    && match who
       case None =>
         && s'.cancels == s.cancels
         && (s'.worker == Idle || (s'.worker.Ending? && s'.worker.f.job == s.worker.f.job))
         && (s'.q.current == None || s'.q.current == s.q.current)
       case Some(id) =>
         && s'.worker == s.worker && s'.q.current == s.q.current
         && (s'.cancels == s.cancels - {id}
             || (id in s'.cancels && s'.cancels == s.cancels[id := s'.cancels[id]]
                 && s'.cancels[id].job == s.cancels[id].job))
  }

  lemma FinishAdvances(s: Jobs, who: Option<nat>, f: FinishStep)
    requires Placed(s) && FinishEnabled(s, who, f)
    ensures Advances(s, FinishNext(s, who, f), who)
  {
  }

  predicate StillEarly(s: Jobs, who: Option<nat>) {
    FinishingOf(s, who).Some? && Early(FinishingOf(s, who).value.mark)
  }

  lemma AdvanceJobs(s: Jobs, s': Jobs, who: Option<nat>, j: Job)
    requires Placed(s) && FinishingOf(s, who).Some? && Advances(s, s', who)
    requires StillEarly(s', who) ==> StillEarly(s, who)
    ensures Unsettled(s', j) ==> Unsettled(s, j)
    ensures JobAt(s', j) ==> JobAt(s, j)
    ensures Unsettled(s', j) && !StillEarly(s', who) ==> j.id != FinishingOf(s, who).value.job.id
  {
    FinisherIsAlone(s, who);
  }

  /** After its directory step a job is unsettled no more, nor once nothing was found to settle. */
  lemma FinishJobs(s: Jobs, who: Option<nat>, f: FinishStep, j: Job)
    requires Placed(s) && FinishEnabled(s, who, f)
    ensures Unsettled(FinishNext(s, who, f), j) ==> Unsettled(s, j)
    ensures JobAt(FinishNext(s, who, f), j) ==> JobAt(s, j)
    ensures var x := FinishingOf(s, who).value;
      Unsettled(FinishNext(s, who, f), j) && (!f.LookUp? || Found(s.x, x.job.id) == None) ==> j.id != x.job.id
  {
    FinishAdvances(s, who, f);
    AdvanceJobs(s, FinishNext(s, who, f), who, j);
  }
}
