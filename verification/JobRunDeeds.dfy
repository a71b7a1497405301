/**
 What happened to each job, in what order, and what the indexes and the
 directories say about it meanwhile.
 */
module JobRunDeeds {
  import opened Wrappers
  import opened EventStream
  import opened EventFeed
  import opened JobQueue
  import opened JobRuns
  import opened JobRunSafety

  // -------------------------------------------------------------- the trail

  predicate IsSettled(trail: seq<Deed>, id: nat) {
    || Settled(id, Done) in trail
    || Settled(id, Failed) in trail
    || Settled(id, Cancelled) in trail
  }

  predicate SameDeed(a: Deed, b: Deed) {
    a.id == b.id && a.Started? == b.Started? && a.Settled? == b.Settled?
  }

  /** No job starts, is finalized or is announced twice. */
  predicate Once(trail: seq<Deed>) {
    forall i, j :: 0 <= i < j < |trail| ==> !SameDeed(trail[i], trail[j])
  }

  predicate StartsInOrder(trail: seq<Deed>) {
    forall i, j :: 0 <= i < j < |trail| && trail[i].Started? && trail[j].Started? ==> trail[i].id < trail[j].id
  }

  /** Each end event comes after the job's finalizer, with the same state. */
  predicate AnnouncedLast(trail: seq<Deed>) {
    forall j :: 0 <= j < |trail| && trail[j].Announced? ==> Settled(trail[j].id, trail[j].state) in trail[..j]
  }

  /** Whatever has started is older than whatever still waits. */
  predicate StartsFirst(s: Jobs) {
    forall i, j :: 0 <= i < |s.trail| && s.trail[i].Started? && 0 <= j < |s.q.pending| ==>
      s.trail[i].id < s.q.pending[j].id
  }

  predicate DeedsKnown(s: Jobs) {
    forall i :: 0 <= i < |s.trail| ==> s.trail[i].id <= s.q.nextId
  }

  ghost predicate DeedsTrue(s: Jobs) {
    && Once(s.trail) && StartsInOrder(s.trail) && StartsFirst(s) && DeedsKnown(s)
    && forall j :: Unsettled(s, j) ==> !IsSettled(s.trail, j.id)
  }

  lemma SettledAfter(trail: seq<Deed>, d: Deed, id: nat)
    ensures IsSettled(trail + [d], id) == (IsSettled(trail, id) || (d.Settled? && d.id == id))
  {
    if d.Settled? && d.id == id {
      assert d in trail + [d];
      match d.state
      case Done => assert Settled(id, Done) in trail + [d];
      case Failed => assert Settled(id, Failed) in trail + [d];
      case Cancelled => assert Settled(id, Cancelled) in trail + [d];
    }
  }

  lemma DeedIsNew(trail: seq<Deed>, d: Deed)
    requires d.Started? ==> forall i :: 0 <= i < |trail| && trail[i].Started? ==> trail[i].id < d.id
    requires d.Settled? ==> !IsSettled(trail, d.id)
    requires d.Announced? ==> !IsAnnounced(trail, d.id)
    requires Once(trail)
    ensures Once(trail + [d])
  {
    forall i | 0 <= i < |trail| ensures !SameDeed(trail[i], d) {
      var e := trail[i];
      assert e in trail;
      if SameDeed(e, d) && !d.Started? {
        match e.state
        case Done =>
        case Failed =>
        case Cancelled =>
      }
    }
  }

  lemma UnknownIsUnsettled(s: Jobs, id: nat)
    requires DeedsKnown(s) && id > s.q.nextId
    ensures !IsSettled(s.trail, id)
  {
  }

  lemma HandlerQueue(s: Jobs, h: HandlerStep)
    requires HandlerEnabled(s, h)
    ensures forall j :: j in HandlerNext(s, h).q.pending ==> j in s.q.pending || j.id == s.q.nextId + 1
  {
  }

  lemma HandlerStarts(s: Jobs, h: HandlerStep)
    requires StartsFirst(s) && DeedsKnown(s) && HandlerEnabled(s, h)
    ensures StartsFirst(HandlerNext(s, h))
  {
    var s' := HandlerNext(s, h);
    HandlerQueue(s, h);
    forall i, j | 0 <= i < |s.trail| && s.trail[i].Started? && 0 <= j < |s'.q.pending|
      ensures s.trail[i].id < s'.q.pending[j].id
    {
      assert s'.q.pending[j] in s'.q.pending;
    }
  }

  lemma HandlerDeeds(s: Jobs, h: HandlerStep)
    requires Placed(s) && DeedsTrue(s) && HandlerEnabled(s, h)
    ensures DeedsTrue(HandlerNext(s, h))
  {
    var s' := HandlerNext(s, h);
    UnknownIsUnsettled(s, s.q.nextId + 1);
    HandlerStarts(s, h);
    forall j | Unsettled(s', j) ensures !IsSettled(s'.trail, j.id) {
      HandlerJobs(s, h, j);
    }
  }

  lemma WorkerDeeds(s: Jobs, w: WorkerStep)
    requires Placed(s) && DeedsTrue(s) && WorkerEnabled(s, w)
    ensures DeedsTrue(WorkerNext(s, w))
  {
    var s' := WorkerNext(s, w);
    if w.Pop? {
      var first := s.q.pending[0];
      DeedIsNew(s.trail, Started(first.id));
      JobIsPlaced(s, first);
    }
    forall j | Unsettled(s', j) ensures !IsSettled(s'.trail, j.id) {
      WorkerJobs(s, w, j);
      if w.Pop? {
        SettledAfter(s.trail, Started(s.q.pending[0].id), j.id);
      }
    }
  }

  lemma FinishingIsAt(s: Jobs, who: Option<nat>)
    requires Placed(s) && FinishingOf(s, who).Some?
    ensures JobAt(s, FinishingOf(s, who).value.job)
    ensures StillEarly(s, who) ==> Unsettled(s, FinishingOf(s, who).value.job)
  {
  }

  /** The deed of a finalizing step, if it is one. */
  function DeedOf(x: Finishing, f: FinishStep): seq<Deed> {
    match f
    case Settle(_) => [Settled(x.job.id, x.state)]
    case Announce(_) => [Announced(x.job.id, x.state)]
    case _ => []
  }

  lemma FinishTrail(s: Jobs, who: Option<nat>, f: FinishStep)
    requires FinishEnabled(s, who, f)
    ensures FinishNext(s, who, f).trail == s.trail + DeedOf(FinishingOf(s, who).value, f)
    ensures FinishNext(s, who, f).q.pending == s.q.pending && FinishNext(s, who, f).q.nextId == s.q.nextId
  {
  }

  lemma FinishDeeds(s: Jobs, who: Option<nat>, f: FinishStep)
    requires Placed(s) && DeedsTrue(s) && FinishEnabled(s, who, f)
    ensures DeedsTrue(FinishNext(s, who, f))
  {
    var s' := FinishNext(s, who, f);
    var x := FinishingOf(s, who).value;
    FinishTrail(s, who, f);
    FinishingIsAt(s, who);
    JobIsPlaced(s, x.job);
    if DeedOf(x, f) != [] {
      DeedIsNew(s.trail, DeedOf(x, f)[0]);
    }
    forall j | Unsettled(s', j) ensures !IsSettled(s'.trail, j.id) {
      FinishJobs(s, who, f, j);
      if DeedOf(x, f) != [] {
        SettledAfter(s.trail, DeedOf(x, f)[0], j.id);
      }
    }
  }

  lemma DeedsStep(s: Jobs, step: Step)
    requires Placed(s) && DeedsTrue(s) && Enabled(s, step)
    ensures DeedsTrue(Next(s, step))
  {
    match step
    case Handler(h) => HandlerDeeds(s, h);
    case Work(w) => WorkerDeeds(s, w);
    case Finish(who, f) => FinishDeeds(s, who, f);
    case Reader(r) =>
      forall j | Unsettled(ReaderNext(s, r), j) ensures !IsSettled(s.trail, j.id) {
        assert Unsettled(s, j);
      }
  }

  // -------------------------------------------------------- the end events

  /** The end events emitted, by job and state, in order. */
  function EndsOf(log: seq<Event>): seq<(nat, string)> {
    if log == [] then []
    else
      var (before, last) := (EndsOf(log[..|log|-1]), log[|log|-1]);
      if last.payload.End? then before + [(last.id, last.payload.state)] else before
  }

  function Announcements(trail: seq<Deed>): seq<(nat, string)> {
    if trail == [] then []
    else
      var (before, last) := (Announcements(trail[..|trail|-1]), trail[|trail|-1]);
      if last.Announced? then before + [(last.id, StateText(last.state))] else before
  }

  /** The feed is true to its log, and its end events are the announcements. */
  predicate Told(s: Jobs) {
    FeedTrue(s.q.feed) && EndsOf(s.q.feed.log) == Announcements(s.trail)
  }

  lemma OneMoreEvent(log: seq<Event>, e: Event)
    ensures EndsOf(log + [e]) == EndsOf(log) + if e.payload.End? then [(e.id, e.payload.state)] else []
  {
    assert (log + [e])[..|log|] == log;
  }

  lemma OneMoreDeed(trail: seq<Deed>, d: Deed)
    ensures Announcements(trail + [d]) == Announcements(trail) + if d.Announced? then [(d.id, StateText(d.state))]
      else []
  {
    assert (trail + [d])[..|trail|] == trail;
  }

  lemma EmitTells(f: Feed, e: Event, gaps: set<nat>)
    requires FeedTrue(f)
    ensures FeedTrue(EmitTo(f, e, gaps)) && FeedTrue(Cleared(EmitTo(f, e, gaps)))
    ensures EndsOf(EmitTo(f, e, gaps).log) == EndsOf(f.log) + if e.payload.End? then [(e.id, e.payload.state)] else []
  {
    EmitKeepsFeedTrue(f, e, gaps);
    ClearKeepsFeedTrue(EmitTo(f, e, gaps));
    OneMoreEvent(f.log, e);
  }

  lemma WorkerTells(s: Jobs, w: WorkerStep)
    requires Told(s) && WorkerEnabled(s, w)
    ensures Told(WorkerNext(s, w))
  {
    match w
    case Pop =>
      ClearKeepsFeedTrue(s.q.feed);
      OneMoreDeed(s.trail, Started(s.q.pending[0].id));
    case Emit(payload, gaps) => EmitTells(s.q.feed, Event(s.worker.job.id, s.worker.job.key.storeId, payload), gaps);
    case _ =>
  }

  lemma FinishTells(s: Jobs, who: Option<nat>, f: FinishStep)
    requires Told(s) && FinishEnabled(s, who, f)
    ensures Told(FinishNext(s, who, f))
  {
    var x := FinishingOf(s, who).value;
    match f
    case Settle(works) => OneMoreDeed(s.trail, Settled(x.job.id, x.state));
    case Announce(gaps) =>
      EmitTells(s.q.feed, EndEvent(x.job, x.state), gaps);
      OneMoreDeed(s.trail, Announced(x.job.id, x.state));
    case _ =>
  }

  lemma ReaderTells(s: Jobs, r: ReaderStep)
    requires Told(s)
    ensures Told(ReaderNext(s, r))
  {
    match r
    case Subscribe => JoinKeepsFeedTrue(s.q.feed);
    case Take(i) => TakeKeepsFeedTrue(s.q.feed, i);
    case Leave(i) => LeaveKeepsFeedTrue(s.q.feed, i);
  }

  lemma ToldStep(s: Jobs, step: Step)
    requires Told(s) && Enabled(s, step)
    ensures Told(Next(s, step))
  {
    match step
    case Handler(h) =>
    case Work(w) => WorkerTells(s, w);
    case Finish(who, f) => FinishTells(s, who, f);
    case Reader(r) => ReaderTells(s, r);
  }
}
