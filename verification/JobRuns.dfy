/**
 The job queue as a transition system: HTTP handlers that reserve a directory,
 submit, cancel and close, the one worker, and the goroutines that finalize a
 job cancelled while it waited.  A step is one critical section of the queue or
 of the service, one directory operation, or one action of a running job.

 Sources: internal/jobs/queue.go, internal/jobs/service.go.
 */
module JobRuns {
  import opened Wrappers
  import opened EventStream
  import opened EventFeed
  import opened JobQueue

  /** How far the finalizer of a job, and the end event after it, have come. */
  datatype Mark = ToLookUp | ToSettle(found: Job) | ToDrop(found: Job) | ToAnnounce

  datatype Finishing = Finishing(job: Job, state: EndState, mark: Mark)

  /** moved: the running job has renamed its own directory into place, as an analysis does. */
  datatype Worker = Idle | Running(job: Job, moved: bool) | Ending(f: Finishing) | Stopped

  datatype Deed = Started(id: nat) | Settled(id: nat, state: EndState) | Announced(id: nat, state: EndState)

  datatype Owner = AHandler | TheJob(id: nat)

  /**
   reserved, refused, untracked: the directories of handlers that have not
   submitted, that were turned away, and that have since cleared the index.
   cancels: the jobs Cancel removed from the queue, not yet announced.
   History variables: dropped, the jobs Close took out of the queue; trail, what
   happened to jobs in order; owners, for whom a directory name was last made;
   erased, whether a user has deleted a directory its job had not let go of;
   filled, the jobs that have written into their directory or moved it into place.
   */
  datatype Jobs = Jobs(
    q: QueueState,
    x: Index,
    held: map<JobKey, Dir>,
    worker: Worker,
    cancels: map<nat, Finishing>,
    reserved: set<JobKey>,
    refused: set<JobKey>,
    untracked: set<JobKey>,
    dropped: map<nat, Job>,
    trail: seq<Deed>,
    owners: map<JobKey, Owner>,
    erased: bool,
    filled: set<nat>)

  datatype HandlerStep =
    | Reserve(key: JobKey)
    | Submit(key: JobKey)
    | Untrack(key: JobKey)
    | Discard(key: JobKey)
    | Cancel(id: nat)
    | Erase(key: JobKey)
    | Close

  datatype WorkerStep =
    | Pop
    | Emit(payload: Payload, gaps: set<nat>)
    | Fill
    | Move
    | Return(err: RunError)
    | Stop

  datatype FinishStep = LookUp | Settle(works: bool) | Drop | Announce(gaps: set<nat>)

  datatype ReaderStep = Subscribe | Take(i: nat) | Leave(i: nat)

  /** who: None for the worker, or the cancelled job whose goroutine acts. */
  datatype Step =
    | Handler(h: HandlerStep)
    | Work(w: WorkerStep)
    | Finish(who: Option<nat>, f: FinishStep)
    | Reader(r: ReaderStep)

  // ------------------------------------------------------------- the guards

  predicate HandlerEnabled(s: Jobs, h: HandlerStep) {
    match h
    case Reserve(key) => key !in s.held
    case Submit(key) => key in s.reserved
    case Untrack(key) => key in s.refused
    case Discard(key) => key in s.untracked
    case Cancel(_) => true
    case Erase(key) => key in s.held && s.held[key] == Committed
    case Close => true
  }

  predicate WorkerEnabled(s: Jobs, w: WorkerStep) {
    match w
    case Pop => s.worker.Idle? && s.q.pending != []
    case Emit(payload, _) => s.worker.Running? && !payload.End?
    case Fill => s.worker.Running? && !s.worker.moved
    case Move => s.worker.Running? && !s.worker.moved
    case Return(_) => s.worker.Running?
    case Stop => s.worker.Idle? && s.q.pending == [] && s.q.closed
  }

  /** The finalization that who is at, if any. */
  function FinishingOf(s: Jobs, who: Option<nat>): Option<Finishing> {
    match who
    case None => if s.worker.Ending? then Some(s.worker.f) else None
    case Some(id) => if id in s.cancels then Some(s.cancels[id]) else None
  }

  predicate FinishEnabled(s: Jobs, who: Option<nat>, f: FinishStep) {
    FinishingOf(s, who).Some? &&
    match f
    case LookUp => FinishingOf(s, who).value.mark.ToLookUp?
    case Settle(_) => FinishingOf(s, who).value.mark.ToSettle?
    case Drop => FinishingOf(s, who).value.mark.ToDrop?
    case Announce(_) => FinishingOf(s, who).value.mark.ToAnnounce?
  }

  predicate Enabled(s: Jobs, step: Step) {
    match step
    case Handler(h) => HandlerEnabled(s, h)
    case Work(w) => WorkerEnabled(s, w)
    case Finish(who, f) => FinishEnabled(s, who, f)
    case Reader(_) => true
  }

  // -------------------------------------------------------- the transitions

  function Without(owners: map<JobKey, Owner>, key: JobKey): map<JobKey, Owner> {
    owners - {key}
  }

  function SubmitNext(s: Jobs, key: JobKey): Jobs {
    if s.q.closed then s.(reserved := s.reserved - {key}, refused := s.refused + {key})
    else
      var j := NewJob(s.q, key);
      s.(reserved := s.reserved - {key}, q := Submitted(s.q, key), x := TrackedIn(s.x, j),
         owners := s.owners[key := TheJob(j.id)])
  }

  function CancelNext(s: Jobs, id: nat): Jobs {
    match CancelOf(s.q, id)
    case Removed(job) => s.(q := CancelledIn(s.q, id), cancels := s.cancels[id := Finishing(job, Cancelled, ToLookUp)])
    case Signalled => s.(q := CancelledIn(s.q, id))
    case NotFound => s
  }

  function IdsOf(pending: seq<Job>): map<nat, Job> {
    if pending == [] then map[] else IdsOf(pending[1..])[pending[0].id := pending[0]]
  }

  function CloseNext(s: Jobs): Jobs {
    if s.q.closed then s else s.(q := ClosedIn(s.q), dropped := IdsOf(s.q.pending))
  }

  function HandlerNext(s: Jobs, h: HandlerStep): (s': Jobs)
    requires HandlerEnabled(s, h)
    ensures s' == s.(q := s'.q, x := s'.x, held := s'.held, cancels := s'.cancels, reserved := s'.reserved,
                     refused := s'.refused, untracked := s'.untracked, dropped := s'.dropped,
                     owners := s'.owners, erased := s'.erased)
    ensures s'.q.feed == s.q.feed && s'.q.current == s.q.current && s'.q.nextId >= s.q.nextId
    ensures s.erased ==> s'.erased
  {
    match h
    case Reserve(key) =>
      s.(held := s.held[key := Empty], reserved := s.reserved + {key}, owners := s.owners[key := AHandler])
    case Submit(key) => SubmitNext(s, key)
    case Untrack(key) =>
      s.(refused := s.refused - {key}, untracked := s.untracked + {key}, x := UntrackedIn(s.x, key))
    case Discard(key) =>
      s.(untracked := s.untracked - {key}, held := s.held - {key}, owners := Without(s.owners, key))
    case Cancel(id) => CancelNext(s, id)
    case Erase(key) => s.(held := s.held - {key}, erased := s.erased || key in s.owners)
    case Close => CloseNext(s)
  }

  function WorkerNext(s: Jobs, w: WorkerStep): (s': Jobs)
    requires WorkerEnabled(s, w)
    ensures s' == s.(q := s'.q, held := s'.held, worker := s'.worker, trail := s'.trail, filled := s'.filled)
    ensures s'.q.closed == s.q.closed && s'.q.nextId == s.q.nextId
    ensures !w.Pop? ==> s'.trail == s.trail
  {
    match w
    case Pop =>
      s.(q := Popped(s.q), worker := Running(s.q.pending[0], false), trail := s.trail + [Started(s.q.pending[0].id)])
    case Emit(payload, gaps) =>
      s.(q := Published(s.q, Event(s.worker.job.id, s.worker.job.key.storeId, payload), gaps))
    case Fill => s.(held := s.held[s.worker.job.key := Filled], filled := s.filled + {s.worker.job.id})
    case Move =>
      s.(held := s.held[s.worker.job.key := Committed], worker := s.worker.(moved := true),
         filled := s.filled + {s.worker.job.id})
    case Return(err) =>
      s.(worker := Ending(Finishing(s.worker.job, StateOf(s.q.cancelRequested, err), ToLookUp)))
    case Stop => s.(worker := Stopped)
  }

  function WithMark(s: Jobs, who: Option<nat>, mark: Mark): Jobs
    requires FinishingOf(s, who).Some?
  {
    match who
    case None => s.(worker := Ending(s.worker.f.(mark := mark)))
    case Some(id) => s.(cancels := s.cancels[id := s.cancels[id].(mark := mark)])
  }

  function LookUpNext(s: Jobs, who: Option<nat>): Jobs
    requires FinishingOf(s, who).Some?
  {
    match Found(s.x, FinishingOf(s, who).value.job.id)
    case Some(found) => WithMark(s, who, ToSettle(found))
    case None => WithMark(s, who, ToAnnounce)
  }

  function SettleNext(s: Jobs, who: Option<nat>, works: bool): Jobs
    requires FinishingOf(s, who).Some? && FinishingOf(s, who).value.mark.ToSettle?
  {
    var f := FinishingOf(s, who).value;
    WithMark(s, who, ToDrop(f.mark.found)).(held := SettledIn(s.held, f.mark.found.key, works),
      owners := Without(s.owners, f.mark.found.key), trail := s.trail + [Settled(f.job.id, f.state)])
  }

  function DropNext(s: Jobs, who: Option<nat>): Jobs
    requires FinishingOf(s, who).Some? && FinishingOf(s, who).value.mark.ToDrop?
  {
    var f := FinishingOf(s, who).value;
    WithMark(s, who, ToAnnounce).(x := DroppedFrom(s.x, f.job.id, f.mark.found))
  }

  function AnnounceNext(s: Jobs, who: Option<nat>, gaps: set<nat>): Jobs
    requires FinishingOf(s, who).Some?
  {
    var f := FinishingOf(s, who).value;
    var told := s.(trail := s.trail + [Announced(f.job.id, f.state)]);
    match who
    case None => told.(worker := Idle, q := EndedIn(s.q, f.job, f.state, gaps))
    case Some(id) => told.(cancels := s.cancels - {id}, q := Published(s.q, EndEvent(f.job, f.state), gaps))
  }

  function FinishNext(s: Jobs, who: Option<nat>, f: FinishStep): (s': Jobs)
    requires FinishEnabled(s, who, f)
    ensures s' == s.(q := s'.q, x := s'.x, held := s'.held, worker := s'.worker, cancels := s'.cancels,
                     trail := s'.trail, owners := s'.owners)
    ensures s'.q == s.q.(feed := s'.q.feed, current := s'.q.current)
    ensures who.Some? ==> s'.worker == s.worker
    ensures who.None? ==> s'.cancels == s.cancels
  {
    match f
    case LookUp => LookUpNext(s, who)
    case Settle(works) => SettleNext(s, who, works)
    case Drop => DropNext(s, who)
    case Announce(gaps) => AnnounceNext(s, who, gaps)
  }

  function ReaderNext(s: Jobs, r: ReaderStep): (s': Jobs)
    ensures s' == s.(q := s.q.(feed := s'.q.feed))
  {
    match r
    case Subscribe => s.(q := s.q.(feed := Joined(s.q.feed)))
    case Take(i) => s.(q := s.q.(feed := Taken(s.q.feed, i)))
    case Leave(i) => s.(q := s.q.(feed := Left(s.q.feed, i)))
  }

  function Next(s: Jobs, step: Step): Jobs
    requires Enabled(s, step)
  {
    match step
    case Handler(h) => HandlerNext(s, h)
    case Work(w) => WorkerNext(s, w)
    case Finish(who, f) => FinishNext(s, who, f)
    case Reader(r) => ReaderNext(s, r)
  }

  /** A server that has just started; directories an earlier one committed may be there. */
  predicate Initial(s: Jobs) {
    && s.q == QueueState(0, [], false, None, false, Feed([], map[], 0, [], 0))
    && s.x == Index(map[], map[], map[])
    && (forall key :: key in s.held ==> s.held[key] == Committed)
    && s.worker == Idle && s.cancels == map[]
    && s.reserved == {} && s.refused == {} && s.untracked == {}
    && s.dropped == map[] && s.trail == [] && s.owners == map[] && !s.erased && s.filled == {}
  }

  predicate Possible(s0: Jobs, steps: seq<Step>)
    decreases |steps|, 0
  {
    steps != [] ==> Possible(s0, steps[..|steps|-1]) && Enabled(After(s0, steps[..|steps|-1]), steps[|steps|-1])
  }

  /** The state after a possible run. */
  function After(s0: Jobs, steps: seq<Step>): Jobs
    requires Possible(s0, steps)
    decreases |steps|, 1
  {
    if steps == [] then s0 else Next(After(s0, steps[..|steps|-1]), steps[|steps|-1])
  }
}
