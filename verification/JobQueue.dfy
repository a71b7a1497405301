/**
 The job queue and the service that indexes its jobs, one critical section at a
 time.

 Sources: internal/jobs/queue.go, internal/jobs/service.go and
 internal/store/pending.go.
 */
module JobQueue {
  import opened Wrappers
  import opened EventStream
  import opened EventFeed

  /** A job as a route names it. */
  datatype JobKey = JobKey(project: string, kind: string, storeId: string)

  /** A submitted job: the number of its queue id, and its key. */
  datatype Job = Job(id: nat, key: JobKey)

  datatype EndState = Done | Failed | Cancelled

  /** How Run returned: without an error, with context.Canceled, or with another error. */
  datatype RunError = NoError | CanceledError | OtherError

  datatype QueueState = QueueState(nextId: nat, pending: seq<Job>, closed: bool, current: Option<Job>,
                                   cancelRequested: bool, feed: Feed)

  /** The service's three indexes. */
  datatype Index = Index(byQueue: map<nat, Job>, byKey: map<JobKey, Job>, byProject: map<string, Job>)

  /** A job's directory: an empty or a filled .tmp, or the committed one. */
  datatype Dir = Empty | Filled | Committed

  // ------------------------------------------------- the queue's sections

  function NewJob(q: QueueState, key: JobKey): Job {
    Job(q.nextId + 1, key)
  }

  function Submitted(q: QueueState, key: JobKey): QueueState {
    if q.closed then q else q.(nextId := q.nextId + 1, pending := q.pending + [NewJob(q, key)])
  }

  /** Where the first pending job of that id is, or how many are pending. */
  function Position(pending: seq<Job>, id: nat): (i: nat)
    ensures i <= |pending|
    ensures i < |pending| ==> pending[i].id == id
    ensures forall j :: 0 <= j < i ==> pending[j].id != id
  {
    IndexWhere(pending, (j: Job) => j.id == id)
  }

  datatype CancelResult = Signalled | Removed(job: Job) | NotFound

  function CancelOf(q: QueueState, id: nat): CancelResult {
    if q.current.Some? && q.current.value.id == id then Signalled
    else if Position(q.pending, id) < |q.pending| then Removed(q.pending[Position(q.pending, id)])
    else NotFound
  }

  function CancelledIn(q: QueueState, id: nat): QueueState {
    match CancelOf(q, id)
    case Signalled => q.(cancelRequested := true)
    case Removed(_) =>
      var i := Position(q.pending, id);
      q.(pending := q.pending[..i] + q.pending[i+1..])
    case NotFound => q
  }

  function Popped(q: QueueState): QueueState
    requires q.pending != []
  {
    q.(pending := q.pending[1..], current := Some(q.pending[0]), cancelRequested := false, feed := Cleared(q.feed))
  }

  function StateOf(cancelRequested: bool, err: RunError): EndState {
    if cancelRequested && err == CanceledError then Cancelled
    else if err != NoError then Failed
    else Done
  }

  function StateText(state: EndState): string {
    match state
    case Done => "done"
    case Failed => "failed"
    case Cancelled => "cancelled"
  }

  function EndEvent(job: Job, state: EndState): Event {
    Event(job.id, job.key.storeId, End(StateText(state)))
  }

  function Published(q: QueueState, e: Event, gaps: set<nat>): QueueState {
    q.(feed := EmitTo(q.feed, e, gaps))
  }

  /** The worker's last section: the end event, then idle with an empty history. */
  function EndedIn(q: QueueState, job: Job, state: EndState, gaps: set<nat>): QueueState {
    q.(feed := Cleared(EmitTo(q.feed, EndEvent(job, state), gaps)), current := None)
  }

  function ClosedIn(q: QueueState): QueueState {
    if q.closed then q else q.(closed := true, pending := [])
  }

  /** log and cleared are history variables: nothing in the queue depends on them. */
  class Queue {
    var nextID: nat
    var pending: seq<Job>
    var closed: bool
    var current: Option<Job>
    var cancelRequested: bool
    var history: seq<Event>
    var subs: map<nat, Subscriber>
    var nextSub: nat
    var log: seq<Event>
    var cleared: nat

    ghost function Feed(): Feed
      reads this
    {
      EventFeed.Feed(history, subs, nextSub, log, cleared)
    }

    ghost function State(): QueueState
      reads this
    {
      QueueState(nextID, pending, closed, current, cancelRequested, Feed())
    }

    constructor ()
      ensures State() == QueueState(0, [], false, None, false, EventFeed.Feed([], map[], 0, [], 0))
    {
      nextID, pending, closed, current, cancelRequested := 0, [], false, None, false;
      history, subs, nextSub, log, cleared := [], map[], 0, [], 0;
    }

    /** SubmitWith, with the registration of the new id inside the queue's lock. */
    method SubmitWith(key: JobKey, service: Service) returns (id: Option<nat>)
      modifies this, service
      ensures State() == Submitted(old(State()), key)
      ensures !old(closed) ==> nextID == old(nextID) + 1 && pending == old(pending) + [Job(nextID, key)]
      ensures old(closed) ==> nextID == old(nextID) && pending == old(pending)
      ensures closed == old(closed) && current == old(current) && subs == old(subs) && history == old(history)
      ensures id == if old(closed) then None else Some(old(nextID) + 1)
      ensures service.State() ==
        if old(closed) then old(service.State()) else TrackedIn(old(service.State()), NewJob(old(State()), key))
    {
      if closed {
        return None;
      }
      nextID := nextID + 1;
      service.Track(nextID, key);
      pending := pending + [Job(nextID, key)];
      return Some(nextID);
    }

    /** The locked part of Cancel; a removed job is then finalized and announced by the caller. */
    method Cancel(id: nat) returns (r: CancelResult)
      modifies this
      ensures State() == CancelledIn(old(State()), id) && r == CancelOf(old(State()), id)
      ensures r == Signalled <==> old(current).Some? && old(current).value.id == id
      ensures r == Signalled ==> cancelRequested && pending == old(pending)
      ensures r.Removed? ==> r.job.id == id && cancelRequested == old(cancelRequested)
      ensures r.Removed? ==>
        exists i :: 0 <= i < |old(pending)| && old(pending)[i] == r.job
                    && (forall j :: 0 <= j < i ==> old(pending)[j].id != id)
                    && pending == old(pending)[..i] + old(pending)[i+1..]
      ensures r == NotFound ==> pending == old(pending) && forall j :: 0 <= j < |pending| ==> pending[j].id != id
      ensures current == old(current) && nextID == old(nextID) && closed == old(closed)
    {
      if current.Some? && current.value.id == id {
        cancelRequested := true;
        return Signalled;
      }
      for i := 0 to |pending|
        invariant State() == old(State())
        invariant forall j :: 0 <= j < i ==> pending[j].id != id
      {
        if pending[i].id == id {
          assert Position(pending, id) == i;
          r := Removed(pending[i]);
          pending := pending[..i] + pending[i+1..];
          return;
        }
      }
      return NotFound;
    }

    /**
     publish: the history first, then every subscriber, none of which can hold it
     up.  gaps: the subscribers whose reader takes an item between the two
     attempts to send to it.
     */
    method Publish(e: Event, gaps: set<nat>)
      modifies this
      ensures State() == Published(old(State()), e, gaps)
    {
      history := AppendHistory(history, e);
      log := log + [e];
      Deliver(e, gaps);
      assert Feed() == EmitTo(old(Feed()), e, gaps);
    }

    /** deliverLocked to each subscriber, in whatever order the map is walked. */
    method Deliver(e: Event, gaps: set<nat>)
      modifies this`subs
      ensures subs == map i | i in old(subs) :: Delivered(old(subs)[i], e, i in gaps)
    {
      var todo := subs.Keys;
      while todo != {}
        invariant todo <= subs.Keys == old(subs).Keys
        invariant forall i :: i in todo ==> subs[i] == old(subs)[i]
        invariant forall i :: i in subs && i !in todo ==> subs[i] == Delivered(old(subs)[i], e, i in gaps)
        decreases |todo|
      {
        var i :| i in todo;
        subs := subs[i := Delivered(subs[i], e, i in gaps)];
        todo := todo - {i};
      }
    }

    /** Subscribe: the new channel takes the history item by item, dropping what finds no room. */
    method Subscribe() returns (id: nat)
      modifies this
      ensures State() == old(State()).(feed := Joined(old(Feed()))) && id == old(nextSub)
    {
      var ch := Subscriber([], 0, false, cleared, |log|, false);
      id := nextSub;
      nextSub := nextSub + 1;
      for i := 0 to |history|
        invariant ch == Subscriber(AsSent(history[..Least(i, CHANNEL_SIZE)]), 0, false, cleared, |log|,
                                   i > CHANNEL_SIZE)
      {
        if HasRoom(ch) {
          ch := ch.(sent := ch.sent + [Sent(history[i])]);
        } else {
          ch := ch.(lost := true);
        }
      }
      subs := subs[id := ch];
      assert Feed() == Joined(old(Feed()));
    }

    /** The worker's first section. */
    method Pop() returns (next: Job)
      requires pending != []
      modifies this
      ensures State() == Popped(old(State())) && current == Some(next)
      ensures old(pending) == [next] + pending && !cancelRequested && history == []
      ensures closed == old(closed) && nextID == old(nextID) && subs == old(subs)
    {
      next := pending[0];
      pending := pending[1..];
      current := Some(next);
      cancelRequested := false;
      history, cleared := [], |log|;
    }

    /** What the worker makes of how Run returned. */
    method Judge(err: RunError) returns (state: EndState)
      ensures state == StateOf(cancelRequested, err)
      ensures state == Cancelled <==> cancelRequested && err == CanceledError
      ensures state == Done <==> err == NoError
    {
      state := Done;
      if cancelRequested && err == CanceledError {
        state := Cancelled;
      } else if err != NoError {
        state := Failed;
      }
    }

    /** The worker's last section. */
    method End(job: Job, state: EndState, gaps: set<nat>)
      modifies this
      ensures State() == EndedIn(old(State()), job, state, gaps)
      ensures current == None && history == [] && pending == old(pending) && closed == old(closed)
      ensures log == old(log) + [Event(job.id, job.key.storeId, Payload.End(
                if state == Done then "done" else if state == Failed then "failed" else "cancelled"))]
    {
      Publish(EndEvent(job, state), gaps);
      current := None;
      history, cleared := [], |log|;
    }

    /** The locked part of Close. */
    method Close()
      modifies this
      ensures State() == ClosedIn(old(State()))
      ensures closed && (old(closed) ==> State() == old(State())) && (!old(closed) ==> pending == [])
      ensures current == old(current) && nextID == old(nextID) && history == old(history) && subs == old(subs)
    {
      if closed {
        return;
      }
      closed := true;
      pending := [];
    }
  }

  // ----------------------------------------------- the service's sections

  function TrackedIn(x: Index, j: Job): Index {
    Index(x.byQueue[j.id := j], x.byKey[j.key := j], x.byProject[j.key.project := j])
  }

  /** The project's entry goes only while it is still this job's. */
  function WithoutProject(x: Index, j: Job): map<string, Job> {
    if j.key.project in x.byProject && x.byProject[j.key.project] == j then x.byProject - {j.key.project}
      else x.byProject
  }

  function UntrackedIn(x: Index, key: JobKey): Index {
    if key !in x.byKey then x
    else
      var j := x.byKey[key];
      Index(x.byQueue - {j.id}, x.byKey - {key},
            if key.project in x.byProject && x.byProject[key.project] == j then x.byProject - {key.project}
              else x.byProject)
  }

  function Found(x: Index, id: nat): Option<Job> {
    if id in x.byQueue then Some(x.byQueue[id]) else None
  }

  /** The last section of finalize: whatever the job's key names goes, this job's entry or not. */
  function DroppedFrom(x: Index, id: nat, j: Job): Index {
    Index(x.byQueue - {id}, x.byKey - {j.key}, WithoutProject(x, j))
  }

  datatype Live = Live(job: Job, running: bool)

  /** LiveState, asked through a route. */
  function LiveOf(x: Index, current: Option<Job>, key: JobKey): Option<Live> {
    if key !in x.byKey then None
    else Some(Live(x.byKey[key], current.Some? && current.value.id == x.byKey[key].id))
  }

  class Service {
    var byQueueID: map<nat, Job>
    var byJobKey: map<JobKey, Job>
    var byProjectID: map<string, Job>

    ghost function State(): Index
      reads this
    {
      Index(byQueueID, byJobKey, byProjectID)
    }

    constructor ()
      ensures State() == Index(map[], map[], map[])
    {
      byQueueID, byJobKey, byProjectID := map[], map[], map[];
    }

    method Track(id: nat, key: JobKey)
      modifies this
      ensures State() == TrackedIn(old(State()), Job(id, key))
      ensures byQueueID == old(byQueueID)[id := Job(id, key)] && byJobKey == old(byJobKey)[key := Job(id, key)]
      ensures byProjectID == old(byProjectID)[key.project := Job(id, key)]
    {
      var tj := Job(id, key);
      byQueueID := byQueueID[id := tj];
      byJobKey := byJobKey[key := tj];
      byProjectID := byProjectID[key.project := tj];
    }

    method UntrackPending(key: JobKey)
      modifies this
      ensures State() == UntrackedIn(old(State()), key)
      ensures key !in old(byJobKey) ==> State() == old(State())
      ensures key in old(byJobKey) ==>
        var tj := old(byJobKey)[key];
        && byQueueID == old(byQueueID) - {tj.id} && byJobKey == old(byJobKey) - {key}
        && (key.project in byProjectID <==>
              key.project in old(byProjectID) && old(byProjectID)[key.project] != tj)
        && forall p :: p in byProjectID ==> p in old(byProjectID) && byProjectID[p] == old(byProjectID)[p]
    {
      if key !in byJobKey {
        return;
      }
      var tj := byJobKey[key];
      byJobKey := byJobKey - {key};
      byQueueID := byQueueID - {tj.id};
      if key.project in byProjectID && byProjectID[key.project] == tj {
        byProjectID := byProjectID - {key.project};
      }
    }

    method LookUp(id: nat) returns (tj: Option<Job>)
      ensures tj == Found(State(), id)
    {
      tj := if id in byQueueID then Some(byQueueID[id]) else None;
    }

    method Drop(id: nat, tj: Job)
      modifies this
      ensures State() == DroppedFrom(old(State()), id, tj)
      ensures byQueueID == old(byQueueID) - {id} && byJobKey == old(byJobKey) - {tj.key}
      ensures byProjectID == old(byProjectID)
        || (byProjectID == old(byProjectID) - {tj.key.project} && tj.key.project in old(byProjectID)
            && old(byProjectID)[tj.key.project] == tj)
      ensures tj.key.project in byProjectID ==> byProjectID[tj.key.project] != tj
    {
      byQueueID := byQueueID - {id};
      byJobKey := byJobKey - {tj.key};
      if tj.key.project in byProjectID && byProjectID[tj.key.project] == tj {
        byProjectID := byProjectID - {tj.key.project};
      }
    }

    /** finalize, run without interruption. */
    method Finalize(id: nat, dirs: Directories, works: bool)
      modifies this, dirs
      ensures id !in old(byQueueID) ==> State() == old(State()) && dirs.held == old(dirs.held)
      ensures id in old(byQueueID) ==>
        var tj := old(byQueueID)[id];
        && State() == DroppedFrom(old(State()), id, tj) && dirs.held == SettledIn(old(dirs.held), tj.key, works)
        && (works && tj.key in old(dirs.held) && old(dirs.held)[tj.key] == Filled ==>
              tj.key in dirs.held && dirs.held[tj.key] == Committed)
        && (works && tj.key in old(dirs.held) && old(dirs.held)[tj.key] == Empty ==> tj.key !in dirs.held)
    {
      var tj := LookUp(id);
      if tj == None {
        return;
      }
      dirs.FinalizePending(tj.value.key, works);
      Drop(id, tj.value);
    }
  }

  // ------------------------------------------------------- the directories

  /** finalizePending: discard an empty .tmp, commit a filled one, leave anything else. */
  function SettledIn(held: map<JobKey, Dir>, key: JobKey, works: bool): map<JobKey, Dir> {
    if key !in held || held[key] == Committed || !works then held
    else if held[key] == Empty then held - {key}
    else held[key := Committed]
  }

  class Directories {
    var held: map<JobKey, Dir>

    /**
     NewDir: the plain name first, then up to nine with a random suffix, taking
     the first that is neither pending nor committed.
     */
    method NewDir(project: string, kind: string, base: string, suffixes: seq<string>) returns (key: Option<JobKey>)
      requires |suffixes| == 9
      modifies this
      ensures key.Some? ==> key.value.project == project && key.value.kind == kind
      ensures key.Some? ==> key.value !in old(held) && held == old(held)[key.value := Empty]
      ensures key.Some? && key.value.storeId != base ==> JobKey(project, kind, base) in old(held)
      ensures key == None ==> held == old(held) && JobKey(project, kind, base) in held
      ensures key == None ==> forall i :: 0 <= i < 9 ==> JobKey(project, kind, base + "-" + suffixes[i]) in held
    {
      for attempt := 0 to 10
        invariant held == old(held)
        invariant attempt > 0 ==> JobKey(project, kind, base) in held
        invariant forall i :: 0 <= i < attempt - 1 ==> JobKey(project, kind, base + "-" + suffixes[i]) in held
      {
        var id := base;
        if attempt > 0 {
          id := base + "-" + suffixes[attempt-1];
        }
        if JobKey(project, kind, id) !in held {
          held := held[JobKey(project, kind, id) := Empty];
          return Some(JobKey(project, kind, id));
        }
      }
      return None;
    }

    /** works: the file operation it comes to succeeds.  No other directory is touched. */
    method FinalizePending(key: JobKey, works: bool)
      modifies this
      ensures held == SettledIn(old(held), key, works)
      ensures works && key in old(held) && old(held)[key] == Filled ==> key in held && held[key] == Committed
      ensures works && key in old(held) && old(held)[key] == Empty ==> key !in held
      ensures !works || key !in old(held) || old(held)[key] == Committed ==> held == old(held)
      ensures forall k :: k != key ==> (k in held <==> k in old(held)) && (k in held ==> held[k] == old(held)[k])
    {
      if key !in held || held[key] == Committed {
        return;
      }
      if works {
        if held[key] == Empty {
          held := held - {key};
        } else {
          held := held[key := Committed];
        }
      }
    }
  }
}
