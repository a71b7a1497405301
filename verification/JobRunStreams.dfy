/**
 What a client of the event stream shows of one job, over whole runs of the
 queue: its connections may begin before the job starts, while it runs, or
 after its history was cleared, and a response ends behind the first end event
 of any job.

 Sources: internal/jobs/queue.go, internal/api/events.go,
 web/src/hooks/use-job-events.ts and web/src/lib/analysisEvents.ts.
 */
module JobRunStreams {
  import opened Wrappers
  import opened EventStream
  import opened EventFeed
  import opened JobQueue
  import opened JobRuns
  import opened JobRunSafety
  import opened JobRunDeeds
  import opened JobRunTheorems

  /** The end event of the job is among these. */
  predicate HasEnd(events: seq<Event>, id: nat) {
    exists i :: 0 <= i < |events| && events[i].id == id && events[i].payload.End?
  }

  predicate HasStep(events: seq<Event>, id: nat) {
    exists i :: 0 <= i < |events| && events[i].id == id && IsStep(events[i])
  }

  /**
   Whoever joined at this point, with the history last cleared at base, has
   been sent every step of a job not ended by then and none of one that has.
   */
  predicate Epoch(log: seq<Event>, base: nat, joined: nat, id: nat)
    requires base <= joined <= |log|
  {
    if HasEnd(log[..joined], id) then !HasStep(log[base..], id) else !HasStep(log[..base], id)
  }

  ghost predicate Epochs(log: seq<Event>, base: nat, joined: nat)
    requires base <= joined <= |log|
  {
    forall id: nat :: Epoch(log, base, joined, id)
  }

  ghost predicate EndsAnnounced(s: Jobs) {
    forall id: nat :: HasEnd(s.q.feed.log, id) <==> IsAnnounced(s.trail, id)
  }

  /** Only a job that runs or has been announced has emitted a step. */
  ghost predicate StepsStarted(s: Jobs) {
    forall id: nat :: HasStep(s.q.feed.log, id) ==> IsCurrent(s, id) || IsAnnounced(s.trail, id)
  }

  ghost predicate SubsInEpochs(f: Feed)
    requires FeedTrue(f)
  {
    forall i :: i in f.subs ==> SubscriberTrue(f.log, f.subs[i]) && Epochs(f.log, f.subs[i].base, f.subs[i].joined)
  }

  ghost predicate StreamsTrue(s: Jobs) {
    && FeedTrue(s.q.feed) && EndsAnnounced(s) && StepsStarted(s)
    && Epochs(s.q.feed.log, s.q.feed.cleared, |s.q.feed.log|) && SubsInEpochs(s.q.feed)
    && AllFromLog(s.q.feed)
  }

  lemma HasMore(events: seq<Event>, e: Event, id: nat)
    ensures HasEnd(events + [e], id) <==> HasEnd(events, id) || (e.id == id && e.payload.End?)
    ensures HasStep(events + [e], id) <==> HasStep(events, id) || (e.id == id && IsStep(e))
  {
    var more := events + [e];
    assert more[|events|] == e;
    assert forall i :: 0 <= i < |events| ==> more[i] == events[i];
  }

  lemma PartHas(log: seq<Event>, from: nat, to: nat, id: nat)
    requires from <= to <= |log|
    ensures HasEnd(log[from..to], id) ==> HasEnd(log, id)
    ensures HasStep(log[from..to], id) ==> HasStep(log, id)
  {
    var part := log[from..to];
    assert forall i :: 0 <= i < |part| ==> part[i] == log[from + i];
  }

  // ------------------------------------------------------------- the epochs

  /** An event emitted later changes nothing for those who joined before. */
  lemma EpochGrows(log: seq<Event>, base: nat, joined: nat, e: Event, id: nat)
    requires base <= joined <= |log| && Epoch(log, base, joined, id)
    requires IsStep(e) && e.id == id ==> !HasEnd(log, id)
    ensures Epoch(log + [e], base, joined, id)
  {
    assert (log + [e])[..joined] == log[..joined] && (log + [e])[..base] == log[..base];
    assert (log + [e])[base..] == log[base..] + [e];
    HasMore(log[base..], e, id);
    PartHas(log, 0, joined, id);
  }

  lemma EpochsGrow(log: seq<Event>, base: nat, joined: nat, e: Event)
    requires base <= joined <= |log| && Epochs(log, base, joined)
    requires IsStep(e) ==> !HasEnd(log, e.id)
    ensures Epochs(log + [e], base, joined)
  {
    forall id: nat ensures Epoch(log + [e], base, joined, id) {
      EpochGrows(log, base, joined, e, id);
    }
  }

  /** Whoever joins after the event instead of before it. */
  lemma JoinsLater(log: seq<Event>, base: nat, e: Event)
    requires base <= |log| && Epochs(log, base, |log|)
    requires IsStep(e) ==> !HasEnd(log, e.id)
    requires e.payload.End? ==> !HasStep(log, e.id)
    ensures Epochs(log + [e], base, |log| + 1)
  {
    var more := log + [e];
    assert log[..|log|] == log && more[..|log| + 1] == more && more[..base] == log[..base]
      && more[base..] == log[base..] + [e];
    var joined := |more|;
    forall id: nat ensures Epoch(more, base, joined, id) {
      assert Epoch(log, base, |log|, id);
      HasMore(log, e, id);
      HasMore(log[base..], e, id);
      assert log[base..|log|] == log[base..];
      PartHas(log, base, |log|, id);
    }
  }

  /** Where every job with a step has ended, the history may be cleared. */
  lemma ClearsHere(log: seq<Event>)
    requires forall id: nat :: HasStep(log, id) ==> HasEnd(log, id)
    ensures Epochs(log, |log|, |log|)
  {
    assert log[..|log|] == log && log[|log|..] == [];
    forall id: nat ensures Epoch(log, |log|, |log|, id) {
    }
  }

  // --------------------------------------------------------------- the steps

  lemma SameStreams(s: Jobs, s': Jobs)
    requires StreamsTrue(s) && s'.q.feed == s.q.feed && s'.q.current == s.q.current
    requires forall id :: IsAnnounced(s'.trail, id) == IsAnnounced(s.trail, id)
    ensures StreamsTrue(s')
  {
  }

  lemma PopStreams(s: Jobs)
    requires StreamsTrue(s) && Placed(s) && WorkerEnabled(s, Pop)
    ensures StreamsTrue(WorkerNext(s, Pop))
  {
    var s' := WorkerNext(s, Pop);
    ClearKeepsFeedTrue(s.q.feed);
    ClearsHere(s.q.feed.log);
    forall id ensures IsAnnounced(s'.trail, id) == IsAnnounced(s.trail, id) {
      AnnouncedAfter(s.trail, Started(s.q.pending[0].id), id);
    }
  }

  lemma CurrentHasNoEnd(s: Jobs, id: nat)
    requires EndsAnnounced(s) && Placed(s) && IsCurrent(s, id)
    ensures !HasEnd(s.q.feed.log, id)
  {
    assert Places(s, id) == One(1 <= id <= s.q.nextId);
  }

  lemma SubsGrow(f: Feed, e: Event, gaps: set<nat>)
    requires FeedTrue(f) && SubsInEpochs(f) && AllFromLog(f) && (IsStep(e) ==> !HasEnd(f.log, e.id))
    ensures FeedTrue(EmitTo(f, e, gaps)) && SubsInEpochs(EmitTo(f, e, gaps)) && AllFromLog(EmitTo(f, e, gaps))
  {
    EmitKeepsFeedTrue(f, e, gaps);
    EmitKeepsFromLog(f, e, gaps);
    var f' := EmitTo(f, e, gaps);
    forall i | i in f'.subs ensures Epochs(f'.log, f'.subs[i].base, f'.subs[i].joined) {
      EpochsGrow(f.log, f.subs[i].base, f.subs[i].joined, e);
    }
  }

  lemma EmitStreams(s: Jobs, payload: Payload, gaps: set<nat>)
    requires StreamsTrue(s) && Placed(s) && WorkerEnabled(s, Emit(payload, gaps))
    ensures StreamsTrue(WorkerNext(s, Emit(payload, gaps)))
  {
    var s' := WorkerNext(s, Emit(payload, gaps));
    var e := Event(s.worker.job.id, s.worker.job.key.storeId, payload);
    CurrentHasNoEnd(s, e.id);
    SubsGrow(s.q.feed, e, gaps);
    JoinsLater(s.q.feed.log, s.q.feed.cleared, e);
    forall id: nat
      ensures HasEnd(s'.q.feed.log, id) <==> IsAnnounced(s'.trail, id)
      ensures HasStep(s'.q.feed.log, id) ==> IsCurrent(s', id) || IsAnnounced(s'.trail, id)
    {
      HasMore(s.q.feed.log, e, id);
    }
  }

  lemma WorkerStreams(s: Jobs, w: WorkerStep)
    requires StreamsTrue(s) && Placed(s) && WorkerEnabled(s, w)
    ensures StreamsTrue(WorkerNext(s, w))
  {
    match w
    case Pop => PopStreams(s);
    case Emit(payload, gaps) => EmitStreams(s, payload, gaps);
    case _ => SameStreams(s, WorkerNext(s, w));
  }

  /** What an announcement does to ends and steps. */
  lemma AnnounceHas(s: Jobs, s': Jobs, e: Event, state: EndState)
    requires EndsAnnounced(s) && StepsStarted(s) && e.payload.End?
    requires s'.q.feed.log == s.q.feed.log + [e] && s'.trail == s.trail + [Announced(e.id, state)]
    requires s'.q.current == s.q.current || (IsCurrent(s, e.id) && s'.q.current == None)
    ensures EndsAnnounced(s') && StepsStarted(s')
  {
    forall id: nat
      ensures HasEnd(s'.q.feed.log, id) <==> IsAnnounced(s'.trail, id)
      ensures HasStep(s'.q.feed.log, id) ==> IsCurrent(s', id) || IsAnnounced(s'.trail, id)
    {
      HasMore(s.q.feed.log, e, id);
      AnnouncedAfter(s.trail, Announced(e.id, state), id);
    }
  }

  lemma EndStreams(s: Jobs, gaps: set<nat>)
    requires StreamsTrue(s) && Placed(s) && FinishEnabled(s, None, Announce(gaps))
    ensures StreamsTrue(AnnounceNext(s, None, gaps))
  {
    var s' := AnnounceNext(s, None, gaps);
    var f := s.worker.f;
    var e := EndEvent(f.job, f.state);
    SubsGrow(s.q.feed, e, gaps);
    ClearKeepsFeedTrue(EmitTo(s.q.feed, e, gaps));
    AnnounceHas(s, s', e, f.state);
    ClearsHere(s'.q.feed.log);
  }

  /** A job cancelled while it waited has no step. */
  lemma CancelledHasNoStep(s: Jobs, id: nat)
    requires StepsStarted(s) && Placed(s) && id in s.cancels
    ensures !HasStep(s.q.feed.log, id)
  {
    assert Places(s, id) == One(1 <= id <= s.q.nextId);
  }

  lemma CancelledStreams(s: Jobs, id: nat, gaps: set<nat>)
    requires StreamsTrue(s) && Placed(s) && FinishEnabled(s, Some(id), Announce(gaps))
    ensures StreamsTrue(AnnounceNext(s, Some(id), gaps))
  {
    var s' := AnnounceNext(s, Some(id), gaps);
    var f := s.cancels[id];
    var e := EndEvent(f.job, f.state);
    SubsGrow(s.q.feed, e, gaps);
    CancelledHasNoStep(s, id);
    JoinsLater(s.q.feed.log, s.q.feed.cleared, e);
    AnnounceHas(s, s', e, f.state);
  }

  lemma SettleStreams(s: Jobs, who: Option<nat>, works: bool)
    requires StreamsTrue(s) && FinishEnabled(s, who, Settle(works))
    ensures StreamsTrue(SettleNext(s, who, works))
  {
    var f := FinishingOf(s, who).value;
    forall id ensures IsAnnounced(s.trail + [Settled(f.job.id, f.state)], id) == IsAnnounced(s.trail, id) {
      AnnouncedAfter(s.trail, Settled(f.job.id, f.state), id);
    }
    SameStreams(s, SettleNext(s, who, works));
  }

  lemma FinishStreams(s: Jobs, who: Option<nat>, f: FinishStep)
    requires StreamsTrue(s) && Placed(s) && FinishEnabled(s, who, f)
    ensures StreamsTrue(FinishNext(s, who, f))
  {
    match f
    case Announce(gaps) =>
      match who {
        case None => EndStreams(s, gaps);
        case Some(id) => CancelledStreams(s, id, gaps);
      }
    case Settle(works) => SettleStreams(s, who, works);
    case _ => SameStreams(s, FinishNext(s, who, f));
  }

  lemma ReaderStreams(s: Jobs, r: ReaderStep)
    requires StreamsTrue(s)
    ensures StreamsTrue(ReaderNext(s, r))
  {
    match r
    case Subscribe =>
      JoinKeepsFeedTrue(s.q.feed);
      JoinKeepsFromLog(s.q.feed);
    case Take(i) =>
      TakeKeepsFeedTrue(s.q.feed, i);
      TakeKeepsFromLog(s.q.feed, i);
    case Leave(i) => LeaveKeepsFeedTrue(s.q.feed, i);
  }

  lemma StreamsStep(s: Jobs, step: Step)
    requires Placed(s) && StreamsTrue(s) && Enabled(s, step)
    ensures StreamsTrue(Next(s, step))
  {
    match step
    case Handler(h) => SameStreams(s, HandlerNext(s, h));
    case Work(w) => WorkerStreams(s, w);
    case Finish(who, f) => FinishStreams(s, who, f);
    case Reader(r) => ReaderStreams(s, r);
  }

  lemma {:induction false} ReachableStreams(s0: Jobs, steps: seq<Step>)
    requires Initial(s0) && Possible(s0, steps)
    ensures StreamsTrue(After(s0, steps))
    decreases |steps|
  {
    if steps != [] {
      ReachableTrue(s0, steps[..|steps|-1]);
      ReachableStreams(s0, steps[..|steps|-1]);
      StreamsStep(After(s0, steps[..|steps|-1]), steps[|steps|-1]);
    }
  }

  // ------------------------------------------------------- the steps of a job

  /** The step entries the job emitted, in order. */
  function JobEntries(events: seq<Event>, id: nat): seq<StepEntry> {
    if events == [] then []
    else
      var first := if IsStep(events[0]) && events[0].id == id then [events[0].payload.entry] else [];
      first + JobEntries(events[1..], id)
  }

  /** The directory id that the job's step events carry, by which a client knows the job. */
  predicate CarriesName(events: seq<Event>, id: nat, name: string) {
    forall i :: 0 <= i < |events| && IsStep(events[i]) && events[i].id == id ==> events[i].job == name
  }

  /** No other job's step event carries it. */
  predicate NameIsOwn(events: seq<Event>, id: nat, name: string) {
    forall i :: 0 <= i < |events| && IsStep(events[i]) && events[i].job == name ==> events[i].id == id
  }

  lemma NamesOfRest(events: seq<Event>, id: nat, name: string)
    requires events != []
    ensures CarriesName(events, id, name) ==> CarriesName(events[1..], id, name)
    ensures NameIsOwn(events, id, name) <==>
      (IsStep(events[0]) && events[0].job == name ==> events[0].id == id) && NameIsOwn(events[1..], id, name)
  {
    var rest := events[1..];
    assert forall i :: 0 <= i < |rest| ==> rest[i] == events[i + 1];
    if NameIsOwn(rest, id, name) && (IsStep(events[0]) && events[0].job == name ==> events[0].id == id) {
      forall i | 0 <= i < |events| && IsStep(events[i]) && events[i].job == name ensures events[i].id == id {
        if i > 0 {
          assert rest[i - 1].id == id;
        }
      }
    }
  }

  lemma {:induction false} EntriesCount(events: seq<Event>, id: nat, name: string)
    requires CarriesName(events, id, name)
    ensures |JobEntries(events, id)| <= |EntriesOf(events, name)|
    ensures |JobEntries(events, id)| == |EntriesOf(events, name)| ==> NameIsOwn(events, id, name)
    ensures NameIsOwn(events, id, name) ==> EntriesOf(events, name) == JobEntries(events, id)
  {
    if events != [] {
      NamesOfRest(events, id, name);
      EntriesCount(events[1..], id, name);
    }
  }

  /**
   The hook picks events by directory id, not by queue id: among any events it
   takes the job's own steps, and no others, exactly when no other job's step
   carries that directory id.
   */
  lemma OwnStepsOnly(events: seq<Event>, id: nat, name: string)
    requires CarriesName(events, id, name)
    ensures EntriesOf(events, name) == JobEntries(events, id) <==> NameIsOwn(events, id, name)
  {
    EntriesCount(events, id, name);
  }

  predicate Named(events: seq<Event>, id: nat, name: string) {
    CarriesName(events, id, name) && NameIsOwn(events, id, name)
  }

  lemma PartNamed(log: seq<Event>, from: nat, to: nat, id: nat, name: string)
    requires from <= to <= |log| && Named(log, id, name)
    ensures Named(log[from..to], id, name)
  {
    var part := log[from..to];
    assert forall i :: 0 <= i < |part| ==> part[i] == log[from + i];
  }

  lemma HeadHas(events: seq<Event>, id: nat)
    requires events != []
    ensures HasStep(events, id) <==> (events[0].id == id && IsStep(events[0])) || HasStep(events[1..], id)
  {
    var rest := events[1..];
    assert forall i :: 0 <= i < |rest| ==> rest[i] == events[i + 1];
    assert forall i :: 1 <= i < |events| ==> events[i] == rest[i - 1];
  }

  lemma {:induction false} NoSteps(events: seq<Event>, id: nat)
    ensures HasStep(events, id) <==> JobEntries(events, id) != []
  {
    if events != [] {
      HeadHas(events, id);
      NoSteps(events[1..], id);
    }
  }

  /** The log in two parts: each holds its own of the job's entries, by whichever id they are picked. */
  lemma SplitEntries(log: seq<Event>, base: nat, id: nat, name: string)
    requires base <= |log| && Named(log, id, name)
    ensures EntriesOf(log[base..], name) == JobEntries(log[base..], id)
    ensures JobEntries(log, id) == JobEntries(log[..base], id) + JobEntries(log[base..], id)
  {
    assert log[..base] + log[base..] == log && log[base..|log|] == log[base..] && log[0..base] == log[..base];
    EntriesConcat(log[..base], log[base..], name);
    PartNamed(log, base, |log|, id, name);
    PartNamed(log, 0, base, id, name);
    EntriesCount(log, id, name);
    EntriesCount(log[..base], id, name);
    EntriesCount(log[base..], id, name);
  }

  /** What a connection is sent of a job: all its entries so far, or none of them. */
  lemma EpochEntries(log: seq<Event>, base: nat, joined: nat, id: nat, name: string)
    requires base <= joined <= |log| && Epoch(log, base, joined, id) && Named(log, id, name)
    ensures EntriesOf(Stream(log[base..], joined - base), name) ==
            if HasEnd(log[..joined], id) then [] else JobEntries(log, id)
  {
    StreamEntries(log[base..], joined - base, name);
    SplitEntries(log, base, id, name);
    NoSteps(log[..base], id);
    NoSteps(log[base..], id);
  }

  // -------------------------------------------------- the client's connections

  function EventOf(item: Item): Event {
    match item
    case Sent(e) => e
    case Notice(job) => Event(0, job, Log("dropped events: a subscriber fell behind"))
  }

  /** What a channel carries. */
  function EventsOf(items: seq<Item>): (events: seq<Event>)
    ensures |events| == |items| && forall i :: 0 <= i < |items| ==> events[i] == EventOf(items[i])
  {
    seq(|items|, i requires 0 <= i < |items| => EventOf(items[i]))
  }

  /** A subscription of the client as it was when it broke: at which moment of the run, and how much had arrived. */
  datatype Connection = Connection(at: nat, sub: nat, got: nat)

  predicate Broke(s0: Jobs, steps: seq<Step>, c: Connection) {
    && c.at <= |steps| && Possible(s0, steps[..c.at])
    && var subs := After(s0, steps[..c.at]).q.feed.subs;
       c.sub in subs && c.got <= |subs[c.sub].sent|
  }

  /** By then it had lost an event. */
  predicate Lossy(s0: Jobs, steps: seq<Step>, c: Connection)
    requires Broke(s0, steps, c)
  {
    After(s0, steps[..c.at]).q.feed.subs[c.sub].lost
  }

  /** The response ends behind the first end event taken from the channel. */
  function Arrived(s0: Jobs, steps: seq<Step>, c: Connection): seq<Event>
    requires Broke(s0, steps, c)
  {
    UntilEnd(EventsOf(After(s0, steps[..c.at]).q.feed.subs[c.sub].sent[..c.got]))
  }

  function AllArrived(s0: Jobs, steps: seq<Step>, broken: seq<Connection>): (parts: seq<seq<Event>>)
    requires forall i :: 0 <= i < |broken| ==> Broke(s0, steps, broken[i])
    ensures |parts| == |broken| && forall i :: 0 <= i < |broken| ==> parts[i] == Arrived(s0, steps, broken[i])
  {
    seq(|broken|, i requires 0 <= i < |broken| => Arrived(s0, steps, broken[i]))
  }

  /** The log only grows, a subscriber that stays has joined where it did, and a new one joins later. */
  predicate Follows(f: Feed, f': Feed) {
    && f.log <= f'.log && f.nextSub <= f'.nextSub && f.cleared <= f'.cleared
    && (forall i :: i in f'.subs && i < f.nextSub ==>
          i in f.subs && f'.subs[i].base == f.subs[i].base && f'.subs[i].joined == f.subs[i].joined)
    && forall i :: i in f'.subs && i >= f.nextSub ==>
         f.cleared <= f'.subs[i].base <= f'.cleared && |f.log| <= f'.subs[i].joined
  }

  /** A smaller number joined no later, to a history cleared no later. */
  predicate SubsInOrder(f: Feed) {
    && (forall a, b :: a in f.subs && b in f.subs && a < b ==>
          f.subs[a].base <= f.subs[b].base && f.subs[a].joined <= f.subs[b].joined)
    && forall a :: a in f.subs ==> f.subs[a].base <= f.cleared && f.subs[a].joined <= |f.log| && a < f.nextSub
  }

  /** In one step at most one subscriber joins. */
  predicate OneFollows(f: Feed, f': Feed) {
    Follows(f, f') && f'.nextSub <= f.nextSub + 1 && forall i :: i in f'.subs && i >= f.nextSub ==> i == f.nextSub
  }

  lemma WorkerFollows(s: Jobs, w: WorkerStep)
    requires WorkerEnabled(s, w) && s.q.feed.cleared <= |s.q.feed.log|
    requires forall i :: i in s.q.feed.subs ==> i < s.q.feed.nextSub
    ensures OneFollows(s.q.feed, WorkerNext(s, w).q.feed)
  {
    match w
    case Emit(payload, gaps) =>
    case Pop =>
    case _ =>
  }

  lemma FinishFollows(s: Jobs, who: Option<nat>, f: FinishStep)
    requires FinishEnabled(s, who, f) && s.q.feed.cleared <= |s.q.feed.log|
    requires forall i :: i in s.q.feed.subs ==> i < s.q.feed.nextSub
    ensures OneFollows(s.q.feed, FinishNext(s, who, f).q.feed)
  {
    match f
    case Announce(gaps) =>
    case Settle(works) =>
    case _ =>
  }

  lemma ReaderFollows(s: Jobs, r: ReaderStep)
    requires forall i :: i in s.q.feed.subs ==> i < s.q.feed.nextSub
    ensures OneFollows(s.q.feed, ReaderNext(s, r).q.feed)
  {
    match r
    case Subscribe =>
    case _ =>
  }

  lemma StepFollows(s: Jobs, step: Step)
    requires Enabled(s, step) && s.q.feed.cleared <= |s.q.feed.log|
    requires forall i :: i in s.q.feed.subs ==> i < s.q.feed.nextSub
    ensures OneFollows(s.q.feed, Next(s, step).q.feed)
  {
    match step
    case Handler(h) =>
    case Work(w) => WorkerFollows(s, w);
    case Finish(who, f) => FinishFollows(s, who, f);
    case Reader(r) => ReaderFollows(s, r);
  }

  lemma FollowsOn(a: Feed, b: Feed, c: Feed)
    requires Follows(a, b) && Follows(b, c)
    ensures Follows(a, c)
  {
  }

  lemma OrderStays(f: Feed, f': Feed)
    requires SubsInOrder(f) && OneFollows(f, f') && FeedTrue(f')
    ensures SubsInOrder(f')
  {
    forall a | a in f'.subs ensures f'.subs[a].base <= f'.cleared && f'.subs[a].joined <= |f'.log| && a < f'.nextSub {
      assert SubscriberTrue(f'.log, f'.subs[a]);
    }
  }

  lemma {:induction false} ReachableOrder(s0: Jobs, steps: seq<Step>)
    requires Initial(s0) && Possible(s0, steps)
    ensures SubsInOrder(After(s0, steps).q.feed)
    decreases |steps|
  {
    if steps != [] {
      var s := After(s0, steps[..|steps|-1]);
      ReachableOrder(s0, steps[..|steps|-1]);
      ReachableTrue(s0, steps[..|steps|-1]);
      ReachableTrue(s0, steps);
      StepFollows(s, steps[|steps|-1]);
      OrderStays(s.q.feed, After(s0, steps).q.feed);
    }
  }

  lemma {:induction false} RunFollows(s0: Jobs, steps: seq<Step>, at: nat)
    requires Initial(s0) && Possible(s0, steps) && at <= |steps| && Possible(s0, steps[..at])
    ensures Follows(After(s0, steps[..at]).q.feed, After(s0, steps).q.feed)
    decreases |steps|
  {
    if at == |steps| {
      assert steps[..at] == steps;
      ReachableOrder(s0, steps);
    } else {
      var init := steps[..|steps|-1];
      assert init[..at] == steps[..at];
      RunFollows(s0, init, at);
      ReachableTrue(s0, init);
      StepFollows(After(s0, init), steps[|steps|-1]);
      FollowsOn(After(s0, steps[..at]).q.feed, After(s0, init).q.feed, After(s0, steps).q.feed);
    }
  }

  lemma SubStream(log: seq<Event>, s: Subscriber)
    requires s.base <= s.joined <= |log| && SentAll(log, s)
    ensures EventsOf(s.sent) == Stream(log[s.base..], s.joined - s.base)
  {
  }

  lemma OneSubEntries(log: seq<Event>, s: Subscriber, id: nat, name: string)
    requires s.base <= s.joined <= |log| && SentAll(log, s) && Epoch(log, s.base, s.joined, id) && Named(log, id, name)
    ensures EntriesOf(EventsOf(s.sent), name) == if HasEnd(log[..s.joined], id) then [] else JobEntries(log, id)
  {
    SubStream(log, s);
    EpochEntries(log, s.base, s.joined, id, name);
  }

  /** A subscriber that lost nothing, and the part of a job's entries it has been sent. */
  lemma SubEntries(f: Feed, i: nat, id: nat, name: string)
    requires FeedTrue(f) && SubsInEpochs(f) && i in f.subs && !f.subs[i].lost && Named(f.log, id, name)
    ensures f.subs[i].joined <= |f.log|
    ensures EntriesOf(EventsOf(f.subs[i].sent), name) ==
            if HasEnd(f.log[..f.subs[i].joined], id) then [] else JobEntries(f.log, id)
  {
    assert SubscriberTrue(f.log, f.subs[i]) && Epoch(f.log, f.subs[i].base, f.subs[i].joined, id);
    OneSubEntries(f.log, f.subs[i], id, name);
  }

  /** No step of the job stands behind an end event of any job. */
  predicate NothingCutOff(events: seq<Event>, id: nat) {
    forall i, j :: 0 <= i < j < |events| && events[i].payload.End? ==> !(IsStep(events[j]) && events[j].id == id)
  }

  /** A response carries all of a job's entries exactly when none stands behind an end event. */
  lemma {:induction false} CutLosesNothing(events: seq<Event>, id: nat, name: string)
    requires Named(events, id, name)
    ensures CutEntries(events, name) <= EntriesOf(events, name)
    ensures CutEntries(events, name) == EntriesOf(events, name) <==> NothingCutOff(events, id)
  {
    if events != [] {
      var (e, rest) := (events[0], events[1..]);
      assert [e] + rest == events;
      PartNamed(events, 1, |events|, id, name);
      CutOnce(e, rest, name);
      EntriesCount(events, id, name);
      EntriesCount(rest, id, name);
      NoSteps(rest, id);
      CutHead(events, id);
      if !e.payload.End? {
        CutLosesNothing(rest, id, name);
      }
    }
  }

  lemma CutHead(events: seq<Event>, id: nat)
    requires events != []
    ensures NothingCutOff(events, id) <==>
      (events[0].payload.End? ==> !HasStep(events[1..], id)) && NothingCutOff(events[1..], id)
  {
    var rest := events[1..];
    assert forall i :: 0 <= i < |rest| ==> rest[i] == events[i + 1];
    assert forall i :: 1 <= i < |events| ==> events[i] == rest[i - 1];
    forall j | 0 <= j < |rest| && events[0].payload.End? && NothingCutOff(events, id)
      ensures !(IsStep(rest[j]) && rest[j].id == id)
    {
      assert events[j + 1] == rest[j];
    }
    if NothingCutOff(events, id) {
      forall i, j | 0 <= i < j < |rest| && rest[i].payload.End? ensures !(IsStep(rest[j]) && rest[j].id == id) {
        assert events[i + 1] == rest[i] && events[j + 1] == rest[j];
      }
    }
  }

  lemma StreamNamed(log: seq<Event>, base: nat, joined: nat, id: nat, name: string)
    requires base <= joined <= |log| && Named(log, id, name)
    ensures Named(Stream(log[base..], joined - base), id, name)
  {
    var since := log[base..];
    var stream := Stream(since, joined - base);
    forall i | 0 <= i < |stream| ensures stream[i] in log {
      if i < |Replay(since[..joined - base])| {
        ReplayFromLog(since[..joined - base], stream[i]);
      }
    }
  }

  /** What a response to one of a job's clients carries, when its subscriber loses nothing. */
  lemma GivenEntries(f: Feed, i: nat, id: nat, name: string)
    requires FeedTrue(f) && SubsInEpochs(f) && i in f.subs && !f.subs[i].lost && Named(f.log, id, name)
    ensures f.subs[i].joined <= |f.log|
    ensures GivenTrue(EventsOf(f.subs[i].sent), HasEnd(f.log[..f.subs[i].joined], id), JobEntries(f.log, id), id, name)
  {
    SubEntries(f, i, id, name);
    TrueSub(f, i, id);
    GivenOfStream(f.log, f.subs[i], id, name);
  }

  /** Nothing of a job that has ended, and else a first part of its entries, the whole when nothing is cut off. */
  predicate GivenTrue(sent: seq<Event>, ended: bool, all: seq<StepEntry>, id: nat, name: string) {
    && CutEntries(sent, name) <= (if ended then [] else all)
    && (!ended ==> (CutEntries(sent, name) == all <==> NothingCutOff(sent, id)))
  }

  lemma GivenOfStream(log: seq<Event>, s: Subscriber, id: nat, name: string)
    requires s.base <= s.joined <= |log| && SentAll(log, s) && Named(log, id, name)
    requires EntriesOf(EventsOf(s.sent), name) == if HasEnd(log[..s.joined], id) then [] else JobEntries(log, id)
    ensures GivenTrue(EventsOf(s.sent), HasEnd(log[..s.joined], id), JobEntries(log, id), id, name)
  {
    SubStream(log, s);
    StreamNamed(log, s.base, s.joined, id, name);
    CutLosesNothing(EventsOf(s.sent), id, name);
  }

  /** What the client takes from the channel, cut at an end event, is a first part of the channel. */
  lemma GotIsPart(sent: seq<Item>, got: nat)
    requires got <= |sent|
    ensures EventsOf(sent[..got]) == EventsOf(sent)[..got]
    ensures UntilEnd(EventsOf(sent[..got])) <= UntilEnd(EventsOf(sent)) <= EventsOf(sent)
  {
    var events := EventsOf(sent);
    assert EventsOf(sent[..got]) == events[..got];
    assert events[..got] + events[got..] == events;
    UntilEndGrows(events[..got], events[got..]);
    UntilEndMeans(events);
  }

  // ------------------------------------------- one connection after another

  /** Joined later, to a history cleared later, and still given no less of a job none of whose steps was cleared. */
  lemma EarlierStreamLess(log: seq<Event>, baseA: nat, joinedA: nat, baseB: nat, joinedB: nat, id: nat, name: string)
    requires baseA <= joinedA <= joinedB <= |log| && baseA <= baseB <= joinedB
    requires !HasStep(log[..baseB], id) && Named(log, id, name)
    ensures CutEntries(Stream(log[baseA..], joinedA - baseA), name)
            <= CutEntries(Stream(log[baseB..], joinedB - baseB), name)
  {
    var (gone, rest) := (log[baseA..baseB], log[baseB..]);
    assert gone + rest == log[baseA..];
    NothingGone(log, baseA, baseB, id, name);
    EarlierClearIsGivenLess(gone, rest, joinedA - baseA, name);
    LaterIsGivenMore(rest, Past(joinedA, baseB), joinedB - baseB, name);
  }

  /** A connection made earlier, as it was at an earlier moment, was given no more of the job than a later one. */
  lemma EarlierIsGivenLess(was: seq<Event>, a: Subscriber, log: seq<Event>, b: Subscriber, id: nat, name: string)
    requires was <= log && a.base <= a.joined <= |was| && SentAll(was, a)
    requires b.base <= b.joined <= |log| && SentAll(log, b) && a.base <= b.base && a.joined <= b.joined
    requires !HasStep(log[..b.base], id) && Named(log, id, name)
    ensures CutEntries(EventsOf(a.sent), name) <= CutEntries(EventsOf(b.sent), name)
  {
    SubStream(was, a);
    SubStream(log, b);
    LongerLog(was, log, a.base, a.joined, name);
    EarlierStreamLess(log, a.base, a.joined, b.base, b.joined, id, name);
  }

  lemma LongerLog(was: seq<Event>, log: seq<Event>, base: nat, joined: nat, name: string)
    requires was <= log && base <= joined <= |was|
    ensures CutEntries(Stream(was[base..], joined - base), name) <= CutEntries(Stream(log[base..], joined - base), name)
  {
    var (a, b) := (Stream(was[base..], joined - base), Stream(log[base..], joined - base));
    var since := joined - base;
    assert log[base..][..since] == was[base..][..since];
    assert log[base..][since..] == was[base..][since..] + log[|was|..];
    assert b == a + log[|was|..];
    UntilEndGrows(a, log[|was|..]);
    assert UntilEnd(b)[..|UntilEnd(a)|] == UntilEnd(a);
    PartEntries(UntilEnd(b), |UntilEnd(a)|, name);
  }

  lemma NothingGone(log: seq<Event>, from: nat, to: nat, id: nat, name: string)
    requires from <= to <= |log| && !HasStep(log[..to], id) && Named(log, id, name)
    ensures EntriesOf(log[from..to], name) == []
  {
    PartNamed(log, from, to, id, name);
    EntriesCount(log[from..to], id, name);
    NoSteps(log[from..to], id);
    assert log[..to][from..to] == log[from..to];
    PartHas(log[..to], from, to, id);
  }

  /** The broken connection of a client, seen from the one it made later. */
  lemma ArrivedIsGiven(s0: Jobs, steps: seq<Step>, f: Feed, c: Connection, i: nat, id: nat, name: string)
    requires Initial(s0) && Possible(s0, steps) && f == After(s0, steps).q.feed && Named(f.log, id, name)
    requires Broke(s0, steps, c) && !Lossy(s0, steps, c) && c.sub < i
    requires i in f.subs && !f.subs[i].lost && f.subs[i].joined <= |f.log| && !HasEnd(f.log[..f.subs[i].joined], id)
    ensures EntriesOf(Arrived(s0, steps, c), name) <= CutEntries(EventsOf(f.subs[i].sent), name)
  {
    ReachableStreams(s0, steps[..c.at]);
    ReachableStreams(s0, steps);
    ReachableOrder(s0, steps[..c.at]);
    RunFollows(s0, steps, c.at);
    SubIsGiven(After(s0, steps[..c.at]).q.feed, c.sub, c.got, f, i, id, name);
  }

  lemma SubIsGiven(was: Feed, a: nat, got: nat, f: Feed, b: nat, id: nat, name: string)
    requires FeedTrue(was) && SubsInEpochs(was) && SubsInOrder(was) && a in was.subs && !was.subs[a].lost
    requires got <= |was.subs[a].sent| && Follows(was, f) && a < b
    requires FeedTrue(f) && SubsInEpochs(f) && b in f.subs && !f.subs[b].lost && f.subs[b].joined <= |f.log|
    requires !HasEnd(f.log[..f.subs[b].joined], id) && Named(f.log, id, name)
    ensures EntriesOf(UntilEnd(EventsOf(was.subs[a].sent[..got])), name) <= CutEntries(EventsOf(f.subs[b].sent), name)
  {
    JoinedInTurn(was, f, a, b);
    TrueSub(was, a, id);
    TrueSub(f, b, id);
    EarlierIsGivenLess(was.log, was.subs[a], f.log, f.subs[b], id, name);
    GotEntries(was.subs[a].sent, got, name);
  }

  lemma GotEntries(sent: seq<Item>, got: nat, name: string)
    requires got <= |sent|
    ensures EntriesOf(UntilEnd(EventsOf(sent[..got])), name) <= CutEntries(EventsOf(sent), name)
  {
    GotIsPart(sent, got);
    var (part, all) := (UntilEnd(EventsOf(sent[..got])), UntilEnd(EventsOf(sent)));
    assert all[..|part|] == part;
    PartEntries(UntilEnd(EventsOf(sent)), |UntilEnd(EventsOf(sent[..got]))|, name);
  }

  lemma TrueSub(f: Feed, i: nat, id: nat)
    requires FeedTrue(f) && SubsInEpochs(f) && i in f.subs && !f.subs[i].lost
    ensures var s := f.subs[i]; s.base <= s.joined <= |f.log| && SentAll(f.log, s) && Epoch(f.log, s.base, s.joined, id)
  {
    assert SubscriberTrue(f.log, f.subs[i]);
  }

  lemma JoinedInTurn(was: Feed, f: Feed, a: nat, b: nat)
    requires SubsInOrder(was) && Follows(was, f) && a in was.subs && b in f.subs && a < b
    ensures was.subs[a].base <= f.subs[b].base && was.subs[a].joined <= f.subs[b].joined
  {
  }

  /** What a client shows once the response it has last been given is at its end. */
  function Shown(s0: Jobs, steps: seq<Step>, broken: seq<Connection>, s: Subscriber, name: string): ClientState
    requires forall k :: 0 <= k < |broken| ==> Broke(s0, steps, broken[k])
  {
    Fold(Watched(INITIAL, AllArrived(s0, steps, broken), name), UntilEnd(EventsOf(s.sent)), name)
  }

  /**
   In every run of the queue: a client that knows a job by its directory id may
   have lost any number of earlier connections, each begun at any moment and
   broken off anywhere, and a response ends behind the first end event of any
   job.  A connection that lost nothing and was made before the job's own end
   event settles what the client shows, order included: the one fold of what
   that response carried, whatever the earlier ones did.
   */
  lemma ReconnectingSettles(s0: Jobs, steps: seq<Step>, f: Feed, broken: seq<Connection>, i: nat, id: nat, name: string)
    requires Initial(s0) && Possible(s0, steps) && f == After(s0, steps).q.feed && Named(f.log, id, name)
    requires forall k :: 0 <= k < |broken| ==>
      Broke(s0, steps, broken[k]) && !Lossy(s0, steps, broken[k]) && broken[k].sub < i
    requires i in f.subs && !f.subs[i].lost && f.subs[i].joined <= |f.log| && !HasEnd(f.log[..f.subs[i].joined], id)
    ensures Shown(s0, steps, broken, f.subs[i], name).steps == FoldSteps([], CutEntries(EventsOf(f.subs[i].sent), name))
  {
    var parts := AllArrived(s0, steps, broken);
    var given := CutEntries(EventsOf(f.subs[i].sent), name);
    forall k | 0 <= k < |parts| ensures EntriesOf(parts[k], name) <= given {
      ArrivedIsGiven(s0, steps, f, broken[k], i, id, name);
    }
    WatchedStaysOnCourse(INITIAL, parts, name, given);
    var before := Watched(INITIAL, parts, name);
    FoldFollowsSteps(before, UntilEnd(EventsOf(f.subs[i].sent)), name);
    WholeSettles(before.steps, given);
  }

  /**
   So such a client shows the very list that one fold of all the job's step
   events gives if and only if every step behind that end event had been given
   its last report before it; where no report of the job repeats, if and only
   if no step of the job stands behind an end event in its stream.  After the
   job's own end the history is gone: a connection made then adds nothing.
   */
  lemma ReconnectingLosesNoStep(s0: Jobs, steps: seq<Step>, f: Feed, broken: seq<Connection>, i: nat, id: nat,
                                name: string)
    requires Initial(s0) && Possible(s0, steps) && f == After(s0, steps).q.feed && Named(f.log, id, name)
    requires forall k :: 0 <= k < |broken| ==>
      Broke(s0, steps, broken[k]) && !Lossy(s0, steps, broken[k]) && broken[k].sub < i
    requires i in f.subs && !f.subs[i].lost
    ensures f.subs[i].joined <= |f.log|
    ensures var (all, sent) := (JobEntries(f.log, id), EventsOf(f.subs[i].sent));
      var shown := Shown(s0, steps, broken, f.subs[i], name).steps;
      if HasEnd(f.log[..f.subs[i].joined], id) then
        shown == Watched(INITIAL, AllArrived(s0, steps, broken), name).steps
      else
        && CutEntries(sent, name) <= all
        && (shown == FoldSteps([], all) <==> LastReportsIn(CutEntries(sent, name), all))
        && (Different(all) ==> (shown == FoldSteps([], all) <==> NothingCutOff(sent, id)))
  {
    var (all, sent) := (JobEntries(f.log, id), EventsOf(f.subs[i].sent));
    ReachableStreams(s0, steps);
    GivenEntries(f, i, id, name);
    if HasEnd(f.log[..f.subs[i].joined], id) {
      FoldFollowsSteps(Watched(INITIAL, AllArrived(s0, steps, broken), name), UntilEnd(sent), name);
    } else {
      ReconnectingSettles(s0, steps, f, broken, i, id, name);
      PartShowsAll(CutEntries(sent, name), all);
      if Different(all) {
        DifferentNeedsAll(CutEntries(sent, name), all);
      }
    }
  }

  /** What arrived on any connection, lossy or not, is some of what was emitted. */
  lemma AnyArrived(s0: Jobs, steps: seq<Step>, c: Connection, name: string)
    requires Initial(s0) && Possible(s0, steps) && Broke(s0, steps, c)
    ensures forall x :: x in EntriesOf(Arrived(s0, steps, c), name) ==>
      x in EntriesOf(After(s0, steps).q.feed.log, name)
  {
    var f, log := After(s0, steps[..c.at]).q.feed, After(s0, steps).q.feed.log;
    ReachableStreams(s0, steps[..c.at]);
    RunFollows(s0, steps, c.at);
    StepsFromLog(f, log, c.sub, c.got);
    UntilEndMeans(EventsOf(f.subs[c.sub].sent[..c.got]));
    EntriesFrom(Arrived(s0, steps, c), log, name);
  }

  lemma StepsFromLog(f: Feed, log: seq<Event>, i: nat, got: nat)
    requires AllFromLog(f) && i in f.subs && got <= |f.subs[i].sent| && f.log <= log
    ensures forall e :: e in EventsOf(f.subs[i].sent[..got]) && IsStep(e) ==> e in log
  {
    var sent := f.subs[i].sent;
    assert FromLog(f.log, sent);
    forall e | e in EventsOf(sent[..got]) && IsStep(e) ensures e in log {
      var k :| 0 <= k < got && EventsOf(sent[..got])[k] == e;
      assert sent[k] == Sent(e);
      var m :| 0 <= m < |f.log| && f.log[m] == e;
      assert log[m] == e;
    }
  }

  /**
   Even when earlier connections lost events of their own, a connection that
   lost nothing and was made before the job's end event leaves the client with
   no step but the job's, and with each one as it was last reported unless a
   report of it stands behind an end event; with nothing cut off, exactly the
   job's steps.  A step the client had missed may stand after later ones.
   */
  lemma LossesAreMended(s0: Jobs, steps: seq<Step>, f: Feed, broken: seq<Connection>, i: nat, id: nat, name: string)
    requires Initial(s0) && Possible(s0, steps) && f == After(s0, steps).q.feed && Named(f.log, id, name)
    requires forall k :: 0 <= k < |broken| ==> Broke(s0, steps, broken[k])
    requires i in f.subs && !f.subs[i].lost && f.subs[i].joined <= |f.log| && !HasEnd(f.log[..f.subs[i].joined], id)
    ensures var (all, sent) := (JobEntries(f.log, id), EventsOf(f.subs[i].sent));
      var shown := Shown(s0, steps, broken, f.subs[i], name).steps;
      && ShowsOnly(shown, all) && CutEntries(sent, name) <= all
      && RightUnlessCut(shown, CutEntries(sent, name), all)
      && (NothingCutOff(sent, id) ==> SameSteps(shown, FoldSteps([], all)))
  {
    var parts := AllArrived(s0, steps, broken);
    var (all, sent) := (JobEntries(f.log, id), EventsOf(f.subs[i].sent));
    EntriesCount(f.log, id, name);
    BeforeShowsOnly(s0, steps, broken, name);
    ReachableStreams(s0, steps);
    GivenEntries(f, i, id, name);
    ResponseMends(Watched(INITIAL, parts, name), sent, all, name);
  }

  lemma BeforeShowsOnly(s0: Jobs, steps: seq<Step>, broken: seq<Connection>, name: string)
    requires Initial(s0) && Possible(s0, steps)
    requires forall k :: 0 <= k < |broken| ==> Broke(s0, steps, broken[k])
    ensures ShowsOnly(Watched(INITIAL, AllArrived(s0, steps, broken), name).steps,
                      EntriesOf(After(s0, steps).q.feed.log, name))
  {
    var parts, all := AllArrived(s0, steps, broken), EntriesOf(After(s0, steps).q.feed.log, name);
    forall k | 0 <= k < |parts| ensures forall e :: e in EntriesOf(parts[k], name) ==> e in all {
      AnyArrived(s0, steps, broken[k], name);
    }
    WatchedShowsOnly(INITIAL, parts, name, all);
  }

  lemma ResponseMends(before: ClientState, sent: seq<Event>, all: seq<StepEntry>, name: string)
    requires ShowsOnly(before.steps, all) && CutEntries(sent, name) <= all
    ensures var (given, shown) := (CutEntries(sent, name), Fold(before, UntilEnd(sent), name).steps);
      && ShowsOnly(shown, all) && RightUnlessCut(shown, given, all)
      && (given == all ==> SameSteps(shown, FoldSteps([], all)))
  {
    var given := CutEntries(sent, name);
    FoldFollowsSteps(before, UntilEnd(sent), name);
    AnyPartShowsOnly(before.steps, given, all);
    forall x | !IsCutOff(given, all, x)
      ensures Lookup(FoldSteps(before.steps, given), x) == Lookup(FoldSteps([], all), x)
    {
      PartMends(before.steps, given, all, x);
    }
  }

  /** A client without an earlier connection. */
  lemma FreshClientShowsAll(s0: Jobs, steps: seq<Step>, f: Feed, i: nat, id: nat, name: string)
    requires Initial(s0) && Possible(s0, steps) && f == After(s0, steps).q.feed && Named(f.log, id, name)
    requires i in f.subs && !f.subs[i].lost && Different(JobEntries(f.log, id))
    ensures f.subs[i].joined <= |f.log|
    ensures Fold(INITIAL, UntilEnd(EventsOf(f.subs[i].sent)), name).steps == FoldSteps([], JobEntries(f.log, id))
            <==>
            !HasStep(f.log, id)
            || (!HasEnd(f.log[..f.subs[i].joined], id) && NothingCutOff(EventsOf(f.subs[i].sent), id))
  {
    ReconnectingLosesNoStep(s0, steps, f, [], i, id, name);
    ReachableStreams(s0, steps);
    GivenEntries(f, i, id, name);
    NoSteps(f.log, id);
    var entries := JobEntries(f.log, id);
    if entries != [] {
      FoldMeans([], entries);
      NamesHaveAll([], entries, 0);
      assert |Names(FoldSteps([], entries))| > 0;
    }
  }

  lemma AfterOneMore(s0: Jobs, steps: seq<Step>, at: nat)
    requires Possible(s0, steps) && at < |steps| && Possible(s0, steps[..at]) && Possible(s0, steps[..at+1])
    ensures Enabled(After(s0, steps[..at]), steps[at])
    ensures After(s0, steps[..at+1]) == Next(After(s0, steps[..at]), steps[at])
  {
    assert steps[..at+1][..at] == steps[..at];
  }

  lemma JoinedThen(f: Feed, f': Feed)
    requires Follows(Joined(f), f') && f.nextSub in f'.subs
    ensures f'.subs[f.nextSub].joined == |f.log| <= |f'.log| && f'.log[..|f.log|] == f.log
  {
  }

  /**
   The end event is in the log as it was when a subscriber joined exactly when
   the job had been announced by then.
   */
  lemma JoinedAfterTheEnd(s0: Jobs, steps: seq<Step>, at: nat, s: Jobs, f: Feed, id: nat)
    requires Initial(s0) && Possible(s0, steps) && at < |steps| && steps[at] == Reader(Subscribe)
    requires Possible(s0, steps[..at]) && Possible(s0, steps[..at+1])
    requires s == After(s0, steps[..at]) && f == After(s0, steps).q.feed && s.q.feed.nextSub in f.subs
    ensures f.subs[s.q.feed.nextSub].joined <= |f.log|
    ensures HasEnd(f.log[..f.subs[s.q.feed.nextSub].joined], id) <==> IsAnnounced(s.trail, id)
  {
    AfterOneMore(s0, steps, at);
    ReachableStreams(s0, steps[..at]);
    RunFollows(s0, steps, at + 1);
    JoinedThen(s.q.feed, f);
  }

  // --------------------------------------------------------- the failing runs

  const STEP := StepData(StepEntry("resolve", "running", None, None))

  /** A job runs and emits a step. */
  lemma EmitsAStep(s0: Jobs, steps: seq<Step>, s: Jobs) returns (more: seq<Step>, s': Jobs)
    requires Leads(s0, steps, s) && s.worker == Idle && s.q.pending != []
    ensures Leads(s0, more, s')
    ensures var job := s.q.pending[0];
      && s'.worker == Running(job, false) && s'.q.pending == s.q.pending[1..] && s'.cancels == s.cancels && s'.x == s.x
      && s'.q.feed.log == s.q.feed.log + [Event(job.id, job.key.storeId, STEP)]
      && s'.q.feed.nextSub == s.q.feed.nextSub && s'.q.feed.cleared == |s.q.feed.log| && s'.q.current == Some(job)
  {
    var a, x := OneMore(s0, steps, s, Work(Pop));
    more, s' := OneMore(s0, a, x, Work(Emit(STEP, {})));
  }

  /** It returns, is finalized and announced, and a client joins. */
  lemma EndsAndIsJoined(s0: Jobs, steps: seq<Step>, s: Jobs) returns (more: seq<Step>, s': Jobs)
    requires Leads(s0, steps, s) && s.worker == Running(Job(1, KEY), false) && s.x == TrackedIn(FRESH.x, Job(1, KEY))
    ensures Leads(s0, more, s') && s'.q.feed.log == s.q.feed.log + [EndEvent(Job(1, KEY), Done)]
    ensures var i := s.q.feed.nextSub;
      i in s'.q.feed.subs && s'.q.feed.subs[i].sent == [] && !s'.q.feed.subs[i].lost
  {
    var a, x := ReturnsAndIsSettled(s0, steps, s);
    var b, y := OneMore(s0, a, x, Finish(None, Drop));
    var c, z := OneMore(s0, b, y, Finish(None, Announce({})));
    more, s' := OneMore(s0, c, z, Reader(Subscribe));
  }

  lemma ReturnsAndIsSettled(s0: Jobs, steps: seq<Step>, s: Jobs) returns (more: seq<Step>, s': Jobs)
    requires Leads(s0, steps, s) && s.worker == Running(Job(1, KEY), false) && s.x == TrackedIn(FRESH.x, Job(1, KEY))
    ensures Leads(s0, more, s') && s'.q.feed == s.q.feed && FinishEnabled(s', None, Drop)
    ensures s'.worker.f.job == Job(1, KEY) && s'.worker.f.state == Done
  {
    var a, x := OneMore(s0, steps, s, Work(Return(NoError)));
    var b, y := OneMore(s0, a, x, Finish(None, LookUp));
    more, s' := OneMore(s0, b, y, Finish(None, Settle(true)));
  }

  const ENDED_LOG := [Event(1, KEY.storeId, STEP), EndEvent(Job(1, KEY), Done)]

  lemma EndedLog()
    ensures Named(ENDED_LOG, 1, KEY.storeId) && HasStep(ENDED_LOG, 1)
    ensures FoldSteps([], JobEntries(ENDED_LOG, 1)) == [STEP.entry]
  {
    assert ENDED_LOG[0].id == 1 && IsStep(ENDED_LOG[0]);
    assert ENDED_LOG[1..] == [EndEvent(Job(1, KEY), Done)];
    assert JobEntries(ENDED_LOG[1..], 1) == [];
  }

  /**
   A job emits a step and ends; a client that connects then, or reconnects, is
   sent nothing and has lost nothing, and does not learn of the step.
   */
  lemma TooLateAConnection() returns (s0: Jobs, steps: seq<Step>, i: nat)
    ensures Initial(s0) && Possible(s0, steps)
    ensures var f := After(s0, steps).q.feed;
      && i in f.subs && f.subs[i].sent == [] && !f.subs[i].lost
      && Named(f.log, 1, KEY.storeId) && HasStep(f.log, 1)
      && Fold(INITIAL, EventsOf(f.subs[i].sent), KEY.storeId).steps != FoldSteps([], JobEntries(f.log, 1))
  {
    s0 := FRESH;
    assert Leads(s0, [], s0);
    var a, x := Submits(s0, [], s0);
    var b, y := EmitsAStep(s0, a, x);
    var c, z := EndsAndIsJoined(s0, b, y);
    steps, i := c, y.q.feed.nextSub;
    assert z.q.feed.log == ENDED_LOG;
    EndedLog();
  }

  const NEXT := JobKey("other", KEY.kind, "20260101T000001Z")
  const RANK := StepData(StepEntry("rank", "running", None, None))

  /** A handler of another project queues a job behind the first. */
  lemma NextSubmits(s0: Jobs, steps: seq<Step>, s: Jobs) returns (more: seq<Step>, s': Jobs)
    requires Leads(s0, steps, s) && s.q.pending == [Job(1, KEY)] && s.q.nextId == 1 && !s.q.closed && NEXT !in s.held
    requires s.cancels == map[]
    ensures Leads(s0, more, s')
    ensures s'.worker == s.worker && s'.cancels == s.cancels && 2 in s'.x.byQueue && s'.x.byQueue[2] == Job(2, NEXT)
    ensures s'.q == s.q.(nextId := 2, pending := [Job(1, KEY), Job(2, NEXT)])
  {
    var a, x := OneMore(s0, steps, s, Handler(Reserve(NEXT)));
    more, s' := OneMore(s0, a, x, Handler(Submit(NEXT)));
    assert s.q.pending + [Job(2, NEXT)] == [Job(1, KEY), Job(2, NEXT)];
  }

  /** It is cancelled while it waits, up to its end event, which enters the running job's history. */
  lemma NextIsCancelled(s0: Jobs, steps: seq<Step>, s: Jobs) returns (more: seq<Step>, s': Jobs)
    requires Leads(s0, steps, s) && s.worker == Running(Job(1, KEY), false) && s.q.current == Some(Job(1, KEY))
    requires s.q.pending == [Job(2, NEXT)] && s.cancels == map[]
    requires 2 in s.x.byQueue && s.x.byQueue[2] == Job(2, NEXT)
    ensures Leads(s0, more, s') && s'.worker == s.worker
    ensures s'.q.feed == EmitTo(s.q.feed, EndEvent(Job(2, NEXT), Cancelled), {})
  {
    var a, x := NextIsSettled(s0, steps, s);
    var b, y := OneMore(s0, a, x, Finish(Some(2), Drop));
    more, s' := OneMore(s0, b, y, Finish(Some(2), Announce({})));
  }

  lemma NextIsSettled(s0: Jobs, steps: seq<Step>, s: Jobs) returns (more: seq<Step>, s': Jobs)
    requires Leads(s0, steps, s) && s.worker == Running(Job(1, KEY), false) && s.q.current == Some(Job(1, KEY))
    requires s.q.pending == [Job(2, NEXT)] && s.cancels == map[]
    requires 2 in s.x.byQueue && s.x.byQueue[2] == Job(2, NEXT)
    ensures Leads(s0, more, s') && s'.worker == s.worker && s'.q.feed == s.q.feed && FinishEnabled(s', Some(2), Drop)
    ensures s'.cancels[2].job == Job(2, NEXT) && s'.cancels[2].state == Cancelled
  {
    var a, x := OneMore(s0, steps, s, Handler(Cancel(2)));
    assert Position(s.q.pending, 2) == 0;
    var b, y := OneMore(s0, a, x, Finish(Some(2), LookUp));
    more, s' := OneMore(s0, b, y, Finish(Some(2), Settle(true)));
  }

  const CUT_LOG := [Event(1, KEY.storeId, STEP), EndEvent(Job(2, NEXT), Cancelled), Event(1, KEY.storeId, RANK)]

  lemma CutLogEntries()
    ensures JobEntries(CUT_LOG, 1) == [STEP.entry, RANK.entry]
    ensures EntriesOf(UntilEnd(CUT_LOG), KEY.storeId) == [STEP.entry]
  {
    var (a, e, b) := (CUT_LOG[0], CUT_LOG[1], CUT_LOG[2]);
    assert CUT_LOG[1..] == [e, b] && [e, b][1..] == [b] && [b][1..] == [];
    assert JobEntries([b], 1) == [RANK.entry] && JobEntries([e, b], 1) == [RANK.entry];
    assert UntilEnd([e, b]) == [e] && UntilEnd(CUT_LOG) == [a, e];
    assert [a, e][1..] == [e] && [e][1..] == [];
    assert EntriesOf([e], KEY.storeId) == [];
  }

  lemma CutLogReplay()
    ensures Replay(CUT_LOG) == CUT_LOG
  {
    NonStepsBound(CUT_LOG);
    ReplayIsDrop(CUT_LOG);
    DropNone(CUT_LOG);
  }

  lemma CutLogShows()
    ensures FoldSteps([], [STEP.entry]) == [STEP.entry]
    ensures FoldSteps([], [STEP.entry, RANK.entry]) == [STEP.entry, RANK.entry]
    ensures Fold(INITIAL, UntilEnd(CUT_LOG), KEY.storeId).steps == [STEP.entry]
  {
    assert [STEP.entry] == [STEP.entry] + [] && [STEP.entry, RANK.entry] == [STEP.entry] + [RANK.entry];
    assert [RANK.entry] == [RANK.entry] + [];
    FoldOne([], STEP.entry, []);
    FoldOne([], STEP.entry, [RANK.entry]);
    FoldOne([STEP.entry], RANK.entry, []);
    CutLogEntries();
    FoldFollowsSteps(INITIAL, UntilEnd(CUT_LOG), KEY.storeId);
  }

  /** A client of job 1 whose subscriber lost nothing is given its first step and not its second. */
  predicate MissesAStep(f: Feed, i: nat) {
    && i in f.subs && !f.subs[i].lost && f.subs[i].joined <= |f.log| && !HasEnd(f.log[..f.subs[i].joined], 1)
    && Named(f.log, 1, KEY.storeId) && Different(JobEntries(f.log, 1))
    && EventsOf(f.subs[i].sent) == f.log
    && Fold(INITIAL, UntilEnd(EventsOf(f.subs[i].sent)), KEY.storeId).steps == [STEP.entry]
    && FoldSteps([], JobEntries(f.log, 1)) == [STEP.entry, RANK.entry]
  }

  lemma JoinsWhole(f: Feed)
    requires f.history == f.log == CUT_LOG
    ensures var s := Joined(f).subs[f.nextSub]; !s.lost && s.joined == 3 && EventsOf(s.sent) == CUT_LOG
  {
    assert f.history[..3] == f.history;
  }

  lemma JoinsCutLog(f: Feed)
    requires FeedTrue(f) && f.log == CUT_LOG && f.cleared == 0
    ensures MissesAStep(Joined(f), f.nextSub)
  {
    assert f.log[0..] == CUT_LOG && CUT_LOG[..3] == CUT_LOG;
    CutLogReplay();
    JoinsWhole(f);
    CutLogEntries();
    CutLogShows();
  }

  lemma CutRun() returns (steps: seq<Step>, s: Jobs)
    ensures Leads(FRESH, steps, s) && s.q.feed.log == CUT_LOG && s.q.feed.cleared == 0
  {
    assert Leads(FRESH, [], FRESH);
    var a, x := Submits(FRESH, [], FRESH);
    var b, y := NextSubmits(FRESH, a, x);
    var c, z := EmitsAStep(FRESH, b, y);
    var d, u := NextIsCancelled(FRESH, c, z);
    steps, s := OneMore(FRESH, d, u, Work(Emit(RANK, {})));
    assert s.q.feed.log == u.q.feed.log + [CUT_LOG[2]];
  }

  /**
   While a job runs, another that waits is cancelled: its end event closes every
   response that is given it, then or on reconnecting, and the step the running
   job emits next is lost to its client.
   */
  lemma CutOffByAnotherEnd() returns (s0: Jobs, steps: seq<Step>, i: nat)
    ensures Initial(s0) && Possible(s0, steps) && MissesAStep(After(s0, steps).q.feed, i)
  {
    s0 := FRESH;
    var a, x := CutRun();
    var b, y := OneMore(s0, a, x, Reader(Subscribe));
    steps, i := b, x.q.feed.nextSub;
    ReachableTrue(s0, a);
    JoinsCutLog(x.q.feed);
  }

  const OTHER := JobKey("other", KEY.kind, KEY.storeId)

  /** A directory of the same name, in another project: names are unique within one. */
  lemma OtherSubmits(s0: Jobs, steps: seq<Step>, s: Jobs) returns (more: seq<Step>, s': Jobs)
    requires Leads(s0, steps, s) && OTHER !in s.held && !s.q.closed
    ensures Leads(s0, more, s')
    ensures s'.worker == s.worker
      && s'.q == s.q.(nextId := s.q.nextId + 1, pending := s.q.pending + [Job(s.q.nextId + 1, OTHER)])
  {
    var a, x := OneMore(s0, steps, s, Handler(Reserve(OTHER)));
    more, s' := OneMore(s0, a, x, Handler(Submit(OTHER)));
  }

  /**
   Two projects queue an analysis in the same second.  While the first runs, a
   client of the second, which still waits, shows the step of the first.
   */
  lemma TwoProjectsShareAName() returns (s0: Jobs, steps: seq<Step>)
    ensures Initial(s0) && Possible(s0, steps)
    ensures var s := After(s0, steps);
      && s.q.pending == [Job(2, OTHER)] && CarriesName(s.q.feed.log, 2, OTHER.storeId)
      && JobEntries(s.q.feed.log, 2) == [] && EntriesOf(s.q.feed.log, OTHER.storeId) == [STEP.entry]
  {
    s0 := FRESH;
    assert Leads(s0, [], s0);
    var a, x := Submits(s0, [], s0);
    var b, y := OtherSubmits(s0, a, x);
    var c, z := EmitsAStep(s0, b, y);
    steps := c;
    assert z.q.feed.log == [Event(1, KEY.storeId, STEP)];
    assert z.q.feed.log[1..] == [];
  }
}
