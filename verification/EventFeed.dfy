/**
 The queue's event feed: what it emits, the history it replays and what each
 subscriber's bounded channel is sent.

 Source: internal/jobs/queue.go, Subscribe, publish and deliverLocked.
 */
module EventFeed {
  import opened EventStream

  /** What a channel carries: an event, or the notice that events were dropped. */
  datatype Item = Sent(e: Event) | Notice(job: string)

  /**
   A subscriber: everything put into its channel so far, how much of it the
   reader has taken, and whether the last thing put in is the notice.  History
   variables: where the log had last been cleared and how long it was when the
   subscriber joined, and whether an event for it was ever dropped.
   */
  datatype Subscriber = Subscriber(sent: seq<Item>, taken: nat, notified: bool, base: nat, joined: nat, lost: bool)

  /** log is every event ever emitted, cleared its length when the history was last cleared. */
  datatype Feed = Feed(history: seq<Event>, subs: map<nat, Subscriber>, nextSub: nat, log: seq<Event>, cleared: nat)

  predicate HasRoom(s: Subscriber) {
    |s.sent| < s.taken + CHANNEL_SIZE
  }

  /** deliverLocked.  gap: the reader takes an item between the two attempts to send. */
  function Delivered(s: Subscriber, e: Event, gap: bool): (s': Subscriber)
    ensures s'.lost <==> s.lost || |s.sent| >= s.taken + 162
    ensures |s.sent| < s.taken + 162 ==> s'.sent == s.sent + [Sent(e)] && s'.taken == s.taken && !s'.notified
    ensures |s.sent| >= s.taken + 162 ==>
      s'.sent == s.sent || (s'.sent == s.sent + [Notice(e.job)] && !s.notified && gap)
    ensures |s.sent| == s.taken + 162 && gap && !s.notified ==> s'.sent == s.sent + [Notice(e.job)] && s'.notified
  {
    if HasRoom(s) then s.(sent := s.sent + [Sent(e)], notified := false)
    else if s.notified then s.(lost := true)
    else
      var later := if gap && s.taken < |s.sent| then s.(taken := s.taken + 1) else s;
      if HasRoom(later) then later.(sent := s.sent + [Notice(e.job)], notified := true, lost := true)
      else s.(lost := true)
  }

  function EmitTo(f: Feed, e: Event, gaps: set<nat>): Feed {
    f.(history := Appended(f.history, e),
       subs := map i | i in f.subs :: Delivered(f.subs[i], e, i in gaps),
       log := f.log + [e])
  }

  function Cleared(f: Feed): Feed {
    f.(history := [], cleared := |f.log|)
  }

  function AsSent(events: seq<Event>): (items: seq<Item>)
    ensures |items| == |events| && forall i :: 0 <= i < |items| ==> items[i] == Sent(events[i])
  {
    seq(|events|, i requires 0 <= i < |events| => Sent(events[i]))
  }

  /** Subscribe: a channel filled with as much of the history as it holds. */
  function Joined(f: Feed): Feed {
    var sub := Subscriber(AsSent(f.history[..Least(|f.history|, CHANNEL_SIZE)]), 0, false,
                          f.cleared, |f.log|, |f.history| > CHANNEL_SIZE);
    f.(subs := f.subs[f.nextSub := sub], nextSub := f.nextSub + 1)
  }

  /** The reader of subscriber i takes the next item. */
  function Taken(f: Feed, i: nat): Feed {
    if i in f.subs && f.subs[i].taken < |f.subs[i].sent|
    then f.(subs := f.subs[i := f.subs[i].(taken := f.subs[i].taken + 1)])
    else f
  }

  function Left(f: Feed, i: nat): Feed {
    f.(subs := f.subs - {i})
  }

  /** The notices stand alone: each is followed by an event. */
  predicate Spaced(sent: seq<Item>) {
    forall i :: 0 <= i < |sent| - 1 && sent[i].Notice? ==> sent[i+1].Sent?
  }

  /** What was sent to a subscriber that never lost an event. */
  predicate SentAll(log: seq<Event>, s: Subscriber)
    requires s.base <= s.joined <= |log|
  {
    s.sent == AsSent(Stream(log[s.base..], s.joined - s.base))
  }

  /** Whatever was sent had been emitted. */
  predicate FromLog(log: seq<Event>, sent: seq<Item>) {
    forall i :: 0 <= i < |sent| && sent[i].Sent? ==> sent[i].e in log
  }

  predicate SubscriberTrue(log: seq<Event>, s: Subscriber) {
    && s.taken <= |s.sent| <= s.taken + CHANNEL_SIZE
    && s.base <= s.joined <= |log|
    && (!s.lost ==> SentAll(log, s))
    && (s.sent != [] && s.sent[|s.sent|-1].Notice? ==> s.notified)
    && Spaced(s.sent)
  }

  predicate FeedTrue(f: Feed) {
    && f.cleared <= |f.log|
    && f.history == Replay(f.log[f.cleared..])
    && forall i :: i in f.subs ==> i < f.nextSub && SubscriberTrue(f.log, f.subs[i])
  }

  predicate AllFromLog(f: Feed) {
    forall i :: i in f.subs ==> FromLog(f.log, f.subs[i].sent)
  }

  lemma StreamGrows(log: seq<Event>, base: nat, joined: nat, e: Event)
    requires base <= joined <= |log|
    ensures Stream((log + [e])[base..], joined - base) == Stream(log[base..], joined - base) + [e]
  {
    var (was, now) := (log[base..], (log + [e])[base..]);
    assert now == was + [e];
    assert now[..joined - base] == was[..joined - base];
    assert now[joined - base..] == was[joined - base..] + [e];
  }

  lemma DeliveredFromLog(log: seq<Event>, s: Subscriber, e: Event, gap: bool)
    requires FromLog(log, s.sent)
    ensures FromLog(log + [e], Delivered(s, e, gap).sent)
  {
    assert e == (log + [e])[|log|];
    assert forall x :: x in log ==> x in log + [e];
  }

  lemma DeliveredTrue(log: seq<Event>, s: Subscriber, e: Event, gap: bool)
    requires SubscriberTrue(log, s)
    ensures SubscriberTrue(log + [e], Delivered(s, e, gap))
  {
    var s' := Delivered(s, e, gap);
    if !s'.lost {
      var was := Stream(log[s.base..], s.joined - s.base);
      StreamGrows(log, s.base, s.joined, e);
      assert AsSent(was + [e]) == AsSent(was) + [Sent(e)];
    }
  }

  lemma EmitKeepsFromLog(f: Feed, e: Event, gaps: set<nat>)
    requires AllFromLog(f)
    ensures AllFromLog(EmitTo(f, e, gaps))
  {
    forall i | i in f.subs ensures FromLog(f.log + [e], Delivered(f.subs[i], e, i in gaps).sent) {
      DeliveredFromLog(f.log, f.subs[i], e, i in gaps);
    }
  }

  lemma JoinKeepsFromLog(f: Feed)
    requires AllFromLog(f) && f.cleared <= |f.log| && f.history == Replay(f.log[f.cleared..])
    ensures AllFromLog(Joined(f))
  {
    forall i | 0 <= i < |f.history| ensures f.history[i] in f.log {
      ReplayFromLog(f.log[f.cleared..], f.history[i]);
    }
  }

  lemma EmitKeepsFeedTrue(f: Feed, e: Event, gaps: set<nat>)
    requires FeedTrue(f)
    ensures FeedTrue(EmitTo(f, e, gaps))
  {
    var f' := EmitTo(f, e, gaps);
    assert f'.log[f.cleared..] == f.log[f.cleared..] + [e];
    AppendTrimsTheLog(f.log[f.cleared..], e);
    forall i | i in f'.subs ensures SubscriberTrue(f'.log, f'.subs[i]) {
      DeliveredTrue(f.log, f.subs[i], e, i in gaps);
    }
  }

  lemma TakeKeepsFromLog(f: Feed, i: nat)
    requires AllFromLog(f)
    ensures AllFromLog(Taken(f, i))
  {
    var f' := Taken(f, i);
    forall j | j in f'.subs ensures FromLog(f'.log, f'.subs[j].sent) {
      assert j in f.subs && f'.subs[j].sent == f.subs[j].sent && FromLog(f.log, f.subs[j].sent);
    }
  }

  lemma TakeKeepsFeedTrue(f: Feed, i: nat)
    requires FeedTrue(f)
    ensures FeedTrue(Taken(f, i))
  {
    var f' := Taken(f, i);
    forall j | j in f'.subs ensures j < f'.nextSub && SubscriberTrue(f'.log, f'.subs[j]) {
      assert SubscriberTrue(f.log, f.subs[j]);
    }
  }

  lemma LeaveKeepsFeedTrue(f: Feed, i: nat)
    requires FeedTrue(f)
    ensures FeedTrue(Left(f, i))
  {
  }

  lemma ClearKeepsFeedTrue(f: Feed)
    requires FeedTrue(f)
    ensures FeedTrue(Cleared(f))
  {
    assert f.log[|f.log|..] == [];
  }

  lemma JoinKeepsFeedTrue(f: Feed)
    requires FeedTrue(f)
    ensures FeedTrue(Joined(f))
  {
    var s := Joined(f).subs[f.nextSub];
    if !s.lost {
      var since := f.log[f.cleared..];
      assert f.history[..|f.history|] == f.history;
      assert since[..|since|] == since;
      assert Stream(since, |since|) == f.history;
    }
    assert SubscriberTrue(f.log, s);
  }

  /**
   A subscriber joins without loss exactly when the history fits its channel,
   and it does whenever the job has reached at most 32 steps.
   */
  lemma FewStepsFit(f: Feed)
    requires FeedTrue(f)
    requires var since := f.log[f.cleared..]; |since| - NonSteps(since) <= STEP_HEADROOM
    ensures |f.history| + SUBSCRIBER_HEADROOM <= CHANNEL_SIZE && !Joined(f).subs[f.nextSub].lost
  {
    ReplayLength(f.log[f.cleared..]);
  }
}
