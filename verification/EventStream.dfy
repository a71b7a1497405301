/**
 The events of a job: the trimmed replay a late subscriber gets, and the
 client's fold of it.

 Sources: the history and subscriber parts of internal/jobs/queue.go, internal/api/events.go,
 web/src/lib/analysisEvents.ts and web/src/hooks/use-job-events.ts.
 */
module EventStream {
  import opened Wrappers

  const REPLAY_LIMIT := 128
  const STEP_HEADROOM := 32
  const SUBSCRIBER_HEADROOM := 2
  const CHANNEL_SIZE := REPLAY_LIMIT + STEP_HEADROOM + SUBSCRIBER_HEADROOM

  datatype StepEntry = StepEntry(name: string, state: string, durationMs: Option<int>, error: Option<string>)

  datatype ProgressData = ProgressData(step: string, done: nat, total: nat)

  datatype Payload =
    | StepData(entry: StepEntry)
    | Progress(data: ProgressData)
    | Candidate
    | Log(line: string)
    | End(state: string)

  /** One message about a job: its queue id, the directory id the client knows it by, and what it says. */
  datatype Event = Event(id: nat, job: string, payload: Payload)

  predicate IsStep(e: Event) {
    e.payload.StepData?
  }

  // --------------------------------------------------------------- the replay

  function NonSteps(log: seq<Event>): nat {
    if log == [] then 0 else (if IsStep(log[0]) then 0 else 1) + NonSteps(log[1..])
  }

  /**
   The replay, said outright: of everything emitted, in emission order, each
   step event and each other event with fewer than 128 others after it.
   */
  function Replay(log: seq<Event>): seq<Event> {
    if log == [] then []
    else (if IsStep(log[0]) || NonSteps(log[1..]) < REPLAY_LIMIT then [log[0]] else []) + Replay(log[1..])
  }

  lemma {:induction false} ReplayFromLog(log: seq<Event>, e: Event)
    ensures e in Replay(log) ==> e in log
  {
    if log != [] {
      ReplayFromLog(log[1..], e);
    }
  }

  /** h without its first d events that are no steps. */
  function DropOldest(h: seq<Event>, d: nat): seq<Event> {
    if h == [] then []
    else if !IsStep(h[0]) && d > 0 then DropOldest(h[1..], d - 1)
    else [h[0]] + DropOldest(h[1..], d)
  }

  function Excess(h: seq<Event>): nat {
    if NonSteps(h) > REPLAY_LIMIT then NonSteps(h) - REPLAY_LIMIT else 0
  }

  /** What appendHistoryLocked makes of the history. */
  function Appended(history: seq<Event>, e: Event): seq<Event> {
    DropOldest(history + [e], Excess(history + [e]))
  }

  lemma {:induction false} NonStepsConcat(a: seq<Event>, b: seq<Event>)
    ensures NonSteps(a + b) == NonSteps(a) + NonSteps(b)
  {
    if a == [] {
      assert a + b == b;
    } else {
      NonStepsConcat(a[1..], b);
      assert (a + b)[1..] == a[1..] + b;
    }
  }

  /** appendHistoryLocked: count the events that are no steps, then copy all but the oldest too many. */
  method AppendHistory(history: seq<Event>, e: Event) returns (trimmed: seq<Event>)
    ensures trimmed == Appended(history, e)
  {
    var h := history + [e];
    var nonStep := 0;
    for i := 0 to |h|
      invariant nonStep == NonSteps(h[..i])
    {
      NonStepsConcat(h[..i], [h[i]]);
      assert h[..i+1] == h[..i] + [h[i]];
      if !IsStep(h[i]) {
        nonStep := nonStep + 1;
      }
    }
    assert h[..|h|] == h;
    var drop: int := nonStep - REPLAY_LIMIT;
    if drop <= 0 {
      DropNone(h);
      return h;
    }
    trimmed := [];
    for i := 0 to |h|
      invariant 0 <= drop
      invariant DropOldest(h, Excess(h)) == trimmed + DropOldest(h[i..], drop)
    {
      if !IsStep(h[i]) && drop > 0 {
        drop := drop - 1;
      } else {
        trimmed := trimmed + [h[i]];
      }
    }
  }

  lemma {:induction false} DropNone(h: seq<Event>)
    ensures DropOldest(h, 0) == h
  {
    if h != [] {
      DropNone(h[1..]);
    }
  }

  lemma {:induction false} ReplayIsDrop(log: seq<Event>)
    ensures Replay(log) == DropOldest(log, Excess(log))
  {
    if log != [] {
      ReplayIsDrop(log[1..]);
    }
  }

  lemma {:induction false} DropThenDrop(log: seq<Event>, e: Event, d: nat, more: nat)
    requires d <= NonSteps(log)
    ensures DropOldest(DropOldest(log, d) + [e], more) == DropOldest(log + [e], d + more)
  {
    if log != [] {
      assert (log + [e])[1..] == log[1..] + [e];
      if !IsStep(log[0]) && d > 0 {
        DropThenDrop(log[1..], e, d - 1, more);
      } else {
        DropThenDrop(log[1..], e, d, 0);
        DropThenDrop(log[1..], e, d, more);
        var rest := DropOldest(log[1..], d) + [e];
        assert DropOldest(log, d) + [e] == [log[0]] + rest;
        if !IsStep(log[0]) && more > 0 {
          DropThenDrop(log[1..], e, d, more - 1);
          assert ([log[0]] + rest)[1..] == rest;
        } else {
          assert ([log[0]] + rest)[1..] == rest;
        }
      }
    }
  }

  lemma {:induction false} NonStepsAfterDrop(log: seq<Event>, d: nat)
    requires d <= NonSteps(log)
    ensures NonSteps(DropOldest(log, d)) == NonSteps(log) - d
  {
    if log != [] {
      if !IsStep(log[0]) && d > 0 {
        NonStepsAfterDrop(log[1..], d - 1);
      } else {
        NonStepsAfterDrop(log[1..], d);
        NonStepsConcat([log[0]], DropOldest(log[1..], d));
      }
    }
  }

  /** Trimming at every event equals trimming the whole log at once. */
  lemma AppendTrimsTheLog(log: seq<Event>, e: Event)
    ensures Appended(Replay(log), e) == Replay(log + [e])
  {
    ReplayIsDrop(log);
    ReplayIsDrop(log + [e]);
    NonStepsAfterDrop(log, Excess(log));
    NonStepsConcat(Replay(log), [e]);
    NonStepsConcat(log, [e]);
    DropThenDrop(log, e, Excess(log), Excess(Replay(log) + [e]));
  }

  /** The history after a series of events, trimmed one event at a time. */
  function Histories(log: seq<Event>): seq<Event> {
    if log == [] then [] else Appended(Histories(log[..|log|-1]), log[|log|-1])
  }

  lemma {:induction false} HistoryIsReplay(log: seq<Event>)
    ensures Histories(log) == Replay(log)
  {
    if log != [] {
      HistoryIsReplay(log[..|log|-1]);
      AppendTrimsTheLog(log[..|log|-1], log[|log|-1]);
      assert log[..|log|-1] + [log[|log|-1]] == log;
    }
  }

  lemma {:induction false} NonStepsBound(log: seq<Event>)
    ensures NonSteps(log) <= |log|
  {
    if log != [] {
      NonStepsBound(log[1..]);
    }
  }

  lemma {:induction false} ReplayLength(log: seq<Event>)
    ensures NonSteps(log) <= |log|
    ensures |Replay(log)| == |log| - Excess(log)
  {
    NonStepsBound(log);
    ReplayIsDrop(log);
    DropLength(log, Excess(log));
  }

  lemma {:induction false} DropLength(h: seq<Event>, d: nat)
    requires d <= NonSteps(h)
    ensures |DropOldest(h, d)| == |h| - d
  {
    if h != [] {
      if !IsStep(h[0]) && d > 0 {
        DropLength(h[1..], d - 1);
      } else {
        DropLength(h[1..], d);
      }
    }
  }

  function Least(a: nat, b: nat): nat {
    if a <= b then a else b
  }

  // ---------------------------------------------------------- the client fold

  datatype ClientState = ClientState(steps: seq<StepEntry>, progress: Option<ProgressData>,
                                     progressByStep: map<string, ProgressData>, ended: bool, endState: Option<string>)

  const INITIAL := ClientState([], None, map[], false, None)

  /** findIndex by name, or the length when no step has it. */
  function FindStep(steps: seq<StepEntry>, name: string): (i: nat)
    ensures i <= |steps|
    ensures i < |steps| ==> steps[i].name == name
    ensures forall j :: 0 <= j < i ==> steps[j].name != name
  {
    IndexWhere(steps, (s: StepEntry) => s.name == name)
  }

  function Upsert(steps: seq<StepEntry>, entry: StepEntry): seq<StepEntry> {
    var i := FindStep(steps, entry.name);
    if i == |steps| then steps + [entry] else steps[i := entry]
  }

  /** analysisEventsReducer. */
  function Reduce(s: ClientState, e: Event): ClientState {
    match e.payload
    case StepData(entry) => s.(steps := Upsert(s.steps, entry))
    case Progress(data) => s.(progress := Some(data), progressByStep := s.progressByStep[data.step := data])
    case End(state) => s.(ended := true, endState := Some(state))
    case Candidate => s
    case Log(_) => s
  }

  /** The hook ignores the events of other jobs. */
  function Dispatch(s: ClientState, e: Event, job: string): ClientState {
    if e.job == job then Reduce(s, e) else s
  }

  function Fold(s: ClientState, events: seq<Event>, job: string): ClientState
    decreases |events|
  {
    if events == [] then s else Fold(Dispatch(s, events[0], job), events[1..], job)
  }

  function EntryOf(e: Event, job: string): seq<StepEntry> {
    if IsStep(e) && e.job == job then [e.payload.entry] else []
  }

  function EntriesOf(events: seq<Event>, job: string): seq<StepEntry> {
    if events == [] then [] else EntryOf(events[0], job) + EntriesOf(events[1..], job)
  }

  function FoldSteps(steps: seq<StepEntry>, entries: seq<StepEntry>): seq<StepEntry>
    decreases |entries|
  {
    if entries == [] then steps else FoldSteps(Upsert(steps, entries[0]), entries[1..])
  }

  lemma {:induction false} FoldFollowsSteps(s: ClientState, events: seq<Event>, job: string)
    ensures Fold(s, events, job).steps == FoldSteps(s.steps, EntriesOf(events, job))
    decreases |events|
  {
    if events != [] {
      FoldFollowsSteps(Dispatch(s, events[0], job), events[1..], job);
      var rest := EntriesOf(events[1..], job);
      if IsStep(events[0]) && events[0].job == job {
        var entry := events[0].payload.entry;
        assert EntriesOf(events, job) == [entry] + rest;
        assert ([entry] + rest)[1..] == rest;
        assert FoldSteps(s.steps, [entry] + rest) == FoldSteps(Upsert(s.steps, entry), rest);
      } else {
        assert EntriesOf(events, job) == rest;
      }
    }
  }

  predicate IsEnd(e: Event, job: string) {
    e.payload.End? && e.job == job
  }

  predicate IsProgress(e: Event, job: string) {
    e.payload.Progress? && e.job == job
  }

  /** The last of the job's end events, by its state, or what was there before. */
  function LastEnd(before: Option<string>, events: seq<Event>, job: string): Option<string> {
    if events == [] then before
    else
      var last := events[|events|-1];
      if IsEnd(last, job) then Some(last.payload.state) else LastEnd(before, events[..|events|-1], job)
  }

  /** The last progress the job reported, of one step if one is named. */
  function LastProgress(events: seq<Event>, job: string, step: Option<string>): Option<ProgressData> {
    if events == [] then None
    else
      var last := events[|events|-1];
      if IsProgress(last, job) && (step.Some? ==> last.payload.data.step == step.value) then Some(last.payload.data)
      else LastProgress(events[..|events|-1], job, step)
  }

  lemma {:induction false} FoldSnoc(s: ClientState, events: seq<Event>, e: Event, job: string)
    ensures Fold(s, events + [e], job) == Dispatch(Fold(s, events, job), e, job)
    decreases |events|
  {
    if events == [] {
      assert [] + [e] == [e] && [e][1..] == [];
    } else {
      assert (events + [e])[1..] == events[1..] + [e];
      FoldSnoc(Dispatch(s, events[0], job), events[1..], e, job);
    }
  }

  /**
   The rest of what the client shows: whether the job ended and how, by its last
   end event; its last progress; and the last progress of each step.
   */
  lemma {:induction false} FoldShows(events: seq<Event>, job: string)
    ensures var s := Fold(INITIAL, events, job);
      && s.endState == LastEnd(None, events, job) && (s.ended <==> exists e :: e in events && IsEnd(e, job))
      && s.progress == LastProgress(events, job, None)
      && forall step :: (step in s.progressByStep <==> LastProgress(events, job, Some(step)).Some?)
                        && (step in s.progressByStep ==>
                              s.progressByStep[step] == LastProgress(events, job, Some(step)).value)
  {
    if events != [] {
      var (init, last) := (events[..|events|-1], events[|events|-1]);
      assert events == init + [last];
      FoldShows(init, job);
      FoldSnoc(INITIAL, init, last, job);
    }
  }

  lemma Regroup<T>(x: seq<T>, y: seq<T>, z: seq<T>)
    ensures x + (y + z) == (x + y) + z
  {
  }

  lemma {:induction false} EntriesConcat(a: seq<Event>, b: seq<Event>, job: string)
    ensures EntriesOf(a + b, job) == EntriesOf(a, job) + EntriesOf(b, job)
  {
    if a == [] {
      assert a + b == b;
    } else {
      EntriesConcat(a[1..], b, job);
      assert (a + b)[0] == a[0] && (a + b)[1..] == a[1..] + b;
      Regroup(EntryOf(a[0], job), EntriesOf(a[1..], job), EntriesOf(b, job));
    }
  }

  lemma {:induction false} ReplayKeepsEntries(log: seq<Event>, job: string)
    ensures EntriesOf(Replay(log), job) == EntriesOf(log, job)
  {
    if log != [] {
      ReplayKeepsEntries(log[1..], job);
      if IsStep(log[0]) || NonSteps(log[1..]) < REPLAY_LIMIT {
        EntriesConcat([log[0]], Replay(log[1..]), job);
        EntriesConcat([log[0]], log[1..], job);
        assert [log[0]] + log[1..] == log;
      } else {
        assert EntriesOf(log, job) == EntriesOf(log[1..], job);
        assert Replay(log) == Replay(log[1..]);
      }
    }
  }

  // ------------------------------------------------------ names, in order

  function Names(steps: seq<StepEntry>): (ns: seq<string>)
    ensures |ns| == |steps| && forall i :: 0 <= i < |steps| ==> ns[i] == steps[i].name
  {
    seq(|steps|, i requires 0 <= i < |steps| => steps[i].name)
  }

  function AddName(ns: seq<string>, x: string): seq<string> {
    if x in ns then ns else ns + [x]
  }

  /** The names after a fold: those there before, then the new ones as they first occur. */
  function NamesAfter(ns: seq<string>, entries: seq<StepEntry>): seq<string>
    decreases |entries|
  {
    if entries == [] then ns else NamesAfter(AddName(ns, entries[0].name), entries[1..])
  }

  /** The last entry of a name. */
  function LastOf(entries: seq<StepEntry>, name: string): Option<StepEntry> {
    if entries == [] then None
    else
      var later := LastOf(entries[1..], name);
      if later.Some? then later else if entries[0].name == name then Some(entries[0]) else None
  }

  function Lookup(steps: seq<StepEntry>, name: string): Option<StepEntry> {
    var i := FindStep(steps, name);
    if i < |steps| then Some(steps[i]) else None
  }

  predicate DistinctNames(steps: seq<StepEntry>) {
    forall i, j :: 0 <= i < j < |steps| ==> steps[i].name != steps[j].name
  }

  lemma UpsertMeans(steps: seq<StepEntry>, entry: StepEntry)
    requires DistinctNames(steps)
    ensures DistinctNames(Upsert(steps, entry))
    ensures Names(Upsert(steps, entry)) == AddName(Names(steps), entry.name)
    ensures forall x :: Lookup(Upsert(steps, entry), x) == if x == entry.name then Some(entry) else Lookup(steps, x)
  {
    var i := FindStep(steps, entry.name);
    var out := Upsert(steps, entry);
    if i == |steps| {
      assert entry.name !in Names(steps);
      assert Names(out) == Names(steps) + [entry.name];
    } else {
      assert Names(steps)[i] == entry.name;
      assert Names(out) == Names(steps);
    }
    assert DistinctNames(out);
    assert out[i] == entry;
    forall x ensures Lookup(out, x) == if x == entry.name then Some(entry) else Lookup(steps, x) {
      if x == entry.name {
        FindsIt(out, i);
      } else if FindStep(steps, x) < |steps| {
        FindsIt(out, FindStep(steps, x));
      } else {
        FindsNone(out, x);
      }
    }
  }

  lemma FindsIt(steps: seq<StepEntry>, i: nat)
    requires DistinctNames(steps) && i < |steps|
    ensures FindStep(steps, steps[i].name) == i
    ensures Lookup(steps, steps[i].name) == Some(steps[i])
  {
  }

  lemma FindsNone(steps: seq<StepEntry>, x: string)
    requires forall i :: 0 <= i < |steps| ==> steps[i].name != x
    ensures Lookup(steps, x) == None
  {
  }

  lemma {:induction false} FoldMeans(steps: seq<StepEntry>, entries: seq<StepEntry>)
    requires DistinctNames(steps)
    ensures DistinctNames(FoldSteps(steps, entries))
    ensures Names(FoldSteps(steps, entries)) == NamesAfter(Names(steps), entries)
    ensures forall x :: Lookup(FoldSteps(steps, entries), x) ==
                        if LastOf(entries, x).Some? then LastOf(entries, x) else Lookup(steps, x)
    decreases |entries|
  {
    if entries != [] {
      UpsertMeans(steps, entries[0]);
      FoldMeans(Upsert(steps, entries[0]), entries[1..]);
    }
  }

  lemma SameNamesSameLookup(a: seq<StepEntry>, b: seq<StepEntry>)
    requires DistinctNames(a) && DistinctNames(b) && Names(a) == Names(b)
    requires forall x :: x in Names(a) ==> Lookup(a, x) == Lookup(b, x)
    ensures a == b
  {
    forall i | 0 <= i < |a| ensures a[i] == b[i] {
      var x := a[i].name;
      assert Names(a)[i] == x && Names(b)[i] == x;
      FindsIt(a, i);
      FindsIt(b, i);
      assert x in Names(a);
    }
  }

  lemma {:induction false} NamesGrow(ns: seq<string>, entries: seq<StepEntry>)
    ensures ns <= NamesAfter(ns, entries)
    decreases |entries|
  {
    if entries != [] {
      NamesGrow(AddName(ns, entries[0].name), entries[1..]);
    }
  }

  lemma {:induction false} NamesConcat(ns: seq<string>, a: seq<StepEntry>, b: seq<StepEntry>)
    ensures NamesAfter(ns, a + b) == NamesAfter(NamesAfter(ns, a), b)
    decreases |a|
  {
    if a == [] {
      assert a + b == b;
    } else {
      assert (a + b)[1..] == a[1..] + b;
      NamesConcat(AddName(ns, a[0].name), a[1..], b);
    }
  }

  /** Folding again over a list whose names start as the fold's would: nothing moves. */
  lemma {:induction false} NamesRejoin(a: seq<string>, ns: seq<string>, entries: seq<StepEntry>)
    requires a <= ns && ns <= NamesAfter(a, entries)
    ensures NamesAfter(ns, entries) == NamesAfter(a, entries)
    decreases |entries|
  {
    if entries != [] && ns != a {
      var x := entries[0].name;
      var a' := AddName(a, x);
      NamesGrow(a', entries[1..]);
      assert a' <= NamesAfter(a', entries[1..]);
      if x !in a {
        assert ns[|a|] == NamesAfter(a', entries[1..])[|a|] == a'[|a|] == x;
        assert x in ns;
      } else {
        var i :| 0 <= i < |a| && a[i] == x;
        assert ns[i] == x;
      }
      assert a' <= ns;
      NamesRejoin(a', ns, entries[1..]);
    }
  }

  lemma {:induction false} NamesCovered(ns: seq<string>, entries: seq<StepEntry>)
    requires forall i :: 0 <= i < |entries| ==> entries[i].name in ns
    ensures NamesAfter(ns, entries) == ns
    decreases |entries|
  {
    if entries != [] {
      NamesCovered(ns, entries[1..]);
    }
  }

  lemma {:induction false} NamesHaveAll(ns: seq<string>, entries: seq<StepEntry>, i: nat)
    requires i < |entries|
    ensures entries[i].name in NamesAfter(ns, entries)
    decreases |entries|
  {
    var ns' := AddName(ns, entries[0].name);
    if i == 0 {
      NamesGrow(ns', entries[1..]);
      assert entries[0].name in ns';
      var j :| 0 <= j < |ns'| && ns'[j] == entries[0].name;
      assert NamesAfter(ns', entries[1..])[j] == entries[0].name;
    } else {
      NamesHaveAll(ns', entries[1..], i - 1);
    }
  }

  lemma {:induction false} NamesOccur(ns: seq<string>, entries: seq<StepEntry>, x: string)
    requires x in NamesAfter(ns, entries)
    ensures x in ns || LastOf(entries, x).Some?
    decreases |entries|
  {
    if entries != [] {
      NamesOccur(AddName(ns, entries[0].name), entries[1..], x);
    }
  }

  // ------------------------------------------- joining late and reconnecting

  /** What a connection that is never cut short is sent: the replay, then every later event. */
  function Stream(log: seq<Event>, joined: nat): seq<Event>
    requires joined <= |log|
  {
    Replay(log[..joined]) + log[joined..]
  }

  /** The client's state after what each of a series of connections delivered. */
  function Watched(s: ClientState, parts: seq<seq<Event>>, job: string): ClientState {
    if parts == [] then s else Fold(Watched(s, parts[..|parts|-1], job), parts[|parts|-1], job)
  }

  lemma PartEntries(events: seq<Event>, got: nat, job: string)
    requires got <= |events|
    ensures EntriesOf(events[..got], job) <= EntriesOf(events, job)
  {
    EntriesConcat(events[..got], events[got..], job);
    assert events[..got] + events[got..] == events;
  }

  /** The replay and what follows it carry the very step entries of the log. */
  lemma StreamEntries(log: seq<Event>, joined: nat, job: string)
    requires joined <= |log|
    ensures EntriesOf(Stream(log, joined), job) == EntriesOf(log, job)
  {
    ReplayKeepsEntries(log[..joined], job);
    SameEntriesBefore(Replay(log[..joined]), log[..joined], log[joined..], job);
    assert log[..joined] + log[joined..] == log;
  }

  lemma SameEntriesBefore(a: seq<Event>, b: seq<Event>, rest: seq<Event>, job: string)
    requires EntriesOf(a, job) == EntriesOf(b, job)
    ensures EntriesOf(a + rest, job) == EntriesOf(b + rest, job)
  {
    EntriesConcat(a, rest, job);
    EntriesConcat(b, rest, job);
  }

  /** The client's steps carry, in their order, a first part of the names the full log gives. */
  predicate OnCourse(steps: seq<StepEntry>, all: seq<StepEntry>) {
    DistinctNames(steps) && Names(steps) <= NamesAfter([], all)
  }

  /** Folding a first part of the log over any such state stays on course. */
  lemma PartKeepsCourse(steps: seq<StepEntry>, part: seq<StepEntry>, all: seq<StepEntry>)
    requires OnCourse(steps, all) && part <= all
    ensures OnCourse(FoldSteps(steps, part), all)
  {
    FoldMeans(steps, part);
    var ns, reached := Names(steps), NamesAfter([], part);
    NamesConcat([], part, all[|part|..]);
    assert part + all[|part|..] == all;
    NamesGrow(reached, all[|part|..]);
    if |ns| <= |reached| {
      assert ns <= reached;
      NamesRejoin([], ns, part);
    } else {
      assert reached <= ns;
      forall i | 0 <= i < |part| ensures part[i].name in ns {
        NamesHaveAll([], part, i);
        var k :| 0 <= k < |reached| && reached[k] == part[i].name;
        assert ns[k] == part[i].name;
      }
      NamesCovered(ns, part);
    }
  }

  /** Folding the whole log over any such state ends where one fold of the log ends. */
  lemma WholeSettles(steps: seq<StepEntry>, all: seq<StepEntry>)
    requires OnCourse(steps, all)
    ensures FoldSteps(steps, all) == FoldSteps([], all)
  {
    FoldMeans(steps, all);
    FoldMeans([], all);
    assert Names([]) == [];
    NamesRejoin([], Names(steps), all);
    forall x | x in NamesAfter([], all) ensures Lookup(FoldSteps(steps, all), x) == Lookup(FoldSteps([], all), x) {
      NamesOccur([], all, x);
    }
    SameNamesSameLookup(FoldSteps(steps, all), FoldSteps([], all));
  }

  /** So do any number of connections, however early each broke off. */
  lemma {:induction false} WatchedStaysOnCourse(s: ClientState, parts: seq<seq<Event>>, job: string,
                                                all: seq<StepEntry>)
    requires OnCourse(s.steps, all)
    requires forall i :: 0 <= i < |parts| ==> EntriesOf(parts[i], job) <= all
    ensures OnCourse(Watched(s, parts, job).steps, all)
  {
    if parts != [] {
      var last := parts[|parts|-1];
      WatchedStaysOnCourse(s, parts[..|parts|-1], job, all);
      var before := Watched(s, parts[..|parts|-1], job);
      FoldFollowsSteps(before, last, job);
      PartKeepsCourse(before.steps, EntriesOf(last, job), all);
    }
  }

  // ------------------------------------------------- what losses leave right

  /** Every step the client shows is one of the job's. */
  ghost predicate ShowsOnly(steps: seq<StepEntry>, all: seq<StepEntry>) {
    DistinctNames(steps) && forall x :: Lookup(steps, x).Some? ==> LastOf(all, x).Some?
  }

  lemma {:induction false} LastIsThere(entries: seq<StepEntry>, x: string)
    ensures LastOf(entries, x).Some? ==> LastOf(entries, x).value in entries && LastOf(entries, x).value.name == x
  {
    if entries != [] {
      LastIsThere(entries[1..], x);
    }
  }

  lemma {:induction false} ThereHasLast(entries: seq<StepEntry>, e: StepEntry)
    requires e in entries
    ensures LastOf(entries, e.name).Some?
  {
    if e in entries[1..] {
      ThereHasLast(entries[1..], e);
    }
  }

  lemma AnyPartShowsOnly(steps: seq<StepEntry>, part: seq<StepEntry>, all: seq<StepEntry>)
    requires ShowsOnly(steps, all) && forall e :: e in part ==> e in all
    ensures ShowsOnly(FoldSteps(steps, part), all)
  {
    FoldMeans(steps, part);
    forall x | Lookup(FoldSteps(steps, part), x).Some? ensures LastOf(all, x).Some? {
      if LastOf(part, x).Some? {
        LastIsThere(part, x);
        ThereHasLast(all, LastOf(part, x).value);
      }
    }
  }

  lemma {:induction false} WatchedShowsOnly(s: ClientState, parts: seq<seq<Event>>, job: string, all: seq<StepEntry>)
    requires ShowsOnly(s.steps, all)
    requires forall i :: 0 <= i < |parts| ==> forall e :: e in EntriesOf(parts[i], job) ==> e in all
    ensures ShowsOnly(Watched(s, parts, job).steps, all)
  {
    if parts != [] {
      var last := parts[|parts|-1];
      WatchedShowsOnly(s, parts[..|parts|-1], job, all);
      var before := Watched(s, parts[..|parts|-1], job);
      FoldFollowsSteps(before, last, job);
      AnyPartShowsOnly(before.steps, EntriesOf(last, job), all);
    }
  }

  /** One fold of all the entries over any of them sets every step right, though perhaps not in its place. */
  lemma WholeMends(steps: seq<StepEntry>, all: seq<StepEntry>)
    requires ShowsOnly(steps, all)
    ensures DistinctNames(FoldSteps(steps, all)) && DistinctNames(FoldSteps([], all))
    ensures forall x :: Lookup(FoldSteps(steps, all), x) == Lookup(FoldSteps([], all), x)
  {
    FoldMeans(steps, all);
    FoldMeans([], all);
  }

  lemma FoldOne(steps: seq<StepEntry>, e: StepEntry, rest: seq<StepEntry>)
    ensures FoldSteps(steps, [e] + rest) == FoldSteps(Upsert(steps, e), rest)
  {
    assert ([e] + rest)[1..] == rest;
  }

  /** A step first seen after a later one keeps the later place. */
  lemma AMissedStepMoves(a: StepEntry, b: StepEntry)
    requires a.name != b.name
    ensures FoldSteps(FoldSteps([], [b]), [a, b]) == [b, a] && FoldSteps([], [a, b]) == [a, b]
  {
    assert [b] == [b] + [] && [a, b] == [a] + [b];
    assert Upsert([], a) == [a] && Upsert([], b) == [b];
    assert Upsert([b], a) == [b, a] && Upsert([a], b) == [a, b] && Upsert([b, a], b) == [b, a];
    FoldOne([], b, []);
    FoldOne([b], a, [b]);
    FoldOne([b, a], b, []);
    FoldOne([], a, [b]);
    FoldOne([a], b, []);
  }

  lemma {:induction false} EntriesAreThere(events: seq<Event>, job: string, e: Event)
    requires e in events && IsStep(e) && e.job == job
    ensures e.payload.entry in EntriesOf(events, job)
  {
    if e != events[0] {
      EntriesAreThere(events[1..], job, e);
    }
  }

  lemma {:induction false} EntriesFrom(events: seq<Event>, log: seq<Event>, job: string)
    requires forall e :: e in events && IsStep(e) ==> e in log
    ensures forall x :: x in EntriesOf(events, job) ==> x in EntriesOf(log, job)
  {
    if events != [] {
      EntriesFrom(events[1..], log, job);
      if IsStep(events[0]) && events[0].job == job {
        EntriesAreThere(log, job, events[0]);
      }
    }
  }

  // ------------------------------------------------- what a response carries

  /** The events up to and including the first end event, whichever job it is of. */
  function UntilEnd(events: seq<Event>): seq<Event> {
    if events == [] then []
    else if events[0].payload.End? then [events[0]]
    else [events[0]] + UntilEnd(events[1..])
  }

  /**
   streamEvents: each event is written in turn, and the response closes behind
   an end event.  wanted is how many it may write before its client leaves.
   */
  method StreamEvents(events: seq<Event>, wanted: nat) returns (written: seq<Event>)
    ensures written == UntilEnd(events[..Least(wanted, |events|)])
  {
    written := [];
    var n := Least(wanted, |events|);
    for i := 0 to n
      invariant UntilEnd(events[..n]) == written + UntilEnd(events[i..n])
    {
      written := written + [events[i]];
      assert events[i..n][1..] == events[i+1..n];
      if events[i].payload.End? {
        return;
      }
    }
  }

  /** It is a first part, all of it when there is no end event, and else closed by the only one. */
  lemma {:induction false} UntilEndMeans(events: seq<Event>)
    ensures UntilEnd(events) <= events
    ensures forall i :: 0 <= i < |UntilEnd(events)| - 1 ==> !events[i].payload.End?
    ensures UntilEnd(events) == events || (UntilEnd(events) != [] && events[|UntilEnd(events)| - 1].payload.End?)
  {
    if events != [] && !events[0].payload.End? {
      UntilEndMeans(events[1..]);
    }
  }

  /** More events after them change nothing of what was written but its length. */
  lemma {:induction false} UntilEndGrows(a: seq<Event>, b: seq<Event>)
    ensures UntilEnd(a) <= UntilEnd(a + b)
  {
    if a != [] {
      assert (a + b)[0] == a[0] && (a + b)[1..] == a[1..] + b;
      UntilEndGrows(a[1..], b);
    }
  }

  /** What a response carries of a job's step entries. */
  function CutEntries(events: seq<Event>, job: string): seq<StepEntry> {
    EntriesOf(UntilEnd(events), job)
  }

  lemma CutOnce(e: Event, rest: seq<Event>, job: string)
    ensures CutEntries([e] + rest, job) == if e.payload.End? then [] else EntryOf(e, job) + CutEntries(rest, job)
  {
    assert ([e] + rest)[1..] == rest;
    EntriesConcat([e], if e.payload.End? then [] else UntilEnd(rest), job);
    assert EntriesOf([e], job) == EntryOf(e, job);
    assert [e] + [] == [e];
  }

  /** How far into the rest of a log a point lies, once its first n events are past. */
  function Past(joined: nat, n: nat): nat {
    if joined <= n then 0 else joined - n
  }

  /** What a connection is sent, its oldest event apart. */
  lemma StreamHead(log: seq<Event>, joined: nat)
    requires log != [] && joined <= |log|
    ensures var kept := joined == 0 || IsStep(log[0]) || NonSteps(log[1..][..joined-1]) < REPLAY_LIMIT;
      var rest := Stream(log[1..], Past(joined, 1));
      Stream(log, joined) == if kept then [log[0]] + rest else rest
  {
    if joined == 0 {
      assert log[..0] == [] && log[1..][..0] == [];
      assert Stream(log, 0) == log && Stream(log[1..], 0) == log[1..];
    } else {
      assert log[..joined][0] == log[0] && log[..joined][1..] == log[1..][..joined-1];
      assert log[joined..] == log[1..][joined-1..];
    }
  }

  lemma NonStepsPart(log: seq<Event>, a: nat, b: nat)
    requires a <= b <= |log|
    ensures NonSteps(log[..a]) <= NonSteps(log[..b])
  {
    NonStepsConcat(log[..a], log[a..b]);
    assert log[..a] + log[a..b] == log[..b];
  }

  /**
   Of two connections to one log, the later is given at least what the earlier
   is: an end event that is still in its replay was in the other's stream too.
   */
  lemma {:induction false} LaterIsGivenMore(log: seq<Event>, a: nat, b: nat, job: string)
    requires a <= b <= |log|
    ensures CutEntries(Stream(log, a), job) <= CutEntries(Stream(log, b), job)
  {
    if log != [] {
      var (a', b') := (Past(a, 1), Past(b, 1));
      StreamHead(log, a);
      StreamHead(log, b);
      CutOnce(log[0], Stream(log[1..], a'), job);
      CutOnce(log[0], Stream(log[1..], b'), job);
      NonStepsPart(log[1..], a', b');
      LaterIsGivenMore(log[1..], a', b', job);
    }
  }

  /** One made before the history was cleared, with nothing of the job in what was cleared, is given no more. */
  lemma {:induction false} EarlierClearIsGivenLess(gone: seq<Event>, log: seq<Event>, joined: nat, job: string)
    requires joined <= |gone| + |log| && EntriesOf(gone, job) == []
    ensures CutEntries(Stream(gone + log, joined), job) <= CutEntries(Stream(log, Past(joined, |gone|)), job)
  {
    if gone == [] {
      assert gone + log == log;
    } else {
      var all, rest := gone + log, gone[1..] + log;
      assert all[0] == gone[0] && all[1..] == rest;
      assert EntryOf(gone[0], job) == [] && EntriesOf(gone[1..], job) == [];
      OthersEvent(all, joined, job);
      EarlierClearIsGivenLess(gone[1..], log, Past(joined, 1), job);
      assert Past(Past(joined, 1), |gone| - 1) == Past(joined, |gone|);
      PartOfPart(CutEntries(Stream(all, joined), job), CutEntries(Stream(rest, Past(joined, 1)), job),
                 CutEntries(Stream(log, Past(joined, |gone|)), job));
    }
  }

  lemma PartOfPart<T>(a: seq<T>, b: seq<T>, c: seq<T>)
    requires a <= b <= c
    ensures a <= c
  {
  }

  /** An event that is no step of the job adds nothing to what is given of it. */
  lemma OthersEvent(log: seq<Event>, joined: nat, job: string)
    requires log != [] && joined <= |log| && EntryOf(log[0], job) == []
    ensures CutEntries(Stream(log, joined), job) <= CutEntries(Stream(log[1..], Past(joined, 1)), job)
  {
    StreamHead(log, joined);
    CutOnce(log[0], Stream(log[1..], Past(joined, 1)), job);
  }

  // --------------------------------------------------- what a cut leaves out

  /** Every step cut off had been given its last report before the cut. */
  predicate LastReportsIn(part: seq<StepEntry>, all: seq<StepEntry>)
    requires part <= all
  {
    forall k :: |part| <= k < |all| ==> LastOf(part, all[k].name) == LastOf(all, all[k].name)
  }

  predicate Different(entries: seq<StepEntry>) {
    forall i, j :: 0 <= i < j < |entries| ==> entries[i] != entries[j]
  }

  lemma {:induction false} LastOfConcat(a: seq<StepEntry>, b: seq<StepEntry>, x: string)
    ensures LastOf(a + b, x) == if LastOf(b, x).Some? then LastOf(b, x) else LastOf(a, x)
  {
    if a == [] {
      assert a + b == b;
    } else {
      assert (a + b)[0] == a[0] && (a + b)[1..] == a[1..] + b;
      LastOfConcat(a[1..], b, x);
    }
  }

  /** A step with no report cut off has its last report in the part. */
  lemma UncutIsLast(part: seq<StepEntry>, all: seq<StepEntry>, x: string)
    requires part <= all && forall k :: |part| <= k < |all| ==> all[k].name != x
    ensures LastOf(part, x) == LastOf(all, x)
  {
    var rest := all[|part|..];
    assert part + rest == all;
    LastOfConcat(part, rest, x);
    NeverNamed(rest, x);
  }

  lemma {:induction false} NeverNamed(entries: seq<StepEntry>, x: string)
    requires forall k :: 0 <= k < |entries| ==> entries[k].name != x
    ensures LastOf(entries, x) == None
  {
    if entries != [] {
      NeverNamed(entries[1..], x);
    }
  }

  /** A first part folds to the same list exactly when it has every last report. */
  lemma PartShowsAll(part: seq<StepEntry>, all: seq<StepEntry>)
    requires part <= all
    ensures FoldSteps([], part) == FoldSteps([], all) <==> LastReportsIn(part, all)
  {
    var none: seq<StepEntry> := [];
    FoldMeans(none, part);
    FoldMeans(none, all);
    assert Names(none) == [];
    if FoldSteps([], part) == FoldSteps([], all) {
      forall k | |part| <= k < |all| ensures LastOf(part, all[k].name) == LastOf(all, all[k].name) {
        assert Lookup(FoldSteps([], part), all[k].name) == Lookup(FoldSteps([], all), all[k].name);
      }
    } else if LastReportsIn(part, all) {
      forall x ensures LastOf(part, x) == LastOf(all, x) {
        if k :| |part| <= k < |all| && all[k].name == x {
        } else {
          UncutIsLast(part, all, x);
        }
      }
      LastReportsGiveNames(part, all);
      SameNamesSameLookup(FoldSteps([], part), FoldSteps([], all));
    }
  }

  lemma LastReportsGiveNames(part: seq<StepEntry>, all: seq<StepEntry>)
    requires part <= all && LastReportsIn(part, all)
    ensures NamesAfter([], part) == NamesAfter([], all)
  {
    var (ns, rest) := (NamesAfter([], part), all[|part|..]);
    assert part + rest == all;
    NamesConcat([], part, rest);
    forall i | 0 <= i < |rest| ensures rest[i].name in ns {
      var x := all[|part| + i].name;
      ThereHasLast(all, all[|part| + i]);
      LastIsThere(part, x);
      var k :| 0 <= k < |part| && part[k] == LastOf(part, x).value;
      NamesHaveAll([], part, k);
    }
    NamesCovered(ns, rest);
  }

  /** Where no entry repeats, only the whole will do. */
  lemma DifferentNeedsAll(part: seq<StepEntry>, all: seq<StepEntry>)
    requires part <= all && Different(all)
    ensures LastReportsIn(part, all) <==> part == all
  {
    if part != all {
      var last := all[|all|-1];
      assert all == all[..|all|-1] + [last];
      LastOfConcat(all[..|all|-1], [last], last.name);
      assert LastOf([last], last.name) == Some(last);
      LastIsThere(part, last.name);
      assert forall k :: 0 <= k < |part| ==> part[k] == all[k] && all[k] != last;
    }
  }

  /** Some report of the step stands behind the part. */
  predicate IsCutOff(part: seq<StepEntry>, all: seq<StepEntry>, x: string) {
    exists k :: |part| <= k < |all| && all[k].name == x
  }

  /** Each step with no report cut off is shown as the full list shows it. */
  ghost predicate RightUnlessCut(steps: seq<StepEntry>, part: seq<StepEntry>, all: seq<StepEntry>) {
    forall x :: !IsCutOff(part, all, x) ==> Lookup(steps, x) == Lookup(FoldSteps([], all), x)
  }

  /** The same steps with the same reports, in whatever order. */
  ghost predicate SameSteps(a: seq<StepEntry>, b: seq<StepEntry>) {
    forall x :: Lookup(a, x) == Lookup(b, x)
  }

  /** A step with no report cut off is shown as last reported, whatever of the job was shown before. */
  lemma PartMends(steps: seq<StepEntry>, part: seq<StepEntry>, all: seq<StepEntry>, x: string)
    requires ShowsOnly(steps, all) && part <= all && !IsCutOff(part, all, x)
    ensures Lookup(FoldSteps(steps, part), x) == Lookup(FoldSteps([], all), x)
  {
    FoldMeans(steps, part);
    FoldMeans([], all);
    UncutIsLast(part, all, x);
  }
}
