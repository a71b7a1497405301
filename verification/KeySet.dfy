/**
 The cache of the realm's token keys: how often it fetches, how old a key it
 answers with can be, and what it says when it has none.

 Source: internal/importer/token/keyset.go.  Times are nanoseconds; 0 is Go's
 zero time, before any lookup.
 */
module KeySet {
  import opened Wrappers

  const SECOND := 1_000_000_000
  const TTL := 300 * SECOND
  const REFETCH_EVERY := 30 * SECOND
  const STALE := 3600 * SECOND
  const TOO_SOON := "the last fetch of the key set was under 30 seconds ago"

  /** A usable key: its type, its algorithm if it names one, and its numbers. */
  datatype Key = Key(kty: string, alg: string, numbers: seq<nat>)

  /** How one fetch of the set ends. */
  datatype Answer = Got(keys: map<string, Key>) | Failure(reason: string)

  datatype Result = Found(key: Key) | Unknown | Error(reason: string)

  /** One fetch, when it started and how it ended. */
  datatype Fetch = Fetch(at: int, answer: Answer)

  /** log, a history variable, is every fetch so far. */
  datatype State = State(keys: map<string, Key>, have: bool, fetchedAt: int, attemptAt: int, lastFail: Option<string>,
                         log: seq<Fetch>)

  const FRESH := State(map[], false, 0, 0, None, [])

  // ----------------------------------------------------- the cache's steps

  function Expired(s: State, now: int): State {
    if s.have && now - s.fetchedAt >= STALE then s.(have := false, keys := map[]) else s
  }

  predicate TooSoon(s: State, now: int) {
    s.attemptAt != 0 && now - s.attemptAt < REFETCH_EVERY
  }

  function Refreshed(s: State, now: int, a: Answer): State {
    if TooSoon(s, now) then s
    else
      var tried := s.(attemptAt := now, log := s.log + [Fetch(now, a)]);
      match a
      case Failure(reason) => tried.(lastFail := Some(reason))
      case Got(keys) => tried.(lastFail := None, keys := keys, have := true, fetchedAt := now)
  }

  /** The error refresh returns, if it returns one. */
  function RefreshError(s: State, now: int, a: Answer): Option<string> {
    if TooSoon(s, now) then Some(if s.lastFail.Some? then s.lastFail.value else TOO_SOON)
    else if a.Failure? then Some(a.reason) else None
  }

  /** Whether a set must be fetched before looking: none is held, or it is old. */
  predicate Due(s: State, now: int) {
    !s.have || now - s.fetchedAt >= TTL
  }

  /** The state and the result after one lookup. */
  function Looked(s: State, now: int, kid: string, a: Answer): (State, Result) {
    var s0 := Expired(s, now);
    var due := Due(s0, now);
    var attempted := due && !TooSoon(s0, now);
    var s1 := if due then Refreshed(s0, now, a) else s0;
    if due && !s1.have then (s1, Error(ErrorOf(RefreshError(s0, now, a))))
    else if kid in s1.keys then (s1, Found(s1.keys[kid]))
    else
      var s2 := if attempted then s1 else Refreshed(s1, now, a);
      if !attempted && !s2.have then (s2, Error(ErrorOf(RefreshError(s1, now, a))))
      else if kid in s2.keys then (s2, Found(s2.keys[kid])) else (s2, Unknown)
  }

  function ErrorOf(e: Option<string>): string {
    if e.Some? then e.value else ""
  }

  class Cache {
    var keys: map<string, Key>
    var have: bool
    var fetchedAt: int
    var attemptAt: int
    var lastFail: Option<string>
    ghost var log: seq<Fetch>

    ghost function View(): State
      reads this
    {
      State(keys, have, fetchedAt, attemptAt, lastFail, log)
    }

    constructor ()
      ensures View() == FRESH
    {
      keys, have, fetchedAt, attemptAt, lastFail, log := map[], false, 0, 0, None, [];
    }

    /** refresh.  a is what a fetch answers, should one be made. */
    method Refresh(now: int, a: Answer) returns (attempted: bool, err: Option<string>)
      modifies this
      ensures View() == Refreshed(old(View()), now, a)
      ensures err == RefreshError(old(View()), now, a)
      ensures attempted == !TooSoon(old(View()), now)
    {
      if attemptAt != 0 && now - attemptAt < REFETCH_EVERY {
        if lastFail.Some? {
          return false, lastFail;
        }
        return false, Some(TOO_SOON);
      }
      attemptAt := now;
      log := log + [Fetch(now, a)];
      match a
      case Failure(reason) =>
        lastFail := Some(reason);
        return true, lastFail;
      case Got(fetched) =>
        lastFail := None;
        keys, have, fetchedAt := fetched, true, now;
        return true, None;
    }

    /** lookup. */
    method Lookup(now: int, kid: string, a: Answer) returns (r: Result)
      modifies this
      ensures (View(), r) == Looked(old(View()), now, kid, a)
    {
      if have && now - fetchedAt >= STALE {
        have, keys := false, map[];
      }
      var attempted := false;
      if !have || now - fetchedAt >= TTL {
        var err;
        attempted, err := Refresh(now, a);
        if !have {
          return Error(ErrorOf(err));
        }
      }
      if kid in keys {
        return Found(keys[kid]);
      }
      if !attempted {
        var again, err := Refresh(now, a);
        if !have {
          return Error(ErrorOf(err));
        }
      }
      return if kid in keys then Found(keys[kid]) else Unknown;
    }
  }

  // ------------------------------------------------------------ whole runs

  /** The last fetch that brought a set. */
  function LastGot(log: seq<Fetch>): Option<Fetch> {
    if log == [] then None else if log[|log|-1].answer.Got? then Some(log[|log|-1]) else LastGot(log[..|log|-1])
  }

  /** Fetches never start less than 30 seconds apart. */
  predicate Spaced(log: seq<Fetch>) {
    forall i, j :: 0 <= i < j < |log| ==> log[j].at - log[i].at >= REFETCH_EVERY
  }

  /** What the fields say of the fetches made. */
  predicate Faithful(s: State, now: int) {
    && Spaced(s.log) && (forall i :: 0 <= i < |s.log| ==> 0 < s.log[i].at <= s.attemptAt)
    && (s.log == [] ==> s.attemptAt == 0 && !s.have)
    && (s.log != [] ==>
          var last := s.log[|s.log|-1];
          s.attemptAt == last.at <= now && s.lastFail == if last.answer.Failure? then Some(last.answer.reason)
            else None)
    && (s.have ==> LastGot(s.log) == Some(Fetch(s.fetchedAt, Got(s.keys))))
    && (!s.have ==> s.keys == map[])
    && (!s.have && LastGot(s.log).Some? ==> now - LastGot(s.log).value.at >= STALE)
  }

  lemma OneMoreFetch(log: seq<Fetch>, f: Fetch)
    ensures LastGot(log + [f]) == if f.answer.Got? then Some(f) else LastGot(log)
  {
    assert (log + [f])[..|log|] == log;
  }

  lemma ExpiredFaithful(s: State, then_: int, now: int)
    requires Faithful(s, then_) && then_ <= now
    ensures Faithful(Expired(s, now), now)
    ensures Expired(s, now).have ==> now - Expired(s, now).fetchedAt < STALE
  {
  }

  lemma RefreshedFaithful(s: State, now: int, a: Answer)
    requires Faithful(s, now) && now > 0
    ensures Faithful(Refreshed(s, now, a), now)
  {
    if !TooSoon(s, now) {
      var log := s.log + [Fetch(now, a)];
      OneMoreFetch(s.log, Fetch(now, a));
      assert forall i :: 0 <= i < |s.log| ==> log[i] == s.log[i] && now - log[i].at >= REFETCH_EVERY;
      assert Spaced(log) && log[|log|-1] == Fetch(now, a);
    }
  }

  /**
   A set that was not dropped for its age, and a last fetch that succeeded under 30 seconds ago,
   are the same case.
   */
  lemma RecentSuccessIsHeld(s: State, now: int)
    requires Faithful(s, now) && TooSoon(s, now) && s.lastFail == None
    ensures s.have
  {
    var last := s.log[|s.log|-1];
    assert last.answer.Got?;
    assert LastGot(s.log) == Some(last);
  }

  lemma LookedFaithful(s: State, then_: int, now: int, kid: string, a: Answer)
    requires Faithful(s, then_) && then_ <= now && now > 0
    ensures Faithful(Looked(s, now, kid, a).0, now)
  {
    ExpiredFaithful(s, then_, now);
    RefreshedFaithful(Expired(s, now), now, a);
    LookedState(s, now, kid, a);
  }

  /** A lookup drops a stale set, and then fetches once or not at all. */
  lemma LookedState(s: State, now: int, kid: string, a: Answer)
    ensures var s' := Looked(s, now, kid, a).0;
      s' == Expired(s, now) || s' == Refreshed(Expired(s, now), now, a)
  {
  }

  /** One lookup makes at most one fetch, and a failed one leaves a held set as it was. */
  lemma OneFetchAtMost(s: State, now: int, kid: string, a: Answer)
    requires now > 0
    ensures var s' := Looked(s, now, kid, a).0;
      s'.log == s.log || s'.log == s.log + [Fetch(now, a)]
    ensures var s' := Looked(s, now, kid, a).0;
      Expired(s, now).have && (a.Failure? || s'.log == s.log) ==>
        s'.have && s'.keys == s.keys && s'.fetchedAt == s.fetchedAt
  {
  }

  /** The result, in terms of the fields the lookup leaves. */
  lemma LookedFields(s: State, now: int, kid: string, a: Answer)
    requires now > 0
    ensures var (s', r) := Looked(s, now, kid, a);
      && (r.Found? ==> s'.have && kid in s'.keys && s'.keys[kid] == r.key && now - s'.fetchedAt < STALE)
      && (r.Unknown? ==> s'.have && kid !in s'.keys)
      && (r.Error? <==> !s'.have)
      && (!r.Found? ==> s'.attemptAt != 0 && now - s'.attemptAt < REFETCH_EVERY)
  {
  }

  /** With no set held and a fetch under 30 seconds ago, that fetch failed. */
  lemma ErrorIsTheLastFailure(s: State, then_: int, now: int, kid: string, a: Answer)
    requires Faithful(s, then_) && then_ <= now && now > 0 && Looked(s, now, kid, a).1.Error?
    ensures Looked(s, now, kid, a).0.lastFail == Some(Looked(s, now, kid, a).1.reason)
  {
    ExpiredFaithful(s, then_, now);
    var s0 := Expired(s, now);
    if TooSoon(s0, now) && s0.lastFail == None {
      RecentSuccessIsHeld(s0, now);
    }
  }

  /**
   What a lookup's result means.  A key comes from the latest set fetched, under
   an hour ago.  A key is called unknown only when that set lacks it and a fetch
   started under 30 seconds ago.  There is an error exactly when no set is held
   after the lookup, and its reason is that of the latest fetch, a failure under
   30 seconds ago: the reply that the last fetch was too recent is never given.
   */
  lemma LookedMeans(s: State, then_: int, now: int, kid: string, a: Answer)
    requires Faithful(s, then_) && then_ <= now && now > 0
    ensures var (s', r) := Looked(s, now, kid, a);
      && (r.Found? ==>
            var last := LastGot(s'.log);
            last.Some? && last.value.answer.Got? && now - last.value.at < STALE
            && kid in last.value.answer.keys && last.value.answer.keys[kid] == r.key)
      && (r.Unknown? ==>
            && LastGot(s'.log).Some? && LastGot(s'.log).value.answer.Got? && kid !in LastGot(s'.log).value.answer.keys
            && s'.log != [] && now - s'.log[|s'.log|-1].at < REFETCH_EVERY)
      && (r.Error? <==> !s'.have)
      && (r.Error? ==>
            && s'.log != [] && now - s'.log[|s'.log|-1].at < REFETCH_EVERY
            && s'.log[|s'.log|-1].answer == Failure(r.reason))
  {
    LookedFields(s, now, kid, a);
    LookedFaithful(s, then_, now, kid, a);
    if Looked(s, now, kid, a).1.Error? {
      ErrorIsTheLastFailure(s, then_, now, kid, a);
    }
    var s' := Looked(s, now, kid, a).0;
    if s'.have {
      assert LastGot(s'.log) == Some(Fetch(s'.fetchedAt, Got(s'.keys)));
    }
  }

  /** The set a lookup goes by: what it fetched, or a held one under an hour old. */
  function GoesBy(s: State, now: int, fetched: bool, a: Answer): Option<map<string, Key>> {
    if fetched && a.Got? then Some(a.keys)
    else if s.have && now - s.fetchedAt < 3600 * 1_000_000_000 then Some(s.keys)
    else None
  }

  /**
   A lookup in terms of its input.  It fetches exactly when the last fetch
   started 30 seconds ago or more, or there was none, and it has no set under
   five minutes old that holds the key; and it answers from the set it goes by.
   */
  lemma LookupSpelledOut(s: State, now: int, kid: string, a: Answer)
    requires now > 0
    ensures var (s', r) := Looked(s, now, kid, a);
      var fetched := s'.log != s.log;
      var held := GoesBy(s, now, fetched, a);
      && (fetched <==>
            && (s.attemptAt == 0 || now - s.attemptAt >= 30 * 1_000_000_000)
            && !(s.have && now - s.fetchedAt < 300 * 1_000_000_000 && kid in s.keys))
      && (fetched ==> s'.log == s.log + [Fetch(now, a)])
      && (r.Found? <==> held.Some? && kid in held.value) && (r.Found? ==> r.key == held.value[kid])
      && (r.Unknown? <==> held.Some? && kid !in held.value)
      && (s'.have <==> held.Some?) && (held.Some? ==> s'.keys == held.value)
  {
    assert |s.log + [Fetch(now, a)]| == |s.log| + 1;
  }

  datatype Call = Call(now: int, kid: string, answer: Answer)

  /** A clock that never goes back. */
  predicate Ordered(calls: seq<Call>) {
    && (forall i :: 0 <= i < |calls| ==> calls[i].now > 0)
    && forall i, j :: 0 <= i < j < |calls| ==> calls[i].now <= calls[j].now
  }

  function After(calls: seq<Call>): State {
    if calls == [] then FRESH
    else
      var c := calls[|calls|-1];
      Looked(After(calls[..|calls|-1]), c.now, c.kid, c.answer).0
  }

  /** Over any run of lookups fetches start at least 30 seconds apart, and the cache is what the log of them says. */
  lemma {:induction false} RunIsFaithful(calls: seq<Call>)
    requires Ordered(calls)
    ensures Faithful(After(calls), if calls == [] then 0 else calls[|calls|-1].now)
  {
    if calls != [] {
      var (init, c) := (calls[..|calls|-1], calls[|calls|-1]);
      RunIsFaithful(init);
      LookedFaithful(After(init), if init == [] then 0 else init[|init|-1].now, c.now, c.kid, c.answer);
    }
  }
}
