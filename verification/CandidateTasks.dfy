/**
 Which candidates are resolved first, in what order the whole list of tasks
 runs, and how the ranking finds its way back to ascending order.

 Sources: rank/candidates.go, internal/jobs/analysis_candidates.go,
 internal/jobs/analysis_helpers.go, internal/jobs/analysis_rank.go.
 */
module CandidateTasks {
  import opened Candidates
  import opened Paths
  import opened SemVer
  import opened Sorting
  import opened Wrappers

  predicate NoRepeat(vs: seq<string>) {
    forall i, j :: 0 <= i < j < |vs| ==> vs[i] != vs[j]
  }

  // -------------------------------------------------------- key versions

  /** The first listed version at or above another. */
  function FirstAtLeast(parse: Parser, newer: seq<string>, f: Version): Option<string> {
    if newer == [] then None
    else if parse(newer[0]).Some? && !Less(parse(newer[0]).value, f) then Some(newer[0])
    else FirstAtLeast(parse, newer[1..], f)
  }

  /** The last listed version no further than a jump from current. */
  function LastWithin(parse: Parser, current: string, newer: seq<string>, reach: Jump): string {
    if newer == [] then ""
    else
      var last := newer[|newer|-1];
      if Distance(JumpOf(parse, current, last)) <= Distance(reach) then last
      else LastWithin(parse, current, newer[..|newer|-1], reach)
  }

  /** The key a reported fixed version gives, if it is a version and a candidate reaches it. */
  function KeyOf(parse: Parser, newer: seq<string>, piece: string): set<string> {
    match parse(TrimSpace(piece))
    case None => {}
    case Some(f) =>
      match FirstAtLeast(parse, newer, f)
      case None => {}
      case Some(v) => {v}
  }

  function KeysOf(parse: Parser, newer: seq<string>, pieces: seq<string>): set<string> {
    if pieces == [] then {} else KeysOf(parse, newer, pieces[..|pieces|-1]) + KeyOf(parse, newer, pieces[|pieces|-1])
  }

  function FixedKeys(parse: Parser, newer: seq<string>, fixed: seq<string>): set<string> {
    if fixed == [] then {}
    else FixedKeys(parse, newer, fixed[..|fixed|-1]) + KeysOf(parse, newer, Split(fixed[|fixed|-1], ','))
  }

  /** Up to three key versions: the highest that keeps the minor, that keeps the major, and of any. */
  function LatestKeys(parse: Parser, current: string, newer: seq<string>): set<string> {
    {LastWithin(parse, current, newer, SameMinor), LastWithin(parse, current, newer, SameMajor),
     if newer == [] then "" else newer[|newer|-1]}
  }

  function KeySet(parse: Parser, current: string, newer: seq<string>, fixed: seq<string>): set<string> {
    FixedKeys(parse, newer, fixed) + LatestKeys(parse, current, newer) - {""}
  }

  function Elements(vs: seq<string>): set<string> {
    set v | v in vs
  }

  /** add: once, and never the empty string. */
  method Add(keys: seq<string>, v: string) returns (more: seq<string>)
    requires NoRepeat(keys)
    ensures NoRepeat(more) && Elements(more) == Elements(keys) + ({v} - {""})
  {
    if v != "" && v !in keys {
      return keys + [v];
    }
    return keys;
  }

  /** One list of fixed versions. */
  method AddFixed(parse: Parser, newer: seq<string>, pieces: seq<string>, keys: seq<string>) returns (more: seq<string>)
    requires NoRepeat(keys)
    ensures NoRepeat(more) && Elements(more) == Elements(keys) + (KeysOf(parse, newer, pieces) - {""})
  {
    more := keys;
    for i := 0 to |pieces|
      invariant NoRepeat(more) && Elements(more) == Elements(keys) + (KeysOf(parse, newer, pieces[..i]) - {""})
    {
      assert pieces[..i+1][..i] == pieces[..i];
      var f := parse(TrimSpace(pieces[i]));
      if f == None {
        continue;
      }
      var k := 0;
      while k < |newer| && !(parse(newer[k]).Some? && !Less(parse(newer[k]).value, f.value))
        invariant k <= |newer| && FirstAtLeast(parse, newer, f.value) == FirstAtLeast(parse, newer[k..], f.value)
      {
        k := k + 1;
      }
      if k < |newer| {
        more := Add(more, newer[k]);
      }
    }
    assert pieces[..|pieces|] == pieces;
  }

  /** KeyVersions' loop for the latest patch and the latest of the current major. */
  method LatestOf(parse: Parser, current: string, newer: seq<string>) returns (patch: string, minor: string)
    ensures patch == LastWithin(parse, current, newer, SameMinor)
    ensures minor == LastWithin(parse, current, newer, SameMajor)
  {
    patch, minor := "", "";
    for i := 0 to |newer|
      invariant patch == LastWithin(parse, current, newer[..i], SameMinor)
      invariant minor == LastWithin(parse, current, newer[..i], SameMajor)
    {
      assert newer[..i+1][..i] == newer[..i];
      match JumpOf(parse, current, newer[i])
      case SameMinor => patch, minor := newer[i], newer[i];
      case SameMajor => minor := newer[i];
      case OtherMajor =>
    }
    assert newer[..|newer|] == newer;
  }

  /** KeyVersions. */
  method KeyVersions(parse: Parser, current: string, newer: seq<string>, fixed: seq<string>) returns (keys: seq<string>)
    ensures NoRepeat(keys) && Elements(keys) == KeySet(parse, current, newer, fixed)
  {
    keys := [];
    for i := 0 to |fixed|
      invariant NoRepeat(keys) && Elements(keys) == FixedKeys(parse, newer, fixed[..i]) - {""}
    {
      assert fixed[..i+1][..i] == fixed[..i];
      keys := AddFixed(parse, newer, Split(fixed[i], ','), keys);
    }
    assert fixed[..|fixed|] == fixed;
    var patch, minor := LatestOf(parse, current, newer);
    keys := Add(keys, patch);
    keys := Add(keys, minor);
    if newer != [] {
      keys := Add(keys, newer[|newer|-1]);
    }
  }

  lemma {:induction false} FirstIsLowest(parse: Parser, newer: seq<string>, f: Version)
    requires Ascending(parse, newer)
    ensures FirstAtLeast(parse, newer, f) == None <==> forall v :: v in newer ==> Less(parse(v).value, f)
    ensures FirstAtLeast(parse, newer, f).Some? ==>
      var k := FirstAtLeast(parse, newer, f).value;
      && k in newer && !Less(parse(k).value, f)
      && forall v :: v in newer && !Less(parse(v).value, f) ==> Compare(parse(k).value, parse(v).value) <= 0
  {
    if newer != [] {
      assert newer == [newer[0]] + newer[1..];
      FirstIsLowest(parse, newer[1..], f);
      if !Less(parse(newer[0]).value, f) {
        forall v | v in newer ensures Compare(parse(newer[0]).value, parse(v).value) <= 0 {
          var i :| 0 <= i < |newer| && newer[i] == v;
          PrecedenceIsTotal(parse(v).value, parse(v).value, parse(v).value);
        }
      }
    }
  }

  lemma {:induction false} WithinIsListed(parse: Parser, current: string, newer: seq<string>, reach: Jump)
    ensures LastWithin(parse, current, newer, reach) == "" || LastWithin(parse, current, newer, reach) in newer
  {
    if newer != [] && Distance(JumpOf(parse, current, newer[|newer|-1])) > Distance(reach) {
      WithinIsListed(parse, current, newer[..|newer|-1], reach);
    }
  }

  lemma {:induction false} FirstIsListed(parse: Parser, newer: seq<string>, f: Version)
    ensures FirstAtLeast(parse, newer, f).Some? ==> FirstAtLeast(parse, newer, f).value in newer
  {
    if newer != [] {
      FirstIsListed(parse, newer[1..], f);
    }
  }

  lemma {:induction false} KeysAreListed(parse: Parser, newer: seq<string>, pieces: seq<string>)
    ensures KeysOf(parse, newer, pieces) <= Elements(newer)
    ensures forall i :: 0 <= i < |pieces| ==> KeyOf(parse, newer, pieces[i]) <= KeysOf(parse, newer, pieces)
  {
    if pieces != [] {
      var (init, last) := (pieces[..|pieces|-1], pieces[|pieces|-1]);
      KeysAreListed(parse, newer, init);
      if parse(TrimSpace(last)).Some? {
        FirstIsListed(parse, newer, parse(TrimSpace(last)).value);
      }
      forall i | 0 <= i < |pieces| ensures KeyOf(parse, newer, pieces[i]) <= KeysOf(parse, newer, pieces) {
        if i < |init| {
          assert init[i] == pieces[i];
        }
      }
    }
  }

  lemma {:induction false} FixedAreListed(parse: Parser, newer: seq<string>, fixed: seq<string>)
    ensures FixedKeys(parse, newer, fixed) <= Elements(newer)
    ensures forall i :: 0 <= i < |fixed| ==>
      KeysOf(parse, newer, Split(fixed[i], ',')) <= FixedKeys(parse, newer, fixed)
  {
    if fixed != [] {
      var (init, last) := (fixed[..|fixed|-1], fixed[|fixed|-1]);
      FixedAreListed(parse, newer, init);
      KeysAreListed(parse, newer, Split(last, ','));
      forall i | 0 <= i < |fixed| ensures KeysOf(parse, newer, Split(fixed[i], ',')) <= FixedKeys(parse, newer, fixed) {
        if i < |init| {
          assert init[i] == fixed[i];
        }
      }
    }
  }

  /** Every key is a candidate. */
  lemma KeysAreCandidates(parse: Parser, current: string, newer: seq<string>, fixed: seq<string>)
    ensures KeySet(parse, current, newer, fixed) <= Elements(newer)
  {
    FixedAreListed(parse, newer, fixed);
    WithinIsListed(parse, current, newer, SameMinor);
    WithinIsListed(parse, current, newer, SameMajor);
  }

  /** A fixed version that some candidate reaches makes a key of the first one that does. */
  lemma LowestFixIsKey(parse: Parser, current: string, newer: seq<string>, fixed: seq<string>, i: nat, j: nat,
                       f: Version)
    requires Ascending(parse, newer) && i < |fixed| && j < |Split(fixed[i], ',')|
    requires parse(TrimSpace(Split(fixed[i], ',')[j])) == Some(f)
    requires parse("") == None && exists v :: v in newer && !Less(parse(v).value, f)
    ensures exists k :: k in KeySet(parse, current, newer, fixed) && k in newer && !Less(parse(k).value, f)
              && forall v :: v in newer && !Less(parse(v).value, f) ==> Compare(parse(k).value, parse(v).value) <= 0
  {
    FirstIsLowest(parse, newer, f);
    var k := FirstAtLeast(parse, newer, f).value;
    KeysAreListed(parse, newer, Split(fixed[i], ','));
    FixedAreListed(parse, newer, fixed);
    assert k in KeyOf(parse, newer, Split(fixed[i], ',')[j]);
    assert k in KeysOf(parse, newer, Split(fixed[i], ','));
    assert k != "";
  }

  /** The version keeps what the reach says of the current one: major and minor, major, or nothing. */
  predicate Keeps(current: Version, v: Version, reach: Jump) {
    match reach
    case SameMinor => v.major == current.major && v.minor == current.minor
    case SameMajor => v.major == current.major
    case OtherMajor => true
  }

  lemma ReachMeans(parse: Parser, current: string, v: string, reach: Jump)
    requires parse(current).Some? && parse(v).Some?
    ensures Distance(JumpOf(parse, current, v)) <= Distance(reach) <==>
      Keeps(parse(current).value, parse(v).value, reach)
  {
  }

  lemma LastIsAbove(parse: Parser, newer: seq<string>, v: string)
    requires Ascending(parse, newer) && v in newer
    ensures Compare(parse(v).value, parse(newer[|newer|-1]).value) <= 0
  {
    var i :| 0 <= i < |newer| && newer[i] == v;
    PrecedenceIsTotal(parse(v).value, parse(v).value, parse(v).value);
  }

  /** Of the versions that keep what the reach says the last listed is the highest. */
  lemma {:induction false} LastIsHighest(parse: Parser, current: string, newer: seq<string>, reach: Jump, some: string)
    requires Ascending(parse, newer) && parse(current).Some?
    requires some in newer && Keeps(parse(current).value, parse(some).value, reach)
    ensures var k := LastWithin(parse, current, newer, reach);
      && k in newer && Keeps(parse(current).value, parse(k).value, reach)
      && forall v :: v in newer && Keeps(parse(current).value, parse(v).value, reach) ==>
           Compare(parse(v).value, parse(k).value) <= 0
  {
    var (init, last) := (newer[..|newer|-1], newer[|newer|-1]);
    assert newer == init + [last];
    ReachMeans(parse, current, last, reach);
    if Keeps(parse(current).value, parse(last).value, reach) {
      forall v | v in newer ensures Compare(parse(v).value, parse(last).value) <= 0 {
        LastIsAbove(parse, newer, v);
      }
    } else {
      LastIsHighest(parse, current, init, reach, some);
    }
  }

  /**
   Of the candidates that keep the minor, of those that keep the major, and of
   all, one that no other is above is a key.
   */
  lemma LatestAreKeys(parse: Parser, current: string, newer: seq<string>, fixed: seq<string>, reach: Jump)
    requires Ascending(parse, newer) && parse(current).Some? && parse("") == None
    requires exists v :: v in newer && Keeps(parse(current).value, parse(v).value, reach)
    ensures exists k :: k in KeySet(parse, current, newer, fixed) && k in newer
              && Keeps(parse(current).value, parse(k).value, reach)
              && forall v :: v in newer && Keeps(parse(current).value, parse(v).value, reach) ==>
                   Compare(parse(v).value, parse(k).value) <= 0
  {
    var some :| some in newer && Keeps(parse(current).value, parse(some).value, reach);
    LastIsHighest(parse, current, newer, reach, some);
    var k := LastWithin(parse, current, newer, reach);
    assert k != "";
    assert k in KeySet(parse, current, newer, fixed);
  }

  /** And there are no other keys: one is the first that reaches a fixed version, or a latest. */
  lemma KeysAreFixesOrLatest(parse: Parser, current: string, newer: seq<string>, fixed: seq<string>, k: string)
    requires k in KeySet(parse, current, newer, fixed)
    ensures || (exists i, j, f ::
                  && 0 <= i < |fixed| && 0 <= j < |Split(fixed[i], ',')|
                  && parse(TrimSpace(Split(fixed[i], ',')[j])) == Some(f) && FirstAtLeast(parse, newer, f) == Some(k))
            || k == LastWithin(parse, current, newer, SameMinor)
            || k == LastWithin(parse, current, newer, SameMajor)
            || (newer != [] && k == newer[|newer|-1])
  {
    if k in FixedKeys(parse, newer, fixed) {
      var i := FixedKeyFrom(parse, newer, fixed, k);
      var j := KeyFrom(parse, newer, Split(fixed[i], ','), k);
      var f := parse(TrimSpace(Split(fixed[i], ',')[j])).value;
      assert FirstAtLeast(parse, newer, f) == Some(k);
    }
  }

  lemma {:induction false} FixedKeyFrom(parse: Parser, newer: seq<string>, fixed: seq<string>, k: string)
    returns (i: nat)
    requires k in FixedKeys(parse, newer, fixed)
    ensures i < |fixed| && k in KeysOf(parse, newer, Split(fixed[i], ','))
  {
    if k in KeysOf(parse, newer, Split(fixed[|fixed|-1], ',')) {
      i := |fixed| - 1;
    } else {
      i := FixedKeyFrom(parse, newer, fixed[..|fixed|-1], k);
    }
  }

  lemma {:induction false} KeyFrom(parse: Parser, newer: seq<string>, pieces: seq<string>, k: string)
    returns (j: nat)
    requires k in KeysOf(parse, newer, pieces)
    ensures j < |pieces| && k in KeyOf(parse, newer, pieces[j])
  {
    if k in KeyOf(parse, newer, pieces[|pieces|-1]) {
      j := |pieces| - 1;
    } else {
      j := KeyFrom(parse, newer, pieces[..|pieces|-1], k);
    }
  }

  // --------------------------------------------------------------- tasks

  /**
   A direct dependency: its newer versions, the fixed versions reported for it, and whether a
   warning stands in for them.
   */
  datatype Dependency = Dependency(name: string, version: string, newer: seq<string>, fixed: seq<string>, warned: bool)

  datatype Task = Task(name: string, version: string, key: bool, current: bool)

  function TaskFor(parse: Parser, d: Dependency, v: string): Task {
    Task(d.name, v, v in KeySet(parse, d.version, d.newer, d.fixed), false)
  }

  function TasksFor(parse: Parser, d: Dependency, vs: seq<string>): (ts: seq<Task>)
    ensures |ts| == |vs| && forall i :: 0 <= i < |vs| ==> ts[i] == TaskFor(parse, d, vs[i])
  {
    seq(|vs|, i requires 0 <= i < |vs| => TaskFor(parse, d, vs[i]))
  }

  function CurrentTask(d: Dependency): Task {
    Task(d.name, d.version, false, true)
  }

  /** What must be resolved for a dependency, in plain order. */
  function DependencyTasks(parse: Parser, d: Dependency): seq<Task> {
    if d.warned then [] else [CurrentTask(d)] + TasksFor(parse, d, d.newer)
  }

  function AllTasks(parse: Parser, deps: seq<Dependency>): seq<Task> {
    if deps == [] then [] else AllTasks(parse, deps[..|deps|-1]) + DependencyTasks(parse, deps[|deps|-1])
  }

  predicate IsPrimary(t: Task) {
    t.current || t.key
  }

  /** The newer versions that are no keys, in order. */
  function Others(newer: seq<string>, keys: seq<string>): seq<string> {
    if newer == [] then []
    else Others(newer[..|newer|-1], keys) + if newer[|newer|-1] in keys then [] else [newer[|newer|-1]]
  }

  method OrderKeyFirst(newer: seq<string>, keys: seq<string>) returns (ordered: seq<string>)
    ensures ordered == keys + Others(newer, keys)
  {
    ordered := keys;
    for i := 0 to |newer|
      invariant ordered == keys + Others(newer[..i], keys)
    {
      assert newer[..i+1][..i] == newer[..i];
      if newer[i] !in keys {
        ordered := ordered + [newer[i]];
      }
    }
    assert newer[..|newer|] == newer;
  }

  lemma {:induction false} OthersCount(newer: seq<string>, keys: seq<string>, v: string)
    ensures multiset(Others(newer, keys))[v] == if v in keys then 0 else multiset(newer)[v]
  {
    if newer != [] {
      var (init, last) := (newer[..|newer|-1], newer[|newer|-1]);
      OthersCount(init, keys, v);
      assert newer == init + [last];
    }
  }

  lemma {:induction false} OnceCount(vs: seq<string>, v: string)
    requires NoRepeat(vs)
    ensures multiset(vs)[v] == if v in vs then 1 else 0
  {
    if vs != [] {
      assert vs == [vs[0]] + vs[1..];
      OnceCount(vs[1..], v);
    }
  }

  /** Moving the keys to the front loses and repeats nothing. */
  lemma KeyFirstIsPermutation(newer: seq<string>, keys: seq<string>)
    requires NoRepeat(newer) && NoRepeat(keys) && Elements(keys) <= Elements(newer)
    ensures multiset(keys + Others(newer, keys)) == multiset(newer)
  {
    forall v ensures multiset(keys + Others(newer, keys))[v] == multiset(newer)[v] {
      OthersCount(newer, keys, v);
      OnceCount(keys, v);
      OnceCount(newer, v);
      assert v in keys ==> v in Elements(keys);
    }
  }

  /** The tasks for some versions, those among keys marked. */
  function Marked(name: string, keys: seq<string>, vs: seq<string>): (ts: seq<Task>)
    ensures |ts| == |vs| && forall i :: 0 <= i < |vs| ==> ts[i] == Task(name, vs[i], vs[i] in keys, false)
  {
    seq(|vs|, i requires 0 <= i < |vs| => Task(name, vs[i], vs[i] in keys, false))
  }

  lemma MarkedAreTasksFor(parse: Parser, d: Dependency, keys: seq<string>, vs: seq<string>)
    requires Elements(keys) == KeySet(parse, d.version, d.newer, d.fixed)
    ensures Marked(d.name, keys, vs) == TasksFor(parse, d, vs)
  {
    forall i | 0 <= i < |vs| ensures Marked(d.name, keys, vs)[i] == TaskFor(parse, d, vs[i]) {
      assert vs[i] in keys <==> vs[i] in Elements(keys);
    }
  }

  /** The two parts one dependency adds to the list. */
  method SplitTasks(name: string, ordered: seq<string>, keys: seq<string>) returns (primary: seq<Task>, rest: seq<Task>)
    ensures forall t :: t in primary ==> IsPrimary(t)
    ensures forall t :: t in rest ==> !IsPrimary(t)
    ensures multiset(primary) + multiset(rest) == multiset(Marked(name, keys, ordered))
  {
    primary, rest := [], [];
    for i := 0 to |ordered|
      invariant forall t :: t in primary ==> IsPrimary(t)
      invariant forall t :: t in rest ==> !IsPrimary(t)
      invariant multiset(primary) + multiset(rest) == multiset(Marked(name, keys, ordered[..i]))
    {
      var task := Task(name, ordered[i], ordered[i] in keys, false);
      assert Marked(name, keys, ordered[..i+1]) == Marked(name, keys, ordered[..i]) + [task];
      if task.key {
        primary := primary + [task];
      } else {
        rest := rest + [task];
      }
    }
    assert ordered[..|ordered|] == ordered;
  }

  lemma TasksForIsMapped(parse: Parser, d: Dependency, vs: seq<string>, f: string -> Task)
    requires forall v :: f(v) == TaskFor(parse, d, v)
    ensures TasksFor(parse, d, vs) == Mapped(vs, f)
  {
  }

  lemma TasksForPermutation(parse: Parser, d: Dependency, a: seq<string>, b: seq<string>)
    requires multiset(a) == multiset(b)
    ensures multiset(TasksFor(parse, d, a)) == multiset(TasksFor(parse, d, b))
  {
    var f := v => TaskFor(parse, d, v);
    TasksForIsMapped(parse, d, a, f);
    TasksForIsMapped(parse, d, b, f);
    MappedPermutation(a, b, f);
  }

  /** The body of buildCandidateTasks' loop. */
  method DependencyParts(parse: Parser, d: Dependency) returns (primary: seq<Task>, rest: seq<Task>)
    requires !d.warned
    ensures forall t :: t in primary ==> IsPrimary(t)
    ensures forall t :: t in rest ==> !IsPrimary(t)
    ensures NoRepeat(d.newer) ==> multiset(primary) + multiset(rest) == multiset(DependencyTasks(parse, d))
  {
    var keys := KeyVersions(parse, d.version, d.newer, d.fixed);
    var ordered := OrderKeyFirst(d.newer, keys);
    primary, rest := SplitTasks(d.name, ordered, keys);
    MarkedAreTasksFor(parse, d, keys, ordered);
    if NoRepeat(d.newer) {
      KeysAreCandidates(parse, d.version, d.newer, d.fixed);
      KeyFirstIsPermutation(d.newer, keys);
      TasksForPermutation(parse, d, ordered, d.newer);
    }
    primary := [CurrentTask(d)] + primary;
  }

  ghost predicate NoneRepeats(deps: seq<Dependency>) {
    forall i :: 0 <= i < |deps| ==> NoRepeat(deps[i].newer)
  }

  lemma OneMoreDependency(parse: Parser, deps: seq<Dependency>, n: nat)
    requires n < |deps|
    ensures AllTasks(parse, deps[..n+1]) == AllTasks(parse, deps[..n]) + DependencyTasks(parse, deps[n])
  {
    assert deps[..n+1][..n] == deps[..n];
  }

  /**
   buildCandidateTasks: the list holds each current version and each newer one
   of every dependency without a warning, once, all current and key tasks ahead
   of all the others.
   */
  method BuildCandidateTasks(parse: Parser, deps: seq<Dependency>) returns (tasks: seq<Task>, primaries: nat)
    ensures primaries <= |tasks|
    ensures forall i :: 0 <= i < |tasks| ==> (IsPrimary(tasks[i]) <==> i < primaries)
    ensures NoneRepeats(deps) ==> multiset(tasks) == multiset(AllTasks(parse, deps))
  {
    var primary, rest: seq<Task> := [], [];
    for i := 0 to |deps|
      invariant forall t :: t in primary ==> IsPrimary(t)
      invariant forall t :: t in rest ==> !IsPrimary(t)
      invariant NoneRepeats(deps) ==> multiset(primary) + multiset(rest) == multiset(AllTasks(parse, deps[..i]))
    {
      OneMoreDependency(parse, deps, i);
      if deps[i].warned {
        continue;
      }
      var first, later := DependencyParts(parse, deps[i]);
      primary, rest := primary + first, rest + later;
    }
    assert deps[..|deps|] == deps;
    return primary + rest, |primary|;
  }

  // ------------------------------------------------------------- ranking

  /** groupOutcomesByDep, for one dependency. */
  function Group(tasks: seq<Task>, name: string): seq<Task> {
    if tasks == [] then []
    else Group(tasks[..|tasks|-1], name) + if tasks[|tasks|-1].name == name then [tasks[|tasks|-1]] else []
  }

  /** The group without its current version. */
  function NotCurrent(group: seq<Task>): seq<Task> {
    if group == [] then []
    else NotCurrent(group[..|group|-1]) + if group[|group|-1].current then [] else [group[|group|-1]]
  }

  lemma {:induction false} GroupCount(tasks: seq<Task>, name: string, t: Task)
    ensures multiset(Group(tasks, name))[t] == if t.name == name then multiset(tasks)[t] else 0
  {
    if tasks != [] {
      var (init, last) := (tasks[..|tasks|-1], tasks[|tasks|-1]);
      GroupCount(init, name, t);
      CountOneMore(init, last, t);
      CountOneMore(Group(init, name), last, t);
      assert tasks == init + [last];
      assert Group(tasks, name) == if last.name == name then Group(init, name) + [last] else Group(init, name);
    }
  }

  lemma CountOneMore(ts: seq<Task>, last: Task, t: Task)
    ensures multiset(ts + [last])[t] == multiset(ts)[t] + if t == last then 1 else 0
  {
  }

  lemma {:induction false} NotCurrentCount(group: seq<Task>, t: Task)
    ensures multiset(NotCurrent(group))[t] == if t.current then 0 else multiset(group)[t]
  {
    if group != [] {
      var (init, last) := (group[..|group|-1], group[|group|-1]);
      NotCurrentCount(init, t);
      CountOneMore(init, last, t);
      CountOneMore(NotCurrent(init), last, t);
      assert group == init + [last];
      assert NotCurrent(group) == if last.current then NotCurrent(init) else NotCurrent(init) + [last];
    }
  }

  /** The last place of each version. */
  method Places(newer: seq<string>) returns (ascending: map<string, nat>)
    ensures NoRepeat(newer) ==> forall i :: 0 <= i < |newer| ==> newer[i] in ascending && ascending[newer[i]] == i
  {
    ascending := map[];
    for i := 0 to |newer|
      invariant NoRepeat(newer) ==> forall j :: 0 <= j < i ==> newer[j] in ascending && ascending[newer[j]] == j
    {
      ascending := ascending[newer[i] := i];
    }
  }

  function PlaceOf(ascending: map<string, nat>, v: string): nat {
    if v in ascending then ascending[v] else 0
  }

  /**
   rankDependency's reordering: whatever order the resolution ran in, sorting a
   dependency's outcomes by their place in the list of newer versions gives back
   that very list.
   */
  method RankOrder(parse: Parser, d: Dependency, group: seq<Task>) returns (others: seq<Task>)
    ensures multiset(others) == multiset(NotCurrent(group))
    ensures NoRepeat(d.newer) && !d.warned && multiset(group) == multiset(DependencyTasks(parse, d)) ==>
              others == TasksFor(parse, d, d.newer)
  {
    others := [];
    for i := 0 to |group|
      invariant others == NotCurrent(group[..i])
    {
      assert group[..i+1][..i] == group[..i];
      if !group[i].current {
        others := others + [group[i]];
      }
    }
    assert group[..|group|] == group;
    var ascending := Places(d.newer);
    var before := (a: Task, b: Task) => PlaceOf(ascending, a.version) < PlaceOf(ascending, b.version);
    others := Sort(others, before);
    if NoRepeat(d.newer) && !d.warned && multiset(group) == multiset(DependencyTasks(parse, d)) {
      NewerOfDependency(parse, d, group);
      ListIsSorted(parse, d, ascending, before);
      SortedIsUnique(TasksFor(parse, d, d.newer), others, before);
    }
  }

  lemma NewerOfDependency(parse: Parser, d: Dependency, group: seq<Task>)
    requires !d.warned && multiset(group) == multiset(DependencyTasks(parse, d))
    ensures multiset(NotCurrent(group)) == multiset(TasksFor(parse, d, d.newer))
  {
    var plain := TasksFor(parse, d, d.newer);
    forall t ensures multiset(NotCurrent(group))[t] == multiset(plain)[t] {
      NotCurrentCount(group, t);
      assert multiset(DependencyTasks(parse, d)) == multiset{CurrentTask(d)} + multiset(plain);
      assert t in multiset(plain) ==> t in plain;
    }
  }

  lemma ListIsSorted(parse: Parser, d: Dependency, ascending: map<string, nat>, before: (Task, Task) -> bool)
    requires forall i :: 0 <= i < |d.newer| ==> d.newer[i] in ascending && ascending[d.newer[i]] == i
    requires forall a, b :: before(a, b) == (PlaceOf(ascending, a.version) < PlaceOf(ascending, b.version))
    ensures Sorted(TasksFor(parse, d, d.newer), before)
    ensures var m := multiset(TasksFor(parse, d, d.newer));
      forall x, y :: x in m && y in m ==> x == y || before(x, y) || before(y, x)
  {
    var plain := TasksFor(parse, d, d.newer);
    forall x, y | x in multiset(plain) && y in multiset(plain) ensures x == y || before(x, y) || before(y, x) {
      assert x in plain && y in plain;
      var i :| 0 <= i < |plain| && plain[i] == x;
      var j :| 0 <= j < |plain| && plain[j] == y;
      assert PlaceOf(ascending, x.version) == i && PlaceOf(ascending, y.version) == j;
    }
  }

  predicate NamesDiffer(deps: seq<Dependency>) {
    forall i, j :: 0 <= i < j < |deps| ==> deps[i].name != deps[j].name
  }

  /** How often a task is asked for over all dependencies. */
  function Asked(parse: Parser, deps: seq<Dependency>, t: Task): nat {
    multiset(AllTasks(parse, deps))[t]
  }

  function AskedFor(parse: Parser, d: Dependency, t: Task): nat {
    multiset(DependencyTasks(parse, d))[t]
  }

  lemma CountWithLast(parse: Parser, deps: seq<Dependency>, t: Task)
    requires deps != []
    ensures Asked(parse, deps, t) == Asked(parse, deps[..|deps|-1], t) + AskedFor(parse, deps[|deps|-1], t)
  {
  }

  lemma OtherName(parse: Parser, d: Dependency, t: Task)
    ensures t.name != d.name ==> AskedFor(parse, d, t) == 0
  {
    if t in multiset(DependencyTasks(parse, d)) {
      assert t in DependencyTasks(parse, d);
    }
  }

  function Sum(counts: seq<nat>): nat {
    if counts == [] then 0 else Sum(counts[..|counts|-1]) + counts[|counts|-1]
  }

  lemma {:induction false} SumOfNone(counts: seq<nat>)
    requires forall i :: 0 <= i < |counts| ==> counts[i] == 0
    ensures Sum(counts) == 0
  {
    if counts != [] {
      SumOfNone(counts[..|counts|-1]);
    }
  }

  lemma {:induction false} SumOfOne(counts: seq<nat>, k: nat)
    requires k < |counts| && forall i :: 0 <= i < |counts| && i != k ==> counts[i] == 0
    ensures Sum(counts) == counts[k]
  {
    if k < |counts| - 1 {
      SumOfOne(counts[..|counts|-1], k);
    } else {
      SumOfNone(counts[..|counts|-1]);
    }
  }

  /** How often each dependency asks for a task. */
  function Counts(parse: Parser, deps: seq<Dependency>, t: Task): (counts: seq<nat>)
    ensures |counts| == |deps| && forall i :: 0 <= i < |deps| ==> counts[i] == AskedFor(parse, deps[i], t)
  {
    seq(|deps|, i requires 0 <= i < |deps| => AskedFor(parse, deps[i], t))
  }

  lemma {:induction false} AskedIsSum(parse: Parser, deps: seq<Dependency>, t: Task)
    ensures Asked(parse, deps, t) == Sum(Counts(parse, deps, t))
  {
    if deps != [] {
      var n := |deps| - 1;
      AskedIsSum(parse, deps[..n], t);
      CountWithLast(parse, deps, t);
      assert Counts(parse, deps, t)[..n] == Counts(parse, deps[..n], t);
    }
  }

  lemma GroupOfAll(parse: Parser, deps: seq<Dependency>, k: nat, t: Task)
    requires NamesDiffer(deps) && k < |deps| && t.name == deps[k].name
    ensures Asked(parse, deps, t) == AskedFor(parse, deps[k], t)
  {
    AskedIsSum(parse, deps, t);
    forall i | 0 <= i < |deps| && i != k ensures AskedFor(parse, deps[i], t) == 0 {
      OtherName(parse, deps[i], t);
    }
    SumOfOne(Counts(parse, deps, t), k);
  }

  /**
   From the resolutions to the ranking: with distinct dependencies, in whatever
   order they came back, the group of one dependency is exactly its own
   tasks, so RankOrder gives its newer versions in ascending order.
   */
  lemma GroupsAreTheDependencies(parse: Parser, deps: seq<Dependency>, tasks: seq<Task>, k: nat)
    requires NamesDiffer(deps) && k < |deps| && multiset(tasks) == multiset(AllTasks(parse, deps))
    ensures multiset(Group(tasks, deps[k].name)) == multiset(DependencyTasks(parse, deps[k]))
  {
    forall t ensures multiset(Group(tasks, deps[k].name))[t] == multiset(DependencyTasks(parse, deps[k]))[t] {
      GroupCount(tasks, deps[k].name, t);
      if t.name == deps[k].name {
        GroupOfAll(parse, deps, k, t);
      } else {
        OtherName(parse, deps[k], t);
      }
    }
  }
}
