/**
 Choosing among newer versions: the best candidate, the versions to resolve
 first, and the order of the resolution tasks.

 Sources: rank/candidates.go, rank/findings.go, internal/jobs/analysis_candidates.go,
 internal/jobs/analysis_helpers.go, internal/jobs/analysis_rank.go.
 */
module Candidates {
  import opened Paths
  import opened SemVer
  import opened Sorting
  import opened Wrappers

  datatype Signal =
    | TooRecent | NodeMismatch | Unresolvable | Deprecated
    | InstallScriptAdded | ProvenanceLost | PublisherChanged | MajorJump

  predicate Blocking(s: Signal) {
    s.TooRecent? || s.NodeMismatch? || s.Unresolvable? || s.Deprecated?
  }

  /** A newer version, its counts of vulnerabilities by severity, critical first, and the signals about it. */
  datatype Candidate = Candidate(version: string, vector: seq<nat>, hits: seq<Signal>)

  predicate Blocked(c: Candidate) {
    exists i :: 0 <= i < |c.hits| && Blocking(c.hits[i])
  }

  /** Nothing is held against it but what a user may accept. */
  predicate Passable(c: Candidate) {
    forall i :: 0 <= i < |c.hits| ==> c.hits[i] in {InstallScriptAdded, ProvenanceLost, PublisherChanged, MajorJump}
  }

  lemma PassableMeans(c: Candidate)
    ensures Passable(c) <==> !Blocked(c)
  {
    if !Blocked(c) {
      assert forall i :: 0 <= i < |c.hits| ==> !Blocking(c.hits[i]);
    }
  }

  // ------------------------------------------------------ the comparison

  /** slices.Compare. */
  function CompareVectors(a: seq<nat>, b: seq<nat>): int {
    if a == [] || b == [] then CompareInts(|a|, |b|)
    else if a[0] != b[0] then CompareInts(a[0], b[0])
    else CompareVectors(a[1..], b[1..])
  }

  datatype Jump = SameMinor | SameMajor | OtherMajor

  function JumpOf(parse: Parser, from: string, to: string): Jump {
    match (parse(from), parse(to))
    case (Some(a), Some(b)) => if a.major != b.major then OtherMajor else if a.minor != b.minor then SameMajor
      else SameMinor
    case _ => OtherMajor
  }

  function Distance(j: Jump): int {
    match j
    case SameMinor => 0
    case SameMajor => 1
    case OtherMajor => 2
  }

  /** compareVersions: by precedence, or as text unless both are versions. */
  function CompareVersions(parse: Parser, a: string, b: string): int {
    match (parse(a), parse(b))
    case (Some(x), Some(y)) => Compare(x, y)
    case _ => CompareText(a, b)
  }

  /** Vector, then jump from current, then version. */
  function CompareCandidates(parse: Parser, current: string, a: Candidate, b: Candidate): int {
    var v := CompareVectors(a.vector, b.vector);
    var j := CompareInts(Distance(JumpOf(parse, current, a.version)), Distance(JumpOf(parse, current, b.version)));
    if v != 0 then v else if j != 0 then j else CompareVersions(parse, a.version, b.version)
  }

  lemma {:induction false} VectorOrder(a: seq<nat>, b: seq<nat>, c: seq<nat>)
    ensures CompareVectors(a, a) == 0 && CompareVectors(a, b) == -CompareVectors(b, a)
      && (CompareVectors(a, b) == 0 ==> a == b)
    ensures CompareVectors(a, b) <= 0 && CompareVectors(b, c) <= 0 ==> CompareVectors(a, c) <= 0
  {
    if a != [] {
      VectorOrder(a[1..], if b == [] then [] else b[1..], if c == [] then [] else c[1..]);
      assert a == [a[0]] + a[1..] && (b != [] ==> b == [b[0]] + b[1..]);
    }
  }

  /** At the first place where the counts differ a has fewer, or ends: critical decides before high, and so on. */
  predicate FewerFirst(a: seq<nat>, b: seq<nat>) {
    exists i :: 0 <= i <= |a| && i < |b| && a[..i] == b[..i] && (i == |a| || a[i] < b[i])
  }

  lemma {:induction false} VectorSpelledOut(a: seq<nat>, b: seq<nat>)
    ensures CompareVectors(a, b) < 0 <==> FewerFirst(a, b)
  {
    if a == [] || b == [] {
      assert b != [] ==> a[..0] == b[..0];
    } else if a[0] != b[0] {
      assert a[..0] == b[..0];
      assert forall i :: 0 < i <= |a| && i < |b| ==> a[..i][0] == a[0] && b[..i][0] == b[0];
    } else {
      var (x, y) := (a[1..], b[1..]);
      VectorSpelledOut(x, y);
      if i :| 0 <= i <= |x| && i < |y| && x[..i] == y[..i] && (i == |x| || x[i] < y[i]) {
        assert a[..i+1] == [a[0]] + x[..i] && b[..i+1] == [b[0]] + y[..i];
      }
      if i :| 0 <= i <= |a| && i < |b| && a[..i] == b[..i] && (i == |a| || a[i] < b[i]) {
        assert x[..i-1] == a[..i][1..] && y[..i-1] == b[..i][1..];
      }
    }
  }

  /** How far a version is from the current one: 0 with its major and minor, 1 with its major, 2 otherwise. */
  predicate IsApart(current: Version, v: Version, d: int) {
    d == if v.major != current.major then 2 else if v.minor != current.minor then 1 else 0
  }

  /**
   Which of two candidates is better: the one with fewer vulnerabilities at the
   first severity where they differ, then the one nearer to the current version,
   then the lower one.
   */
  lemma BetterSpelledOut(parse: Parser, current: string, a: Candidate, b: Candidate, da: int, db: int)
    requires parse(current).Some? && parse(a.version).Some? && parse(b.version).Some?
    requires IsApart(parse(current).value, parse(a.version).value, da)
    requires IsApart(parse(current).value, parse(b.version).value, db)
    ensures CompareCandidates(parse, current, a, b) < 0 <==>
      || FewerFirst(a.vector, b.vector)
      || (a.vector == b.vector && da < db)
      || (a.vector == b.vector && da == db && Below(parse(a.version).value, parse(b.version).value))
  {
    VectorSpelledOut(a.vector, b.vector);
    VectorOrder(a.vector, b.vector, a.vector);
    PrecedenceSpelledOut(parse(a.version).value, parse(b.version).value);
  }

  /** Among candidates whose versions are versions, the comparison is an order. */
  lemma CandidateOrder(parse: Parser, current: string, a: Candidate, b: Candidate, c: Candidate)
    requires parse(a.version).Some? && parse(b.version).Some? && parse(c.version).Some?
    ensures CompareCandidates(parse, current, a, b) == -CompareCandidates(parse, current, b, a)
    ensures CompareCandidates(parse, current, a, b) <= 0 && CompareCandidates(parse, current, b, c) <= 0 ==>
              CompareCandidates(parse, current, a, c) <= 0
  {
    VectorOrder(a.vector, b.vector, c.vector);
    VectorOrder(b.vector, c.vector, a.vector);
    VectorOrder(c.vector, a.vector, b.vector);
    PrecedenceIsTotal(parse(a.version).value, parse(b.version).value, parse(c.version).value);
  }

  // ------------------------------------------------------------- the best

  predicate AllVersions(parse: Parser, cs: seq<Candidate>) {
    forall c :: c in cs ==> parse(c.version).Some?
  }

  /** No candidate that is not blocked comes before c. */
  predicate IsLeast(parse: Parser, current: string, c: Candidate, cs: seq<Candidate>) {
    c in cs && !Blocked(c) && forall d :: d in cs && !Blocked(d) ==> CompareCandidates(parse, current, c, d) <= 0
  }

  lemma CandidatesWeakOrder(parse: Parser, current: string, cs: seq<Candidate>, before: (Candidate, Candidate) -> bool)
    requires AllVersions(parse, cs)
    requires forall a, b :: before(a, b) == (CompareCandidates(parse, current, a, b) < 0)
    ensures WeakOrderOn(cs, before)
  {
    forall a, b, c | a in cs && b in cs && c in cs
      ensures before(a, b) ==> !before(b, a)
      ensures !before(b, a) && !before(c, b) ==> !before(c, a)
    {
      CandidateOrder(parse, current, a, b, c);
      CandidateOrder(parse, current, a, c, a);
      CandidateOrder(parse, current, b, c, b);
    }
  }

  /**
   Best.  Whatever the input, what it returns is an unblocked candidate with a
   lower vector than the current one.  Given versions only, it returns one
   exactly when there is one, and it is the least by vector, jump and version.
   */
  method Best(parse: Parser, current: string, currentVector: seq<nat>, candidates: seq<Candidate>)
    returns (r: Option<Candidate>)
    ensures r.Some? ==> r.value in candidates && Passable(r.value) && FewerFirst(r.value.vector, currentVector)
    ensures AllVersions(parse, candidates) ==>
      (r.Some? <==> exists c :: c in candidates && Passable(c) && FewerFirst(c.vector, currentVector))
    ensures AllVersions(parse, candidates) && r.Some? ==> IsLeast(parse, current, r.value, candidates)
  {
    var unblocked: seq<Candidate> := [];
    for i := 0 to |candidates|
      invariant forall c :: c in unblocked <==> c in candidates[..i] && !Blocked(c)
    {
      assert candidates[..i+1] == candidates[..i] + [candidates[i]];
      if !Blocked(candidates[i]) {
        unblocked := unblocked + [candidates[i]];
      }
    }
    assert candidates[..|candidates|] == candidates;
    forall c: Candidate ensures Passable(c) <==> !Blocked(c) {
      PassableMeans(c);
    }
    if unblocked == [] {
      return None;
    }
    var before := (a: Candidate, b: Candidate) => CompareCandidates(parse, current, a, b) < 0;
    var sorted := Sort(unblocked, before);
    SameMembers(sorted, unblocked);
    assert |sorted| == |multiset(sorted)| == |unblocked|;
    if AllVersions(parse, candidates) {
      CandidatesWeakOrder(parse, current, unblocked, before);
      FirstIsLeast(parse, current, sorted, before);
      forall c | c in candidates && !Blocked(c) ensures CompareCandidates(parse, current, sorted[0], c) <= 0 {
        assert c in sorted;
      }
      LeastHasLeastVector(parse, current, currentVector, sorted[0], candidates);
    }
    forall c: Candidate ensures FewerFirst(c.vector, currentVector) <==> CompareVectors(c.vector, currentVector) < 0 {
      VectorSpelledOut(c.vector, currentVector);
    }
    if CompareVectors(sorted[0].vector, currentVector) >= 0 {
      return None;
    }
    return Some(sorted[0]);
  }

  lemma SameMembers<T>(a: seq<T>, b: seq<T>)
    requires multiset(a) == multiset(b)
    ensures forall x :: x in a <==> x in b
  {
    forall x ensures x in a <==> x in b {
      assert x in a <==> x in multiset(a);
      assert x in b <==> x in multiset(b);
    }
  }

  lemma FirstIsLeast(parse: Parser, current: string, sorted: seq<Candidate>, before: (Candidate, Candidate) -> bool)
    requires sorted != [] && Sorted(sorted, before) && AllVersions(parse, sorted)
    requires forall a, b :: before(a, b) == (CompareCandidates(parse, current, a, b) < 0)
    ensures forall c :: c in sorted ==> CompareCandidates(parse, current, sorted[0], c) <= 0
  {
    forall c | c in sorted ensures CompareCandidates(parse, current, sorted[0], c) <= 0 {
      var j :| 0 <= j < |sorted| && sorted[j] == c;
      CandidateOrder(parse, current, sorted[0], c, c);
      assert j > 0 ==> !before(sorted[j], sorted[0]);
    }
  }

  lemma LeastHasLeastVector(parse: Parser, current: string, v: seq<nat>, least: Candidate, cs: seq<Candidate>)
    requires IsLeast(parse, current, least, cs)
    ensures CompareVectors(least.vector, v) < 0 <==>
      exists c :: c in cs && !Blocked(c) && CompareVectors(c.vector, v) < 0
  {
    forall c | c in cs && !Blocked(c) && CompareVectors(c.vector, v) < 0 ensures CompareVectors(least.vector, v) < 0 {
      VectorOrder(least.vector, c.vector, v);
      VectorOrder(v, least.vector, c.vector);
      VectorOrder(c.vector, v, least.vector);
    }
  }

  /** Of versions of different precedence the least is one, whatever order they came in. */
  lemma BestIsUnique(parse: Parser, current: string, a: Candidate, b: Candidate, xs: seq<Candidate>, ys: seq<Candidate>)
    requires AllVersions(parse, xs) && multiset(xs) == multiset(ys)
    requires forall c, d :: c in xs && d in xs && c != d ==>
      Compare(parse(c.version).value, parse(d.version).value) != 0
    requires IsLeast(parse, current, a, xs) && IsLeast(parse, current, b, ys)
    ensures a == b
  {
    SameMembers(xs, ys);
    CandidateOrder(parse, current, a, b, a);
    assert CompareCandidates(parse, current, a, b) == 0;
  }
}
