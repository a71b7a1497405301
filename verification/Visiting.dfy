/** A walk over a list with a callback that carries a state on, or stops with an error. */
module Visiting {
  import opened Wrappers

  function Visited<T, S>(xs: seq<T>, start: S, fn: (S, T) -> Option<S>): Option<S> {
    if xs == [] then Some(start)
    else
      match Visited(xs[..|xs|-1], start, fn)
      case None => None
      case Some(s) => fn(s, xs[|xs|-1])
  }

  lemma OneMore<T, S>(xs: seq<T>, n: nat, start: S, fn: (S, T) -> Option<S>)
    requires n < |xs|
    ensures Visited(xs[..n+1], start, fn) ==
      match Visited(xs[..n], start, fn)
      case None => None
      case Some(s) => fn(s, xs[n])
  {
    assert xs[..n+1][..n] == xs[..n];
  }

  /** An error anywhere is the error of the whole walk. */
  lemma {:induction false} ErrorStays<T, S>(xs: seq<T>, n: nat, start: S, fn: (S, T) -> Option<S>)
    requires n <= |xs| && Visited(xs[..n], start, fn) == None
    ensures Visited(xs, start, fn) == None
  {
    if n == |xs| {
      assert xs[..n] == xs;
    } else {
      assert xs[..|xs|-1][..n] == xs[..n];
      ErrorStays(xs[..|xs|-1], n, start, fn);
    }
  }

  /** The walk as a loop, which also stops at a limit on the elements. */
  method Visit<T, S>(xs: seq<T>, limit: nat, start: S, fn: (S, T) -> Option<S>) returns (r: Option<S>)
    ensures r == if |xs| > limit then None else Visited(xs, start, fn)
  {
    var s := start;
    for i := 0 to |xs|
      invariant i <= limit && Visited(xs[..i], start, fn) == Some(s)
    {
      if i >= limit {
        return None;
      }
      OneMore(xs, i, start, fn);
      var next := fn(s, xs[i]);
      if next.None? {
        ErrorStays(xs, i + 1, start, fn);
        return None;
      }
      s := next.value;
    }
    assert xs[..|xs|] == xs;
    return Some(s);
  }
}
