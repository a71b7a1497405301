/** Values that may be missing, and a search, shared by every module. */
module Wrappers {
  datatype Option<+T> = None | Some(value: T)

  /** The first element that satisfies p, by its index, or the length. */
  function IndexWhere<T>(s: seq<T>, p: T -> bool): (i: nat)
    ensures i <= |s|
    ensures i < |s| ==> p(s[i])
    ensures forall j :: 0 <= j < i ==> !p(s[j])
  {
    if s == [] then 0 else if p(s[0]) then 0 else 1 + IndexWhere(s[1..], p)
  }
}
