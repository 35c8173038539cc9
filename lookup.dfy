/** Searching a sequence the way JavaScript's `Array.prototype.find` does. */
module Lookup {
  import opened Wrappers

  /** `j` is the position `find` stops at: the first element satisfying `p`. */
  ghost predicate IsFirst<T>(s: seq<T>, p: T -> bool, j: int)
  {
    0 <= j < |s| && p(s[j]) && forall i :: 0 <= i < j ==> !p(s[i])
  }

  /** The index of the first element of `s` that satisfies `p`, or None when there is none. */
  function FindFirst<T>(s: seq<T>, p: T -> bool): (r: Option<nat>)
    ensures r.Some? ==> IsFirst(s, p, r.value)
    ensures r.None? ==> forall i :: 0 <= i < |s| ==> !p(s[i])
  {
    if s == [] then None
    else if p(s[0]) then Some(0)
    else match FindFirst(s[1..], p)
      case None => None
      case Some(k) => Some(k + 1)
  }
}
