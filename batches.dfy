/**
 * Observer batches are processed first to last, so what a batch leaves behind
 * for one element is decided by the last entry that concerns it.  This module
 * holds the search for that entry, shared by every observer callback.
 */
module Batches {
  import opened Wrappers

  /** The position of the last element of `s` that satisfies `p`, if there is one. */
  function LastIndexWhere<T>(s: seq<T>, p: T -> bool): (r: Option<nat>)
    decreases |s|
    ensures r.None? <==> forall j :: 0 <= j < |s| ==> !p(s[j])
    ensures r.Some? ==> r.value < |s| && p(s[r.value])
    ensures r.Some? ==> forall j :: r.value < j < |s| ==> !p(s[j])
  {
    if s == [] then None
    else if p(s[|s| - 1]) then Some(|s| - 1)
    else LastIndexWhere(s[..|s| - 1], p)
  }
}
