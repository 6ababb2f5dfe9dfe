/** Small shared vocabulary: an optional value and "the first row that matches",
    which is what a `.first()` query over a table in insertion order returns. */
module Basics {

  datatype Option<+T> = None | Some(value: T)

  /** Index of the first element of `s` satisfying `p`, or None when there is none. */
  function FirstIndex<T>(s: seq<T>, p: T -> bool): (r: Option<nat>)
    ensures r.Some? ==> r.value < |s| && p(s[r.value])
    ensures r.Some? ==> forall j :: 0 <= j < r.value ==> !p(s[j])
    ensures r.None? <==> forall j :: 0 <= j < |s| ==> !p(s[j])
  {
    if s == [] then None
    else if p(s[0]) then Some(0)
    else match FirstIndex(s[1..], p)
      case None => None
      case Some(k) => Some(k + 1)
  }
}
