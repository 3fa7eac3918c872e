/**
 Linear search as JavaScript's `Array.prototype.find` performs it: the first
 element (in index order) that satisfies a predicate, or nothing.
 */
module SeqFind {

  datatype Option<+T> = None | Some(value: T)

  /** The index of the first element of `s` satisfying `p`, if there is one. */
  function FindIndex<T>(s: seq<T>, p: T -> bool): (r: Option<nat>)
    ensures r.Some? ==> r.value < |s| && p(s[r.value])
    ensures r.Some? ==> forall j :: 0 <= j < r.value ==> !p(s[j])
    ensures r.None? <==> forall j :: 0 <= j < |s| ==> !p(s[j])
  {
    if |s| == 0 then None
    else if p(s[0]) then Some(0)
    else match FindIndex(s[1..], p)
      case None => None
      case Some(i) => Some(i + 1)
  }
}
