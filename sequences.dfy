/** Searches over lists shared by the view model and the screens. */
module Sequences {
  import opened Wrappers

  /** Kotlin `indexOfFirst`/`firstOrNull`: the position of the first element satisfying `p`. */
  function FirstWhere<T>(xs: seq<T>, p: T -> bool): (r: Option<nat>)
    ensures r.Some? ==> r.value < |xs| && p(xs[r.value])
    ensures r.Some? ==> forall j :: 0 <= j < r.value ==> !p(xs[j])
    ensures r.None? <==> forall j :: 0 <= j < |xs| ==> !p(xs[j])
  {
    if xs == [] then None
    else if p(xs[0]) then Some(0)
    else
      assert forall j :: 1 <= j < |xs| ==> xs[1..][j - 1] == xs[j];
      match FirstWhere(xs[1..], p)
      case None => None
      case Some(k) => Some(k + 1)
  }
}
