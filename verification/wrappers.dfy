/** JavaScript's `null` for a reference that may be absent, and the
    all-or-nothing map a loop that throws on its first bad element is. */
module Wrappers {

  datatype Option<+T> = None | Some(value: T)

  /** Apply `f` to every element in order; the first `None` makes the whole
      result `None`. */
  function MapAll<A, B>(f: A -> Option<B>, xs: seq<A>): (r: Option<seq<B>>)
    ensures r.Some? <==> forall i :: 0 <= i < |xs| ==> f(xs[i]).Some?
    ensures r.Some? ==> |r.value| == |xs| && forall i :: 0 <= i < |xs| ==> f(xs[i]) == Some(r.value[i])
    decreases |xs|
  {
    if |xs| == 0 then Some([])
    else
      var rest := MapAll(f, xs[1..]);
      assert forall i :: 1 <= i < |xs| ==> xs[i] == xs[1..][i - 1];
      if f(xs[0]).None? || rest.None? then None
      else Some([f(xs[0]).value] + rest.value)
  }
}
