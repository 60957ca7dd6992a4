/** Filtering and mapping a sequence in one pass, as a loop that appends to
    a result list does: the shape of the report's row building. */
module FilterMaps {
  import opened Wrappers

  /** What `x` contributes: its image when `f` keeps it, nothing otherwise. */
  function Kept<A, B>(f: A -> Option<B>, x: A): seq<B> {
    if f(x).Some? then [f(x).value] else []
  }

  /** The images of the elements `f` keeps, in the order of `xs`. */
  function FilterMap<A, B>(f: A -> Option<B>, xs: seq<A>): seq<B> {
    if xs == [] then [] else FilterMap(f, xs[..|xs| - 1]) + Kept(f, xs[|xs| - 1])
  }

  /** The positions of the elements `f` keeps: the k-th output is the image
      of the element at `idx[k]`, the positions increase, and every element
      that `f` keeps has its position listed. */
  function KeptIndices<A, B>(f: A -> Option<B>, xs: seq<A>): (idx: seq<nat>)
    ensures |idx| == |FilterMap(f, xs)| <= |xs|
    ensures forall k :: 0 <= k < |idx| ==> idx[k] < |xs| && f(xs[idx[k]]) == Some(FilterMap(f, xs)[k])
    ensures forall k, k' :: 0 <= k < k' < |idx| ==> idx[k] < idx[k']
    ensures forall i :: 0 <= i < |xs| && f(xs[i]).Some? ==> i in idx
  {
    if xs == [] then []
    else
      var front := xs[..|xs| - 1];
      assert forall i :: 0 <= i < |front| ==> front[i] == xs[i];
      KeptIndices(f, front) + (if f(xs[|xs| - 1]).Some? then [|xs| - 1] else [])
  }

  lemma FilterMapSnoc<A, B>(f: A -> Option<B>, xs: seq<A>, x: A)
    ensures FilterMap(f, xs + [x]) == FilterMap(f, xs) + Kept(f, x)
  {
  }

  lemma {:induction false} FilterMapAppend<A, B>(f: A -> Option<B>, xs: seq<A>, ys: seq<A>)
    ensures FilterMap(f, xs + ys) == FilterMap(f, xs) + FilterMap(f, ys)
  {
    if ys == [] {
      assert xs + ys == xs;
    } else {
      var ys' := ys[..|ys| - 1];
      assert (xs + ys)[..|xs + ys| - 1] == xs + ys';
      FilterMapAppend(f, xs, ys');
    }
  }
}
