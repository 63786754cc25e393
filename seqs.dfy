/**
 * The loop shape every list parser and filter in the scout shares: walk a list, keep what one
 * element yields, `continue` past the rest.
 */
module Seqs {
  import opened Wrappers

  function Present<T>(o: Option<T>): (r: seq<T>)
    ensures |r| <= 1
  {
    match o
    case Some(x) => [x]
    case None => []
  }

  /** The present values of `f` over `xs`, in the order of `xs`. */
  function FilterMap<A, B>(xs: seq<A>, f: A -> Option<B>): (r: seq<B>)
    ensures |r| <= |xs|
  {
    if xs == [] then [] else FilterMap(xs[..|xs| - 1], f) + Present(f(xs[|xs| - 1]))
  }

  /** One more element: what a loop body appends. */
  lemma FilterMapStep<A, B>(xs: seq<A>, i: nat, f: A -> Option<B>)
    requires i < |xs|
    ensures FilterMap(xs[..i + 1], f) == FilterMap(xs[..i], f) + Present(f(xs[i]))
  {
    assert xs[..i + 1][..i] == xs[..i];
  }

  /** Filtering distributes over concatenation: the output keeps the input's order. */
  lemma {:induction false} FilterMapAppend<A, B>(xs: seq<A>, ys: seq<A>, f: A -> Option<B>)
    ensures FilterMap(xs + ys, f) == FilterMap(xs, f) + FilterMap(ys, f)
  {
    if ys == [] {
      assert xs + ys == xs;
    } else {
      var ys' := ys[..|ys| - 1];
      assert (xs + ys)[..|xs + ys| - 1] == xs + ys';
      FilterMapAppend(xs, ys', f);
    }
  }

  /** Every kept value comes from some element, and every element's value is kept. */
  lemma {:induction false} FilterMapMember<A, B>(xs: seq<A>, f: A -> Option<B>, y: B)
    ensures y in FilterMap(xs, f) <==> exists i :: 0 <= i < |xs| && f(xs[i]) == Some(y)
  {
    if xs != [] {
      var n := |xs| - 1;
      var xs' := xs[..n];
      FilterMapMember(xs', f, y);
      assert y in FilterMap(xs, f) <==> y in FilterMap(xs', f) || f(xs[n]) == Some(y);
      LastOrEarlier(xs, f, y);
      assert forall i :: 0 <= i < n ==> xs'[i] == xs[i];
    }
  }

  /** An element of `xs` is its last one or one of `xs` without it. */
  lemma LastOrEarlier<A, B>(xs: seq<A>, f: A -> Option<B>, y: B)
    requires xs != []
    ensures (exists i :: 0 <= i < |xs| && f(xs[i]) == Some(y))
      <==> (exists i :: 0 <= i < |xs| - 1 && f(xs[i]) == Some(y)) || f(xs[|xs| - 1]) == Some(y)
  {
    if exists i :: 0 <= i < |xs| && f(xs[i]) == Some(y) {
      var i :| 0 <= i < |xs| && f(xs[i]) == Some(y);
      assert i < |xs| - 1 || i == |xs| - 1;
    }
  }

  /** Nothing is kept exactly when no element yields a value. */
  lemma {:induction false} FilterMapEmpty<A, B>(xs: seq<A>, f: A -> Option<B>)
    ensures FilterMap(xs, f) == [] <==> forall i :: 0 <= i < |xs| ==> f(xs[i]).None?
  {
    if xs != [] {
      var xs' := xs[..|xs| - 1];
      FilterMapEmpty(xs', f);
      assert forall i :: 0 <= i < |xs'| ==> xs'[i] == xs[i];
    }
  }

  /** When every element yields a value, all of them are kept, one for one. */
  lemma {:induction false} FilterMapTotal<A, B>(xs: seq<A>, f: A -> Option<B>)
    requires forall i :: 0 <= i < |xs| ==> f(xs[i]).Some?
    ensures |FilterMap(xs, f)| == |xs|
    ensures forall i :: 0 <= i < |xs| ==> FilterMap(xs, f)[i] == f(xs[i]).value
  {
    if xs != [] {
      var xs' := xs[..|xs| - 1];
      assert forall i :: 0 <= i < |xs'| ==> xs'[i] == xs[i];
      FilterMapTotal(xs', f);
    }
  }
}
