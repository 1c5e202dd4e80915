/** Concatenating the sequences that a function yields for each element of a
    sequence, in order. Both loops of the recommender accumulate a list this
    way with Python's `list.extend`: one over the classifier's tags, one over
    the search keywords. */
module Sequences {

  /** f(xs[0]) + f(xs[1]) + ... + f(xs[|xs| - 1]). Defined from the last
      element so that it matches a loop that extends an accumulator. */
  function FlatMap<A, B>(f: A -> seq<B>, xs: seq<A>): seq<B>
  {
    if xs == [] then [] else FlatMap(f, xs[..|xs| - 1]) + f(xs[|xs| - 1])
  }

  /** One more step of an accumulating loop: the prefix of length i + 1 adds
      exactly f(xs[i]) at the end. */
  lemma FlatMapStep<A, B>(f: A -> seq<B>, xs: seq<A>, i: nat)
    requires i < |xs|
    ensures FlatMap(f, xs[..i + 1]) == FlatMap(f, xs[..i]) + f(xs[i])
  {
    assert xs[..i + 1][..i] == xs[..i];
  }

  /** A single element contributes exactly its own image. */
  lemma FlatMapSingleton<A, B>(f: A -> seq<B>, x: A)
    ensures FlatMap(f, [x]) == f(x)
  {
  }

  /** Order is kept: the images of xs come first, then those of ys. */
  lemma {:induction false} FlatMapAppend<A, B>(f: A -> seq<B>, xs: seq<A>, ys: seq<A>)
    ensures FlatMap(f, xs + ys) == FlatMap(f, xs) + FlatMap(f, ys)
    decreases |ys|
  {
    if ys == [] {
      assert xs + ys == xs;
    } else {
      var init, last := ys[..|ys| - 1], ys[|ys| - 1];
      assert (xs + ys)[..|xs + ys| - 1] == xs + init;
      assert (xs + ys)[|xs + ys| - 1] == last;
      FlatMapAppend(f, xs, init);
    }
  }

  /** The concatenation is empty exactly when every element's image is. */
  lemma {:induction false} FlatMapEmpty<A, B>(f: A -> seq<B>, xs: seq<A>)
    ensures FlatMap(f, xs) == [] <==> forall i :: 0 <= i < |xs| ==> f(xs[i]) == []
  {
    if xs != [] {
      var init := xs[..|xs| - 1];
      FlatMapEmpty(f, init);
      assert forall i :: 0 <= i < |init| ==> init[i] == xs[i];
    }
  }

  /** An element is in the concatenation exactly when it is in the image of
      some element of xs: nothing is invented and nothing is dropped. */
  lemma {:induction false} FlatMapMember<A, B>(f: A -> seq<B>, xs: seq<A>, y: B)
    ensures y in FlatMap(f, xs) <==> exists i :: 0 <= i < |xs| && y in f(xs[i])
  {
    if xs != [] {
      var n := |xs| - 1;
      var init := xs[..n];
      FlatMapMember(f, init, y);
      if y in FlatMap(f, init) {
        var i :| 0 <= i < |init| && y in f(init[i]);
        assert init[i] == xs[i];
      }
      if exists i :: 0 <= i < |xs| && y in f(xs[i]) {
        var i :| 0 <= i < |xs| && y in f(xs[i]);
        if i < n {
          assert init[i] == xs[i];
        }
      }
    }
  }

  /** When every image has at most k elements, the concatenation has at most
      k per element of xs. */
  lemma {:induction false} FlatMapBound<A, B>(f: A -> seq<B>, xs: seq<A>, k: nat)
    requires forall x :: |f(x)| <= k
    ensures |FlatMap(f, xs)| <= k * |xs|
  {
    if xs != [] {
      FlatMapBound(f, xs[..|xs| - 1], k);
      assert k * (|xs| - 1) + k == k * |xs|;
    }
  }

  /** The first element of a non-empty concatenation is the first element of
      the image of the first element of xs whose image is non-empty. */
  lemma {:induction false} FlatMapFirst<A, B>(f: A -> seq<B>, xs: seq<A>) returns (j: nat)
    requires FlatMap(f, xs) != []
    ensures j < |xs| && f(xs[j]) != []
    ensures forall i :: 0 <= i < j ==> f(xs[i]) == []
    ensures FlatMap(f, xs)[0] == f(xs[j])[0]
  {
    var n := |xs| - 1;
    var init := xs[..n];
    assert forall i :: 0 <= i < n ==> init[i] == xs[i];
    if FlatMap(f, init) != [] {
      j := FlatMapFirst(f, init);
    } else {
      FlatMapEmpty(f, init);
      j := n;
    }
  }
}
