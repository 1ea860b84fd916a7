/**
 * Sequence helpers shared by the ticket modules: `Array.prototype.filter`
 * and the order-preserving subsequence relation it establishes.
 */
module Seqs {

  /** Keeps, in order, the elements of `xs` that satisfy `p`. */
  function Filter<T(!new)>(xs: seq<T>, p: T -> bool): (r: seq<T>)
    ensures |r| <= |xs|
    ensures forall x :: x in r <==> x in xs && p(x)
  {
    if xs == [] then []
    else if p(xs[0]) then [xs[0]] + Filter(xs[1..], p)
    else Filter(xs[1..], p)
  }

  /** Filtering a sequence that starts with `x` decides `x` first, then filters the rest. */
  lemma FilterCons<T(!new)>(x: T, xs: seq<T>, p: T -> bool)
    ensures Filter([x] + xs, p) == if p(x) then [x] + Filter(xs, p) else Filter(xs, p)
  {
    assert ([x] + xs)[1..] == xs;
  }

  /** `xs` can be obtained from `ys` by deleting elements, without reordering. */
  ghost predicate Subsequence<T>(xs: seq<T>, ys: seq<T>)
    decreases |ys|
  {
    if xs == [] then true
    else if ys == [] then false
    else (xs[0] == ys[0] && Subsequence(xs[1..], ys[1..])) || Subsequence(xs, ys[1..])
  }

  /** The filter result is an order-preserving subsequence of its input. */
  lemma {:induction false} FilterIsSubsequence<T(!new)>(xs: seq<T>, p: T -> bool)
    ensures Subsequence(Filter(xs, p), xs)
  {
    if xs != [] {
      FilterIsSubsequence(xs[1..], p);
      var r := Filter(xs, p);
      if p(xs[0]) {
        assert r[0] == xs[0] && r[1..] == Filter(xs[1..], p);
      } else if r != [] {
        assert Subsequence(r, xs[1..]);
      }
    }
  }

  /** Filtering twice by the same predicate is the same as filtering once. */
  lemma {:induction false} FilterIdempotent<T(!new)>(xs: seq<T>, p: T -> bool)
    ensures Filter(Filter(xs, p), p) == Filter(xs, p)
  {
    if xs != [] {
      FilterIdempotent(xs[1..], p);
      if p(xs[0]) {
        var r := Filter(xs, p);
        assert r[0] == xs[0] && r[1..] == Filter(xs[1..], p);
      }
    }
  }

  /** Filtering distributes over concatenation. */
  lemma {:induction false} FilterAppend<T(!new)>(a: seq<T>, b: seq<T>, p: T -> bool)
    ensures Filter(a + b, p) == Filter(a, p) + Filter(b, p)
  {
    if a == [] {
      assert a + b == b;
    } else {
      assert (a + b)[0] == a[0] && (a + b)[1..] == a[1..] + b;
      FilterAppend(a[1..], b, p);
    }
  }

  /** The filter keeps every element exactly when every element satisfies `p`. */
  lemma {:induction false} FilterKeepsAll<T(!new)>(xs: seq<T>, p: T -> bool)
    ensures Filter(xs, p) == xs <==> forall i :: 0 <= i < |xs| ==> p(xs[i])
    ensures |Filter(xs, p)| == |xs| <==> forall i :: 0 <= i < |xs| ==> p(xs[i])
  {
    if xs != [] {
      FilterKeepsAll(xs[1..], p);
      if !p(xs[0]) {
        assert |Filter(xs, p)| < |xs|;
      }
      forall i | 1 <= i < |xs|
        ensures p(xs[i]) == p(xs[1..][i - 1])
      {
      }
    }
  }

  /** The filter is empty exactly when no element satisfies `p`. */
  lemma {:induction false} FilterKeepsNone<T(!new)>(xs: seq<T>, p: T -> bool)
    ensures Filter(xs, p) == [] <==> forall i :: 0 <= i < |xs| ==> !p(xs[i])
  {
    var r := Filter(xs, p);
    if r != [] {
      assert r[0] in r;
    } else {
      forall i | 0 <= i < |xs|
        ensures !p(xs[i])
      {
        assert xs[i] in xs;
      }
    }
  }
}
