/**
 * Sequence operations the modules share: Python's filtering list
 * comprehension, extending a list once per element, and slicing a prefix.
 */
module Sequences {

  /**
   * `[x for x in xs if p(x)]`: the elements that satisfy `p`, in their order
   * in `xs`, each as often as it occurs there.
   */
  function Filter<T(==,!new)>(xs: seq<T>, p: T -> bool): (r: seq<T>)
    ensures |r| <= |xs|
    ensures forall x :: x in r <==> x in xs && p(x)
    ensures |xs| == 1 ==> r == if p(xs[0]) then xs else []
  {
    if |xs| == 0 then []
    else (if p(xs[0]) then [xs[0]] else []) + Filter(xs[1..], p)
  }

  /**
   * Filtering keeps relative order: the survivors of `a + b` are those of
   * `a` followed by those of `b`.
   */
  lemma {:induction false} FilterConcat<T(!new)>(a: seq<T>, b: seq<T>, p: T -> bool)
    ensures Filter(a + b, p) == Filter(a, p) + Filter(b, p)
  {
    if |a| == 0 {
      assert a + b == b;
    } else {
      assert (a + b)[0] == a[0];
      assert (a + b)[1..] == a[1..] + b;
      FilterConcat(a[1..], b, p);
    }
  }

  /** Two filters in a row are one filter by both conditions. */
  lemma {:induction false} FilterFilter<T(!new)>(xs: seq<T>, p: T -> bool, q: T -> bool, both: T -> bool)
    requires forall x :: both(x) == (p(x) && q(x))
    ensures Filter(Filter(xs, p), q) == Filter(xs, both)
  {
    if |xs| > 0 {
      FilterFilter(xs[1..], p, q, both);
      var x := xs[0];
      assert both(x) == (p(x) && q(x));
      if p(x) {
        var head := Filter(xs, p);
        assert head == [x] + Filter(xs[1..], p);
        assert head[0] == x && head[1..] == Filter(xs[1..], p);
        assert Filter(head, q) == (if q(x) then [x] else []) + Filter(Filter(xs[1..], p), q);
      } else {
        assert Filter(xs, p) == Filter(xs[1..], p);
      }
      assert Filter(xs, both) == (if both(x) then [x] else []) + Filter(xs[1..], both);
    }
  }

  /** Filtering keeps each surviving element as often as it occurs. */
  lemma {:induction false} FilterCount<T(!new)>(xs: seq<T>, p: T -> bool, x: T)
    ensures multiset(Filter(xs, p))[x] == if p(x) then multiset(xs)[x] else 0
  {
    if |xs| > 0 {
      assert xs == [xs[0]] + xs[1..];
      FilterCount(xs[1..], p, x);
    }
  }

  lemma AppendAssoc<T>(x: seq<T>, y: seq<T>, z: seq<T>)
    ensures x + (y + z) == (x + y) + z
  {
  }

  /** The filter test "not in the set `s`". */
  function NotIn<T>(s: set<T>): T -> bool
  {
    x => x !in s
  }

  /** The lists `f` gives for the elements of `xs`, concatenated in order. */
  function FlatMap<T, U>(xs: seq<T>, f: T -> seq<U>): seq<U>
  {
    if |xs| == 0 then [] else f(xs[0]) + FlatMap(xs[1..], f)
  }

  /** Concatenating per-element lists splits over concatenation of the elements. */
  lemma {:induction false} FlatMapConcat<T, U>(a: seq<T>, b: seq<T>, f: T -> seq<U>)
    ensures FlatMap(a + b, f) == FlatMap(a, f) + FlatMap(b, f)
  {
    if |a| == 0 {
      assert a + b == b;
    } else {
      assert (a + b)[0] == a[0];
      assert (a + b)[1..] == a[1..] + b;
      FlatMapConcat(a[1..], b, f);
    }
  }

  /** `xs[:n]`: the first `n` elements, or all of them when there are fewer. */
  function Take<T>(xs: seq<T>, n: nat): (r: seq<T>)
    ensures |r| == if n <= |xs| then n else |xs|
    ensures r == xs[..|r|]
    ensures forall i :: 0 <= i < |r| ==> r[i] == xs[i]
  {
    if n <= |xs| then xs[..n] else xs
  }
}
