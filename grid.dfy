/**
  The order in which two nested `for` loops visit their pairs: the outer
  sequence's elements in order, and for each of them every element of the
  inner sequence in order.
*/
module Grid {

  /** The pairs (x, y) for one outer element x, in inner order. */
  function Row<A, B>(x: A, ys: seq<B>): (ps: seq<(A, B)>)
    ensures |ps| == |ys|
  {
    if ys == [] then [] else Row(x, ys[..|ys| - 1]) + [(x, ys[|ys| - 1])]
  }

  lemma {:induction false} RowAt<A, B>(x: A, ys: seq<B>, j: int)
    requires 0 <= j < |ys|
    ensures Row(x, ys)[j] == (x, ys[j])
  {
    if j < |ys| - 1 {
      RowAt(x, ys[..|ys| - 1], j);
    }
  }

  lemma {:induction false} RowAppend<A, B>(x: A, a: seq<B>, b: seq<B>)
    ensures Row(x, a + b) == Row(x, a) + Row(x, b)
    decreases |b|
  {
    if b == [] {
      assert a + b == a;
    } else {
      RowAppend(x, a, b[..|b| - 1]);
      assert (a + b)[..|a + b| - 1] == a + b[..|b| - 1];
    }
  }

  /** All pairs of `xs` (outer loop) and `ys` (inner loop), in visiting order. */
  function Cross<A, B>(xs: seq<A>, ys: seq<B>): seq<(A, B)> {
    if xs == [] then [] else Cross(xs[..|xs| - 1], ys) + Row(xs[|xs| - 1], ys)
  }

  lemma {:induction false} CrossLength<A, B>(xs: seq<A>, ys: seq<B>)
    ensures |Cross(xs, ys)| == |xs| * |ys|
  {
    if xs != [] {
      CrossLength(xs[..|xs| - 1], ys);
      assert (|xs| - 1) * |ys| + |ys| == |xs| * |ys|;
    }
  }

  /** Pair number i * |ys| + j is (xs[i], ys[j]): every pair once, outer-major. */
  lemma {:induction false} CrossAt<A, B>(xs: seq<A>, ys: seq<B>, i: int, j: int)
    requires 0 <= i < |xs| && 0 <= j < |ys|
    ensures i * |ys| + j < |Cross(xs, ys)|
    ensures Cross(xs, ys)[i * |ys| + j] == (xs[i], ys[j])
  {
    var m, n := |xs|, |ys|;
    var init := xs[..m - 1];
    CrossLength(init, ys);
    CrossLength(xs, ys);
    if i < m - 1 {
      CrossAt(init, ys, i, j);
      assert init[i] == xs[i];
    } else {
      assert i * n == (m - 1) * n;
      RowAt(xs[i], ys, j);
    }
  }

  /** One more outer iteration appends that element's row. */
  lemma CrossSnoc<A, B>(xs: seq<A>, ys: seq<B>, i: int)
    requires 0 <= i < |xs|
    ensures Cross(xs[..i + 1], ys) == Cross(xs[..i], ys) + Row(xs[i], ys)
  {
    assert xs[..i + 1][..i] == xs[..i];
  }

  /** One more inner iteration appends one pair. */
  lemma RowSnoc<A, B>(x: A, ys: seq<B>, j: int)
    requires 0 <= j < |ys|
    ensures Row(x, ys[..j + 1]) == Row(x, ys[..j]) + [(x, ys[j])]
  {
    assert ys[..j + 1][..j] == ys[..j];
  }

  lemma ConcatAssoc<T>(x: seq<T>, y: seq<T>, z: seq<T>)
    ensures (x + y) + z == x + (y + z)
  {
  }
}
