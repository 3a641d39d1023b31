/** numpy's `linspace`, the nested comprehension that turns two axes into a lattice, and `int()`. */
module Grid {

  datatype Point = Point(x: real, y: real)

  /** `numpy.linspace(start, stop, n)`: `n` evenly spaced values, both endpoints included. */
  function Linspace(start: real, stop: real, n: nat): (r: seq<real>)
    ensures |r| == n
  {
    if n == 1 then [start]
    else seq(n, i requires 0 <= i < n => start + (i as real) * (stop - start) / ((n - 1) as real))
  }

  /** The first value is the start; with two or more values the last is the stop. */
  lemma LinspaceEnds(start: real, stop: real, n: nat)
    ensures n >= 1 ==> Linspace(start, stop, n)[0] == start
    ensures n >= 2 ==> Linspace(start, stop, n)[n - 1] == stop
    ensures n == 1 ==> Linspace(start, stop, n) == [start]
  {
    if n >= 2 {
      DivCancel(stop - start, (n - 1) as real);
    }
  }

  lemma DivCancel(a: real, d: real)
    requires d != 0.0
    ensures d * a / d == a
  {
    var q := d * a / d;
    assert q * d == d * a;
    assert (q - a) * d == 0.0;
  }

  lemma DivAdd(u: real, v: real, d: real)
    requires d != 0.0
    ensures (u + v) / d == u / d + v / d
  {
    var p, q := u / d, v / d;
    assert p * d == u && q * d == v;
    assert (p + q) * d == u + v;
  }

  /** Consecutive values are `(stop - start) / (n - 1)` apart. */
  lemma LinspaceStep(start: real, stop: real, n: nat, i: nat)
    requires n >= 2 && i + 1 < n
    ensures Linspace(start, stop, n)[i + 1] - Linspace(start, stop, n)[i] == (stop - start) / ((n - 1) as real)
  {
    var d := (n - 1) as real;
    var r := Linspace(start, stop, n);
    var a := (i as real) * (stop - start);
    assert r[i + 1] - r[i] == ((i + 1) as real) * (stop - start) / d - a / d;
    assert ((i + 1) as real) * (stop - start) == a + (stop - start);
    DivAdd(a, stop - start, d);
  }

  /** The points `(x, y)` for one `x` and every `y`, in order. */
  function Row(x: real, ys: seq<real>): (r: seq<Point>)
    ensures |r| == |ys|
    ensures forall j :: 0 <= j < |ys| ==> r[j] == Point(x, ys[j])
  {
    seq(|ys|, j requires 0 <= j < |ys| => Point(x, ys[j]))
  }

  /** `[(x, y) for x in xs for y in ys]`: x is the outer loop, y the inner one. */
  function Lattice(xs: seq<real>, ys: seq<real>): (pts: seq<Point>)
    ensures |pts| == |xs| * |ys|
    decreases |xs|
  {
    if |xs| == 0 then []
    else
      var rest := Lattice(xs[1..], ys);
      assert |xs| * |ys| == |ys| + (|xs| - 1) * |ys|;
      Row(xs[0], ys) + rest
  }

  /** Point number `i * |ys| + j` of the lattice is `(xs[i], ys[j])`. */
  lemma {:induction false} LatticeAt(xs: seq<real>, ys: seq<real>, i: nat, j: nat)
    requires i < |xs| && j < |ys|
    ensures i * |ys| + j < |xs| * |ys|
    ensures Lattice(xs, ys)[i * |ys| + j] == Point(xs[i], ys[j])
    decreases i
  {
    assert i * |ys| + j < (i + 1) * |ys| <= |xs| * |ys| by {
      assert (i + 1) * |ys| == i * |ys| + |ys|;
      assert i + 1 <= |xs|;
      MulMono(i + 1, |xs|, |ys|);
    }
    if i > 0 {
      LatticeAt(xs[1..], ys, i - 1, j);
      assert (i - 1) * |ys| + j + |ys| == i * |ys| + j;
    }
  }

  lemma MulMono(a: nat, b: nat, c: nat)
    requires a <= b
    ensures a * c <= b * c
  {
  }

  /** The last lattice point is the pair of last axis values. */
  lemma LatticeLast(xs: seq<real>, ys: seq<real>)
    requires |xs| > 0 && |ys| > 0
    ensures Lattice(xs, ys)[|xs| * |ys| - 1] == Point(xs[|xs| - 1], ys[|ys| - 1])
  {
    LatticeAt(xs, ys, |xs| - 1, |ys| - 1);
    assert (|xs| - 1) * |ys| + |ys| - 1 == |xs| * |ys| - 1;
  }

  /** Python's `int(q)` on a float: truncation toward zero. */
  function Trunc(q: real): (n: int)
    ensures q >= 0.0 ==> n == q.Floor
    ensures q >= 0.0 ==> n as real <= q < n as real + 1.0
    ensures q < 0.0 ==> q <= n as real < q + 1.0
  {
    if q >= 0.0 then q.Floor else -((-q).Floor)
  }
}
