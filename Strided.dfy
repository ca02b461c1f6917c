/** Strided views over a flat buffer: the indexing shared by the three kernels. */
module Strided {

  /** The kernels' four-slot index array (`iin`, `iout`). A rank-3 view uses
      i0..i2 only; its fourth loop has extent 1, so i3 stays 0. */
  datatype Ix = Ix(i0: int, i1: int, i2: int, i3: int)

  /** Strict lexicographic order on index tuples: the order in which the
      four nested loops visit them. */
  predicate Lt(a: Ix, c: Ix) {
    a.i0 < c.i0 ||
    (a.i0 == c.i0 && (a.i1 < c.i1 ||
    (a.i1 == c.i1 && (a.i2 < c.i2 ||
    (a.i2 == c.i2 && a.i3 < c.i3)))))
  }

  /** A tensor header: storage offset, sizes and strides (ranks 3 and 4). */
  datatype View = View(offset: int, sizes: seq<int>, strides: seq<int>)
  {
    predicate Ranked() {
      |sizes| == |strides| && (|sizes| == 3 || |sizes| == 4)
    }

    /** The extent of the fourth loop (`osz3`): 1 for a rank-3 view. */
    function Extent3(): int
      requires Ranked()
    {
      if |sizes| > 3 then sizes[3] else 1
    }

    predicate InRange(a: Ix)
      requires Ranked()
    {
      0 <= a.i0 < sizes[0] && 0 <= a.i1 < sizes[1] &&
      0 <= a.i2 < sizes[2] && 0 <= a.i3 < Extent3()
    }

    /** storageOffset + sum of index times stride; the i3 term only for rank 4. */
    function Offset(a: Ix): int
      requires Ranked()
    {
      offset + a.i0 * strides[0] + a.i1 * strides[1] + a.i2 * strides[2] +
      (if |sizes| > 3 then a.i3 * strides[3] else 0)
    }

    /** Every reachable element lies inside a buffer of length n. */
    ghost predicate Fits(n: int)
      requires Ranked()
    {
      forall a :: InRange(a) ==> 0 <= Offset(a) < n
    }

    /** Distinct indices address distinct elements. */
    ghost predicate Injective()
      requires Ranked()
    {
      forall a, b :: InRange(a) && InRange(b) && Offset(a) == Offset(b) ==> a == b
    }

    /** No index of the view addresses buffer position p. */
    ghost predicate Untouched(p: int)
      requires Ranked()
    {
      forall a :: InRange(a) ==> Offset(a) != p
    }
  }

  /** A tensor as a snapshot of its storage together with its header. */
  datatype Tensor = Tensor(data: seq<real>, view: View)
  {
    /** The element at index a; positions outside the storage read as 0. */
    function At(a: Ix): real
      requires view.Ranked()
    {
      var p := view.Offset(a);
      if 0 <= p < |data| then data[p] else 0.0
    }
  }

  /** Positions of buf that no index of v addresses still hold their values in before. */
  ghost predicate KeepsOutside(buf: array<real>, v: View, before: seq<real>)
    reads buf
    requires v.Ranked()
  {
    |before| == buf.Length &&
    forall q :: 0 <= q < buf.Length && v.Untouched(q) ==> buf[q] == before[q]
  }

  /** Row-major strides for the given sizes, as a TH resize computes them. */
  function ContiguousStrides(sizes: seq<int>): (st: seq<int>)
    ensures |st| == |sizes|
    ensures |sizes| > 0 ==> st[|sizes| - 1] == 1
    ensures forall d :: 0 <= d < |sizes| - 1 ==> st[d] == sizes[d + 1] * st[d + 1]
  {
    if |sizes| == 0 then []
    else
      var rest := ContiguousStrides(sizes[1..]);
      (if |rest| == 0 then [1] else [sizes[1] * rest[0]]) + rest
  }

  /** With a unit last stride, moving k columns along a row moves the address by k. */
  lemma UnitStep(v: View, a: Ix, k: int)
    requires v.Ranked() && |v.sizes| == 4 && v.strides[3] == 1
    ensures v.Offset(a) + k == v.Offset(Ix(a.i0, a.i1, a.i2, a.i3 + k))
  {
    var s := v.strides[3];
    assert a.i3 * s == a.i3 && (a.i3 + k) * s == a.i3 + k;
  }

  /** Multiplying by a positive d and dividing by it again is the identity. */
  lemma MulDiv(d: int, y: int)
    requires d >= 1
    ensures (d * y) / d == y && (d * y) % d == 0
  {
    var q, r := (d * y) / d, (d * y) % d;
    assert d * q + r == d * y && 0 <= r < d;
    assert d * (q - y) == -r;
    if q > y {
      MulAtLeast(d, q - y);
    } else if q < y {
      MulAtLeast(d, y - q);
    }
  }

  lemma {:induction false} MulAtLeast(d: int, k: int)
    requires d >= 1 && k >= 1
    ensures d * k >= d
  {
    if k > 1 {
      MulAtLeast(d, k - 1);
      assert d * k == d * (k - 1) + d;
    }
  }

  /** THTensor_(zero): every element of the view becomes 0, nothing else changes. */
  method Zero(buf: array<real>, v: View)
    requires v.Ranked() && v.Fits(buf.Length)
    modifies buf
    ensures forall a :: v.InRange(a) ==> buf[v.Offset(a)] == 0.0
    ensures forall p :: 0 <= p < buf.Length && v.Untouched(p) ==> buf[p] == old(buf[p])
  {
    var n0, n1, n2, n3 := v.sizes[0], v.sizes[1], v.sizes[2], v.Extent3();
    var i0 := 0;
    while i0 < n0
      invariant 0 <= i0
      invariant forall a :: v.InRange(a) && Lt(a, Ix(i0, 0, 0, 0)) ==> buf[v.Offset(a)] == 0.0
      invariant forall p :: 0 <= p < buf.Length && v.Untouched(p) ==> buf[p] == old(buf[p])
    {
      var i1 := 0;
      while i1 < n1
        invariant 0 <= i1
        invariant forall a :: v.InRange(a) && Lt(a, Ix(i0, i1, 0, 0)) ==> buf[v.Offset(a)] == 0.0
        invariant forall p :: 0 <= p < buf.Length && v.Untouched(p) ==> buf[p] == old(buf[p])
      {
        var i2 := 0;
        while i2 < n2
          invariant 0 <= i2
          invariant forall a :: v.InRange(a) && Lt(a, Ix(i0, i1, i2, 0)) ==> buf[v.Offset(a)] == 0.0
          invariant forall p :: 0 <= p < buf.Length && v.Untouched(p) ==> buf[p] == old(buf[p])
        {
          var i3 := 0;
          while i3 < n3
            invariant 0 <= i3
            invariant forall a :: v.InRange(a) && Lt(a, Ix(i0, i1, i2, i3)) ==> buf[v.Offset(a)] == 0.0
            invariant forall p :: 0 <= p < buf.Length && v.Untouched(p) ==> buf[p] == old(buf[p])
          {
            assert v.InRange(Ix(i0, i1, i2, i3));
            buf[v.Offset(Ix(i0, i1, i2, i3))] := 0.0;
            i3 := i3 + 1;
          }
          i2 := i2 + 1;
        }
        i1 := i1 + 1;
      }
      i0 := i0 + 1;
    }
  }
}
