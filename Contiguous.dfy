/** Row-major (contiguous) four-dimensional layouts: what a TH resize4d or
    resizeAs gives a tensor. */
module Contiguous {
  import opened Strided

  /** The contiguous view of the given sizes at the given storage offset. */
  function Contig(offset: int, sizes: seq<int>): (v: View)
    requires |sizes| == 3 || |sizes| == 4
    ensures v.Ranked() && v.sizes == sizes && v.offset == offset
  {
    View(offset, sizes, ContiguousStrides(sizes))
  }

  /** The number of elements of a four-dimensional box. */
  function Volume(n0: int, n1: int, n2: int, n3: int): int {
    n0 * n1 * n2 * n3
  }

  /** Digits below their bases: a*w + c determines a and c. */
  lemma Split(a: int, c: int, a': int, c': int, w: int)
    requires 0 <= c < w && 0 <= c' < w
    requires a * w + c == a' * w + c'
    ensures a == a' && c == c'
  {
    assert (a - a') * w == c' - c;
    if a > a' {
      MulAtLeast(w, a - a');
      assert false;
    } else if a < a' {
      MulAtLeast(w, a' - a);
      assert false;
    }
  }

  /** A digit appended below a bounded number stays below the product bound. */
  lemma Below(a: int, A: int, c: int, w: int)
    requires 0 <= a < A && 0 <= c < w
    ensures 0 <= a * w + c < A * w
  {
    MulAtLeast(w, A - a);
    assert (A - a) * w >= w;
    assert A * w == a * w + (A - a) * w;
    assert a * w >= 0 by {
      if a > 0 {
        MulAtLeast(w, a);
      }
    }
  }

  /** The offset of a contiguous view, in nested (Horner) form. */
  lemma ContigOffset(offset: int, sizes: seq<int>, a: Ix)
    requires |sizes| == 4
    ensures Contig(offset, sizes).Offset(a) ==
      offset + ((a.i0 * sizes[1] + a.i1) * sizes[2] + a.i2) * sizes[3] + a.i3
  {
    var st := ContiguousStrides(sizes);
    assert st[3] == 1 && st[2] == sizes[3] && st[1] == sizes[2] * sizes[3] &&
      st[0] == sizes[1] * (sizes[2] * sizes[3]);
    calc {
      a.i0 * st[0] + a.i1 * st[1] + a.i2 * st[2] + a.i3 * st[3];
      a.i0 * (sizes[1] * (sizes[2] * sizes[3])) + a.i1 * (sizes[2] * sizes[3]) + a.i2 * sizes[3] + a.i3;
      ((a.i0 * sizes[1] + a.i1) * sizes[2] + a.i2) * sizes[3] + a.i3;
    }
  }

  /** Distinct in-range indices of a contiguous view address distinct elements. */
  lemma ContigInjective(offset: int, sizes: seq<int>)
    requires |sizes| == 4
    ensures Contig(offset, sizes).Injective()
  {
    var v := Contig(offset, sizes);
    forall a, b | v.InRange(a) && v.InRange(b) && v.Offset(a) == v.Offset(b)
      ensures a == b
    {
      ContigOffset(offset, sizes, a);
      ContigOffset(offset, sizes, b);
      var x1, y1 := a.i0 * sizes[1] + a.i1, b.i0 * sizes[1] + b.i1;
      var x2, y2 := x1 * sizes[2] + a.i2, y1 * sizes[2] + b.i2;
      Split(x2, a.i3, y2, b.i3, sizes[3]);
      Split(x1, a.i2, y1, b.i2, sizes[2]);
      Split(a.i0, a.i1, b.i0, b.i1, sizes[1]);
    }
  }

  /** A contiguous view occupies [offset, offset + volume). */
  lemma ContigFits(offset: int, sizes: seq<int>, a: Ix)
    requires |sizes| == 4 && Contig(offset, sizes).InRange(a)
    ensures offset <= Contig(offset, sizes).Offset(a) < offset + Volume(sizes[0], sizes[1], sizes[2], sizes[3])
  {
    ContigOffset(offset, sizes, a);
    Below(a.i0, sizes[0], a.i1, sizes[1]);
    Below(a.i0 * sizes[1] + a.i1, sizes[0] * sizes[1], a.i2, sizes[2]);
    Below((a.i0 * sizes[1] + a.i1) * sizes[2] + a.i2, sizes[0] * sizes[1] * sizes[2], a.i3, sizes[3]);
  }

  /** Element a of the contiguous tensor of the given sizes at storage offset 0. */
  function Flat(sizes: seq<int>, a: Ix): (p: int)
    requires |sizes| == 4 && Contig(0, sizes).InRange(a)
    ensures 0 <= p < Volume(sizes[0], sizes[1], sizes[2], sizes[3])
  {
    ContigFits(0, sizes, a);
    Contig(0, sizes).Offset(a)
  }
}
