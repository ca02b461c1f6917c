/** PlanarConvolution: properties of the closed forms the kernels are proved
    against. */
module ConvProps {
  import opened Strided
  import opened Sums
  import opened Contiguous
  import opened ConvSpec
  import opened Planar

  /** With every weight of plane i zero, the forward result is the bias. */
  lemma {:induction false} ZeroWeightsGiveBias(w: seq<real>, b: seq<real>, cp: Conv, x: Tensor,
                                               e: int, i: int, j: int, c: int)
    requires x.view.Ranked()
    requires forall h, k :: 0 <= h < cp.kH && 0 <= k < cp.kW ==> Get(w, cp.WeightIndex(i, h, k)) == 0.0
    ensures ConvAt(w, b, cp, x, e, i, j, c) == Get(b, i)
  {
    forall h | 0 <= h < cp.kH
      ensures KernelRow(w, cp, x, e, i, j, c, h) == 0.0
    {
      SumZero(cp.kW, k => KernelTerm(w, cp, x, e, i, j, c, h, k));
    }
    SumZero(cp.kH, h => KernelRow(w, cp, x, e, i, j, c, h));
  }

  /** A sum of n equal terms is n times the term. */
  lemma {:induction false} SumConst(n: int, f: int -> real, a: real)
    requires n >= 0 && forall t :: 0 <= t < n ==> f(t) == a
    ensures Sum(n, f) == n as real * a
    decreases n
  {
    if n > 0 {
      SumConst(n - 1, f, a);
    }
  }

  /** A kernel whose every tap contributes 1 sums to kH * kW. */
  lemma UnitTaps(w: seq<real>, cp: Conv, x: Tensor, e: int, i: int, j: int, c: int)
    requires x.view.Ranked() && cp.Valid()
    requires forall h, k :: 0 <= h < cp.kH && 0 <= k < cp.kW ==> KernelTerm(w, cp, x, e, i, j, c, h, k) == 1.0
    ensures KernelSum(w, cp, x, e, i, j, c) == cp.kH as real * cp.kW as real
  {
    forall h | 0 <= h < cp.kH
      ensures KernelRow(w, cp, x, e, i, j, c, h) == cp.kW as real
    {
      SumConst(cp.kW, k => KernelTerm(w, cp, x, e, i, j, c, h, k), 1.0);
    }
    SumConst(cp.kH, h => KernelRow(w, cp, x, e, i, j, c, h), cp.kW as real);
  }

  /** A 3 x 3 input of ones under a 2 x 2 kernel of ones and a zero bias:
      every cell of the 2 x 2 output is 4. */
  lemma WorkedExample(j: int, c: int)
    requires 0 <= j < 2 && 0 <= c < 2
    ensures ConvAt(seq(4, _ => 1.0), [0.0], Conv(1, 1, 2, 2),
                   Tensor(seq(9, _ => 1.0), Contig(0, [1, 1, 3, 3])), 0, 0, j, c) == 4.0
  {
    var cp, w, x := Conv(1, 1, 2, 2), seq(4, _ => 1.0), Tensor(seq(9, _ => 1.0), Contig(0, [1, 1, 3, 3]));
    assert x.view.strides == [9, 9, 3, 1];
    forall h, k | 0 <= h < 2 && 0 <= k < 2
      ensures KernelTerm(w, cp, x, 0, 0, j, c, h, k) == 1.0
    {
      assert x.view.Offset(Ix(0, 0, j + h, 0)) == 3 * (j + h);
    }
    UnitTaps(w, cp, x, 0, 0, j, c);
  }

  /** A sum over a + m terms splits after the first a. */
  lemma {:induction false} SumShift(a: int, m: int, f: int -> real)
    requires a >= 0 && m >= 0
    ensures Sum(a + m, f) == Sum(a, f) + Sum(m, t => f(a + t))
    decreases m
  {
    if m > 0 {
      SumShift(a, m - 1, f);
    }
  }

  /** A sum over m * w terms, read as m rows of w. */
  lemma {:induction false} SumRows(m: int, w: int, f: int -> real)
    requires m >= 0 && w >= 0
    ensures Sum(m * w, f) == Sum(m, j => Sum(w, c => f(j * w + c)))
    decreases m
  {
    if m > 0 {
      SumRows(m - 1, w, f);
      assert m * w == (m - 1) * w + w;
      SumShift((m - 1) * w, w, f);
      SumExt(w, t => f((m - 1) * w + t), c => f((m - 1) * w + c));
    }
  }

  /** Element (0, i, j, c) of a contiguous [B, nP, oH, oW] tensor is entry
      j * oW + c of row i of the [nP, oH * oW] matrix at the same offset. */
  lemma FirstPlaneCell(gd: seq<real>, off: int, B: int, nP: int, oH: int, oW: int, i: int, j: int, c: int)
    ensures Tensor(gd, Contig(off, [B, nP, oH, oW])).At(Ix(0, i, j, c)) == Get(gd, off + i * (oH * oW) + (j * oW + c))
  {
    ContigOffset(off, [B, nP, oH, oW], Ix(0, i, j, c));
    assert (0 * nP + i) * oH + j == i * oH + j;
    assert (i * oH + j) * oW == i * oH * oW + j * oW;
    assert i * oH * oW == i * (oH * oW);
  }

  /** For a contiguous [B, nOutputPlane, oH, oW] gradOutput and a vector of
      ones, the bias-gradient dot product of plane i is the sum of plane i of
      batch element 0, whichever batch element the addmv runs for. */
  lemma BiasGradIsFirstPlaneSum(gd: seq<real>, goOffset: int, B: int, nOut: int, oH: int, oW: int,
                                i: int, ones: seq<real>)
    requires 1 <= B && 0 <= i < nOut && oH >= 0 && oW >= 0
    requires oH * oW <= |ones| && forall t :: 0 <= t < oH * oW ==> ones[t] == 1.0
    ensures PlaneDot(gd, goOffset, oH * oW, i, ones) ==
      Sum(oH, j => Sum(oW, c => Tensor(gd, Contig(goOffset, [B, nOut, oH, oW])).At(Ix(0, i, j, c))))
  {
    var g := Tensor(gd, Contig(goOffset, [B, nOut, oH, oW]));
    var n := oH * oW;
    var row := t => Get(gd, goOffset + i * n + t);
    var cell := j => Sum(oW, c => g.At(Ix(0, i, j, c)));
    SumRows(oH, oW, row);
    forall j | 0 <= j < oH
      ensures Sum(oW, c => row(j * oW + c)) == cell(j)
    {
      FirstPlaneRow(gd, goOffset, B, nOut, oH, oW, i, j, row);
    }
    SumExt(oH, j => Sum(oW, c => row(j * oW + c)), cell);
  }

  /** Row j of plane i of batch element 0, read through the matrix view. */
  lemma FirstPlaneRow(gd: seq<real>, goOffset: int, B: int, nOut: int, oH: int, oW: int,
                      i: int, j: int, row: int -> real)
    requires forall t :: row(t) == Get(gd, goOffset + i * (oH * oW) + t)
    ensures Sum(oW, c => row(j * oW + c)) ==
      Sum(oW, c => Tensor(gd, Contig(goOffset, [B, nOut, oH, oW])).At(Ix(0, i, j, c)))
  {
    var g := Tensor(gd, Contig(goOffset, [B, nOut, oH, oW]));
    forall c | 0 <= c < oW
      ensures row(j * oW + c) == g.At(Ix(0, i, j, c))
    {
      FirstPlaneCell(gd, goOffset, B, nOut, oH, oW, i, j, c);
    }
    SumExt(oW, c => row(j * oW + c), c => g.At(Ix(0, i, j, c)));
  }

  /** Batch mode changes nothing for a contiguous 3-D input: element
      (i, r, col) of the 3-D tensor is element (0, i, r, col) of its
      batch-of-one header. */
  lemma Rank3AsBatch(v: View, planes: int, i: int, r: int, col: int)
    requires |v.sizes| == 3 && v.sizes[0] == planes && v == Contig(v.offset, v.sizes)
    ensures Batched(v, planes).Offset(Ix(0, i, r, col)) == v.Offset(Ix(i, r, col, 0))
  {
    var s := v.sizes;
    var st4 := ContiguousStrides([1, planes, s[1], s[2]]);
    assert st4[1] == s[1] * s[2] && st4[2] == s[2] && st4[3] == 1;
    assert v.strides[0] == s[1] * s[2] && v.strides[1] == s[2] && v.strides[2] == 1;
  }
}
