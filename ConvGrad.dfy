/** PlanarConvolution accGradParameters: the weight-gradient loops of one batch
    element, THBlas_(dot), and the bias-gradient matrix-vector product. */
module ConvGrad {
  import opened Strided
  import opened Sums
  import opened ConvSpec
  import opened ConvKernels

  /** Address of element t of a strided vector starting at s with increment inc. */
  function Step(s: int, inc: int, t: int): int {
    s + t * inc
  }

  /** What THBlas_(dot) returns: the sum over t < n of x[xs + t*incx] * y[ys + t*incy]. */
  function DotSpec(xd: seq<real>, xs: int, incx: int, yd: seq<real>, ys: int, incy: int, n: int): real {
    Sum(n, t => Get(xd, Step(xs, incx, t)) * Get(yd, Step(ys, incy, t)))
  }

  /** THBlas_(dot): the strided dot product of n elements. */
  method Dot(n: int, x: array<real>, xs: int, incx: int, y: array<real>, ys: int, incy: int) returns (d: real)
    requires n >= 0
    requires forall t :: 0 <= t < n ==> 0 <= Step(xs, incx, t) < x.Length && 0 <= Step(ys, incy, t) < y.Length
    ensures d == DotSpec(x[..], xs, incx, y[..], ys, incy, n)
  {
    d := 0.0;
    var t := 0;
    while t < n
      invariant 0 <= t <= n
      invariant d == DotSpec(x[..], xs, incx, y[..], ys, incy, t)
    {
      d := d + x[Step(xs, incx, t)] * y[Step(ys, incy, t)];
      t := t + 1;
    }
  }

  /** The pointer arithmetic of the accGradParameters call to THBlas_(dot) walks
      exactly gradOutput row j and input row j + h (shifted by the raw column k)
      of the rank-4 views, column stride by column stride. */
  lemma {:induction false} DotIsRowDot(g: Tensor, x: Tensor, oW: int, e: int, i: int, j: int, h: int, k: int)
    requires g.view.Ranked() && x.view.Ranked() && |g.view.sizes| == 4 && |x.view.sizes| == 4
    ensures DotSpec(g.data, g.view.Offset(Ix(e, i, j, 0)), g.view.strides[3],
                    x.data, x.view.Offset(Ix(e, i, j + h, 0)) + k, x.view.strides[3], oW) ==
            RowDot(g, x, oW, e, i, j, h, k)
  {
    var xs, ys := g.view.Offset(Ix(e, i, j, 0)), x.view.Offset(Ix(e, i, j + h, 0)) + k;
    var f := (t: int) => Get(g.data, Step(xs, g.view.strides[3], t)) * Get(x.data, Step(ys, x.view.strides[3], t));
    var f' := (c: int) => Get(g.data, g.view.Offset(Ix(e, i, j, c))) * Get(x.data, x.view.Offset(Ix(e, i, j + h, c)) + k);
    forall t | 0 <= t < oW
      ensures f(t) == f'(t)
    {
      assert Step(xs, g.view.strides[3], t) == g.view.Offset(Ix(e, i, j, t));
      assert Step(ys, x.view.strides[3], t) == x.view.Offset(Ix(e, i, j + h, t)) + k;
    }
    SumExt(oW, f, f');
  }

  /** The output rows before j, as the j loop of TapGrad has added them. */
  ghost function RowsAdded(g: Tensor, x: Tensor, scale: real, oW: int, e: int, i: int, h: int, k: int, j: int): real
    requires g.view.Ranked() && x.view.Ranked()
  {
    Sum(j, jj => scale * RowDot(g, x, oW, e, i, jj, h, k))
  }

  lemma RowsAddedNext(g: Tensor, x: Tensor, scale: real, oW: int, e: int, i: int, h: int, k: int, j: int, d: real)
    requires g.view.Ranked() && x.view.Ranked() && j >= 0 && d == RowDot(g, x, oW, e, i, j, h, k)
    ensures RowsAdded(g, x, scale, oW, e, i, h, k, 0) == 0.0
    ensures RowsAdded(g, x, scale, oW, e, i, h, k, j + 1) == RowsAdded(g, x, scale, oW, e, i, h, k, j) + scale * d
  {
  }

  /** The reads of one THBlas_(dot) call stay inside both buffers. */
  lemma RowsInside(gv: View, gLen: int, iv: View, xLen: int, oH: int, oW: int, e: int, i: int, j: int, h: int, k: int)
    requires gv.Ranked() && iv.Ranked() && |gv.sizes| == 4 && |iv.sizes| == 4 && 0 <= j < oH
    requires forall j, c :: 0 <= j < oH && 0 <= c < oW ==> 0 <= gv.Offset(Ix(e, i, j, c)) < gLen
    requires forall r, c :: h <= r < oH + h && 0 <= c < oW ==> 0 <= iv.Offset(Ix(e, i, r, c)) + k < xLen
    ensures forall t :: 0 <= t < oW ==>
      0 <= Step(gv.Offset(Ix(e, i, j, 0)), gv.strides[3], t) < gLen &&
      0 <= Step(iv.Offset(Ix(e, i, j + h, 0)) + k, iv.strides[3], t) < xLen
  {
    forall t | 0 <= t < oW
      ensures 0 <= Step(gv.Offset(Ix(e, i, j, 0)), gv.strides[3], t) < gLen &&
        0 <= Step(iv.Offset(Ix(e, i, j + h, 0)) + k, iv.strides[3], t) < xLen
    {
      assert Step(gv.Offset(Ix(e, i, j, 0)), gv.strides[3], t) == gv.Offset(Ix(e, i, j, t));
      assert Step(iv.Offset(Ix(e, i, j + h, 0)) + k, iv.strides[3], t) == iv.Offset(Ix(e, i, j + h, t)) + k;
    }
  }

  /** The j loop of tap (i, h, k): gradWeight cell q accumulates scale times
      one THBlas_(dot) per output row. */
  method TapGrad(gradWeight: array<real>, q: int, gradOutput: array<real>, gv: View, input: array<real>, iv: View,
                 scale: real, oH: int, oW: int, e: int, i: int, h: int, k: int)
    requires gv.Ranked() && iv.Ranked() && |gv.sizes| == 4 && |iv.sizes| == 4
    requires gradWeight != gradOutput && gradWeight != input && oH >= 0 && oW >= 0
    requires 0 <= q < gradWeight.Length
    requires forall j, c :: 0 <= j < oH && 0 <= c < oW ==> 0 <= gv.Offset(Ix(e, i, j, c)) < gradOutput.Length
    requires forall r, c :: h <= r < oH + h && 0 <= c < oW ==> 0 <= iv.Offset(Ix(e, i, r, c)) + k < input.Length
    modifies gradWeight
    ensures gradWeight[q] == old(gradWeight[q]) +
      WeightStep(Tensor(gradOutput[..], gv), Tensor(input[..], iv), scale, oH, oW, e, i, h, k)
    ensures forall p :: 0 <= p < gradWeight.Length && p != q ==> gradWeight[p] == old(gradWeight[p])
  {
    ghost var g, x, before := Tensor(gradOutput[..], gv), Tensor(input[..], iv), gradWeight[..];
    RowsAddedNext(g, x, scale, oW, e, i, h, k, 0, RowDot(g, x, oW, e, i, 0, h, k));
    var j := 0;
    while j < oH
      invariant 0 <= j <= oH
      invariant gradWeight[q] == before[q] + RowsAdded(g, x, scale, oW, e, i, h, k, j)
      invariant forall p :: 0 <= p < gradWeight.Length && p != q ==> gradWeight[p] == before[p]
    {
      var xs, ys := gv.Offset(Ix(e, i, j, 0)), iv.Offset(Ix(e, i, j + h, 0)) + k;
      RowsInside(gv, gradOutput.Length, iv, input.Length, oH, oW, e, i, j, h, k);
      var d := Dot(oW, gradOutput, xs, gv.strides[3], input, ys, iv.strides[3]);
      assert gradOutput[..] == g.data && input[..] == x.data;
      DotIsRowDot(g, x, oW, e, i, j, h, k);
      assert d == RowDot(g, x, oW, e, i, j, h, k);
      RowsAddedNext(g, x, scale, oW, e, i, h, k, j, d);
      gradWeight[q] := gradWeight[q] + scale * d;
      j := j + 1;
    }
  }

  /** Where the kernel of gradWeight plane i starts: storageOffset + i * stride[0]. */
  function PlaneBase(gwOff: int, gws: int, i: int): int {
    gwOff + i * gws
  }

  /** Position p lies in the kernel block of gradWeight plane i. */
  predicate InKernel(gwOff: int, gws: int, cp: Conv, i: int, p: int) {
    PlaneBase(gwOff, gws, i) <= p < PlaneBase(gwOff, gws, i) + cp.kH * cp.kW
  }

  /** The gradWeight cell of tap (i, h, k): the kernel rows of a plane are
      contiguous, kW apart. */
  function GradCell(gwOff: int, gws: int, cp: Conv, i: int, h: int, k: int): (p: int)
    requires 0 <= h < cp.kH && 0 <= k < cp.kW
    ensures PlaneBase(gwOff, gws, i) <= p - k && p - k + cp.kW <= PlaneBase(gwOff, gws, i) + cp.kH * cp.kW
  {
    Slot(PlaneBase(gwOff, gws, i), cp.kH, cp.kW, h, k)
  }

  /** The k loop of kernel row h of plane i. */
  method RowGrad(gradWeight: array<real>, gwOff: int, gws: int, gradOutput: array<real>, gv: View,
                 input: array<real>, iv: View, cp: Conv, scale: real, oH: int, oW: int, e: int, i: int, h: int)
    requires cp.Valid() && gv.Ranked() && iv.Ranked() && |gv.sizes| == 4 && |iv.sizes| == 4
    requires gradWeight != gradOutput && gradWeight != input && oH >= 0 && oW >= 0 && 0 <= h < cp.kH
    requires 0 <= PlaneBase(gwOff, gws, i) && PlaneBase(gwOff, gws, i) + cp.kH * cp.kW <= gradWeight.Length
    requires forall j, c :: 0 <= j < oH && 0 <= c < oW ==> 0 <= gv.Offset(Ix(e, i, j, c)) < gradOutput.Length
    requires forall r, c :: 0 <= r < oH + cp.kH - 1 && 0 <= c < oW ==>
      0 <= iv.Offset(Ix(e, i, r, c)) && iv.Offset(Ix(e, i, r, c)) + cp.kW - 1 < input.Length
    modifies gradWeight
    ensures forall k :: 0 <= k < cp.kW ==>
      gradWeight[GradCell(gwOff, gws, cp, i, h, k)] == old(gradWeight[GradCell(gwOff, gws, cp, i, h, k)]) +
        WeightStep(Tensor(gradOutput[..], gv), Tensor(input[..], iv), scale, oH, oW, e, i, h, k)
    ensures forall p :: 0 <= p < gradWeight.Length && !(GradCell(gwOff, gws, cp, i, h, 0) <= p < GradCell(gwOff, gws, cp, i, h, 0) + cp.kW) ==>
      gradWeight[p] == old(gradWeight[p])
  {
    ghost var g, x, before := Tensor(gradOutput[..], gv), Tensor(input[..], iv), gradWeight[..];
    var rs := GradCell(gwOff, gws, cp, i, h, 0);
    var k := 0;
    while k < cp.kW
      invariant 0 <= k <= cp.kW
      invariant forall kk :: 0 <= kk < k ==>
        gradWeight[GradCell(gwOff, gws, cp, i, h, kk)] == before[GradCell(gwOff, gws, cp, i, h, kk)] +
          WeightStep(g, x, scale, oH, oW, e, i, h, kk)
      invariant forall p :: 0 <= p < gradWeight.Length && !(rs <= p < rs + k) ==> gradWeight[p] == before[p]
    {
      var q := GradCell(gwOff, gws, cp, i, h, k);
      assert q == rs + k;
      TapGrad(gradWeight, q, gradOutput, gv, input, iv, scale, oH, oW, e, i, h, k);
      assert gradOutput[..] == g.data && input[..] == x.data;
      k := k + 1;
    }
  }

  /** The (h, k) loops of gradWeight plane i. */
  method KernelGrad(gradWeight: array<real>, gwOff: int, gws: int, gradOutput: array<real>, gv: View,
                    input: array<real>, iv: View, cp: Conv, scale: real, oH: int, oW: int, e: int, i: int)
    requires cp.Valid() && gv.Ranked() && iv.Ranked() && |gv.sizes| == 4 && |iv.sizes| == 4
    requires gradWeight != gradOutput && gradWeight != input && oH >= 0 && oW >= 0
    requires 0 <= PlaneBase(gwOff, gws, i) && PlaneBase(gwOff, gws, i) + cp.kH * cp.kW <= gradWeight.Length
    requires forall j, c :: 0 <= j < oH && 0 <= c < oW ==> 0 <= gv.Offset(Ix(e, i, j, c)) < gradOutput.Length
    requires forall r, c :: 0 <= r < oH + cp.kH - 1 && 0 <= c < oW ==>
      0 <= iv.Offset(Ix(e, i, r, c)) && iv.Offset(Ix(e, i, r, c)) + cp.kW - 1 < input.Length
    modifies gradWeight
    ensures forall h, k :: 0 <= h < cp.kH && 0 <= k < cp.kW ==>
      gradWeight[GradCell(gwOff, gws, cp, i, h, k)] == old(gradWeight[GradCell(gwOff, gws, cp, i, h, k)]) +
        WeightStep(Tensor(gradOutput[..], gv), Tensor(input[..], iv), scale, oH, oW, e, i, h, k)
    ensures forall p :: 0 <= p < gradWeight.Length && !InKernel(gwOff, gws, cp, i, p) ==> gradWeight[p] == old(gradWeight[p])
  {
    ghost var g, x, before := Tensor(gradOutput[..], gv), Tensor(input[..], iv), gradWeight[..];
    var base := PlaneBase(gwOff, gws, i);
    var h := 0;
    while h < cp.kH
      invariant 0 <= h <= cp.kH
      invariant forall hh, k :: 0 <= hh < h && 0 <= k < cp.kW ==>
        gradWeight[GradCell(gwOff, gws, cp, i, hh, k)] == before[GradCell(gwOff, gws, cp, i, hh, k)] +
          WeightStep(g, x, scale, oH, oW, e, i, hh, k)
      invariant forall p :: 0 <= p < gradWeight.Length && !(base <= p < base + h * cp.kW) ==> gradWeight[p] == before[p]
    {
      ghost var mid := gradWeight[..];
      assert GradCell(gwOff, gws, cp, i, h, 0) == base + h * cp.kW;
      RowInBlock(cp.kH, cp.kW, h);
      RowGrad(gradWeight, gwOff, gws, gradOutput, gv, input, iv, cp, scale, oH, oW, e, i, h);
      assert gradOutput[..] == g.data && input[..] == x.data;
      forall hh, k | 0 <= hh < h && 0 <= k < cp.kW
        ensures gradWeight[GradCell(gwOff, gws, cp, i, hh, k)] == mid[GradCell(gwOff, gws, cp, i, hh, k)]
      {
        RowInBlock(h, cp.kW, hh);
      }
      h := h + 1;
    }
  }

  /** With stride[0] at least kH * kW, the kernel blocks of distinct planes do not overlap. */
  lemma KernelsApart(gwOff: int, gws: int, cp: Conv, a: int, b: int)
    requires cp.Valid() && gws >= cp.kH * cp.kW && a < b
    ensures PlaneBase(gwOff, gws, a) + cp.kH * cp.kW <= PlaneBase(gwOff, gws, b)
  {
    MulAtLeast(cp.kW, cp.kH);
    MulAtLeast(gws, b - a);
    assert gws * (b - a) == b * gws - a * gws;
  }

  /** The weight-gradient loops of one batch element: every tap (i, h, k) of
      every plane i < nOutputPlane accumulates its WeightStep; nothing outside
      the kernel blocks changes. */
  method WeightGradSample(gradWeight: array<real>, gwOff: int, gws: int, gradOutput: array<real>, gv: View,
                          input: array<real>, iv: View, cp: Conv, scale: real, oH: int, oW: int, e: int)
    requires cp.Valid() && gv.Ranked() && iv.Ranked() && |gv.sizes| == 4 && |iv.sizes| == 4
    requires gradWeight != gradOutput && gradWeight != input && oH >= 0 && oW >= 0
    requires gws >= cp.kH * cp.kW
    requires forall i :: 0 <= i < cp.nOutputPlane ==>
      0 <= PlaneBase(gwOff, gws, i) && PlaneBase(gwOff, gws, i) + cp.kH * cp.kW <= gradWeight.Length
    requires forall i, j, c :: 0 <= i < cp.nOutputPlane && 0 <= j < oH && 0 <= c < oW ==>
      0 <= gv.Offset(Ix(e, i, j, c)) < gradOutput.Length
    requires forall i, r, c :: 0 <= i < cp.nOutputPlane && 0 <= r < oH + cp.kH - 1 && 0 <= c < oW ==>
      0 <= iv.Offset(Ix(e, i, r, c)) && iv.Offset(Ix(e, i, r, c)) + cp.kW - 1 < input.Length
    modifies gradWeight
    ensures forall i, h, k :: 0 <= i < cp.nOutputPlane && 0 <= h < cp.kH && 0 <= k < cp.kW ==>
      gradWeight[GradCell(gwOff, gws, cp, i, h, k)] == old(gradWeight[GradCell(gwOff, gws, cp, i, h, k)]) +
        WeightStep(Tensor(gradOutput[..], gv), Tensor(input[..], iv), scale, oH, oW, e, i, h, k)
    ensures forall p :: 0 <= p < gradWeight.Length && (forall i :: 0 <= i < cp.nOutputPlane ==> !InKernel(gwOff, gws, cp, i, p)) ==>
      gradWeight[p] == old(gradWeight[p])
  {
    ghost var g, x, before := Tensor(gradOutput[..], gv), Tensor(input[..], iv), gradWeight[..];
    var i := 0;
    while i < cp.nOutputPlane
      invariant 0 <= i <= cp.nOutputPlane
      invariant forall ii, h, k :: 0 <= ii < i && 0 <= h < cp.kH && 0 <= k < cp.kW ==>
        gradWeight[GradCell(gwOff, gws, cp, ii, h, k)] == before[GradCell(gwOff, gws, cp, ii, h, k)] +
          WeightStep(g, x, scale, oH, oW, e, ii, h, k)
      invariant forall p :: 0 <= p < gradWeight.Length && (forall ii :: 0 <= ii < i ==> !InKernel(gwOff, gws, cp, ii, p)) ==>
        gradWeight[p] == before[p]
    {
      ghost var mid := gradWeight[..];
      KernelGrad(gradWeight, gwOff, gws, gradOutput, gv, input, iv, cp, scale, oH, oW, e, i);
      assert gradOutput[..] == g.data && input[..] == x.data;
      forall ii, h, k | 0 <= ii <= i && 0 <= h < cp.kH && 0 <= k < cp.kW
        ensures gradWeight[GradCell(gwOff, gws, cp, ii, h, k)] == before[GradCell(gwOff, gws, cp, ii, h, k)] +
          WeightStep(g, x, scale, oH, oW, e, ii, h, k)
      {
        var q := GradCell(gwOff, gws, cp, ii, h, k);
        if ii < i {
          KernelsApart(gwOff, gws, cp, ii, i);
          assert !InKernel(gwOff, gws, cp, i, q);
          assert gradWeight[q] == mid[q];
        } else {
          forall jj | 0 <= jj < i
            ensures !InKernel(gwOff, gws, cp, jj, q)
          {
            KernelsApart(gwOff, gws, cp, jj, i);
          }
          assert mid[q] == before[q];
        }
      }
      forall p | 0 <= p < gradWeight.Length && (forall ii :: 0 <= ii <= i ==> !InKernel(gwOff, gws, cp, ii, p))
        ensures gradWeight[p] == before[p]
      {
        assert !InKernel(gwOff, gws, cp, i, p);
      }
      i := i + 1;
    }
  }

  /** The THBlas_(dot) of the bias gradient, over row i of the contiguous
      [nOutputPlane, n] matrix and the ones vector, is PlaneDot. */
  lemma {:induction false} DotIsPlaneDot(gd: seq<real>, goOffset: int, n: int, i: int, od: seq<real>)
    ensures DotSpec(gd, PlaneBase(goOffset, n, i), 1, od, 0, 1, n) == PlaneDot(gd, goOffset, n, i, od)
  {
    var f := (t: int) => Get(gd, Step(PlaneBase(goOffset, n, i), 1, t)) * Get(od, Step(0, 1, t));
    var f' := (t: int) => Get(gd, goOffset + i * n + t) * Get(od, t);
    forall t | 0 <= t < n
      ensures f(t) == f'(t)
    {
    }
    SumExt(n, f, f');
  }

  /** The reads of the THBlas_(dot) of matrix row i stay inside gradOutput and ones. */
  lemma MatrixRowInside(goOffset: int, nOut: int, n: int, i: int, gLen: int, oLen: int)
    requires 0 <= goOffset && goOffset + nOut * n <= gLen && 0 <= i < nOut && n <= oLen
    ensures forall t :: 0 <= t < n ==> 0 <= Step(PlaneBase(goOffset, n, i), 1, t) < gLen && 0 <= Step(0, 1, t) < oLen
  {
    forall t | 0 <= t < n
      ensures 0 <= Step(PlaneBase(goOffset, n, i), 1, t) < gLen
    {
      assert Step(PlaneBase(goOffset, n, i), 1, t) == Slot(goOffset, nOut, n, i, t);
    }
  }

  /** Row i of the [nOutputPlane, n] matrix at goOffset dotted with ones, by THBlas_(dot). */
  method MatrixRowDot(gradOutput: array<real>, goOffset: int, n: int, ones: array<real>, nOut: int, i: int)
    returns (d: real)
    requires 0 <= n <= ones.Length && 0 <= i < nOut
    requires 0 <= goOffset && goOffset + nOut * n <= gradOutput.Length
    ensures d == PlaneDot(gradOutput[..], goOffset, n, i, ones[..])
  {
    MatrixRowInside(goOffset, nOut, n, i, gradOutput.Length, ones.Length);
    d := Dot(n, gradOutput, PlaneBase(goOffset, n, i), 1, ones, 0, 1);
    DotIsPlaneDot(gradOutput[..], goOffset, n, i, ones[..]);
  }

  /** THTensor_(addmv)(gradBias, 1, gradBias, scale, gradOutput2d, ones): entry
      i < nOutputPlane of gradBias accumulates scale times row i of the
      [nOutputPlane, n] matrix at goOffset dotted with ones. */
  method AddMv(gradBias: array<real>, gradOutput: array<real>, goOffset: int, n: int, ones: array<real>,
               scale: real, nOut: int)
    requires gradBias != gradOutput && gradBias != ones
    requires 0 <= nOut <= gradBias.Length && 0 <= n <= ones.Length
    requires 0 <= goOffset && goOffset + nOut * n <= gradOutput.Length
    modifies gradBias
    ensures forall i :: 0 <= i < nOut ==>
      gradBias[i] == old(gradBias[i]) + scale * PlaneDot(gradOutput[..], goOffset, n, i, ones[..])
    ensures forall p :: nOut <= p < gradBias.Length ==> gradBias[p] == old(gradBias[p])
  {
    ghost var gd, od, before := gradOutput[..], ones[..], gradBias[..];
    var i := 0;
    while i < nOut
      invariant 0 <= i <= nOut
      invariant forall ii :: 0 <= ii < i ==> gradBias[ii] == before[ii] + scale * PlaneDot(gd, goOffset, n, ii, od)
      invariant forall p :: i <= p < gradBias.Length ==> gradBias[p] == before[p]
    {
      var d := MatrixRowDot(gradOutput, goOffset, n, ones, nOut, i);
      assert gradOutput[..] == gd && ones[..] == od;
      gradBias[i] := gradBias[i] + scale * d;
      i := i + 1;
    }
  }
}
