/** PlanarConvolution: the loops of one batch element, and the TH vector
    primitives they call, as methods proved against ConvSpec. */
module ConvKernels {
  import opened Strided
  import opened Sums
  import opened ConvSpec
  import opened Contiguous

  /** THVector_(fill): n contiguous elements from start become v. */
  method Fill(y: array<real>, start: int, n: int, v: real)
    requires 0 <= start && 0 <= n && start + n <= y.Length
    modifies y
    ensures forall p :: start <= p < start + n ==> y[p] == v
    ensures forall p :: 0 <= p < y.Length && !(start <= p < start + n) ==> y[p] == old(y[p])
  {
    var t := 0;
    while t < n
      invariant 0 <= t <= n
      invariant forall p :: start <= p < start + t ==> y[p] == v
      invariant forall p :: 0 <= p < y.Length && !(start <= p < start + t) ==> y[p] == old(y[p])
    {
      y[start + t] := v;
      t := t + 1;
    }
  }

  /** THVector_(add): y[ys + t] += c * x[xs + t] for t < n, over contiguous memory. */
  method AddScaled(y: array<real>, ys: int, x: array<real>, xs: int, c: real, n: int)
    requires y != x
    requires 0 <= ys && 0 <= n && ys + n <= y.Length
    requires 0 <= xs && xs + n <= x.Length
    modifies y
    ensures forall p :: ys <= p < ys + n ==> y[p] == old(y[p]) + c * x[xs + (p - ys)]
    ensures forall p :: 0 <= p < y.Length && !(ys <= p < ys + n) ==> y[p] == old(y[p])
  {
    var t := 0;
    while t < n
      invariant 0 <= t <= n
      invariant forall p :: ys <= p < ys + t ==> y[p] == old(y[p]) + c * x[xs + (p - ys)]
      invariant forall p :: 0 <= p < y.Length && !(ys <= p < ys + t) ==> y[p] == old(y[p])
    {
      y[ys + t] := y[ys + t] + c * x[xs + t];
      t := t + 1;
    }
  }

  /** Input rows read by the forward pass lie inside the buffer: every row r < H
      of every plane i < P of every element e < B, together with W raw columns. */
  predicate RowsFit(v: View, len: int, B: int, P: int, H: int, W: int)
    requires v.Ranked()
  {
    forall e, i, r :: 0 <= e < B && 0 <= i < P && 0 <= r < H ==>
      0 <= v.Offset(Ix(e, i, r, 0)) && v.Offset(Ix(e, i, r, 0)) + W <= len
  }

  /** The kernel rows before h, as the h loop of ConvRow has added them. */
  ghost function RowsBefore(w: seq<real>, cp: Conv, x: Tensor, e: int, i: int, j: int, c: int, h: int): real
    requires x.view.Ranked()
  {
    Sum(h, hh => KernelRow(w, cp, x, e, i, j, c, hh))
  }

  /** The taps before k of kernel row h, as the k loop of ConvTaps has added them. */
  ghost function TapsBefore(w: seq<real>, cp: Conv, x: Tensor, e: int, i: int, j: int, c: int, h: int, k: int): real
    requires x.view.Ranked()
  {
    Sum(k, kk => KernelTerm(w, cp, x, e, i, j, c, h, kk))
  }

  lemma RowsNext(w: seq<real>, cp: Conv, x: Tensor, e: int, i: int, j: int, c: int, h: int)
    requires x.view.Ranked() && h >= 0
    ensures RowsBefore(w, cp, x, e, i, j, c, 0) == 0.0
    ensures RowsBefore(w, cp, x, e, i, j, c, h + 1) == RowsBefore(w, cp, x, e, i, j, c, h) + KernelRow(w, cp, x, e, i, j, c, h)
  {
  }

  lemma TapsNext(w: seq<real>, cp: Conv, x: Tensor, e: int, i: int, j: int, c: int, h: int, k: int)
    requires x.view.Ranked() && k >= 0
    ensures TapsBefore(w, cp, x, e, i, j, c, h, 0) == 0.0
    ensures TapsBefore(w, cp, x, e, i, j, c, h, k + 1) == TapsBefore(w, cp, x, e, i, j, c, h, k) + KernelTerm(w, cp, x, e, i, j, c, h, k)
  {
  }

  /** The (h, k) loops for output row j of plane i: kH * kW vector adds into
      the row, which ends holding its old value plus the whole kernel sum. */
  method ConvRow(output: array<real>, rs: int, input: array<real>, iv: View, weight: array<real>,
                 cp: Conv, oW: int, e: int, i: int, j: int)
    requires cp.Valid() && iv.Ranked() && output != input && output != weight && oW >= 0
    requires 0 <= rs && rs + oW <= output.Length
    requires forall r :: j <= r < j + cp.kH ==>
      0 <= iv.Offset(Ix(e, i, r, 0)) && iv.Offset(Ix(e, i, r, 0)) + cp.kW - 1 + oW <= input.Length
    requires forall h, k :: 0 <= h < cp.kH && 0 <= k < cp.kW ==> 0 <= cp.WeightIndex(i, h, k) < weight.Length
    modifies output
    ensures forall c :: 0 <= c < oW ==>
      output[rs + c] == old(output[rs + c]) + KernelSum(weight[..], cp, Tensor(input[..], iv), e, i, j, c)
    ensures forall p :: 0 <= p < output.Length && !(rs <= p < rs + oW) ==> output[p] == old(output[p])
  {
    ghost var x, ws, before := Tensor(input[..], iv), weight[..], output[..];
    var h := 0;
    forall p | rs <= p < rs + oW
      ensures output[p] == before[p] + RowsBefore(ws, cp, x, e, i, j, p - rs, h)
    {
      RowsNext(ws, cp, x, e, i, j, p - rs, h);
    }
    while h < cp.kH
      invariant 0 <= h <= cp.kH
      invariant forall p :: rs <= p < rs + oW ==>
        output[p] == before[p] + RowsBefore(ws, cp, x, e, i, j, p - rs, h)
      invariant forall p :: 0 <= p < output.Length && !(rs <= p < rs + oW) ==> output[p] == before[p]
    {
      assert j <= j + h < j + cp.kH;
      ConvTaps(output, rs, input, iv, weight, cp, oW, e, i, j, h);
      forall p | rs <= p < rs + oW
        ensures output[p] == before[p] + RowsBefore(ws, cp, x, e, i, j, p - rs, h + 1)
      {
        RowsNext(ws, cp, x, e, i, j, p - rs, h);
      }
      h := h + 1;
    }
  }

  /** The k loop for kernel row h: kW vector adds into output row j. */
  method ConvTaps(output: array<real>, rs: int, input: array<real>, iv: View, weight: array<real>,
                  cp: Conv, oW: int, e: int, i: int, j: int, h: int)
    requires cp.Valid() && iv.Ranked() && output != input && output != weight && oW >= 0 && 0 <= h < cp.kH
    requires 0 <= rs && rs + oW <= output.Length
    requires 0 <= iv.Offset(Ix(e, i, j + h, 0)) && iv.Offset(Ix(e, i, j + h, 0)) + cp.kW - 1 + oW <= input.Length
    requires forall k :: 0 <= k < cp.kW ==> 0 <= cp.WeightIndex(i, h, k) < weight.Length
    modifies output
    ensures forall p :: rs <= p < rs + oW ==>
      output[p] == old(output[p]) + KernelRow(weight[..], cp, Tensor(input[..], iv), e, i, j, p - rs, h)
    ensures forall p :: 0 <= p < output.Length && !(rs <= p < rs + oW) ==> output[p] == old(output[p])
  {
    ghost var x, ws, before := Tensor(input[..], iv), weight[..], output[..];
    forall p | rs <= p < rs + oW
      ensures output[p] == before[p] + TapsBefore(ws, cp, x, e, i, j, p - rs, h, 0)
    {
      TapsNext(ws, cp, x, e, i, j, p - rs, h, 0);
    }
    var k := 0;
    while k < cp.kW
      invariant 0 <= k <= cp.kW
      invariant forall p :: rs <= p < rs + oW ==>
        output[p] == before[p] + TapsBefore(ws, cp, x, e, i, j, p - rs, h, k)
      invariant forall p :: 0 <= p < output.Length && !(rs <= p < rs + oW) ==> output[p] == before[p]
    {
      var xs := iv.Offset(Ix(e, i, j + h, 0)) + k;
      var c := weight[cp.WeightIndex(i, h, k)];
      AddScaled(output, rs, input, xs, c, oW);
      forall p | rs <= p < rs + oW
        ensures output[p] == before[p] + TapsBefore(ws, cp, x, e, i, j, p - rs, h, k + 1)
      {
        TapsNext(ws, cp, x, e, i, j, p - rs, h, k);
        assert KernelTerm(ws, cp, x, e, i, j, p - rs, h, k) == c * input[xs + (p - rs)];
      }
      k := k + 1;
    }
  }

  /** Row j of a block of n rows of width w lies inside the block. */
  lemma RowInBlock(n: int, w: int, j: int)
    requires 0 <= j < n && w >= 0
    ensures 0 <= j * w && j * w + w <= n * w
  {
    if w > 0 {
      Below(j, n, w - 1, w);
    }
  }

  /** Column b of row a of a contiguous block of n rows of width w at base;
      the whole row lies inside the block. */
  function Slot(base: int, n: int, w: int, a: int, b: int): (p: int)
    requires 0 <= a < n && 0 <= b < w
    ensures base <= p - b && p - b + w <= base + n * w
  {
    RowInBlock(n, w, a);
    base + a * w + b
  }

  /** The j loop of plane i: one ConvRow per output row, into the contiguous
      oH x oW plane at ps. */
  method ConvPlane(output: array<real>, ps: int, input: array<real>, iv: View, weight: array<real>,
                   cp: Conv, oH: int, oW: int, e: int, i: int)
    requires cp.Valid() && iv.Ranked() && output != input && output != weight && oH >= 0 && oW >= 0
    requires 0 <= ps && ps + oH * oW <= output.Length
    requires forall r :: 0 <= r < oH + cp.kH - 1 ==>
      0 <= iv.Offset(Ix(e, i, r, 0)) && iv.Offset(Ix(e, i, r, 0)) + cp.kW - 1 + oW <= input.Length
    requires forall h, k :: 0 <= h < cp.kH && 0 <= k < cp.kW ==> 0 <= cp.WeightIndex(i, h, k) < weight.Length
    modifies output
    ensures forall j, c :: 0 <= j < oH && 0 <= c < oW ==>
      output[Slot(ps, oH, oW, j, c)] ==
      old(output[Slot(ps, oH, oW, j, c)]) + KernelSum(weight[..], cp, Tensor(input[..], iv), e, i, j, c)
    ensures forall p :: 0 <= p < output.Length && !(ps <= p < ps + oH * oW) ==> output[p] == old(output[p])
  {
    ghost var x, ws, before := Tensor(input[..], iv), weight[..], output[..];
    var j := 0;
    while j < oH
      invariant 0 <= j <= oH
      invariant forall jj, c :: 0 <= jj < j && 0 <= c < oW ==>
        output[Slot(ps, oH, oW, jj, c)] == before[Slot(ps, oH, oW, jj, c)] + KernelSum(ws, cp, x, e, i, jj, c)
      invariant forall p :: 0 <= p < output.Length && !(ps <= p < ps + j * oW) ==> output[p] == before[p]
    {
      RowInBlock(oH, oW, j);
      var rs := ps + j * oW;
      ghost var mid := output[..];
      ConvRow(output, rs, input, iv, weight, cp, oW, e, i, j);
      assert weight[..] == ws && Tensor(input[..], iv) == x;
      forall jj, c | 0 <= jj <= j && 0 <= c < oW
        ensures output[Slot(ps, oH, oW, jj, c)] == before[Slot(ps, oH, oW, jj, c)] + KernelSum(ws, cp, x, e, i, jj, c)
      {
        if jj < j {
          RowInBlock(j, oW, jj);
          assert mid[Slot(ps, oH, oW, jj, c)] == before[Slot(ps, oH, oW, jj, c)] + KernelSum(ws, cp, x, e, i, jj, c);
        } else {
          assert Slot(ps, oH, oW, jj, c) == rs + c;
          assert mid[rs + c] == before[rs + c];
        }
      }
      j := j + 1;
    }
  }

  /** Cell (j, c) of plane i of a contiguous block of nP planes of oH x oW at es. */
  function PlaneCell(es: int, nP: int, oH: int, oW: int, i: int, j: int, c: int): (p: int)
    requires 0 <= i < nP && 0 <= j < oH && 0 <= c < oW
    ensures es <= p < es + nP * (oH * oW)
  {
    MulAtLeast(oW, oH);
    Slot(Slot(es, nP, oH * oW, i, 0), oH, oW, j, c)
  }

  /** The bias loop: THVector_(fill) of every output plane i < nP with bias[i]. */
  method FillBiases(output: array<real>, es: int, bias: array<real>, nP: int, oH: int, oW: int)
    requires output != bias && 0 <= nP <= bias.Length && oH >= 1 && oW >= 1
    requires 0 <= es && es + nP * (oH * oW) <= output.Length
    modifies output
    ensures forall i, j, c :: 0 <= i < nP && 0 <= j < oH && 0 <= c < oW ==>
      output[PlaneCell(es, nP, oH, oW, i, j, c)] == bias[i]
    ensures forall p :: 0 <= p < output.Length && !(es <= p < es + nP * (oH * oW)) ==> output[p] == old(output[p])
  {
    ghost var before := output[..];
    var n := oH * oW;
    MulAtLeast(oW, oH);
    var i := 0;
    while i < nP
      invariant 0 <= i <= nP
      invariant forall ii, j, c :: 0 <= ii < i && 0 <= j < oH && 0 <= c < oW ==>
        output[PlaneCell(es, nP, oH, oW, ii, j, c)] == bias[ii]
      invariant forall p :: 0 <= p < output.Length && !(es <= p < es + i * n) ==> output[p] == before[p]
    {
      var ps := Slot(es, nP, n, i, 0);
      Fill(output, ps, n, bias[i]);
      forall ii, j, c | 0 <= ii <= i && 0 <= j < oH && 0 <= c < oW
        ensures output[PlaneCell(es, nP, oH, oW, ii, j, c)] == bias[ii]
      {
        if ii < i {
          RowInBlock(i, n, ii);
        }
      }
      i := i + 1;
    }
  }

  /** The plane loop of the forward pass: planes i < nInputPlane of element e
      get their kernel sums added. */
  method ConvPlanes(output: array<real>, es: int, input: array<real>, iv: View, weight: array<real>,
                    cp: Conv, oH: int, oW: int, e: int)
    requires cp.Valid() && iv.Ranked() && output != input && output != weight && oH >= 1 && oW >= 1
    requires cp.nInputPlane <= cp.nOutputPlane
    requires 0 <= es && es + cp.nOutputPlane * (oH * oW) <= output.Length
    requires forall i, r :: 0 <= i < cp.nInputPlane && 0 <= r < oH + cp.kH - 1 ==>
      0 <= iv.Offset(Ix(e, i, r, 0)) && iv.Offset(Ix(e, i, r, 0)) + cp.kW - 1 + oW <= input.Length
    requires forall i, h, k :: 0 <= i < cp.nInputPlane && 0 <= h < cp.kH && 0 <= k < cp.kW ==>
      0 <= cp.WeightIndex(i, h, k) < weight.Length
    modifies output
    ensures forall i, j, c :: 0 <= i < cp.nOutputPlane && 0 <= j < oH && 0 <= c < oW ==>
      output[PlaneCell(es, cp.nOutputPlane, oH, oW, i, j, c)] ==
      old(output[PlaneCell(es, cp.nOutputPlane, oH, oW, i, j, c)]) +
      (if i < cp.nInputPlane then KernelSum(weight[..], cp, Tensor(input[..], iv), e, i, j, c) else 0.0)
    ensures forall p :: 0 <= p < output.Length && !(es <= p < es + cp.nOutputPlane * (oH * oW)) ==>
      output[p] == old(output[p])
  {
    ghost var x, ws, before := Tensor(input[..], iv), weight[..], output[..];
    var n := oH * oW;
    MulAtLeast(oW, oH);
    var i := 0;
    while i < cp.nInputPlane
      invariant 0 <= i <= cp.nInputPlane
      invariant forall ii, j, c :: 0 <= ii < cp.nOutputPlane && 0 <= j < oH && 0 <= c < oW ==>
        output[PlaneCell(es, cp.nOutputPlane, oH, oW, ii, j, c)] ==
        before[PlaneCell(es, cp.nOutputPlane, oH, oW, ii, j, c)] +
        (if ii < i then KernelSum(ws, cp, x, e, ii, j, c) else 0.0)
      invariant forall p :: 0 <= p < output.Length && !(es <= p < es + cp.nOutputPlane * n) ==> output[p] == before[p]
    {
      var ps := Slot(es, cp.nOutputPlane, n, i, 0);
      ghost var mid := output[..];
      ConvPlane(output, ps, input, iv, weight, cp, oH, oW, e, i);
      assert weight[..] == ws && Tensor(input[..], iv) == x;
      forall ii, j, c | 0 <= ii < cp.nOutputPlane && 0 <= j < oH && 0 <= c < oW
        ensures output[PlaneCell(es, cp.nOutputPlane, oH, oW, ii, j, c)] ==
          before[PlaneCell(es, cp.nOutputPlane, oH, oW, ii, j, c)] +
          (if ii < i + 1 then KernelSum(ws, cp, x, e, ii, j, c) else 0.0)
      {
        var q := PlaneCell(es, cp.nOutputPlane, oH, oW, ii, j, c);
        if ii < i {
          RowInBlock(i, n, ii);
          assert output[q] == mid[q];
        } else if ii > i {
          RowInBlock(ii, n, i);
          assert output[q] == mid[q];
        } else {
          assert q == Slot(ps, oH, oW, j, c);
        }
      }
      i := i + 1;
    }
  }

  /** One batch element of the forward pass: the bias loop, then the plane loop. */
  method ForwardSample(output: array<real>, es: int, input: array<real>, iv: View, weight: array<real>,
                       bias: array<real>, cp: Conv, oH: int, oW: int, e: int)
    requires cp.Valid() && iv.Ranked() && oH >= 1 && oW >= 1
    requires output != input && output != weight && output != bias
    requires cp.nInputPlane <= cp.nOutputPlane <= bias.Length
    requires 0 <= es && es + cp.nOutputPlane * (oH * oW) <= output.Length
    requires forall i, r :: 0 <= i < cp.nInputPlane && 0 <= r < oH + cp.kH - 1 ==>
      0 <= iv.Offset(Ix(e, i, r, 0)) && iv.Offset(Ix(e, i, r, 0)) + cp.kW - 1 + oW <= input.Length
    requires forall i, h, k :: 0 <= i < cp.nInputPlane && 0 <= h < cp.kH && 0 <= k < cp.kW ==>
      0 <= cp.WeightIndex(i, h, k) < weight.Length
    modifies output
    ensures forall i, j, c :: 0 <= i < cp.nOutputPlane && 0 <= j < oH && 0 <= c < oW ==>
      output[PlaneCell(es, cp.nOutputPlane, oH, oW, i, j, c)] ==
      ConvAt(weight[..], bias[..], cp, Tensor(input[..], iv), e, i, j, c)
    ensures forall p :: 0 <= p < output.Length && !(es <= p < es + cp.nOutputPlane * (oH * oW)) ==>
      output[p] == old(output[p])
  {
    FillBiases(output, es, bias, cp.nOutputPlane, oH, oW);
    ConvPlanes(output, es, input, iv, weight, cp, oH, oW, e);
  }
}
