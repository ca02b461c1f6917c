/** PlanarConvolution: the loops over the batch. Every output-sized tensor is
    the fresh contiguous one a TH resize4d or resizeAs gives, so batch
    element e owns the block [e*V, e*V + V) of it. */
module ConvBatch {
  import opened Strided
  import opened Sums
  import opened Contiguous
  import opened ConvSpec
  import opened ConvKernels
  import opened ConvBackward
  import opened ConvGrad

  /** The blocks of two batch elements a < b do not overlap. */
  lemma BlocksApart(V: int, a: int, b: int)
    requires 0 <= a < b && V >= 0
    ensures PlaneBase(0, V, a) + V <= PlaneBase(0, V, b)
  {
    if V > 0 {
      MulAtLeast(V, b - a);
    }
    assert V * (b - a) == b * V - a * V;
  }

  /** Cell (i, j, c) of the block of batch element e is element (e, i, j, c)
      of the contiguous [B, nP, oH, oW] tensor. */
  lemma CellIsContig(B: int, nP: int, oH: int, oW: int, e: int, i: int, j: int, c: int)
    requires 0 <= e < B && 0 <= i < nP && 0 <= j < oH && 0 <= c < oW
    ensures PlaneCell(PlaneBase(0, nP * (oH * oW), e), nP, oH, oW, i, j, c) == Flat([B, nP, oH, oW], Ix(e, i, j, c))
  {
    ContigOffset(0, [B, nP, oH, oW], Ix(e, i, j, c));
    assert ((e * nP + i) * oH + j) * oW + c == e * (nP * (oH * oW)) + i * (oH * oW) + j * oW + c;
  }

  /** The reads of updateOutput stay inside input and weight for every batch element. */
  predicate ForwardReads(cp: Conv, v4: View, B: int, oH: int, oW: int, inputLen: int, weightLen: int)
    requires v4.Ranked()
  {
    (forall e, i, r :: 0 <= e < B && 0 <= i < cp.nInputPlane && 0 <= r < oH + cp.kH - 1 ==>
      0 <= v4.Offset(Ix(e, i, r, 0)) && v4.Offset(Ix(e, i, r, 0)) + cp.kW - 1 + oW <= inputLen) &&
    (forall i, h, k :: 0 <= i < cp.nInputPlane && 0 <= h < cp.kH && 0 <= k < cp.kW ==>
      0 <= cp.WeightIndex(i, h, k) < weightLen)
  }

  /** The batch loop of updateOutput into the freshly sized output: every
      element (e, i, j, c) of the contiguous [B, nOutputPlane, oH, oW] output
      is the bias of plane i plus, for i < nInputPlane, the correlation. */
  method ForwardBatch(output: array<real>, input: array<real>, v4: View, weight: array<real>, bias: array<real>,
                      cp: Conv, B: int, oH: int, oW: int)
    requires cp.Valid() && v4.Ranked() && B >= 0 && oH >= 1 && oW >= 1
    requires output != input && output != weight && output != bias
    requires cp.nInputPlane <= cp.nOutputPlane <= bias.Length
    requires output.Length == Volume(B, cp.nOutputPlane, oH, oW)
    requires ForwardReads(cp, v4, B, oH, oW, input.Length, weight.Length)
    modifies output
    ensures forall a :: Contig(0, [B, cp.nOutputPlane, oH, oW]).InRange(a) ==>
      output[Flat([B, cp.nOutputPlane, oH, oW], a)] == ConvAt(weight[..], bias[..], cp, Tensor(input[..], v4), a.i0, a.i1, a.i2, a.i3)
  {
    ghost var x, ws, bs := Tensor(input[..], v4), weight[..], bias[..];
    ghost var sizes := [B, cp.nOutputPlane, oH, oW];
    var V := cp.nOutputPlane * (oH * oW);
    assert output.Length == B * V;
    var e := 0;
    while e < B
      invariant 0 <= e <= B
      invariant forall a :: Contig(0, sizes).InRange(a) && a.i0 < e ==>
        output[Flat(sizes, a)] == ConvAt(ws, bs, cp, x, a.i0, a.i1, a.i2, a.i3)
    {
      var es := PlaneBase(0, V, e);
      assert 0 <= es && es + V <= output.Length by {
        RowInBlock(B, V, e);
      }
      ForwardSample(output, es, input, v4, weight, bias, cp, oH, oW, e);
      assert input[..] == x.data && weight[..] == ws && bias[..] == bs;
      forall a | Contig(0, sizes).InRange(a) && a.i0 < e + 1
        ensures output[Flat(sizes, a)] == ConvAt(ws, bs, cp, x, a.i0, a.i1, a.i2, a.i3)
      {
        CellIsContig(B, cp.nOutputPlane, oH, oW, a.i0, a.i1, a.i2, a.i3);
        if a.i0 < e {
          BlocksApart(V, a.i0, e);
        }
      }
      e := e + 1;
    }
  }

  /** The reads of updateGradInput stay inside gradOutput and weight for every batch element. */
  predicate BackwardReads(cp: Conv, gv4: View, B: int, oH: int, oW: int, gradOutputLen: int, weightLen: int)
    requires gv4.Ranked()
  {
    (forall e, i, j :: 0 <= e < B && 0 <= i < cp.nOutputPlane && 0 <= j < oH ==>
      0 <= gv4.Offset(Ix(e, i, j, 0)) && gv4.Offset(Ix(e, i, j, 0)) + oW <= gradOutputLen) &&
    (forall i, h, k :: 0 <= i < cp.nOutputPlane && 0 <= h < cp.kH && 0 <= k < cp.kW ==>
      0 <= cp.WeightIndex(i, h, k) < weightLen)
  }

  /** The batch loop of updateGradInput into the freshly sized and zeroed
      gradInput: every element (e, i, r, col) of the contiguous [B, P, H, W]
      gradInput is the sum of all contributions to it. */
  method BackwardBatch(gradInput: array<real>, gradOutput: array<real>, gv4: View, weight: array<real>,
                       cp: Conv, B: int, P: int, oH: int, oW: int)
    requires cp.Valid() && gv4.Ranked() && B >= 0 && oH >= 1 && oW >= 1
    requires gradInput != gradOutput && gradInput != weight && cp.nOutputPlane <= P
    requires gradInput.Length == Volume(B, P, oH + cp.kH - 1, oW + cp.kW - 1)
    requires forall p :: 0 <= p < gradInput.Length ==> gradInput[p] == 0.0
    requires BackwardReads(cp, gv4, B, oH, oW, gradOutput.Length, weight.Length)
    modifies gradInput
    ensures forall a :: Contig(0, [B, P, oH + cp.kH - 1, oW + cp.kW - 1]).InRange(a) ==>
      gradInput[Flat([B, P, oH + cp.kH - 1, oW + cp.kW - 1], a)] ==
      GradInputAt(weight[..], cp, Tensor(gradOutput[..], gv4), oH, oW, a.i0, a.i1, a.i2, a.i3)
  {
    ghost var g, ws := Tensor(gradOutput[..], gv4), weight[..];
    var H, W := oH + cp.kH - 1, oW + cp.kW - 1;
    ghost var sizes := [B, P, H, W];
    var V := P * (H * W);
    assert gradInput.Length == B * V;
    var e := 0;
    while e < B
      invariant 0 <= e <= B
      invariant forall a :: Contig(0, sizes).InRange(a) && a.i0 < e ==>
        gradInput[Flat(sizes, a)] == GradInputAt(ws, cp, g, oH, oW, a.i0, a.i1, a.i2, a.i3)
      invariant forall p :: PlaneBase(0, V, e) <= p < gradInput.Length ==> gradInput[p] == 0.0
    {
      var es := PlaneBase(0, V, e);
      assert 0 <= es && es + V <= gradInput.Length by {
        RowInBlock(B, V, e);
      }
      BackwardSample(gradInput, es, P, gradOutput, gv4, weight, cp, oH, oW, e);
      assert gradOutput[..] == g.data && weight[..] == ws;
      forall a | Contig(0, sizes).InRange(a) && a.i0 < e + 1
        ensures gradInput[Flat(sizes, a)] == GradInputAt(ws, cp, g, oH, oW, a.i0, a.i1, a.i2, a.i3)
      {
        CellIsContig(B, P, H, W, a.i0, a.i1, a.i2, a.i3);
        if a.i0 < e {
          BlocksApart(V, a.i0, e);
        }
      }
      assert PlaneBase(0, V, e + 1) == es + V;
      e := e + 1;
    }
    assert sizes == [B, P, oH + cp.kH - 1, oW + cp.kW - 1];
  }

  /** What the batch elements before n add to the weight gradient of tap (h, k) of plane i. */
  ghost function BatchWeight(g: Tensor, x: Tensor, scale: real, oH: int, oW: int, i: int, h: int, k: int, n: int): real
    requires g.view.Ranked() && x.view.Ranked()
  {
    Sum(n, e => WeightStep(g, x, scale, oH, oW, e, i, h, k))
  }

  lemma BatchWeightNext(g: Tensor, x: Tensor, scale: real, oH: int, oW: int, i: int, h: int, k: int, n: int)
    requires g.view.Ranked() && x.view.Ranked() && n >= 0
    ensures BatchWeight(g, x, scale, oH, oW, i, h, k, 0) == 0.0
    ensures BatchWeight(g, x, scale, oH, oW, i, h, k, n + 1) ==
      BatchWeight(g, x, scale, oH, oW, i, h, k, n) + WeightStep(g, x, scale, oH, oW, n, i, h, k)
  {
  }

  /** The reads of accGradParameters stay inside gradOutput and input for every batch element. */
  predicate WeightReads(cp: Conv, gv4: View, iv4: View, B: int, oH: int, oW: int, gradOutputLen: int, inputLen: int)
    requires gv4.Ranked() && iv4.Ranked()
  {
    (forall e, i, j, c :: 0 <= e < B && 0 <= i < cp.nOutputPlane && 0 <= j < oH && 0 <= c < oW ==>
      0 <= gv4.Offset(Ix(e, i, j, c)) < gradOutputLen) &&
    (forall e, i, r, c :: 0 <= e < B && 0 <= i < cp.nOutputPlane && 0 <= r < oH + cp.kH - 1 && 0 <= c < oW ==>
      0 <= iv4.Offset(Ix(e, i, r, c)) && iv4.Offset(Ix(e, i, r, c)) + cp.kW - 1 < inputLen)
  }

  /** The kernel blocks of the nOutputPlane planes of gradWeight lie inside it, kH * kW
      elements each, stride[0] apart and not overlapping. */
  predicate KernelBlocks(cp: Conv, gwOff: int, gws: int, gradWeightLen: int) {
    gws >= cp.kH * cp.kW &&
    forall i :: 0 <= i < cp.nOutputPlane ==>
      0 <= PlaneBase(gwOff, gws, i) && PlaneBase(gwOff, gws, i) + cp.kH * cp.kW <= gradWeightLen
  }

  /** gradWeight after accGradParameters: every kernel tap of the nOutputPlane
      planes has gained the weight gradient of the first B batch elements. */
  ghost predicate WeightAccumulated(before: seq<real>, after: seq<real>, gwOff: int, gws: int, cp: Conv,
                                    g: Tensor, x: Tensor, scale: real, oH: int, oW: int, B: int)
    requires g.view.Ranked() && x.view.Ranked()
  {
    forall i, h, k :: 0 <= i < cp.nOutputPlane && 0 <= h < cp.kH && 0 <= k < cp.kW ==>
      Get(after, GradCell(gwOff, gws, cp, i, h, k)) ==
        Get(before, GradCell(gwOff, gws, cp, i, h, k)) + BatchWeight(g, x, scale, oH, oW, i, h, k, B)
  }

  /** gradWeight after batch element e: every kernel tap has gained that
      element's weight gradient. */
  ghost predicate WeightStepped(before: seq<real>, after: seq<real>, gwOff: int, gws: int, cp: Conv,
                                g: Tensor, x: Tensor, scale: real, oH: int, oW: int, e: int)
    requires g.view.Ranked() && x.view.Ranked()
  {
    forall i, h, k :: 0 <= i < cp.nOutputPlane && 0 <= h < cp.kH && 0 <= k < cp.kW ==>
      Get(after, GradCell(gwOff, gws, cp, i, h, k)) ==
        Get(before, GradCell(gwOff, gws, cp, i, h, k)) + WeightStep(g, x, scale, oH, oW, e, i, h, k)
  }

  /** Outside the kernel blocks gradWeight keeps its values. */
  ghost predicate OutsideKernelsKept(before: seq<real>, after: seq<real>, gwOff: int, gws: int, cp: Conv) {
    |after| == |before| &&
    forall p :: 0 <= p < |after| && (forall i :: 0 <= i < cp.nOutputPlane ==> !InKernel(gwOff, gws, cp, i, p)) ==>
      after[p] == before[p]
  }

  /** gradBias after accGradParameters: B times the scaled bias-gradient dot
      product of each plane. */
  ghost predicate BiasAccumulated(before: seq<real>, after: seq<real>, nOut: int, B: int, scale: real,
                                  gd: seq<real>, goOffset: int, n: int, ones: seq<real>)
  {
    |after| == |before| &&
    forall i :: 0 <= i < nOut ==>
      Get(after, i) == Get(before, i) + (B as real) * (scale * PlaneDot(gd, goOffset, n, i, ones))
  }

  /** One batch element of accGradParameters: the weight dot products, then
      the addmv into gradBias over the [nOutputPlane, oH * oW] matrix at
      goOffset. */
  method AccGradSample(gradWeight: array<real>, gwOff: int, gws: int, gradBias: array<real>, ones: array<real>,
                       gradOutput: array<real>, gv4: View, goOffset: int, input: array<real>, iv4: View,
                       cp: Conv, scale: real, B: int, oH: int, oW: int, e: int)
    requires cp.Valid() && gv4.Ranked() && iv4.Ranked() && |gv4.sizes| == 4 && |iv4.sizes| == 4
    requires 0 <= e < B && oH >= 0 && oW >= 0
    requires gradWeight != gradBias && gradWeight != gradOutput && gradWeight != input && gradWeight != ones
    requires gradBias != gradOutput && gradBias != input && gradBias != ones
    requires KernelBlocks(cp, gwOff, gws, gradWeight.Length)
    requires WeightReads(cp, gv4, iv4, B, oH, oW, gradOutput.Length, input.Length)
    requires gradBias.Length == cp.nOutputPlane && oH * oW <= ones.Length
    requires 0 <= goOffset && goOffset + cp.nOutputPlane * (oH * oW) <= gradOutput.Length
    modifies gradWeight, gradBias
    ensures WeightStepped(old(gradWeight[..]), gradWeight[..], gwOff, gws, cp,
                          Tensor(gradOutput[..], gv4), Tensor(input[..], iv4), scale, oH, oW, e)
    ensures OutsideKernelsKept(old(gradWeight[..]), gradWeight[..], gwOff, gws, cp)
    ensures BiasAccumulated(old(gradBias[..]), gradBias[..], cp.nOutputPlane, 1, scale,
                            gradOutput[..], goOffset, oH * oW, ones[..])
  {
    ghost var w0 := gradWeight[..];
    WeightGradSample(gradWeight, gwOff, gws, gradOutput, gv4, input, iv4, cp, scale, oH, oW, e);
    forall i, h, k | 0 <= i < cp.nOutputPlane && 0 <= h < cp.kH && 0 <= k < cp.kW
      ensures Get(gradWeight[..], GradCell(gwOff, gws, cp, i, h, k)) ==
        Get(w0, GradCell(gwOff, gws, cp, i, h, k)) + WeightStep(Tensor(gradOutput[..], gv4), Tensor(input[..], iv4), scale, oH, oW, e, i, h, k)
    {
      assert 0 <= GradCell(gwOff, gws, cp, i, h, k) < gradWeight.Length;
    }
    AddMv(gradBias, gradOutput, goOffset, oH * oW, ones, scale, cp.nOutputPlane);
  }

  /** Batch element e added to the first e: e + 1 elements accumulated. */
  lemma {:induction false} WeightAccumulatedNext(w0: seq<real>, w1: seq<real>, w2: seq<real>, gwOff: int, gws: int, cp: Conv,
                                                 g: Tensor, x: Tensor, scale: real, oH: int, oW: int, e: int)
    requires g.view.Ranked() && x.view.Ranked() && e >= 0
    requires WeightAccumulated(w0, w1, gwOff, gws, cp, g, x, scale, oH, oW, e)
    requires WeightStepped(w1, w2, gwOff, gws, cp, g, x, scale, oH, oW, e)
    ensures WeightAccumulated(w0, w2, gwOff, gws, cp, g, x, scale, oH, oW, e + 1)
  {
    forall i, h, k | 0 <= i < cp.nOutputPlane && 0 <= h < cp.kH && 0 <= k < cp.kW
      ensures Get(w2, GradCell(gwOff, gws, cp, i, h, k)) ==
        Get(w0, GradCell(gwOff, gws, cp, i, h, k)) + BatchWeight(g, x, scale, oH, oW, i, h, k, e + 1)
    {
      BatchWeightNext(g, x, scale, oH, oW, i, h, k, e);
    }
  }

  lemma {:induction false} BiasAccumulatedNext(b0: seq<real>, b1: seq<real>, b2: seq<real>, nOut: int, e: int, scale: real,
                                               gd: seq<real>, goOffset: int, n: int, ones: seq<real>)
    requires e >= 0
    requires BiasAccumulated(b0, b1, nOut, e, scale, gd, goOffset, n, ones)
    requires BiasAccumulated(b1, b2, nOut, 1, scale, gd, goOffset, n, ones)
    ensures BiasAccumulated(b0, b2, nOut, e + 1, scale, gd, goOffset, n, ones)
  {
    forall i | 0 <= i < nOut
      ensures Get(b2, i) == Get(b0, i) + ((e + 1) as real) * (scale * PlaneDot(gd, goOffset, n, i, ones))
    {
      var d := scale * PlaneDot(gd, goOffset, n, i, ones);
      assert Get(b2, i) == Get(b1, i) + (1 as real) * d;
      assert Get(b1, i) == Get(b0, i) + (e as real) * d;
    }
  }

  /** One batch element of accGradParameters keeps the accumulation
      predicates, with the element count raised from e to e + 1. */
  method AccGradStep(gradWeight: array<real>, gwOff: int, gws: int, gradBias: array<real>, ones: array<real>,
                     gradOutput: array<real>, gv4: View, input: array<real>, iv4: View,
                     cp: Conv, scale: real, B: int, oH: int, oW: int, e: int,
                     ghost wBefore: seq<real>, ghost bBefore: seq<real>)
    requires cp.Valid() && gv4.Ranked() && iv4.Ranked() && |gv4.sizes| == 4 && |iv4.sizes| == 4
    requires 0 <= e < B && oH >= 0 && oW >= 0
    requires gradWeight != gradBias && gradWeight != gradOutput && gradWeight != input && gradWeight != ones
    requires gradBias != gradOutput && gradBias != input && gradBias != ones
    requires KernelBlocks(cp, gwOff, gws, gradWeight.Length)
    requires WeightReads(cp, gv4, iv4, B, oH, oW, gradOutput.Length, input.Length)
    requires gradBias.Length == cp.nOutputPlane && oH * oW <= ones.Length
    requires 0 <= gv4.offset && gv4.offset + cp.nOutputPlane * (oH * oW) <= gradOutput.Length
    requires WeightAccumulated(wBefore, gradWeight[..], gwOff, gws, cp,
                               Tensor(gradOutput[..], gv4), Tensor(input[..], iv4), scale, oH, oW, e)
    requires OutsideKernelsKept(wBefore, gradWeight[..], gwOff, gws, cp)
    requires BiasAccumulated(bBefore, gradBias[..], cp.nOutputPlane, e, scale,
                             gradOutput[..], gv4.offset, oH * oW, ones[..])
    modifies gradWeight, gradBias
    ensures WeightAccumulated(wBefore, gradWeight[..], gwOff, gws, cp,
                              Tensor(gradOutput[..], gv4), Tensor(input[..], iv4), scale, oH, oW, e + 1)
    ensures OutsideKernelsKept(wBefore, gradWeight[..], gwOff, gws, cp)
    ensures BiasAccumulated(bBefore, gradBias[..], cp.nOutputPlane, e + 1, scale,
                            gradOutput[..], gv4.offset, oH * oW, ones[..])
  {
    ghost var g, x, od := Tensor(gradOutput[..], gv4), Tensor(input[..], iv4), ones[..];
    ghost var w1, b1 := gradWeight[..], gradBias[..];
    AccGradSample(gradWeight, gwOff, gws, gradBias, ones, gradOutput, gv4, gv4.offset, input, iv4, cp, scale, B, oH, oW, e);
    assert gradOutput[..] == g.data && input[..] == x.data && ones[..] == od;
    WeightAccumulatedNext(wBefore, w1, gradWeight[..], gwOff, gws, cp, g, x, scale, oH, oW, e);
    BiasAccumulatedNext(bBefore, b1, gradBias[..], cp.nOutputPlane, e, scale, g.data, gv4.offset, oH * oW, od);
  }

  /** The batch loop of accGradParameters: per batch element the weight
      dot products, then the addmv into gradBias. The addmv reads gradOutput
      from the whole tensor's storage offset for every element, so gradBias
      gains B times the contribution of batch element 0. */
  method AccGradBatch(gradWeight: array<real>, gwOff: int, gws: int, gradBias: array<real>, ones: array<real>,
                      gradOutput: array<real>, gv4: View, input: array<real>, iv4: View,
                      cp: Conv, scale: real, B: int, oH: int, oW: int)
    requires cp.Valid() && gv4.Ranked() && iv4.Ranked() && |gv4.sizes| == 4 && |iv4.sizes| == 4
    requires B >= 0 && oH >= 0 && oW >= 0
    requires gradWeight != gradBias && gradWeight != gradOutput && gradWeight != input && gradWeight != ones
    requires gradBias != gradOutput && gradBias != input && gradBias != ones
    requires KernelBlocks(cp, gwOff, gws, gradWeight.Length)
    requires WeightReads(cp, gv4, iv4, B, oH, oW, gradOutput.Length, input.Length)
    requires gradBias.Length == cp.nOutputPlane && oH * oW <= ones.Length
    requires 0 <= gv4.offset && gv4.offset + cp.nOutputPlane * (oH * oW) <= gradOutput.Length
    modifies gradWeight, gradBias
    ensures WeightAccumulated(old(gradWeight[..]), gradWeight[..], gwOff, gws, cp,
                              Tensor(gradOutput[..], gv4), Tensor(input[..], iv4), scale, oH, oW, B)
    ensures OutsideKernelsKept(old(gradWeight[..]), gradWeight[..], gwOff, gws, cp)
    ensures BiasAccumulated(old(gradBias[..]), gradBias[..], cp.nOutputPlane, B, scale,
                            gradOutput[..], gv4.offset, oH * oW, ones[..])
  {
    ghost var g, x, od := Tensor(gradOutput[..], gv4), Tensor(input[..], iv4), ones[..];
    ghost var wBefore, bBefore := gradWeight[..], gradBias[..];
    var e := 0;
    while e < B
      invariant 0 <= e <= B
      invariant gradOutput[..] == g.data && input[..] == x.data && ones[..] == od
      invariant WeightAccumulated(wBefore, gradWeight[..], gwOff, gws, cp, g, x, scale, oH, oW, e)
      invariant OutsideKernelsKept(wBefore, gradWeight[..], gwOff, gws, cp)
      invariant BiasAccumulated(bBefore, gradBias[..], cp.nOutputPlane, e, scale, g.data, gv4.offset, oH * oW, od)
    {
      AccGradStep(gradWeight, gwOff, gws, gradBias, ones, gradOutput, gv4, input, iv4, cp, scale, B, oH, oW, e, wBefore, bBefore);
      e := e + 1;
    }
  }
}
