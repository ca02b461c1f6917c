/** The PlanarConvolution module object: its Lua fields and the three entry
    points updateOutput, updateGradInput and accGradParameters. A 3-D input
    is run as a batch of one and its header restored afterwards. */
module Planar {
  import opened Strided
  import opened Sums
  import opened Contiguous
  import opened ConvSpec
  import opened ConvKernels
  import opened ConvBackward
  import opened ConvGrad
  import opened ConvBatch

  /** The outcome of a call: success, or the argument error the Lua binding raises. */
  datatype Status = Ok | ArgError(message: string)

  const RankError := "3D or 4D (batch mode) tensor expected"
  const PlaneError := "Number of output features is not equal to nOutputPlane"

  /** The batch-mode header of a tensor: a 3-D tensor becomes the contiguous
      [1, planes, size[1], size[2]] tensor at the same storage offset, as
      THTensor_(resize4d) leaves it; a 4-D tensor is kept. */
  function Batched(v: View, planes: int): (w: View)
    requires v.Ranked()
    ensures w.Ranked() && |w.sizes| == 4 && w.offset == v.offset
    ensures |v.sizes| == 4 ==> w == v
    ensures |v.sizes| == 3 ==> w.sizes == [1, planes, v.sizes[1], v.sizes[2]] && w.strides == ContiguousStrides(w.sizes)
  {
    if |v.sizes| == 3 then Contig(v.offset, [1, planes, v.sizes[1], v.sizes[2]]) else v
  }

  /** The header a 3-D tensor is given back by THTensor_(resize3d): contiguous
      [planes, h, w] at the same storage offset. */
  function Restored(v: View, planes: int, h: int, w: int): (r: View)
    requires v.Ranked()
    ensures |v.sizes| == 4 ==> r == v
    ensures |v.sizes| == 3 ==> r.offset == v.offset && r.sizes == [planes, h, w] && r.strides == ContiguousStrides(r.sizes)
  {
    if |v.sizes| == 3 then Contig(v.offset, [planes, h, w]) else v
  }

  lemma VolumeNonNegative(n0: int, n1: int, n2: int, n3: int)
    requires n0 >= 0 && n1 >= 0 && n2 >= 0 && n3 >= 0
    ensures Volume(n0, n1, n2, n3) >= 0
  {
    assert n0 * n1 >= 0;
    assert n0 * n1 * n2 >= 0;
  }

  /** THStorage_(resize) when a header outgrows its storage: a new block of
      n cells whose first a.Length cells keep a's values; the rest are not
      initialised by the library and so are left unspecified here. */
  method GrowStorage(a: array<real>, n: int) returns (b: array<real>)
    requires n > a.Length
    ensures fresh(b) && b.Length == n
    ensures forall p :: 0 <= p < a.Length ==> b[p] == a[p]
  {
    b := new real[n];
    var t := 0;
    while t < a.Length
      invariant 0 <= t <= a.Length
      invariant forall p :: 0 <= p < t ==> b[p] == a[p]
    {
      b[t] := a[t];
      t := t + 1;
    }
  }

  /** What updateOutput needs of its arguments beyond the rank check. */
  predicate ForwardReady(cp: Conv, v4: View, inputLen: int, weightLen: int, biasLen: int)
    requires v4.Ranked() && |v4.sizes| == 4
  {
    var oH, oW := v4.sizes[2] - cp.kH + 1, v4.sizes[3] - cp.kW + 1;
    v4.sizes[0] >= 0 && oH >= 1 && oW >= 1 && cp.nInputPlane <= cp.nOutputPlane <= biasLen &&
    ForwardReads(cp, v4, v4.sizes[0], oH, oW, inputLen, weightLen)
  }

  /** What updateGradInput needs of its arguments beyond the plane check. */
  predicate BackwardReady(cp: Conv, iv4: View, gv4: View, gradOutputLen: int, weightLen: int)
    requires iv4.Ranked() && |iv4.sizes| == 4 && gv4.Ranked()
  {
    var oH, oW := iv4.sizes[2] - cp.kH + 1, iv4.sizes[3] - cp.kW + 1;
    iv4.sizes[0] >= 0 && oH >= 1 && oW >= 1 && cp.nOutputPlane <= iv4.sizes[1] &&
    BackwardReads(cp, gv4, iv4.sizes[0], oH, oW, gradOutputLen, weightLen)
  }

  /** What accGradParameters needs of its arguments beyond the plane check. */
  predicate AccGradReady(cp: Conv, iv4: View, gv4: View, gwOff: int, gws: int, gradWeightLen: int,
                         gradBiasLen: int, gradOutputLen: int, inputLen: int)
    requires iv4.Ranked() && |iv4.sizes| == 4 && gv4.Ranked() && |gv4.sizes| == 4
  {
    var oH, oW := iv4.sizes[2] - cp.kH + 1, iv4.sizes[3] - cp.kW + 1;
    iv4.sizes[0] >= 0 && oH >= 1 && oW >= 1 &&
    KernelBlocks(cp, gwOff, gws, gradWeightLen) &&
    WeightReads(cp, gv4, iv4, iv4.sizes[0], oH, oW, gradOutputLen, inputLen) &&
    gradBiasLen == cp.nOutputPlane &&
    0 <= gv4.offset && gv4.offset + cp.nOutputPlane * (oH * oW) <= gradOutputLen
  }

  class PlanarConvolution {
    const conv: Conv
    const weight: array<real>
    const bias: array<real>
    var output: array<real>
    var outputSizes: seq<int>
    var gradInput: array<real>
    var gradInputSizes: seq<int>
    /** gradWeight's storage, storage offset and stride[0]. */
    const gradWeight: array<real>
    const gradWeightOffset: int
    const gradWeightStride: int
    const gradBias: array<real>
    /** The ones vector of accGradParameters and its number of dimensions. */
    var ones: array<real>
    var onesDims: int

    constructor(conv: Conv, weight: array<real>, bias: array<real>, gradWeight: array<real>,
                gradWeightOffset: int, gradWeightStride: int, gradBias: array<real>)
      ensures this.conv == conv && this.weight == weight && this.bias == bias
      ensures this.gradWeight == gradWeight && this.gradWeightOffset == gradWeightOffset
      ensures this.gradWeightStride == gradWeightStride && this.gradBias == gradBias
      ensures output.Length == 0 && outputSizes == [] && gradInput.Length == 0 && gradInputSizes == []
      ensures ones.Length == 0 && onesDims == 0
    {
      this.conv := conv;
      this.weight := weight;
      this.bias := bias;
      this.gradWeight := gradWeight;
      this.gradWeightOffset := gradWeightOffset;
      this.gradWeightStride := gradWeightStride;
      this.gradBias := gradBias;
      output := new real[0];
      outputSizes := [];
      gradInput := new real[0];
      gradInputSizes := [];
      ones := new real[0];
      onesDims := 0;
    }

    /** updateOutput: rank check, promotion of a 3-D input to a batch of one
        with nInputPlane planes, resize of output to [B, nOutputPlane, oH, oW],
        the batch loop, and the 3-D headers restored. Returns the input's
        header as the call leaves it. */
    method UpdateOutput(input: array<real>, iv: View) returns (st: Status, iv': View)
      requires conv.Valid() && |iv.sizes| == |iv.strides|
      requires iv.Ranked() ==> ForwardReady(conv, Batched(iv, conv.nInputPlane), input.Length, weight.Length, bias.Length)
      modifies this
      ensures gradInput == old(gradInput) && gradInputSizes == old(gradInputSizes)
      ensures ones == old(ones) && onesDims == old(onesDims)
      ensures !iv.Ranked() ==>
        st == ArgError(RankError) && iv' == iv && output == old(output) && outputSizes == old(outputSizes)
      ensures iv.Ranked() ==>
        var v4 := Batched(iv, conv.nInputPlane);
        var B, H, W := v4.sizes[0], v4.sizes[2], v4.sizes[3];
        var oH, oW := H - conv.kH + 1, W - conv.kW + 1;
        st == Ok && fresh(output) && output.Length == Volume(B, conv.nOutputPlane, oH, oW) &&
        outputSizes == (if |iv.sizes| == 3 then [conv.nOutputPlane, oH, oW] else [B, conv.nOutputPlane, oH, oW]) &&
        iv' == Restored(iv, conv.nInputPlane, H, W) &&
        forall a :: Contig(0, [B, conv.nOutputPlane, oH, oW]).InRange(a) ==>
          output[Flat([B, conv.nOutputPlane, oH, oW], a)] ==
          ConvAt(weight[..], bias[..], conv, Tensor(input[..], v4), a.i0, a.i1, a.i2, a.i3)
    {
      if !(|iv.sizes| == 3 || |iv.sizes| == 4) {
        return ArgError(RankError), iv;
      }
      var v4 := Batched(iv, conv.nInputPlane);
      var B, H, W := v4.sizes[0], v4.sizes[2], v4.sizes[3];
      var oH, oW := H - conv.kH + 1, W - conv.kW + 1;
      VolumeNonNegative(B, conv.nOutputPlane, oH, oW);
      output := new real[Volume(B, conv.nOutputPlane, oH, oW)];
      ForwardBatch(output, input, v4, weight, bias, conv, B, oH, oW);
      if |iv.sizes| == 3 {
        outputSizes := [conv.nOutputPlane, oH, oW];
      } else {
        outputSizes := [B, conv.nOutputPlane, oH, oW];
      }
      return Ok, Restored(iv, conv.nInputPlane, H, W);
    }

    /** updateGradInput: the plane-count check on gradOutput (dimension 1 of a
        4-D input's gradOutput, dimension 0 otherwise), promotion of a 3-D
        call, resizeAs and zero of gradInput, the batch loop, and the 3-D
        headers restored (input and gradInput with nInputPlane planes; when
        that header needs more cells than gradInput holds, its storage grows
        and the computed cells keep their values). Returns the headers of
        input and gradOutput as the call leaves them. */
    method UpdateGradInput(input: array<real>, iv: View, gradOutput: array<real>, gv: View)
      returns (st: Status, iv': View, gv': View)
      requires conv.Valid() && iv.Ranked() && gv.Ranked() && |gv.sizes| == |iv.sizes|
      requires conv.nOutputPlane == gv.sizes[if |iv.sizes| == 4 then 1 else 0] ==>
        BackwardReady(conv, Batched(iv, iv.sizes[0]), Batched(gv, conv.nOutputPlane), gradOutput.Length, weight.Length)
      modifies this
      ensures output == old(output) && outputSizes == old(outputSizes)
      ensures ones == old(ones) && onesDims == old(onesDims)
      ensures conv.nOutputPlane != gv.sizes[if |iv.sizes| == 4 then 1 else 0] ==>
        st == ArgError(PlaneError) && iv' == iv && gv' == gv &&
        gradInput == old(gradInput) && gradInputSizes == old(gradInputSizes)
      ensures conv.nOutputPlane == gv.sizes[if |iv.sizes| == 4 then 1 else 0] ==>
        var iv4, gv4 := Batched(iv, iv.sizes[0]), Batched(gv, conv.nOutputPlane);
        var B, P, H, W := iv4.sizes[0], iv4.sizes[1], iv4.sizes[2], iv4.sizes[3];
        var oH, oW := H - conv.kH + 1, W - conv.kW + 1;
        var n, need := Volume(B, P, H, W), Volume(1, conv.nInputPlane, H, W);
        st == Ok && fresh(gradInput) &&
        gradInput.Length == (if |iv.sizes| == 3 && need > n then need else n) &&
        gradInputSizes == (if |iv.sizes| == 3 then [conv.nInputPlane, H, W] else [B, P, H, W]) &&
        iv' == Restored(iv, conv.nInputPlane, H, W) && gv' == Restored(gv, conv.nOutputPlane, oH, oW) &&
        forall a :: Contig(0, [B, P, H, W]).InRange(a) ==>
          gradInput[Flat([B, P, H, W], a)] ==
          GradInputAt(weight[..], conv, Tensor(gradOutput[..], gv4), oH, oW, a.i0, a.i1, a.i2, a.i3)
    {
      if conv.nOutputPlane != gv.sizes[if |iv.sizes| == 4 then 1 else 0] {
        return ArgError(PlaneError), iv, gv;
      }
      var iv4, gv4 := Batched(iv, iv.sizes[0]), Batched(gv, conv.nOutputPlane);
      var B, P, H, W := iv4.sizes[0], iv4.sizes[1], iv4.sizes[2], iv4.sizes[3];
      var oH, oW := H - conv.kH + 1, W - conv.kW + 1;
      VolumeNonNegative(B, P, H, W);
      var n := Volume(B, P, H, W);
      gradInput := new real[n];
      Fill(gradInput, 0, n, 0.0);
      BackwardBatch(gradInput, gradOutput, gv4, weight, conv, B, P, oH, oW);
      if |iv.sizes| == 3 {
        var need := Volume(1, conv.nInputPlane, H, W);
        if need > n {
          gradInput := GrowStorage(gradInput, need);
        }
        gradInputSizes := [conv.nInputPlane, H, W];
      } else {
        gradInputSizes := [B, P, H, W];
      }
      return Ok, Restored(iv, conv.nInputPlane, H, W), Restored(gv, conv.nOutputPlane, oH, oW);
    }

    /** The ones vector of accGradParameters: kept when it already is a vector
        of at least n elements, else replaced by n ones. */
    method ResizeOnes(n: int)
      requires n >= 0
      modifies this`ones, this`onesDims
      ensures onesDims == 1 && n <= ones.Length
      ensures old(onesDims) == 1 && n <= old(ones.Length) ==> ones == old(ones)
      ensures !(old(onesDims) == 1 && n <= old(ones.Length)) ==> fresh(ones) && ones[..] == seq(n, _ => 1.0)
    {
      if onesDims != 1 || ones.Length < n {
        ones := new real[n];
        Fill(ones, 0, n, 1.0);
        onesDims := 1;
      }
    }

    /** accGradParameters: the plane-count check, promotion of a 3-D call,
        the resize and fill of ones unless it already is a vector of at least
        oH * oW elements, then per batch element the weight dot products and
        the addmv into gradBias, and the 3-D headers restored. Returns the
        headers of input and gradOutput as the call leaves them. */
    method AccGradParameters(input: array<real>, iv: View, gradOutput: array<real>, gv: View, scale: real)
      returns (st: Status, iv': View, gv': View)
      requires conv.Valid() && iv.Ranked() && gv.Ranked() && |gv.sizes| == |iv.sizes|
      requires gradWeight != gradBias && gradWeight != input && gradWeight != gradOutput
      requires gradBias != input && gradBias != gradOutput
      requires ones != gradWeight && ones != gradBias
      requires conv.nOutputPlane == gv.sizes[if |iv.sizes| == 4 then 1 else 0] ==>
        AccGradReady(conv, Batched(iv, iv.sizes[0]), Batched(gv, gv.sizes[0]), gradWeightOffset, gradWeightStride,
                     gradWeight.Length, gradBias.Length, gradOutput.Length, input.Length)
      requires conv.nOutputPlane == gv.sizes[if |iv.sizes| == 4 then 1 else 0] && onesDims == 1 ==>
        ones.Length <= (Batched(iv, iv.sizes[0]).sizes[2] - conv.kH + 1) * (Batched(iv, iv.sizes[0]).sizes[3] - conv.kW + 1)
      modifies this, gradWeight, gradBias
      ensures output == old(output) && outputSizes == old(outputSizes)
      ensures gradInput == old(gradInput) && gradInputSizes == old(gradInputSizes)
      ensures conv.nOutputPlane != gv.sizes[if |iv.sizes| == 4 then 1 else 0] ==>
        st == ArgError(PlaneError) && iv' == iv && gv' == gv && ones == old(ones) && onesDims == old(onesDims) &&
        gradWeight[..] == old(gradWeight[..]) && gradBias[..] == old(gradBias[..])
      ensures conv.nOutputPlane == gv.sizes[if |iv.sizes| == 4 then 1 else 0] ==>
        var iv4 := Batched(iv, iv.sizes[0]);
        var oH, oW := iv4.sizes[2] - conv.kH + 1, iv4.sizes[3] - conv.kW + 1;
        st == Ok && iv' == Restored(iv, conv.nInputPlane, iv4.sizes[2], iv4.sizes[3]) &&
        gv' == Restored(gv, conv.nOutputPlane, oH, oW) &&
        onesDims == 1 && ones.Length == oH * oW &&
        (if old(onesDims) == 1 && oH * oW <= old(ones.Length) then ones == old(ones)
         else fresh(ones) && ones[..] == seq(oH * oW, _ => 1.0))
      ensures conv.nOutputPlane == gv.sizes[if |iv.sizes| == 4 then 1 else 0] ==>
        var iv4, gv4 := Batched(iv, iv.sizes[0]), Batched(gv, gv.sizes[0]);
        var B, oH, oW := iv4.sizes[0], iv4.sizes[2] - conv.kH + 1, iv4.sizes[3] - conv.kW + 1;
        && WeightAccumulated(old(gradWeight[..]), gradWeight[..], gradWeightOffset, gradWeightStride, conv,
                             Tensor(gradOutput[..], gv4), Tensor(input[..], iv4), scale, oH, oW, B)
        && OutsideKernelsKept(old(gradWeight[..]), gradWeight[..], gradWeightOffset, gradWeightStride, conv)
        && BiasAccumulated(old(gradBias[..]), gradBias[..], conv.nOutputPlane, B, scale,
                           gradOutput[..], gv.offset, oH * oW, ones[..])
    {
      if conv.nOutputPlane != gv.sizes[if |iv.sizes| == 4 then 1 else 0] {
        return ArgError(PlaneError), iv, gv;
      }
      var iv4, gv4 := Batched(iv, iv.sizes[0]), Batched(gv, gv.sizes[0]);
      var B, H, W := iv4.sizes[0], iv4.sizes[2], iv4.sizes[3];
      var oH, oW := H - conv.kH + 1, W - conv.kW + 1;
      var n := oH * oW;
      ghost var gw0, gb0 := gradWeight[..], gradBias[..];
      ResizeOnes(n);
      assert gradWeight[..] == gw0 && gradBias[..] == gb0;
      AccGradBatch(gradWeight, gradWeightOffset, gradWeightStride, gradBias, ones, gradOutput, gv4, input, iv4,
                   conv, scale, B, oH, oW);
      return Ok, Restored(iv, conv.nInputPlane, H, W), Restored(gv, conv.nOutputPlane, oH, oW);
    }
  }
}
