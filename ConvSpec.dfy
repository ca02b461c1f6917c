/** PlanarConvolution: the closed forms that the kernels are proved against. */
module ConvSpec {
  import opened Strided
  import opened Sums

  /** The module's fields: plane counts and kernel width and height. */
  datatype Conv = Conv(nInputPlane: int, nOutputPlane: int, kW: int, kH: int)
  {
    predicate Valid() {
      nInputPlane >= 0 && nOutputPlane >= 0 && kW >= 1 && kH >= 1
    }

    /** The flat weight index of kernel tap (h, k) of plane i: the output plane
        plays no part in it. */
    function WeightIndex(i: int, h: int, k: int): int {
      i * kW * kH + h * kW + k
    }
  }

  /** A read of a flat buffer; positions outside it read as 0. */
  function Get(s: seq<real>, p: int): real {
    if 0 <= p < |s| then s[p] else 0.0
  }

  /** Row r of plane i of batch element e, at a raw column offset col: the
      column is added to the address without a stride, as THVector_(add)
      runs over contiguous memory. */
  function Raw(x: Tensor, e: int, i: int, r: int, col: int): real
    requires x.view.Ranked()
  {
    Get(x.data, x.view.Offset(Ix(e, i, r, 0)) + col)
  }

  /** One tap of the forward correlation at output cell (e, i, j, c). With a
      unit column stride the raw column offset c + k is column c + k of input
      row j + h. */
  function KernelTerm(w: seq<real>, cp: Conv, x: Tensor, e: int, i: int, j: int, c: int, h: int, k: int): (v: real)
    requires x.view.Ranked()
    ensures |x.view.sizes| == 4 && x.view.strides[3] == 1 ==>
      v == Get(w, cp.WeightIndex(i, h, k)) * x.At(Ix(e, i, j + h, c + k))
  {
    Get(w, cp.WeightIndex(i, h, k)) * Raw(x, e, i, j + h, c + k)
  }

  /** Kernel row h: the sum over k < kW. */
  function KernelRow(w: seq<real>, cp: Conv, x: Tensor, e: int, i: int, j: int, c: int, h: int): real
    requires x.view.Ranked()
  {
    Sum(cp.kW, k => KernelTerm(w, cp, x, e, i, j, c, h, k))
  }

  /** The whole kernel: the sum over h < kH and k < kW. */
  function KernelSum(w: seq<real>, cp: Conv, x: Tensor, e: int, i: int, j: int, c: int): real
    requires x.view.Ranked()
  {
    Sum(cp.kH, h => KernelRow(w, cp, x, e, i, j, c, h))
  }

  /** Forward result: the bias of plane i, plus the correlation for the
      planes the loop covers (i < nInputPlane). With a unit column stride the
      correlation is over tensor indices: weight (h, k) of plane i times input
      element (e, i, j + h, c + k). */
  function ConvAt(w: seq<real>, b: seq<real>, cp: Conv, x: Tensor, e: int, i: int, j: int, c: int): (v: real)
    requires x.view.Ranked()
    ensures i >= cp.nInputPlane ==> v == Get(b, i)
    ensures |x.view.sizes| == 4 && x.view.strides[3] == 1 && i < cp.nInputPlane ==>
      v == Get(b, i) + Sum(cp.kH, h => Sum(cp.kW, k => Get(w, cp.WeightIndex(i, h, k)) * x.At(Ix(e, i, j + h, c + k))))
  {
    KernelSumAt(w, cp, x, e, i, j, c);
    Get(b, i) + if i < cp.nInputPlane then KernelSum(w, cp, x, e, i, j, c) else 0.0
  }

  lemma KernelSumAt(w: seq<real>, cp: Conv, x: Tensor, e: int, i: int, j: int, c: int)
    requires x.view.Ranked()
    ensures |x.view.sizes| == 4 && x.view.strides[3] == 1 ==>
      KernelSum(w, cp, x, e, i, j, c) ==
      Sum(cp.kH, h => Sum(cp.kW, k => Get(w, cp.WeightIndex(i, h, k)) * x.At(Ix(e, i, j + h, c + k))))
  {
    if |x.view.sizes| == 4 && x.view.strides[3] == 1 {
      forall h | 0 <= h < cp.kH
        ensures KernelRow(w, cp, x, e, i, j, c, h) ==
          Sum(cp.kW, k => Get(w, cp.WeightIndex(i, h, k)) * x.At(Ix(e, i, j + h, c + k)))
      {
        SumExt(cp.kW, k => KernelTerm(w, cp, x, e, i, j, c, h, k),
               k => Get(w, cp.WeightIndex(i, h, k)) * x.At(Ix(e, i, j + h, c + k)));
      }
      SumExt(cp.kH, h => KernelRow(w, cp, x, e, i, j, c, h),
             h => Sum(cp.kW, k => Get(w, cp.WeightIndex(i, h, k)) * x.At(Ix(e, i, j + h, c + k))));
    }
  }

  /** What iteration (j, h, k) of plane i adds to gradInput cell (r, col):
      weight times gradOutput when the cell lies in the updated segment
      (row j + h, columns k .. k + oW - 1), else nothing. */
  function Contrib(w: seq<real>, cp: Conv, g: Tensor, oW: int, e: int, i: int, r: int, col: int, j: int, h: int, k: int): (v: real)
    requires g.view.Ranked()
    ensures v != 0.0 ==> j + h == r && k <= col < k + oW
    ensures |g.view.sizes| == 4 && g.view.strides[3] == 1 && j + h == r && k <= col < k + oW ==>
      v == Get(w, cp.WeightIndex(i, h, k)) * g.At(Ix(e, i, j, col - k))
  {
    if j + h == r && 0 <= col - k < oW then Get(w, cp.WeightIndex(i, h, k)) * Raw(g, e, i, j, col - k) else 0.0
  }

  function BackTap(w: seq<real>, cp: Conv, g: Tensor, oW: int, e: int, i: int, r: int, col: int, j: int, h: int): real
    requires g.view.Ranked()
  {
    Sum(cp.kW, k => Contrib(w, cp, g, oW, e, i, r, col, j, h, k))
  }

  function BackRow(w: seq<real>, cp: Conv, g: Tensor, oW: int, e: int, i: int, r: int, col: int, j: int): real
    requires g.view.Ranked()
  {
    Sum(cp.kH, h => BackTap(w, cp, g, oW, e, i, r, col, j, h))
  }

  /** Backward result at gradInput cell (e, i, r, col): all contributions of
      the planes the loop covers (i < nOutputPlane), 0 elsewhere. Only the
      oH + kH - 1 rows and oW + kW - 1 columns the kernel reaches from some
      output cell receive anything. */
  function GradInputAt(w: seq<real>, cp: Conv, g: Tensor, oH: int, oW: int, e: int, i: int, r: int, col: int): (v: real)
    requires g.view.Ranked()
    ensures v != 0.0 ==> i < cp.nOutputPlane && 0 <= r < oH + cp.kH - 1 && 0 <= col < oW + cp.kW - 1
  {
    OutsideReach(w, cp, g, oH, oW, e, i, r, col);
    if i < cp.nOutputPlane then Sum(oH, j => BackRow(w, cp, g, oW, e, i, r, col, j)) else 0.0
  }

  lemma OutsideReach(w: seq<real>, cp: Conv, g: Tensor, oH: int, oW: int, e: int, i: int, r: int, col: int)
    requires g.view.Ranked()
    ensures !(0 <= r < oH + cp.kH - 1 && 0 <= col < oW + cp.kW - 1) ==>
      Sum(oH, j => BackRow(w, cp, g, oW, e, i, r, col, j)) == 0.0
  {
    if !(0 <= r < oH + cp.kH - 1 && 0 <= col < oW + cp.kW - 1) {
      forall j | 0 <= j < oH
        ensures BackRow(w, cp, g, oW, e, i, r, col, j) == 0.0
      {
        forall h | 0 <= h < cp.kH
          ensures BackTap(w, cp, g, oW, e, i, r, col, j, h) == 0.0
        {
          SumZero(cp.kW, k => Contrib(w, cp, g, oW, e, i, r, col, j, h, k));
        }
        SumZero(cp.kH, h => BackTap(w, cp, g, oW, e, i, r, col, j, h));
      }
      SumZero(oH, j => BackRow(w, cp, g, oW, e, i, r, col, j));
    }
  }

  /** THBlas_(dot) as accGradParameters calls it: gradOutput row j of plane i
      against input row j + h shifted by the raw column k, both with their
      column strides. With a unit input column stride it pairs gradOutput
      element (e, i, j, c) with input element (e, i, j + h, c + k). */
  function RowDot(g: Tensor, x: Tensor, oW: int, e: int, i: int, j: int, h: int, k: int): (v: real)
    requires g.view.Ranked() && x.view.Ranked()
    ensures |x.view.sizes| == 4 && x.view.strides[3] == 1 ==>
      v == Sum(oW, c => ShiftedTerm(g, x, e, i, j, h, k, c))
  {
    RowDotAt(g, x, oW, e, i, j, h, k);
    Sum(oW, c => Get(g.data, g.view.Offset(Ix(e, i, j, c))) * Get(x.data, x.view.Offset(Ix(e, i, j + h, c)) + k))
  }

  /** gradOutput element (e, i, j, c) times input element (e, i, j + h, c + k). */
  function ShiftedTerm(g: Tensor, x: Tensor, e: int, i: int, j: int, h: int, k: int, c: int): real
    requires g.view.Ranked() && x.view.Ranked()
  {
    g.At(Ix(e, i, j, c)) * x.At(Ix(e, i, j + h, c + k))
  }

  lemma RowDotAt(g: Tensor, x: Tensor, oW: int, e: int, i: int, j: int, h: int, k: int)
    requires g.view.Ranked() && x.view.Ranked()
    ensures |x.view.sizes| == 4 && x.view.strides[3] == 1 ==>
      Sum(oW, c => Get(g.data, g.view.Offset(Ix(e, i, j, c))) * Get(x.data, x.view.Offset(Ix(e, i, j + h, c)) + k)) ==
      Sum(oW, c => ShiftedTerm(g, x, e, i, j, h, k, c))
  {
    if |x.view.sizes| == 4 && x.view.strides[3] == 1 {
      // The trigger keeps the shifted column c + k from feeding new instances.
      forall c {:trigger ShiftedTerm(g, x, e, i, j, h, k, c)} | 0 <= c < oW
        ensures Get(g.data, g.view.Offset(Ix(e, i, j, c))) * Get(x.data, x.view.Offset(Ix(e, i, j + h, c)) + k) ==
          ShiftedTerm(g, x, e, i, j, h, k, c)
      {
        UnitStep(x.view, Ix(e, i, j + h, c), k);
      }
      SumExt(oW, c => Get(g.data, g.view.Offset(Ix(e, i, j, c))) * Get(x.data, x.view.Offset(Ix(e, i, j + h, c)) + k),
             c => ShiftedTerm(g, x, e, i, j, h, k, c));
    }
  }

  /** What one batch element adds to the weight gradient of tap (h, k) of
      plane i: scale times the correlation of gradOutput plane i with input
      plane i shifted by (h, k). */
  function WeightStep(g: Tensor, x: Tensor, scale: real, oH: int, oW: int, e: int, i: int, h: int, k: int): (v: real)
    requires g.view.Ranked() && x.view.Ranked()
    ensures v == scale * Sum(oH, j => RowDot(g, x, oW, e, i, j, h, k))
  {
    SumScale(oH, j => RowDot(g, x, oW, e, i, j, h, k), j => scale * RowDot(g, x, oW, e, i, j, h, k), scale);
    Sum(oH, j => scale * RowDot(g, x, oW, e, i, j, h, k))
  }

  /** The bias-gradient dot product of plane i: gradOutput read as a
      contiguous [nOutputPlane, n] matrix from the whole tensor's storage
      offset, against ones. With at least n ones it is the plain sum of row i. */
  function PlaneDot(gd: seq<real>, goOffset: int, n: int, i: int, ones: seq<real>): (v: real)
    ensures n <= |ones| && (forall t :: 0 <= t < n ==> ones[t] == 1.0) ==>
      v == Sum(n, t => Get(gd, goOffset + i * n + t))
  {
    if n <= |ones| && (forall t :: 0 <= t < n ==> ones[t] == 1.0) then
      SumExt(n, t => Get(gd, goOffset + i * n + t) * Get(ones, t), t => Get(gd, goOffset + i * n + t));
      Sum(n, t => Get(gd, goOffset + i * n + t) * Get(ones, t))
    else
      Sum(n, t => Get(gd, goOffset + i * n + t) * Get(ones, t))
  }
}
