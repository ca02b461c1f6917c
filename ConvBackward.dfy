/** PlanarConvolution updateGradInput: the loops of one batch element, proved
    against ConvSpec.GradInputAt. */
module ConvBackward {
  import opened Strided
  import opened Sums
  import opened ConvSpec
  import opened ConvKernels

  /** The taps before k of iteration (j, h), as the k loop of BackTaps has added them. */
  ghost function TapsDone(w: seq<real>, cp: Conv, g: Tensor, oW: int, e: int, i: int, r: int, col: int,
                          j: int, h: int, k: int): real
    requires g.view.Ranked()
  {
    Sum(k, kk => Contrib(w, cp, g, oW, e, i, r, col, j, h, kk))
  }

  /** The kernel rows before h of iteration j, as the h loop of BackRows has added them. */
  ghost function RowsDone(w: seq<real>, cp: Conv, g: Tensor, oW: int, e: int, i: int, r: int, col: int,
                          j: int, h: int): real
    requires g.view.Ranked()
  {
    Sum(h, hh => BackTap(w, cp, g, oW, e, i, r, col, j, hh))
  }

  /** The output rows before j, as the j loop of BackPlane has added them. */
  ghost function PlaneDone(w: seq<real>, cp: Conv, g: Tensor, oW: int, e: int, i: int, r: int, col: int,
                           j: int): real
    requires g.view.Ranked()
  {
    Sum(j, jj => BackRow(w, cp, g, oW, e, i, r, col, jj))
  }

  lemma TapsDoneNext(w: seq<real>, cp: Conv, g: Tensor, oW: int, e: int, i: int, r: int, col: int,
                     j: int, h: int, k: int)
    requires g.view.Ranked() && k >= 0
    ensures TapsDone(w, cp, g, oW, e, i, r, col, j, h, 0) == 0.0
    ensures TapsDone(w, cp, g, oW, e, i, r, col, j, h, k + 1) ==
      TapsDone(w, cp, g, oW, e, i, r, col, j, h, k) + Contrib(w, cp, g, oW, e, i, r, col, j, h, k)
  {
  }

  lemma RowsDoneNext(w: seq<real>, cp: Conv, g: Tensor, oW: int, e: int, i: int, r: int, col: int,
                     j: int, h: int)
    requires g.view.Ranked() && h >= 0
    ensures RowsDone(w, cp, g, oW, e, i, r, col, j, 0) == 0.0
    ensures RowsDone(w, cp, g, oW, e, i, r, col, j, h + 1) ==
      RowsDone(w, cp, g, oW, e, i, r, col, j, h) + BackTap(w, cp, g, oW, e, i, r, col, j, h)
  {
  }

  lemma PlaneDoneNext(w: seq<real>, cp: Conv, g: Tensor, oW: int, e: int, i: int, r: int, col: int, j: int)
    requires g.view.Ranked() && j >= 0
    ensures PlaneDone(w, cp, g, oW, e, i, r, col, 0) == 0.0
    ensures PlaneDone(w, cp, g, oW, e, i, r, col, j + 1) ==
      PlaneDone(w, cp, g, oW, e, i, r, col, j) + BackRow(w, cp, g, oW, e, i, r, col, j)
  {
  }

  /** Iteration (j, h) writes only input row j + h: on any other row its taps add nothing. */
  lemma TapOffRow(w: seq<real>, cp: Conv, g: Tensor, oW: int, e: int, i: int, r: int, col: int, j: int, h: int)
    requires g.view.Ranked() && r != j + h
    ensures BackTap(w, cp, g, oW, e, i, r, col, j, h) == 0.0
  {
    SumZero(cp.kW, k => Contrib(w, cp, g, oW, e, i, r, col, j, h, k));
  }

  /** The k loop of iteration (j, h): kW vector adds of gradOutput row j,
      scaled by the weights of kernel row h, into gradInput row r = j + h at rs. */
  method BackTaps(gradInput: array<real>, rs: int, gradOutput: array<real>, gv: View, weight: array<real>,
                  cp: Conv, oW: int, e: int, i: int, j: int, h: int, r: int)
    requires cp.Valid() && gv.Ranked() && gradInput != gradOutput && gradInput != weight && oW >= 0
    requires 0 <= h < cp.kH && r == j + h
    requires 0 <= rs && rs + oW + cp.kW - 1 <= gradInput.Length
    requires 0 <= gv.Offset(Ix(e, i, j, 0)) && gv.Offset(Ix(e, i, j, 0)) + oW <= gradOutput.Length
    requires forall k :: 0 <= k < cp.kW ==> 0 <= cp.WeightIndex(i, h, k) < weight.Length
    modifies gradInput
    ensures forall p :: rs <= p < rs + oW + cp.kW - 1 ==>
      gradInput[p] == old(gradInput[p]) + BackTap(weight[..], cp, Tensor(gradOutput[..], gv), oW, e, i, r, p - rs, j, h)
    ensures forall p :: 0 <= p < gradInput.Length && !(rs <= p < rs + oW + cp.kW - 1) ==>
      gradInput[p] == old(gradInput[p])
  {
    ghost var g, ws, before := Tensor(gradOutput[..], gv), weight[..], gradInput[..];
    var W := oW + cp.kW - 1;
    var gs := gv.Offset(Ix(e, i, j, 0));
    forall p | rs <= p < rs + W
      ensures gradInput[p] == before[p] + TapsDone(ws, cp, g, oW, e, i, r, p - rs, j, h, 0)
    {
      TapsDoneNext(ws, cp, g, oW, e, i, r, p - rs, j, h, 0);
    }
    var k := 0;
    while k < cp.kW
      invariant 0 <= k <= cp.kW
      invariant forall p :: rs <= p < rs + W ==>
        gradInput[p] == before[p] + TapsDone(ws, cp, g, oW, e, i, r, p - rs, j, h, k)
      invariant forall p :: 0 <= p < gradInput.Length && !(rs <= p < rs + W) ==> gradInput[p] == before[p]
    {
      var c := weight[cp.WeightIndex(i, h, k)];
      ghost var mid := gradInput[..];
      AddScaled(gradInput, rs + k, gradOutput, gs, c, oW);
      forall p | rs <= p < rs + W
        ensures gradInput[p] == before[p] + TapsDone(ws, cp, g, oW, e, i, r, p - rs, j, h, k + 1)
      {
        TapsDoneNext(ws, cp, g, oW, e, i, r, p - rs, j, h, k);
        if rs + k <= p < rs + k + oW {
          assert Contrib(ws, cp, g, oW, e, i, r, p - rs, j, h, k) == c * gradOutput[gs + (p - (rs + k))];
        } else {
          assert Contrib(ws, cp, g, oW, e, i, r, p - rs, j, h, k) == 0.0;
          assert gradInput[p] == mid[p];
        }
      }
      k := k + 1;
    }
  }

  /** Cell (r, col) of the plane at ps lies in row t at ps + t * W exactly when r == t. */
  lemma SlotInRow(ps: int, H: int, W: int, t: int, r: int, col: int)
    requires 0 <= t < H && 0 <= r < H && 0 <= col < W
    ensures r == t ==> Slot(ps, H, W, r, col) == Slot(ps, H, W, t, 0) + col
    ensures r != t ==> !(Slot(ps, H, W, t, 0) <= Slot(ps, H, W, r, col) < Slot(ps, H, W, t, 0) + W)
  {
    if r < t {
      RowInBlock(t, W, r);
    } else if r > t {
      RowInBlock(r, W, t);
    }
  }

  /** Taps added to row j + h of the plane at ps, seen cell by cell over the
      whole plane: the other rows gain nothing. */
  lemma TapsInPlane(before: seq<real>, after: seq<real>, ps: int, H: int, W: int, rs: int,
                    w: seq<real>, cp: Conv, g: Tensor, oW: int, e: int, i: int, j: int, h: int)
    requires g.view.Ranked() && W == oW + cp.kW - 1 && W >= 1 && 0 <= j && 0 <= h && j + h < H
    requires rs == Slot(ps, H, W, j + h, 0) && 0 <= ps && ps + H * W <= |before| == |after|
    requires forall p :: rs <= p < rs + W ==>
      after[p] == before[p] + BackTap(w, cp, g, oW, e, i, j + h, p - rs, j, h)
    requires forall p :: 0 <= p < |after| && !(rs <= p < rs + W) ==> after[p] == before[p]
    ensures forall r, col :: 0 <= r < H && 0 <= col < W ==>
      after[Slot(ps, H, W, r, col)] == before[Slot(ps, H, W, r, col)] + BackTap(w, cp, g, oW, e, i, r, col, j, h)
  {
    forall r, col | 0 <= r < H && 0 <= col < W
      ensures after[Slot(ps, H, W, r, col)] == before[Slot(ps, H, W, r, col)] + BackTap(w, cp, g, oW, e, i, r, col, j, h)
    {
      SlotInRow(ps, H, W, j + h, r, col);
      if r == j + h {
        assert Slot(ps, H, W, r, col) - rs == col;
      } else {
        TapOffRow(w, cp, g, oW, e, i, r, col, j, h);
      }
    }
  }

  /** Iteration (j, h) seen on the whole H x W gradInput plane at ps: row j + h
      gets the taps of kernel row h, every other row gets nothing. */
  method BackTapsInPlane(gradInput: array<real>, ps: int, gradOutput: array<real>, gv: View, weight: array<real>,
                         cp: Conv, H: int, oW: int, e: int, i: int, j: int, h: int)
    requires cp.Valid() && gv.Ranked() && gradInput != gradOutput && gradInput != weight && oW >= 1
    requires 0 <= j && 0 <= h < cp.kH && j + cp.kH <= H
    requires 0 <= ps && ps + H * (oW + cp.kW - 1) <= gradInput.Length
    requires 0 <= gv.Offset(Ix(e, i, j, 0)) && gv.Offset(Ix(e, i, j, 0)) + oW <= gradOutput.Length
    requires forall k :: 0 <= k < cp.kW ==> 0 <= cp.WeightIndex(i, h, k) < weight.Length
    modifies gradInput
    ensures forall r, col :: 0 <= r < H && 0 <= col < oW + cp.kW - 1 ==>
      gradInput[Slot(ps, H, oW + cp.kW - 1, r, col)] == old(gradInput[Slot(ps, H, oW + cp.kW - 1, r, col)]) +
        BackTap(weight[..], cp, Tensor(gradOutput[..], gv), oW, e, i, r, col, j, h)
    ensures forall p :: 0 <= p < gradInput.Length && !(ps <= p < ps + H * (oW + cp.kW - 1)) ==>
      gradInput[p] == old(gradInput[p])
  {
    ghost var g, ws, before := Tensor(gradOutput[..], gv), weight[..], gradInput[..];
    var W := oW + cp.kW - 1;
    var rs := Slot(ps, H, W, j + h, 0);
    BackTaps(gradInput, rs, gradOutput, gv, weight, cp, oW, e, i, j, h, j + h);
    assert weight[..] == ws && Tensor(gradOutput[..], gv) == g;
    TapsInPlane(before, gradInput[..], ps, H, W, rs, ws, cp, g, oW, e, i, j, h);
  }

  /** The h loop of output row j: rows j .. j + kH - 1 of the contiguous H x W
      gradInput plane at ps each get one BackTaps. */
  method BackRows(gradInput: array<real>, ps: int, gradOutput: array<real>, gv: View, weight: array<real>,
                  cp: Conv, H: int, oW: int, e: int, i: int, j: int)
    requires cp.Valid() && gv.Ranked() && gradInput != gradOutput && gradInput != weight && oW >= 1
    requires 0 <= j && j + cp.kH <= H
    requires 0 <= ps && ps + H * (oW + cp.kW - 1) <= gradInput.Length
    requires 0 <= gv.Offset(Ix(e, i, j, 0)) && gv.Offset(Ix(e, i, j, 0)) + oW <= gradOutput.Length
    requires forall h, k :: 0 <= h < cp.kH && 0 <= k < cp.kW ==> 0 <= cp.WeightIndex(i, h, k) < weight.Length
    modifies gradInput
    ensures forall r, col :: 0 <= r < H && 0 <= col < oW + cp.kW - 1 ==>
      gradInput[Slot(ps, H, oW + cp.kW - 1, r, col)] == old(gradInput[Slot(ps, H, oW + cp.kW - 1, r, col)]) +
        BackRow(weight[..], cp, Tensor(gradOutput[..], gv), oW, e, i, r, col, j)
    ensures forall p :: 0 <= p < gradInput.Length && !(ps <= p < ps + H * (oW + cp.kW - 1)) ==>
      gradInput[p] == old(gradInput[p])
  {
    ghost var g, ws, before := Tensor(gradOutput[..], gv), weight[..], gradInput[..];
    var W := oW + cp.kW - 1;
    forall r, col | 0 <= r < H && 0 <= col < W
      ensures gradInput[Slot(ps, H, W, r, col)] == before[Slot(ps, H, W, r, col)] + RowsDone(ws, cp, g, oW, e, i, r, col, j, 0)
    {
      RowsDoneNext(ws, cp, g, oW, e, i, r, col, j, 0);
    }
    var h := 0;
    while h < cp.kH
      invariant 0 <= h <= cp.kH
      invariant forall r, col :: 0 <= r < H && 0 <= col < W ==>
        gradInput[Slot(ps, H, W, r, col)] == before[Slot(ps, H, W, r, col)] + RowsDone(ws, cp, g, oW, e, i, r, col, j, h)
      invariant forall p :: 0 <= p < gradInput.Length && !(ps <= p < ps + H * W) ==> gradInput[p] == before[p]
    {
      ghost var mid := gradInput[..];
      BackTapsInPlane(gradInput, ps, gradOutput, gv, weight, cp, H, oW, e, i, j, h);
      assert weight[..] == ws && Tensor(gradOutput[..], gv) == g;
      forall r, col | 0 <= r < H && 0 <= col < W
        ensures gradInput[Slot(ps, H, W, r, col)] == before[Slot(ps, H, W, r, col)] + RowsDone(ws, cp, g, oW, e, i, r, col, j, h + 1)
      {
        RowsDoneNext(ws, cp, g, oW, e, i, r, col, j, h);
        assert mid[Slot(ps, H, W, r, col)] == before[Slot(ps, H, W, r, col)] + RowsDone(ws, cp, g, oW, e, i, r, col, j, h);
      }
      h := h + 1;
    }
  }

  /** The j loop of gradOutput plane i (i < nOutputPlane): every output row
      scatters into the contiguous H x W gradInput plane at ps. */
  method BackPlane(gradInput: array<real>, ps: int, gradOutput: array<real>, gv: View, weight: array<real>,
                   cp: Conv, oH: int, oW: int, e: int, i: int)
    requires cp.Valid() && gv.Ranked() && gradInput != gradOutput && gradInput != weight && oH >= 1 && oW >= 1
    requires i < cp.nOutputPlane
    requires 0 <= ps && ps + (oH + cp.kH - 1) * (oW + cp.kW - 1) <= gradInput.Length
    requires forall j :: 0 <= j < oH ==>
      0 <= gv.Offset(Ix(e, i, j, 0)) && gv.Offset(Ix(e, i, j, 0)) + oW <= gradOutput.Length
    requires forall h, k :: 0 <= h < cp.kH && 0 <= k < cp.kW ==> 0 <= cp.WeightIndex(i, h, k) < weight.Length
    modifies gradInput
    ensures forall r, col :: 0 <= r < oH + cp.kH - 1 && 0 <= col < oW + cp.kW - 1 ==>
      gradInput[Slot(ps, oH + cp.kH - 1, oW + cp.kW - 1, r, col)] ==
      old(gradInput[Slot(ps, oH + cp.kH - 1, oW + cp.kW - 1, r, col)]) +
        GradInputAt(weight[..], cp, Tensor(gradOutput[..], gv), oH, oW, e, i, r, col)
    ensures forall p :: 0 <= p < gradInput.Length && !(ps <= p < ps + (oH + cp.kH - 1) * (oW + cp.kW - 1)) ==>
      gradInput[p] == old(gradInput[p])
  {
    ghost var g, ws, before := Tensor(gradOutput[..], gv), weight[..], gradInput[..];
    var H, W := oH + cp.kH - 1, oW + cp.kW - 1;
    forall r, col | 0 <= r < H && 0 <= col < W
      ensures gradInput[Slot(ps, H, W, r, col)] == before[Slot(ps, H, W, r, col)] + PlaneDone(ws, cp, g, oW, e, i, r, col, 0)
    {
      PlaneDoneNext(ws, cp, g, oW, e, i, r, col, 0);
    }
    var j := 0;
    while j < oH
      invariant 0 <= j <= oH
      invariant forall r, col :: 0 <= r < H && 0 <= col < W ==>
        gradInput[Slot(ps, H, W, r, col)] == before[Slot(ps, H, W, r, col)] + PlaneDone(ws, cp, g, oW, e, i, r, col, j)
      invariant forall p :: 0 <= p < gradInput.Length && !(ps <= p < ps + H * W) ==> gradInput[p] == before[p]
    {
      ghost var mid := gradInput[..];
      BackRows(gradInput, ps, gradOutput, gv, weight, cp, H, oW, e, i, j);
      assert weight[..] == ws && Tensor(gradOutput[..], gv) == g;
      forall r, col | 0 <= r < H && 0 <= col < W
        ensures gradInput[Slot(ps, H, W, r, col)] == before[Slot(ps, H, W, r, col)] + PlaneDone(ws, cp, g, oW, e, i, r, col, j + 1)
      {
        PlaneDoneNext(ws, cp, g, oW, e, i, r, col, j);
        assert mid[Slot(ps, H, W, r, col)] == before[Slot(ps, H, W, r, col)] + PlaneDone(ws, cp, g, oW, e, i, r, col, j);
      }
      j := j + 1;
    }
  }

  /** One batch element of updateGradInput: the plane loop over i < nOutputPlane,
      into the contiguous [P, H, W] gradInput block at es. Planes from
      nOutputPlane on receive nothing. */
  method BackwardSample(gradInput: array<real>, es: int, P: int, gradOutput: array<real>, gv: View,
                        weight: array<real>, cp: Conv, oH: int, oW: int, e: int)
    requires cp.Valid() && gv.Ranked() && gradInput != gradOutput && gradInput != weight && oH >= 1 && oW >= 1
    requires cp.nOutputPlane <= P
    requires 0 <= es && es + P * ((oH + cp.kH - 1) * (oW + cp.kW - 1)) <= gradInput.Length
    requires forall i, j :: 0 <= i < cp.nOutputPlane && 0 <= j < oH ==>
      0 <= gv.Offset(Ix(e, i, j, 0)) && gv.Offset(Ix(e, i, j, 0)) + oW <= gradOutput.Length
    requires forall i, h, k :: 0 <= i < cp.nOutputPlane && 0 <= h < cp.kH && 0 <= k < cp.kW ==>
      0 <= cp.WeightIndex(i, h, k) < weight.Length
    modifies gradInput
    ensures forall i, r, col :: 0 <= i < P && 0 <= r < oH + cp.kH - 1 && 0 <= col < oW + cp.kW - 1 ==>
      gradInput[PlaneCell(es, P, oH + cp.kH - 1, oW + cp.kW - 1, i, r, col)] ==
      old(gradInput[PlaneCell(es, P, oH + cp.kH - 1, oW + cp.kW - 1, i, r, col)]) +
        GradInputAt(weight[..], cp, Tensor(gradOutput[..], gv), oH, oW, e, i, r, col)
    ensures forall p :: 0 <= p < gradInput.Length && !(es <= p < es + P * ((oH + cp.kH - 1) * (oW + cp.kW - 1))) ==>
      gradInput[p] == old(gradInput[p])
  {
    ghost var g, ws, before := Tensor(gradOutput[..], gv), weight[..], gradInput[..];
    var H, W := oH + cp.kH - 1, oW + cp.kW - 1;
    var n := H * W;
    MulAtLeast(W, H);
    var i := 0;
    while i < cp.nOutputPlane
      invariant 0 <= i <= cp.nOutputPlane
      invariant forall ii, r, col :: 0 <= ii < P && 0 <= r < H && 0 <= col < W ==>
        gradInput[PlaneCell(es, P, H, W, ii, r, col)] == before[PlaneCell(es, P, H, W, ii, r, col)] +
          (if ii < i then GradInputAt(ws, cp, g, oH, oW, e, ii, r, col) else 0.0)
      invariant forall p :: 0 <= p < gradInput.Length && !(es <= p < es + P * n) ==> gradInput[p] == before[p]
    {
      var ps := Slot(es, P, n, i, 0);
      ghost var mid := gradInput[..];
      BackPlane(gradInput, ps, gradOutput, gv, weight, cp, oH, oW, e, i);
      assert weight[..] == ws && Tensor(gradOutput[..], gv) == g;
      forall ii, r, col | 0 <= ii < P && 0 <= r < H && 0 <= col < W
        ensures gradInput[PlaneCell(es, P, H, W, ii, r, col)] == before[PlaneCell(es, P, H, W, ii, r, col)] +
          (if ii < i + 1 then GradInputAt(ws, cp, g, oH, oW, e, ii, r, col) else 0.0)
      {
        var q := PlaneCell(es, P, H, W, ii, r, col);
        if ii == i {
          assert q == Slot(ps, H, W, r, col);
        } else {
          assert !(ps <= q < ps + n) by {
            if ii < i {
              RowInBlock(i, n, ii);
            } else {
              RowInBlock(ii, n, i);
            }
          }
        }
      }
      i := i + 1;
    }
    forall ii, r, col | 0 <= ii < P && 0 <= r < H && 0 <= col < W
      ensures gradInput[PlaneCell(es, P, H, W, ii, r, col)] ==
        before[PlaneCell(es, P, H, W, ii, r, col)] + GradInputAt(ws, cp, g, oH, oW, e, ii, r, col)
    {
    }
  }
}
