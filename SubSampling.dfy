/** SpatialSubSamplingPeriodic: decimation of the two trailing dimensions. */
module SubSampling {
  import opened Strided
  import opened Sums

  /** The index mapping shared by both passes: the trailing dimension is x
      (stride dW, offset iW), the one before it is y (stride dH, offset iH). */
  datatype Params = Params(dW: int, dH: int, iW: int, iH: int)

  /** Forward: the input index read for output index a
      (iin[xDim] = x*dW + iW, iin[yDim] = y*dH + iH). It is the cell the
      backward pass routes a's gradient to exactly when there is no
      horizontal offset. */
  function Source(rank: int, a: Ix, p: Params): (r: Ix)
    ensures r == Target(rank, a, p) <==> p.iW == 0
  {
    if rank > 3 then Ix(a.i0, a.i1, a.i2 * p.dH + p.iH, a.i3 * p.dW + p.iW)
    else Ix(a.i0, a.i1 * p.dH + p.iH, a.i2 * p.dW + p.iW, a.i3)
  }

  /** Backward: the gradInput index that gradOutput index a is added into
      (iin[xDim] = dW*x - iW, iin[yDim] = dH*y + iH: note the minus sign on x). */
  function Target(rank: int, a: Ix, p: Params): Ix {
    if rank > 3 then Ix(a.i0, a.i1, p.dH * a.i2 + p.iH, p.dW * a.i3 - p.iW)
    else Ix(a.i0, p.dH * a.i1 + p.iH, p.dW * a.i2 - p.iW, a.i3)
  }

  /** The only gradOutput index that can have b as its target. */
  function Preimage(rank: int, b: Ix, p: Params): Ix
    requires p.dW >= 1 && p.dH >= 1
  {
    if rank > 3 then Ix(b.i0, b.i1, (b.i2 - p.iH) / p.dH, (b.i3 + p.iW) / p.dW)
    else Ix(b.i0, (b.i1 - p.iH) / p.dH, (b.i2 + p.iW) / p.dW, b.i3)
  }

  /** Forward result: the decimated element. */
  function OutputAt(x: Tensor, p: Params, a: Ix): (v: real)
    requires x.view.Ranked()
    ensures p == Params(1, 1, 0, 0) ==> v == x.At(a)
  {
    x.At(Source(|x.view.sizes|, a, p))
  }

  /** Backward result, in closed form: the gradOutput value whose target is b,
      and 0 where no gradOutput index targets b. */
  function GradInputAt(g: Tensor, rank: int, p: Params, b: Ix): (v: real)
    requires g.view.Ranked() && p.dW >= 1 && p.dH >= 1
    ensures v != 0.0 ==>
      g.view.InRange(Preimage(rank, b, p)) && Target(rank, Preimage(rank, b, p), p) == b
  {
    var a := Preimage(rank, b, p);
    if Hit(rank, b, p) && g.view.InRange(a) then
      TargetOfPreimage(rank, b, p);
      g.At(a)
    else 0.0
  }

  /** b lies on the backward lattice: its y index is iH plus a multiple of dH
      and its x index is a multiple of dW minus iW. */
  predicate Hit(rank: int, b: Ix, p: Params)
    requires p.dW >= 1 && p.dH >= 1
  {
    if rank > 3 then (b.i2 - p.iH) % p.dH == 0 && (b.i3 + p.iW) % p.dW == 0
    else (b.i1 - p.iH) % p.dH == 0 && (b.i2 + p.iW) % p.dW == 0
  }

  /** For positive strides, every target lies on the lattice and Preimage
      recovers the gradOutput index from it. */
  lemma PreimageOfTarget(rank: int, a: Ix, p: Params)
    requires p.dW >= 1 && p.dH >= 1
    ensures Hit(rank, Target(rank, a, p), p)
    ensures Preimage(rank, Target(rank, a, p), p) == a
  {
    MulDiv(p.dH, if rank > 3 then a.i2 else a.i1);
    MulDiv(p.dW, if rank > 3 then a.i3 else a.i2);
  }

  /** Conversely, a lattice point is the target of its preimage. */
  lemma TargetOfPreimage(rank: int, b: Ix, p: Params)
    requires p.dW >= 1 && p.dH >= 1
    requires Hit(rank, b, p)
    ensures Target(rank, Preimage(rank, b, p), p) == b
  {
  }

  /** Each gradInput cell hit by some gradOutput index holds exactly that one
      value: two indices with the same target are equal. */
  lemma TargetInjective(rank: int, a: Ix, a': Ix, p: Params)
    requires p.dW >= 1 && p.dH >= 1
    requires Target(rank, a, p) == Target(rank, a', p)
    ensures a == a'
  {
    PreimageOfTarget(rank, a, p);
    PreimageOfTarget(rank, a', p);
  }

  /** A gradOutput cell lands, unchanged, in the gradInput cell it targets. */
  lemma TargetedValue(g: Tensor, rank: int, p: Params, a: Ix)
    requires g.view.Ranked() && p.dW >= 1 && p.dH >= 1
    requires g.view.InRange(a)
    ensures GradInputAt(g, rank, p, Target(rank, a, p)) == g.At(a)
  {
    PreimageOfTarget(rank, a, p);
  }

  /** A gradInput cell that no gradOutput index targets stays 0. */
  lemma UntargetedZero(g: Tensor, rank: int, p: Params, b: Ix)
    requires g.view.Ranked() && p.dW >= 1 && p.dH >= 1
    requires forall a :: g.view.InRange(a) ==> Target(rank, a, p) != b
    ensures GradInputAt(g, rank, p, b) == 0.0
  {
    if Hit(rank, b, p) && g.view.InRange(Preimage(rank, b, p)) {
      TargetOfPreimage(rank, b, p);
      assert false;
    }
  }

  /** The backward lattice as a separable map from gradOutput indices to
      gradInput indices: identity on the leading dimensions. */
  function Lattice(rank: int, p: Params): (M: Map4)
    ensures forall a :: M.App(a) == Target(rank, a, p)
  {
    if rank > 3 then Map4(Affine(1, 0), Affine(1, 0), Affine(p.dH, p.iH), Affine(p.dW, -p.iW))
    else Map4(Affine(1, 0), Affine(p.dH, p.iH), Affine(p.dW, -p.iW), Affine(1, 0))
  }

  /** A term of the inner product <updateGradInput(g), x>. */
  function BackwardTerm(g: Tensor, x: Tensor, p: Params, b: Ix): real
    requires g.view.Ranked() && x.view.Ranked() && p.dW >= 1 && p.dH >= 1
  {
    GradInputAt(g, |x.view.sizes|, p, b) * x.At(b)
  }

  /** A term of the inner product <g, updateOutput(x)>. */
  function ForwardTerm(g: Tensor, x: Tensor, p: Params, a: Ix): real
    requires g.view.Ranked() && x.view.Ranked()
  {
    g.At(a) * OutputAt(x, p, a)
  }

  /** With no horizontal offset the backward pass is the adjoint of the
      forward pass: for every gradOutput g and input x,
      <updateGradInput(g), x> == <g, updateOutput(x)>. */
  lemma Adjoint(g: Tensor, x: Tensor, p: Params)
    requires g.view.Ranked() && x.view.Ranked() && |g.view.sizes| == |x.view.sizes|
    requires p.dW >= 1 && p.dH >= 1 && p.iW == 0
    requires forall a {:trigger Target(|x.view.sizes|, a, p)} ::
      g.view.InRange(a) ==> x.view.InRange(Target(|x.view.sizes|, a, p))
    ensures Sum4(Box(x.view), b => BackwardTerm(g, x, p, b)) ==
            Sum4(Box(g.view), a => ForwardTerm(g, x, p, a))
  {
    var M := Lattice(|x.view.sizes|, p);
    var Psi := a => ForwardTerm(g, x, p, a);
    AdjointScatter(g, x, p);
    forall a | InBox(Box(g.view), a) ensures InBox(Box(x.view), M.App(a)) {
      assert x.view.InRange(Target(|x.view.sizes|, a, p));
    }
    Reindex4(Box(x.view), Box(g.view), M, Psi);
  }

  /** The left-hand side of Adjoint as the scattered form that Reindex4 sums. */
  lemma AdjointScatter(g: Tensor, x: Tensor, p: Params)
    requires g.view.Ranked() && x.view.Ranked() && |g.view.sizes| == |x.view.sizes|
    requires p.dW >= 1 && p.dH >= 1 && p.iW == 0
    ensures var M, n := Lattice(|x.view.sizes|, p), Box(g.view);
      Sum4(Box(x.view), b => BackwardTerm(g, x, p, b)) ==
      Sum4(Box(x.view), b => if M.Hit(b, n) then (a => ForwardTerm(g, x, p, a))(M.Pre(b)) else 0.0)
  {
    var M, n := Lattice(|x.view.sizes|, p), Box(g.view);
    var Psi := a => ForwardTerm(g, x, p, a);
    var f := b => BackwardTerm(g, x, p, b);
    var h := b => if M.Hit(b, n) then Psi(M.Pre(b)) else 0.0;
    forall b | InBox(Box(x.view), b) ensures f(b) == h(b) {
      AdjointTerm(g, x, p, b);
    }
    Sum4Ext(Box(x.view), f, h);
  }

  /** One term of Adjoint: a gradInput cell is nonzero only on the lattice,
      where it pairs its gradOutput value with the input cell the forward
      pass reads for it. */
  lemma AdjointTerm(g: Tensor, x: Tensor, p: Params, b: Ix)
    requires g.view.Ranked() && x.view.Ranked() && |g.view.sizes| == |x.view.sizes|
    requires p.dW >= 1 && p.dH >= 1 && p.iW == 0
    ensures var M := Lattice(|x.view.sizes|, p);
      BackwardTerm(g, x, p, b) ==
      if M.Hit(b, Box(g.view)) then ForwardTerm(g, x, p, M.Pre(b)) else 0.0
  {
    var rank, M := |x.view.sizes|, Lattice(|x.view.sizes|, p);
    var n := Box(g.view);
    assert M.Pre(b) == Preimage(rank, b, p) &&
      (M.Hit(b, n) <==> Hit(rank, b, p) && g.view.InRange(Preimage(rank, b, p))) by {
      if rank > 3 {
        UnitAffine(b.i0, n.i0);
        UnitAffine(b.i1, n.i1);
      } else {
        UnitAffine(b.i0, n.i0);
        UnitAffine(b.i3, n.i3);
      }
    }
    if M.Hit(b, n) {
      TargetOfPreimage(rank, b, p);
      assert GradInputAt(g, rank, p, b) == g.At(M.Pre(b));
      assert x.At(b) == OutputAt(x, p, M.Pre(b));
    } else {
      assert GradInputAt(g, rank, p, b) == 0.0;
    }
  }

  /** SpatialSubSamplingPeriodic_updateOutput. The output is pre-sized by the
      caller; every index of it is visited once, the fourth loop having
      extent 1 for rank 3. */
  method UpdateOutput(input: array<real>, iv: View, output: array<real>, ov: View, p: Params)
    requires iv.Ranked() && ov.Ranked() && |iv.sizes| == |ov.sizes|
    requires input != output
    requires iv.Fits(input.Length) && ov.Fits(output.Length)
    requires forall a :: ov.InRange(a) ==> iv.InRange(Source(|iv.sizes|, a, p))
    modifies output
    ensures ov.Injective() ==>
      forall a :: ov.InRange(a) ==> output[ov.Offset(a)] == OutputAt(Tensor(input[..], iv), p, a)
    ensures forall q :: 0 <= q < output.Length && ov.Untouched(q) ==> output[q] == old(output[q])
  {
    ghost var x := Tensor(input[..], iv);
    var rank := |iv.sizes|;
    var n0, n1, n2, n3 := ov.sizes[0], ov.sizes[1], ov.sizes[2], ov.Extent3();
    var i0 := 0;
    while i0 < n0
      invariant 0 <= i0
      invariant ov.Injective() ==> forall a :: ov.InRange(a) && Lt(a, Ix(i0, 0, 0, 0)) ==> output[ov.Offset(a)] == OutputAt(x, p, a)
      invariant forall q :: 0 <= q < output.Length && ov.Untouched(q) ==> output[q] == old(output[q])
    {
      var i1 := 0;
      while i1 < n1
        invariant 0 <= i1
        invariant ov.Injective() ==> forall a :: ov.InRange(a) && Lt(a, Ix(i0, i1, 0, 0)) ==> output[ov.Offset(a)] == OutputAt(x, p, a)
        invariant forall q :: 0 <= q < output.Length && ov.Untouched(q) ==> output[q] == old(output[q])
      {
        var i2 := 0;
        while i2 < n2
          invariant 0 <= i2
          invariant ov.Injective() ==> forall a :: ov.InRange(a) && Lt(a, Ix(i0, i1, i2, 0)) ==> output[ov.Offset(a)] == OutputAt(x, p, a)
          invariant forall q :: 0 <= q < output.Length && ov.Untouched(q) ==> output[q] == old(output[q])
        {
          var i3 := 0;
          while i3 < n3
            invariant 0 <= i3
            invariant ov.Injective() ==> forall a :: ov.InRange(a) && Lt(a, Ix(i0, i1, i2, i3)) ==> output[ov.Offset(a)] == OutputAt(x, p, a)
            invariant forall q :: 0 <= q < output.Length && ov.Untouched(q) ==> output[q] == old(output[q])
          {
            var c := Ix(i0, i1, i2, i3);
            assert ov.InRange(c);
            var src := Source(rank, c, p);
            assert iv.InRange(src);
            output[ov.Offset(c)] := input[iv.Offset(src)];
            i3 := i3 + 1;
          }
          i2 := i2 + 1;
        }
        i1 := i1 + 1;
      }
      i0 := i0 + 1;
    }
  }

  /** SpatialSubSamplingPeriodic_updateGradInput: zero gradInput, then add
      every gradOutput element into its target cell. */
  method UpdateGradInput(gradInput: array<real>, gv: View, gradOutput: array<real>, gov: View, p: Params)
    requires gv.Ranked() && gov.Ranked() && |gv.sizes| == |gov.sizes|
    requires gradInput != gradOutput
    requires gv.Fits(gradInput.Length) && gov.Fits(gradOutput.Length)
    requires forall a {:trigger Target(|gv.sizes|, a, p)} :: gov.InRange(a) ==> gv.InRange(Target(|gv.sizes|, a, p))
    modifies gradInput
    ensures gv.Injective() && p.dW >= 1 && p.dH >= 1 ==>
      forall b :: gv.InRange(b) ==>
        gradInput[gv.Offset(b)] == GradInputAt(Tensor(gradOutput[..], gov), |gv.sizes|, p, b)
    ensures forall q :: 0 <= q < gradInput.Length && gv.Untouched(q) ==> gradInput[q] == old(gradInput[q])
  {
    ghost var g := Tensor(gradOutput[..], gov);
    var rank := |gv.sizes|;
    Zero(gradInput, gv);
    ghost var exact := gv.Injective() && p.dW >= 1 && p.dH >= 1;
    ghost var before := old(gradInput[..]);
    var n0, n1, n2 := gov.sizes[0], gov.sizes[1], gov.sizes[2];
    var i0 := 0;
    while i0 < n0
      invariant 0 <= i0
      invariant exact ==> ScatteredUpTo(gradInput, gv, g, rank, p, Ix(i0, 0, 0, 0))
      invariant KeepsOutside(gradInput, gv, before)
    {
      var i1 := 0;
      while i1 < n1
        invariant 0 <= i1
        invariant exact ==> ScatteredUpTo(gradInput, gv, g, rank, p, Ix(i0, i1, 0, 0))
        invariant KeepsOutside(gradInput, gv, before)
      {
        ScatterRows(gradInput, gv, gradOutput, gov, p, i0, i1, exact, before);
        Carry(gradInput, gv, g, rank, p, exact, Ix(i0, i1, n2, 0), Ix(i0, i1 + 1, 0, 0));
        i1 := i1 + 1;
      }
      Carry(gradInput, gv, g, rank, p, exact, Ix(i0, i1, 0, 0), Ix(i0 + 1, 0, 0, 0));
      i0 := i0 + 1;
    }
    if exact {
      forall b | gv.InRange(b)
        ensures gradInput[gv.Offset(b)] == GradInputAt(g, rank, p, b)
      {
        assert gradInput[gv.Offset(b)] == Partial(g, rank, p, b, Ix(i0, 0, 0, 0));
      }
    }
  }

  /** The two inner loops of the backward scatter, for fixed i0 and i1. */
  method ScatterRows(gradInput: array<real>, gv: View, gradOutput: array<real>, gov: View, p: Params,
                     i0: int, i1: int, ghost exact: bool, ghost before: seq<real>)
    requires gv.Ranked() && gov.Ranked() && |gv.sizes| == |gov.sizes|
    requires gradInput != gradOutput
    requires gv.Fits(gradInput.Length) && gov.Fits(gradOutput.Length)
    requires forall a {:trigger Target(|gv.sizes|, a, p)} :: gov.InRange(a) ==> gv.InRange(Target(|gv.sizes|, a, p))
    requires 0 <= i0 < gov.sizes[0] && 0 <= i1 < gov.sizes[1]
    requires exact ==> gv.Injective() && p.dW >= 1 && p.dH >= 1
    requires exact ==> ScatteredUpTo(gradInput, gv, Tensor(gradOutput[..], gov), |gv.sizes|, p, Ix(i0, i1, 0, 0))
    requires KeepsOutside(gradInput, gv, before)
    modifies gradInput
    ensures exact ==> ScatteredUpTo(gradInput, gv, Tensor(gradOutput[..], gov), |gv.sizes|, p, Ix(i0, i1, gov.sizes[2], 0))
    ensures KeepsOutside(gradInput, gv, before)
  {
    ghost var g := Tensor(gradOutput[..], gov);
    var rank := |gv.sizes|;
    var n2, n3 := gov.sizes[2], gov.Extent3();
    var i2 := 0;
    while i2 < n2
      invariant 0 <= i2
      invariant exact ==> ScatteredUpTo(gradInput, gv, g, rank, p, Ix(i0, i1, i2, 0))
      invariant KeepsOutside(gradInput, gv, before)
    {
      var i3 := 0;
      while i3 < n3
        invariant 0 <= i3
        invariant exact ==> ScatteredUpTo(gradInput, gv, g, rank, p, Ix(i0, i1, i2, i3))
        invariant KeepsOutside(gradInput, gv, before)
      {
        AddInto(gradInput, gv, gradOutput, gov, p, Ix(i0, i1, i2, i3), exact, before);
        i3 := i3 + 1;
      }
      Carry(gradInput, gv, g, rank, p, exact, Ix(i0, i1, i2, i3), Ix(i0, i1, i2 + 1, 0));
      i2 := i2 + 1;
    }
    Carry(gradInput, gv, g, rank, p, exact, Ix(i0, i1, i2, 0), Ix(i0, i1, n2, 0));
  }

  /** Moving the loop position from c to c' when no gradOutput index lies
      between them leaves every Partial value as it was. */
  lemma Carry(gradInput: array<real>, gv: View, g: Tensor, rank: int, p: Params, exact: bool, c: Ix, c': Ix)
    requires gv.Ranked() && g.view.Ranked() && gv.Fits(gradInput.Length)
    requires exact ==> p.dW >= 1 && p.dH >= 1
    requires forall a :: g.view.InRange(a) ==> (Lt(a, c) <==> Lt(a, c'))
    requires exact ==> ScatteredUpTo(gradInput, gv, g, rank, p, c)
    ensures exact ==> ScatteredUpTo(gradInput, gv, g, rank, p, c')
  {
  }

  /** One step of the backward scatter: gradInput[target of c] += gradOutput[c]. */
  method AddInto(gradInput: array<real>, gv: View, gradOutput: array<real>, gov: View, p: Params, c: Ix, ghost exact: bool, ghost before: seq<real>)
    requires gv.Ranked() && gov.Ranked() && |gv.sizes| == |gov.sizes|
    requires gradInput != gradOutput
    requires gv.Fits(gradInput.Length) && gov.Fits(gradOutput.Length)
    requires gov.InRange(c) && gv.InRange(Target(|gv.sizes|, c, p))
    requires exact ==> gv.Injective() && p.dW >= 1 && p.dH >= 1
    requires exact ==> ScatteredUpTo(gradInput, gv, Tensor(gradOutput[..], gov), |gv.sizes|, p, c)
    requires KeepsOutside(gradInput, gv, before)
    modifies gradInput
    ensures exact ==> ScatteredUpTo(gradInput, gv, Tensor(gradOutput[..], gov), |gv.sizes|, p, Ix(c.i0, c.i1, c.i2, c.i3 + 1))
    ensures KeepsOutside(gradInput, gv, before)
  {
    var rank := |gv.sizes|;
    ghost var g := Tensor(gradOutput[..], gov);
    var dst := Target(rank, c, p);
    ghost var prev := gradInput[..];
    gradInput[gv.Offset(dst)] := gradInput[gv.Offset(dst)] + gradOutput[gov.Offset(c)];
    assert KeepsOutside(gradInput, gv, before) by {
      forall q | 0 <= q < gradInput.Length && gv.Untouched(q)
        ensures gradInput[q] == before[q]
      {
        assert q != gv.Offset(dst);
        assert gradInput[q] == prev[q];
      }
    }
    if exact {
      forall b | gv.InRange(b)
        ensures gradInput[gv.Offset(b)] == Partial(g, rank, p, b, Ix(c.i0, c.i1, c.i2, c.i3 + 1))
      {
        PartialStep(g, rank, p, b, c);
        if b != dst {
          assert gv.Offset(b) != gv.Offset(dst);
          assert gradInput[gv.Offset(b)] == prev[gv.Offset(b)];
        }
      }
    }
  }

  /** gradInput cell b once the gradOutput indices before c have been added. */
  ghost function Partial(g: Tensor, rank: int, p: Params, b: Ix, c: Ix): real
    requires g.view.Ranked() && p.dW >= 1 && p.dH >= 1
  {
    var a := Preimage(rank, b, p);
    if Hit(rank, b, p) && g.view.InRange(a) && Lt(a, c) then g.At(a) else 0.0
  }

  /** Adding the gradOutput element at c moves Partial past c. */
  lemma PartialStep(g: Tensor, rank: int, p: Params, b: Ix, c: Ix)
    requires g.view.Ranked() && p.dW >= 1 && p.dH >= 1
    requires g.view.InRange(c)
    ensures Partial(g, rank, p, b, Ix(c.i0, c.i1, c.i2, c.i3 + 1)) ==
      Partial(g, rank, p, b, c) + (if Target(rank, c, p) == b then g.At(c) else 0.0)
  {
    PreimageOfTarget(rank, c, p);
    if Hit(rank, b, p) {
      TargetOfPreimage(rank, b, p);
    }
  }

  /** Every gradInput cell holds the sum of the gradOutput elements before c
      that target it. */
  ghost predicate ScatteredUpTo(gradInput: array<real>, gv: View, g: Tensor, rank: int, p: Params, c: Ix)
    reads gradInput
    requires gv.Ranked() && g.view.Ranked() && gv.Fits(gradInput.Length) && p.dW >= 1 && p.dH >= 1
  {
    forall b :: gv.InRange(b) ==> gradInput[gv.Offset(b)] == Partial(g, rank, p, b, c)
  }
}
