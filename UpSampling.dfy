/** SpatialUpSamplingPeriodic: zero insertion on the two trailing dimensions. */
module UpSampling {
  import opened Strided
  import SubSampling
  import opened Sums

  /** Both trailing indices of a are multiples of the scale factor s. */
  predicate Divisible(rank: int, a: Ix, s: int)
    requires s >= 1
  {
    if rank > 3 then a.i2 % s == 0 && a.i3 % s == 0
    else a.i1 % s == 0 && a.i2 % s == 0
  }

  /** Forward: the input index copied into output index a (trailing indices divided by s). */
  function Source(rank: int, a: Ix, s: int): Ix
    requires s >= 1
  {
    if rank > 3 then Ix(a.i0, a.i1, a.i2 / s, a.i3 / s)
    else Ix(a.i0, a.i1 / s, a.i2 / s, a.i3)
  }

  /** Backward: the gradOutput index gathered into gradInput index a (trailing indices times s). */
  function BackSource(rank: int, a: Ix, s: int): Ix {
    if rank > 3 then Ix(a.i0, a.i1, s * a.i2, s * a.i3)
    else Ix(a.i0, s * a.i1, s * a.i2, a.i3)
  }

  /** The cell the zero branch writes: the offset is computed without the
      i3 * stride[3] term, so for rank 4 it is the cell with last index 0. */
  function ZeroCell(a: Ix): Ix {
    Ix(a.i0, a.i1, a.i2, 0)
  }

  /** The forward result at output index a, as the loops leave it, where n3 is
      the extent of the last loop and prior is the cell's value before the call.
      A cell with last index 0 ends as a copy only if no later index of its row
      took the zero branch (s == 1 or a row of one); any other cell is copied
      when divisible and otherwise keeps its prior value. For rank 3 (n3 == 1,
      a.i3 == 0) this is: a copy when divisible, else 0. With s == 1 every
      cell is a copy. */
  function OutputAt(x: Tensor, s: int, n3: int, prior: real, a: Ix): (v: real)
    requires x.view.Ranked() && s >= 1
    ensures s == 1 ==> v == x.At(a)
  {
    var rank := |x.view.sizes|;
    if a.i3 == 0 then
      (if Divisible(rank, a, s) && (s == 1 || n3 <= 1) then x.At(Source(rank, a, s)) else 0.0)
    else if Divisible(rank, a, s) then x.At(Source(rank, a, s))
    else prior
  }

  /** The value of output cell a once the loops have passed every index
      before c. */
  ghost function Partial(x: Tensor, s: int, n3: int, prior: real, a: Ix, c: Ix): real
    requires x.view.Ranked() && s >= 1
  {
    var rank := |x.view.sizes|;
    if a.i3 == 0 then
      var k := RowDone(a, c, n3);
      if k <= 0 then prior
      else if Divisible(rank, a, s) && (s == 1 || k <= 1) then x.At(Source(rank, a, s))
      else 0.0
    else if Lt(a, c) then
      (if Divisible(rank, a, s) then x.At(Source(rank, a, s)) else prior)
    else prior
  }

  /** Once the loops have passed a's whole batch element, a holds its final value. */
  lemma PartialDone(x: Tensor, s: int, n3: int, prior: real, a: Ix, c: Ix)
    requires x.view.Ranked() && s >= 1 && 0 <= a.i3 < n3
    requires a.i0 < c.i0 && c.i1 == 0 && c.i2 == 0 && c.i3 == 0
    ensures Partial(x, s, n3, prior, a, c) == OutputAt(x, s, n3, prior, a)
  {
    assert Lt(ZeroCell(a), ZeroCell(c)) && Lt(a, c);
  }

  /** How many iterations of a's row (whose ZeroCell is a's) lie before c. */
  function RowDone(a: Ix, c: Ix, n3: int): int {
    if Lt(ZeroCell(a), ZeroCell(c)) then n3 else if ZeroCell(a) == ZeroCell(c) then c.i3 else 0
  }

  ghost predicate WrittenUpTo(output: array<real>, ov: View, x: Tensor, s: int, before: seq<real>, c: Ix)
    reads output
    requires ov.Ranked() && x.view.Ranked() && s >= 1 && ov.Fits(output.Length)
    requires |before| == output.Length
  {
    forall a :: ov.InRange(a) ==>
      output[ov.Offset(a)] == Partial(x, s, ov.Extent3(), before[ov.Offset(a)], a, c)
  }

  /** A positive multiple of s is at least s. */
  lemma ModPositive(t: int, s: int)
    requires s >= 1 && t > 0 && t % s == 0
    ensures t >= s
  {
  }

  /** SpatialUpSamplingPeriodic_updateOutput: every output index is visited;
      a non-divisible index writes 0 to its ZeroCell, a divisible one copies
      the input element at the divided index. */
  method UpdateOutput(input: array<real>, iv: View, output: array<real>, ov: View, s: int)
    requires iv.Ranked() && ov.Ranked() && |iv.sizes| == |ov.sizes|
    requires input != output && s >= 1
    requires iv.Fits(input.Length) && ov.Fits(output.Length)
    requires forall a {:trigger Source(|iv.sizes|, a, s)} ::
      ov.InRange(a) && Divisible(|iv.sizes|, a, s) ==> iv.InRange(Source(|iv.sizes|, a, s))
    modifies output
    ensures ov.Injective() ==> forall a :: ov.InRange(a) ==>
      output[ov.Offset(a)] == OutputAt(Tensor(input[..], iv), s, ov.Extent3(), old(output[ov.Offset(a)]), a)
    ensures forall q :: 0 <= q < output.Length && ov.Untouched(q) ==> output[q] == old(output[q])
  {
    ghost var x := Tensor(input[..], iv);
    ghost var exact := ov.Injective();
    ghost var before := output[..];
    var n0, n1, n2 := ov.sizes[0], ov.sizes[1], ov.sizes[2];
    assert exact ==> WrittenUpTo(output, ov, x, s, before, Ix(0, 0, 0, 0));
    var i0 := 0;
    while i0 < n0
      invariant 0 <= i0
      invariant exact ==> WrittenUpTo(output, ov, x, s, before, Ix(i0, 0, 0, 0))
      invariant KeepsOutside(output, ov, before)
    {
      var i1 := 0;
      while i1 < n1
        invariant 0 <= i1
        invariant exact ==> WrittenUpTo(output, ov, x, s, before, Ix(i0, i1, 0, 0))
        invariant KeepsOutside(output, ov, before)
      {
        UpsampleRows(input, iv, output, ov, s, i0, i1, exact, before);
        Carry(output, ov, x, s, before, exact, Ix(i0, i1, n2, 0), Ix(i0, i1 + 1, 0, 0));
        i1 := i1 + 1;
      }
      Carry(output, ov, x, s, before, exact, Ix(i0, i1, 0, 0), Ix(i0 + 1, 0, 0, 0));
      i0 := i0 + 1;
    }
    if exact {
      forall a | ov.InRange(a)
        ensures output[ov.Offset(a)] == OutputAt(x, s, ov.Extent3(), before[ov.Offset(a)], a)
      {
        assert output[ov.Offset(a)] == Partial(x, s, ov.Extent3(), before[ov.Offset(a)], a, Ix(i0, 0, 0, 0));
        PartialDone(x, s, ov.Extent3(), before[ov.Offset(a)], a, Ix(i0, 0, 0, 0));
      }
    }
  }

  /** The two inner loops of the forward pass, for fixed i0 and i1. */
  method UpsampleRows(input: array<real>, iv: View, output: array<real>, ov: View, s: int,
                      i0: int, i1: int, ghost exact: bool, ghost before: seq<real>)
    requires iv.Ranked() && ov.Ranked() && |iv.sizes| == |ov.sizes|
    requires input != output && s >= 1
    requires iv.Fits(input.Length) && ov.Fits(output.Length)
    requires forall a {:trigger Source(|iv.sizes|, a, s)} ::
      ov.InRange(a) && Divisible(|iv.sizes|, a, s) ==> iv.InRange(Source(|iv.sizes|, a, s))
    requires 0 <= i0 < ov.sizes[0] && 0 <= i1 < ov.sizes[1]
    requires exact ==> ov.Injective()
    requires KeepsOutside(output, ov, before)
    requires exact ==> WrittenUpTo(output, ov, Tensor(input[..], iv), s, before, Ix(i0, i1, 0, 0))
    modifies output
    ensures KeepsOutside(output, ov, before)
    ensures exact ==> WrittenUpTo(output, ov, Tensor(input[..], iv), s, before, Ix(i0, i1, ov.sizes[2], 0))
  {
    ghost var x := Tensor(input[..], iv);
    var n2, n3 := ov.sizes[2], ov.Extent3();
    var i2 := 0;
    while i2 < n2
      invariant 0 <= i2
      invariant exact ==> WrittenUpTo(output, ov, x, s, before, Ix(i0, i1, i2, 0))
      invariant KeepsOutside(output, ov, before)
    {
      var i3 := 0;
      while i3 < n3
        invariant 0 <= i3 && (n3 >= 0 ==> i3 <= n3)
        invariant exact ==> WrittenUpTo(output, ov, x, s, before, Ix(i0, i1, i2, i3))
        invariant KeepsOutside(output, ov, before)
      {
        UpsampleOne(input, iv, output, ov, s, Ix(i0, i1, i2, i3), exact, before);
        i3 := i3 + 1;
      }
      Carry(output, ov, x, s, before, exact, Ix(i0, i1, i2, i3), Ix(i0, i1, i2 + 1, 0));
      i2 := i2 + 1;
    }
    Carry(output, ov, x, s, before, exact, Ix(i0, i1, i2, 0), Ix(i0, i1, n2, 0));
  }

  /** One iteration of the forward loop body. */
  method UpsampleOne(input: array<real>, iv: View, output: array<real>, ov: View, s: int, c: Ix,
                     ghost exact: bool, ghost before: seq<real>)
    requires iv.Ranked() && ov.Ranked() && |iv.sizes| == |ov.sizes|
    requires input != output && s >= 1
    requires iv.Fits(input.Length) && ov.Fits(output.Length)
    requires ov.InRange(c)
    requires Divisible(|iv.sizes|, c, s) ==> iv.InRange(Source(|iv.sizes|, c, s))
    requires exact ==> ov.Injective()
    requires KeepsOutside(output, ov, before)
    requires exact ==> WrittenUpTo(output, ov, Tensor(input[..], iv), s, before, c)
    modifies output
    ensures KeepsOutside(output, ov, before)
    ensures exact ==> WrittenUpTo(output, ov, Tensor(input[..], iv), s, before, Ix(c.i0, c.i1, c.i2, c.i3 + 1))
  {
    ghost var x := Tensor(input[..], iv);
    var rank := |iv.sizes|;
    var n3 := ov.Extent3();
    ghost var prev := output[..];
    var dst: Ix;
    if !Divisible(rank, c, s) {
      dst := ZeroCell(c);
      assert ov.InRange(dst);
      output[ov.Offset(dst)] := 0.0;
    } else {
      dst := c;
      output[ov.Offset(c)] := input[iv.Offset(Source(rank, c, s))];
    }
    assert KeepsOutside(output, ov, before) by {
      forall q | 0 <= q < output.Length && ov.Untouched(q)
        ensures output[q] == before[q]
      {
        assert q != ov.Offset(dst);
        assert output[q] == prev[q];
      }
    }
    if exact {
      var c' := Ix(c.i0, c.i1, c.i2, c.i3 + 1);
      forall a | ov.InRange(a)
        ensures output[ov.Offset(a)] == Partial(x, s, n3, before[ov.Offset(a)], a, c')
      {
        if a == dst {
          if c.i3 > 0 && s > 1 && Divisible(rank, c, s) {
            ModPositive(c.i3, s);
          }
        } else {
          assert ov.Offset(a) != ov.Offset(dst);
          assert output[ov.Offset(a)] == prev[ov.Offset(a)];
          if a.i3 == 0 && a == ZeroCell(c) && Divisible(rank, c, s) && s > 1 {
            ModPositive(c.i3, s);
          }
        }
      }
    }
  }

  /** Moving the loop position from c to c' across no index of the view
      leaves every Partial value as it was. */
  lemma Carry(output: array<real>, ov: View, x: Tensor, s: int, before: seq<real>, exact: bool, c: Ix, c': Ix)
    requires ov.Ranked() && x.view.Ranked() && s >= 1 && ov.Fits(output.Length)
    requires |before| == output.Length
    requires forall a :: ov.InRange(a) ==> (Lt(a, c) <==> Lt(a, c'))
    requires forall a :: ov.InRange(a) ==> RowDone(a, c, ov.Extent3()) == RowDone(a, c', ov.Extent3())
    requires exact ==> WrittenUpTo(output, ov, x, s, before, c)
    ensures exact ==> WrittenUpTo(output, ov, x, s, before, c')
  {
  }

  /** The backward result at gradInput index a: the gradOutput element at the
      scaled position; with s == 1 the same position. */
  function GradInputAt(g: Tensor, s: int, a: Ix): (v: real)
    requires g.view.Ranked()
    ensures s == 1 ==> v == g.At(a)
  {
    g.At(BackSource(|g.view.sizes|, a, s))
  }

  /** Every gradInput cell before c holds its gathered value, the others 0. */
  ghost predicate GatheredUpTo(gradInput: array<real>, gv: View, g: Tensor, s: int, c: Ix)
    reads gradInput
    requires gv.Ranked() && g.view.Ranked() && gv.Fits(gradInput.Length)
  {
    forall a :: gv.InRange(a) ==>
      gradInput[gv.Offset(a)] == if Lt(a, c) then GradInputAt(g, s, a) else 0.0
  }

  /** SpatialUpSamplingPeriodic_updateGradInput: zero gradInput, then add into
      each of its cells the gradOutput element at the scaled position. */
  method UpdateGradInput(gradInput: array<real>, gv: View, gradOutput: array<real>, gov: View, s: int)
    requires gv.Ranked() && gov.Ranked() && |gv.sizes| == |gov.sizes|
    requires gradInput != gradOutput
    requires gv.Fits(gradInput.Length) && gov.Fits(gradOutput.Length)
    requires forall a :: gv.InRange(a) ==> gov.InRange(BackSource(|gv.sizes|, a, s))
    modifies gradInput
    ensures gv.Injective() ==> forall a :: gv.InRange(a) ==>
      gradInput[gv.Offset(a)] == GradInputAt(Tensor(gradOutput[..], gov), s, a)
    ensures forall q :: 0 <= q < gradInput.Length && gv.Untouched(q) ==> gradInput[q] == old(gradInput[q])
  {
    ghost var g := Tensor(gradOutput[..], gov);
    ghost var exact := gv.Injective();
    ghost var before := gradInput[..];
    Zero(gradInput, gv);
    var n0, n1, n2 := gv.sizes[0], gv.sizes[1], gv.sizes[2];
    var i0 := 0;
    while i0 < n0
      invariant 0 <= i0
      invariant exact ==> GatheredUpTo(gradInput, gv, g, s, Ix(i0, 0, 0, 0))
      invariant KeepsOutside(gradInput, gv, before)
    {
      var i1 := 0;
      while i1 < n1
        invariant 0 <= i1
        invariant exact ==> GatheredUpTo(gradInput, gv, g, s, Ix(i0, i1, 0, 0))
        invariant KeepsOutside(gradInput, gv, before)
      {
        GatherRows(gradInput, gv, gradOutput, gov, s, i0, i1, exact, before);
        i1 := i1 + 1;
      }
      i0 := i0 + 1;
    }
    if exact {
      forall a | gv.InRange(a)
        ensures gradInput[gv.Offset(a)] == GradInputAt(g, s, a)
      {
        assert Lt(a, Ix(i0, 0, 0, 0));
      }
    }
  }

  /** The two inner loops of the backward pass, for fixed i0 and i1. */
  method GatherRows(gradInput: array<real>, gv: View, gradOutput: array<real>, gov: View, s: int,
                    i0: int, i1: int, ghost exact: bool, ghost before: seq<real>)
    requires gv.Ranked() && gov.Ranked() && |gv.sizes| == |gov.sizes|
    requires gradInput != gradOutput
    requires gv.Fits(gradInput.Length) && gov.Fits(gradOutput.Length)
    requires forall a :: gv.InRange(a) ==> gov.InRange(BackSource(|gv.sizes|, a, s))
    requires 0 <= i0 < gv.sizes[0] && 0 <= i1 < gv.sizes[1]
    requires exact ==> gv.Injective()
    requires exact ==> GatheredUpTo(gradInput, gv, Tensor(gradOutput[..], gov), s, Ix(i0, i1, 0, 0))
    requires KeepsOutside(gradInput, gv, before)
    modifies gradInput
    ensures exact ==> GatheredUpTo(gradInput, gv, Tensor(gradOutput[..], gov), s, Ix(i0, i1 + 1, 0, 0))
    ensures KeepsOutside(gradInput, gv, before)
  {
    ghost var g := Tensor(gradOutput[..], gov);
    var rank := |gv.sizes|;
    var n2, n3 := gv.sizes[2], gv.Extent3();
    var i2 := 0;
    while i2 < n2
      invariant 0 <= i2
      invariant exact ==> GatheredUpTo(gradInput, gv, g, s, Ix(i0, i1, i2, 0))
      invariant KeepsOutside(gradInput, gv, before)
    {
      var i3 := 0;
      while i3 < n3
        invariant 0 <= i3
        invariant exact ==> GatheredUpTo(gradInput, gv, g, s, Ix(i0, i1, i2, i3))
        invariant KeepsOutside(gradInput, gv, before)
      {
        var c := Ix(i0, i1, i2, i3);
        assert gv.InRange(c);
        var src := BackSource(rank, c, s);
        ghost var prev := gradInput[..];
        gradInput[gv.Offset(c)] := gradInput[gv.Offset(c)] + gradOutput[gov.Offset(src)];
        assert KeepsOutside(gradInput, gv, before) by {
          forall q | 0 <= q < gradInput.Length && gv.Untouched(q)
            ensures gradInput[q] == before[q]
          {
            assert q != gv.Offset(c);
            assert gradInput[q] == prev[q];
          }
        }
        if exact {
          forall a | gv.InRange(a)
            ensures gradInput[gv.Offset(a)] == if Lt(a, Ix(i0, i1, i2, i3 + 1)) then GradInputAt(g, s, a) else 0.0
          {
            if a != c {
              assert gv.Offset(a) != gv.Offset(c);
              assert gradInput[gv.Offset(a)] == prev[gv.Offset(a)];
            }
          }
        }
        i3 := i3 + 1;
      }
      i2 := i2 + 1;
    }
  }

  /** For rank 3 the forward closed form is plain zero insertion: a copy of
      the input at divisible indices and 0 everywhere else. */
  lemma Rank3Output(x: Tensor, s: int, prior: real, a: Ix)
    requires x.view.Ranked() && |x.view.sizes| == 3 && s >= 1 && a.i3 == 0
    ensures OutputAt(x, s, 1, prior, a) ==
      if Divisible(3, a, s) then x.At(Source(3, a, s)) else 0.0
  {
  }

  /** For rank 4 with s >= 2 and rows of two or more, the zero branch of a
      later index in the row overwrites the first cell of the row, so even
      a divisible cell with last index 0 ends as 0 rather than a copy. */
  lemma Rank4FirstColumnZero(x: Tensor, s: int, n3: int, prior: real, a: Ix)
    requires x.view.Ranked() && |x.view.sizes| == 4 && s >= 2 && n3 >= 2 && a.i3 == 0
    ensures OutputAt(x, s, n3, prior, a) == 0.0
  {
  }

  /** Subsampling by s with no offsets undoes rank-3 upsampling by s. */
  lemma RoundTrip(x: Tensor, y: Tensor, s: int, a: Ix)
    requires x.view.Ranked() && y.view.Ranked() && |x.view.sizes| == 3 && |y.view.sizes| == 3 && s >= 1
    requires forall b :: y.view.InRange(b) ==> y.At(b) == OutputAt(x, s, 1, 0.0, b)
    requires y.view.InRange(SubSampling.Source(3, a, SubSampling.Params(s, s, 0, 0)))
    ensures SubSampling.OutputAt(y, SubSampling.Params(s, s, 0, 0), a) == x.At(a)
  {
    var b := SubSampling.Source(3, a, SubSampling.Params(s, s, 0, 0));
    MulDiv(s, a.i1);
    MulDiv(s, a.i2);
    assert Divisible(3, b, s) && Source(3, b, s) == a;
  }

  /** The backward pass is subsampling by s with no offsets. */
  lemma BackwardIsSubsampling(g: Tensor, s: int, a: Ix)
    requires g.view.Ranked()
    ensures GradInputAt(g, s, a) == SubSampling.OutputAt(g, SubSampling.Params(s, s, 0, 0), a)
  {
  }

  /** The backward pass reads only gradOutput cells whose trailing indices
      are multiples of s: two gradOutputs that agree there give the same
      gradInput. */
  lemma BackwardReadsLattice(g: Tensor, g': Tensor, s: int, a: Ix)
    requires g.view.Ranked() && g'.view == g.view && s >= 1
    requires forall b :: g.view.InRange(b) && Divisible(|g.view.sizes|, b, s) ==> g.At(b) == g'.At(b)
    requires g.view.InRange(BackSource(|g.view.sizes|, a, s))
    ensures GradInputAt(g, s, a) == GradInputAt(g', s, a)
  {
    var rank := |g.view.sizes|;
    MulDiv(s, if rank > 3 then a.i2 else a.i1);
    MulDiv(s, if rank > 3 then a.i3 else a.i2);
    assert Divisible(rank, BackSource(rank, a, s), s);
  }

  /** The rank-3 lattice: the two trailing-but-one dimensions scale by s. */
  function Lattice(s: int): (M: Map4)
    ensures forall a :: M.App(a) == BackSource(3, a, s)
  {
    Map4(Affine(1, 0), Affine(s, 0), Affine(s, 0), Affine(1, 0))
  }

  /** A term of the inner product <updateOutput(x), g>. */
  function ForwardTerm(x: Tensor, g: Tensor, s: int, b: Ix): real
    requires x.view.Ranked() && g.view.Ranked() && s >= 1
  {
    OutputAt(x, s, 1, 0.0, b) * g.At(b)
  }

  /** A term of the inner product <x, updateGradInput(g)>. */
  function BackwardTerm(x: Tensor, g: Tensor, s: int, a: Ix): real
    requires x.view.Ranked() && g.view.Ranked()
  {
    x.At(a) * GradInputAt(g, s, a)
  }

  /** A forward term is nonzero only on the lattice, where it is the
      backward term of the lattice point's preimage. */
  lemma AdjointTerm(x: Tensor, g: Tensor, s: int, b: Ix)
    requires x.view.Ranked() && g.view.Ranked() && |x.view.sizes| == 3 && |g.view.sizes| == 3 && s >= 1
    requires g.view.InRange(b)
    requires Divisible(3, b, s) ==> x.view.InRange(Source(3, b, s))
    ensures ForwardTerm(x, g, s, b) ==
      if Lattice(s).Hit(b, Box(x.view)) then BackwardTerm(x, g, s, Lattice(s).Pre(b)) else 0.0
  {
    var M, n := Lattice(s), Box(x.view);
    assert M.Pre(b) == Source(3, b, s) && (M.Hit(b, n) <==> Divisible(3, b, s)) by {
      UnitAffine(b.i0, n.i0);
      UnitAffine(b.i3, n.i3);
    }
    if M.Hit(b, n) {
      assert BackSource(3, M.Pre(b), s) == b;
      assert OutputAt(x, s, 1, 0.0, b) == x.At(M.Pre(b));
    } else {
      assert OutputAt(x, s, 1, 0.0, b) == 0.0;
    }
  }

  /** For rank 3 the backward pass is the adjoint of the forward pass: for
      every input x and gradOutput g, <updateOutput(x), g> == <x, updateGradInput(g)>. */
  lemma Adjoint(x: Tensor, g: Tensor, s: int)
    requires x.view.Ranked() && g.view.Ranked() && |x.view.sizes| == 3 && |g.view.sizes| == 3 && s >= 1
    requires forall b {:trigger Source(3, b, s)} ::
      g.view.InRange(b) && Divisible(3, b, s) ==> x.view.InRange(Source(3, b, s))
    requires forall a {:trigger BackSource(3, a, s)} ::
      x.view.InRange(a) ==> g.view.InRange(BackSource(3, a, s))
    ensures Sum4(Box(g.view), b => ForwardTerm(x, g, s, b)) ==
            Sum4(Box(x.view), a => BackwardTerm(x, g, s, a))
  {
    var M, n := Lattice(s), Box(x.view);
    var Psi := a => BackwardTerm(x, g, s, a);
    AdjointScatter(x, g, s);
    forall a | InBox(n, a) ensures InBox(Box(g.view), M.App(a)) {
      assert g.view.InRange(BackSource(3, a, s));
    }
    Reindex4(Box(g.view), n, M, Psi);
  }

  /** The left-hand side of Adjoint as the scattered form that Reindex4 sums. */
  lemma AdjointScatter(x: Tensor, g: Tensor, s: int)
    requires x.view.Ranked() && g.view.Ranked() && |x.view.sizes| == 3 && |g.view.sizes| == 3 && s >= 1
    requires forall b {:trigger Source(3, b, s)} ::
      g.view.InRange(b) && Divisible(3, b, s) ==> x.view.InRange(Source(3, b, s))
    ensures var M, n := Lattice(s), Box(x.view);
      Sum4(Box(g.view), b => ForwardTerm(x, g, s, b)) ==
      Sum4(Box(g.view), b => if M.Hit(b, n) then (a => BackwardTerm(x, g, s, a))(M.Pre(b)) else 0.0)
  {
    var M, n := Lattice(s), Box(x.view);
    var Psi := a => BackwardTerm(x, g, s, a);
    var f := b => ForwardTerm(x, g, s, b);
    var h := b => if M.Hit(b, n) then Psi(M.Pre(b)) else 0.0;
    forall b | g.view.InRange(b) ensures f(b) == h(b) {
      AdjointTerm(x, g, s, b);
    }
    Sum4Ext(Box(g.view), f, h);
  }
}
