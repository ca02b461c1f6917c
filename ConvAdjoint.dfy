/** PlanarConvolution: the backward pass is the adjoint of the bias-free
    forward pass when every input plane has its own output plane. */
module ConvAdjoint {
  import opened Strided
  import opened Sums
  import opened ConvSpec
  import opened ConvProps

  /** Sums add termwise. */
  lemma {:induction false} SumAdd(n: int, f: int -> real, g: int -> real)
    ensures Sum(n, t => f(t) + g(t)) == Sum(n, f) + Sum(n, g)
    decreases n
  {
    if n > 0 {
      SumAdd(n - 1, f, g);
    }
  }

  /** Two finite sums exchange. */
  lemma {:induction false} SumSwap(n: int, m: int, F: (int, int) -> real)
    ensures Sum(n, a => Sum(m, b => F(a, b))) == Sum(m, b => Sum(n, a => F(a, b)))
    decreases n
  {
    if n > 0 {
      SumSwap(n - 1, m, F);
      var p := b => Sum(n - 1, a => F(a, b));
      var q := b => F(n - 1, b);
      SumExt(m, b => Sum(n, a => F(a, b)), b => p(b) + q(b));
      SumAdd(m, p, q);
      SumExt(m, b => F(n - 1, b), q);
    } else {
      SumZero(m, b => Sum(n, a => F(a, b)));
    }
  }

  /** Terms past the first n that are all zero do not change the sum. */
  lemma {:induction false} SumPrefix(n: int, N: int, f: int -> real)
    requires 0 <= n <= N
    requires forall t :: n <= t < N ==> f(t) == 0.0
    ensures Sum(N, f) == Sum(n, f)
    decreases N
  {
    if N > n {
      SumPrefix(n, N - 1, f);
    }
  }

  /** A sum whose only nonzero term is term k. */
  lemma SumSingle(n: int, f: int -> real, k: int)
    requires 0 <= k < n
    requires forall t :: 0 <= t < n && t != k ==> f(t) == 0.0
    ensures Sum(n, f) == f(k)
  {
    var z := t => 0.0;
    SumPoint(n, f, z, k);
    SumZero(n, z);
  }

  /** A window of m terms starting at k, inside a sum of W terms, is a sum
      of m terms shifted by k. */
  lemma SumWindow(W: int, k: int, m: int, F: int -> real)
    requires 0 <= k && 0 <= m && k + m <= W
    ensures Sum(W, col => if k <= col < k + m then F(col) else 0.0) == Sum(m, c => F(c + k))
  {
    var f := col => if k <= col < k + m then F(col) else 0.0;
    SumShift(k, W - k, f);
    SumZero(k, f);
    var g := t => f(k + t);
    SumShift(m, W - k - m, g);
    SumZero(W - k - m, t => g(m + t));
    SumExt(m, g, c => F(c + k));
  }

  /** Row r of the pairing of two plane functions: the sum over its W columns. */
  function Row(W: int, Phi: (int, int) -> real, X: (int, int) -> real, r: int): real {
    Sum(W, col => Phi(r, col) * X(r, col))
  }

  /** The pairing of two plane functions over an H x W box. */
  function Pair(H: int, W: int, Phi: (int, int) -> real, X: (int, int) -> real): real {
    Sum(H, r => Row(W, Phi, X, r))
  }

  /** The pointwise sum of two plane functions. */
  function Plus(Phi: (int, int) -> real, Psi: (int, int) -> real): (int, int) -> real {
    (r, col) => Phi(r, col) + Psi(r, col)
  }

  /** Plane function j of a family. */
  function Slice(F: (int, int, int) -> real, j: int): (int, int) -> real {
    (r, col) => F(j, r, col)
  }

  /** The pointwise sum of the first n plane functions of a family. */
  function SumOf(n: int, F: (int, int, int) -> real): (int, int) -> real {
    (r, col) => Sum(n, j => F(j, r, col))
  }

  /** Pairings of pointwise equal functions are equal. */
  lemma PairExt(H: int, W: int, Phi: (int, int) -> real, Psi: (int, int) -> real, X: (int, int) -> real)
    requires forall r, col :: 0 <= r < H && 0 <= col < W ==> Phi(r, col) == Psi(r, col)
    ensures Pair(H, W, Phi, X) == Pair(H, W, Psi, X)
  {
    forall r | 0 <= r < H
      ensures Row(W, Phi, X, r) == Row(W, Psi, X, r)
    {
      SumExt(W, col => Phi(r, col) * X(r, col), col => Psi(r, col) * X(r, col));
    }
    SumExt(H, r => Row(W, Phi, X, r), r => Row(W, Psi, X, r));
  }

  /** The pairing of a zero function is zero. */
  lemma PairZero(H: int, W: int, Phi: (int, int) -> real, X: (int, int) -> real)
    requires forall r, col :: 0 <= r < H && 0 <= col < W ==> Phi(r, col) == 0.0
    ensures Pair(H, W, Phi, X) == 0.0
  {
    forall r | 0 <= r < H
      ensures Row(W, Phi, X, r) == 0.0
    {
      SumZero(W, col => Phi(r, col) * X(r, col));
    }
    SumZero(H, r => Row(W, Phi, X, r));
  }

  /** The pairing is additive in its first argument. */
  lemma PairAdd(H: int, W: int, Phi: (int, int) -> real, Psi: (int, int) -> real, X: (int, int) -> real)
    ensures Pair(H, W, Plus(Phi, Psi), X) == Pair(H, W, Phi, X) + Pair(H, W, Psi, X)
  {
    forall r | 0 <= r < H
      ensures Row(W, Plus(Phi, Psi), X, r) == Row(W, Phi, X, r) + Row(W, Psi, X, r)
    {
      var f := col => Phi(r, col) * X(r, col);
      var g := col => Psi(r, col) * X(r, col);
      forall t | 0 <= t < W
        ensures Plus(Phi, Psi)(r, t) * X(r, t) == f(t) + g(t)
      {
        assert Plus(Phi, Psi)(r, t) == Phi(r, t) + Psi(r, t);
      }
      SumExt(W, col => Plus(Phi, Psi)(r, col) * X(r, col), t => f(t) + g(t));
      SumAdd(W, f, g);
    }
    var p := r => Row(W, Phi, X, r);
    var q := r => Row(W, Psi, X, r);
    SumExt(H, r => Row(W, Plus(Phi, Psi), X, r), t => p(t) + q(t));
    SumAdd(H, p, q);
  }

  /** The pairing is linear in its first argument: the pairing of a sum of
      n plane functions is the sum of their pairings. */
  lemma {:induction false} PairLinear(n: int, H: int, W: int, F: (int, int, int) -> real, X: (int, int) -> real)
    ensures Pair(H, W, SumOf(n, F), X) == Sum(n, j => Pair(H, W, Slice(F, j), X))
    decreases n
  {
    if n <= 0 {
      PairZero(H, W, SumOf(n, F), X);
    } else {
      PairLinear(n - 1, H, W, F, X);
      PairExt(H, W, SumOf(n, F), Plus(SumOf(n - 1, F), Slice(F, n - 1)), X);
      PairAdd(H, W, SumOf(n - 1, F), Slice(F, n - 1), X);
    }
  }

  /** A plane function whose only nonzero cells are columns k .. k + m - 1
      of row r0 pairs to the sum of those cells times the other plane. */
  lemma Spike(H: int, W: int, m: int, r0: int, k: int, Phi: (int, int) -> real, X: (int, int) -> real, F: int -> real)
    requires 0 <= r0 < H && 0 <= k && 0 <= m && k + m <= W
    requires forall r, col :: 0 <= r < H && 0 <= col < W ==>
      Phi(r, col) == if r == r0 && k <= col < k + m then F(col) else 0.0
    ensures Pair(H, W, Phi, X) == Sum(m, c => F(c + k) * X(r0, c + k))
  {
    forall r | 0 <= r < H && r != r0
      ensures Row(W, Phi, X, r) == 0.0
    {
      SumZero(W, col => Phi(r, col) * X(r, col));
    }
    SumSingle(H, r => Row(W, Phi, X, r), r0);
    var G := col => F(col) * X(r0, col);
    SumExt(W, col => Phi(r0, col) * X(r0, col), col => if k <= col < k + m then G(col) else 0.0);
    SumWindow(W, k, m, G);
    SumExt(m, c => G(c + k), c => F(c + k) * X(r0, c + k));
  }

  /** One plane of a correlation with a kH x kW kernel and an oH x oW
      output, over abstract planes: weights Wt(h, k), gradOutput G(j, c) and
      input X(r, col). */
  datatype Kernel = Kernel(kH: int, kW: int, oH: int, oW: int,
                           Wt: (int, int) -> real, G: (int, int) -> real, X: (int, int) -> real)
  {
    predicate Valid() {
      kH >= 1 && kW >= 1 && oH >= 0 && oW >= 0
    }

    /** The input plane's height and width. */
    function H(): int {
      oH + kH - 1
    }

    function W(): int {
      oW + kW - 1
    }

    /** Backward: what tap (h, k) of output row j adds to input cell (r, col). */
    function Contribs(j: int, h: int): (int, int, int) -> real {
      (k, r, col) => if j + h == r && 0 <= col - k < oW then Wt(h, k) * G(j, col - k) else 0.0
    }

    /** Backward: what kernel row h of output row j adds. */
    function Taps(j: int): (int, int, int) -> real {
      (h, r, col) => SumOf(kW, Contribs(j, h))(r, col)
    }

    /** Backward: what output row j adds. */
    function Rows(): (int, int, int) -> real {
      (j, r, col) => SumOf(kH, Taps(j))(r, col)
    }

    /** Backward: the gradInput plane. */
    function Grad(): (int, int) -> real {
      SumOf(oH, Rows())
    }

    /** The nonzero part of Contribs(j, h) at raw column col of row j + h. */
    function Seg(j: int, h: int, k: int, col: int): real {
      Wt(h, k) * G(j, col - k)
    }

    /** Forward: kernel row h at output cell (j, c), and the whole kernel. */
    function KRow(j: int, c: int, h: int): real {
      Sum(kW, k => Wt(h, k) * X(j + h, c + k))
    }

    function KSum(j: int, c: int): real {
      Sum(kH, h => KRow(j, c, h))
    }

    /** gradOutput cell (j, c) times the forward result there. */
    function Fwd(j: int, c: int): real {
      G(j, c) * KSum(j, c)
    }

    /** gradOutput cell (j, c) times forward tap (h, k) there, and its sums
        in the two orders. */
    function Tap(j: int, c: int, h: int, k: int): real {
      G(j, c) * (Wt(h, k) * X(j + h, c + k))
    }

    function TapK(j: int, c: int, h: int): real {
      Sum(kW, k => Tap(j, c, h, k))
    }

    function TapHK(j: int, c: int): real {
      Sum(kH, h => TapK(j, c, h))
    }

    function TapC(j: int, h: int, k: int): real {
      Sum(oW, c => Tap(j, c, h, k))
    }

    function TapKC(j: int, h: int): real {
      Sum(kW, k => TapC(j, h, k))
    }

    function TapHKC(j: int): real {
      Sum(kH, h => TapKC(j, h))
    }
  }

  /** Tap (h, k) of output row j writes only its segment of input row j + h. */
  lemma TapSegment(K: Kernel, j: int, h: int, k: int)
    requires K.Valid() && 0 <= j < K.oH && 0 <= h < K.kH && 0 <= k < K.kW
    ensures Pair(K.H(), K.W(), Slice(K.Contribs(j, h), k), K.X) == Sum(K.oW, c => K.Seg(j, h, k, c + k) * K.X(j + h, c + k))
  {
    var Phi := Slice(K.Contribs(j, h), k);
    var F := col => K.Seg(j, h, k, col);
    SumExt(K.oW, c => F(c + k) * K.X(j + h, c + k), c => K.Seg(j, h, k, c + k) * K.X(j + h, c + k));
    forall r, col | 0 <= r < K.H() && 0 <= col < K.W()
      ensures Phi(r, col) == if r == j + h && k <= col < k + K.oW then F(col) else 0.0
    {
      assert Phi(r, col) == K.Contribs(j, h)(k, r, col);
    }
    Spike(K.H(), K.W(), K.oW, j + h, k, Phi, K.X, F);
  }

  /** Tap (h, k) of output row j pairs with the input plane to the sum of
      the matching forward taps over the row's oW cells: its only nonzero
      input row is j + h, where it covers columns k .. k + oW - 1. */
  lemma TapPair(K: Kernel, j: int, h: int, k: int)
    requires K.Valid() && 0 <= j < K.oH && 0 <= h < K.kH && 0 <= k < K.kW
    ensures Pair(K.H(), K.W(), Slice(K.Contribs(j, h), k), K.X) == K.TapC(j, h, k)
  {
    TapSegment(K, j, h, k);
    forall c | 0 <= c < K.oW
      ensures K.Seg(j, h, k, c + k) * K.X(j + h, c + k) == K.Tap(j, c, h, k)
    {
      assert c + k - k == c;
    }
    SumExt(K.oW, c => K.Seg(j, h, k, c + k) * K.X(j + h, c + k), c => K.Tap(j, c, h, k));
  }

  /** What kernel row h of output row j adds is the sum over its taps k. */
  lemma KernelRowPair(K: Kernel, j: int, h: int)
    requires K.Valid() && 0 <= j < K.oH && 0 <= h < K.kH
    ensures Pair(K.H(), K.W(), Slice(K.Taps(j), h), K.X) == K.TapKC(j, h)
  {
    PairExt(K.H(), K.W(), Slice(K.Taps(j), h), SumOf(K.kW, K.Contribs(j, h)), K.X);
    PairLinear(K.kW, K.H(), K.W(), K.Contribs(j, h), K.X);
    forall k | 0 <= k < K.kW
      ensures Pair(K.H(), K.W(), Slice(K.Contribs(j, h), k), K.X) == K.TapC(j, h, k)
    {
      TapPair(K, j, h, k);
    }
    SumExt(K.kW, k => Pair(K.H(), K.W(), Slice(K.Contribs(j, h), k), K.X), k => K.TapC(j, h, k));
  }

  /** What output row j adds is the sum over kernel rows h. */
  lemma OutputRowPair(K: Kernel, j: int)
    requires K.Valid() && 0 <= j < K.oH
    ensures Pair(K.H(), K.W(), Slice(K.Rows(), j), K.X) == K.TapHKC(j)
  {
    PairExt(K.H(), K.W(), Slice(K.Rows(), j), SumOf(K.kH, K.Taps(j)), K.X);
    PairLinear(K.kH, K.H(), K.W(), K.Taps(j), K.X);
    forall h | 0 <= h < K.kH
      ensures Pair(K.H(), K.W(), Slice(K.Taps(j), h), K.X) == K.TapKC(j, h)
    {
      KernelRowPair(K, j, h);
    }
    SumExt(K.kH, h => Pair(K.H(), K.W(), Slice(K.Taps(j), h), K.X), h => K.TapKC(j, h));
  }

  /** Backward side: the gradInput plane paired with the input plane is the
      sum over output rows of what each adds. */
  lemma BackwardPair(K: Kernel)
    requires K.Valid()
    ensures Pair(K.H(), K.W(), K.Grad(), K.X) == Sum(K.oH, j => K.TapHKC(j))
  {
    PairLinear(K.oH, K.H(), K.W(), K.Rows(), K.X);
    forall j | 0 <= j < K.oH
      ensures Pair(K.H(), K.W(), Slice(K.Rows(), j), K.X) == K.TapHKC(j)
    {
      OutputRowPair(K, j);
    }
    SumExt(K.oH, j => Pair(K.H(), K.W(), Slice(K.Rows(), j), K.X), j => K.TapHKC(j));
  }

  /** Forward side, one kernel row of one cell. */
  lemma FwdKernelRow(K: Kernel, j: int, c: int, h: int)
    ensures K.TapK(j, c, h) == K.G(j, c) * K.KRow(j, c, h)
  {
    SumScale(K.kW, k => K.Wt(h, k) * K.X(j + h, c + k), k => K.Tap(j, c, h, k), K.G(j, c));
  }

  /** Forward side, one cell: gradOutput times the kernel sum is the sum of
      gradOutput times each tap. */
  lemma FwdAsTaps(K: Kernel, j: int, c: int)
    ensures K.Fwd(j, c) == K.TapHK(j, c)
  {
    forall h | 0 <= h < K.kH
      ensures K.TapK(j, c, h) == K.G(j, c) * K.KRow(j, c, h)
    {
      FwdKernelRow(K, j, c, h);
    }
    SumScale(K.kH, h => K.KRow(j, c, h), h => K.TapK(j, c, h), K.G(j, c));
  }

  /** Forward side, one output row: the sum over its cells, reordered so
      that the taps are outermost. */
  lemma ForwardRow(K: Kernel, j: int)
    ensures Sum(K.oW, c => K.Fwd(j, c)) == K.TapHKC(j)
  {
    forall c | 0 <= c < K.oW
      ensures K.Fwd(j, c) == K.TapHK(j, c)
    {
      FwdAsTaps(K, j, c);
    }
    SumExt(K.oW, c => K.Fwd(j, c), c => K.TapHK(j, c));
    var F := (c, h) => K.TapK(j, c, h);
    SumSwap(K.oW, K.kH, F);
    forall c | 0 <= c < K.oW
      ensures K.TapHK(j, c) == Sum(K.kH, b => F(c, b))
    {
      SumExt(K.kH, h => K.TapK(j, c, h), b => F(c, b));
    }
    SumExt(K.oW, c => K.TapHK(j, c), a => Sum(K.kH, b => F(a, b)));
    forall h | 0 <= h < K.kH
      ensures Sum(K.oW, a => F(a, h)) == K.TapKC(j, h)
    {
      TapOrder(K, j, h);
      SumExt(K.oW, a => F(a, h), c => K.TapK(j, c, h));
    }
    SumExt(K.kH, b => Sum(K.oW, a => F(a, b)), h => K.TapKC(j, h));
  }

  /** Kernel row h of output row j: the sums over cells c and taps k exchange. */
  lemma TapOrder(K: Kernel, j: int, h: int)
    ensures Sum(K.oW, c => K.TapK(j, c, h)) == K.TapKC(j, h)
  {
    var G := (c, k) => K.Tap(j, c, h, k);
    SumSwap(K.oW, K.kW, G);
    forall c | 0 <= c < K.oW
      ensures K.TapK(j, c, h) == Sum(K.kW, b => G(c, b))
    {
      SumExt(K.kW, k => K.Tap(j, c, h, k), b => G(c, b));
    }
    SumExt(K.oW, c => K.TapK(j, c, h), a => Sum(K.kW, b => G(a, b)));
    forall k | 0 <= k < K.kW
      ensures Sum(K.oW, a => G(a, k)) == K.TapC(j, h, k)
    {
      SumExt(K.oW, a => G(a, k), c => K.Tap(j, c, h, k));
    }
    SumExt(K.kW, b => Sum(K.oW, a => G(a, b)), k => K.TapC(j, h, k));
  }

  /** The correlation of one plane and its transpose are adjoint: the
      transposed correlation of G paired with X equals G paired with the
      correlation of X. */
  lemma KernelAdjoint(K: Kernel)
    requires K.Valid()
    ensures Pair(K.H(), K.W(), K.Grad(), K.X) == Sum(K.oH, j => Sum(K.oW, c => K.Fwd(j, c)))
  {
    BackwardPair(K);
    forall j | 0 <= j < K.oH
      ensures Sum(K.oW, c => K.Fwd(j, c)) == K.TapHKC(j)
    {
      ForwardRow(K, j);
    }
    SumExt(K.oH, j => Sum(K.oW, c => K.Fwd(j, c)), j => K.TapHKC(j));
  }

  /** A column offset added to the address of column 0 is column col when
      the column stride is 1. */
  lemma RawIsAt(t: Tensor, e: int, i: int, r: int, col: int)
    requires t.view.Ranked() && |t.view.sizes| == 4 && t.view.strides[3] == 1
    ensures Raw(t, e, i, r, col) == t.At(Ix(e, i, r, col))
  {
  }


  /** The conditions of the adjoint identity: one output plane per input
      plane, rank-4 tensors with unit column strides, an input of
      (oH + kH - 1) x (oW + kW - 1) cells with at least nOutputPlane planes,
      and a gradOutput of shape [batch, nOutputPlane, oH, oW]. */
  predicate AdjointShapes(cp: Conv, x: Tensor, g: Tensor, oH: int, oW: int) {
    cp.Valid() && cp.nInputPlane == cp.nOutputPlane &&
    x.view.Ranked() && |x.view.sizes| == 4 && x.view.strides[3] == 1 &&
    g.view.Ranked() && |g.view.sizes| == 4 && g.view.strides[3] == 1 &&
    oH >= 0 && oW >= 0 &&
    g.view.sizes == [x.view.sizes[0], cp.nOutputPlane, oH, oW] &&
    cp.nOutputPlane <= x.view.sizes[1] &&
    x.view.sizes[2] == oH + cp.kH - 1 && x.view.sizes[3] == oW + cp.kW - 1
  }

  /** Plane i of batch element e as a Kernel: the weights of plane i, and
      plane i of gradOutput and of the input. */
  function PlaneOf(w: seq<real>, cp: Conv, g: Tensor, x: Tensor, oH: int, oW: int, e: int, i: int): (K: Kernel)
    requires g.view.Ranked() && x.view.Ranked()
    ensures cp.Valid() && oH >= 0 && oW >= 0 ==> K.Valid()
    ensures K.kH == cp.kH && K.kW == cp.kW && K.oH == oH && K.oW == oW
    ensures K.H() == oH + cp.kH - 1 && K.W() == oW + cp.kW - 1
  {
    Kernel(cp.kH, cp.kW, oH, oW, (h, k) => Get(w, cp.WeightIndex(i, h, k)),
           (j, c) => g.At(Ix(e, i, j, c)), (r, col) => x.At(Ix(e, i, r, col)))
  }

  /** Contrib is the Kernel's backward contribution. */
  lemma ContribIs(w: seq<real>, cp: Conv, g: Tensor, x: Tensor, oH: int, oW: int, e: int, i: int,
                  r: int, col: int, j: int, h: int, k: int)
    requires AdjointShapes(cp, x, g, oH, oW)
    ensures Contrib(w, cp, g, oW, e, i, r, col, j, h, k) == PlaneOf(w, cp, g, x, oH, oW, e, i).Contribs(j, h)(k, r, col)
  {
    RawIsAt(g, e, i, j, col - k);
  }

  /** BackTap is the Kernel's kernel-row contribution. */
  lemma BackTapIs(w: seq<real>, cp: Conv, g: Tensor, x: Tensor, oH: int, oW: int, e: int, i: int,
                  r: int, col: int, j: int, h: int)
    requires AdjointShapes(cp, x, g, oH, oW)
    ensures BackTap(w, cp, g, oW, e, i, r, col, j, h) == PlaneOf(w, cp, g, x, oH, oW, e, i).Taps(j)(h, r, col)
  {
    var K := PlaneOf(w, cp, g, x, oH, oW, e, i);
    assert K.Taps(j)(h, r, col) == SumOf(cp.kW, K.Contribs(j, h))(r, col);
    forall k | 0 <= k < cp.kW
      ensures Contrib(w, cp, g, oW, e, i, r, col, j, h, k) == K.Contribs(j, h)(k, r, col)
    {
      ContribIs(w, cp, g, x, oH, oW, e, i, r, col, j, h, k);
    }
    SumExt(cp.kW, k => Contrib(w, cp, g, oW, e, i, r, col, j, h, k), k => K.Contribs(j, h)(k, r, col));
  }

  /** BackRow is the Kernel's output-row contribution. */
  lemma BackRowIs(w: seq<real>, cp: Conv, g: Tensor, x: Tensor, oH: int, oW: int, e: int, i: int,
                  r: int, col: int, j: int)
    requires AdjointShapes(cp, x, g, oH, oW)
    ensures BackRow(w, cp, g, oW, e, i, r, col, j) == PlaneOf(w, cp, g, x, oH, oW, e, i).Rows()(j, r, col)
  {
    var K := PlaneOf(w, cp, g, x, oH, oW, e, i);
    assert K.Rows()(j, r, col) == SumOf(cp.kH, K.Taps(j))(r, col);
    forall h | 0 <= h < cp.kH
      ensures BackTap(w, cp, g, oW, e, i, r, col, j, h) == K.Taps(j)(h, r, col)
    {
      BackTapIs(w, cp, g, x, oH, oW, e, i, r, col, j, h);
    }
    SumExt(cp.kH, h => BackTap(w, cp, g, oW, e, i, r, col, j, h), h => K.Taps(j)(h, r, col));
  }

  /** GradInputAt is the Kernel's gradInput plane on the planes the loop covers. */
  lemma GradIs(w: seq<real>, cp: Conv, g: Tensor, x: Tensor, oH: int, oW: int, e: int, i: int, r: int, col: int)
    requires AdjointShapes(cp, x, g, oH, oW) && i < cp.nOutputPlane
    ensures GradInputAt(w, cp, g, oH, oW, e, i, r, col) == PlaneOf(w, cp, g, x, oH, oW, e, i).Grad()(r, col)
  {
    var K := PlaneOf(w, cp, g, x, oH, oW, e, i);
    forall j | 0 <= j < oH
      ensures BackRow(w, cp, g, oW, e, i, r, col, j) == K.Rows()(j, r, col)
    {
      BackRowIs(w, cp, g, x, oH, oW, e, i, r, col, j);
    }
    SumExt(oH, j => BackRow(w, cp, g, oW, e, i, r, col, j), j => K.Rows()(j, r, col));
  }

  /** KernelRow is the Kernel's forward kernel row. */
  lemma KernelRowIs(w: seq<real>, cp: Conv, g: Tensor, x: Tensor, oH: int, oW: int, e: int, i: int, j: int, c: int, h: int)
    requires AdjointShapes(cp, x, g, oH, oW)
    ensures KernelRow(w, cp, x, e, i, j, c, h) == PlaneOf(w, cp, g, x, oH, oW, e, i).KRow(j, c, h)
  {
    var K := PlaneOf(w, cp, g, x, oH, oW, e, i);
    forall k | 0 <= k < cp.kW
      ensures KernelTerm(w, cp, x, e, i, j, c, h, k) == K.Wt(h, k) * K.X(j + h, c + k)
    {
      RawIsAt(x, e, i, j + h, c + k);
    }
    SumExt(cp.kW, k => KernelTerm(w, cp, x, e, i, j, c, h, k), k => K.Wt(h, k) * K.X(j + h, c + k));
  }

  /** KernelSum is the Kernel's forward kernel sum. */
  lemma KernelSumIs(w: seq<real>, cp: Conv, g: Tensor, x: Tensor, oH: int, oW: int, e: int, i: int, j: int, c: int)
    requires AdjointShapes(cp, x, g, oH, oW)
    ensures KernelSum(w, cp, x, e, i, j, c) == PlaneOf(w, cp, g, x, oH, oW, e, i).KSum(j, c)
  {
    var K := PlaneOf(w, cp, g, x, oH, oW, e, i);
    forall h | 0 <= h < cp.kH
      ensures KernelRow(w, cp, x, e, i, j, c, h) == K.KRow(j, c, h)
    {
      KernelRowIs(w, cp, g, x, oH, oW, e, i, j, c, h);
    }
    SumExt(cp.kH, h => KernelRow(w, cp, x, e, i, j, c, h), h => K.KRow(j, c, h));
  }

  /** The backward integrand: gradInput times input at cell a. */
  function BackTerm(w: seq<real>, cp: Conv, x: Tensor, g: Tensor, oH: int, oW: int, a: Ix): real
    requires x.view.Ranked() && g.view.Ranked()
  {
    GradInputAt(w, cp, g, oH, oW, a.i0, a.i1, a.i2, a.i3) * x.At(a)
  }

  /** The forward integrand: gradOutput times the bias-free forward result at cell a. */
  function FwdTerm(w: seq<real>, b: seq<real>, cp: Conv, x: Tensor, g: Tensor, a: Ix): real
    requires x.view.Ranked() && g.view.Ranked()
  {
    g.At(a) * (ConvAt(w, b, cp, x, a.i0, a.i1, a.i2, a.i3) - Get(b, a.i1))
  }

  /** The backward side of row r of plane (e, i). */
  lemma LeftRow(w: seq<real>, cp: Conv, x: Tensor, g: Tensor, oH: int, oW: int, fL: Ix -> real, e: int, i: int, r: int)
    requires AdjointShapes(cp, x, g, oH, oW) && i < cp.nOutputPlane
    requires forall a :: fL(a) == BackTerm(w, cp, x, g, oH, oW, a)
    ensures var K := PlaneOf(w, cp, g, x, oH, oW, e, i);
            Sum1(Box(x.view), fL, e, i, r) == Row(K.W(), K.Grad(), K.X, r)
  {
    var K := PlaneOf(w, cp, g, x, oH, oW, e, i);
    forall col | 0 <= col < K.W()
      ensures fL(Ix(e, i, r, col)) == K.Grad()(r, col) * K.X(r, col)
    {
      GradIs(w, cp, g, x, oH, oW, e, i, r, col);
    }
    SumExt(K.W(), i3 => fL(Ix(e, i, r, i3)), col => K.Grad()(r, col) * K.X(r, col));
  }

  /** The backward side of plane (e, i) as a pairing of planes. */
  lemma LeftPlane(w: seq<real>, cp: Conv, x: Tensor, g: Tensor, oH: int, oW: int, fL: Ix -> real, e: int, i: int)
    requires AdjointShapes(cp, x, g, oH, oW) && i < cp.nOutputPlane
    requires forall a :: fL(a) == BackTerm(w, cp, x, g, oH, oW, a)
    ensures var K := PlaneOf(w, cp, g, x, oH, oW, e, i);
            Sum2(Box(x.view), fL, e, i) == Pair(K.H(), K.W(), K.Grad(), K.X)
  {
    var K := PlaneOf(w, cp, g, x, oH, oW, e, i);
    forall r | 0 <= r < K.H()
      ensures Sum1(Box(x.view), fL, e, i, r) == Row(K.W(), K.Grad(), K.X, r)
    {
      LeftRow(w, cp, x, g, oH, oW, fL, e, i, r);
    }
    SumExt(K.H(), i2 => Sum1(Box(x.view), fL, e, i, i2), r => Row(K.W(), K.Grad(), K.X, r));
  }

  /** The forward side of row j of plane (e, i). */
  lemma RightRow(w: seq<real>, b: seq<real>, cp: Conv, x: Tensor, g: Tensor, oH: int, oW: int,
                 fR: Ix -> real, e: int, i: int, j: int)
    requires AdjointShapes(cp, x, g, oH, oW) && i < cp.nOutputPlane
    requires forall a :: fR(a) == FwdTerm(w, b, cp, x, g, a)
    ensures Sum1(Box(g.view), fR, e, i, j) == Sum(oW, c => PlaneOf(w, cp, g, x, oH, oW, e, i).Fwd(j, c))
  {
    var K := PlaneOf(w, cp, g, x, oH, oW, e, i);
    forall c | 0 <= c < oW
      ensures fR(Ix(e, i, j, c)) == K.Fwd(j, c)
    {
      RightCell(w, b, cp, x, g, oH, oW, e, i, j, c);
    }
    SumExt(oW, i3 => fR(Ix(e, i, j, i3)), c => K.Fwd(j, c));
  }

  /** The forward integrand at cell (e, i, j, c) is the Kernel's forward term. */
  lemma RightCell(w: seq<real>, b: seq<real>, cp: Conv, x: Tensor, g: Tensor, oH: int, oW: int,
                  e: int, i: int, j: int, c: int)
    requires AdjointShapes(cp, x, g, oH, oW) && i < cp.nOutputPlane
    ensures FwdTerm(w, b, cp, x, g, Ix(e, i, j, c)) == PlaneOf(w, cp, g, x, oH, oW, e, i).Fwd(j, c)
  {
    var K := PlaneOf(w, cp, g, x, oH, oW, e, i);
    KernelSumIs(w, cp, g, x, oH, oW, e, i, j, c);
    var s := KernelSum(w, cp, x, e, i, j, c);
    assert ConvAt(w, b, cp, x, e, i, j, c) - Get(b, i) == s;
    assert K.Fwd(j, c) == g.At(Ix(e, i, j, c)) * s;
  }

  /** The adjoint identity on one plane (e, i). */
  lemma PlaneAdjoint(w: seq<real>, b: seq<real>, cp: Conv, x: Tensor, g: Tensor, oH: int, oW: int,
                     fL: Ix -> real, fR: Ix -> real, e: int, i: int)
    requires AdjointShapes(cp, x, g, oH, oW) && 0 <= i < cp.nOutputPlane
    requires forall a :: fL(a) == BackTerm(w, cp, x, g, oH, oW, a)
    requires forall a :: fR(a) == FwdTerm(w, b, cp, x, g, a)
    ensures Sum2(Box(x.view), fL, e, i) == Sum2(Box(g.view), fR, e, i)
  {
    var K := PlaneOf(w, cp, g, x, oH, oW, e, i);
    assert Box(g.view).i2 == oH;
    LeftPlane(w, cp, x, g, oH, oW, fL, e, i);
    KernelAdjoint(K);
    forall j | 0 <= j < oH
      ensures Sum1(Box(g.view), fR, e, i, j) == Sum(K.oW, c => K.Fwd(j, c))
    {
      RightRow(w, b, cp, x, g, oH, oW, fR, e, i, j);
    }
    SumExt(oH, i2 => Sum1(Box(g.view), fR, e, i, i2), j => Sum(K.oW, c => K.Fwd(j, c)));
  }

  /** The adjoint identity over whole tensors, for any fL and fR that are
      the two pointwise products. */
  lemma SumAdjoint(w: seq<real>, b: seq<real>, cp: Conv, x: Tensor, g: Tensor, oH: int, oW: int,
                   fL: Ix -> real, fR: Ix -> real)
    requires AdjointShapes(cp, x, g, oH, oW)
    requires forall a :: fL(a) == BackTerm(w, cp, x, g, oH, oW, a)
    requires forall a :: fR(a) == FwdTerm(w, b, cp, x, g, a)
    ensures Sum4(Box(x.view), fL) == Sum4(Box(g.view), fR)
  {
    var NX, NG := Box(x.view), Box(g.view);
    var nOut := cp.nOutputPlane;
    forall e | 0 <= e < NX.i0
      ensures Sum3(NX, fL, e) == Sum3(NG, fR, e)
    {
      forall i | nOut <= i < NX.i1
        ensures Sum2(NX, fL, e, i) == 0.0
      {
        forall r | 0 <= r < NX.i2
          ensures Sum1(NX, fL, e, i, r) == 0.0
        {
          SumZero(NX.i3, i3 => fL(Ix(e, i, r, i3)));
        }
        SumZero(NX.i2, i2 => Sum1(NX, fL, e, i, i2));
      }
      SumPrefix(nOut, NX.i1, i1 => Sum2(NX, fL, e, i1));
      forall i | 0 <= i < nOut
        ensures Sum2(NX, fL, e, i) == Sum2(NG, fR, e, i)
      {
        PlaneAdjoint(w, b, cp, x, g, oH, oW, fL, fR, e, i);
      }
      SumExt(nOut, i1 => Sum2(NX, fL, e, i1), i1 => Sum2(NG, fR, e, i1));
    }
    SumExt(NX.i0, i0 => Sum3(NX, fL, i0), i0 => Sum3(NG, fR, i0));
  }

  /** updateGradInput is the adjoint of the bias-free updateOutput: pairing
      gradInput with any input x gives the same number as pairing
      gradOutput with the forward result on x minus its bias. */
  lemma BackwardIsAdjoint(w: seq<real>, b: seq<real>, cp: Conv, x: Tensor, g: Tensor, oH: int, oW: int)
    requires AdjointShapes(cp, x, g, oH, oW)
    ensures Sum4(Box(x.view), a => BackTerm(w, cp, x, g, oH, oW, a)) ==
            Sum4(Box(g.view), a => FwdTerm(w, b, cp, x, g, a))
  {
    SumAdjoint(w, b, cp, x, g, oH, oW, a => BackTerm(w, cp, x, g, oH, oW, a), a => FwdTerm(w, b, cp, x, g, a));
  }
}
