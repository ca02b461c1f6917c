/** Finite sums of reals, used to state inner products of tensors. */
module Sums {
  import opened Strided

  /** f(0) + ... + f(n-1), accumulated left to right. */
  function Sum(n: int, f: int -> real): real
    decreases n
  {
    if n <= 0 then 0.0 else Sum(n - 1, f) + f(n - 1)
  }

  lemma {:induction false} SumExt(n: int, f: int -> real, g: int -> real)
    requires forall i :: 0 <= i < n ==> f(i) == g(i)
    ensures Sum(n, f) == Sum(n, g)
    decreases n
  {
    if n > 0 {
      SumExt(n - 1, f, g);
    }
  }

  lemma {:induction false} SumZero(n: int, f: int -> real)
    requires forall i :: 0 <= i < n ==> f(i) == 0.0
    ensures Sum(n, f) == 0.0
    decreases n
  {
    if n > 0 {
      SumZero(n - 1, f);
    }
  }

  /** A sum whose terms are a times those of another is a times that sum. */
  lemma {:induction false} SumScale(n: int, f: int -> real, g: int -> real, a: real)
    requires forall t :: 0 <= t < n ==> g(t) == a * f(t)
    ensures Sum(n, g) == a * Sum(n, f)
    decreases n
  {
    if n > 0 {
      SumScale(n - 1, f, g, a);
    }
  }

  /** Changing one term changes the sum by the same amount. */
  lemma {:induction false} SumPoint(n: int, f: int -> real, g: int -> real, k: int)
    requires 0 <= k < n
    requires forall i :: 0 <= i < n && i != k ==> f(i) == g(i)
    ensures Sum(n, f) == Sum(n, g) + (f(k) - g(k))
    decreases n
  {
    if k < n - 1 {
      SumPoint(n - 1, f, g, k);
    } else {
      SumExt(n - 1, f, g);
    }
  }

  /** One dimension of a separable index map y = m*a + o with m >= 1. */
  datatype Affine = Affine(m: int, o: int)
  {
    function App(a: int): int {
      m * a + o
    }

    /** y is the image of some a in [0, n). */
    predicate Hit(y: int, n: int)
      requires m >= 1
    {
      (y - o) % m == 0 && 0 <= (y - o) / m < n
    }

    function Pre(y: int): int
      requires m >= 1
    {
      (y - o) / m
    }
  }

  /** The identity map: hits exactly [0, n). */
  lemma UnitAffine(y: int, n: int)
    ensures Affine(1, 0).Hit(y, n) == (0 <= y < n) && Affine(1, 0).Pre(y) == y
  {
  }

  lemma AffineInverse(A: Affine, a: int, n: int)
    requires A.m >= 1 && 0 <= a < n
    ensures A.Hit(A.App(a), n) && A.Pre(A.App(a)) == a
  {
    MulDiv(A.m, a);
  }

  /** Summing, over [0, N), the values F(a) placed at the images of [0, n)
      gives the sum of F over [0, n). */
  lemma {:induction false} Reindex(N: int, n: int, A: Affine, F: int -> real)
    requires A.m >= 1
    requires forall a :: 0 <= a < n ==> 0 <= A.App(a) < N
    ensures Sum(N, y => if A.Hit(y, n) then F(A.Pre(y)) else 0.0) == Sum(n, F)
    decreases n
  {
    var G := y => if A.Hit(y, n) then F(A.Pre(y)) else 0.0;
    if n <= 0 {
      forall y | 0 <= y < N ensures G(y) == 0.0 {
        assert !A.Hit(y, n);
      }
      SumZero(N, G);
    } else {
      var G' := y => if A.Hit(y, n - 1) then F(A.Pre(y)) else 0.0;
      var k := A.App(n - 1);
      AffineInverse(A, n - 1, n);
      forall y | 0 <= y < N && y != k
        ensures G(y) == G'(y)
      {
        if A.Hit(y, n) {
          if A.Pre(y) == n - 1 {
            assert false;
          }
          assert A.Hit(y, n - 1);
        } else {
          assert !A.Hit(y, n - 1);
        }
      }
      SumPoint(N, G, G', k);
      Reindex(N, n - 1, A, F);
    }
  }

  /** Reindex under a guard c that is constant along the dimension. */
  lemma Level(N: int, n: int, A: Affine, c: bool, G: int -> real, H: int -> real)
    requires A.m >= 1
    requires c ==> forall a :: 0 <= a < n ==> 0 <= A.App(a) < N
    requires forall y :: 0 <= y < N ==> G(y) == if c && A.Hit(y, n) then H(A.Pre(y)) else 0.0
    ensures Sum(N, G) == if c then Sum(n, H) else 0.0
  {
    if c {
      SumExt(N, G, y => if A.Hit(y, n) then H(A.Pre(y)) else 0.0);
      Reindex(N, n, A, H);
    } else {
      SumZero(N, G);
    }
  }

  /** The sum over the box [0, N.i0) x ... x [0, N.i3), innermost index last. */
  function Sum4(N: Ix, f: Ix -> real): real {
    Sum(N.i0, i0 => Sum3(N, f, i0))
  }

  function Sum3(N: Ix, f: Ix -> real, i0: int): real {
    Sum(N.i1, i1 => Sum2(N, f, i0, i1))
  }

  function Sum2(N: Ix, f: Ix -> real, i0: int, i1: int): real {
    Sum(N.i2, i2 => Sum1(N, f, i0, i1, i2))
  }

  function Sum1(N: Ix, f: Ix -> real, i0: int, i1: int, i2: int): real {
    Sum(N.i3, i3 => f(Ix(i0, i1, i2, i3)))
  }

  /** A separable index map, one Affine per dimension. */
  datatype Map4 = Map4(a0: Affine, a1: Affine, a2: Affine, a3: Affine)
  {
    predicate Ok() {
      a0.m >= 1 && a1.m >= 1 && a2.m >= 1 && a3.m >= 1
    }

    function App(a: Ix): Ix {
      Ix(a0.App(a.i0), a1.App(a.i1), a2.App(a.i2), a3.App(a.i3))
    }

    predicate Hit(b: Ix, n: Ix)
      requires Ok()
    {
      a0.Hit(b.i0, n.i0) && a1.Hit(b.i1, n.i1) && a2.Hit(b.i2, n.i2) && a3.Hit(b.i3, n.i3)
    }

    function Pre(b: Ix): Ix
      requires Ok()
    {
      Ix(a0.Pre(b.i0), a1.Pre(b.i1), a2.Pre(b.i2), a3.Pre(b.i3))
    }
  }

  predicate InBox(N: Ix, a: Ix) {
    0 <= a.i0 < N.i0 && 0 <= a.i1 < N.i1 && 0 <= a.i2 < N.i2 && 0 <= a.i3 < N.i3
  }

  /** The four-dimensional form of Reindex: scattering Psi through an
      injective separable map and summing over the larger box gives the sum
      of Psi over the smaller one. */
  lemma Reindex4(N: Ix, n: Ix, M: Map4, Psi: Ix -> real)
    requires M.Ok()
    requires forall a :: InBox(n, a) ==> InBox(N, M.App(a))
    ensures Sum4(N, b => if M.Hit(b, n) then Psi(M.Pre(b)) else 0.0) == Sum4(n, Psi)
  {
    var f := b => if M.Hit(b, n) then Psi(M.Pre(b)) else 0.0;
    if !(n.i0 >= 1 && n.i1 >= 1 && n.i2 >= 1 && n.i3 >= 1) {
      forall b | InBox(N, b) ensures f(b) == 0.0 {
        assert !M.Hit(b, n);
      }
      Sum4Zero(N, f);
      Sum4Zero(n, Psi);
      return;
    }
    forall a0 | 0 <= a0 < n.i0 ensures 0 <= M.a0.App(a0) < N.i0 {
      assert InBox(N, M.App(Ix(a0, 0, 0, 0)));
    }
    forall a1 | 0 <= a1 < n.i1 ensures 0 <= M.a1.App(a1) < N.i1 {
      assert InBox(N, M.App(Ix(0, a1, 0, 0)));
    }
    forall a2 | 0 <= a2 < n.i2 ensures 0 <= M.a2.App(a2) < N.i2 {
      assert InBox(N, M.App(Ix(0, 0, a2, 0)));
    }
    forall a3 | 0 <= a3 < n.i3 ensures 0 <= M.a3.App(a3) < N.i3 {
      assert InBox(N, M.App(Ix(0, 0, 0, a3)));
    }
    forall b0, b1, b2
      ensures Sum1(N, f, b0, b1, b2) ==
        if M.a0.Hit(b0, n.i0) && M.a1.Hit(b1, n.i1) && M.a2.Hit(b2, n.i2)
        then Sum1(n, Psi, M.a0.Pre(b0), M.a1.Pre(b1), M.a2.Pre(b2)) else 0.0
    {
      var c := M.a0.Hit(b0, n.i0) && M.a1.Hit(b1, n.i1) && M.a2.Hit(b2, n.i2);
      var H := i3 => Psi(Ix(M.a0.Pre(b0), M.a1.Pre(b1), M.a2.Pre(b2), i3));
      forall y | 0 <= y < N.i3
        ensures f(Ix(b0, b1, b2, y)) == if c && M.a3.Hit(y, n.i3) then H(M.a3.Pre(y)) else 0.0
      {
        assert M.Hit(Ix(b0, b1, b2, y), n) == (c && M.a3.Hit(y, n.i3));
        assert M.Pre(Ix(b0, b1, b2, y)) == Ix(M.a0.Pre(b0), M.a1.Pre(b1), M.a2.Pre(b2), M.a3.Pre(y));
      }
      Level(N.i3, n.i3, M.a3, c, i3 => f(Ix(b0, b1, b2, i3)), H);
    }
    forall b0, b1
      ensures Sum2(N, f, b0, b1) ==
        if M.a0.Hit(b0, n.i0) && M.a1.Hit(b1, n.i1)
        then Sum2(n, Psi, M.a0.Pre(b0), M.a1.Pre(b1)) else 0.0
    {
      var c := M.a0.Hit(b0, n.i0) && M.a1.Hit(b1, n.i1);
      var H := i2 => Sum1(n, Psi, M.a0.Pre(b0), M.a1.Pre(b1), i2);
      Level(N.i2, n.i2, M.a2, c, i2 => Sum1(N, f, b0, b1, i2), H);
    }
    forall b0
      ensures Sum3(N, f, b0) ==
        if M.a0.Hit(b0, n.i0) then Sum3(n, Psi, M.a0.Pre(b0)) else 0.0
    {
      var c := M.a0.Hit(b0, n.i0);
      var H := i1 => Sum2(n, Psi, M.a0.Pre(b0), i1);
      Level(N.i1, n.i1, M.a1, c, i1 => Sum2(N, f, b0, i1), H);
    }
    Level(N.i0, n.i0, M.a0, true, i0 => Sum3(N, f, i0), i0 => Sum3(n, Psi, i0));
  }

  lemma Sum4Zero(N: Ix, f: Ix -> real)
    requires forall b :: InBox(N, b) ==> f(b) == 0.0
    ensures Sum4(N, f) == 0.0
  {
    forall i0, i1, i2 | 0 <= i0 < N.i0 && 0 <= i1 < N.i1 && 0 <= i2 < N.i2
      ensures Sum1(N, f, i0, i1, i2) == 0.0
    {
      SumZero(N.i3, i3 => f(Ix(i0, i1, i2, i3)));
    }
    forall i0, i1 | 0 <= i0 < N.i0 && 0 <= i1 < N.i1
      ensures Sum2(N, f, i0, i1) == 0.0
    {
      SumZero(N.i2, i2 => Sum1(N, f, i0, i1, i2));
    }
    forall i0 | 0 <= i0 < N.i0
      ensures Sum3(N, f, i0) == 0.0
    {
      SumZero(N.i1, i1 => Sum2(N, f, i0, i1));
    }
    SumZero(N.i0, i0 => Sum3(N, f, i0));
  }

  lemma Sum4Ext(N: Ix, f: Ix -> real, g: Ix -> real)
    requires forall b :: InBox(N, b) ==> f(b) == g(b)
    ensures Sum4(N, f) == Sum4(N, g)
  {
    forall i0, i1, i2 | 0 <= i0 < N.i0 && 0 <= i1 < N.i1 && 0 <= i2 < N.i2
      ensures Sum1(N, f, i0, i1, i2) == Sum1(N, g, i0, i1, i2)
    {
      SumExt(N.i3, i3 => f(Ix(i0, i1, i2, i3)), i3 => g(Ix(i0, i1, i2, i3)));
    }
    forall i0, i1 | 0 <= i0 < N.i0 && 0 <= i1 < N.i1
      ensures Sum2(N, f, i0, i1) == Sum2(N, g, i0, i1)
    {
      SumExt(N.i2, i2 => Sum1(N, f, i0, i1, i2), i2 => Sum1(N, g, i0, i1, i2));
    }
    forall i0 | 0 <= i0 < N.i0
      ensures Sum3(N, f, i0) == Sum3(N, g, i0)
    {
      SumExt(N.i1, i1 => Sum2(N, f, i0, i1), i1 => Sum2(N, g, i0, i1));
    }
    SumExt(N.i0, i0 => Sum3(N, f, i0), i0 => Sum3(N, g, i0));
  }

  /** The index box of a view: its loop extents. */
  function Box(v: View): (N: Ix)
    requires v.Ranked()
    ensures forall a :: InBox(N, a) <==> v.InRange(a)
  {
    Ix(v.sizes[0], v.sizes[1], v.sizes[2], v.Extent3())
  }
}
