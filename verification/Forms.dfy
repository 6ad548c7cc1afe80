/**
  Bilinear forms x' P y of a matrix P, and the symmetric positive semidefinite ones among them.
 */
module Forms {
  import opened Linear

  ghost function Products(x: Vec, y: Vec): int -> real {
    i => V(x, i) * V(y, i)
  }

  ghost function Dot(n: nat, x: Vec, y: Vec): real {
    Sum(n, Products(x, y))
  }

  function Row(P: Mat, i: int): Vec {
    if 0 <= i < |P| then P[i] else []
  }

  /** P * y */
  ghost function Mul(n: nat, P: Mat, y: Vec): (r: Vec)
    ensures |r| == n
    ensures forall i {:trigger V(r, i)} :: 0 <= i < n ==> V(r, i) == Dot(n, Row(P, i), y)
  {
    seq(n, i => Dot(n, Row(P, i), y))
  }

  /** x' * P * y */
  ghost function Bil(n: nat, P: Mat, x: Vec, y: Vec): real {
    Dot(n, x, Mul(n, P, y))
  }

  ghost function Comb(n: nat, a: real, x: Vec, b: real, y: Vec): (r: Vec)
    ensures |r| == n
    ensures forall i {:trigger V(r, i)} :: 0 <= i < n ==> V(r, i) == a * V(x, i) + b * V(y, i)
  {
    seq(n, i => a * V(x, i) + b * V(y, i))
  }

  ghost function Zero(n: nat): (r: Vec)
    ensures |r| == n
    ensures forall i {:trigger V(r, i)} :: 0 <= i < n ==> V(r, i) == 0.0
  {
    seq(n, i => 0.0)
  }

  /** The k-th unit vector. */
  ghost function Unit(n: nat, k: int): (r: Vec)
    ensures |r| == n
    ensures forall i {:trigger V(r, i)} :: 0 <= i < n ==> V(r, i) == if i == k then 1.0 else 0.0
  {
    seq(n, i => if i == k then 1.0 else 0.0)
  }

  lemma VecExt(n: nat, x: Vec, y: Vec)
    requires |x| == n && |y| == n
    requires forall i :: 0 <= i < n ==> V(x, i) == V(y, i)
    ensures x == y
  {
    forall i | 0 <= i < n
      ensures x[i] == y[i]
    {
      assert V(x, i) == V(y, i);
    }
  }

  ghost predicate Symmetric(n: nat, P: Mat) {
    forall i, j :: 0 <= i < n && 0 <= j < n ==> At(P, i, j) == At(P, j, i)
  }

  ghost predicate Semidefinite(n: nat, P: Mat) {
    forall x: Vec :: Bil(n, P, x, x) >= 0.0
  }

  /** What every step of the filter has to keep of its covariance matrix. */
  ghost predicate Covariance(n: nat, P: Mat) {
    Shape(P, n, n) && Symmetric(n, P) && Semidefinite(n, P)
  }

  // ------------------------------------------------------------------ the inner product

  lemma DotSym(n: nat, x: Vec, y: Vec)
    ensures Dot(n, x, y) == Dot(n, y, x)
  {
    SumCong(n, Products(x, y), Products(y, x));
  }

  lemma DotCong(n: nat, x: Vec, y: Vec, z: Vec)
    requires forall i :: 0 <= i < n ==> V(x, i) == V(y, i)
    ensures Dot(n, x, z) == Dot(n, y, z)
  {
    SumCong(n, Products(x, z), Products(y, z));
  }

  lemma CombTerm(n: nat, a: real, x: Vec, b: real, y: Vec, z: Vec, i: int)
    requires 0 <= i < n
    ensures Products(Comb(n, a, x, b, y), z)(i) == a * Products(x, z)(i) + b * Products(y, z)(i)
  {
    Distribute(V(Comb(n, a, x, b, y), i), a, V(x, i), b, V(y, i), V(z, i));
  }

  lemma Distribute(c: real, a: real, x: real, b: real, y: real, z: real)
    requires c == a * x + b * y
    ensures c * z == a * (x * z) + b * (y * z)
  {
  }

  lemma DotComb(n: nat, a: real, x: Vec, b: real, y: Vec, z: Vec)
    ensures Dot(n, Comb(n, a, x, b, y), z) == a * Dot(n, x, z) + b * Dot(n, y, z)
    ensures Dot(n, z, Comb(n, a, x, b, y)) == a * Dot(n, z, x) + b * Dot(n, z, y)
  {
    forall i | 0 <= i < n
      ensures Products(Comb(n, a, x, b, y), z)(i) == a * Products(x, z)(i) + b * Products(y, z)(i)
    {
      CombTerm(n, a, x, b, y, z, i);
    }
    SumComb(n, Products(Comb(n, a, x, b, y), z), a, Products(x, z), b, Products(y, z));
    DotSym(n, Comb(n, a, x, b, y), z);
    DotSym(n, x, z);
    DotSym(n, y, z);
  }

  lemma DotZero(n: nat, z: Vec)
    ensures Dot(n, Zero(n), z) == 0.0 && Dot(n, z, Zero(n)) == 0.0
  {
    SumZero(n, Products(Zero(n), z));
    SumZero(n, Products(z, Zero(n)));
  }

  lemma DotUnit(n: nat, k: int, y: Vec)
    requires 0 <= k < n
    ensures Dot(n, Unit(n, k), y) == V(y, k) && Dot(n, y, Unit(n, k)) == V(y, k)
  {
    SumSingle(n, Products(Unit(n, k), y), k);
    DotSym(n, Unit(n, k), y);
  }

  // ------------------------------------------------------------------ bilinearity

  lemma MulComb(n: nat, P: Mat, a: real, x: Vec, b: real, y: Vec)
    ensures Mul(n, P, Comb(n, a, x, b, y)) == Comb(n, a, Mul(n, P, x), b, Mul(n, P, y))
  {
    var l, r := Mul(n, P, Comb(n, a, x, b, y)), Comb(n, a, Mul(n, P, x), b, Mul(n, P, y));
    forall i | 0 <= i < n
      ensures V(l, i) == V(r, i)
    {
      DotComb(n, a, x, b, y, Row(P, i));
    }
    VecExt(n, l, r);
  }

  lemma MulZero(n: nat, P: Mat)
    ensures Mul(n, P, Zero(n)) == Zero(n)
  {
    forall i | 0 <= i < n
      ensures V(Mul(n, P, Zero(n)), i) == V(Zero(n), i)
    {
      DotZero(n, Row(P, i));
    }
    VecExt(n, Mul(n, P, Zero(n)), Zero(n));
  }

  lemma BilLeft(n: nat, P: Mat, a: real, x: Vec, b: real, y: Vec, z: Vec)
    ensures Bil(n, P, Comb(n, a, x, b, y), z) == a * Bil(n, P, x, z) + b * Bil(n, P, y, z)
  {
    DotComb(n, a, x, b, y, Mul(n, P, z));
  }

  lemma BilRight(n: nat, P: Mat, a: real, x: Vec, b: real, y: Vec, z: Vec)
    ensures Bil(n, P, z, Comb(n, a, x, b, y)) == a * Bil(n, P, z, x) + b * Bil(n, P, z, y)
  {
    MulComb(n, P, a, x, b, y);
    DotComb(n, a, Mul(n, P, x), b, Mul(n, P, y), z);
  }

  ghost function Terms(P: Mat, x: Vec, y: Vec): (int, int) -> real {
    (i, j) => V(x, i) * (At(P, i, j) * V(y, j))
  }

  /** One row of the double sum, with the outer factor moved inside. */
  lemma RowScaled(n: nat, P: Mat, x: Vec, y: Vec, i: int)
    requires 0 <= i < n
    ensures V(x, i) * V(Mul(n, P, y), i) == RowSum(n, Terms(P, x, y))(i)
  {
    var f, g := Terms(P, x, y), Products(Row(P, i), y);
    SumScale(n, V(x, i), g);
    SumCong(n, RowOf(f, i), j => V(x, i) * g(j));
  }

  lemma BilByRows(n: nat, P: Mat, x: Vec, y: Vec)
    ensures Bil(n, P, x, y) == Sum(n, RowSum(n, Terms(P, x, y)))
  {
    forall i | 0 <= i < n
      ensures V(x, i) * V(Mul(n, P, y), i) == RowSum(n, Terms(P, x, y))(i)
    {
      RowScaled(n, P, x, y, i);
    }
    SumCong(n, Products(x, Mul(n, P, y)), RowSum(n, Terms(P, x, y)));
  }

  lemma TermsSym(n: nat, P: Mat, x: Vec, y: Vec, i: int, j: int)
    requires Symmetric(n, P) && 0 <= i < n && 0 <= j < n
    ensures Terms(P, x, y)(i, j) == Terms(P, y, x)(j, i)
  {
    Reverse(V(x, i), At(P, i, j), V(y, j));
  }

  lemma Reverse(a: real, b: real, c: real)
    ensures a * (b * c) == c * (b * a)
  {
  }

  lemma BilSym(n: nat, P: Mat, x: Vec, y: Vec)
    requires Symmetric(n, P)
    ensures Bil(n, P, x, y) == Bil(n, P, y, x)
  {
    BilByRows(n, P, x, y);
    BilByRows(n, P, y, x);
    SumSwap(n, n, Terms(P, x, y));
    var cols, rows := ColSum(n, Terms(P, x, y)), RowSum(n, Terms(P, y, x));
    forall j | 0 <= j < n
      ensures cols(j) == rows(j)
    {
      forall i | 0 <= i < n
        ensures Terms(P, x, y)(i, j) == Terms(P, y, x)(j, i)
      {
        TermsSym(n, P, x, y, i, j);
      }
      SumCong(n, ColumnOf(Terms(P, x, y), j), RowOf(Terms(P, y, x), j));
    }
    SumCong(n, cols, rows);
  }

  lemma BilComb(n: nat, P: Mat, a: real, x: Vec, b: real, y: Vec)
    requires Symmetric(n, P)
    ensures var z := Comb(n, a, x, b, y);
            Bil(n, P, z, z) == Square(a, b, Bil(n, P, x, x), Bil(n, P, x, y), Bil(n, P, y, y))
  {
    var z := Comb(n, a, x, b, y);
    BilLeft(n, P, a, x, b, y, z);
    BilRight(n, P, a, x, b, y, x);
    BilRight(n, P, a, x, b, y, y);
    BilSym(n, P, x, y);
    Expand(a, b, Bil(n, P, x, x), Bil(n, P, x, y), Bil(n, P, y, y), Bil(n, P, x, z), Bil(n, P, y, z));
  }

  /** The value at a * x + b * y of a form with values xx, xy and yy. */
  ghost function Square(a: real, b: real, xx: real, xy: real, yy: real): real {
    a * a * xx + 2.0 * a * b * xy + b * b * yy
  }

  lemma Expand(a: real, b: real, xx: real, xy: real, yy: real, xz: real, yz: real)
    requires xz == a * xx + b * xy && yz == a * xy + b * yy
    ensures a * xz + b * yz == Square(a, b, xx, xy, yy)
  {
  }

  // ------------------------------------------------------------------ semidefinite forms

  /** The Cauchy-Schwarz inequality for a semidefinite form, which may be degenerate. */
  lemma CauchySchwarz(n: nat, P: Mat, x: Vec, y: Vec)
    requires Symmetric(n, P) && Semidefinite(n, P)
    ensures Bil(n, P, x, y) * Bil(n, P, x, y) <= Bil(n, P, x, x) * Bil(n, P, y, y)
  {
    var a, b, c := Bil(n, P, x, x), Bil(n, P, x, y), Bil(n, P, y, y);
    forall s, t
      ensures Square(s, t, a, b, c) >= 0.0
    {
      BilComb(n, P, s, x, t, y);
      var z := Comb(n, s, x, t, y);
      assert Bil(n, P, z, z) >= 0.0;
    }
    Discriminant(a, b, c);
  }

  lemma Discriminant(a: real, b: real, c: real)
    requires forall s, t :: Square(s, t, a, b, c) >= 0.0
    ensures b * b <= a * c
  {
    assert c == Square(0.0, 1.0, a, b, c);
    if c > 0.0 {
      assert Square(c, -b, a, b, c) == c * (a * c - b * b);
      PositiveFactor(c, a * c - b * b);
    } else if b != 0.0 {
      // the form would take the value -1 on the line x + t * y
      LineValue(a, b);
      assert false;
    }
  }

  lemma LineValue(a: real, b: real)
    requires b != 0.0
    ensures Square(1.0, -(a + 1.0) / (2.0 * b), a, b, 0.0) == -1.0
  {
    var t := -(a + 1.0) / (2.0 * b);
    assert 2.0 * b * t == -(a + 1.0);
  }

  lemma PositiveFactor(c: real, d: real)
    requires c > 0.0 && c * d >= 0.0
    ensures d >= 0.0
  {
    var q := (c * d) / c;
  }
}
