/**
  Congruence transforms A P A' and diagonal matrices: the two ingredients of the covariance
  prediction (I + F T) P (I + F T)' + T^2 G Q G'.
 */
module Congruence {
  import opened Linear
  import opened Forms

  /** A * P * A' for a matrix A with r rows and n columns. */
  ghost function Transformed(n: nat, P: Mat, r: nat, A: Mat): (R: Mat)
    ensures Shape(R, r, r)
    ensures forall i, j {:trigger At(R, i, j)} :: 0 <= i < r && 0 <= j < r ==>
            At(R, i, j) == Bil(n, P, Row(A, i), Row(A, j))
  {
    seq(r, i => seq(r, j => Bil(n, P, Row(A, i), Row(A, j))))
  }

  /** The sum of two matrices, the second one scaled. */
  ghost function PlusScaled(r: nat, A: Mat, c: real, B: Mat): (R: Mat)
    ensures Shape(R, r, r)
    ensures forall i {:trigger Row(R, i)} :: 0 <= i < r ==> Row(R, i) == Comb(r, 1.0, Row(A, i), c, Row(B, i))
  {
    seq(r, i => Comb(r, 1.0, Row(A, i), c, Row(B, i)))
  }

  ghost function Diagonal(n: nat, q: Vec): (D: Mat)
    ensures Shape(D, n, n)
    ensures forall i, j {:trigger At(D, i, j)} :: 0 <= i < n && 0 <= j < n ==>
            At(D, i, j) == if i == j then V(q, i) else 0.0
  {
    seq(n, i => seq(n, j => if i == j then V(q, i) else 0.0))
  }

  // ------------------------------------------------------------------ A P A'

  /** The combination of the first m rows of A with coefficients x. */
  ghost function Rows(n: nat, A: Mat, x: Vec, m: nat): Vec {
    if m == 0 then Zero(n) else Comb(n, 1.0, Rows(n, A, x, m - 1), V(x, m - 1), Row(A, m - 1))
  }

  lemma {:induction false} BilRows(n: nat, P: Mat, r: nat, A: Mat, u: Vec, x: Vec, m: nat)
    requires m <= r
    ensures Bil(n, P, u, Rows(n, A, x, m)) == Sum(m, k => Bil(n, P, u, Row(A, k)) * V(x, k))
  {
    var f := k => Bil(n, P, u, Row(A, k)) * V(x, k);
    if m == 0 {
      MulZero(n, P);
      DotZero(n, u);
    } else {
      BilRows(n, P, r, A, u, x, m - 1);
      BilRight(n, P, 1.0, Rows(n, A, x, m - 1), V(x, m - 1), Row(A, m - 1), u);
      SumStep(m, f);
    }
  }

  lemma TransformedRow(n: nat, P: Mat, r: nat, A: Mat, i: int, y: Vec)
    requires 0 <= i < r
    ensures Dot(r, Row(Transformed(n, P, r, A), i), y) == Bil(n, P, Row(A, i), Rows(n, A, y, r))
  {
    var f := k => Bil(n, P, Row(A, i), Row(A, k)) * V(y, k);
    forall k | 0 <= k < r
      ensures Products(Row(Transformed(n, P, r, A), i), y)(k) == f(k)
    {
      assert At(Transformed(n, P, r, A), i, k) == Bil(n, P, Row(A, i), Row(A, k));
    }
    SumCong(r, Products(Row(Transformed(n, P, r, A), i), y), f);
    BilRows(n, P, r, A, Row(A, i), y, r);
  }

  lemma TransformedBil(n: nat, P: Mat, r: nat, A: Mat, x: Vec, y: Vec)
    requires Symmetric(n, P)
    ensures Bil(r, Transformed(n, P, r, A), x, y) == Bil(n, P, Rows(n, A, x, r), Rows(n, A, y, r))
  {
    var w := Rows(n, A, y, r);
    var f := k => Bil(n, P, w, Row(A, k)) * V(x, k);
    forall k | 0 <= k < r
      ensures Products(x, Mul(r, Transformed(n, P, r, A), y))(k) == f(k)
    {
      TransformedRow(n, P, r, A, k, y);
      BilSym(n, P, Row(A, k), w);
    }
    SumCong(r, Products(x, Mul(r, Transformed(n, P, r, A), y)), f);
    BilRows(n, P, r, A, w, x, r);
    BilSym(n, P, w, Rows(n, A, x, r));
  }

  /** A P A' is a covariance when P is. */
  lemma TransformedCovariance(n: nat, P: Mat, r: nat, A: Mat)
    requires Symmetric(n, P) && Semidefinite(n, P)
    ensures Covariance(r, Transformed(n, P, r, A))
  {
    forall i, j | 0 <= i < r && 0 <= j < r
      ensures At(Transformed(n, P, r, A), i, j) == At(Transformed(n, P, r, A), j, i)
    {
      BilSym(n, P, Row(A, i), Row(A, j));
    }
    forall x: Vec
      ensures Bil(r, Transformed(n, P, r, A), x, x) >= 0.0
    {
      TransformedBil(n, P, r, A, x, x);
      var u := Rows(n, A, x, r);
      assert Bil(n, P, u, u) >= 0.0;
    }
  }

  // ------------------------------------------------------------------ sums and diagonals

  lemma PlusScaledMul(r: nat, A: Mat, c: real, B: Mat, y: Vec)
    ensures Mul(r, PlusScaled(r, A, c, B), y) == Comb(r, 1.0, Mul(r, A, y), c, Mul(r, B, y))
  {
    var S, z := PlusScaled(r, A, c, B), Comb(r, 1.0, Mul(r, A, y), c, Mul(r, B, y));
    forall i | 0 <= i < r
      ensures V(Mul(r, S, y), i) == V(z, i)
    {
      DotComb(r, 1.0, Row(A, i), c, Row(B, i), y);
    }
    VecExt(r, Mul(r, S, y), z);
  }

  lemma PlusScaledBil(r: nat, A: Mat, c: real, B: Mat, x: Vec, y: Vec)
    ensures Bil(r, PlusScaled(r, A, c, B), x, y) == Bil(r, A, x, y) + c * Bil(r, B, x, y)
  {
    PlusScaledMul(r, A, c, B, y);
    DotComb(r, 1.0, Mul(r, A, y), c, Mul(r, B, y), x);
  }

  lemma PlusScaledCovariance(r: nat, A: Mat, c: real, B: Mat)
    requires Covariance(r, A) && Covariance(r, B) && c >= 0.0
    ensures Covariance(r, PlusScaled(r, A, c, B))
  {
    var S := PlusScaled(r, A, c, B);
    forall i, j | 0 <= i < r && 0 <= j < r
      ensures At(S, i, j) == At(S, j, i)
    {
      PlusScaledEntry(r, A, c, B, i, j);
      PlusScaledEntry(r, A, c, B, j, i);
    }
    forall x: Vec
      ensures Bil(r, S, x, x) >= 0.0
    {
      PlusScaledBil(r, A, c, B, x, x);
      Nonneg(Bil(r, A, x, x), c, Bil(r, B, x, x));
    }
  }

  lemma PlusScaledEntry(r: nat, A: Mat, c: real, B: Mat, i: int, j: int)
    requires 0 <= i < r && 0 <= j < r
    ensures At(PlusScaled(r, A, c, B), i, j) == At(A, i, j) + c * At(B, i, j)
  {
    assert V(Row(PlusScaled(r, A, c, B), i), j) == 1.0 * V(Row(A, i), j) + c * V(Row(B, i), j);
  }

  lemma Nonneg(a: real, c: real, b: real)
    requires a >= 0.0 && c >= 0.0 && b >= 0.0
    ensures a + c * b >= 0.0
  {
  }

  lemma DiagonalMul(n: nat, q: Vec, y: Vec, k: int)
    requires 0 <= k < n
    ensures V(Mul(n, Diagonal(n, q), y), k) == V(q, k) * V(y, k)
  {
    var f := Products(Row(Diagonal(n, q), k), y);
    forall j | 0 <= j < n && j != k
      ensures f(j) == 0.0
    {
      assert At(Diagonal(n, q), k, j) == 0.0;
    }
    assert At(Diagonal(n, q), k, k) == V(q, k);
    SumSingle(n, f, k);
  }

  lemma DiagonalCovariance(n: nat, q: Vec)
    requires forall k :: 0 <= k < n ==> V(q, k) >= 0.0
    ensures Covariance(n, Diagonal(n, q))
  {
    var D := Diagonal(n, q);
    forall x: Vec
      ensures Bil(n, D, x, x) >= 0.0
    {
      forall k | 0 <= k < n
        ensures Products(x, Mul(n, D, x))(k) >= 0.0
      {
        DiagonalMul(n, q, x, k);
        WeightedSquare(V(q, k), V(x, k), V(Mul(n, D, x), k));
      }
      SumNonneg(n, Products(x, Mul(n, D, x)));
    }
  }

  lemma WeightedSquare(q: real, x: real, z: real)
    requires q >= 0.0 && z == q * x
    ensures x * z >= 0.0
  {
    var s := x * x;
    assert s >= 0.0;
    assert x * z == q * s;
    Nonneg(0.0, q, s);
  }
}
