/**
  The covariance prediction Pnew = (I + F T) P (I + F T)' + T^2 G Q G', its symmetry and
  semidefiniteness, and the value of its entries for the sparse F and G of the filter.
 */
module CovariancePrediction {
  import opened Linear
  import opened Forms
  import opened Congruence
  import opened ExpandedEntries

  /** Row i of I + F T. */
  ghost function Moved(n: nat, F: Mat, T: real, i: int): Vec {
    Comb(n, 1.0, Unit(n, i), T, Row(F, i))
  }

  /** I + F T */
  ghost function Transition(n: nat, F: Mat, T: real): (A: Mat)
    ensures Shape(A, n, n)
    ensures forall i {:trigger Row(A, i)} :: 0 <= i < n ==> Row(A, i) == Moved(n, F, T, i)
  {
    seq(n, i => Moved(n, F, T, i))
  }

  /** (I + F T) P (I + F T)' + s G Q G' */
  ghost function MovedPlusNoise(n: nat, w: nat, P: Mat, F: Mat, G: Mat, Q: Vec, T: real, s: real): (R: Mat)
    ensures Shape(R, n, n)
  {
    PlusScaled(n, Transformed(n, P, n, Transition(n, F, T)), s, Transformed(w, Diagonal(w, Q), n, G))
  }

  /** (I + F T) P (I + F T)' + T^2 G Q G' */
  ghost function Predicted(n: nat, w: nat, P: Mat, F: Mat, G: Mat, Q: Vec, T: real): (R: Mat)
    ensures Shape(R, n, n)
  {
    MovedPlusNoise(n, w, P, F, G, Q, T, T * T)
  }

  /** A prediction keeps the covariance symmetric and positive semidefinite, whatever F and G are. */
  lemma PredictedCovariance(n: nat, w: nat, P: Mat, F: Mat, G: Mat, Q: Vec, T: real)
    requires Covariance(n, P)
    requires forall k :: 0 <= k < w ==> V(Q, k) >= 0.0
    ensures Covariance(n, Predicted(n, w, P, F, G, Q, T))
  {
    TransformedCovariance(n, P, n, Transition(n, F, T));
    DiagonalCovariance(w, Q);
    TransformedCovariance(w, Diagonal(w, Q), n, G);
    PlusScaledCovariance(n, Transformed(n, P, n, Transition(n, F, T)),
                         T * T, Transformed(w, Diagonal(w, Q), n, G));
  }

  // ------------------------------------------------------------------ entries for any F and G

  /** (F P)(i, c) */
  ghost function FP(n: nat, P: Mat, F: Mat, i: int, c: int): real {
    Bil(n, P, Row(F, i), Unit(n, c))
  }

  ghost function FPF(n: nat, P: Mat, F: Mat, i: int, j: int): real {
    Bil(n, P, Row(F, i), Row(F, j))
  }

  ghost function Noise(w: nat, G: Mat, Q: Vec, i: int, j: int): real {
    Bil(w, Diagonal(w, Q), Row(G, i), Row(G, j))
  }

  lemma UnitForm(n: nat, P: Mat, i: int, j: int)
    requires 0 <= i < n && 0 <= j < n
    ensures Bil(n, P, Unit(n, i), Unit(n, j)) == At(P, i, j)
  {
    DotUnit(n, i, Mul(n, P, Unit(n, j)));
    DotUnit(n, j, Row(P, i));
  }

  /** The form of P at x + T f and y + T g. */
  lemma ShiftedForm(n: nat, P: Mat, T: real, x: Vec, f: Vec, y: Vec, g: Vec)
    ensures Bil(n, P, Comb(n, 1.0, x, T, f), Comb(n, 1.0, y, T, g)) ==
            Shifted(T, Bil(n, P, x, y), Bil(n, P, f, y), Bil(n, P, x, g), Bil(n, P, f, g))
  {
    var u := Comb(n, 1.0, y, T, g);
    BilLeft(n, P, 1.0, x, T, f, u);
    BilRight(n, P, 1.0, y, T, g, x);
    BilRight(n, P, 1.0, y, T, g, f);
    Collect(T, Bil(n, P, x, y), Bil(n, P, f, y), Bil(n, P, x, g), Bil(n, P, f, g), Bil(n, P, x, u), Bil(n, P, f, u));
  }

  ghost function Shifted(T: real, xy: real, fy: real, xg: real, fg: real): real {
    xy + T * (fy + xg) + T * T * fg
  }

  lemma Collect(T: real, xy: real, fy: real, xg: real, fg: real, xw: real, fw: real)
    requires xw == 1.0 * xy + T * xg && fw == 1.0 * fy + T * fg
    ensures 1.0 * xw + T * fw == Shifted(T, xy, fy, xg, fg)
  {
  }

  lemma MovedForm(n: nat, P: Mat, F: Mat, T: real, i: int, j: int)
    requires Symmetric(n, P) && 0 <= i < n && 0 <= j < n
    ensures Bil(n, P, Moved(n, F, T, i), Moved(n, F, T, j)) ==
            Shifted(T, At(P, i, j), FP(n, P, F, i, j), FP(n, P, F, j, i), FPF(n, P, F, i, j))
  {
    ShiftedForm(n, P, T, Unit(n, i), Row(F, i), Unit(n, j), Row(F, j));
    UnitForm(n, P, i, j);
    BilSym(n, P, Unit(n, i), Row(F, j));
  }

  lemma PredictedAt(n: nat, w: nat, P: Mat, F: Mat, G: Mat, Q: Vec, T: real, s: real, i: int, j: int)
    requires 0 <= i < n && 0 <= j < n
    ensures At(MovedPlusNoise(n, w, P, F, G, Q, T, s), i, j) ==
            Bil(n, P, Moved(n, F, T, i), Moved(n, F, T, j)) + s * Noise(w, G, Q, i, j)
  {
    var A, B := Transformed(n, P, n, Transition(n, F, T)), Transformed(w, Diagonal(w, Q), n, G);
    assert At(A, i, j) == Bil(n, P, Moved(n, F, T, i), Moved(n, F, T, j));
    assert At(B, i, j) == Noise(w, G, Q, i, j);
    PlusScaledEntry(n, A, s, B, i, j);
  }

  /** Entry (i, j) of the prediction. */
  lemma PredictedEntry(n: nat, w: nat, P: Mat, F: Mat, G: Mat, Q: Vec, T: real, i: int, j: int)
    requires Symmetric(n, P) && 0 <= i < n && 0 <= j < n
    ensures At(Predicted(n, w, P, F, G, Q, T), i, j) ==
            PolyIn(T, T * T, FPF(n, P, F, i, j) + Noise(w, G, Q, i, j), FP(n, P, F, i, j) + FP(n, P, F, j, i),
                   At(P, i, j))
  {
    PredictedAt(n, w, P, F, G, Q, T, T * T, i, j);
    MovedForm(n, P, F, T, i, j);
    Combine(T, At(P, i, j), FP(n, P, F, i, j), FP(n, P, F, j, i), FPF(n, P, F, i, j), Noise(w, G, Q, i, j));
  }

  lemma Combine(T: real, p: real, a: real, b: real, c: real, q: real)
    ensures Shifted(T, p, a, b, c) + T * T * q == PolyIn(T, T * T, c + q, a + b, p)
  {
  }

  // ------------------------------------------------------------------ entries for the sparse F and G

  /** The entries LinearizeFG writes besides the constant ones. */
  predicate WrittenF(i: int, j: int) {
    (3 <= i < 6 && 6 <= j < 10) || (6 <= i < 10 && 6 <= j < 13 && i != j)
  }

  predicate WrittenG(i: int, j: int) {
    (3 <= i < 6 && 3 <= j < 6) || (6 <= i < 10 && 0 <= j < 3)
  }

  /** F with every entry that LinearizeFG does not write replaced by its constant zero or one. */
  ghost function NormF(F: Mat): (N: Mat)
    ensures Shape(N, 13, 13)
    ensures forall i, j {:trigger At(N, i, j)} :: 0 <= i < 13 && 0 <= j < 13 ==>
      At(N, i, j) == if WrittenF(i, j) then At(F, i, j) else if i < 3 && j == i + 3 then 1.0 else 0.0
  {
    seq(13, i => seq(13, j =>
      if WrittenF(i, j) then At(F, i, j) else if i < 3 && j == i + 3 then 1.0 else 0.0))
  }

  ghost function NormG(G: Mat): (N: Mat)
    ensures Shape(N, 13, 9)
    ensures forall i, j {:trigger At(N, i, j)} :: 0 <= i < 13 && 0 <= j < 9 ==>
      At(N, i, j) == if WrittenG(i, j) then At(G, i, j) else if i >= 10 && j == i - 4 then 1.0 else 0.0
  {
    seq(13, i => seq(9, j =>
      if WrittenG(i, j) then At(G, i, j) else if i >= 10 && j == i - 4 then 1.0 else 0.0))
  }

  lemma Sum9(w: nat, f: int -> real)
    requires NoiseCount(w)
    ensures Sum(w, f) == f(0) + f(1) + f(2) + f(3) + f(4) + f(5) + f(6) + f(7) + f(8)
  {
    SumZero(w - 9, f);
    SumStep(w - 8, f);
    SumStep(w - 7, f);
    SumStep(w - 6, f);
    SumStep(w - 5, f);
    SumStep(w - 4, f);
    SumStep(w - 3, f);
    SumStep(w - 2, f);
    SumStep(w - 1, f);
    SumStep(w, f);
  }

  lemma Sum13(n: nat, f: int -> real)
    requires StateCount(n)
    requires forall k :: 0 <= k < 6 ==> f(k) == 0.0
    ensures Sum(n, f) == f(6) + f(7) + f(8) + f(9) + f(10) + f(11) + f(12)
  {
    SumZero(n - 7, f);
    SumStep(n - 6, f);
    SumStep(n - 5, f);
    SumStep(n - 4, f);
    SumStep(n - 3, f);
    SumStep(n - 2, f);
    SumStep(n - 1, f);
    SumStep(n, f);
  }

  lemma DotFromSix(n: nat, x: Vec, z: Vec)
    requires StateCount(n)
    requires forall k :: 0 <= k < 6 ==> V(x, k) == 0.0
    ensures Dot(n, x, z) ==
            V(x, 6) * V(z, 6) + V(x, 7) * V(z, 7) + V(x, 8) * V(z, 8) + V(x, 9) * V(z, 9)
            + V(x, 10) * V(z, 10) + V(x, 11) * V(z, 11) + V(x, 12) * V(z, 12)
  {
    Sum13(n, Products(x, z));
  }

  /** Row i of the sparse F times a vector. */
  ghost function SparseF(F: Mat, i: int, z: Vec): real {
    if i < 3 then V(z, i + 3)
    else if i < 6 then
      At(F, i, 6) * V(z, 6) + At(F, i, 7) * V(z, 7) + At(F, i, 8) * V(z, 8) + At(F, i, 9) * V(z, 9)
    else if i == 6 then
      At(F, i, 7) * V(z, 7) + At(F, i, 8) * V(z, 8) + At(F, i, 9) * V(z, 9)
      + At(F, i, 10) * V(z, 10) + At(F, i, 11) * V(z, 11) + At(F, i, 12) * V(z, 12)
    else if i == 7 then
      At(F, i, 6) * V(z, 6) + At(F, i, 8) * V(z, 8) + At(F, i, 9) * V(z, 9)
      + At(F, i, 10) * V(z, 10) + At(F, i, 11) * V(z, 11) + At(F, i, 12) * V(z, 12)
    else if i == 8 then
      At(F, i, 6) * V(z, 6) + At(F, i, 7) * V(z, 7) + At(F, i, 9) * V(z, 9)
      + At(F, i, 10) * V(z, 10) + At(F, i, 11) * V(z, 11) + At(F, i, 12) * V(z, 12)
    else if i == 9 then
      At(F, i, 6) * V(z, 6) + At(F, i, 7) * V(z, 7) + At(F, i, 8) * V(z, 8)
      + At(F, i, 10) * V(z, 10) + At(F, i, 11) * V(z, 11) + At(F, i, 12) * V(z, 12)
    else 0.0
  }

  lemma NormRow(F: Mat, i: int, j: int)
    requires 0 <= i < 13 && 0 <= j < 13
    ensures V(Row(NormF(F), i), j) ==
            if WrittenF(i, j) then At(F, i, j) else if i < 3 && j == i + 3 then 1.0 else 0.0
  {
    assert At(NormF(F), i, j) == V(Row(NormF(F), i), j);
  }

  lemma SparseUnit(n: nat, i: int, x: Vec, z: Vec)
    requires StateCount(n) && 0 <= i < n && forall k :: 0 <= k < n ==> V(x, k) == if k == i then 1.0 else 0.0
    ensures Dot(n, x, z) == V(z, i)
  {
    SumSingle(n, Products(x, z), i);
  }

  lemma SparseDot(n: nat, F: Mat, i: int, z: Vec)
    requires StateCount(n) && 0 <= i < n
    ensures Dot(n, Row(NormF(F), i), z) == SparseF(F, i, z)
  {
    var x := Row(NormF(F), i);
    forall k | 0 <= k < 13
      ensures V(x, k) == if WrittenF(i, k) then At(F, i, k) else if i < 3 && k == i + 3 then 1.0 else 0.0
    {
      NormRow(F, i, k);
    }
    if i < 3 {
      SparseUnit(n, i + 3, x, z);
    } else if i < 10 {
      DotFromSix(n, x, z);
      SparseTail(F, i, x, z);
    } else {
      SumZero(n, Products(x, z));
    }
  }

  lemma SparseTail(F: Mat, i: int, x: Vec, z: Vec)
    requires 3 <= i < 10
    requires forall k :: 0 <= k < 13 ==> V(x, k) == if WrittenF(i, k) then At(F, i, k) else 0.0
    ensures SparseF(F, i, z) ==
            V(x, 6) * V(z, 6) + V(x, 7) * V(z, 7) + V(x, 8) * V(z, 8) + V(x, 9) * V(z, 9)
            + V(x, 10) * V(z, 10) + V(x, 11) * V(z, 11) + V(x, 12) * V(z, 12)
  {
    TailTerm(F, i, x, z, 6);
    TailTerm(F, i, x, z, 7);
    TailTerm(F, i, x, z, 8);
    TailTerm(F, i, x, z, 9);
    TailTerm(F, i, x, z, 10);
    TailTerm(F, i, x, z, 11);
    TailTerm(F, i, x, z, 12);
  }

  lemma TailTerm(F: Mat, i: int, x: Vec, z: Vec, k: int)
    requires V(x, k) == if WrittenF(i, k) then At(F, i, k) else 0.0
    ensures V(x, k) * V(z, k) == if WrittenF(i, k) then At(F, i, k) * V(z, k) else 0.0
  {
  }
}
