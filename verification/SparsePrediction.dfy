/**
  The sparse products behind the expanded covariance prediction are the entries of
  (I + F T) P (I + F T)' + T^2 G Q G' for the F and G whose constant entries are in place.
 */
module SparsePrediction {
  import opened Linear
  import opened Forms
  import opened Congruence
  import opened ExpandedEntries
  import opened CovariancePrediction

  /** D agrees with P on and above the diagonal. */
  ghost predicate UpperCopy(n: nat, D: Mat, P: Mat) {
    forall i, j :: 0 <= i <= j < n ==> At(D, i, j) == At(P, i, j)
  }

  function TablesOf(F: Mat, G: Mat, Q: Vec, D: Mat, T: real): Tables {
    Tables((i, j) => At(F, i, j), (i, j) => At(G, i, j), k => V(Q, k), (i, j) => At(D, i, j), T, T * T)
  }

  lemma UnitColumn(n: nat, P: Mat, k: int, c: int)
    requires 0 <= k < n && 0 <= c < n
    ensures V(Mul(n, P, Unit(n, c)), k) == At(P, k, c)
  {
    DotUnit(n, c, Row(P, k));
  }

  lemma SameProduct(a: real, b: real, c: real, d: real)
    requires a == c && b == d
    ensures a * b == c * d
  {
  }

  /** Row i of F times a column, from the tables and from the matrices. */
  lemma FDIsSparse(t: Tables, F: Mat, i: int, c: int, z: Vec)
    requires 0 <= i < 13
    requires forall k :: t.F(i, k) == At(F, i, k)
    requires forall k :: 0 <= k < 13 ==> V(z, k) == t.Up(k, c)
    ensures t.FD(i, c) == SparseF(F, i, z)
  {
    SameProduct(t.F(i, 6), t.Up(6, c), At(F, i, 6), V(z, 6));
    SameProduct(t.F(i, 7), t.Up(7, c), At(F, i, 7), V(z, 7));
    SameProduct(t.F(i, 8), t.Up(8, c), At(F, i, 8), V(z, 8));
    SameProduct(t.F(i, 9), t.Up(9, c), At(F, i, 9), V(z, 9));
    SameProduct(t.F(i, 10), t.Up(10, c), At(F, i, 10), V(z, 10));
    SameProduct(t.F(i, 11), t.Up(11, c), At(F, i, 11), V(z, 11));
    SameProduct(t.F(i, 12), t.Up(12, c), At(F, i, 12), V(z, 12));
  }

  lemma FDFIsSparse(t: Tables, F: Mat, i: int, j: int, z: Vec)
    requires 0 <= j < 13
    requires forall k :: t.F(j, k) == At(F, j, k)
    requires forall k :: 0 <= k < 13 ==> V(z, k) == t.FD(i, k)
    ensures t.FDF(i, j) == SparseF(F, j, z)
  {
    SameProduct(t.F(j, 6), t.FD(i, 6), At(F, j, 6), V(z, 6));
    SameProduct(t.F(j, 7), t.FD(i, 7), At(F, j, 7), V(z, 7));
    SameProduct(t.F(j, 8), t.FD(i, 8), At(F, j, 8), V(z, 8));
    SameProduct(t.F(j, 9), t.FD(i, 9), At(F, j, 9), V(z, 9));
    SameProduct(t.F(j, 10), t.FD(i, 10), At(F, j, 10), V(z, 10));
    SameProduct(t.F(j, 11), t.FD(i, 11), At(F, j, 11), V(z, 11));
    SameProduct(t.F(j, 12), t.FD(i, 12), At(F, j, 12), V(z, 12));
  }

  lemma UpIsColumn(n: nat, t: Tables, F: Mat, G: Mat, Q: Vec, D: Mat, P: Mat, c: int, k: int)
    requires Symmetric(n, P) && UpperCopy(n, D, P) && t == TablesOf(F, G, Q, D, t.T)
    requires 0 <= k < n && 0 <= c < n
    ensures V(Mul(n, P, Unit(n, c)), k) == t.Up(k, c) == At(P, k, c)
  {
    UnitColumn(n, P, k, c);
    assert At(P, k, c) == At(P, c, k);
  }

  lemma SparseFP(n: nat, t: Tables, F: Mat, G: Mat, Q: Vec, D: Mat, P: Mat, i: int, c: int)
    requires StateCount(n) && Symmetric(n, P) && UpperCopy(n, D, P) && t == TablesOf(F, G, Q, D, t.T)
    requires 0 <= i < n && 0 <= c < n
    ensures t.FD(i, c) == FP(n, P, NormF(F), i, c)
  {
    var z := Mul(n, P, Unit(n, c));
    forall k | 0 <= k < n
      ensures V(z, k) == t.Up(k, c)
    {
      UpIsColumn(n, t, F, G, Q, D, P, c, k);
    }
    FDIsSparse(t, F, i, c, z);
    SparseDot(n, F, i, z);
  }

  lemma FPIsColumn(n: nat, t: Tables, F: Mat, G: Mat, Q: Vec, D: Mat, P: Mat, i: int, k: int)
    requires StateCount(n) && Symmetric(n, P) && UpperCopy(n, D, P) && t == TablesOf(F, G, Q, D, t.T)
    requires 0 <= i < n && 0 <= k < n
    ensures V(Mul(n, P, Row(NormF(F), i)), k) == t.FD(i, k)
  {
    DotUnit(n, k, Mul(n, P, Row(NormF(F), i)));
    BilSym(n, P, Unit(n, k), Row(NormF(F), i));
    SparseFP(n, t, F, G, Q, D, P, i, k);
  }

  lemma SparseFPF(n: nat, t: Tables, F: Mat, G: Mat, Q: Vec, D: Mat, P: Mat, i: int, j: int)
    requires StateCount(n) && Symmetric(n, P) && UpperCopy(n, D, P) && t == TablesOf(F, G, Q, D, t.T)
    requires 0 <= i < n && 0 <= j < n
    ensures t.FDF(i, j) == FPF(n, P, NormF(F), i, j)
  {
    var z := Mul(n, P, Row(NormF(F), i));
    forall k | 0 <= k < n
      ensures V(z, k) == t.FD(i, k)
    {
      FPIsColumn(n, t, F, G, Q, D, P, i, k);
    }
    FDFIsSparse(t, F, i, j, z);
    SparseDot(n, F, j, z);
    BilSym(n, P, Row(NormF(F), i), Row(NormF(F), j));
  }

  lemma NormGRow(G: Mat, i: int, k: int)
    requires 0 <= i < 13 && 0 <= k < 9
    ensures V(Row(NormG(G), i), k) == if WrittenG(i, k) then At(G, i, k) else if i >= 10 && k == i - 4 then 1.0 else 0.0
  {
    assert At(NormG(G), i, k) == V(Row(NormG(G), i), k);
  }

  /** A term of the noise sum, in the order of the code. */
  ghost function NoiseTerm(G: Mat, Q: Vec, i: int, j: int): int -> real {
    k => V(Row(G, i), k) * V(Row(G, j), k) * V(Q, k)
  }

  lemma NoiseSum(w: nat, G: Mat, Q: Vec, i: int, j: int)
    ensures Noise(w, G, Q, i, j) == Sum(w, NoiseTerm(G, Q, i, j))
  {
    var D := Diagonal(w, Q);
    forall k | 0 <= k < w
      ensures Products(Row(G, i), Mul(w, D, Row(G, j)))(k) == NoiseTerm(G, Q, i, j)(k)
    {
      DiagonalMul(w, Q, Row(G, j), k);
      Reorder(V(Row(G, i), k), V(Row(G, j), k), V(Q, k), V(Mul(w, D, Row(G, j)), k));
    }
    SumCong(w, Products(Row(G, i), Mul(w, D, Row(G, j))), NoiseTerm(G, Q, i, j));
  }

  lemma Reorder(a: real, b: real, q: real, z: real)
    requires z == q * b
    ensures a * z == a * b * q
  {
  }

  /** Where the product of two entries of G in column k can differ from zero. */
  predicate BothWritten(i: int, j: int, k: int) {
    (WrittenG(i, k) && WrittenG(j, k)) || (i >= 10 && i == j && k == i - 4)
  }

  lemma NoiseTermZero(G: Mat, Q: Vec, i: int, j: int, k: int)
    requires 0 <= i < 13 && 0 <= j < 13 && 0 <= k < 9
    ensures !BothWritten(i, j, k) ==> NoiseTerm(NormG(G), Q, i, j)(k) == 0.0
    ensures WrittenG(i, k) && WrittenG(j, k) ==> NoiseTerm(NormG(G), Q, i, j)(k) == At(G, i, k) * At(G, j, k) * V(Q, k)
    ensures i >= 10 && i == j && k == i - 4 ==> NoiseTerm(NormG(G), Q, i, j)(k) == V(Q, k)
  {
    NormGRow(G, i, k);
    NormGRow(G, j, k);
  }

  ghost function ColumnSum(f: int -> real, i: int, j: int): real {
    if 3 <= i < 6 && 3 <= j < 6 then f(3) + f(4) + f(5)
    else if 6 <= i < 10 && 6 <= j < 10 then f(0) + f(1) + f(2)
    else if 10 <= i == j then f(i - 4)
    else 0.0
  }

  lemma SumColumns(w: nat, f: int -> real, i: int, j: int)
    requires NoiseCount(w) && 0 <= i < 13 && 0 <= j < 13
    requires forall k :: 0 <= k < w && !BothWritten(i, j, k) ==> f(k) == 0.0
    ensures Sum(w, f) == ColumnSum(f, i, j)
  {
    if 10 <= i == j {
      SumSingle(w, f, i - 4);
    } else {
      Sum9(w, f);
    }
  }

  /** The products of entries of G vanish outside three columns, or one. */
  lemma NoiseColumns(w: nat, G: Mat, Q: Vec, i: int, j: int)
    requires NoiseCount(w) && 0 <= i < 13 && 0 <= j < 13
    ensures Noise(w, NormG(G), Q, i, j) == ColumnSum(NoiseTerm(NormG(G), Q, i, j), i, j)
  {
    var f := NoiseTerm(NormG(G), Q, i, j);
    NoiseSum(w, NormG(G), Q, i, j);
    forall k | 0 <= k < w && !BothWritten(i, j, k)
      ensures f(k) == 0.0
    {
      NoiseTermZero(G, Q, i, j, k);
    }
    SumColumns(w, f, i, j);
  }

  lemma NoiseProduct(t: Tables, F: Mat, G: Mat, Q: Vec, D: Mat, i: int, j: int, k: int)
    requires t == TablesOf(F, G, Q, D, t.T) && 0 <= i < 13 && 0 <= j < 13 && 0 <= k < 9
    requires WrittenG(i, k) && WrittenG(j, k)
    ensures t.G(i, k) * t.G(j, k) * t.Q(k) == NoiseTerm(NormG(G), Q, i, j)(k)
  {
    NoiseTermZero(G, Q, i, j, k);
    SameProduct(t.G(i, k), t.G(j, k), At(G, i, k), At(G, j, k));
    SameProduct(t.G(i, k) * t.G(j, k), t.Q(k), At(G, i, k) * At(G, j, k), V(Q, k));
  }

  lemma SparseNoise(w: nat, t: Tables, F: Mat, G: Mat, Q: Vec, D: Mat, i: int, j: int)
    requires NoiseCount(w) && t == TablesOf(F, G, Q, D, t.T)
    requires 0 <= i < 13 && 0 <= j < 13
    ensures t.GQG(i, j) == Noise(w, NormG(G), Q, i, j)
  {
    NoiseColumns(w, G, Q, i, j);
    if 3 <= i < 6 && 3 <= j < 6 {
      NoiseTriple(t, F, G, Q, D, i, j, 3);
    } else if 6 <= i < 10 && 6 <= j < 10 {
      NoiseTriple(t, F, G, Q, D, i, j, 0);
    } else if 10 <= i == j {
      NoiseTermZero(G, Q, i, j, i - 4);
    }
  }

  lemma NoiseTriple(t: Tables, F: Mat, G: Mat, Q: Vec, D: Mat, i: int, j: int, k: int)
    requires t == TablesOf(F, G, Q, D, t.T)
    requires if k == 3 then 3 <= i < 6 && 3 <= j < 6 else k == 0 && 6 <= i < 10 && 6 <= j < 10
    ensures t.GQG(i, j) == NoiseTerm(NormG(G), Q, i, j)(k) + NoiseTerm(NormG(G), Q, i, j)(k + 1)
                           + NoiseTerm(NormG(G), Q, i, j)(k + 2)
  {
    NoiseProduct(t, F, G, Q, D, i, j, k);
    NoiseProduct(t, F, G, Q, D, i, j, k + 1);
    NoiseProduct(t, F, G, Q, D, i, j, k + 2);
  }

  /** Every expanded entry is the entry of the predicted covariance: the expanded code computes the
      prediction for the F and G in which the entries it never reads have their constant values. */
  lemma EntryIsPredicted(n: nat, w: nat, t: Tables, F: Mat, G: Mat, Q: Vec, D: Mat, P: Mat, i: int, j: int)
    requires StateCount(n) && NoiseCount(w) && Symmetric(n, P) && UpperCopy(n, D, P) && t == TablesOf(F, G, Q, D, t.T)
    requires t.Tsq == t.T * t.T
    requires 0 <= i < n && 0 <= j < n
    ensures t.Entry(i, j) == At(Predicted(n, w, P, NormF(F), NormG(G), Q, t.T), i, j)
  {
    PolyIsPredicted(n, w, P, NormF(F), NormG(G), Q, t.T, t.Tsq, i, j);
    EntryIsPoly(n, w, t, F, G, Q, D, P, i, j);
  }

  lemma EntryIsPoly(n: nat, w: nat, t: Tables, F: Mat, G: Mat, Q: Vec, D: Mat, P: Mat, i: int, j: int)
    requires StateCount(n) && NoiseCount(w) && Symmetric(n, P) && UpperCopy(n, D, P) && t == TablesOf(F, G, Q, D, t.T)
    requires 0 <= i < n && 0 <= j < n
    ensures t.Entry(i, j) == PredictedPoly(n, w, P, NormF(F), NormG(G), Q, t.T, t.Tsq, i, j)
  {
    EntryParts(n, w, t, F, G, Q, D, P, i, j);
    EntryForm(t, i, j);
  }

  function PolyOf(T: real, s: real, a: real, b: real, c: real, d: real, e: real): real {
    PolyIn(T, s, a + b, c + d, e)
  }

  lemma EntryForm(t: Tables, i: int, j: int)
    ensures t.Entry(i, j) == PolyOf(t.T, t.Tsq, t.FDF(i, j), t.GQG(i, j), t.FD(i, j), t.FD(j, i), t.Up(i, j))
  {
  }

  lemma EntryParts(n: nat, w: nat, t: Tables, F: Mat, G: Mat, Q: Vec, D: Mat, P: Mat, i: int, j: int)
    requires StateCount(n) && NoiseCount(w) && Symmetric(n, P) && UpperCopy(n, D, P) && t == TablesOf(F, G, Q, D, t.T)
    requires 0 <= i < n && 0 <= j < n
    ensures t.Up(i, j) == At(P, i, j)
    ensures t.FD(i, j) == FP(n, P, NormF(F), i, j)
    ensures t.FD(j, i) == FP(n, P, NormF(F), j, i)
    ensures t.FDF(i, j) == FPF(n, P, NormF(F), i, j)
    ensures t.GQG(i, j) == Noise(w, NormG(G), Q, i, j)
  {
    UpIsColumn(n, t, F, G, Q, D, P, j, i);
    SparseFP(n, t, F, G, Q, D, P, i, j);
    SparseFP(n, t, F, G, Q, D, P, j, i);
    SparseFPF(n, t, F, G, Q, D, P, i, j);
    SparseNoise(w, t, F, G, Q, D, i, j);
  }

  ghost function PredictedPoly(n: nat, w: nat, P: Mat, F: Mat, G: Mat, Q: Vec, T: real, s: real, i: int, j: int): real {
    PolyOf(T, s, FPF(n, P, F, i, j), Noise(w, G, Q, i, j), FP(n, P, F, i, j), FP(n, P, F, j, i), At(P, i, j))
  }

  lemma PolyIsPredicted(n: nat, w: nat, P: Mat, F: Mat, G: Mat, Q: Vec, T: real, s: real, i: int, j: int)
    requires Symmetric(n, P) && 0 <= i < n && 0 <= j < n && s == T * T
    ensures PredictedPoly(n, w, P, F, G, Q, T, s, i, j) == At(Predicted(n, w, P, F, G, Q, T), i, j)
  {
    PredictedEntry(n, w, P, F, G, Q, T, i, j);
  }
}
