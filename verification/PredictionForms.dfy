/**
  When the two forms of the covariance prediction agree.  The expanded form has the entries that
  LinearizeFG never writes built in; the general form reads them.
 */
module PredictionForms {
  import opened Linear
  import opened Forms
  import opened Congruence
  import opened CovariancePrediction
  import opened ExpandedEntries
  import opened FilterRuns
  import opened AttitudeStep
  import opened Linearization

  ghost predicate SameEntries(n: nat, A: Mat, B: Mat) {
    forall i, j :: 0 <= i < n && 0 <= j < n ==> At(A, i, j) == At(B, i, j)
  }

  ghost predicate SameNoise(n: nat, w: nat, G: Mat, H: Mat, Q: Vec) {
    forall i, j :: 0 <= i < n && 0 <= j < n ==> Noise(w, G, Q, i, j) == Noise(w, H, Q, i, j)
  }

  /** The predictions with F and G and those with E and H are the same. */
  ghost predicate SamePredictions(n: nat, w: nat, F: Mat, G: Mat, E: Mat, H: Mat, Q: Vec) {
    forall P: Mat, T: real :: Covariance(n, P) && T != 0.0 ==>
      Predicted(n, w, P, F, G, Q, T) == Predicted(n, w, P, E, H, Q, T)
  }

  // ------------------------------------------------------------------ the same matrices, the same predictions

  lemma SameForm(n: nat, P: Mat, x: Vec, u: Vec, y: Vec, v: Vec)
    requires forall k :: 0 <= k < n ==> V(x, k) == V(u, k)
    requires forall k :: 0 <= k < n ==> V(y, k) == V(v, k)
    ensures Bil(n, P, x, y) == Bil(n, P, u, v)
  {
    forall k | 0 <= k < n
      ensures V(Mul(n, P, y), k) == V(Mul(n, P, v), k)
    {
      DotSym(n, Row(P, k), y);
      DotSym(n, Row(P, k), v);
      DotCong(n, y, v, Row(P, k));
    }
    VecExt(n, Mul(n, P, y), Mul(n, P, v));
    DotCong(n, x, u, Mul(n, P, y));
  }

  lemma SameParts(n: nat, P: Mat, F: Mat, E: Mat, i: int, j: int)
    requires SameEntries(n, F, E) && 0 <= i < n && 0 <= j < n
    ensures FPF(n, P, F, i, j) == FPF(n, P, E, i, j) && FP(n, P, F, i, j) == FP(n, P, E, i, j)
  {
    forall r, k | 0 <= r < n && 0 <= k < n
      ensures V(Row(F, r), k) == V(Row(E, r), k)
    {
      assert At(F, r, k) == At(E, r, k);
    }
    SameForm(n, P, Row(F, i), Row(E, i), Row(F, j), Row(E, j));
    SameForm(n, P, Row(F, i), Row(E, i), Unit(n, j), Unit(n, j));
  }

  lemma SameMatricesPredict(n: nat, w: nat, P: Mat, F: Mat, G: Mat, E: Mat, H: Mat, Q: Vec, T: real)
    requires Symmetric(n, P) && SameEntries(n, F, E) && SameNoise(n, w, G, H, Q)
    ensures Predicted(n, w, P, F, G, Q, T) == Predicted(n, w, P, E, H, Q, T)
  {
    var A, B := Predicted(n, w, P, F, G, Q, T), Predicted(n, w, P, E, H, Q, T);
    forall i, j | 0 <= i < n && 0 <= j < n
      ensures At(A, i, j) == At(B, i, j)
    {
      PredictedEntry(n, w, P, F, G, Q, T, i, j);
      PredictedEntry(n, w, P, E, H, Q, T, i, j);
      SameParts(n, P, F, E, i, j);
      SameParts(n, P, F, E, j, i);
    }
    MatExt(A, B, n, n);
  }

  // ------------------------------------------------------------------ the same predictions, the same matrices

  /** The prediction over one second forward or backward. */
  lemma OneSecond(n: nat, w: nat, P: Mat, F: Mat, G: Mat, Q: Vec, T: real, i: int, c: int)
    requires Symmetric(n, P) && 0 <= i < n && 0 <= c < n && (T == 1.0 || T == -1.0)
    ensures At(Predicted(n, w, P, F, G, Q, T), i, c) ==
            FPF(n, P, F, i, c) + Noise(w, G, Q, i, c)
            + (if T == 1.0 then FP(n, P, F, i, c) + FP(n, P, F, c, i) else -(FP(n, P, F, i, c) + FP(n, P, F, c, i)))
            + At(P, i, c)
  {
    PredictedEntry(n, w, P, F, G, Q, T, i, c);
    UnitTime(T, FPF(n, P, F, i, c) + Noise(w, G, Q, i, c), FP(n, P, F, i, c) + FP(n, P, F, c, i), At(P, i, c));
  }

  lemma UnitTime(T: real, q: real, l: real, p: real)
    requires T == 1.0 || T == -1.0
    ensures PolyIn(T, T * T, q, l, p) == q + (if T == 1.0 then l else -l) + p
  {
  }

  /** Without a covariance only the noise is left. */
  lemma FromNothing(n: nat, w: nat, F: Mat, G: Mat, Q: Vec, i: int, j: int)
    requires 0 <= i < n && 0 <= j < n
    ensures Covariance(n, Diagonal(n, Zero(n)))
    ensures At(Predicted(n, w, Diagonal(n, Zero(n)), F, G, Q, 1.0), i, j) == Noise(w, G, Q, i, j)
  {
    var P := Diagonal(n, Zero(n));
    DiagonalCovariance(n, Zero(n));
    OneSecond(n, w, P, F, G, Q, 1.0, i, j);
    NothingMul(n, Row(F, j));
    NothingMul(n, Unit(n, j));
    NothingMul(n, Unit(n, i));
    DotZero(n, Row(F, i));
    DotZero(n, Row(F, j));
  }

  lemma NothingMul(n: nat, y: Vec)
    ensures Mul(n, Diagonal(n, Zero(n)), y) == Zero(n)
  {
    forall k | 0 <= k < n
      ensures V(Mul(n, Diagonal(n, Zero(n)), y), k) == V(Zero(n), k)
    {
      DiagonalMul(n, Zero(n), y, k);
    }
    VecExt(n, Mul(n, Diagonal(n, Zero(n)), y), Zero(n));
  }

  /** The variance of one state only, c: then column c of F P is column c of F. */
  lemma OneVariance(n: nat, F: Mat, i: int, j: int, c: int)
    requires 0 <= i < n && 0 <= j < n && 0 <= c < n
    ensures FP(n, Diagonal(n, Unit(n, c)), F, i, j) == if j == c then At(F, i, c) else 0.0
  {
    var P := Diagonal(n, Unit(n, c));
    forall k | 0 <= k < n
      ensures V(Mul(n, P, Unit(n, j)), k) == V(if j == c then Unit(n, c) else Zero(n), k)
    {
      DiagonalMul(n, Unit(n, c), Unit(n, j), k);
    }
    VecExt(n, Mul(n, P, Unit(n, j)), if j == c then Unit(n, c) else Zero(n));
    if j == c {
      DotUnit(n, c, Row(F, i));
    } else {
      DotZero(n, Row(F, i));
    }
  }

  /** The predictions over one second forward and one second backward differ by the linear part. */
  lemma FromOneVariance(n: nat, w: nat, F: Mat, G: Mat, Q: Vec, i: int, c: int)
    requires 0 <= i < n && 0 <= c < n
    ensures Covariance(n, Diagonal(n, Unit(n, c)))
    ensures var P := Diagonal(n, Unit(n, c));
            At(Predicted(n, w, P, F, G, Q, 1.0), i, c) - At(Predicted(n, w, P, F, G, Q, -1.0), i, c) ==
            if i == c then 4.0 * At(F, i, c) else 2.0 * At(F, i, c)
  {
    var P := Diagonal(n, Unit(n, c));
    DiagonalCovariance(n, Unit(n, c));
    TwoWays(n, w, P, F, G, Q, i, c);
    OneVariance(n, F, i, c, c);
    OneVariance(n, F, c, i, c);
  }

  lemma TwoWays(n: nat, w: nat, P: Mat, F: Mat, G: Mat, Q: Vec, i: int, c: int)
    requires Symmetric(n, P) && 0 <= i < n && 0 <= c < n
    ensures At(Predicted(n, w, P, F, G, Q, 1.0), i, c) - At(Predicted(n, w, P, F, G, Q, -1.0), i, c) ==
            2.0 * (FP(n, P, F, i, c) + FP(n, P, F, c, i))
  {
    OneSecond(n, w, P, F, G, Q, 1.0, i, c);
    OneSecond(n, w, P, F, G, Q, -1.0, i, c);
  }

  lemma PredictionsDetermine(n: nat, w: nat, F: Mat, G: Mat, E: Mat, H: Mat, Q: Vec)
    requires SamePredictions(n, w, F, G, E, H, Q)
    ensures SameEntries(n, F, E) && SameNoise(n, w, G, H, Q)
  {
    forall i, j | 0 <= i < n && 0 <= j < n
      ensures Noise(w, G, Q, i, j) == Noise(w, H, Q, i, j)
    {
      FromNothing(n, w, F, G, Q, i, j);
      FromNothing(n, w, E, H, Q, i, j);
    }
    forall i, c | 0 <= i < n && 0 <= c < n
      ensures At(F, i, c) == At(E, i, c)
    {
      FromOneVariance(n, w, F, G, Q, i, c);
      FromOneVariance(n, w, E, H, Q, i, c);
    }
  }

  /** Two pairs of system matrices give the same predictions exactly when the F are the same and the G let
      the same noise in. */
  lemma SamePredictionsIff(n: nat, w: nat, F: Mat, G: Mat, E: Mat, H: Mat, Q: Vec)
    ensures SamePredictions(n, w, F, G, E, H, Q) <==> SameEntries(n, F, E) && SameNoise(n, w, G, H, Q)
  {
    if SamePredictions(n, w, F, G, E, H, Q) {
      PredictionsDetermine(n, w, F, G, E, H, Q);
    } else if SameEntries(n, F, E) && SameNoise(n, w, G, H, Q) {
      forall P: Mat, T: real | Covariance(n, P) && T != 0.0
        ensures Predicted(n, w, P, F, G, Q, T) == Predicted(n, w, P, E, H, Q, T)
      {
        SameMatricesPredict(n, w, P, F, G, E, H, Q, T);
      }
    }
  }

  // ------------------------------------------------------------------ the two forms of the filter

  /** F has the zeros and ones that the expanded form has built in. */
  ghost predicate HasPattern(F: Mat) {
    forall i, j :: 0 <= i < 13 && 0 <= j < 13 && !WrittenF(i, j) ==>
      At(F, i, j) == if i < 3 && j == i + 3 then 1.0 else 0.0
  }

  /** The general form, which reads F and G, and the expanded form, which reads what NormF and NormG keep of
      them, agree on every covariance and every time step exactly when F has the zeros and ones that are
      built in, and G lets in the noise it would let in with those of G. */
  lemma FormsAgreeIff(F: Mat, G: Mat, Q: Vec)
    ensures SamePredictions(13, 9, F, G, NormF(F), NormG(G), Q) <==> HasPattern(F) && SameNoise(13, 9, G, NormG(G), Q)
  {
    SamePredictionsIff(13, 9, F, G, NormF(F), NormG(G), Q);
    forall i, j | 0 <= i < 13 && 0 <= j < 13 && WrittenF(i, j)
      ensures At(F, i, j) == At(NormF(F), i, j)
    {
    }
  }

  /** After LinearizeFG both forms read the same matrices. */
  lemma LinearizedIsNormal(x: Vec, u: Vec)
    ensures NormF(JacobianF(x, u)) == JacobianF(x, u)
    ensures NormG(JacobianG(x)) == JacobianG(x)
  {
    MatExt(NormF(JacobianF(x, u)), JacobianF(x, u), 13, 13);
    MatExt(NormG(JacobianG(x)), JacobianG(x), 13, 9);
  }

  ghost predicate AllZero(M: Mat) {
    forall i, j {:trigger At(M, i, j)} :: At(M, i, j) == 0.0
  }

  /** Before, F and G are zero, and the first covariance that is predicted differs for every time step: the
      expanded form adds the effect of the velocity on the position. */
  lemma FirstPredictionDiffers(n: nat, w: nat, F: Mat, G: Mat, Q: Vec, T: real)
    requires StateCount(n) && NoiseCount(w) && AllZero(F) && AllZero(G) && T != 0.0
    ensures At(Predicted(n, w, InitialCovariance(n), F, G, Q, T), 0, 0) == 25.0
    ensures At(Predicted(n, w, InitialCovariance(n), NormF(F), NormG(G), Q, T), 0, 0) == 25.0 + 5.0 * (T * T)
    ensures Predicted(n, w, InitialCovariance(n), F, G, Q, T) !=
            Predicted(n, w, InitialCovariance(n), NormF(F), NormG(G), Q, T)
  {
    GeneralFirst(n, w, F, G, Q, T);
    ExpandedFirst(n, w, F, G, Q, T);
    Moves(25.0, T, At(Predicted(n, w, InitialCovariance(n), NormF(F), NormG(G), Q, T), 0, 0));
  }

  lemma GeneralFirst(n: nat, w: nat, F: Mat, G: Mat, Q: Vec, T: real)
    requires StateCount(n) && AllZero(F) && AllZero(G)
    ensures At(Predicted(n, w, InitialCovariance(n), F, G, Q, T), 0, 0) == 25.0
  {
    var P := InitialCovariance(n);
    InitialIsCovariance(n);
    forall k
      ensures V(Row(F, 0), k) == 0.0 && V(Row(G, 0), k) == 0.0
    {
      assert At(F, 0, k) == V(Row(F, 0), k) && At(G, 0, k) == V(Row(G, 0), k);
    }
    FirstEntry(n, w, P, F, G, Q, T, Zero(n));
    DotZero(n, Mul(n, P, Zero(n)));
    DotZero(n, Mul(n, P, Unit(n, 0)));
  }

  lemma ExpandedFirst(n: nat, w: nat, F: Mat, G: Mat, Q: Vec, T: real)
    requires StateCount(n) && NoiseCount(w)
    ensures At(Predicted(n, w, InitialCovariance(n), NormF(F), NormG(G), Q, T), 0, 0) == 25.0 + 5.0 * (T * T)
  {
    var P, t := InitialCovariance(n), T * T;
    InitialIsCovariance(n);
    FirstRows(n, w, F, G);
    FirstEntry(n, w, P, NormF(F), NormG(G), Q, T, Unit(n, 3));
    UnitForm(n, P, 3, 3);
    UnitForm(n, P, 3, 0);
    OnlySquare(T, t, 25.0, 5.0);
  }

  lemma FirstRows(n: nat, w: nat, F: Mat, G: Mat)
    requires StateCount(n) && NoiseCount(w)
    ensures forall k :: 0 <= k < n ==> V(Row(NormF(F), 0), k) == V(Unit(n, 3), k)
    ensures forall k :: 0 <= k < w ==> V(Row(NormG(G), 0), k) == 0.0
  {
    forall k | 0 <= k < n
      ensures V(Row(NormF(F), 0), k) == V(Unit(n, 3), k)
    {
      assert At(NormF(F), 0, k) == V(Row(NormF(F), 0), k);
    }
    forall k | 0 <= k < w
      ensures V(Row(NormG(G), 0), k) == 0.0
    {
      assert At(NormG(G), 0, k) == V(Row(NormG(G), 0), k);
    }
  }

  lemma OnlySquare(T: real, t: real, p: real, a: real)
    ensures PolyIn(T, t, a, 2.0 * 0.0, p) == p + a * t
  {
  }

  lemma Moves(p: real, T: real, q: real)
    requires T != 0.0 && q == p + 5.0 * (T * T)
    ensures q != p
  {
    SquareZero(T, T * T);
  }

  /** Entry (0, 0), when f is the first row of F and G lets no noise into it. */
  lemma FirstEntry(n: nat, w: nat, P: Mat, F: Mat, G: Mat, Q: Vec, T: real, f: Vec)
    requires n > 0 && Symmetric(n, P)
    requires forall k :: 0 <= k < n ==> V(Row(F, 0), k) == V(f, k)
    requires forall k :: 0 <= k < w ==> V(Row(G, 0), k) == 0.0
    ensures At(Predicted(n, w, P, F, G, Q, T), 0, 0) ==
            PolyIn(T, T * T, Bil(n, P, f, f), 2.0 * Bil(n, P, f, Unit(n, 0)), At(P, 0, 0))
  {
    PredictedEntry(n, w, P, F, G, Q, T, 0, 0);
    SameForm(n, P, Row(F, 0), f, Row(F, 0), f);
    SameForm(n, P, Row(F, 0), f, Unit(n, 0), Unit(n, 0));
    SameForm(w, Diagonal(w, Q), Row(G, 0), Zero(w), Row(G, 0), Zero(w));
    DotZero(w, Mul(w, Diagonal(w, Q), Zero(w)));
  }
}
