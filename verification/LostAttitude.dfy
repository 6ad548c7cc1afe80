/**
  A run of the filter that ends without an attitude: one prediction under a forward acceleration, then a
  forward velocity reading whose gain is a multiple of the quaternion.
 */
module LostAttitude {
  import opened Linear
  import opened Forms
  import opened Congruence
  import opened KalmanUpdate
  import opened CovariancePrediction
  import opened SparsePrediction
  import opened Quaternions
  import opened StateModel
  import opened AttitudeStep
  import opened Linearization
  import opened SerialUpdate
  import opened FilterRuns
  import opened PredictionForms
  import opened AttitudeLoss
  import opened InsGps

  const STILL: Vec3 := Vec3(0.0, 0.0, 0.0)
  const AHEAD: Vec3 := Vec3(1.0, 0.0, 0.0)
  const LEVEL: Quat := Quat(1.0, 0.0, 0.0, 0.0)
  const BACK: Quat := Quat(-1.0, 0.0, 0.0, 0.0)

  // ------------------------------------------------------------------ the prediction

  lemma LevelF(i: int, j: int)
    requires i == 3 || (6 <= i < 10 && j < 10)
    ensures EntryF(LEVEL, AHEAD, STILL, i, j) == if i == 3 && j == 6 then 2.0 else 0.0
  {
  }

  lemma LevelG(i: int, j: int)
    requires (i == 3 || 6 <= i < 10) && 3 <= j
    ensures EntryG(LEVEL, i, j) == if i == 3 && j == 3 then -1.0 else 0.0
  {
  }

  /** F and G linearised at a level attitude, without rotation and with unit forward acceleration. */
  ghost predicate LevelMatrices(F: Mat, G: Mat) {
    && (forall i, j {:trigger At(F, i, j)} :: 0 <= i < 13 && 0 <= j < 13 ==>
        At(F, i, j) == EntryF(LEVEL, AHEAD, STILL, i, j))
    && (forall i, j {:trigger At(G, i, j)} :: 0 <= i < 13 && 0 <= j < 9 ==> At(G, i, j) == EntryG(LEVEL, i, j))
  }

  /** A row of F times a diagonal matrix. */
  lemma DiagonalFP(n: nat, d: Vec, F: Mat, i: int, c: int)
    requires 0 <= i < n && 0 <= c < n
    ensures FP(n, Diagonal(n, d), F, i, c) == V(d, c) * At(F, i, c)
  {
    var P := Diagonal(n, d);
    DiagonalSymmetric(n, d);
    BilSym(n, P, Row(F, i), Unit(n, c));
    DotUnit(n, c, Mul(n, P, Row(F, i)));
    DiagonalMul(n, d, Row(F, i), c);
  }

  lemma DiagonalSymmetric(n: nat, d: Vec)
    ensures Symmetric(n, Diagonal(n, d))
  {
  }

  /** Row 3 of F and row 3 of G have one entry each. */
  lemma VelocityTerm(F: Mat, G: Mat, d: Vec, i: int, k: int)
    requires LevelMatrices(F, G) && (i == 3 || 6 <= i < 10) && 0 <= k < 13
    ensures NoiseTerm(F, d, i, 3)(k) == if k == 6 && i == 3 then 4.0 * V(d, 6) else 0.0
  {
    TermOf(F, d, i, k);
    LevelF(3, k);
    LevelF(i, 6);
    ThreeFactors(At(F, i, k), At(F, 3, k), V(d, k));
    if k == 6 {
      ThreeFactors(At(F, 3, k), At(F, i, k), V(d, k));
    }
  }

  lemma AccelerationTerm(F: Mat, G: Mat, Q: Vec, i: int, k: int)
    requires LevelMatrices(F, G) && (i == 3 || 6 <= i < 10) && 0 <= k < 9
    ensures NoiseTerm(G, Q, i, 3)(k) == if k == 3 && i == 3 then V(Q, 3) else 0.0
  {
    TermOf(G, Q, i, k);
    ThreeFactors(At(G, i, k), At(G, 3, k), V(Q, k));
    if 3 <= k {
      LevelG(3, k);
      LevelG(i, k);
    }
    if k == 3 {
      ThreeFactors(At(G, 3, k), At(G, i, k), V(Q, k));
    }
  }

  lemma ThreeFactors(a: real, b: real, q: real)
    ensures b == 0.0 ==> a * b * q == 0.0 && b * a * q == 0.0
    ensures a == b == 2.0 ==> a * b * q == 4.0 * q
    ensures a == b == -1.0 ==> a * b * q == q
  {
  }

  lemma QuadraticParts(n: nat, w: nat, F: Mat, G: Mat, Q: Vec, d: Vec, i: int)
    requires StateCount(n) && NoiseCount(w) && LevelMatrices(F, G) && (i == 3 || 6 <= i < 10)
    ensures FPF(n, Diagonal(n, d), F, i, 3) == if i == 3 then 4.0 * V(d, 6) else 0.0
    ensures CovariancePrediction.Noise(w, G, Q, i, 3) == if i == 3 then V(Q, 3) else 0.0
  {
    VelocityPart(n, F, G, d, i);
    AccelerationPart(w, F, G, Q, i);
  }

  lemma VelocityPart(n: nat, F: Mat, G: Mat, d: Vec, i: int)
    requires StateCount(n) && LevelMatrices(F, G) && (i == 3 || 6 <= i < 10)
    ensures FPF(n, Diagonal(n, d), F, i, 3) == if i == 3 then 4.0 * V(d, 6) else 0.0
  {
    var f := NoiseTerm(F, d, i, 3);
    NoiseSum(n, F, d, i, 3);
    forall k | 0 <= k < n
      ensures f(k) == if k == 6 && i == 3 then 4.0 * V(d, 6) else 0.0
    {
      VelocityTerm(F, G, d, i, k);
    }
    SumSingle(n, f, 6);
  }

  lemma AccelerationPart(w: nat, F: Mat, G: Mat, Q: Vec, i: int)
    requires NoiseCount(w) && LevelMatrices(F, G) && (i == 3 || 6 <= i < 10)
    ensures CovariancePrediction.Noise(w, G, Q, i, 3) == if i == 3 then V(Q, 3) else 0.0
  {
    var f := NoiseTerm(G, Q, i, 3);
    NoiseSum(w, G, Q, i, 3);
    forall k | 0 <= k < w
      ensures f(k) == if k == 3 && i == 3 then V(Q, 3) else 0.0
    {
      AccelerationTerm(F, G, Q, i, k);
    }
    SumSingle(w, f, 3);
  }

  lemma TermOf(G: Mat, Q: Vec, i: int, k: int)
    ensures NoiseTerm(G, Q, i, 3)(k) == At(G, i, k) * At(G, 3, k) * V(Q, k)
  {
    assert At(G, i, k) == V(Row(G, i), k) && At(G, 3, k) == V(Row(G, 3), k);
  }

  /** The covariances of the forward velocity with itself and with the quaternion after the prediction. */
  lemma ForwardColumn(n: nat, w: nat, F: Mat, G: Mat, Q: Vec, i: int)
    requires StateCount(n) && NoiseCount(w) && LevelMatrices(F, G) && (i == 3 || 6 <= i < 10) && V(Q, 3) == 0.01
    ensures At(Predicted(n, w, InitialCovariance(n), F, G, Q, 1.0), i, 3) ==
            if i == 3 then 5.01004 else if i == 6 then 0.00002 else 0.0
  {
    var P, d := InitialCovariance(n), Variances(n, n);
    InitialIsCovariance(n);
    PredictedEntry(n, w, P, F, G, Q, 1.0, i, 3);
    QuadraticParts(n, w, F, G, Q, d, i);
    DiagonalFP(n, d, F, i, 3);
    DiagonalFP(n, d, F, 3, i);
    LevelF(i, 3);
    LevelF(3, i);
  }

  /** The covariance after the prediction. */
  ghost predicate ForwardCovariance(P: Mat) {
    At(P, 3, 3) == 5.01004 && At(P, 6, 3) == 0.00002 && At(P, 7, 3) == At(P, 8, 3) == At(P, 9, 3) == 0.0
  }

  lemma PredictsForward(n: nat, w: nat, F: Mat, G: Mat, Q: Vec)
    requires StateCount(n) && NoiseCount(w) && LevelMatrices(F, G) && V(Q, 3) == 0.01
    ensures ForwardCovariance(Predicted(n, w, InitialCovariance(n), F, G, Q, 1.0))
  {
    ForwardColumn(n, w, F, G, Q, 3);
    ForwardColumn(n, w, F, G, Q, 6);
    ForwardColumn(n, w, F, G, Q, 7);
    ForwardColumn(n, w, F, G, Q, 8);
    ForwardColumn(n, w, F, G, Q, 9);
  }

  // ------------------------------------------------------------------ the correction

  lemma ForwardRow(n: nat, P: Mat, x: Vec, be: Vec3, k: int)
    requires StateCount(n) && Symmetric(n, P) && 0 <= k < n
    ensures V(Mul(n, P, Row(JacobianH(x, be), 3)), k) == At(P, k, 3)
    ensures Bil(n, P, Row(JacobianH(x, be), 3), Row(JacobianH(x, be), 3)) == At(P, 3, 3)
  {
    var h := Row(JacobianH(x, be), 3);
    forall j | 0 <= j < n
      ensures V(h, j) == V(Unit(n, 3), j)
    {
      assert At(JacobianH(x, be), 3, j) == V(h, j);
    }
    SameForm(n, P, Unit(n, k), Unit(n, k), h, Unit(n, 3));
    SameForm(n, P, h, Unit(n, 3), h, Unit(n, 3));
    UnitForm(n, P, k, 3);
    UnitForm(n, P, 3, 3);
    DotUnit(n, k, Mul(n, P, h));
  }

  lemma {:induction false} OnlyUpdate(n: nat, X: Vec, P: Mat, s: Sensors, e: Vec, count: nat, m: nat)
    requires Covariance(n, P) && s.Noisy(count) && s.used == {m}
    ensures SerialState(n, X, P, s, e, count) ==
            if m < count then Comb(n, 1.0, X, V(e, m), SerialGain(n, P, s, m)) else X
  {
    if count > 0 {
      OnlyUpdate(n, X, P, s, e, count - 1, m);
    }
  }

  /** The gain that turns the innovation -250702 into minus the quaternion. */
  lemma ForwardGain(n: nat, P: Mat, s: Sensors, x: Vec, be: Vec3)
    requires StateCount(n) && Covariance(n, P) && s.Noisy(4) && s.used == {3} && V(s.R, 3) == 0.004
    requires s.H == JacobianH(x, be)
    requires ForwardCovariance(P)
    ensures GainPart(n, P, s, 3) == Quat(1.0 / 250702.0, 0.0, 0.0, 0.0)
  {
    NothingYet(n, P, s, 3);
    var h := Row(JacobianH(x, be), 3);
    assert s.Row(3) == h;
    ForwardRow(n, P, x, be, 6);
    ForwardRow(n, P, x, be, 7);
    ForwardRow(n, P, x, be, 8);
    ForwardRow(n, P, x, be, 9);
    assert Innovation(n, P, h, 0.004) == 5.01404;
    GainDirection(n, Mul(n, P, h), 1.0 / 5.01404);
  }

  lemma ForwardVanishes(n: nat, X: Vec, P: Mat, s: Sensors, e: Vec, count: nat, x: Vec, be: Vec3)
    requires StateCount(n) && Covariance(n, P) && s.Noisy(count) && count > 3 && s.used == {3} && V(s.R, 3) == 0.004
    requires s.H == JacobianH(x, be) && V(e, 3) == -250702.0 && ForwardCovariance(P)
    ensures Attitude(SerialState(n, X, P, s, e, count)) == Attitude(X).Plus(BACK)
  {
    OnlyUpdate(n, X, P, s, e, count, 3);
    ForwardGain(n, P, s, x, be);
    CombAttitude(n, X, V(e, 3), SerialGain(n, P, s, 3));
  }

  // ------------------------------------------------------------------ the run

  /** Without rotation the attitude stays level. */
  lemma LevelStep(x: Vec, u: Vec)
    requires Attitude(x) == LEVEL && Rate(x, u) == STILL
    ensures Attitude(Integrated(x, u, 1.0)) == LEVEL
  {
    StepSpans(x, u, 1.0);
    LevelSpans(x, Integrated(x, u, 1.0), Alpha(0.0, 1.0), Beta(0.0, 1.0));
  }

  lemma LevelSpans(x: Vec, y: Vec, a: real, b: real)
    requires Attitude(x) == LEVEL && Spans(x, Turned(x, STILL), y, a, b) && a == 1.0
    ensures Attitude(y) == LEVEL
  {
    CombQuat(a, Part(x), b, Turned(x, STILL));
    NoTurn(LEVEL);
    assert Attitude(y) == QuatOf(Part(y)) == Blend(a, LEVEL, b, ZERO);
  }

  lemma NoTurn(q: Quat)
    ensures q.Times(Pure(STILL)) == ZERO
  {
  }

  lemma DividedLevel(y: Vec, m: real)
    requires Attitude(y) == LEVEL && m > 0.0
    ensures Attitude(DividedBy(y, m)) == Quat(1.0 / m, 0.0, 0.0, 0.0)
  {
  }

  lemma UnitLevel(q: Quat, a: real)
    requires q == Quat(a, 0.0, 0.0, 0.0) && a > 0.0 && Inner(q, q) == 1.0
    ensures q == LEVEL
  {
    UnitSquare(a);
  }

  lemma UnitSquare(a: real)
    requires a > 0.0 && a * a == 1.0
    ensures a == 1.0
  {
    assert (a - 1.0) * (a + 1.0) == 0.0;
  }

  lemma LevelNormalized(y: Vec, m: real, z: Vec)
    requires Attitude(y) == LEVEL && m > 0.0 && z == DividedBy(y, m) && Inner(Attitude(z), Attitude(z)) == 1.0
    ensures Attitude(z) == LEVEL
  {
    DividedLevel(y, m);
    PositiveInverse(m);
    UnitLevel(Attitude(z), 1.0 / m);
  }

  lemma ForwardOnly(count: nat)
    requires 3 < count < 16
    ensures (set m | 0 <= m < count && Used(8, m)) == {3}
  {
    forall m: nat | m < 16
      ensures Used(8, m) <==> m == 3
    {
      ForwardBit(m);
    }
  }

  lemma ForwardBit(m: nat)
    requires m < 16
    ensures Used(8, m) <==> m == 3
  {
    if m == 0 { } else if m == 1 { } else if m == 2 { } else if m == 3 { } else if m == 4 { }
    else if m == 5 { } else if m == 6 { } else if m == 7 { } else if m == 8 { } else if m == 9 { }
    else if m == 10 { } else if m == 11 { } else if m == 12 { } else if m == 13 { } else if m == 14 { }
  }

  lemma ForwardSensor(f: Filter)
    requires f.Valid()
    ensures f.SensorsAt(8).used == {3}
  {
    ForwardOnly(f.R.Length);
  }

  ghost predicate Still(x: Vec) {
    Attitude(x) == LEVEL && Bias(x) == STILL
  }

  /** Attitude, F and G after the prediction. */
  ghost predicate StillLevel(x: Vec, F: Mat, G: Mat) {
    Attitude(x) == LEVEL && LevelMatrices(F, G) && NormF(F) == F && NormG(G) == G
  }

  lemma StaysLevel(x: Vec, u: Vec, m: real, z: Vec)
    requires u == [0.0, 0.0, 0.0, 1.0, 0.0, 0.0] && m > 0.0
    requires z == DividedBy(Integrated(x, u, 1.0), m) && Inner(Attitude(z), Attitude(z)) == 1.0
    ensures Still(x) ==> StillLevel(z, JacobianF(x, u), JacobianG(x))
  {
    StillStep(x, u);
    StillNormalized(Integrated(x, u, 1.0), m, z);
    StillJacobians(x, u);
    LinearizedIsNormal(x, u);
  }

  lemma StillStep(x: Vec, u: Vec)
    requires u == [0.0, 0.0, 0.0, 1.0, 0.0, 0.0]
    ensures Still(x) ==> Attitude(Integrated(x, u, 1.0)) == LEVEL
  {
    if Still(x) {
      LevelStep(x, u);
    }
  }

  lemma StillNormalized(y: Vec, m: real, z: Vec)
    requires m > 0.0 && z == DividedBy(y, m) && Inner(Attitude(z), Attitude(z)) == 1.0
    ensures Attitude(y) == LEVEL ==> Attitude(z) == LEVEL
  {
    if Attitude(y) == LEVEL {
      LevelNormalized(y, m, z);
    }
  }

  lemma StillJacobians(x: Vec, u: Vec)
    requires u == [0.0, 0.0, 0.0, 1.0, 0.0, 0.0]
    ensures Still(x) ==> LevelMatrices(JacobianF(x, u), JacobianG(x))
  {
    if Still(x) {
      JacobiansAreLevel(x, u);
    }
  }

  lemma JacobiansAreLevel(x: Vec, u: Vec)
    requires Attitude(x) == LEVEL && Rate(x, u) == STILL && Accel(u) == AHEAD
    ensures LevelMatrices(JacobianF(x, u), JacobianG(x))
  {
  }

  lemma ForwardInnovation(x: Vec, be: Vec3, z: Vec)
    requires V(z, 3) == V(x, 3) - 250702.0
    ensures V(Residuals(z, Measured(x, be)), 3) == -250702.0
  {
    assert V(Residuals(z, Measured(x, be)), 3) == V(z, 3) - V(Measured(x, be), 3);
  }

  lemma TurnsBack(f: Filter, z: Vec, mask: bv16)
    requires f.Valid() && f.R[3] == 0.004 && ForwardCovariance(Value(f.P))
    requires V(z, 3) == f.X[3] - 250702.0 && f.SensorsAt(mask).used == {3}
    ensures Attitude(f.Corrected(z, mask)) == Attitude(f.X[..]).Plus(BACK)
  {
    var x, be := f.X[..], f.MagneticNorth();
    ForwardInnovation(x, be, z);
    ForwardVanishes(f.X.Length, x, Value(f.P), f.SensorsAt(mask), Residuals(z, Measured(x, be)), f.R.Length, x, be);
  }

  /** A forward velocity reading 250702 below the predicted velocity, as the only reading in use, corrects the
      quaternion to q. */
  ghost predicate CorrectsTo(f: Filter, q: Quat)
    requires f.Valid()
    reads f, f.P, f.F, f.G, f.H, f.X, f.Q, f.R, f.Be
  {
    forall z: Vec :: V(z, 3) == f.X[3] - 250702.0 ==> Attitude(f.Corrected(z, 8)) == q
  }

  lemma TurnsAllBack(f: Filter)
    requires f.Valid() && f.R[3] == 0.004 && ForwardCovariance(Value(f.P))
    ensures CorrectsTo(f, Attitude(f.X[..]).Plus(BACK))
  {
    ForwardSensor(f);
    forall z: Vec | V(z, 3) == f.X[3] - 250702.0
      ensures Attitude(f.Corrected(z, 8)) == Attitude(f.X[..]).Plus(BACK)
    {
      TurnsBack(f, z, 8);
    }
  }

  method PredictStill(f: Filter, sqrt: real -> real)
    requires f.Valid() && IsSqrt(sqrt)
    modifies f.X, f.F, f.G, f`Nav
    ensures f.Valid()
    ensures Still(old(f.X[..])) ==> StillLevel(f.X[..], Value(f.F), Value(f.G))
  {
    ghost var x := f.X[..];
    ghost var m := f.StatePrediction(STILL, AHEAD, 1.0, sqrt);
    StaysLevel(x, [0.0, 0.0, 0.0, 1.0, 0.0, 0.0], m, f.X[..]);
  }

  method Start() returns (f: Filter)
    ensures fresh(f) && fresh(f.X) && fresh(f.F) && fresh(f.G) && fresh(f.P) && f.Valid()
    ensures Still(f.X[..]) && f.R[3] == 0.004 && f.Q[3] == 0.01 && Value(f.P) == InitialCovariance(f.X.Length)
  {
    f := new Filter();
    f.Init();
    StartsStill(f.X[..]);
    assert f.R[..][3] == 0.004 && f.Q[..][3] == 0.01;
  }

  lemma StartsStill(x: Vec)
    requires x == Pack(STILL, STILL, LEVEL, STILL)
    ensures Still(x)
  {
  }

  method PredictForward(f: Filter)
    requires f.Valid() && StillLevel(f.X[..], Value(f.F), Value(f.G)) && f.Q[3] == 0.01
    requires Value(f.P) == InitialCovariance(f.X.Length)
    modifies f.P
    ensures f.Valid() && ForwardCovariance(Value(f.P))
  {
    PredictsForward(f.X.Length, f.Q.Length, Value(f.F), Value(f.G), f.Q[..]);
    f.CovariancePrediction(1.0);
  }

  /** Initialise, then predict one second of forward acceleration without rotation. */
  method Approach(sqrt: real -> real) returns (f: Filter)
    requires IsSqrt(sqrt)
    ensures f.Valid() && Attitude(f.X[..]) == LEVEL && f.R[3] == 0.004 && ForwardCovariance(Value(f.P))
  {
    f := Start();
    PredictStill(f, sqrt);
    PredictForward(f);
  }

  /** After that run such a reading makes the corrected quaternion zero. */
  method RunToZero(sqrt: real -> real) returns (f: Filter)
    requires IsSqrt(sqrt)
    ensures f.Valid() && CorrectsTo(f, ZERO)
  {
    Opposite();
    f := Approach(sqrt);
    TurnsAllBack(f);
  }

  lemma Opposite()
    ensures LEVEL.Plus(BACK) == ZERO
  {
  }
}
