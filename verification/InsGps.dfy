/**
  The filter object: the global arrays of matlab/ins/insgps.c and the operations on them.
 */
module InsGps {
  import opened Linear
  import opened Forms
  import opened KalmanUpdate
  import opened CovariancePrediction
  import opened Quaternions
  import opened StateModel
  import opened AttitudeStep
  import opened Linearization
  import opened SerialUpdate
  import opened PredictInPlace
  import opened FilterRuns
  import opened AttitudeLoss

  function Position(x: Vec): Vec3 {
    Vec3(V(x, 0), V(x, 1), V(x, 2))
  }

  /** The published solution. */
  datatype Navigation = Navigation(pos: Vec3, vel: Vec3, q: Quat)

  function SolutionOf(x: Vec): Navigation {
    Navigation(Position(x), Velocity(x), Attitude(x))
  }

  /** x with its quaternion divided by m. */
  function DividedBy(x: Vec, m: real): Vec
    requires m != 0.0
  {
    var q := Attitude(x);
    Pack(Position(x), Velocity(x), Quat(q.w / m, q.x / m, q.y / m, q.z / m), Bias(x))
  }

  lemma DivisionNormalizes(q: Quat, m: real, s: real, r: Quat)
    requires m > 0.0 && m * m == s && s == Inner(q, q)
    requires r == Quat(q.w / m, q.x / m, q.y / m, q.z / m)
    ensures Inner(r, r) == 1.0 && r != ZERO
  {
    SquareBack(q.w, m, r.w, s);
    SquareBack(q.x, m, r.x, s);
    SquareBack(q.y, m, r.y, s);
    SquareBack(q.z, m, r.z, s);
    PositiveTimes(m, m, s);
    Quarters(r.w * r.w, r.x * r.x, r.y * r.y, r.z * r.z, q.w * q.w, q.x * q.x, q.y * q.y, q.z * q.z, s);
    InnerNonneg(r);
  }

  lemma SquareBack(q: real, m: real, a: real, s: real)
    requires m > 0.0 && a == q / m && s == m * m
    ensures a * a * s == q * q
  {
    assert a * m == q;
    assert a * a * (m * m) == a * m * (a * m);
  }

  lemma Quarters(a: real, b: real, c: real, d: real, a': real, b': real, c': real, d': real, s: real)
    requires a * s == a' && b * s == b' && c * s == c' && d * s == d' && s == a' + b' + c' + d' && s > 0.0
    ensures a + b + c + d == 1.0
  {
    var t := a + b + c + d;
    assert t * s == s;
    assert t == t * s / s;
  }

  // ------------------------------------------------------------------ writing P

  /** The chained assignments P[from][from] = ... = variance. */
  method SetDiagonal(P: array2<real>, from: nat, to: nat, variance: real)
    requires P.Length0 == P.Length1 && from <= to <= P.Length0
    modifies P
    ensures forall a, b {:trigger P[a, b]} :: 0 <= a < P.Length0 && 0 <= b < P.Length1 ==>
      P[a, b] == if a == b && from <= a < to then variance else old(P[a, b])
  {
    for i := from to to
      invariant forall a, b {:trigger P[a, b]} :: 0 <= a < P.Length0 && 0 <= b < P.Length1 ==>
        P[a, b] == if a == b && from <= a < i then variance else old(P[a, b])
    {
      P[i, i] := variance;
    }
  }

  method ResetPosVelVariances(P: array2<real>)
    requires P.Length0 == P.Length1 >= 6
    modifies P
    ensures forall a, b {:trigger P[a, b]} :: 0 <= a < P.Length0 && 0 <= b < P.Length1 ==>
      P[a, b] == if a == b && a < 6 then InitialVariance(a) else old(P[a, b])
  {
    SetDiagonal(P, 0, 3, 25.0);
    SetDiagonal(P, 3, 6, 5.0);
  }

  method InitCovariance(P: array2<real>)
    requires P.Length0 == P.Length1 == 13
    modifies P
    ensures Value(P) == InitialCovariance(P.Length0)
  {
    for i := 0 to 13
      invariant forall a, b {:trigger P[a, b]} :: 0 <= a < i && 0 <= b < 13 ==> P[a, b] == 0.0
    {
      for j := 0 to 13
        invariant forall a, b {:trigger P[a, b]} :: 0 <= a < i && 0 <= b < 13 ==> P[a, b] == 0.0
        invariant forall b {:trigger P[i, b]} :: 0 <= b < j ==> P[i, b] == 0.0
      {
        P[i, j] := 0.0;
      }
    }
    ResetPosVelVariances(P);
    SetDiagonal(P, 6, 10, 0.00001);
    SetDiagonal(P, 10, 13, 0.00001);
    MatExt(Value(P), InitialCovariance(P.Length0), 13, 13);
  }

  /** Zero the first six rows and columns. */
  method ForgetPosVel(P: array2<real>)
    requires P.Length0 == P.Length1 >= 6
    modifies P
    ensures forall a, b {:trigger P[a, b]} :: 0 <= a < P.Length0 && 0 <= b < P.Length1 ==>
      P[a, b] == if a < 6 || b < 6 then 0.0 else old(P[a, b])
  {
    ghost var n := P.Length0;
    for i := 0 to 6
      invariant forall a, b {:trigger P[a, b]} :: 0 <= a < n && 0 <= b < n ==>
        P[a, b] == if a < i || b < i then 0.0 else old(P[a, b])
    {
      for j := i to P.Length0
        invariant forall a, b {:trigger P[a, b]} :: 0 <= a < n && 0 <= b < n ==>
          P[a, b] == if a < i || b < i || (a == i && b < j) || (b == i && a < j) then 0.0 else old(P[a, b])
      {
        P[i, j] := 0.0;
        P[j, i] := 0.0;
      }
    }
  }

  method ResetPosVelCovariance(P: array2<real>)
    requires P.Length0 == P.Length1 == 13
    modifies P
    ensures Value(P) == ResetCovariance(P.Length0, old(Value(P)))
  {
    ForgetPosVel(P);
    ResetPosVelVariances(P);
    MatExt(Value(P), ResetCovariance(P.Length0, old(Value(P))), 13, 13);
  }

  /** The measurements, with the magnetometer reading divided by its magnitude Bmag. */
  function ReadingsOf(mag: Vec3, Bmag: real, pos: Vec3, vel: Vec3, baro: real): Vec
    requires Bmag != 0.0
  {
    [pos.x, pos.y, pos.z, vel.x, vel.y, vel.z, mag.x / Bmag, mag.y / Bmag, mag.z / Bmag, baro]
  }

  /** z holds the measurements; for a zero magnetometer reading the code divides zero by zero, and what the
      slots 6 to 8 hold is unknown. */
  ghost predicate AreReadings(z: Vec, mag: Vec3, Bmag: real, pos: Vec3, vel: Vec3, baro: real) {
    if Bmag != 0.0 then z == ReadingsOf(mag, Bmag, pos, vel, baro)
    else |z| == 10 && z[..6] == [pos.x, pos.y, pos.z, vel.x, vel.y, vel.z] && z[9] == baro
  }

  ghost function Residuals(z: Vec, y: Vec): (e: Vec)
    ensures |e| == 10
    ensures forall m {:trigger V(e, m)} :: 0 <= m < 10 ==> V(e, m) == V(z, m) - V(y, m)
  {
    seq(10, m => V(z, m) - V(y, m))
  }

  method Readings(mag: Vec3, Bmag: real, pos: Vec3, vel: Vec3, baro: real) returns (Z: array<real>)
    ensures fresh(Z) && Z.Length == 10 && AreReadings(Z[..], mag, Bmag, pos, vel, baro)
  {
    Z := new real[10];
    Z[0], Z[1], Z[2] := pos.x, pos.y, pos.z;
    Z[3], Z[4], Z[5] := vel.x, vel.y, vel.z;
    if Bmag != 0.0 {
      Z[6], Z[7], Z[8] := mag.x / Bmag, mag.y / Bmag, mag.z / Bmag;
    } else {
      Z[6], Z[7], Z[8] := *, *, *;
    }
    Z[9] := baro;
    assert Z[..6] == [pos.x, pos.y, pos.z, vel.x, vel.y, vel.z];
  }

  method SetPosVel(X: array<real>, pos: Vec3, vel: Vec3)
    requires X.Length == 13
    modifies X
    ensures X[..] == Pack(pos, vel, Attitude(old(X[..])), Bias(old(X[..])))
  {
    ghost var x := X[..];
    X[0], X[1], X[2] := pos.x, pos.y, pos.z;
    X[3], X[4], X[5] := vel.x, vel.y, vel.z;
    assert forall k :: 6 <= k < 13 ==> X[k] == V(x, k);
  }

  method SetBias(X: array<real>, bias: Vec3)
    requires X.Length == 13
    modifies X
    ensures X[..] == Pack(Position(old(X[..])), Velocity(old(X[..])), Attitude(old(X[..])), bias)
  {
    X[10], X[11], X[12] := bias.x, bias.y, bias.z;
  }

  method SetThree(a: array<real>, i: nat, v: Vec3)
    requires i + 3 <= a.Length
    modifies a
    ensures a[..] == old(a[..i]) + [v.x, v.y, v.z] + old(a[i + 3..])
  {
    a[i], a[i + 1], a[i + 2] := v.x, v.y, v.z;
  }

  method SetPosVelVariances(R: array<real>, PosVar: real)
    requires R.Length >= 5
    modifies R
    ensures R[..] == [PosVar, PosVar, PosVar, PosVar, PosVar] + old(R[5..])
  {
    R[0], R[1], R[2], R[3], R[4] := PosVar, PosVar, PosVar, PosVar, PosVar;
  }

  method Fill(a: array<real>, values: seq<real>)
    requires a.Length == |values|
    modifies a
    ensures a[..] == values
  {
    for i := 0 to a.Length
      invariant forall j :: 0 <= j < i ==> a[j] == values[j]
    {
      a[i] := values[i];
    }
  }

  /** The state x with its quaternion divided by its norm; what a zero quaternion becomes is unknown. */
  ghost predicate Normalized(x: Vec, m: real, y: Vec) {
    if Attitude(x) != ZERO then m > 0.0 && y == DividedBy(x, m) && Inner(Attitude(y), Attitude(y)) == 1.0
    else m == 0.0 && y == Pack(Position(x), Velocity(x), Attitude(y), Bias(x))
  }

  predicate IsNorm(m: real, q: Quat) {
    m >= 0.0 && m * m == Inner(q, q)
  }

  lemma NormOf(q: Quat, norm2: real, m: real)
    requires norm2 == Inner(q, q) && m >= 0.0 && m * m == norm2
    ensures m == 0.0 <==> q == ZERO
  {
    InnerNonneg(q);
    SquareZero(m, norm2);
  }

  method Norm(X: array<real>, sqrt: real -> real) returns (qmag: real)
    requires X.Length == 13 && IsSqrt(sqrt)
    ensures qmag == 0.0 <==> Attitude(X[..]) == ZERO
    ensures qmag != 0.0 ==> Normalized(X[..], qmag, DividedBy(X[..], qmag))
  {
    InnerNonneg(Attitude(X[..]));
    var norm2 := X[6] * X[6] + X[7] * X[7] + X[8] * X[8] + X[9] * X[9];
    qmag := sqrt(norm2);
    NormOf(Attitude(X[..]), norm2, qmag);
    if qmag != 0.0 {
      DividedIsNormalized(X[..], qmag);
    }
  }

  lemma DividedIsNormalized(x: Vec, m: real)
    requires m != 0.0 && IsNorm(m, Attitude(x))
    ensures Normalized(x, m, DividedBy(x, m))
  {
    var q := Attitude(x);
    NormOf(q, m * m, m);
    var r := Quat(q.w / m, q.x / m, q.y / m, q.z / m);
    DivisionNormalizes(q, m, m * m, r);
    assert Attitude(DividedBy(x, m)) == r;
  }

  /** Divide the quaternion by its norm. */
  method Normalize(X: array<real>, sqrt: real -> real) returns (qmag: real)
    requires X.Length == 13 && IsSqrt(sqrt)
    modifies X
    ensures Normalized(old(X[..]), qmag, X[..])
  {
    qmag := Norm(X, sqrt);
    if qmag == 0.0 {
      Lose(X);
    } else {
      Divide(X, qmag);
    }
  }

  /** Division by zero leaves no numbers. */
  method Lose(X: array<real>)
    requires X.Length == 13 && Attitude(X[..]) == ZERO
    modifies X
    ensures Normalized(old(X[..]), 0.0, X[..])
  {
    X[6], X[7], X[8], X[9] := *, *, *, *;
  }

  method Divide(X: array<real>, qmag: real)
    requires X.Length == 13 && qmag != 0.0
    modifies X
    ensures X[..] == DividedBy(old(X[..]), qmag)
  {
    X[6] := X[6] / qmag;
    X[7] := X[7] / qmag;
    X[8] := X[8] / qmag;
    X[9] := X[9] / qmag;
  }

  /** The integration step from x, normalised.  The step keeps a quaternion from vanishing, so that the norm it
      is divided by is positive. */
  ghost predicate Propagated(x: Vec, u: Vec, dT: real, qmag: real, y: Vec) {
    && Normalized(Integrated(x, u, dT), qmag, y)
    && (Attitude(x) != ZERO ==> qmag > 0.0 && y == DividedBy(Integrated(x, u, dT), qmag)
                                && Inner(Attitude(y), Attitude(y)) == 1.0)
  }

  method Propagate(X: array<real>, U: array<real>, dT: real, sqrt: real -> real) returns (qmag: real)
    requires X.Length == 13 && U.Length == 6 && X != U && IsSqrt(sqrt)
    modifies X
    ensures Propagated(old(X[..]), U[..], dT, qmag, X[..])
    ensures Attitude(old(X[..])) != ZERO ==> Attitude(X[..]) != ZERO
  {
    StepKeepsAttitude(X[..], U[..], dT, Integrated(X[..], U[..], dT));
    RungeKutta(X, U, dT);
    qmag := Normalize(X, sqrt);
    if Attitude(old(X[..])) != ZERO {
      UnitNonzero(Attitude(X[..]));
    }
  }

  lemma UnitNonzero(q: Quat)
    requires Inner(q, q) == 1.0
    ensures q != ZERO
  {
  }

  /** The gyro bias is only changed by corrections. */
  lemma PropagationKeepsBias(x: Vec, u: Vec, dT: real, m: real, z: Vec)
    requires m > 0.0 && z == DividedBy(Integrated(x, u, dT), m)
    ensures Bias(z) == Bias(x)
  {
    StepSpans(x, u, dT);
    assert Bias(z) == Bias(Integrated(x, u, dT));
  }

  lemma StepKeepsAttitude(x: Vec, u: Vec, dT: real, y: Vec)
    requires y == Integrated(x, u, dT)
    ensures Bias(y) == Bias(x)
    ensures Attitude(x) != ZERO ==> Attitude(y) != ZERO
  {
    StepSpans(x, u, dT);
    StepNonzero(x, u, dT);
    InnerNonneg(Attitude(x));
    InnerNonneg(Attitude(y));
  }

  class Filter {
    const P: array2<real>
    const F: array2<real>
    const G: array2<real>
    const H: array2<real>
    const K: array2<real>
    const X: array<real>
    const Q: array<real>
    const R: array<real>
    const Be: array<real>
    var Nav: Navigation

    predicate Shaped() {
      && P.Length0 == P.Length1 == F.Length0 == F.Length1 == G.Length0 == H.Length1 == K.Length0 == X.Length == 13
      && G.Length1 == Q.Length == 9 && H.Length0 == K.Length1 == R.Length == 10 && Be.Length == 3
      && P != F && P != G && P != H && P != K && F != G && F != H && F != K && G != H && G != K && H != K
      && X != Q && X != R && X != Be && Q != R && Q != Be && R != Be
    }

    /** The entries of F, G and H that no linearisation writes are zero. */
    ghost predicate ZeroPattern()
      requires Shaped()
      reads F, G, H
    {
      && (forall i, j {:trigger F[i, j]} :: 0 <= i < 13 && 0 <= j < 13 && ConstantF(i, j) ==> F[i, j] == 0.0)
      && (forall i, j {:trigger G[i, j]} :: 0 <= i < 13 && 0 <= j < 9 && ConstantG(i, j) ==> G[i, j] == 0.0)
      && (forall i, j {:trigger H[i, j]} :: 0 <= i < 10 && 0 <= j < 13 && ConstantH(i, j) ==> H[i, j] == 0.0)
    }

    /** The noise variances that are settings of the filter, of the process and of the sensors. */
    ghost predicate ProcessNoise()
      requires Shaped()
      reads Q
    {
      forall k :: 0 <= k < 9 ==> Q[k] >= 0.0
    }

    ghost predicate SensorNoise()
      requires Shaped()
      reads R
    {
      forall m :: 0 <= m < 10 ==> R[m] > 0.0
    }

    /** What all operations keep, whatever the noise variances. */
    ghost predicate Sound()
      reads this, P, F, G, H
    {
      Shaped() && ZeroPattern() && Symmetric(X.Length, Value(P))
    }

    /** What a correction divides by is then positive. */
    ghost predicate Correctable()
      reads this, P, F, G, H, R
    {
      Sound() && SensorNoise() && Covariance(X.Length, Value(P))
    }

    ghost predicate Valid()
      reads this, P, F, G, H, X, Q, R
    {
      Correctable() && ProcessNoise() && Attitude(X[..]) != ZERO
    }

    /** All globals start out as zero. */
    constructor ()
      ensures Shaped() && ZeroPattern()
      ensures fresh(P) && fresh(F) && fresh(G) && fresh(H) && fresh(K) && fresh(X) && fresh(Q) && fresh(R) && fresh(Be)
    {
      P, F, H := new real[13, 13]((i, j) => 0.0), new real[13, 13]((i, j) => 0.0), new real[10, 13]((i, j) => 0.0);
      G, K := new real[13, 9]((i, j) => 0.0), new real[13, 10]((i, j) => 0.0);
      X, Q, R, Be := new real[13](i => 0.0), new real[9](i => 0.0), new real[10](i => 0.0), new real[3](i => 0.0);
      Nav := Navigation(Vec3(0.0, 0.0, 0.0), Vec3(0.0, 0.0, 0.0), ZERO);
    }

    method Init()
      requires Shaped() && ZeroPattern()
      modifies P, X, Q, R, Be
      ensures Valid()
      ensures Value(P) == InitialCovariance(X.Length)
      ensures Q[..] == [0.0000005, 0.0000005, 0.0000005, 0.01, 0.01, 0.01, 0.000002, 0.000002, 0.000002]
      ensures R[..] == [0.004, 0.004, 0.036, 0.004, 0.004, 100.0, 0.005, 0.005, 0.005, 0.05]
      ensures X[..] == Pack(Vec3(0.0, 0.0, 0.0), Vec3(0.0, 0.0, 0.0), Quat(1.0, 0.0, 0.0, 0.0), Vec3(0.0, 0.0, 0.0))
      ensures Be[..] == [1.0, 0.0, 0.0]
    {
      InitialIsCovariance(X.Length);
      InitCovariance(P);
      Fill(X, [0.0, 0.0, 0.0, 0.0, 0.0, 0.0, 1.0, 0.0, 0.0, 0.0, 0.0, 0.0, 0.0]);
      InitSettings();
    }

    method InitSettings()
      requires Shaped()
      modifies Q, R, Be
      ensures ProcessNoise() && SensorNoise()
      ensures Q[..] == [0.0000005, 0.0000005, 0.0000005, 0.01, 0.01, 0.01, 0.000002, 0.000002, 0.000002]
      ensures R[..] == [0.004, 0.004, 0.036, 0.004, 0.004, 100.0, 0.005, 0.005, 0.005, 0.05]
      ensures Be[..] == [1.0, 0.0, 0.0]
    {
      Fill(Be, [1.0, 0.0, 0.0]);
      Fill(Q, [0.0000005, 0.0000005, 0.0000005, 0.01, 0.01, 0.01, 0.000002, 0.000002, 0.000002]);
      Fill(R, [0.004, 0.004, 0.036, 0.004, 0.004, 100.0, 0.005, 0.005, 0.005, 0.05]);
    }

    /** Where only the state has changed. */
    twostate lemma StaysValid()
      requires unchanged(P, F, G, H, Q, R)
      ensures Value(F) == old(Value(F)) && Value(G) == old(Value(G))
      ensures old(Sound()) ==> Sound()
      ensures old(Valid()) && Attitude(X[..]) != ZERO ==> Valid()
    {
    }

    method PosVelReset(pos: Vec3, vel: Vec3)
      requires Sound()
      modifies P, X
      ensures Sound() && (old(Valid()) ==> Valid())
      ensures Value(P) == ResetCovariance(X.Length, old(Value(P)))
      ensures X[..] == Pack(pos, vel, Attitude(old(X[..])), Bias(old(X[..])))
    {
      ForgetCovariance();
      label Forgotten:
      SetPosVel(X, pos, vel);
      StaysValid@Forgotten();
    }

    method ForgetCovariance()
      requires Sound()
      modifies P
      ensures Sound() && (old(Valid()) ==> Valid())
      ensures Value(P) == ResetCovariance(X.Length, old(Value(P)))
    {
      ResetIsSymmetric(X.Length, Value(P));
      if Correctable() {
        ResetIsCovariance(X.Length, Value(P));
      }
      ResetPosVelCovariance(P);
    }

    /** Position and horizontal velocity variances, not the vertical velocity's. */
    method SetPosVelVar(PosVar: real)
      requires Sound()
      modifies R
      ensures Sound() && (PosVar > 0.0 && old(Valid()) ==> Valid())
      ensures R[..] == [PosVar, PosVar, PosVar, PosVar, PosVar] + old(R[5..])
    {
      SetPosVelVariances(R, PosVar);
    }

    method SetGyroBias(bias: Vec3)
      requires Sound()
      modifies X
      ensures Sound() && (old(Valid()) ==> Valid())
      ensures X[..] == Pack(Position(old(X[..])), Velocity(old(X[..])), Attitude(old(X[..])), bias)
    {
      SetBias(X, bias);
    }

    method SetAccelVar(variance: Vec3)
      requires Sound()
      modifies Q
      ensures Sound() && (variance.x >= 0.0 && variance.y >= 0.0 && variance.z >= 0.0 && old(Valid()) ==> Valid())
      ensures Q[..] == old(Q[..3]) + [variance.x, variance.y, variance.z] + old(Q[6..])
    {
      SetThree(Q, 3, variance);
    }

    method SetGyroVar(variance: Vec3)
      requires Sound()
      modifies Q
      ensures Sound() && (variance.x >= 0.0 && variance.y >= 0.0 && variance.z >= 0.0 && old(Valid()) ==> Valid())
      ensures Q[..] == [variance.x, variance.y, variance.z] + old(Q[3..])
    {
      SetThree(Q, 0, variance);
    }

    method SetMagVar(variance: Vec3)
      requires Sound()
      modifies R
      ensures Sound() && (variance.x > 0.0 && variance.y > 0.0 && variance.z > 0.0 && old(Valid()) ==> Valid())
      ensures R[..] == old(R[..6]) + [variance.x, variance.y, variance.z] + old(R[9..])
    {
      SetThree(R, 6, variance);
    }

    method SetMagNorth(B: Vec3)
      requires Sound()
      modifies Be
      ensures Sound() && Be[..] == [B.x, B.y, B.z] && (old(Valid()) ==> Valid())
    {
      SetThree(Be, 0, B);
    }

    /** Gyro and accelerometer readings as the input vector. */
    method Inputs(gyro: Vec3, accel: Vec3) returns (U: array<real>)
      ensures fresh(U) && U[..] == [gyro.x, gyro.y, gyro.z, accel.x, accel.y, accel.z]
    {
      U := new real[6];
      U[0], U[1], U[2] := gyro.x, gyro.y, gyro.z;
      U[3], U[4], U[5] := accel.x, accel.y, accel.z;
    }

    method LinearizeFG(U: array<real>)
      requires Sound() && U.Length == 6
      modifies F, G
      ensures Value(F) == JacobianF(X[..], U[..]) && Value(G) == JacobianG(X[..])
      ensures Sound() && (old(Valid()) ==> Valid())
      ensures X[..] == old(X[..]) && U[..] == old(U[..])
    {
      LinearizeF(X, U, F);
      LinearizeG(X, G);
      MatExt(Value(F), JacobianF(X[..], U[..]), 13, 13);
      MatExt(Value(G), JacobianG(X[..]), 13, 9);
    }

    /** Propagate the state; F and G become the Jacobians at the state before. */
    method StatePrediction(gyro: Vec3, accel: Vec3, dT: real, sqrt: real -> real) returns (ghost qmag: real)
      requires Sound() && IsSqrt(sqrt)
      modifies X, F, G, this`Nav
      ensures Sound() && (old(Valid()) ==> Valid())
      ensures var x, u := old(X[..]), [gyro.x, gyro.y, gyro.z, accel.x, accel.y, accel.z];
              && Value(F) == JacobianF(x, u) && Value(G) == JacobianG(x) && Propagated(x, u, dT, qmag, X[..])
      ensures Nav == SolutionOf(X[..])
    {
      ghost var x, u := X[..], [gyro.x, gyro.y, gyro.z, accel.x, accel.y, accel.z];
      var U := Inputs(gyro, accel);
      StaysValid();
      LinearizeFG(U);
      qmag := Advance(U, dT, sqrt);
    }

    method Advance(U: array<real>, dT: real, sqrt: real -> real) returns (ghost qmag: real)
      requires Sound() && U.Length == 6 && X != U && IsSqrt(sqrt)
      modifies X, this`Nav
      ensures Sound() && (old(Valid()) ==> Valid())
      ensures Value(F) == old(Value(F)) && Value(G) == old(Value(G))
      ensures Propagated(old(X[..]), old(U[..]), dT, qmag, X[..]) && Nav == SolutionOf(X[..])
    {
      qmag := Propagate(X, U, dT, sqrt);
      ghost var y := X[..];
      Publish();
      assert X[..] == y;
      StaysValid();
    }

    method Publish()
      requires X.Length == 13
      modifies this`Nav
      ensures Nav == SolutionOf(X[..])
    {
      Nav := SolutionOf(X[..]);
    }

    /** The prediction step for the covariance, by the expanded form. */
    method CovariancePrediction(dT: real)
      requires Sound()
      modifies P
      ensures Sound() && (old(Valid()) ==> Valid())
      ensures Value(P) == Predicted(X.Length, Q.Length, old(Value(P)), NormF(Value(F)), NormG(Value(G)), Q[..], dT)
    {
      PredictionIsSymmetric(X.Length, Q.Length, Value(P), NormF(Value(F)), NormG(Value(G)), Q[..], dT);
      if Valid() {
        PredictedCovariance(X.Length, Q.Length, Value(P), NormF(Value(F)), NormG(Value(G)), Q[..], dT);
      }
      CovariancePredictionExpanded(F, G, Q, dT, P);
    }

    function MagneticNorth(): Vec3
      requires Be.Length == 3
      reads Be
    {
      Vec3(Be[0], Be[1], Be[2])
    }

    /** The sensors a correction uses: H linearised at the present state. */
    ghost function SensorsAt(mask: bv16): (s: Sensors)
      requires Correctable()
      reads this, P, F, G, H, X, R, Be
      ensures s.Noisy(R.Length)
    {
      Sensors(JacobianH(X[..], MagneticNorth()), R[..], set m | 0 <= m < R.Length && Used(mask, m))
    }

    /** The state after a correction with the readings z, before its quaternion is normalised. */
    ghost function Corrected(z: Vec, mask: bv16): Vec
      requires Correctable()
      reads this, P, F, G, H, X, R, Be
    {
      SerialState(X.Length, X[..], Value(P), SensorsAt(mask), Residuals(z, Measured(X[..], MagneticNorth())), R.Length)
    }

    method LinearizeMeasurement(Z: array<real>, mask: bv16) returns (Y: array<real>)
      requires Correctable() && Z.Length == 10
      modifies H
      ensures ZeroPattern() && fresh(Y) && Y.Length == 10
      ensures SensorsOf(H, R, mask) == old(SensorsAt(mask))
      ensures Innovations(Z, Y) == Residuals(Z[..], Measured(X[..], MagneticNorth()))
    {
      Y := new real[10];
      LinearizeH(X, Be, H);
      MatExt(Value(H), JacobianH(X[..], MagneticNorth()), 10, 13);
      MeasurementEq(X, Be, Y);
      VecExt(10, Innovations(Z, Y), Residuals(Z[..], Y[..]));
    }

    /** Take the readings into P and X; the quaternion is not normalised yet. */
    method Update(Z: array<real>, mask: bv16)
      requires Correctable() && Z.Length == 10 && Z != X
      modifies P, X, H, K
      ensures Correctable()
      ensures Value(P) == Serial(X.Length, old(Value(P)), old(SensorsAt(mask)), R.Length)
      ensures X[..] == old(Corrected(Z[..], mask))
    {
      var Y := LinearizeMeasurement(Z, mask);
      SerialUpdate.SerialUpdate(H, R, Z, Y, P, X, K, mask);
    }

    twostate lemma StaysCorrectable()
      requires old(Correctable()) && unchanged(P, F, G, H, R)
      ensures Correctable()
    {
    }

    /** A correction by the sensors of the mask, with the measurements z.  The filter is valid afterwards unless
        the corrected quaternion is zero, which loses the attitude, or the process noise is not admissible. */
    method Correction(mag: Vec3, pos: Vec3, vel: Vec3, baro: real, mask: bv16, sqrt: real -> real)
      returns (ghost z: Vec, ghost qmag: real)
      requires Correctable() && IsSqrt(sqrt)
      modifies P, X, H, K, this`Nav
      ensures AreReadings(z, mag, sqrt(mag.Norm2()), pos, vel, baro)
      ensures Correctable()
      ensures Value(P) == Serial(X.Length, old(Value(P)), old(SensorsAt(mask)), R.Length)
      ensures Normalized(old(Corrected(z, mask)), qmag, X[..]) && Nav == SolutionOf(X[..])
      ensures ProcessNoise() && Attitude(old(Corrected(z, mask))) != ZERO ==> Valid()
    {
      var Z := Readings(mag, sqrt(mag.Norm2()), pos, vel, baro);
      z := Z[..];
      StaysCorrectable();
      Update(Z, mask);
      qmag := Normalize(X, sqrt);
      Publish();
      if Attitude(old(Corrected(z, mask))) != ZERO {
        UnitNonzero(Attitude(X[..]));
      }
    }

    /** The attitude with the magnetometer reading, when it is used, taken in. */
    ghost function WithMagnetometer(mag: Vec3, Bmag: real, mask: bv16): Quat
      requires Correctable() && Bmag != 0.0
      reads this, P, F, G, H, X, R, Be
    {
      var z, zero := ReadingsOf(mag, Bmag, Vec3(0.0, 0.0, 0.0), Vec3(0.0, 0.0, 0.0), 0.0), MagneticNorth();
      WithOthers(X.Length, X[..], Value(P), SensorsAt(mask), Residuals(z, Measured(X[..], zero)), GPS_AND_BARO,
                 R.Length)
    }

    /** Some GPS and barometer readings make the corrected quaternion zero. */
    ghost predicate CanLoseAttitude(mag: Vec3, Bmag: real, mask: bv16)
      requires Correctable() && Bmag != 0.0
      reads this, P, F, G, H, X, R, Be
    {
      exists pos, vel, baro :: Attitude(Corrected(ReadingsOf(mag, Bmag, pos, vel, baro), mask)) == ZERO
    }

    /** For a magnetometer reading and any mask: some GPS and barometer readings make the corrected quaternion
        zero exactly when elimination takes the attitude, with the magnetometer taken in, to zero by the
        attitude gains of the other sensors in use. */
    lemma CanLoseAttitudeIff(mag: Vec3, Bmag: real, mask: bv16)
      requires Correctable() && Bmag != 0.0
      ensures CanLoseAttitude(mag, Bmag, mask) <==>
              Eliminated(WithMagnetometer(mag, Bmag, mask),
                         Columns(X.Length, Value(P), SensorsAt(mask), GPS_AND_BARO, R.Length))
    {
      var n, v, s, y := X.Length, R.Length, SensorsAt(mask), Measured(X[..], MagneticNorth());
      var e := Residuals(ReadingsOf(mag, Bmag, Vec3(0.0, 0.0, 0.0), Vec3(0.0, 0.0, 0.0), 0.0), y);
      CanVanishIff(n, X[..], Value(P), s, e, GPS_AND_BARO, v);
      if CanLoseAttitude(mag, Bmag, mask) {
        var pos, vel, baro :| Attitude(Corrected(ReadingsOf(mag, Bmag, pos, vel, baro), mask)) == ZERO;
        ResidualsAgree(mag, Bmag, pos, vel, baro, y);
      } else if CanVanish(n, X[..], Value(P), s, e, GPS_AND_BARO, v) {
        var d: Vec :| Agree(d, e, GPS_AND_BARO, v) && Attitude(SerialState(n, X[..], Value(P), s, d, v)) == ZERO;
        var pos, vel, baro := ReadingsFor(mag, Bmag, y, e, d);
        SameState(n, X[..], Value(P), s, d, Residuals(ReadingsOf(mag, Bmag, pos, vel, baro), y), v);
      }
    }
  }

  const GPS_AND_BARO: set<int> := {0, 1, 2, 3, 4, 5, 9}

  lemma ResidualsAgree(mag: Vec3, Bmag: real, pos: Vec3, vel: Vec3, baro: real, y: Vec)
    requires Bmag != 0.0
    ensures var o := Vec3(0.0, 0.0, 0.0);
            Agree(Residuals(ReadingsOf(mag, Bmag, pos, vel, baro), y), Residuals(ReadingsOf(mag, Bmag, o, o, 0.0), y),
                  GPS_AND_BARO, 10)
  {
  }

  /** Readings with the given innovations. */
  lemma ReadingsFor(mag: Vec3, Bmag: real, y: Vec, e: Vec, d: Vec) returns (pos: Vec3, vel: Vec3, baro: real)
    requires Bmag != 0.0 && Agree(d, e, GPS_AND_BARO, 10)
    requires e == Residuals(ReadingsOf(mag, Bmag, Vec3(0.0, 0.0, 0.0), Vec3(0.0, 0.0, 0.0), 0.0), y)
    ensures forall m :: 0 <= m < 10 ==> V(Residuals(ReadingsOf(mag, Bmag, pos, vel, baro), y), m) == V(d, m)
  {
    pos := Vec3(V(d, 0) + V(y, 0), V(d, 1) + V(y, 1), V(d, 2) + V(y, 2));
    vel := Vec3(V(d, 3) + V(y, 3), V(d, 4) + V(y, 4), V(d, 5) + V(y, 5));
    baro := V(d, 9) + V(y, 9);
    var z := ReadingsOf(mag, Bmag, pos, vel, baro);
    forall m | 0 <= m < 10
      ensures V(Residuals(z, y), m) == V(d, m)
    {
      assert V(Residuals(z, y), m) == V(z, m) - V(y, m);
      if m in GPS_AND_BARO {
        assert m == 0 || m == 1 || m == 2 || m == 3 || m == 4 || m == 5 || m == 9;
      } else {
        assert m == 6 || m == 7 || m == 8;
        assert V(d, m) == V(e, m);
      }
    }
  }

  lemma {:induction false} SameState(n: nat, X: Vec, P: Mat, s: Sensors, d: Vec, e: Vec, m: nat)
    requires Covariance(n, P) && s.Noisy(m) && forall k :: 0 <= k < m ==> V(d, k) == V(e, k)
    ensures SerialState(n, X, P, s, d, m) == SerialState(n, X, P, s, e, m)
  {
    if m > 0 {
      SameState(n, X, P, s, d, e, m - 1);
    }
  }
}
