/**
  What the filter does with readings and inputs whose effect is known: a reading equal to the predicted one
  changes nothing, constant acceleration moves position and velocity by the textbook formulas, and a filter at rest
  stays at rest.  The constants of the source are written out here.
 */
module FilterLaws {
  import opened Linear
  import opened Forms
  import opened KalmanUpdate
  import opened Quaternions
  import opened StateModel
  import opened Linearization
  import opened SerialUpdate
  import opened FilterRuns
  import opened InsGps
  import opened AttitudeLoss
  import opened CoordinateConversions

  // ------------------------------------------------------------------ the sensors of a mask

  /** The sensors of the masks that insgps.h names, and of their union. */
  lemma NamedMasks(m: nat)
    ensures Used(0x007, m) <==> m < 3
    ensures Used(0x018, m) <==> 3 <= m < 5
    ensures Used(0x020, m) <==> m == 5
    ensures Used(0x1C0, m) <==> 6 <= m < 9
    ensures Used(0x200, m) <==> m == 9
    ensures Used(0x3FF, m) <==> m < 10
  {
    if m < 16 {
      NamedBits(m);
    }
  }

  lemma NamedBits(m: nat)
    requires m < 16
    ensures Used(0x007, m) <==> m < 3
    ensures Used(0x018, m) <==> 3 <= m < 5
    ensures Used(0x020, m) <==> m == 5
    ensures Used(0x1C0, m) <==> 6 <= m < 9
    ensures Used(0x200, m) <==> m == 9
    ensures Used(0x3FF, m) <==> m < 10
  {
    assert m == 0 || m == 1 || m == 2 || m == 3 || m == 4 || m == 5 || m == 6 || m == 7
           || m == 8 || m == 9 || m == 10 || m == 11 || m == 12 || m == 13 || m == 14 || m == 15;
  }

  // ------------------------------------------------------------------ normalisation

  /** Normalisation keeps the direction of the quaternion, and everything else. */
  lemma NormalisationScales(x: Vec, m: real, y: Vec)
    requires Normalized(x, m, y) && Attitude(x) != ZERO
    ensures m > 0.0 && Attitude(y).Scale(m) == Attitude(x)
    ensures Position(y) == Position(x) && Velocity(y) == Velocity(x) && Bias(y) == Bias(x)
  {
    var q, r := Attitude(x), Attitude(y);
    Undivided(q.w, m, r.w);
    Undivided(q.x, m, r.x);
    Undivided(q.y, m, r.y);
    Undivided(q.z, m, r.z);
  }

  lemma Undivided(q: real, m: real, r: real)
    requires m > 0.0 && r == q / m
    ensures Times(m, r) == q
  {
  }

  // ------------------------------------------------------------------ a reading equal to the predicted one

  /** The magnetic field in body coordinates. */
  function Field(x: Vec, be: Vec3): Vec3 {
    Attitude(x).Conj().Rotate(be)
  }

  function Times3(c: real, v: Vec3): Vec3 {
    Vec3(Times(c, v.x), Times(c, v.y), Times(c, v.z))
  }

  /** Readings of the state x: the field in any unit c, position, velocity and altitude. */
  function ExactReadings(x: Vec, be: Vec3, c: real): Vec
    requires c != 0.0
  {
    ReadingsOf(Times3(c, Field(x, be)), c, Position(x), Velocity(x), -V(x, 2))
  }

  lemma ExactIsMeasured(x: Vec, be: Vec3, c: real)
    requires c > 0.0
    ensures ExactReadings(x, be, c) == Measured(x, be)
  {
    var m := Field(x, be);
    Cancelled(c, m.x);
    Cancelled(c, m.y);
    Cancelled(c, m.z);
  }

  lemma Cancelled(c: real, a: real)
    requires c != 0.0
    ensures Times(c, a) / c == a
  {
  }

  lemma {:induction false} NoInnovation(n: nat, x: Vec, P: Mat, s: Sensors, e: Vec, m: nat)
    requires Covariance(n, P) && s.Noisy(m) && |x| == n && forall k :: 0 <= k < m ==> V(e, k) == 0.0
    ensures SerialState(n, x, P, s, e, m) == x
  {
    if m > 0 {
      NoInnovation(n, x, P, s, e, m - 1);
      if m - 1 in s.used {
        VecExt(n, Comb(n, 1.0, x, 0.0, SerialGain(n, P, s, m - 1)), x);
      }
    }
  }

  /** Such readings leave the state as it is, whatever the covariance, the noise and the mask. */
  lemma ExactReadingsChangeNothing(f: Filter, c: real, mask: bv16)
    requires f.Correctable() && c > 0.0
    ensures f.Corrected(ExactReadings(f.X[..], Vec3(f.Be[0], f.Be[1], f.Be[2]), c), mask) == f.X[..]
  {
    var x, be := f.X[..], Vec3(f.Be[0], f.Be[1], f.Be[2]);
    ExactIsMeasured(x, be, c);
    NoInnovation(f.X.Length, x, Value(f.P), f.SensorsAt(mask), Residuals(Measured(x, be), Measured(x, be)), f.R.Length);
  }

  lemma FieldLength(q: Quat, be: Vec3)
    requires Inner(q, q) == 1.0 && be.Norm2() == 1.0
    ensures q.Conj().Rotate(be).Norm2() == 1.0
  {
    TurnedLength(q, be);
  }

  lemma ScaledLength(c: real, v: Vec3, sqrt: real -> real)
    requires IsSqrt(sqrt) && c > 0.0 && v.Norm2() == 1.0
    ensures sqrt(Times3(c, v).Norm2()) == c
  {
    var s := Times3(c, v).Norm2();
    SquaredLength(c, v.x, v.y, v.z);
    Positive(c);
    RootIs(sqrt(s), c);
  }

  lemma SquaredLength(c: real, x: real, y: real, z: real)
    ensures Square3(Times(c, x), Times(c, y), Times(c, z)) == c * c * Square3(x, y, z)
  {
  }

  lemma Positive(c: real)
    requires c > 0.0
    ensures c * c > 0.0
  {
  }

  lemma UnitStays(x: Vec, m: real, y: Vec)
    requires |x| == 13 && Inner(Attitude(x), Attitude(x)) == 1.0 && Normalized(x, m, y)
    ensures y == x
  {
    var r := Attitude(y);
    NormalisationScales(x, m, y);
    ScaledInner(m, r.w, r.x, r.y, r.z);
    RootIs(m, 1.0);
    DividedByOne(x, m, y);
  }

  lemma ScaledInner(m: real, w: real, x: real, y: real, z: real)
    ensures Dot4(Times(m, w), Times(m, x), Times(m, y), Times(m, z), Times(m, w), Times(m, x), Times(m, y), Times(m, z))
            == m * m * Dot4(w, x, y, z, w, x, y, z)
  {
  }

  lemma DividedByOne(x: Vec, m: real, y: Vec)
    requires |x| == 13 && m == 1.0 && y == DividedBy(x, m)
    ensures y == x
  {
    VecExt(13, y, x);
  }

  /** One correction with such a reading, in any unit c and with any sensors, leaves the state as it is. */
  method CorrectByPrediction(f: Filter, c: real, mask: bv16, sqrt: real -> real)
    requires f.Correctable() && IsSqrt(sqrt) && c > 0.0 && Vec3(f.Be[0], f.Be[1], f.Be[2]).Norm2() == 1.0
    requires Inner(Attitude(f.X[..]), Attitude(f.X[..])) == 1.0
    modifies f.P, f.X, f.H, f.K, f`Nav
    ensures f.X[..] == old(f.X[..])
  {
    var x, be := f.X[..], Vec3(f.Be[0], f.Be[1], f.Be[2]);
    FieldLength(Attitude(x), be);
    ScaledLength(c, Field(x, be), sqrt);
    ExactReadingsChangeNothing(f, c, mask);
    var mag := Times3(c, Field(x, be));
    ghost var z, m := f.Correction(mag, Position(x), Velocity(x), -x[2], mask, sqrt);
    assert z == ExactReadings(x, be, c);
    UnitStays(x, m, f.X[..]);
  }

  // ------------------------------------------------------------------ one integration step without rotation

  /** Velocity v and acceleration a, without rotation. */
  function Coasting(v: Vec3, a: Vec3): Vec {
    Pack(v, a, ZERO, Vec3(0.0, 0.0, 0.0))
  }

  /** a after the time t at the rate b. */
  function Later(a: Vec3, t: real, b: Vec3): Vec3 {
    Vec3(a.x + Times(t, b.x), a.y + Times(t, b.y), a.z + Times(t, b.z))
  }

  /** x after the time t of constant acceleration a, where the velocity is concerned. */
  ghost predicate Coasted(x: Vec, a: Vec3, t: real, y: Vec) {
    Attitude(y) == Attitude(x) && Bias(y) == Bias(x) && Velocity(y) == Later(Velocity(x), t, a)
  }

  /** The acceleration over ground that the readings u stand for. */
  function GroundAcceleration(x: Vec, u: Vec): Vec3 {
    Attitude(x).Rotate(Accel(u)).Plus(Vec3(0.0, 0.0, 9.81))
  }

  lemma NoTurn(q: Quat, w: Vec3)
    requires w == Vec3(0.0, 0.0, 0.0)
    ensures q.Times(Pure(w)).Scale(0.5) == ZERO
  {
  }

  lemma CoastingRate(x: Vec, u: Vec, t: real, y: Vec)
    requires Gyro(u) == Bias(x) && Coasted(x, GroundAcceleration(x, u), t, y)
    ensures StateRate(y, u) == Coasting(Later(Velocity(x), t, GroundAcceleration(x, u)), GroundAcceleration(x, u))
  {
    NoTurn(Attitude(y), Gyro(u).Minus(Bias(y)));
  }

  lemma CoastingMove(x: Vec, a: Vec3, c: real, v: Vec3, k: Vec, y: Vec)
    requires k == Coasting(v, a) && y == MovedBy(x, c, k)
    ensures Coasted(x, a, c, y)
  {
    assert forall i :: 3 <= i < 13 ==> V(y, i) == 1.0 * V(x, i) + c * V(k, i);
  }

  /** From one stage to the next, which is evaluated after the time c. */
  lemma CoastingStage(x: Vec, u: Vec, a: Vec3, v: Vec3, c: real, k: Vec, next: Vec)
    requires Gyro(u) == Bias(x) && a == GroundAcceleration(x, u)
    requires k == Coasting(v, a) && next == StateRate(MovedBy(x, c, k), u)
    ensures next == Coasting(Later(Velocity(x), c, a), a)
  {
    var y := MovedBy(x, c, k);
    CoastingMove(x, a, c, v, k, y);
    CoastingRate(x, u, c, y);
  }

  lemma CoastingStages(x: Vec, u: Vec, dT: real, a: Vec3, k1: Vec, k2: Vec, k3: Vec, k4: Vec)
    requires Gyro(u) == Bias(x) && a == GroundAcceleration(x, u)
    requires k1 == StateRate(x, u) && k2 == StateRate(MovedBy(x, dT / 2.0, k1), u)
    requires k3 == StateRate(MovedBy(x, dT / 2.0, k2), u) && k4 == StateRate(MovedBy(x, dT, k3), u)
    ensures var v := Velocity(x);
            && k1 == Coasting(Later(v, 0.0, a), a) && k2 == k3 == Coasting(Later(v, dT / 2.0, a), a)
            && k4 == Coasting(Later(v, dT, a), a)
  {
    var v := Velocity(x);
    CoastingRate(x, u, 0.0, x);
    CoastingStage(x, u, a, Later(v, 0.0, a), dT / 2.0, k1, k2);
    CoastingStage(x, u, a, Later(v, dT / 2.0, a), dT / 2.0, k2, k3);
    CoastingStage(x, u, a, Later(v, dT / 2.0, a), dT, k3, k4);
  }

  lemma WeightedStep(x: Vec, dT: real, s: Stages, y: Vec, i: int, k1: real, k2: real, k4: real)
    requires y == Averaged(x, dT, s) && 0 <= i < 13
    requires V(s.k1, i) == k1 && V(s.k2, i) == V(s.k3, i) == k2 && V(s.k4, i) == k4
    ensures V(y, i) == V(x, i) + dT * (k1 + 2.0 * k2 + 2.0 * k2 + k4) / 6.0
  {
  }

  /** The position after the time t with velocity v and constant acceleration a. */
  function Uniform(p: real, v: real, a: real, t: real): real {
    p + t * v + t * t * a / 2.0
  }

  /** An entry with a constant rate. */
  lemma ConstantRate(x: Vec, dT: real, s: Stages, y: Vec, i: int, k: real)
    requires y == Averaged(x, dT, s) && 0 <= i < 13
    requires V(s.k1, i) == V(s.k2, i) == V(s.k3, i) == V(s.k4, i) == k
    ensures V(y, i) == V(x, i) + Times(dT, k)
  {
    WeightedStep(x, dT, s, y, i, k, k, k);
  }

  /** An entry whose rate v grows by a. */
  lemma LinearRate(x: Vec, dT: real, s: Stages, y: Vec, i: int, v: real, a: real)
    requires y == Averaged(x, dT, s) && 0 <= i < 13
    requires V(s.k1, i) == v + Times(0.0, a) && V(s.k2, i) == V(s.k3, i) == v + Times(dT / 2.0, a)
    requires V(s.k4, i) == v + Times(dT, a)
    ensures V(y, i) == Uniform(V(x, i), v, a, dT)
  {
    WeightedStep(x, dT, s, y, i, v + Times(0.0, a), v + Times(dT / 2.0, a), v + Times(dT, a));
    Ramp(V(x, i), v, dT, a);
  }

  lemma Ramp(x: real, v: real, dT: real, a: real)
    ensures var w := v + Times(dT / 2.0, a);
            x + dT * (v + Times(0.0, a) + 2.0 * w + 2.0 * w + (v + Times(dT, a))) / 6.0 == Uniform(x, v, a, dT)
  {
  }

  ghost predicate CoastStages(s: Stages, v: Vec3, dT: real, a: Vec3) {
    && s.k1 == Coasting(Later(v, 0.0, a), a) && s.k2 == s.k3 == Coasting(Later(v, dT / 2.0, a), a)
    && s.k4 == Coasting(Later(v, dT, a), a)
  }

  lemma CoastedVelocity(x: Vec, dT: real, s: Stages, y: Vec, v: Vec3, a: Vec3)
    requires y == Averaged(x, dT, s) && CoastStages(s, v, dT, a)
    ensures Velocity(y) == Later(Velocity(x), dT, a)
  {
    ConstantRate(x, dT, s, y, 3, a.x);
    ConstantRate(x, dT, s, y, 4, a.y);
    ConstantRate(x, dT, s, y, 5, a.z);
  }

  lemma CoastedPosition(x: Vec, dT: real, s: Stages, y: Vec, v: Vec3, a: Vec3)
    requires y == Averaged(x, dT, s) && CoastStages(s, v, dT, a)
    ensures var p := Position(x);
            Position(y) == Vec3(Uniform(p.x, v.x, a.x, dT), Uniform(p.y, v.y, a.y, dT), Uniform(p.z, v.z, a.z, dT))
  {
    LinearRate(x, dT, s, y, 0, v.x, a.x);
    LinearRate(x, dT, s, y, 1, v.y, a.y);
    LinearRate(x, dT, s, y, 2, v.z, a.z);
  }

  lemma CoastedRest(x: Vec, dT: real, s: Stages, y: Vec, v: Vec3, a: Vec3)
    requires y == Averaged(x, dT, s) && CoastStages(s, v, dT, a)
    ensures Attitude(y) == Attitude(x) && Bias(y) == Bias(x)
  {
    forall i | 6 <= i < 13
      ensures V(y, i) == V(x, i)
    {
      assert i == 6 || i == 7 || i == 8 || i == 9 || i == 10 || i == 11 || i == 12;
      ConstantRate(x, dT, s, y, i, 0.0);
    }
  }

  /** Without rotation one step moves velocity and position exactly by the acceleration over ground: v + dT a and
      p + dT v + dT^2 a / 2; attitude and biases stay. */
  lemma ConstantAcceleration(x: Vec, u: Vec, dT: real, p: Vec3, v: Vec3, a: Vec3, y: Vec)
    requires Gyro(u) == Bias(x) && y == Integrated(x, u, dT) && p == Position(x) && v == Velocity(x)
    requires a == Attitude(x).Rotate(Accel(u)).Plus(Vec3(0.0, 0.0, 9.81))
    ensures Velocity(y) == Later(v, dT, a)
    ensures Position(y) == Vec3(Uniform(p.x, v.x, a.x, dT), Uniform(p.y, v.y, a.y, dT), Uniform(p.z, v.z, a.z, dT))
    ensures Attitude(y) == Attitude(x) && Bias(y) == Bias(x)
  {
    var s := StagesOf(x, u, dT);
    CoastingStages(x, u, dT, a, s.k1, s.k2, s.k3, s.k4);
    CoastedVelocity(x, dT, s, y, v, a);
    CoastedPosition(x, dT, s, y, v, a);
    CoastedRest(x, dT, s, y, v, a);
  }

  /** At rest, with the accelerometer reading gravity only, the velocity does not change. */
  lemma StaysAtRest(x: Vec, u: Vec, dT: real)
    requires Gyro(u) == Bias(x) && Inner(Attitude(x), Attitude(x)) == 1.0
    requires Accel(u) == Attitude(x).Conj().Rotate(Vec3(0.0, 0.0, -9.81))
    ensures Velocity(Integrated(x, u, dT)) == Velocity(x)
  {
    var a := Attitude(x).Rotate(Accel(u)).Plus(Vec3(0.0, 0.0, 9.81));
    TurnedBack(Attitude(x), Vec3(0.0, 0.0, -9.81));
    ConstantAcceleration(x, u, dT, Position(x), Velocity(x), a, Integrated(x, u, dT));
  }

  // ------------------------------------------------------------------ initial values

  /** The variances of the source, and no covariances between different states. */
  lemma InitialVariances(n: nat, i: int, j: int)
    requires n == 13 && 0 <= i < n && 0 <= j < n
    ensures i < 3 ==> At(InitialCovariance(n), i, i) == 25.0
    ensures 3 <= i < 6 ==> At(InitialCovariance(n), i, i) == 5.0
    ensures 6 <= i ==> At(InitialCovariance(n), i, i) == 0.00001
    ensures i != j ==> At(InitialCovariance(n), i, j) == 0.0
  {
  }
}
