/**
  The process model of the filter: 13 states (position, velocity, quaternion, gyro bias) driven by
  6 inputs (angular rate, acceleration), and its exact Jacobians.
 */
module StateModel {
  import opened Linear
  import opened Forms
  import opened Quaternions

  const GRAVITY: real := 9.81

  function Attitude(x: Vec): Quat {
    Quat(V(x, 6), V(x, 7), V(x, 8), V(x, 9))
  }

  function Velocity(x: Vec): Vec3 {
    Vec3(V(x, 3), V(x, 4), V(x, 5))
  }

  function Bias(x: Vec): Vec3 {
    Vec3(V(x, 10), V(x, 11), V(x, 12))
  }

  function Gyro(u: Vec): Vec3 {
    Vec3(V(u, 0), V(u, 1), V(u, 2))
  }

  function Accel(u: Vec): Vec3 {
    Vec3(V(u, 3), V(u, 4), V(u, 5))
  }

  /** Position, velocity, attitude and bias as one state vector. */
  function Pack(p: Vec3, v: Vec3, q: Quat, b: Vec3): Vec {
    [p.x, p.y, p.z, v.x, v.y, v.z, q.w, q.x, q.y, q.z, b.x, b.y, b.z]
  }

  /** The state derivative: velocity; rotated acceleration plus gravity; half of q times the
      bias-corrected angular rate; and a constant bias. */
  function StateRate(x: Vec, u: Vec): Vec {
    Pack(Velocity(x),
         Attitude(x).Rotate(Accel(u)).Plus(Vec3(0.0, 0.0, GRAVITY)),
         Attitude(x).Times(Pure(Gyro(u).Minus(Bias(x)))).Scale(0.5),
         Vec3(0.0, 0.0, 0.0))
  }

  lemma HalfTimes(q0: real, q1: real, q2: real, q3: real, wx: real, wy: real, wz: real)
    ensures Quat(q0, q1, q2, q3).Times(Pure(Vec3(wx, wy, wz))).Scale(0.5) ==
            Quat((-q1 * wx - q2 * wy - q3 * wz) / 2.0, (q0 * wx - q3 * wy + q2 * wz) / 2.0,
                 (q3 * wx + q0 * wy - q1 * wz) / 2.0, (-q2 * wx + q1 * wy + q0 * wz) / 2.0)
  {
  }

  method SetRates(Xdot: array<real>, velocity: Vec3, accel: Vec3, turn: Quat)
    requires Xdot.Length == 13
    modifies Xdot
    ensures Xdot[..] == Pack(velocity, accel, turn, Vec3(0.0, 0.0, 0.0))
  {
    Xdot[0], Xdot[1], Xdot[2] := velocity.x, velocity.y, velocity.z;
    Xdot[3], Xdot[4], Xdot[5] := accel.x, accel.y, accel.z;
    Xdot[6], Xdot[7], Xdot[8], Xdot[9] := turn.w, turn.x, turn.y, turn.z;
    Xdot[10], Xdot[11], Xdot[12] := 0.0, 0.0, 0.0;
  }

  method VelocityRate(q0: real, q1: real, q2: real, q3: real, ax: real, ay: real, az: real) returns (r: Vec3)
    ensures r == Quat(q0, q1, q2, q3).Rotate(Vec3(ax, ay, az)).Plus(Vec3(0.0, 0.0, GRAVITY))
  {
    r := Vec3((q0 * q0 + q1 * q1 - q2 * q2 - q3 * q3) * ax + 2.0 * (q1 * q2 - q0 * q3) * ay
              + 2.0 * (q1 * q3 + q0 * q2) * az,
              2.0 * (q1 * q2 + q0 * q3) * ax + (q0 * q0 - q1 * q1 + q2 * q2 - q3 * q3) * ay
              + 2.0 * (q2 * q3 - q0 * q1) * az,
              2.0 * (q1 * q3 - q0 * q2) * ax + 2.0 * (q2 * q3 + q0 * q1) * ay
              + (q0 * q0 - q1 * q1 - q2 * q2 + q3 * q3) * az + 9.81);
    RotateFormula(q0, q1, q2, q3, ax, ay, az);
  }

  method AttitudeRate(q0: real, q1: real, q2: real, q3: real, wx: real, wy: real, wz: real) returns (r: Quat)
    ensures r == Quat(q0, q1, q2, q3).Times(Pure(Vec3(wx, wy, wz))).Scale(0.5)
  {
    r := Quat((-q1 * wx - q2 * wy - q3 * wz) / 2.0, (q0 * wx - q3 * wy + q2 * wz) / 2.0,
              (q3 * wx + q0 * wy - q1 * wz) / 2.0, (-q2 * wx + q1 * wy + q0 * wz) / 2.0);
    HalfTimes(q0, q1, q2, q3, wx, wy, wz);
  }

  method StateEq(X: array<real>, U: array<real>, Xdot: array<real>)
    requires X.Length == 13 && U.Length == 6 && Xdot.Length == 13 && Xdot != X && Xdot != U
    modifies Xdot
    ensures Xdot[..] == StateRate(X[..], U[..])
  {
    ghost var x, u := X[..], U[..];
    var accel := VelocityRate(X[6], X[7], X[8], X[9], U[3], U[4], U[5]);
    var turn := AttitudeRate(X[6], X[7], X[8], X[9], U[0] - X[10], U[1] - X[11], U[2] - X[12]);
    assert Attitude(x) == Quat(x[6], x[7], x[8], x[9]) && Accel(u) == Vec3(u[3], u[4], u[5]);
    assert Gyro(u).Minus(Bias(x)) == Vec3(u[0] - x[10], u[1] - x[11], u[2] - x[12]);
    SetRates(Xdot, Vec3(X[3], X[4], X[5]), accel, turn);
  }

  // ------------------------------------------------------------------ Runge-Kutta

  /** x + c k */
  ghost function MovedBy(x: Vec, c: real, k: Vec): Vec {
    Comb(13, 1.0, x, c, k)
  }

  /** The four stages of the classical method. */
  datatype Stages = Stages(k1: Vec, k2: Vec, k3: Vec, k4: Vec)

  ghost function StagesOf(x: Vec, u: Vec, dT: real): Stages {
    var k1 := StateRate(x, u);
    var k2 := StateRate(MovedBy(x, dT / 2.0, k1), u);
    var k3 := StateRate(MovedBy(x, dT / 2.0, k2), u);
    Stages(k1, k2, k3, StateRate(MovedBy(x, dT, k3), u))
  }

  ghost function Step(x: Vec, dT: real, s: Stages, i: int): real {
    V(x, i) + dT * (V(s.k1, i) + 2.0 * V(s.k2, i) + 2.0 * V(s.k3, i) + V(s.k4, i)) / 6.0
  }

  ghost function Averaged(x: Vec, dT: real, s: Stages): (r: Vec)
    ensures |r| == 13
    ensures forall i {:trigger V(r, i)} :: 0 <= i < 13 ==> V(r, i) == Step(x, dT, s, i)
  {
    seq(13, i => Step(x, dT, s, i))
  }

  /** One step of the classical fourth-order method with constant inputs. */
  ghost function Integrated(x: Vec, u: Vec, dT: real): Vec {
    Averaged(x, dT, StagesOf(x, u, dT))
  }

  /** X = Xlast + c * K */
  method MoveTo(X: array<real>, Xlast: array<real>, c: real, K: array<real>)
    requires X.Length == Xlast.Length == K.Length == 13 && X != Xlast && X != K
    modifies X
    ensures X[..] == MovedBy(Xlast[..], c, K[..])
  {
    for i := 0 to 13
      invariant forall j :: 0 <= j < i ==> X[j] == V(Xlast[..], j) + c * V(K[..], j)
    {
      X[i] := Xlast[i] + c * K[i];
    }
    VecExt(13, X[..], MovedBy(Xlast[..], c, K[..]));
  }

  /** K1 .. K4 by evaluating the state equations at X and at the three moved states. */
  method EvaluateStages(X: array<real>, U: array<real>, dT: real, Xlast: array<real>,
                        K1: array<real>, K2: array<real>, K3: array<real>, K4: array<real>)
    requires X.Length == Xlast.Length == K1.Length == K2.Length == K3.Length == K4.Length == 13 && U.Length == 6
    requires U != X && U != K1 && U != K2 && U != K3 && U != K4
    requires X != Xlast && X != K1 && X != K2 && X != K3 && X != K4
    requires Xlast != K1 && Xlast != K2 && Xlast != K3 && Xlast != K4
    requires K1 != K2 && K1 != K3 && K1 != K4 && K2 != K3 && K2 != K4 && K3 != K4
    requires Xlast[..] == X[..]
    modifies X, K1, K2, K3, K4
    ensures Stages(K1[..], K2[..], K3[..], K4[..]) == StagesOf(old(X[..]), U[..], dT)
  {
    ghost var x, u := X[..], U[..];
    var dT2 := dT / 2.0;
    StateEq(X, U, K1);
    ghost var k1 := K1[..];
    MoveTo(X, Xlast, dT2, K1);
    ghost var x2 := X[..];
    StateEq(X, U, K2);
    ghost var k2 := K2[..];
    MoveTo(X, Xlast, dT2, K2);
    ghost var x3 := X[..];
    StateEq(X, U, K3);
    ghost var k3 := K3[..];
    MoveTo(X, Xlast, dT, K3);
    ghost var x4 := X[..];
    StateEq(X, U, K4);
    StagesAre(x, u, dT, k1, x2, k2, x3, k3, x4, K4[..]);
  }

  lemma StagesAre(x: Vec, u: Vec, dT: real, k1: Vec, x2: Vec, k2: Vec, x3: Vec, k3: Vec, x4: Vec, k4: Vec)
    requires k1 == StateRate(x, u) && x2 == MovedBy(x, dT / 2.0, k1) && k2 == StateRate(x2, u)
    requires x3 == MovedBy(x, dT / 2.0, k2) && k3 == StateRate(x3, u)
    requires x4 == MovedBy(x, dT, k3) && k4 == StateRate(x4, u)
    ensures Stages(k1, k2, k3, k4) == StagesOf(x, u, dT)
  {
  }

  /** X = Xlast + dT * (K1 + 2 K2 + 2 K3 + K4) / 6 */
  method Average(X: array<real>, Xlast: array<real>, dT: real,
                 K1: array<real>, K2: array<real>, K3: array<real>, K4: array<real>)
    requires X.Length == Xlast.Length == K1.Length == K2.Length == K3.Length == K4.Length == 13
    requires X != Xlast && X != K1 && X != K2 && X != K3 && X != K4
    modifies X
    ensures X[..] == Averaged(Xlast[..], dT, Stages(K1[..], K2[..], K3[..], K4[..]))
  {
    ghost var x, s := Xlast[..], Stages(K1[..], K2[..], K3[..], K4[..]);
    for i := 0 to 13
      invariant Xlast[..] == x && K1[..] == s.k1 && K2[..] == s.k2 && K3[..] == s.k3 && K4[..] == s.k4
      invariant forall j :: 0 <= j < i ==> X[j] == Step(x, dT, s, j)
    {
      assert V(x, i) == Xlast[i] && V(s.k1, i) == K1[i] && V(s.k2, i) == K2[i] && V(s.k3, i) == K3[i]
             && V(s.k4, i) == K4[i];
      X[i] := Xlast[i] + dT * (K1[i] + 2.0 * K2[i] + 2.0 * K3[i] + K4[i]) / 6.0;
    }
    VecExt(13, X[..], Averaged(x, dT, s));
  }

  method RungeKutta(X: array<real>, U: array<real>, dT: real)
    requires X.Length == 13 && U.Length == 6 && X != U
    modifies X
    ensures X[..] == Integrated(old(X[..]), U[..], dT)
  {
    var K1, K2, K3, K4, Xlast := new real[13], new real[13], new real[13], new real[13], new real[13];
    for i := 0 to 13
      invariant X[..] == old(X[..]) && forall j :: 0 <= j < i ==> Xlast[j] == X[j]
    {
      Xlast[i] := X[i];
    }
    assert Xlast[..] == X[..];
    EvaluateStages(X, U, dT, Xlast, K1, K2, K3, K4);
    Average(X, Xlast, dT, K1, K2, K3, K4);
  }
}
