/**
  The Jacobians the filter uses: F and G of the state equations, H of the measurement equations.
  Each is proved to be the exact first-order part: the rest of the difference is written out and
  is quadratic in the perturbation.
 */
module Linearization {
  import opened Linear
  import opened Forms
  import opened CovariancePrediction
  import opened Quaternions
  import opened StateModel

  // ------------------------------------------------------------------ F

  /** Derivatives of velocity rate i by the four quaternion entries. */
  function VelocityRow(q: Quat, a: Vec3, i: int): seq<real> {
    if i == 3 then
      [2.0 * (q.w * a.x - q.z * a.y + q.y * a.z), 2.0 * (q.x * a.x + q.y * a.y + q.z * a.z),
       2.0 * (-q.y * a.x + q.x * a.y + q.w * a.z), 2.0 * (-q.z * a.x - q.w * a.y + q.x * a.z)]
    else if i == 4 then
      [2.0 * (q.z * a.x + q.w * a.y - q.x * a.z), 2.0 * (q.y * a.x - q.x * a.y - q.w * a.z),
       2.0 * (q.x * a.x + q.y * a.y + q.z * a.z), 2.0 * (q.w * a.x - q.z * a.y + q.y * a.z)]
    else if i == 5 then
      [2.0 * (-q.y * a.x + q.x * a.y + q.w * a.z), 2.0 * (q.z * a.x + q.w * a.y - q.x * a.z),
       2.0 * (-q.w * a.x + q.z * a.y - q.y * a.z), 2.0 * (q.x * a.x + q.y * a.y + q.z * a.z)]
    else []
  }

  /** Derivatives of quaternion rate i by the quaternion and by the gyro bias. */
  function QuaternionRow(q: Quat, w: Vec3, i: int): seq<real> {
    if i == 6 then [0.0, -w.x / 2.0, -w.y / 2.0, -w.z / 2.0, q.x / 2.0, q.y / 2.0, q.z / 2.0]
    else if i == 7 then [w.x / 2.0, 0.0, w.z / 2.0, -w.y / 2.0, -q.w / 2.0, q.z / 2.0, -q.y / 2.0]
    else if i == 8 then [w.y / 2.0, -w.z / 2.0, 0.0, w.x / 2.0, -q.z / 2.0, -q.w / 2.0, q.x / 2.0]
    else if i == 9 then [w.z / 2.0, w.y / 2.0, -w.x / 2.0, 0.0, q.y / 2.0, -q.x / 2.0, -q.w / 2.0]
    else []
  }

  function EntryF(q: Quat, a: Vec3, w: Vec3, i: int, j: int): real {
    if i < 3 then if j == i + 3 then 1.0 else 0.0
    else if i < 6 then V(VelocityRow(q, a, i), j - 6)
    else V(QuaternionRow(q, w, i), j - 6)
  }

  /** The matrix LinearizeFG leaves in F when the other entries are zero. */
  ghost function JacobianF(x: Vec, u: Vec): (J: Mat)
    ensures Shape(J, 13, 13)
    ensures forall i, j {:trigger At(J, i, j)} :: 0 <= i < 13 && 0 <= j < 13 ==>
      At(J, i, j) == EntryF(Attitude(x), Accel(u), Gyro(u).Minus(Bias(x)), i, j)
  {
    seq(13, i => seq(13, j => EntryF(Attitude(x), Accel(u), Gyro(u).Minus(Bias(x)), i, j)))
  }

  /** Derivatives of velocity rate i by the accelerometer noise. */
  function VelocityNoiseRow(q: Quat, i: int): seq<real> {
    if i == 3 then
      [-q.w * q.w - q.x * q.x + q.y * q.y + q.z * q.z, 2.0 * (-q.x * q.y + q.w * q.z), -2.0 * (q.x * q.z + q.w * q.y)]
    else if i == 4 then
      [-2.0 * (q.x * q.y + q.w * q.z), -q.w * q.w + q.x * q.x - q.y * q.y + q.z * q.z, 2.0 * (-q.y * q.z + q.w * q.x)]
    else if i == 5 then
      [2.0 * (-q.x * q.z + q.w * q.y), -2.0 * (q.y * q.z + q.w * q.x), -q.w * q.w + q.x * q.x + q.y * q.y - q.z * q.z]
    else []
  }

  /** Derivatives of quaternion rate i by the gyro noise. */
  function QuaternionNoiseRow(q: Quat, i: int): seq<real> {
    if i == 6 then [q.x / 2.0, q.y / 2.0, q.z / 2.0]
    else if i == 7 then [-q.w / 2.0, q.z / 2.0, -q.y / 2.0]
    else if i == 8 then [-q.z / 2.0, -q.w / 2.0, q.x / 2.0]
    else if i == 9 then [q.y / 2.0, -q.x / 2.0, -q.w / 2.0]
    else []
  }

  function EntryG(q: Quat, i: int, j: int): real {
    if i < 6 then V(VelocityNoiseRow(q, i), j - 3)
    else if i < 10 then V(QuaternionNoiseRow(q, i), j)
    else if j == i - 4 then 1.0 else 0.0
  }

  ghost function JacobianG(x: Vec): (J: Mat)
    ensures Shape(J, 13, 9)
    ensures forall i, j {:trigger At(J, i, j)} :: 0 <= i < 13 && 0 <= j < 9 ==> At(J, i, j) == EntryG(Attitude(x), i, j)
  {
    seq(13, i => seq(9, j => EntryG(Attitude(x), i, j)))
  }

  /** The entries of F and G that are never written, and have to be zero from the start. */
  predicate ConstantF(i: int, j: int) {
    !WrittenF(i, j) && !(6 <= i < 10 && j == i) && !(i < 3 && j == i + 3)
  }

  predicate ConstantG(i: int, j: int) {
    !WrittenG(i, j) && !(i >= 10 && j == i - 4)
  }

  method Assign(M: array2<real>, i: nat, j: nat, values: seq<real>)
    requires i < M.Length0 && j + |values| <= M.Length1
    modifies M
    ensures forall a, b {:trigger M[a, b]} :: 0 <= a < M.Length0 && 0 <= b < M.Length1 ==>
      M[a, b] == if a == i && j <= b < j + |values| then values[b - j] else old(M[a, b])
  {
    for k := 0 to |values|
      invariant forall a, b {:trigger M[a, b]} :: 0 <= a < M.Length0 && 0 <= b < M.Length1 ==>
        M[a, b] == if a == i && j <= b < j + k then values[b - j] else old(M[a, b])
    {
      M[i, j + k] := values[k];
    }
  }

  method LinearizeF(X: array<real>, U: array<real>, F: array2<real>)
    requires X.Length == 13 && U.Length == 6 && F.Length0 == F.Length1 == 13
    modifies F
    ensures forall i, j {:trigger F[i, j]} :: 0 <= i < 13 && 0 <= j < 13 ==>
      F[i, j] == if ConstantF(i, j) then old(F[i, j]) else At(JacobianF(X[..], U[..]), i, j)
  {
    var a := Vec3(U[3], U[4], U[5]);
    var w := Vec3(U[0] - X[10], U[1] - X[11], U[2] - X[12]);
    var q := Quat(X[6], X[7], X[8], X[9]);
    ghost var x, u := X[..], U[..];
    assert q == Attitude(x) && a == Accel(u) && w == Gyro(u).Minus(Bias(x));

    F[0, 3], F[1, 4], F[2, 5] := 1.0, 1.0, 1.0;

    LinearizeVelocity(q, a, F);
    LinearizeAttitude(q, w, F);
  }

  method LinearizeVelocity(q: Quat, a: Vec3, F: array2<real>)
    requires F.Length0 == F.Length1 == 13
    modifies F
    ensures forall i, j {:trigger F[i, j]} :: 0 <= i < 13 && 0 <= j < 13 ==>
      F[i, j] == if 3 <= i < 6 && 6 <= j < 10 then V(VelocityRow(q, a, i), j - 6) else old(F[i, j])
  {
    Assign(F, 3, 6, VelocityRow(q, a, 3));
    Assign(F, 4, 6, VelocityRow(q, a, 4));
    Assign(F, 5, 6, VelocityRow(q, a, 5));
  }

  method LinearizeAttitude(q: Quat, w: Vec3, F: array2<real>)
    requires F.Length0 == F.Length1 == 13
    modifies F
    ensures forall i, j {:trigger F[i, j]} :: 0 <= i < 13 && 0 <= j < 13 ==>
      F[i, j] == if 6 <= i < 10 && 6 <= j then V(QuaternionRow(q, w, i), j - 6) else old(F[i, j])
  {
    Assign(F, 6, 6, QuaternionRow(q, w, 6));
    Assign(F, 7, 6, QuaternionRow(q, w, 7));
    Assign(F, 8, 6, QuaternionRow(q, w, 8));
    Assign(F, 9, 6, QuaternionRow(q, w, 9));
  }

  method LinearizeG(X: array<real>, G: array2<real>)
    requires X.Length == 13 && G.Length0 == 13 && G.Length1 == 9
    modifies G
    ensures forall i, j {:trigger G[i, j]} :: 0 <= i < 13 && 0 <= j < 9 ==>
      G[i, j] == if ConstantG(i, j) then old(G[i, j]) else At(JacobianG(X[..]), i, j)
  {
    var q := Quat(X[6], X[7], X[8], X[9]);
    ghost var x := X[..];
    assert q == Attitude(x);

    LinearizeVelocityNoise(q, G);
    LinearizeAttitudeNoise(q, G);

    G[10, 6], G[11, 7], G[12, 8] := 1.0, 1.0, 1.0;
  }

  method LinearizeVelocityNoise(q: Quat, G: array2<real>)
    requires G.Length0 == 13 && G.Length1 == 9
    modifies G
    ensures forall i, j {:trigger G[i, j]} :: 0 <= i < 13 && 0 <= j < 9 ==>
      G[i, j] == if 3 <= i < 6 && 3 <= j < 6 then V(VelocityNoiseRow(q, i), j - 3) else old(G[i, j])
  {
    Assign(G, 3, 3, VelocityNoiseRow(q, 3));
    Assign(G, 4, 3, VelocityNoiseRow(q, 4));
    Assign(G, 5, 3, VelocityNoiseRow(q, 5));
  }

  method LinearizeAttitudeNoise(q: Quat, G: array2<real>)
    requires G.Length0 == 13 && G.Length1 == 9
    modifies G
    ensures forall i, j {:trigger G[i, j]} :: 0 <= i < 13 && 0 <= j < 9 ==>
      G[i, j] == if 6 <= i < 10 && j < 3 then V(QuaternionNoiseRow(q, i), j) else old(G[i, j])
  {
    Assign(G, 6, 0, QuaternionNoiseRow(q, 6));
    Assign(G, 7, 0, QuaternionNoiseRow(q, 7));
    Assign(G, 8, 0, QuaternionNoiseRow(q, 8));
    Assign(G, 9, 0, QuaternionNoiseRow(q, 9));
  }

  // ------------------------------------------------------------------ F is the first-order part

  ghost function Perturbed(x: Vec, d: Vec): Vec {
    Comb(13, 1.0, x, 1.0, d)
  }

  /** What remains of the difference of two state rates after the linear part. */
  ghost function RateRemainder(u: Vec, d: Vec): Vec {
    Pack(Vec3(0.0, 0.0, 0.0),
         Attitude(d).Rotate(Accel(u)),
         Attitude(d).Times(Pure(Bias(d).Neg())).Scale(0.5),
         Vec3(0.0, 0.0, 0.0))
  }

  /** The three coordinates of a rotated vector. */
  function RotateX(q: Quat, a: Vec3): real {
    (q.w * q.w + q.x * q.x - q.y * q.y - q.z * q.z) * a.x + 2.0 * (q.x * q.y - q.w * q.z) * a.y
    + 2.0 * (q.x * q.z + q.w * q.y) * a.z
  }

  function RotateY(q: Quat, a: Vec3): real {
    2.0 * (q.x * q.y + q.w * q.z) * a.x + (q.w * q.w - q.x * q.x + q.y * q.y - q.z * q.z) * a.y
    + 2.0 * (q.y * q.z - q.w * q.x) * a.z
  }

  function RotateZ(q: Quat, a: Vec3): real {
    2.0 * (q.x * q.z - q.w * q.y) * a.x + 2.0 * (q.y * q.z + q.w * q.x) * a.y
    + (q.w * q.w - q.x * q.x - q.y * q.y + q.z * q.z) * a.z
  }

  /** The four coordinates of half of q w. */
  function TurnW(q: Quat, w: Vec3): real {
    (-q.x * w.x - q.y * w.y - q.z * w.z) / 2.0
  }

  function TurnX(q: Quat, w: Vec3): real {
    (q.w * w.x - q.z * w.y + q.y * w.z) / 2.0
  }

  function TurnY(q: Quat, w: Vec3): real {
    (q.z * w.x + q.w * w.y - q.x * w.z) / 2.0
  }

  function TurnZ(q: Quat, w: Vec3): real {
    (-q.y * w.x + q.x * w.y + q.w * w.z) / 2.0
  }

  lemma RotateEntries(q: Quat, a: Vec3)
    ensures q.Rotate(a) == Vec3(RotateX(q, a), RotateY(q, a), RotateZ(q, a))
  {
    RotateFormula(q.w, q.x, q.y, q.z, a.x, a.y, a.z);
  }

  lemma TurnEntries(q: Quat, w: Vec3)
    ensures q.Times(Pure(w)).Scale(0.5) == Quat(TurnW(q, w), TurnX(q, w), TurnY(q, w), TurnZ(q, w))
  {
    HalfTimes(q.w, q.x, q.y, q.z, w.x, w.y, w.z);
  }

  /** A rate packed from velocity rates and quaternion rates. */
  ghost predicate Rates(k: Vec, vx: real, vy: real, vz: real, q0: real, q1: real, q2: real, q3: real) {
    && V(k, 3) == vx && V(k, 4) == vy && V(k, 5) == vz
    && V(k, 6) == q0 && V(k, 7) == q1 && V(k, 8) == q2 && V(k, 9) == q3
    && V(k, 10) == 0.0 && V(k, 11) == 0.0 && V(k, 12) == 0.0
  }

  lemma PackRates(p: Vec3, v: Vec3, q: Quat)
    ensures var k := Pack(p, v, q, Vec3(0.0, 0.0, 0.0));
            && Rates(k, v.x, v.y, v.z, q.w, q.x, q.y, q.z)
            && V(k, 0) == p.x && V(k, 1) == p.y && V(k, 2) == p.z
  {
  }

  lemma RateEntries(x: Vec, u: Vec, q: Quat, a: Vec3, w: Vec3)
    requires q == Attitude(x) && a == Accel(u) && w == Gyro(u).Minus(Bias(x))
    ensures Rates(StateRate(x, u), RotateX(q, a), RotateY(q, a), RotateZ(q, a) + GRAVITY,
                  TurnW(q, w), TurnX(q, w), TurnY(q, w), TurnZ(q, w))
    ensures V(StateRate(x, u), 0) == V(x, 3) && V(StateRate(x, u), 1) == V(x, 4) && V(StateRate(x, u), 2) == V(x, 5)
  {
    RotateEntries(q, a);
    TurnEntries(q, w);
    var v := Vec3(RotateX(q, a), RotateY(q, a), RotateZ(q, a)).Plus(Vec3(0.0, 0.0, GRAVITY));
    PackRates(Velocity(x), v, Quat(TurnW(q, w), TurnX(q, w), TurnY(q, w), TurnZ(q, w)));
    assert v == Vec3(RotateX(q, a) + 0.0, RotateY(q, a) + 0.0, RotateZ(q, a) + GRAVITY);
  }

  lemma RemainderEntries(u: Vec, d: Vec, q: Quat, a: Vec3, w: Vec3)
    requires q == Attitude(d) && a == Accel(u) && w == Bias(d).Neg()
    ensures Rates(RateRemainder(u, d), RotateX(q, a), RotateY(q, a), RotateZ(q, a),
                  TurnW(q, w), TurnX(q, w), TurnY(q, w), TurnZ(q, w))
    ensures V(RateRemainder(u, d), 0) == 0.0 && V(RateRemainder(u, d), 1) == 0.0 && V(RateRemainder(u, d), 2) == 0.0
  {
    RotateEntries(q, a);
    TurnEntries(q, w);
    PackRates(Vec3(0.0, 0.0, 0.0), Vec3(RotateX(q, a), RotateY(q, a), RotateZ(q, a)),
              Quat(TurnW(q, w), TurnX(q, w), TurnY(q, w), TurnZ(q, w)));
  }

  ghost predicate SumOf(r: Quat, q: Quat, d: Quat) {
    r.w == q.w + d.w && r.x == q.x + d.x && r.y == q.y + d.y && r.z == q.z + d.z
  }

  ghost function Combined4(c: seq<real>, d: Quat): real
    requires |c| >= 4
  {
    c[0] * d.w + c[1] * d.x + c[2] * d.y + c[3] * d.z
  }

  lemma RotateDifference(q: Quat, d: Quat, r: Quat, a: Vec3)
    requires SumOf(r, q, d)
    ensures RotateX(r, a) == RotateX(q, a) + RotateX(d, a) + Combined4(VelocityRow(q, a, 3), d)
    ensures RotateY(r, a) == RotateY(q, a) + RotateY(d, a) + Combined4(VelocityRow(q, a, 4), d)
    ensures RotateZ(r, a) == RotateZ(q, a) + RotateZ(d, a) + Combined4(VelocityRow(q, a, 5), d)
  {
    RotateXDifference(q, d, r, a);
    RotateYDifference(q, d, r, a);
    RotateZDifference(q, d, r, a);
  }

  lemma RotateXDifference(q: Quat, d: Quat, r: Quat, a: Vec3)
    requires SumOf(r, q, d)
    ensures RotateX(r, a) == RotateX(q, a) + RotateX(d, a) + Combined4(VelocityRow(q, a, 3), d)
  {
  }

  lemma RotateYDifference(q: Quat, d: Quat, r: Quat, a: Vec3)
    requires SumOf(r, q, d)
    ensures RotateY(r, a) == RotateY(q, a) + RotateY(d, a) + Combined4(VelocityRow(q, a, 4), d)
  {
  }

  lemma RotateZDifference(q: Quat, d: Quat, r: Quat, a: Vec3)
    requires SumOf(r, q, d)
    ensures RotateZ(r, a) == RotateZ(q, a) + RotateZ(d, a) + Combined4(VelocityRow(q, a, 5), d)
  {
  }

  ghost function Combined7(c: seq<real>, d: Quat, b: Vec3): real
    requires |c| >= 7
  {
    c[0] * d.w + c[1] * d.x + c[2] * d.y + c[3] * d.z + c[4] * b.x + c[5] * b.y + c[6] * b.z
  }

  /** w' is the angular rate w after the bias moved by b. */
  ghost predicate Slower(w': Vec3, w: Vec3, b: Vec3) {
    w'.x == w.x - b.x && w'.y == w.y - b.y && w'.z == w.z - b.z
  }

  lemma TurnDifference(q: Quat, d: Quat, r: Quat, w: Vec3, b: Vec3, w': Vec3)
    requires SumOf(r, q, d) && Slower(w', w, b)
    ensures TurnW(r, w') == TurnW(q, w) + TurnW(d, b.Neg()) + Combined7(QuaternionRow(q, w, 6), d, b)
    ensures TurnX(r, w') == TurnX(q, w) + TurnX(d, b.Neg()) + Combined7(QuaternionRow(q, w, 7), d, b)
    ensures TurnY(r, w') == TurnY(q, w) + TurnY(d, b.Neg()) + Combined7(QuaternionRow(q, w, 8), d, b)
    ensures TurnZ(r, w') == TurnZ(q, w) + TurnZ(d, b.Neg()) + Combined7(QuaternionRow(q, w, 9), d, b)
  {
    TurnWDifference(q, d, r, w, b, w');
    TurnXDifference(q, d, r, w, b, w');
    TurnYDifference(q, d, r, w, b, w');
    TurnZDifference(q, d, r, w, b, w');
  }

  lemma TurnWDifference(q: Quat, d: Quat, r: Quat, w: Vec3, b: Vec3, w': Vec3)
    requires SumOf(r, q, d) && Slower(w', w, b)
    ensures TurnW(r, w') == TurnW(q, w) + TurnW(d, b.Neg()) + Combined7(QuaternionRow(q, w, 6), d, b)
  {
  }

  lemma TurnXDifference(q: Quat, d: Quat, r: Quat, w: Vec3, b: Vec3, w': Vec3)
    requires SumOf(r, q, d) && Slower(w', w, b)
    ensures TurnX(r, w') == TurnX(q, w) + TurnX(d, b.Neg()) + Combined7(QuaternionRow(q, w, 7), d, b)
  {
  }

  lemma TurnYDifference(q: Quat, d: Quat, r: Quat, w: Vec3, b: Vec3, w': Vec3)
    requires SumOf(r, q, d) && Slower(w', w, b)
    ensures TurnY(r, w') == TurnY(q, w) + TurnY(d, b.Neg()) + Combined7(QuaternionRow(q, w, 8), d, b)
  {
  }

  lemma TurnZDifference(q: Quat, d: Quat, r: Quat, w: Vec3, b: Vec3, w': Vec3)
    requires SumOf(r, q, d) && Slower(w', w, b)
    ensures TurnZ(r, w') == TurnZ(q, w) + TurnZ(d, b.Neg()) + Combined7(QuaternionRow(q, w, 9), d, b)
  {
  }

  /** A row of F times a perturbation. */
  lemma RowF(n: nat, x: Vec, u: Vec, d: Vec, i: int)
    requires StateCount(n) && 0 <= i < n
    ensures i < 3 ==> Dot(n, Row(JacobianF(x, u), i), d) == V(d, i + 3)
    ensures 3 <= i < 6 ==>
      Dot(n, Row(JacobianF(x, u), i), d) == Combined4(VelocityRow(Attitude(x), Accel(u), i), Attitude(d))
    ensures 6 <= i < 10 ==>
      Dot(n, Row(JacobianF(x, u), i), d) ==
      Combined7(QuaternionRow(Attitude(x), Gyro(u).Minus(Bias(x)), i), Attitude(d), Bias(d))
    ensures 10 <= i ==> Dot(n, Row(JacobianF(x, u), i), d) == 0.0
  {
    var r, q, a, w := Row(JacobianF(x, u), i), Attitude(x), Accel(u), Gyro(u).Minus(Bias(x));
    forall k | 0 <= k < 13
      ensures V(r, k) == EntryF(q, a, w, i, k)
    {
      assert At(JacobianF(x, u), i, k) == V(r, k);
    }
    if i < 3 {
      SparseUnit(n, i + 3, r, d);
    } else if i < 6 {
      RowFVelocity(n, r, d, q, a, w, i);
    } else if i < 10 {
      RowFTail(n, r, d, QuaternionRow(q, w, i));
    } else {
      SumZero(n, Products(r, d));
    }
  }

  lemma RowFVelocity(n: nat, r: Vec, d: Vec, q: Quat, a: Vec3, w: Vec3, i: int)
    requires StateCount(n) && 3 <= i < 6 && forall k :: 0 <= k < 13 ==> V(r, k) == EntryF(q, a, w, i, k)
    ensures Dot(n, r, d) == Combined4(VelocityRow(q, a, i), Attitude(d))
  {
    RowFTail(n, r, d, VelocityRow(q, a, i) + [0.0, 0.0, 0.0]);
    WithoutBias(VelocityRow(q, a, i), Attitude(d), Bias(d));
  }

  lemma WithoutBias(c: seq<real>, q: Quat, b: Vec3)
    requires |c| == 4
    ensures Combined7(c + [0.0, 0.0, 0.0], q, b) == Combined4(c, q)
  {
  }

  lemma RowFTail(n: nat, r: Vec, d: Vec, c: seq<real>)
    requires StateCount(n) && |c| == 7
    requires forall k :: 0 <= k < 13 ==> V(r, k) == V(c, k - 6)
    ensures Dot(n, r, d) == Combined7(c, Attitude(d), Bias(d))
  {
    DotFromSix(n, r, d);
  }

  /** F is the exact first-order part of the state equations: for every state, input and
      perturbation d, the state rate at x + d is the rate at x plus F d plus a remainder ... */
  lemma RateLinearization(n: nat, x: Vec, u: Vec, d: Vec, i: int)
    requires StateCount(n) && 0 <= i < n
    ensures V(StateRate(Perturbed(x, d), u), i) ==
            V(StateRate(x, u), i) + V(Mul(n, JacobianF(x, u), d), i) + V(RateRemainder(u, d), i)
  {
    if 3 <= i < 6 {
      VelocityLinearization(n, x, u, d, i);
    } else if 6 <= i < 10 {
      AttitudeLinearization(n, x, u, d, i);
    } else {
      RowF(n, x, u, d, i);
      RateEntries(x, u, Attitude(x), Accel(u), Gyro(u).Minus(Bias(x)));
      RateEntries(Perturbed(x, d), u, Attitude(Perturbed(x, d)), Accel(u), Gyro(u).Minus(Bias(Perturbed(x, d))));
      RemainderEntries(u, d, Attitude(d), Accel(u), Bias(d).Neg());
    }
  }

  lemma VelocityLinearization(n: nat, x: Vec, u: Vec, d: Vec, i: int)
    requires StateCount(n) && 3 <= i < 6
    ensures V(StateRate(Perturbed(x, d), u), i) ==
            V(StateRate(x, u), i) + V(Mul(n, JacobianF(x, u), d), i) + V(RateRemainder(u, d), i)
  {
    var y := Perturbed(x, d);
    var q, a, w, r, w' := Attitude(x), Accel(u), Gyro(u).Minus(Bias(x)), Attitude(y), Gyro(u).Minus(Bias(y));
    RowF(n, x, u, d, i);
    RateEntries(x, u, q, a, w);
    RateEntries(y, u, r, a, w');
    RemainderEntries(u, d, Attitude(d), a, Bias(d).Neg());
    RotateDifference(q, Attitude(d), r, a);
  }

  lemma AttitudeLinearization(n: nat, x: Vec, u: Vec, d: Vec, i: int)
    requires StateCount(n) && 6 <= i < 10
    ensures V(StateRate(Perturbed(x, d), u), i) ==
            V(StateRate(x, u), i) + V(Mul(n, JacobianF(x, u), d), i) + V(RateRemainder(u, d), i)
  {
    var y := Perturbed(x, d);
    var q, a, w, r, w' := Attitude(x), Accel(u), Gyro(u).Minus(Bias(x)), Attitude(y), Gyro(u).Minus(Bias(y));
    RowF(n, x, u, d, i);
    RateEntries(x, u, q, a, w);
    RateEntries(y, u, r, a, w');
    RemainderEntries(u, d, Attitude(d), a, Bias(d).Neg());
    TurnDifference(q, Attitude(d), r, w, Bias(d), w');
  }

  ghost function Scaled(n: nat, t: real, d: Vec): (r: Vec)
    ensures |r| == n
    ensures forall i {:trigger V(r, i)} :: 0 <= i < n ==> V(r, i) == Times(t, V(d, i))
  {
    seq(n, i => Times(t, V(d, i)))
  }

  ghost predicate TimesSquare(t: real, v: real, v': real) {
    v' == Times(t * t, v)
  }

  /** ... that is quadratic in d. */
  lemma RateRemainderQuadratic(u: Vec, d: Vec, t: real, i: int)
    requires 0 <= i < 13
    ensures TimesSquare(t, V(RateRemainder(u, d), i), V(RateRemainder(u, Scaled(13, t, d)), i))
  {
    var e := Scaled(13, t, d);
    var q, r, w, v := Attitude(d), Attitude(e), Bias(d).Neg(), Bias(e).Neg();
    ScaledParts(t, d, e, q, r, w, v);
    RemainderEntries(u, d, q, Accel(u), w);
    RemainderEntries(u, e, r, Accel(u), v);
    RatesScaled(RateRemainder(u, d), RateRemainder(u, e), t, q, r, Accel(u), w, v, i);
  }

  lemma ScaledParts(t: real, d: Vec, e: Vec, q: Quat, r: Quat, w: Vec3, v: Vec3)
    requires e == Scaled(13, t, d)
    requires q == Attitude(d) && r == Attitude(e) && w == Bias(d).Neg() && v == Bias(e).Neg()
    ensures ScaledBy(t, q, r) && ScaledVec(t, w, v)
  {
    NegScaled(t, Bias(d), Bias(e));
  }

  lemma RatesScaled(k: Vec, l: Vec, t: real, q: Quat, r: Quat, a: Vec3, w: Vec3, v: Vec3, i: int)
    requires Rates(k, RotateX(q, a), RotateY(q, a), RotateZ(q, a), TurnW(q, w), TurnX(q, w), TurnY(q, w), TurnZ(q, w))
    requires Rates(l, RotateX(r, a), RotateY(r, a), RotateZ(r, a), TurnW(r, v), TurnX(r, v), TurnY(r, v), TurnZ(r, v))
    requires V(k, 0) == 0.0 && V(k, 1) == 0.0 && V(k, 2) == 0.0 && V(l, 0) == 0.0 && V(l, 1) == 0.0 && V(l, 2) == 0.0
    requires ScaledBy(t, q, r) && ScaledVec(t, w, v) && 0 <= i < 13
    ensures TimesSquare(t, V(k, i), V(l, i))
  {
    if i == 3 {
      RotateXScaled(t, q, r, a);
    } else if i == 4 {
      RotateYScaled(t, q, r, a);
    } else if i == 5 {
      RotateZScaled(t, q, r, a);
    } else if i == 6 {
      TurnWScaled(t, q, r, w, v);
    } else if i == 7 {
      TurnXScaled(t, q, r, w, v);
    } else if i == 8 {
      TurnYScaled(t, q, r, w, v);
    } else if i == 9 {
      TurnZScaled(t, q, r, w, v);
    } else {
      assert V(k, i) == 0.0 && V(l, i) == 0.0;
    }
  }

  lemma NegScaled(t: real, b: Vec3, c: Vec3)
    requires ScaledVec(t, b, c)
    ensures ScaledVec(t, b.Neg(), c.Neg())
  {
    NegTimes(t, b.x);
    NegTimes(t, b.y);
    NegTimes(t, b.z);
  }

  lemma NegTimes(t: real, x: real)
    ensures Times(t, -x) == -Times(t, x)
  {
  }

  ghost predicate ScaledVec(t: real, b: Vec3, c: Vec3) {
    c.x == Times(t, b.x) && c.y == Times(t, b.y) && c.z == Times(t, b.z)
  }

  ghost predicate ScaledBy(t: real, q: Quat, r: Quat) {
    r.w == Times(t, q.w) && r.x == Times(t, q.x) && r.y == Times(t, q.y) && r.z == Times(t, q.z)
  }

  lemma RotateXScaled(t: real, q: Quat, r: Quat, a: Vec3)
    requires ScaledBy(t, q, r)
    ensures RotateX(r, a) == Times(t * t, RotateX(q, a))
  {
  }

  lemma RotateYScaled(t: real, q: Quat, r: Quat, a: Vec3)
    requires ScaledBy(t, q, r)
    ensures RotateY(r, a) == Times(t * t, RotateY(q, a))
  {
  }

  lemma RotateZScaled(t: real, q: Quat, r: Quat, a: Vec3)
    requires ScaledBy(t, q, r)
    ensures RotateZ(r, a) == Times(t * t, RotateZ(q, a))
  {
  }

  lemma TurnWScaled(t: real, q: Quat, r: Quat, w: Vec3, v: Vec3)
    requires ScaledBy(t, q, r) && ScaledVec(t, w, v)
    ensures TurnW(r, v) == Times(t * t, TurnW(q, w))
  {
  }

  lemma TurnXScaled(t: real, q: Quat, r: Quat, w: Vec3, v: Vec3)
    requires ScaledBy(t, q, r) && ScaledVec(t, w, v)
    ensures TurnX(r, v) == Times(t * t, TurnX(q, w))
  {
  }

  lemma TurnYScaled(t: real, q: Quat, r: Quat, w: Vec3, v: Vec3)
    requires ScaledBy(t, q, r) && ScaledVec(t, w, v)
    ensures TurnY(r, v) == Times(t * t, TurnY(q, w))
  {
  }

  lemma TurnZScaled(t: real, q: Quat, r: Quat, w: Vec3, v: Vec3)
    requires ScaledBy(t, q, r) && ScaledVec(t, w, v)
    ensures TurnZ(r, v) == Times(t * t, TurnZ(q, w))
  {
  }

  // ------------------------------------------------------------------ G

  /** The state rate when gyro and accelerometer readings carry the noise z[0..6] and the biases
      walk at the rate z[6..9]. */
  ghost function NoisyRate(x: Vec, u: Vec, z: Vec): Vec {
    var k := StateRate(x, Comb(6, 1.0, u, -1.0, z));
    Pack(Vec3(V(k, 0), V(k, 1), V(k, 2)), Velocity(k), Attitude(k), Vec3(V(z, 6), V(z, 7), V(z, 8)))
  }

  ghost function Combined3(c: seq<real>, z: Vec3): real
    requires |c| >= 3
  {
    c[0] * z.x + c[1] * z.y + c[2] * z.z
  }

  /** b is the reading a without the noise z. */
  ghost predicate Without(b: Vec3, a: Vec3, z: Vec3) {
    b.x == a.x - z.x && b.y == a.y - z.y && b.z == a.z - z.z
  }

  lemma RotateNoise(q: Quat, a: Vec3, z: Vec3, b: Vec3)
    requires Without(b, a, z)
    ensures RotateX(q, b) == RotateX(q, a) + Combined3(VelocityNoiseRow(q, 3), z)
    ensures RotateY(q, b) == RotateY(q, a) + Combined3(VelocityNoiseRow(q, 4), z)
    ensures RotateZ(q, b) == RotateZ(q, a) + Combined3(VelocityNoiseRow(q, 5), z)
  {
    RotateXNoise(q, a, z, b);
    RotateYNoise(q, a, z, b);
    RotateZNoise(q, a, z, b);
  }

  lemma RotateXNoise(q: Quat, a: Vec3, z: Vec3, b: Vec3)
    requires Without(b, a, z)
    ensures RotateX(q, b) == RotateX(q, a) + Combined3(VelocityNoiseRow(q, 3), z)
  {
  }

  lemma RotateYNoise(q: Quat, a: Vec3, z: Vec3, b: Vec3)
    requires Without(b, a, z)
    ensures RotateY(q, b) == RotateY(q, a) + Combined3(VelocityNoiseRow(q, 4), z)
  {
  }

  lemma RotateZNoise(q: Quat, a: Vec3, z: Vec3, b: Vec3)
    requires Without(b, a, z)
    ensures RotateZ(q, b) == RotateZ(q, a) + Combined3(VelocityNoiseRow(q, 5), z)
  {
  }

  lemma TurnNoise(q: Quat, a: Vec3, z: Vec3, b: Vec3)
    requires Without(b, a, z)
    ensures TurnW(q, b) == TurnW(q, a) + Combined3(QuaternionNoiseRow(q, 6), z)
    ensures TurnX(q, b) == TurnX(q, a) + Combined3(QuaternionNoiseRow(q, 7), z)
    ensures TurnY(q, b) == TurnY(q, a) + Combined3(QuaternionNoiseRow(q, 8), z)
    ensures TurnZ(q, b) == TurnZ(q, a) + Combined3(QuaternionNoiseRow(q, 9), z)
  {
  }

  lemma RowG(w: nat, x: Vec, z: Vec, i: int)
    requires NoiseCount(w) && 0 <= i < 13
    ensures i < 3 ==> Dot(w, Row(JacobianG(x), i), z) == 0.0
    ensures 3 <= i < 6 ==>
      Dot(w, Row(JacobianG(x), i), z) == Combined3(VelocityNoiseRow(Attitude(x), i), Vec3(V(z, 3), V(z, 4), V(z, 5)))
    ensures 6 <= i < 10 ==>
      Dot(w, Row(JacobianG(x), i), z) == Combined3(QuaternionNoiseRow(Attitude(x), i), Vec3(V(z, 0), V(z, 1), V(z, 2)))
    ensures 10 <= i ==> Dot(w, Row(JacobianG(x), i), z) == V(z, i - 4)
  {
    var r, q := Row(JacobianG(x), i), Attitude(x);
    forall k | 0 <= k < 9
      ensures V(r, k) == EntryG(q, i, k)
    {
      assert At(JacobianG(x), i, k) == V(r, k);
    }
    if i < 3 {
      SumZero(w, Products(r, z));
    } else if i < 6 {
      RowGTail(w, r, z, VelocityNoiseRow(q, i), 3);
    } else if i < 10 {
      RowGTail(w, r, z, QuaternionNoiseRow(q, i), 0);
    } else {
      SumSingle(w, Products(r, z), i - 4);
    }
  }

  lemma RowGTail(w: nat, r: Vec, z: Vec, c: seq<real>, k: int)
    requires NoiseCount(w) && |c| == 3 && (k == 0 || k == 3)
    requires forall j :: 0 <= j < 9 ==> V(r, j) == V(c, j - k)
    ensures Dot(w, r, z) == Combined3(c, Vec3(V(z, k), V(z, k + 1), V(z, k + 2)))
  {
    Sum9(w, Products(r, z));
  }

  /** G is the exact effect of the noise, with no remainder. */
  lemma NoiseLinearization(w: nat, x: Vec, u: Vec, z: Vec, i: int)
    requires NoiseCount(w) && 0 <= i < 13
    ensures V(NoisyRate(x, u, z), i) == V(StateRate(x, u), i) + Dot(w, Row(JacobianG(x), i), z)
  {
    var v := Comb(6, 1.0, u, -1.0, z);
    var q, a, g, b, h := Attitude(x), Accel(u), Gyro(u).Minus(Bias(x)), Accel(v), Gyro(v).Minus(Bias(x));
    RowG(w, x, z, i);
    RateEntries(x, u, q, a, g);
    RateEntries(x, v, q, b, h);
    RotateNoise(q, a, Vec3(V(z, 3), V(z, 4), V(z, 5)), b);
    TurnNoise(q, g, Vec3(V(z, 0), V(z, 1), V(z, 2)), h);
    NoisyEntries(x, u, z, StateRate(x, v));
  }

  lemma NoisyEntries(x: Vec, u: Vec, z: Vec, k: Vec)
    requires k == StateRate(x, Comb(6, 1.0, u, -1.0, z))
    ensures forall i :: 0 <= i < 10 ==> V(NoisyRate(x, u, z), i) == V(k, i)
    ensures forall i :: 10 <= i < 13 ==> V(NoisyRate(x, u, z), i) == V(z, i - 4)
  {
    PackEntries(k, z, NoisyRate(x, u, z));
  }

  lemma PackEntries(k: Vec, z: Vec, r: Vec)
    requires r == Pack(Vec3(V(k, 0), V(k, 1), V(k, 2)), Velocity(k), Attitude(k), Vec3(V(z, 6), V(z, 7), V(z, 8)))
    ensures forall i :: 0 <= i < 10 ==> V(r, i) == V(k, i)
    ensures forall i :: 10 <= i < 13 ==> V(r, i) == V(z, i - 4)
  {
    assert r[0] == V(k, 0) && r[1] == V(k, 1) && r[2] == V(k, 2) && r[3] == V(k, 3) && r[4] == V(k, 4);
    assert r[5] == V(k, 5) && r[6] == V(k, 6) && r[7] == V(k, 7) && r[8] == V(k, 8) && r[9] == V(k, 9);
    assert r[10] == V(z, 6) && r[11] == V(z, 7) && r[12] == V(z, 8);
    forall i | 0 <= i < 10
      ensures V(r, i) == V(k, i)
    {
      assert i == 0 || i == 1 || i == 2 || i == 3 || i == 4 || i == 5 || i == 6 || i == 7 || i == 8 || i == 9;
    }
    forall i | 10 <= i < 13
      ensures V(r, i) == V(z, i - 4)
    {
      assert i == 10 || i == 11 || i == 12;
    }
  }

  // ------------------------------------------------------------------ the measurements and H

  /** Predicted measurements: position, velocity, the earth's field seen from the body, altitude. */
  function Measured(x: Vec, be: Vec3): Vec {
    var m := Attitude(x).Conj().Rotate(be);
    [V(x, 0), V(x, 1), V(x, 2), V(x, 3), V(x, 4), V(x, 5), m.x, m.y, m.z, -V(x, 2)]
  }

  method MeasurementEq(X: array<real>, Be: array<real>, Y: array<real>)
    requires X.Length == 13 && Be.Length == 3 && Y.Length == 10 && Y != X && Y != Be
    modifies Y
    ensures Y[..] == Measured(X[..], Vec3(Be[0], Be[1], Be[2]))
  {
    ghost var x, be := X[..], Be[..];
    Y[0], Y[1], Y[2], Y[3], Y[4], Y[5] := X[0], X[1], X[2], X[3], X[4], X[5];

    Y[6], Y[7], Y[8] := MeasureField(X[6], X[7], X[8], X[9], Be[0], Be[1], Be[2]);

    Y[9] := -X[2];
    assert Attitude(x) == Quat(x[6], x[7], x[8], x[9]);
  }

  method MeasureField(q0: real, q1: real, q2: real, q3: real, b0: real, b1: real, b2: real)
    returns (y6: real, y7: real, y8: real)
    ensures Vec3(y6, y7, y8) == Quat(q0, q1, q2, q3).Conj().Rotate(Vec3(b0, b1, b2))
  {
    y6 := (q0 * q0 + q1 * q1 - q2 * q2 - q3 * q3) * b0 + 2.0 * (q1 * q2 + q0 * q3) * b1
      + 2.0 * (q1 * q3 - q0 * q2) * b2;
    y7 := 2.0 * (q1 * q2 - q0 * q3) * b0 + (q0 * q0 - q1 * q1 + q2 * q2 - q3 * q3) * b1
      + 2.0 * (q2 * q3 + q0 * q1) * b2;
    y8 := 2.0 * (q1 * q3 + q0 * q2) * b0 + 2.0 * (q2 * q3 - q0 * q1) * b1
      + (q0 * q0 - q1 * q1 - q2 * q2 + q3 * q3) * b2;
    FieldEntries(q0, q1, q2, q3, b0, b1, b2);
  }

  /** The three components of the field turned into the body frame. */
  function FieldX(w: real, x: real, y: real, z: real, a: real, b: real, c: real): real {
    (w * w + x * x - y * y - z * z) * a + 2.0 * (x * y + w * z) * b + 2.0 * (x * z - w * y) * c
  }

  function FieldY(w: real, x: real, y: real, z: real, a: real, b: real, c: real): real {
    2.0 * (x * y - w * z) * a + (w * w - x * x + y * y - z * z) * b + 2.0 * (y * z + w * x) * c
  }

  function FieldZ(w: real, x: real, y: real, z: real, a: real, b: real, c: real): real {
    2.0 * (x * z + w * y) * a + 2.0 * (y * z - w * x) * b + (w * w - x * x - y * y + z * z) * c
  }

  lemma FieldEntries(q0: real, q1: real, q2: real, q3: real, b0: real, b1: real, b2: real)
    ensures Quat(q0, q1, q2, q3).Conj().Rotate(Vec3(b0, b1, b2)) ==
            Vec3(FieldX(q0, q1, q2, q3, b0, b1, b2), FieldY(q0, q1, q2, q3, b0, b1, b2),
                 FieldZ(q0, q1, q2, q3, b0, b1, b2))
  {
    var q, b := Quat(q0, q1, q2, q3), Vec3(b0, b1, b2);
    RotateEntries(q.Conj(), b);
    ConjRotateX(q, b);
    ConjRotateY(q, b);
    ConjRotateZ(q, b);
  }

  lemma ConjRotateX(q: Quat, b: Vec3)
    ensures RotateX(q.Conj(), b) == FieldX(q.w, q.x, q.y, q.z, b.x, b.y, b.z)
  {
  }

  lemma ConjRotateY(q: Quat, b: Vec3)
    ensures RotateY(q.Conj(), b) == FieldY(q.w, q.x, q.y, q.z, b.x, b.y, b.z)
  {
  }

  lemma ConjRotateZ(q: Quat, b: Vec3)
    ensures RotateZ(q.Conj(), b) == FieldZ(q.w, q.x, q.y, q.z, b.x, b.y, b.z)
  {
  }

  /** Derivatives of magnetometer output i by the four quaternion entries. */
  function FieldRow(q: Quat, b: Vec3, i: int): seq<real> {
    if i == 6 then
      [2.0 * (q.w * b.x + q.z * b.y - q.y * b.z), 2.0 * (q.x * b.x + q.y * b.y + q.z * b.z),
       2.0 * (-q.y * b.x + q.x * b.y - q.w * b.z), 2.0 * (-q.z * b.x + q.w * b.y + q.x * b.z)]
    else if i == 7 then
      [2.0 * (-q.z * b.x + q.w * b.y + q.x * b.z), 2.0 * (q.y * b.x - q.x * b.y + q.w * b.z),
       2.0 * (q.x * b.x + q.y * b.y + q.z * b.z), 2.0 * (-q.w * b.x - q.z * b.y + q.y * b.z)]
    else if i == 8 then
      [2.0 * (q.y * b.x - q.x * b.y + q.w * b.z), 2.0 * (q.z * b.x - q.w * b.y - q.x * b.z),
       2.0 * (q.w * b.x + q.z * b.y - q.y * b.z), 2.0 * (q.x * b.x + q.y * b.y + q.z * b.z)]
    else []
  }

  function EntryH(q: Quat, b: Vec3, i: int, j: int): real {
    if i < 6 then if j == i then 1.0 else 0.0
    else if i < 9 then V(FieldRow(q, b, i), j - 6)
    else if j == 2 then -1.0 else 0.0
  }

  ghost function JacobianH(x: Vec, be: Vec3): (J: Mat)
    ensures Shape(J, 10, 13)
    ensures forall i, j {:trigger At(J, i, j)} :: 0 <= i < 10 && 0 <= j < 13 ==>
            At(J, i, j) == EntryH(Attitude(x), be, i, j)
  {
    seq(10, i => seq(13, j => EntryH(Attitude(x), be, i, j)))
  }

  /** The entries of H that are never written. */
  predicate ConstantH(i: int, j: int) {
    !(i < 6 && j == i) && !(6 <= i < 9 && 6 <= j < 10) && !(i == 9 && j == 2)
  }

  method LinearizeH(X: array<real>, Be: array<real>, H: array2<real>)
    requires X.Length == 13 && Be.Length == 3 && H.Length0 == 10 && H.Length1 == 13
    modifies H
    ensures forall i, j {:trigger H[i, j]} :: 0 <= i < 10 && 0 <= j < 13 ==>
      H[i, j] == if ConstantH(i, j) then old(H[i, j]) else At(JacobianH(X[..], Vec3(Be[0], Be[1], Be[2])), i, j)
  {
    var q, b := Quat(X[6], X[7], X[8], X[9]), Vec3(Be[0], Be[1], Be[2]);
    ghost var x := X[..];
    assert q == Attitude(x);

    H[0, 0], H[1, 1], H[2, 2] := 1.0, 1.0, 1.0;
    H[3, 3], H[4, 4], H[5, 5] := 1.0, 1.0, 1.0;

    LinearizeField(q, b, H);

    H[9, 2] := -1.0;
  }

  method LinearizeField(q: Quat, b: Vec3, H: array2<real>)
    requires H.Length0 == 10 && H.Length1 == 13
    modifies H
    ensures forall i, j {:trigger H[i, j]} :: 0 <= i < 10 && 0 <= j < 13 ==>
      H[i, j] == if 6 <= i < 9 && 6 <= j < 10 then V(FieldRow(q, b, i), j - 6) else old(H[i, j])
  {
    Assign(H, 6, 6, FieldRow(q, b, 6));
    Assign(H, 7, 6, FieldRow(q, b, 7));
    Assign(H, 8, 6, FieldRow(q, b, 8));
  }

  ghost function MeasurementRemainder(be: Vec3, d: Vec): Vec {
    var m := Attitude(d).Conj().Rotate(be);
    [0.0, 0.0, 0.0, 0.0, 0.0, 0.0, m.x, m.y, m.z, 0.0]
  }

  lemma FieldDifference(q: Quat, d: Quat, r: Quat, b: Vec3)
    requires SumOf(r, q, d)
    ensures r.Conj().Rotate(b).x == q.Conj().Rotate(b).x + d.Conj().Rotate(b).x + Combined4(FieldRow(q, b, 6), d)
    ensures r.Conj().Rotate(b).y == q.Conj().Rotate(b).y + d.Conj().Rotate(b).y + Combined4(FieldRow(q, b, 7), d)
    ensures r.Conj().Rotate(b).z == q.Conj().Rotate(b).z + d.Conj().Rotate(b).z + Combined4(FieldRow(q, b, 8), d)
  {
    var q', d' := q.Conj(), d.Conj();
    RotateEntries(q', b);
    RotateEntries(d', b);
    RotateEntries(r.Conj(), b);
    RotateDifference(q', d', r.Conj(), b);
    FieldRows(q, d, q', d', b);
  }

  lemma FieldRows(q: Quat, d: Quat, q': Quat, d': Quat, b: Vec3)
    requires q' == q.Conj() && d' == d.Conj()
    ensures Combined4(VelocityRow(q', b, 3), d') == Combined4(FieldRow(q, b, 6), d)
    ensures Combined4(VelocityRow(q', b, 4), d') == Combined4(FieldRow(q, b, 7), d)
    ensures Combined4(VelocityRow(q', b, 5), d') == Combined4(FieldRow(q, b, 8), d)
  {
    FieldRowX(q, d, q', d', b);
    FieldRowY(q, d, q', d', b);
    FieldRowZ(q, d, q', d', b);
  }

  lemma FieldRowX(q: Quat, d: Quat, q': Quat, d': Quat, b: Vec3)
    requires q' == q.Conj() && d' == d.Conj()
    ensures Combined4(VelocityRow(q', b, 3), d') == Combined4(FieldRow(q, b, 6), d)
  {
  }

  lemma FieldRowY(q: Quat, d: Quat, q': Quat, d': Quat, b: Vec3)
    requires q' == q.Conj() && d' == d.Conj()
    ensures Combined4(VelocityRow(q', b, 4), d') == Combined4(FieldRow(q, b, 7), d)
  {
  }

  lemma FieldRowZ(q: Quat, d: Quat, q': Quat, d': Quat, b: Vec3)
    requires q' == q.Conj() && d' == d.Conj()
    ensures Combined4(VelocityRow(q', b, 5), d') == Combined4(FieldRow(q, b, 8), d)
  {
  }

  lemma RowH(n: nat, x: Vec, be: Vec3, d: Vec, i: int)
    requires StateCount(n) && 0 <= i < 10
    ensures i < 6 ==> Dot(n, Row(JacobianH(x, be), i), d) == V(d, i)
    ensures 6 <= i < 9 ==> Dot(n, Row(JacobianH(x, be), i), d) == Combined4(FieldRow(Attitude(x), be, i), Attitude(d))
    ensures i == 9 ==> Dot(n, Row(JacobianH(x, be), i), d) == -V(d, 2)
  {
    var r, q := Row(JacobianH(x, be), i), Attitude(x);
    forall k | 0 <= k < 13
      ensures V(r, k) == EntryH(q, be, i, k)
    {
      assert At(JacobianH(x, be), i, k) == V(r, k);
    }
    if i < 6 {
      SparseUnit(n, i, r, d);
    } else if i < 9 {
      RowFTail(n, r, d, FieldRow(q, be, i) + [0.0, 0.0, 0.0]);
    } else {
      SumSingle(n, Products(r, d), 2);
    }
  }

  /** H is the exact first-order part of the measurement equations, with a remainder ... */
  lemma MeasurementLinearization(n: nat, x: Vec, be: Vec3, d: Vec, i: int)
    requires StateCount(n) && 0 <= i < 10
    ensures V(Measured(Perturbed(x, d), be), i) ==
            V(Measured(x, be), i) + Dot(n, Row(JacobianH(x, be), i), d) + V(MeasurementRemainder(be, d), i)
  {
    RowH(n, x, be, d, i);
    FieldDifference(Attitude(x), Attitude(d), Attitude(Perturbed(x, d)), be);
  }

  /** ... that is quadratic in d. */
  lemma MeasurementRemainderQuadratic(be: Vec3, d: Vec, t: real, i: int)
    requires 0 <= i < 10
    ensures TimesSquare(t, V(MeasurementRemainder(be, d), i), V(MeasurementRemainder(be, Scaled(13, t, d)), i))
  {
    var e := Scaled(13, t, d);
    var q, r := Attitude(d).Conj(), Attitude(e).Conj();
    ConjScaled(t, Attitude(d), Attitude(e));
    RotateEntries(q, be);
    RotateEntries(r, be);
    FieldScaled(t, q, r, be, MeasurementRemainder(be, d), MeasurementRemainder(be, e), i);
  }

  lemma ConjScaled(t: real, q: Quat, r: Quat)
    requires ScaledBy(t, q, r)
    ensures ScaledBy(t, q.Conj(), r.Conj())
  {
    NegScaled(t, q.Im(), r.Im());
  }

  lemma FieldScaled(t: real, q: Quat, r: Quat, b: Vec3, k: Vec, l: Vec, i: int)
    requires ScaledBy(t, q, r) && 0 <= i < 10
    requires forall j :: 0 <= j < 10 && !(6 <= j < 9) ==> V(k, j) == 0.0 && V(l, j) == 0.0
    requires V(k, 6) == RotateX(q, b) && V(k, 7) == RotateY(q, b) && V(k, 8) == RotateZ(q, b)
    requires V(l, 6) == RotateX(r, b) && V(l, 7) == RotateY(r, b) && V(l, 8) == RotateZ(r, b)
    ensures TimesSquare(t, V(k, i), V(l, i))
  {
    if i == 6 {
      RotateXScaled(t, q, r, b);
    } else if i == 7 {
      RotateYScaled(t, q, r, b);
    } else if i == 8 {
      RotateZScaled(t, q, r, b);
    } else {
      assert V(k, i) == 0.0 && V(l, i) == 0.0;
    }
  }
}
