/**
  Conversions between a quaternion and the rotation matrix from earth to body
  (ground/gcs/src/libs/utils/coordinateconversions.cpp).
 */
module CoordinateConversions {
  import opened Linear
  import opened Quaternions
  import opened Linearization

  /** Nine entries, row by row. */
  datatype Mat3 = Mat3(r00: real, r01: real, r02: real, r10: real, r11: real, r12: real, r20: real, r21: real,
                       r22: real) {
    function Apply(v: Vec3): Vec3 {
      Vec3(SumOf3(r00, r01, r02, v.x, v.y, v.z), SumOf3(r10, r11, r12, v.x, v.y, v.z),
           SumOf3(r20, r21, r22, v.x, v.y, v.z))
    }

    function Transposed(): Mat3 {
      Mat3(r00, r10, r20, r01, r11, r21, r02, r12, r22)
    }

    function Row(i: int): Vec3 {
      if i == 0 then Vec3(r00, r01, r02) else if i == 1 then Vec3(r10, r11, r12) else Vec3(r20, r21, r22)
    }
  }

  function Dot3(a: Vec3, b: Vec3): real {
    SumOf3(a.x, a.y, a.z, b.x, b.y, b.z)
  }

  function SumOf3(a: real, b: real, c: real, d: real, e: real, f: real): real {
    Times(a, d) + Times(b, e) + Times(c, f)
  }

  function RotationMatrix(q: Quat): Mat3 {
    Rotation(q.w, q.x, q.y, q.z)
  }

  function Rotation(w: real, x: real, y: real, z: real): Mat3 {
    Mat3(OnAxis(w, x, y, z), Above(w, x, y, z), Below(w, z, x, y),
         Below(w, x, y, z), OnAxis(w, y, z, x), Above(w, y, z, x),
         Above(w, z, x, y), Below(w, y, z, x), OnAxis(w, z, x, y))
  }

  /** The entries of the matrix, which is the same for each axis. */
  function OnAxis(w: real, x: real, y: real, z: real): real {
    w * w + x * x - y * y - z * z
  }

  function Above(w: real, x: real, y: real, z: real): real {
    2.0 * (x * y + w * z)
  }

  function Below(w: real, x: real, y: real, z: real): real {
    2.0 * (x * y - w * z)
  }

  function MatrixOf(Rbe: array2<real>): Mat3
    requires Rbe.Length0 == Rbe.Length1 == 3
    reads Rbe
  {
    Mat3(Rbe[0, 0], Rbe[0, 1], Rbe[0, 2], Rbe[1, 0], Rbe[1, 1], Rbe[1, 2], Rbe[2, 0], Rbe[2, 1], Rbe[2, 2])
  }

  method Quaternion2R(q: array<real>, Rbe: array2<real>)
    requires q.Length == 4 && Rbe.Length0 == Rbe.Length1 == 3
    modifies Rbe
    ensures MatrixOf(Rbe) == RotationMatrix(Quat(q[0], q[1], q[2], q[3]))
  {
    var m := Entries(q[0], q[1], q[2], q[3]);
    SetEntries(Rbe, m);
  }

  method Entries(q0: real, q1: real, q2: real, q3: real) returns (m: Mat3)
    ensures m == Rotation(q0, q1, q2, q3)
  {
    var q0s, q1s, q2s, q3s := q0 * q0, q1 * q1, q2 * q2, q3 * q3;
    m := Mat3(q0s + q1s - q2s - q3s, 2.0 * (q1 * q2 + q0 * q3), 2.0 * (q1 * q3 - q0 * q2),
              2.0 * (q1 * q2 - q0 * q3), q0s - q1s + q2s - q3s, 2.0 * (q2 * q3 + q0 * q1),
              2.0 * (q1 * q3 + q0 * q2), 2.0 * (q2 * q3 - q0 * q1), q0s - q1s - q2s + q3s);
  }

  method SetEntries(Rbe: array2<real>, m: Mat3)
    requires Rbe.Length0 == Rbe.Length1 == 3
    modifies Rbe
    ensures MatrixOf(Rbe) == m
  {
    Rbe[0, 0], Rbe[0, 1], Rbe[0, 2] := m.r00, m.r01, m.r02;
    Rbe[1, 0], Rbe[1, 1], Rbe[1, 2] := m.r10, m.r11, m.r12;
    Rbe[2, 0], Rbe[2, 1], Rbe[2, 2] := m.r20, m.r21, m.r22;
  }

  /** std::max(0.0, a) */
  function AtLeastZero(a: real): real {
    if a > 0.0 then a else 0.0
  }

  /** The magnitude of a with the sign of s; a zero s counts as positive. */
  function CopySign(a: real, s: real): real {
    var m := if a >= 0.0 then a else -a;
    if s >= 0.0 then m else -m
  }

  function QuaternionOf(r: Mat3, sqrt: real -> real): Quat {
    Quat(sqrt(AtLeastZero(1.0 + r.r00 + r.r11 + r.r22)) / 2.0,
         CopySign(sqrt(AtLeastZero(1.0 + r.r00 - r.r11 - r.r22)) / 2.0, r.r12 - r.r21),
         CopySign(sqrt(AtLeastZero(1.0 - r.r00 + r.r11 - r.r22)) / 2.0, r.r20 - r.r02),
         CopySign(sqrt(AtLeastZero(1.0 - r.r00 - r.r11 + r.r22)) / 2.0, r.r01 - r.r10))
  }

  method R2Quaternion(Rbe: array2<real>, q: array<real>, sqrt: real -> real)
    requires q.Length == 4 && Rbe.Length0 == Rbe.Length1 == 3
    modifies q
    ensures Quat(q[0], q[1], q[2], q[3]) == QuaternionOf(MatrixOf(Rbe), sqrt)
  {
    var w := sqrt(AtLeastZero(1.0 + Rbe[0, 0] + Rbe[1, 1] + Rbe[2, 2])) / 2.0;
    var x := sqrt(AtLeastZero(1.0 + Rbe[0, 0] - Rbe[1, 1] - Rbe[2, 2])) / 2.0;
    var y := sqrt(AtLeastZero(1.0 - Rbe[0, 0] + Rbe[1, 1] - Rbe[2, 2])) / 2.0;
    var z := sqrt(AtLeastZero(1.0 - Rbe[0, 0] - Rbe[1, 1] + Rbe[2, 2])) / 2.0;

    x := CopySign(x, Rbe[1, 2] - Rbe[2, 1]);
    y := CopySign(y, Rbe[2, 0] - Rbe[0, 2]);
    z := CopySign(z, Rbe[0, 1] - Rbe[1, 0]);

    q[0], q[1], q[2], q[3] := w, x, y, z;
  }

  // ------------------------------------------------------------------ what the matrix does

  /** The matrix turns an earth vector into body coordinates: it is the rotation by the conjugate. */
  lemma MatrixIsRotation(q: Quat, v: Vec3)
    ensures RotationMatrix(q).Apply(v) == q.Conj().Rotate(v)
  {
    RotateEntries(q.Conj(), v);
    ApplyX(q, v);
    ApplyY(q, v);
    ApplyZ(q, v);
  }

  lemma ApplyX(q: Quat, v: Vec3)
    ensures RotationMatrix(q).Apply(v).x == RotateX(q.Conj(), v)
  {
    ConjRotateX(q, v);
    ApplyXOf(q.w, q.x, q.y, q.z, v);
  }

  lemma ApplyXOf(w: real, x: real, y: real, z: real, v: Vec3)
    ensures SumOf3(OnAxis(w, x, y, z), Above(w, x, y, z), Below(w, z, x, y), v.x, v.y, v.z) ==
            FieldX(w, x, y, z, v.x, v.y, v.z)
  {
    SumIs(OnAxis(w, x, y, z), Above(w, x, y, z), Below(w, z, x, y),
          w * w + x * x - y * y - z * z, 2.0 * (x * y + w * z), 2.0 * (x * z - w * y), v);
  }

  lemma ApplyY(q: Quat, v: Vec3)
    ensures RotationMatrix(q).Apply(v).y == RotateY(q.Conj(), v)
  {
    ConjRotateY(q, v);
    ApplyYOf(q.w, q.x, q.y, q.z, v);
  }

  lemma ApplyYOf(w: real, x: real, y: real, z: real, v: Vec3)
    ensures SumOf3(Below(w, x, y, z), OnAxis(w, y, z, x), Above(w, y, z, x), v.x, v.y, v.z) ==
            FieldY(w, x, y, z, v.x, v.y, v.z)
  {
    SumIs(Below(w, x, y, z), OnAxis(w, y, z, x), Above(w, y, z, x),
          2.0 * (x * y - w * z), w * w - x * x + y * y - z * z, 2.0 * (y * z + w * x), v);
  }

  lemma ApplyZ(q: Quat, v: Vec3)
    ensures RotationMatrix(q).Apply(v).z == RotateZ(q.Conj(), v)
  {
    ConjRotateZ(q, v);
    ApplyZOf(q.w, q.x, q.y, q.z, v);
  }

  lemma ApplyZOf(w: real, x: real, y: real, z: real, v: Vec3)
    ensures SumOf3(Above(w, z, x, y), Below(w, y, z, x), OnAxis(w, z, x, y), v.x, v.y, v.z) ==
            FieldZ(w, x, y, z, v.x, v.y, v.z)
  {
    SumIs(Above(w, z, x, y), Below(w, y, z, x), OnAxis(w, z, x, y),
          2.0 * (x * z + w * y), 2.0 * (y * z - w * x), w * w - x * x - y * y + z * z, v);
  }

  lemma SumIs(a: real, b: real, c: real, d: real, e: real, f: real, v: Vec3)
    requires a == d && b == e && c == f
    ensures SumOf3(a, b, c, v.x, v.y, v.z) == d * v.x + e * v.y + f * v.z
  {
  }

  /** Its transpose is the rotation that the state equations of the filter apply to the acceleration. */
  lemma TransposeIsInverseRotation(q: Quat, v: Vec3)
    ensures RotationMatrix(q).Transposed().Apply(v) == q.Rotate(v)
  {
    RotateEntries(q, v);
    TransposedX(q, v);
    TransposedY(q, v);
    TransposedZ(q, v);
  }

  lemma TransposedX(q: Quat, v: Vec3)
    ensures RotationMatrix(q).Transposed().Apply(v).x == RotateX(q, v)
  {
    ColumnX(q.w, q.x, q.y, q.z, v);
  }

  lemma ColumnX(w: real, x: real, y: real, z: real, v: Vec3)
    ensures SumOf3(OnAxis(w, x, y, z), Below(w, x, y, z), Above(w, z, x, y), v.x, v.y, v.z) ==
            RotateX(Quat(w, x, y, z), v)
  {
    SumIs(OnAxis(w, x, y, z), Below(w, x, y, z), Above(w, z, x, y),
          w * w + x * x - y * y - z * z, 2.0 * (x * y - w * z), 2.0 * (x * z + w * y), v);
  }

  lemma TransposedY(q: Quat, v: Vec3)
    ensures RotationMatrix(q).Transposed().Apply(v).y == RotateY(q, v)
  {
    ColumnY(q.w, q.x, q.y, q.z, v);
  }

  lemma ColumnY(w: real, x: real, y: real, z: real, v: Vec3)
    ensures SumOf3(Above(w, x, y, z), OnAxis(w, y, z, x), Below(w, y, z, x), v.x, v.y, v.z) ==
            RotateY(Quat(w, x, y, z), v)
  {
    SumIs(Above(w, x, y, z), OnAxis(w, y, z, x), Below(w, y, z, x),
          2.0 * (x * y + w * z), w * w - x * x + y * y - z * z, 2.0 * (y * z - w * x), v);
  }

  lemma TransposedZ(q: Quat, v: Vec3)
    ensures RotationMatrix(q).Transposed().Apply(v).z == RotateZ(q, v)
  {
    ColumnZ(q.w, q.x, q.y, q.z, v);
  }

  lemma ColumnZ(w: real, x: real, y: real, z: real, v: Vec3)
    ensures SumOf3(Below(w, z, x, y), Above(w, y, z, x), OnAxis(w, z, x, y), v.x, v.y, v.z) ==
            RotateZ(Quat(w, x, y, z), v)
  {
    SumIs(Below(w, z, x, y), Above(w, y, z, x), OnAxis(w, z, x, y),
          2.0 * (x * z - w * y), 2.0 * (y * z + w * x), w * w - x * x - y * y + z * z, v);
  }

  /** The rows are orthogonal and have the squared length |q|^4. */
  lemma RowsOrthogonal(q: Quat, i: int, j: int)
    requires 0 <= i < 3 && 0 <= j < 3
    ensures RowProduct(q, i, j) == if i == j then Squared(Inner(q, q)) else 0.0
  {
    var w, x, y, z := q.w, q.x, q.y, q.z;
    if i == j {
      RowLength(w, x, y, z);
      RowLength(w, y, z, x);
      RowLength(w, z, x, y);
      LengthsAgree(w, x, y, z);
      Reordered(w, x, y, z);
    } else {
      RowsCross(w, x, y, z);
      RowsCross(w, y, z, x);
      RowsCross(w, z, x, y);
      Dot3Sym(RotationMatrix(q).Row(i), RotationMatrix(q).Row(j));
      Reordered(w, x, y, z);
    }
  }

  function RowProduct(q: Quat, i: int, j: int): real {
    Dot3(RotationMatrix(q).Row(i), RotationMatrix(q).Row(j))
  }

  lemma Dot3Sym(a: Vec3, b: Vec3)
    ensures Dot3(a, b) == Dot3(b, a)
  {
  }

  function Squared(s: real): real {
    Times(s, s)
  }

  /** Rows 1 and 2 with their entries in the order of row 0. */
  lemma Reordered(w: real, x: real, y: real, z: real)
    ensures var r := Rotation(w, x, y, z);
            && Dot3(r.Row(1), r.Row(1)) == SumOf3(r.r11, r.r12, r.r10, r.r11, r.r12, r.r10)
            && Dot3(r.Row(2), r.Row(2)) == SumOf3(r.r22, r.r20, r.r21, r.r22, r.r20, r.r21)
            && Dot3(r.Row(1), r.Row(2)) == SumOf3(r.r11, r.r12, r.r10, r.r21, r.r22, r.r20)
            && Dot3(r.Row(2), r.Row(0)) == SumOf3(r.r22, r.r20, r.r21, r.r02, r.r00, r.r01)
  {
    var r := Rotation(w, x, y, z);
    Cycled(r.r10, r.r11, r.r12, r.r10, r.r11, r.r12);
    Cycled(r.r20, r.r21, r.r22, r.r20, r.r21, r.r22);
    Cycled(r.r21, r.r22, r.r20, r.r21, r.r22, r.r20);
    Cycled(r.r10, r.r11, r.r12, r.r20, r.r21, r.r22);
    Cycled(r.r20, r.r21, r.r22, r.r00, r.r01, r.r02);
    Cycled(r.r21, r.r22, r.r20, r.r01, r.r02, r.r00);
  }

  lemma Cycled(a: real, b: real, c: real, d: real, e: real, f: real)
    ensures SumOf3(a, b, c, d, e, f) == SumOf3(b, c, a, e, f, d)
  {
  }

  lemma LengthsAgree(w: real, x: real, y: real, z: real)
    ensures Dot4(w, y, z, x, w, y, z, x) == Dot4(w, x, y, z, w, x, y, z)
    ensures Dot4(w, z, x, y, w, z, x, y) == Dot4(w, x, y, z, w, x, y, z)
  {
  }

  /** The three rows are alike up to the order of the entries. */
  lemma RowLength(w: real, x: real, y: real, z: real)
    ensures var a, b, c := OnAxis(w, x, y, z), Above(w, x, y, z), Below(w, z, x, y);
            SumOf3(a, b, c, a, b, c) == Squared(Dot4(w, x, y, z, w, x, y, z))
  {
    var a, b, c, n := OnAxis(w, x, y, z), Above(w, x, y, z), Below(w, z, x, y), Dot4(w, x, y, z, w, x, y, z);
    SameProduct(a, w * w + x * x - y * y - z * z, a, w * w + x * x - y * y - z * z);
    SameProduct(b, 2.0 * (x * y + w * z), b, 2.0 * (x * y + w * z));
    SameProduct(c, 2.0 * (z * x - w * y), c, 2.0 * (z * x - w * y));
    SameProduct(n, w * w + x * x + y * y + z * z, n, w * w + x * x + y * y + z * z);
    LengthIdentity(w, x, y, z);
  }

  lemma SameProduct(a: real, c: real, b: real, d: real)
    requires a == c && b == d
    ensures Times(a, b) == Times(c, d)
  {
  }

  lemma LengthIdentity(w: real, x: real, y: real, z: real)
    ensures Times(w * w + x * x - y * y - z * z, w * w + x * x - y * y - z * z)
            + Times(2.0 * (x * y + w * z), 2.0 * (x * y + w * z))
            + Times(2.0 * (z * x - w * y), 2.0 * (z * x - w * y)) ==
            Times(w * w + x * x + y * y + z * z, w * w + x * x + y * y + z * z)
  {
  }

  lemma RowsCross(w: real, x: real, y: real, z: real)
    ensures SumOf3(OnAxis(w, x, y, z), Above(w, x, y, z), Below(w, z, x, y),
                   Below(w, x, y, z), OnAxis(w, y, z, x), Above(w, y, z, x)) == 0.0
  {
    SameProduct(OnAxis(w, x, y, z), w * w + x * x - y * y - z * z, Below(w, x, y, z), 2.0 * (x * y - w * z));
    SameProduct(Above(w, x, y, z), 2.0 * (x * y + w * z), OnAxis(w, y, z, x), w * w + y * y - z * z - x * x);
    SameProduct(Below(w, z, x, y), 2.0 * (z * x - w * y), Above(w, y, z, x), 2.0 * (y * z + w * x));
    CrossIdentity(w, x, y, z);
  }

  lemma CrossIdentity(w: real, x: real, y: real, z: real)
    ensures Times(w * w + x * x - y * y - z * z, 2.0 * (x * y - w * z))
            + Times(2.0 * (x * y + w * z), w * w + y * y - z * z - x * x)
            + Times(2.0 * (z * x - w * y), 2.0 * (y * z + w * x)) == 0.0
  {
  }

  /** x a + y b + z c */
  function Combined(x: real, a: Vec3, y: real, b: Vec3, z: real, c: Vec3): Vec3 {
    Vec3(SumOf3(x, y, z, a.x, b.x, c.x), SumOf3(x, y, z, a.y, b.y, c.y), SumOf3(x, y, z, a.z, b.z, c.z))
  }

  lemma DotCombined(t: Vec3, x: real, a: Vec3, y: real, b: Vec3, z: real, c: Vec3)
    ensures Dot3(t, Combined(x, a, y, b, z, c)) == SumOf3(x, y, z, Dot3(t, a), Dot3(t, b), Dot3(t, c))
  {
    Spread3(x, t, a);
    Spread3(y, t, b);
    Spread3(z, t, c);
    Regroup(t.x, x, y, z, a.x, b.x, c.x);
    Regroup(t.y, x, y, z, a.y, b.y, c.y);
    Regroup(t.z, x, y, z, a.z, b.z, c.z);
  }

  lemma Spread3(x: real, t: Vec3, a: Vec3)
    ensures Times(x, Dot3(t, a)) == x * (t.x * a.x) + x * (t.y * a.y) + x * (t.z * a.z)
  {
  }

  lemma Regroup(t: real, x: real, y: real, z: real, a: real, b: real, c: real)
    ensures Times(t, SumOf3(x, y, z, a, b, c)) == x * (t * a) + y * (t * b) + z * (t * c)
  {
  }

  lemma ConjIsTransposed(q: Quat)
    ensures RotationMatrix(q.Conj()) == RotationMatrix(q).Transposed()
  {
    Mirrored(q.w, q.x, q.y, q.z);
    Mirrored(q.w, q.y, q.z, q.x);
    Mirrored(q.w, q.z, q.x, q.y);
  }

  lemma Mirrored(w: real, x: real, y: real, z: real)
    ensures OnAxis(w, -x, -y, -z) == OnAxis(w, x, y, z)
    ensures Above(w, -x, -y, -z) == Below(w, x, y, z) && Below(w, -x, -y, -z) == Above(w, x, y, z)
  {
  }

  /** The matrix applied to a vector combines the rows of its transpose. */
  lemma ApplyCombines(m: Mat3, v: Vec3)
    ensures var t := m.Transposed();
            m.Apply(v) == Combined(v.x, t.Row(0), v.y, t.Row(1), v.z, t.Row(2))
            && m.Apply(v) == Vec3(Dot3(m.Row(0), v), Dot3(m.Row(1), v), Dot3(m.Row(2), v))
  {
  }

  /** Turning a vector by the conjugate and back multiplies it by |q|^4; a unit quaternion gives it back. */
  lemma TurnedBack(q: Quat, v: Vec3)
    ensures var n := Squared(Inner(q, q));
            q.Rotate(q.Conj().Rotate(v)) == Vec3(Times(v.x, n), Times(v.y, n), Times(v.z, n))
  {
    var r, n := RotationMatrix(q), Squared(Inner(q, q));
    var t, w := r.Transposed(), r.Apply(v);
    MatrixIsRotation(q, v);
    TransposeIsInverseRotation(q, w);
    ApplyCombines(r, v);
    ApplyCombines(t, w);
    TransposedRows(q, t);
    DotCombined(t.Row(0), v.x, t.Row(0), v.y, t.Row(1), v.z, t.Row(2));
    DotCombined(t.Row(1), v.x, t.Row(0), v.y, t.Row(1), v.z, t.Row(2));
    DotCombined(t.Row(2), v.x, t.Row(0), v.y, t.Row(1), v.z, t.Row(2));
  }

  lemma TransposedRows(q: Quat, t: Mat3)
    requires t == RotationMatrix(q).Transposed()
    ensures forall i, j :: 0 <= i < 3 && 0 <= j < 3 ==>
            Dot3(t.Row(i), t.Row(j)) == if i == j then Squared(Inner(q, q)) else 0.0
  {
    ConjIsTransposed(q);
    assert Inner(q.Conj(), q.Conj()) == Inner(q, q);
    forall i, j | 0 <= i < 3 && 0 <= j < 3
      ensures Dot3(t.Row(i), t.Row(j)) == if i == j then Squared(Inner(q, q)) else 0.0
    {
      RowsOrthogonal(q.Conj(), i, j);
      assert RowProduct(q.Conj(), i, j) == Dot3(t.Row(i), t.Row(j));
    }
  }

  /** ... and a unit quaternion keeps the length of a vector. */
  lemma TurnedLength(q: Quat, v: Vec3)
    ensures q.Conj().Rotate(v).Norm2() == Times(Squared(Inner(q, q)), v.Norm2())
  {
    var r, n := RotationMatrix(q), Squared(Inner(q, q));
    var t, w := r.Transposed(), r.Apply(v);
    MatrixIsRotation(q, v);
    ApplyCombines(r, v);
    TransposedRows(q, t);
    DotCombined(t.Row(0), v.x, t.Row(0), v.y, t.Row(1), v.z, t.Row(2));
    DotCombined(t.Row(1), v.x, t.Row(0), v.y, t.Row(1), v.z, t.Row(2));
    DotCombined(t.Row(2), v.x, t.Row(0), v.y, t.Row(1), v.z, t.Row(2));
    DotCombined(w, v.x, t.Row(0), v.y, t.Row(1), v.z, t.Row(2));
    Dot3Sym(w, t.Row(0));
    Dot3Sym(w, t.Row(1));
    Dot3Sym(w, t.Row(2));
    LengthOf(v.x, v.y, v.z, n);
  }

  lemma LengthOf(x: real, y: real, z: real, n: real)
    ensures SumOf3(x, y, z, Times(x, n), Times(y, n), Times(z, n)) == Times(n, Square3(x, y, z))
  {
  }

  // ------------------------------------------------------------------ the round trip

  function Abs(a: real): real {
    if a >= 0.0 then a else -a
  }

  lemma HalfRoot(sqrt: real -> real, a: real, s: real)
    requires IsSqrt(sqrt) && s == 4.0 * (a * a)
    ensures sqrt(AtLeastZero(s)) / 2.0 == Abs(a)
  {
    assert Abs(a) * Abs(a) == a * a;
    assert a * a >= 0.0;
    var r := sqrt(s) / 2.0;
    assert sqrt(s) * sqrt(s) == s;
    assert r * r == s / 4.0;
    RootIs(r, Abs(a));
  }

  /** What the round trip yields for a unit quaternion. */
  lemma RoundTripValue(q: Quat, sqrt: real -> real)
    requires IsSqrt(sqrt) && Inner(q, q) == 1.0
    ensures QuaternionOf(RotationMatrix(q), sqrt) ==
            Quat(Abs(q.w), CopySign(q.x, q.w * q.x), CopySign(q.y, q.w * q.y), CopySign(q.z, q.w * q.z))
  {
    var r := RotationMatrix(q);
    Roots(q, sqrt, r);
    Differences(q);
    Signs(q.x, q.w * q.x, r.r12 - r.r21);
    Signs(q.y, q.w * q.y, r.r20 - r.r02);
    Signs(q.z, q.w * q.z, r.r01 - r.r10);
  }

  lemma Signs(x: real, p: real, d: real)
    requires d == 4.0 * p
    ensures CopySign(Abs(x), d) == CopySign(x, p)
  {
  }

  lemma Roots(q: Quat, sqrt: real -> real, r: Mat3)
    requires IsSqrt(sqrt) && Inner(q, q) == 1.0 && r == RotationMatrix(q)
    ensures sqrt(AtLeastZero(1.0 + r.r00 + r.r11 + r.r22)) / 2.0 == Abs(q.w)
    ensures sqrt(AtLeastZero(1.0 + r.r00 - r.r11 - r.r22)) / 2.0 == Abs(q.x)
    ensures sqrt(AtLeastZero(1.0 - r.r00 + r.r11 - r.r22)) / 2.0 == Abs(q.y)
    ensures sqrt(AtLeastZero(1.0 - r.r00 - r.r11 + r.r22)) / 2.0 == Abs(q.z)
  {
    RootsOf(q.w, q.x, q.y, q.z, sqrt, r);
  }

  lemma RootsOf(w: real, x: real, y: real, z: real, sqrt: real -> real, r: Mat3)
    requires IsSqrt(sqrt) && w * w + x * x + y * y + z * z == 1.0 && r == Rotation(w, x, y, z)
    ensures sqrt(AtLeastZero(1.0 + r.r00 + r.r11 + r.r22)) / 2.0 == Abs(w)
    ensures sqrt(AtLeastZero(1.0 + r.r00 - r.r11 - r.r22)) / 2.0 == Abs(x)
    ensures sqrt(AtLeastZero(1.0 - r.r00 + r.r11 - r.r22)) / 2.0 == Abs(y)
    ensures sqrt(AtLeastZero(1.0 - r.r00 - r.r11 + r.r22)) / 2.0 == Abs(z)
  {
    RootsReal(w, x, y, z, sqrt, r.r00, r.r11, r.r22);
  }

  lemma RootsReal(w: real, x: real, y: real, z: real, sqrt: real -> real, a: real, b: real, c: real)
    requires IsSqrt(sqrt) && w * w + x * x + y * y + z * z == 1.0 && a == w * w + x * x - y * y - z * z
    requires b == w * w - x * x + y * y - z * z && c == w * w - x * x - y * y + z * z
    ensures sqrt(AtLeastZero(1.0 + a + b + c)) / 2.0 == Abs(w)
    ensures sqrt(AtLeastZero(1.0 + a - b - c)) / 2.0 == Abs(x)
    ensures sqrt(AtLeastZero(1.0 - a + b - c)) / 2.0 == Abs(y)
    ensures sqrt(AtLeastZero(1.0 - a - b + c)) / 2.0 == Abs(z)
  {
    Traces(w * w, x * x, y * y, z * z, a, b, c);
    HalfRoot(sqrt, w, 1.0 + a + b + c);
    HalfRoot(sqrt, x, 1.0 + a - b - c);
    HalfRoot(sqrt, y, 1.0 - a + b - c);
    HalfRoot(sqrt, z, 1.0 - a - b + c);
  }

  lemma Differences(q: Quat)
    ensures var r := RotationMatrix(q);
            r.r12 - r.r21 == 4.0 * (q.w * q.x) && r.r20 - r.r02 == 4.0 * (q.w * q.y)
              && r.r01 - r.r10 == 4.0 * (q.w * q.z)
  {
  }

  lemma Traces(w: real, x: real, y: real, z: real, a: real, b: real, c: real)
    requires w + x + y + z == 1.0 && a == w + x - y - z && b == w - x + y - z && c == w - x - y + z
    ensures 1.0 + a + b + c == 4.0 * w && 1.0 + a - b - c == 4.0 * x
    ensures 1.0 - a + b - c == 4.0 * y && 1.0 - a - b + c == 4.0 * z
  {
  }

  function Negated(q: Quat): Quat {
    Quat(-q.w, -q.x, -q.y, -q.z)
  }

  /** With a scalar part that is not zero, the round trip gives the one of q and -q whose scalar part is positive. */
  lemma RoundTrip(q: Quat, sqrt: real -> real)
    requires IsSqrt(sqrt) && Inner(q, q) == 1.0
    ensures q.w > 0.0 ==> QuaternionOf(RotationMatrix(q), sqrt) == q
    ensures q.w < 0.0 ==> QuaternionOf(RotationMatrix(q), sqrt) == Negated(q)
  {
    RoundTripValue(q, sqrt);
    SignOfProduct(q.w, q.x);
    SignOfProduct(q.w, q.y);
    SignOfProduct(q.w, q.z);
  }

  lemma SignOfProduct(w: real, x: real)
    ensures w > 0.0 ==> (w * x >= 0.0 <==> x >= 0.0)
    ensures w < 0.0 ==> (w * x >= 0.0 <==> x <= 0.0)
    ensures w == 0.0 ==> w * x == 0.0
  {
  }

  /** A half turn has no scalar part to carry the signs: the round trip then loses the rotation unless
      the entries of the axis share one sign. */
  lemma RoundTripIff(q: Quat, sqrt: real -> real)
    requires IsSqrt(sqrt) && Inner(q, q) == 1.0
    ensures var r := QuaternionOf(RotationMatrix(q), sqrt);
            (r == q || r == Negated(q)) <==>
            (q.w != 0.0 || (q.x >= 0.0 && q.y >= 0.0 && q.z >= 0.0) || (q.x <= 0.0 && q.y <= 0.0 && q.z <= 0.0))
  {
    RoundTrip(q, sqrt);
    if q.w == 0.0 {
      RoundTripValue(q, sqrt);
      SignOfProduct(q.w, q.x);
      SignOfProduct(q.w, q.y);
      SignOfProduct(q.w, q.z);
    }
  }
}
