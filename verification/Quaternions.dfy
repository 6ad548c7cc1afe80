/**
  Quaternion algebra over the reals: the reference against which the attitude formulas are proved.
 */
module Quaternions {
  import opened Linear

  function Dot4(a0: real, a1: real, a2: real, a3: real, b0: real, b1: real, b2: real, b3: real): real {
    a0 * b0 + a1 * b1 + a2 * b2 + a3 * b3
  }

  function Square3(a: real, b: real, c: real): real {
    a * a + b * b + c * c
  }

  datatype Vec3 = Vec3(x: real, y: real, z: real) {
    function Plus(b: Vec3): Vec3 {
      Vec3(x + b.x, y + b.y, z + b.z)
    }

    function Minus(b: Vec3): Vec3 {
      Vec3(x - b.x, y - b.y, z - b.z)
    }

    function Neg(): Vec3 {
      Vec3(-x, -y, -z)
    }

    function Norm2(): real {
      Square3(x, y, z)
    }
  }

  datatype Quat = Quat(w: real, x: real, y: real, z: real) {
    function Plus(b: Quat): Quat {
      Quat(w + b.w, x + b.x, y + b.y, z + b.z)
    }

    function Scale(c: real): Quat {
      Quat(Linear.Times(c, w), Linear.Times(c, x), Linear.Times(c, y), Linear.Times(c, z))
    }

    function Conj(): Quat {
      Quat(w, -x, -y, -z)
    }

    function Im(): Vec3 {
      Vec3(x, y, z)
    }

    /** Hamilton's product. */
    function Times(b: Quat): Quat {
      Quat(Dot4(w, x, y, z, b.w, -b.x, -b.y, -b.z),
           Dot4(w, x, y, z, b.x, b.w, b.z, -b.y),
           Dot4(w, x, y, z, b.y, -b.z, b.w, b.x),
           Dot4(w, x, y, z, b.z, b.y, -b.x, b.w))
    }

    /** The vector part of q v q*, which rotates v when q is a unit quaternion. */
    function Rotate(v: Vec3): Vec3 {
      Times(Pure(v)).Times(Conj()).Im()
    }
  }

  function Pure(v: Vec3): Quat {
    Quat(0.0, v.x, v.y, v.z)
  }

  /** The rotation of a vector as nine coefficients. */
  lemma RotateFormula(q0: real, q1: real, q2: real, q3: real, ax: real, ay: real, az: real)
    ensures Quat(q0, q1, q2, q3).Rotate(Vec3(ax, ay, az)) ==
            Vec3((q0 * q0 + q1 * q1 - q2 * q2 - q3 * q3) * ax + 2.0 * (q1 * q2 - q0 * q3) * ay
                 + 2.0 * (q1 * q3 + q0 * q2) * az,
                 2.0 * (q1 * q2 + q0 * q3) * ax + (q0 * q0 - q1 * q1 + q2 * q2 - q3 * q3) * ay
                 + 2.0 * (q2 * q3 - q0 * q1) * az,
                 2.0 * (q1 * q3 - q0 * q2) * ax + 2.0 * (q2 * q3 + q0 * q1) * ay
                 + (q0 * q0 - q1 * q1 - q2 * q2 + q3 * q3) * az)
  {
    var p := Quat(q0, q1, q2, q3).Times(Pure(Vec3(ax, ay, az)));
    RotateReal(q0, q1, q2, q3, ax, ay, az, p.w, p.x, p.y, p.z);
  }

  lemma RotateReal(q0: real, q1: real, q2: real, q3: real, ax: real, ay: real, az: real,
                   w: real, x: real, y: real, z: real)
    requires w == q0 * 0.0 - q1 * ax - q2 * ay - q3 * az && x == q0 * ax + q1 * 0.0 + q2 * az - q3 * ay
    requires y == q0 * ay - q1 * az + q2 * 0.0 + q3 * ax && z == q0 * az + q1 * ay - q2 * ax + q3 * 0.0
    ensures Dot4(w, x, y, z, -q1, q0, -q3, q2) ==
            (q0 * q0 + q1 * q1 - q2 * q2 - q3 * q3) * ax + 2.0 * (q1 * q2 - q0 * q3) * ay
            + 2.0 * (q1 * q3 + q0 * q2) * az
    ensures Dot4(w, x, y, z, -q2, q3, q0, -q1) ==
            2.0 * (q1 * q2 + q0 * q3) * ax + (q0 * q0 - q1 * q1 + q2 * q2 - q3 * q3) * ay
            + 2.0 * (q2 * q3 - q0 * q1) * az
    ensures Dot4(w, x, y, z, -q3, -q2, q1, q0) ==
            2.0 * (q1 * q3 - q0 * q2) * ax + 2.0 * (q2 * q3 + q0 * q1) * ay
            + (q0 * q0 - q1 * q1 - q2 * q2 + q3 * q3) * az
  {
  }

  /** The entries of the product q (0, a, b, c). */
  function PureW(x: real, y: real, z: real, a: real, b: real, c: real): real {
    -x * a - y * b - z * c
  }

  function PureX(w: real, y: real, z: real, a: real, b: real, c: real): real {
    w * a + y * c - z * b
  }

  function TimesPure(q: Quat, v: Vec3): Quat {
    Quat(PureW(q.x, q.y, q.z, v.x, v.y, v.z), PureX(q.w, q.y, q.z, v.x, v.y, v.z),
         PureX(q.w, q.z, q.x, v.y, v.z, v.x), PureX(q.w, q.x, q.y, v.z, v.x, v.y))
  }

  lemma TimesPureIs(q: Quat, v: Vec3)
    ensures q.Times(Pure(v)) == TimesPure(q, v)
  {
  }

  lemma PureTwice(q: Quat, v: Vec3, n: real)
    requires n == -v.Norm2()
    ensures q.Times(Pure(v)).Times(Pure(v)) == q.Scale(n)
  {
    TimesPureIs(q, v);
    TimesPureIs(TimesPure(q, v), v);
    TimesPureTwice(q, v, n);
  }

  lemma TimesPureTwice(q: Quat, v: Vec3, n: real)
    requires n == -v.Norm2()
    ensures TimesPure(TimesPure(q, v), v) == q.Scale(n)
  {
    PureTwiceW(q.w, q.x, q.y, q.z, v.x, v.y, v.z, n);
    PureTwiceX(q.w, q.x, q.y, q.z, v.x, v.y, v.z, n);
    PureTwiceX(q.w, q.y, q.z, q.x, v.y, v.z, v.x, n);
    PureTwiceX(q.w, q.z, q.x, q.y, v.z, v.x, v.y, n);
  }

  lemma PureTwiceW(w: real, x: real, y: real, z: real, a: real, b: real, c: real, n: real)
    requires n == -Square3(a, b, c)
    ensures PureW(PureX(w, y, z, a, b, c), PureX(w, z, x, b, c, a), PureX(w, x, y, c, a, b), a, b, c) == Times(n, w)
  {
    Expand(w, y, z, a, b, c, a);
    Expand(w, z, x, b, c, a, b);
    Expand(w, x, y, c, a, b, c);
  }

  lemma PureTwiceX(w: real, x: real, y: real, z: real, a: real, b: real, c: real, n: real)
    requires n == -Square3(a, b, c)
    ensures PureX(PureW(x, y, z, a, b, c), PureX(w, z, x, b, c, a), PureX(w, x, y, c, a, b), a, b, c) == Times(n, x)
  {
    assert PureW(x, y, z, a, b, c) * a == -x * a * a - y * b * a - z * c * a;
    Expand(w, z, x, b, c, a, c);
    Expand(w, x, y, c, a, b, b);
  }

  lemma Expand(w: real, y: real, z: real, a: real, b: real, c: real, e: real)
    ensures PureX(w, y, z, a, b, c) * e == w * a * e + y * c * e - z * b * e
  {
  }

  function Inner(a: Quat, b: Quat): real {
    Dot4(a.w, a.x, a.y, a.z, b.w, b.x, b.y, b.z)
  }

  /** q v is orthogonal to q ... */
  lemma PureOrthogonal(q: Quat, v: Vec3)
    ensures Inner(q, q.Times(Pure(v))) == 0.0
  {
    var p := q.Times(Pure(v));
    PureOrthogonalReal(q.w, q.x, q.y, q.z, v.x, v.y, v.z, p.w, p.x, p.y, p.z);
  }

  lemma PureOrthogonalReal(w: real, x: real, y: real, z: real, a: real, b: real, c: real,
                           w': real, x': real, y': real, z': real)
    requires w' == Dot4(w, x, y, z, 0.0, -a, -b, -c) && x' == Dot4(w, x, y, z, a, 0.0, c, -b)
    requires y' == Dot4(w, x, y, z, b, -c, 0.0, a) && z' == Dot4(w, x, y, z, c, b, -a, 0.0)
    ensures Dot4(w, x, y, z, w', x', y', z') == 0.0
  {
  }

  /** ... and has the product of the squared norms. */
  lemma PureNorm(q: Quat, v: Vec3)
    ensures Inner(q.Times(Pure(v)), q.Times(Pure(v))) == Times(Inner(q, q), v.Norm2())
  {
    var p := q.Times(Pure(v));
    PureNormReal(q.w, q.x, q.y, q.z, v.x, v.y, v.z, p.w, p.x, p.y, p.z);
  }

  lemma PureNormReal(w: real, x: real, y: real, z: real, a: real, b: real, c: real,
                     w': real, x': real, y': real, z': real)
    requires w' == Dot4(w, x, y, z, 0.0, -a, -b, -c) && x' == Dot4(w, x, y, z, a, 0.0, c, -b)
    requires y' == Dot4(w, x, y, z, b, -c, 0.0, a) && z' == Dot4(w, x, y, z, c, b, -a, 0.0)
    ensures Dot4(w', x', y', z', w', x', y', z') == Times(Dot4(w, x, y, z, w, x, y, z), Square3(a, b, c))
  {
    assert w' * w' + x' * x' + y' * y' + z' * z' == (w * w + x * x + y * y + z * z) * (a * a + b * b + c * c);
  }

  /** a q + b p */
  function Blend(a: real, q: Quat, b: real, p: Quat): Quat {
    Quat(Mix(a, q.w, b, p.w), Mix(a, q.x, b, p.x), Mix(a, q.y, b, p.y), Mix(a, q.z, b, p.z))
  }

  /** Multiplying a q + b (q v) by v once more. */
  lemma BlendTimes(a: real, q: Quat, b: real, v: Vec3, n: real)
    requires n == -v.Norm2()
    ensures Blend(a, q, b, q.Times(Pure(v))).Times(Pure(v)) == Blend(n * b, q, a, q.Times(Pure(v)))
  {
    var p := q.Times(Pure(v));
    BlendDistributes(a, q, b, p, Pure(v));
    PureTwice(q, v, n);
    BlendScaled(b, n, q, a, p, p.Times(Pure(v)));
  }

  lemma BlendDistributes(a: real, q: Quat, b: real, p: Quat, v: Quat)
    ensures Blend(a, q, b, p).Times(v) == Blend(a, q.Times(v), b, p.Times(v))
  {
    BlendDot(a, q, b, p, v.w, -v.x, -v.y, -v.z);
    BlendDot(a, q, b, p, v.x, v.w, v.z, -v.y);
    BlendDot(a, q, b, p, v.y, -v.z, v.w, v.x);
    BlendDot(a, q, b, p, v.z, v.y, -v.x, v.w);
  }

  lemma BlendDot(a: real, q: Quat, b: real, p: Quat, e: real, f: real, g: real, h: real)
    ensures Dot4(Mix(a, q.w, b, p.w), Mix(a, q.x, b, p.x), Mix(a, q.y, b, p.y), Mix(a, q.z, b, p.z), e, f, g, h) ==
            Mix(a, Dot4(q.w, q.x, q.y, q.z, e, f, g, h), b, Dot4(p.w, p.x, p.y, p.z, e, f, g, h))
  {
    MixTimes(a, q.w, b, p.w, e);
    MixTimes(a, q.x, b, p.x, f);
    MixTimes(a, q.y, b, p.y, g);
    MixTimes(a, q.z, b, p.z, h);
    MixSum(a, q.w * e, q.x * f, q.y * g, q.z * h, b, p.w * e, p.x * f, p.y * g, p.z * h);
  }

  lemma MixTimes(a: real, q: real, b: real, p: real, e: real)
    ensures Mix(a, q, b, p) * e == Mix(a, q * e, b, p * e)
  {
  }

  lemma MixSum(a: real, x0: real, x1: real, x2: real, x3: real, b: real, y0: real, y1: real, y2: real, y3: real)
    ensures Mix(a, x0, b, y0) + Mix(a, x1, b, y1) + Mix(a, x2, b, y2) + Mix(a, x3, b, y3) ==
            Mix(a, x0 + x1 + x2 + x3, b, y0 + y1 + y2 + y3)
  {
  }

  lemma Spread4(a: real, x: real, y: real, z: real, w: real)
    ensures a * (x + y + z + w) == a * x + a * y + a * z + a * w
  {
  }

  lemma BlendScaled(b: real, c: real, q: Quat, a: real, p: Quat, r: Quat)
    requires r == q.Scale(c)
    ensures Blend(a, p, b, r) == Blend(c * b, q, a, p)
  {
    MixScaled(a, p.w, b, c, q.w, r.w);
    MixScaled(a, p.x, b, c, q.x, r.x);
    MixScaled(a, p.y, b, c, q.y, r.y);
    MixScaled(a, p.z, b, c, q.z, r.z);
  }

  lemma MixScaled(a: real, p: real, b: real, c: real, q: real, r: real)
    requires r == c * q
    ensures Mix(a, p, b, r) == Mix(c * b, q, a, p)
  {
  }

  function NormWeight(a: real, b: real, n: real): real {
    a * a + b * b * n
  }

  /** The squared norm of a q + b (q v). */
  lemma BlendNorm(a: real, q: Quat, b: real, v: Vec3)
    ensures var r := Blend(a, q, b, q.Times(Pure(v)));
            Inner(r, r) == Times(NormWeight(a, b, v.Norm2()), Inner(q, q))
  {
    var p := q.Times(Pure(v));
    PureOrthogonal(q, v);
    PureNorm(q, v);
    BlendInner(a, q, b, p);
    Collect(a, b, Inner(q, q), Inner(q, p), Inner(p, p), v.Norm2());
  }

  lemma Collect(a: real, b: real, qq: real, qp: real, pp: real, n: real)
    requires qp == 0.0 && pp == Times(qq, n)
    ensures SquareOf(a, b, qq, qp, pp) == Times(NormWeight(a, b, n), qq)
  {
  }

  /** The square of a q + b p, from the inner products of q and p. */
  function SquareOf(a: real, b: real, qq: real, qp: real, pp: real): real {
    a * a * qq + 2.0 * a * b * qp + b * b * pp
  }

  lemma BlendInner(a: real, q: Quat, b: real, p: Quat)
    ensures var r := Blend(a, q, b, p); Inner(r, r) == SquareOf(a, b, Inner(q, q), Inner(q, p), Inner(p, p))
  {
    BlendInnerReal(a, b, q.w, q.x, q.y, q.z, p.w, p.x, p.y, p.z);
  }

  lemma BlendInnerReal(a: real, b: real, q0: real, q1: real, q2: real, q3: real, p0: real, p1: real, p2: real, p3: real)
    ensures var r0, r1, r2, r3 := Mix(a, q0, b, p0), Mix(a, q1, b, p1), Mix(a, q2, b, p2), Mix(a, q3, b, p3);
            Dot4(r0, r1, r2, r3, r0, r1, r2, r3) ==
            SquareOf(a, b, Dot4(q0, q1, q2, q3, q0, q1, q2, q3), Dot4(q0, q1, q2, q3, p0, p1, p2, p3),
                     Dot4(p0, p1, p2, p3, p0, p1, p2, p3))
  {
    MixSquare(a, q0, b, p0);
    MixSquare(a, q1, b, p1);
    MixSquare(a, q2, b, p2);
    MixSquare(a, q3, b, p3);
    SquareSum(a, b, q0 * q0, q1 * q1, q2 * q2, q3 * q3, q0 * p0, q1 * p1, q2 * p2, q3 * p3,
              p0 * p0, p1 * p1, p2 * p2, p3 * p3);
  }

  lemma MixSquare(a: real, q: real, b: real, p: real)
    ensures Mix(a, q, b, p) * Mix(a, q, b, p) == SquareOf(a, b, q * q, q * p, p * p)
  {
  }

  lemma SquareSum(a: real, b: real, x0: real, x1: real, x2: real, x3: real, y0: real, y1: real, y2: real, y3: real,
                  z0: real, z1: real, z2: real, z3: real)
    ensures SquareOf(a, b, x0, y0, z0) + SquareOf(a, b, x1, y1, z1) + SquareOf(a, b, x2, y2, z2)
            + SquareOf(a, b, x3, y3, z3) ==
            SquareOf(a, b, x0 + x1 + x2 + x3, y0 + y1 + y2 + y3, z0 + z1 + z2 + z3)
  {
    Spread4(a * a, x0, x1, x2, x3);
    Spread4(2.0 * a * b, y0, y1, y2, y3);
    Spread4(b * b, z0, z1, z2, z3);
  }

  // ------------------------------------------------------------------ square roots

  /** A square root, known only by its defining equation. */
  ghost predicate IsSqrt(sqrt: real -> real) {
    forall x :: x >= 0.0 ==> sqrt(x) >= 0.0 && sqrt(x) * sqrt(x) == x
  }

  lemma RootIs(r: real, a: real)
    requires r >= 0.0 && a >= 0.0 && r * r == a * a
    ensures r == a
  {
    assert (r - a) * (r + a) == 0.0;
    if r != a {
      assert r + a > 0.0;
      NonzeroProduct(r - a, r + a);
    }
  }

  lemma NonzeroProduct(a: real, b: real)
    requires a != 0.0 && b != 0.0
    ensures a * b != 0.0
  {
  }
}
