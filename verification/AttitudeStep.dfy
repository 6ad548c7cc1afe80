/**
  What one Runge-Kutta step does to the attitude quaternion q: with W the bias-corrected angular
  rate and p = q W, every stage is a combination a q + b p, so the step multiplies the squared
  norm by a polynomial in the squared rotation angle.
 */
module AttitudeStep {
  import opened Linear
  import opened Forms
  import opened Quaternions
  import opened StateModel

  /** The bias-corrected angular rate. */
  function Rate(x: Vec, u: Vec): Vec3 {
    Gyro(u).Minus(Bias(x))
  }

  /** The attitude entries of a state, as a vector. */
  function Part(x: Vec): (r: Vec)
    ensures |r| == 4
    ensures forall i {:trigger V(r, i)} :: 0 <= i < 4 ==> V(r, i) == V(x, 6 + i)
  {
    [V(x, 6), V(x, 7), V(x, 8), V(x, 9)]
  }

  function QuatOf(r: Vec): Quat {
    Quat(V(r, 0), V(r, 1), V(r, 2), V(r, 3))
  }

  /** The product q W of the attitude and the angular rate, as a vector. */
  function Turned(x: Vec, w: Vec3): (r: Vec)
    ensures |r| == 4 && QuatOf(r) == Attitude(x).Times(Pure(w))
  {
    var p := Attitude(x).Times(Pure(w));
    [p.w, p.x, p.y, p.z]
  }

  /** y has the gyro biases of x and the attitude a q + b p. */
  ghost predicate Spans(x: Vec, p: Vec, y: Vec, a: real, b: real) {
    Bias(y) == Bias(x) && Part(y) == Comb(4, a, Part(x), b, p)
  }

  /** k has zero bias rates and the attitude rate a q + b p. */
  ghost predicate RateSpans(x: Vec, p: Vec, k: Vec, a: real, b: real) {
    Bias(k) == Vec3(0.0, 0.0, 0.0) && Part(k) == Comb(4, a, Part(x), b, p)
  }

  lemma SpansItself(x: Vec, p: Vec)
    ensures Spans(x, p, x, 1.0, 0.0)
  {
    forall i | 0 <= i < 4
      ensures V(Part(x), i) == V(Comb(4, 1.0, Part(x), 0.0, p), i)
    {
      First(V(Part(x), i), V(p, i));
    }
    VecExt(4, Part(x), Comb(4, 1.0, Part(x), 0.0, p));
  }

  lemma First(q: real, p: real)
    ensures 1.0 * q + 0.0 * p == q
  {
  }

  /** The coefficient of q in the attitude rate at a q + b p, for the squared rate n. */
  function TurnBack(n: real, b: real): real {
    -n * b / 2.0
  }

  /** The state derivative at a combination of q and q W. */
  lemma RateOf(x: Vec, u: Vec, w: Vec3, n: real, y: Vec, a: real, b: real, a': real, b': real)
    requires w == Rate(x, u) && n == w.Norm2() && Spans(x, Turned(x, w), y, a, b)
    requires a' == TurnBack(n, b) && b' == a / 2.0
    ensures RateSpans(x, Turned(x, w), StateRate(y, u), a', b')
  {
    var p, k := Turned(x, w), StateRate(y, u);
    AttitudeRate(y, u);
    assert Rate(y, u) == w;
    var c := -n * b;
    SpansTurned(x, w, -n, y, a, b, c);
    HalfBlend(c, Part(x), a, p, a', b', k);
  }

  lemma SpansTurned(x: Vec, w: Vec3, n: real, y: Vec, a: real, b: real, c: real)
    requires n == -w.Norm2() && c == n * b && Spans(x, Turned(x, w), y, a, b)
    ensures Attitude(y).Times(Pure(w)) == QuatOf(Comb(4, c, Part(x), a, Turned(x, w)))
  {
    var q, p := Attitude(x), Attitude(x).Times(Pure(w));
    CombQuat(a, Part(x), b, Turned(x, w));
    CombQuat(c, Part(x), a, Turned(x, w));
    assert Attitude(y) == QuatOf(Part(y)) == Blend(a, q, b, p);
    BlendTimes(a, q, b, w, n);
  }

  lemma CombAt(a: real, q: Vec, b: real, p: Vec, i: int)
    requires 0 <= i < 4
    ensures V(Comb(4, a, q, b, p), i) == Mix(a, V(q, i), b, V(p, i))
  {
  }

  lemma CombQuat(a: real, q: Vec, b: real, p: Vec)
    ensures QuatOf(Comb(4, a, q, b, p)) == Blend(a, QuatOf(q), b, QuatOf(p))
  {
    CombAt(a, q, b, p, 0);
    CombAt(a, q, b, p, 1);
    CombAt(a, q, b, p, 2);
    CombAt(a, q, b, p, 3);
  }

  lemma AttitudeRate(y: Vec, u: Vec)
    ensures Attitude(StateRate(y, u)) == Attitude(y).Times(Pure(Rate(y, u))).Scale(0.5)
    ensures Bias(StateRate(y, u)) == Vec3(0.0, 0.0, 0.0)
  {
  }

  lemma HalfBlend(a: real, q: Vec, b: real, p: Vec, a': real, b': real, k: Vec)
    requires Attitude(k) == QuatOf(Comb(4, a, q, b, p)).Scale(0.5)
    requires a' == a / 2.0 && b' == b / 2.0
    ensures Part(k) == Comb(4, a', q, b', p)
  {
    HalfPart(Comb(4, a, q, b, p), k);
    HalfComb(a, q, b, p, a', b', Comb(4, a, q, b, p), Part(k));
  }

  lemma HalfPart(r: Vec, k: Vec)
    requires Attitude(k) == QuatOf(r).Scale(0.5)
    ensures forall i :: 0 <= i < 4 ==> V(Part(k), i) == Times(0.5, V(r, i))
  {
    forall i | 0 <= i < 4
      ensures V(Part(k), i) == Times(0.5, V(r, i))
    {
      assert i == 0 || i == 1 || i == 2 || i == 3;
    }
  }

  lemma HalfComb(a: real, q: Vec, b: real, p: Vec, a': real, b': real, r: Vec, s: Vec)
    requires r == Comb(4, a, q, b, p) && |s| == 4 && a' == a / 2.0 && b' == b / 2.0
    requires forall i :: 0 <= i < 4 ==> V(s, i) == Times(0.5, V(r, i))
    ensures s == Comb(4, a', q, b', p)
  {
    forall i | 0 <= i < 4
      ensures V(s, i) == V(Comb(4, a', q, b', p), i)
    {
      CombAt(a, q, b, p, i);
      CombAt(a', q, b', p, i);
      HalfEntry(a, V(q, i), b, V(p, i), a', b', V(r, i), V(s, i));
    }
    VecExt(4, s, Comb(4, a', q, b', p));
  }

  lemma HalfEntry(a: real, q: real, b: real, p: real, a': real, b': real, r: real, k: real)
    requires r == Mix(a, q, b, p) && k == Times(0.5, r) && a' == a / 2.0 && b' == b / 2.0
    ensures k == Mix(a', q, b', p)
  {
  }

  function OnePlus(c: real, a: real): real {
    1.0 + c * a
  }

  /** x + c k */
  lemma MovedSpans(x: Vec, p: Vec, c: real, k: Vec, y: Vec, a: real, b: real, a': real, b': real)
    requires RateSpans(x, p, k, a, b) && y == MovedBy(x, c, k)
    requires a' == OnePlus(c, a) && b' == Times(c, b)
    ensures Spans(x, p, y, a', b')
  {
    MovedParts(x, c, k, y);
    MovedComb(Part(x), p, c, Part(k), Part(y), a, b, a', b');
    MovedBiases(x, c, k, y);
  }

  lemma MovedBiases(x: Vec, c: real, k: Vec, y: Vec)
    requires Bias(k) == Vec3(0.0, 0.0, 0.0) && y == MovedBy(x, c, k)
    ensures Bias(y) == Bias(x)
  {
    MovedBias(x, c, k, y, 10);
    MovedBias(x, c, k, y, 11);
    MovedBias(x, c, k, y, 12);
  }

  lemma MovedParts(x: Vec, c: real, k: Vec, y: Vec)
    requires y == MovedBy(x, c, k)
    ensures forall i :: 0 <= i < 4 ==> V(Part(y), i) == Mix(1.0, V(Part(x), i), c, V(Part(k), i))
  {
  }

  lemma MovedComb(q: Vec, p: Vec, c: real, k: Vec, y: Vec, a: real, b: real, a': real, b': real)
    requires k == Comb(4, a, q, b, p) && |y| == 4 && a' == OnePlus(c, a) && b' == Times(c, b)
    requires forall i :: 0 <= i < 4 ==> V(y, i) == Mix(1.0, V(q, i), c, V(k, i))
    ensures y == Comb(4, a', q, b', p)
  {
    forall i | 0 <= i < 4
      ensures V(y, i) == V(Comb(4, a', q, b', p), i)
    {
      CombAt(a, q, b, p, i);
      CombAt(a', q, b', p, i);
      MovedEntry(V(q, i), c, a, b, V(p, i), V(k, i), V(y, i), a', b');
    }
    VecExt(4, y, Comb(4, a', q, b', p));
  }

  lemma MovedBias(x: Vec, c: real, k: Vec, y: Vec, i: nat)
    requires i < 13 && V(k, i) == 0.0 && y == MovedBy(x, c, k)
    ensures V(y, i) == V(x, i)
  {
    assert V(y, i) == 1.0 * V(x, i) + c * V(k, i);
  }

  lemma MovedEntry(q: real, c: real, a: real, b: real, p: real, k: real, y: real, a': real, b': real)
    requires k == Mix(a, q, b, p) && y == Mix(1.0, q, c, k) && a' == OnePlus(c, a) && b' == Times(c, b)
    ensures y == Mix(a', q, b', p)
  {
  }

  /** The combination a q + b p after the step, for the squared rate n. */
  function Alpha(n: real, dT: real): real {
    1.0 - n * dT * dT / 8.0 + n * dT * dT * (n * dT * dT) / 384.0
  }

  function Beta(n: real, dT: real): real {
    dT / 2.0 * (1.0 - n * dT * dT / 24.0)
  }

  /** Coefficients of the rates of the four stages. */
  ghost predicate StageCoefficients(x: Vec, p: Vec, s: Stages, a2: real, b3: real, a4: real, b4: real) {
    && RateSpans(x, p, s.k1, 0.0, 0.5)
    && RateSpans(x, p, s.k2, a2, 0.5)
    && RateSpans(x, p, s.k3, a2, b3)
    && RateSpans(x, p, s.k4, a4, b4)
  }

  /** ... and of the states they are evaluated at, for the squared rate n. */
  ghost predicate Coefficients(n: real, h: real, a2: real, c: real, d: real, b3: real, e: real, a4: real, b4: real) {
    && a2 == TurnBack(n, h / 4.0)
    && c == OnePlus(h / 2.0, a2) && b3 == c / 2.0
    && d == OnePlus(h, a2) && e == Times(h, b3)
    && a4 == TurnBack(n, e) && b4 == d / 2.0
  }

  lemma StageSpans(x: Vec, u: Vec, w: Vec3, n: real, h: real, s: Stages,
                   a2: real, c: real, d: real, b3: real, e: real, a4: real, b4: real)
    requires w == Rate(x, u) && n == w.Norm2() && s == StagesOf(x, u, h)
    requires Coefficients(n, h, a2, c, d, b3, e, a4, b4)
    ensures StageCoefficients(x, Turned(x, w), s, a2, b3, a4, b4)
  {
    FirstStages(x, u, w, n, h, s, a2);
    LastStages(x, u, w, n, h, s, a2, c, d, b3, e, a4, b4);
  }

  lemma FirstStages(x: Vec, u: Vec, w: Vec3, n: real, h: real, s: Stages, a2: real)
    requires w == Rate(x, u) && n == w.Norm2() && s == StagesOf(x, u, h) && a2 == TurnBack(n, h / 4.0)
    ensures RateSpans(x, Turned(x, w), s.k1, 0.0, 0.5) && RateSpans(x, Turned(x, w), s.k2, a2, 0.5)
  {
    var p, x2 := Turned(x, w), MovedBy(x, h / 2.0, s.k1);
    FirstReal(n, h);
    SpansItself(x, p);
    RateOf(x, u, w, n, x, 1.0, 0.0, 0.0, 0.5);
    MovedSpans(x, p, h / 2.0, s.k1, x2, 0.0, 0.5, 1.0, h / 4.0);
    RateOf(x, u, w, n, x2, 1.0, h / 4.0, a2, 0.5);
  }

  lemma LastStages(x: Vec, u: Vec, w: Vec3, n: real, h: real, s: Stages,
                   a2: real, c: real, d: real, b3: real, e: real, a4: real, b4: real)
    requires w == Rate(x, u) && n == w.Norm2() && s == StagesOf(x, u, h)
    requires Coefficients(n, h, a2, c, d, b3, e, a4, b4) && RateSpans(x, Turned(x, w), s.k2, a2, 0.5)
    ensures RateSpans(x, Turned(x, w), s.k3, a2, b3) && RateSpans(x, Turned(x, w), s.k4, a4, b4)
  {
    var p := Turned(x, w);
    var x3, x4 := MovedBy(x, h / 2.0, s.k2), MovedBy(x, h, s.k3);
    FirstReal(n, h);
    MovedSpans(x, p, h / 2.0, s.k2, x3, a2, 0.5, c, h / 4.0);
    RateOf(x, u, w, n, x3, c, h / 4.0, a2, b3);
    MovedSpans(x, p, h, s.k3, x4, a2, b3, d, e);
    RateOf(x, u, w, n, x4, d, e, a4, b4);
  }

  lemma FirstReal(n: real, h: real)
    ensures TurnBack(n, 0.0) == 0.0 && OnePlus(h / 2.0, 0.0) == 1.0 && Times(h / 2.0, 0.5) == h / 4.0
  {
  }

  /** The step leaves the biases unchanged and moves the attitude within the plane of q and q W. */
  lemma StepSpans(x: Vec, u: Vec, h: real)
    ensures var w := Rate(x, u);
            Spans(x, Turned(x, w), Integrated(x, u, h), Alpha(w.Norm2(), h), Beta(w.Norm2(), h))
  {
    StepSpansWith(x, u, Rate(x, u), Rate(x, u).Norm2(), h, StagesOf(x, u, h), Integrated(x, u, h));
  }

  lemma StepSpansWith(x: Vec, u: Vec, w: Vec3, n: real, h: real, s: Stages, y: Vec)
    requires w == Rate(x, u) && n == w.Norm2() && s == StagesOf(x, u, h) && y == Averaged(x, h, s)
    ensures Spans(x, Turned(x, w), y, Alpha(n, h), Beta(n, h))
  {
    var a2 := TurnBack(n, h / 4.0);
    var c, d := OnePlus(h / 2.0, a2), OnePlus(h, a2);
    var b3, b4 := c / 2.0, d / 2.0;
    var e := Times(h, b3);
    var a4 := TurnBack(n, e);
    StageSpans(x, u, w, n, h, s, a2, c, d, b3, e, a4, b4);
    AverageReal(n, h, a2, c, d, b3, e, a4, b4);
    AveragedSpans(x, Turned(x, w), h, s, y, a2, b3, a4, b4, Alpha(n, h), Beta(n, h));
  }

  lemma AverageReal(n: real, h: real, a2: real, c: real, d: real, b3: real, e: real, a4: real, b4: real)
    requires Coefficients(n, h, a2, c, d, b3, e, a4, b4)
    ensures Alpha(n, h) == OnePlus(h / 6.0, 4.0 * a2 + a4)
    ensures Beta(n, h) == Times(h / 6.0, 1.5 + 2.0 * b3 + b4)
  {
    var m := n * h;
    assert a2 == -m / 8.0;
    assert c == 1.0 - m * h / 16.0;
    assert d == 1.0 - m * h / 8.0;
    assert n * e == m * b3;
    assert a4 == -m * c / 4.0;
  }

  /** k1 + 2 k2 + 2 k3 + k4 */
  ghost function Weighted(s: Stages): (r: Vec)
    ensures |r| == 13
    ensures forall i {:trigger V(r, i)} :: 0 <= i < 13 ==>
      V(r, i) == V(s.k1, i) + 2.0 * V(s.k2, i) + 2.0 * V(s.k3, i) + V(s.k4, i)
  {
    seq(13, i => V(s.k1, i) + 2.0 * V(s.k2, i) + 2.0 * V(s.k3, i) + V(s.k4, i))
  }

  lemma AveragedIsMoved(x: Vec, h: real, s: Stages)
    ensures Averaged(x, h, s) == MovedBy(x, h / 6.0, Weighted(s))
  {
    var y, z := Averaged(x, h, s), MovedBy(x, h / 6.0, Weighted(s));
    forall i | 0 <= i < 13
      ensures V(y, i) == V(z, i)
    {
      Sixth(V(x, i), h, V(Weighted(s), i));
    }
    VecExt(13, y, z);
  }

  lemma Sixth(x: real, h: real, t: real)
    ensures x + h * t / 6.0 == 1.0 * x + h / 6.0 * t
  {
  }

  lemma AveragedSpans(x: Vec, p: Vec, h: real, s: Stages, y: Vec, a2: real, b3: real, a4: real, b4: real, a: real,
                      b: real)
    requires StageCoefficients(x, p, s, a2, b3, a4, b4) && y == Averaged(x, h, s)
    requires a == OnePlus(h / 6.0, 4.0 * a2 + a4) && b == Times(h / 6.0, 1.5 + 2.0 * b3 + b4)
    ensures Spans(x, p, y, a, b)
  {
    var t, r := 4.0 * a2 + a4, 1.5 + 2.0 * b3 + b4;
    WeightedSpans(x, p, s, a2, b3, a4, b4, t, r);
    AveragedIsMoved(x, h, s);
    MovedSpans(x, p, h / 6.0, Weighted(s), y, t, r, a, b);
  }

  lemma WeightedSpans(x: Vec, p: Vec, s: Stages, a2: real, b3: real, a4: real, b4: real, t: real, r: real)
    requires StageCoefficients(x, p, s, a2, b3, a4, b4) && t == 4.0 * a2 + a4 && r == 1.5 + 2.0 * b3 + b4
    ensures RateSpans(x, p, Weighted(s), t, r)
  {
    var k := Weighted(s);
    forall i | 0 <= i < 4
      ensures V(Part(k), i) == V(Comb(4, t, Part(x), r, p), i)
    {
      WeightedEntry(Part(x), p, s, a2, b3, a4, b4, t, r, i);
    }
    VecExt(4, Part(k), Comb(4, t, Part(x), r, p));
    WeightedBias(s, 10);
    WeightedBias(s, 11);
    WeightedBias(s, 12);
  }

  lemma WeightedEntry(q: Vec, p: Vec, s: Stages, a2: real, b3: real, a4: real, b4: real, t: real, r: real, i: int)
    requires 0 <= i < 4 && t == 4.0 * a2 + a4 && r == 1.5 + 2.0 * b3 + b4
    requires Part(s.k1) == Comb(4, 0.0, q, 0.5, p) && Part(s.k2) == Comb(4, a2, q, 0.5, p)
    requires Part(s.k3) == Comb(4, a2, q, b3, p) && Part(s.k4) == Comb(4, a4, q, b4, p)
    ensures V(Part(Weighted(s)), i) == V(Comb(4, t, q, r, p), i)
  {
    CombAt(0.0, q, 0.5, p, i);
    CombAt(a2, q, 0.5, p, i);
    CombAt(a2, q, b3, p, i);
    CombAt(a4, q, b4, p, i);
    CombAt(t, q, r, p, i);
    WeightedReal(V(q, i), V(p, i), V(Part(s.k1), i), V(Part(s.k2), i), V(Part(s.k3), i), V(Part(s.k4), i), a2, b3, a4,
                 b4, t, r);
    assert V(Part(Weighted(s)), i) == V(Weighted(s), 6 + i);
  }

  lemma WeightedReal(q: real, p: real, k1: real, k2: real, k3: real, k4: real, a2: real, b3: real, a4: real, b4: real,
                     t: real, r: real)
    requires k1 == Mix(0.0, q, 0.5, p) && k2 == Mix(a2, q, 0.5, p) && k3 == Mix(a2, q, b3, p) && k4 == Mix(a4, q, b4, p)
    requires t == 4.0 * a2 + a4 && r == 1.5 + 2.0 * b3 + b4
    ensures k1 + 2.0 * k2 + 2.0 * k3 + k4 == Mix(t, q, r, p)
  {
  }

  lemma WeightedBias(s: Stages, i: int)
    requires 0 <= i < 13 && V(s.k1, i) == 0.0 && V(s.k2, i) == 0.0 && V(s.k3, i) == 0.0 && V(s.k4, i) == 0.0
    ensures V(Weighted(s), i) == 0.0
  {
  }

  // ------------------------------------------------------------------ the norm

  /** The factor 1 - s^6 / 72 + s^8 / 576, where sigma = s^2 is the square of half the rotation angle. */
  function NormFactor(sigma: real): real {
    1.0 - sigma * sigma * sigma / 72.0 + sigma * sigma * sigma * sigma / 576.0
  }

  function HalfAngle2(x: Vec, u: Vec, dT: real): real {
    Quarter(Rate(x, u).Norm2(), dT)
  }

  function Quarter(n: real, dT: real): real {
    n * dT * dT / 4.0
  }

  lemma AlphaBeta(n: real, h: real, a: real, b: real, sigma: real)
    requires sigma == n * h * h / 4.0 && a == Alpha(n, h) && b == Beta(n, h)
    ensures NormWeight(a, b, n) == NormFactor(sigma)
  {
    var c := 1.0 - sigma / 6.0;
    var m := n * h * h;
    assert m == 4.0 * sigma;
    AlphaIs(m, sigma);
    BetaIs(n, h, sigma, c);
    BetaReal(n, h, b, c, sigma);
    AlphaReal(sigma, a, c);
  }

  lemma AlphaIs(m: real, sigma: real)
    requires m == 4.0 * sigma
    ensures 1.0 - m / 8.0 + m * m / 384.0 == 1.0 - sigma / 2.0 + sigma * sigma / 24.0
  {
  }

  lemma BetaIs(n: real, h: real, sigma: real, c: real)
    requires sigma == n * h * h / 4.0 && c == 1.0 - sigma / 6.0
    ensures Beta(n, h) == h / 2.0 * c
  {
    assert n * h * h / 24.0 == sigma / 6.0;
  }

  lemma BetaReal(n: real, h: real, b: real, c: real, sigma: real)
    requires sigma == n * h * h / 4.0 && b == h / 2.0 * c
    ensures b * b * n == sigma * (c * c)
  {
    assert b * b * n == n * h * h / 4.0 * (c * c);
  }

  lemma AlphaReal(s: real, a: real, c: real)
    requires a == 1.0 - s / 2.0 + s * s / 24.0 && c == 1.0 - s / 6.0
    ensures a * a + s * (c * c) == NormFactor(s)
  {
    assert s * (c * c) == s - s * s / 3.0 + s * s * s / 36.0;
  }

  /** The factor has its minimum 1/4 at sigma == 6 and does not exceed one up to sigma == 8. */
  lemma FactorBounds(s: real)
    requires s >= 0.0
    ensures NormFactor(s) >= 0.25
    ensures NormFactor(s) == 0.25 <==> s == 6.0
    ensures NormFactor(s) <= 1.0 <==> s <= 8.0
  {
    var d, e := (s - 6.0) * (s - 6.0), s * s + 4.0 * s + 12.0;
    Factored(s, d, e);
    assert d >= 0.0 && e >= 12.0;
    PositiveProduct(d, e);
    SquareZero(s - 6.0, d);
    var c := s * s * s;
    assert NormFactor(s) - 1.0 == c * (s - 8.0) / 576.0;
    Cube(s, c);
    SignOf(c, s - 8.0);
  }

  lemma Factored(s: real, d: real, e: real)
    requires d == (s - 6.0) * (s - 6.0) && e == s * s + 4.0 * s + 12.0
    ensures NormFactor(s) - 0.25 == d * e / 576.0
  {
  }

  lemma PositiveProduct(d: real, e: real)
    requires d >= 0.0 && e > 0.0
    ensures d * e >= 0.0 && (d * e == 0.0 <==> d == 0.0)
  {
  }

  lemma SquareZero(a: real, d: real)
    requires d == a * a
    ensures d == 0.0 <==> a == 0.0
  {
    if a > 0.0 {
      PositiveTimes(a, a, d);
    } else if a < 0.0 {
      var b := -a;
      PositiveTimes(b, b, d);
    } else {
      assert a * a == 0.0 * a;
    }
  }

  lemma PositiveTimes(a: real, b: real, d: real)
    requires a > 0.0 && b > 0.0 && d == a * b
    ensures d > 0.0
  {
  }

  lemma Cube(s: real, c: real)
    requires s >= 0.0 && c == s * s * s
    ensures c >= 0.0 && (c == 0.0 <==> s == 0.0)
  {
    var t := s * s;
    assert t >= 0.0 && (t == 0.0 <==> s == 0.0);
    assert c == t * s;
  }

  lemma SignOf(c: real, b: real)
    requires c >= 0.0 && (c == 0.0 ==> b <= 0.0)
    ensures c * b <= 0.0 <==> b <= 0.0
  {
    if b > 0.0 {
      assert c * b > 0.0;
    }
  }

  /** One step multiplies the squared norm of the quaternion by exactly this factor. */
  lemma StepNorm(x: Vec, u: Vec, dT: real)
    ensures var q, r := Attitude(x), Attitude(Integrated(x, u, dT));
            Inner(r, r) == NormFactor(HalfAngle2(x, u, dT)) * Inner(q, q)
  {
    StepSpans(x, u, dT);
    var w, n := Rate(x, u), Rate(x, u).Norm2();
    StepNormWith(x, w, Integrated(x, u, dT), n, dT, Alpha(n, dT), Beta(n, dT), HalfAngle2(x, u, dT));
  }

  lemma StepNormWith(x: Vec, w: Vec3, y: Vec, n: real, h: real, a: real, b: real, sigma: real)
    requires n == w.Norm2() && a == Alpha(n, h) && b == Beta(n, h) && sigma == Quarter(n, h)
    requires Spans(x, Turned(x, w), y, a, b)
    ensures Inner(Attitude(y), Attitude(y)) == Times(NormFactor(sigma), Inner(Attitude(x), Attitude(x)))
  {
    AlphaBeta(n, h, a, b, sigma);
    SpansNorm(x, w, y, n, a, b, NormFactor(sigma));
  }

  lemma SpansNorm(x: Vec, w: Vec3, y: Vec, n: real, a: real, b: real, f: real)
    requires Spans(x, Turned(x, w), y, a, b) && n == w.Norm2() && NormWeight(a, b, n) == f
    ensures Inner(Attitude(y), Attitude(y)) == Times(f, Inner(Attitude(x), Attitude(x)))
  {
    CombQuat(a, Part(x), b, Turned(x, w));
    assert Attitude(y) == QuatOf(Part(y));
    BlendNorm(a, Attitude(x), b, w);
  }

  lemma Norm2Nonneg(v: Vec3)
    ensures v.Norm2() >= 0.0
  {
    assert v.x * v.x >= 0.0 && v.y * v.y >= 0.0 && v.z * v.z >= 0.0;
  }

  lemma InnerNonneg(q: Quat)
    ensures Inner(q, q) >= 0.0 && (Inner(q, q) == 0.0 <==> q == Quat(0.0, 0.0, 0.0, 0.0))
  {
    assert q.w * q.w >= 0.0 && q.x * q.x >= 0.0 && q.y * q.y >= 0.0 && q.z * q.z >= 0.0;
    SquareZero(q.w, q.w * q.w);
    SquareZero(q.x, q.x * q.x);
    SquareZero(q.y, q.y * q.y);
    SquareZero(q.z, q.z * q.z);
  }

  lemma HalfAngleNonneg(n: real, dT: real)
    requires n >= 0.0
    ensures Quarter(n, dT) >= 0.0
  {
    assert dT * dT >= 0.0;
    assert n * dT * dT == n * (dT * dT);
  }

  /** A non-zero quaternion stays non-zero, so the caller may divide by its norm. */
  lemma StepNonzero(x: Vec, u: Vec, dT: real)
    ensures var q, r := Attitude(x), Attitude(Integrated(x, u, dT));
            && Inner(r, r) >= 0.25 * Inner(q, q)
            && (Inner(q, q) > 0.0 ==> Inner(r, r) > 0.0)
  {
    var q, r := Attitude(x), Attitude(Integrated(x, u, dT));
    StepNorm(x, u, dT);
    Norm2Nonneg(Rate(x, u));
    HalfAngleNonneg(Rate(x, u).Norm2(), dT);
    FactorBounds(HalfAngle2(x, u, dT));
    InnerNonneg(q);
    AtLeast(NormFactor(HalfAngle2(x, u, dT)), Inner(q, q));
  }

  lemma AtLeast(f: real, m: real)
    requires f >= 0.25 && m >= 0.0
    ensures f * m >= 0.25 * m
  {
    assert (f - 0.25) * m >= 0.0;
  }
}
