/**
  The measurement update of a Kalman filter, one scalar measurement at a time, compared with the
  batch update that processes all measurements at once and needs a matrix inverse.
 */
module KalmanUpdate {
  import opened Linear
  import opened Forms

  /** The measurements of one correction: row m of H and R[m] describe sensor m. */
  datatype Sensors = Sensors(H: Mat, R: Vec, used: set<int>)
  {
    function Row(m: int): Vec {
      if 0 <= m < |H| then H[m] else []
    }

    /** The sensors below count that are used have a positive noise variance. */
    ghost predicate Noisy(count: nat) {
      forall m :: 0 <= m < count && m in used ==> V(R, m) > 0.0
    }
  }

  /** The variance h' P h + r of one innovation, the divisor of the update. */
  ghost function Innovation(n: nat, P: Mat, h: Vec, r: real): real {
    Bil(n, P, h, h) + r
  }

  /** The gain P h / (h' P h + r). */
  ghost function Gain(n: nat, P: Mat, h: Vec, r: real): Vec
    requires Innovation(n, P, h, r) != 0.0
  {
    Comb(n, 1.0 / Innovation(n, P, h, r), Mul(n, P, h), 0.0, Zero(n))
  }

  /** P - K (P h)' */
  ghost function Update(n: nat, P: Mat, h: Vec, r: real): (Q: Mat)
    requires Innovation(n, P, h, r) != 0.0
    ensures Shape(Q, n, n)
    ensures forall i {:trigger Row(Q, i)} :: 0 <= i < n ==>
      Row(Q, i) == Comb(n, 1.0, Row(P, i), -V(Gain(n, P, h, r), i), Mul(n, P, h))
  {
    seq(n, i => Comb(n, 1.0, Row(P, i), -V(Gain(n, P, h, r), i), Mul(n, P, h)))
  }

  // ------------------------------------------------------------------ one update

  lemma InnovationPositive(n: nat, P: Mat, h: Vec, r: real)
    requires Covariance(n, P) && r > 0.0
    ensures Innovation(n, P, h, r) >= r
  {
    assert Bil(n, P, h, h) >= 0.0;
  }

  /** P' y == P y - (y' P h) / (h' P h + r) * P h */
  lemma UpdateMul(n: nat, P: Mat, h: Vec, r: real, y: Vec)
    requires Innovation(n, P, h, r) != 0.0
    ensures Mul(n, Update(n, P, h, r), y) ==
            Comb(n, 1.0, Mul(n, P, y), -(Bil(n, P, y, h) / Innovation(n, P, h, r)), Mul(n, P, h))
  {
    var Q, g, s := Update(n, P, h, r), Mul(n, P, h), Innovation(n, P, h, r);
    var z := Comb(n, 1.0, Mul(n, P, y), -(Bil(n, P, y, h) / s), g);
    forall i | 0 <= i < n
      ensures V(Mul(n, Q, y), i) == V(z, i)
    {
      UpdateRow(n, P, h, r, y, i);
    }
    VecExt(n, Mul(n, Q, y), z);
  }

  lemma UpdateRow(n: nat, P: Mat, h: Vec, r: real, y: Vec, i: int)
    requires Innovation(n, P, h, r) != 0.0 && 0 <= i < n
    ensures Dot(n, Row(Update(n, P, h, r), i), y) ==
            Dot(n, Row(P, i), y) - Bil(n, P, y, h) / Innovation(n, P, h, r) * V(Mul(n, P, h), i)
  {
    var k := V(Gain(n, P, h, r), i);
    DotComb(n, 1.0, Row(P, i), -k, Mul(n, P, h), y);
    DotSym(n, Mul(n, P, h), y);
    Exchange(k, V(Mul(n, P, h), i), Innovation(n, P, h, r), Bil(n, P, y, h));
  }

  lemma Exchange(k: real, g: real, s: real, b: real)
    requires s != 0.0 && k == 1.0 / s * g
    ensures k * b == b / s * g
  {
  }

  /** x' P' y == x' P y - (y' P h) / (h' P h + r) * (x' P h) */
  lemma UpdateBil(n: nat, P: Mat, h: Vec, r: real, x: Vec, y: Vec)
    requires Innovation(n, P, h, r) != 0.0
    ensures Bil(n, Update(n, P, h, r), x, y) ==
            Bil(n, P, x, y) - Bil(n, P, y, h) / Innovation(n, P, h, r) * Bil(n, P, x, h)
  {
    UpdateMul(n, P, h, r, y);
    DotComb(n, 1.0, Mul(n, P, y), -(Bil(n, P, y, h) / Innovation(n, P, h, r)), Mul(n, P, h), x);
  }

  lemma UpdateEntry(n: nat, P: Mat, h: Vec, r: real, i: int, j: int)
    requires Innovation(n, P, h, r) != 0.0 && 0 <= i < n && 0 <= j < n
    ensures At(Update(n, P, h, r), i, j) ==
            At(P, i, j) - V(Mul(n, P, h), i) * V(Mul(n, P, h), j) / Innovation(n, P, h, r)
  {
    var Q, g, k := Update(n, P, h, r), Mul(n, P, h), V(Gain(n, P, h, r), i);
    assert V(Row(Q, i), j) == 1.0 * V(Row(P, i), j) + -k * V(g, j);
    Exchange(k, V(g, i), Innovation(n, P, h, r), V(g, j));
  }

  /** An update keeps the covariance symmetric and positive semidefinite. */
  lemma UpdateCovariance(n: nat, P: Mat, h: Vec, r: real)
    requires Covariance(n, P) && r > 0.0
    ensures Innovation(n, P, h, r) >= r
    ensures Covariance(n, Update(n, P, h, r))
  {
    InnovationPositive(n, P, h, r);
    forall i, j | 0 <= i < n && 0 <= j < n
      ensures At(Update(n, P, h, r), i, j) == At(Update(n, P, h, r), j, i)
    {
      UpdateEntry(n, P, h, r, i, j);
      UpdateEntry(n, P, h, r, j, i);
    }
    forall x: Vec
      ensures Bil(n, Update(n, P, h, r), x, x) >= 0.0
    {
      UpdateBil(n, P, h, r, x, x);
      CauchySchwarz(n, P, x, h);
      assert Bil(n, P, x, x) >= 0.0 && Bil(n, P, h, h) >= 0.0;
      DropNoise(Bil(n, P, x, x), Bil(n, P, x, h), Bil(n, P, h, h), r);
    }
  }

  lemma DropNoise(a: real, b: real, c: real, r: real)
    requires a >= 0.0 && b * b <= a * c && c >= 0.0 && r > 0.0
    ensures a - b / (c + r) * b >= 0.0
  {
    assert a * r >= 0.0;
    assert b * b <= a * (c + r);
    AtMost(b * b, c + r, a);
    assert b / (c + r) * b == b * b / (c + r);
  }

  lemma AtMost(x: real, d: real, a: real)
    requires d > 0.0 && x <= a * d
    ensures x / d <= a
  {
    var q := x / d;
    assert q * d == x;
    assert (a - q) * d >= 0.0;
  }

  // ------------------------------------------------------------------ the serial update

  /** The covariance after the first m measurements. */
  ghost function Serial(n: nat, P: Mat, s: Sensors, m: nat): Mat
    requires Covariance(n, P) && s.Noisy(m)
    ensures Covariance(n, Serial(n, P, s, m))
  {
    if m == 0 then P
    else
      var Q := Serial(n, P, s, m - 1);
      if m - 1 in s.used then
        UpdateCovariance(n, Q, s.Row(m - 1), V(s.R, m - 1));
        Update(n, Q, s.Row(m - 1), V(s.R, m - 1))
      else Q
  }

  /** The divisor used for measurement m. */
  ghost function Divisor(n: nat, P: Mat, s: Sensors, m: nat): (d: real)
    requires Covariance(n, P) && s.Noisy(m + 1) && m in s.used
    ensures d >= V(s.R, m) > 0.0
  {
    InnovationPositive(n, Serial(n, P, s, m), s.Row(m), V(s.R, m));
    Innovation(n, Serial(n, P, s, m), s.Row(m), V(s.R, m))
  }

  /** The gain computed for measurement m. */
  ghost function SerialGain(n: nat, P: Mat, s: Sensors, m: nat): Vec
    requires Covariance(n, P) && s.Noisy(m + 1) && m in s.used
  {
    var d := Divisor(n, P, s, m);
    Gain(n, Serial(n, P, s, m), s.Row(m), V(s.R, m))
  }

  /** The state after the first m measurements, with innovations e that were computed before the
      first of them. */
  ghost function SerialState(n: nat, X: Vec, P: Mat, s: Sensors, e: Vec, m: nat): Vec
    requires Covariance(n, P) && s.Noisy(m)
  {
    if m == 0 then X
    else if m - 1 in s.used then
      Comb(n, 1.0, SerialState(n, X, P, s, e, m - 1), V(e, m - 1), SerialGain(n, P, s, m - 1))
    else SerialState(n, X, P, s, e, m - 1)
  }

  /** One step of the serial update, as a form. */
  lemma SerialStep(n: nat, P: Mat, s: Sensors, m: nat, x: Vec, y: Vec)
    requires Covariance(n, P) && s.Noisy(m + 1) && m in s.used
    ensures Divisor(n, P, s, m) == Bil(n, Serial(n, P, s, m), s.Row(m), s.Row(m)) + V(s.R, m)
    ensures Bil(n, Serial(n, P, s, m + 1), x, y) ==
            Bil(n, Serial(n, P, s, m), x, y)
            - Bil(n, Serial(n, P, s, m), y, s.Row(m)) / Divisor(n, P, s, m) * Bil(n, Serial(n, P, s, m), x, s.Row(m))
  {
    var Q, h := Serial(n, P, s, m), s.Row(m);
    InnovationPositive(n, Q, h, V(s.R, m));
    assert Serial(n, P, s, m + 1) == Update(n, Q, h, V(s.R, m));
    UpdateBil(n, Q, h, V(s.R, m), x, y);
  }

  // ------------------------------------------------------------------ the batch covariance

  /** The vector sum over the used sensors k < m of h_k (h_k' z) / R_k. */
  ghost function Information(n: nat, s: Sensors, m: nat, z: Vec): (r: Vec)
    requires s.Noisy(m)
    ensures |r| == n
  {
    if m == 0 then Zero(n)
    else if m - 1 in s.used then
      Comb(n, 1.0, Information(n, s, m - 1, z), Dot(n, s.Row(m - 1), z) / V(s.R, m - 1), s.Row(m - 1))
    else Information(n, s, m - 1, z)
  }

  /** (I + sum of h_k h_k' / R_k * P) y */
  ghost function Informed(n: nat, P: Mat, s: Sensors, m: nat, y: Vec): Vec
    requires s.Noisy(m)
  {
    Comb(n, 1.0, y, 1.0, Information(n, s, m, Mul(n, P, y)))
  }

  lemma InformedStep(n: nat, P: Mat, s: Sensors, m: nat, y: Vec, Q: Mat, x: Vec)
    requires s.Noisy(m + 1)
    ensures Bil(n, Q, x, Informed(n, P, s, m + 1, y)) ==
            Bil(n, Q, x, Informed(n, P, s, m, y))
            + if m in s.used then Bil(n, P, s.Row(m), y) / V(s.R, m) * Bil(n, Q, x, s.Row(m)) else 0.0
  {
    if m in s.used {
      var z := Mul(n, P, y);
      var i := Information(n, s, m, z);
      var c := Dot(n, s.Row(m), z) / V(s.R, m);
      BilRight(n, Q, 1.0, y, 1.0, Comb(n, 1.0, i, c, s.Row(m)), x);
      BilRight(n, Q, 1.0, i, c, s.Row(m), x);
      BilRight(n, Q, 1.0, y, 1.0, i, x);
    }
  }

  /** The form after measurement k at the vectors x and (I + ...) y, from the form before it. */
  lemma BatchBefore(n: nat, P: Mat, s: Sensors, k: nat, x: Vec, y: Vec)
    requires Covariance(n, P) && s.Noisy(k + 1) && k in s.used
    requires Bil(n, Serial(n, P, s, k), x, Informed(n, P, s, k, y)) == Bil(n, P, x, y)
    requires Bil(n, Serial(n, P, s, k), s.Row(k), Informed(n, P, s, k, y)) == Bil(n, P, s.Row(k), y)
    ensures Bil(n, Serial(n, P, s, k + 1), x, Informed(n, P, s, k, y)) ==
            Bil(n, P, x, y) - Bil(n, P, s.Row(k), y) / Divisor(n, P, s, k) * Bil(n, Serial(n, P, s, k), x, s.Row(k))
  {
    SerialStep(n, P, s, k, x, Informed(n, P, s, k, y));
    BilSym(n, Serial(n, P, s, k), Informed(n, P, s, k, y), s.Row(k));
  }

  lemma BatchStep(n: nat, P: Mat, s: Sensors, k: nat, x: Vec, y: Vec)
    requires Covariance(n, P) && s.Noisy(k + 1) && k in s.used
    requires Bil(n, Serial(n, P, s, k), x, Informed(n, P, s, k, y)) == Bil(n, P, x, y)
    requires Bil(n, Serial(n, P, s, k), s.Row(k), Informed(n, P, s, k, y)) == Bil(n, P, s.Row(k), y)
    ensures Bil(n, Serial(n, P, s, k + 1), x, Informed(n, P, s, k + 1, y)) == Bil(n, P, x, y)
  {
    var b, z := Bil(n, Serial(n, P, s, k), x, s.Row(k)), Bil(n, Serial(n, P, s, k + 1), x, s.Row(k));
    var v := Bil(n, Serial(n, P, s, k + 1), x, Informed(n, P, s, k, y));
    var q, d := Bil(n, Serial(n, P, s, k), s.Row(k), s.Row(k)), Divisor(n, P, s, k);
    BatchBefore(n, P, s, k, x, y);
    SerialStep(n, P, s, k, x, s.Row(k));
    Telescope(Bil(n, P, x, y), b, Bil(n, P, s.Row(k), y), q, V(s.R, k), d, z, v);
    InformedStep(n, P, s, k, y, Serial(n, P, s, k + 1), x);
  }

  lemma Telescope(a: real, b: real, c: real, q: real, r: real, d: real, z: real, v: real)
    requires d == q + r && r > 0.0 && d > 0.0
    requires z == b - q / d * b
    requires v == a - c / d * b
    ensures v + c / r * z == a
  {
    assert z == b * r / d by {
      assert q / d * b == q * b / d;
      assert z * d == b * d - b * q;
    }
    assert c / d * b == b * c / d;
    assert c / r * z == b * c / d;
  }

  /** Processing the measurements one at a time, inverting nothing, yields the batch covariance
      Pm with Pm (I + sum of h_k h_k' / R_k * P) == P. */
  lemma {:induction false} BatchForm(n: nat, P: Mat, s: Sensors, m: nat, x: Vec, y: Vec)
    requires Covariance(n, P) && s.Noisy(m)
    ensures Bil(n, Serial(n, P, s, m), x, Informed(n, P, s, m, y)) == Bil(n, P, x, y)
  {
    if m == 0 {
      BilRight(n, P, 1.0, y, 1.0, Zero(n), x);
      MulZero(n, P);
      DotZero(n, x);
    } else {
      BatchForm(n, P, s, m - 1, x, y);
      if m - 1 in s.used {
        BatchForm(n, P, s, m - 1, s.Row(m - 1), y);
        BatchStep(n, P, s, m - 1, x, y);
      }
    }
  }

  lemma BatchCovariance(n: nat, P: Mat, s: Sensors, m: nat, y: Vec)
    requires Covariance(n, P) && s.Noisy(m)
    ensures Mul(n, Serial(n, P, s, m), Informed(n, P, s, m, y)) == Mul(n, P, y)
  {
    var l, r := Mul(n, Serial(n, P, s, m), Informed(n, P, s, m, y)), Mul(n, P, y);
    forall i | 0 <= i < n
      ensures V(l, i) == V(r, i)
    {
      BatchForm(n, P, s, m, Unit(n, i), y);
      DotUnit(n, i, l);
      DotUnit(n, i, r);
    }
    VecExt(n, l, r);
  }
}
