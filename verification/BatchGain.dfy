/**
  The state estimate of the serial update against the batch estimate X + K (Z - Y) with
  K = P H' inv(H P H' + R).

  The covariance of the two always agrees (KalmanUpdate.BatchCovariance).  The state does not,
  because the innovations Z - Y are computed once, before the first measurement is processed:
  the two states agree for all innovations exactly when the used measurements are pairwise
  uncorrelated under P.
 */
module BatchGain {
  import opened Linear
  import opened Forms
  import opened KalmanUpdate

  /** Entry (m, k) of the innovation covariance H P H' + R. */
  ghost function Weight(n: nat, P: Mat, s: Sensors, m: int, k: int): real {
    Bil(n, P, s.Row(m), s.Row(k)) + if m == k then V(s.R, k) else 0.0
  }

  /** Row i of K times column k of H P H' + R, over the used sensors below count. */
  ghost function Weighted(n: nat, P: Mat, s: Sensors, count: nat, K: Mat, i: int, k: int): real {
    if count == 0 then 0.0
    else
      Weighted(n, P, s, count - 1, K, i, k)
      + if count - 1 in s.used then At(K, i, count - 1) * Weight(n, P, s, count - 1, k) else 0.0
  }

  /** K (H P H' + R) == P H' on the used sensors. */
  ghost predicate IsBatchGain(n: nat, P: Mat, s: Sensors, count: nat, K: Mat) {
    forall i, k :: 0 <= i < n && 0 <= k < count && k in s.used ==>
      Weighted(n, P, s, count, K, i, k) == V(Mul(n, P, s.Row(k)), i)
  }

  /** Component i of X + K e. */
  ghost function BatchState(X: Vec, s: Sensors, count: nat, K: Mat, e: Vec, i: int): real {
    if count == 0 then V(X, i)
    else
      BatchState(X, s, count - 1, K, e, i)
      + if count - 1 in s.used then At(K, i, count - 1) * V(e, count - 1) else 0.0
  }

  /** No two used measurements are correlated under P. */
  ghost predicate Uncorrelated(n: nat, P: Mat, s: Sensors, count: nat) {
    forall m, k :: 0 <= m < k < count && m in s.used && k in s.used ==>
      Bil(n, P, s.Row(m), s.Row(k)) == 0.0
  }

  // ------------------------------------------------------------------ the batch gain exists

  /** The batch gain, written with the final covariance: column m is Pfinal h_m / R_m. */
  ghost function FinalGain(n: nat, P: Mat, s: Sensors, count: nat): (K: Mat)
    requires Covariance(n, P) && s.Noisy(count)
    ensures Shape(K, n, count)
    ensures forall i, m {:trigger At(K, i, m)} :: 0 <= i < n && 0 <= m < count && m in s.used ==>
      At(K, i, m) == V(Mul(n, Serial(n, P, s, count), s.Row(m)), i) / V(s.R, m)
  {
    seq(n, i => seq(count, m =>
      if m in s.used && V(s.R, m) > 0.0 then V(Mul(n, Serial(n, P, s, count), s.Row(m)), i) / V(s.R, m) else 0.0))
  }

  /** Column m of K is Q h_m / R_m. */
  ghost predicate Columns(n: nat, Q: Mat, s: Sensors, count: nat, K: Mat, i: int) {
    forall m :: 0 <= m < count && m in s.used ==>
      V(s.R, m) > 0.0 && At(K, i, m) == V(Mul(n, Q, s.Row(m)), i) / V(s.R, m)
  }

  /** What measurement m adds to Q times the information vector of P h_k. */
  ghost function Addend(n: nat, P: Mat, Q: Mat, s: Sensors, m: nat, i: int, k: int): real
    requires V(s.R, m) > 0.0
  {
    Bil(n, P, s.Row(m), s.Row(k)) / V(s.R, m) * V(Mul(n, Q, s.Row(m)), i)
  }

  lemma InformationStep(n: nat, P: Mat, Q: Mat, s: Sensors, m: nat, i: int, k: int)
    requires s.Noisy(m + 1) && m in s.used
    ensures V(Mul(n, Q, Information(n, s, m + 1, Mul(n, P, s.Row(k)))), i) ==
            V(Mul(n, Q, Information(n, s, m, Mul(n, P, s.Row(k)))), i) + Addend(n, P, Q, s, m, i, k)
  {
    var z := Mul(n, P, s.Row(k));
    MulComb(n, Q, 1.0, Information(n, s, m, z), Dot(n, s.Row(m), z) / V(s.R, m), s.Row(m));
  }

  lemma WeightedAddend(n: nat, P: Mat, Q: Mat, s: Sensors, m: nat, K: Mat, i: int, k: int)
    requires m in s.used && V(s.R, m) > 0.0 && At(K, i, m) == V(Mul(n, Q, s.Row(m)), i) / V(s.R, m)
    ensures m != k ==> Weighted(n, P, s, m + 1, K, i, k) == Weighted(n, P, s, m, K, i, k) + Addend(n, P, Q, s, m, i, k)
    ensures m == k ==>
      Weighted(n, P, s, m + 1, K, i, k) ==
      Weighted(n, P, s, m, K, i, k) + Addend(n, P, Q, s, m, i, k) + V(Mul(n, Q, s.Row(m)), i)
  {
    Spread(V(Mul(n, Q, s.Row(m)), i), V(s.R, m), Bil(n, P, s.Row(m), s.Row(k)), At(K, i, m));
  }

  /** Row i of K, up to measurement m, times column k. */
  ghost predicate WeightedIs(n: nat, P: Mat, Q: Mat, s: Sensors, m: nat, K: Mat, i: int, k: nat)
    requires s.Noisy(m)
  {
    Weighted(n, P, s, m, K, i, k) ==
    V(Mul(n, Q, Information(n, s, m, Mul(n, P, s.Row(k)))), i) + if m > k then V(Mul(n, Q, s.Row(k)), i) else 0.0
  }

  lemma WeightedNext(n: nat, P: Mat, Q: Mat, s: Sensors, m: nat, K: Mat, i: int, k: nat)
    requires s.Noisy(m + 1) && k in s.used && WeightedIs(n, P, Q, s, m, K, i, k)
    requires m in s.used ==> V(s.R, m) > 0.0 && At(K, i, m) == V(Mul(n, Q, s.Row(m)), i) / V(s.R, m)
    ensures WeightedIs(n, P, Q, s, m + 1, K, i, k)
  {
    if m in s.used {
      InformationStep(n, P, Q, s, m, i, k);
      WeightedAddend(n, P, Q, s, m, K, i, k);
    }
  }

  lemma {:induction false} ColumnsWeighted(n: nat, P: Mat, Q: Mat, s: Sensors, count: nat, m: nat, K: Mat, i: int,
                                           k: nat)
    requires s.Noisy(count) && m <= count && k < count && k in s.used && Columns(n, Q, s, count, K, i)
    ensures WeightedIs(n, P, Q, s, m, K, i, k)
  {
    if m == 0 {
      MulZero(n, Q);
    } else {
      ColumnsWeighted(n, P, Q, s, count, m - 1, K, i, k);
      WeightedNext(n, P, Q, s, m - 1, K, i, k);
    }
  }

  lemma Spread(q: real, r: real, b: real, a: real)
    requires r > 0.0 && a == q / r
    ensures a * b == b / r * q && a * r == q
  {
    assert a * r == q;
    assert b / r * q == b * (q / r);
  }

  /** The final gain solves the defining equation of the batch gain. */
  lemma FinalGainIsBatchGain(n: nat, P: Mat, s: Sensors, count: nat)
    requires Covariance(n, P) && s.Noisy(count)
    ensures IsBatchGain(n, P, s, count, FinalGain(n, P, s, count))
  {
    var Q := Serial(n, P, s, count);
    forall i, k | 0 <= i < n && 0 <= k < count && k in s.used
      ensures Weighted(n, P, s, count, FinalGain(n, P, s, count), i, k) == V(Mul(n, P, s.Row(k)), i)
    {
      var h := s.Row(k);
      assert Columns(n, Q, s, count, FinalGain(n, P, s, count), i);
      ColumnsWeighted(n, P, Q, s, count, count, FinalGain(n, P, s, count), i, k);
      MulComb(n, Q, 1.0, h, 1.0, Information(n, s, count, Mul(n, P, h)));
      BatchCovariance(n, P, s, count, h);
      assert Mul(n, Q, Informed(n, P, s, count, h))[i] == Mul(n, P, h)[i];
    }
  }

  // ------------------------------------------------------------------ and is the only one

  ghost function Gap(K: Mat, L: Mat, i: int, m: int): real {
    At(K, i, m) - At(L, i, m)
  }

  /** The combination of the used rows of H by the differences of row i of two gains. */
  ghost function RowComb(n: nat, s: Sensors, m: nat, K: Mat, L: Mat, i: int): Vec {
    if m == 0 then Zero(n)
    else if m - 1 in s.used then
      Comb(n, 1.0, RowComb(n, s, m - 1, K, L, i), Gap(K, L, i, m - 1), s.Row(m - 1))
    else RowComb(n, s, m - 1, K, L, i)
  }

  lemma RowCombStep(n: nat, P: Mat, s: Sensors, m: nat, K: Mat, L: Mat, i: int, y: Vec)
    ensures Bil(n, P, RowComb(n, s, m + 1, K, L, i), y) ==
            Bil(n, P, RowComb(n, s, m, K, L, i), y)
            + if m in s.used then Gap(K, L, i, m) * Bil(n, P, s.Row(m), y) else 0.0
  {
    if m in s.used {
      BilLeft(n, P, 1.0, RowComb(n, s, m, K, L, i), Gap(K, L, i, m), s.Row(m), y);
    }
  }

  /** The difference of two weighted rows, as a function of its own. */
  ghost function Excess(n: nat, P: Mat, s: Sensors, m: nat, K: Mat, L: Mat, i: int, k: int): real {
    Weighted(n, P, s, m, K, i, k) - Weighted(n, P, s, m, L, i, k)
  }

  lemma WeightedStep(n: nat, P: Mat, s: Sensors, m: nat, K: Mat, L: Mat, i: int, k: int)
    ensures m !in s.used ==> Excess(n, P, s, m + 1, K, L, i, k) == Excess(n, P, s, m, K, L, i, k)
    ensures m in s.used && m != k ==>
      Excess(n, P, s, m + 1, K, L, i, k) ==
      Excess(n, P, s, m, K, L, i, k) + Gap(K, L, i, m) * Bil(n, P, s.Row(m), s.Row(k))
    ensures m in s.used && m == k ==>
      Excess(n, P, s, m + 1, K, L, i, k) ==
      Excess(n, P, s, m, K, L, i, k) + Gap(K, L, i, m) * Bil(n, P, s.Row(m), s.Row(k)) + Gap(K, L, i, m) * V(s.R, m)
  {
    Factor(At(K, i, m), At(L, i, m), Gap(K, L, i, m), Bil(n, P, s.Row(m), s.Row(k)),
           if m == k then V(s.R, k) else 0.0, Weight(n, P, s, m, k));
  }

  lemma {:induction false} WeightedDifference(n: nat, P: Mat, s: Sensors, m: nat, K: Mat, L: Mat, i: int, k: nat)
    requires k in s.used
    ensures Excess(n, P, s, m, K, L, i, k) ==
            Bil(n, P, RowComb(n, s, m, K, L, i), s.Row(k)) + if m > k then Gap(K, L, i, k) * V(s.R, k) else 0.0
  {
    if m == 0 {
      DotZero(n, Mul(n, P, s.Row(k)));
    } else {
      WeightedDifference(n, P, s, m - 1, K, L, i, k);
      RowCombStep(n, P, s, m - 1, K, L, i, s.Row(k));
      WeightedStep(n, P, s, m - 1, K, L, i, k);
    }
  }

  lemma Factor(a: real, l: real, g: real, b: real, r: real, w: real)
    requires w == b + r && g == a - l
    ensures a * w - l * w == g * b + g * r
  {
  }

  /** The noise of the difference of two gains: the sum of squares weighted by R. */
  ghost function Noise(s: Sensors, m: nat, K: Mat, L: Mat, i: int): (r: real)
    requires s.Noisy(m)
    ensures r >= 0.0
    ensures r == 0.0 ==> forall k :: 0 <= k < m && k in s.used ==> At(K, i, k) == At(L, i, k)
  {
    if m == 0 then 0.0
    else if m - 1 in s.used then
      SquareNonneg(Gap(K, L, i, m - 1), V(s.R, m - 1));
      Noise(s, m - 1, K, L, i)
      + Gap(K, L, i, m - 1) * Gap(K, L, i, m - 1) * V(s.R, m - 1)
    else Noise(s, m - 1, K, L, i)
  }

  lemma SquareNonneg(c: real, r: real)
    requires r > 0.0
    ensures c * c * r >= 0.0
    ensures c * c * r == 0.0 ==> c == 0.0
  {
    SquareRoot(c, c, c * c);
    Factors(c * c, r);
  }

  lemma SquareRoot(c: real, d: real, a: real)
    requires c == d && a == c * d
    ensures a >= 0.0
    ensures a == 0.0 ==> c == 0.0
  {
    if c > 0.0 {
      Factors(c, d);
    } else if c < 0.0 {
      Factors(-c, -d);
      assert a == -c * -d;
    }
  }

  lemma Factors(a: real, b: real)
    requires a >= 0.0 && b > 0.0
    ensures a * b >= 0.0
    ensures a * b == 0.0 ==> a == 0.0
  {
  }

  lemma NoiseStep(s: Sensors, m: nat, K: Mat, L: Mat, i: int, b: real)
    requires s.Noisy(m + 1) && m in s.used
    requires b + Gap(K, L, i, m) * V(s.R, m) == 0.0
    ensures Noise(s, m + 1, K, L, i) == Noise(s, m, K, L, i) - Gap(K, L, i, m) * b
  {
    Opposite(Gap(K, L, i, m), b, V(s.R, m));
  }

  lemma Opposite(c: real, b: real, r: real)
    requires b + c * r == 0.0
    ensures c * b == -(c * c * r)
  {
    assert c * (b + c * r) == c * b + c * c * r;
  }

  lemma DifferenceStep(n: nat, P: Mat, s: Sensors, count: nat, m: nat, K: Mat, L: Mat, i: int, u: Vec)
    requires Covariance(n, P) && s.Noisy(count) && m < count && 0 <= i < n
    requires IsBatchGain(n, P, s, count, K) && IsBatchGain(n, P, s, count, L)
    requires u == RowComb(n, s, count, K, L, i)
    ensures Bil(n, P, RowComb(n, s, m + 1, K, L, i), u) + Noise(s, m + 1, K, L, i) ==
            Bil(n, P, RowComb(n, s, m, K, L, i), u) + Noise(s, m, K, L, i)
  {
    RowCombStep(n, P, s, m, K, L, i, u);
    if m in s.used {
      assert Bil(n, P, s.Row(m), u) + Gap(K, L, i, m) * V(s.R, m) == 0.0 by {
        WeightedDifference(n, P, s, count, K, L, i, m);
        BilSym(n, P, s.Row(m), u);
      }
      NoiseStep(s, m, K, L, i, Bil(n, P, s.Row(m), u));
    }
  }

  lemma {:induction false} DifferenceForm(n: nat, P: Mat, s: Sensors, count: nat, m: nat, K: Mat, L: Mat, i: int)
    requires Covariance(n, P) && s.Noisy(count) && m <= count && 0 <= i < n
    requires IsBatchGain(n, P, s, count, K) && IsBatchGain(n, P, s, count, L)
    ensures Bil(n, P, RowComb(n, s, m, K, L, i), RowComb(n, s, count, K, L, i)) + Noise(s, m, K, L, i) == 0.0
  {
    if m == 0 {
      DotZero(n, Mul(n, P, RowComb(n, s, count, K, L, i)));
    } else {
      DifferenceForm(n, P, s, count, m - 1, K, L, i);
      DifferenceStep(n, P, s, count, m - 1, K, L, i, RowComb(n, s, count, K, L, i));
    }
  }

  /** H P H' + R is positive definite, so the batch gain is unique on the used sensors. */
  lemma BatchGainUnique(n: nat, P: Mat, s: Sensors, count: nat, K: Mat, L: Mat)
    requires Covariance(n, P) && s.Noisy(count)
    requires IsBatchGain(n, P, s, count, K) && IsBatchGain(n, P, s, count, L)
    ensures forall i, m :: 0 <= i < n && 0 <= m < count && m in s.used ==> At(K, i, m) == At(L, i, m)
  {
    forall i | 0 <= i < n
      ensures Noise(s, count, K, L, i) == 0.0
    {
      DifferenceForm(n, P, s, count, count, K, L, i);
      var u := RowComb(n, s, count, K, L, i);
      assert Bil(n, P, u, u) >= 0.0;
    }
    forall i, m | 0 <= i < n && 0 <= m < count && m in s.used
      ensures At(K, i, m) == At(L, i, m)
    {
      assert Noise(s, count, K, L, i) == 0.0;
    }
  }

  // ------------------------------------------------------------------ when the states agree

  lemma SerialMul(n: nat, P: Mat, s: Sensors, m: nat, y: Vec)
    requires Covariance(n, P) && s.Noisy(m + 1) && m in s.used
    ensures Divisor(n, P, s, m) == Bil(n, Serial(n, P, s, m), s.Row(m), s.Row(m)) + V(s.R, m)
    ensures Mul(n, Serial(n, P, s, m + 1), y) ==
            Comb(n, 1.0, Mul(n, Serial(n, P, s, m), y),
                 -(Bil(n, Serial(n, P, s, m), y, s.Row(m)) / Divisor(n, P, s, m)), Mul(n, Serial(n, P, s, m), s.Row(m)))
  {
    InnovationPositive(n, Serial(n, P, s, m), s.Row(m), V(s.R, m));
    UpdateMul(n, Serial(n, P, s, m), s.Row(m), V(s.R, m), y);
  }

  /** A measurement that y is not correlated with leaves P y as it is. */
  lemma SerialMulKeeps(n: nat, P: Mat, s: Sensors, m: nat, y: Vec)
    requires Covariance(n, P) && s.Noisy(m + 1)
    requires m in s.used ==> Bil(n, Serial(n, P, s, m), y, s.Row(m)) == 0.0
    ensures Mul(n, Serial(n, P, s, m + 1), y) == Mul(n, Serial(n, P, s, m), y)
  {
    if m in s.used {
      SerialMul(n, P, s, m, y);
      VecExt(n, Mul(n, Serial(n, P, s, m + 1), y), Mul(n, Serial(n, P, s, m), y));
    }
  }

  /** What is left of g when its q-th part out of d is taken away. */
  function Left(g: real, q: real, d: real): real
    requires d != 0.0
  {
    g - q / d * g
  }

  function Over(g: real, d: real): real
    requires d != 0.0
  {
    1.0 / d * g
  }

  lemma UpdateMulEntry(n: nat, Q: Mat, h: Vec, r: real, i: int)
    requires Innovation(n, Q, h, r) != 0.0 && 0 <= i < n
    ensures V(Mul(n, Update(n, Q, h, r), h), i) == Left(V(Mul(n, Q, h), i), Bil(n, Q, h, h), Innovation(n, Q, h, r))
  {
    UpdateMul(n, Q, h, r, h);
    CombEntry(n, Mul(n, Q, h), Bil(n, Q, h, h) / Innovation(n, Q, h, r), i);
  }

  lemma CombEntry(n: nat, x: Vec, a: real, i: int)
    requires 0 <= i < n
    ensures V(Comb(n, 1.0, x, -a, x), i) == V(x, i) - a * V(x, i)
  {
  }

  lemma GainEntry(n: nat, Q: Mat, h: Vec, r: real, i: int)
    requires Innovation(n, Q, h, r) != 0.0 && 0 <= i < n
    ensures V(Gain(n, Q, h, r), i) == Over(V(Mul(n, Q, h), i), Innovation(n, Q, h, r))
  {
  }

  lemma GainAfterUpdate(n: nat, Q: Mat, h: Vec, r: real, i: int)
    requires Innovation(n, Q, h, r) != 0.0 && 0 <= i < n
    ensures Times(V(Gain(n, Q, h, r), i), r) == V(Mul(n, Update(n, Q, h, r), h), i)
  {
    UpdateMulEntry(n, Q, h, r, i);
    GainEntry(n, Q, h, r, i);
    Shrink(V(Mul(n, Q, h), i), Bil(n, Q, h, h), r, Innovation(n, Q, h, r), V(Gain(n, Q, h, r), i));
  }

  /** The gain of measurement m is the covariance after it times h_m / R_m. */
  lemma SerialGainAfter(n: nat, P: Mat, s: Sensors, m: nat, i: int)
    requires Covariance(n, P) && s.Noisy(m + 1) && m in s.used && 0 <= i < n
    ensures Times(V(SerialGain(n, P, s, m), i), V(s.R, m)) == V(Mul(n, Serial(n, P, s, m + 1), s.Row(m)), i)
  {
    var Q, h, r := Serial(n, P, s, m), s.Row(m), V(s.R, m);
    SerialIs(n, P, s, m, Q, h, r);
    GainAfterUpdate(n, Q, h, r, i);
  }

  lemma SerialIs(n: nat, P: Mat, s: Sensors, m: nat, Q: Mat, h: Vec, r: real)
    requires Covariance(n, P) && s.Noisy(m + 1) && m in s.used
    requires Q == Serial(n, P, s, m) && h == s.Row(m) && r == V(s.R, m)
    ensures Innovation(n, Q, h, r) != 0.0
    ensures Serial(n, P, s, m + 1) == Update(n, Q, h, r) && SerialGain(n, P, s, m) == Gain(n, Q, h, r)
  {
    InnovationPositive(n, Q, h, r);
  }

  lemma Shrink(g: real, q: real, r: real, d: real, k: real)
    requires d == q + r && d != 0.0 && k == Over(g, d)
    ensures Times(k, r) == Left(g, q, d)
  {
    var t := 1.0 / d;
    assert q / d == q * t;
    assert k == t * g;
    Cancelled(d, t, g);
    assert q / d * g == q * k;
    assert k * d == k * q + k * r;
  }

  lemma Cancelled(d: real, t: real, g: real)
    requires d != 0.0 && t == 1.0 / d
    ensures t * g * d == g
  {
    assert t * d == 1.0;
    assert t * g * d == t * d * g;
  }

  /** The gain columns of the serial and of the batch update agree. */
  ghost predicate SameGains(n: nat, P: Mat, s: Sensors, count: nat)
    requires Covariance(n, P) && s.Noisy(count)
  {
    forall m {:trigger SameGain(n, P, s, count, m)} :: 0 <= m < count && m in s.used ==> SameGain(n, P, s, count, m)
  }

  ghost predicate SameGain(n: nat, P: Mat, s: Sensors, count: nat, m: nat)
    requires Covariance(n, P) && s.Noisy(count) && m < count
  {
    Mul(n, Serial(n, P, s, m + 1), s.Row(m)) == Mul(n, Serial(n, P, s, count), s.Row(m))
  }

  lemma {:induction false} UncorrelatedKeepsLater(n: nat, P: Mat, s: Sensors, count: nat, m: nat, l: nat)
    requires Covariance(n, P) && s.Noisy(count) && Uncorrelated(n, P, s, count)
    requires m <= l < count && l in s.used
    ensures Mul(n, Serial(n, P, s, m), s.Row(l)) == Mul(n, P, s.Row(l))
  {
    if m > 0 {
      UncorrelatedKeepsLater(n, P, s, count, m - 1, l);
      BilSym(n, Serial(n, P, s, m - 1), s.Row(l), s.Row(m - 1));
      SerialMulKeeps(n, P, s, m - 1, s.Row(l));
    }
  }

  lemma StillUncorrelated(n: nat, P: Mat, s: Sensors, count: nat, m: nat, l: nat)
    requires Covariance(n, P) && s.Noisy(count) && Uncorrelated(n, P, s, count)
    requires m < l < count && m in s.used && l in s.used
    ensures Bil(n, Serial(n, P, s, l), s.Row(m), s.Row(l)) == 0.0
  {
    UncorrelatedKeepsLater(n, P, s, count, l, l);
  }

  lemma {:induction false} UncorrelatedKeepsEarlier(n: nat, P: Mat, s: Sensors, count: nat, m: nat, l: nat)
    requires Covariance(n, P) && s.Noisy(count) && Uncorrelated(n, P, s, count)
    requires m < l <= count && m in s.used
    ensures Mul(n, Serial(n, P, s, l), s.Row(m)) == Mul(n, Serial(n, P, s, m + 1), s.Row(m))
  {
    if l > m + 1 {
      UncorrelatedKeepsEarlier(n, P, s, count, m, l - 1);
      if l - 1 in s.used {
        StillUncorrelated(n, P, s, count, m, l - 1);
      }
      SerialMulKeeps(n, P, s, l - 1, s.Row(m));
    }
  }

  /** Updates only ever shrink the form. */
  lemma {:induction false} FormShrinks(n: nat, P: Mat, s: Sensors, m: nat, l: nat, x: Vec)
    requires Covariance(n, P) && s.Noisy(l) && m <= l
    ensures Bil(n, Serial(n, P, s, l), x, x) <= Bil(n, Serial(n, P, s, m), x, x)
    ensures Bil(n, Serial(n, P, s, l), x, x) == Bil(n, Serial(n, P, s, m), x, x) ==>
      forall k :: m <= k < l && k in s.used ==> Bil(n, Serial(n, P, s, k), x, s.Row(k)) == 0.0
  {
    if m < l {
      FormShrinks(n, P, s, m, l - 1, x);
      if l - 1 in s.used {
        SerialStep(n, P, s, l - 1, x, x);
        Ratio(Bil(n, Serial(n, P, s, l - 1), x, s.Row(l - 1)), Divisor(n, P, s, l - 1));
      }
    }
  }

  lemma Ratio(b: real, d: real)
    requires d > 0.0
    ensures b / d * b >= 0.0
    ensures b / d * b == 0.0 ==> b == 0.0
  {
    assert b / d * b == b * b * (1.0 / d);
    SquareNonneg(b, 1.0 / d);
  }

  lemma SameGainsForm(n: nat, P: Mat, s: Sensors, count: nat, m: nat)
    requires Covariance(n, P) && s.Noisy(count) && SameGains(n, P, s, count) && m < count && m in s.used
    ensures Bil(n, Serial(n, P, s, count), s.Row(m), s.Row(m)) == Bil(n, Serial(n, P, s, m + 1), s.Row(m), s.Row(m))
  {
    assert SameGain(n, P, s, count, m);
    SameMulForm(n, Serial(n, P, s, m + 1), Serial(n, P, s, count), s.Row(m));
  }

  lemma SameMulForm(n: nat, P: Mat, Q: Mat, x: Vec)
    requires Mul(n, P, x) == Mul(n, Q, x)
    ensures Bil(n, P, x, x) == Bil(n, Q, x, x)
  {
  }

  lemma SameGainsKeepForm(n: nat, P: Mat, s: Sensors, count: nat, m: nat, l: nat)
    requires Covariance(n, P) && s.Noisy(count) && SameGains(n, P, s, count)
    requires m < l < count && m in s.used && l in s.used
    ensures Bil(n, Serial(n, P, s, l), s.Row(m), s.Row(l)) == 0.0
  {
    SameGainsForm(n, P, s, count, m);
    FormShrinks(n, P, s, m + 1, count, s.Row(m));
  }

  lemma {:induction false} SameGainsKeepEarlier(n: nat, P: Mat, s: Sensors, count: nat, m: nat, l: nat)
    requires Covariance(n, P) && s.Noisy(count) && SameGains(n, P, s, count)
    requires m < l <= count && m in s.used
    ensures Mul(n, Serial(n, P, s, l), s.Row(m)) == Mul(n, Serial(n, P, s, m + 1), s.Row(m))
  {
    if l > m + 1 {
      SameGainsKeepEarlier(n, P, s, count, m, l - 1);
      if l - 1 in s.used {
        SameGainsKeepForm(n, P, s, count, m, l - 1);
      }
      SerialMulKeeps(n, P, s, l - 1, s.Row(m));
    }
  }

  /** With equal gains, measurement m is not correlated with a later one just after it ... */
  lemma SameGainsAfter(n: nat, P: Mat, s: Sensors, count: nat, m: nat, l: nat)
    requires Covariance(n, P) && s.Noisy(count) && SameGains(n, P, s, count)
    requires m < l < count && m in s.used && l in s.used
    ensures Bil(n, Serial(n, P, s, m + 1), s.Row(l), s.Row(m)) == 0.0
  {
    SameGainsKeepEarlier(n, P, s, count, m, l);
    SameGainsKeepForm(n, P, s, count, m, l);
    BilSym(n, Serial(n, P, s, l), s.Row(m), s.Row(l));
  }

  lemma ZeroBefore(n: nat, P: Mat, s: Sensors, m: nat, x: Vec)
    requires Covariance(n, P) && s.Noisy(m + 1) && m in s.used
    requires Bil(n, Serial(n, P, s, m + 1), x, s.Row(m)) == 0.0
    ensures Bil(n, Serial(n, P, s, m), x, s.Row(m)) == 0.0
  {
    var b, q := Bil(n, Serial(n, P, s, m), x, s.Row(m)), Bil(n, Serial(n, P, s, m), s.Row(m), s.Row(m));
    SerialStep(n, P, s, m, x, s.Row(m));
    Vanishes(b, q, V(s.R, m), Divisor(n, P, s, m), Bil(n, Serial(n, P, s, m + 1), x, s.Row(m)));
  }

  /** ... and so not just before it. */
  lemma SameGainsUncorrelated(n: nat, P: Mat, s: Sensors, count: nat, m: nat, l: nat)
    requires Covariance(n, P) && s.Noisy(count) && SameGains(n, P, s, count)
    requires m < l < count && m in s.used && l in s.used
    ensures Bil(n, Serial(n, P, s, m), s.Row(l), s.Row(m)) == 0.0
  {
    SameGainsAfter(n, P, s, count, m, l);
    ZeroBefore(n, P, s, m, s.Row(l));
  }

  lemma Vanishes(b: real, q: real, r: real, d: real, z: real)
    requires d == q + r && r > 0.0 && d > 0.0 && z == b - q / d * b && z == 0.0
    ensures b == 0.0
  {
    assert q / d * b == b * q / d;
    assert (b - q / d * b) * d == b * r;
  }

  lemma {:induction false} SameGainsKeepLater(n: nat, P: Mat, s: Sensors, count: nat, m: nat, l: nat)
    requires Covariance(n, P) && s.Noisy(count) && SameGains(n, P, s, count)
    requires m <= l < count && l in s.used
    ensures Mul(n, Serial(n, P, s, m), s.Row(l)) == Mul(n, P, s.Row(l))
  {
    if m > 0 {
      SameGainsKeepLater(n, P, s, count, m - 1, l);
      if m - 1 in s.used {
        SameGainsUncorrelated(n, P, s, count, m - 1, l);
      }
      SerialMulKeeps(n, P, s, m - 1, s.Row(l));
    }
  }

  lemma SameGainsIffUncorrelated(n: nat, P: Mat, s: Sensors, count: nat)
    requires Covariance(n, P) && s.Noisy(count)
    ensures SameGains(n, P, s, count) <==> Uncorrelated(n, P, s, count)
  {
    if Uncorrelated(n, P, s, count) {
      forall m | 0 <= m < count && m in s.used
        ensures SameGain(n, P, s, count, m)
      {
        UncorrelatedKeepsEarlier(n, P, s, count, m, count);
      }
    }
    if SameGains(n, P, s, count) {
      forall m, k | 0 <= m < k < count && m in s.used && k in s.used
        ensures Bil(n, P, s.Row(m), s.Row(k)) == 0.0
      {
        SameGainsUncorrelated(n, P, s, count, m, k);
        SameGainsKeepLater(n, P, s, count, m, k);
        BilSym(n, Serial(n, P, s, m), s.Row(k), s.Row(m));
      }
    }
  }

  /** For every innovation the serial update gives the state X + K e. */
  ghost predicate StatesAgree(n: nat, X: Vec, P: Mat, s: Sensors, count: nat, K: Mat)
    requires Covariance(n, P) && s.Noisy(count)
  {
    forall e: Vec, i :: 0 <= i < n ==> V(SerialState(n, X, P, s, e, count), i) == BatchState(X, s, count, K, e, i)
  }

  ghost predicate SameColumns(n: nat, P: Mat, s: Sensors, count: nat, K: Mat)
    requires Covariance(n, P) && s.Noisy(count)
  {
    forall m, i :: 0 <= m < count && m in s.used && 0 <= i < n ==> V(SerialGain(n, P, s, m), i) == At(K, i, m)
  }

  lemma StateStep(n: nat, X: Vec, P: Mat, s: Sensors, e: Vec, m: nat, i: int)
    requires Covariance(n, P) && s.Noisy(m + 1) && m in s.used && 0 <= i < n
    ensures V(SerialState(n, X, P, s, e, m + 1), i) ==
            V(SerialState(n, X, P, s, e, m), i) + Times(V(e, m), V(SerialGain(n, P, s, m), i))
  {
  }

  lemma BatchStep(X: Vec, s: Sensors, m: nat, K: Mat, e: Vec, i: int)
    requires m in s.used
    ensures BatchState(X, s, m + 1, K, e, i) == BatchState(X, s, m, K, e, i) + Times(At(K, i, m), V(e, m))
  {
  }

  lemma SameFactor(a: real, b: real, e: real)
    requires a == b
    ensures Times(e, a) == Times(b, e)
  {
  }

  lemma {:induction false} ColumnsGiveStates(n: nat, X: Vec, P: Mat, s: Sensors, count: nat, m: nat, K: Mat, e: Vec,
                                             i: int)
    requires Covariance(n, P) && s.Noisy(count) && SameColumns(n, P, s, count, K) && m <= count && 0 <= i < n
    ensures V(SerialState(n, X, P, s, e, m), i) == BatchState(X, s, m, K, e, i)
  {
    if m > 0 {
      ColumnsGiveStates(n, X, P, s, count, m - 1, K, e, i);
      if m - 1 in s.used {
        StateStep(n, X, P, s, e, m - 1, i);
        BatchStep(X, s, m - 1, K, e, i);
        SameFactor(V(SerialGain(n, P, s, m - 1), i), At(K, i, m - 1), V(e, m - 1));
      }
    }
  }

  /** An innovation in one sensor only moves the states along that sensor's gain column. */
  lemma {:induction false} SingleInnovation(n: nat, X: Vec, P: Mat, s: Sensors, count: nat, m: nat, K: Mat, k: nat,
                                            i: int)
    requires Covariance(n, P) && s.Noisy(count) && m <= count && k < count && k in s.used && 0 <= i < n
    ensures V(SerialState(n, X, P, s, Unit(count, k), m), i) ==
            V(X, i) + if k < m then V(SerialGain(n, P, s, k), i) else 0.0
    ensures BatchState(X, s, m, K, Unit(count, k), i) == V(X, i) + if k < m then At(K, i, k) else 0.0
  {
    if m > 0 {
      SingleInnovation(n, X, P, s, count, m - 1, K, k, i);
      assert V(Unit(count, k), m - 1) == if m - 1 == k then 1.0 else 0.0;
    }
  }

  lemma StatesIffColumns(n: nat, X: Vec, P: Mat, s: Sensors, count: nat, K: Mat)
    requires Covariance(n, P) && s.Noisy(count)
    ensures StatesAgree(n, X, P, s, count, K) <==> SameColumns(n, P, s, count, K)
  {
    if SameColumns(n, P, s, count, K) {
      forall e: Vec, i | 0 <= i < n
        ensures V(SerialState(n, X, P, s, e, count), i) == BatchState(X, s, count, K, e, i)
      {
        ColumnsGiveStates(n, X, P, s, count, count, K, e, i);
      }
    }
    if StatesAgree(n, X, P, s, count, K) {
      forall m, i | 0 <= m < count && m in s.used && 0 <= i < n
        ensures V(SerialGain(n, P, s, m), i) == At(K, i, m)
      {
        SingleInnovation(n, X, P, s, count, count, K, m, i);
        assert V(SerialState(n, X, P, s, Unit(count, m), count), i) == BatchState(X, s, count, K, Unit(count, m), i);
      }
    }
  }

  lemma ColumnIff(n: nat, P: Mat, s: Sensors, count: nat, K: Mat, m: nat, i: int)
    requires Covariance(n, P) && s.Noisy(count) && IsBatchGain(n, P, s, count, K)
    requires m < count && m in s.used && 0 <= i < n
    ensures V(SerialGain(n, P, s, m), i) == At(K, i, m) <==>
            V(Mul(n, Serial(n, P, s, m + 1), s.Row(m)), i) == V(Mul(n, Serial(n, P, s, count), s.Row(m)), i)
  {
    FinalGainIsBatchGain(n, P, s, count);
    BatchGainUnique(n, P, s, count, K, FinalGain(n, P, s, count));
    SerialGainAfter(n, P, s, m, i);
    SameQuotient(V(SerialGain(n, P, s, m), i), V(s.R, m), V(Mul(n, Serial(n, P, s, m + 1), s.Row(m)), i),
                 At(K, i, m), V(Mul(n, Serial(n, P, s, count), s.Row(m)), i));
  }

  lemma SameQuotient(k: real, r: real, p: real, l: real, q: real)
    requires r > 0.0 && Times(k, r) == p && l == q / r
    ensures k == l <==> p == q
  {
    assert l * r == q;
    assert k == p / r;
  }

  lemma ColumnsIffGains(n: nat, P: Mat, s: Sensors, count: nat, K: Mat)
    requires Covariance(n, P) && s.Noisy(count) && IsBatchGain(n, P, s, count, K)
    ensures SameColumns(n, P, s, count, K) <==> SameGains(n, P, s, count)
  {
    if SameColumns(n, P, s, count, K) {
      forall m | 0 <= m < count && m in s.used
        ensures SameGain(n, P, s, count, m)
      {
        var l, r := Mul(n, Serial(n, P, s, m + 1), s.Row(m)), Mul(n, Serial(n, P, s, count), s.Row(m));
        forall i | 0 <= i < n
          ensures V(l, i) == V(r, i)
        {
          ColumnIff(n, P, s, count, K, m, i);
        }
        VecExt(n, l, r);
      }
    }
    if SameGains(n, P, s, count) {
      forall m, i | 0 <= m < count && m in s.used && 0 <= i < n
        ensures V(SerialGain(n, P, s, m), i) == At(K, i, m)
      {
        assert SameGain(n, P, s, count, m);
        ColumnIff(n, P, s, count, K, m, i);
      }
    }
  }

  /** The state of the serial update is X + K (Z - Y) with the batch gain K, for every Z - Y,
      exactly when no two used measurements are correlated under P. */
  lemma SerialStateIsBatchState(n: nat, X: Vec, P: Mat, s: Sensors, count: nat, K: Mat)
    requires Covariance(n, P) && s.Noisy(count) && IsBatchGain(n, P, s, count, K)
    ensures StatesAgree(n, X, P, s, count, K) <==> Uncorrelated(n, P, s, count)
  {
    StatesIffColumns(n, X, P, s, count, K);
    ColumnsIffGains(n, P, s, count, K);
    SameGainsIffUncorrelated(n, P, s, count);
  }
}
