/**
  The measurement update in place: P, X and the gain matrix K are overwritten one used
  measurement at a time (matlab/ins/insgps.c, SerialUpdate).
 */
module SerialUpdate {
  import opened Linear
  import opened Forms
  import opened KalmanUpdate

  /** The value of a matrix held in an array. */
  function Value(a: array2<real>): (r: Mat)
    reads a
    ensures Shape(r, a.Length0, a.Length1)
    ensures forall i, j {:trigger At(r, i, j)} :: 0 <= i < a.Length0 && 0 <= j < a.Length1 ==> At(r, i, j) == a[i, j]
  {
    seq(a.Length0, i requires 0 <= i < a.Length0 reads a =>
      seq(a.Length1, j requires 0 <= j < a.Length1 reads a => a[i, j]))
  }

  /** Bit m of the sensor mask. */
  predicate Used(mask: bv16, m: nat) {
    m < 16 && mask & (1 << m) != 0
  }

  /** What the arguments of SerialUpdate say about the sensors. */
  function SensorsOf(H: array2<real>, R: array<real>, mask: bv16): (s: Sensors)
    reads H, R
    ensures s.H == Value(H) && s.R == R[..]
    ensures forall m :: m in s.used <==> 0 <= m < R.Length && Used(mask, m)
  {
    Sensors(Value(H), R[..], set m | 0 <= m < R.Length && Used(mask, m))
  }

  ghost function Innovations(Z: array<real>, Y: array<real>): (e: Vec)
    requires Z.Length == Y.Length
    reads Z, Y
    ensures |e| == Z.Length && forall m :: 0 <= m < Z.Length ==> V(e, m) == Z[m] - Y[m]
  {
    seq(Z.Length, m requires 0 <= m < Z.Length reads Z, Y => Z[m] - Y[m])
  }

  /** HP = row m of H times P. */
  method RowTimesP(H: array2<real>, m: nat, P: array2<real>, HP: array<real>)
    requires m < H.Length0 && H.Length1 == P.Length0 == P.Length1 == HP.Length
    requires Symmetric(HP.Length, Value(P))
    modifies HP
    ensures HP[..] == Mul(HP.Length, Value(P), Value(H)[m])
  {
    var n := HP.Length;
    ghost var p, h := Value(P), Value(H)[m];
    for j := 0 to n
      invariant Value(P) == p && Value(H)[m] == h
      invariant forall c :: 0 <= c < j ==> HP[c] == Dot(n, Row(p, c), h)
    {
      HP[j] := 0.0;
      for k := 0 to n
        invariant Value(P) == p && Value(H)[m] == h
        invariant forall c :: 0 <= c < j ==> HP[c] == Dot(n, Row(p, c), h)
        invariant HP[j] == Sum(k, Products(Row(p, j), h))
      {
        SumStep(k + 1, Products(Row(p, j), h));
        assert At(p, k, j) == At(p, j, k);
        HP[j] := HP[j] + H[m, k] * P[k, j];
      }
    }
    VecExt(n, HP[..], Mul(n, p, h));
  }

  /** HPHR = row m of H times P times that row, plus R[m]. */
  method InnovationVariance(H: array2<real>, m: nat, r: real, HP: array<real>) returns (hphr: real)
    requires m < H.Length0 && H.Length1 == HP.Length
    ensures hphr == r + Dot(HP.Length, HP[..], Value(H)[m])
  {
    var n := HP.Length;
    ghost var f := Products(HP[..], Value(H)[m]);
    hphr := r;
    for k := 0 to n
      invariant hphr == r + Sum(k, f)
    {
      SumStep(k + 1, f);
      hphr := hphr + HP[k] * H[m, k];
    }
  }

  /** Entry (i, j) of P - K HP with the upper triangle mirrored into the lower one. */
  ghost function Shrunk(p: Mat, k: Vec, hp: Vec, i: int, j: int): real {
    if i <= j then At(p, i, j) - V(k, i) * V(hp, j) else At(p, j, i) - V(k, j) * V(hp, i)
  }

  /** P = P - K * HP, computed on the upper triangle and mirrored. */
  method ShrinkCovariance(P: array2<real>, K: array2<real>, m: nat, HP: array<real>)
    requires P.Length0 == P.Length1 == K.Length0 == HP.Length && m < K.Length1 && P != K
    modifies P
    ensures forall i, j :: 0 <= i < HP.Length && 0 <= j < HP.Length ==>
      P[i, j] == Shrunk(old(Value(P)), Column(K, m), HP[..], i, j)
  {
    var n := HP.Length;
    ghost var p, k, hp := Value(P), Column(K, m), HP[..];
    for i := 0 to n
      invariant forall a, b {:trigger P[a, b]} :: 0 <= a < n && 0 <= b < n ==>
        P[a, b] == if a < i || b < i then Shrunk(p, k, hp, a, b) else At(p, a, b)
    {
      for j := i to n
        invariant forall a, b {:trigger P[a, b]} :: 0 <= a < n && 0 <= b < n ==>
          P[a, b] == if a < i || b < i || (a == i && b < j) || (b == i && a < j)
                     then Shrunk(p, k, hp, a, b) else At(p, a, b)
      {
        P[j, i] := P[i, j] - K[i, m] * HP[j];
        P[i, j] := P[j, i];
      }
    }
  }

  /** Column m of an array. */
  function Column(K: array2<real>, m: nat): (c: Vec)
    requires m < K.Length1
    reads K
    ensures |c| == K.Length0 && forall i :: 0 <= i < K.Length0 ==> c[i] == K[i, m] == V(c, i)
  {
    seq(K.Length0, i requires 0 <= i < K.Length0 reads K => K[i, m])
  }

  /** The mirrored update is the symmetric matrix P - K (P h)'. */
  lemma ShrunkIsUpdate(n: nat, p: Mat, h: Vec, r: real, k: Vec, hp: Vec, q: Mat)
    requires Covariance(n, p) && r > 0.0 && Shape(q, n, n)
    requires hp == Mul(n, p, h)
    requires forall i :: 0 <= i < n ==> V(k, i) == V(hp, i) / Innovation(n, p, h, r)
    requires forall i, j :: 0 <= i < n && 0 <= j < n ==> At(q, i, j) == Shrunk(p, k, hp, i, j)
    ensures Innovation(n, p, h, r) >= r
    ensures q == Update(n, p, h, r)
  {
    UpdateCovariance(n, p, h, r);
    var u := Update(n, p, h, r);
    forall i, j | 0 <= i < n && 0 <= j < n
      ensures At(q, i, j) == At(u, i, j)
    {
      if i <= j {
        ShrunkEntry(n, p, h, r, k, hp, i, j);
      } else {
        ShrunkEntry(n, p, h, r, k, hp, j, i);
        assert At(u, i, j) == At(u, j, i);
      }
    }
    MatExt(q, u, n, n);
  }

  lemma ShrunkEntry(n: nat, p: Mat, h: Vec, r: real, k: Vec, hp: Vec, i: int, j: int)
    requires 0 <= i <= j < n && hp == Mul(n, p, h) && Innovation(n, p, h, r) != 0.0
    requires V(k, i) == V(hp, i) / Innovation(n, p, h, r)
    ensures Shrunk(p, k, hp, i, j) == At(Update(n, p, h, r), i, j)
  {
    UpdateEntry(n, p, h, r, i, j);
    Fraction(V(k, i), V(hp, i), Innovation(n, p, h, r), V(hp, j));
  }

  lemma Fraction(k: real, g: real, s: real, b: real)
    requires s != 0.0 && k == g / s
    ensures k * b == g * b / s
  {
  }

  lemma GainEntry(n: nat, p: Mat, h: Vec, r: real, i: int)
    requires Innovation(n, p, h, r) != 0.0 && 0 <= i < n
    ensures V(Gain(n, p, h, r), i) == V(Mul(n, p, h), i) / Innovation(n, p, h, r)
  {
    Inverse(V(Mul(n, p, h), i), Innovation(n, p, h, r), V(Gain(n, p, h, r), i));
  }

  lemma Inverse(g: real, s: real, v: real)
    requires s != 0.0 && v == 1.0 / s * g + 0.0
    ensures v == g / s
  {
  }

  /** Column m of K = HP / HPHR. */
  method SetGain(K: array2<real>, m: nat, HP: array<real>, HPHR: real)
    requires K.Length0 == HP.Length && m < K.Length1 && HPHR != 0.0
    modifies K
    ensures forall i :: 0 <= i < HP.Length ==> V(Column(K, m), i) == HP[i] / HPHR
    ensures forall c :: 0 <= c < K.Length1 && c != m ==> Column(K, c) == old(Column(K, c))
  {
    for k := 0 to HP.Length
      invariant forall c :: 0 <= c < k ==> K[c, m] == HP[c] / HPHR
      invariant forall a, c :: 0 <= a < K.Length0 && 0 <= c < K.Length1 && c != m ==> K[a, c] == old(K[a, c])
    {
      K[k, m] := HP[k] / HPHR;
    }
  }

  /** One used measurement. */
  method ProcessMeasurement(H: array2<real>, R: array<real>, Z: array<real>, Y: array<real>,
                            P: array2<real>, X: array<real>, K: array2<real>, m: nat,
                            ghost h: Vec, ghost error: real)
    requires P.Length0 == P.Length1 == K.Length0 == H.Length1 == X.Length
    requires m < H.Length0 == K.Length1 == R.Length == Z.Length == Y.Length
    requires P != K && P != H && K != H && X != R && X != Z && X != Y
    requires Covariance(X.Length, Value(P)) && R[m] > 0.0
    requires h == Value(H)[m] && error == Z[m] - Y[m]
    modifies P, X, K
    ensures Innovation(X.Length, old(Value(P)), h, old(R[m])) >= old(R[m])
    ensures Value(P) == Update(X.Length, old(Value(P)), h, old(R[m]))
    ensures Column(K, m) == Gain(X.Length, old(Value(P)), h, old(R[m]))
    ensures forall c :: 0 <= c < K.Length1 && c != m ==> Column(K, c) == old(Column(K, c))
    ensures X[..] == Comb(X.Length, 1.0, old(X[..]), error, Column(K, m))
  {
    ghost var p := Value(P);
    var HP := GainColumn(H, R, P, K, m, h);
    ShrinkCovariance(P, K, m, HP);
    ShrunkIsUpdate(X.Length, p, h, R[m], Column(K, m), HP[..], Value(P));
    MoveState(X, K, m, Z[m] - Y[m]);
  }

  /** HP and the gain HP / HPHR. */
  method GainColumn(H: array2<real>, R: array<real>, P: array2<real>, K: array2<real>, m: nat, ghost h: Vec)
    returns (HP: array<real>)
    requires P.Length0 == P.Length1 == K.Length0 == H.Length1
    requires m < H.Length0 == K.Length1 == R.Length
    requires P != K && H != K && Covariance(P.Length0, Value(P)) && R[m] > 0.0 && h == Value(H)[m]
    modifies K
    ensures fresh(HP) && HP.Length == P.Length0 && HP[..] == Mul(P.Length0, Value(P), h)
    ensures Innovation(P.Length0, Value(P), h, R[m]) >= R[m]
    ensures Column(K, m) == Gain(P.Length0, Value(P), h, R[m])
    ensures forall i :: 0 <= i < P.Length0 ==>
            V(Column(K, m), i) == V(HP[..], i) / Innovation(P.Length0, Value(P), h, R[m])
    ensures forall c :: 0 <= c < K.Length1 && c != m ==> Column(K, c) == old(Column(K, c))
  {
    var n := P.Length0;
    ghost var p := Value(P);
    HP := new real[n];
    RowTimesP(H, m, P, HP);
    ghost var hp := HP[..];
    var HPHR := InnovationVariance(H, m, R[m], HP);
    DotSym(n, hp, h);
    InnovationPositive(n, p, h, R[m]);
    assert HPHR == Innovation(n, p, h, R[m]);
    SetGain(K, m, HP, HPHR);
    ghost var g := Column(K, m);
    forall i | 0 <= i < n
      ensures V(g, i) == V(Gain(n, p, h, R[m]), i)
    {
      GainEntry(n, p, h, R[m], i);
    }
    VecExt(n, g, Gain(n, p, h, R[m]));
  }

  /** X = X + K * Error */
  method MoveState(X: array<real>, K: array2<real>, m: nat, Error: real)
    requires K.Length0 == X.Length && m < K.Length1
    modifies X
    ensures X[..] == Comb(X.Length, 1.0, old(X[..]), Error, Column(K, m))
  {
    var n := X.Length;
    ghost var x := X[..];
    for i := 0 to n
      invariant forall c :: 0 <= c < n ==> X[c] == if c < i then V(x, c) + K[c, m] * Error else V(x, c)
    {
      X[i] := X[i] + K[i, m] * Error;
    }
    VecExt(n, X[..], Comb(n, 1.0, x, Error, Column(K, m)));
  }

  lemma SerialUnfold(n: nat, p: Mat, s: Sensors, x: Vec, e: Vec, m: nat)
    requires Covariance(n, p) && s.Noisy(m + 1) && m in s.used
    ensures Innovation(n, Serial(n, p, s, m), s.Row(m), V(s.R, m)) > 0.0
    ensures Serial(n, p, s, m + 1) == Update(n, Serial(n, p, s, m), s.Row(m), V(s.R, m))
    ensures SerialGain(n, p, s, m) == Gain(n, Serial(n, p, s, m), s.Row(m), V(s.R, m))
    ensures SerialState(n, x, p, s, e, m + 1) ==
            Comb(n, 1.0, SerialState(n, x, p, s, e, m), V(e, m), SerialGain(n, p, s, m))
  {
    InnovationPositive(n, Serial(n, p, s, m), s.Row(m), V(s.R, m));
  }

  /** What measurement m does, after those before it. */
  method ProcessIfUsed(H: array2<real>, R: array<real>, Z: array<real>, Y: array<real>, P: array2<real>,
                       X: array<real>, K: array2<real>, SensorsUsed: bv16, m: nat, ghost p: Mat, ghost x: Vec)
    requires P.Length0 == P.Length1 == K.Length0 == H.Length1 == X.Length
    requires m < H.Length0 == K.Length1 == R.Length == Z.Length == Y.Length
    requires P != K && P != H && K != H && X != R && X != Z && X != Y
    requires Covariance(X.Length, p) && SensorsOf(H, R, SensorsUsed).Noisy(R.Length)
    requires Value(P) == Serial(X.Length, p, SensorsOf(H, R, SensorsUsed), m)
    requires X[..] == SerialState(X.Length, x, p, SensorsOf(H, R, SensorsUsed), Innovations(Z, Y), m)
    modifies P, X, K
    ensures var s := SensorsOf(H, R, SensorsUsed);
            && Value(P) == Serial(X.Length, p, s, m + 1)
            && X[..] == SerialState(X.Length, x, p, s, Innovations(Z, Y), m + 1)
            && Column(K, m) == (if m in s.used then SerialGain(X.Length, p, s, m) else old(Column(K, m)))
            && forall c :: 0 <= c < R.Length && c != m ==> Column(K, c) == old(Column(K, c))
  {
    ghost var s, e := SensorsOf(H, R, SensorsUsed), Innovations(Z, Y);
    if Used(SensorsUsed, m) {
      assert s.Row(m) == Value(H)[m] && V(s.R, m) == R[m] && V(e, m) == Z[m] - Y[m];
      SerialUnfold(X.Length, p, s, x, e, m);
      ProcessMeasurement(H, R, Z, Y, P, X, K, m, s.Row(m), V(e, m));
    }
  }

  /** The update of covariance, state and gain matrix by all used measurements. */
  method SerialUpdate(H: array2<real>, R: array<real>, Z: array<real>, Y: array<real>,
                      P: array2<real>, X: array<real>, K: array2<real>, SensorsUsed: bv16)
    requires P.Length0 == P.Length1 == K.Length0 == H.Length1 == X.Length
    requires H.Length0 == K.Length1 == R.Length == Z.Length == Y.Length
    requires P != K && P != H && K != H && X != R && X != Z && X != Y
    requires Covariance(X.Length, Value(P)) && SensorsOf(H, R, SensorsUsed).Noisy(R.Length)
    modifies P, X, K
    ensures var s, p := SensorsOf(H, R, SensorsUsed), old(Value(P));
            && Value(P) == Serial(X.Length, p, s, R.Length)
            && X[..] == SerialState(X.Length, old(X[..]), p, s, Innovations(Z, Y), R.Length)
            && forall m :: 0 <= m < R.Length ==>
                 Column(K, m) == if m in s.used then SerialGain(X.Length, p, s, m) else old(Column(K, m))
  {
    var n := X.Length;
    ghost var s, p, x, e := SensorsOf(H, R, SensorsUsed), Value(P), X[..], Innovations(Z, Y);
    for m := 0 to R.Length
      invariant SensorsOf(H, R, SensorsUsed) == s && Innovations(Z, Y) == e
      invariant Value(P) == Serial(n, p, s, m)
      invariant X[..] == SerialState(n, x, p, s, e, m)
      invariant forall c :: 0 <= c < R.Length ==>
        Column(K, c) == if c < m && c in s.used then SerialGain(n, p, s, c) else old(Column(K, c))
    {
      ProcessIfUsed(H, R, Z, Y, P, X, K, SensorsUsed, m, p, x);
    }
  }
}
