/**
  Runs of the covariance part of the filter: initialisation, resets of position and velocity,
  predictions and corrections in any order.
 */
module FilterRuns {
  import opened Linear
  import opened Forms
  import opened Congruence
  import opened KalmanUpdate
  import opened BatchGain
  import opened CovariancePrediction

  /** Initial variances of position, velocity, quaternion and gyro bias. */
  function InitialVariance(i: int): real {
    if i < 3 then 25.0 else if i < 6 then 5.0 else 0.00001
  }

  ghost function Variances(n: nat, kept: int): (r: Vec)
    ensures |r| == n
    ensures forall i {:trigger V(r, i)} :: 0 <= i < n ==> V(r, i) == if i < kept then InitialVariance(i) else 0.0
  {
    seq(n, i => if i < kept then InitialVariance(i) else 0.0)
  }

  ghost function InitialCovariance(n: nat): Mat {
    Diagonal(n, Variances(n, n))
  }

  lemma InitialIsCovariance(n: nat)
    ensures Covariance(n, InitialCovariance(n))
  {
    DiagonalCovariance(n, Variances(n, n));
  }

  /** The covariance after a reset of position and velocity: their block is the initial one, and
      they are uncorrelated with everything else. */
  ghost function ResetCovariance(n: nat, P: Mat): (r: Mat)
    ensures Shape(r, n, n)
    ensures forall i, j {:trigger At(r, i, j)} :: 0 <= i < n && 0 <= j < n ==>
      At(r, i, j) == if i >= 6 && j >= 6 then At(P, i, j) else if i == j then InitialVariance(i) else 0.0
  {
    seq(n, i => seq(n, j => if i >= 6 && j >= 6 then At(P, i, j) else if i == j then InitialVariance(i) else 0.0))
  }

  /** The projection that forgets position and velocity. */
  ghost function Forget(n: nat): (r: Mat)
    ensures |r| == n
    ensures forall i {:trigger Row(r, i)} :: 0 <= i < n ==> Row(r, i) == if i < 6 then Zero(n) else Unit(n, i)
  {
    seq(n, i => if i < 6 then Zero(n) else Unit(n, i))
  }

  lemma ForgottenEntry(n: nat, P: Mat, i: int, j: int)
    requires 0 <= i < n && 0 <= j < n
    ensures At(Transformed(n, P, n, Forget(n)), i, j) == if i >= 6 && j >= 6 then At(P, i, j) else 0.0
  {
    var x, y := Row(Forget(n), i), Row(Forget(n), j);
    if i < 6 {
      DotZero(n, Mul(n, P, y));
    } else if j < 6 {
      MulZero(n, P);
      DotZero(n, x);
    } else {
      UnitForm(n, P, i, j);
    }
  }

  lemma ResetIsSymmetric(n: nat, P: Mat)
    requires Symmetric(n, P)
    ensures Symmetric(n, ResetCovariance(n, P))
  {
    forall i, j | 0 <= i < n && 0 <= j < n
      ensures At(ResetCovariance(n, P), i, j) == At(ResetCovariance(n, P), j, i)
    {
      assert At(P, i, j) == At(P, j, i);
    }
  }

  lemma ResetIsCovariance(n: nat, P: Mat)
    requires Covariance(n, P)
    ensures Covariance(n, ResetCovariance(n, P))
  {
    var A, D := Transformed(n, P, n, Forget(n)), Diagonal(n, Variances(n, 6));
    TransformedCovariance(n, P, n, Forget(n));
    DiagonalCovariance(n, Variances(n, 6));
    PlusScaledCovariance(n, A, 1.0, D);
    forall i, j | 0 <= i < n && 0 <= j < n
      ensures At(ResetCovariance(n, P), i, j) == At(PlusScaled(n, A, 1.0, D), i, j)
    {
      ForgottenEntry(n, P, i, j);
      PlusScaledEntry(n, A, 1.0, D, i, j);
    }
    MatExt(ResetCovariance(n, P), PlusScaled(n, A, 1.0, D), n, n);
  }

  // ------------------------------------------------------------------ runs

  datatype Operation =
    | Init
    | Reset
    | Predict(F: Mat, G: Mat, Q: Vec, dT: real)
    | Correct(s: Sensors)
  {
    /** Noise variances are not negative, and positive for the sensors in use. */
    ghost predicate Admissible(w: nat, v: nat) {
      match this
      case Predict(_, _, q, _) => forall k :: 0 <= k < w ==> V(q, k) >= 0.0
      case Correct(s) => s.Noisy(v)
      case _ => true
    }

    /** The covariance after the operation. */
    ghost function Apply(n: nat, w: nat, v: nat, P: Mat): (r: Mat)
      requires Covariance(n, P) && Admissible(w, v)
      ensures Covariance(n, r)
    {
      match this
      case Init => InitialIsCovariance(n); InitialCovariance(n)
      case Reset => ResetIsCovariance(n, P); ResetCovariance(n, P)
      case Predict(f, g, q, t) => PredictedCovariance(n, w, P, f, g, q, t); Predicted(n, w, P, f, g, q, t)
      case Correct(s) => Serial(n, P, s, v)
    }
  }

  /** The covariance after a sequence of operations on a freshly initialised filter. */
  ghost function Run(n: nat, w: nat, v: nat, ops: seq<Operation>): (r: Mat)
    requires forall op :: op in ops ==> op.Admissible(w, v)
    ensures Covariance(n, r)
  {
    if ops == [] then
      InitialIsCovariance(n);
      InitialCovariance(n)
    else
      ops[|ops| - 1].Apply(n, w, v, Run(n, w, v, ops[..|ops| - 1]))
  }

  /** In every run, every correction divides only by numbers of at least the noise variance of the
      sensor, reaches the covariance of the batch equation, and increases no variance. */
  lemma EveryCorrection(n: nat, w: nat, v: nat, ops: seq<Operation>, k: nat, s: Sensors)
    requires forall op :: op in ops ==> op.Admissible(w, v)
    requires k < |ops| && ops[k] == Correct(s)
    ensures var P, P' := Run(n, w, v, ops[..k]), Run(n, w, v, ops[..k + 1]);
            && s.Noisy(v)
            && (forall m :: 0 <= m < v && m in s.used ==> Divisor(n, P, s, m) >= V(s.R, m) > 0.0)
            && (forall y: Vec :: Mul(n, P', Informed(n, P, s, v, y)) == Mul(n, P, y))
            && (forall x: Vec :: 0.0 <= Bil(n, P', x, x) <= Bil(n, P, x, x))
  {
    var P, P' := Run(n, w, v, ops[..k]), Run(n, w, v, ops[..k + 1]);
    assert ops[k].Admissible(w, v);
    assert ops[..k + 1][..k] == ops[..k];
    assert P' == Serial(n, P, s, v);
    forall y: Vec
      ensures Mul(n, P', Informed(n, P, s, v, y)) == Mul(n, P, y)
    {
      BatchCovariance(n, P, s, v, y);
    }
    forall x: Vec
      ensures 0.0 <= Bil(n, P', x, x) <= Bil(n, P, x, x)
    {
      FormShrinks(n, P, s, 0, v, x);
    }
  }
}
