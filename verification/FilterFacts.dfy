/**
  The two altitude sensors: where the state of the serial update is not the batch estimate.
 */
module FilterFacts {
  import opened Linear
  import opened Forms
  import opened KalmanUpdate
  import opened BatchGain
  import opened Quaternions
  import opened Linearization

  // ------------------------------------------------------------------ vertical position twice

  lemma RowHUnit(n: nat, x: Vec, be: Vec3, y: Vec, i: int)
    requires StateCount(n) && (i == 2 || i == 9)
    ensures Dot(n, Row(JacobianH(x, be), i), y) == if i == 2 then V(y, 2) else -V(y, 2)
  {
    RowH(n, x, be, y, i);
  }

  /** The GPS altitude and the barometer are correlated by minus the variance of the vertical position. */
  lemma AltitudesCorrelated(n: nat, P: Mat, x: Vec, be: Vec3)
    requires StateCount(n) && Symmetric(n, P)
    ensures Bil(n, P, Row(JacobianH(x, be), 2), Row(JacobianH(x, be), 9)) == -At(P, 2, 2)
  {
    var h := Row(JacobianH(x, be), 9);
    RowHUnit(n, x, be, Mul(n, P, h), 2);
    DotSym(n, Row(P, 2), h);
    RowHUnit(n, x, be, Row(P, 2), 9);
  }

  /** With both altitude sensors in use the state is not the batch estimate for every innovation,
      unless the vertical position is already known exactly. */
  lemma BothAltitudesMissBatchState(n: nat, X: Vec, P: Mat, s: Sensors, count: nat, K: Mat, x: Vec, be: Vec3)
    requires StateCount(n) && 9 < count && Covariance(n, P) && s.Noisy(count) && IsBatchGain(n, P, s, count, K)
    requires s.H == JacobianH(x, be) && 2 in s.used && 9 in s.used
    ensures At(P, 2, 2) != 0.0 ==> !StatesAgree(n, X, P, s, count, K)
  {
    SerialStateIsBatchState(n, X, P, s, count, K);
    AltitudesCorrelated(n, P, x, be);
    assert s.Row(2) == Row(JacobianH(x, be), 2) && s.Row(9) == Row(JacobianH(x, be), 9);
    if Uncorrelated(n, P, s, count) {
      assert Bil(n, P, s.Row(2), s.Row(9)) == 0.0;
    }
  }

  /** ... whereas a single sensor always gives it. */
  lemma OneSensorGivesBatchState(n: nat, X: Vec, P: Mat, s: Sensors, count: nat, K: Mat, m: nat)
    requires Covariance(n, P) && s.Noisy(count) && IsBatchGain(n, P, s, count, K)
    requires s.used == {m}
    ensures StatesAgree(n, X, P, s, count, K)
  {
    SerialStateIsBatchState(n, X, P, s, count, K);
  }
}
