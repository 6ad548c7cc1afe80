/**
  When a correction can leave a zero quaternion: the attitude after the serial update is the
  attitude before it plus the attitude parts of the gain columns, each times an innovation.
 */
module AttitudeLoss {
  import opened Linear
  import opened Forms
  import opened KalmanUpdate
  import opened Quaternions
  import opened StateModel

  const ZERO: Quat := Quat(0.0, 0.0, 0.0, 0.0)

  // ------------------------------------------------------------------ combinations of columns

  /** The sum of the columns with the coefficients c. */
  function Combination(cols: seq<Quat>, c: Vec): Quat {
    if cols == [] then ZERO
    else Combination(cols[..|cols| - 1], c).Plus(cols[|cols| - 1].Scale(V(c, |cols| - 1)))
  }

  /** Some combination of the columns takes q to zero. */
  ghost predicate Cancels(q: Quat, cols: seq<Quat>) {
    exists c: Vec :: q.Plus(Combination(cols, c)) == ZERO
  }

  function Coord(v: Quat, p: int): real {
    if p == 0 then v.w else if p == 1 then v.x else if p == 2 then v.y else v.z
  }

  /** The first entry that is not zero. */
  function Pivot(k: Quat): (p: int)
    requires k != ZERO
    ensures 0 <= p < 4 && Coord(k, p) != 0.0
  {
    if k.w != 0.0 then 0 else if k.x != 0.0 then 1 else if k.y != 0.0 then 2 else 3
  }

  function Ratio(v: Quat, k: Quat, p: int): real
    requires Coord(k, p) != 0.0
  {
    Coord(v, p) / Coord(k, p)
  }

  function Minus(v: Quat, k: Quat, a: real): Quat {
    v.Plus(k.Scale(-a))
  }

  /** v minus the multiple of k that makes its entry p zero. */
  function Reduced(v: Quat, k: Quat, p: int): Quat
    requires Coord(k, p) != 0.0
  {
    Minus(v, k, Ratio(v, k, p))
  }

  function AllReduced(cols: seq<Quat>, k: Quat, p: int): (r: seq<Quat>)
    requires Coord(k, p) != 0.0
    ensures |r| == |cols| && forall i :: 0 <= i < |r| ==> r[i] == Reduced(cols[i], k, p)
  {
    seq(|cols|, i requires 0 <= i < |cols| => Reduced(cols[i], k, p))
  }

  /** Whether q is a combination of the columns, by elimination of one column after the other. */
  predicate Eliminated(q: Quat, cols: seq<Quat>)
    decreases |cols|
  {
    if cols == [] then q == ZERO
    else
      var k, rest := cols[|cols| - 1], cols[..|cols| - 1];
      if k == ZERO then Eliminated(q, rest)
      else Eliminated(Reduced(q, k, Pivot(k)), AllReduced(rest, k, Pivot(k)))
  }

  // ------------------------------------------------------------------ elimination is exact

  lemma ReducedSum(u: Quat, v: Quat, k: Quat, p: int)
    requires Coord(k, p) != 0.0
    ensures Reduced(u.Plus(v), k, p) == Reduced(u, k, p).Plus(Reduced(v, k, p))
  {
    RatioSum(u, v, k, p);
    MinusSum(u, v, k, Ratio(u, k, p), Ratio(v, k, p), Ratio(u.Plus(v), k, p));
  }

  lemma RatioSum(u: Quat, v: Quat, k: Quat, p: int)
    requires Coord(k, p) != 0.0
    ensures Ratio(u.Plus(v), k, p) == Ratio(u, k, p) + Ratio(v, k, p)
  {
    SumOfQuotients(Coord(u, p), Coord(v, p), Coord(k, p), Coord(u.Plus(v), p));
  }

  lemma SumOfQuotients(a: real, b: real, d: real, s: real)
    requires d != 0.0 && s == a + b
    ensures s / d == a / d + b / d
  {
  }

  lemma MinusSum(u: Quat, v: Quat, k: Quat, a: real, b: real, c: real)
    requires c == a + b
    ensures Minus(u.Plus(v), k, c) == Minus(u, k, a).Plus(Minus(v, k, b))
  {
    Spread(u.w, v.w, k.w, a, b, c);
    Spread(u.x, v.x, k.x, a, b, c);
    Spread(u.y, v.y, k.y, a, b, c);
    Spread(u.z, v.z, k.z, a, b, c);
  }

  lemma Spread(u: real, v: real, k: real, a: real, b: real, c: real)
    requires c == a + b
    ensures u + v + Times(-c, k) == u + Times(-a, k) + (v + Times(-b, k))
  {
  }

  lemma ReducedScaled(v: Quat, t: real, k: Quat, p: int)
    requires Coord(k, p) != 0.0
    ensures Reduced(v.Scale(t), k, p) == Reduced(v, k, p).Scale(t)
  {
    RatioScaled(v, t, k, p);
    MinusScaled(v, t, k, Ratio(v, k, p), Ratio(v.Scale(t), k, p));
  }

  lemma RatioScaled(v: Quat, t: real, k: Quat, p: int)
    requires Coord(k, p) != 0.0
    ensures Ratio(v.Scale(t), k, p) == Times(t, Ratio(v, k, p))
  {
    ScaledQuotient(t, Coord(v, p), Coord(k, p), Coord(v.Scale(t), p));
  }

  lemma ScaledQuotient(t: real, a: real, d: real, b: real)
    requires d != 0.0 && b == Times(t, a)
    ensures b / d == Times(t, a / d)
  {
    var y := a / d;
    RatioTimes(a, d);
    Regroup(t, y, d);
    QuotientIs(b, d, Times(t, y));
  }

  lemma Regroup(t: real, y: real, d: real)
    ensures Times(Times(t, y), d) == Times(t, Times(y, d))
  {
  }

  lemma QuotientIs(b: real, d: real, z: real)
    requires d != 0.0 && Times(z, d) == b
    ensures b / d == z
  {
  }

  lemma MinusScaled(v: Quat, t: real, k: Quat, a: real, b: real)
    requires b == Times(t, a)
    ensures Minus(v.Scale(t), k, b) == Minus(v, k, a).Scale(t)
  {
    ScaledEntry(v.w, t, k.w, a, b);
    ScaledEntry(v.x, t, k.x, a, b);
    ScaledEntry(v.y, t, k.y, a, b);
    ScaledEntry(v.z, t, k.z, a, b);
  }

  lemma ScaledEntry(v: real, t: real, k: real, a: real, b: real)
    requires b == Times(t, a)
    ensures Times(t, v) + Times(-b, k) == Times(t, v + Times(-a, k))
  {
  }

  lemma SelfQuotient(a: real)
    requires a != 0.0
    ensures a / a == 1.0
  {
  }

  lemma ReducedItself(k: Quat, p: int)
    requires Coord(k, p) != 0.0
    ensures Reduced(k, k, p) == ZERO
  {
    SelfQuotient(Coord(k, p));
  }

  lemma {:induction false} ReducedCombination(cols: seq<Quat>, c: Vec, k: Quat, p: int)
    requires Coord(k, p) != 0.0
    ensures Reduced(Combination(cols, c), k, p) == Combination(AllReduced(cols, k, p), c)
  {
    var r := AllReduced(cols, k, p);
    if cols == [] {
      assert Reduced(ZERO, k, p) == ZERO by {
        ReducedScaled(ZERO, 0.0, k, p);
      }
    } else {
      var n := |cols| - 1;
      ReducedCombination(cols[..n], c, k, p);
      assert r[..n] == AllReduced(cols[..n], k, p);
      ReducedSum(Combination(cols[..n], c), cols[n].Scale(V(c, n)), k, p);
      ReducedScaled(cols[n], V(c, n), k, p);
    }
  }

  /** The coefficients of the first columns only. */
  lemma {:induction false} SameCoefficients(cols: seq<Quat>, c: Vec, d: Vec)
    requires forall i :: 0 <= i < |cols| ==> V(c, i) == V(d, i)
    ensures Combination(cols, c) == Combination(cols, d)
  {
    if cols != [] {
      SameCoefficients(cols[..|cols| - 1], c, d);
    }
  }

  lemma {:induction false} CancelsIffEliminated(q: Quat, cols: seq<Quat>)
    ensures Cancels(q, cols) <==> Eliminated(q, cols)
    decreases |cols|
  {
    if cols == [] {
      assert q.Plus(Combination(cols, [])) == q;
      if Cancels(q, cols) {
        var c: Vec :| q.Plus(Combination(cols, c)) == ZERO;
        assert q.Plus(ZERO) == q;
      }
    } else {
      var n := |cols| - 1;
      var k, rest := cols[n], cols[..n];
      if k == ZERO {
        CancelsIffEliminated(q, rest);
        ZeroColumn(q, cols);
      } else {
        var p := Pivot(k);
        CancelsIffEliminated(Reduced(q, k, p), AllReduced(rest, k, p));
        if Cancels(q, cols) {
          CancelsReduced(q, cols, p);
        }
        if Cancels(Reduced(q, k, p), AllReduced(rest, k, p)) {
          CancelsBack(q, cols, p);
        }
      }
    }
  }

  lemma ZeroColumn(q: Quat, cols: seq<Quat>)
    requires cols != [] && cols[|cols| - 1] == ZERO
    ensures Cancels(q, cols) <==> Cancels(q, cols[..|cols| - 1])
  {
    var rest := cols[..|cols| - 1];
    forall c: Vec
      ensures Combination(cols, c) == Combination(rest, c)
    {
      ZeroScaled(Combination(rest, c), V(c, |cols| - 1));
    }
  }

  lemma ZeroScaled(v: Quat, t: real)
    ensures v.Plus(ZERO.Scale(t)) == v
  {
  }

  lemma CancelsReduced(q: Quat, cols: seq<Quat>, p: int)
    requires cols != [] && Coord(cols[|cols| - 1], p) != 0.0 && Cancels(q, cols)
    ensures Cancels(Reduced(q, cols[|cols| - 1], p), AllReduced(cols[..|cols| - 1], cols[|cols| - 1], p))
  {
    var n := |cols| - 1;
    var k, rest := cols[n], cols[..n];
    var c: Vec :| q.Plus(Combination(cols, c)) == ZERO;
    var s := Combination(rest, c);
    ReducedSum(q, Combination(cols, c), k, p);
    ReducedSum(s, k.Scale(V(c, n)), k, p);
    ReducedScaled(k, V(c, n), k, p);
    ReducedItself(k, p);
    ReducedCombination(rest, c, k, p);
    ZeroScaled(Reduced(s, k, p), V(c, n));
    ReducedScaled(ZERO, 0.0, k, p);
    assert Reduced(ZERO, k, p) == ZERO;
    assert Reduced(q, k, p).Plus(Combination(AllReduced(rest, k, p), c)) == ZERO;
  }

  lemma CancelsBack(q: Quat, cols: seq<Quat>, p: int)
    requires cols != [] && Coord(cols[|cols| - 1], p) != 0.0
    requires Cancels(Reduced(q, cols[|cols| - 1], p), AllReduced(cols[..|cols| - 1], cols[|cols| - 1], p))
    ensures Cancels(q, cols)
  {
    var n := |cols| - 1;
    var k, rest := cols[n], cols[..n];
    var c: Vec :| Reduced(q, k, p).Plus(Combination(AllReduced(rest, k, p), c)) == ZERO;
    var e: Vec, t := seq(n, i => V(c, i)), -Ratio(q.Plus(Combination(rest, c)), k, p);
    ReducedBack(q, rest, k, p, c);
    SameCoefficients(rest, c, e);
    AppendColumn(rest, k, e, t);
    assert rest + [k] == cols;
    PlusAssociates(q, Combination(rest, c), k.Scale(t));
    assert q.Plus(Combination(cols, e + [t])) == ZERO;
  }

  lemma ReducedBack(q: Quat, rest: seq<Quat>, k: Quat, p: int, c: Vec)
    requires Coord(k, p) != 0.0 && Reduced(q, k, p).Plus(Combination(AllReduced(rest, k, p), c)) == ZERO
    ensures var v := q.Plus(Combination(rest, c)); v.Plus(k.Scale(-Ratio(v, k, p))) == ZERO
  {
    ReducedSum(q, Combination(rest, c), k, p);
    ReducedCombination(rest, c, k, p);
  }

  lemma PlusAssociates(a: Quat, b: Quat, c: Quat)
    ensures a.Plus(b.Plus(c)) == a.Plus(b).Plus(c)
  {
  }

  /** All two-by-two minors of the pair vanish. */
  predicate Parallel(q: Quat, k: Quat) {
    && Minor(q.w, k.x, q.x, k.w) && Minor(q.w, k.y, q.y, k.w) && Minor(q.w, k.z, q.z, k.w)
    && Minor(q.x, k.y, q.y, k.x) && Minor(q.x, k.z, q.z, k.x) && Minor(q.y, k.z, q.z, k.y)
  }

  predicate Minor(a: real, b: real, c: real, d: real) {
    Times(a, b) == Times(c, d)
  }

  /** For one column the elimination is a matter of minors. */
  lemma OneColumn(q: Quat, k: Quat)
    ensures Eliminated(q, [k]) <==> if k == ZERO then q == ZERO else Parallel(q, k)
  {
    assert [k][..0] == [];
    if k != ZERO {
      var p := Pivot(k);
      assert AllReduced([], k, p) == [];
      RatioTimes(Coord(q, p), Coord(k, p));
      if Parallel(q, k) {
        ParallelCancels(q, k, p, Ratio(q, k, p));
      } else if Reduced(q, k, p) == ZERO {
        CancelledIsScaled(q, k, Ratio(q, k, p));
        ScaledMinors(k, Ratio(q, k, p), q);
      }
    }
  }

  lemma RatioTimes(a: real, d: real)
    requires d != 0.0
    ensures Times(a / d, d) == a
  {
  }

  lemma ParallelCancels(q: Quat, k: Quat, p: int, t: real)
    requires Parallel(q, k) && 0 <= p < 4 && Coord(k, p) != 0.0 && Times(t, Coord(k, p)) == Coord(q, p)
    ensures Minus(q, k, t) == ZERO
  {
    MinorEntry(q.w, k.w, Coord(q, p), Coord(k, p), t);
    MinorEntry(q.x, k.x, Coord(q, p), Coord(k, p), t);
    MinorEntry(q.y, k.y, Coord(q, p), Coord(k, p), t);
    MinorEntry(q.z, k.z, Coord(q, p), Coord(k, p), t);
  }

  lemma MinorEntry(a: real, b: real, c: real, d: real, t: real)
    requires d != 0.0 && Times(t, d) == c && Times(a, d) == Times(c, b)
    ensures a + Times(-t, b) == 0.0
  {
    assert (a - t * b) * d == 0.0;
  }

  lemma CancelledIsScaled(q: Quat, k: Quat, t: real)
    requires Minus(q, k, t) == ZERO
    ensures q == k.Scale(t)
  {
  }

  lemma ScaledMinors(k: Quat, t: real, q: Quat)
    requires q == k.Scale(t)
    ensures Parallel(q, k)
  {
  }

  // ------------------------------------------------------------------ the attitude after the serial update

  /** The attitude part of the gain of sensor m. */
  ghost function GainPart(n: nat, P: Mat, s: Sensors, m: nat): Quat
    requires Covariance(n, P) && s.Noisy(m + 1) && m in s.used
  {
    Attitude(SerialGain(n, P, s, m))
  }

  /** The attitude gains of the used sensors in the set. */
  ghost function Columns(n: nat, P: Mat, s: Sensors, free: set<int>, m: nat): (r: seq<Quat>)
    requires Covariance(n, P) && s.Noisy(m)
    ensures |r| == Rank(s, free, m)
  {
    if m == 0 then []
    else if m - 1 in s.used && m - 1 in free then Columns(n, P, s, free, m - 1) + [GainPart(n, P, s, m - 1)]
    else Columns(n, P, s, free, m - 1)
  }

  ghost function Rank(s: Sensors, free: set<int>, m: nat): nat {
    if m == 0 then 0 else Rank(s, free, m - 1) + if m - 1 in s.used && m - 1 in free then 1 else 0
  }

  /** The attitude with the innovations of the other used sensors taken in. */
  ghost function WithOthers(n: nat, X: Vec, P: Mat, s: Sensors, e: Vec, free: set<int>, m: nat): Quat
    requires Covariance(n, P) && s.Noisy(m)
  {
    if m == 0 then Attitude(X)
    else if m - 1 in s.used && m - 1 !in free then
      WithOthers(n, X, P, s, e, free, m - 1).Plus(GainPart(n, P, s, m - 1).Scale(V(e, m - 1)))
    else WithOthers(n, X, P, s, e, free, m - 1)
  }

  /** The innovations of the used sensors in the set. */
  ghost function Coefficients(s: Sensors, free: set<int>, e: Vec, m: nat): (r: Vec)
    ensures |r| == Rank(s, free, m)
  {
    if m == 0 then []
    else if m - 1 in s.used && m - 1 in free then Coefficients(s, free, e, m - 1) + [V(e, m - 1)]
    else Coefficients(s, free, e, m - 1)
  }

  lemma CombAttitude(n: nat, x: Vec, t: real, k: Vec)
    requires n > 9
    ensures Attitude(Comb(n, 1.0, x, t, k)) == Attitude(x).Plus(Attitude(k).Scale(t))
  {
  }

  lemma {:induction false} StateAttitude(n: nat, X: Vec, P: Mat, s: Sensors, e: Vec, free: set<int>, m: nat)
    requires n > 9 && Covariance(n, P) && s.Noisy(m)
    ensures Attitude(SerialState(n, X, P, s, e, m)) ==
            WithOthers(n, X, P, s, e, free, m).Plus(Combination(Columns(n, P, s, free, m), Coefficients(s, free, e, m)))
  {
    if m == 0 {
      PlusZero(Attitude(X));
    } else {
      StateAttitude(n, X, P, s, e, free, m - 1);
      if m - 1 in s.used {
        CombAttitude(n, SerialState(n, X, P, s, e, m - 1), V(e, m - 1), SerialGain(n, P, s, m - 1));
        var o, cols := WithOthers(n, X, P, s, e, free, m - 1), Columns(n, P, s, free, m - 1);
        var c, d := Coefficients(s, free, e, m - 1), GainPart(n, P, s, m - 1).Scale(V(e, m - 1));
        if m - 1 in free {
          AppendColumn(cols, GainPart(n, P, s, m - 1), c, V(e, m - 1));
          PlusAssociates(o, Combination(cols, c), d);
        } else {
          PlusCommutes(o, Combination(cols, c), d);
        }
      }
    }
  }

  lemma AppendColumn(cols: seq<Quat>, k: Quat, c: Vec, t: real)
    requires |c| == |cols|
    ensures Combination(cols + [k], c + [t]) == Combination(cols, c).Plus(k.Scale(t))
  {
    SameCoefficients(cols, c + [t], c);
    assert (cols + [k])[..|cols|] == cols;
  }

  lemma PlusZero(q: Quat)
    ensures q.Plus(ZERO) == q
  {
  }

  lemma PlusCommutes(a: Quat, b: Quat, c: Quat)
    ensures a.Plus(b).Plus(c) == a.Plus(c).Plus(b)
  {
  }

  ghost predicate Agree(e: Vec, e': Vec, free: set<int>, count: nat) {
    forall m :: 0 <= m < count && m !in free ==> V(e, m) == V(e', m)
  }

  lemma {:induction false} SameOthers(n: nat, X: Vec, P: Mat, s: Sensors, e: Vec, e': Vec, free: set<int>, m: nat)
    requires Covariance(n, P) && s.Noisy(m) && Agree(e, e', free, m)
    ensures WithOthers(n, X, P, s, e, free, m) == WithOthers(n, X, P, s, e', free, m)
  {
    if m > 0 {
      SameOthers(n, X, P, s, e, e', free, m - 1);
    }
  }

  /** Innovations that have the coefficients c for the sensors in the set. */
  ghost function Chosen(s: Sensors, free: set<int>, e: Vec, c: Vec, count: nat): (r: Vec)
    ensures |r| == count
  {
    seq(count, m requires 0 <= m < count => if m in s.used && m in free then V(c, Rank(s, free, m)) else V(e, m))
  }

  lemma ChosenAt(s: Sensors, free: set<int>, e: Vec, c: Vec, count: nat, m: nat)
    requires m < count
    ensures V(Chosen(s, free, e, c, count), m) == if m in s.used && m in free then V(c, Rank(s, free, m)) else V(e, m)
  {
  }

  /** d has the coefficients c for the sensors in the set. */
  ghost predicate HasCoefficients(s: Sensors, free: set<int>, d: Vec, c: Vec, count: nat) {
    forall m: nat {:trigger V(d, m)} :: m < count && m in s.used && m in free ==> V(d, m) == V(c, Rank(s, free, m))
  }

  lemma {:induction false} CoefficientIs(s: Sensors, free: set<int>, d: Vec, c: Vec, count: nat, m: nat, i: nat)
    requires HasCoefficients(s, free, d, c, count) && m <= count && i < Rank(s, free, m)
    ensures V(Coefficients(s, free, d, m), i) == V(c, i)
  {
    if m - 1 in s.used && m - 1 in free {
      CoefficientAt(s, free, d, m, i);
      if i < Rank(s, free, m - 1) {
        CoefficientIs(s, free, d, c, count, m - 1, i);
      }
    } else {
      CoefficientIs(s, free, d, c, count, m - 1, i);
    }
  }

  lemma CoefficientAt(s: Sensors, free: set<int>, d: Vec, m: nat, i: nat)
    requires m > 0 && m - 1 in s.used && m - 1 in free && i < Rank(s, free, m)
    ensures V(Coefficients(s, free, d, m), i) ==
            if i < Rank(s, free, m - 1) then V(Coefficients(s, free, d, m - 1), i) else V(d, m - 1)
    ensures i >= Rank(s, free, m - 1) ==> i == Rank(s, free, m - 1)
  {
  }

  lemma ChosenAgrees(s: Sensors, free: set<int>, e: Vec, c: Vec, count: nat)
    ensures Agree(Chosen(s, free, e, c, count), e, free, count)
  {
  }

  /** Some innovations of the sensors in the set lead to the zero quaternion. */
  ghost predicate CanVanish(n: nat, X: Vec, P: Mat, s: Sensors, e: Vec, free: set<int>, count: nat)
    requires Covariance(n, P) && s.Noisy(count)
  {
    exists d: Vec :: Agree(d, e, free, count) && Attitude(SerialState(n, X, P, s, d, count)) == ZERO
  }

  /** With the innovations of the other sensors given, the serial update can lead to the zero quaternion
      exactly when the attitude with those taken in is a combination of the attitude gains of the set. */
  lemma CanVanishIff(n: nat, X: Vec, P: Mat, s: Sensors, e: Vec, free: set<int>, count: nat)
    requires n > 9 && Covariance(n, P) && s.Noisy(count)
    ensures CanVanish(n, X, P, s, e, free, count) <==>
            Eliminated(WithOthers(n, X, P, s, e, free, count), Columns(n, P, s, free, count))
  {
    var q, cols := WithOthers(n, X, P, s, e, free, count), Columns(n, P, s, free, count);
    CancelsIffEliminated(q, cols);
    if CanVanish(n, X, P, s, e, free, count) {
      var d: Vec :| Agree(d, e, free, count) && Attitude(SerialState(n, X, P, s, d, count)) == ZERO;
      StateAttitude(n, X, P, s, d, free, count);
      SameOthers(n, X, P, s, d, e, free, count);
      assert q.Plus(Combination(cols, Coefficients(s, free, d, count))) == ZERO;
    }
    if Cancels(q, cols) {
      var c: Vec :| q.Plus(Combination(cols, c)) == ZERO;
      var d := Chosen(s, free, e, c, count);
      ChosenAgrees(s, free, e, c, count);
      forall m: nat | m < count && m in s.used && m in free
        ensures V(d, m) == V(c, Rank(s, free, m))
      {
        ChosenAt(s, free, e, c, count, m);
      }
      forall i: nat | i < |cols|
        ensures V(Coefficients(s, free, d, count), i) == V(c, i)
      {
        CoefficientIs(s, free, d, c, count, count, i);
      }
      SameCoefficients(cols, Coefficients(s, free, d, count), c);
      StateAttitude(n, X, P, s, d, free, count);
      SameOthers(n, X, P, s, d, e, free, count);
    }
  }

  /** One sensor of the set and no other: every innovation keeps the quaternion from vanishing exactly when it
      is not parallel to the attitude part of P h. */
  lemma OneSensorVanishesIff(n: nat, X: Vec, P: Mat, s: Sensors, e: Vec, count: nat, m: nat)
    requires n > 9 && Covariance(n, P) && s.Noisy(count) && m < count && s.used == {m}
    ensures CanVanish(n, X, P, s, e, {m}, count) <==>
            var k := Attitude(Mul(n, P, s.Row(m))); if k == ZERO then Attitude(X) == ZERO else Parallel(Attitude(X), k)
  {
    CanVanishIff(n, X, P, s, e, {m}, count);
    OnlyColumn(n, X, P, s, e, count, m);
    OneColumn(Attitude(X), GainPart(n, P, s, m));
    SameDirection(n, P, s, m, Attitude(X));
  }

  lemma {:induction false} OnlyColumn(n: nat, X: Vec, P: Mat, s: Sensors, e: Vec, count: nat, m: nat)
    requires Covariance(n, P) && s.Noisy(count) && s.used == {m}
    ensures WithOthers(n, X, P, s, e, {m}, count) == Attitude(X)
    ensures Columns(n, P, s, {m}, count) == if m < count then [GainPart(n, P, s, m)] else []
  {
    if count > 0 {
      OnlyColumn(n, X, P, s, e, count - 1, m);
    }
  }

  lemma {:induction false} NothingYet(n: nat, P: Mat, s: Sensors, m: nat)
    requires Covariance(n, P) && s.Noisy(m) && forall k :: 0 <= k < m ==> k !in s.used
    ensures Serial(n, P, s, m) == P
  {
    if m > 0 {
      NothingYet(n, P, s, m - 1);
    }
  }

  /** The gain of the first used sensor is a positive multiple of P h. */
  lemma SameDirection(n: nat, P: Mat, s: Sensors, m: nat, q: Quat)
    requires n > 9 && Covariance(n, P) && s.Noisy(m + 1) && s.used == {m}
    ensures var g, k := GainPart(n, P, s, m), Attitude(Mul(n, P, s.Row(m)));
            && (g == ZERO <==> k == ZERO) && (Parallel(q, g) <==> Parallel(q, k))
  {
    NothingYet(n, P, s, m);
    var k, d := Attitude(Mul(n, P, s.Row(m))), Innovation(n, P, s.Row(m), V(s.R, m));
    InnovationPositive(n, P, s.Row(m), V(s.R, m));
    GainDirection(n, Mul(n, P, s.Row(m)), 1.0 / d);
    PositiveInverse(d);
    ScaledDirection(q, k, 1.0 / d);
  }

  lemma PositiveInverse(d: real)
    requires d > 0.0
    ensures 1.0 / d > 0.0
  {
  }

  lemma GainDirection(n: nat, k: Vec, a: real)
    requires n > 9
    ensures Attitude(Comb(n, a, k, 0.0, Zero(n))) == Attitude(k).Scale(a)
  {
  }

  lemma ScaledDirection(q: Quat, k: Quat, a: real)
    requires a > 0.0
    ensures (k.Scale(a) == ZERO <==> k == ZERO) && (Parallel(q, k.Scale(a)) <==> Parallel(q, k))
  {
    ScaledZero(k, a);
    MinorsScaled(q, k, k.Scale(a), a);
  }

  lemma ScaledZero(k: Quat, a: real)
    requires a > 0.0
    ensures k.Scale(a) == ZERO <==> k == ZERO
  {
    ZeroEntry(k.w, a);
    ZeroEntry(k.x, a);
    ZeroEntry(k.y, a);
    ZeroEntry(k.z, a);
  }

  lemma MinorsScaled(q: Quat, k: Quat, l: Quat, a: real)
    requires a > 0.0 && l == k.Scale(a)
    ensures Parallel(q, l) <==> Parallel(q, k)
  {
    ScaledMinor(q.w, k.x, l.x, q.x, k.w, l.w, a);
    ScaledMinor(q.w, k.y, l.y, q.y, k.w, l.w, a);
    ScaledMinor(q.w, k.z, l.z, q.z, k.w, l.w, a);
    ScaledMinor(q.x, k.y, l.y, q.y, k.x, l.x, a);
    ScaledMinor(q.x, k.z, l.z, q.z, k.x, l.x, a);
    ScaledMinor(q.y, k.z, l.z, q.z, k.y, l.y, a);
  }

  lemma ZeroEntry(k: real, a: real)
    requires a > 0.0
    ensures Times(a, k) == 0.0 <==> k == 0.0
  {
  }

  lemma ScaledMinor(p: real, k: real, k': real, q: real, l: real, l': real, a: real)
    requires a > 0.0 && k' == Times(a, k) && l' == Times(a, l)
    ensures Minor(p, k', q, l') <==> Minor(p, k, q, l)
  {
    assert Times(p, k') - Times(q, l') == Times(a, p * k - q * l);
    ZeroEntry(p * k - q * l, a);
  }
}
