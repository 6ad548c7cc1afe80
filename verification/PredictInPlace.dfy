/**
  The two forms of CovariancePrediction, each overwriting P: the short general loop, which divides
  by dT, and the expanded form, which copies the upper triangle of P and evaluates 91 expressions.
 */
module PredictInPlace {
  import opened Linear
  import opened Forms
  import opened Congruence
  import opened ExpandedEntries
  import opened CovariancePrediction
  import opened SparsePrediction
  import opened SerialUpdate

  // ------------------------------------------------------------------ the general form

  /** Entry (i, j) of P / T + F P. */
  ghost function Half(n: nat, p: Mat, f: Mat, T: real, i: int, j: int): real
    requires T != 0.0
  {
    At(p, i, j) / T + Dot(n, Row(f, i), Row(p, j))
  }

  /** The value the inner loop accumulates for one entry of Dummy. */
  method HalfEntry(F: array2<real>, dT: real, P: array2<real>, i: nat, j: nat) returns (v: real)
    requires P.Length0 == P.Length1 == F.Length0 == F.Length1 && dT != 0.0
    requires i < P.Length0 && j < P.Length0 && Symmetric(P.Length0, Value(P))
    ensures v == Half(P.Length0, Value(P), Value(F), dT, i, j)
  {
    var n := P.Length0;
    ghost var p := Value(P);
    ghost var terms := Products(Row(Value(F), i), Row(p, j));
    v := P[i, j] / dT;
    for k := 0 to n
      invariant v == At(p, i, j) / dT + Sum(k, terms)
    {
      SumStep(k + 1, terms);
      assert At(p, k, j) == At(p, j, k);
      v := v + F[i, k] * P[k, j];
    }
  }

  /** Dummy = P / dT + F P */
  method HalfStep(F: array2<real>, dT: real, P: array2<real>) returns (Dummy: array2<real>)
    requires P.Length0 == P.Length1 == F.Length0 == F.Length1 && dT != 0.0
    requires Symmetric(P.Length0, Value(P))
    ensures fresh(Dummy) && Dummy.Length0 == Dummy.Length1 == P.Length0
    ensures forall i, j :: 0 <= i < P.Length0 && 0 <= j < P.Length0 ==>
      Dummy[i, j] == Half(P.Length0, Value(P), Value(F), dT, i, j)
  {
    var n := P.Length0;
    ghost var p, f := Value(P), Value(F);
    Dummy := new real[n, n];
    for i := 0 to n
      invariant Value(P) == p && Value(F) == f
      invariant forall a, b :: 0 <= a < i && 0 <= b < n ==> Dummy[a, b] == Half(n, p, f, dT, a, b)
    {
      HalfStepRow(F, dT, P, Dummy, i);
    }
  }

  method HalfStepRow(F: array2<real>, dT: real, P: array2<real>, Dummy: array2<real>, i: nat)
    requires P.Length0 == P.Length1 == F.Length0 == F.Length1 == Dummy.Length0 == Dummy.Length1 && dT != 0.0
    requires i < P.Length0 && Symmetric(P.Length0, Value(P)) && Dummy != P && Dummy != F
    modifies Dummy
    ensures forall b :: 0 <= b < P.Length0 ==> Dummy[i, b] == Half(P.Length0, Value(P), Value(F), dT, i, b)
    ensures forall a, b :: 0 <= a < P.Length0 && 0 <= b < P.Length0 && a != i ==> Dummy[a, b] == old(Dummy[a, b])
  {
    for j := 0 to P.Length0
      invariant Value(P) == old(Value(P)) && Value(F) == old(Value(F))
      invariant forall b :: 0 <= b < j ==> Dummy[i, b] == Half(P.Length0, Value(P), Value(F), dT, i, b)
      invariant forall a, b :: 0 <= a < P.Length0 && 0 <= b < P.Length0 && a != i ==> Dummy[a, b] == old(Dummy[a, b])
    {
      Dummy[i, j] := HalfEntry(F, dT, P, i, j);
    }
  }

  /** Entry (i, j) of T^2 ((P / T + F P) / T + (P / T + F P) F' + G Q G'), given Dummy. */
  ghost function Whole(n: nat, w: nat, d: Mat, f: Mat, g: Mat, q: Vec, T: real, i: int, j: int): real
    requires T != 0.0
  {
    Rescaled(At(d, i, j), Dot(n, Row(d, i), Row(f, j)), Sum(w, NoiseTerm(g, q, i, j)), T)
  }

  function Rescaled(h: real, e: real, q: real, T: real): real
    requires T != 0.0
  {
    (h / T + e + q) * (T * T)
  }

  lemma Commute(q: real, a: real, b: real)
    ensures q * a * b == a * b * q
  {
  }

  /** Rows and columns below i of P hold the mirrored upper triangle of e. */
  ghost predicate Done(P: array2<real>, e: (int, int) -> real, i: nat)
    reads P
  {
    forall a, b {:trigger P[a, b]} :: 0 <= a < P.Length0 && 0 <= b < P.Length1 && (a < i || b < i) ==>
      P[a, b] == if a <= b then e(a, b) else e(b, a)
  }

  /** ... and so do the entries of row and column i before j. */
  ghost predicate DoneUpTo(P: array2<real>, e: (int, int) -> real, i: nat, j: nat)
    reads P
  {
    && Done(P, e, i)
    && (forall b {:trigger P[i, b]} :: i <= b < j && i < P.Length0 && b < P.Length1 ==> P[i, b] == e(i, b))
    && (forall b {:trigger P[b, i]} :: i <= b < j && b < P.Length0 && i < P.Length1 ==> P[b, i] == e(i, b))
  }

  /** P[i][j] = P[j][i] = v */
  method Store(P: array2<real>, i: nat, j: nat, v: real, ghost e: (int, int) -> real)
    requires P.Length0 == P.Length1 && i <= j < P.Length0 && v == e(i, j) && DoneUpTo(P, e, i, j)
    modifies P
    ensures DoneUpTo(P, e, i, j + 1)
  {
    P[j, i] := v;
    P[i, j] := P[j, i];
  }

  ghost function WholeTable(n: nat, w: nat, d: Mat, f: Mat, g: Mat, q: Vec, T: real): (int, int) -> real
    requires T != 0.0
  {
    (i, j) => Whole(n, w, d, f, g, q, T, i, j)
  }

  /** The value the first inner loop accumulates for one entry. */
  method WholeDot(F: array2<real>, Dummy: array2<real>, i: nat, j: nat, start: real) returns (v: real)
    requires Dummy.Length0 == Dummy.Length1 == F.Length0 == F.Length1 && i < F.Length0 && j < F.Length0
    ensures v == start + Dot(F.Length0, Row(Value(Dummy), i), Row(Value(F), j))
  {
    ghost var d, f := Value(Dummy), Value(F);
    ghost var terms := Products(Row(d, i), Row(f, j));
    v := start;
    for k := 0 to F.Length0
      invariant v == start + Sum(k, terms)
    {
      SumStep(k + 1, terms);
      assert V(Row(d, i), k) == Dummy[i, k] && V(Row(f, j), k) == F[j, k];
      v := v + Dummy[i, k] * F[j, k];
    }
  }

  /** ... and the second one. */
  method NoiseDot(G: array2<real>, Q: array<real>, i: nat, j: nat, start: real) returns (v: real)
    requires G.Length1 == Q.Length && i < G.Length0 && j < G.Length0
    ensures v == start + Sum(Q.Length, NoiseTerm(Value(G), Q[..], i, j))
  {
    ghost var noise := NoiseTerm(Value(G), Q[..], i, j);
    v := start;
    for k := 0 to Q.Length
      invariant v == start + Sum(k, noise)
    {
      SumStep(k + 1, noise);
      assert noise(k) == At(Value(G), i, k) * At(Value(G), j, k) * V(Q[..], k);
      Commute(Q[k], G[i, k], G[j, k]);
      v := v + Q[k] * G[i, k] * G[j, k];
    }
  }

  method WholeEntry(F: array2<real>, G: array2<real>, Q: array<real>, dT: real, dTsq: real, Dummy: array2<real>,
                    i: nat, j: nat, ghost e: (int, int) -> real) returns (v: real)
    requires Dummy.Length0 == Dummy.Length1 == F.Length0 == F.Length1 == G.Length0 && G.Length1 == Q.Length
    requires i < F.Length0 && j < F.Length0 && dT != 0.0 && dTsq == dT * dT
    requires e == WholeTable(F.Length0, Q.Length, Value(Dummy), Value(F), Value(G), Q[..], dT)
    ensures v == e(i, j)
  {
    v := WholeDot(F, Dummy, i, j, Dummy[i, j] / dT);
    v := NoiseDot(G, Q, i, j, v);
    v := v * dTsq;
  }

  /** Row i of the upper triangle, mirrored into column i. */
  method FinishRow(F: array2<real>, G: array2<real>, Q: array<real>, dT: real, dTsq: real, Dummy: array2<real>,
                   P: array2<real>, i: nat, ghost e: (int, int) -> real)
    requires P.Length0 == P.Length1 == Dummy.Length0 == Dummy.Length1 == F.Length0 == F.Length1 == G.Length0
    requires G.Length1 == Q.Length && i < P.Length0 && dT != 0.0 && dTsq == dT * dT
    requires P != F && P != G && P != Dummy
    requires e == WholeTable(P.Length0, Q.Length, Value(Dummy), Value(F), Value(G), Q[..], dT)
    requires Done(P, e, i)
    modifies P
    ensures Done(P, e, i + 1)
  {
    for j := i to P.Length0
      invariant e == WholeTable(P.Length0, Q.Length, Value(Dummy), Value(F), Value(G), Q[..], dT)
      invariant DoneUpTo(P, e, i, j)
    {
      var v := WholeEntry(F, G, Q, dT, dTsq, Dummy, i, j, e);
      Store(P, i, j, v, e);
    }
  }

  /** The general form: P = (I + F dT) P (I + F dT)' + dT^2 G Q G' */
  method CovariancePredictionGeneral(F: array2<real>, G: array2<real>, Q: array<real>, dT: real, P: array2<real>)
    requires P.Length0 == P.Length1 == F.Length0 == F.Length1 == G.Length0 && G.Length1 == Q.Length
    requires dT != 0.0 && P != F && P != G
    requires Symmetric(P.Length0, Value(P))
    modifies P
    ensures Value(P) == Predicted(P.Length0, Q.Length, old(Value(P)), Value(F), Value(G), Q[..], dT)
  {
    var n := P.Length0;
    ghost var p, f, g, q := Value(P), Value(F), Value(G), Q[..];
    var dTsq := dT * dT;
    var Dummy := HalfStep(F, dT, P);
    ghost var d := Value(Dummy);
    ghost var e := WholeTable(n, Q.Length, d, f, g, q, dT);
    for i := 0 to n
      invariant d == Value(Dummy) && f == Value(F) && g == Value(G) && q == Q[..]
      invariant Done(P, e, i)
    {
      FinishRow(F, G, Q, dT, dTsq, Dummy, P, i, e);
    }
    WholeIsPredicted(n, Q.Length, p, f, g, q, dT, d, Value(P));
  }

  lemma HalfRow(n: nat, p: Mat, f: Mat, T: real, d: Mat, i: int)
    requires Symmetric(n, p) && T != 0.0 && 0 <= i < n
    requires forall j :: 0 <= j < n ==> At(d, i, j) == Half(n, p, f, T, i, j)
    ensures forall j :: 0 <= j < n ==> V(Row(d, i), j) == V(Comb(n, 1.0 / T, Row(p, i), 1.0, Mul(n, p, Row(f, i))), j)
  {
    forall j | 0 <= j < n
      ensures V(Row(d, i), j) == V(Comb(n, 1.0 / T, Row(p, i), 1.0, Mul(n, p, Row(f, i))), j)
    {
      assert At(d, i, j) == Half(n, p, f, T, i, j);
      DotSym(n, Row(f, i), Row(p, j));
      Divide(At(p, i, j), T);
    }
  }

  lemma Divide(a: real, T: real)
    requires T != 0.0
    ensures a / T == 1.0 / T * a
  {
  }

  /** (F P)(i, j) as the inner product the code accumulates. */
  lemma FPByRow(n: nat, p: Mat, f: Mat, i: int, j: int)
    requires Symmetric(n, p) && 0 <= i < n && 0 <= j < n
    ensures Dot(n, Row(f, i), Row(p, j)) == FP(n, p, f, i, j)
    ensures Dot(n, Row(p, j), Row(f, i)) == FP(n, p, f, i, j)
  {
    DotSym(n, Row(f, i), Row(p, j));
    BilSym(n, p, Row(f, i), Unit(n, j));
    DotUnit(n, j, Mul(n, p, Row(f, i)));
  }

  lemma HalfDot(n: nat, p: Mat, f: Mat, T: real, d: Mat, i: int, j: int)
    requires Symmetric(n, p) && T != 0.0 && 0 <= i < n && 0 <= j < n
    requires forall b :: 0 <= b < n ==> At(d, i, b) == Half(n, p, f, T, i, b)
    ensures At(d, i, j) == At(p, i, j) / T + FP(n, p, f, i, j)
    ensures Dot(n, Row(d, i), Row(f, j)) == 1.0 / T * FP(n, p, f, j, i) + 1.0 * FPF(n, p, f, i, j)
  {
    HalfRow(n, p, f, T, d, i);
    DotCong(n, Row(d, i), Comb(n, 1.0 / T, Row(p, i), 1.0, Mul(n, p, Row(f, i))), Row(f, j));
    DotComb(n, 1.0 / T, Row(p, i), 1.0, Mul(n, p, Row(f, i)), Row(f, j));
    FPByRow(n, p, f, i, j);
    FPByRow(n, p, f, j, i);
    DotSym(n, Mul(n, p, Row(f, i)), Row(f, j));
    BilSym(n, p, Row(f, i), Row(f, j));
  }

  lemma WholeEntryIsPredicted(n: nat, w: nat, p: Mat, f: Mat, g: Mat, q: Vec, T: real, d: Mat, i: int, j: int)
    requires Symmetric(n, p) && T != 0.0 && 0 <= i < n && 0 <= j < n
    requires forall b :: 0 <= b < n ==> At(d, i, b) == Half(n, p, f, T, i, b)
    ensures Whole(n, w, d, f, g, q, T, i, j) == At(Predicted(n, w, p, f, g, q, T), i, j)
  {
    HalfDot(n, p, f, T, d, i, j);
    NoiseSum(w, g, q, i, j);
    Unscale(T, At(p, i, j), FP(n, p, f, i, j), FP(n, p, f, j, i), FPF(n, p, f, i, j), Noise(w, g, q, i, j),
            At(d, i, j), Dot(n, Row(d, i), Row(f, j)));
    PolyIsPredicted(n, w, p, f, g, q, T, T * T, i, j);
  }

  lemma Unscale(T: real, p: real, a: real, b: real, c: real, q: real, h: real, e: real)
    requires T != 0.0 && h == p / T + a && e == 1.0 / T * b + 1.0 * c
    ensures Rescaled(h, e, q, T) == PolyIn(T, T * T, c + q, a + b, p)
  {
    assert h * T == p + a * T;
    assert h / T * (T * T) == h * T;
    assert 1.0 / T * b * (T * T) == b * T;
  }

  lemma WholeIsPredicted(n: nat, w: nat, p: Mat, f: Mat, g: Mat, q: Vec, T: real, d: Mat, r: Mat)
    requires Symmetric(n, p) && T != 0.0 && Shape(r, n, n)
    requires forall i, j :: 0 <= i < n && 0 <= j < n ==> At(d, i, j) == Half(n, p, f, T, i, j)
    requires forall i, j :: 0 <= i < n && 0 <= j < n ==>
      At(r, i, j) == if i <= j then Whole(n, w, d, f, g, q, T, i, j) else Whole(n, w, d, f, g, q, T, j, i)
    ensures r == Predicted(n, w, p, f, g, q, T)
  {
    forall i, j | 0 <= i < n && 0 <= j < n
      ensures At(r, i, j) == At(Predicted(n, w, p, f, g, q, T), i, j)
    {
      WholeEntryIsPredicted(n, w, p, f, g, q, T, d, i, j);
      WholeEntryIsPredicted(n, w, p, f, g, q, T, d, j, i);
      PredictedSymmetric(n, w, p, f, g, q, T, i, j);
    }
    MatExt(r, Predicted(n, w, p, f, g, q, T), n, n);
  }

  lemma PredictedSymmetric(n: nat, w: nat, p: Mat, f: Mat, g: Mat, q: Vec, T: real, i: int, j: int)
    requires Symmetric(n, p) && 0 <= i < n && 0 <= j < n
    ensures At(Predicted(n, w, p, f, g, q, T), i, j) == At(Predicted(n, w, p, f, g, q, T), j, i)
  {
    PredictedEntry(n, w, p, f, g, q, T, i, j);
    PredictedEntry(n, w, p, f, g, q, T, j, i);
    BilSym(n, p, Row(f, i), Row(f, j));
    BilSym(w, Diagonal(w, q), Row(g, i), Row(g, j));
  }

  lemma PredictionIsSymmetric(n: nat, w: nat, p: Mat, f: Mat, g: Mat, q: Vec, T: real)
    requires Symmetric(n, p)
    ensures Symmetric(n, Predicted(n, w, p, f, g, q, T))
  {
    forall i, j | 0 <= i < n && 0 <= j < n
      ensures At(Predicted(n, w, p, f, g, q, T), i, j) == At(Predicted(n, w, p, f, g, q, T), j, i)
    {
      PredictedSymmetric(n, w, p, f, g, q, T, i, j);
    }
  }

  // ------------------------------------------------------------------ the expanded form

  ghost function EntryTable(t: Tables): (int, int) -> real {
    (i, j) => t.Entry(i, j)
  }

  ghost predicate RowOf(t: Tables, i: nat, row: seq<real>) {
    i + |row| == 13 && forall k :: 0 <= k < |row| ==> row[k] == t.Entry(i, i + k)
  }

  /** Write row i of the upper triangle and mirror it into column i. */
  method SetRow(P: array2<real>, i: nat, row: seq<real>, ghost t: Tables)
    requires P.Length0 == P.Length1 == 13 && RowOf(t, i, row) && Done(P, EntryTable(t), i)
    modifies P
    ensures Done(P, EntryTable(t), i + 1)
  {
    ghost var e := EntryTable(t);
    for j := i to P.Length0
      invariant DoneUpTo(P, e, i, j)
    {
      assert row[j - i] == t.Entry(i, i + (j - i));
      Store(P, i, j, row[j - i], e);
    }
  }

  /** A copy of the upper triangle of P. */
  method CopyUpper(P: array2<real>) returns (D: array2<real>)
    requires P.Length0 == P.Length1
    ensures fresh(D) && D.Length0 == D.Length1 == P.Length0
    ensures UpperCopy(P.Length0, Value(D), Value(P))
  {
    var n := P.Length0;
    D := new real[n, n];
    for i := 0 to n
      invariant forall a, b :: 0 <= a < i && a <= b < n ==> D[a, b] == P[a, b]
    {
      for j := i to n
        invariant forall a, b :: 0 <= a < i && a <= b < n ==> D[a, b] == P[a, b]
        invariant forall b :: i <= b < j ==> D[i, b] == P[i, b]
      {
        D[i, j] := P[i, j];
      }
    }
  }

  /** The expanded form.  It reads only the entries of F and G that LinearizeFG computes, so it
      makes the prediction for NormF(F) and NormG(G) whatever the other entries are. */
  method CovariancePredictionExpanded(F: array2<real>, G: array2<real>, Q: array<real>, dT: real, P: array2<real>)
    requires P.Length0 == P.Length1 == F.Length0 == F.Length1 == G.Length0 == 13 && G.Length1 == Q.Length == 9
    requires P != F && P != G
    requires Symmetric(P.Length0, Value(P))
    modifies P
    ensures Value(P) == Predicted(P.Length0, Q.Length, old(Value(P)), NormF(Value(F)), NormG(Value(G)), Q[..], dT)
  {
    var D := CopyUpper(P);
    ghost var p := Value(P);
    var t := TablesOf(Value(F), Value(G), Q[..], Value(D), dT);
    WriteRows(P, t);
    EntriesArePredicted(P.Length0, Q.Length, t, Value(F), Value(G), Q[..], Value(D), p, Value(P));
  }

  // The rows of the upper triangle.

  function Row0(t: Tables): (row: seq<real>)
    ensures RowOf(t, 0, row)
  {
    [t.P0_0(), t.P0_1(), t.P0_2(), t.P0_3(), t.P0_4(), t.P0_5(), t.P0_6(), t.P0_7(), t.P0_8(), t.P0_9(), t.P0_10(),
     t.P0_11(), t.P0_12()]
  }

  function Row1(t: Tables): (row: seq<real>)
    ensures RowOf(t, 1, row)
  {
    [t.P1_1(), t.P1_2(), t.P1_3(), t.P1_4(), t.P1_5(), t.P1_6(), t.P1_7(), t.P1_8(), t.P1_9(), t.P1_10(), t.P1_11(),
     t.P1_12()]
  }

  function Row2(t: Tables): (row: seq<real>)
    ensures RowOf(t, 2, row)
  {
    [t.P2_2(), t.P2_3(), t.P2_4(), t.P2_5(), t.P2_6(), t.P2_7(), t.P2_8(), t.P2_9(), t.P2_10(), t.P2_11(), t.P2_12()]
  }

  function Row3(t: Tables): (row: seq<real>)
    ensures RowOf(t, 3, row)
  {
    [t.P3_3(), t.P3_4(), t.P3_5(), t.P3_6(), t.P3_7(), t.P3_8(), t.P3_9(), t.P3_10(), t.P3_11(), t.P3_12()]
  }

  function Row4(t: Tables): (row: seq<real>)
    ensures RowOf(t, 4, row)
  {
    [t.P4_4(), t.P4_5(), t.P4_6(), t.P4_7(), t.P4_8(), t.P4_9(), t.P4_10(), t.P4_11(), t.P4_12()]
  }

  function Row5(t: Tables): (row: seq<real>)
    ensures RowOf(t, 5, row)
  {
    [t.P5_5(), t.P5_6(), t.P5_7(), t.P5_8(), t.P5_9(), t.P5_10(), t.P5_11(), t.P5_12()]
  }

  function Row6(t: Tables): (row: seq<real>)
    ensures RowOf(t, 6, row)
  {
    [t.P6_6(), t.P6_7(), t.P6_8(), t.P6_9(), t.P6_10(), t.P6_11(), t.P6_12()]
  }

  function Row7(t: Tables): (row: seq<real>)
    ensures RowOf(t, 7, row)
  {
    [t.P7_7(), t.P7_8(), t.P7_9(), t.P7_10(), t.P7_11(), t.P7_12()]
  }

  function Row8(t: Tables): (row: seq<real>)
    ensures RowOf(t, 8, row)
  {
    [t.P8_8(), t.P8_9(), t.P8_10(), t.P8_11(), t.P8_12()]
  }

  function Row9(t: Tables): (row: seq<real>)
    ensures RowOf(t, 9, row)
  {
    [t.P9_9(), t.P9_10(), t.P9_11(), t.P9_12()]
  }

  function Row10(t: Tables): (row: seq<real>)
    ensures RowOf(t, 10, row)
  {
    [t.P10_10(), t.P10_11(), t.P10_12()]
  }

  function Row11(t: Tables): (row: seq<real>)
    ensures RowOf(t, 11, row)
  {
    [t.P11_11(), t.P11_12()]
  }

  function Row12(t: Tables): (row: seq<real>)
    ensures RowOf(t, 12, row)
  {
    [t.P12_12()]
  }

  /** The 91 assignments, row by row. */
  method WriteRows(P: array2<real>, t: Tables)
    requires P.Length0 == P.Length1 == 13
    modifies P
    ensures Done(P, EntryTable(t), 13)
  {
    SetRow(P, 0, Row0(t), t);
    SetRow(P, 1, Row1(t), t);
    SetRow(P, 2, Row2(t), t);
    WriteVelocityRows(P, t);
    WriteAttitudeRows(P, t);
  }

  method WriteVelocityRows(P: array2<real>, t: Tables)
    requires P.Length0 == P.Length1 == 13 && Done(P, EntryTable(t), 3)
    modifies P
    ensures Done(P, EntryTable(t), 6)
  {
    SetRow(P, 3, Row3(t), t);
    SetRow(P, 4, Row4(t), t);
    SetRow(P, 5, Row5(t), t);
  }

  method WriteAttitudeRows(P: array2<real>, t: Tables)
    requires P.Length0 == P.Length1 == 13 && Done(P, EntryTable(t), 6)
    modifies P
    ensures Done(P, EntryTable(t), 13)
  {
    SetRow(P, 6, Row6(t), t);
    SetRow(P, 7, Row7(t), t);
    SetRow(P, 8, Row8(t), t);
    SetRow(P, 9, Row9(t), t);
    SetRow(P, 10, Row10(t), t);
    SetRow(P, 11, Row11(t), t);
    SetRow(P, 12, Row12(t), t);
  }

  lemma EntriesArePredicted(n: nat, w: nat, t: Tables, F: Mat, G: Mat, Q: Vec, D: Mat, p: Mat, r: Mat)
    requires StateCount(n) && NoiseCount(w) && Symmetric(n, p) && UpperCopy(n, D, p) && t == TablesOf(F, G, Q, D, t.T)
    requires t.Tsq == t.T * t.T && Shape(r, n, n)
    requires forall i, j :: 0 <= i < n && 0 <= j < n ==> At(r, i, j) == if i <= j then t.Entry(i, j) else t.Entry(j, i)
    ensures r == Predicted(n, w, p, NormF(F), NormG(G), Q, t.T)
  {
    forall i, j | 0 <= i < n && 0 <= j < n
      ensures At(r, i, j) == At(Predicted(n, w, p, NormF(F), NormG(G), Q, t.T), i, j)
    {
      if i <= j {
        EntryIsPredicted(n, w, t, F, G, Q, D, p, i, j);
      } else {
        EntryIsPredicted(n, w, t, F, G, Q, D, p, j, i);
        PredictedSymmetric(n, w, p, NormF(F), NormG(G), Q, t.T, i, j);
      }
    }
    MatExt(r, Predicted(n, w, p, NormF(F), NormG(G), Q, t.T), n, n);
  }
}
