/**
  Finite sums, vectors and matrices over the reals, and the theory of symmetric positive
  semidefinite bilinear forms that the covariance of a Kalman filter lives in.

  Vectors and matrices are sequences read through total accessors (an entry outside the
  sequence is zero), so the algebra needs no shape conditions.
 */
module Linear {

  type Vec = seq<real>
  type Mat = seq<seq<real>>

  function V(x: Vec, i: int): real {
    if 0 <= i < |x| then x[i] else 0.0
  }

  function At(m: Mat, i: int, j: int): real {
    if 0 <= i < |m| then V(m[i], j) else 0.0
  }

  /** A product that the verifier compares by its factors. */
  function Times(a: real, b: real): real {
    a * b
  }

  function Mix(a: real, x: real, b: real, y: real): real {
    a * x + b * y
  }

  ghost predicate Shape(m: Mat, rows: nat, cols: nat) {
    |m| == rows && forall i :: 0 <= i < rows ==> |m[i]| == cols
  }

  lemma MatExt(a: Mat, b: Mat, rows: nat, cols: nat)
    requires Shape(a, rows, cols) && Shape(b, rows, cols)
    requires forall i, j :: 0 <= i < rows && 0 <= j < cols ==> At(a, i, j) == At(b, i, j)
    ensures a == b
  {
    forall i | 0 <= i < rows
      ensures a[i] == b[i]
    {
      forall j | 0 <= j < cols
        ensures a[i][j] == b[i][j]
      {
        assert At(a, i, j) == At(b, i, j);
      }
    }
  }

  /** n is 13, the number of states.  It is a variable, and no literal, wherever a sum has n terms: a literal
      would have the verifier unfold the sum. */
  predicate StateCount(n: nat) {
    12 < n < 14
  }

  /** w is 9, the number of noise inputs. */
  predicate NoiseCount(w: nat) {
    8 < w < 10
  }

  // ------------------------------------------------------------------ sums

  /** f(0) + ... + f(n - 1).  The two steps between Sum and its recursive equation, SumStep, keep
      the verifier from unfolding every sum it meets into a product of two entries. */
  ghost function Sum(n: nat, f: int -> real): real
    decreases n, 2
  {
    if n == 0 then 0.0 else SumPositive(n, f)
  }

  ghost function SumPositive(n: nat, f: int -> real): real
    requires n > 0
    decreases n, 1
  {
    SumLast(n, f)
  }

  ghost function SumLast(n: nat, f: int -> real): real
    requires n > 0
    decreases n, 0
  {
    Sum(n - 1, f) + f(n - 1)
  }

  lemma SumStep(n: nat, f: int -> real)
    requires n > 0
    ensures Sum(n, f) == Sum(n - 1, f) + f(n - 1)
  {
    assert SumPositive(n, f) == SumLast(n, f);
  }

  lemma {:induction false} SumCong(n: nat, f: int -> real, g: int -> real)
    requires forall k :: 0 <= k < n ==> f(k) == g(k)
    ensures Sum(n, f) == Sum(n, g)
  {
    if n > 0 {
      SumStep(n, f);
      SumStep(n, g);
      SumCong(n - 1, f, g);
    }
  }

  /** A sum of linear combinations of the terms of two sums. */
  lemma {:induction false} SumComb(n: nat, h: int -> real, a: real, f: int -> real, b: real, g: int -> real)
    requires forall k :: 0 <= k < n ==> h(k) == a * f(k) + b * g(k)
    ensures Sum(n, h) == a * Sum(n, f) + b * Sum(n, g)
  {
    if n > 0 {
      SumStep(n, h);
      SumStep(n, f);
      SumStep(n, g);
      SumComb(n - 1, h, a, f, b, g);
      assert h(n - 1) == a * f(n - 1) + b * g(n - 1);
    }
  }

  lemma SumScale(n: nat, a: real, f: int -> real)
    ensures Sum(n, k => a * f(k)) == a * Sum(n, f)
  {
    SumComb(n, k => a * f(k), a, f, 0.0, f);
  }

  lemma {:induction false} SumZero(n: nat, f: int -> real)
    requires forall k :: 0 <= k < n ==> f(k) == 0.0
    ensures Sum(n, f) == 0.0
  {
    if n > 0 {
      SumStep(n, f);
      SumZero(n - 1, f);
    }
  }

  lemma {:induction false} SumNonneg(n: nat, f: int -> real)
    requires forall k :: 0 <= k < n ==> f(k) >= 0.0
    ensures Sum(n, f) >= 0.0
    ensures Sum(n, f) == 0.0 ==> forall k :: 0 <= k < n ==> f(k) == 0.0
  {
    if n > 0 {
      SumStep(n, f);
      SumNonneg(n - 1, f);
    }
  }

  /** Only one term of the sum is not zero. */
  lemma {:induction false} SumSingle(n: nat, f: int -> real, p: int)
    requires 0 <= p < n
    requires forall k :: 0 <= k < n && k != p ==> f(k) == 0.0
    ensures Sum(n, f) == f(p)
  {
    SumStep(n, f);
    if p == n - 1 {
      SumZero(n - 1, f);
    } else {
      SumSingle(n - 1, f, p);
    }
  }

  ghost function RowOf(f: (int, int) -> real, i: int): int -> real {
    j => f(i, j)
  }

  ghost function ColumnOf(f: (int, int) -> real, j: int): int -> real {
    i => f(i, j)
  }

  ghost function RowSum(m: nat, f: (int, int) -> real): int -> real {
    i => Sum(m, RowOf(f, i))
  }

  ghost function ColSum(n: nat, f: (int, int) -> real): int -> real {
    j => Sum(n, ColumnOf(f, j))
  }

  /** The order of a double summation may be exchanged. */
  lemma {:induction false} SumSwap(n: nat, m: nat, f: (int, int) -> real)
    ensures Sum(n, RowSum(m, f)) == Sum(m, ColSum(n, f))
  {
    if n == 0 {
      SumZero(m, ColSum(0, f));
    } else {
      SumStep(n, RowSum(m, f));
      SumSwap(n - 1, m, f);
      var g, h := ColSum(n - 1, f), RowOf(f, n - 1);
      forall j | 0 <= j < m
        ensures ColSum(n, f)(j) == 1.0 * g(j) + 1.0 * h(j)
      {
        SumStep(n, ColumnOf(f, j));
      }
      SumComb(m, ColSum(n, f), 1.0, g, 1.0, h);
    }
  }
}
