/**
  The expanded covariance prediction: the 91 entries of the upper triangle of
  (I + F T) P (I + F T)' + T^2 G Q G', as the scalar expressions the code evaluates, each proved
  equal to one entry of the product of sparse matrices (Tables.Entry).

  D holds a copy of the upper triangle of P; nothing below its diagonal is read.
 */
module ExpandedEntries {
  type Table = (int, int) -> real

  /** The shape of every expanded entry: a polynomial in T, given T and its square. */
  function PolyIn(T: real, Tsq: real, quadratic: real, linear: real, constant: real): real {
    quadratic * Tsq + linear * T + constant
  }

  datatype Tables = Tables(F: Table, G: Table, Q: int -> real, D: Table, T: real, Tsq: real) {

    /** Entry (a, b) of a symmetric matrix of which only the upper triangle is stored. */
    function Up(a: int, b: int): real {
      if a <= b then D(a, b) else D(b, a)
    }

    /** (F * D)(i, c) for the sparse F */
    function FD(i: int, c: int): real {
      if i < 3 then Up(i + 3, c)
      else if i < 6 then F(i, 6) * Up(6, c) + F(i, 7) * Up(7, c) + F(i, 8) * Up(8, c) + F(i, 9) * Up(9, c)
      else if i == 6 then
        F(i, 7) * Up(7, c) + F(i, 8) * Up(8, c) + F(i, 9) * Up(9, c)
        + F(i, 10) * Up(10, c) + F(i, 11) * Up(11, c) + F(i, 12) * Up(12, c)
      else if i == 7 then
        F(i, 6) * Up(6, c) + F(i, 8) * Up(8, c) + F(i, 9) * Up(9, c)
        + F(i, 10) * Up(10, c) + F(i, 11) * Up(11, c) + F(i, 12) * Up(12, c)
      else if i == 8 then
        F(i, 6) * Up(6, c) + F(i, 7) * Up(7, c) + F(i, 9) * Up(9, c)
        + F(i, 10) * Up(10, c) + F(i, 11) * Up(11, c) + F(i, 12) * Up(12, c)
      else if i == 9 then
        F(i, 6) * Up(6, c) + F(i, 7) * Up(7, c) + F(i, 8) * Up(8, c)
        + F(i, 10) * Up(10, c) + F(i, 11) * Up(11, c) + F(i, 12) * Up(12, c)
      else 0.0
    }

    /** (F * D * F')(i, j) */
    function FDF(i: int, j: int): real {
      if j < 3 then FD(i, j + 3)
      else if j < 6 then F(j, 6) * FD(i, 6) + F(j, 7) * FD(i, 7) + F(j, 8) * FD(i, 8) + F(j, 9) * FD(i, 9)
      else if j == 6 then
        F(j, 7) * FD(i, 7) + F(j, 8) * FD(i, 8) + F(j, 9) * FD(i, 9)
        + F(j, 10) * FD(i, 10) + F(j, 11) * FD(i, 11) + F(j, 12) * FD(i, 12)
      else if j == 7 then
        F(j, 6) * FD(i, 6) + F(j, 8) * FD(i, 8) + F(j, 9) * FD(i, 9)
        + F(j, 10) * FD(i, 10) + F(j, 11) * FD(i, 11) + F(j, 12) * FD(i, 12)
      else if j == 8 then
        F(j, 6) * FD(i, 6) + F(j, 7) * FD(i, 7) + F(j, 9) * FD(i, 9)
        + F(j, 10) * FD(i, 10) + F(j, 11) * FD(i, 11) + F(j, 12) * FD(i, 12)
      else if j == 9 then
        F(j, 6) * FD(i, 6) + F(j, 7) * FD(i, 7) + F(j, 8) * FD(i, 8)
        + F(j, 10) * FD(i, 10) + F(j, 11) * FD(i, 11) + F(j, 12) * FD(i, 12)
      else 0.0
    }

    /** (G * Q * G')(i, j) for the sparse G */
    function GQG(i: int, j: int): real {
      if 3 <= i < 6 && 3 <= j < 6 then
        G(i, 3) * G(j, 3) * Q(3) + G(i, 4) * G(j, 4) * Q(4) + G(i, 5) * G(j, 5) * Q(5)
      else if 6 <= i < 10 && 6 <= j < 10 then
        G(i, 0) * G(j, 0) * Q(0) + G(i, 1) * G(j, 1) * Q(1) + G(i, 2) * G(j, 2) * Q(2)
      else if 10 <= i == j then Q(i - 4)
      else 0.0
    }

    function Poly(quadratic: real, linear: real, constant: real): real {
      PolyIn(T, Tsq, quadratic, linear, constant)
    }

    /** Entry (i, j) of the predicted covariance. */
    function Entry(i: int, j: int): real {
      Poly(FDF(i, j) + GQG(i, j), FD(i, j) + FD(j, i), Up(i, j))
    }

    // ------------------------------------------------------------------ the expanded entries

    function P0_0(): (r: real)
      ensures r == Entry(0, 0)
    {
      Poly(D(3, 3), 2.0 * D(0, 3), D(0, 0))
    }

    function P0_1(): (r: real)
      ensures r == Entry(0, 1)
    {
      Poly(D(3, 4), D(0, 4) + D(1, 3), D(0, 1))
    }

    function P0_2(): (r: real)
      ensures r == Entry(0, 2)
    {
      Poly(D(3, 5), D(0, 5) + D(2, 3), D(0, 2))
    }

    function P0_3(): (r: real)
      ensures r == Entry(0, 3)
    {
      Poly(
        F(3, 6) * D(3, 6) + F(3, 7) * D(3, 7) + F(3, 8) * D(3, 8) + F(3, 9) * D(3, 9),
        D(3, 3) + F(3, 6) * D(0, 6) + F(3, 7) * D(0, 7) + F(3, 8) * D(0, 8) + F(3, 9) * D(0, 9),
        D(0, 3))
    }

    function P0_4(): (r: real)
      ensures r == Entry(0, 4)
    {
      Poly(
        F(4, 6) * D(3, 6) + F(4, 7) * D(3, 7) + F(4, 8) * D(3, 8) + F(4, 9) * D(3, 9),
        D(3, 4) + F(4, 6) * D(0, 6) + F(4, 7) * D(0, 7) + F(4, 8) * D(0, 8) + F(4, 9) * D(0, 9),
        D(0, 4))
    }

    function P0_5(): (r: real)
      ensures r == Entry(0, 5)
    {
      Poly(
        F(5, 6) * D(3, 6) + F(5, 7) * D(3, 7) + F(5, 8) * D(3, 8) + F(5, 9) * D(3, 9),
        D(3, 5) + F(5, 6) * D(0, 6) + F(5, 7) * D(0, 7) + F(5, 8) * D(0, 8) + F(5, 9) * D(0, 9),
        D(0, 5))
    }

    function P0_6(): (r: real)
      ensures r == Entry(0, 6)
    {
      Poly(
        F(6, 7) * D(3, 7) + F(6, 8) * D(3, 8) + F(6, 9) * D(3, 9) + F(6, 10) * D(3, 10) + F(6, 11) * D(3, 11) +
        F(6, 12) * D(3, 12),
        D(3, 6) + F(6, 7) * D(0, 7) + F(6, 8) * D(0, 8) + F(6, 9) * D(0, 9) + F(6, 10) * D(0, 10) +
        F(6, 11) * D(0, 11) + F(6, 12) * D(0, 12),
        D(0, 6))
    }

    function P0_7(): (r: real)
      ensures r == Entry(0, 7)
    {
      Poly(
        F(7, 6) * D(3, 6) + F(7, 8) * D(3, 8) + F(7, 9) * D(3, 9) + F(7, 10) * D(3, 10) + F(7, 11) * D(3, 11) +
        F(7, 12) * D(3, 12),
        D(3, 7) + F(7, 6) * D(0, 6) + F(7, 8) * D(0, 8) + F(7, 9) * D(0, 9) + F(7, 10) * D(0, 10) +
        F(7, 11) * D(0, 11) + F(7, 12) * D(0, 12),
        D(0, 7))
    }

    function P0_8(): (r: real)
      ensures r == Entry(0, 8)
    {
      Poly(
        F(8, 6) * D(3, 6) + F(8, 7) * D(3, 7) + F(8, 9) * D(3, 9) + F(8, 10) * D(3, 10) + F(8, 11) * D(3, 11) +
        F(8, 12) * D(3, 12),
        D(3, 8) + F(8, 6) * D(0, 6) + F(8, 7) * D(0, 7) + F(8, 9) * D(0, 9) + F(8, 10) * D(0, 10) +
        F(8, 11) * D(0, 11) + F(8, 12) * D(0, 12),
        D(0, 8))
    }

    function P0_9(): (r: real)
      ensures r == Entry(0, 9)
    {
      Poly(
        F(9, 6) * D(3, 6) + F(9, 7) * D(3, 7) + F(9, 8) * D(3, 8) + F(9, 10) * D(3, 10) + F(9, 11) * D(3, 11) +
        F(9, 12) * D(3, 12),
        D(3, 9) + F(9, 6) * D(0, 6) + F(9, 7) * D(0, 7) + F(9, 8) * D(0, 8) + F(9, 10) * D(0, 10) +
        F(9, 11) * D(0, 11) + F(9, 12) * D(0, 12),
        D(0, 9))
    }

    function P0_10(): (r: real)
      ensures r == Entry(0, 10)
    {
      Poly(0.0, D(3, 10), D(0, 10))
    }

    function P0_11(): (r: real)
      ensures r == Entry(0, 11)
    {
      Poly(0.0, D(3, 11), D(0, 11))
    }

    function P0_12(): (r: real)
      ensures r == Entry(0, 12)
    {
      Poly(0.0, D(3, 12), D(0, 12))
    }

    function P1_1(): (r: real)
      ensures r == Entry(1, 1)
    {
      Poly(D(4, 4), 2.0 * D(1, 4), D(1, 1))
    }

    function P1_2(): (r: real)
      ensures r == Entry(1, 2)
    {
      Poly(D(4, 5), D(1, 5) + D(2, 4), D(1, 2))
    }

    function P1_3(): (r: real)
      ensures r == Entry(1, 3)
    {
      Poly(
        F(3, 6) * D(4, 6) + F(3, 7) * D(4, 7) + F(3, 8) * D(4, 8) + F(3, 9) * D(4, 9),
        D(3, 4) + F(3, 6) * D(1, 6) + F(3, 7) * D(1, 7) + F(3, 8) * D(1, 8) + F(3, 9) * D(1, 9),
        D(1, 3))
    }

    function P1_4(): (r: real)
      ensures r == Entry(1, 4)
    {
      Poly(
        F(4, 6) * D(4, 6) + F(4, 7) * D(4, 7) + F(4, 8) * D(4, 8) + F(4, 9) * D(4, 9),
        D(4, 4) + F(4, 6) * D(1, 6) + F(4, 7) * D(1, 7) + F(4, 8) * D(1, 8) + F(4, 9) * D(1, 9),
        D(1, 4))
    }

    function P1_5(): (r: real)
      ensures r == Entry(1, 5)
    {
      Poly(
        F(5, 6) * D(4, 6) + F(5, 7) * D(4, 7) + F(5, 8) * D(4, 8) + F(5, 9) * D(4, 9),
        D(4, 5) + F(5, 6) * D(1, 6) + F(5, 7) * D(1, 7) + F(5, 8) * D(1, 8) + F(5, 9) * D(1, 9),
        D(1, 5))
    }

    function P1_6(): (r: real)
      ensures r == Entry(1, 6)
    {
      Poly(
        F(6, 7) * D(4, 7) + F(6, 8) * D(4, 8) + F(6, 9) * D(4, 9) + F(6, 10) * D(4, 10) + F(6, 11) * D(4, 11) +
        F(6, 12) * D(4, 12),
        D(4, 6) + F(6, 7) * D(1, 7) + F(6, 8) * D(1, 8) + F(6, 9) * D(1, 9) + F(6, 10) * D(1, 10) +
        F(6, 11) * D(1, 11) + F(6, 12) * D(1, 12),
        D(1, 6))
    }

    function P1_7(): (r: real)
      ensures r == Entry(1, 7)
    {
      Poly(
        F(7, 6) * D(4, 6) + F(7, 8) * D(4, 8) + F(7, 9) * D(4, 9) + F(7, 10) * D(4, 10) + F(7, 11) * D(4, 11) +
        F(7, 12) * D(4, 12),
        D(4, 7) + F(7, 6) * D(1, 6) + F(7, 8) * D(1, 8) + F(7, 9) * D(1, 9) + F(7, 10) * D(1, 10) +
        F(7, 11) * D(1, 11) + F(7, 12) * D(1, 12),
        D(1, 7))
    }

    function P1_8(): (r: real)
      ensures r == Entry(1, 8)
    {
      Poly(
        F(8, 6) * D(4, 6) + F(8, 7) * D(4, 7) + F(8, 9) * D(4, 9) + F(8, 10) * D(4, 10) + F(8, 11) * D(4, 11) +
        F(8, 12) * D(4, 12),
        D(4, 8) + F(8, 6) * D(1, 6) + F(8, 7) * D(1, 7) + F(8, 9) * D(1, 9) + F(8, 10) * D(1, 10) +
        F(8, 11) * D(1, 11) + F(8, 12) * D(1, 12),
        D(1, 8))
    }

    function P1_9(): (r: real)
      ensures r == Entry(1, 9)
    {
      Poly(
        F(9, 6) * D(4, 6) + F(9, 7) * D(4, 7) + F(9, 8) * D(4, 8) + F(9, 10) * D(4, 10) + F(9, 11) * D(4, 11) +
        F(9, 12) * D(4, 12),
        D(4, 9) + F(9, 6) * D(1, 6) + F(9, 7) * D(1, 7) + F(9, 8) * D(1, 8) + F(9, 10) * D(1, 10) +
        F(9, 11) * D(1, 11) + F(9, 12) * D(1, 12),
        D(1, 9))
    }

    function P1_10(): (r: real)
      ensures r == Entry(1, 10)
    {
      Poly(0.0, D(4, 10), D(1, 10))
    }

    function P1_11(): (r: real)
      ensures r == Entry(1, 11)
    {
      Poly(0.0, D(4, 11), D(1, 11))
    }

    function P1_12(): (r: real)
      ensures r == Entry(1, 12)
    {
      Poly(0.0, D(4, 12), D(1, 12))
    }

    function P2_2(): (r: real)
      ensures r == Entry(2, 2)
    {
      Poly(D(5, 5), 2.0 * D(2, 5), D(2, 2))
    }

    function P2_3(): (r: real)
      ensures r == Entry(2, 3)
    {
      Poly(
        F(3, 6) * D(5, 6) + F(3, 7) * D(5, 7) + F(3, 8) * D(5, 8) + F(3, 9) * D(5, 9),
        D(3, 5) + F(3, 6) * D(2, 6) + F(3, 7) * D(2, 7) + F(3, 8) * D(2, 8) + F(3, 9) * D(2, 9),
        D(2, 3))
    }

    function P2_4(): (r: real)
      ensures r == Entry(2, 4)
    {
      Poly(
        F(4, 6) * D(5, 6) + F(4, 7) * D(5, 7) + F(4, 8) * D(5, 8) + F(4, 9) * D(5, 9),
        D(4, 5) + F(4, 6) * D(2, 6) + F(4, 7) * D(2, 7) + F(4, 8) * D(2, 8) + F(4, 9) * D(2, 9),
        D(2, 4))
    }

    function P2_5(): (r: real)
      ensures r == Entry(2, 5)
    {
      Poly(
        F(5, 6) * D(5, 6) + F(5, 7) * D(5, 7) + F(5, 8) * D(5, 8) + F(5, 9) * D(5, 9),
        D(5, 5) + F(5, 6) * D(2, 6) + F(5, 7) * D(2, 7) + F(5, 8) * D(2, 8) + F(5, 9) * D(2, 9),
        D(2, 5))
    }

    function P2_6(): (r: real)
      ensures r == Entry(2, 6)
    {
      Poly(
        F(6, 7) * D(5, 7) + F(6, 8) * D(5, 8) + F(6, 9) * D(5, 9) + F(6, 10) * D(5, 10) + F(6, 11) * D(5, 11) +
        F(6, 12) * D(5, 12),
        D(5, 6) + F(6, 7) * D(2, 7) + F(6, 8) * D(2, 8) + F(6, 9) * D(2, 9) + F(6, 10) * D(2, 10) +
        F(6, 11) * D(2, 11) + F(6, 12) * D(2, 12),
        D(2, 6))
    }

    function P2_7(): (r: real)
      ensures r == Entry(2, 7)
    {
      Poly(
        F(7, 6) * D(5, 6) + F(7, 8) * D(5, 8) + F(7, 9) * D(5, 9) + F(7, 10) * D(5, 10) + F(7, 11) * D(5, 11) +
        F(7, 12) * D(5, 12),
        D(5, 7) + F(7, 6) * D(2, 6) + F(7, 8) * D(2, 8) + F(7, 9) * D(2, 9) + F(7, 10) * D(2, 10) +
        F(7, 11) * D(2, 11) + F(7, 12) * D(2, 12),
        D(2, 7))
    }

    function P2_8(): (r: real)
      ensures r == Entry(2, 8)
    {
      Poly(
        F(8, 6) * D(5, 6) + F(8, 7) * D(5, 7) + F(8, 9) * D(5, 9) + F(8, 10) * D(5, 10) + F(8, 11) * D(5, 11) +
        F(8, 12) * D(5, 12),
        D(5, 8) + F(8, 6) * D(2, 6) + F(8, 7) * D(2, 7) + F(8, 9) * D(2, 9) + F(8, 10) * D(2, 10) +
        F(8, 11) * D(2, 11) + F(8, 12) * D(2, 12),
        D(2, 8))
    }

    function P2_9(): (r: real)
      ensures r == Entry(2, 9)
    {
      Poly(
        F(9, 6) * D(5, 6) + F(9, 7) * D(5, 7) + F(9, 8) * D(5, 8) + F(9, 10) * D(5, 10) + F(9, 11) * D(5, 11) +
        F(9, 12) * D(5, 12),
        D(5, 9) + F(9, 6) * D(2, 6) + F(9, 7) * D(2, 7) + F(9, 8) * D(2, 8) + F(9, 10) * D(2, 10) +
        F(9, 11) * D(2, 11) + F(9, 12) * D(2, 12),
        D(2, 9))
    }

    function P2_10(): (r: real)
      ensures r == Entry(2, 10)
    {
      Poly(0.0, D(5, 10), D(2, 10))
    }

    function P2_11(): (r: real)
      ensures r == Entry(2, 11)
    {
      Poly(0.0, D(5, 11), D(2, 11))
    }

    function P2_12(): (r: real)
      ensures r == Entry(2, 12)
    {
      Poly(0.0, D(5, 12), D(2, 12))
    }

    function P3_3(): (r: real)
      ensures r == Entry(3, 3)
    {
      Poly(
        Q(3) * G(3, 3) * G(3, 3) + Q(4) * G(3, 4) * G(3, 4) + Q(5) * G(3, 5) * G(3, 5) + F(3, 9) * (F(3, 9) * D(9, 9)
        + F(3, 6) * D(6, 9) + F(3, 7) * D(7, 9) + F(3, 8) * D(8, 9)) + F(3, 6) * (F(3, 6) * D(6, 6) +
        F(3, 7) * D(6, 7) + F(3, 8) * D(6, 8) + F(3, 9) * D(6, 9)) + F(3, 7) * (F(3, 6) * D(6, 7) + F(3, 7) * D(7, 7)
        + F(3, 8) * D(7, 8) + F(3, 9) * D(7, 9)) + F(3, 8) * (F(3, 6) * D(6, 8) + F(3, 7) * D(7, 8) +
        F(3, 8) * D(8, 8) + F(3, 9) * D(8, 9)),
        2.0 * F(3, 6) * D(3, 6) + 2.0 * F(3, 7) * D(3, 7) + 2.0 * F(3, 8) * D(3, 8) + 2.0 * F(3, 9) * D(3, 9),
        D(3, 3))
    }

    function Quadratic3_4(): (r: real)
      ensures r == FDF(3, 4) + GQG(3, 4)
    {
      F(4, 9) * (F(3, 9) * D(9, 9) + F(3, 6) * D(6, 9) + F(3, 7) * D(7, 9) + F(3, 8) * D(8, 9)) +
      F(4, 6) * (F(3, 6) * D(6, 6) + F(3, 7) * D(6, 7) + F(3, 8) * D(6, 8) + F(3, 9) * D(6, 9)) +
      F(4, 7) * (F(3, 6) * D(6, 7) + F(3, 7) * D(7, 7) + F(3, 8) * D(7, 8) + F(3, 9) * D(7, 9)) +
      F(4, 8) * (F(3, 6) * D(6, 8) + F(3, 7) * D(7, 8) + F(3, 8) * D(8, 8) + F(3, 9) * D(8, 9)) +
      G(3, 3) * G(4, 3) * Q(3) + G(3, 4) * G(4, 4) * Q(4) + G(3, 5) * G(4, 5) * Q(5)
    }

    function Linear3_4(): (r: real)
      ensures r == FD(3, 4) + FD(4, 3)
    {
      F(3, 6) * D(4, 6) + F(4, 6) * D(3, 6) + F(3, 7) * D(4, 7) + F(4, 7) * D(3, 7) + F(3, 8) * D(4, 8) +
      F(4, 8) * D(3, 8) + F(3, 9) * D(4, 9) + F(4, 9) * D(3, 9)
    }

    function P3_4(): (r: real)
      ensures r == Entry(3, 4)
    {
      Poly(Quadratic3_4(), Linear3_4(), D(3, 4))
    }

    function Quadratic3_5(): (r: real)
      ensures r == FDF(3, 5) + GQG(3, 5)
    {
      F(5, 9) * (F(3, 9) * D(9, 9) + F(3, 6) * D(6, 9) + F(3, 7) * D(7, 9) + F(3, 8) * D(8, 9)) +
      F(5, 6) * (F(3, 6) * D(6, 6) + F(3, 7) * D(6, 7) + F(3, 8) * D(6, 8) + F(3, 9) * D(6, 9)) +
      F(5, 7) * (F(3, 6) * D(6, 7) + F(3, 7) * D(7, 7) + F(3, 8) * D(7, 8) + F(3, 9) * D(7, 9)) +
      F(5, 8) * (F(3, 6) * D(6, 8) + F(3, 7) * D(7, 8) + F(3, 8) * D(8, 8) + F(3, 9) * D(8, 9)) +
      G(3, 3) * G(5, 3) * Q(3) + G(3, 4) * G(5, 4) * Q(4) + G(3, 5) * G(5, 5) * Q(5)
    }

    function Linear3_5(): (r: real)
      ensures r == FD(3, 5) + FD(5, 3)
    {
      F(3, 6) * D(5, 6) + F(5, 6) * D(3, 6) + F(3, 7) * D(5, 7) + F(5, 7) * D(3, 7) + F(3, 8) * D(5, 8) +
      F(5, 8) * D(3, 8) + F(3, 9) * D(5, 9) + F(5, 9) * D(3, 9)
    }

    function P3_5(): (r: real)
      ensures r == Entry(3, 5)
    {
      Poly(Quadratic3_5(), Linear3_5(), D(3, 5))
    }

    function P3_6(): (r: real)
      ensures r == Entry(3, 6)
    {
      Poly(
        F(6, 9) * (F(3, 9) * D(9, 9) + F(3, 6) * D(6, 9) + F(3, 7) * D(7, 9) + F(3, 8) * D(8, 9)) +
        F(6, 10) * (F(3, 9) * D(9, 10) + F(3, 6) * D(6, 10) + F(3, 7) * D(7, 10) + F(3, 8) * D(8, 10)) +
        F(6, 11) * (F(3, 9) * D(9, 11) + F(3, 6) * D(6, 11) + F(3, 7) * D(7, 11) + F(3, 8) * D(8, 11)) +
        F(6, 12) * (F(3, 9) * D(9, 12) + F(3, 6) * D(6, 12) + F(3, 7) * D(7, 12) + F(3, 8) * D(8, 12)) +
        F(6, 7) * (F(3, 6) * D(6, 7) + F(3, 7) * D(7, 7) + F(3, 8) * D(7, 8) + F(3, 9) * D(7, 9)) +
        F(6, 8) * (F(3, 6) * D(6, 8) + F(3, 7) * D(7, 8) + F(3, 8) * D(8, 8) + F(3, 9) * D(8, 9)),
        F(3, 6) * D(6, 6) + F(3, 7) * D(6, 7) + F(6, 7) * D(3, 7) + F(3, 8) * D(6, 8) + F(6, 8) * D(3, 8) +
        F(3, 9) * D(6, 9) + F(6, 9) * D(3, 9) + F(6, 10) * D(3, 10) + F(6, 11) * D(3, 11) + F(6, 12) * D(3, 12),
        D(3, 6))
    }

    function P3_7(): (r: real)
      ensures r == Entry(3, 7)
    {
      Poly(
        F(7, 9) * (F(3, 9) * D(9, 9) + F(3, 6) * D(6, 9) + F(3, 7) * D(7, 9) + F(3, 8) * D(8, 9)) +
        F(7, 10) * (F(3, 9) * D(9, 10) + F(3, 6) * D(6, 10) + F(3, 7) * D(7, 10) + F(3, 8) * D(8, 10)) +
        F(7, 11) * (F(3, 9) * D(9, 11) + F(3, 6) * D(6, 11) + F(3, 7) * D(7, 11) + F(3, 8) * D(8, 11)) +
        F(7, 12) * (F(3, 9) * D(9, 12) + F(3, 6) * D(6, 12) + F(3, 7) * D(7, 12) + F(3, 8) * D(8, 12)) +
        F(7, 6) * (F(3, 6) * D(6, 6) + F(3, 7) * D(6, 7) + F(3, 8) * D(6, 8) + F(3, 9) * D(6, 9)) +
        F(7, 8) * (F(3, 6) * D(6, 8) + F(3, 7) * D(7, 8) + F(3, 8) * D(8, 8) + F(3, 9) * D(8, 9)),
        F(3, 6) * D(6, 7) + F(7, 6) * D(3, 6) + F(3, 7) * D(7, 7) + F(3, 8) * D(7, 8) + F(7, 8) * D(3, 8) +
        F(3, 9) * D(7, 9) + F(7, 9) * D(3, 9) + F(7, 10) * D(3, 10) + F(7, 11) * D(3, 11) + F(7, 12) * D(3, 12),
        D(3, 7))
    }

    function P3_8(): (r: real)
      ensures r == Entry(3, 8)
    {
      Poly(
        F(8, 9) * (F(3, 9) * D(9, 9) + F(3, 6) * D(6, 9) + F(3, 7) * D(7, 9) + F(3, 8) * D(8, 9)) +
        F(8, 10) * (F(3, 9) * D(9, 10) + F(3, 6) * D(6, 10) + F(3, 7) * D(7, 10) + F(3, 8) * D(8, 10)) +
        F(8, 11) * (F(3, 9) * D(9, 11) + F(3, 6) * D(6, 11) + F(3, 7) * D(7, 11) + F(3, 8) * D(8, 11)) +
        F(8, 12) * (F(3, 9) * D(9, 12) + F(3, 6) * D(6, 12) + F(3, 7) * D(7, 12) + F(3, 8) * D(8, 12)) +
        F(8, 6) * (F(3, 6) * D(6, 6) + F(3, 7) * D(6, 7) + F(3, 8) * D(6, 8) + F(3, 9) * D(6, 9)) +
        F(8, 7) * (F(3, 6) * D(6, 7) + F(3, 7) * D(7, 7) + F(3, 8) * D(7, 8) + F(3, 9) * D(7, 9)),
        F(3, 6) * D(6, 8) + F(3, 7) * D(7, 8) + F(8, 6) * D(3, 6) + F(8, 7) * D(3, 7) + F(3, 8) * D(8, 8) +
        F(3, 9) * D(8, 9) + F(8, 9) * D(3, 9) + F(8, 10) * D(3, 10) + F(8, 11) * D(3, 11) + F(8, 12) * D(3, 12),
        D(3, 8))
    }

    function P3_9(): (r: real)
      ensures r == Entry(3, 9)
    {
      Poly(
        F(9, 10) * (F(3, 9) * D(9, 10) + F(3, 6) * D(6, 10) + F(3, 7) * D(7, 10) + F(3, 8) * D(8, 10)) +
        F(9, 11) * (F(3, 9) * D(9, 11) + F(3, 6) * D(6, 11) + F(3, 7) * D(7, 11) + F(3, 8) * D(8, 11)) +
        F(9, 12) * (F(3, 9) * D(9, 12) + F(3, 6) * D(6, 12) + F(3, 7) * D(7, 12) + F(3, 8) * D(8, 12)) +
        F(9, 6) * (F(3, 6) * D(6, 6) + F(3, 7) * D(6, 7) + F(3, 8) * D(6, 8) + F(3, 9) * D(6, 9)) +
        F(9, 7) * (F(3, 6) * D(6, 7) + F(3, 7) * D(7, 7) + F(3, 8) * D(7, 8) + F(3, 9) * D(7, 9)) +
        F(9, 8) * (F(3, 6) * D(6, 8) + F(3, 7) * D(7, 8) + F(3, 8) * D(8, 8) + F(3, 9) * D(8, 9)),
        F(9, 6) * D(3, 6) + F(9, 7) * D(3, 7) + F(9, 8) * D(3, 8) + F(3, 9) * D(9, 9) + F(9, 10) * D(3, 10) +
        F(9, 11) * D(3, 11) + F(9, 12) * D(3, 12) + F(3, 6) * D(6, 9) + F(3, 7) * D(7, 9) + F(3, 8) * D(8, 9),
        D(3, 9))
    }

    function P3_10(): (r: real)
      ensures r == Entry(3, 10)
    {
      Poly(0.0, F(3, 9) * D(9, 10) + F(3, 6) * D(6, 10) + F(3, 7) * D(7, 10) + F(3, 8) * D(8, 10), D(3, 10))
    }

    function P3_11(): (r: real)
      ensures r == Entry(3, 11)
    {
      Poly(0.0, F(3, 9) * D(9, 11) + F(3, 6) * D(6, 11) + F(3, 7) * D(7, 11) + F(3, 8) * D(8, 11), D(3, 11))
    }

    function P3_12(): (r: real)
      ensures r == Entry(3, 12)
    {
      Poly(0.0, F(3, 9) * D(9, 12) + F(3, 6) * D(6, 12) + F(3, 7) * D(7, 12) + F(3, 8) * D(8, 12), D(3, 12))
    }

    function P4_4(): (r: real)
      ensures r == Entry(4, 4)
    {
      Poly(
        Q(3) * G(4, 3) * G(4, 3) + Q(4) * G(4, 4) * G(4, 4) + Q(5) * G(4, 5) * G(4, 5) + F(4, 9) * (F(4, 9) * D(9, 9)
        + F(4, 6) * D(6, 9) + F(4, 7) * D(7, 9) + F(4, 8) * D(8, 9)) + F(4, 6) * (F(4, 6) * D(6, 6) +
        F(4, 7) * D(6, 7) + F(4, 8) * D(6, 8) + F(4, 9) * D(6, 9)) + F(4, 7) * (F(4, 6) * D(6, 7) + F(4, 7) * D(7, 7)
        + F(4, 8) * D(7, 8) + F(4, 9) * D(7, 9)) + F(4, 8) * (F(4, 6) * D(6, 8) + F(4, 7) * D(7, 8) +
        F(4, 8) * D(8, 8) + F(4, 9) * D(8, 9)),
        2.0 * F(4, 6) * D(4, 6) + 2.0 * F(4, 7) * D(4, 7) + 2.0 * F(4, 8) * D(4, 8) + 2.0 * F(4, 9) * D(4, 9),
        D(4, 4))
    }

    function Quadratic4_5(): (r: real)
      ensures r == FDF(4, 5) + GQG(4, 5)
    {
      F(5, 9) * (F(4, 9) * D(9, 9) + F(4, 6) * D(6, 9) + F(4, 7) * D(7, 9) + F(4, 8) * D(8, 9)) +
      F(5, 6) * (F(4, 6) * D(6, 6) + F(4, 7) * D(6, 7) + F(4, 8) * D(6, 8) + F(4, 9) * D(6, 9)) +
      F(5, 7) * (F(4, 6) * D(6, 7) + F(4, 7) * D(7, 7) + F(4, 8) * D(7, 8) + F(4, 9) * D(7, 9)) +
      F(5, 8) * (F(4, 6) * D(6, 8) + F(4, 7) * D(7, 8) + F(4, 8) * D(8, 8) + F(4, 9) * D(8, 9)) +
      G(4, 3) * G(5, 3) * Q(3) + G(4, 4) * G(5, 4) * Q(4) + G(4, 5) * G(5, 5) * Q(5)
    }

    function Linear4_5(): (r: real)
      ensures r == FD(4, 5) + FD(5, 4)
    {
      F(4, 6) * D(5, 6) + F(5, 6) * D(4, 6) + F(4, 7) * D(5, 7) + F(5, 7) * D(4, 7) + F(4, 8) * D(5, 8) +
      F(5, 8) * D(4, 8) + F(4, 9) * D(5, 9) + F(5, 9) * D(4, 9)
    }

    function P4_5(): (r: real)
      ensures r == Entry(4, 5)
    {
      Poly(Quadratic4_5(), Linear4_5(), D(4, 5))
    }

    function P4_6(): (r: real)
      ensures r == Entry(4, 6)
    {
      Poly(
        F(6, 9) * (F(4, 9) * D(9, 9) + F(4, 6) * D(6, 9) + F(4, 7) * D(7, 9) + F(4, 8) * D(8, 9)) +
        F(6, 10) * (F(4, 9) * D(9, 10) + F(4, 6) * D(6, 10) + F(4, 7) * D(7, 10) + F(4, 8) * D(8, 10)) +
        F(6, 11) * (F(4, 9) * D(9, 11) + F(4, 6) * D(6, 11) + F(4, 7) * D(7, 11) + F(4, 8) * D(8, 11)) +
        F(6, 12) * (F(4, 9) * D(9, 12) + F(4, 6) * D(6, 12) + F(4, 7) * D(7, 12) + F(4, 8) * D(8, 12)) +
        F(6, 7) * (F(4, 6) * D(6, 7) + F(4, 7) * D(7, 7) + F(4, 8) * D(7, 8) + F(4, 9) * D(7, 9)) +
        F(6, 8) * (F(4, 6) * D(6, 8) + F(4, 7) * D(7, 8) + F(4, 8) * D(8, 8) + F(4, 9) * D(8, 9)),
        F(4, 6) * D(6, 6) + F(4, 7) * D(6, 7) + F(6, 7) * D(4, 7) + F(4, 8) * D(6, 8) + F(6, 8) * D(4, 8) +
        F(4, 9) * D(6, 9) + F(6, 9) * D(4, 9) + F(6, 10) * D(4, 10) + F(6, 11) * D(4, 11) + F(6, 12) * D(4, 12),
        D(4, 6))
    }

    function P4_7(): (r: real)
      ensures r == Entry(4, 7)
    {
      Poly(
        F(7, 9) * (F(4, 9) * D(9, 9) + F(4, 6) * D(6, 9) + F(4, 7) * D(7, 9) + F(4, 8) * D(8, 9)) +
        F(7, 10) * (F(4, 9) * D(9, 10) + F(4, 6) * D(6, 10) + F(4, 7) * D(7, 10) + F(4, 8) * D(8, 10)) +
        F(7, 11) * (F(4, 9) * D(9, 11) + F(4, 6) * D(6, 11) + F(4, 7) * D(7, 11) + F(4, 8) * D(8, 11)) +
        F(7, 12) * (F(4, 9) * D(9, 12) + F(4, 6) * D(6, 12) + F(4, 7) * D(7, 12) + F(4, 8) * D(8, 12)) +
        F(7, 6) * (F(4, 6) * D(6, 6) + F(4, 7) * D(6, 7) + F(4, 8) * D(6, 8) + F(4, 9) * D(6, 9)) +
        F(7, 8) * (F(4, 6) * D(6, 8) + F(4, 7) * D(7, 8) + F(4, 8) * D(8, 8) + F(4, 9) * D(8, 9)),
        F(4, 6) * D(6, 7) + F(7, 6) * D(4, 6) + F(4, 7) * D(7, 7) + F(4, 8) * D(7, 8) + F(7, 8) * D(4, 8) +
        F(4, 9) * D(7, 9) + F(7, 9) * D(4, 9) + F(7, 10) * D(4, 10) + F(7, 11) * D(4, 11) + F(7, 12) * D(4, 12),
        D(4, 7))
    }

    function P4_8(): (r: real)
      ensures r == Entry(4, 8)
    {
      Poly(
        F(8, 9) * (F(4, 9) * D(9, 9) + F(4, 6) * D(6, 9) + F(4, 7) * D(7, 9) + F(4, 8) * D(8, 9)) +
        F(8, 10) * (F(4, 9) * D(9, 10) + F(4, 6) * D(6, 10) + F(4, 7) * D(7, 10) + F(4, 8) * D(8, 10)) +
        F(8, 11) * (F(4, 9) * D(9, 11) + F(4, 6) * D(6, 11) + F(4, 7) * D(7, 11) + F(4, 8) * D(8, 11)) +
        F(8, 12) * (F(4, 9) * D(9, 12) + F(4, 6) * D(6, 12) + F(4, 7) * D(7, 12) + F(4, 8) * D(8, 12)) +
        F(8, 6) * (F(4, 6) * D(6, 6) + F(4, 7) * D(6, 7) + F(4, 8) * D(6, 8) + F(4, 9) * D(6, 9)) +
        F(8, 7) * (F(4, 6) * D(6, 7) + F(4, 7) * D(7, 7) + F(4, 8) * D(7, 8) + F(4, 9) * D(7, 9)),
        F(4, 6) * D(6, 8) + F(4, 7) * D(7, 8) + F(8, 6) * D(4, 6) + F(8, 7) * D(4, 7) + F(4, 8) * D(8, 8) +
        F(4, 9) * D(8, 9) + F(8, 9) * D(4, 9) + F(8, 10) * D(4, 10) + F(8, 11) * D(4, 11) + F(8, 12) * D(4, 12),
        D(4, 8))
    }

    function P4_9(): (r: real)
      ensures r == Entry(4, 9)
    {
      Poly(
        F(9, 10) * (F(4, 9) * D(9, 10) + F(4, 6) * D(6, 10) + F(4, 7) * D(7, 10) + F(4, 8) * D(8, 10)) +
        F(9, 11) * (F(4, 9) * D(9, 11) + F(4, 6) * D(6, 11) + F(4, 7) * D(7, 11) + F(4, 8) * D(8, 11)) +
        F(9, 12) * (F(4, 9) * D(9, 12) + F(4, 6) * D(6, 12) + F(4, 7) * D(7, 12) + F(4, 8) * D(8, 12)) +
        F(9, 6) * (F(4, 6) * D(6, 6) + F(4, 7) * D(6, 7) + F(4, 8) * D(6, 8) + F(4, 9) * D(6, 9)) +
        F(9, 7) * (F(4, 6) * D(6, 7) + F(4, 7) * D(7, 7) + F(4, 8) * D(7, 8) + F(4, 9) * D(7, 9)) +
        F(9, 8) * (F(4, 6) * D(6, 8) + F(4, 7) * D(7, 8) + F(4, 8) * D(8, 8) + F(4, 9) * D(8, 9)),
        F(9, 6) * D(4, 6) + F(9, 7) * D(4, 7) + F(9, 8) * D(4, 8) + F(4, 9) * D(9, 9) + F(9, 10) * D(4, 10) +
        F(9, 11) * D(4, 11) + F(9, 12) * D(4, 12) + F(4, 6) * D(6, 9) + F(4, 7) * D(7, 9) + F(4, 8) * D(8, 9),
        D(4, 9))
    }

    function P4_10(): (r: real)
      ensures r == Entry(4, 10)
    {
      Poly(0.0, F(4, 9) * D(9, 10) + F(4, 6) * D(6, 10) + F(4, 7) * D(7, 10) + F(4, 8) * D(8, 10), D(4, 10))
    }

    function P4_11(): (r: real)
      ensures r == Entry(4, 11)
    {
      Poly(0.0, F(4, 9) * D(9, 11) + F(4, 6) * D(6, 11) + F(4, 7) * D(7, 11) + F(4, 8) * D(8, 11), D(4, 11))
    }

    function P4_12(): (r: real)
      ensures r == Entry(4, 12)
    {
      Poly(0.0, F(4, 9) * D(9, 12) + F(4, 6) * D(6, 12) + F(4, 7) * D(7, 12) + F(4, 8) * D(8, 12), D(4, 12))
    }

    function P5_5(): (r: real)
      ensures r == Entry(5, 5)
    {
      Poly(
        Q(3) * G(5, 3) * G(5, 3) + Q(4) * G(5, 4) * G(5, 4) + Q(5) * G(5, 5) * G(5, 5) + F(5, 9) * (F(5, 9) * D(9, 9)
        + F(5, 6) * D(6, 9) + F(5, 7) * D(7, 9) + F(5, 8) * D(8, 9)) + F(5, 6) * (F(5, 6) * D(6, 6) +
        F(5, 7) * D(6, 7) + F(5, 8) * D(6, 8) + F(5, 9) * D(6, 9)) + F(5, 7) * (F(5, 6) * D(6, 7) + F(5, 7) * D(7, 7)
        + F(5, 8) * D(7, 8) + F(5, 9) * D(7, 9)) + F(5, 8) * (F(5, 6) * D(6, 8) + F(5, 7) * D(7, 8) +
        F(5, 8) * D(8, 8) + F(5, 9) * D(8, 9)),
        2.0 * F(5, 6) * D(5, 6) + 2.0 * F(5, 7) * D(5, 7) + 2.0 * F(5, 8) * D(5, 8) + 2.0 * F(5, 9) * D(5, 9),
        D(5, 5))
    }

    function P5_6(): (r: real)
      ensures r == Entry(5, 6)
    {
      Poly(
        F(6, 9) * (F(5, 9) * D(9, 9) + F(5, 6) * D(6, 9) + F(5, 7) * D(7, 9) + F(5, 8) * D(8, 9)) +
        F(6, 10) * (F(5, 9) * D(9, 10) + F(5, 6) * D(6, 10) + F(5, 7) * D(7, 10) + F(5, 8) * D(8, 10)) +
        F(6, 11) * (F(5, 9) * D(9, 11) + F(5, 6) * D(6, 11) + F(5, 7) * D(7, 11) + F(5, 8) * D(8, 11)) +
        F(6, 12) * (F(5, 9) * D(9, 12) + F(5, 6) * D(6, 12) + F(5, 7) * D(7, 12) + F(5, 8) * D(8, 12)) +
        F(6, 7) * (F(5, 6) * D(6, 7) + F(5, 7) * D(7, 7) + F(5, 8) * D(7, 8) + F(5, 9) * D(7, 9)) +
        F(6, 8) * (F(5, 6) * D(6, 8) + F(5, 7) * D(7, 8) + F(5, 8) * D(8, 8) + F(5, 9) * D(8, 9)),
        F(5, 6) * D(6, 6) + F(5, 7) * D(6, 7) + F(6, 7) * D(5, 7) + F(5, 8) * D(6, 8) + F(6, 8) * D(5, 8) +
        F(5, 9) * D(6, 9) + F(6, 9) * D(5, 9) + F(6, 10) * D(5, 10) + F(6, 11) * D(5, 11) + F(6, 12) * D(5, 12),
        D(5, 6))
    }

    function P5_7(): (r: real)
      ensures r == Entry(5, 7)
    {
      Poly(
        F(7, 9) * (F(5, 9) * D(9, 9) + F(5, 6) * D(6, 9) + F(5, 7) * D(7, 9) + F(5, 8) * D(8, 9)) +
        F(7, 10) * (F(5, 9) * D(9, 10) + F(5, 6) * D(6, 10) + F(5, 7) * D(7, 10) + F(5, 8) * D(8, 10)) +
        F(7, 11) * (F(5, 9) * D(9, 11) + F(5, 6) * D(6, 11) + F(5, 7) * D(7, 11) + F(5, 8) * D(8, 11)) +
        F(7, 12) * (F(5, 9) * D(9, 12) + F(5, 6) * D(6, 12) + F(5, 7) * D(7, 12) + F(5, 8) * D(8, 12)) +
        F(7, 6) * (F(5, 6) * D(6, 6) + F(5, 7) * D(6, 7) + F(5, 8) * D(6, 8) + F(5, 9) * D(6, 9)) +
        F(7, 8) * (F(5, 6) * D(6, 8) + F(5, 7) * D(7, 8) + F(5, 8) * D(8, 8) + F(5, 9) * D(8, 9)),
        F(5, 6) * D(6, 7) + F(7, 6) * D(5, 6) + F(5, 7) * D(7, 7) + F(5, 8) * D(7, 8) + F(7, 8) * D(5, 8) +
        F(5, 9) * D(7, 9) + F(7, 9) * D(5, 9) + F(7, 10) * D(5, 10) + F(7, 11) * D(5, 11) + F(7, 12) * D(5, 12),
        D(5, 7))
    }

    function P5_8(): (r: real)
      ensures r == Entry(5, 8)
    {
      Poly(
        F(8, 9) * (F(5, 9) * D(9, 9) + F(5, 6) * D(6, 9) + F(5, 7) * D(7, 9) + F(5, 8) * D(8, 9)) +
        F(8, 10) * (F(5, 9) * D(9, 10) + F(5, 6) * D(6, 10) + F(5, 7) * D(7, 10) + F(5, 8) * D(8, 10)) +
        F(8, 11) * (F(5, 9) * D(9, 11) + F(5, 6) * D(6, 11) + F(5, 7) * D(7, 11) + F(5, 8) * D(8, 11)) +
        F(8, 12) * (F(5, 9) * D(9, 12) + F(5, 6) * D(6, 12) + F(5, 7) * D(7, 12) + F(5, 8) * D(8, 12)) +
        F(8, 6) * (F(5, 6) * D(6, 6) + F(5, 7) * D(6, 7) + F(5, 8) * D(6, 8) + F(5, 9) * D(6, 9)) +
        F(8, 7) * (F(5, 6) * D(6, 7) + F(5, 7) * D(7, 7) + F(5, 8) * D(7, 8) + F(5, 9) * D(7, 9)),
        F(5, 6) * D(6, 8) + F(5, 7) * D(7, 8) + F(8, 6) * D(5, 6) + F(8, 7) * D(5, 7) + F(5, 8) * D(8, 8) +
        F(5, 9) * D(8, 9) + F(8, 9) * D(5, 9) + F(8, 10) * D(5, 10) + F(8, 11) * D(5, 11) + F(8, 12) * D(5, 12),
        D(5, 8))
    }

    function P5_9(): (r: real)
      ensures r == Entry(5, 9)
    {
      Poly(
        F(9, 10) * (F(5, 9) * D(9, 10) + F(5, 6) * D(6, 10) + F(5, 7) * D(7, 10) + F(5, 8) * D(8, 10)) +
        F(9, 11) * (F(5, 9) * D(9, 11) + F(5, 6) * D(6, 11) + F(5, 7) * D(7, 11) + F(5, 8) * D(8, 11)) +
        F(9, 12) * (F(5, 9) * D(9, 12) + F(5, 6) * D(6, 12) + F(5, 7) * D(7, 12) + F(5, 8) * D(8, 12)) +
        F(9, 6) * (F(5, 6) * D(6, 6) + F(5, 7) * D(6, 7) + F(5, 8) * D(6, 8) + F(5, 9) * D(6, 9)) +
        F(9, 7) * (F(5, 6) * D(6, 7) + F(5, 7) * D(7, 7) + F(5, 8) * D(7, 8) + F(5, 9) * D(7, 9)) +
        F(9, 8) * (F(5, 6) * D(6, 8) + F(5, 7) * D(7, 8) + F(5, 8) * D(8, 8) + F(5, 9) * D(8, 9)),
        F(9, 6) * D(5, 6) + F(9, 7) * D(5, 7) + F(9, 8) * D(5, 8) + F(5, 9) * D(9, 9) + F(9, 10) * D(5, 10) +
        F(9, 11) * D(5, 11) + F(9, 12) * D(5, 12) + F(5, 6) * D(6, 9) + F(5, 7) * D(7, 9) + F(5, 8) * D(8, 9),
        D(5, 9))
    }

    function P5_10(): (r: real)
      ensures r == Entry(5, 10)
    {
      Poly(0.0, F(5, 9) * D(9, 10) + F(5, 6) * D(6, 10) + F(5, 7) * D(7, 10) + F(5, 8) * D(8, 10), D(5, 10))
    }

    function P5_11(): (r: real)
      ensures r == Entry(5, 11)
    {
      Poly(0.0, F(5, 9) * D(9, 11) + F(5, 6) * D(6, 11) + F(5, 7) * D(7, 11) + F(5, 8) * D(8, 11), D(5, 11))
    }

    function P5_12(): (r: real)
      ensures r == Entry(5, 12)
    {
      Poly(0.0, F(5, 9) * D(9, 12) + F(5, 6) * D(6, 12) + F(5, 7) * D(7, 12) + F(5, 8) * D(8, 12), D(5, 12))
    }

    function P6_6(): (r: real)
      ensures r == Entry(6, 6)
    {
      Poly(
        Q(0) * G(6, 0) * G(6, 0) + Q(1) * G(6, 1) * G(6, 1) + Q(2) * G(6, 2) * G(6, 2) + F(6, 9) * (F(6, 9) * D(9, 9)
        + F(6, 10) * D(9, 10) + F(6, 11) * D(9, 11) + F(6, 12) * D(9, 12) + F(6, 7) * D(7, 9) + F(6, 8) * D(8, 9)) +
        F(6, 10) * (F(6, 9) * D(9, 10) + F(6, 10) * D(10, 10) + F(6, 11) * D(10, 11) + F(6, 12) * D(10, 12) +
        F(6, 7) * D(7, 10) + F(6, 8) * D(8, 10)) + F(6, 11) * (F(6, 9) * D(9, 11) + F(6, 10) * D(10, 11) +
        F(6, 11) * D(11, 11) + F(6, 12) * D(11, 12) + F(6, 7) * D(7, 11) + F(6, 8) * D(8, 11)) +
        F(6, 12) * (F(6, 9) * D(9, 12) + F(6, 10) * D(10, 12) + F(6, 11) * D(11, 12) + F(6, 12) * D(12, 12) +
        F(6, 7) * D(7, 12) + F(6, 8) * D(8, 12)) + F(6, 7) * (F(6, 7) * D(7, 7) + F(6, 8) * D(7, 8) +
        F(6, 9) * D(7, 9) + F(6, 10) * D(7, 10) + F(6, 11) * D(7, 11) + F(6, 12) * D(7, 12)) +
        F(6, 8) * (F(6, 7) * D(7, 8) + F(6, 8) * D(8, 8) + F(6, 9) * D(8, 9) + F(6, 10) * D(8, 10) +
        F(6, 11) * D(8, 11) + F(6, 12) * D(8, 12)),
        2.0 * F(6, 7) * D(6, 7) + 2.0 * F(6, 8) * D(6, 8) + 2.0 * F(6, 9) * D(6, 9) + 2.0 * F(6, 10) * D(6, 10) +
        2.0 * F(6, 11) * D(6, 11) + 2.0 * F(6, 12) * D(6, 12),
        D(6, 6))
    }

    function P6_7(): (r: real)
      ensures r == Entry(6, 7)
    {
      Poly(
        F(7, 9) * (F(6, 9) * D(9, 9) + F(6, 10) * D(9, 10) + F(6, 11) * D(9, 11) + F(6, 12) * D(9, 12) +
        F(6, 7) * D(7, 9) + F(6, 8) * D(8, 9)) + F(7, 10) * (F(6, 9) * D(9, 10) + F(6, 10) * D(10, 10) +
        F(6, 11) * D(10, 11) + F(6, 12) * D(10, 12) + F(6, 7) * D(7, 10) + F(6, 8) * D(8, 10)) +
        F(7, 11) * (F(6, 9) * D(9, 11) + F(6, 10) * D(10, 11) + F(6, 11) * D(11, 11) + F(6, 12) * D(11, 12) +
        F(6, 7) * D(7, 11) + F(6, 8) * D(8, 11)) + F(7, 12) * (F(6, 9) * D(9, 12) + F(6, 10) * D(10, 12) +
        F(6, 11) * D(11, 12) + F(6, 12) * D(12, 12) + F(6, 7) * D(7, 12) + F(6, 8) * D(8, 12)) +
        F(7, 6) * (F(6, 7) * D(6, 7) + F(6, 8) * D(6, 8) + F(6, 9) * D(6, 9) + F(6, 10) * D(6, 10) +
        F(6, 11) * D(6, 11) + F(6, 12) * D(6, 12)) + F(7, 8) * (F(6, 7) * D(7, 8) + F(6, 8) * D(8, 8) +
        F(6, 9) * D(8, 9) + F(6, 10) * D(8, 10) + F(6, 11) * D(8, 11) + F(6, 12) * D(8, 12)) +
        G(6, 0) * G(7, 0) * Q(0) + G(6, 1) * G(7, 1) * Q(1) + G(6, 2) * G(7, 2) * Q(2),
        F(7, 6) * D(6, 6) + F(6, 7) * D(7, 7) + F(6, 8) * D(7, 8) + F(7, 8) * D(6, 8) + F(6, 9) * D(7, 9) +
        F(7, 9) * D(6, 9) + F(6, 10) * D(7, 10) + F(7, 10) * D(6, 10) + F(6, 11) * D(7, 11) + F(7, 11) * D(6, 11) +
        F(6, 12) * D(7, 12) + F(7, 12) * D(6, 12),
        D(6, 7))
    }

    function P6_8(): (r: real)
      ensures r == Entry(6, 8)
    {
      Poly(
        F(8, 9) * (F(6, 9) * D(9, 9) + F(6, 10) * D(9, 10) + F(6, 11) * D(9, 11) + F(6, 12) * D(9, 12) +
        F(6, 7) * D(7, 9) + F(6, 8) * D(8, 9)) + F(8, 10) * (F(6, 9) * D(9, 10) + F(6, 10) * D(10, 10) +
        F(6, 11) * D(10, 11) + F(6, 12) * D(10, 12) + F(6, 7) * D(7, 10) + F(6, 8) * D(8, 10)) +
        F(8, 11) * (F(6, 9) * D(9, 11) + F(6, 10) * D(10, 11) + F(6, 11) * D(11, 11) + F(6, 12) * D(11, 12) +
        F(6, 7) * D(7, 11) + F(6, 8) * D(8, 11)) + F(8, 12) * (F(6, 9) * D(9, 12) + F(6, 10) * D(10, 12) +
        F(6, 11) * D(11, 12) + F(6, 12) * D(12, 12) + F(6, 7) * D(7, 12) + F(6, 8) * D(8, 12)) +
        F(8, 6) * (F(6, 7) * D(6, 7) + F(6, 8) * D(6, 8) + F(6, 9) * D(6, 9) + F(6, 10) * D(6, 10) +
        F(6, 11) * D(6, 11) + F(6, 12) * D(6, 12)) + F(8, 7) * (F(6, 7) * D(7, 7) + F(6, 8) * D(7, 8) +
        F(6, 9) * D(7, 9) + F(6, 10) * D(7, 10) + F(6, 11) * D(7, 11) + F(6, 12) * D(7, 12)) +
        G(6, 0) * G(8, 0) * Q(0) + G(6, 1) * G(8, 1) * Q(1) + G(6, 2) * G(8, 2) * Q(2),
        F(6, 7) * D(7, 8) + F(8, 6) * D(6, 6) + F(8, 7) * D(6, 7) + F(6, 8) * D(8, 8) + F(6, 9) * D(8, 9) +
        F(8, 9) * D(6, 9) + F(6, 10) * D(8, 10) + F(8, 10) * D(6, 10) + F(6, 11) * D(8, 11) + F(8, 11) * D(6, 11) +
        F(6, 12) * D(8, 12) + F(8, 12) * D(6, 12),
        D(6, 8))
    }

    function P6_9(): (r: real)
      ensures r == Entry(6, 9)
    {
      Poly(
        F(9, 10) * (F(6, 9) * D(9, 10) + F(6, 10) * D(10, 10) + F(6, 11) * D(10, 11) + F(6, 12) * D(10, 12) +
        F(6, 7) * D(7, 10) + F(6, 8) * D(8, 10)) + F(9, 11) * (F(6, 9) * D(9, 11) + F(6, 10) * D(10, 11) +
        F(6, 11) * D(11, 11) + F(6, 12) * D(11, 12) + F(6, 7) * D(7, 11) + F(6, 8) * D(8, 11)) +
        F(9, 12) * (F(6, 9) * D(9, 12) + F(6, 10) * D(10, 12) + F(6, 11) * D(11, 12) + F(6, 12) * D(12, 12) +
        F(6, 7) * D(7, 12) + F(6, 8) * D(8, 12)) + F(9, 6) * (F(6, 7) * D(6, 7) + F(6, 8) * D(6, 8) +
        F(6, 9) * D(6, 9) + F(6, 10) * D(6, 10) + F(6, 11) * D(6, 11) + F(6, 12) * D(6, 12)) +
        F(9, 7) * (F(6, 7) * D(7, 7) + F(6, 8) * D(7, 8) + F(6, 9) * D(7, 9) + F(6, 10) * D(7, 10) +
        F(6, 11) * D(7, 11) + F(6, 12) * D(7, 12)) + F(9, 8) * (F(6, 7) * D(7, 8) + F(6, 8) * D(8, 8) +
        F(6, 9) * D(8, 9) + F(6, 10) * D(8, 10) + F(6, 11) * D(8, 11) + F(6, 12) * D(8, 12)) +
        G(9, 0) * G(6, 0) * Q(0) + G(9, 1) * G(6, 1) * Q(1) + G(9, 2) * G(6, 2) * Q(2),
        F(9, 6) * D(6, 6) + F(9, 7) * D(6, 7) + F(9, 8) * D(6, 8) + F(6, 9) * D(9, 9) + F(9, 10) * D(6, 10) +
        F(6, 10) * D(9, 10) + F(9, 11) * D(6, 11) + F(6, 11) * D(9, 11) + F(9, 12) * D(6, 12) + F(6, 12) * D(9, 12) +
        F(6, 7) * D(7, 9) + F(6, 8) * D(8, 9),
        D(6, 9))
    }

    function P6_10(): (r: real)
      ensures r == Entry(6, 10)
    {
      Poly(
        0.0,
        F(6, 9) * D(9, 10) + F(6, 10) * D(10, 10) + F(6, 11) * D(10, 11) + F(6, 12) * D(10, 12) + F(6, 7) * D(7, 10) +
        F(6, 8) * D(8, 10),
        D(6, 10))
    }

    function P6_11(): (r: real)
      ensures r == Entry(6, 11)
    {
      Poly(
        0.0,
        F(6, 9) * D(9, 11) + F(6, 10) * D(10, 11) + F(6, 11) * D(11, 11) + F(6, 12) * D(11, 12) + F(6, 7) * D(7, 11) +
        F(6, 8) * D(8, 11),
        D(6, 11))
    }

    function P6_12(): (r: real)
      ensures r == Entry(6, 12)
    {
      Poly(
        0.0,
        F(6, 9) * D(9, 12) + F(6, 10) * D(10, 12) + F(6, 11) * D(11, 12) + F(6, 12) * D(12, 12) + F(6, 7) * D(7, 12) +
        F(6, 8) * D(8, 12),
        D(6, 12))
    }

    function P7_7(): (r: real)
      ensures r == Entry(7, 7)
    {
      Poly(
        Q(0) * G(7, 0) * G(7, 0) + Q(1) * G(7, 1) * G(7, 1) + Q(2) * G(7, 2) * G(7, 2) + F(7, 9) * (F(7, 9) * D(9, 9)
        + F(7, 10) * D(9, 10) + F(7, 11) * D(9, 11) + F(7, 12) * D(9, 12) + F(7, 6) * D(6, 9) + F(7, 8) * D(8, 9)) +
        F(7, 10) * (F(7, 9) * D(9, 10) + F(7, 10) * D(10, 10) + F(7, 11) * D(10, 11) + F(7, 12) * D(10, 12) +
        F(7, 6) * D(6, 10) + F(7, 8) * D(8, 10)) + F(7, 11) * (F(7, 9) * D(9, 11) + F(7, 10) * D(10, 11) +
        F(7, 11) * D(11, 11) + F(7, 12) * D(11, 12) + F(7, 6) * D(6, 11) + F(7, 8) * D(8, 11)) +
        F(7, 12) * (F(7, 9) * D(9, 12) + F(7, 10) * D(10, 12) + F(7, 11) * D(11, 12) + F(7, 12) * D(12, 12) +
        F(7, 6) * D(6, 12) + F(7, 8) * D(8, 12)) + F(7, 6) * (F(7, 6) * D(6, 6) + F(7, 8) * D(6, 8) +
        F(7, 9) * D(6, 9) + F(7, 10) * D(6, 10) + F(7, 11) * D(6, 11) + F(7, 12) * D(6, 12)) +
        F(7, 8) * (F(7, 6) * D(6, 8) + F(7, 8) * D(8, 8) + F(7, 9) * D(8, 9) + F(7, 10) * D(8, 10) +
        F(7, 11) * D(8, 11) + F(7, 12) * D(8, 12)),
        2.0 * F(7, 6) * D(6, 7) + 2.0 * F(7, 8) * D(7, 8) + 2.0 * F(7, 9) * D(7, 9) + 2.0 * F(7, 10) * D(7, 10) +
        2.0 * F(7, 11) * D(7, 11) + 2.0 * F(7, 12) * D(7, 12),
        D(7, 7))
    }

    function P7_8(): (r: real)
      ensures r == Entry(7, 8)
    {
      Poly(
        F(8, 9) * (F(7, 9) * D(9, 9) + F(7, 10) * D(9, 10) + F(7, 11) * D(9, 11) + F(7, 12) * D(9, 12) +
        F(7, 6) * D(6, 9) + F(7, 8) * D(8, 9)) + F(8, 10) * (F(7, 9) * D(9, 10) + F(7, 10) * D(10, 10) +
        F(7, 11) * D(10, 11) + F(7, 12) * D(10, 12) + F(7, 6) * D(6, 10) + F(7, 8) * D(8, 10)) +
        F(8, 11) * (F(7, 9) * D(9, 11) + F(7, 10) * D(10, 11) + F(7, 11) * D(11, 11) + F(7, 12) * D(11, 12) +
        F(7, 6) * D(6, 11) + F(7, 8) * D(8, 11)) + F(8, 12) * (F(7, 9) * D(9, 12) + F(7, 10) * D(10, 12) +
        F(7, 11) * D(11, 12) + F(7, 12) * D(12, 12) + F(7, 6) * D(6, 12) + F(7, 8) * D(8, 12)) +
        F(8, 6) * (F(7, 6) * D(6, 6) + F(7, 8) * D(6, 8) + F(7, 9) * D(6, 9) + F(7, 10) * D(6, 10) +
        F(7, 11) * D(6, 11) + F(7, 12) * D(6, 12)) + F(8, 7) * (F(7, 6) * D(6, 7) + F(7, 8) * D(7, 8) +
        F(7, 9) * D(7, 9) + F(7, 10) * D(7, 10) + F(7, 11) * D(7, 11) + F(7, 12) * D(7, 12)) +
        G(7, 0) * G(8, 0) * Q(0) + G(7, 1) * G(8, 1) * Q(1) + G(7, 2) * G(8, 2) * Q(2),
        F(7, 6) * D(6, 8) + F(8, 6) * D(6, 7) + F(8, 7) * D(7, 7) + F(7, 8) * D(8, 8) + F(7, 9) * D(8, 9) +
        F(8, 9) * D(7, 9) + F(7, 10) * D(8, 10) + F(8, 10) * D(7, 10) + F(7, 11) * D(8, 11) + F(8, 11) * D(7, 11) +
        F(7, 12) * D(8, 12) + F(8, 12) * D(7, 12),
        D(7, 8))
    }

    function P7_9(): (r: real)
      ensures r == Entry(7, 9)
    {
      Poly(
        F(9, 10) * (F(7, 9) * D(9, 10) + F(7, 10) * D(10, 10) + F(7, 11) * D(10, 11) + F(7, 12) * D(10, 12) +
        F(7, 6) * D(6, 10) + F(7, 8) * D(8, 10)) + F(9, 11) * (F(7, 9) * D(9, 11) + F(7, 10) * D(10, 11) +
        F(7, 11) * D(11, 11) + F(7, 12) * D(11, 12) + F(7, 6) * D(6, 11) + F(7, 8) * D(8, 11)) +
        F(9, 12) * (F(7, 9) * D(9, 12) + F(7, 10) * D(10, 12) + F(7, 11) * D(11, 12) + F(7, 12) * D(12, 12) +
        F(7, 6) * D(6, 12) + F(7, 8) * D(8, 12)) + F(9, 6) * (F(7, 6) * D(6, 6) + F(7, 8) * D(6, 8) +
        F(7, 9) * D(6, 9) + F(7, 10) * D(6, 10) + F(7, 11) * D(6, 11) + F(7, 12) * D(6, 12)) +
        F(9, 7) * (F(7, 6) * D(6, 7) + F(7, 8) * D(7, 8) + F(7, 9) * D(7, 9) + F(7, 10) * D(7, 10) +
        F(7, 11) * D(7, 11) + F(7, 12) * D(7, 12)) + F(9, 8) * (F(7, 6) * D(6, 8) + F(7, 8) * D(8, 8) +
        F(7, 9) * D(8, 9) + F(7, 10) * D(8, 10) + F(7, 11) * D(8, 11) + F(7, 12) * D(8, 12)) +
        G(9, 0) * G(7, 0) * Q(0) + G(9, 1) * G(7, 1) * Q(1) + G(9, 2) * G(7, 2) * Q(2),
        F(9, 6) * D(6, 7) + F(9, 7) * D(7, 7) + F(9, 8) * D(7, 8) + F(7, 9) * D(9, 9) + F(9, 10) * D(7, 10) +
        F(7, 10) * D(9, 10) + F(9, 11) * D(7, 11) + F(7, 11) * D(9, 11) + F(9, 12) * D(7, 12) + F(7, 12) * D(9, 12) +
        F(7, 6) * D(6, 9) + F(7, 8) * D(8, 9),
        D(7, 9))
    }

    function P7_10(): (r: real)
      ensures r == Entry(7, 10)
    {
      Poly(
        0.0,
        F(7, 9) * D(9, 10) + F(7, 10) * D(10, 10) + F(7, 11) * D(10, 11) + F(7, 12) * D(10, 12) + F(7, 6) * D(6, 10) +
        F(7, 8) * D(8, 10),
        D(7, 10))
    }

    function P7_11(): (r: real)
      ensures r == Entry(7, 11)
    {
      Poly(
        0.0,
        F(7, 9) * D(9, 11) + F(7, 10) * D(10, 11) + F(7, 11) * D(11, 11) + F(7, 12) * D(11, 12) + F(7, 6) * D(6, 11) +
        F(7, 8) * D(8, 11),
        D(7, 11))
    }

    function P7_12(): (r: real)
      ensures r == Entry(7, 12)
    {
      Poly(
        0.0,
        F(7, 9) * D(9, 12) + F(7, 10) * D(10, 12) + F(7, 11) * D(11, 12) + F(7, 12) * D(12, 12) + F(7, 6) * D(6, 12) +
        F(7, 8) * D(8, 12),
        D(7, 12))
    }

    function P8_8(): (r: real)
      ensures r == Entry(8, 8)
    {
      Poly(
        Q(0) * G(8, 0) * G(8, 0) + Q(1) * G(8, 1) * G(8, 1) + Q(2) * G(8, 2) * G(8, 2) + F(8, 9) * (F(8, 9) * D(9, 9)
        + F(8, 10) * D(9, 10) + F(8, 11) * D(9, 11) + F(8, 12) * D(9, 12) + F(8, 6) * D(6, 9) + F(8, 7) * D(7, 9)) +
        F(8, 10) * (F(8, 9) * D(9, 10) + F(8, 10) * D(10, 10) + F(8, 11) * D(10, 11) + F(8, 12) * D(10, 12) +
        F(8, 6) * D(6, 10) + F(8, 7) * D(7, 10)) + F(8, 11) * (F(8, 9) * D(9, 11) + F(8, 10) * D(10, 11) +
        F(8, 11) * D(11, 11) + F(8, 12) * D(11, 12) + F(8, 6) * D(6, 11) + F(8, 7) * D(7, 11)) +
        F(8, 12) * (F(8, 9) * D(9, 12) + F(8, 10) * D(10, 12) + F(8, 11) * D(11, 12) + F(8, 12) * D(12, 12) +
        F(8, 6) * D(6, 12) + F(8, 7) * D(7, 12)) + F(8, 6) * (F(8, 6) * D(6, 6) + F(8, 7) * D(6, 7) +
        F(8, 9) * D(6, 9) + F(8, 10) * D(6, 10) + F(8, 11) * D(6, 11) + F(8, 12) * D(6, 12)) +
        F(8, 7) * (F(8, 6) * D(6, 7) + F(8, 7) * D(7, 7) + F(8, 9) * D(7, 9) + F(8, 10) * D(7, 10) +
        F(8, 11) * D(7, 11) + F(8, 12) * D(7, 12)),
        2.0 * F(8, 6) * D(6, 8) + 2.0 * F(8, 7) * D(7, 8) + 2.0 * F(8, 9) * D(8, 9) + 2.0 * F(8, 10) * D(8, 10) +
        2.0 * F(8, 11) * D(8, 11) + 2.0 * F(8, 12) * D(8, 12),
        D(8, 8))
    }

    function P8_9(): (r: real)
      ensures r == Entry(8, 9)
    {
      Poly(
        F(9, 10) * (F(8, 9) * D(9, 10) + F(8, 10) * D(10, 10) + F(8, 11) * D(10, 11) + F(8, 12) * D(10, 12) +
        F(8, 6) * D(6, 10) + F(8, 7) * D(7, 10)) + F(9, 11) * (F(8, 9) * D(9, 11) + F(8, 10) * D(10, 11) +
        F(8, 11) * D(11, 11) + F(8, 12) * D(11, 12) + F(8, 6) * D(6, 11) + F(8, 7) * D(7, 11)) +
        F(9, 12) * (F(8, 9) * D(9, 12) + F(8, 10) * D(10, 12) + F(8, 11) * D(11, 12) + F(8, 12) * D(12, 12) +
        F(8, 6) * D(6, 12) + F(8, 7) * D(7, 12)) + F(9, 6) * (F(8, 6) * D(6, 6) + F(8, 7) * D(6, 7) +
        F(8, 9) * D(6, 9) + F(8, 10) * D(6, 10) + F(8, 11) * D(6, 11) + F(8, 12) * D(6, 12)) +
        F(9, 7) * (F(8, 6) * D(6, 7) + F(8, 7) * D(7, 7) + F(8, 9) * D(7, 9) + F(8, 10) * D(7, 10) +
        F(8, 11) * D(7, 11) + F(8, 12) * D(7, 12)) + F(9, 8) * (F(8, 6) * D(6, 8) + F(8, 7) * D(7, 8) +
        F(8, 9) * D(8, 9) + F(8, 10) * D(8, 10) + F(8, 11) * D(8, 11) + F(8, 12) * D(8, 12)) +
        G(9, 0) * G(8, 0) * Q(0) + G(9, 1) * G(8, 1) * Q(1) + G(9, 2) * G(8, 2) * Q(2),
        F(9, 6) * D(6, 8) + F(9, 7) * D(7, 8) + F(9, 8) * D(8, 8) + F(8, 9) * D(9, 9) + F(9, 10) * D(8, 10) +
        F(8, 10) * D(9, 10) + F(9, 11) * D(8, 11) + F(8, 11) * D(9, 11) + F(9, 12) * D(8, 12) + F(8, 12) * D(9, 12) +
        F(8, 6) * D(6, 9) + F(8, 7) * D(7, 9),
        D(8, 9))
    }

    function P8_10(): (r: real)
      ensures r == Entry(8, 10)
    {
      Poly(
        0.0,
        F(8, 9) * D(9, 10) + F(8, 10) * D(10, 10) + F(8, 11) * D(10, 11) + F(8, 12) * D(10, 12) + F(8, 6) * D(6, 10) +
        F(8, 7) * D(7, 10),
        D(8, 10))
    }

    function P8_11(): (r: real)
      ensures r == Entry(8, 11)
    {
      Poly(
        0.0,
        F(8, 9) * D(9, 11) + F(8, 10) * D(10, 11) + F(8, 11) * D(11, 11) + F(8, 12) * D(11, 12) + F(8, 6) * D(6, 11) +
        F(8, 7) * D(7, 11),
        D(8, 11))
    }

    function P8_12(): (r: real)
      ensures r == Entry(8, 12)
    {
      Poly(
        0.0,
        F(8, 9) * D(9, 12) + F(8, 10) * D(10, 12) + F(8, 11) * D(11, 12) + F(8, 12) * D(12, 12) + F(8, 6) * D(6, 12) +
        F(8, 7) * D(7, 12),
        D(8, 12))
    }

    function P9_9(): (r: real)
      ensures r == Entry(9, 9)
    {
      Poly(
        Q(0) * G(9, 0) * G(9, 0) + Q(1) * G(9, 1) * G(9, 1) + Q(2) * G(9, 2) * G(9, 2) +
        F(9, 10) * (F(9, 10) * D(10, 10) + F(9, 11) * D(10, 11) + F(9, 12) * D(10, 12) + F(9, 6) * D(6, 10) +
        F(9, 7) * D(7, 10) + F(9, 8) * D(8, 10)) + F(9, 11) * (F(9, 10) * D(10, 11) + F(9, 11) * D(11, 11) +
        F(9, 12) * D(11, 12) + F(9, 6) * D(6, 11) + F(9, 7) * D(7, 11) + F(9, 8) * D(8, 11)) +
        F(9, 12) * (F(9, 10) * D(10, 12) + F(9, 11) * D(11, 12) + F(9, 12) * D(12, 12) + F(9, 6) * D(6, 12) +
        F(9, 7) * D(7, 12) + F(9, 8) * D(8, 12)) + F(9, 6) * (F(9, 6) * D(6, 6) + F(9, 7) * D(6, 7) +
        F(9, 8) * D(6, 8) + F(9, 10) * D(6, 10) + F(9, 11) * D(6, 11) + F(9, 12) * D(6, 12)) +
        F(9, 7) * (F(9, 6) * D(6, 7) + F(9, 7) * D(7, 7) + F(9, 8) * D(7, 8) + F(9, 10) * D(7, 10) +
        F(9, 11) * D(7, 11) + F(9, 12) * D(7, 12)) + F(9, 8) * (F(9, 6) * D(6, 8) + F(9, 7) * D(7, 8) +
        F(9, 8) * D(8, 8) + F(9, 10) * D(8, 10) + F(9, 11) * D(8, 11) + F(9, 12) * D(8, 12)),
        2.0 * F(9, 10) * D(9, 10) + 2.0 * F(9, 11) * D(9, 11) + 2.0 * F(9, 12) * D(9, 12) + 2.0 * F(9, 6) * D(6, 9) +
        2.0 * F(9, 7) * D(7, 9) + 2.0 * F(9, 8) * D(8, 9),
        D(9, 9))
    }

    function P9_10(): (r: real)
      ensures r == Entry(9, 10)
    {
      Poly(
        0.0,
        F(9, 10) * D(10, 10) + F(9, 11) * D(10, 11) + F(9, 12) * D(10, 12) + F(9, 6) * D(6, 10) + F(9, 7) * D(7, 10) +
        F(9, 8) * D(8, 10),
        D(9, 10))
    }

    function P9_11(): (r: real)
      ensures r == Entry(9, 11)
    {
      Poly(
        0.0,
        F(9, 10) * D(10, 11) + F(9, 11) * D(11, 11) + F(9, 12) * D(11, 12) + F(9, 6) * D(6, 11) + F(9, 7) * D(7, 11) +
        F(9, 8) * D(8, 11),
        D(9, 11))
    }

    function P9_12(): (r: real)
      ensures r == Entry(9, 12)
    {
      Poly(
        0.0,
        F(9, 10) * D(10, 12) + F(9, 11) * D(11, 12) + F(9, 12) * D(12, 12) + F(9, 6) * D(6, 12) + F(9, 7) * D(7, 12) +
        F(9, 8) * D(8, 12),
        D(9, 12))
    }

    function P10_10(): (r: real)
      ensures r == Entry(10, 10)
    {
      Poly(Q(6), 0.0, D(10, 10))
    }

    function P10_11(): (r: real)
      ensures r == Entry(10, 11)
    {
      Poly(0.0, 0.0, D(10, 11))
    }

    function P10_12(): (r: real)
      ensures r == Entry(10, 12)
    {
      Poly(0.0, 0.0, D(10, 12))
    }

    function P11_11(): (r: real)
      ensures r == Entry(11, 11)
    {
      Poly(Q(7), 0.0, D(11, 11))
    }

    function P11_12(): (r: real)
      ensures r == Entry(11, 12)
    {
      Poly(0.0, 0.0, D(11, 12))
    }

    function P12_12(): (r: real)
      ensures r == Entry(12, 12)
    {
      Poly(Q(8), 0.0, D(12, 12))
    }
  }
}
