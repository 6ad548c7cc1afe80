/**
  Checksums that fold a message into a register: add the next word, then apply a step.  What follows
  from a linear and invertible step, for any width and any polynomial.
 */
module Checksums {

  ghost predicate Associative<T(!new)>(plus: (T, T) -> T) {
    forall a, b, c {:trigger plus(plus(a, b), c)} {:trigger plus(a, plus(b, c))} ::
      plus(plus(a, b), c) == plus(a, plus(b, c))
  }

  ghost predicate Commutative<T(!new)>(plus: (T, T) -> T) {
    forall a, b {:trigger plus(a, b)} :: plus(a, b) == plus(b, a)
  }

  ghost predicate Cancels<T(!new)>(plus: (T, T) -> T) {
    forall a, b {:trigger plus(a, plus(a, b))} :: plus(a, plus(a, b)) == b
  }

  ghost predicate IsSum<T(!new)>(plus: (T, T) -> T) {
    Associative(plus) && Commutative(plus) && Cancels(plus)
  }

  /** Summands may be taken in any order. */
  ghost predicate Regroups<T(!new)>(plus: (T, T) -> T) {
    forall x, y, p {:trigger plus(plus(x, y), p)} :: plus(plus(x, y), p) == plus(plus(x, p), y)
  }

  lemma SumRegroups<T(!new)>(plus: (T, T) -> T)
    requires IsSum(plus)
    ensures Regroups(plus)
  {
    forall x, y, p
      ensures plus(plus(x, y), p) == plus(plus(x, p), y)
    {
      Regroup(plus, x, y, p);
    }
  }

  ghost predicate Linear<T(!new)>(plus: (T, T) -> T, step: T -> T) {
    forall a, b {:trigger step(plus(a, b))} :: step(plus(a, b)) == plus(step(a), step(b))
  }

  ghost predicate Inverse<T(!new)>(step: T -> T, back: T -> T) {
    forall a {:trigger step(a)} :: back(step(a)) == a
  }

  function Times4<T>(f: T -> T, x: T): T {
    f(f(f(f(x))))
  }

  function Times8<T>(f: T -> T, x: T): T {
    f(f(f(f(f(f(f(f(x))))))))
  }

  lemma LinearTimes4<T(!new)>(plus: (T, T) -> T, f: T -> T, a: T, b: T)
    requires Linear(plus, f)
    ensures Times4(f, plus(a, b)) == plus(Times4(f, a), Times4(f, b))
  {
    assert f(plus(a, b)) == plus(f(a), f(b));
    assert f(plus(f(a), f(b))) == plus(f(f(a)), f(f(b)));
    assert f(plus(f(f(a)), f(f(b)))) == plus(f(f(f(a))), f(f(f(b))));
  }

  lemma LinearTimes8<T(!new)>(plus: (T, T) -> T, f: T -> T, a: T, b: T)
    requires Linear(plus, f)
    ensures Times8(f, plus(a, b)) == plus(Times8(f, a), Times8(f, b))
  {
    LinearTimes4(plus, f, a, b);
    LinearTimes4(plus, f, Times4(f, a), Times4(f, b));
  }

  lemma Linear4<T(!new)>(plus: (T, T) -> T, f: T -> T, g: T -> T)
    requires Linear(plus, f) && forall a {:trigger g(a)} :: g(a) == Times4(f, a)
    ensures Linear(plus, g)
  {
    forall a, b
      ensures g(plus(a, b)) == plus(g(a), g(b))
    {
      LinearTimes4(plus, f, a, b);
    }
  }

  lemma Linear8<T(!new)>(plus: (T, T) -> T, f: T -> T, g: T -> T)
    requires Linear(plus, f) && forall a {:trigger g(a)} :: g(a) == Times8(f, a)
    ensures Linear(plus, g)
  {
    forall a, b
      ensures g(plus(a, b)) == plus(g(a), g(b))
    {
      LinearTimes8(plus, f, a, b);
    }
  }

  lemma InverseTimes4<T(!new)>(f: T -> T, g: T -> T, a: T)
    requires Inverse(f, g)
    ensures Times4(g, Times4(f, a)) == a
  {
    assert g(f(a)) == a && g(f(f(a))) == f(a) && g(f(f(f(a)))) == f(f(a)) && g(f(f(f(f(a))))) == f(f(f(a)));
  }

  lemma InverseTimes8<T(!new)>(f: T -> T, g: T -> T, a: T)
    requires Inverse(f, g)
    ensures Times8(g, Times8(f, a)) == a
  {
    InverseTimes4(f, g, Times4(f, a));
    InverseTimes4(f, g, a);
  }

  lemma Inverse4<T(!new)>(f: T -> T, g: T -> T, f': T -> T, g': T -> T)
    requires Inverse(f, g)
    requires (forall a {:trigger f'(a)} :: f'(a) == Times4(f, a)) && forall a {:trigger g'(a)} :: g'(a) == Times4(g, a)
    ensures Inverse(f', g')
  {
    forall a
      ensures g'(f'(a)) == a
    {
      InverseTimes4(f, g, a);
    }
  }

  lemma Inverse8<T(!new)>(f: T -> T, g: T -> T, f': T -> T, g': T -> T)
    requires Inverse(f, g)
    requires (forall a {:trigger f'(a)} :: f'(a) == Times8(f, a)) && forall a {:trigger g'(a)} :: g'(a) == Times8(g, a)
    ensures Inverse(f', g')
  {
    forall a
      ensures g'(f'(a)) == a
    {
      InverseTimes8(f, g, a);
    }
  }

  // ------------------------------------------------------------------ one step of the division

  /** Shift the register by one bit, and subtract the polynomial when a one leaves it. */
  function Divide<T>(plus: (T, T) -> T, double: T -> T, high: T -> bool, polynomial: T, r: T): T {
    if high(r) then plus(double(r), polynomial) else double(r)
  }

  ghost predicate HighBit<T(!new)>(plus: (T, T) -> T, high: T -> bool) {
    forall a, b {:trigger high(plus(a, b))} :: high(plus(a, b)) == (high(a) != high(b))
  }

  ghost predicate IsDivision<T(!new)>(plus: (T, T) -> T, double: T -> T, high: T -> bool, polynomial: T,
                                      shift: T -> T) {
    forall a {:trigger shift(a)} :: shift(a) == Divide(plus, double, high, polynomial, a)
  }

  lemma DivisionLinear<T(!new)>(plus: (T, T) -> T, double: T -> T, high: T -> bool, p: T, shift: T -> T)
    requires IsSum(plus) && Linear(plus, double) && HighBit(plus, high)
    requires IsDivision(plus, double, high, p, shift)
    ensures Linear(plus, shift)
  {
    forall a, b
      ensures shift(plus(a, b)) == plus(shift(a), shift(b))
    {
      var x, y := double(a), double(b);
      assert double(plus(a, b)) == plus(x, y);
      Regroup(plus, x, y, p);
      Twice(plus, x, y, p);
      assert plus(plus(x, y), p) == plus(x, plus(y, p));
    }
  }

  lemma Regroup<T(!new)>(plus: (T, T) -> T, x: T, y: T, p: T)
    requires IsSum(plus)
    ensures plus(plus(x, y), p) == plus(plus(x, p), y)
  {
    assert plus(plus(x, y), p) == plus(x, plus(y, p));
    assert plus(plus(x, p), y) == plus(x, plus(p, y));
  }

  lemma Twice<T(!new)>(plus: (T, T) -> T, x: T, y: T, p: T)
    requires IsSum(plus)
    ensures plus(plus(x, p), plus(y, p)) == plus(x, y)
  {
    assert plus(plus(x, p), plus(y, p)) == plus(x, plus(p, plus(y, p)));
    assert plus(y, p) == plus(p, y);
    assert plus(p, plus(p, y)) == y;
  }

  // ------------------------------------------------------------------ folding a message

  function Fold<T>(plus: (T, T) -> T, step: T -> T, start: T, words: seq<T>): T {
    if words == [] then start else step(plus(Fold(plus, step, start, words[..|words| - 1]), words[|words| - 1]))
  }

  lemma FoldStep<T>(plus: (T, T) -> T, step: T -> T, start: T, words: seq<T>, i: nat)
    requires i < |words|
    ensures Fold(plus, step, start, words[..i + 1]) == step(plus(Fold(plus, step, start, words[..i]), words[i]))
  {
    assert words[..i + 1][..i] == words[..i];
  }

  /** A message followed by its own checksum has the checksum that the sum of a word with itself leads to. */
  lemma FoldOwn<T>(plus: (T, T) -> T, step: T -> T, start: T, words: seq<T>)
    ensures var c := Fold(plus, step, start, words);
            Fold(plus, step, start, words + [c]) == step(plus(c, c))
  {
    var all := words + [Fold(plus, step, start, words)];
    assert all[..|words|] == words;
    FoldStep(plus, step, start, all, |words|);
    assert all[..|all|] == all;
  }

  /** The word-by-word sum of two messages. */
  function Sums<T>(plus: (T, T) -> T, m: seq<T>, n: seq<T>): (r: seq<T>)
    requires |m| == |n|
    ensures |r| == |m| && forall i :: 0 <= i < |r| ==> r[i] == plus(m[i], n[i])
  {
    seq(|m|, i requires 0 <= i < |m| => plus(m[i], n[i]))
  }

  /** The checksum of the sum of two messages is the sum of their checksums. */
  lemma {:induction false} FoldLinear<T(!new)>(plus: (T, T) -> T, step: T -> T, a: T, b: T, m: seq<T>, n: seq<T>)
    requires IsSum(plus) && Linear(plus, step) && |m| == |n|
    ensures Fold(plus, step, plus(a, b), Sums(plus, m, n)) == plus(Fold(plus, step, a, m), Fold(plus, step, b, n))
  {
    if m != [] {
      var k := |m| - 1;
      FoldLinear(plus, step, a, b, m[..k], n[..k]);
      var s := Sums(plus, m, n);
      assert s[..k] == Sums(plus, m[..k], n[..k]);
      var x, y := Fold(plus, step, a, m[..k]), Fold(plus, step, b, n[..k]);
      Exchange(plus, x, y, m[k], n[k]);
      assert step(plus(plus(x, m[k]), plus(y, n[k]))) == plus(step(plus(x, m[k])), step(plus(y, n[k])));
    }
  }

  lemma Exchange<T(!new)>(plus: (T, T) -> T, x: T, y: T, u: T, v: T)
    requires IsSum(plus)
    ensures plus(plus(x, y), plus(u, v)) == plus(plus(x, u), plus(y, v))
  {
    assert plus(plus(x, y), plus(u, v)) == plus(x, plus(y, plus(u, v)));
    assert plus(y, plus(u, v)) == plus(plus(y, u), v) == plus(plus(u, y), v) == plus(u, plus(y, v));
    assert plus(x, plus(u, plus(y, v))) == plus(plus(x, u), plus(y, v));
  }

  lemma Cancel<T(!new)>(plus: (T, T) -> T, x: T, u: T, v: T)
    requires IsSum(plus) && plus(x, u) == plus(x, v)
    ensures u == v
  {
    assert plus(x, plus(x, u)) == u && plus(x, plus(x, v)) == v;
  }

  /** From equal checksums of the same rest, equal checksums of what came before. */
  lemma {:induction false} FoldBack<T(!new)>(plus: (T, T) -> T, step: T -> T, back: T -> T, a: T, b: T, rest: seq<T>)
    requires IsSum(plus) && Inverse(step, back)
    requires Fold(plus, step, a, rest) == Fold(plus, step, b, rest)
    ensures a == b
  {
    if rest != [] {
      var k := |rest| - 1;
      var x, y := Fold(plus, step, a, rest[..k]), Fold(plus, step, b, rest[..k]);
      assert back(step(plus(x, rest[k]))) == plus(x, rest[k]) && back(step(plus(y, rest[k]))) == plus(y, rest[k]);
      assert plus(rest[k], x) == plus(rest[k], y);
      Cancel(plus, rest[k], x, y);
      FoldBack(plus, step, back, a, b, rest[..k]);
    }
  }

  lemma {:induction false} FoldAppend<T>(plus: (T, T) -> T, step: T -> T, start: T, m: seq<T>, rest: seq<T>)
    ensures Fold(plus, step, start, m + rest) == Fold(plus, step, Fold(plus, step, start, m), rest)
  {
    if rest == [] {
      assert m + rest == m;
    } else {
      var k := |rest| - 1;
      FoldAppend(plus, step, start, m, rest[..k]);
      assert (m + rest)[..|m + rest| - 1] == m + rest[..k];
    }
  }

  /** Messages of the same length that differ in exactly one word have different checksums. */
  lemma OneWordDetected<T(!new)>(plus: (T, T) -> T, step: T -> T, back: T -> T, start: T, m: seq<T>, i: nat, w: T)
    requires IsSum(plus) && Inverse(step, back) && i < |m| && w != m[i]
    ensures Fold(plus, step, start, m[i := w]) != Fold(plus, step, start, m)
  {
    var before, rest := m[..i], m[i + 1..];
    assert m == before + [m[i]] + rest && m[i := w] == before + [w] + rest;
    FoldAppend(plus, step, start, before + [m[i]], rest);
    FoldAppend(plus, step, start, before + [w], rest);
    var x := Fold(plus, step, start, before);
    assert (before + [m[i]])[..i] == before && (before + [w])[..i] == before;
    var p, q := Fold(plus, step, start, before + [m[i]]), Fold(plus, step, start, before + [w]);
    if Fold(plus, step, start, m[i := w]) == Fold(plus, step, start, m) {
      FoldBack(plus, step, back, p, q, rest);
      assert back(step(plus(x, m[i]))) == plus(x, m[i]) && back(step(plus(x, w))) == plus(x, w);
      Cancel(plus, x, m[i], w);
    }
  }

  // ------------------------------------------------------------------ one bit at a time

  function Repeat<T>(f: T -> T, k: nat, x: T): T {
    if k == 0 then x else f(Repeat(f, k - 1, x))
  }

  /** Take the k highest bits of the word u into the register c, one at a time: add the highest bit that
      is left, and shift. */
  function Serial<T>(plus: (T, T) -> T, shift: T -> T, double: T -> T, top: T -> T, c: T, u: T, k: nat): T {
    if k == 0 then c else shift(plus(Serial(plus, shift, double, top, c, u, k - 1), top(Repeat(double, k - 1, u))))
  }

  /** Shifting a sum whose second part is a message shifts out the message's highest bit. */
  ghost predicate ShiftsOut<T(!new)>(plus: (T, T) -> T, shift: T -> T, double: T -> T, top: T -> T) {
    forall c, u {:trigger shift(plus(c, u))} :: shift(plus(c, u)) == plus(shift(plus(c, top(u))), double(u))
  }

  /** The division shifts out the highest bit of the message, and its own register sees no more of it. */
  lemma DivisionShiftsOut<T(!new)>(plus: (T, T) -> T, double: T -> T, high: T -> bool, p: T, shift: T -> T, top: T -> T,
                                   zero: T)
    requires Regroups(plus) && Linear(plus, double) && HighBit(plus, high)
    requires IsDivision(plus, double, high, p, shift)
    requires forall u {:trigger top(u)} :: high(top(u)) == high(u) && double(top(u)) == zero
    requires forall x {:trigger plus(x, zero)} :: plus(x, zero) == x
    ensures ShiftsOut(plus, shift, double, top)
  {
    forall c, u
      ensures shift(plus(c, u)) == plus(shift(plus(c, top(u))), double(u))
    {
      DoubleOfTop(plus, double, c, top(u), zero);
      assert plus(plus(double(c), double(u)), p) == plus(plus(double(c), p), double(u));
      DivideOut(plus, double, high, p, c, u, top(u));
    }
  }

  lemma DoubleOfTop<T(!new)>(plus: (T, T) -> T, double: T -> T, c: T, t: T, zero: T)
    requires Linear(plus, double) && double(t) == zero && plus(double(c), zero) == double(c)
    ensures double(plus(c, t)) == double(c)
  {
    assert double(plus(c, t)) == plus(double(c), double(t));
  }

  lemma DivideOut<T>(plus: (T, T) -> T, double: T -> T, high: T -> bool, p: T, c: T, u: T, t: T)
    requires high(plus(c, u)) == high(plus(c, t))
    requires double(plus(c, t)) == double(c) && double(plus(c, u)) == plus(double(c), double(u))
    requires plus(plus(double(c), double(u)), p) == plus(plus(double(c), p), double(u))
    ensures Divide(plus, double, high, p, plus(c, u)) == plus(Divide(plus, double, high, p, plus(c, t)), double(u))
  {
  }

  /** Adding a whole word and shifting k times takes in its k highest bits and leaves the rest. */
  lemma {:induction false} SerialIsShifted<T(!new)>(plus: (T, T) -> T, shift: T -> T, double: T -> T, top: T -> T, c: T,
                                                    u: T, k: nat)
    requires ShiftsOut(plus, shift, double, top)
    ensures Repeat(shift, k, plus(c, u)) == plus(Serial(plus, shift, double, top, c, u, k), Repeat(double, k, u))
  {
    if k > 0 {
      SerialIsShifted(plus, shift, double, top, c, u, k - 1);
      var x, y := Serial(plus, shift, double, top, c, u, k - 1), Repeat(double, k - 1, u);
      assert shift(plus(x, y)) == plus(shift(plus(x, top(y))), double(y));
    }
  }

  lemma Repeat8<T>(f: T -> T, x: T)
    ensures Repeat(f, 8, x) == Times8(f, x)
  {
  }

  lemma Repeat32<T>(f: T -> T, g: T -> T, x: T)
    requires forall a {:trigger g(a)} :: g(a) == Times4(f, a)
    ensures Repeat(f, 32, x) == Times8(g, x)
  {
    var a := Repeat(f, 4, x);
    assert a == g(x);
    var b := Repeat(f, 8, x);
    assert b == g(a);
    var c := Repeat(f, 12, x);
    assert c == g(b);
    var d := Repeat(f, 16, x);
    assert d == g(c);
    var e := Repeat(f, 20, x);
    assert e == g(d);
    var h := Repeat(f, 24, x);
    assert h == g(e);
    var i := Repeat(f, 28, x);
    assert i == g(h);
  }
}
