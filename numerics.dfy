/**
 * Numeric building blocks the two scripts lean on: the transcendental
 * library calls of the strike estimate (kept abstract), Python's built-in
 * `round` and Python's `int()` on a float.
 */
module Numerics {

  datatype Option<T> = None | Some(value: T)

  function Abs(x: real): (a: real)
    ensures a >= 0.0 && (a == x || a == -x)
  {
    if x < 0.0 then -x else x
  }

  /** Python's min on two floats. */
  function Min(a: real, b: real): (r: real)
    ensures r <= a && r <= b && (r == a || r == b)
  {
    if b < a then b else a
  }

  /** Python's max on two floats. */
  function Max(a: real, b: real): (r: real)
    ensures r >= a && r >= b && (r == a || r == b)
  {
    if b > a then b else a
  }

  /**
   * The library calls the strike estimate makes (the standard normal
   * quantile `norm.ppf`, `np.exp`, `np.sqrt`), passed in as values.
   * Nothing is known about them beyond the laws of `Lawful`.
   */
  datatype MathLib = MathLib(ppf: real -> real, exp: real -> real, sqrt: real -> real)

  /** The few facts about the library functions that the strike properties need. */
  ghost predicate Lawful(m: MathLib) {
    && m.ppf(0.5) == 0.0
    && (forall p, q :: 0.0 < p < q < 1.0 ==> m.ppf(p) < m.ppf(q))
    && m.exp(0.0) == 1.0
    && (forall x :: m.exp(x) > 0.0)
    && (forall x, y :: x < y ==> m.exp(x) < m.exp(y))
    && (forall t :: t > 0.0 ==> m.sqrt(t) > 0.0)
  }

  /** A stand-in for exp: positive, strictly increasing, 1 at 0. */
  function ExpLike(x: real): real {
    if x >= 0.0 then 1.0 + x else 1.0 / (1.0 - x)
  }

  lemma ExpLikeIncreasing(x: real, y: real)
    requires x < y
    ensures 0.0 < ExpLike(x) < ExpLike(y)
  {
    if y < 0.0 {
      var a, b := 1.0 - x, 1.0 - y;
      assert a > b > 1.0;
      assert 1.0 / a * b < 1.0 / a * a;
      assert 1.0 / a < 1.0 / b;
    } else if x < 0.0 {
      assert 1.0 / (1.0 - x) < 1.0;
    }
  }

  /** The laws of `Lawful` are consistent: some library satisfies them all. */
  lemma LawfulIsSatisfiable()
    ensures exists m :: Lawful(m)
  {
    var m := MathLib(p => p - 0.5, ExpLike, t => t);
    forall x, y | x < y ensures m.exp(x) < m.exp(y) {
      ExpLikeIncreasing(x, y);
    }
    forall x ensures m.exp(x) > 0.0 {
      ExpLikeIncreasing(x, x + 1.0);
    }
    assert Lawful(m);
  }

  /**
   * Python's built-in `round` with no digits: the nearest integer, and on
   * an exact tie the even neighbour.
   */
  function Round(x: real): (n: int)
    ensures x - 0.5 <= n as real <= x + 0.5
    ensures n as real == x - 0.5 || n as real == x + 0.5 ==> n % 2 == 0
  {
    var f := x.Floor;
    var frac := x - f as real;
    if frac < 0.5 then f
    else if frac > 0.5 then f + 1
    else if f % 2 == 0 then f
    else f + 1
  }

  lemma RoundMonotone(x: real, y: real)
    requires x <= y
    ensures Round(x) <= Round(y)
  {
    if x < y {
      var fx, fy := x.Floor, y.Floor;
      if fx == fy {
        assert x - fx as real < y - fy as real;
      }
    }
  }

  lemma RoundOfWhole(n: int)
    ensures Round(n as real) == n
  {
  }

  /** Python's `int()` on a float: truncation toward zero. */
  function Trunc(x: real): (n: int)
    ensures 0.0 <= x ==> n as real <= x < n as real + 1.0
    ensures x < 0.0 ==> n as real - 1.0 < x <= n as real
  {
    if x >= 0.0 then x.Floor else -((-x).Floor)
  }

  lemma TruncMonotone(x: real, y: real)
    requires x <= y
    ensures Trunc(x) <= Trunc(y)
  {
    if 0.0 <= x {
      assert x.Floor <= y.Floor;
    } else if y < 0.0 {
      assert (-y).Floor <= (-x).Floor;
    }
  }
}
