/** Small numeric and optional-value helpers shared by the trip-plan model. */
module Basics {

  /** A value that may be missing: the model's stand-in for an optional record field or a null result. */
  datatype Option<+T> = None | Some(value: T)

  /** JavaScript's Math.round on an exact real: the nearest integer, a half going up. */
  function Round(x: real): (r: int)
    ensures r as real - 0.5 <= x < r as real + 0.5
  {
    (x + 0.5).Floor
  }

  /** JavaScript's `%` on integers: the remainder takes the sign of the dividend. */
  function JsRem(a: int, n: int): (r: int)
    requires n > 0
    ensures a >= 0 ==> r == a % n
    ensures a < 0 ==> -n < r <= 0
  {
    if a >= 0 then a % n else -((-a) % n)
  }

  /** Whatever the sign of the dividend, it and its JavaScript remainder differ by a multiple of n. */
  lemma JsRemCongruent(a: int, n: int)
    requires n > 0
    ensures (a - JsRem(a, n)) % n == 0
  {
    var q := if a >= 0 then a / n else -((-a) / n);
    if a >= 0 {
      assert a == n * (a / n) + a % n;
    } else {
      assert -a == n * ((-a) / n) + (-a) % n;
    }
    assert a - JsRem(a, n) == n * q;
    ModShift(a - JsRem(a, n), 0, n, q);
  }

  /** Numbers that differ by a multiple of n leave the same remainder. */
  lemma ModShift(y: int, t: int, n: int, k: int)
    requires n > 0 && y - t == n * k
    ensures y % n == t % n
  {
    var j := k - y / n + t / n;
    assert y == n * (y / n) + y % n && t == n * (t / n) + t % n;
    assert y % n - t % n == n * k - n * (y / n) + n * (t / n);
    assert n * k - n * (y / n) + n * (t / n) == n * j;
  }

  function MinInt(a: int, b: int): (r: int)
    ensures r <= a && r <= b && (r == a || r == b)
  {
    if a <= b then a else b
  }

  function MaxReal(a: real, b: real): (r: real)
    ensures r >= a && r >= b && (r == a || r == b)
  {
    if a >= b then a else b
  }

  lemma RoundMonotone(x: real, y: real)
    requires x <= y
    ensures Round(x) <= Round(y)
  {
  }

  lemma MulMonotone(a: real, b: real, c: real)
    requires a <= b && c >= 0.0
    ensures a * c <= b * c
  {
  }

  /** A factor in [0, 1] shrinks a non-negative number and keeps it non-negative. */
  lemma ShrinkingFactor(x: real, d: real)
    requires x >= 0.0 && 0.0 <= d <= 1.0
    ensures 0.0 <= x * d <= x
  {
    MulMonotone(0.0, x, d);
    assert x * d <= x * 1.0 by { MulMonotone(d, 1.0, x); }
  }

  lemma NegativeTimesPositive(x: real, d: real)
    requires x < 0.0 && d > 0.0
    ensures x * d < 0.0
  {
  }

  lemma RoundOfInteger(n: int)
    ensures Round(n as real) == n
  {
  }
}
