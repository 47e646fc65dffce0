/**
 * Real-number helpers and the floating-point library functions the source calls.
 *
 * `sqrt`, `cos`, `sin`, `radians`, `degrees`, `atan2` and `pi` are left
 * uninterpreted: they are fields of a `Math` record that every operation
 * needing them receives as a parameter. `Lawful` states the only facts about
 * them the model relies on.
 */
module RealMath {

  datatype Math = Math(
    sqrt: real -> real,
    cos: real -> real,
    sin: real -> real,
    radians: real -> real,
    degrees: real -> real,
    atan2: (real, real) -> real,
    pi: real)

  /** Range facts of the library functions: a square root is never negative,
      pi is positive and `degrees(atan2(y, x))` lies in (-180, 180]. */
  ghost predicate Lawful(m: Math) {
    && m.pi > 0.0
    && (forall v :: m.sqrt(v) >= 0.0)
    && (forall y, x :: -180.0 < m.degrees(m.atan2(y, x)) <= 180.0)
  }

  /** Python's built-in `min` on two numbers: the first argument on a tie. */
  function Min(a: real, b: real): (r: real)
    ensures r <= a && r <= b
    ensures r == a || r == b
  {
    if b < a then b else a
  }

  /** Python's built-in `max` on two numbers. */
  function Max(a: real, b: real): (r: real)
    ensures r >= a && r >= b
    ensures r == a || r == b
  {
    if b > a then b else a
  }

  function Abs(a: real): (r: real)
    ensures r >= 0.0
    ensures r == a || r == -a
  {
    if a < 0.0 then -a else a
  }

  /** True when `x` has no fractional part. */
  predicate IsInteger(x: real) {
    x.Floor as real == x
  }

  /** Python's `%` on floats with a positive divisor: the result has the sign
      of the divisor and differs from `a` by a whole multiple of `n`. */
  function FloorMod(a: real, n: real): (r: real)
    requires n > 0.0
    ensures 0.0 <= r < n
    ensures IsInteger((r - a) / n)
  {
    var q := (a / n).Floor;
    FloorBounds(a, n);
    var r := a - n * q as real;
    assert (r - a) / n == (-q) as real;
    r
  }

  /** The floor of a quotient, multiplied back, brackets the dividend. */
  lemma FloorBounds(a: real, e: real)
    requires e > 0.0
    ensures (a / e).Floor as real * e <= a
    ensures a < ((a / e).Floor + 1) as real * e
  {
    var f := a / e;
    var q := f.Floor as real;
    assert f * e == a;
    if q < f {
      MulLess(q, f, e);
    }
    MulLess(f, q + 1.0, e);
    assert a < (q + 1.0) * e;
    assert ((a / e).Floor + 1) as real == q + 1.0;
  }

  lemma MulNonneg(a: real, b: real)
    requires a >= 0.0 && b >= 0.0
    ensures a * b >= 0.0
  {
  }

  /** `(k + 1) * e` spelled out. */
  lemma MulSucc(k: int, e: real)
    ensures (k + 1) as real * e == k as real * e + e
  {
  }

  /** Scaling before or after a division by a non-zero divisor. */
  lemma MulDiv(a: real, c: real, n: real)
    requires n != 0.0
    ensures a * c / n == a * (c / n)
  {
    var q := c / n;
    assert c == q * n;
    assert a * c == (a * q) * n;
  }

  lemma MulLess(x: real, y: real, e: real)
    requires x < y && e > 0.0
    ensures x * e < y * e
  {
    assert (y - x) * e > 0.0;
  }
}
