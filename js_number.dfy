/** Number helpers shared by the components: the JavaScript operators and the
    three.js helper that the animation code relies on, stated on exact reals. */
module JsNumber {

  /** `Math.PI`, written out to the digits JavaScript prints for it. */
  const PI: real := 3.141592653589793

  /** `THREE.MathUtils.lerp(x, y, t)`, which three.js computes as `(1 - t) * x + t * y`.
      The distance left to the goal `y` is the old distance scaled by `1 - t`. */
  function Lerp(x: real, y: real, t: real): (r: real)
    ensures r - y == (1.0 - t) * (x - y)
  {
    (1.0 - t) * x + t * y
  }

  /** A step with a rate in [0,1] ends between the start and the goal: it never overshoots. */
  lemma LerpBetween(x: real, y: real, t: real)
    requires 0.0 <= t <= 1.0
    ensures x <= y ==> x <= Lerp(x, y, t) <= y
    ensures y <= x ==> y <= Lerp(x, y, t) <= x
  {
    MulNonneg(t, if x <= y then y - x else x - y);
    MulNonneg(1.0 - t, if x <= y then y - x else x - y);
  }

  /** Truncation toward zero, as JavaScript's `%` uses it. */
  function Trunc(x: real): (n: int)
    ensures x >= 0.0 ==> n as real <= x < n as real + 1.0
    ensures x < 0.0 ==> n as real - 1.0 < x <= n as real
  {
    if x >= 0.0 then x.Floor else -((-x).Floor)
  }

  /** JavaScript's `a % b` on numbers (b > 0): the remainder of the division truncated
      toward zero, so it takes the sign of the dividend `a`: `a` is a whole multiple of `b` plus `r`. */
  function Rem(a: real, b: real): (r: real)
    requires b > 0.0
    ensures a >= 0.0 ==> 0.0 <= r < b
    ensures a < 0.0 ==> -b < r <= 0.0
    ensures a == b * Trunc(a / b) as real + r
  {
    TruncBounds(a, b);
    a - b * Trunc(a / b) as real
  }

  lemma TruncBounds(a: real, b: real)
    requires b > 0.0
    ensures var r := a - b * Trunc(a / b) as real;
      && (a >= 0.0 ==> 0.0 <= r < b)
      && (a < 0.0 ==> -b < r <= 0.0)
  {
    var q := a / b;
    var k := Trunc(q) as real;
    DivMul(a, b);
    if a >= 0.0 {
      BelowBy(a, b, q, k);
    } else {
      AboveBy(a, b, q, k);
    }
  }

  lemma BelowBy(a: real, b: real, q: real, k: real)
    requires b > 0.0 && b * q == a && k <= q < k + 1.0
    ensures 0.0 <= a - b * k < b
  {
    Distance(b, q, k);
    MulNonneg(b, q - k);
    MulPos(b, k + 1.0 - q);
    Distance(b, k + 1.0, q);
  }

  lemma AboveBy(a: real, b: real, q: real, k: real)
    requires b > 0.0 && b * q == a && k - 1.0 < q <= k
    ensures -b < a - b * k <= 0.0
  {
    var d := k - q;
    assert 0.0 <= d < 1.0;
    Distance(b, k, q);
    assert b * d == b * k - a;
    MulNonneg(b, d);
    MulPos(b, 1.0 - d);
    Distance(b, 1.0, d);
    assert b * d < b;
  }

  lemma MulNonneg(a: real, b: real)
    requires a >= 0.0 && b >= 0.0
    ensures a * b >= 0.0
  {
  }

  lemma MulPos(a: real, b: real)
    requires a > 0.0 && b > 0.0
    ensures a * b > 0.0
  {
  }

  lemma Distance(b: real, u: real, v: real)
    ensures b * (u - v) == b * u - b * v
  {
  }

  lemma DivMul(a: real, b: real)
    requires b != 0.0
    ensures b * (a / b) == a
  {
  }

  /** `Math.round(x)`: the nearest integer, halves rounded up. */
  function Round(x: real): (n: int)
    ensures x - 0.5 < n as real <= x + 0.5
  {
    (x + 0.5).Floor
  }

  /** Rounding a value that lies between two integers stays between them. */
  lemma RoundBetween(x: real, lo: int, hi: int)
    requires lo as real <= x <= hi as real
    ensures lo <= Round(x) <= hi
  {
    var n := Round(x);
    assert lo as real - 0.5 < n as real;
    assert n as real <= hi as real + 0.5;
  }

  /** Rounding an integer gives it back. */
  lemma RoundWhole(k: int)
    ensures Round(k as real) == k
  {
    var n := Round(k as real);
    assert k as real - 0.5 < n as real <= k as real + 0.5;
  }

  /** `Math.max(lo, Math.min(hi, x))`. */
  function Clamp(lo: real, hi: real, x: real): (r: real)
    requires lo <= hi
    ensures lo <= r <= hi
    ensures lo <= x <= hi ==> r == x
    ensures x < lo ==> r == lo
    ensures x > hi ==> r == hi
  {
    var m := if hi < x then hi else x;
    if lo > m then lo else m
  }

  /** `Math.min(a, b)`. */
  function Min(a: real, b: real): (r: real)
    ensures r <= a && r <= b && (r == a || r == b)
  {
    if a <= b then a else b
  }

  /** `Math.max(a, b)`. */
  function Max(a: real, b: real): (r: real)
    ensures r >= a && r >= b && (r == a || r == b)
  {
    if a >= b then a else b
  }

  /** A `Math.random()` draw: a number in [0, 1). */
  predicate Unit(r: real)
  {
    0.0 <= r < 1.0
  }

  /** Bounds of a quotient by a positive number. */
  lemma RatioBounds(a: real, b: real)
    requires b > 0.0
    ensures 0.0 <= a ==> 0.0 <= a / b
    ensures a <= b ==> a / b <= 1.0
    ensures -b <= a ==> -1.0 <= a / b
    ensures a == b ==> a / b == 1.0
  {
    DivMul(a, b);
    var q := a / b;
    assert q > 1.0 ==> b * (q - 1.0) > 0.0;
    assert q < 0.0 ==> b * -q > 0.0;
    assert q < -1.0 ==> b * (-1.0 - q) > 0.0;
    assert q != 1.0 ==> b * (q - 1.0) != 0.0;
  }

  /** `r^n`. */
  function Pow(r: real, n: nat): real
  {
    if n == 0 then 1.0 else r * Pow(r, n - 1)
  }

  lemma {:induction false} PowSplit(r: real, m: nat, n: nat)
    ensures Pow(r, m + n) == Pow(r, m) * Pow(r, n)
  {
    if n > 0 {
      PowSplit(r, m, n - 1);
      assert Pow(r, m + n) == r * Pow(r, m + n - 1);
    }
  }

  /** The library functions a source calls (`Math.sqrt`, `Math.cos`, `Math.hypot`,
      `Math.atan2`, ...) are inputs of the model; `Apply` and `Apply2` are their one point
      of use. */
  function Apply(f: real -> real, x: real): real
  {
    f(x)
  }

  function Apply2(f: (real, real) -> real, x: real, y: real): real
  {
    f(x, y)
  }
}
