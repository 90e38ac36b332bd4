/** Exact arithmetic standing in for the Python float expressions of the generators.
    The source multiplies integers by float constants (0.95, 0.85, 0.60, (i + 1) / 180, ...) and
    truncates with `int(...)`. Here every such constant is an exact integer ratio, and `int(...)`
    of a non-negative product is integer division. Bit-exact IEEE-754 rounding at integer
    boundaries (where `x * 0.85` may land a hair below an integer) is abstracted. */
module Arith {

  /** Python's `max(0, x)` on integers. */
  function ClampNonNegative(x: int): (r: int)
    ensures r >= 0
    ensures r >= x
    ensures r == x || r == 0
  {
    if x > 0 then x else 0
  }

  /** Python's `int(x)` on a float: truncation toward zero. */
  function TruncateTowardZero(x: real): (r: int)
    ensures x >= 0.0 ==> 0 <= r && r as real <= x < r as real + 1.0
    ensures x < 0.0 ==> r <= 0 && r as real - 1.0 < x <= r as real
  {
    assert Truncates(x, if x >= 0.0 then x.Floor else -((-x).Floor));
    var r :| Truncates(x, r);
    r
  }

  /** r is x with its fractional part dropped: the floor for x >= 0, the ceiling below 0. */
  predicate Truncates(x: real, r: int)
  {
    if x >= 0.0 then r as real <= x < r as real + 1.0
    else r as real - 1.0 < x <= r as real
  }

  lemma MulMonotone(a: int, b: int, c: int)
    requires a <= b && 0 <= c
    ensures a * c <= b * c
  {
  }

  lemma DivMonotone(a: int, b: int, d: int)
    requires a <= b && 0 < d
    ensures a / d <= b / d
  {
    if a / d > b / d {
      MulMonotone(b / d + 1, a / d, d);
      assert false;
    }
  }

  /** Cancelling a common positive factor does not change a floor division. */
  lemma DivCancel(x: nat, m: nat, k: nat)
    requires 0 < m && 0 < k
    ensures (x * k) / (m * k) == x / m
  {
    var q, r := x / m, x % m;
    assert x == q * m + r;
    assert x * k == q * (m * k) + r * k;
    assert 0 <= r * k < m * k by {
      MulMonotone(r, m - 1, k);
    }
    DivUnique(x * k, m * k, q, r * k);
  }

  lemma DivUnique(n: int, d: int, q: int, r: int)
    requires 0 < d && n == q * d + r && 0 <= r < d
    ensures n / d == q
  {
    var q', r' := n / d, n % d;
    assert (q - q') * d == r' - r;
    if q > q' {
      MulMonotone(1, q - q', d);
    } else if q < q' {
      MulMonotone(1, q' - q, d);
    }
  }
}
