/**
 * Arithmetic as the estimate engine does it: `Math.ceil` on exact reals.
 * Products and quotients of two quantities are written through `Times` and
 * `Quotient` so that the solver reasons about equal operands by congruence.
 */
module Numeric {

  /** True when `x` has no fractional part. */
  predicate IsWhole(x: real) {
    x.Floor as real == x
  }

  /** `Math.ceil`: the least integer that is not below `x`. */
  function Ceil(x: real): (r: int)
    ensures x <= r as real < x + 1.0
  {
    if IsWhole(x) then x.Floor else x.Floor + 1
  }

  /** `Math.ceil` with the result kept as a number of the model. */
  function CeilR(x: real): (r: real)
    ensures IsWhole(r)
    ensures x <= r < x + 1.0
  {
    Ceil(x) as real
  }

  /** `a * b`. */
  function Times(a: real, b: real): real {
    a * b
  }

  /** `a / b`; JavaScript gives Infinity or NaN when `b` is zero, which is not modelled. */
  function Quotient(a: real, b: real): real
    requires b != 0.0
  {
    a / b
  }

  /** Rounding up never goes past an integer at or above `x`: it rounds by as little as possible. */
  lemma {:induction false} CeilIsLeast(x: real, n: int)
    requires x <= n as real
    ensures Ceil(x) <= n
  {
  }

  /** Rounding a whole number up leaves it alone. */
  lemma {:induction false} CeilOfWhole(x: real)
    requires IsWhole(x)
    ensures CeilR(x) == x
  {
  }

  /** Rounding up preserves the order of its arguments. */
  lemma {:induction false} CeilMonotone(x: real, y: real)
    requires x <= y
    ensures CeilR(x) <= CeilR(y)
  {
    CeilIsLeast(x, Ceil(y));
  }

  /** A sum of whole numbers is whole. */
  lemma {:induction false} WholeSum(x: real, y: real)
    requires IsWhole(x) && IsWhole(y)
    ensures IsWhole(x + y)
  {
    assert x + y == (x.Floor + y.Floor) as real;
  }

  /** A product grows with its first factor when the second is not negative. */
  lemma {:induction false} TimesMonotone(a: real, b: real, c: real)
    requires a <= b && 0.0 <= c
    ensures Times(a, c) <= Times(b, c)
  {
    assert Times(b, c) - Times(a, c) == (b - a) * c;
  }

  /** A product grows strictly with its first factor when the second is positive. */
  lemma {:induction false} TimesStrictlyMonotone(a: real, b: real, c: real)
    requires a < b && 0.0 < c
    ensures Times(a, c) < Times(b, c)
  {
    assert Times(b, c) - Times(a, c) == (b - a) * c;
  }
}
