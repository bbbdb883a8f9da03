/**
 The 18-digit fixed-point numbers shared by the contracts. A `Decimal` is held as its
 number of atomics, so `ONE` is the number 1.0. Every operation rounds down.
 */
module Decimals {

  const ONE: nat := 1_000_000_000_000_000_000

  type Decimal = nat

  /** `Decimal::from_ratio`: the largest decimal whose product with `d` does not exceed `n`. */
  function FromRatio(n: nat, d: nat): (r: Decimal)
    requires d > 0
    ensures r * d <= n * ONE < r * d + d
  {
    n * ONE / d
  }

  /** `Uint128 * Decimal`: the integer part of the exact product. */
  function Mul(x: nat, d: Decimal): (r: nat)
    ensures r * ONE <= x * d < r * ONE + ONE
  {
    x * d / ONE
  }

  /** `Decimal / 2`, the only division of a decimal the contracts perform. */
  function Half(d: Decimal): (r: Decimal)
    ensures 2 * r <= d <= 2 * r + 1
  {
    d / 2
  }

  function Min(a: nat, b: nat): nat {
    if a <= b then a else b
  }

  function Max(a: nat, b: nat): nat {
    if a >= b then a else b
  }

  /** The part of the exact product `x * d`, in atomics, that `Mul` rounds away. */
  function Fraction(x: nat, d: Decimal): (f: nat)
    ensures f < ONE
    ensures x * d == Mul(x, d) * ONE + f
  {
    x * d - Mul(x, d) * ONE
  }

  lemma ProductMonotone(a: nat, b: nat, c: nat, d: nat)
    requires a <= b && c <= d
    ensures a * c <= b * d
  {
    assert b * d - a * c == (b - a) * d + a * (d - c);
  }

  lemma CancelFactor(a: nat, b: nat, c: nat)
    requires c > 0 && a * c <= b * c
    ensures a <= b
  {
  }

  lemma CancelStrict(a: nat, b: nat, d: nat)
    requires a * d < b * d
    ensures a < b
  {
    if a >= b {
      ProductMonotone(b, a, d, d);
    }
  }

  lemma DivisionBounds(n: nat, d: nat)
    requires d > 0
    ensures n / d * d <= n < n / d * d + d
  {
  }

  lemma MulMonotone(x: nat, y: nat, d: Decimal, e: Decimal)
    requires x <= y && d <= e
    ensures Mul(x, d) <= Mul(y, e)
  {
    ProductMonotone(x, y, d, e);
  }

  /** Splitting the integer factor loses at most one unit and never gains. */
  lemma MulSplit(x: nat, y: nat, d: Decimal)
    ensures Mul(x, d) + Mul(y, d) <= Mul(x + y, d) <= Mul(x, d) + Mul(y, d) + 1
  {
    assert (x + y) * d == x * d + y * d;
  }

  /** Splitting the decimal factor loses at most one unit and never gains. */
  lemma MulSplitDecimal(x: nat, d: Decimal, e: Decimal)
    ensures Mul(x, d) + Mul(x, e) <= Mul(x, d + e) <= Mul(x, d) + Mul(x, e) + 1
  {
    assert x * (d + e) == x * d + x * e;
  }

  /** At most half of a number rounds down to at most half of it. */
  lemma HalfAtMost(x: nat, d: Decimal)
    requires 2 * d <= ONE
    ensures 2 * Mul(x, d) <= x
  {
    ProductMonotone(x, x, 2 * d, ONE);
    assert x * (2 * d) == 2 * (x * d);
  }

  lemma MulAtMostOne(x: nat, d: Decimal)
    requires d <= ONE
    ensures Mul(x, d) <= x
    ensures d == ONE ==> Mul(x, d) == x
  {
    ProductMonotone(x, x, d, ONE);
  }

  /** Proportions add up: the share of a sum is at least the sum of the shares. */
  lemma RatioSplit(n: nat, m: nat, d: nat)
    requires d > 0
    ensures FromRatio(n, d) + FromRatio(m, d) <= FromRatio(n + m, d)
  {
    var a, b, c := FromRatio(n, d), FromRatio(m, d), FromRatio(n + m, d);
    assert (a + b) * d == a * d + b * d;
    assert (c + 1) * d == c * d + d;
    if c < a + b {
      ProductMonotone(c + 1, a + b, d, d);
    }
  }

  lemma RatioMonotone(n: nat, m: nat, d: nat)
    requires d > 0 && n <= m
    ensures FromRatio(n, d) <= FromRatio(m, d)
  {
    RatioSplit(n, m - n, d);
  }

  lemma RatioAtMostOne(n: nat, d: nat)
    requires d > 0 && n <= d
    ensures FromRatio(n, d) <= ONE
    ensures n == d ==> FromRatio(n, d) == ONE
  {
    RatioMonotone(n, d, d);
    var r := FromRatio(d, d);
    assert (r + 1) * d == r * d + d;
    if r > ONE {
      ProductMonotone(ONE + 1, r, d, d);
    } else if r < ONE {
      ProductMonotone(r + 1, ONE, d, d);
    }
  }
}
