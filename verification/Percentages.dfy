/** The percentages by which the auction and the lockdrop limit withdrawals, as inequalities over integers. */
module Percentages {
  import opened Decimals

  /** The constants of the schedule. */
  lemma FullHalfAndNone()
    ensures FromRatio(100, 100) == ONE && 2 * FromRatio(50, 100) == ONE && FromRatio(0, 100) == 0
  {
  }

  lemma AtMostProduct(x: nat, d: Decimal, amount: nat)
    ensures amount <= Mul(x, d) <==> amount * ONE <= x * d
  {
    if amount > Mul(x, d) {
      ProductMonotone(Mul(x, d) + 1, amount, ONE, ONE);
      assert (Mul(x, d) + 1) * ONE == Mul(x, d) * ONE + ONE;
    } else {
      ProductMonotone(amount, Mul(x, d), ONE, ONE);
    }
  }

  /** Half of the seconds left over the whole span, rounded down to a decimal. */
  lemma HalvedRatio(left: nat, span: nat)
    requires span > 0
    ensures FromRatio(50 * left, 100 * span) == left * ONE / (2 * span)
  {
    var r := FromRatio(50 * left, 100 * span);
    hide FromRatio;
    FiftyTimes(r, 2 * span, left * ONE);
  }

  lemma FiftyTimes(r: nat, d: nat, n: nat)
    requires d > 0 && r * (50 * d) <= 50 * n < r * (50 * d) + 50 * d
    ensures r == n / d
  {
    assert r * (50 * d) == 50 * (r * d);
    DivisionBounds(n, d);
    SameQuotient(r, n / d, d, n);
  }

  lemma SameQuotient(r: nat, q: nat, d: nat, n: nat)
    requires r * d <= n < r * d + d && q * d <= n < q * d + d
    ensures r == q
  {
    assert (r + 1) * d == r * d + d && (q + 1) * d == q * d + d;
    CancelStrict(r, q + 1, d);
    CancelStrict(q, r + 1, d);
  }
}
