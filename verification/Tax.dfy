/** The tax deducted from native transfers, so that the sender covers what the chain will charge. */
module Tax {
  import opened Decimals
  import opened Portions

  /** `Decimal::inv`, or zero for zero: the largest decimal whose product with `d` does not exceed one. */
  function ReverseDecimal(d: Decimal): (r: Decimal)
    ensures d > 0 ==> r * d <= ONE * ONE < r * d + d
  {
    if d == 0 then 0 else ONE * ONE / d
  }

  function ComputeTax(amount: nat, rate: Decimal, cap: nat): (tax: nat)
    ensures tax <= amount
  {
    NetWithin(amount, rate);
    Min(amount - Mul(amount, ReverseDecimal(ONE + rate)), cap)
  }

  function DeductTax(amount: nat, rate: Decimal, cap: nat): nat {
    amount - ComputeTax(amount, rate, cap)
  }

  /** What the chain charges on a transfer. */
  function Charged(sent: nat, rate: Decimal, cap: nat): nat {
    Min(Mul(sent, rate), cap)
  }

  lemma NetWithin(amount: nat, rate: Decimal)
    ensures Mul(amount, ReverseDecimal(ONE + rate)) <= amount
    ensures Mul(amount, ReverseDecimal(ONE + rate)) * (ONE + rate) <= amount * ONE
  {
    var r := ReverseDecimal(ONE + rate);
    var net := Mul(amount, r);
    assert r <= ONE by {
      if r > ONE {
        ProductMonotone(ONE + 1, r, ONE, ONE + rate);
      }
    }
    MulAtMostOne(amount, r);
    ProductMonotone(net * ONE, amount * r, ONE + rate, ONE + rate);
    ProductMonotone(amount, amount, r * (ONE + rate), ONE * ONE);
    assert amount * r * (ONE + rate) == amount * (r * (ONE + rate));
    assert net * ONE * (ONE + rate) == net * (ONE + rate) * ONE;
    assert amount * (ONE * ONE) == amount * ONE * ONE;
  }

  /** The amount sent and the tax charged on it never exceed the amount set aside. */
  lemma TaxIsCovered(amount: nat, rate: Decimal, cap: nat)
    ensures DeductTax(amount, rate, cap) + Charged(DeductTax(amount, rate, cap), rate, cap) <= amount
  {
    var net := Mul(amount, ReverseDecimal(ONE + rate));
    NetWithin(amount, rate);
    if DeductTax(amount, rate, cap) == net {
      assert net * (ONE + rate) == net * ONE + net * rate;
      var tax := Mul(net, rate);
      assert (net + tax) * ONE == net * ONE + tax * ONE;
      CancelFactor(net + tax, amount, ONE);
    }
  }

  /**
   No more is deducted than is needed: never more than the cap, and below the cap what is sent is the amount
   over one plus the rate, rounded down.
   */
  lemma TaxIsNeeded(amount: nat, rate: Decimal, cap: nat)
    ensures var tax, sent := ComputeTax(amount, rate, cap), DeductTax(amount, rate, cap);
            && sent + tax == amount && tax <= cap
            && (tax < cap ==> Portion(sent, amount, ONE, ONE + rate, 1))
            && amount * ONE * ONE <= (sent * ONE + ONE + amount) * (ONE + rate)
  {
    var r := ReverseDecimal(ONE + rate);
    var net := Mul(amount, r);
    NetWithin(amount, rate);
    assert 1 * (ONE + rate) == ONE + rate;
    DecimalOf(net, amount, r, ONE, ONE + rate, 1);
    var sent := DeductTax(amount, rate, cap);
    ProductMonotone(net * ONE + ONE + amount, sent * ONE + ONE + amount, ONE + rate, ONE + rate);
  }
}
