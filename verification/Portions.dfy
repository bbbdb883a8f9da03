/** Pro-rata parts of a whole, bounded from both sides, and what they add up to. */
module Portions {
  import opened Decimals
  import opened Sums

  /**
   `part` is the fraction `n / d` of `whole`, rounded down: never more, and short of it by less than one
   unit and `k` atomics for each unit of the whole.
   */
  predicate Portion(part: nat, whole: nat, n: nat, d: nat, k: nat) {
    part * d <= whole * n && whole * n * ONE <= (part * ONE + ONE + k * whole) * d
  }

  /** An integer times a ratio of integers, as the contracts calculate it. */
  lemma RatioOf(whole: nat, n: nat, d: nat)
    requires d > 0
    ensures Portion(Mul(whole, FromRatio(n, d)), whole, n, d, 1)
  {
    assert 1 * d == d;
    DecimalOf(Mul(whole, FromRatio(n, d)), whole, FromRatio(n, d), n, d, 1);
  }

  /** An integer times a decimal `f` that is short of the ratio by at most `k` atomics. */
  lemma DecimalOf(part: nat, whole: nat, f: nat, n: nat, d: nat, k: nat)
    requires part * ONE <= whole * f < part * ONE + ONE && f * d <= n * ONE <= f * d + k * d
    ensures Portion(part, whole, n, d, k)
  {
    NeverMore(part, whole, f, n, d);
    HardlyLess(part, whole, f, n, d, k);
  }

  lemma NeverMore(part: nat, whole: nat, f: nat, n: nat, d: nat)
    requires part * ONE <= whole * f && f * d <= n * ONE
    ensures part * d <= whole * n
  {
    ProductMonotone(part * ONE, whole * f, d, d);
    ProductMonotone(whole, whole, f * d, n * ONE);
    assert part * ONE * d == part * d * ONE && whole * f * d == whole * (f * d);
    assert whole * (n * ONE) == whole * n * ONE;
    CancelFactor(part * d, whole * n, ONE);
  }

  lemma HardlyLess(part: nat, whole: nat, f: nat, n: nat, d: nat, k: nat)
    requires whole * f < part * ONE + ONE && n * ONE <= f * d + k * d
    ensures whole * n * ONE <= (part * ONE + ONE + k * whole) * d
  {
    ProductMonotone(whole, whole, n * ONE, f * d + k * d);
    assert whole * (n * ONE) == whole * n * ONE;
    assert whole * (f * d + k * d) == whole * f * d + k * whole * d;
    ProductMonotone(whole * f, part * ONE + ONE, d, d);
    assert (part * ONE + ONE + k * whole) * d == (part * ONE + ONE) * d + k * whole * d;
  }

  function Limit(part: nat, whole: nat, k: nat): nat {
    part * ONE + ONE + k * whole
  }

  ghost function Limits<K>(parts: map<K, nat>, whole: nat, k: nat): map<K, nat> {
    map u | u in parts :: Limit(parts[u], whole, k)
  }

  ghost function Constant<K>(parts: map<K, nat>, c: nat): map<K, nat> {
    map u | u in parts :: c
  }

  lemma {:induction false} SumConstant<K>(parts: map<K, nat>, c: nat)
    ensures Sum(Constant(parts, c)) == |parts| * c
    decreases |parts|
  {
    if parts != map[] {
      var u :| u in parts;
      Shrinks(parts, u);
      SumConstant(parts - {u}, c);
      OneConstant(parts, u, c);
      hide Sum, Constant;
      assert (|parts| - 1) * c + c == |parts| * c;
    }
  }

  lemma OneConstant<K>(parts: map<K, nat>, u: K, c: nat)
    requires u in parts
    ensures Sum(Constant(parts, c)) == c + Sum(Constant(parts - {u}, c))
  {
    hide Sum;
    SumRemove(Constant(parts, c), u);
    assert Constant(parts, c) - {u} == Constant(parts - {u}, c);
  }

  lemma SumLimits<K>(parts: map<K, nat>, whole: nat, k: nat)
    ensures Sum(Limits(parts, whole, k)) == Sum(parts) * ONE + |parts| * (ONE + k * whole)
  {
    SumScaled(parts, ONE);
    SumConstant(parts, ONE + k * whole);
    SumAdd(Scaled(parts, ONE), Constant(parts, ONE + k * whole), Limits(parts, whole, k));
  }

  /** Parts whose fractions add up to one together reach the whole, up to the rounding of each. */
  lemma PartsReach<K>(parts: map<K, nat>, amounts: map<K, nat>, whole: nat, d: nat, k: nat)
    requires d > 0 && Sum(amounts) == d && amounts.Keys == parts.Keys
    requires forall u :: u in parts ==> Portion(parts[u], whole, amounts[u], d, k)
    ensures whole * ONE <= Sum(parts) * ONE + |parts| * (ONE + k * whole)
  {
    hide Sum, Limit;
    var limits := Limits(parts, whole, k);
    forall u | u in amounts ensures Below(amounts[u], whole * ONE, Get(limits, u), d) {
      PartBelow(parts[u], whole, amounts[u], d, k);
    }
    hide Portion, Limits;
    SumBound(amounts, limits, whole * ONE, d);
    SumLimits(parts, whole, k);
    assert d * (whole * ONE) == whole * ONE * d;
    CancelFactor(whole * ONE, Sum(limits), d);
  }

  lemma PartBelow(part: nat, whole: nat, n: nat, d: nat, k: nat)
    requires Portion(part, whole, n, d, k)
    ensures Below(n, whole * ONE, Limit(part, whole, k), d)
  {
    assert whole * n * ONE == n * (whole * ONE);
  }
}
