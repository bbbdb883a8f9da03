/**
 The texts and orders of the Merkle check in plain terms: hexadecimal and decimal digits denote the numbers
 they are written for, and pairs of hashes are ordered as numbers.
 */
module MerkleText {
  import opened Decimals
  import opened Wrappers
  import opened Merkle

  // ---------------------------------------------------------------- numbers

  /** The number that `digits` denote in the given base, the most significant first. */
  function Number(digits: seq<nat>, base: nat): nat {
    if digits == [] then 0 else Number(digits[..|digits| - 1], base) * base + digits[|digits| - 1]
  }

  function Power(base: nat, n: nat): nat {
    if n == 0 then 1 else base * Power(base, n - 1)
  }

  lemma {:induction false} NumberFromHead(digits: seq<nat>, base: nat)
    requires digits != []
    ensures Number(digits, base) == digits[0] * Power(base, |digits| - 1) + Number(digits[1..], base)
    decreases |digits|
  {
    var n := |digits|;
    if n > 1 {
      var front := digits[..n - 1];
      NumberFromHead(front, base);
      assert front[1..] == digits[1..][..n - 2] && digits[1..][n - 2] == digits[n - 1];
      assert Number(digits[1..], base) == Number(front[1..], base) * base + digits[n - 1];
      Expand(digits[0], Power(base, n - 2), Number(front[1..], base), base);
    } else {
      assert digits[..0] == [] && digits[1..] == [];
      assert Number(digits, base) == Number([], base) * base + digits[0];
    }
  }

  lemma Expand(head: nat, p: nat, rest: nat, base: nat)
    ensures (head * p + rest) * base == head * (base * p) + rest * base
  {
    assert (head * p + rest) * base == head * p * base + rest * base;
    assert head * p * base == head * (base * p);
  }

  lemma {:induction false} NumberBelow(digits: seq<nat>, base: nat)
    requires forall d :: d in digits ==> d < base
    ensures Number(digits, base) < Power(base, |digits|)
    decreases |digits|
  {
    if digits != [] {
      var front := digits[..|digits| - 1];
      assert digits[|digits| - 1] in digits && forall d :: d in front ==> d in digits;
      NumberBelow(front, base);
      Raise(Number(front, base), Power(base, |front|), base, digits[|digits| - 1]);
    }
  }

  lemma Raise(x: nat, p: nat, base: nat, d: nat)
    requires x < p && d < base
    ensures x * base + d < base * p
  {
    assert (p - x - 1) * base >= 0;
    assert p * base == (p - x - 1) * base + x * base + base;
  }

  // ---------------------------------------------------------------- the order of hashes

  /** Byte strings of one length are compared as the numbers they denote. */
  lemma {:induction false} OrderIsNumeric(a: seq<Byte>, b: seq<Byte>)
    requires |a| == |b|
    ensures BytesLess(a, b) <==> Number(a, 256) < Number(b, 256)
    decreases |a|
  {
    if a != [] {
      OrderIsNumeric(a[1..], b[1..]);
      NumberFromHead(a, 256);
      NumberFromHead(b, 256);
      NumberBelow(a[1..], 256);
      NumberBelow(b[1..], 256);
      HeadDecides(a[0], b[0], Power(256, |a| - 1), Number(a[1..], 256), Number(b[1..], 256));
    }
  }

  lemma HeadDecides(a: nat, b: nat, p: nat, x: nat, y: nat)
    requires x < p && y < p
    ensures a * p + x < b * p + y <==> a < b || (a == b && x < y)
  {
    if a < b {
      ProductMonotone(a + 1, b, p, p);
      assert (a + 1) * p == a * p + p;
    } else if b < a {
      ProductMonotone(b + 1, a, p, p);
      assert (b + 1) * p == b * p + p;
    }
  }

  /** Two hashes are joined with the smaller number first. */
  lemma PairIsSorted(a: Hash, b: Hash)
    ensures Pair(a, b) == if Number(a, 256) <= Number(b, 256) then a + b else b + a
  {
    OrderIsNumeric(a, b);
    OrderIsNumeric(b, a);
    BytesOrderTotal(a, b);
  }

  // ---------------------------------------------------------------- digits

  predicate IsLowerHex(c: char) { '0' <= c <= '9' || 'a' <= c <= 'f' }

  predicate IsHex(c: char) { IsLowerHex(c) || 'A' <= c <= 'F' }

  /** Hashes are written in lower case; with `HexRoundTrip` this fixes every character. */
  lemma {:induction false} HexIsLower(bytes: seq<Byte>)
    ensures forall c :: c in HexEncode(bytes) ==> IsLowerHex(c)
    decreases |bytes|
  {
    if bytes != [] {
      HexIsLower(bytes[1..]);
    }
  }

  /** Decoding reads digits of either case, and fails on anything else. */
  lemma {:induction false} HexDecodes(s: string)
    ensures HexDecode(s).Some? <==> |s| % 2 == 0 && forall c :: c in s ==> IsHex(c)
    ensures HexDecode(s).Some? ==> 2 * |HexDecode(s).value| == |s|
    decreases |s|
  {
    if |s| > 1 {
      HexDecodes(s[2..]);
      assert s == [s[0], s[1]] + s[2..] && s[0] in s && s[1] in s;
      assert forall c :: c in s[2..] ==> c in s;
    } else if |s| == 1 {
      assert s[0] in s;
    }
  }

  /** An element of a proof is well-formed if and only if it consists of 64 hexadecimal digits. */
  lemma HashDecodes(s: string)
    ensures DecodeHash(s).Some? <==> |s| == 64 && forall c :: c in s ==> IsHex(c)
  {
    HexDecodes(s);
  }

  function Value(c: Byte): nat {
    if c < '0' as int then 0 else c - '0' as int
  }

  function Values(text: seq<Byte>): seq<nat> {
    seq(|text|, i requires 0 <= i < |text| => Value(text[i]))
  }

  /** An amount is written in decimal: its digits denote it, without leading zeros. */
  lemma {:induction false} DigitsDenote(n: nat)
    ensures forall c :: c in Digits(n) ==> '0' as int <= c <= '9' as int
    ensures Number(Values(Digits(n)), 10) == n
    ensures n > 0 ==> Digits(n)[0] != '0' as int
    ensures n == 0 ==> Digits(n) == ['0' as int]
    decreases n
  {
    var text := Digits(n);
    if n >= 10 {
      DigitsDenote(n / 10);
      assert Values(text)[..|text| - 1] == Values(Digits(n / 10));
    } else {
      assert Values(text) == [n] && [n][..0] == [];
    }
  }

  /** The leaf is the account's text followed by the amount's. */
  lemma LeafIsAccountThenAmount(account: Addr, amount: nat)
    requires forall c :: c in account ==> c as int < 128
    ensures var leaf := LeafText(account, amount);
            && |leaf| == |account| + |Digits(amount)|
            && (forall i :: 0 <= i < |account| ==> leaf[i] == account[i] as int)
            && leaf[|account|..] == Digits(amount)
  {
    var leaf := LeafText(account, amount);
    forall i | 0 <= i < |account| ensures leaf[i] == account[i] as int {
      assert account[i] in account;
    }
  }
}
