/** Sums of the values of a finite map: the bookkeeping behind every conservation law. */
module Sums {

  function Get<K(==)>(m: map<K, nat>, k: K): nat {
    if k in m then m[k] else 0
  }

  ghost function Sum<K>(m: map<K, nat>): (s: nat)
    decreases |m|
  {
    if m == map[] then 0
    else
      var k :| k in m;
      assert |m - {k}| < |m| by { Shrinks(m, k); }
      m[k] + Sum(m - {k})
  }

  lemma Shrinks<K>(m: map<K, nat>, k: K)
    requires k in m
    ensures |m - {k}| == |m| - 1
  {
    assert (m - {k}).Keys == m.Keys - {k};
    assert |(m - {k}).Keys| == |m.Keys| - 1;
  }

  /** The sum does not depend on the order in which keys are taken. */
  lemma {:induction false} SumRemove<K>(m: map<K, nat>, k: K)
    requires k in m
    ensures Sum(m) == m[k] + Sum(m - {k})
    decreases |m|
  {
    var j :| j in m && Sum(m) == m[j] + Sum(m - {j});
    if j != k {
      Shrinks(m, j);
      Shrinks(m, k);
      SumRemove(m - {j}, k);
      SumRemove(m - {k}, j);
      assert m - {j} - {k} == m - {k} - {j};
    }
  }

  lemma SumUpdate<K>(m: map<K, nat>, k: K, v: nat)
    ensures Sum(m[k := v]) + Get(m, k) == Sum(m) + v
  {
    var n := m[k := v];
    SumRemove(n, k);
    if k in m {
      SumRemove(m, k);
      assert n - {k} == m - {k};
    } else {
      assert n - {k} == m;
    }
  }

  lemma SumDrop<K>(m: map<K, nat>, k: K)
    ensures Sum(m - {k}) + Get(m, k) == Sum(m)
  {
    if k in m {
      SumRemove(m, k);
    } else {
      assert m - {k} == m;
    }
  }

  lemma SumContains<K>(m: map<K, nat>, k: K)
    ensures Get(m, k) <= Sum(m)
  {
    SumDrop(m, k);
  }

  ghost predicate Below(x: nat, c: nat, y: nat, d: nat) {
    x * c <= y * d
  }

  lemma ZeroBelow(c: nat, y: nat, d: nat)
    ensures Below(0, c, y, d)
  {
  }

  lemma BoundStep(x: nat, y: nat, p: nat, q: nat, c: nat, d: nat)
    requires Below(x, c, y, d) && Below(p, c, q, d)
    ensures Below(x + p, c, y + q, d)
  {
    assert (x + p) * c == x * c + p * c;
    assert (y + q) * d == y * d + q * d;
  }

  /** If every term obeys a linear bound, so does the sum. */
  lemma {:induction false} SumBound<K>(a: map<K, nat>, b: map<K, nat>, c: nat, d: nat)
    requires forall k :: k in a ==> Below(a[k], c, Get(b, k), d)
    ensures Below(Sum(a), c, Sum(b), d)
    decreases |a|
  {
    if a == map[] {
      ZeroBelow(c, Sum(b), d);
    } else {
      var k :| k in a;
      var a', b' := a - {k}, b - {k};
      Shrinks(a, k);
      SumRemove(a, k);
      SumDrop(b, k);
      forall j | j in a' ensures Below(a'[j], c, Get(b', j), d) {
        assert a'[j] == a[j] && Get(b', j) == Get(b, j);
      }
      SumBound(a', b', c, d);
      BoundStep(a[k], Get(b, k), Sum(a'), Sum(b'), c, d);
    }
  }

  lemma SumMonotone<K>(a: map<K, nat>, b: map<K, nat>)
    requires forall k :: k in a ==> a[k] <= Get(b, k)
    ensures Sum(a) <= Sum(b)
  {
    forall k | k in a ensures Below(a[k], 1, Get(b, k), 1) {
    }
    SumBound(a, b, 1, 1);
  }

  /** Sums of two families with the same keys add up pointwise. */
  lemma {:induction false} SumAdd<K>(a: map<K, nat>, b: map<K, nat>, s: map<K, nat>)
    requires a.Keys == b.Keys == s.Keys
    requires forall k :: k in s ==> s[k] == a[k] + b[k]
    ensures Sum(s) == Sum(a) + Sum(b)
    decreases |s|
  {
    if s == map[] {
      assert a == map[] && b == map[];
    } else {
      var k :| k in s;
      Shrinks(s, k);
      SumRemove(a, k);
      SumRemove(b, k);
      SumRemove(s, k);
      SumAdd(a - {k}, b - {k}, s - {k});
    }
  }

  lemma SumBothSides<K>(a: map<K, nat>, b: map<K, nat>, c: map<K, nat>, d: map<K, nat>)
    requires a.Keys == b.Keys == c.Keys == d.Keys
    requires forall k :: k in a ==> a[k] + b[k] == c[k] + d[k]
    ensures Sum(a) + Sum(b) == Sum(c) + Sum(d)
  {
    hide Sum;
    var s := map k | k in a :: a[k] + b[k];
    SumAdd(a, b, s);
    SumAdd(c, d, s);
  }

  ghost function Scaled<K>(m: map<K, nat>, c: nat): map<K, nat> {
    map k | k in m :: m[k] * c
  }

  lemma SumScaled<K>(m: map<K, nat>, c: nat)
    ensures Sum(Scaled(m, c)) == Sum(m) * c
  {
    forall k | k in m
      ensures Below(Scaled(m, c)[k], 1, Get(m, k), c) && Below(m[k], c, Get(Scaled(m, c), k), 1)
    {
    }
    SumBound(Scaled(m, c), m, 1, c);
    SumBound(m, Scaled(m, c), c, 1);
  }

  // ---------------------------------------------------------------- sums along a list of keys

  function SumSeq<K(==)>(ks: seq<K>, m: map<K, nat>): nat {
    if ks == [] then 0 else Get(m, ks[0]) + SumSeq(ks[1..], m)
  }

  ghost predicate Distinct<K>(ks: seq<K>) {
    forall i, j :: 0 <= i < j < |ks| ==> ks[i] != ks[j]
  }

  lemma {:induction false} SumSeqConcat<K>(a: seq<K>, b: seq<K>, m: map<K, nat>)
    ensures SumSeq(a + b, m) == SumSeq(a, m) + SumSeq(b, m)
    decreases |a|
  {
    if a == [] {
      assert a + b == b;
    } else {
      assert (a + b)[1..] == a[1..] + b;
      SumSeqConcat(a[1..], b, m);
    }
  }

  /** Taking one entry out of a list takes its term out of the sum. */
  lemma SumSeqTakeOut<K>(ks: seq<K>, i: nat, m: map<K, nat>)
    requires i < |ks|
    ensures SumSeq(ks[..i] + ks[i + 1..], m) + Get(m, ks[i]) == SumSeq(ks, m)
  {
    assert ks == ks[..i] + ([ks[i]] + ks[i + 1..]);
    SumSeqConcat(ks[..i], [ks[i]] + ks[i + 1..], m);
    SumSeqConcat([ks[i]], ks[i + 1..], m);
    SumSeqConcat(ks[..i], ks[i + 1..], m);
    assert SumSeq([ks[i]], m) == Get(m, ks[i]) + SumSeq([], m);
  }

  /** The sum along a list only looks at the keys in it. */
  lemma {:induction false} SumSeqSame<K>(ks: seq<K>, m: map<K, nat>, n: map<K, nat>)
    requires forall k :: k in ks ==> Get(m, k) == Get(n, k)
    ensures SumSeq(ks, m) == SumSeq(ks, n)
    decreases |ks|
  {
    if ks != [] {
      SumSeqSame(ks[1..], m, n);
    }
  }

  lemma {:induction false} SumSeqUpdate<K>(ks: seq<K>, m: map<K, nat>, k: K, v: nat)
    requires Distinct(ks) && k in ks
    ensures SumSeq(ks, m[k := v]) + Get(m, k) == SumSeq(ks, m) + v
    decreases |ks|
  {
    if ks[0] == k {
      SumSeqSame(ks[1..], m, m[k := v]);
    } else {
      SumSeqUpdate(ks[1..], m, k, v);
    }
  }

  /** Distinct keys never sum to more than the whole map. */
  lemma {:induction false} SumSeqWithin<K>(ks: seq<K>, m: map<K, nat>)
    requires Distinct(ks)
    ensures SumSeq(ks, m) <= Sum(m)
    decreases |ks|
  {
    if ks != [] {
      SumSeqSame(ks[1..], m, m - {ks[0]});
      SumSeqWithin(ks[1..], m - {ks[0]});
      SumDrop(m, ks[0]);
    }
  }

  /** Removing distinct keys from a map removes their terms from its sum. */
  lemma {:induction false} SumDropSeq<K>(ks: seq<K>, m: map<K, nat>)
    requires Distinct(ks)
    ensures Sum(m - (set k | k in ks)) + SumSeq(ks, m) == Sum(m)
    decreases |ks|
  {
    if ks == [] {
      assert m - (set k | k in ks) == m;
    } else {
      var rest := m - {ks[0]};
      SumDropSeq(ks[1..], rest);
      SumSeqSame(ks[1..], m, rest);
      SumDrop(m, ks[0]);
      assert rest - (set k | k in ks[1..]) == m - (set k | k in ks);
    }
  }
}
