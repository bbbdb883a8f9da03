/**
 The airdrop's Merkle check. The digest (Keccak-256) is a parameter: nothing is assumed of it, except
 that inputs actually hashed do not collide where the soundness of the check is stated.
 */
module Merkle {
  import opened Wrappers

  type Byte = x: int | 0 <= x < 256

  const HASH_LENGTH: nat := 32

  type Hash = h: seq<Byte> | |h| == HASH_LENGTH witness seq(HASH_LENGTH, _ => 0)

  type Digest = seq<Byte> -> Hash

  // ---------------------------------------------------------------- hexadecimal

  const HEX_DIGITS: string := "0123456789abcdef"

  function HexEncode(bytes: seq<Byte>): (s: string)
    ensures |s| == 2 * |bytes|
  {
    if bytes == [] then []
    else [HEX_DIGITS[bytes[0] / 16], HEX_DIGITS[bytes[0] % 16]] + HexEncode(bytes[1..])
  }

  /** The value of a hexadecimal digit, upper or lower case. */
  function DigitValue(c: char): Option<int> {
    if '0' <= c <= '9' then Some(c as int - '0' as int)
    else if 'a' <= c <= 'f' then Some(c as int - 'a' as int + 10)
    else if 'A' <= c <= 'F' then Some(c as int - 'A' as int + 10)
    else None
  }

  function HexDecode(s: string): Option<seq<Byte>> {
    if |s| == 0 then Some([])
    else if |s| == 1 || DigitValue(s[0]).None? || DigitValue(s[1]).None? then None
    else
      var high, low := DigitValue(s[0]).value, DigitValue(s[1]).value;
      match HexDecode(s[2..])
      case None => None
      case Some(rest) => Some([16 * high + low] + rest)
  }

  /** `hex::decode_to_slice` into 32 bytes: anything but 64 hexadecimal digits is an error. */
  function DecodeHash(s: string): Option<Hash> {
    if |s| != 2 * HASH_LENGTH then None
    else
      match HexDecode(s)
      case None => None
      case Some(bytes) => if |bytes| == HASH_LENGTH then Some(bytes) else None
  }

  lemma DigitRoundTrip(d: int)
    requires 0 <= d < 16
    ensures DigitValue(HEX_DIGITS[d]) == Some(d)
  {
  }

  lemma {:induction false} HexRoundTrip(bytes: seq<Byte>)
    ensures HexDecode(HexEncode(bytes)) == Some(bytes)
    decreases |bytes|
  {
    if bytes != [] {
      var s := HexEncode(bytes);
      HeadRoundTrip(bytes);
      HexRoundTrip(bytes[1..]);
      assert HexDecode(s[2..]) == Some(bytes[1..]);
      hide DigitValue, HexEncode;
      assert HexDecode(s) == Some([16 * DigitValue(s[0]).value + DigitValue(s[1]).value] + bytes[1..]);
      assert [bytes[0]] + bytes[1..] == bytes;
    }
  }

  lemma HeadRoundTrip(bytes: seq<Byte>)
    requires bytes != []
    ensures var s := HexEncode(bytes);
            && |s| > 1 && s[2..] == HexEncode(bytes[1..])
            && DigitValue(s[0]).Some? && DigitValue(s[1]).Some?
            && 16 * DigitValue(s[0]).value + DigitValue(s[1]).value == bytes[0]
  {
    var s := HexEncode(bytes);
    assert s[0] == HEX_DIGITS[bytes[0] / 16] && s[1] == HEX_DIGITS[bytes[0] % 16];
    DigitRoundTrip(bytes[0] / 16);
    DigitRoundTrip(bytes[0] % 16);
  }

  // ---------------------------------------------------------------- order

  /** Lexicographic order of strings, as `str::cmp` compares them. */
  predicate StringLess(a: string, b: string)
    decreases |a|
  {
    if b == [] then false
    else if a == [] then true
    else a[0] < b[0] || (a[0] == b[0] && StringLess(a[1..], b[1..]))
  }

  predicate BytesLess(a: seq<Byte>, b: seq<Byte>)
    decreases |a|
  {
    if b == [] then false
    else if a == [] then true
    else a[0] < b[0] || (a[0] == b[0] && BytesLess(a[1..], b[1..]))
  }

  lemma DigitOrder(d: int, e: int)
    requires 0 <= d < 16 && 0 <= e < 16
    ensures HEX_DIGITS[d] < HEX_DIGITS[e] <==> d < e
  {
  }

  /** Comparing hexadecimal strings is comparing the bytes they stand for. */
  lemma {:induction false} HexOrder(a: seq<Byte>, b: seq<Byte>)
    ensures StringLess(HexEncode(a), HexEncode(b)) <==> BytesLess(a, b)
    decreases |a|
  {
    if a != [] && b != [] {
      var s, t := HexEncode(a), HexEncode(b);
      DigitOrder(a[0] / 16, b[0] / 16);
      DigitOrder(b[0] / 16, a[0] / 16);
      DigitOrder(a[0] % 16, b[0] % 16);
      DigitOrder(b[0] % 16, a[0] % 16);
      assert s[1..][1..] == HexEncode(a[1..]) && t[1..][1..] == HexEncode(b[1..]);
      HexOrder(a[1..], b[1..]);
    }
  }

  lemma {:induction false} BytesOrderTotal(a: seq<Byte>, b: seq<Byte>)
    requires |a| == |b|
    ensures a == b || (BytesLess(a, b) != BytesLess(b, a))
    ensures a == b ==> !BytesLess(a, b)
    decreases |a|
  {
    if a != [] {
      BytesOrderTotal(a[1..], b[1..]);
    }
  }

  // ---------------------------------------------------------------- the check

  /** Two hashes in order, the smaller first. */
  function Pair(a: Hash, b: Hash): (p: seq<Byte>)
    ensures |p| == 2 * HASH_LENGTH
  {
    if BytesLess(a, b) then a + b else b + a
  }

  /** The order of the two hashes does not matter, and the pair determines them up to order. */
  lemma PairSymmetric(a: Hash, b: Hash)
    ensures Pair(a, b) == Pair(b, a)
  {
    BytesOrderTotal(a, b);
  }

  lemma PairDetermines(a: Hash, b: Hash, c: Hash, d: Hash)
    requires Pair(a, b) == Pair(c, d)
    ensures (a == c && b == d) || (a == d && b == c)
  {
    var p := Pair(a, b);
    assert p[..HASH_LENGTH] == (if BytesLess(a, b) then a else b);
    assert p[HASH_LENGTH..] == (if BytesLess(a, b) then b else a);
    assert p[..HASH_LENGTH] == (if BytesLess(c, d) then c else d);
    assert p[HASH_LENGTH..] == (if BytesLess(c, d) then d else c);
  }

  function Fold(digest: Digest, hash: Hash, proof: seq<Hash>): Hash
    decreases |proof|
  {
    if proof == [] then hash else Fold(digest, digest(Pair(hash, proof[0])), proof[1..])
  }

  /** The hashes of a proof, if all are well-formed. */
  function DecodeProof(proof: seq<string>): Option<seq<Hash>> {
    if proof == [] then Some([])
    else
      match DecodeHash(proof[0])
      case None => None
      case Some(h) =>
        match DecodeProof(proof[1..])
        case None => None
        case Some(rest) => Some([h] + rest)
  }

  /** Decimal digits of an amount, as `to_string` writes them. */
  function Digits(n: nat): (s: seq<Byte>)
    ensures |s| > 0
  {
    if n < 10 then ['0' as int + n] else Digits(n / 10) + ['0' as int + n % 10]
  }

  /** The bytes of an address; addresses are ASCII. */
  function Bytes(s: Addr): seq<Byte> {
    seq(|s|, i requires 0 <= i < |s| => if s[i] as int < 128 then s[i] as int else '?' as int)
  }

  function LeafText(account: Addr, amount: nat): seq<Byte> {
    Bytes(account) + Digits(amount)
  }

  /** What `verify_claim` answers; it aborts on a malformed proof. */
  function Verified(digest: Digest, account: Addr, amount: nat, proof: seq<string>, root: string): Option<bool> {
    match DecodeProof(proof)
    case None => None
    case Some(hashes) => Some(root == HexEncode(Fold(digest, digest(LeafText(account, amount)), hashes)))
  }

  /** `verify_claim`, comparing hexadecimal strings as the contract does. */
  method VerifyClaim(digest: Digest, account: Addr, amount: nat, proof: seq<string>,
                     root: string) returns (r: Option<bool>)
    ensures r == Verified(digest, account, amount, proof, root)
  {
    var hash: Hash := digest(LeafText(account, amount));
    ghost var first := hash;
    var i := 0;
    while i < |proof|
      invariant 0 <= i <= |proof|
      invariant match DecodeProof(proof)
                case None => DecodeProof(proof[i..]).None?
                case Some(hashes) => DecodeProof(proof[i..]).Some?
                                     && Fold(digest, first, hashes) == Fold(digest, hash, DecodeProof(proof[i..]).value)
    {
      assert proof[i..][1..] == proof[i + 1..];
      var decoded := DecodeHash(proof[i]);
      if decoded.None? { return None; }
      HexOrder(hash, decoded.value);
      HexOrder(decoded.value, hash);
      BytesOrderTotal(hash, decoded.value);
      if StringLess(HexEncode(hash), HexEncode(decoded.value)) {
        hash := digest(hash + decoded.value);
      } else {
        hash := digest(decoded.value + hash);
      }
      i := i + 1;
    }
    r := Some(root == HexEncode(hash));
  }

  // ---------------------------------------------------------------- trees

  /** A tree of any shape; each node hashes its children's hashes in order. */
  datatype Tree = Leaf(data: seq<Byte>) | Node(left: Tree, right: Tree)

  function Root(digest: Digest, t: Tree): Hash {
    match t
    case Leaf(data) => digest(data)
    case Node(left, right) => digest(Pair(Root(digest, left), Root(digest, right)))
  }

  function Leaves(t: Tree): set<seq<Byte>> {
    match t
    case Leaf(data) => {data}
    case Node(left, right) => Leaves(left) + Leaves(right)
  }

  /** A leaf is reached from the root by going left (`true`) or right. */
  predicate Reaches(t: Tree, path: seq<bool>, data: seq<Byte>) {
    match t
    case Leaf(d) => path == [] && d == data
    case Node(left, right) => path != [] && Reaches(if path[0] then left else right, path[1..], data)
  }

  /** The hashes next to a path, from the leaf up. */
  function Siblings(digest: Digest, t: Tree, path: seq<bool>): seq<Hash> {
    match t
    case Leaf(_) => []
    case Node(left, right) =>
      if path == [] then []
      else if path[0] then Siblings(digest, left, path[1..]) + [Root(digest, right)]
      else Siblings(digest, right, path[1..]) + [Root(digest, left)]
  }

  lemma {:induction false} FoldSnoc(digest: Digest, hash: Hash, proof: seq<Hash>, last: Hash)
    ensures Fold(digest, hash, proof + [last]) == digest(Pair(Fold(digest, hash, proof), last))
    decreases |proof|
  {
    if proof == [] {
      assert proof + [last] == [last];
      assert Fold(digest, digest(Pair(hash, last)), [last][1..]) == digest(Pair(hash, last));
    } else {
      assert (proof + [last])[1..] == proof[1..] + [last];
      FoldSnoc(digest, digest(Pair(hash, proof[0])), proof[1..], last);
    }
  }

  /** Folding the siblings of any leaf gives the root. */
  lemma {:induction false} SiblingsLeadToRoot(digest: Digest, t: Tree, path: seq<bool>, data: seq<Byte>)
    requires Reaches(t, path, data)
    ensures Fold(digest, digest(data), Siblings(digest, t, path)) == Root(digest, t)
    decreases t
  {
    match t
    case Leaf(_) =>
    case Node(left, right) =>
      var (below, other) := if path[0] then (left, right) else (right, left);
      SiblingsLeadToRoot(digest, below, path[1..], data);
      FoldSnoc(digest, digest(data), Siblings(digest, below, path[1..]), Root(digest, other));
      PairSymmetric(Root(digest, left), Root(digest, right));
  }

  function Encoded(hashes: seq<Hash>): seq<string> {
    if hashes == [] then [] else [HexEncode(hashes[0])] + Encoded(hashes[1..])
  }

  lemma {:induction false} EncodedProof(hashes: seq<Hash>)
    ensures DecodeProof(Encoded(hashes)) == Some(hashes)
    decreases |hashes|
  {
    if hashes != [] {
      HexRoundTrip(hashes[0]);
      assert DecodeHash(HexEncode(hashes[0])) == Some(hashes[0]);
      EncodedProof(hashes[1..]);
      assert Encoded(hashes)[0] == HexEncode(hashes[0]) && Encoded(hashes)[1..] == Encoded(hashes[1..]);
      assert [hashes[0]] + hashes[1..] == hashes;
    }
  }

  /** Completeness: every entitlement in a tree of any shape is accepted with its sibling path. */
  lemma EveryLeafAccepted(digest: Digest, t: Tree, path: seq<bool>, account: Addr, amount: nat)
    requires Reaches(t, path, LeafText(account, amount))
    ensures Verified(digest, account, amount, Encoded(Siblings(digest, t, path)), HexEncode(Root(digest, t)))
         == Some(true)
  {
    EncodedProof(Siblings(digest, t, path));
    SiblingsLeadToRoot(digest, t, path, LeafText(account, amount));
  }

  // ---------------------------------------------------------------- soundness

  /** Everything hashed to build the tree. */
  function TreeInputs(digest: Digest, t: Tree): set<seq<Byte>> {
    match t
    case Leaf(data) => {data}
    case Node(left, right) =>
      TreeInputs(digest, left) + TreeInputs(digest, right) + {Pair(Root(digest, left), Root(digest, right))}
  }

  /** Everything hashed to check a proof. */
  function FoldInputs(digest: Digest, data: seq<Byte>, proof: seq<Hash>): set<seq<Byte>>
    decreases |proof|
  {
    if proof == [] then {data}
    else
      var last := |proof| - 1;
      FoldInputs(digest, data, proof[..last]) + {Pair(Fold(digest, digest(data), proof[..last]), proof[last])}
  }

  /** No two different inputs among `inputs` have the same digest. */
  predicate CollisionFree(digest: Digest, inputs: set<seq<Byte>>) {
    forall a, b :: a in inputs && b in inputs && digest(a) == digest(b) ==> a == b
  }

  /** No leaf can be mistaken for the 64 bytes of an inner node. */
  predicate LeavesAreNotPairs(t: Tree) {
    forall data :: data in Leaves(t) ==> |data| != 2 * HASH_LENGTH
  }

  lemma NoCollision(digest: Digest, inputs: set<seq<Byte>>, a: seq<Byte>, b: seq<Byte>)
    requires CollisionFree(digest, inputs) && a in inputs && b in inputs && digest(a) == digest(b)
    ensures a == b
  {
  }

  lemma FewerInputs(digest: Digest, inputs: set<seq<Byte>>, fewer: set<seq<Byte>>)
    requires CollisionFree(digest, inputs) && fewer <= inputs
    ensures CollisionFree(digest, fewer)
  {
  }

  /** A proof that hashes something last leads to an inner node, and its next to last hash to one of the children. */
  lemma LastHash(digest: Digest, t: Tree, inputs: set<seq<Byte>>, below: Hash, sibling: Hash)
    requires digest(Pair(below, sibling)) == Root(digest, t)
    requires CollisionFree(digest, inputs) && TreeInputs(digest, t) <= inputs && Pair(below, sibling) in inputs
    requires LeavesAreNotPairs(t)
    ensures t.Node? && (below == Root(digest, t.left) || below == Root(digest, t.right))
  {
    hide CollisionFree, Pair;
    match t
    case Leaf(d) =>
      assert d in Leaves(t);
      NoCollision(digest, inputs, Pair(below, sibling), d);
    case Node(left, right) =>
      NoCollision(digest, inputs, Pair(below, sibling), Pair(Root(digest, left), Root(digest, right)));
      PairDetermines(below, sibling, Root(digest, left), Root(digest, right));
  }

  /** Nothing but a leaf has the root hash without a proof. */
  lemma NoProof(digest: Digest, t: Tree, inputs: set<seq<Byte>>, data: seq<Byte>)
    requires digest(data) == Root(digest, t)
    requires CollisionFree(digest, inputs) && TreeInputs(digest, t) <= inputs && data in inputs
    requires |data| != 2 * HASH_LENGTH
    ensures data in Leaves(t)
  {
    hide CollisionFree, Pair;
    match t
    case Leaf(d) =>
      NoCollision(digest, inputs, data, d);
    case Node(left, right) =>
      NoCollision(digest, inputs, data, Pair(Root(digest, left), Root(digest, right)));
  }

  lemma {:induction false} FoldFromLeaf(digest: Digest, t: Tree, data: seq<Byte>, proof: seq<Hash>)
    requires Fold(digest, digest(data), proof) == Root(digest, t)
    requires CollisionFree(digest, TreeInputs(digest, t) + FoldInputs(digest, data, proof))
    requires |data| != 2 * HASH_LENGTH && LeavesAreNotPairs(t)
    ensures data in Leaves(t)
    decreases |proof|
  {
    hide CollisionFree, Pair;
    var inputs := TreeInputs(digest, t) + FoldInputs(digest, data, proof);
    if proof == [] {
      NoProof(digest, t, inputs, data);
    } else {
      var last := |proof| - 1;
      var below, sibling := Fold(digest, digest(data), proof[..last]), proof[last];
      assert proof == proof[..last] + [sibling];
      FoldSnoc(digest, digest(data), proof[..last], sibling);
      LastHash(digest, t, inputs, below, sibling);
      var child := if below == Root(digest, t.left) then t.left else t.right;
      FewerInputs(digest, inputs, TreeInputs(digest, child) + FoldInputs(digest, data, proof[..last]));
      FoldFromLeaf(digest, child, data, proof[..last]);
    }
  }

  lemma {:induction false} HexInjective(a: seq<Byte>, b: seq<Byte>)
    requires HexEncode(a) == HexEncode(b)
    ensures a == b
  {
    HexRoundTrip(a);
    HexRoundTrip(b);
  }

  /** Soundness: whatever is accepted against the root of a tree is a leaf of the tree. */
  lemma AcceptedIsLeaf(digest: Digest, t: Tree, account: Addr, amount: nat, proof: seq<string>)
    requires Verified(digest, account, amount, proof, HexEncode(Root(digest, t))) == Some(true)
    requires CollisionFree(digest,
                           TreeInputs(digest, t) + FoldInputs(digest, LeafText(account, amount),
                                                              DecodeProof(proof).value))
    requires |LeafText(account, amount)| != 2 * HASH_LENGTH && LeavesAreNotPairs(t)
    ensures LeafText(account, amount) in Leaves(t)
  {
    var hashes := DecodeProof(proof).value;
    HexInjective(Root(digest, t), Fold(digest, digest(LeafText(account, amount)), hashes));
    FoldFromLeaf(digest, t, LeafText(account, amount), hashes);
  }

  // ---------------------------------------------------------------- leaf texts

  lemma {:induction false} DigitsInjective(m: nat, n: nat)
    requires Digits(m) == Digits(n)
    ensures m == n
    decreases m
  {
    var s, t := Digits(m), Digits(n);
    assert s[|s| - 1] == t[|t| - 1];
    assert m % 10 == n % 10;
    if m >= 10 && n >= 10 {
      assert s[..|s| - 1] == Digits(m / 10) && t[..|t| - 1] == Digits(n / 10);
      DigitsInjective(m / 10, n / 10);
    }
  }

  predicate IsAscii(s: Addr) {
    forall i :: 0 <= i < |s| ==> s[i] as int < 128
  }

  /** Between accounts of the same length the text of a leaf determines account and amount. */
  lemma LeafTextInjective(a: Addr, m: nat, b: Addr, n: nat)
    requires IsAscii(a) && IsAscii(b) && |a| == |b|
    requires LeafText(a, m) == LeafText(b, n)
    ensures a == b && m == n
  {
    assert LeafText(a, m)[..|a|] == Bytes(a) && LeafText(b, n)[..|a|] == Bytes(b);
    assert LeafText(a, m)[|a|..] == Digits(m) && LeafText(b, n)[|a|..] == Digits(n);
    DigitsInjective(m, n);
    forall i | 0 <= i < |a| ensures a[i] == b[i] {
      assert Bytes(a)[i] == Bytes(b)[i];
    }
  }

  /**
   For a tree over the texts of `entitled`, with addresses of one length, whatever is accepted is one
   of the entitlements.
   */
  lemma AcceptedIsEntitled(digest: Digest, t: Tree, entitled: set<(Addr, nat)>, account: Addr, amount: nat,
                           proof: seq<string>)
    requires Leaves(t) == set e | e in entitled :: LeafText(e.0, e.1)
    requires forall e :: e in entitled ==> IsAscii(e.0) && |e.0| == |account| && |LeafText(e.0, e.1)| != 2 * HASH_LENGTH
    requires IsAscii(account) && |LeafText(account, amount)| != 2 * HASH_LENGTH
    requires Verified(digest, account, amount, proof, HexEncode(Root(digest, t))) == Some(true)
    requires CollisionFree(digest,
                           TreeInputs(digest, t) + FoldInputs(digest, LeafText(account, amount),
                                                              DecodeProof(proof).value))
    ensures (account, amount) in entitled
  {
    AcceptedIsLeaf(digest, t, account, amount, proof);
    var e :| e in entitled && LeafText(e.0, e.1) == LeafText(account, amount);
    LeafTextInjective(e.0, e.1, account, amount);
  }

  /** Without the condition on lengths it does not: moving a digit gives the same text. */
  lemma LeafTextAmbiguous()
    ensures LeafText("terra1", 23) == LeafText("terra12", 3)
  {
  }
}
