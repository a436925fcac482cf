/** Masking and comparing the 16-byte address union. */
module IfAddr {

  const SIZE: nat := 16
  const BITS: nat := 128

  type Bytes = s: seq<bv8> | |s| == 16 witness [0, 0, 0, 0, 0, 0, 0, 0, 0, 0, 0, 0, 0, 0, 0, 0]

  /** The value of bit k of a byte, counted from the most significant. */
  function Weight(k: nat): bv8
    requires k < 8
  {
    match k {
      case 0 => 0x80
      case 1 => 0x40
      case 2 => 0x20
      case 3 => 0x10
      case 4 => 8
      case 5 => 4
      case 6 => 2
      case 7 => 1
    }
  }

  predicate ByteBit(b: bv8, k: nat)
    requires k < 8
  {
    b & Weight(k) != 0
  }

  /** Bit j of an address in network order. */
  predicate Bit(a: Bytes, j: nat)
    requires j < BITS
  {
    ByteBit(a[j / 8], j % 8)
  }

  /** Whether two addresses agree on their first mask bits. */
  ghost predicate SamePrefix(a: Bytes, b: Bytes, mask: nat)
    requires mask <= BITS
  {
    forall j :: 0 <= j < mask ==> Bit(a, j) == Bit(b, j)
  }

  /** What is left of an address: its first mask bits. */
  ghost predicate Cleared(r: Bytes, a: Bytes, mask: nat) {
    forall j :: 0 <= j < BITS ==> Bit(r, j) == (j < mask && Bit(a, j))
  }

  /** The low bits of the last byte that lie behind the mask. */
  function ClearMask(n: nat): bv8
    requires n < 8
  {
    (1 << n) - 1
  }

  lemma ClearMaskBit(b: bv8, n: nat, k: nat)
    requires n < 8 && k < 8
    ensures ByteBit(b & !ClearMask(n), k) == (k < 8 - n && ByteBit(b, k))
  {
    WeightInClearMask(n, k);
    AndSplits(b, ClearMask(n), Weight(k));
  }

  lemma AndSplits(b: bv8, c: bv8, w: bv8)
    ensures w & c == 0 ==> (b & !c) & w == b & w
    ensures w & c == w ==> (b & !c) & w == 0
  {}

  lemma WeightInClearMask(n: nat, k: nat)
    requires n < 8 && k < 8
    ensures Weight(k) & ClearMask(n) == if k < 8 - n then 0 else Weight(k)
  {
    LowMask(n);
    WeightAgainst(n, k);
  }

  /** The low n bits of a byte. */
  function Low(n: nat): bv8
    requires n < 8
  {
    match n {
      case 0 => 0x0
      case 1 => 0x1
      case 2 => 0x3
      case 3 => 0x7
      case 4 => 0xF
      case 5 => 0x1F
      case 6 => 0x3F
      case 7 => 0x7F
    }
  }

  lemma LowMask(n: nat)
    requires n < 8
    ensures ClearMask(n) == Low(n)
  {
    match n {
      case 0 =>
      case 1 =>
      case 2 =>
      case 3 =>
      case 4 =>
      case 5 =>
      case 6 =>
      case 7 =>
    }
  }

  lemma WeightAgainst(n: nat, k: nat)
    requires n < 8 && k < 8
    ensures Weight(k) & Low(n) == if k < 8 - n then 0 else Weight(k)
  {}

  lemma ZeroBit(k: nat)
    requires k < 8
    ensures !ByteBit(0, k)
  {}

  /** A byte is determined by its bits. */
  lemma ByteFromBits(a: bv8, b: bv8)
    requires forall k :: 0 <= k < 8 ==> ByteBit(a, k) == ByteBit(b, k)
    ensures a == b
  {
    assert ByteBit(a, 0) == ByteBit(b, 0) && ByteBit(a, 1) == ByteBit(b, 1);
    assert ByteBit(a, 2) == ByteBit(b, 2) && ByteBit(a, 3) == ByteBit(b, 3);
    assert ByteBit(a, 4) == ByteBit(b, 4) && ByteBit(a, 5) == ByteBit(b, 5);
    assert ByteBit(a, 6) == ByteBit(b, 6) && ByteBit(a, 7) == ByteBit(b, 7);
  }

  lemma BytesFromBits(a: Bytes, b: Bytes)
    requires SamePrefix(a, b, BITS)
    ensures a == b
  {
    forall i | 0 <= i < SIZE ensures a[i] == b[i] {
      forall k | 0 <= k < 8 ensures ByteBit(a[i], k) == ByteBit(b[i], k) {
        assert (8 * i + k) / 8 == i && (8 * i + k) % 8 == k;
        assert Bit(a, 8 * i + k) == Bit(b, 8 * i + k);
      }
      ByteFromBits(a[i], b[i]);
    }
  }

  /** Writing zeros from byte m on and clearing the tail of byte m - 1 is
      enough, given how m and the tail are computed. */
  lemma ClearedByBytes(r: Bytes, a: Bytes, mask: nat, m: nat)
    requires mask <= BITS && m == (mask + 7) / 8
    requires forall i :: m <= i < SIZE ==> r[i] == 0
    requires forall i :: 0 <= i < m - 1 ==> r[i] == a[i]
    requires m > 0 ==> r[m - 1] == a[m - 1] & !ClearMask(8 * m - mask)
    ensures Cleared(r, a, mask)
  {
    forall j | 0 <= j < BITS ensures Bit(r, j) == (j < mask && Bit(a, j)) {
      var i, k := j / 8, j % 8;
      if m <= i {
        ZeroBit(k);
      } else if i == m - 1 {
        ClearMaskBit(a[i], 8 * m - mask, k);
      }
    }
  }

  /** Keeps exactly the first mask bits, in place. With an empty mask the
      original also touches the byte in front of the address, without changing
      it; here nothing is written there. */
  method ClearIfAddr(p: array<bv8>, mask: nat)
    requires p.Length == SIZE && mask <= BITS
    modifies p
    ensures Cleared(p[..], old(p[..]), mask)
  {
    var mBytes := (mask + 7) / 8;
    var mClear := ClearMask(mBytes * 8 - mask);
    for i := mBytes to SIZE
      invariant forall k :: mBytes <= k < i ==> p[k] == 0
      invariant forall k :: 0 <= k < mBytes ==> p[k] == old(p[k])
    {
      p[i] := 0;
    }
    if mBytes > 0 {
      p[mBytes - 1] := p[mBytes - 1] & !mClear;
    }
    ClearedByBytes(p[..], old(p[..]), mask, mBytes);
  }

  /** Equal after masking means equal on the masked bits. */
  lemma ClearedEqualIff(r: Bytes, s: Bytes, a: Bytes, b: Bytes, mask: nat)
    requires mask <= BITS && Cleared(r, a, mask) && Cleared(s, b, mask)
    ensures r == s <==> SamePrefix(a, b, mask)
  {
    if r == s {
      forall j | 0 <= j < mask ensures Bit(a, j) == Bit(b, j) {
        assert Bit(r, j) == Bit(a, j) && Bit(s, j) == Bit(b, j);
      }
    }
    if SamePrefix(a, b, mask) {
      forall j | 0 <= j < BITS ensures Bit(r, j) == Bit(s, j) {}
      BytesFromBits(r, s);
    }
  }

  method Copy(a: array<bv8>) returns (p: array<bv8>)
    requires a.Length == SIZE
    ensures fresh(p) && p.Length == SIZE && p[..] == a[..]
  {
    p := new bv8[SIZE](_ => 0);
    for i := 0 to SIZE
      invariant p[..i] == a[..i]
    {
      p[i] := a[i];
    }
    assert p[..] == p[..SIZE] == a[..SIZE] == a[..];
  }

  method MemEqual(p: array<bv8>, q: array<bv8>) returns (r: bool)
    requires p.Length == q.Length
    ensures r <==> p[..] == q[..]
  {
    for i := 0 to p.Length
      invariant p[..i] == q[..i]
    {
      if p[i] != q[i] {
        assert p[..][i] != q[..][i];
        return false;
      }
    }
    assert p[..] == p[..p.Length] && q[..] == q[..p.Length];
    r := true;
  }

  /** Compares masked copies and leaves both addresses alone. */
  method MatchIfAddr(a1: array<bv8>, a2: array<bv8>, mask: nat) returns (r: bool)
    requires a1.Length == SIZE && a2.Length == SIZE && mask <= BITS
    ensures r <==> SamePrefix(a1[..], a2[..], mask)
  {
    var p1 := Copy(a1);
    ClearIfAddr(p1, mask);
    var p2 := Copy(a2);
    ClearIfAddr(p2, mask);
    r := MemEqual(p1, p2);
    ClearedEqualIff(p1[..], p2[..], a1[..], a2[..], mask);
  }

  /** Masking twice is masking with the shorter mask; in particular masking
      again changes nothing, and there is only one masked form. */
  lemma ClearTwice(r: Bytes, s: Bytes, a: Bytes, m: nat, n: nat, t: Bytes)
    requires m <= BITS && n <= BITS && Cleared(r, a, m) && Cleared(s, r, n)
    requires Cleared(t, a, if m <= n then m else n)
    ensures s == t
  {
    forall j | 0 <= j < BITS ensures Bit(s, j) == Bit(t, j) {
      assert Bit(s, j) == (j < n && Bit(r, j));
      assert Bit(r, j) == (j < m && Bit(a, j));
    }
    BytesFromBits(s, t);
  }

  /** At a fixed mask, matching is an equivalence; a match at one mask is a
      match at every shorter one; at the full mask it is equality. */
  lemma MatchIsEquivalence(a: Bytes, b: Bytes, c: Bytes, m: nat, n: nat)
    requires n <= m <= BITS
    ensures SamePrefix(a, a, m)
    ensures SamePrefix(a, b, m) ==> SamePrefix(b, a, m) && SamePrefix(a, b, n)
    ensures SamePrefix(a, b, m) && SamePrefix(b, c, m) ==> SamePrefix(a, c, m)
    ensures SamePrefix(a, b, BITS) <==> a == b
  {
    if SamePrefix(a, b, BITS) { BytesFromBits(a, b); }
  }
}
