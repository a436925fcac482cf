/** From positions in the list to IPv6 addresses: the mask on configured hints,
    and the sub-prefix an interface derives from its assignment.

    Only the upper 64 bits matter; they are two 32-bit words in host order. */
module PrefixAddress {
  import opened Bits
  import opened PrefixList
  import opened PrefixRebuild

  /** The hint stored for an interface: the parsed long, masked, cut to 32 bits. */
  function AssignmentHint(parsed: int, length: PrefixLength): int {
    Wrap32(AndNot(parsed, Pow2(64 - length) - 1))
  }

  /** Whatever was parsed, the stored hint is a multiple of the size of the
      request, so it is either usable as it stands or, for a /64 only, -1. */
  lemma HintIsAligned(parsed: int, length: PrefixLength)
    requires 48 <= length
    ensures var h := AssignmentHint(parsed, length);
            && -0x8000_0000 <= h < 0x8000_0000
            && h % Size(length) == 0
            && (h == UNASSIGNED ==> length == 64)
  {
    AndNotMask(parsed, 64 - length);
    WrapKeepsAlignment(AndNot(parsed, Pow2(64 - length) - 1), 64 - length);
    var h := AssignmentHint(parsed, length);
    if length < 64 && h == -1 {
      SizeStrict(length, 64);
      ModUnique(0, Size(length), 0, 0);
      AlignedGap(h, 0, Size(length));
    }
  }

  lemma WrapKeepsAlignment(x: int, k: nat)
    requires k <= 32 && x % Pow2(k) == 0
    ensures Wrap32(x) % Pow2(k) == 0
  {
    var q := (x + 0x8000_0000) / 0x1_0000_0000;
    assert x - Wrap32(x) == q * 0x1_0000_0000;
    PowerValues();
    MultipleMod(q, 0x1_0000_0000);
    AlignedDown(x - Wrap32(x), k, 32);
    AlignedSum(x, x - Wrap32(x), Pow2(k));
    assert x - (x - Wrap32(x)) == Wrap32(x);
  }

  /** The number of the /64 network with upper words w0 and w1. */
  function Network(w0: nat, w1: nat): nat {
    w0 * 0x1_0000_0000 + w1
  }

  /** Network n lies in the prefix of the given length that contains net. */
  predicate InPrefix(n: nat, net: nat, length: PrefixLength) {
    n / Size(length) == net / Size(length)
  }

  /** A delegated prefix: nothing set after its length. */
  ghost predicate Delegated(w0: nat, w1: nat, plen: PrefixLength) {
    34 <= plen && w1 < 0x1_0000_0000 && w1 % Size(plen) == 0
  }

  /** The network an interface takes: its position or-ed into word 1. */
  function SubNetwork(w0: nat, w1: nat, b: Block): nat
    requires b.start >= 0
  {
    w0 * 0x1_0000_0000 + Or(w1, b.start)
  }

  lemma PrefixRange(n: nat, net: nat, length: PrefixLength)
    requires net % Size(length) == 0
    ensures InPrefix(n, net, length) <==> net <= n < net + Size(length)
  {
    var d := Size(length);
    var q := net / d;
    assert net == q * d;
    if net <= n < net + d { ModUnique(n, d, q, n - net); }
    assert n == (n / d) * d + n % d;
  }

  lemma NetworkAligned(w0: nat, w1: nat, k: nat)
    requires k <= 32 && w1 % Pow2(k) == 0
    ensures Network(w0, w1) % Pow2(k) == 0
  {
    PowerValues();
    MultipleMod(w0, Pow2(32));
    AlignedDown(w0 * 0x1_0000_0000, k, 32);
    AlignedSum(w0 * 0x1_0000_0000, w1, Pow2(k));
  }

  /** The sub-prefix of a block is exactly its range of networks, counted from
      the start of the delegated prefix. */
  lemma SubPrefixRange(bs: seq<Block>, plen: PrefixLength, w0: nat, w1: nat, i: nat, n: nat)
    requires WellFormed(bs, plen) && Delegated(w0, w1, plen) && i < |bs| - 1
    ensures var net := SubNetwork(w0, w1, bs[i]);
            && net == Network(w0, w1) + bs[i].start
            && (InPrefix(n, net, bs[i].length) <==>
                  Network(w0, w1) + bs[i].start <= n < Network(w0, w1) + End(bs[i]))
  {
    var b := bs[i];
    var m, k := 64 - plen, 64 - b.length;
    assert End(b) <= bs[|bs| - 1].start;
    OrDisjoint(w1, b.start, m);
    if b.length < plen { SizeStrict(b.length, plen); }
    NetworkAligned(w0, w1, m);
    AlignedDown(Network(w0, w1), k, m);
    AlignedSum(Network(w0, w1), b.start, Pow2(k));
    PrefixRange(n, Network(w0, w1) + b.start, b.length);
  }

  /** Every interface's sub-prefix lies inside the delegated prefix, and no
      address is in the sub-prefixes of two list entries. */
  lemma SubPrefixesDisjoint(bs: seq<Block>, plen: PrefixLength, w0: nat, w1: nat, i: nat, j: nat, n: nat)
    requires WellFormed(bs, plen) && Delegated(w0, w1, plen) && i < |bs| - 1 && j < |bs| - 1
    requires InPrefix(n, SubNetwork(w0, w1, bs[i]), bs[i].length)
    ensures InPrefix(n, Network(w0, w1), plen)
    ensures i != j ==> !InPrefix(n, SubNetwork(w0, w1, bs[j]), bs[j].length)
  {
    SubPrefixRange(bs, plen, w0, w1, i, n);
    SubPrefixRange(bs, plen, w0, w1, j, n);
    assert End(bs[i]) <= bs[|bs| - 1].start;
    NetworkAligned(w0, w1, 64 - plen);
    PrefixRange(n, Network(w0, w1), plen);
    if i < j { assert End(bs[i]) <= bs[j].start; }
    if j < i { assert End(bs[j]) <= bs[i].start; }
  }
}
