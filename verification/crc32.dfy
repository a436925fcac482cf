/** CRC-32 as the daemon computes it, and what it can tell apart. */
module Crc32 {
  import opened Registers

  type byte = b: bv32 | b <= 0xFF witness 0

  const POLY: bv32 := 0xEDB88320

  // ---- the specification: one bit at a time -------------------------------

  /** One step of the reflected shift register. */
  function Shift(c: bv32): bv32 {
    if c & 1 == 1 then POLY ^ (c >> 1) else c >> 1
  }

  function Xor(a: bv32, b: bv32): bv32 {
    a ^ b
  }

  function BitOf(b: bool): bv32 {
    if b then 1 else 0
  }

  function LowBit(c: bv32): bool {
    c & 1 == 1
  }

  function Half(c: bv32): bv32 {
    c >> 1
  }

  /** Feeds one message bit. */
  function BitStep(c: bv32, b: bool): bv32 {
    Shift(Xor(c, BitOf(b)))
  }

  /** The bits of a byte, least significant first. */
  function ByteBits(b: byte): seq<bool> {
    LowBits(LowBit, Half, b, 8)
  }

  /** The CRC-32 of section 8 of RFC 1952, bit by bit. */
  function Crc(data: seq<byte>): bv32 {
    Fold(BitStep, 0xFFFF_FFFF, Flatten(ByteBits, data)) ^ 0xFFFF_FFFF
  }

  // ---- the table form -------------------------------------------------------

  /** Entry i of the table. */
  function TableEntry(i: bv32): bv32 {
    Iter(Shift, i, 8)
  }

  function Low(x: bv32): bv32 {
    x & 0xFF
  }

  function Up(x: bv32): bv32 {
    x >> 8
  }

  function Val(b: byte): bv32 {
    b
  }

  /** Feeds one message byte through the table. */
  function ByteStep(c: bv32, b: byte): bv32 {
    Xor(TableEntry(Low(Xor(c, Val(b)))), Up(c))
  }

  // ---- facts about single words ----------------------------------------------

  lemma XorShifts(x: bv32, y: bv32)
    ensures (x ^ y) >> 1 == (x >> 1) ^ (y >> 1)
  {}

  lemma XorParity(x: bv32, y: bv32)
    ensures ((x ^ y) & 1 == 1) <==> ((x & 1 == 1) != (y & 1 == 1))
  {}

  lemma XorLaws(a: bv32, b: bv32, p: bv32)
    ensures p ^ (a ^ b) == (p ^ a) ^ b
    ensures a ^ (p ^ b) == p ^ (a ^ b)
    ensures (p ^ a) ^ (p ^ b) == a ^ b
  {}

  lemma XorCancel(x: bv32, y: bv32, c: bv32)
    ensures x ^ c == y ^ c ==> x == y
    ensures c ^ x == c ^ y ==> x == y
  {}

  lemma ShiftLinearAt(x: bv32, y: bv32)
    ensures Shift(x ^ y) == Shift(x) ^ Shift(y)
  {
    XorShifts(x, y);
    XorParity(x, y);
    XorLaws(x >> 1, y >> 1, POLY);
  }

  lemma ShiftIsLinear()
    ensures Linear(Shift, Xor)
  {
    forall x: bv32, y: bv32
      ensures Shift(Xor(x, y)) == Xor(Shift(x), Shift(y))
    {
      ShiftLinearAt(x, y);
    }
  }

  lemma XorIsAssociative()
    ensures Associative(Xor)
  {
    forall a: bv32, b: bv32, c: bv32
      ensures Xor(a, Xor(b, c)) == Xor(Xor(a, b), c)
    {
      XorLaws(b, c, a);
    }
  }

  lemma ShiftInjectiveAt(x: bv32, y: bv32)
    requires Shift(x) == Shift(y)
    ensures x == y
  {}

  /** The top bit tells which way a step went, so a step can be undone. */
  lemma ShiftIsInjective()
    ensures Injective(Shift)
  {
    forall x: bv32, y: bv32 | Shift(x) == Shift(y) ensures x == y {
      ShiftInjectiveAt(x, y);
    }
  }

  lemma EightHigh(x: bv32)
    requires x & 0xFF == 0
    ensures Shift(Shift(Shift(Shift(Shift(Shift(Shift(Shift(x)))))))) == x >> 8
  {}

  /** A register with an empty low byte just moves down by eight. */
  lemma HighBytesMoveDown(x: bv32)
    requires x & 0xFF == 0
    ensures Iter(Shift, x, 8) == Up(x)
  {
    IterEight(Shift, x);
    EightHigh(x);
  }

  function High(x: bv32): bv32 {
    x & 0xFFFF_FF00
  }

  lemma SplitByteAt(x: bv32)
    ensures x == Xor(Low(x), High(x))
    ensures High(x) & 0xFF == 0 && High(x) >> 8 == Up(x)
  {}

  lemma WordSplitsByte()
    ensures SplitsByte(Xor, Low, High)
  {
    forall x: bv32 ensures x == Xor(Low(x), High(x)) { SplitByteAt(x); }
  }

  lemma HighMovesDown()
    ensures MovesDown(Shift, High, Up)
  {
    forall x: bv32 ensures Iter(Shift, High(x), 8) == Up(x) {
      SplitByteAt(x);
      HighBytesMoveDown(High(x));
    }
  }

  lemma UpIgnoresByteAt(c: bv32, b: byte)
    ensures Up(Xor(c, Val(b))) == Up(c)
  {}

  lemma UpIgnoresByte()
    ensures KeepsUpper(Xor, Val, Up)
  {
    forall c: bv32, b: byte ensures Up(Xor(c, Val(b))) == Up(c) { UpIgnoresByteAt(c, b); }
  }

  lemma ByteStepIsTableForm()
    ensures TableForm(Shift, Xor, ByteStep, Val, Low, Up)
  {}

  lemma BitStepFeedsBit()
    ensures FeedsBit(Shift, Xor, BitOf, BitStep)
  {}

  lemma SplitLowBitAt(a: bv32)
    ensures Shift(a) == Xor(Shift(BitOf(LowBit(a))), Half(a))
  {}

  lemma ShiftSplitsLow()
    ensures SplitsLow(Shift, Xor, BitOf, LowBit, Half)
  {
    forall a: bv32 ensures Shift(a) == Xor(Shift(BitOf(LowBit(a))), Half(a)) { SplitLowBitAt(a); }
  }

  lemma EightHalves(b: byte)
    ensures Half(Half(Half(Half(Half(Half(Half(Half(b)))))))) == 0
  {}

  lemma ByteRunsOut()
    ensures RunsOut(Xor, Half, Val)
  {
    forall a: bv32, b: byte ensures Xor(a, Iter(Half, Val(b), 8)) == a {
      IterEight(Half, Val(b));
      EightHalves(b);
    }
  }

  // ---- the table form refines the bitwise form --------------------------------

  /** Looking up the low byte and shifting the rest feeds the bits of the byte. */
  lemma ByteStepIsBitwise()
    ensures RunsOf(ByteStep, BitStep, ByteBits)
  {
    ShiftIsLinear();
    WordSplitsByte();
    HighMovesDown();
    ByteStepIsTableForm();
    UpIgnoresByte();
    XorIsAssociative();
    BitStepFeedsBit();
    ShiftSplitsLow();
    ByteRunsOut();
    TableStepFeedsBits(Shift, Xor, ByteStep, Val, Low, High, Up, BitOf, LowBit, Half, BitStep, ByteBits);
  }

  /** The table form computes the CRC, whatever the data. */
  lemma TableFormIsCrc(data: seq<byte>)
    ensures Fold(ByteStep, 0xFFFF_FFFF, data) ^ 0xFFFF_FFFF == Crc(data)
  {
    ByteStepIsBitwise();
    FoldFlatten(ByteStep, BitStep, ByteBits, 0xFFFF_FFFF as bv32, data);
  }

  // ---- error detection ----------------------------------------------------------

  /** Up to four bytes as one little-endian word. */
  function Word(w: seq<byte>): bv32
    decreases |w|
  {
    if w == [] then 0 else Pack(w[0], Word(w[1..]))
  }

  function Above(x: bv32): bv32 {
    x << 8
  }

  function Pack(b: byte, x: bv32): bv32 {
    Xor(Val(b), Above(x))
  }

  lemma PackAt(b: byte, x: bv32)
    requires x <= 0xFFFF
    ensures Pack(b, x) <= 0xFF_FFFF && (x <= 0xFF ==> Pack(b, x) <= 0xFFFF)
  {}

  lemma AboveAt(x: bv32)
    requires x <= 0xFF_FFFF
    ensures Above(x) & 0xFF == 0 && Up(Above(x)) == x
  {}

  lemma PackZero(b: byte)
    ensures Pack(b, 0) <= 0xFF
  {}

  lemma {:induction false} WordBound(w: seq<byte>)
    requires |w| <= 3
    ensures Word(w) <= 0xFF_FFFF
    ensures |w| <= 2 ==> Word(w) <= 0xFFFF
    ensures |w| <= 1 ==> Word(w) <= 0xFF
    decreases |w|
  {
    if w != [] {
      WordBound(w[1..]);
      if |w| > 1 { PackAt(w[0], Word(w[1..])); }
      PackZero(w[0]);
    }
  }

  lemma UnpackAt(a: byte, b: byte, x: bv32, y: bv32)
    requires x <= 0xFF_FFFF && y <= 0xFF_FFFF && Pack(a, x) == Pack(b, y)
    ensures a == b && x == y
  {}

  lemma WordUnpacksAt(s: seq<byte>, t: seq<byte>)
    requires 0 < |s| == |t| <= 4 && Word(s) == Word(t)
    ensures s[0] == t[0] && Word(s[1..]) == Word(t[1..])
  {
    WordBound(s[1..]);
    WordBound(t[1..]);
    UnpackAt(s[0], t[0], Word(s[1..]), Word(t[1..]));
  }

  lemma WordUnpacks()
    ensures Unpacks(Word, 4)
  {
    forall s: seq<byte>, t: seq<byte> | 0 < |s| == |t| <= 4 && Word(s) == Word(t)
      ensures s[0] == t[0] && Word(s[1..]) == Word(t[1..])
    {
      WordUnpacksAt(s, t);
    }
  }

  /** A message register step is a bijection on registers. */
  lemma ByteStepIsInjective()
    ensures StepInjective(ByteStep)
  {
    ByteStepIsBitwise();
    BitStepIsInjective();
    forall c: bv32, c': bv32, b: byte | ByteStep(c, b) == ByteStep(c', b)
      ensures c == c'
    {
      FoldInjective(BitStep, c, c', ByteBits(b));
    }
  }

  lemma BitStepIsInjective()
    ensures StepInjective(BitStep)
  {
    forall c: bv32, c': bv32, b: bool | BitStep(c, b) == BitStep(c', b)
      ensures c == c'
    {
      ShiftInjectiveAt(Xor(c, BitOf(b)), Xor(c', BitOf(b)));
      XorCancel(c, c', BitOf(b));
    }
  }

  lemma PackIs(b: byte, x: bv32)
    ensures Pack(b, x) == Xor(Val(b), Above(x))
  {}

  lemma WordOf(v: seq<byte>)
    requires 0 < |v| <= 4
    ensures Word(v) == Xor(Val(v[0]), Above(Word(v[1..])))
  {
    PackIs(v[0], Word(v[1..]));
  }

  lemma AboveComesDown(x: bv32)
    requires x <= 0xFF_FFFF
    ensures Iter(Shift, Above(x), 8) == x
  {
    AboveAt(x);
    HighBytesMoveDown(Above(x));
  }

  /** The bytes after the first come down once the first has been fed. */
  lemma RestComesDown(v: seq<byte>)
    requires 0 < |v| <= 4
    ensures Iter(Shift, Above(Word(v[1..])), 8) == Word(v[1..])
  {
    WordBound(v[1..]);
    AboveComesDown(Word(v[1..]));
  }

  lemma ByteStepIsIter(c: bv32, b: byte)
    ensures ByteStep(c, b) == Iter(Shift, Xor(c, Val(b)), 8)
  {
    ShiftIsLinear();
    WordSplitsByte();
    HighMovesDown();
    ByteStepIsTableForm();
    UpIgnoresByte();
    TableStepIsIter(Shift, Xor, ByteStep, Val, Low, High, Up, c, b);
  }

  lemma WordFeedsAt(c: bv32, v: seq<byte>)
    requires 0 < |v| <= 4
    ensures Iter(Shift, Xor(c, Word(v)), 8) == Xor(ByteStep(c, v[0]), Word(v[1..]))
  {
    WordOf(v);
    RestComesDown(v);
    ByteStepIsIter(c, v[0]);
    ShiftIsLinear();
    XorIsAssociative();
    FeedsWordAt(Shift, Xor, ByteStep, Val, c, v[0], Word(v), Above(Word(v[1..])), Word(v[1..]));
  }

  lemma WordFeeds()
    ensures FeedsWord(Shift, Xor, ByteStep, Word, 4)
  {
    forall c: bv32 ensures Xor(c, Word([])) == c {}
    forall c: bv32, v: seq<byte> | 0 < |v| <= 4
      ensures Iter(Shift, Xor(c, Word(v)), 8) == Xor(ByteStep(c, v[0]), Word(v[1..]))
    {
      WordFeedsAt(c, v);
    }
  }

  lemma XorCancels()
    ensures Cancels(Xor)
  {
    forall c: bv32, x: bv32, y: bv32 | Xor(c, x) == Xor(c, y) ensures x == y { XorCancel(x, y, c); }
  }

  /** Error detection: messages of equal length that differ only within a window
      of up to four bytes have different checksums. */
  lemma BurstDetected(pre: seq<byte>, v: seq<byte>, w: seq<byte>, post: seq<byte>)
    requires |v| == |w| <= 4
    ensures Crc(pre + v + post) == Crc(pre + w + post) <==> v == w
  {
    if Crc(pre + v + post) == Crc(pre + w + post) {
      var c: bv32 := 0xFFFF_FFFF;
      TableFormIsCrc(pre + v + post);
      TableFormIsCrc(pre + w + post);
      XorCancel(Fold(ByteStep, c, pre + v + post), Fold(ByteStep, c, pre + w + post), c);
      ShiftIsInjective();
      XorCancels();
      ByteStepIsInjective();
      WordFeeds();
      WordUnpacks();
      WindowDetected(Shift, Xor, ByteStep, Word, 4, c, pre, v, w, post);
    }
  }
}
