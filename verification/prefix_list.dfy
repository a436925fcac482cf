/** The sorted list of sub-prefixes handed out of one delegated prefix, as a
    value, and the first-fit search over it.

    Positions count /64 networks from the start of the delegated prefix: a block
    of prefix length n covers 2^(64-n) of them.  The last block is the sentinel
    just past the pool. */
module PrefixList {
  import opened Options
  import opened Bits

  type PrefixLength = n: int | 0 <= n <= 64

  datatype Block = Block(name: string, start: int, length: PrefixLength, weight: int)

  const UNASSIGNED := -1

  function Size(length: PrefixLength): (r: int)
    ensures r >= 1
  {
    Pow2(64 - length)
  }

  lemma SizeStrict(a: PrefixLength, b: PrefixLength)
    requires a < b
    ensures Size(b) < Size(a)
  {
    Pow2Le(64 - b, 63 - a);
  }

  function End(b: Block): int {
    b.start + Size(b.length)
  }

  /** End of the block before position i. */
  function GapStart(bs: seq<Block>, i: nat): int
    requires i <= |bs|
  {
    if i == 0 then 0 else End(bs[i - 1])
  }

  /** Ordered without overlap, the sentinel last. */
  ghost predicate Sorted(bs: seq<Block>, plen: PrefixLength) {
    && |bs| >= 1
    && bs[|bs| - 1].start == Size(plen) && bs[|bs| - 1].length == 64
    && (forall i | 0 <= i < |bs| :: 0 <= bs[i].start)
    && forall i, j {:trigger End(bs[i]), bs[j].start} | 0 <= i < j < |bs| :: End(bs[i]) <= bs[j].start
  }

  ghost predicate Aligned(bs: seq<Block>) {
    forall i | 0 <= i < |bs| :: bs[i].start % Size(bs[i].length) == 0
  }

  /** The list invariant: sorted, and every block aligned to its own size. */
  ghost predicate WellFormed(bs: seq<Block>, plen: PrefixLength) {
    Sorted(bs, plen) && Aligned(bs)
  }

  ghost predicate Disjoint(base: int, size: int, b: Block) {
    base + size <= b.start || End(b) <= base
  }

  /** The range [base, base + size) lies in the pool and meets no block. */
  ghost predicate Free(bs: seq<Block>, base: int, size: int)
    requires |bs| >= 1
  {
    && 0 <= base
    && base + size <= bs[|bs| - 1].start
    && forall j | 0 <= j < |bs| - 1 :: Disjoint(base, size, bs[j])
  }

  /** Where the search tries to put a block once everything before `current` is
      taken: at the hint, or at the next aligned position. */
  function Candidate(hint: int, size: int, current: int): int
    requires size >= 1
  {
    if hint != UNASSIGNED then hint else AndNot(current + size - 1, size - 1)
  }

  /** Walks the gaps of the list from position i on; returns the block to insert
      before and the position found. */
  function Search(bs: seq<Block>, hint: int, size: int, i: nat, current: int): (r: Option<(nat, int)>)
    requires i <= |bs| && size >= 1
    ensures r.Some? ==> i <= r.value.0 < |bs|
    decreases |bs| - i
  {
    if i == |bs| then None
    else
      var at := Candidate(hint, size, current);
      if current <= at && at + size <= bs[i].start then Some((i, at))
      else Search(bs, hint, size, i + 1, End(bs[i]))
  }

  lemma CandidateIsNext(length: PrefixLength, current: int)
    ensures var at := Candidate(UNASSIGNED, Size(length), current);
            at % Size(length) == 0 && current <= at < current + Size(length)
  {
    AndNotMask(current + Size(length) - 1, 64 - length);
  }

  /** What a search may return: a free, aligned place in the gap before the
      block it names, at the hint if there is one, else the lowest. */
  ghost predicate Found(bs: seq<Block>, hint: int, length: PrefixLength, from: int, pos: nat, at: int)
    requires |bs| >= 1
  {
    && pos < |bs|
    && GapStart(bs, pos) <= at && at + Size(length) <= bs[pos].start
    && at % Size(length) == 0
    && Free(bs, at, Size(length))
    && (hint != UNASSIGNED ==> at == hint)
    && (hint == UNASSIGNED ==> NoFree(bs, length, from, at))
  }

  /** No aligned block of this length is free at or above `from` and below `to`. */
  ghost predicate NoFree(bs: seq<Block>, length: PrefixLength, from: int, to: int)
    requires |bs| >= 1
  {
    forall b | from <= b < to && b % Size(length) == 0 :: !Free(bs, b, Size(length))
  }

  /** A free block that does not fit before block i starts after it. */
  lemma FreeSkips(bs: seq<Block>, plen: PrefixLength, i: nat, base: int, size: int)
    requires Sorted(bs, plen) && i < |bs| && size >= 1
    requires Free(bs, base, size) && base + size > bs[i].start
    ensures End(bs[i]) <= base && i < |bs| - 1
  {
    assert i < |bs| - 1;
    assert Disjoint(base, size, bs[i]);
  }

  lemma GapIsFree(bs: seq<Block>, plen: PrefixLength, i: nat, at: int, size: int)
    requires Sorted(bs, plen) && i < |bs| && size >= 1
    requires GapStart(bs, i) <= at && at + size <= bs[i].start
    ensures Free(bs, at, size)
  {
    forall j | 0 <= j < |bs| - 1
      ensures Disjoint(at, size, bs[j])
    {
      if j < i - 1 { assert End(bs[j]) <= bs[i - 1].start; }
      if i < j { assert End(bs[i]) <= bs[j].start; }
    }
  }

  /** A place in the gap before block i is what the search may return. */
  lemma GapFound(bs: seq<Block>, plen: PrefixLength, hint: int, length: PrefixLength, i: nat)
    requires Sorted(bs, plen) && i < |bs| && (hint == UNASSIGNED || hint % Size(length) == 0)
    requires GapStart(bs, i) <= Candidate(hint, Size(length), GapStart(bs, i))
    requires Candidate(hint, Size(length), GapStart(bs, i)) + Size(length) <= bs[i].start
    ensures Found(bs, hint, length, GapStart(bs, i), i, Candidate(hint, Size(length), GapStart(bs, i)))
  {
    hide AndNot;
    var from, size := GapStart(bs, i), Size(length);
    var at := Candidate(hint, size, from);
    CandidateIsNext(length, from);
    GapIsFree(bs, plen, i, at, size);
    assert hint == UNASSIGNED ==> NoFree(bs, length, from, at) by {
      forall b | hint == UNASSIGNED && from <= b < at && b % size == 0 ensures false { AlignedGap(b, at, size); }
    }
  }

  /** What is free from the gap before block i on, but not in it, is free behind
      block i. */
  lemma GapSkipped(bs: seq<Block>, plen: PrefixLength, hint: int, length: PrefixLength, i: nat, b: int)
    requires Sorted(bs, plen) && i < |bs|
    requires var at := Candidate(hint, Size(length), GapStart(bs, i));
             !(GapStart(bs, i) <= at && at + Size(length) <= bs[i].start)
    requires GapStart(bs, i) <= b && b % Size(length) == 0 && Free(bs, b, Size(length))
    requires hint == UNASSIGNED || b == hint
    ensures End(bs[i]) <= b
  {
    hide AndNot;
    var from, size := GapStart(bs, i), Size(length);
    var at := Candidate(hint, size, from);
    CandidateIsNext(length, from);
    if hint == UNASSIGNED && b < at { AlignedGap(b, at, size); }
    FreeSkips(bs, plen, i, b, size);
  }

  lemma NothingBehind(bs: seq<Block>, b: int, size: int)
    requires |bs| >= 1 && GapStart(bs, |bs|) <= b && size >= 1
    ensures !Free(bs, b, size)
  {}

  /** The search is exact.  It finds the hinted block precisely when that block
      is free; without a hint it finds the lowest aligned free block, and fails
      precisely when there is none. */
  lemma {:induction false} SearchExact(bs: seq<Block>, plen: PrefixLength, hint: int, length: PrefixLength, i: nat)
    requires Sorted(bs, plen) && i <= |bs|
    requires hint == UNASSIGNED || hint % Size(length) == 0
    ensures var from := GapStart(bs, i);
            match Search(bs, hint, Size(length), i, from)
            case Some((pos, at)) => from <= at && Found(bs, hint, length, from, pos, at)
            case None =>
              && (hint == UNASSIGNED ==> NoFree(bs, length, from, Size(plen)))
              && (hint != UNASSIGNED && hint >= from ==> !Free(bs, hint, Size(length)))
    decreases |bs| - i
  {
    hide AndNot, Candidate, Free;
    var from, size := GapStart(bs, i), Size(length);
    if i < |bs| {
      var at := Candidate(hint, size, from);
      if from <= at && at + size <= bs[i].start {
        GapFound(bs, plen, hint, length, i);
      } else {
        SearchExact(bs, plen, hint, length, i + 1);
        assert GapStart(bs, i + 1) == End(bs[i]);
        forall b | from <= b && b % size == 0 && Free(bs, b, size) && (hint == UNASSIGNED || b == hint)
          ensures End(bs[i]) <= b
        {
          GapSkipped(bs, plen, hint, length, i, b);
        }
      }
    } else {
      forall b | from <= b ensures !Free(bs, b, size) { NothingBehind(bs, b, size); }
    }
  }

  /** A request is a block whose start is its hint, or UNASSIGNED. */
  function Place(bs: seq<Block>, b: Block): (r: Option<(nat, int)>)
    ensures r.Some? ==> r.value.0 < |bs|
  {
    Search(bs, b.start, Size(b.length), 0, 0)
  }

  function Insert(bs: seq<Block>, pos: nat, b: Block): seq<Block>
    requires pos <= |bs|
  {
    bs[..pos] + [b] + bs[pos..]
  }

  /** Retries an automatic request one size smaller until it fits. */
  function Shrink(bs: seq<Block>, b: Block): (r: Option<(nat, Block)>)
    ensures r.Some? ==> r.value.0 < |bs| && b.length <= r.value.1.length
    decreases 64 - b.length
  {
    match Place(bs, b)
    case Some((pos, at)) => Some((pos, b.(start := at)))
    case None => if b.length < 64 then Shrink(bs, b.(length := b.length + 1)) else None
  }

  lemma InsertPair(bs: seq<Block>, plen: PrefixLength, pos: nat, b: Block, i: nat, j: nat)
    requires Sorted(bs, plen) && pos < |bs|
    requires GapStart(bs, pos) <= b.start && End(b) <= bs[pos].start
    requires i < j <= |bs|
    ensures var cs := Insert(bs, pos, b);
            End(cs[i]) <= cs[j].start
  {
    if j == pos {
      assert i < pos - 1 ==> End(bs[i]) <= bs[pos - 1].start;
    } else if i == pos {
      assert pos < j - 1 ==> End(bs[pos]) <= bs[j - 1].start;
    }
  }

  lemma InsertSorted(bs: seq<Block>, plen: PrefixLength, pos: nat, b: Block)
    requires Sorted(bs, plen) && pos < |bs|
    requires GapStart(bs, pos) <= b.start && End(b) <= bs[pos].start
    ensures Sorted(Insert(bs, pos, b), plen)
  {
    var cs := Insert(bs, pos, b);
    forall i, j | 0 <= i < j < |cs|
      ensures End(cs[i]) <= cs[j].start
    {
      InsertPair(bs, plen, pos, b, i, j);
    }
  }

  /** Putting a block where the search found room keeps the list invariant. */
  lemma InsertKeeps(bs: seq<Block>, plen: PrefixLength, pos: nat, b: Block)
    requires WellFormed(bs, plen) && pos < |bs|
    requires GapStart(bs, pos) <= b.start && End(b) <= bs[pos].start
    requires b.start % Size(b.length) == 0
    ensures WellFormed(Insert(bs, pos, b), plen)
  {
    InsertSorted(bs, plen, pos, b);
    var cs := Insert(bs, pos, b);
    forall i | 0 <= i < |cs|
      ensures cs[i].start % Size(cs[i].length) == 0
    {
      assert cs[i] == if i < pos then bs[i] else if i == pos then b else bs[i - 1];
    }
  }

  /** Inserting a block frees nothing. */
  lemma InsertFreesNothing(bs: seq<Block>, pos: nat, b: Block, base: int, size: int)
    requires |bs| >= 1 && pos < |bs|
    ensures Free(Insert(bs, pos, b), base, size) ==> Free(bs, base, size)
  {
    var cs := Insert(bs, pos, b);
    assert forall i | 0 <= i < |bs| :: bs[i] == cs[if i < pos then i else i + 1];
  }

  /** A free larger block contains a free smaller one at the same place. */
  lemma NoFreeSmaller(bs: seq<Block>, length: PrefixLength, length': PrefixLength, from: int, to: int)
    requires |bs| >= 1 && length <= length'
    requires NoFree(bs, length', from, to)
    ensures NoFree(bs, length, from, to)
  {
    forall b | from <= b < to && b % Size(length) == 0
      ensures !Free(bs, b, Size(length))
    {
      AlignedDown(b, 64 - length', 64 - length);
      Pow2Le(64 - length', 64 - length);
      if Free(bs, b, Size(length)) {
        assert forall j | 0 <= j < |bs| - 1 :: Disjoint(b, Size(length), bs[j]) ==> Disjoint(b, Size(length'), bs[j]);
        assert Free(bs, b, Size(length'));
      }
    }
  }

  /** An automatic request gets the lowest free place of the largest size, not
      above the one asked for, that is still available; it is dropped exactly
      when not one /64 is free. */
  lemma {:induction false} ShrinkExact(bs: seq<Block>, plen: PrefixLength, b: Block)
    requires WellFormed(bs, plen) && b.start == UNASSIGNED
    ensures match Shrink(bs, b)
            case Some((pos, c)) =>
              && b.length <= c.length && c.name == b.name && c.weight == b.weight
              && Found(bs, UNASSIGNED, c.length, 0, pos, c.start)
              && forall l: PrefixLength | b.length <= l < c.length :: NoFree(bs, l, 0, Size(plen))
            case None => NoFree(bs, 64, 0, Size(plen))
    ensures Shrink(bs, b).None? <==> NoFree(bs, 64, 0, Size(plen))
    decreases 64 - b.length
  {
    hide WellFormed, Sorted, Search, Found, NoFree, Place;
    PlaceExact(bs, plen, b);
    match Place(bs, b)
    case Some((pos, at)) => FoundIsFree(bs, plen, b.length, pos, at);
    case None =>
      if b.length < 64 { ShrinkExact(bs, plen, b.(length := b.length + 1)); }
  }

  lemma PlaceExact(bs: seq<Block>, plen: PrefixLength, b: Block)
    requires WellFormed(bs, plen) && b.start == UNASSIGNED
    ensures match Place(bs, b)
            case Some((pos, at)) => Found(bs, UNASSIGNED, b.length, 0, pos, at)
            case None => NoFree(bs, b.length, 0, Size(plen))
  {
    hide Found, NoFree, Search, Sorted;
    SearchExact(bs, plen, UNASSIGNED, b.length, 0);
  }

  /** Where a block was found, a /64 is free as well. */
  lemma FoundIsFree(bs: seq<Block>, plen: PrefixLength, length: PrefixLength, pos: nat, at: int)
    requires WellFormed(bs, plen) && Found(bs, UNASSIGNED, length, 0, pos, at)
    ensures !NoFree(bs, 64, 0, Size(plen))
  {
    if NoFree(bs, 64, 0, Size(plen)) {
      NoFreeSmaller(bs, length, 64, 0, Size(plen));
      assert false;
    }
  }
}
