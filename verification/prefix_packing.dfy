/** The packing theorem: without hints and without an excluded block, serving
    the largest requests first wastes nothing. */
module PrefixPacking {
  import opened Options
  import opened Bits
  import opened PrefixList
  import opened PrefixRebuild

  function Sum(bs: seq<Block>): (r: nat) {
    if bs == [] then 0 else Size(bs[0].length) + Sum(bs[1..])
  }

  function Min(a: int, b: int): int {
    if a <= b then a else b
  }

  /** The blocks lie end to end and cover exactly [0, u). */
  ghost predicate Packed(bs: seq<Block>, u: int) {
    if bs == [] then u == 0
    else End(bs[|bs| - 1]) == u && Packed(bs[..|bs| - 1], bs[|bs| - 1].start)
  }

  /** What a request gets from a pool that is used up to u and not full. */
  function Take(u: int, plen: PrefixLength, b: Block): Block {
    if Size(b.length) <= Size(plen) then b.(start := u) else b.(start := 0, length := plen)
  }

  /** The reference packing: each request takes the next place until the pool is
      full; a request larger than the pool takes all of it. */
  function Packing(u: int, plen: PrefixLength, reqs: seq<Block>): seq<Block>
    decreases reqs
  {
    if reqs == [] then []
    else if u == Size(plen) then Packing(u, plen, reqs[1..])
    else
      var c := Take(u, plen, reqs[0]);
      [c] + Packing(End(c), plen, reqs[1..])
  }

  ghost predicate Sentinel(s: Block, plen: PrefixLength) {
    s.start == Size(plen) && s.length == 64
  }

  lemma {:induction false} PackedBounds(bs: seq<Block>, u: int)
    requires Packed(bs, u)
    ensures u >= 0 && forall i | 0 <= i < |bs| :: 0 <= bs[i].start && End(bs[i]) <= u
  {
    if bs != [] { PackedBounds(bs[..|bs| - 1], bs[|bs| - 1].start); }
  }

  /** Nothing below u is free. */
  lemma {:induction false} PackedCovers(bs: seq<Block>, u: int, x: int)
    requires Packed(bs, u) && 0 <= x < u
    ensures exists i :: 0 <= i < |bs| && bs[i].start <= x < End(bs[i])
  {
    var n := |bs| - 1;
    if x < bs[n].start {
      PackedCovers(bs[..n], bs[n].start, x);
      var i :| 0 <= i < n && bs[..n][i].start <= x < End(bs[..n][i]);
      assert bs[i] == bs[..n][i];
    }
  }

  lemma FreeAbove(bs: seq<Block>, s: Block, plen: PrefixLength, u: int, x: int, size: int)
    requires Packed(bs, u) && Sentinel(s, plen) && size >= 1
    ensures Free(bs + [s], x, size) <==> u <= x && x + size <= Size(plen)
  {
    var list := bs + [s];
    PackedBounds(bs, u);
    if 0 <= x < u {
      PackedCovers(bs, u, x);
      var i :| 0 <= i < |bs| && bs[i].start <= x < End(bs[i]);
      assert list[i] == bs[i];
      assert !Disjoint(x, size, list[i]);
    }
  }

  /** On a packed list, a request whose size divides the used part goes right
      behind it, if it fits at all. */
  lemma PlaceOnPacked(bs: seq<Block>, s: Block, plen: PrefixLength, u: int, b: Block)
    requires WellFormed(bs + [s], plen) && Packed(bs, u) && Sentinel(s, plen)
    requires b.start == UNASSIGNED && u % Size(b.length) == 0
    ensures Place(bs + [s], b) == if u + Size(b.length) <= Size(plen) then Some((|bs|, u)) else None
  {
    hide Packed;
    var list, size := bs + [s], Size(b.length);
    SearchExact(list, plen, UNASSIGNED, b.length, 0);
    FreeAbove(bs, s, plen, u, u, size);
    PackedBounds(bs, u);
    if Place(list, b).Some? {
      var (pos, at) := Place(list, b).value;
      FreeAbove(bs, s, plen, u, at, size);
      assert forall i | 0 <= i < |bs| :: list[i] == bs[i];
    }
  }

  /** A request larger than the pool shrinks to the pool's own length. */
  lemma {:induction false} ShrinkToPool(s: Block, plen: PrefixLength, b: Block)
    requires Sentinel(s, plen) && b.start == UNASSIGNED && b.length <= plen
    ensures Shrink([s], b) == Some((0, b.(start := 0, length := plen)))
    decreases 64 - b.length
  {
    assert [] + [s] == [s];
    PlaceOnPacked([], s, plen, 0, b);
    if b.length < plen {
      SizeStrict(b.length, plen);
      ShrinkToPool(s, plen, b.(length := b.length + 1));
    }
  }

  /** A full pool serves nobody. */
  lemma FullDrops(bs: seq<Block>, s: Block, plen: PrefixLength, b: Block)
    requires WellFormed(bs + [s], plen) && Packed(bs, Size(plen)) && Sentinel(s, plen)
    requires b.start == UNASSIGNED
    ensures Shrink(bs + [s], b).None?
  {
    ShrinkExact(bs + [s], plen, b);
    forall x | 0 <= x < Size(plen) && x % Size(64) == 0
      ensures !Free(bs + [s], x, Size(64))
    {
      FreeAbove(bs, s, plen, Size(plen), x, Size(64));
    }
  }

  /** Either the pool is full or its used part is a multiple of every size still
      to come. */
  ghost predicate Level(u: int, plen: PrefixLength, later: seq<Block>) {
    && 0 <= u <= Size(plen)
    && (u == Size(plen) || forall b | b in later :: u % Size(b.length) == 0)
  }

  lemma StaysAligned(u: int, later: seq<Block>)
    requires u >= 0 && later != [] && LargestFirst(later) && forall b | b in later :: u % Size(b.length) == 0
    ensures forall b | b in later[1..] :: (u + Size(later[0].length)) % Size(b.length) == 0
  {
    var l := later[0].length;
    forall b | b in later[1..] ensures (u + Size(l)) % Size(b.length) == 0 {
      assert b in later && l <= b.length;
      Pow2Le(64 - b.length, 64 - l);
      AlignedSum(u, Size(l), Size(b.length));
    }
  }

  lemma LevelStep(u: int, plen: PrefixLength, later: seq<Block>)
    requires Level(u, plen, later) && u < Size(plen) && later != [] && LargestFirst(later)
    ensures var s := Size(later[0].length);
            && (if s <= Size(plen) then u % s == 0 && u + s <= Size(plen) else u == 0)
            && Level(End(Take(u, plen, later[0])), plen, later[1..])
  {
    var l := later[0].length;
    assert later[0] in later;
    if l >= plen {
      Pow2Le(64 - l, 64 - plen);
      AlignedGap(u, Size(plen), Size(l));
      StaysAligned(u, later);
    } else {
      Pow2Le(64 - plen, 64 - l);
      if u > 0 {
        AlignedDown(u, 64 - plen, 64 - l);
        ModUnique(u, Size(plen), 0, u);
      }
    }
  }

  /** One request of the later pass on a packed, not yet full list. */
  lemma ShrinkOnPacked(bs: seq<Block>, s: Block, plen: PrefixLength, u: int, b: Block)
    requires WellFormed(bs + [s], plen) && Packed(bs, u) && Sentinel(s, plen) && b.start == UNASSIGNED
    requires if Size(b.length) <= Size(plen) then u % Size(b.length) == 0 && u + Size(b.length) <= Size(plen)
             else u == 0
    ensures var c := Take(u, plen, b);
            && Shrink(bs + [s], b) == Some((|bs|, c))
            && Insert(bs + [s], |bs|, c) == bs + [c] + [s]
            && WellFormed(bs + [c] + [s], plen)
            && Packed(bs + [c], End(c))
  {
    var c := Take(u, plen, b);
    if Size(b.length) <= Size(plen) {
      PlaceOnPacked(bs, s, plen, u, b);
    } else {
      PackedBounds(bs, u);
      assert bs == [] && bs + [s] == [s];
      if b.length > plen { SizeStrict(plen, b.length); }
      ShrinkToPool(s, plen, b);
    }
    ShrinkExact(bs + [s], plen, b);
    InsertKeeps(bs + [s], plen, |bs|, c);
    assert Insert(bs + [s], |bs|, c) == bs + [c] + [s];
    assert (bs + [c])[..|bs|] == bs;
  }

  lemma LaterPassStep(list: seq<Block>, later: seq<Block>, pos: nat, c: Block)
    requires later != [] && Shrink(list, later[0]) == Some((pos, c))
    ensures LaterPass(list, later) == LaterPass(Insert(list, pos, c), later[1..])
  {}

  lemma PackingStep(bs: seq<Block>, u: int, plen: PrefixLength, reqs: seq<Block>)
    requires reqs != [] && u != Size(plen)
    ensures var c := Take(u, plen, reqs[0]);
            bs + [c] + Packing(End(c), plen, reqs[1..]) == bs + Packing(u, plen, reqs)
  {
    var c := Take(u, plen, reqs[0]);
    assert Packing(u, plen, reqs) == [c] + Packing(End(c), plen, reqs[1..]);
  }

  /** The first-fit pass computes the reference packing. */
  lemma {:induction false} LaterPassPacks(bs: seq<Block>, s: Block, plen: PrefixLength, u: int, later: seq<Block>)
    requires WellFormed(bs + [s], plen) && Packed(bs, u) && Sentinel(s, plen)
    requires LargestFirst(later) && Level(u, plen, later)
    requires forall b | b in later :: Waiting(b)
    ensures LaterPass(bs + [s], later) == bs + Packing(u, plen, later) + [s]
    decreases later
  {
    if later == [] {
      assert bs + Packing(u, plen, later) + [s] == bs + [s];
    } else {
      assert later[0] in later;
      if u == Size(plen) {
        FullDrops(bs, s, plen, later[0]);
        LaterPassPacks(bs, s, plen, u, later[1..]);
      } else {
        LevelStep(u, plen, later);
        ShrinkOnPacked(bs, s, plen, u, later[0]);
        var c := Take(u, plen, later[0]);
        LaterPassStep(bs + [s], later, |bs|, c);
        LaterPassPacks(bs + [c], s, plen, End(c), later[1..]);
        PackingStep(bs, u, plen, later);
      }
    }
  }

  // ---- what the reference packing gives -------------------------------------

  /** The packing covers exactly [0, min(pool, total)). */
  lemma {:induction false} PackingCovers(bs: seq<Block>, plen: PrefixLength, u: int, reqs: seq<Block>)
    requires Packed(bs, u) && LargestFirst(reqs) && Level(u, plen, reqs)
    ensures Packed(bs + Packing(u, plen, reqs), Min(Size(plen), u + Sum(reqs)))
    decreases reqs
  {
    if reqs == [] {
      assert bs + Packing(u, plen, reqs) == bs;
    } else if u == Size(plen) {
      PackingCovers(bs, plen, u, reqs[1..]);
    } else {
      LevelStep(u, plen, reqs);
      var c := Take(u, plen, reqs[0]);
      assert (bs + [c])[..|bs|] == bs;
      PackingCovers(bs + [c], plen, End(c), reqs[1..]);
      PackingStep(bs, u, plen, reqs);
    }
  }

  /** Every request whose running total still fits gets exactly the length it
      asked for, directly behind its predecessors. */
  lemma {:induction false} PackingGrants(plen: PrefixLength, u: int, reqs: seq<Block>, i: nat)
    requires u >= 0 && i < |reqs| && u + Sum(reqs[..i + 1]) <= Size(plen)
    ensures var r := Packing(u, plen, reqs);
            i < |r| && r[i] == reqs[i].(start := u + Sum(reqs[..i]))
    decreases reqs
  {
    hide Sum;
    SumTail(reqs, i + 1);
    NoSumBelow(reqs[1..], i);
    if i > 0 {
      SumTail(reqs, i);
      PackingGrants(plen, u + Size(reqs[0].length), reqs[1..], i - 1);
    } else {
      SumNothing();
      assert reqs[..0] == [];
    }
  }

  ghost predicate NoneLarger(reqs: seq<Block>, plen: PrefixLength) {
    forall b | b in reqs :: plen <= b.length
  }

  lemma SumTail(reqs: seq<Block>, i: nat)
    requires 0 < i <= |reqs|
    ensures Sum(reqs[..i]) == Size(reqs[0].length) + Sum(reqs[1..][..i - 1])
  {
    assert reqs[..i][1..] == reqs[1..][..i - 1];
  }

  /** Among requests no larger than the pool, the first whose running total does
      not fit meets a pool that is exactly full. */
  lemma {:induction false} MissMeetsFull(plen: PrefixLength, u: int, reqs: seq<Block>, i: nat)
    requires LargestFirst(reqs) && Level(u, plen, reqs) && NoneLarger(reqs, plen) && i < |reqs|
    requires u + Sum(reqs[..i]) <= Size(plen) < u + Sum(reqs[..i + 1])
    ensures u + Sum(reqs[..i]) == Size(plen)
    decreases reqs
  {
    hide Sum, Level;
    SumTail(reqs, i + 1);
    SumNothing();
    assert reqs[0] in reqs && reqs[1..][..0] == [] && reqs[..0] == [];
    Pow2Le(64 - reqs[0].length, 64 - plen);
    if u != Size(plen) {
      assert u < Size(plen) by { LevelBound(u, plen, reqs); }
      LevelStep(u, plen, reqs);
      if i > 0 {
        SumTail(reqs, i);
        MissMeetsFull(plen, u + Size(reqs[0].length), reqs[1..], i - 1);
      }
    } else {
      NoSumBelow(reqs, i);
    }
  }

  lemma LevelBound(u: int, plen: PrefixLength, reqs: seq<Block>)
    requires Level(u, plen, reqs)
    ensures u <= Size(plen)
  {}

  lemma NoSumBelow(reqs: seq<Block>, i: nat)
    requires i <= |reqs|
    ensures Sum(reqs[..i]) >= 0
  {}

  lemma {:induction false} SumPrefix(bs: seq<Block>, i: nat)
    requires i <= |bs|
    ensures Sum(bs[..i]) <= Sum(bs)
  {
    if i > 0 {
      assert bs[..i][1..] == bs[1..][..i - 1];
      SumPrefix(bs[1..], i - 1);
    }
  }

  // ---- the tree holds the requests -------------------------------------------

  lemma {:induction false} SumInsertLater(later: seq<Block>, b: Block)
    requires forall x | x in later :: x.name != b.name && WeightInRange(x)
    requires WeightInRange(b)
    ensures Sum(InsertLater(later, b)) == Sum(later) + Size(b.length)
  {
    if later == [] {
      assert InsertLater(later, b)[1..] == [];
    } else {
      StrCmpZero(b.name, later[0].name);
      assert forall x | x in later[1..] :: x in later;
      assert later[0] in later;
      SumInsertLater(later[1..], b);
      var r, c := InsertLater(later, b), PrefixAssignmentCmp(b, later[0]);
      assert c < 0 ==> r[1..] == later;
      assert c > 0 ==> r[1..] == InsertLater(later[1..], b);
    }
  }

  ghost predicate NoHints(fs: seq<Iface>) {
    forall f | f in fs :: f.hint == UNASSIGNED
  }

  lemma RequestsStep(f: Iface, fs: seq<Iface>, pclass: string)
    ensures Requests([f] + fs, pclass) == Asked(f, pclass) + Requests(fs, pclass)
    ensures Sum(Requests([f] + fs, pclass)) == Sum(Asked(f, pclass)) + Sum(Requests(fs, pclass))
  {
    assert ([f] + fs)[1..] == fs;
    var r, t := Requests([f] + fs, pclass), Requests(fs, pclass);
    assert r == Asked(f, pclass) + t;
    if Eligible(f, pclass) {
      assert r[1..] == t && Asked(f, pclass)[1..] == [];
    } else {
      assert r == t;
    }
  }

  /** What one interface asks for. */
  function Asked(f: Iface, pclass: string): seq<Block> {
    if Eligible(f, pclass) then [Request(f)] else []
  }

  /** Without a hint an interface only goes into the tree. */
  lemma HintStepCollects(s: Pass, plen: PrefixLength, done: seq<Iface>, f: Iface, pclass: string)
    requires PassInv(s, plen, done, pclass) && ValidIface(f) && f.hint == UNASSIGNED
    requires forall g | g in done :: g.name != f.name
    ensures var r := HintStep(s, f, pclass);
            && r.list == s.list
            && Sum(r.later) == Sum(s.later) + Sum(Asked(f, pclass))
            && multiset(r.later) == multiset(s.later) + multiset(Asked(f, pclass))
  {
    hide WellFormed, LargestFirst, Served;
    if Eligible(f, pclass) {
      hide InsertLater;
      SumInsertLater(s.later, Request(f));
      InsertLaterContents(s.later, Request(f));
      assert Asked(f, pclass)[1..] == [];
    }
  }

  lemma HintPassStep(s: Pass, fs: seq<Iface>, pclass: string)
    requires fs != []
    ensures HintPass(s, fs, pclass) == HintPass(HintStep(s, fs[0], pclass), fs[1..], pclass)
  {}

  /** Without hints the first pass only fills the tree. */
  lemma {:induction false} HintPassCollects(
    s: Pass, plen: PrefixLength, done: seq<Iface>, fs: seq<Iface>, pclass: string)
    requires PassInv(s, plen, done, pclass) && ValidIfaces(done + fs) && NoHints(fs)
    ensures var r := HintPass(s, fs, pclass);
            && r.list == s.list
            && Sum(r.later) == Sum(s.later) + Sum(Requests(fs, pclass))
            && multiset(r.later) == multiset(s.later) + multiset(Requests(fs, pclass))
    decreases fs
  {
    hide PassInv, HintStep, HintPass, Sum, Asked, Requests;
    if fs == [] {
      NothingAsked(s, pclass);
    } else {
      var all, f := done + fs, fs[0];
      assert forall i | 0 <= i < |done| :: done[i] == all[i];
      assert f == all[|done|];
      HintStepKeeps(s, plen, done, f, pclass);
      HintStepCollects(s, plen, done, f, pclass);
      assert all == (done + [f]) + fs[1..] && fs == [f] + fs[1..];
      RequestsStep(f, fs[1..], pclass);
      HintPassStep(s, fs, pclass);
      HintPassCollects(HintStep(s, f, pclass), plen, done + [f], fs[1..], pclass);
    }
  }

  lemma NothingAsked(s: Pass, pclass: string)
    ensures HintPass(s, [], pclass) == s && Requests([], pclass) == [] && Sum([]) == 0
  {}

  /** Total size of the first i requests. */
  function SumTo(reqs: seq<Block>, i: nat): nat
    requires i <= |reqs|
  {
    Sum(reqs[..i])
  }

  /** Request i of the order got its full length, right behind the earlier ones. */
  ghost predicate Granted(list: seq<Block>, order: seq<Block>, i: nat)
    requires i < |order|
  {
    i < |list| - 1 && list[i] == order[i].(start := SumTo(order, i))
  }

  lemma LevelAtStart(plen: PrefixLength, order: seq<Block>)
    ensures Level(0, plen, order)
  {
    forall b | b in order ensures 0 % Size(b.length) == 0 {}
  }

  /** A list made of the reference packing and the sentinel. */
  lemma PackedListProperties(plen: PrefixLength, order: seq<Block>, s: Block, list: seq<Block>)
    requires LargestFirst(order) && list == Packing(0, plen, order) + [s]
    ensures Packed(list[..|list| - 1], Min(Size(plen), Sum(order)))
    ensures forall i: nat | i < |order| && SumTo(order, i + 1) <= Size(plen) :: Granted(list, order, i)
  {
    hide Packing, Packed, LargestFirst, Level, Sum, SumTo;
    var k := Packing(0, plen, order);
    LevelAtStart(plen, order);
    PackedNothing();
    PackingCovers([], plen, 0, order);
    assert [] + k == k && list[..|list| - 1] == k;
    forall i: nat | i < |order| && SumTo(order, i + 1) <= Size(plen)
      ensures Granted(list, order, i)
    {
      GrantedAt(plen, order, s, i);
    }
  }

  lemma PackedNothing()
    ensures Packed([], 0)
  {}

  lemma GrantedAt(plen: PrefixLength, order: seq<Block>, s: Block, i: nat)
    requires i < |order| && SumTo(order, i + 1) <= Size(plen)
    ensures Granted(Packing(0, plen, order) + [s], order, i)
  {
    hide Packing, Sum;
    PackingGrants(plen, 0, order, i);
  }

  lemma InitialPass(p: Prefix)
    requires ValidPrefix(p) && p.exclLength == 0
    ensures |InitialList(p)| == 1 && Sentinel(InitialList(p)[0], p.length)
    ensures PassInv(Pass(InitialList(p), []), p.length, [], p.pclass)
  {
    InitialListWellFormed(p);
  }

  lemma TreeWaits(s: Pass, plen: PrefixLength, done: seq<Iface>, pclass: string)
    requires PassInv(s, plen, done, pclass)
    ensures WellFormed(s.list, plen) && LargestFirst(s.later) && forall b | b in s.later :: Waiting(b)
  {}

  /** Without hints and exclusion the rebuild is the reference packing of the
      requests in the order of the tree. */
  lemma RebuildPacks(p: Prefix, fs: seq<Iface>) returns (order: seq<Block>)
    requires ValidPrefix(p) && p.exclLength == 0 && ValidIfaces(fs) && NoHints(fs)
    ensures order == HintPass(Pass(InitialList(p), []), fs, p.pclass).later
    ensures multiset(order) == multiset(Requests(fs, p.pclass)) && LargestFirst(order)
    ensures Sum(order) == Sum(Requests(fs, p.pclass))
    ensures Rebuild(p, fs) == Packing(0, p.length, order) + InitialList(p)
  {
    hide HintPass, LaterPass, Packing, Packed, WellFormed, LargestFirst, InitialList, PassInv, Waiting, Level, Sum;
    InitialPass(p);
    var s, sentinel, plen := Pass(InitialList(p), []), InitialList(p)[0], p.length;
    assert [] + fs == fs && [] + [sentinel] == [sentinel] == s.list;
    HintPassKeeps(s, plen, [], fs, p.pclass);
    HintPassCollects(s, plen, [], fs, p.pclass);
    order := HintPass(s, fs, p.pclass).later;
    TreeWaits(s, plen, [], p.pclass);
    TreeWaits(HintPass(s, fs, p.pclass), plen, fs, p.pclass);
    SumNothing();
    LevelAtStart(plen, order);
    PackedNothing();
    LaterPassPacks([], sentinel, plen, 0, order);
    assert [] + Packing(0, plen, order) == Packing(0, plen, order);
  }

  lemma SumNothing()
    ensures Sum([]) == 0
  {}

  // ---- the order of the tree ----------------------------------------------------

  /** Each entry compares below all that follow. */
  ghost predicate Ordered(bs: seq<Block>) {
    bs != [] ==> (forall x | x in bs[1..] :: PrefixAssignmentCmp(bs[0], x) < 0) && Ordered(bs[1..])
  }

  /** No difference of two weights overflows. */
  ghost predicate FitWeights(ws: set<int>) {
    forall v, w | v in ws && w in ws :: -0x8000_0000 < v - w < 0x8000_0000
  }

  ghost predicate Weighted(bs: seq<Block>, ws: set<int>) {
    forall x | x in bs :: x.weight in ws
  }

  lemma Fit(a: Block, b: Block, ws: set<int>)
    requires FitWeights(ws) && a.weight in ws && b.weight in ws
    ensures WeightsFit(a, b)
  {}

  lemma BelowAll(later: seq<Block>, b: Block, ws: set<int>)
    requires Ordered(later) && FitWeights(ws) && Weighted(later, ws) && b.weight in ws
    requires later != [] && PrefixAssignmentCmp(b, later[0]) < 0
    ensures forall x | x in later :: PrefixAssignmentCmp(b, x) < 0
  {
    hide PrefixAssignmentCmp, WeightsFit, FitWeights;
    forall x | x in later ensures PrefixAssignmentCmp(b, x) < 0 {
      assert later == [later[0]] + later[1..];
      if x != later[0] {
        Fit(b, later[0], ws);
        Fit(later[0], x, ws);
        Fit(b, x, ws);
        CmpIsStrictTotalOrder(b, later[0], x);
      }
    }
  }

  lemma AboveHead(head: Block, b: Block, ws: set<int>)
    requires FitWeights(ws) && head.weight in ws && b.weight in ws
    ensures PrefixAssignmentCmp(b, head) > 0 ==> PrefixAssignmentCmp(head, b) < 0
  {
    hide PrefixAssignmentCmp, WeightsFit, FitWeights;
    Fit(head, b, ws);
    Fit(b, b, ws);
    CmpIsStrictTotalOrder(head, b, b);
  }

  lemma OrderedFrom(head: Block, tail: seq<Block>)
    requires Ordered(tail) && forall x | x in tail :: PrefixAssignmentCmp(head, x) < 0
    ensures Ordered([head] + tail)
  {
    assert ([head] + tail)[1..] == tail;
  }

  lemma {:induction false} InsertLaterOrdered(later: seq<Block>, b: Block, ws: set<int>)
    requires Ordered(later) && FitWeights(ws) && Weighted(later, ws) && b.weight in ws
    ensures Ordered(InsertLater(later, b)) && Weighted(InsertLater(later, b), ws)
  {
    hide PrefixAssignmentCmp, WeightsFit, FitWeights;
    InsertLaterMembers(later, b);
    if later == [] {
    } else {
      var head, tail := later[0], later[1..];
      var c := PrefixAssignmentCmp(b, head);
      if c == 0 {
      } else if c < 0 {
        BelowAll(later, b, ws);
        OrderedFrom(b, later);
      } else {
        AboveHead(head, b, ws);
        InsertLaterOrdered(tail, b, ws);
        InsertLaterMembers(tail, b);
        OrderedFrom(head, InsertLater(tail, b));
      }
    }
  }

  /** The tree holds its entries in the order of the comparison, hints or not. */
  lemma {:induction false} HintPassOrders(s: Pass, fs: seq<Iface>, pclass: string, ws: set<int>)
    requires Ordered(s.later) && FitWeights(ws) && Weighted(s.later, ws) && forall f | f in fs :: f.weight in ws
    ensures Ordered(HintPass(s, fs, pclass).later)
    decreases fs
  {
    if fs != [] {
      var f := fs[0];
      if Eligible(f, pclass) {
        hide InsertLater;
        InsertLaterOrdered(s.later, Request(f), ws);
        InsertLaterOrdered(s.later, Request(f).(start := UNASSIGNED), ws);
      }
      HintPassOrders(HintStep(s, f, pclass), fs[1..], pclass, ws);
    }
  }

  /** The packing theorem.  Serving the requests of any set of interfaces in tree
      order keeps the used space exactly [0, min(pool, total)); every request
      whose running total fits has its full length; and when the total fits,
      everybody has.  If none is larger than the pool, the first whose running
      total does not fit meets a pool that is exactly full.  The order is that
      of the comparison, if no difference of two weights overflows. */
  lemma PackingTheorem(p: Prefix, fs: seq<Iface>) returns (order: seq<Block>)
    requires ValidPrefix(p) && p.exclLength == 0 && ValidIfaces(fs) && NoHints(fs)
    ensures multiset(order) == multiset(Requests(fs, p.pclass)) && LargestFirst(order)
    ensures var r, total, pool := Rebuild(p, fs), Sum(Requests(fs, p.pclass)), Size(p.length);
            && |r| >= 1
            && Packed(r[..|r| - 1], Min(pool, total))
            && (forall i: nat | i < |order| && SumTo(order, i + 1) <= pool :: Granted(r, order, i))
            && (total <= pool ==> forall i: nat | i < |order| :: Granted(r, order, i))
            && (NoneLarger(order, p.length) ==>
                  forall i: nat | i < |order| && SumTo(order, i) <= pool < SumTo(order, i + 1) ::
                    SumTo(order, i) == pool)
    ensures FitWeights(set f | f in fs :: f.weight) ==> Ordered(order)
  {
    hide Rebuild, Packing, LargestFirst, Packed, Granted, Ordered, FitWeights, NoneLarger, HintPass, Sum, Level;
    order := RebuildPacks(p, fs);
    PackedListProperties(p.length, order, InitialList(p)[0], Rebuild(p, fs));
    forall i: nat | i < |order| && Sum(order) <= Size(p.length)
      ensures Granted(Rebuild(p, fs), order, i)
    {
      SumPrefix(order, i + 1);
      assert SumTo(order, i + 1) <= Size(p.length);
    }
    LevelAtStart(p.length, order);
    forall i: nat | NoneLarger(order, p.length) && i < |order|
                    && SumTo(order, i) <= Size(p.length) < SumTo(order, i + 1)
      ensures SumTo(order, i) == Size(p.length)
    {
      MissMeetsFull(p.length, 0, order, i);
    }
    var ws := set f | f in fs :: f.weight;
    if FitWeights(ws) { OrderedFromStart(p, fs, ws); }
  }

  lemma OrderedFromStart(p: Prefix, fs: seq<Iface>, ws: set<int>)
    requires FitWeights(ws) && forall f | f in fs :: f.weight in ws
    ensures Ordered(HintPass(Pass(InitialList(p), []), fs, p.pclass).later)
  {
    HintPassOrders(Pass(InitialList(p), []), fs, p.pclass, ws);
  }
}
