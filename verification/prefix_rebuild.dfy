/** How the sub-prefixes of one delegated prefix are handed out from scratch:
    the excluded block, then the hinted interfaces in configuration order, then
    all the others from a tree ordered by size. */
module PrefixRebuild {
  import opened Options
  import opened Bits
  import opened PrefixList

  datatype Iface = Iface(name: string, length: int, hint: int, weight: int, classes: seq<string>)

  datatype Prefix = Prefix(length: PrefixLength, exclLength: PrefixLength, exclWord: nat, pclass: string)

  const EXCLUDED := "!excluded"

  ghost predicate ValidPrefix(p: Prefix) {
    && 34 <= p.length
    && (p.exclLength > 0 ==> p.length <= p.exclLength && p.exclWord % Size(p.exclLength) == 0)
  }

  /** The fields have their C widths, and the hint is -1 or has been masked to
      the size of the request. */
  ghost predicate ValidIface(f: Iface) {
    && 0 <= f.length < 0x100
    && -0x8000_0000 <= f.weight < 0x8000_0000
    && -0x8000_0000 <= f.hint < 0x8000_0000
    && (48 <= f.length <= 64 ==> f.hint == UNASSIGNED || f.hint % Size(f.length) == 0)
  }

  ghost predicate ValidIfaces(fs: seq<Iface>) {
    && (forall i | 0 <= i < |fs| :: ValidIface(fs[i]))
    && forall i, j | 0 <= i < j < |fs| :: fs[i].name != fs[j].name
  }

  predicate Eligible(f: Iface, pclass: string) {
    48 <= f.length <= 64 && (f.classes == [] || pclass in f.classes)
  }

  // ---- the order of the later tree -------------------------------------

  function Wrap32(x: int): int {
    (x + 0x8000_0000) % 0x1_0000_0000 - 0x8000_0000
  }

  function StrCmp(a: string, b: string): int {
    if a == [] && b == [] then 0
    else if a == [] then -1
    else if b == [] then 1
    else if a[0] != b[0] then (if a[0] < b[0] then -1 else 1)
    else StrCmp(a[1..], b[1..])
  }

  /** Smaller lengths (larger blocks) first, then larger weights, then names.
      The difference of two weights is taken modulo 2^32, as the usual compilers
      do; C leaves a signed overflow undefined. */
  function PrefixAssignmentCmp(a: Block, b: Block): int {
    if a.length != b.length then a.length - b.length
    else if a.weight != b.weight then Wrap32(b.weight - a.weight)
    else StrCmp(a.name, b.name)
  }

  lemma {:induction false} StrCmpZero(a: string, b: string)
    ensures StrCmp(a, b) == 0 <==> a == b
    ensures (StrCmp(a, b) < 0) == (StrCmp(b, a) > 0)
  {
    if a != [] && b != [] && a[0] == b[0] {
      StrCmpZero(a[1..], b[1..]);
      assert a == [a[0]] + a[1..] && b == [b[0]] + b[1..];
    }
  }

  lemma {:induction false} StrCmpTrans(a: string, b: string, c: string)
    requires StrCmp(a, b) < 0 && StrCmp(b, c) < 0
    ensures StrCmp(a, c) < 0
  {
    if a != [] && b != [] && c != [] && a[0] == b[0] == c[0] {
      StrCmpTrans(a[1..], b[1..], c[1..]);
    }
  }

  /** Weights are 32-bit integers. */
  ghost predicate WeightInRange(a: Block) {
    -0x8000_0000 <= a.weight < 0x8000_0000
  }

  ghost predicate WeightsFit(a: Block, b: Block) {
    -0x8000_0000 < a.weight - b.weight < 0x8000_0000
  }

  /** The comparison is a strict total order on entries with distinct names,
      provided no difference of two weights overflows. */
  lemma CmpIsStrictTotalOrder(a: Block, b: Block, c: Block)
    requires WeightsFit(a, b) && WeightsFit(b, c) && WeightsFit(a, c)
    ensures PrefixAssignmentCmp(a, b) < 0 <==> PrefixAssignmentCmp(b, a) > 0
    ensures PrefixAssignmentCmp(a, b) == 0 ==> a.name == b.name
    ensures PrefixAssignmentCmp(a, b) < 0 && PrefixAssignmentCmp(b, c) < 0 ==> PrefixAssignmentCmp(a, c) < 0
  {
    StrCmpZero(a.name, b.name);
    if StrCmp(a.name, b.name) < 0 && StrCmp(b.name, c.name) < 0 {
      StrCmpTrans(a.name, b.name, c.name);
    }
  }

  /** Two entries disagree about which comes first exactly at one size, with
      weights 2^31 apart. */
  lemma CmpIsAntisymmetricIff(a: Block, b: Block)
    requires WeightInRange(a) && WeightInRange(b)
    ensures (PrefixAssignmentCmp(a, b) < 0 <==> PrefixAssignmentCmp(b, a) > 0) <==>
            !(a.length == b.length && (a.weight - b.weight == 0x8000_0000 || b.weight - a.weight == 0x8000_0000))
  {
    StrCmpZero(a.name, b.name);
  }

  /** What the comparison says about a larger and a smaller weight. */
  lemma CmpByWeight(a: Block, b: Block)
    requires WeightInRange(a) && WeightInRange(b) && a.length == b.length && a.weight > b.weight
    ensures PrefixAssignmentCmp(a, b) < 0 <==> a.weight - b.weight <= 0x8000_0000
    ensures PrefixAssignmentCmp(a, b) > 0 <==> a.weight - b.weight > 0x8000_0000
    ensures PrefixAssignmentCmp(b, a) < 0 <==> a.weight - b.weight >= 0x8000_0000
  {
    hide StrCmp;
  }

  ghost predicate Circle(a: Block, b: Block, c: Block) {
    PrefixAssignmentCmp(a, b) < 0 && PrefixAssignmentCmp(b, c) < 0 && PrefixAssignmentCmp(c, a) < 0
  }

  /** What the comparison says as long as no difference overflows: the larger
      weight first, then the names. */
  predicate Before(a: Block, b: Block) {
    if a.weight == b.weight then StrCmp(a.name, b.name) < 0 else a.weight - b.weight <= 0x8000_0000
  }

  /** Three entries of one size, by falling weight, come each before the next, in
      a circle, exactly if the outer difference reaches 2^31 while neither inner
      one goes beyond it; the other way round exactly if it is 2^31 and two of
      equal weight stand against their names. */
  lemma CmpCyclesIff(a: Block, b: Block, c: Block)
    requires WeightInRange(a) && WeightInRange(b) && WeightInRange(c)
    requires a.length == b.length == c.length && a.weight >= b.weight >= c.weight
    ensures Circle(a, b, c) <==> Before(a, b) && Before(b, c) && a.weight - c.weight >= 0x8000_0000
    ensures PrefixAssignmentCmp(a, b) < 0 && PrefixAssignmentCmp(b, c) < 0 && PrefixAssignmentCmp(a, c) > 0 <==>
            Before(a, b) && Before(b, c) && a.weight - c.weight > 0x8000_0000
    ensures Circle(a, c, b) <==>
            && a.weight - c.weight == 0x8000_0000
            && ((a.weight == b.weight && Before(b, a)) || (b.weight == c.weight && Before(c, b)))
  {
    hide PrefixAssignmentCmp, StrCmp;
    CmpByOrder(a, b);
    CmpByOrder(b, c);
    CmpByOrder(a, c);
    if StrCmp(a.name, b.name) < 0 && StrCmp(b.name, c.name) < 0 { StrCmpTrans(a.name, b.name, c.name); }
    if StrCmp(c.name, b.name) < 0 && StrCmp(b.name, a.name) < 0 { StrCmpTrans(c.name, b.name, a.name); }
  }

  lemma CmpByOrder(a: Block, b: Block)
    requires WeightInRange(a) && WeightInRange(b) && a.length == b.length && a.weight >= b.weight
    ensures PrefixAssignmentCmp(a, b) < 0 <==> Before(a, b)
    ensures PrefixAssignmentCmp(b, a) < 0 <==>
            if a.weight == b.weight then StrCmp(b.name, a.name) < 0 else a.weight - b.weight >= 0x8000_0000
    ensures a.weight == b.weight ==> (StrCmp(a.name, b.name) > 0 <==> StrCmp(b.name, a.name) < 0)
    ensures PrefixAssignmentCmp(a, b) > 0 <==>
            if a.weight == b.weight then StrCmp(b.name, a.name) < 0 else a.weight - b.weight > 0x8000_0000
  {
    hide StrCmp;
    StrCmpZero(a.name, b.name);
    StrCmpZero(b.name, a.name);
    if a.weight > b.weight { CmpByWeight(a, b); }
  }

  /** Such weights exist. */
  lemma CmpCanCycle()
    ensures exists a: Block, b: Block, c: Block ::
              WeightInRange(a) && WeightInRange(b) && WeightInRange(c) && Circle(a, b, c)
  {
    var a := Block("a", UNASSIGNED, 60, 1500000000);
    var b := Block("b", UNASSIGNED, 60, 0);
    var c := Block("c", UNASSIGNED, 60, -1500000000);
    CmpCyclesIff(a, b, c);
  }

  /** The later tree as a sorted sequence; an entry equal to one present is refused. */
  function InsertLater(later: seq<Block>, b: Block): seq<Block> {
    if later == [] then [b]
    else
      var c := PrefixAssignmentCmp(b, later[0]);
      if c == 0 then later
      else if c < 0 then [b] + later
      else [later[0]] + InsertLater(later[1..], b)
  }

  /** Where an entry goes: before the first one it compares below, provided no
      earlier one compares equal. */
  lemma {:induction false} InsertLaterAt(later: seq<Block>, b: Block, i: nat)
    requires i <= |later| && forall j | 0 <= j < i :: PrefixAssignmentCmp(b, later[j]) > 0
    ensures i == |later| || PrefixAssignmentCmp(b, later[i]) < 0 ==>
              InsertLater(later, b) == Insert(later, i, b)
    ensures i < |later| && PrefixAssignmentCmp(b, later[i]) == 0 ==> InsertLater(later, b) == later
  {
    if i > 0 {
      assert later == [later[0]] + later[1..];
      InsertLaterAt(later[1..], b, i - 1);
      assert Insert(later, i, b) == [later[0]] + Insert(later[1..], i - 1, b);
    }
  }

  ghost predicate LargestFirst(bs: seq<Block>) {
    bs != [] ==> (forall x | x in bs[1..] :: bs[0].length <= x.length) && LargestFirst(bs[1..])
  }

  /** Every entry whose name is new is taken in, and nothing is lost. */
  lemma {:induction false} InsertLaterContents(later: seq<Block>, b: Block)
    requires forall x | x in later :: x.name != b.name && WeightInRange(x)
    requires WeightInRange(b)
    ensures multiset(InsertLater(later, b)) == multiset(later) + multiset{b}
  {
    if later != [] {
      var head, tail := later[0], later[1..];
      StrCmpZero(b.name, head.name);
      assert head in later && PrefixAssignmentCmp(b, head) != 0;
      assert later == [head] + tail;
      InsertLaterContents(tail, b);
    }
  }

  lemma {:induction false} InsertLaterMembers(later: seq<Block>, b: Block)
    ensures forall x | x in InsertLater(later, b) :: x in later || x == b
  {
    if later != [] { InsertLaterMembers(later[1..], b); }
  }

  /** Whatever the weights, the tree keeps larger blocks first. */
  lemma {:induction false} InsertLaterKeepsOrder(later: seq<Block>, b: Block)
    requires LargestFirst(later)
    ensures LargestFirst(InsertLater(later, b))
  {
    if later != [] {
      var r := InsertLater(later, b);
      assert later == [later[0]] + later[1..];
      var c := PrefixAssignmentCmp(b, later[0]);
      if c < 0 {
        assert r[1..] == later;
      } else if c > 0 {
        InsertLaterKeepsOrder(later[1..], b);
        InsertLaterMembers(later[1..], b);
        assert r[1..] == InsertLater(later[1..], b);
      }
    }
  }

  // ---- the two passes -----------------------------------------------------

  function Request(f: Iface): Block
    requires 48 <= f.length <= 64
  {
    Block(f.name, f.hint, f.length, f.weight)
  }

  datatype Pass = Pass(list: seq<Block>, later: seq<Block>)

  function InitialList(p: Prefix): seq<Block>
  {
    var sentinel := Block("", Pow2(64 - p.length), 64, 0);
    if p.exclLength > 0 then
      [Block(EXCLUDED, And(p.exclWord, Pow2(64 - p.length) - 1), p.exclLength, 0), sentinel]
    else [sentinel]
  }

  function HintStep(s: Pass, f: Iface, pclass: string): Pass
  {
    if !Eligible(f, pclass) then s
    else
      var b := Request(f);
      if b.start == UNASSIGNED then s.(later := InsertLater(s.later, b))
      else match Place(s.list, b)
        case Some((pos, at)) => s.(list := Insert(s.list, pos, b.(start := at)))
        case None => s.(later := InsertLater(s.later, b.(start := UNASSIGNED)))
  }

  function HintPass(s: Pass, fs: seq<Iface>, pclass: string): Pass
    decreases fs
  {
    if fs == [] then s
    else
      var s' := HintStep(s, fs[0], pclass);
      HintPass(s', fs[1..], pclass)
  }

  function LaterPass(list: seq<Block>, later: seq<Block>): (r: seq<Block>)
    decreases later
  {
    if later == [] then list
    else match Shrink(list, later[0])
      case Some((pos, c)) => LaterPass(Insert(list, pos, c), later[1..])
      case None => LaterPass(list, later[1..])
  }

  function Rebuild(p: Prefix, fs: seq<Iface>): seq<Block>
  {
    var s := HintPass(Pass(InitialList(p), []), fs, p.pclass);
    LaterPass(s.list, s.later)
  }

  // ---- what the list looks like along the way -----------------------------

  /** The excluded block lies inside the pool, aligned to its size. */
  lemma ExcludedInPool(p: Prefix)
    requires ValidPrefix(p) && p.exclLength > 0
    ensures var at := And(p.exclWord, Pow2(64 - p.length) - 1);
            && at % Size(p.exclLength) == 0
            && at + Size(p.exclLength) <= Size(p.length)
  {
    AndMask(p.exclWord, 64 - p.length);
    ModAligned(p.exclWord, 64 - p.exclLength, 64 - p.length);
  }

  lemma InitialListWellFormed(p: Prefix)
    requires ValidPrefix(p)
    ensures WellFormed(InitialList(p), p.length)
  {
    if p.exclLength > 0 { ExcludedInPool(p); }
  }

  /** Interface f holds a block at least as long a prefix as it asked for. */
  ghost predicate Served(list: seq<Block>, f: Iface) {
    exists i :: 0 <= i < |list| - 1 && list[i].name == f.name && f.length <= list[i].length
  }

  lemma InsertKeepsServed(list: seq<Block>, pos: nat, b: Block, f: Iface)
    requires pos < |list| && Served(list, f)
    ensures Served(Insert(list, pos, b), f)
  {
    var i :| 0 <= i < |list| - 1 && list[i].name == f.name && f.length <= list[i].length;
    var k := if i < pos then i else i + 1;
    assert Insert(list, pos, b)[k] == list[i];
  }

  lemma InsertServes(list: seq<Block>, pos: nat, b: Block, f: Iface)
    requires pos < |list| && b.name == f.name && f.length <= b.length
    ensures Served(Insert(list, pos, b), f)
  {
    assert Insert(list, pos, b)[pos] == b;
  }

  /** An entry of the later tree is an automatic request. */
  ghost predicate Waiting(b: Block) {
    b.start == UNASSIGNED && 48 <= b.length && WeightInRange(b)
  }

  /** The tree holds automatic requests of interfaces already handled, larger
      blocks first. */
  ghost predicate TreeInv(later: seq<Block>, done: seq<Iface>) {
    && LargestFirst(later)
    && forall b | b in later :: Waiting(b) && exists f :: f in done && f.name == b.name
  }

  ghost predicate PassInv(s: Pass, plen: PrefixLength, done: seq<Iface>, pclass: string) {
    && WellFormed(s.list, plen)
    && TreeInv(s.later, done)
    && forall f | f in done && Eligible(f, pclass) ::
         Served(s.list, f) || Request(f).(start := UNASSIGNED) in s.later
  }

  /** A hinted request is served at its hint exactly when that block is free;
      otherwise the list is untouched and the request waits without its hint. */
  lemma HintHonoured(s: Pass, plen: PrefixLength, f: Iface, pclass: string)
    requires WellFormed(s.list, plen) && ValidIface(f) && Eligible(f, pclass) && f.hint != UNASSIGNED
    ensures var s' := HintStep(s, f, pclass);
            if Free(s.list, f.hint, Size(f.length)) then
              && s'.later == s.later
              && exists pos :: 0 <= pos < |s.list| && s'.list == Insert(s.list, pos, Request(f))
            else
              s' == s.(later := InsertLater(s.later, Request(f).(start := UNASSIGNED)))
  {
    SearchExact(s.list, plen, f.hint, f.length, 0);
    match Place(s.list, Request(f))
    case Some((pos, at)) =>
      assert HintStep(s, f, pclass).list == Insert(s.list, pos, Request(f));
    case None =>
  }

  lemma ListStepKeeps(s: Pass, plen: PrefixLength, done: seq<Iface>, f: Iface, pclass: string)
    requires PassInv(s, plen, done, pclass) && ValidIface(f) && Eligible(f, pclass)
    requires f.hint != UNASSIGNED && Place(s.list, Request(f)).Some?
    ensures PassInv(HintStep(s, f, pclass), plen, done + [f], pclass)
  {
    SearchExact(s.list, plen, f.hint, f.length, 0);
    var (pos, at) := Place(s.list, Request(f)).value;
    var b, s' := Request(f).(start := at), HintStep(s, f, pclass);
    InsertKeeps(s.list, plen, pos, b);
    InsertServes(s.list, pos, b, f);
    forall g | g in done && Served(s.list, g) ensures Served(s'.list, g) {
      InsertKeepsServed(s.list, pos, b, g);
    }
  }

  lemma TreeTakesIn(later: seq<Block>, done: seq<Iface>, f: Iface, w: Block)
    requires TreeInv(later, done) && Waiting(w) && w.name == f.name
    requires forall g | g in done :: g.name != f.name
    ensures TreeInv(InsertLater(later, w), done + [f])
    ensures forall x | x in later || x == w :: x in InsertLater(later, w)
  {
    InsertLaterMembers(later, w);
    InsertLaterKeepsOrder(later, w);
    InsertLaterContents(later, w);
    forall x | x in later || x == w ensures x in InsertLater(later, w) {
      assert x in multiset(InsertLater(later, w));
    }
  }

  lemma TreeStepKeeps(s: Pass, plen: PrefixLength, done: seq<Iface>, f: Iface, pclass: string)
    requires PassInv(s, plen, done, pclass) && ValidIface(f) && Eligible(f, pclass)
    requires f.hint == UNASSIGNED || Place(s.list, Request(f)).None?
    requires forall g | g in done :: g.name != f.name
    ensures PassInv(HintStep(s, f, pclass), plen, done + [f], pclass)
  {
    TreeTakesIn(s.later, done, f, Request(f).(start := UNASSIGNED));
  }

  lemma HintStepKeeps(s: Pass, plen: PrefixLength, done: seq<Iface>, f: Iface, pclass: string)
    requires PassInv(s, plen, done, pclass) && ValidIface(f)
    requires forall g | g in done :: g.name != f.name
    ensures PassInv(HintStep(s, f, pclass), plen, done + [f], pclass)
  {
    if Eligible(f, pclass) {
      if f.hint != UNASSIGNED && Place(s.list, Request(f)).Some? {
        ListStepKeeps(s, plen, done, f, pclass);
      } else {
        TreeStepKeeps(s, plen, done, f, pclass);
      }
    }
  }

  lemma {:induction false} HintPassKeeps(s: Pass, plen: PrefixLength, done: seq<Iface>, fs: seq<Iface>, pclass: string)
    requires PassInv(s, plen, done, pclass) && ValidIfaces(done + fs)
    ensures PassInv(HintPass(s, fs, pclass), plen, done + fs, pclass)
    decreases fs
  {
    if fs == [] {
      assert done + fs == done;
    } else {
      var all := done + fs;
      assert forall i | 0 <= i < |done| :: done[i] == all[i];
      assert fs[0] == all[|done|];
      HintStepKeeps(s, plen, done, fs[0], pclass);
      assert all == (done + [fs[0]]) + fs[1..];
      HintPassKeeps(HintStep(s, fs[0], pclass), plen, done + [fs[0]], fs[1..], pclass);
    }
  }

  /** After the first pass the tree holds automatic requests only. */
  lemma RebuildWaits(p: Prefix, fs: seq<Iface>)
    requires ValidPrefix(p) && ValidIfaces(fs)
    ensures PassInv(HintPass(Pass(InitialList(p), []), fs, p.pclass), p.length, fs, p.pclass)
  {
    InitialListWellFormed(p);
    assert [] + fs == fs;
    HintPassKeeps(Pass(InitialList(p), []), p.length, [], fs, p.pclass);
  }

  ghost predicate Full(list: seq<Block>, plen: PrefixLength)
    requires |list| >= 1
  {
    NoFree(list, 64, 0, Size(plen))
  }

  lemma InsertKeepsFull(list: seq<Block>, plen: PrefixLength, pos: nat, b: Block)
    requires |list| >= 1 && pos < |list| && Full(list, plen)
    ensures Full(Insert(list, pos, b), plen)
  {
    forall x | 0 <= x < Size(plen) && x % Size(64) == 0
      ensures !Free(Insert(list, pos, b), x, Size(64))
    {
      InsertFreesNothing(list, pos, b, x, Size(64));
    }
  }

  ghost predicate HasOrAwaits(list: seq<Block>, plen: PrefixLength, later: seq<Block>, f: Iface)
    requires |list| >= 1
  {
    || Served(list, f)
    || Full(list, plen)
    || (48 <= f.length <= 64 && Request(f).(start := UNASSIGNED) in later)
  }

  /** The later pass keeps the list invariant and every served interface, and a
      waiting one is left out only of a pool without a single free /64. */
  lemma {:induction false} LaterPassServes(list: seq<Block>, plen: PrefixLength, later: seq<Block>, f: Iface)
    requires WellFormed(list, plen) && forall b | b in later :: Waiting(b)
    ensures var r := LaterPass(list, later);
            WellFormed(r, plen) && (HasOrAwaits(list, plen, later, f) ==> Served(r, f) || Full(r, plen))
    decreases later
  {
    if later != [] {
      var b := later[0];
      assert b in later;
      ShrinkExact(list, plen, b);
      match Shrink(list, b)
      case Some((pos, c)) =>
        InsertKeeps(list, plen, pos, c);
        var list' := Insert(list, pos, c);
        if Served(list, f) {
          InsertKeepsServed(list, pos, c, f);
        } else if Full(list, plen) {
          InsertKeepsFull(list, plen, pos, c);
        } else if 48 <= f.length <= 64 && Request(f).(start := UNASSIGNED) == b {
          InsertServes(list, pos, c, f);
        }
        LaterPassServes(list', plen, later[1..], f);
      case None =>
        LaterPassServes(list, plen, later[1..], f);
    }
  }

  /** The rebuild as a whole: the final list is sorted, disjoint, aligned and
      inside the pool; and if any eligible interface goes without a sub-prefix,
      then not one /64 of the delegated prefix is left free. */
  lemma RebuildCorrect(p: Prefix, fs: seq<Iface>)
    requires ValidPrefix(p) && ValidIfaces(fs)
    ensures WellFormed(Rebuild(p, fs), p.length)
    ensures forall f | f in fs && Eligible(f, p.pclass) :: Served(Rebuild(p, fs), f) || Full(Rebuild(p, fs), p.length)
  {
    RebuildWaits(p, fs);
    var s' := HintPass(Pass(InitialList(p), []), fs, p.pclass);
    LaterPassServes(s'.list, p.length, s'.later, Iface("", 0, 0, 0, []));
    forall f | f in fs && Eligible(f, p.pclass)
      ensures Served(Rebuild(p, fs), f) || Full(Rebuild(p, fs), p.length)
    {
      LaterPassServes(s'.list, p.length, s'.later, f);
    }
  }

  // ---- nobody gets two ------------------------------------------------------

  function Names(bs: seq<Block>): multiset<string> {
    if bs == [] then multiset{} else multiset{bs[0].name} + Names(bs[1..])
  }

  function Requests(fs: seq<Iface>, pclass: string): seq<Block> {
    if fs == [] then []
    else (if Eligible(fs[0], pclass) then [Request(fs[0])] else []) + Requests(fs[1..], pclass)
  }

  lemma {:induction false} NamesInsert(bs: seq<Block>, pos: nat, b: Block)
    requires pos <= |bs|
    ensures Names(Insert(bs, pos, b)) == Names(bs) + multiset{b.name}
  {
    var cs := Insert(bs, pos, b);
    if pos == 0 {
      assert cs[1..] == bs;
    } else {
      NamesInsert(bs[1..], pos - 1, b);
      assert cs[1..] == Insert(bs[1..], pos - 1, b);
    }
  }

  lemma {:induction false} NamesInsertLater(later: seq<Block>, b: Block)
    ensures Names(InsertLater(later, b)) <= Names(later) + multiset{b.name}
  {
    if later == [] {
      assert InsertLater(later, b)[1..] == [];
    } else {
      NamesInsertLater(later[1..], b);
      var r, c := InsertLater(later, b), PrefixAssignmentCmp(b, later[0]);
      assert c < 0 ==> r[1..] == later;
      assert c > 0 ==> r[1..] == InsertLater(later[1..], b);
    }
  }

  lemma {:induction false} HintPassNames(s: Pass, fs: seq<Iface>, pclass: string)
    ensures var r := HintPass(s, fs, pclass);
            Names(r.list) + Names(r.later) <= Names(s.list) + Names(s.later) + Names(Requests(fs, pclass))
    decreases fs
  {
    if fs != [] {
      var s', f := HintStep(s, fs[0], pclass), fs[0];
      var rest := Requests(fs[1..], pclass);
      if Eligible(f, pclass) {
        assert Requests(fs, pclass)[1..] == rest;
        NamesInsertLater(s.later, Request(f).(start := UNASSIGNED));
        if f.hint != UNASSIGNED && Place(s.list, Request(f)).Some? {
          var (pos, at) := Place(s.list, Request(f)).value;
          NamesInsert(s.list, pos, Request(f).(start := at));
        }
      } else {
        assert Requests(fs, pclass) == rest;
      }
      HintPassNames(s', fs[1..], pclass);
    }
  }

  lemma {:induction false} LaterPassNames(list: seq<Block>, later: seq<Block>)
    requires forall b | b in later :: b.start == UNASSIGNED
    ensures Names(LaterPass(list, later)) <= Names(list) + Names(later)
    decreases later
  {
    if later != [] {
      match Shrink(list, later[0])
      case Some((pos, c)) =>
        ShrinkKeepsName(list, later[0]);
        NamesInsert(list, pos, c);
        LaterPassNames(Insert(list, pos, c), later[1..]);
      case None =>
        LaterPassNames(list, later[1..]);
    }
  }

  lemma {:induction false} ShrinkKeepsName(bs: seq<Block>, b: Block)
    ensures Shrink(bs, b).Some? ==> Shrink(bs, b).value.1.name == b.name
    decreases 64 - b.length
  {
    if Place(bs, b).None? && b.length < 64 { ShrinkKeepsName(bs, b.(length := b.length + 1)); }
  }

  /** Every block of the final list is accounted for: the sentinel, the excluded
      block, and at most one block for each eligible interface. */
  lemma RebuildGivesOneEach(p: Prefix, fs: seq<Iface>)
    requires ValidPrefix(p) && ValidIfaces(fs)
    ensures Names(Rebuild(p, fs)) <= Names(InitialList(p)) + Names(Requests(fs, p.pclass))
  {
    var s := Pass(InitialList(p), []);
    RebuildWaits(p, fs);
    HintPassNames(s, fs, p.pclass);
    var s' := HintPass(s, fs, p.pclass);
    LaterPassNames(s'.list, s'.later);
  }
}
