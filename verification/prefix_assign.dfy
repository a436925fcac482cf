/** The allocator as it runs: assignment records linked into a list, records
    updated in place, all arithmetic in 32 bits. */
module PrefixAssign {
  import opened Options
  import opened Bits
  import opened PrefixList
  import opened PrefixRebuild

  /** A masked hint leaves room for its own block below 2^31. */
  lemma HintNeverOverflows(hint: int, length: PrefixLength)
    requires 48 <= length && hint < 0x8000_0000 && hint % Size(length) == 0
    ensures hint + Size(length) <= 0x8000_0000
  {
    PowerValues();
    Pow2Le(64 - length, 31);
    AlignedGap(hint, 0x8000_0000, Size(length));
  }

  lemma SizeBounds(plen: PrefixLength)
    ensures plen >= 34 ==> Size(plen) <= 0x4000_0000
    ensures plen >= 48 ==> Size(plen) <= 0x1_0000
  {
    PowerValues();
    if plen >= 34 { Pow2Le(64 - plen, 30); }
    if plen >= 48 { Pow2Le(64 - plen, 16); }
  }

  /** A block whose bounds leave 32-bit room for the search. */
  ghost predicate Fits32(b: Block) {
    0 <= b.start <= 0x4000_0000 && End(b) <= 0x4000_0001
  }

  ghost predicate AllFit32(bs: seq<Block>) {
    forall i | 0 <= i < |bs| :: Fits32(bs[i])
  }

  /** A request whose own block, when hinted, ends below 2^31. */
  ghost predicate RequestFits32(b: Block) {
    48 <= b.length && -0x8000_0000 <= b.start && b.start + Size(b.length) <= 0x8000_0000
  }

  /** The list invariant implies the bounds, for delegated prefixes of length 34
      and up; and masked hints satisfy theirs. */
  lemma WellFormedFits32(bs: seq<Block>, plen: PrefixLength)
    requires WellFormed(bs, plen) && 34 <= plen
    ensures AllFit32(bs)
  {
    SizeBounds(plen);
    forall i | 0 <= i < |bs|
      ensures Fits32(bs[i])
    {
      assert i < |bs| - 1 ==> End(bs[i]) <= bs[|bs| - 1].start;
    }
  }

  lemma CandidateFits32(length: PrefixLength, current: int)
    requires 48 <= length && 0 <= current <= 0x4000_0001
    ensures var asize := Size(length) - 1;
            0 <= asize < 0x1_0000 && current <= AndNot(current + asize, asize) <= current + asize
  {
    SizeBounds(length);
    CandidateIsNext(length, current);
  }

  /** The bounds survive an insertion at the place found. */
  lemma {:induction false} FoundFits32(bs: seq<Block>, b: Block, i: nat)
    requires AllFit32(bs) && i <= |bs|
    ensures match Search(bs, b.start, Size(b.length), i, GapStart(bs, i))
            case Some((pos, at)) => Fits32(b.(start := at)) && AllFit32(Insert(bs, pos, b.(start := at)))
            case None => true
    decreases |bs| - i
  {
    if i < |bs| {
      assert GapStart(bs, i) >= 0;
      FoundFits32(bs, b, i + 1);
    }
  }

  lemma RebuildFits32(p: Prefix, ifaces: seq<Iface>)
    requires ValidPrefix(p) && ValidIfaces(ifaces)
    ensures AllFit32(InitialList(p))
    ensures forall b | b in HintPass(Pass(InitialList(p), []), ifaces, p.pclass).later :: Waiting(b)
  {
    InitialListWellFormed(p);
    WellFormedFits32(InitialList(p), p.length);
    RebuildWaits(p, ifaces);
  }

  class DevicePrefix {
    const prefix: Prefix
    var assignments: seq<Block>

    constructor (prefix: Prefix)
      ensures this.prefix == prefix && assignments == []
    {
      this.prefix, assignments := prefix, [];
    }

    /** Looks for the first place in the list where a request fits. */
    method FindPlace(assign: Block) returns (ok: bool, pos: nat, at: int32)
      requires AllFit32(assignments) && RequestFits32(assign)
      ensures Place(assignments, assign) == if ok then Some((pos, at as int)) else None
    {
      CandidateFits32(assign.length, 0);
      var current: int32, asize: int32 := 0, (Pow2(64 - assign.length) - 1) as int32;
      var i := 0;
      while i < |assignments|
        invariant 0 <= i <= |assignments| && 0 <= current <= 0x4000_0001
        invariant current as int == GapStart(assignments, i)
        invariant Place(assignments, assign)
               == Search(assignments, assign.start, Size(assign.length), i, current as int)
      {
        var c := assignments[i];
        assert Fits32(c);
        if assign.start != -1 {
          var hint := assign.start as int32;
          if hint >= current && hint + asize < c.start as int32 {
            return true, i, hint;
          }
        } else {
          CandidateFits32(assign.length, current as int);
          current := AndNot((current + asize) as int, asize as int) as int32;
          if current + asize < c.start as int32 {
            return true, i, current;
          }
        }
        current := c.start as int32 + Pow2(64 - c.length) as int32;
        i := i + 1;
      }
      return false, 0, 0;
    }

    /** Links a request into the list at the first place that fits and returns it
        with that place recorded; a request that does not fit comes back as it was. */
    method InterfacePrefixAssign(assign: Block) returns (ok: bool, assign': Block)
      requires AllFit32(assignments) && RequestFits32(assign)
      modifies this`assignments
      ensures AllFit32(assignments)
      ensures match Place(old(assignments), assign)
              case Some((pos, at)) =>
                ok && assign' == assign.(start := at) && assignments == Insert(old(assignments), pos, assign')
              case None =>
                !ok && assign' == assign && assignments == old(assignments)
    {
      FoundFits32(assignments, assign, 0);
      var pos: nat, at: int32;
      ok, pos, at := FindPlace(assign);
      assign' := assign;
      if ok {
        assign' := assign.(start := at as int);
        assignments := assignments[..pos] + [assign'] + assignments[pos..];
      }
    }

    /** The tree of interfaces to serve later: inserts by the comparison, and
        refuses an entry that compares equal to one present. */
    static method AvlInsert(later: seq<Block>, entry: Block) returns (r: seq<Block>)
      ensures r == InsertLater(later, entry)
    {
      var i := 0;
      while i < |later|
        invariant 0 <= i <= |later|
        invariant forall j | 0 <= j < i :: PrefixAssignmentCmp(entry, later[j]) > 0
      {
        InsertLaterAt(later, entry, i);
        var c := PrefixAssignmentCmp(entry, later[i]);
        if c == 0 { return later; }
        if c < 0 { break; }
        i := i + 1;
      }
      InsertLaterAt(later, entry, i);
      r := later[..i] + [entry] + later[i..];
    }

    /** Handles one interface in the first pass: a hinted request goes to the
        list if its block is free, all the others to the tree. */
    method AddInterface(f: Iface, later: seq<Block>) returns (r: seq<Block>)
      requires AllFit32(assignments) && ValidIface(f)
      modifies this`assignments
      ensures AllFit32(assignments)
      ensures Pass(assignments, r) == HintStep(Pass(old(assignments), later), f, prefix.pclass)
    {
      r := later;
      if Eligible(f, prefix.pclass) {
        var c := Request(f);
        var ok := false;
        if c.start != -1 {
          HintNeverOverflows(f.hint, f.length);
          ok, c := InterfacePrefixAssign(c);
        }
        if !ok {
          c := c.(start := -1);
          r := AvlInsert(later, c);
        }
      }
    }

    /** Handles one entry of the tree: retried one size smaller until it fits. */
    method AssignLater(entry: Block) returns (ok: bool)
      requires AllFit32(assignments) && Waiting(entry)
      modifies this`assignments
      ensures AllFit32(assignments)
      ensures match Shrink(old(assignments), entry)
              case Some((pos, c)) => ok && assignments == Insert(old(assignments), pos, c)
              case None => !ok && assignments == old(assignments)
    {
      var c := entry;
      while true
        invariant Waiting(c) && assignments == old(assignments)
        invariant Shrink(assignments, entry) == Shrink(assignments, c)
        decreases 64 - c.length
      {
        SizeBounds(c.length);
        ok, c := InterfacePrefixAssign(c);
        if ok || c.length == 64 { return; }
        c := c.(length := c.length + 1);
      }
    }

    /** The first pass, over the interfaces in configuration order. */
    method HintedPass(ifaces: seq<Iface>) returns (later: seq<Block>)
      requires AllFit32(assignments) && forall i | 0 <= i < |ifaces| :: ValidIface(ifaces[i])
      modifies this`assignments
      ensures AllFit32(assignments)
      ensures Pass(assignments, later) == HintPass(Pass(old(assignments), []), ifaces, prefix.pclass)
    {
      later := [];
      ghost var goal := HintPass(Pass(assignments, []), ifaces, prefix.pclass);
      assert ifaces[0..] == ifaces;
      for k := 0 to |ifaces|
        invariant AllFit32(assignments)
        invariant goal == HintPass(Pass(assignments, later), ifaces[k..], prefix.pclass)
      {
        later := AddInterface(ifaces[k], later);
      }
    }

    /** The second pass, emptying the tree. */
    method EmptyTree(tree: seq<Block>)
      requires AllFit32(assignments) && forall b | b in tree :: Waiting(b)
      modifies this`assignments
      ensures AllFit32(assignments) && assignments == LaterPass(old(assignments), tree)
    {
      var later := tree;
      while later != []
        invariant AllFit32(assignments) && forall b | b in later :: Waiting(b)
        invariant LaterPass(old(assignments), tree) == LaterPass(assignments, later)
        decreases |later|
      {
        var entry := later[0];
        assert entry in later;
        later := later[1..];
        var _ := AssignLater(entry);
      }
    }

    /** Rebuilds the list for the given interfaces: everything is dropped, then
        the sentinel, the excluded block, the hinted interfaces and the others
        are put in. */
    method UpdatePrefixAssignments(ifaces: seq<Iface>, setup: bool)
      requires ValidPrefix(prefix) && ValidIfaces(ifaces)
      modifies this`assignments
      ensures !setup ==> assignments == []
      ensures setup ==> assignments == Rebuild(prefix, ifaces)
    {
      while assignments != []
        decreases |assignments|
      {
        assignments := assignments[1..];
      }
      if !setup { return; }

      assignments := [Block("", Pow2(64 - prefix.length), 64, 0)];
      if prefix.exclLength > 0 {
        var c := Block(EXCLUDED, And(prefix.exclWord, Pow2(64 - prefix.length) - 1), prefix.exclLength, 0);
        assignments := [c] + assignments;
      }
      assert assignments == InitialList(prefix);
      RebuildFits32(prefix, ifaces);
      var later := HintedPass(ifaces);
      EmptyTree(later);
    }
  }
}
