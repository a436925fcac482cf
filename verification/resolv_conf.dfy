/** The checksum routine as a loop over reads of a file, and what the daemon
    does with it when it replaces the resolver file. */
module ResolvConf {
  import opened Options
  import opened Registers
  import opened Crc32

  const BUFSIZE: nat := 1024

  /** An open file: fread hands out what is left, at most a buffer at a time. */
  class File {
    const data: seq<byte>
    var pos: nat

    ghost predicate Valid()
      reads this
    {
      pos <= |data|
    }

    constructor (data: seq<byte>)
      ensures Valid() && this.data == data && pos == 0
    {
      this.data := data;
      pos := 0;
    }

    /** Short only at the end of the file. */
    method Fread(size: nat) returns (buf: seq<byte>)
      requires Valid()
      modifies this
      ensures Valid()
      ensures pos == if old(pos) + size <= |data| then old(pos) + size else |data|
      ensures buf == data[old(pos)..pos]
    {
      var end := if pos + size <= |data| then pos + size else |data|;
      buf := data[pos..end];
      pos := end;
    }
  }

  function Reg(i: int): bv32
    requires 0 <= i < 256
  {
    i as bv32
  }

  /** What belongs at index i of the table. */
  function Entry(i: int): bv32 {
    if 0 <= i < 256 then TableEntry(Reg(i)) else 0
  }

  ghost predicate Filled<T>(s: seq<T>, f: int -> T, n: nat)
    requires n <= |s|
  {
    forall i :: 0 <= i < n ==> s[i] == f(i)
  }

  lemma FilledMore<T>(s: seq<T>, t: seq<T>, f: int -> T, n: nat)
    requires n < |s| && Filled(s, f, n) && t == s[n := f(n)]
    ensures Filled(t, f, n + 1)
  {}

  lemma FilledAt<T>(s: seq<T>, f: int -> T, n: nat, i: nat)
    requires i < n <= |s| && Filled(s, f, n)
    ensures s[i] == f(i)
  {}

  /** The index the low byte selects. */
  function Index(c: bv32): (i: int)
    ensures 0 <= i < 256
  {
    assert Low(c) <= 0xFF;
    Low(c) as int
  }

  lemma LowIsByte(c: bv32)
    ensures Low(c) <= 0xFF
  {}

  lemma RoundTrip(x: bv32)
    requires x <= 0xFF
    ensures x as int < 256 && Reg(x as int) == x
  {}

  lemma EntryIsTableEntry(x: bv32)
    requires x <= 0xFF
    ensures Entry(x as int) == TableEntry(x)
  {
    RoundTrip(x);
  }

  lemma EntryAtIndex(c: bv32)
    ensures Entry(Index(c)) == TableEntry(Low(c))
  {
    LowIsByte(c);
    EntryIsTableEntry(Low(c));
  }

  lemma FilledAtIndex(s: seq<bv32>, c: bv32)
    requires |s| == 256 && Filled(s, Entry, 256)
    ensures s[Index(c)] == TableEntry(Low(c))
  {
    FilledAt(s, Entry, 256, Index(c));
    EntryAtIndex(c);
  }

  lemma FoldSplit(c: bv32, data: seq<byte>, i: nat, j: nat)
    requires i <= j <= |data|
    ensures Fold(ByteStep, c, data[i..]) == Fold(ByteStep, Fold(ByteStep, c, data[i..j]), data[j..])
  {
    assert data[i..] == data[i..j] + data[j..];
    FoldConcat(ByteStep, c, data[i..j], data[j..]);
  }

  /** The checksum routine with its lazily built table. */
  class CrcTable {
    var crcvals: array?<bv32>

    ghost predicate Valid()
      reads this, crcvals
    {
      crcvals != null ==> Built(crcvals)
    }

    static ghost predicate Built(a: array<bv32>)
      reads a
    {
      a.Length == 256 && Filled(a[..], Entry, 256)
    }

    constructor ()
      ensures Valid() && crcvals == null
    {
      crcvals := null;
    }

    /** Eight shift steps done in place. */
    static method EightSteps(i: nat) returns (c: bv32)
      requires i < 256
      ensures c == Entry(i)
    {
      c := Reg(i);
      for j := 0 to 8
        invariant Iter(Shift, c, 8 - j) == Entry(i)
      {
        c := if c & 1 == 1 then POLY ^ (c >> 1) else c >> 1;
      }
    }

    static method Fill(vals: array<bv32>)
      requires vals.Length == 256
      modifies vals
      ensures Built(vals)
    {
      for i := 0 to 256
        invariant Filled(vals[..], Entry, i)
      {
        ghost var was := vals[..];
        var c := EightSteps(i);
        vals[i] := c;
        FilledMore(was, vals[..], Entry, i);
      }
    }

    method BuildTable()
      requires Valid()
      modifies this
      ensures Valid() && crcvals != null
      ensures old(crcvals) != null ==> crcvals == old(crcvals)
      ensures old(crcvals) == null ==> fresh(crcvals)
    {
      if crcvals == null {
        var vals := new bv32[256];
        Fill(vals);
        crcvals := vals;
      }
    }

    method LookUp(c: bv32, b: byte) returns (r: bv32)
      requires Valid() && crcvals != null
      ensures r == ByteStep(c, b)
    {
      var x := Xor(c, Val(b));
      FilledAtIndex(crcvals[..], x);
      r := Xor(crcvals[Index(x)], Up(c));
    }

    /** The byte loop over one buffer. */
    method Feed(c0: bv32, buf: seq<byte>) returns (c: bv32)
      requires Valid() && crcvals != null
      ensures c == Fold(ByteStep, c0, buf)
    {
      c := c0;
      for i := 0 to |buf|
        invariant Fold(ByteStep, c, buf[i..]) == Fold(ByteStep, c0, buf)
      {
        assert buf[i..][1..] == buf[i + 1..];
        c := LookUp(c, buf[i]);
      }
    }

    /** The loop over reads: it stops after the first short one. */
    method FeedFile(c0: bv32, fp: File) returns (c: bv32)
      requires Valid() && crcvals != null && fp.Valid()
      modifies fp
      ensures fp.Valid() && fp.pos == |fp.data|
      ensures c == Fold(ByteStep, c0, old(fp.data[fp.pos..]))
    {
      ghost var todo := fp.data[fp.pos..];
      c := c0;
      var len := BUFSIZE;
      while len == BUFSIZE
        invariant fp.Valid()
        invariant len != BUFSIZE ==> fp.pos == |fp.data|
        invariant Fold(ByteStep, c, fp.data[fp.pos..]) == Fold(ByteStep, c0, todo)
        decreases |fp.data| - fp.pos, len
      {
        ghost var was, at := c, fp.pos;
        var buf := fp.Fread(BUFSIZE);
        FoldSplit(was, fp.data, at, fp.pos);
        c := Feed(c, buf);
        len := |buf|;
      }
    }

    /** Whatever the length of the file, including exact multiples of the buffer
        size, the result is the CRC of all its bytes. */
    method Crc32File(fp: File) returns (r: bv32)
      requires Valid() && fp.Valid()
      modifies this, fp
      ensures Valid() && crcvals != null
      ensures old(crcvals) != null ==> crcvals == old(crcvals)
      ensures old(crcvals) == null ==> fresh(crcvals)
      ensures fp.Valid() && fp.pos == |fp.data|
      ensures r == Crc(old(fp.data[fp.pos..]))
    {
      ghost var todo := fp.data[fp.pos..];
      BuildTable();
      var c := FeedFile(0xFFFF_FFFF, fp);
      TableFormIsCrc(todo);
      r := c ^ 0xFFFF_FFFF;
    }
  }

  // ---- replacing the resolver file -----------------------------------------

  /** The resolver file after new content was written next to it. A file that
      cannot be opened counts as different. */
  function Installed(conf: Option<seq<byte>>, readable: bool, content: seq<byte>, renames: bool): Option<seq<byte>> {
    if conf.Some? && readable && Crc(conf.value) == Crc(content) then conf
    else if renames then Some(content)
    else conf
  }

  lemma NextDiffers(c: bv32)
    ensures c + 1 != c
  {}

  class ResolverFiles {
    var conf: Option<seq<byte>>
    var tmp: Option<seq<byte>>
    const table: CrcTable

    constructor (conf: Option<seq<byte>>, tmp: Option<seq<byte>>, table: CrcTable)
      ensures this.conf == conf && this.tmp == tmp && this.table == table
    {
      this.conf := conf;
      this.tmp := tmp;
      this.table := table;
    }

    /** Opens a file, checksums it and closes it. */
    method Checksum(data: seq<byte>) returns (r: bv32)
      requires table.Valid()
      modifies table
      ensures table.Valid() && r == Crc(data)
    {
      var f := new File(data);
      r := table.Crc32File(f);
    }

    /** opensTmp, readable and renames say whether the three system calls work. */
    method WriteResolvConf(content: seq<byte>, opensTmp: bool, readable: bool, renames: bool)
      requires table.Valid()
      modifies this, table
      ensures table.Valid() && tmp == None
      ensures conf == if opensTmp then Installed(old(conf), readable, content, renames) else old(conf)
    {
      tmp := None;
      if !opensTmp {
        return;
      }
      tmp := Some(content);
      var crcnew := Checksum(content);
      NextDiffers(crcnew);
      var crcold := crcnew + 1;
      if conf.Some? && readable {
        crcold := Checksum(conf.value);
      }
      Settle(crcold == crcnew, renames);
    }

    /** Drops the new file if it says the same, else moves it into place. */
    method Settle(same: bool, renames: bool)
      modifies this
      ensures tmp == None
      ensures conf == if same || !renames then old(conf) else old(tmp)
    {
      if same {
        tmp := None;
      } else if renames {
        conf := tmp;
        tmp := None;
      } else {
        tmp := None;
      }
    }
  }

  /** The file is up to date afterwards exactly if the rename worked where one
      was needed and no different content with the same checksum was there. */
  lemma UpToDateIff(conf: Option<seq<byte>>, readable: bool, content: seq<byte>, renames: bool)
    ensures Installed(conf, readable, content, renames) == Some(content) <==>
            conf == Some(content) || (renames && !(conf.Some? && readable && Crc(conf.value) == Crc(content)))
  {}

  /** A change confined to four consecutive bytes always reaches the file. */
  lemma BurstInstalled(pre: seq<byte>, v: seq<byte>, w: seq<byte>, post: seq<byte>, readable: bool)
    requires |v| == |w| <= 4
    ensures Installed(Some(pre + v + post), readable, pre + w + post, true) == Some(pre + w + post)
  {
    BurstDetected(pre, v, w, post);
  }

  const FIVE_ZEROS: seq<byte> := [0, 0, 0, 0, 0]
  const FIVE_OTHERS: seq<byte> := [0x41, 0x06, 0x71, 0xDB, 0x01]

  lemma Stepped(c: bv32, b: byte, d: bv32)
    requires Shift(Shift(Shift(Shift(Shift(Shift(Shift(Shift(Low(Xor(c, Val(b))))))))))) == Xor(d, Up(c))
    ensures ByteStep(c, b) == d
  {
    IterEight(Shift, Low(Xor(c, Val(b))));
    XorTwice(d, Up(c));
  }

  lemma XorTwice(d: bv32, u: bv32)
    ensures Xor(Xor(d, u), u) == d
  {}

  lemma ZerosEnd()
    ensures Fold(ByteStep, 0xFFFF_FFFF, FIVE_ZEROS) == 0x39DD08E2
  {
    FoldFive(ByteStep, 0xFFFF_FFFF, FIVE_ZEROS);
    Stepped(0xFFFFFFFF, 0x0, 0x2DFD1072);
    Stepped(0x2DFD1072, 0x0, 0xBE26ED00);
    Stepped(0xBE26ED00, 0x0, 0xBE26ED);
    Stepped(0xBE26ED, 0x0, 0xDEBB20E3);
    Stepped(0xDEBB20E3, 0x0, 0x39DD08E2);
  }

  lemma OthersEnd()
    ensures Fold(ByteStep, 0xFFFF_FFFF, FIVE_OTHERS) == 0x39DD08E2
  {
    FoldFive(ByteStep, 0xFFFF_FFFF, FIVE_OTHERS);
    Stepped(0xFFFFFFFF, 0x41, 0x2C266174);
    Stepped(0x2C266174, 0x6, 0xBE273671);
    Stepped(0xBE273671, 0x71, 0xBE2736);
    Stepped(0xBE2736, 0xDB, 0xDEBB20E2);
    Stepped(0xDEBB20E2, 0x1, 0x39DD08E2);
  }

  /** Four bytes is the limit: there are five-byte files whose change is missed. */
  lemma FiveByteChangeMissed()
    ensures FIVE_ZEROS != FIVE_OTHERS && Crc(FIVE_ZEROS) == Crc(FIVE_OTHERS)
    ensures Installed(Some(FIVE_ZEROS), true, FIVE_OTHERS, true) == Some(FIVE_ZEROS)
  {
    ZerosEnd();
    OthersEnd();
    TableFormIsCrc(FIVE_ZEROS);
    TableFormIsCrc(FIVE_OTHERS);
    assert FIVE_ZEROS[0] != FIVE_OTHERS[0];
  }
}
