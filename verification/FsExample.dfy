/** Runs that begin with a freshly formatted device: when the next write breaks it, and two that do end like that. */
module FsExample {
  import opened Bits
  import opened Cache
  import opened FsLayout
  import opened FsBitmap
  import opened FsFiles
  import opened FsWrite
  import opened FsBytes
  import opened FsUpdate
  import opened FsTrunc
  import opened FsCreate
  import opened FsIndirect
  import opened FsRun

  /**
   * Whatever happened to a device before, a write that finds the zones it needs leaves it in order exactly if it
   * needs no new indirect block, unless the block's number is that of a zone that it takes itself.
   */
  lemma RunWriteExactly(p: Vol, es: seq<Change>, ino: nat, bytes: seq<Byte>, offset: nat)
    requires Fits(p) && AllowedRun(Formatted(p), p, es) && Live(After(Formatted(p), p, es), p, ino)
    requires offset + |bytes| <= ZONE_SIZE * 518
    requires var v := After(Formatted(p), p, es); var r := Record(v, p, ino); var z := AsU16(TakeInode(v, p.dev, p.sb).1);
      && ZonesFor(offset + |bytes|) - Allocated(v, p, r) <= FreeZones(v, p)
      && (InData(p, z) ==> ZSet(v, p, z) || !ZSet(Extend(v, p, r, offset + |bytes|).0, p, z))
    ensures var v := After(Formatted(p), p, es); var r := Record(v, p, ino); var (w, s) := WriteFile(v, p, ino, r, bytes, offset);
      Inv(w, p, ino, s) && Live(w, p, ino) && Record(w, p, ino) == s
      <==> Allocated(v, p, r) > 7 || ZonesFor(offset + |bytes|) <= 7
  {
    hide Inv, Live, Record, ZSet, InData, FreeZones, Formatted, TakeInode, Allocated, AllowedRun, After, WriteFile, Extend, ZonesFor, Stray;
    NoStray(p, es);
    var v := After(Formatted(p), p, es);
    SameInMemory(v, p, 0, BLANK, ino, Record(v, p, ino));
    WriteKeepsExactly(v, p, ino, Record(v, p, ino), bytes, offset);
  }

  /** The same of a new file. */
  lemma RunCreateExactly(p: Vol, es: seq<Change>, mode: u16, nr: nat)
    requires Fits(p) && AllowedRun(Formatted(p), p, es)
    requires var v := After(Formatted(p), p, es);
      nr <= FreeZones(v, p) && TakeInode(v, p.dev, p.sb).1 > 0 && AsU16(SecondInode(v, p, mode)) != 0
    ensures var (w, ino, s) := CreateFile(After(Formatted(p), p, es), p, mode, nr); Inv(w, p, ino, s) && Live(w, p, ino) <==> nr <= 6
  {
    hide Inv, Live, FreeZones, Formatted, TakeInode, AllowedRun, After, CreateFile, SecondInode, Stray;
    NoStray(p, es);
    CreateKeepsExactly(After(Formatted(p), p, es), p, mode, nr);
  }

  lemma NoStray(p: Vol, es: seq<Change>)
    requires Fits(p) && AllowedRun(Formatted(p), p, es)
    ensures var v := After(Formatted(p), p, es); Sound(v, p) && forall z: u16 :: !Stray(v, p, 0, BLANK, z)
  {
    hide Inv, Live, ZSet, InData, Formatted, AllowedRun, After, Reaches;
    FormattedIsSound(p);
    RunKeepsFiles(Formatted(p), p, es);
    assert forall z: u16 :: !Stray(Formatted(p), p, 0, BLANK, z);
  }

  /** A device with one zone for each bitmap and six zones of inodes. */
  const SMALL: Vol := Vol(0, Super(1, 1, 10))

  /** While only inode 1 is in use, the next one is 2. */
  lemma NextIsTwo(v: View, p: Vol, me: nat, r: INode)
    requires Inv(v, p, me, r) && Live(v, p, 1) && !Live(v, p, 2) && 2 <= Inodes(p)
    ensures TakeInode(v, p.dev, p.sb).1 == 2
  {
    hide MapBit, SetMapBit, LeastClear, Marked, Disjoint, AllFormed;
    assert MapBit(v, p.dev, 2, 0) && MapBit(v, p.dev, 2, 1) && !MapBit(v, p.dev, 2, 2);
    FirstClear(v, p.dev, 2, BITS_PER_ZONE * p.sb.imapBlk, 2);
  }

  /** On a device without files it is 1. */
  lemma NextIsOne(p: Vol)
    requires Fits(p) && 1 <= Inodes(p)
    ensures TakeInode(Formatted(p), p.dev, p.sb).1 == 1
  {
    hide MapBit, SetMapBit, LeastClear, Formatted;
    PresetInode(p, 0);
    PresetInode(p, 1);
    FirstClear(Formatted(p), p.dev, 2, BITS_PER_ZONE * p.sb.imapBlk, 1);
  }

  /** A file without zones takes none. */
  lemma SameFree(v: View, w: View, p: Vol, s: INode)
    requires Fits(p) && Margins(v, p) && Margins(w, p) && Fresh(v, w, p, s, 0) && Lead(Chain(w, p, s)) == 0
    ensures FreeZones(w, p) == FreeZones(v, p)
  {
    hide MapBit, ClearBits, Chain, Lead;
    var st := p.sb.imapBlk + 2;
    forall i: nat | i < BITS_PER_ZONE * p.sb.zmapBlk
      ensures MapBit(w, p.dev, st, i) == MapBit(v, p.dev, st, i)
    {
      assert i != 0 ==> InData(p, i - 1 + p.sb.fst) && ZSet(w, p, i - 1 + p.sb.fst) == ZSet(v, p, i - 1 + p.sb.fst);
    }
    ClearBitsSame(v, w, p.dev, st, BITS_PER_ZONE * p.sb.zmapBlk);
  }

  /** The device with one empty file. */
  ghost function OneFile(p: Vol, mode: u16): View
    requires Fits(p)
  {
    CreateFile(Formatted(p), p, mode, 0).0
  }

  lemma OneFileIs(p: Vol, mode: u16)
    requires Fits(p) && 2 <= Inodes(p)
    ensures var v := OneFile(p, mode); var r := Record(v, p, 1);
      && AllowedRun(Formatted(p), p, [Create(mode, 0)]) && After(Formatted(p), p, [Create(mode, 0)]) == v
      && Inv(v, p, 1, r) && Live(v, p, 1) && Allocated(v, p, r) == 0
      && FreeZones(v, p) == FreeZones(Formatted(p), p) && TakeInode(v, p.dev, p.sb).1 == 2
  {
    hide Inv, Live, Record, Chain, Lead, FreeZones, Formatted, TakeInode, Allocated, Margins, Fresh, Stray, SameFile;
    var v0 := Formatted(p);
    NextIsOne(p);
    FormattedIsSound(p);
    CreateKeeps(v0, p, mode, 0);
    hide CreateFile;
    var (v, ino, s) := CreateFile(v0, p, mode, 0);
    FirstNumber(v0, p, mode, 0);
    assert Live(v, p, 2) == Live(v0, p, 2);
    NextIsTwo(v, p, 1, s);
    InvFits(v0, p, 0, BLANK);
    InvFits(v, p, 1, s);
    SameFree(v0, v, p, s);
    FormedOf(v, p, 1, s);
    AllocatedIsDataCount(v, p, s);
    OneStep(v0, p, Create(mode, 0));
  }

  lemma FirstNumber(v: View, p: Vol, mode: u16, nr: nat)
    requires TakeInode(v, p.dev, p.sb).1 > 0
    ensures CreateFile(v, p, mode, nr).1 == TakeInode(v, p.dev, p.sb).1
  {
    hide TakeInode, Preallocate, Synced;
  }

  lemma OneStep(v: View, p: Vol, e: Change)
    requires Allowed(v, p, e)
    ensures AllowedRun(v, p, [e]) && After(v, p, [e]) == Apply(v, p, e)
  {
    hide Allowed, Apply;
    assert [e][1..] == [];
  }

  lemma TwoIsBelow(p: Vol)
    requires Fits(p) && 2 <= Inodes(p)
    ensures !InData(p, 2)
  {
  }

  /** The first file that is made, and then written to beyond its seventh zone, is not in order. */
  lemma WriteCanFail(p: Vol, mode: u16, bytes: seq<Byte>)
    requires Fits(p) && 2 <= Inodes(p) && 7 * ZONE_SIZE < |bytes| <= 518 * ZONE_SIZE
    requires ZonesFor(|bytes|) <= FreeZones(Formatted(p), p)
    ensures AllowedRun(Formatted(p), p, [Create(mode, 0)])
    ensures var v := After(Formatted(p), p, [Create(mode, 0)]); var (w, s) := WriteFile(v, p, 1, Record(v, p, 1), bytes, 0);
      Sound(v, p) && Live(v, p, 1) && !(Inv(w, p, 1, s) && Live(w, p, 1) && Record(w, p, 1) == s)
  {
    hide Inv, Live, Record, FreeZones, Formatted, TakeInode, Allocated, OneFile, AllowedRun, After, WriteFile, Extend, ZSet, InData,
         Stray, Fits;
    TwoIsBelow(p);
    OneFileIs(p, mode);
    var v := OneFile(p, mode);
    ZonesForFit(|bytes|, 7);
    RunWriteExactly(p, [Create(mode, 0)], 1, bytes, 0);
    SameInMemory(v, p, 1, Record(v, p, 1), 0, BLANK);
  }

  /** The first file is not in order if it is made with seven zones or more. */
  lemma CreateCanFail(p: Vol, mode: u16, nr: nat)
    requires Fits(p) && 2 <= Inodes(p) && 7 <= nr <= FreeZones(Formatted(p), p)
    ensures var (w, ino, s) := CreateFile(Formatted(p), p, mode, nr); Sound(Formatted(p), p) && ino == 1 && !(Inv(w, p, 1, s) && Live(w, p, 1))
  {
    hide Inv, Live, FreeZones, Formatted, TakeInode, CreateFile, SecondInode, Stray;
    NextIsOne(p);
    FormattedIsSound(p);
    SecondIsTwo(p, mode);
    FirstNumber(Formatted(p), p, mode, nr);
    assert After(Formatted(p), p, []) == Formatted(p);
    RunCreateExactly(p, [], mode, nr);
  }

  lemma SecondIsTwo(p: Vol, mode: u16)
    requires Fits(p) && 2 <= Inodes(p) && 7 <= FreeZones(Formatted(p), p)
    ensures SecondInode(Formatted(p), p, mode) == 2
  {
    hide Inv, Live, FreeZones, Formatted, SetMapBit, LeastClear, Chain, Lead, Formed, Balance, Kept, Fresh, Grow, Stray, SameFile, Margins;
    var v := Formatted(p);
    NextIsOne(p);
    FormattedIsSound(p);
    InvFits(v, p, 0, BLANK);
    TakeInodeShape(v, p);
    NewInode(v, p, 1, mode);
    var u := TakeInode(v, p.dev, p.sb).0;
    hide TakeInode;
    NewChain(u, p, mode);
    GrowKeeps(u, p, 1, NewRecord(mode), 0, 7);
    var (w, s) := Grow(u, p, NewRecord(mode), 0, 7);
    assert Live(w, p, 2) == Live(u, p, 2) == Live(v, p, 2);
    NextIsTwo(w, p, 1, s);
  }

  /** All bits but the first are clear. */
  lemma {:induction false} ClearButFirst(v: View, d: nat, st: nat, n: nat)
    requires 1 <= n && MapBit(v, d, st, 0) && forall i :: 1 <= i < n ==> !MapBit(v, d, st, i)
    ensures ClearBits(v, d, st, n) == n - 1
  {
    hide MapBit;
    if n == 1 {
      assert ClearBits(v, d, st, 0) == 0;
    } else {
      ClearButFirst(v, d, st, n - 1);
    }
  }

  /** The small device has room for all this. */
  lemma SmallWillDo()
    ensures Fits(SMALL) && Inodes(SMALL) == 192 && FreeZones(Formatted(SMALL), SMALL) == 8191
  {
    hide MapBit, Formatted, ClearBits;
    PresetZone(SMALL, 9);
    forall i | 1 <= i < 8192
      ensures !MapBit(Formatted(SMALL), 0, 3, i)
    {
      PresetZone(SMALL, i + 9);
    }
    ClearButFirst(Formatted(SMALL), 0, 3, 8192);
  }

  /** One byte too many, written to the first file of the small device, and a file made with seven zones on it. */
  lemma SmallCanFail(mode: u16)
    ensures var v := After(Formatted(SMALL), SMALL, [Create(mode, 0)]);
            var (w, s) := WriteFile(v, SMALL, 1, Record(v, SMALL, 1), seq(7169, i => ZERO), 0);
      Sound(v, SMALL) && Live(v, SMALL, 1) && !(Inv(w, SMALL, 1, s) && Live(w, SMALL, 1) && Record(w, SMALL, 1) == s)
    ensures var (w, ino, s) := CreateFile(Formatted(SMALL), SMALL, mode, 7);
      Sound(Formatted(SMALL), SMALL) && ino == 1 && !(Inv(w, SMALL, 1, s) && Live(w, SMALL, 1))
  {
    hide Inv, Live, Record, FreeZones, Formatted, AllowedRun, After, WriteFile, CreateFile;
    SmallWillDo();
    WriteCanFail(SMALL, mode, seq(7169, i => ZERO));
    CreateCanFail(SMALL, mode, 7);
  }
}
