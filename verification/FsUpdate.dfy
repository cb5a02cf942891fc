/** `inode_write` on one file: space, size and record, bytes; and what it does to the rest of the device. */
module FsUpdate {
  import opened Bits
  import opened Cache
  import opened FsLayout
  import opened FsBitmap
  import opened FsFiles
  import opened FsWrite
  import opened FsBytes

  function ZonesFor(end: nat): nat {
    (end + ZONE_SIZE - 1) / ZONE_SIZE
  }

  /** Makes room: where an indirect block is needed and there is none, its number comes from the inode bitmap. */
  ghost function Extend(v: View, p: Vol, r: INode, end: nat): (View, INode) {
    var cur, total := Allocated(v, p, r), ZonesFor(end);
    if end <= ZONE_SIZE * cur then (v, r)
    else if cur <= 7 && total > 7 then
      var (u, n) := TakeInode(v, p.dev, p.sb);
      Grow(u, p, r.(zone := r.zone[7 := AsU16(n)]), cur, total)
    else Grow(v, p, r, cur, total)
  }

  ghost function Resize(v: View, p: Vol, me: nat, r: INode, end: u32): (View, INode) {
    if r.size < end then (Synced(v, p, me, r.(size := end)), r.(size := end)) else (v, r)
  }

  /** The device and the inode after `inode_write`. */
  ghost function WriteFile(v: View, p: Vol, me: nat, r: INode, bytes: seq<Byte>, offset: nat): (View, INode)
    requires offset + |bytes| < 0x1_0000_0000
  {
    var (v1, r1) := Extend(v, p, r, offset + |bytes|);
    var (v2, r2) := Resize(v1, p, me, r1, offset + |bytes|);
    (Store(v2, p, r2, bytes, offset), r2)
  }

  /**
   * There is room for a file up to `end`: either it has it, or it can grow without a new indirect block, leaving
   * that one free entry, and enough zones are free.
   */
  ghost predicate CanHold(v: View, p: Vol, r: INode, end: nat) {
    var cur, total := Allocated(v, p, r), ZonesFor(end);
    end <= ZONE_SIZE * cur || ((cur > 7 || total <= 7) && total <= 518 && total - cur <= FreeZones(v, p))
  }

  /** How many bytes a file has space for. */
  ghost function Room(v: View, p: Vol, r: INode): nat {
    ZONE_SIZE * DataCount(Lead(Chain(v, p, r)))
  }

  lemma ZonesForFit(end: nat, cur: nat)
    ensures end <= ZONE_SIZE * ZonesFor(end) < end + ZONE_SIZE
    ensures end <= ZONE_SIZE * cur <==> ZonesFor(end) <= cur
  {
  }

  lemma KeptBytes(v: View, w: View, p: Vol, r: INode, s: INode, x: nat)
    requires Kept(v, w, p, r, s) && x < Room(v, p, r)
    ensures x < Room(w, p, s) && FileByte(w, p, s, x) == FileByte(v, p, r, x)
  {
    hide Chain, Lookup, Lead;
    var n := x / ZONE_SIZE;
    var c, d := Chain(v, p, r), Chain(w, p, s);
    LookupIsChain(v, p, r, n);
    LookupIsChain(w, p, s, n);
    assert d[Place(n)] == d[..Lead(c)][Place(n)] == c[Place(n)];
    assert SameBlock(v, w, p, c[Place(n)]);
  }

  lemma ExtendKeeps(v: View, p: Vol, me: nat, r: INode, end: nat)
    requires Inv(v, p, me, r) && Live(v, p, me) && CanHold(v, p, r, end)
    ensures var (w, s) := Extend(v, p, r, end);
      && Inv(w, p, me, s) && Live(w, p, me) && SameOthers(v, w, p, me) && Balance(v, w, p, r, s)
      && Kept(v, w, p, r, s) && Fresh(v, w, p, s, Lead(Chain(v, p, r))) && end <= Room(w, p, s)
      && ((w, s) == (v, r) || r.size < end)
      && DataCount(Lead(Chain(w, p, s))) == if end <= Room(v, p, r) then DataCount(Lead(Chain(v, p, r))) else ZonesFor(end)
  {
    hide Inv, Live, Chain, SameOthers, Balance, Fresh, Kept, FreeZones, Formed, Lead, Allocated;
    FormedOf(v, p, me, r);
    AllocatedIsDataCount(v, p, r);
    ZonesForFit(end, Allocated(v, p, r));
    SizeFits(v, p, r);
    if end <= ZONE_SIZE * Allocated(v, p, r) {
      GrowNothing(v, p, me, r);
    } else {
      GrowKeeps(v, p, me, r, Allocated(v, p, r), ZonesFor(end));
    }
  }

  lemma SizeFits(v: View, p: Vol, r: INode)
    requires Formed(v, p, r)
    ensures r.size <= Room(v, p, r) && Lead(Chain(v, p, r)) != 8
  {
  }

  /** The size in memory concerns nothing but this file's form. */
  lemma SizeKeeps(v: View, p: Vol, me: nat, r: INode, end: u32)
    requires Inv(v, p, me, r) && Live(v, p, me) && end <= Room(v, p, r)
    ensures Inv(v, p, me, r.(size := end)) && Chain(v, p, r.(size := end)) == Chain(v, p, r)
  {
    hide Live, ZSet, Margins, Lead, Chain;
    var s := r.(size := end);
    SizeChain(v, p, r, end);
    FormedOf(v, p, me, r);
    FormedSame(v, v, p, r, s);
    assert forall i, q, z: u16 :: Reaches(v, p, me, s, i, q, z) == Reaches(v, p, me, r, i, q, z);
    forall i | Live(v, p, i)
      ensures Formed(v, p, RecOf(v, p, me, s, i))
    {
      assert i != me ==> RecOf(v, p, me, s, i) == RecOf(v, p, me, r, i);
    }
  }

  lemma SizeChain(v: View, p: Vol, r: INode, end: u32)
    ensures Chain(v, p, r.(size := end)) == Chain(v, p, r)
  {
  }

  lemma ResizeKeeps(v: View, p: Vol, me: nat, r: INode, end: u32)
    requires Inv(v, p, me, r) && Live(v, p, me) && end <= Room(v, p, r) && (Record(v, p, me) == r || r.size < end)
    ensures var (w, s) := Resize(v, p, me, r, end);
      && Inv(w, p, me, s) && Live(w, p, me) && SameOthers(v, w, p, me) && Balance(v, w, p, r, s)
      && Record(w, p, me) == s && s == r.(size := if r.size < end then end else r.size)
      && Chain(w, p, s) == Chain(v, p, r) && DataSame(v, w, p)
  {
    hide Live, ZSet, Margins, Lead, Chain, Synced, Record, SameOthers, Inv, Balance, Foreign;
    if r.size < end {
      var s := r.(size := end);
      SizeKeeps(v, p, me, r, end);
      SyncInv(v, p, me, s);
      SizeBalance(v, Synced(v, p, me, s), p, r, end);
    } else {
      FormedOf(v, p, me, r);
      GrowNothing(v, p, me, r);
    }
  }

  /** Data zones are as they were. */
  ghost predicate DataSame(v: View, w: View, p: Vol) {
    forall l: Loc :: p.sb.fst <= l.zone ==> w[l] == v[l]
  }

  lemma SizeBalance(v: View, w: View, p: Vol, r: INode, end: u32)
    requires Balance(v, w, p, r.(size := end), r.(size := end))
    ensures Balance(v, w, p, r, r.(size := end))
  {
    hide Chain, ZSet;
    SizeChain(v, p, r, end);
    var s := r.(size := end);
    forall z: u16 | z != 0 && InData(p, z)
      ensures Foreign(w, p, s, z) == Foreign(v, p, r, z)
    {
      assert Foreign(w, p, s, z) == Foreign(v, p, s, z);
    }
  }

  /** Writing the record back keeps all files in order. */
  lemma SyncInv(v: View, p: Vol, me: nat, r: INode)
    requires Inv(v, p, me, r) && Live(v, p, me)
    ensures var w := Synced(v, p, me, r);
      && Inv(w, p, me, r) && Live(w, p, me) && SameOthers(v, w, p, me) && Balance(v, w, p, r, r)
      && Record(w, p, me) == r && Chain(w, p, r) == Chain(v, p, r) && DataSame(v, w, p)
      && forall z: nat :: InData(p, z) ==> ZSet(w, p, z) == ZSet(v, p, z)
  {
    hide ZSet, Margins, Lead, Chain, Synced, Record, SameOthers, Balance;
    var w := Synced(v, p, me, r);
    SyncKeeps(v, p, me, r);
    SyncBalance(v, p, me, r);
    FormedOf(v, p, me, r);
    FormedSame(v, w, p, r, r);
    KeepsSound(v, w, p, me, r, r);
    KeepsFormed(v, w, p, me, r, r);
    SyncOnly(v, p, me, r, me);
    forall z: nat
      ensures InData(p, z) ==> ZSet(w, p, z) == ZSet(v, p, z)
    {
      SyncOnly(v, p, me, r, z);
    }
  }

  /** A write within its limits keeps all files in order and writes the record back; no other file is concerned. */
  lemma WriteKeeps(v: View, p: Vol, me: nat, r: INode, bytes: seq<Byte>, offset: nat)
    requires Inv(v, p, me, r) && Live(v, p, me) && Record(v, p, me) == r
    requires offset + |bytes| < 0x1_0000_0000 && CanHold(v, p, r, offset + |bytes|)
    ensures var (w, s) := WriteFile(v, p, me, r, bytes, offset); var end := offset + |bytes|;
      && Inv(w, p, me, s) && Live(w, p, me) && Record(w, p, me) == s
      && SameOthers(v, w, p, me) && Balance(v, w, p, r, s)
      && s == r.(zone := s.zone, size := if r.size < end then end else r.size)
  {
    hide Live, Chain, Record, SameOthers, Inv, Balance, Extend, Resize, Store, Kept, Fresh, CanHold, Lead;
    var end := offset + |bytes|;
    var (v1, r1) := Extend(v, p, r, end);
    ExtendKeeps(v, p, me, r, end);
    KeptRecord(v, v1, p, r, r1);
    var (v2, r2) := Resize(v1, p, me, r1, end);
    ResizeKeeps(v1, p, me, r1, end);
    var w := Store(v2, p, r2, bytes, offset);
    StoreKeeps(v2, p, me, r2, bytes, offset);
    SameOthersTransitive(v, v1, v2, p, me);
    SameOthersTransitive(v, v2, w, p, me);
    BalanceTransitive(v, v1, v2, p, r, r1, r2);
    BalanceTransitive(v, v2, w, p, r, r2, r2);
  }

  lemma KeptRecord(v: View, w: View, p: Vol, r: INode, s: INode)
    requires Kept(v, w, p, r, s)
    ensures s == r.(zone := s.zone)
  {
  }

  /** The zones of the file are those it had and, behind them, as many as are missing, all of which were free. */
  lemma WriteZones(v: View, p: Vol, me: nat, r: INode, bytes: seq<Byte>, offset: nat)
    requires Inv(v, p, me, r) && Live(v, p, me) && Record(v, p, me) == r
    requires offset + |bytes| < 0x1_0000_0000 && CanHold(v, p, r, offset + |bytes|)
    ensures var (w, s) := WriteFile(v, p, me, r, bytes, offset); var n := Lead(Chain(v, p, r));
      && n <= Lead(Chain(w, p, s)) && Chain(w, p, s)[..n] == Chain(v, p, r)[..n]
      && Fresh(v, w, p, s, n)
      && DataCount(Lead(Chain(w, p, s))) == if DataCount(n) < ZonesFor(offset + |bytes|) then ZonesFor(offset + |bytes|) else DataCount(n)
  {
    hide Live, Chain, Record, SameOthers, Inv, Balance, Extend, Resize, Store, CanHold, Lead, ZSet;
    var end := offset + |bytes|;
    var (v1, r1) := Extend(v, p, r, end);
    ExtendKeeps(v, p, me, r, end);
    ZonesForFit(end, DataCount(Lead(Chain(v, p, r))));
    var (v2, r2) := Resize(v1, p, me, r1, end);
    ResizeKeeps(v1, p, me, r1, end);
    ResizeBits(v1, p, me, r1, end);
    StoreKeeps(v2, p, me, r2, bytes, offset);
  }

  lemma ResizeBits(v: View, p: Vol, me: nat, r: INode, end: u32)
    requires Inv(v, p, me, r) && Live(v, p, me) && end <= Room(v, p, r)
    ensures forall z: nat :: InData(p, z) ==> ZSet(Resize(v, p, me, r, end).0, p, z) == ZSet(v, p, z)
  {
    hide Live, ZSet, Margins, Lead, Chain, Synced, Record, SameOthers, Balance, Foreign;
    if r.size < end {
      SizeKeeps(v, p, me, r, end);
      SyncInv(v, p, me, r.(size := end));
    }
  }

  /** The bytes written are where they belong, and every other byte of the file is as before. */
  lemma WriteBytes(v: View, p: Vol, me: nat, r: INode, bytes: seq<Byte>, offset: nat, x: nat)
    requires Inv(v, p, me, r) && Live(v, p, me) && Record(v, p, me) == r
    requires offset + |bytes| < 0x1_0000_0000 && CanHold(v, p, r, offset + |bytes|)
    ensures var (w, s) := WriteFile(v, p, me, r, bytes, offset);
      && (offset <= x < offset + |bytes| ==> x < Room(w, p, s) && FileByte(w, p, s, x) == bytes[x - offset])
      && (x < Room(v, p, r) && !(offset <= x < offset + |bytes|) ==> FileByte(w, p, s, x) == FileByte(v, p, r, x))
  {
    hide Live, Record, SameOthers, Inv, Balance, Extend, Resize, Store, Kept, Fresh, CanHold, Chain, Own, FileByte;
    var end := offset + |bytes|;
    var (v1, r1) := Extend(v, p, r, end);
    ExtendKeeps(v, p, me, r, end);
    KeptRecord(v, v1, p, r, r1);
    var (v2, r2) := Resize(v1, p, me, r1, end);
    ResizeKeeps(v1, p, me, r1, end);
    InvOwn(v2, p, me, r2);
    StoreKeeps(v2, p, me, r2, bytes, offset);
    if x < Room(v, p, r) {
      KeptBytes(v, v1, p, r, r1, x);
      ResizeBytes(v1, p, me, r1, end, x);
    }
    if x < Room(v2, p, r2) {
      StoreIs(v2, p, r2, bytes, offset, x);
    }
  }

  lemma ResizeBytes(v: View, p: Vol, me: nat, r: INode, end: u32, x: nat)
    requires Inv(v, p, me, r) && Live(v, p, me) && end <= Room(v, p, r) && (Record(v, p, me) == r || r.size < end)
    requires x < Room(v, p, r)
    ensures var (w, s) := Resize(v, p, me, r, end); x < Room(w, p, s) && FileByte(w, p, s, x) == FileByte(v, p, r, x)
  {
    hide Live, Record, SameOthers, Inv, Balance, Resize, Chain, Lookup, Lead;
    var (w, s) := Resize(v, p, me, r, end);
    ResizeKeeps(v, p, me, r, end);
    InvOwn(v, p, me, r);
    LookupIsChain(v, p, r, x / ZONE_SIZE);
    LookupIsChain(w, p, s, x / ZONE_SIZE);
  }

  /** What was written is what is read. */
  lemma WriteThenRead(v: View, p: Vol, me: nat, r: INode, bytes: seq<Byte>, offset: nat)
    requires Inv(v, p, me, r) && Live(v, p, me) && Record(v, p, me) == r
    requires offset + |bytes| < 0x1_0000_0000 && CanHold(v, p, r, offset + |bytes|)
    ensures var (w, s) := WriteFile(v, p, me, r, bytes, offset); Load(w, p, s, |bytes|, offset) == bytes
  {
    hide Live, Record, Inv, CanHold, Load, WriteFile, FileByte, SameOthers, Balance, ReadCount, Room;
    var (w, s) := WriteFile(v, p, me, r, bytes, offset);
    WriteKeeps(v, p, me, r, bytes, offset);
    LoadIs(w, p, s, |bytes|, offset);
    WholeCount(s.size, |bytes|, offset);
    forall x | 0 <= x < |bytes|
      ensures FileByte(w, p, s, offset + x) == bytes[x]
    {
      WriteBytes(v, p, me, r, bytes, offset, offset + x);
    }
    SameBytes(Load(w, p, s, |bytes|, offset), bytes);
  }

  lemma SameBytes(a: seq<Byte>, b: seq<Byte>)
    requires |a| == |b| && forall x :: 0 <= x < |a| ==> a[x] == b[x]
    ensures a == b
  {
  }

  lemma WholeCount(fileSize: nat, size: nat, offset: nat)
    requires offset + size <= fileSize
    ensures ReadCount(fileSize, size, offset) == size
  {
  }

  /** A file that a step leaves alone reads as before. */
  lemma SameFileReads(v: View, w: View, p: Vol, i: nat, size: nat, offset: nat)
    requires SameFile(v, w, p, i) && Formed(v, p, Record(v, p, i))
    ensures Load(w, p, Record(w, p, i), size, offset) == Load(v, p, Record(v, p, i), size, offset)
  {
    hide Load, FileByte, Record, Formed, SameFile, ReadCount, Lead, Chain;
    var r := Record(v, p, i);
    SameFileRecord(v, w, p, i);
    LoadIs(v, p, r, size, offset);
    LoadIs(w, p, r, size, offset);
    SizeFits(v, p, r);
    ReadFits(r.size, size, offset, DataCount(Lead(Chain(v, p, r))));
    var s, t := Load(v, p, r, size, offset), Load(w, p, r, size, offset);
    forall x | 0 <= x < |s|
      ensures s[x] == t[x]
    {
      SameFileByte(v, w, p, i, offset + x);
    }
  }

  lemma SameFileRecord(v: View, w: View, p: Vol, i: nat)
    requires SameFile(v, w, p, i)
    ensures Record(w, p, i) == Record(v, p, i)
  {
  }

  lemma ReadFits(fileSize: nat, size: nat, offset: nat, zones: nat)
    requires fileSize <= ZONE_SIZE * zones
    ensures ReadCount(fileSize, size, offset) > 0 ==> offset + ReadCount(fileSize, size, offset) <= ZONE_SIZE * zones
  {
  }

  lemma SameFileByte(v: View, w: View, p: Vol, i: nat, x: nat)
    requires SameFile(v, w, p, i) && x < Room(v, p, Record(v, p, i))
    ensures FileByte(w, p, Record(v, p, i), x) == FileByte(v, p, Record(v, p, i), x)
  {
    hide Record, Chain, Lookup;
    var r := Record(v, p, i);
    LookupIsChain(v, p, r, x / ZONE_SIZE);
    LookupIsChain(w, p, r, x / ZONE_SIZE);
    assert SameBlock(v, w, p, Chain(v, p, r)[Place(x / ZONE_SIZE)]);
  }
}
