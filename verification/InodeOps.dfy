/** The operations on one open inode, through the cache. */
module InodeOps {
  import opened Bits
  import opened Cache
  import opened FsLayout
  import opened FsBitmap
  import opened FsFiles
  import opened FsWrite
  import opened FsBytes
  import opened FsUpdate
  import opened FsTrunc
  import opened FsCreate

  /** `inode_t` without its list links: the record, and which inode of which device it is. */
  class Inode {
    var mode: u16
    var uid: u16
    var size: u32
    var mtime: u32
    var gid: u8
    var nlinks: u8
    var zone: Zones
    var ino: u32
    var openCnt: u16
    var dev: u16

    constructor ()
      ensures ino == 0 && openCnt == 0 && dev == 0
    {
      mode, uid, size, mtime, gid, nlinks, zone := 0, 0, 0, 0, 0, 0, [0, 0, 0, 0, 0, 0, 0, 0, 0];
      ino, openCnt, dev := 0, 0, 0;
    }

    /** The part that is on the device, too. */
    function Rec(): INode
      reads this
    {
      INode(mode, uid, size, mtime, gid, nlinks, zone)
    }

    /** Takes over another inode's record. */
    method Claim(r: INode, d: u16, i: u32)
      modifies this
      ensures Rec() == r && dev == d && ino == i && openCnt == 1
    {
      Load(r);
      dev, ino, openCnt := d, i, 1;
    }

    method Load(r: INode)
      modifies this
      ensures Rec() == r && ino == old(ino) && openCnt == old(openCnt) && dev == old(dev)
    {
      mode, uid, size, mtime, gid, nlinks, zone := r.mode, r.uid, r.size, r.mtime, r.gid, r.nlinks, r.zone;
    }
  }

  /** The device that an inode is on. */
  function VolOf(inode: Inode, sb: Super): Vol
    reads inode
  {
    Vol(inode.dev, sb)
  }

  /** The search for the end of the indirect block ends: there is a zero in it. */
  ghost predicate Ends(v: View, p: Vol, r: INode) {
    r.zone[7] != 0 ==> Lead(Entries(v, p, r.zone[7])) < 512
  }

  /** Two bytes of a zone, as a number. */
  method ReadEntry(cache: ZoneCache, d: u16, zone: u16, j: nat) returns (x: u16)
    requires cache.Valid() && j < 512
    modifies cache.slots, cache.data, cache.disk
    ensures cache.Valid() && cache.View() == old(cache.View()) && x == Entry(cache.View()[Loc(d, zone)], j)
  {
    hide ZoneCache.View, ZoneCache.Valid, UnLE16;
    var buf := cache.Read(Loc(d, zone), 2, 2 * j);
    x := UnLE16(buf);
  }

  method WriteEntry(cache: ZoneCache, d: u16, zone: nat, j: nat, x: u16)
    requires cache.Valid() && zone < 0x800_0000 && j < 512
    modifies cache.slots, cache.data, cache.disk
    ensures cache.Valid() && cache.View() == Written(old(cache.View()), Loc(d, zone), 2 * j, LE(x, 2))
  {
    hide ZoneCache.View, ZoneCache.Valid, LE, Written;
    var buf := LE(x, 2);
    assert buf[..2] == buf;
    var n := cache.Write(Loc(d, zone), 2, 2 * j, buf);
  }

  /** `inode_get_allocated_size` */
  method GetAllocatedSize(cache: ZoneCache, sb: Super, inode: Inode) returns (n: nat)
    requires cache.Valid() && Ends(cache.View(), VolOf(inode, sb), inode.Rec())
    modifies cache.slots, cache.data, cache.disk
    ensures cache.Valid() && cache.View() == old(cache.View())
    ensures n == ZONE_SIZE * Allocated(cache.View(), VolOf(inode, sb), inode.Rec())
  {
    hide ZoneCache.View, ZoneCache.Valid, Entry, Lead;
    ghost var v, p := cache.View(), VolOf(inode, sb);
    if inode.zone[7] != 0 {
      ghost var e := Entries(v, p, inode.zone[7]);
      var nr := 7;
      var x := ReadEntry(cache, inode.dev, inode.zone[7], 0);
      EntryIs(v, p, inode.zone[7], 0);
      while x != 0
        invariant 7 <= nr < 519 && cache.Valid() && cache.View() == v && x == e[nr - 7]
        invariant forall j :: 0 <= j < nr - 7 ==> e[j] != 0
        decreases 519 - nr
      {
        nr := nr + 1;
        NotYet(e, nr - 7);
        x := ReadEntry(cache, inode.dev, inode.zone[7], nr - 7);
        EntryIs(v, p, inode.zone[7], nr - 7);
      }
      LeadIs(e, nr - 7);
      return nr * ZONE_SIZE;
    }
    var nr := 0;
    while inode.zone[nr] != 0
      invariant nr <= 7 && forall j :: 0 <= j < nr ==> inode.zone[j] != 0
      decreases 7 - nr
    {
      nr := nr + 1;
    }
    LeadIs(inode.zone[..8], nr);
    return nr * ZONE_SIZE;
  }

  lemma NotYet(e: seq<u16>, k: nat)
    requires |e| == 512 && Lead(e) < 512 && k <= 512 && forall j :: 0 <= j < k ==> e[j] != 0
    ensures k < 512
  {
  }

  /** The number of the zone with the data at `offset`. */
  method FindZone(cache: ZoneCache, sb: Super, inode: Inode, offset: u32) returns (x: u16)
    requires cache.Valid()
    modifies cache.slots, cache.data, cache.disk
    ensures cache.Valid() && cache.View() == old(cache.View())
    ensures x == Lookup(cache.View(), VolOf(inode, sb), inode.Rec(), offset / ZONE_SIZE)
  {
    hide ZoneCache.View, ZoneCache.Valid, Entry;
    var nr := offset / ZONE_SIZE;
    if nr < 7 {
      return inode.zone[nr];
    }
    if nr - 7 < 512 {
      x := ReadEntry(cache, inode.dev, inode.zone[7], nr - 7);
      return;
    }
    return 0;
  }

  /** `inode_read`: what it puts into the buffer. */
  method InodeRead(cache: ZoneCache, sb: Super, inode: Inode, size: nat, offset: nat) returns (bytes: seq<Byte>)
    requires cache.Valid() && offset + size < 0x1_0000_0000
    modifies cache.slots, cache.data, cache.disk
    ensures cache.Valid() && cache.View() == old(cache.View())
    ensures bytes == FsBytes.Load(cache.View(), VolOf(inode, sb), inode.Rec(), size, offset)
  {
    hide ZoneCache.View, ZoneCache.Valid, Lookup, Part, FsBytes.Load;
    ghost var v, p, r := cache.View(), VolOf(inode, sb), inode.Rec();
    bytes := [];
    var rest: nat, at: nat := size, offset;
    while rest > 0
      invariant cache.Valid() && cache.View() == v && at + rest == offset + size
      invariant bytes + FsBytes.Load(v, p, r, rest, at) == FsBytes.Load(v, p, r, size, offset)
      decreases rest
    {
      LoadStep(v, p, r, rest, at, bytes);
      if at >= inode.size {
        return;
      }
      var nr := FindZone(cache, sb, inode, at);
      var k := at % ZONE_SIZE;
      var t := if ZONE_SIZE - k > rest then rest else ZONE_SIZE - k;
      var piece := cache.Read(Loc(inode.dev, nr), t, k);
      bytes := bytes + piece;
      rest, at := rest - t, at + t;
    }
    LoadStep(v, p, r, 0, at, bytes);
  }

  /** What has been read so far, and the rest. */
  lemma LoadStep(v: View, p: Vol, r: INode, size: nat, offset: nat, done: seq<Byte>)
    ensures size == 0 || offset >= r.size ==> done + FsBytes.Load(v, p, r, size, offset) == done
    ensures size > 0 && offset < r.size ==>
      var k := offset % ZONE_SIZE; var t := if ZONE_SIZE - k > size then size else ZONE_SIZE - k;
      && 0 < t <= size && offset / ZONE_SIZE * ZONE_SIZE + k == offset
      && done + FsBytes.Load(v, p, r, size, offset)
      == done + Part(v[Loc(p.dev, Lookup(v, p, r, offset / ZONE_SIZE))], t, k) + FsBytes.Load(v, p, r, size - t, offset + t)
  {
    hide Part, Lookup;
  }

  /** `inode_sync` */
  method InodeSync(cache: ZoneCache, sb: Super, inode: Inode)
    requires cache.Valid() && Fits(VolOf(inode, sb)) && 1 <= inode.ino <= Inodes(VolOf(inode, sb))
    modifies cache.slots, cache.data, cache.disk
    ensures cache.Valid() && cache.View() == Synced(old(cache.View()), VolOf(inode, sb), inode.ino, inode.Rec())
  {
    hide ZoneCache.View, ZoneCache.Valid, Encode, Written;
    var zone := 2 + sb.imapBlk + sb.zmapBlk + (inode.ino - 1) / INODES_PER_ZONE;
    var bias := (inode.ino - 1) % INODES_PER_ZONE * INODE_SIZE;
    var buf := Encode(inode.Rec());
    assert buf[..32] == buf;
    var n := cache.Write(Loc(inode.dev, zone), INODE_SIZE, bias, buf);
  }

  // ---------------------------------------------------------------- writing

  /** One zone more, where the record or the indirect block has no zone yet. */
  method AddZone(cache: ZoneCache, sb: Super, inode: Inode, i: nat)
    requires cache.Valid() && Laid(sb) && i < 519
    modifies cache.slots, cache.data, cache.disk, inode`zone
    ensures cache.Valid()
    ensures (cache.View(), inode.Rec()) == GrowOne(old(cache.View()), VolOf(inode, sb), old(inode.Rec()), i)
  {
    hide ZoneCache.View, ZoneCache.Valid, TakeZone, Written, LE;
    if i < 7 {
      var n := AllocZmapBit(cache, inode.dev, sb);
      inode.zone := inode.zone[i := AsU16(n)];
    } else {
      var n := AllocZmapBit(cache, inode.dev, sb);
      WriteEntry(cache, inode.dev, inode.zone[7], i - 7, AsU16(n));
    }
  }

  /** The part of `inode_write` that allocates. */
  method MakeRoom(cache: ZoneCache, sb: Super, inode: Inode, end: u32)
    requires cache.Valid() && Laid(sb) && Ends(cache.View(), VolOf(inode, sb), inode.Rec()) && end <= ZONE_SIZE * 519
    modifies cache.slots, cache.data, cache.disk, inode`zone
    ensures cache.Valid()
    ensures (cache.View(), inode.Rec()) == Extend(old(cache.View()), VolOf(inode, sb), old(inode.Rec()), end)
  {
    hide ZoneCache.View, ZoneCache.Valid, TakeInode, GrowOne, Allocated, Lead, Grow;
    ghost var v, r := cache.View(), inode.Rec();
    var maxSize := GetAllocatedSize(cache, sb, inode);
    if end > maxSize {
      var cur, total := maxSize / ZONE_SIZE, ZonesFor(end);
      if cur <= 7 && total > 7 {
        var n := AllocImapBit(cache, inode.dev, sb);
        inode.zone := inode.zone[7 := AsU16(n)];
      }
      AddZones(cache, sb, inode, cur, total);
    }
  }

  /** The loop of it. */
  method AddZones(cache: ZoneCache, sb: Super, inode: Inode, cur: nat, total: nat)
    requires cache.Valid() && Laid(sb) && total <= 519
    modifies cache.slots, cache.data, cache.disk, inode`zone
    ensures cache.Valid()
    ensures (cache.View(), inode.Rec()) == Grow(old(cache.View()), VolOf(inode, sb), old(inode.Rec()), cur, total)
  {
    hide ZoneCache.View, ZoneCache.Valid, GrowOne;
    ghost var v, p, r := cache.View(), VolOf(inode, sb), inode.Rec();
    var i: nat := cur;
    while i < total
      invariant cache.Valid() && inode.Rec() == r.(zone := inode.zone)
      invariant Grow(cache.View(), p, inode.Rec(), i, total) == Grow(v, p, r, cur, total)
    {
      AddZone(cache, sb, inode, i);
      i := i + 1;
    }
  }

  lemma StoreStep(v: View, p: Vol, r: INode, buffer: seq<Byte>, done: nat, at: nat)
    requires done < |buffer|
    ensures var t := Piece(|buffer| - done, at);
      && buffer[done..][..t] == buffer[done..done + t]
      && Store(v, p, r, buffer[done..], at)
      == Store(Written(v, Loc(p.dev, Lookup(v, p, r, at / ZONE_SIZE)), at % ZONE_SIZE, buffer[done..done + t]),
               p, r, buffer[done + t..], at + t)
  {
    hide Written, Lookup;
    var t := Piece(|buffer| - done, at);
    assert buffer[done..][..t] == buffer[done..done + t];
    assert buffer[done..][t..] == buffer[done + t..];
  }

  /** The data loop of `inode_write`. */
  method StoreBytes(cache: ZoneCache, sb: Super, inode: Inode, buffer: seq<Byte>, offset: nat) returns (result: nat)
    requires cache.Valid() && offset + |buffer| < 0x1_0000_0000
    modifies cache.slots, cache.data, cache.disk
    ensures cache.Valid() && result == |buffer|
    ensures cache.View() == Store(old(cache.View()), VolOf(inode, sb), inode.Rec(), buffer, offset)
  {
    hide ZoneCache.View, ZoneCache.Valid, Lookup, Written, Store;
    ghost var v, p, r := cache.View(), VolOf(inode, sb), inode.Rec();
    var rest: nat, at: nat := |buffer|, offset;
    result := 0;
    assert buffer[0..] == buffer;
    while rest > 0
      invariant cache.Valid() && result + rest == |buffer| && at == offset + result
      invariant Store(cache.View(), p, r, buffer[result..], at) == Store(v, p, r, buffer, offset)
      decreases rest
    {
      var nr := FindZone(cache, sb, inode, at);
      var k := at % ZONE_SIZE;
      var t := if ZONE_SIZE - k > rest then rest else ZONE_SIZE - k;
      StoreStep(cache.View(), p, r, buffer, result, at);
      var piece := buffer[result..result + t];
      assert piece[..t] == piece;
      var n := cache.Write(Loc(inode.dev, nr), t, k, piece);
      rest, at, result := rest - t, at + t, result + t;
    }
    StoreNothing(cache.View(), p, r, buffer[result..], at);
  }

  lemma StoreNothing(v: View, p: Vol, r: INode, bytes: seq<Byte>, at: nat)
    requires bytes == []
    ensures Store(v, p, r, bytes, at) == v
  {
  }

  /** `inode_write` */
  method InodeWrite(cache: ZoneCache, sb: Super, inode: Inode, buffer: seq<Byte>, size: nat, offset: nat) returns (result: nat)
    requires cache.Valid() && Fits(VolOf(inode, sb)) && 1 <= inode.ino <= Inodes(VolOf(inode, sb))
    requires Ends(cache.View(), VolOf(inode, sb), inode.Rec()) && size <= |buffer| && offset + size <= ZONE_SIZE * 519
    modifies cache.slots, cache.data, cache.disk, inode`zone, inode`size
    ensures cache.Valid() && result == size
    ensures (cache.View(), inode.Rec())
         == WriteFile(old(cache.View()), VolOf(inode, sb), inode.ino, old(inode.Rec()), buffer[..size], offset)
  {
    hide ZoneCache.View, ZoneCache.Valid, Extend, Store, Synced, Ends;
    MakeRoom(cache, sb, inode, offset + size);
    if inode.size < offset + size {
      inode.size := offset + size;
      InodeSync(cache, sb, inode);
    }
    result := StoreBytes(cache, sb, inode, buffer[..size], offset);
  }

  // ---------------------------------------------------------------- truncating

  /** What the rest of the truncation still has to do is known from the zones that are left. */
  method FreeEntries(cache: ZoneCache, sb: Super, inode: Inode, from: nat, total: nat)
    requires cache.Valid() && Fits(VolOf(inode, sb)) && Margins(cache.View(), VolOf(inode, sb)) && 7 <= from
    requires from < total ==> total <= 519 && InData(VolOf(inode, sb), inode.zone[7])
    requires forall j :: from - 7 <= j < total - 7 && j < 512 ==>
      InData(VolOf(inode, sb), Entries(cache.View(), VolOf(inode, sb), inode.zone[7])[j])
    modifies cache.slots, cache.data, cache.disk
    ensures cache.Valid()
    ensures cache.View() == DropEntries(old(cache.View()), VolOf(inode, sb), inode.Rec(), from, total)
  {
    hide ZoneCache.View, ZoneCache.Valid, Margins, InData, DropEntry, Entries, Fits;
    ghost var v, p, r := cache.View(), VolOf(inode, sb), inode.Rec();
    ghost var e := Entries(v, p, inode.zone[7]);
    var i := from;
    while i < total
      invariant from <= i && (i < total ==> total <= 519 && InData(p, inode.zone[7])) && cache.Valid() && Margins(cache.View(), p)
      invariant DropEntries(cache.View(), p, r, i, total) == DropEntries(v, p, r, from, total)
      invariant i < total ==> forall j :: i - 7 <= j < 512 ==> Entries(cache.View(), p, inode.zone[7])[j] == e[j]
    {
      FreeEntry(cache, sb, inode, i - 7);
      i := i + 1;
    }
  }

  /** Frees the zone of one entry and zeroes the entry. */
  method FreeEntry(cache: ZoneCache, sb: Super, inode: Inode, j: nat)
    requires cache.Valid() && Fits(VolOf(inode, sb)) && Margins(cache.View(), VolOf(inode, sb)) && j < 512
    requires InData(VolOf(inode, sb), inode.zone[7])
    requires InData(VolOf(inode, sb), Entries(cache.View(), VolOf(inode, sb), inode.zone[7])[j])
    modifies cache.slots, cache.data, cache.disk
    ensures cache.Valid() && Margins(cache.View(), VolOf(inode, sb))
    ensures cache.View() == DropEntry(old(cache.View()), VolOf(inode, sb), inode.zone[7], j)
    ensures Entries(cache.View(), VolOf(inode, sb), inode.zone[7])
         == old(Entries(cache.View(), VolOf(inode, sb), inode.zone[7]))[j := 0]
  {
    hide ZoneCache.View, ZoneCache.Valid, Margins, GiveZone, Entries, Written, LE, Entry, Touches, Freed;
    ghost var v, p := cache.View(), VolOf(inode, sb);
    EntryIs(v, p, inode.zone[7], j);
    DropEntryIs(v, p, inode.zone[7], j);
    var x := ReadEntry(cache, inode.dev, inode.zone[7], j);
    FreeZmapBit(cache, inode.dev, sb, x);
    WriteEntry(cache, inode.dev, inode.zone[7], j, 0);
  }

  method FreeDirect(cache: ZoneCache, sb: Super, inode: Inode, from: nat, total: nat)
    requires cache.Valid() && Fits(VolOf(inode, sb))
    requires forall j :: from <= j < Upto8(total) ==> InData(VolOf(inode, sb), inode.zone[j])
    modifies cache.slots, cache.data, cache.disk, inode`zone
    ensures cache.Valid()
    ensures (cache.View(), inode.Rec()) == DropDirect(old(cache.View()), VolOf(inode, sb), old(inode.Rec()), from, total)
  {
    hide ZoneCache.View, ZoneCache.Valid, GiveZone, DropDirect;
    ghost var v, p, r := cache.View(), VolOf(inode, sb), inode.Rec();
    var i: nat := from;
    while i < total && i <= 7
      invariant from <= i && cache.Valid()
      invariant DropDirect(cache.View(), p, inode.Rec(), i, total) == DropDirect(v, p, r, from, total)
      invariant forall j :: i <= j < 9 ==> inode.zone[j] == r.zone[j]
      decreases total - i
    {
      DropDirectStep(cache.View(), p, inode.Rec(), i, total);
      FreeZmapBit(cache, inode.dev, sb, inode.zone[i]);
      inode.zone := inode.zone[i := 0];
      i := i + 1;
    }
    DropDirectStep(cache.View(), p, inode.Rec(), i, total);
  }

  lemma DropDirectStep(v: View, p: Vol, r: INode, i: nat, total: nat)
    ensures DropDirect(v, p, r, i, total)
         == if i >= total || i > 7 then (v, r) else DropDirect(Give(v, p, r.zone[i]), p, r.(zone := r.zone[i := 0]), i + 1, total)
  {
    hide Give;
  }

  /** What a caller keeps: the file's zones are its own and properly laid out. */
  ghost predicate Proper(v: View, p: Vol, r: INode) {
    Fits(p) && Margins(v, p) && Own(v, p, r) && Formed(v, p, r)
  }

  /** `inode_trunc`; its result is not set by the code on every path, and left out. */
  method InodeTrunc(cache: ZoneCache, sb: Super, inode: Inode, offset: u32)
    requires cache.Valid() && 1 <= inode.ino <= Inodes(VolOf(inode, sb)) && Proper(cache.View(), VolOf(inode, sb), inode.Rec())
    modifies cache.slots, cache.data, cache.disk, inode`zone, inode`size
    ensures cache.Valid()
    ensures (cache.View(), inode.Rec()) == TruncFile(old(cache.View()), VolOf(inode, sb), inode.ino, old(inode.Rec()), offset)
  {
    hide ZoneCache.View, ZoneCache.Valid, Shorten, Synced, Own, Formed, Margins, Allocated, InData, Entries, Ends, Fits;
    ghost var v, p, r := cache.View(), VolOf(inode, sb), inode.Rec();
    LastsToDrop(v, p, r);
    var maxSize := GetAllocatedSize(cache, sb, inode);
    if offset >= maxSize {
      return;
    }
    CutZones(cache, sb, inode, (offset + ZONE_SIZE - 1) / ZONE_SIZE, maxSize / ZONE_SIZE);
    inode.size := offset;
    InodeSync(cache, sb, inode);
  }

  /** Both loops of it. */
  method CutZones(cache: ZoneCache, sb: Super, inode: Inode, nr: nat, total: nat)
    requires cache.Valid() && Fits(VolOf(inode, sb)) && Margins(cache.View(), VolOf(inode, sb)) && total <= 518
    requires total > 7 ==> InData(VolOf(inode, sb), inode.zone[7])
    requires forall j :: 0 <= j < total - 7 && j < 512 ==>
      InData(VolOf(inode, sb), Entries(cache.View(), VolOf(inode, sb), inode.zone[7])[j])
    requires forall j :: 0 <= j < Upto8(total) ==> InData(VolOf(inode, sb), inode.zone[j])
    modifies cache.slots, cache.data, cache.disk, inode`zone
    ensures cache.Valid()
    ensures (cache.View(), inode.Rec()) == Shorten(old(cache.View()), VolOf(inode, sb), old(inode.Rec()), nr, total)
  {
    hide ZoneCache.View, ZoneCache.Valid, DropEntries, DropDirect, Margins, InData, Entries, Fits;
    var st := if nr > 7 then nr else 7;
    FreeEntries(cache, sb, inode, st, total);
    FreeDirect(cache, sb, inode, nr, total);
  }

  /** Every zone a truncation may come to is one of the file's. */
  lemma LastsToDrop(v: View, p: Vol, r: INode)
    requires Own(v, p, r) && Formed(v, p, r)
    ensures Ends(v, p, r) && Allocated(v, p, r) <= 518
    ensures Allocated(v, p, r) > 7 ==> InData(p, r.zone[7])
    ensures forall j :: 0 <= j < Allocated(v, p, r) - 7 && j < 512 ==> InData(p, Entries(v, p, r.zone[7])[j])
    ensures forall j :: 0 <= j < Upto8(Allocated(v, p, r)) ==> InData(p, r.zone[j])
  {
    hide ZSet, Entries, InData;
    AllocatedIsDataCount(v, p, r);
    var c := Chain(v, p, r);
    assert forall q :: 0 <= q < 8 ==> c[q] == r.zone[q];
    if r.zone[7] != 0 {
      ChainParts(v, p, r);
    }
  }

  // ---------------------------------------------------------------- removing

  lemma GiveAllFirst(v: View, p: Vol, zs: seq<u16>, k: nat, n: nat)
    requires k < n <= |zs|
    ensures GiveAll(v, p, zs[k..n]) == GiveAll(Give(v, p, zs[k]), p, zs[k + 1..n])
  {
    hide Give;
    assert zs[k..n][0] == zs[k] && zs[k..n][1..] == zs[k + 1..n];
  }

  lemma {:induction false} GiveAllBoth(v: View, p: Vol, a: seq<u16>, b: seq<u16>)
    ensures GiveAll(v, p, a + b) == GiveAll(GiveAll(v, p, a), p, b)
  {
    hide Give;
    if a == [] {
      assert a + b == b;
    } else {
      GiveAllBoth(Give(v, p, a[0]), p, a[1..], b);
      assert (a + b)[1..] == a[1..] + b;
    }
  }

  /** Frees the zones of all entries, which stay as they are. */
  method FreeAllEntries(cache: ZoneCache, sb: Super, inode: Inode)
    requires cache.Valid() && Fits(VolOf(inode, sb)) && InData(VolOf(inode, sb), inode.zone[7])
    requires var e := Entries(cache.View(), VolOf(inode, sb), inode.zone[7]);
      Lead(e) < 512 && forall j :: 0 <= j < Lead(e) ==> InData(VolOf(inode, sb), e[j])
    modifies cache.slots, cache.data, cache.disk
    ensures cache.Valid()
    ensures var e := old(Entries(cache.View(), VolOf(inode, sb), inode.zone[7]));
      cache.View() == GiveAll(old(cache.View()), VolOf(inode, sb), e[..Lead(e)])
  {
    hide ZoneCache.View, ZoneCache.Valid, GiveZone, Entries, Entry, Freed, Margins, Touches, GiveAll, Lead;
    ghost var v, p := cache.View(), VolOf(inode, sb);
    ghost var e := Entries(v, p, inode.zone[7]);
    ghost var n := Lead(e);
    var x := ReadEntry(cache, inode.dev, inode.zone[7], 0);
    EntryIs(v, p, inode.zone[7], 0);
    var t := 1;
    while x != 0
      invariant 1 <= t <= n + 1 && cache.Valid() && x == e[t - 1]
      invariant Entries(cache.View(), p, inode.zone[7]) == e
      invariant GiveAll(cache.View(), p, e[t - 1..n]) == GiveAll(v, p, e[..n])
      decreases n + 1 - t
    {
      assert t - 1 != n;
      GiveAllFirst(cache.View(), p, e, t - 1, n);
      GiveShape(cache.View(), p, x);
      EntriesKept(cache.View(), Give(cache.View(), p, x), p, inode.zone[7]);
      FreeZmapBit(cache, inode.dev, sb, x);
      x := ReadEntry(cache, inode.dev, inode.zone[7], t);
      EntryIs(cache.View(), p, inode.zone[7], t);
      t := t + 1;
    }
    assert e[t - 1..n] == [];
    GiveNothing(cache.View(), p);
  }

  lemma GiveNothing(v: View, p: Vol)
    ensures GiveAll(v, p, []) == v
  {
  }

  /** Frees the direct zones. */
  method FreeAllDirect(cache: ZoneCache, sb: Super, inode: Inode)
    requires cache.Valid() && Fits(VolOf(inode, sb)) && inode.zone[7] == 0
    requires forall j :: 0 <= j < Lead(inode.zone) ==> InData(VolOf(inode, sb), inode.zone[j])
    modifies cache.slots, cache.data, cache.disk
    ensures cache.Valid()
    ensures cache.View() == GiveAll(old(cache.View()), VolOf(inode, sb), inode.zone[..Lead(inode.zone)])
  {
    hide ZoneCache.View, ZoneCache.Valid, GiveZone, GiveAll, Lead;
    ghost var v, p := cache.View(), VolOf(inode, sb);
    ghost var n := Lead(inode.zone);
    var nr := 0;
    while inode.zone[nr] != 0
      invariant nr <= n && n <= 7 && cache.Valid()
      invariant GiveAll(cache.View(), p, inode.zone[nr..n]) == GiveAll(v, p, inode.zone[..n])
      decreases n - nr
    {
      assert nr != n;
      GiveAllFirst(cache.View(), p, inode.zone, nr, n);
      FreeZmapBit(cache, inode.dev, sb, inode.zone[nr]);
      nr := nr + 1;
    }
    assert inode.zone[nr..n] == [];
    GiveNothing(cache.View(), p);
  }

  /** `inode_remove` */
  method InodeRemove(cache: ZoneCache, sb: Super, inode: Inode)
    requires cache.Valid() && 1 <= inode.ino <= Inodes(VolOf(inode, sb)) && Proper(cache.View(), VolOf(inode, sb), inode.Rec())
    modifies cache.slots, cache.data, cache.disk, inode`zone
    ensures cache.Valid() && inode.zone == old(inode.zone)[7 := 0]
    ensures cache.View() == RemoveFile(old(cache.View()), VolOf(inode, sb), inode.ino, old(inode.Rec()))
  {
    hide ZoneCache.View, ZoneCache.Valid, GiveAll, GiveInode, InData, Entries, Lead, Margins, Own, Formed, Doomed, Ends;
    ToRemove(cache.View(), VolOf(inode, sb), inode.Rec());
    FreeFileZones(cache, sb, inode);
    FreeImapBit(cache, inode.dev, inode.ino);
  }

  /** All but the last step of it. */
  method FreeFileZones(cache: ZoneCache, sb: Super, inode: Inode)
    requires cache.Valid() && Fits(VolOf(inode, sb))
    requires inode.zone[7] != 0 ==>
      var e := Entries(cache.View(), VolOf(inode, sb), inode.zone[7]);
      && InData(VolOf(inode, sb), inode.zone[7]) && sb.fst <= inode.zone[7]
      && Lead(e) < 512 && forall j :: 0 <= j < Lead(e) ==> InData(VolOf(inode, sb), e[j])
    requires var z := inode.zone[7 := 0]; forall j :: 0 <= j < Lead(z) ==> InData(VolOf(inode, sb), z[j])
    modifies cache.slots, cache.data, cache.disk, inode`zone
    ensures cache.Valid() && inode.zone == old(inode.zone)[7 := 0]
    ensures cache.View() == GiveAll(old(cache.View()), VolOf(inode, sb), Doomed(old(cache.View()), VolOf(inode, sb), old(inode.Rec())))
  {
    hide ZoneCache.View, ZoneCache.Valid, GiveZone, GiveAll, InData, Entries, Lead, Doomed;
    DoomedInTurn(cache.View(), VolOf(inode, sb), inode.Rec());
    if inode.zone[7] != 0 {
      FreeAllEntries(cache, sb, inode);
      FreeZmapBit(cache, inode.dev, sb, inode.zone[7]);
      inode.zone := inode.zone[7 := 0];
    }
    assert inode.zone == old(inode.zone)[7 := 0];
    FreeAllDirect(cache, sb, inode);
  }

  /** Freeing first the entries' zones, then the indirect block, then the direct zones. */
  lemma DoomedInTurn(v: View, p: Vol, r: INode)
    ensures var e, z := Entries(v, p, r.zone[7]), r.zone[7 := 0];
      GiveAll(v, p, Doomed(v, p, r))
      == GiveAll(if r.zone[7] == 0 then v else Give(GiveAll(v, p, e[..Lead(e)]), p, r.zone[7]), p, z[..Lead(z)])
  {
    hide GiveAll, Give, Entries, Lead;
    var e, z := Entries(v, p, r.zone[7]), r.zone[7 := 0];
    if r.zone[7] != 0 {
      GiveAllBoth(v, p, e[..Lead(e)], [r.zone[7]]);
      GiveOne(GiveAll(v, p, e[..Lead(e)]), p, r.zone[7]);
      GiveAllBoth(v, p, e[..Lead(e)] + [r.zone[7]], z[..Lead(z)]);
    } else {
      assert [] + z[..Lead(z)] == z[..Lead(z)];
    }
  }

  lemma GiveOne(v: View, p: Vol, z: u16)
    ensures GiveAll(v, p, [z]) == Give(v, p, z)
  {
    hide Give;
    assert [z][1..] == [];
  }

  /** All that is removed is in the data area. */
  lemma ToRemove(v: View, p: Vol, r: INode)
    requires Own(v, p, r) && Formed(v, p, r)
    ensures r.zone[7] != 0 ==>
      var e := Entries(v, p, r.zone[7]);
      && InData(p, r.zone[7]) && p.sb.fst <= r.zone[7]
      && Lead(e) < 512 && forall j :: 0 <= j < Lead(e) ==> InData(p, e[j])
    ensures var z := r.zone[7 := 0]; forall j :: 0 <= j < Lead(z) ==> InData(p, z[j])
  {
    hide Own, Formed, Entries;
    RemovedDirect(v, p, r);
    if r.zone[7] != 0 {
      RemovedEntries(v, p, r);
    }
  }

  lemma RemovedEntries(v: View, p: Vol, r: INode)
    requires Own(v, p, r) && Formed(v, p, r) && r.zone[7] != 0
    ensures var e := Entries(v, p, r.zone[7]);
      InData(p, r.zone[7]) && p.sb.fst <= r.zone[7] && Lead(e) < 512 && forall j :: 0 <= j < Lead(e) ==> InData(p, e[j])
  {
    hide ZSet, Entries, Chain;
    ChainParts(v, p, r);
    var c, e := Chain(v, p, r), Entries(v, p, r.zone[7]);
    assert c[7] == r.zone[7] && c[519] == e[511];
    assert forall j :: 0 <= j < Lead(e) ==> c[8 + j] == e[j] && e[j] != 0;
  }

  lemma RemovedDirect(v: View, p: Vol, r: INode)
    requires Own(v, p, r)
    ensures var z := r.zone[7 := 0]; forall j :: 0 <= j < Lead(z) ==> InData(p, z[j])
  {
    hide ZSet, Entries;
    var c, z := Chain(v, p, r), r.zone[7 := 0];
    assert z[7] == 0;
    assert forall j :: 0 <= j < Lead(z) ==> j < 7 && c[j] == z[j];
  }

  // ---------------------------------------------------------------- creating

  /** `inode_create`: returns the number of the new inode, or -1. */
  method InodeCreate(cache: ZoneCache, sb: Super, d: u16, mode: u16, nr: u16) returns (ino: int)
    requires cache.Valid() && Fits(Vol(d, sb)) && nr <= 519
    requires Margins(cache.View(), Vol(d, sb))
    modifies cache.slots, cache.data, cache.disk
    ensures cache.Valid()
    ensures cache.View() == CreateFile(old(cache.View()), Vol(d, sb), mode, nr).0
    ensures ino == CreateFile(old(cache.View()), Vol(d, sb), mode, nr).1
  {
    hide ZoneCache.View, ZoneCache.Valid, TakeInode, Preallocate, Synced, Margins, SetMapBit, Live;
    ghost var v, p := cache.View(), Vol(d, sb);
    ino := AllocImapBit(cache, d, sb);
    if ino <= 0 {
      return -1;
    }
    TakeInodeShape(v, p);
    StillInodesOnly(v, p);
    var inode := new Inode();
    inode.Load(NewRecord(mode));
    inode.dev, inode.ino := d, ino;
    NewZones(cache, sb, inode, nr);
    InodeSync(cache, sb, inode);
  }

  lemma StillInodesOnly(v: View, p: Vol)
    requires Fits(p) && Margins(v, p) && TakeInode(v, p.dev, p.sb).1 > 0
    ensures InodesOnly(TakeInode(v, p.dev, p.sb).0, p)
  {
    TakeInodeShape(v, p);
    hide MapBit, SetMapBit, LeastClear, ZSet, InData, Live, Record, FreeZones;
    InodeBit(v, p, TakeInode(v, p.dev, p.sb).1, true, 1);
  }

  /** No number beyond the last inode can be taken. */
  ghost predicate InodesOnly(v: View, p: Vol) {
    forall k: nat :: Inodes(p) < k < BITS_PER_ZONE * p.sb.imapBlk ==> MapBit(v, p.dev, 2, k)
  }

  lemma InodeBound(v: View, p: Vol)
    requires Fits(p) && InodesOnly(v, p)
    ensures TakeInode(v, p.dev, p.sb).1 <= Inodes(p) < 0x800_0000
  {
    hide MapBit, SetMapBit, LeastClear;
  }

  lemma {:induction false} DirectTouches(v: View, p: Vol, r: INode, i: nat, total: nat)
    requires Fits(p) && total <= 7
    ensures Touches(v, Grow(v, p, r, i, total).0, p, {})
    decreases total - i
  {
    hide MapBit, SetMapBit, LeastClear, Touches;
    if i >= total {
      NothingFreed(v, p, {});
    } else {
      var (w, s) := GrowOne(v, p, r, i);
      TakeTouches(v, p);
      DirectTouches(w, p, s, i + 1, total);
      TouchesTransitive(v, w, Grow(v, p, r, i, total).0, p, {});
    }
  }

  lemma TakeTouches(v: View, p: Vol)
    requires Fits(p)
    ensures Touches(v, TakeZone(v, p.dev, p.sb).0, p, {})
  {
    hide MapBit, SetMapBit, LeastClear;
    var k := LeastClear(v, p.dev, p.sb.imapBlk + 2, BITS_PER_ZONE * p.sb.zmapBlk, 0);
    if k != -1 {
      SetMapBitOnly(v, p.dev, p.sb.imapBlk + 2, k, true);
      assert k / 8 / 1024 < p.sb.zmapBlk;
    }
  }

  lemma DirectInodesOnly(v: View, p: Vol, r: INode, total: nat)
    requires Fits(p) && total <= 7 && InodesOnly(v, p)
    ensures InodesOnly(Grow(v, p, r, 0, total).0, p)
  {
    hide MapBit, Grow, Touches;
    DirectTouches(v, p, r, 0, total);
    forall k: nat | Inodes(p) < k < BITS_PER_ZONE * p.sb.imapBlk
      ensures MapBit(Grow(v, p, r, 0, total).0, p.dev, 2, k)
    {
      TouchesNoRecord(v, Grow(v, p, r, 0, total).0, p, {}, k);
    }
  }

  /** The space a new file is given. */
  method NewZones(cache: ZoneCache, sb: Super, inode: Inode, nr: u16)
    requires cache.Valid() && Fits(VolOf(inode, sb)) && InodesOnly(cache.View(), VolOf(inode, sb)) && nr <= 519
    modifies cache.slots, cache.data, cache.disk, inode`zone
    ensures cache.Valid()
    ensures (cache.View(), inode.Rec()) == Preallocate(old(cache.View()), VolOf(inode, sb), old(inode.Rec()), nr)
  {
    hide ZoneCache.View, ZoneCache.Valid, Grow, PreIndirect, InodesOnly;
    DirectInodesOnly(cache.View(), VolOf(inode, sb), inode.Rec(), 7);
    AddZones(cache, sb, inode, 0, if nr < 7 then nr else 7);
    if nr >= 7 {
      NewIndirectZones(cache, sb, inode, nr);
    }
  }

  /** A new file's indirect block: its number, and the entries, are numbers of inodes. */
  method NewIndirectZones(cache: ZoneCache, sb: Super, inode: Inode, nr: nat)
    requires cache.Valid() && Fits(VolOf(inode, sb)) && InodesOnly(cache.View(), VolOf(inode, sb)) && 7 <= nr <= 519
    modifies cache.slots, cache.data, cache.disk, inode`zone
    ensures cache.Valid()
    ensures (cache.View(), inode.Rec()) == PreIndirect(old(cache.View()), VolOf(inode, sb), old(inode.Rec()), nr)
  {
    hide ZoneCache.View, ZoneCache.Valid, TakeInode, Written, LE, InodesOnly;
    InodeBound(cache.View(), VolOf(inode, sb));
    var n := AllocImapBit(cache, inode.dev, sb);
    inode.zone := inode.zone[7 := AsU16(n)];
    ghost var v, p, z := cache.View(), VolOf(inode, sb), inode.zone;
    var i: nat := 7;
    while i < nr
      invariant 7 <= i <= nr && cache.Valid() && inode.zone == z
      invariant FillIndirect(cache.View(), p, AsZone(n), i, nr) == FillIndirect(v, p, AsZone(n), 7, nr)
    {
      var m := AllocImapBit(cache, inode.dev, sb);
      WriteEntry(cache, inode.dev, AsZone(n), i - 7, AsU16(m));
      i := i + 1;
    }
  }
}
