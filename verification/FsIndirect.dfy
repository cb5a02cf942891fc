/**
 * Where files go wrong: the number of a new indirect block comes from the inode bitmap. Whichever zone has that
 * number, the file is not in order afterwards.
 */
module FsIndirect {
  import opened Bits
  import opened Cache
  import opened FsLayout
  import opened FsBitmap
  import opened FsFiles
  import opened FsWrite
  import opened FsBytes
  import opened FsUpdate
  import opened FsTrunc
  import opened FsCreate

  // ---------------------------------------------------------------- what an indirect block must not be

  /** It must be in the data area, marked, and none of the file's direct zones. */
  lemma BadIndirect(v: View, p: Vol, me: nat, r: INode)
    requires r.zone[7] != 0
    requires !InData(p, r.zone[7]) || !ZSet(v, p, r.zone[7]) || exists q :: 0 <= q < 7 && r.zone[q] == r.zone[7]
    ensures !(Inv(v, p, me, r) && Live(v, p, me))
  {
    hide Inv, Live, Chain, ZSet, InData;
    if Inv(v, p, me, r) && Live(v, p, me) {
      InvOwn(v, p, me, r);
      ChainHead(v, p, r);
      assert false;
    }
  }

  /** It must not be reached by another file. */
  lemma SharedIndirect(v: View, p: Vol, me: nat, r: INode, i: nat, q: nat)
    requires r.zone[7] != 0 && i != me && Reaches(v, p, me, r, i, q, r.zone[7])
    ensures !(Inv(v, p, me, r) && Live(v, p, me))
  {
    hide Live, Chain, Marked, Margins, AllFormed;
    ChainHead(v, p, r);
    assert Live(v, p, me) ==> Reaches(v, p, me, r, me, 7, r.zone[7]);
  }

  /** A file of more than seven zones must have one. */
  lemma NoIndirect(v: View, p: Vol, me: nat, r: INode)
    requires r.zone[7] == 0 && r.size > 7 * ZONE_SIZE
    ensures !(Inv(v, p, me, r) && Live(v, p, me))
  {
    hide Inv, Live;
    ChainHead(v, p, r);
    assert Lead(Chain(v, p, r)) <= 7;
    if Inv(v, p, me, r) && Live(v, p, me) {
      FormedOf(v, p, me, r);
      assert false;
    }
  }

  /** Another file is as before, but for the contents of zone `z`. */
  ghost predicate AsideFrom(v: View, w: View, p: Vol, i: nat, z: nat) {
    && Live(w, p, i) && Record(w, p, i) == Record(v, p, i)
    && (Record(v, p, i).zone[7] != 0 && Record(v, p, i).zone[7] != z ==> SameBlock(v, w, p, Record(v, p, i).zone[7]))
  }

  /** It still reaches this zone. */
  lemma StillReaches(v: View, w: View, p: Vol, me: nat, r: INode, s: INode, i: nat, q: nat, z: u16) returns (t: nat)
    requires Reaches(v, p, me, r, i, q, z) && i != me && AsideFrom(v, w, p, i, z)
    ensures Reaches(w, p, me, s, i, t, z)
  {
    hide Live, Record, Chain;
    var x := Record(v, p, i);
    if x.zone[7] == z {
      t := 7;
      ChainHead(w, p, x);
    } else {
      t := q;
      ChainSame(v, w, p, x);
    }
  }

  lemma AsideTransitive(u: View, v: View, w: View, p: Vol, i: nat, z: nat)
    requires AsideFrom(u, v, p, i, z) && AsideFrom(v, w, p, i, z)
    ensures AsideFrom(u, w, p, i, z)
  {
    hide Live, Record;
  }

  // ---------------------------------------------------------------- taking an inode

  /** More inodes are in use, and only their bitmap and zone `z` differ. */
  ghost predicate MoreInodes(v: View, w: View, p: Vol, z: nat) {
    && (forall i :: Live(v, p, i) ==> Live(w, p, i))
    && (forall l: Loc :: w[l] != v[l] ==> l.dev == p.dev && (l.zone < 2 + p.sb.imapBlk || l.zone == z))
  }

  lemma TakeInodeMore(v: View, p: Vol, z: nat)
    requires Fits(p)
    ensures MoreInodes(v, TakeInode(v, p.dev, p.sb).0, p, z)
  {
    hide SetMapBit, MapBit, LeastClear;
    var k := LeastClear(v, p.dev, 2, BITS_PER_ZONE * p.sb.imapBlk, 0);
    if k != -1 {
      SetMapBitOnly(v, p.dev, 2, k, true);
      assert k / 8 / 1024 < p.sb.imapBlk;
    }
  }

  lemma MoreTransitive(u: View, v: View, w: View, p: Vol, z: nat)
    requires MoreInodes(u, v, p, z) && MoreInodes(v, w, p, z)
    ensures MoreInodes(u, w, p, z)
  {
    hide Live;
    forall l: Loc | w[l] != u[l]
      ensures l.dev == p.dev && (l.zone < 2 + p.sb.imapBlk || l.zone == z)
    {
      if w[l] == v[l] {
        assert v[l] != u[l];
      }
    }
  }

  /** Other files are concerned only if they reach `z`; which zones are marked is as before. */
  lemma MoreAside(v: View, w: View, p: Vol, z: nat, i: nat)
    requires Fits(p) && MoreInodes(v, w, p, z) && p.sb.fst <= z
    ensures Live(v, p, i) && (Record(v, p, i).zone[7] != 0 ==> InData(p, Record(v, p, i).zone[7])) ==> AsideFrom(v, w, p, i, z)
    ensures InData(p, i) ==> ZSet(w, p, i) == ZSet(v, p, i)
  {
    hide Live, Decode, MapBit;
    if InData(p, i) {
      assert (i - p.sb.fst + 1) / 8 / 1024 < p.sb.zmapBlk;
      BitElsewhere(v, w, p.dev, p.sb.imapBlk + 2, i - p.sb.fst + 1);
    }
    if Live(v, p, i) {
      LiveBound(v, p, i);
      assert w[RecLoc(p, i)] == v[RecLoc(p, i)];
    }
  }

  // ---------------------------------------------------------------- growing with such an indirect block

  /** A zone that was free, and is not any more. */
  ghost predicate Taken(v: View, w: View, p: Vol, x: nat) {
    x != 0 && InData(p, x) && !ZSet(v, p, x) && ZSet(w, p, x)
  }

  ghost predicate StillMarked(v: View, w: View, p: Vol) {
    forall x: nat :: InData(p, x) && ZSet(v, p, x) ==> ZSet(w, p, x)
  }

  lemma GrowOneAnyway(v: View, p: Vol, r: INode, i: nat)
    requires Fits(p) && Margins(v, p) && FreeZones(v, p) >= 1 && InData(p, r.zone[7]) && i < 518
    ensures var (w, s) := GrowOne(v, p, r, i);
      && Taken(v, w, p, Lookup(w, p, s, i)) && s == r.(zone := s.zone) && s.zone[7] == r.zone[7]
      && (forall m: nat :: m != i ==> Lookup(w, p, s, m) == Lookup(v, p, r, m))
      && Touches(v, w, p, {r.zone[7] as nat}) && Margins(w, p) && FreeZones(w, p) == FreeZones(v, p) - 1 && StillMarked(v, w, p)
  {
    hide TakeZone, FreeZones, Margins, ZSet, LE, Entry;
    var (u, n) := TakeZone(v, p.dev, p.sb);
    TakeZoneShape(v, p);
    var (w, s) := GrowOne(v, p, r, i);
    var l := Loc(p.dev, r.zone[7]);
    assert u[l] == v[l];
    if i >= 7 {
      AboveKeepsBits(u, w, p);
      forall j: nat | j < 512
        ensures Entry(w[l], j) == if j == i - 7 then n else Entry(v[l], j)
      {
        EntryOfSplice(v[l], i - 7, n, j);
      }
    }
  }

  /** Whatever the indirect block is, the zones that are looked up afterwards are those from before, and some that were free. */
  lemma {:induction false} GrowAnyway(v: View, p: Vol, r: INode, i: nat, total: nat)
    requires Fits(p) && Margins(v, p) && InData(p, r.zone[7]) && i <= total <= 518 && total - i <= FreeZones(v, p)
    ensures var (w, s) := Grow(v, p, r, i, total);
      && s == r.(zone := s.zone) && s.zone[7] == r.zone[7]
      && (forall m: nat :: m < i ==> Lookup(w, p, s, m) == Lookup(v, p, r, m))
      && (forall m: nat :: i <= m < total ==> Taken(v, w, p, Lookup(w, p, s, m)))
      && Touches(v, w, p, {r.zone[7] as nat}) && StillMarked(v, w, p)
    decreases total - i
  {
    hide GrowOne, FreeZones, Margins, ZSet, Lookup, Touches, InData, Fits;
    if i == total {
      NothingFreed(v, p, {r.zone[7] as nat});
    } else {
      var (u, q) := GrowOne(v, p, r, i);
      GrowOneAnyway(v, p, r, i);
      GrowAnyway(u, p, q, i + 1, total);
      var (w, s) := Grow(u, p, q, i + 1, total);
      TouchesTransitive(v, u, w, p, {r.zone[7] as nat});
      forall m: nat | i <= m < total
        ensures Taken(v, w, p, Lookup(w, p, s, m))
      {
        if m > i {
          assert Taken(u, w, p, Lookup(w, p, s, m));
        }
      }
    }
  }

  lemma {:induction false} GrowKeepsRecord(v: View, p: Vol, r: INode, i: nat, total: nat)
    ensures var s := Grow(v, p, r, i, total).1;
      s == r.(zone := s.zone) && s.zone[7] == r.zone[7] && forall q :: 0 <= q < i && q < 7 ==> s.zone[q] == r.zone[q]
    decreases total - i
  {
    hide TakeZone, LE;
    if i >= total {
      assert Grow(v, p, r, i, total) == (v, r);
    } else {
      var (w, s) := GrowOne(v, p, r, i);
      GrowKeepsRecord(w, p, s, i + 1, total);
    }
  }

  // ---------------------------------------------------------------- storing with such an indirect block

  lemma {:induction false} StoreAnyway(v: View, p: Vol, r: INode, bytes: seq<Byte>, offset: nat, total: nat, zs: set<nat>)
    requires offset + |bytes| <= ZONE_SIZE * total && r.zone[7] as nat !in zs
    requires forall m: nat :: m < total ==> Lookup(v, p, r, m) in zs
    ensures Within(v, Store(v, p, r, bytes, offset), p, zs)
    decreases |bytes|
  {
    hide Within, Entry;
    if bytes == [] {
      WithinNothing(v, p, zs);
    } else {
      var t := Piece(|bytes|, offset);
      var l := Loc(p.dev, Lookup(v, p, r, offset / ZONE_SIZE));
      var w := Written(v, l, offset % ZONE_SIZE, bytes[..t]);
      OneWithin(v, w, p, l, zs);
      forall m: nat | m < total
        ensures Lookup(w, p, r, m) in zs
      {
        assert Lookup(w, p, r, m) == Lookup(v, p, r, m);
      }
      StoreAnyway(w, p, r, bytes[t..], offset + t, total, zs);
      WithinTransitive(v, w, Store(v, p, r, bytes, offset), p, zs);
    }
  }

  lemma OneWithin(v: View, w: View, p: Vol, l: Loc, zs: set<nat>)
    requires l.dev == p.dev && l.zone in zs && w == v[l := w[l]]
    ensures Within(v, w, p, zs)
  {
  }

  // ---------------------------------------------------------------- what becomes of the other files

  lemma TouchAside(v: View, w: View, p: Vol, i: nat, z: nat, zs: set<nat>)
    requires Fits(p) && Live(v, p, i) && Touches(v, w, p, zs) && forall x :: x in zs ==> p.sb.fst <= x
    requires var y := Record(v, p, i).zone[7]; y != 0 && y != z ==> InData(p, y) && y as nat !in zs
    ensures AsideFrom(v, w, p, i, z)
  {
    hide Live, Record;
    LiveBound(v, p, i);
    TouchesNoRecord(v, w, p, zs, i);
  }

  lemma SyncAside(v: View, p: Vol, me: nat, r: INode, i: nat, z: nat)
    requires Fits(p) && Live(v, p, i) && Live(v, p, me) && i != me
    requires var y := Record(v, p, i).zone[7]; y != 0 ==> InData(p, y)
    ensures AsideFrom(v, Synced(v, p, me, r), p, i, z)
  {
    hide Live, Record, Synced;
    LiveBound(v, p, i);
    LiveBound(v, p, me);
    SyncOnly(v, p, me, r, i);
    SyncedRecords(v, p, me, r, i);
  }

  /** Another file, whose indirect block is not one of this file's zones. */
  ghost predicate Another(v: View, p: Vol, me: nat, r: INode, i: nat) {
    && i != me && Live(v, p, i)
    && (Record(v, p, i).zone[7] != 0 ==> InData(p, Record(v, p, i).zone[7]) && Foreign(v, p, r, Record(v, p, i).zone[7]))
  }

  lemma IsAnother(v: View, p: Vol, me: nat, r: INode, i: nat, q: nat, z: u16)
    requires Inv(v, p, me, r) && Live(v, p, me) && i != me && Reaches(v, p, me, r, i, q, z)
    ensures Another(v, p, me, r, i)
  {
    hide Live, Record, Chain, Foreign, Marked, Disjoint, AllFormed, Margins;
    var y := Record(v, p, i).zone[7];
    if y != 0 {
      ChainHead(v, p, Record(v, p, i));
      ReachedByOthersIsForeign(v, p, me, r, i, 7, y);
    }
  }

  /** The zones that a file's bytes go to: some it had, and some that were free. */
  ghost predicate Targets(v: View, p: Vol, r: INode, z: nat, zs: set<nat>) {
    forall x :: x in zs ==> InData(p, x) && x < 0x1_0000 && x != z && (x in Chain(v, p, r) || !ZSet(v, p, x))
  }

  /** The device before a write, after the new indirect block has its number, after growing, and at the end. */
  lemma WriteAside(v: View, u: View, v1: View, p: Vol, me: nat, r: INode, s: INode, bytes: seq<Byte>, offset: nat, total: nat,
                   zs: set<nat>, i: nat)
    requires Fits(p) && Another(v, p, me, r, i) && Live(v, p, me) && InData(p, s.zone[7]) && Targets(v, p, r, s.zone[7], zs)
    requires MoreInodes(v, u, p, s.zone[7]) && Touches(u, v1, p, {s.zone[7] as nat})
    requires offset + |bytes| <= ZONE_SIZE * total && forall m: nat :: m < total ==> Lookup(v1, p, s, m) in zs
    ensures AsideFrom(v, Store(Synced(v1, p, me, s), p, s, bytes, offset), p, i, s.zone[7])
  {
    hide Live, Record, Chain, Synced, Store, ZSet, Lookup, Touches, AsideFrom;
    var z: nat := s.zone[7];
    MoreAside(v, u, p, z, i);
    MeStays(v, u, v1, p, me, z);
    AsideRecord(v, u, p, i, z);
    TouchAside(u, v1, p, i, z, {z});
    AsideRecord(u, v1, p, i, z);
    SyncAside(v1, p, me, s, i, z);
    var v2 := Synced(v1, p, me, s);
    AsideRecord(v1, v2, p, i, z);
    StoreStays(v1, p, me, s, bytes, offset, total, zs);
    var w := Store(v2, p, s, bytes, offset);
    TouchAside(v2, w, p, i, z, zs);
    AsideTransitive(v, u, v1, p, i, z);
    AsideTransitive(v, v1, v2, p, i, z);
    AsideTransitive(v, v2, w, p, i, z);
  }

  lemma AsideRecord(v: View, w: View, p: Vol, i: nat, z: nat)
    requires AsideFrom(v, w, p, i, z)
    ensures Live(w, p, i) && Record(w, p, i) == Record(v, p, i)
  {
  }

  lemma MeStays(v: View, u: View, v1: View, p: Vol, me: nat, z: nat)
    requires Fits(p) && Live(v, p, me) && MoreInodes(v, u, p, z) && Touches(u, v1, p, {z}) && p.sb.fst <= z
    ensures Live(v1, p, me)
  {
    hide Live;
    TouchesNoRecord(u, v1, p, {z}, me);
  }

  lemma WithinTouches(v: View, w: View, p: Vol, zs: set<nat>)
    requires Within(v, w, p, zs) && forall x :: x in zs ==> InData(p, x)
    ensures Touches(v, w, p, zs) && Above(v, w, p)
  {
  }

  lemma StoreStays(v: View, p: Vol, me: nat, s: INode, bytes: seq<Byte>, offset: nat, total: nat, zs: set<nat>)
    requires Fits(p) && Live(v, p, me) && InData(p, s.zone[7]) && s.zone[7] as nat !in zs
    requires forall x :: x in zs ==> InData(p, x)
    requires offset + |bytes| <= ZONE_SIZE * total && forall m: nat :: m < total ==> Lookup(v, p, s, m) in zs
    ensures var u := Synced(v, p, me, s); var w := Store(u, p, s, bytes, offset);
      Touches(u, w, p, zs) && forall x: nat :: InData(p, x) ==> ZSet(w, p, x) == ZSet(v, p, x)
  {
    hide Live, Synced, Store, ZSet, Entry;
    LiveBound(v, p, me);
    var u := Synced(v, p, me, s);
    SyncOnly(v, p, me, s, me);
    forall m: nat | m < total
      ensures Lookup(u, p, s, m) in zs
    {
      assert Lookup(u, p, s, m) == Lookup(v, p, s, m);
    }
    StoreAnyway(u, p, s, bytes, offset, total, zs);
    var w := Store(u, p, s, bytes, offset);
    WithinTouches(u, w, p, zs);
    hide Lookup, Within, Touches, Above;
    AboveKeepsBits(u, w, p);
    forall x: nat | InData(p, x)
      ensures ZSet(w, p, x) == ZSet(v, p, x)
    {
      SyncOnly(v, p, me, s, x);
    }
  }

  // ---------------------------------------------------------------- writing

  lemma InodeTaken(v: View, p: Vol, z: nat)
    requires Fits(p) && Margins(v, p)
    ensures var u := TakeInode(v, p.dev, p.sb).0;
      MoreInodes(v, u, p, z) && Margins(u, p) && FreeZones(u, p) == FreeZones(v, p)
  {
    hide MapBit, SetMapBit, LeastClear, FreeZones, Margins, MoreInodes;
    TakeInodeMore(v, p, z);
    if TakeInode(v, p.dev, p.sb).1 > 0 {
      TakeInodeShape(v, p);
      InodeBit(v, p, TakeInode(v, p.dev, p.sb).1, true, 1);
    } else {
      NoneLeft(v, p);
    }
  }

  lemma NoneLeft(v: View, p: Vol)
    requires Fits(p) && Margins(v, p) && TakeInode(v, p.dev, p.sb).1 <= 0
    ensures TakeInode(v, p.dev, p.sb) == (v, -1)
  {
  }

  /** The record that such a write starts from, and the one it leaves. */
  ghost function Numbered(v: View, p: Vol, r: INode): INode {
    r.(zone := r.zone[7 := AsU16(TakeInode(v, p.dev, p.sb).1)])
  }

  lemma WriteIs(v: View, p: Vol, me: nat, r: INode, bytes: seq<Byte>, offset: nat)
    requires Formed(v, p, r) && offset + |bytes| <= ZONE_SIZE * 518 && Allocated(v, p, r) <= 7 < ZonesFor(offset + |bytes|)
    ensures var end := offset + |bytes|;
            var (v1, r1) := Grow(TakeInode(v, p.dev, p.sb).0, p, Numbered(v, p, r), Allocated(v, p, r), ZonesFor(end));
            var s := r1.(size := end);
      && Extend(v, p, r, end) == (v1, r1) && r.size < end && 7 * ZONE_SIZE < end
      && WriteFile(v, p, me, r, bytes, offset) == (Store(Synced(v1, p, me, s), p, s, bytes, offset), s)
  {
    hide TakeInode, Grow, Store, Synced, Allocated, Chain, Lead;
    var end := offset + |bytes|;
    ZonesForFit(end, 7);
    ZonesForFit(end, Allocated(v, p, r));
    AllocatedIsDataCount(v, p, r);
    GrowKeepsRecord(TakeInode(v, p.dev, p.sb).0, p, Numbered(v, p, r), Allocated(v, p, r), ZonesFor(end));
  }

  lemma WriteTargets(v: View, u: View, v1: View, p: Vol, me: nat, r: INode, s: INode, total: nat, zs: set<nat>)
    requires Inv(v, p, me, r) && Live(v, p, me) && Allocated(v, p, r) <= 7 && MoreInodes(v, u, p, s.zone[7])
    requires InData(p, s.zone[7]) && s.zone[7] !in Chain(v, p, r) && (ZSet(v, p, s.zone[7]) || !ZSet(v1, p, s.zone[7]))
    requires forall m: nat :: m < Allocated(v, p, r) ==> Lookup(v1, p, s, m) == r.zone[m]
    requires forall m: nat :: Allocated(v, p, r) <= m < total ==> Taken(u, v1, p, Lookup(v1, p, s, m))
    requires forall x :: x in zs ==> exists m: nat :: m < total && x == Lookup(v1, p, s, m)
    ensures Targets(v, p, r, s.zone[7], zs)
  {
    hide Inv, Live, Chain, ZSet, Lookup, Allocated, InData, MoreInodes, Record;
    InvOwn(v, p, me, r);
    InvFits(v, p, me, r);
    FormedOf(v, p, me, r);
    AllocatedIsDataCount(v, p, r);
    ChainHead(v, p, r);
    var c := Chain(v, p, r);
    forall x | x in zs
      ensures InData(p, x) && x < 0x1_0000 && x != s.zone[7] && (x in c || !ZSet(v, p, x))
    {
      var m: nat :| m < total && x == Lookup(v1, p, s, m);
      if m < Allocated(v, p, r) {
        assert c[m] == x;
      } else {
        MarksSame(v, u, p, s.zone[7], x);
      }
    }
    MarksSame(v, u, p, s.zone[7], s.zone[7]);
  }

  lemma MarksSame(v: View, u: View, p: Vol, z: nat, x: nat)
    requires Fits(p) && MoreInodes(v, u, p, z) && InData(p, z) && InData(p, x)
    ensures ZSet(u, p, x) == ZSet(v, p, x)
  {
    MoreAside(v, u, p, z, x);
  }

  /** The new indirect block is a zone of the data area that this file does not have, and is not given. */
  lemma WriteShares(v: View, p: Vol, me: nat, r: INode, bytes: seq<Byte>, offset: nat)
    requires Inv(v, p, me, r) && Live(v, p, me) && offset + |bytes| <= ZONE_SIZE * 518
    requires Allocated(v, p, r) <= 7 < ZonesFor(offset + |bytes|) && ZonesFor(offset + |bytes|) - Allocated(v, p, r) <= FreeZones(v, p)
    requires var z := AsU16(TakeInode(v, p.dev, p.sb).1);
      && z != 0 && InData(p, z) && z !in Chain(v, p, r) && !Stray(v, p, me, r, z)
      && (ZSet(v, p, z) || !ZSet(Extend(v, p, r, offset + |bytes|).0, p, z))
    ensures var (w, s) := WriteFile(v, p, me, r, bytes, offset); !(Inv(w, p, me, s) && Live(w, p, me))
  {
    hide Inv, Live, Chain, ZSet, Lookup, Allocated, InData, MoreInodes, TakeInode, Grow, Store, Synced, WriteFile, Extend, Touches,
         FreeZones, Margins, Formed, Reaches, Targets, Fits;
    InvFits(v, p, me, r);
    FormedOf(v, p, me, r);
    WriteIs(v, p, me, r, bytes, offset);
    var end, cur, total := offset + |bytes|, Allocated(v, p, r), ZonesFor(offset + |bytes|);
    ZonesForFit(end, 518);
    ZonesForFit(end, total);
    var u := TakeInode(v, p.dev, p.sb).0;
    var q := Numbered(v, p, r);
    var (v1, r1) := Grow(u, p, q, cur, total);
    var z := q.zone[7];
    InodeTaken(v, p, z);
    GrowAnyway(u, p, q, cur, total);
    var s := r1.(size := end);
    var zs := set m | 0 <= m < total :: Lookup(v1, p, s, m) as nat;
    SameLookups(u, v1, p, q, r1, s, cur, total);
    forall m: nat | m < total
      ensures Lookup(v1, p, s, m) as nat in zs
    {
    }
    WriteTargets(v, u, v1, p, me, r, s, total, zs);
    WriteEnds(v, u, v1, p, me, r, s, bytes, offset, total, zs);
  }

  lemma SameLookups(u: View, v1: View, p: Vol, q: INode, r1: INode, s: INode, cur: nat, total: nat)
    requires s.zone == r1.zone && cur <= 7
    requires forall m: nat :: m < cur ==> Lookup(v1, p, r1, m) == Lookup(u, p, q, m)
    ensures forall m: nat :: Lookup(v1, p, s, m) == Lookup(v1, p, r1, m)
    ensures forall m: nat :: m < cur ==> Lookup(v1, p, s, m) == q.zone[m]
  {
    hide Entry;
  }

  lemma WriteEnds(v: View, u: View, v1: View, p: Vol, me: nat, r: INode, s: INode, bytes: seq<Byte>, offset: nat, total: nat,
                  zs: set<nat>)
    requires Inv(v, p, me, r) && Live(v, p, me) && InData(p, s.zone[7]) && Targets(v, p, r, s.zone[7], zs) && s.zone[7] != 0
    requires MoreInodes(v, u, p, s.zone[7]) && Touches(u, v1, p, {s.zone[7] as nat})
    requires offset + |bytes| <= ZONE_SIZE * total && forall m: nat :: m < total ==> Lookup(v1, p, s, m) in zs
    requires s.zone[7] !in Chain(v, p, r) && !Stray(v, p, me, r, s.zone[7]) && (ZSet(v, p, s.zone[7]) || !ZSet(v1, p, s.zone[7]))
    ensures var w := Store(Synced(v1, p, me, s), p, s, bytes, offset); !(Inv(w, p, me, s) && Live(w, p, me))
  {
    hide Inv, Live, Chain, ZSet, Lookup, InData, MoreInodes, Store, Synced, Touches, Reaches, Fits;
    InvFits(v, p, me, r);
    var z := s.zone[7];
    var w := Store(Synced(v1, p, me, s), p, s, bytes, offset);
    if ZSet(v, p, z) {
      var i, q := ReachedByAnother(v, p, me, r, z);
      IsAnother(v, p, me, r, i, q, z);
      WriteAside(v, u, v1, p, me, r, s, bytes, offset, total, zs, i);
      var t := StillReaches(v, w, p, me, r, s, i, q, z);
      SharedIndirect(w, p, me, s, i, t);
    } else {
      StillHere(v, u, v1, p, me, z);
      StoreStays(v1, p, me, s, bytes, offset, total, zs);
      BadIndirect(w, p, me, s);
    }
  }

  lemma StillHere(v: View, u: View, v1: View, p: Vol, me: nat, z: nat)
    requires Fits(p) && Live(v, p, me) && MoreInodes(v, u, p, z) && Touches(u, v1, p, {z}) && InData(p, z)
    ensures Live(v1, p, me)
  {
    hide Live, Touches, MoreInodes;
    MeStays(v, u, v1, p, me, z);
  }

  lemma ReachedByAnother(v: View, p: Vol, me: nat, r: INode, z: u16) returns (i: nat, q: nat)
    requires z != 0 && InData(p, z) && ZSet(v, p, z) && !Stray(v, p, me, r, z) && z !in Chain(v, p, r)
    ensures i != me && Reaches(v, p, me, r, i, q, z)
  {
    hide ZSet, InData, Reaches;
    i, q :| Reaches(v, p, me, r, i, q, z);
    NotMine(v, p, me, r, q, z);
  }

  lemma NotMine(v: View, p: Vol, me: nat, r: INode, q: nat, z: u16)
    requires z !in Chain(v, p, r)
    ensures !Reaches(v, p, me, r, me, q, z)
  {
    hide Chain, Live;
  }

  /**
   * A write leaves the device in order exactly if it needs no new indirect block. The inode's number that the new
   * block gets may be that of a zone below the data, behind it, in use or free; excepted are zones that are marked
   * though no file reaches them, of which no run of changes makes any, and a zone that the same write takes for data.
   */
  lemma WriteKeepsExactly(v: View, p: Vol, me: nat, r: INode, bytes: seq<Byte>, offset: nat)
    requires Inv(v, p, me, r) && Live(v, p, me) && Record(v, p, me) == r
    requires offset + |bytes| <= ZONE_SIZE * 518 && ZonesFor(offset + |bytes|) - Allocated(v, p, r) <= FreeZones(v, p)
    requires var z := AsU16(TakeInode(v, p.dev, p.sb).1);
      !Stray(v, p, me, r, z) && (InData(p, z) ==> ZSet(v, p, z) || !ZSet(Extend(v, p, r, offset + |bytes|).0, p, z))
    ensures var (w, s) := WriteFile(v, p, me, r, bytes, offset);
      Inv(w, p, me, s) && Live(w, p, me) && Record(w, p, me) == s
      <==> Allocated(v, p, r) > 7 || ZonesFor(offset + |bytes|) <= 7
  {
    hide Live, Record, Inv, WriteFile, SameOthers, Balance, Allocated, FreeZones, TakeInode, ZonesFor, Chain, ZSet, Stray, Extend, InData;
    ZonesForFit(offset + |bytes|, 518);
    if Allocated(v, p, r) > 7 || ZonesFor(offset + |bytes|) <= 7 {
      WriteKeeps(v, p, me, r, bytes, offset);
    } else {
      WriteBreaks(v, p, me, r, bytes, offset);
    }
  }

  lemma WriteBreaks(v: View, p: Vol, me: nat, r: INode, bytes: seq<Byte>, offset: nat)
    requires Inv(v, p, me, r) && Live(v, p, me) && offset + |bytes| <= ZONE_SIZE * 518
    requires Allocated(v, p, r) <= 7 < ZonesFor(offset + |bytes|) && ZonesFor(offset + |bytes|) - Allocated(v, p, r) <= FreeZones(v, p)
    requires var z := AsU16(TakeInode(v, p.dev, p.sb).1);
      !Stray(v, p, me, r, z) && (InData(p, z) ==> ZSet(v, p, z) || !ZSet(Extend(v, p, r, offset + |bytes|).0, p, z))
    ensures var (w, s) := WriteFile(v, p, me, r, bytes, offset); !(Inv(w, p, me, s) && Live(w, p, me))
  {
    hide Live, Record, Inv, WriteFile, Allocated, FreeZones, TakeInode, ZonesFor, Chain, ZSet, Stray, Extend, Grow, Store, Synced, Formed;
    var z := AsU16(TakeInode(v, p.dev, p.sb).1);
    FormedOf(v, p, me, r);
    WriteIs(v, p, me, r, bytes, offset);
    GrowKeepsRecord(TakeInode(v, p.dev, p.sb).0, p, Numbered(v, p, r), Allocated(v, p, r), ZonesFor(offset + |bytes|));
    var (w, s) := WriteFile(v, p, me, r, bytes, offset);
    if z == 0 {
      NoIndirect(w, p, me, s);
    } else if !InData(p, z) {
      BadIndirect(w, p, me, s);
    } else if z in Chain(v, p, r) {
      var q := DirectZone(v, p, r, z);
      assert s.zone[q] == z;
      BadIndirect(w, p, me, s);
    } else {
      WriteShares(v, p, me, r, bytes, offset);
    }
  }

  /** A zone of a file that needs no indirect block. */
  lemma DirectZone(v: View, p: Vol, r: INode, z: u16) returns (q: nat)
    requires Formed(v, p, r) && Allocated(v, p, r) <= 7 && z != 0 && z in Chain(v, p, r)
    ensures q < Allocated(v, p, r) && r.zone[q] == z
  {
    hide Chain, Allocated;
    AllocatedIsDataCount(v, p, r);
    ChainHead(v, p, r);
    var c := Chain(v, p, r);
    q :| 0 <= q < |c| && c[q] == z;
  }

  // ---------------------------------------------------------------- creating

  /** The number a new file of at least seven zones gets for its indirect block. */
  ghost function SecondInode(v: View, p: Vol, mode: u16): int {
    TakeInode(Grow(TakeInode(v, p.dev, p.sb).0, p, NewRecord(mode), 0, 7).0, p.dev, p.sb).1
  }

  lemma {:induction false} FillMore(v: View, p: Vol, zone: nat, i: nat, total: nat)
    requires Fits(p) && p.sb.fst <= zone && 7 <= i
    ensures MoreInodes(v, FillIndirect(v, p, zone, i, total), p, zone)
    decreases total - i
  {
    hide TakeInode, LE, MapBit, MoreInodes;
    if i >= total {
      MoreNothing(v, p, zone);
    } else {
      var (w, n) := TakeInode(v, p.dev, p.sb);
      TakeInodeMore(v, p, zone);
      var u := Written(w, Loc(p.dev, zone), 2 * (i - 7), LE(AsU16(n), 2));
      MoreWritten(w, p, zone, 2 * (i - 7), LE(AsU16(n), 2));
      MoreTransitive(v, w, u, p, zone);
      FillMore(u, p, zone, i + 1, total);
      MoreTransitive(v, u, FillIndirect(v, p, zone, i, total), p, zone);
    }
  }

  lemma MoreNothing(v: View, p: Vol, z: nat)
    ensures MoreInodes(v, v, p, z)
  {
  }

  lemma MoreWritten(v: View, p: Vol, z: nat, at: nat, bytes: seq<Byte>)
    requires Fits(p) && p.sb.fst <= z
    ensures MoreInodes(v, Written(v, Loc(p.dev, z), at, bytes), p, z)
  {
    hide MapBit;
    AboveKeepsBits(v, Written(v, Loc(p.dev, z), at, bytes), p);
  }

  /** The device after a new file's direct zones were taken, and after its indirect block was filled. */
  lemma CreateIs(v: View, u: View, ino: nat, x: View, t: INode, p: Vol, mode: u16, nr: nat, y: View, s: INode)
    requires nr >= 7 && (u, ino) == TakeInode(v, p.dev, p.sb) && ino > 0 && (x, t) == Grow(u, p, NewRecord(mode), 0, 7)
    requires (y, s) == PreIndirect(x, p, t, nr)
    ensures CreateFile(v, p, mode, nr) == (Synced(y, p, ino, s), ino, s)
  {
    hide TakeInode, Grow, PreIndirect, Synced;
  }

  /** A new file with its seven direct zones is in order so far. */
  lemma SevenZones(v: View, p: Vol, mode: u16, z: u16)
    requires Inv(v, p, 0, BLANK) && 7 <= FreeZones(v, p) && TakeInode(v, p.dev, p.sb).1 > 0
    ensures var (u, ino) := TakeInode(v, p.dev, p.sb); var (x, t) := Grow(u, p, NewRecord(mode), 0, 7);
      Inv(x, p, ino, t) && Live(x, p, ino) && Lead(Chain(x, p, t)) == 7 && Stray(x, p, ino, t, z) == Stray(v, p, 0, BLANK, z)
  {
    hide Record, Chain, ZSet, InData, Formed, Live, SetMapBit, SameOthers, FreeZones, Inv, Grow, Stray, Balance, Kept, Fresh;
    InvFits(v, p, 0, BLANK);
    TakeInodeShape(v, p);
    var (u, ino) := TakeInode(v, p.dev, p.sb);
    hide TakeInode;
    NewInode(v, p, ino, mode);
    NewChain(u, p, mode);
    GrowKeeps(u, p, ino, NewRecord(mode), 0, 7);
    var (x, t) := Grow(u, p, NewRecord(mode), 0, 7);
    KeepsStray(u, x, p, ino, NewRecord(mode), t, z);
    FormedOf(x, p, ino, t);
    SizeFits(x, p, t);
  }

  /** From there on, with an indirect block whose number is an inode's. */
  lemma FillBreaks(x: View, p: Vol, me: nat, t: INode, nr: nat)
    requires Inv(x, p, me, t) && Live(x, p, me) && Lead(Chain(x, p, t)) == 7
    requires var z := AsU16(TakeInode(x, p.dev, p.sb).1); z != 0 && !Stray(x, p, me, t, z)
    ensures var (f, s) := PreIndirect(x, p, t, nr); var w := Synced(f, p, me, s); !(Inv(w, p, me, s) && Live(w, p, me))
  {
    hide Record, Chain, ZSet, Formed, Live, Inv, Stray, TakeInode, FillIndirect, Synced, InData, Lead;
    var z := AsU16(TakeInode(x, p.dev, p.sb).1);
    var (f, s) := PreIndirect(x, p, t, nr);
    var w := Synced(f, p, me, s);
    if !InData(p, z) {
      BadIndirect(w, p, me, s);
    } else if z in Chain(x, p, t) {
      var q := OneOfSeven(x, p, me, t, z);
      assert s.zone[q] == z;
      BadIndirect(w, p, me, s);
    } else {
      var y := TakeInode(x, p.dev, p.sb).0;
      var n := AsZone(TakeInode(x, p.dev, p.sb).1);
      InvFits(x, p, me, t);
      InodeNumber(x, p);
      ZoneOrBeyond(p, n, z);
      TakeInodeMore(x, p, n);
      FillMore(y, p, n, 7, nr);
      MoreTransitive(x, y, f, p, n);
      FillEnds(x, f, p, me, t, s, n, z);
    }
  }

  lemma InodeNumber(v: View, p: Vol)
    requires Fits(p) && Margins(v, p)
    ensures var n := TakeInode(v, p.dev, p.sb).1; n == -1 || 0 < n
  {
    hide MapBit, SetMapBit, LeastClear, Margins;
    if TakeInode(v, p.dev, p.sb).1 <= 0 {
      NoneLeft(v, p);
    }
  }

  /** A number and what is left of it in 16 bits. */
  lemma ZoneOrBeyond(p: Vol, n: nat, z: u16)
    requires Fits(p) && InData(p, z) && (n == z || 0x1_0000 <= n)
    ensures p.sb.fst <= n
  {
  }

  lemma OneOfSeven(x: View, p: Vol, me: nat, t: INode, z: u16) returns (q: nat)
    requires Inv(x, p, me, t) && Live(x, p, me) && Lead(Chain(x, p, t)) == 7 && z != 0 && z in Chain(x, p, t)
    ensures q < 7 && t.zone[q] == z
  {
    hide Chain, Inv, Live;
    FormedOf(x, p, me, t);
    FormedRun(x, p, t);
    ChainHead(x, p, t);
    var c := Chain(x, p, t);
    q :| 0 <= q < |c| && c[q] == z;
  }

  /** What is written goes to zone `n`; the record has its last 16 bits, `z`. */
  lemma FillEnds(x: View, f: View, p: Vol, me: nat, t: INode, s: INode, n: nat, z: u16)
    requires Inv(x, p, me, t) && Live(x, p, me) && z != 0 && InData(p, z) && z !in Chain(x, p, t) && !Stray(x, p, me, t, z)
    requires MoreInodes(x, f, p, n) && p.sb.fst <= n && (n == z || 0x1_0000 <= n) && s.zone[7] == z
    ensures var w := Synced(f, p, me, s); !(Inv(w, p, me, s) && Live(w, p, me))
  {
    hide Record, Chain, ZSet, Live, Inv, Stray, Synced, MoreInodes, Reaches;
    InvFits(x, p, me, t);
    MoreAside(x, f, p, n, z);
    MoreLive(x, f, p, n, me);
    var w := Synced(f, p, me, s);
    if ZSet(x, p, z) {
      var i, q := ReachedByAnother(x, p, me, t, z);
      IsAnother(x, p, me, t, i, q, z);
      MoreAside(x, f, p, n, i);
      assert AsideFrom(x, f, p, i, z);
      SyncAside(f, p, me, s, i, z);
      AsideTransitive(x, f, w, p, i, z);
      var k := StillReaches(x, w, p, me, t, s, i, q, z);
      SharedIndirect(w, p, me, s, i, k);
    } else {
      LiveBound(f, p, me);
      SyncOnly(f, p, me, s, z);
      BadIndirect(w, p, me, s);
    }
  }

  lemma MoreLive(v: View, w: View, p: Vol, z: nat, i: nat)
    requires MoreInodes(v, w, p, z) && Live(v, p, i)
    ensures Live(w, p, i)
  {
  }

  /**
   * A new file of seven zones or more gets inode numbers for its indirect block and what that holds. A new file is in
   * order exactly if it has at most six zones. Excepted are a number that is zero in 16 bits, and zones that are
   * marked though no file reaches them.
   */
  lemma CreateKeepsExactly(v: View, p: Vol, mode: u16, nr: nat)
    requires Inv(v, p, 0, BLANK) && nr <= FreeZones(v, p) && TakeInode(v, p.dev, p.sb).1 > 0
    requires var z := AsU16(SecondInode(v, p, mode)); z != 0 && !Stray(v, p, 0, BLANK, z)
    ensures var (w, ino, s) := CreateFile(v, p, mode, nr); Inv(w, p, ino, s) && Live(w, p, ino) <==> nr <= 6
  {
    hide Record, Live, SameOthers, FreeZones, Inv, Grow, Stray, Synced, TakeInode, FillIndirect, Chain, Fresh, Lead;
    if nr <= 6 {
      CreateKeeps(v, p, mode, nr);
    } else {
      var z := AsU16(SecondInode(v, p, mode));
      var (u, ino) := TakeInode(v, p.dev, p.sb);
      var (x, t) := Grow(u, p, NewRecord(mode), 0, 7);
      SevenZones(v, p, mode, z);
      CreateIs(v, u, ino, x, t, p, mode, nr, PreIndirect(x, p, t, nr).0, PreIndirect(x, p, t, nr).1);
      hide CreateFile;
      FillBreaks(x, p, ino, t, nr);
    }
  }
}
