/** `inode_create` and `inode_remove`: files come and go, and no other is concerned. */
module FsCreate {
  import opened Bits
  import opened Cache
  import opened FsLayout
  import opened FsBitmap
  import opened FsFiles
  import opened FsWrite
  import opened FsBytes
  import opened FsUpdate
  import opened FsTrunc

  // ---------------------------------------------------------------- one bit of the inode bitmap

  /** The bit of an inode changes; every other bit, all records and all data are as they were. */
  lemma InodeBit(v: View, p: Vol, k: nat, on: bool, i: nat)
    requires Fits(p) && 1 <= k <= Inodes(p)
    ensures var w := SetMapBit(v, p.dev, 2, k, on);
      && Live(w, p, i) == (if i == k then on else Live(v, p, i))
      && (InData(p, i) ==> ZSet(w, p, i) == ZSet(v, p, i))
      && (1 <= i <= Inodes(p) ==> Record(w, p, i) == Record(v, p, i))
      && DataSame(v, w, p) && (Margins(v, p) ==> Margins(w, p)) && FreeZones(w, p) == FreeZones(v, p)
  {
    hide SetMapBit, MapBit, Decode, ClearBits;
    SetMapBitOnly(v, p.dev, 2, k, on);
    var w := SetMapBit(v, p.dev, 2, k, on);
    assert k / 8 / 1024 < p.sb.imapBlk;
    ZmapElsewhere(v, w, p);
    assert InData(p, i) ==> ZSet(w, p, i) == ZSet(v, p, i);
    if 1 <= i <= Inodes(p) {
      assert w[RecLoc(p, i)] == v[RecLoc(p, i)];
    }
  }

  lemma ZmapElsewhere(v: View, w: View, p: Vol)
    requires Fits(p) && forall l: Loc :: w[l] != v[l] ==> l.zone < 2 + p.sb.imapBlk
    ensures forall z: nat :: InData(p, z) ==> ZSet(w, p, z) == ZSet(v, p, z)
    ensures MapBit(w, p.dev, p.sb.imapBlk + 2, 0) == MapBit(v, p.dev, p.sb.imapBlk + 2, 0)
    ensures FreeZones(w, p) == FreeZones(v, p)
  {
    hide MapBit, ClearBits;
    var st := p.sb.imapBlk + 2;
    forall i: nat
      ensures MapBit(w, p.dev, st, i) == MapBit(v, p.dev, st, i)
    {
      BitElsewhere(v, w, p.dev, st, i);
    }
    ClearBitsSame(v, w, p.dev, st, BITS_PER_ZONE * p.sb.zmapBlk);
  }

  /** No other file is concerned. */
  lemma InodeBitOthers(v: View, p: Vol, k: nat, on: bool, r: INode)
    requires Fits(p) && 1 <= k <= Inodes(p)
    requires forall i, q, z: u16 :: i != k && Reaches(v, p, k, r, i, q, z) ==> InData(p, z)
    ensures SameOthers(v, SetMapBit(v, p.dev, 2, k, on), p, k)
  {
    hide SetMapBit, MapBit, Record, ZSet, Live, Margins, FreeZones;
    var w := SetMapBit(v, p.dev, 2, k, on);
    forall i: nat | 1 <= i <= Inodes(p) && i != k
      ensures Live(w, p, i) == Live(v, p, i) && (Live(v, p, i) ==> SameFile(v, w, p, i))
    {
      InodeBit(v, p, k, on, i);
      if Live(v, p, i) {
        var x := Record(v, p, i);
        var c := Chain(v, p, x);
        forall q | 0 <= q < 520 && c[q] != 0
          ensures SameBlock(v, w, p, c[q])
        {
          assert Reaches(v, p, k, r, i, q, c[q]);
        }
        assert c[7] == x.zone[7] && (c[7] != 0 ==> SameBlock(v, w, p, c[7]));
        ChainSame(v, w, p, x);
      }
    }
  }

  // ---------------------------------------------------------------- removing

  ghost function GiveAll(v: View, p: Vol, zs: seq<u16>): View {
    if zs == [] then v else GiveAll(Give(v, p, zs[0]), p, zs[1..])
  }

  /** The zones `inode_remove` frees, in its order: the entries, the indirect block, the direct zones. */
  ghost function Doomed(v: View, p: Vol, r: INode): seq<u16> {
    var e := Entries(v, p, r.zone[7]);
    var z := r.zone[7 := 0];
    (if r.zone[7] != 0 then e[..Lead(e)] + [r.zone[7]] else []) + z[..Lead(z)]
  }

  /** The device after `inode_remove`. */
  ghost function RemoveFile(v: View, p: Vol, me: nat, r: INode): View {
    GiveInode(GiveAll(v, p, Doomed(v, p, r)), p.dev, me)
  }

  /** The zones freed are all the zones of the file. */
  lemma DoomedIsChain(v: View, p: Vol, r: INode)
    requires Formed(v, p, r)
    ensures forall z: u16 :: z in Doomed(v, p, r) <==> z != 0 && z in Chain(v, p, r)
  {
    hide Entries, Chain, Lead;
    var c := Chain(v, p, r);
    if r.zone[7] == 0 {
      DoomedDirect(v, p, r);
    } else {
      DoomedIndirect(v, p, r);
      var n := Lead(c);
      assert c[..n] == c[..7] + c[7..8] + c[8..n];
    }
    FormedRun(v, p, r);
    NonZeroPart(c);
    assert forall z: u16 :: z in Doomed(v, p, r) <==> z in c[..Lead(c)];
  }

  lemma DoomedDirect(v: View, p: Vol, r: INode)
    requires Formed(v, p, r) && r.zone[7] == 0
    ensures Doomed(v, p, r) == Chain(v, p, r)[..Lead(Chain(v, p, r))]
  {
    hide Entries;
    var c, y := Chain(v, p, r), r.zone[7 := 0];
    var n := Lead(c);
    ChainHead(v, p, r);
    assert c[7] == 0 && n <= 7;
    LeadIs(y, n);
    assert Doomed(v, p, r) == c[..n];
  }

  lemma DoomedIndirect(v: View, p: Vol, r: INode)
    requires Formed(v, p, r) && r.zone[7] != 0
    ensures var c := Chain(v, p, r); 9 <= Lead(c) && Doomed(v, p, r) == c[8..Lead(c)] + c[7..8] + c[..7]
  {
    hide Entries;
    var c, e, y := Chain(v, p, r), Entries(v, p, r.zone[7]), r.zone[7 := 0];
    var n := Lead(c);
    ChainParts(v, p, r);
    assert c[7] != 0 && n >= 9;
    LeadIs(e, n - 8);
    LeadIs(y, 7);
    assert e[..n - 8] == c[8..n] && [r.zone[7]] == c[7..8] && y[..7] == c[..7];
  }

  lemma NonZeroPart(c: seq<u16>)
    requires forall q :: Lead(c) <= q < |c| ==> c[q] == 0
    ensures forall z: u16 :: z in c[..Lead(c)] <==> z != 0 && z in c
  {
    forall z: u16 | z != 0 && z in c
      ensures z in c[..Lead(c)]
    {
      var q :| 0 <= q < |c| && c[q] == z;
      assert c[..Lead(c)][q] == z;
    }
  }

  lemma {:induction false} GiveAllIs(v: View, p: Vol, zs: seq<u16>)
    requires Fits(p) && Margins(v, p) && forall z :: z in zs ==> InData(p, z)
    ensures var w := GiveAll(v, p, zs); Touches(v, w, p, {}) && Freed(v, w, p, zs) && Margins(w, p)
  {
    hide Give, Touches, Freed, Margins, InData, Fits;
    if zs == [] {
      NothingFreed(v, p, {});
    } else {
      var w := Give(v, p, zs[0]);
      GiveShape(v, p, zs[0]);
      GiveAllIs(w, p, zs[1..]);
      var x := GiveAll(v, p, zs);
      FreedBoth(v, w, x, p, [zs[0]], zs[1..]);
      assert zs == [zs[0]] + zs[1..];
      TouchesTransitive(v, w, x, p, {});
    }
  }

  /** The bits of a removed file's zones are cleared, and its own; no other bit, and no other file, changes. */
  lemma RemoveFrees(v: View, p: Vol, me: nat, r: INode)
    requires Inv(v, p, me, r) && Live(v, p, me)
    ensures var w := RemoveFile(v, p, me, r);
      && (forall z: nat :: InData(p, z) ==> ZSet(w, p, z) == (ZSet(v, p, z) && !(z in Chain(v, p, r))))
      && !Live(w, p, me) && SameOthers(v, w, p, me) && Margins(w, p)
  {
    hide ZSet, Live, Margins, Chain, Doomed, GiveAll, SameOthers, Disjoint, AllFormed;
    FormedOf(v, p, me, r);
    OwnOf(v, p, me, r);
    var zs := Doomed(v, p, r);
    DoomedIsChain(v, p, r);
    DoomedInData(v, p, r);
    var u := GiveAll(v, p, zs);
    GiveAllIs(v, p, zs);
    GiveNoOther(v, u, p, me, r);
    LiveBound(v, p, me);
    LastBit(u, p, me);
    var w := RemoveFile(v, p, me, r);
    InodeBitAfter(v, u, p, me, r);
    SameOthersTransitive(v, u, w, p, me);
    forall z: nat | InData(p, z)
      ensures ZSet(w, p, z) == (ZSet(v, p, z) && !(z in Chain(v, p, r)))
    {
      assert ZSet(w, p, z) == ZSet(u, p, z);
    }
  }

  lemma DoomedInData(v: View, p: Vol, r: INode)
    requires Own(v, p, r) && Formed(v, p, r)
    ensures forall z :: z in Doomed(v, p, r) ==> InData(p, z)
  {
    hide Chain, Doomed, ZSet, InData;
    DoomedIsChain(v, p, r);
    var c := Chain(v, p, r);
    forall z | z in Doomed(v, p, r)
      ensures InData(p, z)
    {
      assert z != 0 && z in c;
      var q :| 0 <= q < |c| && c[q] == z;
    }
  }

  lemma GiveNoOther(v: View, u: View, p: Vol, me: nat, r: INode)
    requires Inv(v, p, me, r) && Live(v, p, me) && Touches(v, u, p, {})
    ensures SameOthers(v, u, p, me) && Live(u, p, me)
  {
    TouchesNoOther(v, u, p, me, r, {});
    TouchesNoRecord(v, u, p, {}, me);
  }

  lemma LastBit(u: View, p: Vol, me: nat)
    requires Fits(p) && 1 <= me <= Inodes(p) && Margins(u, p)
    ensures var w := GiveInode(u, p.dev, me);
      !Live(w, p, me) && Margins(w, p) && DataSame(u, w, p) && forall z: nat :: InData(p, z) ==> ZSet(w, p, z) == ZSet(u, p, z)
  {
    hide SetMapBit, ZSet, Live, Margins, Record, FreeZones;
    InodeBit(u, p, me, false, me);
    forall z: nat
      ensures InData(p, z) ==> ZSet(SetMapBit(u, p.dev, 2, me, false), p, z) == ZSet(u, p, z)
    {
      InodeBit(u, p, me, false, z);
    }
  }

  /** The last step of removing a file, for the others. */
  lemma InodeBitAfter(v: View, u: View, p: Vol, me: nat, r: INode)
    requires Inv(v, p, me, r) && Live(v, p, me) && Touches(v, u, p, {}) && SameOthers(v, u, p, me)
    ensures SameOthers(u, GiveInode(u, p.dev, me), p, me)
  {
    hide SetMapBit, ZSet, Live, Margins, Record, FreeZones, Chain, SameOthers;
    LiveBound(v, p, me);
    OthersReach(v, u, p, me, r, r);
    InodeBitOthers(u, p, me, false, r);
  }

  /** Removing a file keeps all others in order. */
  lemma RemoveKeeps(v: View, p: Vol, me: nat, r: INode)
    requires Inv(v, p, me, r) && Live(v, p, me)
    ensures Inv(RemoveFile(v, p, me, r), p, me, r)
  {
    hide ZSet, Live, Margins, Chain, RemoveFile, SameOthers, InData;
    var w := RemoveFile(v, p, me, r);
    RemoveFrees(v, p, me, r);
    OthersReach(v, w, p, me, r, r);
    KeepsFormed(v, w, p, me, r, r);
    forall i, q, z: u16 | Reaches(w, p, me, r, i, q, z)
      ensures i != me && InData(p, z) && ZSet(w, p, z)
    {
      ReachedByOthersIsForeign(v, p, me, r, i, q, z);
    }
    forall i, q, j, t, z: u16 | Reaches(w, p, me, r, i, q, z) && Reaches(w, p, me, r, j, t, z)
      ensures i == j && q == t
    {
      assert Reaches(v, p, me, r, i, q, z) && Reaches(v, p, me, r, j, t, z);
    }
  }

  /** Removing a file loses no zone. */
  lemma RemoveKeepsStray(v: View, p: Vol, me: nat, r: INode, z: u16)
    requires Inv(v, p, me, r) && Live(v, p, me)
    ensures Stray(RemoveFile(v, p, me, r), p, me, r, z) == Stray(v, p, me, r, z)
  {
    if z != 0 && InData(p, z) {
      hide ZSet, Live, Margins, Chain, RemoveFile, SameOthers, Stray;
      var w := RemoveFile(v, p, me, r);
      RemoveFrees(v, p, me, r);
      OthersReach(v, w, p, me, r, r);
      StrayIs(v, p, me, r, z);
      StrayOfDead(w, p, me, r, z);
    }
  }

  lemma StrayOfDead(w: View, p: Vol, me: nat, r: INode, z: u16)
    requires !Live(w, p, me) && InData(p, z)
    ensures Stray(w, p, me, r, z) <==> ZSet(w, p, z) && forall i, q :: i != me ==> !Reaches(w, p, me, r, i, q, z)
  {
    hide Chain, ZSet, Live, InData;
  }

  // ---------------------------------------------------------------- creating

  const BLANK: INode := INode(0, 0, 0, 0, 0, 0, [0, 0, 0, 0, 0, 0, 0, 0, 0])

  /** The record of a new file. */
  function NewRecord(mode: u16): INode {
    BLANK.(mode := mode, nlinks := 1)
  }

  /**
   * The zone that a number stands for when it is used as it is, without being put into 16 bits first. There is no
   * such zone for a failure, -1: the source then goes astray in memory, and the model takes the last zone.
   */
  function AsZone(n: int): nat {
    if n < 0 then 0xffff else n
  }

  /** The entries of a new indirect block are inode numbers, too. */
  ghost function FillIndirect(v: View, p: Vol, zone: nat, i: nat, total: nat): View
    requires 7 <= i
    decreases total - i
  {
    if i >= total then v
    else
      var (w, n) := TakeInode(v, p.dev, p.sb);
      FillIndirect(Written(w, Loc(p.dev, zone), 2 * (i - 7), LE(AsU16(n), 2)), p, zone, i + 1, total)
  }

  /** An indirect block for a new file of at least seven zones: its number comes from the inode bitmap. */
  ghost function PreIndirect(v: View, p: Vol, r: INode, nr: nat): (View, INode) {
    var (w, n) := TakeInode(v, p.dev, p.sb);
    (FillIndirect(w, p, AsZone(n), 7, nr), r.(zone := r.zone[7 := AsU16(n)]))
  }

  /** The space a new file is given. */
  ghost function Preallocate(v: View, p: Vol, r: INode, nr: nat): (View, INode) {
    if nr < 7 then Grow(v, p, r, 0, nr)
    else
      var (w, s) := Grow(v, p, r, 0, 7);
      PreIndirect(w, p, s, nr)
  }

  /** The device after `inode_create`, the number of the new inode or -1, and its record. */
  ghost function CreateFile(v: View, p: Vol, mode: u16, nr: nat): (View, int, INode) {
    var (u, ino) := TakeInode(v, p.dev, p.sb);
    if ino <= 0 then (u, -1, NewRecord(mode))
    else
      var (w, s) := Preallocate(u, p, NewRecord(mode), nr);
      (Synced(w, p, ino, s), ino, s)
  }

  lemma NewChain(v: View, p: Vol, mode: u16)
    ensures Chain(v, p, NewRecord(mode)) == Zeros(520) && Lead(Zeros(520)) == 0 && Formed(v, p, NewRecord(mode))
  {
    LeadIs(Zeros(520), 0);
    assert Chain(v, p, NewRecord(mode)) == Zeros(520);
  }

  /** An inode that is taken was free. */
  lemma TakeInodeShape(v: View, p: Vol)
    requires Fits(p) && Margins(v, p) && TakeInode(v, p.dev, p.sb).1 > 0
    ensures var (w, n) := TakeInode(v, p.dev, p.sb); 1 <= n <= Inodes(p) && !Live(v, p, n) && w == SetMapBit(v, p.dev, 2, n, true)
  {
    hide SetMapBit, MapBit, LeastClear;
  }

  /** No file is created, and -1 is returned, exactly if no inode can be taken; a full bitmap stays as it is. */
  lemma CreateFails(v: View, p: Vol, mode: u16, nr: nat)
    requires 1 <= p.sb.imapBlk
    ensures var (w, ino, s) := CreateFile(v, p, mode, nr);
      && (ino == -1 <==> !MapBit(v, p.dev, 2, 0) || forall k :: 0 <= k < 8192 * p.sb.imapBlk ==> MapBit(v, p.dev, 2, k))
      && (ino == -1 && MapBit(v, p.dev, 2, 0) ==> w == v) && (ino != -1 ==> 1 <= ino)
  {
    hide MapBit, SetMapBit, Grow, PreIndirect, Synced, LeastClear;
    TakeBitFails(v, p.dev, 2, p.sb.imapBlk);
  }

  /** Which record is in memory makes no difference if it is as on the device. */
  lemma SameInMemory(v: View, p: Vol, me: nat, r: INode, you: nat, s: INode)
    requires me == 0 || r == Record(v, p, me)
    requires you == 0 || s == Record(v, p, you)
    ensures Inv(v, p, me, r) == Inv(v, p, you, s)
    ensures forall z: u16 :: Stray(v, p, me, r, z) == Stray(v, p, you, s, z)
  {
    hide Record, Chain, Margins, ZSet, InData, Formed;
    assert forall i :: Live(v, p, i) ==> RecOf(v, p, me, r, i) == RecOf(v, p, you, s, i);
    SameReaches(v, p, me, r, you, s);
    hide Live;
    assert Marked(v, p, me, r) == Marked(v, p, you, s);
    assert Disjoint(v, p, me, r) == Disjoint(v, p, you, s);
    assert AllFormed(v, p, me, r) == AllFormed(v, p, you, s);
  }

  lemma SameReaches(v: View, p: Vol, me: nat, r: INode, you: nat, s: INode)
    requires forall i :: Live(v, p, i) ==> RecOf(v, p, me, r, i) == RecOf(v, p, you, s, i)
    ensures forall i, q, z: u16 :: Reaches(v, p, me, r, i, q, z) == Reaches(v, p, you, s, i, q, z)
  {
    hide RecOf, Live, Chain;
  }

  /** A new inode, before it has any zones. */
  lemma NewInode(v: View, p: Vol, ino: nat, mode: u16)
    requires Inv(v, p, 0, BLANK) && 1 <= ino <= Inodes(p) && !Live(v, p, ino)
    ensures var w := SetMapBit(v, p.dev, 2, ino, true); var r := NewRecord(mode);
      && Inv(w, p, ino, r) && Live(w, p, ino) && SameOthers(v, w, p, ino) && FreeZones(w, p) == FreeZones(v, p)
      && (forall z: nat :: InData(p, z) ==> ZSet(w, p, z) == ZSet(v, p, z))
      && (forall z: u16 :: Stray(w, p, ino, r, z) == Stray(v, p, 0, BLANK, z))
  {
    hide Record, Chain, Margins, ZSet, InData, Formed, Live, SetMapBit, SameOthers, FreeZones;
    var w := SetMapBit(v, p.dev, 2, ino, true);
    var r := NewRecord(mode);
    NewChain(w, p, mode);
    DeadReaches(v, p, ino, r);
    InodeBitOthers(v, p, ino, true, r);
    OthersReach(v, w, p, ino, r, r);
    InodeBit(v, p, ino, true, ino);
    forall z: nat
      ensures InData(p, z) ==> ZSet(w, p, z) == ZSet(v, p, z)
    {
      InodeBit(v, p, ino, true, z);
    }
    assert forall i, q, z: u16 :: Reaches(w, p, ino, r, i, q, z) == Reaches(v, p, 0, BLANK, i, q, z);
    DeadFormed(v, p, ino, r);
    KeepsFormed(v, w, p, ino, r, r);
  }

  /** An inode that is not in use reaches nothing. */
  lemma DeadReaches(v: View, p: Vol, ino: nat, r: INode)
    requires !Live(v, p, ino) && ino != 0
    ensures forall i, q, z: u16 :: Reaches(v, p, ino, r, i, q, z) == Reaches(v, p, 0, BLANK, i, q, z)
  {
    hide Chain;
  }

  lemma DeadFormed(v: View, p: Vol, ino: nat, r: INode)
    requires !Live(v, p, ino) && ino != 0 && AllFormed(v, p, 0, BLANK)
    ensures AllFormed(v, p, ino, r)
  {
    hide Formed;
    forall i | Live(v, p, i)
      ensures Formed(v, p, RecOf(v, p, ino, r, i))
    {
      assert Formed(v, p, RecOf(v, p, 0, BLANK, i));
    }
  }

  /** A new file with up to six zones: it is in order, its zones were free, and no other file is concerned. */
  lemma CreateKeeps(v: View, p: Vol, mode: u16, nr: nat)
    requires Inv(v, p, 0, BLANK) && nr <= 6 && nr <= FreeZones(v, p) && TakeInode(v, p.dev, p.sb).1 > 0
    ensures var (w, ino, s) := CreateFile(v, p, mode, nr);
      && 1 <= ino <= Inodes(p) && !Live(v, p, ino) && Live(w, p, ino)
      && Inv(w, p, ino, s) && Record(w, p, ino) == s && SameOthers(v, w, p, ino)
      && s.mode == mode && s.nlinks == 1 && s.uid == 0 && s.size == 0 && s.mtime == 0 && s.gid == 0
      && Lead(Chain(w, p, s)) == nr && Fresh(v, w, p, s, 0)
      && forall z: u16 :: Stray(w, p, ino, s, z) == Stray(v, p, 0, BLANK, z)
  {
    hide Record, Chain, ZSet, InData, Formed, Live, SetMapBit, SameOthers, FreeZones, Inv, Grow, Stray, Balance, Synced;
    InvFits(v, p, 0, BLANK);
    TakeInodeShape(v, p);
    var (u, ino) := TakeInode(v, p.dev, p.sb);
    var r := NewRecord(mode);
    NewInode(v, p, ino, mode);
    NewChain(u, p, mode);
    GrowKeeps(u, p, ino, r, 0, nr);
    var (x, s) := Grow(u, p, r, 0, nr);
    SyncInv(x, p, ino, s);
    var w := Synced(x, p, ino, s);
    SameOthersTransitive(v, u, x, p, ino);
    SameOthersTransitive(v, x, w, p, ino);
    forall z: u16
      ensures Stray(w, p, ino, s, z) == Stray(v, p, 0, BLANK, z)
    {
      KeepsStray(u, x, p, ino, r, s, z);
      KeepsStray(x, w, p, ino, s, s, z);
    }
    InvOwn(w, p, ino, s);
    NewFresh(v, u, x, w, p, s);
  }

  lemma InvFits(v: View, p: Vol, me: nat, r: INode)
    requires Inv(v, p, me, r)
    ensures Fits(p) && Margins(v, p)
  {
  }

  lemma NewFresh(v: View, u: View, x: View, w: View, p: Vol, s: INode)
    requires Fresh(u, x, p, s, 0) && Chain(w, p, s) == Chain(x, p, s) && Own(w, p, s)
    requires forall z: nat :: InData(p, z) ==> ZSet(u, p, z) == ZSet(v, p, z)
    requires forall z: nat :: InData(p, z) ==> ZSet(w, p, z) == ZSet(x, p, z)
    ensures Fresh(v, w, p, s, 0)
  {
    hide Chain, ZSet;
  }
}
