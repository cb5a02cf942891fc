/** What the files of a device are made of: records, the zones they reach, and what all files together obey. */
module FsFiles {
  import opened Bits
  import opened Cache
  import opened FsLayout
  import opened FsBitmap

  /** A device and its super block. */
  datatype Vol = Vol(dev: nat, sb: Super)

  /** How many inodes the table has room for: it lies between the bitmaps and the data. */
  function Inodes(p: Vol): int {
    INODES_PER_ZONE * (p.sb.fst - 2 - p.sb.imapBlk - p.sb.zmapBlk)
  }

  predicate Fits(p: Vol) {
    p.dev < 0x1_0000 && Laid(p.sb) && 1 <= p.sb.zmapBlk && Inodes(p) < BITS_PER_ZONE * p.sb.imapBlk
  }

  // ---------------------------------------------------------------- records

  function RecLoc(p: Vol, i: nat): Loc {
    Loc(p.dev, 2 + p.sb.imapBlk + p.sb.zmapBlk + (i - 1) / INODES_PER_ZONE)
  }

  function RecOff(i: nat): (o: nat)
    ensures o + INODE_SIZE <= ZONE_SIZE
  {
    (i - 1) % INODES_PER_ZONE * INODE_SIZE
  }

  /** The record of inode `i` on the device. */
  ghost function Record(v: View, p: Vol, i: nat): INode {
    Decode(v[RecLoc(p, i)][RecOff(i)..RecOff(i) + INODE_SIZE])
  }

  /** The device after `inode_sync`. */
  ghost function Synced(v: View, p: Vol, i: nat, r: INode): View {
    Written(v, RecLoc(p, i), RecOff(i), Encode(r))
  }

  /** Writing one record leaves every other as it was. */
  lemma SyncedRecords(v: View, p: Vol, i: nat, r: INode, j: nat)
    requires 1 <= i && 1 <= j
    ensures Record(Synced(v, p, i, r), p, j) == if j == i then r else Record(v, p, j)
  {
    hide Encode, Decode;
    InodeRoundTrip(r);
    var w := Synced(v, p, i, r);
    if RecLoc(p, i) == RecLoc(p, j) {
      var b, o, x := v[RecLoc(p, i)], RecOff(i), RecOff(j);
      if i == j {
        assert Splice(b, o, Encode(r))[o..o + 32] == Encode(r);
      } else {
        assert x + 32 <= o || o + 32 <= x;
        assert Splice(b, o, Encode(r))[x..x + 32] == b[x..x + 32];
      }
    }
  }

  // ---------------------------------------------------------------- the zones of a file

  ghost function Entries(v: View, p: Vol, zone: nat): (s: seq<u16>)
    ensures |s| == 512
  {
    seq(512, j requires 0 <= j < 512 => Entry(v[Loc(p.dev, zone)], j))
  }

  /**
   * All a record refers to: the seven direct zones, the indirect block, and what that holds. In a proper
   * file this is a run of zones, and zeros after it.
   */
  ghost function Chain(v: View, p: Vol, r: INode): (c: seq<u16>)
    ensures |c| == 520
  {
    r.zone[..8] + if r.zone[7] == 0 then seq(512, i => 0) else Entries(v, p, r.zone[7])
  }

  /** How many zones come before the first zero. */
  function Lead(c: seq<u16>): (n: nat)
    ensures n <= |c|
    ensures forall i :: 0 <= i < n ==> c[i] != 0
    ensures n < |c| ==> c[n] == 0
  {
    if c == [] || c[0] == 0 then 0
    else
      var n := 1 + Lead(c[1..]);
      assert forall i :: 1 <= i < n ==> c[i] == c[1..][i - 1];
      n
  }

  lemma LeadIs(c: seq<u16>, n: nat)
    requires n <= |c| && (forall i :: 0 <= i < n ==> c[i] != 0) && (n < |c| ==> c[n] == 0)
    ensures Lead(c) == n
  {
    var m := Lead(c);
    assert m < |c| ==> c[m] == 0;
  }

  /** How many of the zones in a run of `n` hold data: all but the indirect block. */
  function DataCount(n: nat): nat {
    if n <= 7 then n else n - 1
  }

  /** A proper record: a run of zones, at least one entry if there is an indirect block, and room for the size. */
  ghost predicate Formed(v: View, p: Vol, r: INode) {
    var c := Chain(v, p, r);
    && r.zone[8] == 0
    && (forall q :: Lead(c) <= q < 520 ==> c[q] == 0)
    && Lead(c) <= 519 && Lead(c) != 8
    && r.size <= ZONE_SIZE * DataCount(Lead(c))
  }

  /** How many zones `inode_get_allocated_size` counts. */
  ghost function Allocated(v: View, p: Vol, r: INode): nat {
    if r.zone[7] != 0 then 7 + Lead(Entries(v, p, r.zone[7])) else Lead(r.zone[..8])
  }

  /** Its count is the number of data zones of a proper file. */
  lemma AllocatedIsDataCount(v: View, p: Vol, r: INode)
    requires Formed(v, p, r)
    ensures Allocated(v, p, r) == DataCount(Lead(Chain(v, p, r)))
    ensures r.zone[7] == 0 <==> Lead(Chain(v, p, r)) <= 7
  {
    var c := Chain(v, p, r);
    var n := Lead(c);
    assert c[7] == r.zone[7];
    if r.zone[7] != 0 {
      assert forall j :: 0 <= j < 512 ==> Entries(v, p, r.zone[7])[j] == c[8 + j];
      LeadIs(Entries(v, p, r.zone[7]), n - 8);
    } else {
      assert forall j :: 0 <= j < 8 ==> r.zone[..8][j] == c[j];
      LeadIs(r.zone[..8], n);
    }
  }

  // ---------------------------------------------------------------- all files together

  /** A zone of the data area that has a bit in the bitmap. */
  predicate InData(p: Vol, z: nat) {
    p.sb.fst <= z && z - p.sb.fst + 1 < BITS_PER_ZONE * p.sb.zmapBlk
  }

  ghost predicate ZSet(v: View, p: Vol, z: nat) {
    p.sb.fst <= z && MapBit(v, p.dev, p.sb.imapBlk + 2, z - p.sb.fst + 1)
  }

  /** An inode that is in use. */
  ghost predicate Live(v: View, p: Vol, i: nat) {
    1 <= i <= Inodes(p) && MapBit(v, p.dev, 2, i)
  }

  /** The record of inode `i`, where the one of inode `me` is the one in memory. */
  ghost function RecOf(v: View, p: Vol, me: nat, r: INode, i: nat): INode {
    if i == me then r else Record(v, p, i)
  }

  /** Inode `i` reaches zone `z`, at place `q` of its chain. */
  ghost predicate Reaches(v: View, p: Vol, me: nat, r: INode, i: nat, q: nat, z: u16) {
    Live(v, p, i) && q < 520 && z != 0 && Chain(v, p, RecOf(v, p, me, r, i))[q] == z
  }

  /** Every zone that is reached is a marked zone of the data area. */
  ghost predicate Marked(v: View, p: Vol, me: nat, r: INode) {
    forall i, q, z: u16 :: Reaches(v, p, me, r, i, q, z) ==> InData(p, z) && ZSet(v, p, z)
  }

  /** No zone is reached twice, neither by two files nor by one. */
  ghost predicate Disjoint(v: View, p: Vol, me: nat, r: INode) {
    forall i, q, j, s, z: u16 :: Reaches(v, p, me, r, i, q, z) && Reaches(v, p, me, r, j, s, z) ==> i == j && q == s
  }

  ghost predicate AllFormed(v: View, p: Vol, me: nat, r: INode) {
    forall i :: Live(v, p, i) ==> Formed(v, p, RecOf(v, p, me, r, i))
  }

  /** The unused bits are set, and so are those for which there is no inode or no zone number. */
  ghost predicate Margins(v: View, p: Vol) {
    && MapBit(v, p.dev, 2, 0) && MapBit(v, p.dev, p.sb.imapBlk + 2, 0)
    && (forall k: nat :: Inodes(p) < k < BITS_PER_ZONE * p.sb.imapBlk ==> MapBit(v, p.dev, 2, k))
    && (forall z: nat :: 0x1_0000 <= z && InData(p, z) ==> ZSet(v, p, z))
  }

  /** The invariant of the storage stack, while inode `me` is in memory as `r`; 0 is no inode. */
  ghost predicate Inv(v: View, p: Vol, me: nat, r: INode) {
    Fits(p) && Margins(v, p) && Marked(v, p, me, r) && Disjoint(v, p, me, r) && AllFormed(v, p, me, r)
  }

  /** A zone that is marked though no file reaches it. */
  ghost predicate Stray(v: View, p: Vol, me: nat, r: INode, z: u16) {
    InData(p, z) && ZSet(v, p, z) && forall i, q :: !Reaches(v, p, me, r, i, q, z)
  }

  // ---------------------------------------------------------------- what a step on one file does to the others

  /** A file with its record, its zones and all that they hold. */
  ghost predicate SameFile(v: View, w: View, p: Vol, i: nat) {
    && Record(w, p, i) == Record(v, p, i)
    && Chain(w, p, Record(v, p, i)) == Chain(v, p, Record(v, p, i))
    && forall q :: 0 <= q < 520 && Chain(v, p, Record(v, p, i))[q] != 0 ==>
         SameBlock(v, w, p, Chain(v, p, Record(v, p, i))[q])
  }

  ghost predicate SameBlock(v: View, w: View, p: Vol, z: nat) {
    w[Loc(p.dev, z)] == v[Loc(p.dev, z)]
  }

  ghost predicate SameOthers(v: View, w: View, p: Vol, me: nat) {
    forall i :: 1 <= i <= Inodes(p) && i != me ==> Live(w, p, i) == Live(v, p, i) && (Live(v, p, i) ==> SameFile(v, w, p, i))
  }

  lemma SameOthersTransitive(u: View, v: View, w: View, p: Vol, me: nat)
    requires SameOthers(u, v, p, me) && SameOthers(v, w, p, me)
    ensures SameOthers(u, w, p, me)
  {
    hide Record, Chain, Live;
    forall i: nat | 1 <= i <= Inodes(p) && i != me
      ensures Live(w, p, i) == Live(u, p, i) && (Live(u, p, i) ==> SameFile(u, w, p, i))
    {
      assert Live(v, p, i) == Live(u, p, i);
      if Live(u, p, i) {
        assert SameFile(u, v, p, i) && SameFile(v, w, p, i);
        var c := Chain(u, p, Record(u, p, i));
        forall q | 0 <= q < 520 && c[q] != 0
          ensures SameBlock(u, w, p, c[q])
        {
          assert SameBlock(u, v, p, c[q]) && SameBlock(v, w, p, c[q]);
        }
      }
    }
  }

  /** A zone in use, but not by the file with record `r`. */
  ghost predicate Foreign(v: View, p: Vol, r: INode, z: u16) {
    ZSet(v, p, z) && z !in Chain(v, p, r)
  }

  /** What this file does not reach stays marked as it was. */
  ghost predicate Balance(v: View, w: View, p: Vol, r: INode, s: INode) {
    forall z: u16 :: z != 0 && InData(p, z) ==> Foreign(w, p, s, z) == Foreign(v, p, r, z)
  }

  /** The zones of one file are marked data zones and differ from each other. */
  ghost predicate Own(v: View, p: Vol, r: INode) {
    var c := Chain(v, p, r);
    && (forall q :: 0 <= q < 520 && c[q] != 0 ==> InData(p, c[q]) && ZSet(v, p, c[q]))
    && (forall q, s :: 0 <= q < s < 520 && c[q] != 0 ==> c[q] != c[s])
  }

  lemma OwnOf(v: View, p: Vol, me: nat, r: INode)
    requires Marked(v, p, me, r) && Disjoint(v, p, me, r) && Live(v, p, me)
    ensures Own(v, p, r)
  {
    hide Chain, ZSet, Live, InData;
    var c := Chain(v, p, r);
    assert forall q :: 0 <= q < 520 && c[q] != 0 ==> Reaches(v, p, me, r, me, q, c[q]);
  }

  /** What other files reach is as before. */
  lemma OthersReach(v: View, w: View, p: Vol, me: nat, r: INode, s: INode)
    requires SameOthers(v, w, p, me)
    ensures forall i, q, z: u16 :: i != me ==> Reaches(w, p, me, s, i, q, z) == Reaches(v, p, me, r, i, q, z)
  {
    hide Chain, Record, SameBlock;
    forall i, q, z: u16 | i != me
      ensures Reaches(w, p, me, s, i, q, z) == Reaches(v, p, me, r, i, q, z)
    {
      assert Live(v, p, i) || Live(w, p, i) ==> Live(w, p, i) == Live(v, p, i) && SameFile(v, w, p, i);
    }
  }

  lemma ReachedByOthersIsForeign(v: View, p: Vol, me: nat, r: INode, i: nat, q: nat, z: u16)
    requires Marked(v, p, me, r) && Disjoint(v, p, me, r) && Live(v, p, me) && i != me && Reaches(v, p, me, r, i, q, z)
    ensures InData(p, z) && Foreign(v, p, r, z)
  {
    hide Chain, ZSet, Live, InData;
    var c := Chain(v, p, r);
    assert forall s :: 0 <= s < |c| && c[s] == z ==> Reaches(v, p, me, r, me, s, z);
  }

  /** A step on one file that keeps its own zones in order keeps everything in order. */
  lemma KeepsSound(v: View, w: View, p: Vol, me: nat, r: INode, s: INode)
    requires Marked(v, p, me, r) && Disjoint(v, p, me, r) && Live(v, p, me) && Live(w, p, me)
    requires SameOthers(v, w, p, me) && Balance(v, w, p, r, s) && Own(w, p, s)
    ensures Marked(w, p, me, s) && Disjoint(w, p, me, s)
  {
    hide SameOthers, Chain, ZSet, Live, InData;
    OthersReach(v, w, p, me, r, s);
    forall i, q, z: u16 | Reaches(w, p, me, s, i, q, z)
      ensures InData(p, z) && ZSet(w, p, z)
      ensures i != me ==> z !in Chain(w, p, s)
    {
      if i != me {
        ReachedByOthersIsForeign(v, p, me, r, i, q, z);
        assert Foreign(w, p, s, z);
      }
    }
    forall i, q, j, t, z: u16 | Reaches(w, p, me, s, i, q, z) && Reaches(w, p, me, s, j, t, z)
      ensures i == j && q == t
    {
      if i != me && j != me {
        assert Reaches(v, p, me, r, i, q, z) && Reaches(v, p, me, r, j, t, z);
      }
    }
  }

  /** The others keep their form. */
  lemma KeepsFormed(v: View, w: View, p: Vol, me: nat, r: INode, s: INode)
    requires AllFormed(v, p, me, r) && SameOthers(v, w, p, me) && (Live(w, p, me) ==> Formed(w, p, s))
    ensures AllFormed(w, p, me, s)
  {
    hide Chain, Record, SameBlock;
    forall i | Live(w, p, i)
      ensures Formed(w, p, RecOf(w, p, me, s, i))
    {
      if i != me {
        assert Live(v, p, i) && SameFile(v, w, p, i);
        assert Formed(v, p, RecOf(v, p, me, r, i));
      }
    }
  }

  lemma StrayIs(v: View, p: Vol, me: nat, r: INode, z: u16)
    requires Live(v, p, me) && z != 0 && InData(p, z)
    ensures Stray(v, p, me, r, z) <==> Foreign(v, p, r, z) && forall i, q :: i != me ==> !Reaches(v, p, me, r, i, q, z)
  {
    hide Chain, ZSet, Live, InData;
    var c := Chain(v, p, r);
    if z in c {
      var q :| 0 <= q < |c| && c[q] == z;
      assert Reaches(v, p, me, r, me, q, z);
    }
  }

  /** Such a step loses no zone and frees none that is in use: what is marked without reason stays the same. */
  lemma KeepsStray(v: View, w: View, p: Vol, me: nat, r: INode, s: INode, z: u16)
    requires Live(v, p, me) && Live(w, p, me) && SameOthers(v, w, p, me) && Balance(v, w, p, r, s) && Fits(p)
    ensures Stray(w, p, me, s, z) == Stray(v, p, me, r, z)
  {
    if z != 0 && InData(p, z) {
      hide SameOthers, Chain, ZSet, Live, InData, Stray;
      OthersReach(v, w, p, me, r, s);
      StrayIs(v, p, me, r, z);
      StrayIs(w, p, me, s, z);
      assert Foreign(w, p, s, z) == Foreign(v, p, r, z);
    }
  }

  // ---------------------------------------------------------------- which zones a step may change

  /** Only the zone bitmap and the zones `zs` differ. */
  ghost predicate Touches(v: View, w: View, p: Vol, zs: set<nat>) {
    forall l: Loc :: w[l] != v[l] ==> l.dev == p.dev && (InZmap(p, l.zone) || l.zone in zs)
  }

  predicate InZmap(p: Vol, zone: nat) {
    2 + p.sb.imapBlk <= zone < 2 + p.sb.imapBlk + p.sb.zmapBlk
  }

  lemma TouchesTransitive(u: View, v: View, w: View, p: Vol, zs: set<nat>)
    requires Touches(u, v, p, zs) && Touches(v, w, p, zs)
    ensures Touches(u, w, p, zs)
  {
    forall l: Loc | w[l] != u[l]
      ensures l.dev == p.dev && (InZmap(p, l.zone) || l.zone in zs)
    {
      if w[l] == v[l] {
        assert v[l] != u[l];
      }
    }
  }

  /** A step that touches, besides the zone bitmap, only data zones leaves records and the inode bitmap alone. */
  lemma TouchesNoRecord(v: View, w: View, p: Vol, zs: set<nat>, i: nat)
    requires Fits(p) && Touches(v, w, p, zs) && (forall z :: z in zs ==> p.sb.fst <= z)
    ensures 1 <= i <= Inodes(p) ==> Record(w, p, i) == Record(v, p, i)
    ensures i < BITS_PER_ZONE * p.sb.imapBlk ==> MapBit(w, p.dev, 2, i) == MapBit(v, p.dev, 2, i)
    ensures Live(w, p, i) == Live(v, p, i)
  {
    if 1 <= i <= Inodes(p) {
      var l := RecLoc(p, i);
      assert 2 + p.sb.imapBlk + p.sb.zmapBlk <= l.zone < p.sb.fst;
      assert w[l] == v[l];
    }
    if i < BITS_PER_ZONE * p.sb.imapBlk {
      var l := BitLoc(p.dev, 2, i);
      assert i / 8 / 1024 < p.sb.imapBlk;
      assert w[l] == v[l];
    }
  }

  /** If the zones touched are the file's own, or were free, the other files are as they were. */
  lemma TouchesNoOther(v: View, w: View, p: Vol, me: nat, r: INode, zs: set<nat>)
    requires Fits(p) && Live(v, p, me) && Marked(v, p, me, r) && Disjoint(v, p, me, r) && Touches(v, w, p, zs)
    requires forall z :: z in zs ==> InData(p, z) && forall i, q, y: u16 :: i != me && Reaches(v, p, me, r, i, q, y) ==> y != z
    ensures SameOthers(v, w, p, me)
  {
    hide Record;
    forall i | 1 <= i <= Inodes(p) && i != me
      ensures Live(w, p, i) == Live(v, p, i) && (Live(v, p, i) ==> SameFile(v, w, p, i))
    {
      TouchesNoRecord(v, w, p, zs, i);
      if Live(v, p, i) {
        TouchesNoFile(v, w, p, me, r, zs, i);
      }
    }
  }

  lemma TouchesNoFile(v: View, w: View, p: Vol, me: nat, r: INode, zs: set<nat>, i: nat)
    requires Fits(p) && Marked(v, p, me, r) && Touches(v, w, p, zs) && Live(v, p, i) && i != me
    requires forall z :: z in zs ==> InData(p, z) && forall i, q, y: u16 :: i != me && Reaches(v, p, me, r, i, q, y) ==> y != z
    ensures SameFile(v, w, p, i)
  {
    hide Record, ZSet;
    TouchesNoRecord(v, w, p, zs, i);
    var x := Record(v, p, i);
    var c := Chain(v, p, x);
    forall q | 0 <= q < 520 && c[q] != 0
      ensures SameBlock(v, w, p, c[q])
    {
      assert Reaches(v, p, me, r, i, q, c[q]);
    }
    assert c[7] == x.zone[7] && (c[7] != 0 ==> SameBlock(v, w, p, c[7]));
    ChainSame(v, w, p, x);
  }

  /** A chain depends on the record and on the indirect block only. */
  lemma ChainSame(v: View, w: View, p: Vol, r: INode)
    requires r.zone[7] != 0 ==> w[Loc(p.dev, r.zone[7])] == v[Loc(p.dev, r.zone[7])]
    ensures Chain(w, p, r) == Chain(v, p, r)
  {
    if r.zone[7] != 0 {
      assert Entries(w, p, r.zone[7]) == Entries(v, p, r.zone[7]);
    }
  }
}
