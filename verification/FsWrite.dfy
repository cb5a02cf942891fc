/** Writing and reading files: how a file grows, where its bytes go, and what a read finds. */
module FsWrite {
  import opened Bits
  import opened Cache
  import opened FsLayout
  import opened FsBitmap
  import opened FsFiles

  // ---------------------------------------------------------------- writing the record back

  /** Only the zone of the record differs, and in it only this record. */
  lemma SyncOnly(v: View, p: Vol, me: nat, r: INode, i: nat)
    requires Fits(p) && 1 <= me <= Inodes(p)
    ensures var w := Synced(v, p, me, r);
      && (forall l: Loc :: l != RecLoc(p, me) ==> w[l] == v[l])
      && 2 + p.sb.imapBlk + p.sb.zmapBlk <= RecLoc(p, me).zone < p.sb.fst
      && (i <= Inodes(p) ==> MapBit(w, p.dev, 2, i) == MapBit(v, p.dev, 2, i)) && Live(w, p, i) == Live(v, p, i)
      && (InData(p, i) ==> ZSet(w, p, i) == ZSet(v, p, i))
  {
    hide Encode;
    if i <= Inodes(p) {
      assert i / 8 / 1024 < p.sb.imapBlk;
    }
    if InData(p, i) {
      assert (i - p.sb.fst + 1) / 8 / 1024 < p.sb.zmapBlk;
    }
  }

  /** A record written back changes no other file, and no zone of this one. */
  lemma SyncKeeps(v: View, p: Vol, me: nat, r: INode)
    requires Fits(p) && Live(v, p, me) && Marked(v, p, me, r)
    ensures var w := Synced(v, p, me, r); SameOthers(v, w, p, me) && Chain(w, p, r) == Chain(v, p, r) && Record(w, p, me) == r
  {
    hide Encode, Record, Synced, ZSet;
    var w := Synced(v, p, me, r);
    SyncedRecords(v, p, me, r, me);
    SyncOnly(v, p, me, r, me);
    assert r.zone[7] != 0 ==> Reaches(v, p, me, r, me, 7, r.zone[7]);
    ChainSame(v, w, p, r);
    forall i: nat | 1 <= i <= Inodes(p) && i != me
      ensures Live(w, p, i) == Live(v, p, i) && (Live(v, p, i) ==> SameFile(v, w, p, i))
    {
      SyncOnly(v, p, me, r, i);
      SyncedRecords(v, p, me, r, i);
      if Live(v, p, i) {
        var x := Record(v, p, i);
        var c := Chain(v, p, x);
        forall q | 0 <= q < 520 && c[q] != 0
          ensures SameBlock(v, w, p, c[q])
        {
          assert Reaches(v, p, me, r, i, q, c[q]);
        }
        assert c[7] == x.zone[7] && (c[7] != 0 ==> SameBlock(v, w, p, c[7]));
        ChainSame(v, w, p, x);
      }
    }
  }

  lemma SyncBalance(v: View, p: Vol, me: nat, r: INode)
    requires Fits(p) && Live(v, p, me) && Marked(v, p, me, r) && Disjoint(v, p, me, r)
    ensures var w := Synced(v, p, me, r); Balance(v, w, p, r, r) && Own(w, p, r) && Live(w, p, me)
    ensures Margins(v, p) ==> Margins(Synced(v, p, me, r), p)
  {
    hide Encode, Record, Synced, ZSet, Chain, MapBit;
    var w := Synced(v, p, me, r);
    SyncKeeps(v, p, me, r);
    OwnOf(v, p, me, r);
    forall i: nat
      ensures i <= Inodes(p) ==> MapBit(w, p.dev, 2, i) == MapBit(v, p.dev, 2, i)
      ensures InData(p, i) ==> ZSet(w, p, i) == ZSet(v, p, i)
    {
      SyncOnly(v, p, me, r, i);
    }
    SyncOnly(v, p, me, r, me);
    if Margins(v, p) {
      SyncMargins(v, p, me, r);
    }
  }

  lemma SyncMargins(v: View, p: Vol, me: nat, r: INode)
    requires Fits(p) && 1 <= me <= Inodes(p) && Margins(v, p)
    ensures Margins(Synced(v, p, me, r), p)
  {
    hide Synced, MapBit;
    var w := Synced(v, p, me, r);
    SyncOnly(v, p, me, r, me);
    forall i: nat
      ensures InData(p, i) ==> ZSet(w, p, i) == ZSet(v, p, i)
    {
      SyncOnly(v, p, me, r, i);
    }
    forall k: nat | k < BITS_PER_ZONE * p.sb.imapBlk
      ensures MapBit(w, p.dev, 2, k) == MapBit(v, p.dev, 2, k)
    {
      BitElsewhere(v, w, p.dev, 2, k);
    }
    BitElsewhere(v, w, p.dev, p.sb.imapBlk + 2, 0);
  }

  lemma BitElsewhere(v: View, w: View, d: nat, st: nat, k: nat)
    requires w[BitLoc(d, st, k)] == v[BitLoc(d, st, k)]
    ensures MapBit(w, d, st, k) == MapBit(v, d, st, k)
  {
  }

  // ---------------------------------------------------------------- growing

  /** An `int` in a 16-bit field. */
  function AsU16(n: int): u16 {
    n % 0x1_0000
  }

  /** Takes a zone for the data from `i * 1024` on. */
  ghost function GrowOne(v: View, p: Vol, r: INode, i: nat): (View, INode) {
    var (w, n) := TakeZone(v, p.dev, p.sb);
    if i < 7 then (w, r.(zone := r.zone[i := AsU16(n)]))
    else (Written(w, Loc(p.dev, r.zone[7]), 2 * (i - 7), LE(AsU16(n), 2)), r)
  }

  ghost function Grow(v: View, p: Vol, r: INode, i: nat, total: nat): (View, INode)
    decreases total - i
  {
    if i >= total then (v, r)
    else
      var (w, s) := GrowOne(v, p, r, i);
      Grow(w, p, s, i + 1, total)
  }

  /** How many zones are free. */
  ghost function FreeZones(v: View, p: Vol): nat {
    ClearBits(v, p.dev, p.sb.imapBlk + 2, BITS_PER_ZONE * p.sb.zmapBlk)
  }

  /** A zone that is taken was free, has a number that fits, and is marked afterwards; nothing else changes. */
  lemma TakeZoneShape(v: View, p: Vol)
    requires Fits(p) && Margins(v, p) && FreeZones(v, p) >= 1
    ensures var (w, n) := TakeZone(v, p.dev, p.sb);
      && p.sb.fst <= n < 0x1_0000 && InData(p, n) && !ZSet(v, p, n)
      && (forall z: nat :: InData(p, z) ==> ZSet(w, p, z) == (ZSet(v, p, z) || z == n))
      && Touches(v, w, p, {}) && Margins(w, p) && FreeZones(w, p) == FreeZones(v, p) - 1
  {
    hide ClearBits, LeastClear, SetMapBit, MapBit;
    var st := p.sb.imapBlk + 2;
    var k := LeastClear(v, p.dev, st, BITS_PER_ZONE * p.sb.zmapBlk, 0);
    var w := SetMapBit(v, p.dev, st, k, true);
    SetMapBitOnly(v, p.dev, st, k, true);
    assert k / 8 / 1024 < p.sb.zmapBlk;
    ClearBitsLess(v, w, p.dev, st, BITS_PER_ZONE * p.sb.zmapBlk, k);
    assert ZSet(v, p, k - 1 + p.sb.fst) == MapBit(v, p.dev, st, k);
    assert forall l: Loc :: l != BitLoc(p.dev, st, k) ==> w[l] == v[l];
    TakeMargins(v, w, p);
  }

  lemma TakeMargins(v: View, w: View, p: Vol)
    requires Fits(p) && Margins(v, p) && Touches(v, w, p, {})
    requires MapBit(w, p.dev, p.sb.imapBlk + 2, 0) && forall z: nat :: InData(p, z) && ZSet(v, p, z) ==> ZSet(w, p, z)
    ensures Margins(w, p)
  {
    hide MapBit;
    forall i: nat | i < BITS_PER_ZONE * p.sb.imapBlk
      ensures MapBit(w, p.dev, 2, i) == MapBit(v, p.dev, 2, i)
    {
      TouchesNoRecord(v, w, p, {}, i);
    }
  }

  /** A step that only writes to the data area changes no bitmap. */
  ghost predicate Above(v: View, w: View, p: Vol) {
    forall l: Loc :: w[l] != v[l] ==> p.sb.fst <= l.zone
  }

  lemma AboveKeepsBits(v: View, w: View, p: Vol)
    requires Fits(p) && Above(v, w, p)
    ensures forall z: nat :: InData(p, z) ==> ZSet(w, p, z) == ZSet(v, p, z)
    ensures forall i: nat :: Live(w, p, i) == Live(v, p, i)
    ensures FreeZones(w, p) == FreeZones(v, p)
    ensures Margins(v, p) ==> Margins(w, p)
  {
    hide MapBit, ClearBits;
    var st := p.sb.imapBlk + 2;
    forall i: nat | i < BITS_PER_ZONE * p.sb.zmapBlk
      ensures MapBit(w, p.dev, st, i) == MapBit(v, p.dev, st, i)
    {
      assert i / 8 / 1024 < p.sb.zmapBlk;
      BitElsewhere(v, w, p.dev, st, i);
    }
    forall i: nat | i < BITS_PER_ZONE * p.sb.imapBlk
      ensures MapBit(w, p.dev, 2, i) == MapBit(v, p.dev, 2, i)
    {
      assert i / 8 / 1024 < p.sb.imapBlk;
      BitElsewhere(v, w, p.dev, 2, i);
    }
    ClearBitsSame(v, w, p.dev, st, BITS_PER_ZONE * p.sb.zmapBlk);
    assert forall z: nat :: InData(p, z) ==> ZSet(w, p, z) == ZSet(v, p, z);
  }

  /** The indirect block of a record. */
  function Indirect(r: INode): set<nat> {
    if r.zone[7] == 0 then {} else {r.zone[7] as nat}
  }

  /** A file that can take a zone at data position `i` without a new indirect block. */
  ghost predicate GrowsAt(v: View, p: Vol, r: INode, i: nat) {
    var n := Lead(Chain(v, p, r));
    Formed(v, p, r) && i == DataCount(n) && (n < 7 || 9 <= n <= 518)
  }

  /** Growing by one: the zone that was taken comes at the end of the chain, and nothing else of it changes. */
  lemma GrowOneChain(v: View, p: Vol, r: INode, i: nat)
    requires Fits(p) && Margins(v, p) && FreeZones(v, p) >= 1 && Own(v, p, r) && GrowsAt(v, p, r, i)
    ensures var c := Chain(v, p, r); var (w, s) := GrowOne(v, p, r, i);
      && Chain(w, p, s) == c[Lead(c) := AsU16(TakeZone(v, p.dev, p.sb).1)]
      && s == r.(zone := s.zone) && s.zone[7] == r.zone[7] && s.zone[8] == r.zone[8]
  {
    hide TakeZone, ClearBits, MapBit, LE, Lead, Margins, FreeZones, Chain, Written, ZSet;
    var (u, n) := TakeZone(v, p.dev, p.sb);
    TakeZoneShape(v, p);
    AllocatedIsDataCount(v, p, r);
    ChainHead(v, p, r);
    assert r.zone[7] != 0 ==> u[Loc(p.dev, r.zone[7])] == v[Loc(p.dev, r.zone[7])];
    if i < 7 {
      NewDirect(v, u, p, r, i, n);
    } else {
      NewEntry(v, u, p, r, i - 7, n);
    }
  }

  /** A number that is put into the record. */
  lemma NewDirect(v: View, u: View, p: Vol, r: INode, i: nat, n: u16)
    requires r.zone[7] != 0 ==> u[Loc(p.dev, r.zone[7])] == v[Loc(p.dev, r.zone[7])]
    requires i < 7
    ensures Chain(u, p, r.(zone := r.zone[i := n])) == Chain(v, p, r)[i := n]
  {
    ChainSame(v, u, p, r);
    hide Entries;
    assert Chain(u, p, r.(zone := r.zone[i := n])) == Chain(u, p, r)[i := n];
  }

  /** A number that is put into an entry of the indirect block. */
  lemma NewEntry(v: View, u: View, p: Vol, r: INode, j: nat, n: u16)
    requires r.zone[7] != 0 && u[Loc(p.dev, r.zone[7])] == v[Loc(p.dev, r.zone[7])] && j < 512
    ensures Chain(Written(u, Loc(p.dev, r.zone[7]), 2 * j, LE(n, 2)), p, r) == Chain(v, p, r)[8 + j := n]
  {
    hide LE, Entry;
    var l := Loc(p.dev, r.zone[7]);
    var w := Written(u, l, 2 * j, LE(n, 2));
    forall k: nat | k < 512
      ensures Entry(w[l], k) == if k == j then n else Entry(v[l], k)
    {
      EntryOfSplice(v[l], j, n, k);
    }
    assert Chain(w, p, r) == Chain(v, p, r)[8 + j := n];
  }

  lemma GrowOneBits(v: View, p: Vol, r: INode, i: nat)
    requires Fits(p) && Margins(v, p) && FreeZones(v, p) >= 1 && Own(v, p, r) && GrowsAt(v, p, r, i)
    ensures var n := TakeZone(v, p.dev, p.sb).1; var (w, s) := GrowOne(v, p, r, i);
      && 0 < n < 0x1_0000 && InData(p, n) && !ZSet(v, p, n)
      && Touches(v, w, p, Indirect(r))
      && Margins(w, p) && FreeZones(w, p) == FreeZones(v, p) - 1
      && (forall z: nat :: InData(p, z) ==> ZSet(w, p, z) == (ZSet(v, p, z) || z == n))
      && (forall j: nat :: Live(w, p, j) == Live(v, p, j))
  {
    hide TakeZone, ClearBits, MapBit, LE, UnLE16, Entry, Live, Margins, FreeZones;
    var (u, n) := TakeZone(v, p.dev, p.sb);
    TakeZoneShape(v, p);
    var (w, s) := GrowOne(v, p, r, i);
    AllocatedIsDataCount(v, p, r);
    assert Chain(v, p, r)[7] == r.zone[7];
    forall j: nat
      ensures Live(u, p, j) == Live(v, p, j)
    {
      TouchesNoRecord(v, u, p, {}, j);
    }
    if i >= 7 {
      AboveKeepsBits(u, w, p);
    }
  }

  lemma LeadGrows(c: seq<u16>, n: u16)
    requires Lead(c) < |c| && n != 0 && forall q :: Lead(c) <= q < |c| ==> c[q] == 0
    ensures Lead(c[Lead(c) := n]) == Lead(c) + 1
  {
    LeadIs(c[Lead(c) := n], Lead(c) + 1);
  }

  /** Growing by one keeps all files in order; this one is longer by a zone that was free. */
  lemma GrowOneKeeps(v: View, p: Vol, me: nat, r: INode, i: nat)
    requires Inv(v, p, me, r) && Live(v, p, me) && GrowsAt(v, p, r, i) && FreeZones(v, p) >= 1
    ensures var (w, s) := GrowOne(v, p, r, i);
      && Inv(w, p, me, s) && Live(w, p, me) && SameOthers(v, w, p, me) && Balance(v, w, p, r, s)
      && Lead(Chain(w, p, s)) == Lead(Chain(v, p, r)) + 1
  {
    hide TakeZone, GrowOne, Margins, FreeZones, ZSet, Live, Chain, Lead, InData;
    var n := TakeZone(v, p.dev, p.sb).1;
    var (w, s) := GrowOne(v, p, r, i);
    var c, d := Chain(v, p, r), Chain(w, p, s);
    OwnOf(v, p, me, r);
    GrowOneChain(v, p, r, i);
    GrowOneBits(v, p, r, i);
    LeadGrows(c, n);
    GrowOneOthers(v, w, p, me, r);
    GrowOneOwn(v, w, p, r, s, n);
    hide Own, Balance;
    KeepsSound(v, w, p, me, r, s);
    KeepsFormed(v, w, p, me, r, s);
  }

  lemma GrowOneOwn(v: View, w: View, p: Vol, r: INode, s: INode, n: u16)
    requires Own(v, p, r) && Formed(v, p, r) && s.size == r.size && s.zone[8] == r.zone[8]
    requires n != 0 && InData(p, n) && !ZSet(v, p, n) && Lead(Chain(v, p, r)) < 519 && Lead(Chain(v, p, r)) != 7
    requires Chain(w, p, s) == Chain(v, p, r)[Lead(Chain(v, p, r)) := n]
    requires forall z: nat :: InData(p, z) ==> ZSet(w, p, z) == (ZSet(v, p, z) || z == n)
    ensures Own(w, p, s) && Balance(v, w, p, r, s) && Formed(w, p, s)
  {
    hide ZSet, Chain, InData;
    var c, d := Chain(v, p, r), Chain(w, p, s);
    LeadGrows(c, n);
    assert d[Lead(c)] == n && forall q :: 0 <= q < 520 && q != Lead(c) ==> d[q] == c[q];
    forall z: u16 | z != 0 && InData(p, z)
      ensures z in d <==> z in c || z == n
    {
      if z in c {
        var q :| 0 <= q < 520 && c[q] == z;
        assert d[q] == z;
      }
    }
  }

  /** What a file's own indirect block holds concerns no other file. */
  lemma GrowOneOthers(v: View, w: View, p: Vol, me: nat, r: INode)
    requires Fits(p) && Marked(v, p, me, r) && Disjoint(v, p, me, r) && Live(v, p, me) && Touches(v, w, p, Indirect(r))
    ensures SameOthers(v, w, p, me)
  {
    hide Live, ZSet;
    if r.zone[7] != 0 {
      assert Reaches(v, p, me, r, me, 7, r.zone[7]);
    }
    TouchesNoOther(v, w, p, me, r, Indirect(r));
  }

  /** What growing a file keeps of it: its zones, and what those that hold data hold. */
  ghost predicate Kept(v: View, w: View, p: Vol, r: INode, s: INode) {
    var c, d := Chain(v, p, r), Chain(w, p, s);
    && s == r.(zone := s.zone)
    && Lead(c) <= Lead(d) && d[..Lead(c)] == c[..Lead(c)]
    && forall q :: 0 <= q < Lead(c) && q != 7 ==> SameBlock(v, w, p, c[q])
  }

  /** The zones beyond the first `n` were free, and what is marked afterwards is what was, and these. */
  ghost predicate Fresh(v: View, w: View, p: Vol, s: INode, n: nat)
    requires n <= 520
  {
    var d := Chain(w, p, s);
    && n <= Lead(d)
    && (forall q :: n <= q < Lead(d) ==> !ZSet(v, p, d[q]))
    && (forall z: nat :: InData(p, z) ==> ZSet(w, p, z) == (ZSet(v, p, z) || z in d[n..Lead(d)]))
  }

  lemma GrowOneKept(v: View, p: Vol, me: nat, r: INode, i: nat)
    requires Inv(v, p, me, r) && Live(v, p, me) && GrowsAt(v, p, r, i) && FreeZones(v, p) >= 1
    ensures var (w, s) := GrowOne(v, p, r, i); Kept(v, w, p, r, s) && Fresh(v, w, p, s, Lead(Chain(v, p, r)))
  {
    hide TakeZone, GrowOne, Margins, FreeZones, ZSet, Live, Chain, Formed, Lead, Touches;
    var n := TakeZone(v, p.dev, p.sb).1;
    var (w, s) := GrowOne(v, p, r, i);
    var c, d := Chain(v, p, r), Chain(w, p, s);
    OwnOf(v, p, me, r);
    GrowOneChain(v, p, r, i);
    GrowOneBits(v, p, r, i);
    FormedRun(v, p, r);
    LeadGrows(c, n);
    DataBlocksKept(v, w, p, r);
    assert d[Lead(c)..Lead(d)] == [n];
  }

  lemma DataBlocksKept(v: View, w: View, p: Vol, r: INode)
    requires Fits(p) && Own(v, p, r) && Touches(v, w, p, Indirect(r))
    ensures var c := Chain(v, p, r); forall q :: 0 <= q < Lead(c) && q != 7 ==> SameBlock(v, w, p, c[q])
  {
    hide Chain, ZSet;
    var c := Chain(v, p, r);
    ChainHead(v, p, r);
    forall q | 0 <= q < Lead(c) && q != 7
      ensures SameBlock(v, w, p, c[q])
    {
      assert c[q] !in Indirect(r);
    }
  }

  lemma ChainHead(v: View, p: Vol, r: INode)
    ensures forall q :: 0 <= q < 8 ==> Chain(v, p, r)[q] == r.zone[q]
  {
  }

  lemma FormedRun(v: View, p: Vol, r: INode)
    requires Formed(v, p, r)
    ensures var c := Chain(v, p, r); Lead(c) <= 519 && forall q :: Lead(c) <= q < 520 ==> c[q] == 0
  {
  }

  lemma KeptTransitive(u: View, v: View, w: View, p: Vol, q: INode, r: INode, s: INode)
    requires Kept(u, v, p, q, r) && Kept(v, w, p, r, s)
    ensures Kept(u, w, p, q, s)
  {
    hide Chain, Lead;
    var b, c, d := Chain(u, p, q), Chain(v, p, r), Chain(w, p, s);
    assert d[..Lead(b)] == d[..Lead(c)][..Lead(b)] == c[..Lead(b)];
    forall k | 0 <= k < Lead(b) && k != 7
      ensures SameBlock(u, w, p, b[k])
    {
      assert b[k] == b[..Lead(b)][k] == c[k];
      assert SameBlock(u, v, p, b[k]) && SameBlock(v, w, p, c[k]);
    }
  }

  lemma KeptRun(v: View, w: View, p: Vol, r: INode, s: INode)
    requires Kept(v, w, p, r, s)
    ensures var n := Lead(Chain(v, p, r)); Chain(w, p, s)[..n] == Chain(v, p, r)[..n]
  {
  }

  lemma RunSplit(c: seq<u16>, d: seq<u16>, n: nat, m: nat, l: nat)
    requires n <= m <= l <= |d| && m <= |c| && d[..m] == c[..m]
    ensures forall z :: z in d[n..l] <==> z in c[n..m] || z in d[m..l]
    ensures forall k :: n <= k < m ==> d[k] == c[k]
  {
    assert d[n..m] == d[..m][n..m] == c[..m][n..m] == c[n..m];
    assert d[n..l] == d[n..m] + d[m..l];
    forall k | n <= k < m
      ensures d[k] == c[k]
    {
      assert d[k] == d[..m][k] && c[k] == c[..m][k];
    }
  }

  lemma FreshTransitive(u: View, v: View, w: View, p: Vol, r: INode, s: INode, n: nat)
    requires n <= 520 && Fresh(u, v, p, r, n) && Fresh(v, w, p, s, Lead(Chain(v, p, r))) && Own(w, p, s)
    requires var m := Lead(Chain(v, p, r)); Chain(w, p, s)[..m] == Chain(v, p, r)[..m]
    ensures Fresh(u, w, p, s, n)
  {
    hide Chain, ZSet;
    var c, d := Chain(v, p, r), Chain(w, p, s);
    var m := Lead(c);
    RunSplit(c, d, n, m, Lead(d));
    forall k | n <= k < Lead(d)
      ensures !ZSet(u, p, d[k])
    {
      if k >= m {
        assert InData(p, d[k]) && !ZSet(v, p, d[k]);
      }
    }
  }

  lemma BalanceTransitive(u: View, v: View, w: View, p: Vol, q: INode, r: INode, s: INode)
    requires Balance(u, v, p, q, r) && Balance(v, w, p, r, s)
    ensures Balance(u, w, p, q, s)
  {
    hide Foreign;
    forall z: u16 | z != 0 && InData(p, z)
      ensures Foreign(w, p, s, z) == Foreign(u, p, q, z)
    {
      assert Foreign(v, p, r, z) == Foreign(u, p, q, z);
    }
  }

  /** Growing a file to `total` zones. */
  lemma {:induction false} GrowKeeps(v: View, p: Vol, me: nat, r: INode, i: nat, total: nat)
    requires Inv(v, p, me, r) && Live(v, p, me) && Formed(v, p, r)
    requires i == DataCount(Lead(Chain(v, p, r))) <= total <= 518 && (total <= 7 || 9 <= Lead(Chain(v, p, r)))
    requires total - i <= FreeZones(v, p)
    ensures var (w, s) := Grow(v, p, r, i, total);
      && Inv(w, p, me, s) && Live(w, p, me) && SameOthers(v, w, p, me) && Balance(v, w, p, r, s)
      && DataCount(Lead(Chain(w, p, s))) == total
      && Kept(v, w, p, r, s) && Fresh(v, w, p, s, Lead(Chain(v, p, r)))
      && FreeZones(w, p) == FreeZones(v, p) - (total - i)
    decreases total - i
  {
    hide Inv, Live, Chain, GrowOne, SameOthers, Balance, Fresh, Kept, FreeZones, Formed;
    if i < total {
      var (v1, r1) := GrowOne(v, p, r, i);
      CanGrow(v, p, me, r, i);
      GrowOneKeeps(v, p, me, r, i);
      GrowOneKept(v, p, me, r, i);
      GrowOneFree(v, p, me, r, i);
      FormedOf(v1, p, me, r1);
      GrowKeeps(v1, p, me, r1, i + 1, total);
      var (w, s) := Grow(v1, p, r1, i + 1, total);
      SameOthersTransitive(v, v1, w, p, me);
      BalanceTransitive(v, v1, w, p, r, r1, s);
      InvOwn(w, p, me, s);
      KeptTransitive(v, v1, w, p, r, r1, s);
      KeptRun(v1, w, p, r1, s);
      FreshTransitive(v, v1, w, p, r1, s, Lead(Chain(v, p, r)));
    } else {
      GrowNothing(v, p, me, r);
    }
  }

  lemma CanGrow(v: View, p: Vol, me: nat, r: INode, i: nat)
    requires Formed(v, p, r) && i == DataCount(Lead(Chain(v, p, r))) < 518 && (i < 7 || 9 <= Lead(Chain(v, p, r)))
    ensures GrowsAt(v, p, r, i)
  {
  }

  lemma GrowOneFree(v: View, p: Vol, me: nat, r: INode, i: nat)
    requires Inv(v, p, me, r) && Live(v, p, me) && GrowsAt(v, p, r, i) && FreeZones(v, p) >= 1
    ensures FreeZones(GrowOne(v, p, r, i).0, p) == FreeZones(v, p) - 1
  {
    hide Chain, ZSet, FreeZones, GrowOne, Live, Margins;
    OwnOf(v, p, me, r);
    GrowOneBits(v, p, r, i);
  }

  lemma FormedOf(v: View, p: Vol, me: nat, r: INode)
    requires Inv(v, p, me, r) && Live(v, p, me)
    ensures Formed(v, p, r) && Lead(Chain(v, p, r)) <= 519
  {
    hide Chain, Marked, Disjoint, Margins;
    assert RecOf(v, p, me, r, me) == r;
  }

  lemma InvOwn(v: View, p: Vol, me: nat, r: INode)
    requires Inv(v, p, me, r) && Live(v, p, me)
    ensures Own(v, p, r) && Fits(p)
  {
    OwnOf(v, p, me, r);
  }

  lemma GrowNothing(v: View, p: Vol, me: nat, r: INode)
    requires Formed(v, p, r)
    ensures SameOthers(v, v, p, me) && Balance(v, v, p, r, r) && Kept(v, v, p, r, r) && Fresh(v, v, p, r, Lead(Chain(v, p, r)))
  {
    hide Chain, ZSet;
    var c := Chain(v, p, r);
    assert c[Lead(c)..Lead(c)] == [];
  }
}
