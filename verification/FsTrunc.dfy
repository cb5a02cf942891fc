/** `inode_trunc` and `inode_remove` on one file: exactly the zones it loses are freed. */
module FsTrunc {
  import opened Bits
  import opened Cache
  import opened FsLayout
  import opened FsBitmap
  import opened FsFiles
  import opened FsWrite
  import opened FsBytes
  import opened FsUpdate

  /** The device after a zone is freed; only zones of the data area have a bit. */
  ghost function Give(v: View, p: Vol, z: nat): View {
    if p.sb.fst <= z then GiveZone(v, p.dev, p.sb, z) else v
  }

  /** Frees the zones of the entries from data position `i` on, and zeroes these. */
  ghost function DropEntries(v: View, p: Vol, r: INode, i: nat, total: nat): View
    requires 7 <= i
    decreases total - i
  {
    if i >= total || i - 7 >= 512 then v else DropEntries(DropEntry(v, p, r.zone[7], i - 7), p, r, i + 1, total)
  }

  ghost function DropEntry(v: View, p: Vol, zone: u16, j: nat): View
    requires j < 512
  {
    Written(Give(v, p, Entry(v[Loc(p.dev, zone)], j)), Loc(p.dev, zone), 2 * j, LE(0, 2))
  }

  /** Frees the zones in the record from `i` on, the indirect block among them. */
  ghost function DropDirect(v: View, p: Vol, r: INode, i: nat, total: nat): (View, INode)
    decreases total - i
  {
    if i >= total || i > 7 then (v, r)
    else DropDirect(Give(v, p, r.zone[i]), p, r.(zone := r.zone[i := 0]), i + 1, total)
  }

  /** The file and the device before size and record are updated. */
  ghost function Shorten(v: View, p: Vol, r: INode, n: nat, total: nat): (View, INode) {
    DropDirect(DropEntries(v, p, r, if n > 7 then n else 7, total), p, r, n, total)
  }

  /** The device and the inode after `inode_trunc`. */
  ghost function TruncFile(v: View, p: Vol, me: nat, r: INode, offset: u32): (View, INode) {
    if offset >= ZONE_SIZE * Allocated(v, p, r) then (v, r)
    else
      var (w, s) := Shorten(v, p, r, ZonesFor(offset), Allocated(v, p, r));
      (Synced(w, p, me, s.(size := offset)), s.(size := offset))
  }

  /** The bits that are set are those that were, without the zones `zs`. */
  ghost predicate Freed(v: View, w: View, p: Vol, zs: seq<u16>) {
    forall z: nat :: InData(p, z) ==> ZSet(w, p, z) == (ZSet(v, p, z) && z !in zs)
  }

  lemma FreedBoth(u: View, v: View, w: View, p: Vol, a: seq<u16>, b: seq<u16>)
    requires Freed(u, v, p, a) && Freed(v, w, p, b)
    ensures Freed(u, w, p, a + b)
  {
    hide ZSet, InData;
  }

  lemma GiveShape(v: View, p: Vol, z: u16)
    requires Fits(p) && InData(p, z)
    ensures var w := Give(v, p, z); Touches(v, w, p, {}) && Freed(v, w, p, [z]) && (Margins(v, p) ==> Margins(w, p))
  {
    hide SetMapBit, MapBit;
    var st := p.sb.imapBlk + 2;
    var k := z - p.sb.fst + 1;
    SetMapBitOnly(v, p.dev, st, k, false);
    assert k / 8 / 1024 < p.sb.zmapBlk;
    var w := Give(v, p, z);
    assert forall l: Loc :: l != BitLoc(p.dev, st, k) ==> w[l] == v[l];
    if Margins(v, p) {
      GiveMargins(v, w, p, z);
    }
  }

  lemma GiveMargins(v: View, w: View, p: Vol, z: u16)
    requires Fits(p) && Margins(v, p) && Touches(v, w, p, {}) && Freed(v, w, p, [z])
    requires MapBit(w, p.dev, p.sb.imapBlk + 2, 0)
    ensures Margins(w, p)
  {
    hide MapBit, ZSet;
    forall i: nat | i < BITS_PER_ZONE * p.sb.imapBlk
      ensures MapBit(w, p.dev, 2, i) == MapBit(v, p.dev, 2, i)
    {
      TouchesNoRecord(v, w, p, {}, i);
    }
  }

  /** Zeroing an entry. */
  lemma EntryZeroed(v: View, p: Vol, zone: u16, j: nat)
    requires Fits(p) && p.sb.fst <= zone && j < 512
    ensures var w := Written(v, Loc(p.dev, zone), 2 * j, LE(0, 2));
      && Entries(w, p, zone) == Entries(v, p, zone)[j := 0]
      && Above(v, w, p) && Touches(v, w, p, {zone as nat})
  {
    hide LE, Entry;
    var l := Loc(p.dev, zone);
    var w := Written(v, l, 2 * j, LE(0, 2));
    forall i: nat | i < 512
      ensures Entry(w[l], i) == if i == j then 0 else Entry(v[l], i)
    {
      EntryOfSplice(v[l], j, 0, i);
    }
    assert Entries(w, p, zone) == Entries(v, p, zone)[j := 0];
  }

  lemma TouchesMore(v: View, w: View, p: Vol, a: set<nat>, b: set<nat>)
    requires Touches(v, w, p, a) && a <= b
    ensures Touches(v, w, p, b)
  {
  }

  function Zeros(n: nat): (c: seq<u16>)
    ensures |c| == n
  {
    seq(n, i => 0)
  }

  lemma DropEntryIs(v: View, p: Vol, zone: u16, j: nat)
    requires Fits(p) && Margins(v, p) && j < 512 && InData(p, zone) && InData(p, Entries(v, p, zone)[j])
    ensures var w := DropEntry(v, p, zone, j); var e := Entries(v, p, zone);
      && Entries(w, p, zone) == e[j := 0] && Touches(v, w, p, {zone as nat}) && Freed(v, w, p, [e[j]]) && Margins(w, p)
  {
    hide Entries, Give, Touches, Freed, Margins, Above, Written, LE, Entry;
    var e := Entries(v, p, zone);
    var w := Give(v, p, Entry(v[Loc(p.dev, zone)], j));
    EntryIs(v, p, zone, j);
    GiveShape(v, p, e[j]);
    EntriesKept(v, w, p, zone);
    EntryZeroed(w, p, zone, j);
    var x := DropEntry(v, p, zone, j);
    AboveKeepsBits(w, x, p);
    FreedMore(v, w, x, p, [e[j]]);
    TouchesMore(v, w, p, {}, {zone as nat});
    TouchesTransitive(v, w, x, p, {zone as nat});
  }

  /** Places `[a, b)` zeroed. */
  function Zeroed(e: seq<u16>, a: int, b: int): (f: seq<u16>)
    ensures |f| == |e| && forall j :: 0 <= j < |e| ==> f[j] == if a <= j < b then 0 else e[j]
  {
    seq(|e|, j requires 0 <= j < |e| => if a <= j < b then 0 else e[j])
  }

  lemma ZeroedFrom(e: seq<u16>, a: nat, b: nat)
    requires a < b <= |e|
    ensures var f := e[a := 0];
      e[a..b] == [e[a]] + f[a + 1..b] && f[a + 1..b] == e[a + 1..b] && Zeroed(e, a, b) == Zeroed(f, a + 1, b)
  {
    assert Zeroed(e, a, b) == Zeroed(e[a := 0], a + 1, b);
  }

  lemma ZeroedNone(e: seq<u16>, a: int)
    ensures Zeroed(e, a, a) == e
  {
  }

  /** Dropping entries frees exactly their zones, zeroes them, and leaves the others. */
  lemma {:induction false} DropEntriesIs(v: View, p: Vol, r: INode, i: nat, total: nat)
    requires Fits(p) && Margins(v, p) && 7 <= i <= total <= 519 && InData(p, r.zone[7])
    requires forall j :: i - 7 <= j < total - 7 ==> InData(p, Entries(v, p, r.zone[7])[j])
    ensures var w := DropEntries(v, p, r, i, total); var e := Entries(v, p, r.zone[7]);
      && Entries(w, p, r.zone[7]) == Zeroed(e, i - 7, total - 7)
      && Touches(v, w, p, {r.zone[7] as nat}) && Freed(v, w, p, e[i - 7..total - 7]) && Margins(w, p)
    decreases total - i
  {
    hide Entries, DropEntry, Touches, Freed, Margins, InData, Fits, Zeroed;
    var zone := r.zone[7];
    var e := Entries(v, p, zone);
    if i < total {
      var x := DropEntry(v, p, zone, i - 7);
      DropEntryIs(v, p, zone, i - 7);
      ZeroedFrom(e, i - 7, total - 7);
      DropEntriesIs(x, p, r, i + 1, total);
      var y := DropEntries(v, p, r, i, total);
      FreedBoth(v, x, y, p, [e[i - 7]], e[i - 6..total - 7]);
      TouchesTransitive(v, x, y, p, {zone as nat});
    } else {
      ZeroedNone(e, i - 7);
      NothingFreed(v, p, {zone as nat});
      assert e[i - 7..total - 7] == [];
    }
  }

  lemma EntryIs(v: View, p: Vol, zone: u16, j: nat)
    requires j < 512
    ensures Entry(v[Loc(p.dev, zone)], j) == Entries(v, p, zone)[j]
  {
  }

  lemma EntriesKept(v: View, w: View, p: Vol, zone: u16)
    requires Touches(v, w, p, {}) && Fits(p) && p.sb.fst <= zone
    ensures Entries(w, p, zone) == Entries(v, p, zone)
  {
    assert w[Loc(p.dev, zone)] == v[Loc(p.dev, zone)];
  }

  lemma NothingFreed(v: View, p: Vol, zs: set<nat>)
    ensures Touches(v, v, p, zs) && Freed(v, v, p, [])
  {
  }

  lemma FreedMore(u: View, v: View, w: View, p: Vol, zs: seq<u16>)
    requires Freed(u, v, p, zs) && forall z: nat :: InData(p, z) ==> ZSet(w, p, z) == ZSet(v, p, z)
    ensures Freed(u, w, p, zs)
  {
  }

  function Upto8(n: nat): (m: nat)
    ensures m <= 8 && m <= n
  {
    if n < 8 then n else 8
  }

  /** The same for the zones in the record. */
  lemma {:induction false} DropDirectIs(v: View, p: Vol, r: INode, i: nat, total: nat)
    requires Fits(p) && Margins(v, p) && i <= Upto8(total)
    requires forall j :: i <= j < Upto8(total) ==> InData(p, r.zone[j])
    ensures var (w, s) := DropDirect(v, p, r, i, total);
      && s == r.(zone := s.zone) && s.zone == Zeroed(r.zone, i, Upto8(total))
      && Touches(v, w, p, {}) && Freed(v, w, p, r.zone[i..Upto8(total)]) && Margins(w, p)
    decreases total - i
  {
    hide Give, Touches, Freed, Margins, InData, Fits;
    var m := Upto8(total);
    if i < m {
      var w := Give(v, p, r.zone[i]);
      var s := r.(zone := r.zone[i := 0]);
      GiveShape(v, p, r.zone[i]);
      DropDirectIs(w, p, s, i + 1, total);
      ZeroedFrom(r.zone, i, m);
      var y := DropDirect(v, p, r, i, total).0;
      FreedBoth(v, w, y, p, [r.zone[i]], s.zone[i + 1..m]);
      TouchesTransitive(v, w, y, p, {});
    } else {
      ZeroedNone(r.zone, i);
      NothingFreed(v, p, {});
      assert r.zone[i..m] == [];
    }
  }

  /** How long the chain of a file with `n` data zones is. */
  function Run(n: nat): nat {
    if n <= 7 then n else n + 1
  }

  /** The file keeps the first `n` places of its chain, and what it loses is freed. */
  ghost predicate CutTo(v: View, w: View, p: Vol, r: INode, s: INode, n: nat) {
    var c := Chain(v, p, r);
    && n <= Lead(c)
    && s == r.(zone := s.zone) && s.zone[8] == 0
    && Chain(w, p, s) == c[..n] + Zeros(520 - n)
    && Touches(v, w, p, Indirect(r)) && Freed(v, w, p, c[n..Lead(c)]) && Margins(w, p)
  }

  lemma FreedSwapped(v: View, w: View, p: Vol, a: seq<u16>, b: seq<u16>)
    requires Freed(v, w, p, a + b)
    ensures Freed(v, w, p, b + a)
  {
    hide ZSet, InData;
  }

  /** A chain of which the first `n` places are kept, and the others zero. */
  lemma CutIs(c: seq<u16>, d: seq<u16>, n: nat)
    requires |c| == |d| == 520 && n <= 520
    requires (forall q :: 0 <= q < n ==> d[q] == c[q]) && forall q :: n <= q < 520 ==> d[q] == 0
    ensures d == c[..n] + Zeros(520 - n)
  {
  }

  /** The entries of a chain, from `i` on and before `j`. */
  lemma EntriesPart(c: seq<u16>, e: seq<u16>, i: nat, j: nat)
    requires |c| == 520 && |e| == 512 && i <= j <= 512 && forall k :: 0 <= k < 512 ==> c[8 + k] == e[k]
    ensures e[i..j] == c[8 + i..8 + j]
  {
  }

  /** A chain whose entries from data position `n` on are zeroed. */
  lemma EntriesCut(c: seq<u16>, d: seq<u16>, e: seq<u16>, f: seq<u16>, n: nat, total: nat)
    requires |c| == |d| == 520 && |e| == 512 && 7 < n <= total <= 519 && f == Zeroed(e, n - 7, total - 7)
    requires (forall q :: 0 <= q < 8 ==> d[q] == c[q]) && (forall q :: total < q < 520 ==> c[q] == 0)
    requires forall k :: 0 <= k < 512 ==> c[8 + k] == e[k]
    requires forall k :: 0 <= k < 512 ==> d[8 + k] == f[k]
    ensures d == c[..n + 1] + Zeros(519 - n)
  {
    forall q | 8 <= q < 520
      ensures d[q] == if q <= n then c[q] else 0
    {
      var k := q - 8;
      assert c[8 + k] == e[k] && d[8 + k] == f[k];
    }
    CutIs(c, d, n + 1);
  }

  /** The zones in a record, from `i` on and before `j`. */
  lemma DirectPart(c: seq<u16>, z: seq<u16>, i: nat, j: nat)
    requires |c| == 520 && |z| == 9 && i <= j <= 8 && forall q :: 0 <= q < 8 ==> c[q] == z[q]
    ensures z[i..j] == c[i..j]
  {
  }

  /** A file without an indirect block. */
  lemma ShortenDirect(v: View, p: Vol, r: INode, n: nat)
    requires Fits(p) && Margins(v, p) && Own(v, p, r) && Formed(v, p, r) && r.zone[7] == 0
    requires n <= Lead(Chain(v, p, r))
    ensures var (w, s) := Shorten(v, p, r, n, Lead(Chain(v, p, r))); CutTo(v, w, p, r, s, n)
  {
    hide ZSet, Margins, Touches, Freed, DropDirect, InData, Fits, Lead;
    var c := Chain(v, p, r);
    var total := Lead(c);
    ChainHead(v, p, r);
    assert c[7] == 0;
    DropDirectIs(v, p, r, n, total);
    var (w, s) := Shorten(v, p, r, n, total);
    DirectPart(c, r.zone, n, total);
    DirectChain(w, p, s);
    CutIs(c, Chain(w, p, s), n);
    assert Indirect(r) == {};
  }

  lemma DirectChain(v: View, p: Vol, r: INode)
    requires r.zone[7] == 0
    ensures forall q :: 0 <= q < 520 ==> Chain(v, p, r)[q] == if q < 8 then r.zone[q] else 0
  {
  }

  /** A file that keeps its indirect block. */
  lemma ShortenEntries(v: View, p: Vol, r: INode, n: nat)
    requires Fits(p) && Margins(v, p) && Own(v, p, r) && Formed(v, p, r) && r.zone[7] != 0
    requires 7 < n <= Lead(Chain(v, p, r)) - 1
    ensures var (w, s) := Shorten(v, p, r, n, Lead(Chain(v, p, r)) - 1); CutTo(v, w, p, r, s, n + 1)
  {
    hide ZSet, Margins, Touches, Freed, DropEntries, InData, Fits, Entries, Chain, Lead, Zeroed;
    var c := Chain(v, p, r);
    var e := Entries(v, p, r.zone[7]);
    var total := Lead(c) - 1;
    FormedRun(v, p, r);
    ChainParts(v, p, r);
    EntriesInData(v, p, r, total);
    DropEntriesIs(v, p, r, n, total);
    var (w, s) := Shorten(v, p, r, n, total);
    ShortenKeepsRecord(v, p, r, n, total);
    ChainParts(w, p, r);
    EntriesPart(c, e, n - 7, total - 7);
    EntriesCut(c, Chain(w, p, r), e, Entries(w, p, r.zone[7]), n, total);
  }

  lemma EntriesInData(v: View, p: Vol, r: INode, total: nat)
    requires Own(v, p, r) && r.zone[7] != 0 && 7 < total && Lead(Chain(v, p, r)) == total + 1 <= 519
    ensures InData(p, r.zone[7])
    ensures forall j :: 0 <= j < total - 7 ==> InData(p, Entries(v, p, r.zone[7])[j])
  {
    hide ZSet, InData, Entries, Lead;
    ChainParts(v, p, r);
    var c := Chain(v, p, r);
    assert c[7] != 0;
  }

  lemma ShortenKeepsRecord(v: View, p: Vol, r: INode, n: nat, total: nat)
    requires 7 < n
    ensures Shorten(v, p, r, n, total) == (DropEntries(v, p, r, n, total), r)
  {
    hide DropEntries;
  }

  lemma ChainParts(v: View, p: Vol, r: INode)
    requires r.zone[7] != 0
    ensures Chain(v, p, r) == r.zone[..8] + Entries(v, p, r.zone[7])
    ensures forall q :: 0 <= q < 8 ==> Chain(v, p, r)[q] == r.zone[q]
    ensures forall j :: 0 <= j < 512 ==> Chain(v, p, r)[8 + j] == Entries(v, p, r.zone[7])[j]
  {
  }

  /** A file that loses its indirect block. */
  lemma ShortenIndirect(v: View, p: Vol, r: INode, n: nat)
    requires Fits(p) && Margins(v, p) && Own(v, p, r) && Formed(v, p, r) && r.zone[7] != 0 && n <= 7
    ensures var (w, s) := Shorten(v, p, r, n, DataCount(Lead(Chain(v, p, r)))); CutTo(v, w, p, r, s, n)
  {
    hide ZSet, Margins, Touches, Freed, DropEntries, DropDirect, InData, Fits, Entries, Chain, Lead;
    var c := Chain(v, p, r);
    var e := Entries(v, p, r.zone[7]);
    FormedRun(v, p, r);
    ChainParts(v, p, r);
    assert c[7] != 0 && Lead(c) >= 9;
    var total := Lead(c) - 1;
    DropEntriesIs(v, p, r, 7, total);
    var u := DropEntries(v, p, r, 7, total);
    DropDirectIs(u, p, r, n, total);
    var (w, s) := Shorten(v, p, r, n, total);
    AllDropped(v, u, w, p, r, n, total);
    TouchesMore(u, w, p, {}, Indirect(r));
    TouchesTransitive(v, u, w, p, Indirect(r));
    DirectChain(w, p, s);
    CutIs(c, Chain(w, p, s), n);
  }

  /** The entries, the indirect block and direct zones are freed. */
  lemma AllDropped(v: View, u: View, w: View, p: Vol, r: INode, n: nat, total: nat)
    requires r.zone[7] != 0 && n <= 7 <= total <= 519
    requires Freed(v, u, p, Entries(v, p, r.zone[7])[0..total - 7]) && Freed(u, w, p, r.zone[n..8])
    ensures Freed(v, w, p, Chain(v, p, r)[n..total + 1])
  {
    hide Freed, Entries, Chain;
    var c := Chain(v, p, r);
    var e := Entries(v, p, r.zone[7]);
    ChainParts(v, p, r);
    FreedBoth(v, u, w, p, e[0..total - 7], r.zone[n..8]);
    FreedSwapped(v, w, p, e[0..total - 7], r.zone[n..8]);
    EntriesPart(c, e, 0, total - 7);
    DirectPart(c, r.zone, n, 8);
    assert c[n..total + 1] == c[n..8] + c[8..total + 1];
  }

  /** Shortening a file to `n` data zones. */
  lemma ShortenIs(v: View, p: Vol, r: INode, n: nat)
    requires Fits(p) && Margins(v, p) && Own(v, p, r) && Formed(v, p, r) && n <= Allocated(v, p, r)
    ensures var (w, s) := Shorten(v, p, r, n, Allocated(v, p, r)); CutTo(v, w, p, r, s, Run(n))
  {
    hide ZSet, Margins, Shorten, CutTo, Own, Fits, Allocated, Chain, Lead;
    AllocatedIsDataCount(v, p, r);
    SizeFits(v, p, r);
    if r.zone[7] == 0 {
      ShortenDirect(v, p, r, n);
    } else if n <= 7 {
      ShortenIndirect(v, p, r, n);
    } else {
      ShortenEntries(v, p, r, n);
    }
  }

  lemma CutChain(c: seq<u16>, n: nat)
    requires |c| == 520 && n <= Lead(c)
    ensures Lead(c[..n] + Zeros(520 - n)) == n
  {
    LeadIs(c[..n] + Zeros(520 - n), n);
  }

  /** What is left of a chain, and what is not. */
  lemma CutZones(c: seq<u16>, d: seq<u16>, n: nat)
    requires |c| == 520 && n <= Lead(c) && d == c[..n] + Zeros(520 - n) && forall q :: Lead(c) <= q < 520 ==> c[q] == 0
    ensures |d| == 520 && forall q :: 0 <= q < 520 ==> d[q] == if q < n then c[q] else 0
    ensures forall z: u16 :: z != 0 && z in c <==> z != 0 && (z in d || z in c[n..Lead(c)])
  {
    hide Lead;
    var m := Lead(c);
    forall z: u16 | z != 0 && z in c
      ensures z in d || z in c[n..m]
    {
      var q :| 0 <= q < 520 && c[q] == z;
      assert if q < n then d[q] == z else c[n..m][q - n] == z;
    }
    forall z: u16 | z != 0 && z in d
      ensures z in c
    {
      var q :| 0 <= q < 520 && d[q] == z;
      assert c[q] == z;
    }
    assert forall z: u16 :: z in c[n..m] ==> z in c;
  }

  /** Cutting a file keeps its own zones, and all others, in order. */
  lemma CutKeeps(v: View, w: View, p: Vol, me: nat, r: INode, s: INode, n: nat)
    requires Inv(v, p, me, r) && Live(v, p, me) && CutTo(v, w, p, r, s, n)
    ensures SameOthers(v, w, p, me) && Balance(v, w, p, r, s) && Own(w, p, s) && Live(w, p, me)
    ensures Lead(Chain(w, p, s)) == n
  {
    hide ZSet, Live, Lead, Chain, Margins, InData, Own, Freed, Touches, Balance, Formed;
    var c, d := Chain(v, p, r), Chain(w, p, s);
    OwnOf(v, p, me, r);
    GrowOneOthers(v, w, p, me, r);
    CutChain(c, n);
    FormedOf(v, p, me, r);
    FormedRun(v, p, r);
    CutLive(v, w, p, me, r);
    CutZones(c, d, n);
    CutBalance(v, w, p, r, s, c[n..Lead(c)]);
    CutOwn(v, w, p, r, s, n);
  }

  lemma CutBalance(v: View, w: View, p: Vol, r: INode, s: INode, zs: seq<u16>)
    requires Freed(v, w, p, zs)
    requires forall z: u16 :: z != 0 && z in Chain(v, p, r) <==> z != 0 && (z in Chain(w, p, s) || z in zs)
    ensures Balance(v, w, p, r, s)
  {
    hide ZSet, Chain, InData;
  }

  lemma CutOwn(v: View, w: View, p: Vol, r: INode, s: INode, n: nat)
    requires Own(v, p, r) && n <= Lead(Chain(v, p, r)) && Freed(v, w, p, Chain(v, p, r)[n..Lead(Chain(v, p, r))])
    requires forall q :: 0 <= q < 520 ==> Chain(w, p, s)[q] == if q < n then Chain(v, p, r)[q] else 0
    ensures Own(w, p, s)
  {
    hide ZSet, Chain, InData;
    var c, d := Chain(v, p, r), Chain(w, p, s);
    forall q | 0 <= q < 520 && d[q] != 0
      ensures InData(p, d[q]) && ZSet(w, p, d[q])
    {
      assert d[q] == c[q] && q < n;
      assert d[q] !in c[n..Lead(c)];
    }
  }

  lemma CutLive(v: View, w: View, p: Vol, me: nat, r: INode)
    requires Fits(p) && Live(v, p, me) && Own(v, p, r) && Touches(v, w, p, Indirect(r))
    ensures Live(w, p, me)
  {
    hide Live, ZSet;
    assert Chain(v, p, r)[7] == r.zone[7];
    TouchesNoRecord(v, w, p, Indirect(r), me);
  }

  /** The space a file has after it was cut still holds what it did. */
  lemma CutBytes(v: View, w: View, p: Vol, me: nat, r: INode, s: INode, n: nat, x: nat)
    requires Inv(v, p, me, r) && Live(v, p, me) && CutTo(v, w, p, r, s, Run(n)) && x < ZONE_SIZE * n
    ensures x < Room(v, p, r) && FileByte(w, p, s, x) == FileByte(v, p, r, x)
  {
    hide Chain, Lookup, Lead, ZSet, Live, Margins;
    var m := x / ZONE_SIZE;
    OwnOf(v, p, me, r);
    CutKeeps(v, w, p, me, r, s, Run(n));
    DataBlocksKept(v, w, p, r);
    LookupIsChain(v, p, r, m);
    LookupIsChain(w, p, s, m);
    assert Chain(w, p, s)[Place(m)] == Chain(v, p, r)[Place(m)];
    assert SameBlock(v, w, p, Chain(v, p, r)[Place(m)]);
  }

  /** A truncation that does something keeps all files in order, and concerns no other. */
  lemma TruncKeeps(v: View, p: Vol, me: nat, r: INode, offset: u32)
    requires Inv(v, p, me, r) && Live(v, p, me) && Record(v, p, me) == r
    ensures var (w, s) := TruncFile(v, p, me, r, offset);
      && Inv(w, p, me, s) && Live(w, p, me) && Record(w, p, me) == s && SameOthers(v, w, p, me) && Balance(v, w, p, r, s)
      && s == r.(zone := s.zone, size := if offset < Room(v, p, r) then offset else r.size)
  {
    hide Live, Chain, Record, SameOthers, Inv, Balance, Shorten, Synced, Allocated, Lead;
    FormedOf(v, p, me, r);
    AllocatedIsDataCount(v, p, r);
    if offset < ZONE_SIZE * Allocated(v, p, r) {
      var (u, s) := Shorten(v, p, r, ZonesFor(offset), Allocated(v, p, r));
      ShortenKeeps(v, p, me, r, offset);
      var t := s.(size := offset);
      SyncInv(u, p, me, t);
      var w := Synced(u, p, me, t);
      SizeBalance(u, w, p, s, offset);
      SameOthersTransitive(v, u, w, p, me);
      BalanceTransitive(v, u, w, p, r, s, t);
    } else {
      GrowNothing(v, p, me, r);
    }
  }

  /** The file in memory after it was cut, with a size that fits for the time being. */
  lemma ShortenKeeps(v: View, p: Vol, me: nat, r: INode, offset: u32)
    requires Inv(v, p, me, r) && Live(v, p, me) && offset < ZONE_SIZE * Allocated(v, p, r)
    ensures var (w, s) := Shorten(v, p, r, ZonesFor(offset), Allocated(v, p, r));
      && CutTo(v, w, p, r, s, Run(ZonesFor(offset))) && offset <= Room(w, p, s)
      && Inv(w, p, me, s.(size := offset)) && Live(w, p, me) && SameOthers(v, w, p, me) && Balance(v, w, p, r, s)
  {
    hide Live, Chain, SameOthers, Balance, Shorten, Allocated, Lead, Margins;
    FormedOf(v, p, me, r);
    OwnOf(v, p, me, r);
    var n := ZonesFor(offset);
    ZonesForFit(offset, Allocated(v, p, r));
    ShortenIs(v, p, r, n);
    var (w, s) := Shorten(v, p, r, n, Allocated(v, p, r));
    CutKeeps(v, w, p, me, r, s, Run(n));
    var t := s.(size := offset);
    SizeChain(w, p, s, offset);
    CutFormed(v, w, p, r, s, n, offset);
    KeepsFormed(v, w, p, me, r, t);
    SizeBalances(v, w, p, r, s, offset);
    assert Own(w, p, t);
    KeepsSound(v, w, p, me, r, t);
  }

  lemma SizeBalances(v: View, w: View, p: Vol, r: INode, s: INode, end: u32)
    requires Balance(v, w, p, r, s)
    ensures Balance(v, w, p, r, s.(size := end))
  {
    hide Chain, ZSet, InData;
    SizeChain(w, p, s, end);
    forall z: u16 | z != 0 && InData(p, z)
      ensures Foreign(w, p, s.(size := end), z) == Foreign(v, p, r, z)
    {
      assert Foreign(w, p, s, z) == Foreign(v, p, r, z);
    }
  }

  lemma CutFormed(v: View, w: View, p: Vol, r: INode, s: INode, n: nat, size: u32)
    requires CutTo(v, w, p, r, s, Run(n)) && n <= 518 && size <= ZONE_SIZE * n
    ensures Formed(w, p, s.(size := size))
  {
    hide Chain, Lead, Touches, Freed, Margins;
    CutChain(Chain(v, p, r), Run(n));
    SizeChain(w, p, s, size);
  }

  /**
   * What a truncation frees: exactly the zones behind the first `n` it keeps, the indirect block among them if and
   * only if no entry remains. Afterwards the file has space for `n` zones.
   */
  lemma TruncFrees(v: View, p: Vol, me: nat, r: INode, offset: u32)
    requires Inv(v, p, me, r) && Live(v, p, me) && Record(v, p, me) == r && offset < Room(v, p, r)
    ensures var (w, s) := TruncFile(v, p, me, r, offset); var c := Chain(v, p, r); var n := ZonesFor(offset);
      && Run(n) <= Lead(c) && Chain(w, p, s) == c[..Run(n)] + Zeros(520 - Run(n))
      && Freed(v, w, p, c[Run(n)..Lead(c)])
      && Allocated(w, p, s) == n
      && (r.zone[7] != 0 ==> (s.zone[7] == 0 <==> n <= 7))
  {
    hide Live, Record, SameOthers, Inv, Balance, Shorten, Synced, Allocated, Lead, ZSet, Freed, Margins, Chain, Touches;
    FormedOf(v, p, me, r);
    AllocatedIsDataCount(v, p, r);
    var n := ZonesFor(offset);
    var (u, s) := Shorten(v, p, r, n, Allocated(v, p, r));
    var t := s.(size := offset);
    ShortenKeeps(v, p, me, r, offset);
    CutChain(Chain(v, p, r), Run(n));
    SizeChain(u, p, s, offset);
    SyncInv(u, p, me, t);
    var w := Synced(u, p, me, t);
    FreedMore(v, u, w, p, Chain(v, p, r)[Run(n)..Lead(Chain(v, p, r))]);
    FormedOf(w, p, me, t);
    AllocatedIsDataCount(w, p, t);
  }

  /** The bytes a truncated file keeps space for are as they were. */
  lemma TruncBytes(v: View, p: Vol, me: nat, r: INode, offset: u32, x: nat)
    requires Inv(v, p, me, r) && Live(v, p, me) && Record(v, p, me) == r && x < ZONE_SIZE * ZonesFor(offset) && x < Room(v, p, r)
    ensures var (w, s) := TruncFile(v, p, me, r, offset); FileByte(w, p, s, x) == FileByte(v, p, r, x)
  {
    hide Live, Record, SameOthers, Inv, Balance, Shorten, Allocated, Lead, Chain, FileByte, CutTo;
    FormedOf(v, p, me, r);
    AllocatedIsDataCount(v, p, r);
    if offset < ZONE_SIZE * Allocated(v, p, r) {
      var (u, s) := Shorten(v, p, r, ZonesFor(offset), Allocated(v, p, r));
      ShortenKeeps(v, p, me, r, offset);
      CutBytes(v, u, p, me, r, s, ZonesFor(offset), x);
      SizeKeepsBytes(u, p, me, s, offset, x);
    }
  }

  lemma SizeKeepsBytes(v: View, p: Vol, me: nat, r: INode, size: u32, x: nat)
    requires Inv(v, p, me, r.(size := size)) && Live(v, p, me) && x < Room(v, p, r)
    ensures var s := r.(size := size); FileByte(Synced(v, p, me, s), p, s, x) == FileByte(v, p, r, x)
  {
    hide Live, Record, SameOthers, Inv, Balance, Lookup, Lead, Chain, Synced;
    var s := r.(size := size);
    var w := Synced(v, p, me, s);
    SizeChain(v, p, r, size);
    SyncInv(v, p, me, s);
    InvOwn(v, p, me, s);
    LookupIsChain(v, p, r, x / ZONE_SIZE);
    LookupIsChain(w, p, s, x / ZONE_SIZE);
  }
}
