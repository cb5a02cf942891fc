/** Where everything lies on a device, byte by byte: inode records, bitmaps, indirect blocks and data. */
module FsPlace {
  import opened Bits
  import opened Cache
  import opened FsLayout
  import opened FsBitmap
  import opened FsFiles
  import opened FsWrite
  import opened FsBytes
  import opened FsUpdate

  // ---------------------------------------------------------------- zones joined in order

  /** The bytes of `zones` zones from `from` on. */
  ghost function Area(v: View, p: Vol, from: nat, zones: nat): (s: seq<Byte>)
    ensures |s| == 1024 * zones
    decreases zones
  {
    if zones == 0 then [] else v[Loc(p.dev, from)] + Area(v, p, from + 1, zones - 1)
  }

  lemma {:induction false} AreaAt(v: View, p: Vol, from: nat, zones: nat, n: nat, o: nat)
    requires n < zones && o < 1024
    ensures 1024 * n + o < |Area(v, p, from, zones)| && Area(v, p, from, zones)[1024 * n + o] == v[Loc(p.dev, from + n)][o]
    decreases n
  {
    if n == 0 {
    } else {
      AreaAt(v, p, from + 1, zones - 1, n - 1, o);
    }
  }

  /** The zones with the inode records. */
  ghost function InodeArea(v: View, p: Vol): (s: seq<Byte>)
    requires Laid(p.sb)
  {
    Area(v, p, 2 + p.sb.imapBlk + p.sb.zmapBlk, p.sb.fst - 2 - p.sb.imapBlk - p.sb.zmapBlk)
  }

  /** The bitmap of the inodes. */
  ghost function InodeMap(v: View, p: Vol): (s: seq<Byte>) {
    Area(v, p, 2, p.sb.imapBlk)
  }

  /** The bitmap of the zones. */
  ghost function ZoneMap(v: View, p: Vol): (s: seq<Byte>) {
    Area(v, p, 2 + p.sb.imapBlk, p.sb.zmapBlk)
  }

  // ---------------------------------------------------------------- numbers

  /** Two bytes, the lower one first. */
  function Two(s: seq<Byte>, o: nat): nat
    requires o + 2 <= |s|
  {
    Value(s[o]) + 0x100 * Value(s[o + 1])
  }

  /** Four bytes, the lowest one first. */
  function Four(s: seq<Byte>, o: nat): nat
    requires o + 4 <= |s|
  {
    Value(s[o]) + 0x100 * Value(s[o + 1]) + 0x1_0000 * Value(s[o + 2]) + 0x100_0000 * Value(s[o + 3])
  }

  lemma UnLEStep(s: seq<Byte>)
    requires s != []
    ensures UnLE(s) == Value(s[0]) + 256 * UnLE(s[1..])
  {
  }

  lemma OneIs(s: seq<Byte>)
    requires |s| == 1
    ensures UnLE8(s) == Value(s[0])
  {
    hide Value;
    UnLEStep(s);
    assert UnLE(s[1..]) == 0;
  }

  lemma TwoIs(s: seq<Byte>)
    requires |s| == 2
    ensures UnLE16(s) == Two(s, 0)
  {
    hide Value;
    UnLEStep(s);
    UnLEStep(s[1..]);
    assert s[1..][1..] == [] && UnLE([]) == 0;
  }

  lemma FourIs(s: seq<Byte>)
    requires |s| == 4
    ensures UnLE32(s) == Four(s, 0)
  {
    hide Value;
    UnLEStep(s);
    UnLEStep(s[1..]);
    UnLEStep(s[1..][1..]);
    UnLEStep(s[1..][1..][1..]);
    assert s[1..][1..][1..][1..] == [] && UnLE([]) == 0;
  }

  lemma {:induction false} ZonesAre(s: seq<Byte>, j: nat)
    requires |s| % 2 == 0 && 2 * j + 2 <= |s|
    ensures DecodeZones(s)[j] == Two(s, 2 * j)
  {
    hide Value, UnLE16;
    if j == 0 {
      TwoIs(s[..2]);
    } else {
      ZonesAre(s[2..], j - 1);
      assert s[2..][2 * (j - 1)] == s[2 * j] && s[2..][2 * (j - 1) + 1] == s[2 * j + 1];
    }
  }

  /** The fields of a record are numbers in its bytes. */
  lemma DecodeIs(s: seq<Byte>)
    requires |s| == 32
    ensures var r := Decode(s);
      && r.mode == Two(s, 0) && r.uid == Two(s, 2) && r.size == Four(s, 4) && r.mtime == Four(s, 8)
      && r.gid == Value(s[12]) && r.nlinks == Value(s[13])
      && forall j :: 0 <= j < 9 ==> r.zone[j] == Two(s, 14 + 2 * j)
  {
    hide Value, UnLE8, UnLE16, UnLE32, DecodeZones;
    TwoIs(s[0..2]);
    TwoIs(s[2..4]);
    FourIs(s[4..8]);
    FourIs(s[8..12]);
    OneIs(s[12..13]);
    OneIs(s[13..14]);
    forall j | 0 <= j < 9
      ensures DecodeZones(s[14..32])[j] == Two(s, 14 + 2 * j)
    {
      ZonesAre(s[14..32], j);
    }
  }

  // ---------------------------------------------------------------- inode records

  /** The 32 bytes of inode `i` begin at byte `32 * (i - 1)` of its area. */
  lemma RecordBytes(v: View, p: Vol, i: nat)
    requires Fits(p) && 1 <= i <= Inodes(p)
    ensures 32 * i <= |InodeArea(v, p)|
    ensures InodeArea(v, p)[32 * (i - 1)..32 * i] == v[RecLoc(p, i)][RecOff(i)..RecOff(i) + 32]
  {
    var st := 2 + p.sb.imapBlk + p.sb.zmapBlk;
    var t, b := InodeArea(v, p), v[RecLoc(p, i)];
    var n, m := (i - 1) / 32, (i - 1) % 32;
    assert i - 1 == 32 * n + m;
    var o := RecOff(i);
    forall x | 32 * (i - 1) <= x < 32 * i
      ensures t[x] == b[o..][x - 32 * (i - 1)]
    {
      AreaAt(v, p, st, p.sb.fst - st, n, 32 * m + (x - 32 * (i - 1)));
    }
  }

  /** Every field of an inode's record is the number at its place there: `inode_disk`, one record after the other. */
  lemma RecordIs(v: View, p: Vol, i: nat)
    requires Fits(p) && 1 <= i <= Inodes(p)
    ensures 32 * i <= |InodeArea(v, p)|
    ensures var t, o, r := InodeArea(v, p), 32 * (i - 1), Record(v, p, i);
      && r.mode == Two(t, o) && r.uid == Two(t, o + 2) && r.size == Four(t, o + 4) && r.mtime == Four(t, o + 8)
      && r.gid == Value(t[o + 12]) && r.nlinks == Value(t[o + 13])
      && forall j :: 0 <= j < 9 ==> r.zone[j] == Two(t, o + 14 + 2 * j)
  {
    hide Value, Decode, Area;
    RecordBytes(v, p, i);
    var t, o := InodeArea(v, p), 32 * (i - 1);
    hide InodeArea;
    var s := t[o..o + 32];
    DecodeIs(s);
    assert forall x :: 0 <= x < 32 ==> s[x] == t[o + x];
  }

  /** Writing a record back changes its 32 bytes, and no other byte of the device. */
  lemma SyncedPlace(v: View, p: Vol, i: nat, r: INode)
    requires Fits(p) && 1 <= i <= Inodes(p)
    ensures var w := Synced(v, p, i, r);
      && Record(w, p, i) == r && |InodeArea(w, p)| == |InodeArea(v, p)| >= 32 * i
      && (forall x :: 0 <= x < |InodeArea(v, p)| && !(32 * (i - 1) <= x < 32 * i) ==> InodeArea(w, p)[x] == InodeArea(v, p)[x])
      && (forall l: Loc :: l.dev != p.dev || !(2 + p.sb.imapBlk + p.sb.zmapBlk <= l.zone < p.sb.fst) ==> w[l] == v[l])
  {
    hide Encode, Decode, Area;
    var w := Synced(v, p, i, r);
    SyncedRecords(v, p, i, r, i);
    RecordBytes(v, p, i);
    forall x | 0 <= x < |InodeArea(v, p)| && !(32 * (i - 1) <= x < 32 * i)
      ensures InodeArea(w, p)[x] == InodeArea(v, p)[x]
    {
      SyncedByte(v, p, i, r, x);
    }
  }

  lemma SyncedByte(v: View, p: Vol, i: nat, r: INode, x: nat)
    requires Fits(p) && 1 <= i <= Inodes(p) && x < |InodeArea(v, p)| && !(32 * (i - 1) <= x < 32 * i)
    ensures InodeArea(Synced(v, p, i, r), p)[x] == InodeArea(v, p)[x]
  {
    hide Encode, Area;
    var w := Synced(v, p, i, r);
    var st := 2 + p.sb.imapBlk + p.sb.zmapBlk;
    AreaAt(v, p, st, p.sb.fst - st, x / 1024, x % 1024);
    AreaAt(w, p, st, p.sb.fst - st, x / 1024, x % 1024);
    assert x == 1024 * (x / 1024) + x % 1024;
    if x / 1024 == (i - 1) / 32 {
      assert i - 1 == 32 * ((i - 1) / 32) + (i - 1) % 32;
    }
  }

  // ---------------------------------------------------------------- bitmaps

  /** Bit `k` of a byte, as arithmetic sees it. */
  lemma BitOfValue(c: Byte, k: nat)
    requires k < 8
    ensures c[k] <==> Value(c) / Pow2(k) % 2 == 1
  {
    BitOfNumber(c, k);
  }

  lemma {:induction false} BitOfNumber(s: seq<bool>, k: nat)
    requires k < |s|
    ensures s[k] <==> Number(s) / Pow2(k) % 2 == 1
  {
    if k == 0 {
    } else {
      BitOfNumber(s[1..], k - 1);
      Halved(Number(s), Number(s[1..]), Pow2(k - 1));
    }
  }

  lemma Halved(n: nat, m: nat, d: nat)
    requires n / 2 == m && d >= 1
    ensures n / (2 * d) == m / d
  {
    var q, r := m / d, m % d;
    assert m == d * q + r;
    assert n == 2 * d * q + (2 * r + n % 2);
    assert 0 <= 2 * r + n % 2 < 2 * d;
    QuotientIs(n, 2 * d, q, 2 * r + n % 2);
  }

  lemma QuotientIs(n: nat, d: nat, q: nat, r: nat)
    requires n == d * q + r && r < d
    ensures n / d == q
  {
    var x := n / d;
    assert n == d * x + n % d;
    TimesGrows(d, x + 1, q);
    TimesGrows(d, q + 1, x);
  }

  lemma TimesGrows(d: nat, a: nat, b: nat)
    ensures a <= b ==> d * a <= d * b
  {
    if a <= b {
      assert d * b == d * a + d * (b - a);
    }
  }

  lemma MapBitAt(v: View, p: Vol, st: nat, zones: nat, k: nat)
    requires k < 8192 * zones
    ensures k / 8 < |Area(v, p, st, zones)|
    ensures MapBit(v, p.dev, st, k) <==> Value(Area(v, p, st, zones)[k / 8]) / Pow2(k % 8) % 2 == 1
  {
    hide Value, Area, Pow2;
    var n := k / 8;
    assert n == 1024 * (n / 1024) + n % 1024;
    AreaAt(v, p, st, zones, n / 1024, n % 1024);
    BitOfValue(v[BitLoc(p.dev, st, k)][n % 1024], k % 8);
  }

  /** An inode is in use exactly if the bit of its number is set in the zones behind the super block. */
  lemma LiveIs(v: View, p: Vol, i: nat)
    requires Fits(p) && 1 <= i <= Inodes(p)
    ensures i / 8 < |InodeMap(v, p)| && (Live(v, p, i) <==> Value(InodeMap(v, p)[i / 8]) / Pow2(i % 8) % 2 == 1)
  {
    hide Value, Area, Pow2, MapBit;
    MapBitAt(v, p, 2, p.sb.imapBlk, i);
  }

  /** A data zone is marked exactly if its bit is set in the zones behind those: bit 1 is that of the first one. */
  lemma MarkIs(v: View, p: Vol, z: nat)
    requires InData(p, z)
    ensures var k := z - p.sb.fst + 1;
      k / 8 < |ZoneMap(v, p)| && (ZSet(v, p, z) <==> Value(ZoneMap(v, p)[k / 8]) / Pow2(k % 8) % 2 == 1)
  {
    hide Value, Area, Pow2, MapBit;
    MapBitAt(v, p, 2 + p.sb.imapBlk, p.sb.zmapBlk, z - p.sb.fst + 1);
  }

  // ---------------------------------------------------------------- data

  /** The number of the zone that holds the bytes of a file from `1024 * n` on. */
  ghost function ZoneAt(v: View, p: Vol, r: INode, n: nat): nat
    requires n < 519
  {
    if n < 7 then r.zone[n] else Two(v[Loc(p.dev, r.zone[7])], 2 * (n - 7))
  }

  /**
   * Seven zones whose numbers are in the record hold the first bytes of a file, and zones whose numbers stand two bytes
   * each in the indirect block hold the others, in order.
   */
  lemma DataIs(v: View, p: Vol, r: INode, x: nat)
    requires x < 1024 * 519
    ensures FileByte(v, p, r, x) == v[Loc(p.dev, ZoneAt(v, p, r, x / 1024))][x % 1024]
  {
    hide Value, UnLE16;
    var n := x / 1024;
    if n >= 7 {
      var b := v[Loc(p.dev, r.zone[7])];
      TwoIs(b[2 * (n - 7)..2 * (n - 7) + 2]);
    }
  }

  /** What is in those places after a write: the bytes written, and everywhere else in the file what was there. */
  lemma WrittenIsThere(v: View, p: Vol, me: nat, r: INode, bytes: seq<Byte>, offset: nat, x: nat)
    requires Inv(v, p, me, r) && Live(v, p, me) && Record(v, p, me) == r
    requires offset + |bytes| < 0x1_0000_0000 && CanHold(v, p, r, offset + |bytes|)
    ensures var (w, s) := WriteFile(v, p, me, r, bytes, offset);
      && (offset <= x < offset + |bytes| ==>
            x < 1024 * 519 && w[Loc(p.dev, ZoneAt(w, p, s, x / 1024))][x % 1024] == bytes[x - offset])
      && (x < Room(v, p, r) && !(offset <= x < offset + |bytes|) ==>
            x < 1024 * 519 && w[Loc(p.dev, ZoneAt(w, p, s, x / 1024))][x % 1024] == v[Loc(p.dev, ZoneAt(v, p, r, x / 1024))][x % 1024])
  {
    hide Live, Record, Inv, CanHold, WriteFile, FileByte, Chain, Lead, ZoneAt, SameOthers, Balance;
    var (w, s) := WriteFile(v, p, me, r, bytes, offset);
    WriteKeeps(v, p, me, r, bytes, offset);
    WriteBytes(v, p, me, r, bytes, offset, x);
    FormedOf(w, p, me, s);
    FormedOf(v, p, me, r);
    if x < 1024 * 519 {
      DataIs(w, p, s, x);
      DataIs(v, p, r, x);
    }
  }
}
