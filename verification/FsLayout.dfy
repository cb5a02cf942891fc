/** How bitmaps, inode records and indirect blocks lie in the zones of a device. */
module FsLayout {
  import opened Bits
  import opened Cache

  type u8 = x: int | 0 <= x < 0x100
  type u16 = x: int | 0 <= x < 0x1_0000
  type u32 = x: int | 0 <= x < 0x1_0000_0000

  // ---------------------------------------------------------------- numbers in bytes

  /** The `n` bytes of a number, least significant first. */
  function LE(x: nat, n: nat): (s: seq<Byte>)
    ensures |s| == n
    decreases n
  {
    if n == 0 then [] else [ByteOf(x)] + LE(x / 256, n - 1)
  }

  function UnLE(s: seq<Byte>): nat {
    if s == [] then 0 else Value(s[0]) + 256 * UnLE(s[1..])
  }

  function Pow256(n: nat): (p: nat)
    ensures 1 <= p
  {
    if n == 0 then 1 else 256 * Pow256(n - 1)
  }

  lemma {:induction false} UnLEOfLE(x: nat, n: nat)
    requires x < Pow256(n)
    ensures UnLE(LE(x, n)) == x
  {
    if n == 0 {
    } else {
      ValueOfByteOf(x);
      UnLEOfLE(x / 256, n - 1);
      assert LE(x, n)[1..] == LE(x / 256, n - 1);
    }
  }

  lemma {:induction false} UnLEBound(s: seq<Byte>)
    ensures UnLE(s) < Pow256(|s|)
  {
    if s == [] {
    } else {
      UnLEBound(s[1..]);
    }
  }

  function UnLE8(s: seq<Byte>): u8
    requires |s| == 1
  {
    UnLEBound(s);
    assert Pow256(1) == 256;
    UnLE(s)
  }

  function UnLE16(s: seq<Byte>): u16
    requires |s| == 2
  {
    UnLEBound(s);
    assert Pow256(2) == 0x1_0000;
    UnLE(s)
  }

  function UnLE32(s: seq<Byte>): u32
    requires |s| == 4
  {
    UnLEBound(s);
    assert Pow256(2) == 0x1_0000;
    assert Pow256(4) == 0x1_0000_0000;
    UnLE(s)
  }

  lemma RoundTrips(a: u8, b: u16, c: u32)
    ensures UnLE8(LE(a, 1)) == a && UnLE16(LE(b, 2)) == b && UnLE32(LE(c, 4)) == c
  {
    assert Pow256(1) == 256;
    assert Pow256(2) == 0x1_0000;
    assert Pow256(4) == 0x1_0000_0000;
    UnLEOfLE(a, 1);
    UnLEOfLE(b, 2);
    UnLEOfLE(c, 4);
  }

  // ---------------------------------------------------------------- inode records

  /** `inode_disk`: 32 bytes on the device. */
  datatype INode = INode(mode: u16, uid: u16, size: u32, mtime: u32, gid: u8, nlinks: u8, zone: Zones)

  type Zones = z: seq<u16> | |z| == 9 witness [0, 0, 0, 0, 0, 0, 0, 0, 0]

  const INODE_SIZE := 32
  const INODES_PER_ZONE := 32

  function EncodeZones(z: seq<u16>): (s: seq<Byte>)
    ensures |s| == 2 * |z|
  {
    if z == [] then [] else LE(z[0], 2) + EncodeZones(z[1..])
  }

  function DecodeZones(s: seq<Byte>): (z: seq<u16>)
    requires |s| % 2 == 0
    ensures 2 * |z| == |s|
  {
    if s == [] then [] else [UnLE16(s[..2])] + DecodeZones(s[2..])
  }

  lemma {:induction false} ZonesRoundTrip(z: seq<u16>)
    ensures DecodeZones(EncodeZones(z)) == z
  {
    hide LE, UnLE, UnLE16;
    if z == [] {
    } else {
      RoundTrips(0, z[0], 0);
      ZonesRoundTrip(z[1..]);
      assert EncodeZones(z)[..2] == LE(z[0], 2) && EncodeZones(z)[2..] == EncodeZones(z[1..]);
    }
  }

  function Encode(r: INode): (s: seq<Byte>)
    ensures |s| == 32
  {
    LE(r.mode, 2) + LE(r.uid, 2) + LE(r.size, 4) + LE(r.mtime, 4) + LE(r.gid, 1) + LE(r.nlinks, 1) + EncodeZones(r.zone)
  }

  function Decode(s: seq<Byte>): INode
    requires |s| == 32
  {
    INode(UnLE16(s[0..2]), UnLE16(s[2..4]), UnLE32(s[4..8]), UnLE32(s[8..12]), UnLE8(s[12..13]), UnLE8(s[13..14]),
          DecodeZones(s[14..32]))
  }

  /** The zone numbers are the last 18 bytes of a record. */
  lemma ZonesPart(r: INode)
    ensures Encode(r)[14..32] == EncodeZones(r.zone)
  {
    hide LE, EncodeZones;
    var head := LE(r.mode, 2) + LE(r.uid, 2) + LE(r.size, 4) + LE(r.mtime, 4) + LE(r.gid, 1) + LE(r.nlinks, 1);
    Behind(head, EncodeZones(r.zone));
  }

  lemma Behind(head: seq<Byte>, tail: seq<Byte>)
    ensures (head + tail)[|head|..|head| + |tail|] == tail
  {
  }

  /** An inode that is written to its record and read back is the same. */
  lemma InodeRoundTrip(r: INode)
    ensures Decode(Encode(r)) == r
  {
    hide LE, UnLE, UnLE8, UnLE16, UnLE32, EncodeZones, DecodeZones;
    var s := Encode(r);
    assert s[0..2] == LE(r.mode, 2) && s[2..4] == LE(r.uid, 2) && s[4..8] == LE(r.size, 4) && s[8..12] == LE(r.mtime, 4);
    assert s[12..13] == LE(r.gid, 1) && s[13..14] == LE(r.nlinks, 1);
    ZonesPart(r);
    RoundTrips(r.gid, r.mode, r.size);
    RoundTrips(r.nlinks, r.uid, r.mtime);
    ZonesRoundTrip(r.zone);
  }

  // ---------------------------------------------------------------- indirect blocks

  /** Entry `j` of an indirect block. */
  function Entry(b: Block, j: nat): u16
    requires j < 512
  {
    UnLE16(b[2 * j..2 * j + 2])
  }

  lemma EntryOfSplice(b: Block, j: nat, x: u16, i: nat)
    requires j < 512 && i < 512
    ensures Entry(Splice(b, 2 * j, LE(x, 2)), i) == if i == j then x else Entry(b, i)
  {
    hide LE, UnLE, UnLE16;
    var c := Splice(b, 2 * j, LE(x, 2));
    RoundTrips(0, x, 0);
    if i == j {
      assert c[2 * i..2 * i + 2] == LE(x, 2);
    } else {
      assert c[2 * i..2 * i + 2] == b[2 * i..2 * i + 2];
    }
  }

  // ---------------------------------------------------------------- bitmaps

  /** What the super block says about a device: how many zones each bitmap has, and where data begins. */
  datatype Super = Super(imapBlk: nat, zmapBlk: nat, fst: nat)

  const BITS_PER_ZONE := 8192

  /** The zone that bit `k` of the bitmap starting at zone `st` is in. */
  function BitLoc(d: nat, st: nat, k: nat): Loc {
    Loc(d, st + k / 8 / 1024)
  }

  /** Bit `k` of the bitmap that starts at zone `st`. */
  predicate MapBit(v: View, d: nat, st: nat, k: nat) {
    v[BitLoc(d, st, k)][k / 8 % 1024][k % 8]
  }

  ghost function SetMapBit(v: View, d: nat, st: nat, k: nat, on: bool): (w: View) {
    var l, j := BitLoc(d, st, k), k / 8 % 1024;
    var c: Byte := v[l][j][k % 8 := on];
    v[l := Splice(v[l], j, [c])]
  }

  /** Setting a bit changes this bit and nothing else on the device. */
  lemma SetMapBitOnly(v: View, d: nat, st: nat, k: nat, on: bool)
    ensures var w := SetMapBit(v, d, st, k, on);
      && (forall i: nat :: MapBit(w, d, st, i) == if i == k then on else MapBit(v, d, st, i))
      && (forall l: Loc :: l != BitLoc(d, st, k) ==> w[l] == v[l])
  {
    var w := SetMapBit(v, d, st, k, on);
    forall i: nat
      ensures MapBit(w, d, st, i) == if i == k then on else MapBit(v, d, st, i)
    {
      if i != k && i / 8 / 1024 == k / 8 / 1024 {
        if i / 8 % 1024 == k / 8 % 1024 {
          SameByte(i, k);
        }
      }
    }
  }

  lemma SameByte(i: nat, k: nat)
    requires i / 8 / 1024 == k / 8 / 1024 && i / 8 % 1024 == k / 8 % 1024
    ensures i / 8 == k / 8 && (i % 8 == k % 8 ==> i == k)
  {
  }

  /** Setting a clear bit and clearing it again gives back the device. */
  lemma SetThenClear(v: View, d: nat, st: nat, k: nat)
    requires !MapBit(v, d, st, k)
    ensures SetMapBit(SetMapBit(v, d, st, k, true), d, st, k, false) == v
  {
    var l, j := BitLoc(d, st, k), k / 8 % 1024;
    var w := SetMapBit(v, d, st, k, true);
    assert w[l][j] == v[l][j][k % 8 := true];
    assert w[l][j][k % 8 := false] == v[l][j];
    assert SetMapBit(w, d, st, k, false)[l] == v[l];
  }

  /** The least clear bit from `from` on, below `n`, or -1. */
  function LeastClear(v: View, d: nat, st: nat, n: nat, from: nat): (k: int)
    requires from <= n
    ensures k == -1 ==> forall i :: from <= i < n ==> MapBit(v, d, st, i)
    ensures k != -1 ==> from <= k < n && !MapBit(v, d, st, k) && forall i :: from <= i < k ==> MapBit(v, d, st, i)
    decreases n - from
  {
    if from == n then -1 else if !MapBit(v, d, st, from) then from else LeastClear(v, d, st, n, from + 1)
  }
}
