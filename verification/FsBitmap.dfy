/** Allocating and freeing bits in the inode and zone bitmaps, through the cache. */
module FsBitmap {
  import opened Bits
  import opened Cache
  import opened FsLayout

  /** The bitmaps lie below the data, in zones the driver can reach. */
  predicate Laid(sb: Super) {
    2 + sb.imapBlk + sb.zmapBlk <= sb.fst < 0x1_0000
  }

  /** The device after an attempt to take a bit, and what `alloc_bit` returns: the number of the bit, less one. */
  ghost function TakeBit(v: View, d: nat, st: nat, blocks: nat): (r: (View, int)) {
    var k := LeastClear(v, d, st, BITS_PER_ZONE * blocks, 0);
    if k == -1 then (v, -1) else (SetMapBit(v, d, st, k, true), k - 1)
  }

  ghost function TakeZone(v: View, d: nat, sb: Super): (r: (View, int)) {
    var (w, n) := TakeBit(v, d, sb.imapBlk + 2, sb.zmapBlk);
    (w, if n == -1 then -1 else n + sb.fst)
  }

  ghost function TakeInode(v: View, d: nat, sb: Super): (r: (View, int)) {
    var (w, n) := TakeBit(v, d, 2, sb.imapBlk);
    (w, if n == -1 then -1 else n + 1)
  }

  /** The bit of a data zone. */
  function ZoneBit(sb: Super, zone: int): int {
    zone - sb.fst + 1
  }

  ghost function GiveZone(v: View, d: nat, sb: Super, zone: nat): View
    requires sb.fst <= zone + 1
  {
    SetMapBit(v, d, sb.imapBlk + 2, ZoneBit(sb, zone), false)
  }

  ghost function GiveInode(v: View, d: nat, ino: nat): View {
    SetMapBit(v, d, 2, ino, false)
  }

  /**
   * Taking a bit fails exactly when the bitmap is full, or when the bit that is never used is clear; in
   * the second case it is set all the same.
   */
  lemma TakeBitFails(v: View, d: nat, st: nat, blocks: nat)
    requires 1 <= blocks
    ensures TakeBit(v, d, st, blocks).1 == -1
       <==> !MapBit(v, d, st, 0) || forall k :: 0 <= k < BITS_PER_ZONE * blocks ==> MapBit(v, d, st, k)
    ensures !MapBit(v, d, st, 0) ==> TakeBit(v, d, st, blocks).0 == SetMapBit(v, d, st, 0, true)
  {
  }

  /** Taking a zone or an inode fails just then; otherwise the number is that of the lowest clear bit, as its map counts. */
  lemma TakeIs(v: View, d: nat, sb: Super) returns (z: nat, i: nat)
    requires 1 <= sb.zmapBlk && 1 <= sb.imapBlk
    ensures var st, r := sb.imapBlk + 2, TakeZone(v, d, sb).1;
      if !MapBit(v, d, st, 0) || forall k :: 0 <= k < 8192 * sb.zmapBlk ==> MapBit(v, d, st, k) then r == -1
      else r == sb.fst + z && !MapBit(v, d, st, z + 1) && forall k :: 0 <= k <= z ==> MapBit(v, d, st, k)
    ensures var r := TakeInode(v, d, sb).1;
      if !MapBit(v, d, 2, 0) || forall k :: 0 <= k < 8192 * sb.imapBlk ==> MapBit(v, d, 2, k) then r == -1
      else r == i >= 1 && !MapBit(v, d, 2, i) && forall k :: 0 <= k < i ==> MapBit(v, d, 2, k)
  {
    hide MapBit, SetMapBit;
    var k := LeastClear(v, d, sb.imapBlk + 2, BITS_PER_ZONE * sb.zmapBlk, 0);
    var j := LeastClear(v, d, 2, BITS_PER_ZONE * sb.imapBlk, 0);
    z := if k >= 1 then k - 1 else 0;
    i := if j >= 1 then j else 0;
  }

  /** How many of the first `n` bits are clear. */
  ghost function ClearBits(v: View, d: nat, st: nat, n: nat): (c: nat)
    ensures c == 0 <==> forall i :: 0 <= i < n ==> MapBit(v, d, st, i)
  {
    if n == 0 then 0 else ClearBits(v, d, st, n - 1) + if MapBit(v, d, st, n - 1) then 0 else 1
  }

  lemma {:induction false} ClearBitsSame(v: View, w: View, d: nat, st: nat, n: nat)
    requires forall i :: 0 <= i < n ==> MapBit(w, d, st, i) == MapBit(v, d, st, i)
    ensures ClearBits(w, d, st, n) == ClearBits(v, d, st, n)
  {
    hide MapBit;
    if n == 0 {
    } else {
      ClearBitsSame(v, w, d, st, n - 1);
    }
  }

  lemma {:induction false} ClearBitsLess(v: View, w: View, d: nat, st: nat, n: nat, k: nat)
    requires k < n && !MapBit(v, d, st, k)
    requires forall i :: 0 <= i < n ==> MapBit(w, d, st, i) == (i == k || MapBit(v, d, st, i))
    ensures ClearBits(w, d, st, n) == ClearBits(v, d, st, n) - 1
  {
    hide MapBit;
    if k == n - 1 {
      ClearBitsSame(v, w, d, st, n - 1);
    } else {
      ClearBitsLess(v, w, d, st, n - 1, k);
    }
  }

  /** A zone that is taken and given back leaves the device as it was. */
  lemma GiveUndoesTakeZone(v: View, d: nat, sb: Super)
    requires TakeZone(v, d, sb).1 != -1
    ensures sb.fst <= TakeZone(v, d, sb).1
    ensures GiveZone(TakeZone(v, d, sb).0, d, sb, TakeZone(v, d, sb).1) == v
  {
    hide SetMapBit, LeastClear, MapBit;
    SetThenClear(v, d, sb.imapBlk + 2, LeastClear(v, d, sb.imapBlk + 2, BITS_PER_ZONE * sb.zmapBlk, 0));
  }

  /** The same for an inode. */
  lemma GiveUndoesTakeInode(v: View, d: nat, sb: Super)
    requires TakeInode(v, d, sb).1 != -1
    ensures 0 < TakeInode(v, d, sb).1
    ensures GiveInode(TakeInode(v, d, sb).0, d, TakeInode(v, d, sb).1) == v
  {
    hide SetMapBit, LeastClear, MapBit;
    SetThenClear(v, d, 2, LeastClear(v, d, 2, BITS_PER_ZONE * sb.imapBlk, 0));
  }

  lemma BitInBlock(v: View, d: nat, st: nat, i: nat, j: nat, k: nat)
    requires j < 1024 && k < 8
    ensures BitLoc(d, st, (i * 1024 + j) * 8 + k) == Loc(d, st + i)
    ensures MapBit(v, d, st, (i * 1024 + j) * 8 + k) == v[Loc(d, st + i)][j][k]
    ensures ((i * 1024 + j) * 8 + k) / 8 % 1024 == j && ((i * 1024 + j) * 8 + k) % 8 == k
  {
    var n := (i * 1024 + j) * 8 + k;
    assert n / 8 == i * 1024 + j && n % 8 == k;
    assert (i * 1024 + j) / 1024 == i && (i * 1024 + j) % 1024 == j;
  }

  lemma FirstClear(v: View, d: nat, st: nat, n: nat, k: nat)
    requires k < n && !MapBit(v, d, st, k) && forall i :: 0 <= i < k ==> MapBit(v, d, st, i)
    ensures LeastClear(v, d, st, n, 0) == k
  {
  }

  lemma NoneTaken(v: View, d: nat, st: nat, blocks: nat)
    requires forall i :: 0 <= i < BITS_PER_ZONE * blocks ==> MapBit(v, d, st, i)
    ensures TakeBit(v, d, st, blocks) == (v, -1)
  {
  }

  /** A full byte has no clear bit. */
  lemma FullByteTaken(v: View, d: nat, st: nat, i: nat, j: nat)
    requires j < 1024 && v[Loc(d, st + i)][j] == ONES
    requires forall k :: 0 <= k < (i * 1024 + j) * 8 ==> MapBit(v, d, st, k)
    ensures forall k :: 0 <= k < (i * 1024 + j + 1) * 8 ==> MapBit(v, d, st, k)
  {
    forall k | (i * 1024 + j) * 8 <= k < (i * 1024 + j + 1) * 8
      ensures MapBit(v, d, st, k)
    {
      BitInBlock(v, d, st, i, j, k - (i * 1024 + j) * 8);
    }
  }

  /** One bit against the complement of a byte. */
  lemma TestBit(c: Byte, t: Byte, k: nat)
    requires k < 8 && forall i :: 0 <= i < 8 ==> t[i] == (i == k)
    ensures And(t, Not(c)) == ZERO <==> c[k]
    ensures Or(c, t) == c[k := true]
  {
    assert And(t, Not(c))[k] == !c[k];
  }

  lemma LastBit(c: Byte, k: nat)
    requires k < 8 && c != ONES && forall i :: 0 <= i < k ==> c[i]
    ensures c[k] ==> k < 7
  {
    assert k == 7 && c[k] ==> c == ONES;
  }

  /** The least clear bit of a byte that has one, and the bit by itself. */
  method LowestClear(c: Byte) returns (k: nat, t: Byte)
    requires c != ONES
    ensures k < 8 && !c[k] && forall i :: 0 <= i < k ==> c[i]
    ensures Or(c, t) == c[k := true]
  {
    hide And, Or, Not;
    var mask := Not(c);
    k := 0;
    t := [true, false, false, false, false, false, false, false];
    TestBit(c, t, 0);
    while And(t, mask) == ZERO
      invariant k < 8 && (And(t, mask) == ZERO <==> c[k]) && Or(c, t) == c[k := true]
      invariant forall i :: 0 <= i < 8 ==> t[i] == (i == k)
      invariant forall i :: 0 <= i < k ==> c[i]
      decreases 8 - k
    {
      LastBit(c, k);
      t := Shl(t, 1);
      k := k + 1;
      TestBit(c, t, k);
    }
  }

  /** `alloc_bit` */
  method AllocBit(cache: ZoneCache, d: nat, st: nat, blocks: nat) returns (n: int)
    requires cache.Valid() && d < 0x1_0000 && st + blocks <= 0x1_0000
    modifies cache.slots, cache.data, cache.disk
    ensures cache.Valid()
    ensures (cache.View(), n) == TakeBit(old(cache.View()), d, st, blocks)
  {
    hide MapBit, SetMapBit, LeastClear, Or, TakeBit, ZoneCache.View, ZoneCache.Valid;
    ghost var v := cache.View();
    var i := 0;
    while i < blocks
      invariant 0 <= i <= blocks && cache.Valid() && cache.View() == v
      invariant forall k :: 0 <= k < i * 8192 ==> MapBit(v, d, st, k)
    {
      var buf := cache.Read(Loc(d, i + st), ZONE_SIZE, 0);
      assert buf == v[Loc(d, st + i)];
      var j := 0;
      while j < ZONE_SIZE
        invariant 0 <= j <= ZONE_SIZE && cache.Valid() && cache.View() == v
        invariant forall k :: 0 <= k < (i * 1024 + j) * 8 ==> MapBit(v, d, st, k)
      {
        if buf[j] != ONES {
          var k, t := LowestClear(buf[j]);
          FoundIsTaken(v, d, st, blocks, i, j, k, Or(buf[j], t));
          PutByte(cache, Loc(d, i + st), j, Or(buf[j], t));
          return (i * 1024 + j) * 8 + k - 1;
        }
        FullByteTaken(v, d, st, i, j);
        j := j + 1;
      }
      i := i + 1;
    }
    NoneTaken(v, d, st, blocks);
    return -1;
  }

  /** One byte through the cache. */
  method GetByte(cache: ZoneCache, l: Loc, offset: nat) returns (c: Byte)
    requires cache.Valid() && Addressable(l) && offset < 1024
    modifies cache.slots, cache.data, cache.disk
    ensures cache.Valid() && cache.View() == old(cache.View()) && c == cache.View()[l][offset]
  {
    var buf := cache.Read(l, 1, offset);
    c := buf[0];
  }

  method PutByte(cache: ZoneCache, l: Loc, offset: nat, c: Byte)
    requires cache.Valid() && Addressable(l) && offset < 1024
    modifies cache.slots, cache.data, cache.disk
    ensures cache.Valid() && cache.View() == Written(old(cache.View()), l, offset, [c])
  {
    assert [c][..1] == [c];
    var written := cache.Write(l, 1, offset, [c]);
  }

  /** Writing back the byte in which a scan found the first clear bit takes this bit. */
  lemma FoundIsTaken(v: View, d: nat, st: nat, blocks: nat, i: nat, j: nat, k: nat, c: Byte)
    requires i < blocks && j < 1024 && k < 8
    requires forall b :: 0 <= b < (i * 1024 + j) * 8 ==> MapBit(v, d, st, b)
    requires var o := v[Loc(d, st + i)][j]; !o[k] && (forall b :: 0 <= b < k ==> o[b]) && c == o[k := true]
    ensures (Written(v, Loc(d, st + i), j, [c]), (i * 1024 + j) * 8 + k - 1) == TakeBit(v, d, st, blocks)
  {
    hide MapBit, SetMapBit, LeastClear, Written;
    var bit := (i * 1024 + j) * 8 + k;
    forall b | 0 <= b < bit
      ensures MapBit(v, d, st, b)
    {
      if (i * 1024 + j) * 8 <= b {
        BitInBlock(v, d, st, i, j, b - (i * 1024 + j) * 8);
      }
    }
    BitInBlock(v, d, st, i, j, k);
    FirstClear(v, d, st, BITS_PER_ZONE * blocks, bit);
    WriteIsSet(v, d, st, i, j, k, c, true);
  }

  /** Writing back a byte with one bit changed changes this bit of the bitmap. */
  lemma WriteIsSet(v: View, d: nat, st: nat, i: nat, j: nat, k: nat, c: Byte, on: bool)
    requires j < 1024 && k < 8 && c == v[Loc(d, st + i)][j][k := on]
    ensures Written(v, Loc(d, st + i), j, [c]) == SetMapBit(v, d, st, (i * 1024 + j) * 8 + k, on)
  {
    BitInBlock(v, d, st, i, j, k);
  }

  /** `alloc_zmap_bit` */
  method AllocZmapBit(cache: ZoneCache, d: nat, sb: Super) returns (zone: int)
    requires cache.Valid() && d < 0x1_0000 && Laid(sb)
    modifies cache.slots, cache.data, cache.disk
    ensures cache.Valid()
    ensures (cache.View(), zone) == TakeZone(old(cache.View()), d, sb)
  {
    hide TakeBit, ZoneCache.View, ZoneCache.Valid;
    var n := AllocBit(cache, d, sb.imapBlk + 2, sb.zmapBlk);
    if n == -1 {
      return n;
    }
    return n + sb.fst;
  }

  /** `alloc_imap_bit` */
  method AllocImapBit(cache: ZoneCache, d: nat, sb: Super) returns (ino: int)
    requires cache.Valid() && d < 0x1_0000 && Laid(sb)
    modifies cache.slots, cache.data, cache.disk
    ensures cache.Valid()
    ensures (cache.View(), ino) == TakeInode(old(cache.View()), d, sb)
  {
    hide TakeBit, ZoneCache.View, ZoneCache.Valid;
    var n := AllocBit(cache, d, 2, sb.imapBlk);
    if n == -1 {
      return n;
    }
    return n + 1;
  }

  /** Clears a bit of the bitmap that starts at `st`: what both ways of freeing do. */
  method ClearBit(cache: ZoneCache, d: nat, st: nat, bit: nat)
    requires cache.Valid() && d < 0x1_0000 && st + bit < 0x100_0000
    modifies cache.slots, cache.data, cache.disk
    ensures cache.Valid() && cache.View() == SetMapBit(old(cache.View()), d, st, bit, false)
  {
    hide MapBit, SetMapBit, Written, And, Not, Shl, ByteOf, ZoneCache.View, ZoneCache.Valid;
    var byte := bit / 8;
    var mask := Not(Shl(ByteOf(1), bit % 8));
    var zone := byte / ZONE_SIZE + st;
    byte := byte % ZONE_SIZE;
    var was := GetByte(cache, Loc(d, zone), byte);
    var c := And(was, mask);
    MaskedIsCleared(cache.View(), d, st, bit, was, c);
    PutByte(cache, Loc(d, zone), byte, c);
  }

  lemma MaskedIsCleared(v: View, d: nat, st: nat, bit: nat, was: Byte, c: Byte)
    requires was == v[Loc(d, bit / 8 / ZONE_SIZE + st)][bit / 8 % ZONE_SIZE]
    requires c == And(was, Not(Shl(ByteOf(1), bit % 8)))
    ensures Written(v, Loc(d, bit / 8 / ZONE_SIZE + st), bit / 8 % ZONE_SIZE, [c]) == SetMapBit(v, d, st, bit, false)
  {
    Masked(was, bit % 8);
  }

  lemma Masked(c: Byte, k: nat)
    requires k < 8
    ensures And(c, Not(Shl(ByteOf(1), k))) == c[k := false]
  {
    assert ByteOf(1) == [true, false, false, false, false, false, false, false];
  }

  /** `free_zmap_bit`, for a zone from the data area. */
  method FreeZmapBit(cache: ZoneCache, d: nat, sb: Super, zone: nat)
    requires cache.Valid() && d < 0x1_0000 && Laid(sb) && sb.fst <= zone < 0x1_0000
    modifies cache.slots, cache.data, cache.disk
    ensures cache.Valid() && cache.View() == GiveZone(old(cache.View()), d, sb, zone)
  {
    hide SetMapBit, ZoneCache.View, ZoneCache.Valid;
    ClearBit(cache, d, sb.imapBlk + 2, zone - sb.fst + 1);
  }

  /** `free_imap_bit` */
  method FreeImapBit(cache: ZoneCache, d: nat, ino: nat)
    requires cache.Valid() && d < 0x1_0000 && ino < 0x80_0000
    modifies cache.slots, cache.data, cache.disk
    ensures cache.Valid() && cache.View() == GiveInode(old(cache.View()), d, ino)
  {
    ClearBit(cache, d, 2, ino);
  }
}
