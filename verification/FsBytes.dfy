/** The bytes of a file: where a write puts them and where a read finds them. */
module FsBytes {
  import opened Bits
  import opened Cache
  import opened FsLayout
  import opened FsBitmap
  import opened FsFiles
  import opened FsWrite

  /** The zone with the data from `n * 1024` on, as it is looked up. */
  ghost function Lookup(v: View, p: Vol, r: INode, n: nat): u16 {
    if n < 7 then r.zone[n] else if n - 7 < 512 then Entry(v[Loc(p.dev, r.zone[7])], n - 7) else 0
  }

  /** The place of this zone in the chain: the indirect block comes between. */
  function Place(n: nat): nat {
    if n < 7 then n else n + 1
  }

  lemma LookupIsChain(v: View, p: Vol, r: INode, n: nat)
    requires n < DataCount(Lead(Chain(v, p, r)))
    ensures Lookup(v, p, r, n) == Chain(v, p, r)[Place(n)] != 0 && Place(n) < Lead(Chain(v, p, r)) && Place(n) != 7
  {
    var c := Chain(v, p, r);
    assert c[7] == r.zone[7];
    if n >= 7 {
      assert r.zone[7] != 0;
      assert c[n + 1] == Entries(v, p, r.zone[7])[n - 7];
    }
  }

  /** Byte `x` of the space a file has. */
  ghost function FileByte(v: View, p: Vol, r: INode, x: nat): Byte {
    v[Loc(p.dev, Lookup(v, p, r, x / ZONE_SIZE))][x % ZONE_SIZE]
  }

  /** How many of `size` bytes at `offset` are in the same zone. */
  function Piece(size: nat, offset: nat): (t: nat)
    ensures t <= size && offset % ZONE_SIZE + t <= ZONE_SIZE && (size > 0 ==> t > 0)
    ensures t == size || (offset + t) % ZONE_SIZE == 0
  {
    if ZONE_SIZE - offset % ZONE_SIZE > size then size else ZONE_SIZE - offset % ZONE_SIZE
  }

  /** The device after the data loop of `inode_write`. */
  ghost function Store(v: View, p: Vol, r: INode, bytes: seq<Byte>, offset: nat): View
    decreases |bytes|
  {
    if bytes == [] then v
    else
      var t := Piece(|bytes|, offset);
      Store(Written(v, Loc(p.dev, Lookup(v, p, r, offset / ZONE_SIZE)), offset % ZONE_SIZE, bytes[..t]),
            p, r, bytes[t..], offset + t)
  }

  /** What `inode_read` reads. */
  ghost function Load(v: View, p: Vol, r: INode, size: nat, offset: nat): seq<Byte>
    decreases size
  {
    if size == 0 || offset >= r.size then []
    else
      var t := Piece(size, offset);
      Part(v[Loc(p.dev, Lookup(v, p, r, offset / ZONE_SIZE))], t, offset % ZONE_SIZE) + Load(v, p, r, size - t, offset + t)
  }

  /** How many bytes a read gives: it stops at the first zone that begins behind the end of the file. */
  function ReadCount(fileSize: nat, size: nat, offset: nat): nat {
    var end := (fileSize + ZONE_SIZE - 1) / ZONE_SIZE * ZONE_SIZE;
    if offset >= fileSize then 0 else if offset + size <= end then size else end - offset
  }

  /** One piece that is read. */
  lemma PieceRead(v: View, p: Vol, r: INode, size: nat, offset: nat)
    ensures var t := Piece(size, offset); var s := Part(v[Loc(p.dev, Lookup(v, p, r, offset / ZONE_SIZE))], t, offset % ZONE_SIZE);
      |s| == t && forall x :: 0 <= x < t ==> s[x] == FileByte(v, p, r, offset + x)
  {
    hide Lookup;
    var t := Piece(size, offset);
    var s := Part(v[Loc(p.dev, Lookup(v, p, r, offset / ZONE_SIZE))], t, offset % ZONE_SIZE);
    forall x | 0 <= x < t
      ensures s[x] == FileByte(v, p, r, offset + x)
    {
      SameZone(offset, x, t);
    }
  }

  /** A read gives the bytes of the file. */
  lemma {:induction false} LoadIs(v: View, p: Vol, r: INode, size: nat, offset: nat)
    ensures var s := Load(v, p, r, size, offset);
      |s| == ReadCount(r.size, size, offset) && forall x :: 0 <= x < |s| ==> s[x] == FileByte(v, p, r, offset + x)
    decreases size
  {
    hide Lookup, FileByte, Part, Piece;
    if size == 0 || offset >= r.size {
    } else {
      hide ReadCount;
      var t := Piece(size, offset);
      PieceRead(v, p, r, size, offset);
      LoadIs(v, p, r, size - t, offset + t);
      PieceCount(r.size, size, offset);
      BytesJoin(v, p, r, offset, Part(v[Loc(p.dev, Lookup(v, p, r, offset / ZONE_SIZE))], t, offset % ZONE_SIZE),
                Load(v, p, r, size - t, offset + t));
    }
  }

  /** Bytes of a file from `offset` on, and those that follow them. */
  lemma BytesJoin(v: View, p: Vol, r: INode, offset: nat, a: seq<Byte>, b: seq<Byte>)
    requires forall x :: 0 <= x < |a| ==> a[x] == FileByte(v, p, r, offset + x)
    requires forall x :: 0 <= x < |b| ==> b[x] == FileByte(v, p, r, offset + |a| + x)
    ensures forall x :: 0 <= x < |a + b| ==> (a + b)[x] == FileByte(v, p, r, offset + x)
  {
    hide FileByte;
    forall x | |a| <= x < |a + b|
      ensures (a + b)[x] == FileByte(v, p, r, offset + x)
    {
      assert offset + |a| + (x - |a|) == offset + x;
    }
  }

  lemma PieceCount(fileSize: nat, size: nat, offset: nat)
    requires offset < fileSize && size > 0
    ensures var t := Piece(size, offset); ReadCount(fileSize, size, offset) == t + ReadCount(fileSize, size - t, offset + t)
  {
    var q, k := offset / ZONE_SIZE, offset % ZONE_SIZE;
    var e := (fileSize + ZONE_SIZE - 1) / ZONE_SIZE;
    assert q < e;
    var t := Piece(size, offset);
    if t != size {
      assert offset + t == (q + 1) * ZONE_SIZE;
    }
  }

  lemma SameZone(offset: nat, x: nat, t: nat)
    requires x < t && offset % ZONE_SIZE + t <= ZONE_SIZE
    ensures (offset + x) / ZONE_SIZE == offset / ZONE_SIZE && (offset + x) % ZONE_SIZE == offset % ZONE_SIZE + x
  {
  }

  /** A read gives what was asked for, up to the end of the file, exactly if it does not run past an end within a zone. */
  lemma ReadCountIsExact(fileSize: nat, size: nat, offset: nat)
    ensures ReadCount(fileSize, size, offset) == (if offset >= fileSize then 0 else if offset + size <= fileSize then size else fileSize - offset)
       <==> offset >= fileSize || offset + size <= fileSize || fileSize % ZONE_SIZE == 0
  {
    var q, k := fileSize / ZONE_SIZE, fileSize % ZONE_SIZE;
    assert fileSize == q * ZONE_SIZE + k;
    if k == 0 {
      assert (fileSize + ZONE_SIZE - 1) / ZONE_SIZE == q;
    } else {
      assert (fileSize + ZONE_SIZE - 1) / ZONE_SIZE == q + 1;
    }
  }

  // ---------------------------------------------------------------- writing bytes

  /** The zones that hold a file's data. */
  ghost function DataZones(v: View, p: Vol, r: INode): (zs: set<nat>) {
    set q | 0 <= q < 520 && q != 7 && Chain(v, p, r)[q] != 0 :: Chain(v, p, r)[q] as nat
  }

  /** Only zones of `zs` differ. */
  ghost predicate Within(v: View, w: View, p: Vol, zs: set<nat>) {
    forall l: Loc :: w[l] != v[l] ==> l.dev == p.dev && l.zone in zs
  }

  /** Changing data of a file changes no chain. */
  lemma WithinKeepsChain(v: View, w: View, p: Vol, r: INode)
    requires Own(v, p, r) && Within(v, w, p, DataZones(v, p, r))
    ensures Chain(w, p, r) == Chain(v, p, r)
  {
    hide ZSet;
    var c := Chain(v, p, r);
    assert c[7] == r.zone[7];
    if r.zone[7] != 0 {
      assert r.zone[7] as nat !in DataZones(v, p, r);
    }
    ChainSame(v, w, p, r);
  }

  /** One piece: it goes where it belongs, and every other byte of the file is as before. */
  lemma PieceStored(v: View, p: Vol, r: INode, bytes: seq<Byte>, offset: nat, x: nat)
    requires bytes != [] && offset + |bytes| <= ZONE_SIZE * DataCount(Lead(Chain(v, p, r))) && Own(v, p, r)
    requires x < ZONE_SIZE * DataCount(Lead(Chain(v, p, r))) && offset % ZONE_SIZE + |bytes| <= ZONE_SIZE
    ensures var w := Written(v, Loc(p.dev, Lookup(v, p, r, offset / ZONE_SIZE)), offset % ZONE_SIZE, bytes);
      Within(v, w, p, DataZones(v, p, r)) && Chain(w, p, r) == Chain(v, p, r)
      && FileByte(w, p, r, x) == if offset <= x < offset + |bytes| then bytes[x - offset] else FileByte(v, p, r, x)
  {
    hide Chain, ZSet, Lookup, InData;
    var n, m := offset / ZONE_SIZE, x / ZONE_SIZE;
    var c := Chain(v, p, r);
    var w := Written(v, Loc(p.dev, Lookup(v, p, r, n)), offset % ZONE_SIZE, bytes);
    LookupIsChain(v, p, r, n);
    LookupIsChain(v, p, r, m);
    assert Within(v, w, p, DataZones(v, p, r));
    WithinKeepsChain(v, w, p, r);
    LookupIsChain(w, p, r, m);
    if m == n {
      InPiece(offset, |bytes|, x);
    } else {
      assert c[Place(m)] != c[Place(n)];
      assert w[Loc(p.dev, c[Place(m)])] == v[Loc(p.dev, c[Place(m)])];
      OutOfPiece(offset, |bytes|, x);
    }
  }

  lemma InPiece(offset: nat, t: nat, x: nat)
    requires x / ZONE_SIZE == offset / ZONE_SIZE && offset % ZONE_SIZE + t <= ZONE_SIZE
    ensures offset <= x < offset + t <==> offset % ZONE_SIZE <= x % ZONE_SIZE < offset % ZONE_SIZE + t
    ensures x - offset == x % ZONE_SIZE - offset % ZONE_SIZE
  {
  }

  lemma OutOfPiece(offset: nat, t: nat, x: nat)
    requires x / ZONE_SIZE != offset / ZONE_SIZE && offset % ZONE_SIZE + t <= ZONE_SIZE
    ensures !(offset <= x < offset + t)
  {
  }

  lemma WithinKeepsOwn(v: View, w: View, p: Vol, r: INode)
    requires Fits(p) && Own(v, p, r) && Within(v, w, p, DataZones(v, p, r))
    ensures Own(w, p, r) && Chain(w, p, r) == Chain(v, p, r) && DataZones(w, p, r) == DataZones(v, p, r)
    ensures Above(v, w, p)
  {
    hide Chain, ZSet;
    WithinKeepsChain(v, w, p, r);
    AboveKeepsBits(v, w, p);
  }

  /** A write puts its bytes where they belong, and every other byte of the file is as before. */
  lemma {:induction false} StoreIs(v: View, p: Vol, r: INode, bytes: seq<Byte>, offset: nat, x: nat)
    requires Fits(p) && Own(v, p, r) && offset + |bytes| <= ZONE_SIZE * DataCount(Lead(Chain(v, p, r)))
    requires x < ZONE_SIZE * DataCount(Lead(Chain(v, p, r)))
    ensures var w := Store(v, p, r, bytes, offset);
      Within(v, w, p, DataZones(v, p, r)) && Chain(w, p, r) == Chain(v, p, r)
      && FileByte(w, p, r, x) == if offset <= x < offset + |bytes| then bytes[x - offset] else FileByte(v, p, r, x)
    decreases |bytes|
  {
    hide Chain, Own, FileByte, Lookup, Written, Piece, DataZones, Within, Lead;
    if bytes != [] {
      var t := Piece(|bytes|, offset);
      var u := Written(v, Loc(p.dev, Lookup(v, p, r, offset / ZONE_SIZE)), offset % ZONE_SIZE, bytes[..t]);
      PieceStored(v, p, r, bytes[..t], offset, x);
      WithinKeepsOwn(v, u, p, r);
      StoreIs(u, p, r, bytes[t..], offset + t, x);
      WithinTransitive(v, u, Store(v, p, r, bytes, offset), p, DataZones(v, p, r));
      if offset + t <= x < offset + |bytes| {
        assert bytes[t..][x - (offset + t)] == bytes[x - offset];
      }
    } else {
      assert Within(v, v, p, DataZones(v, p, r)) by { WithinNothing(v, p, DataZones(v, p, r)); }
    }
  }

  lemma WithinNothing(v: View, p: Vol, zs: set<nat>)
    ensures Within(v, v, p, zs)
  {
  }

  lemma WithinTransitive(u: View, v: View, w: View, p: Vol, zs: set<nat>)
    requires Within(u, v, p, zs) && Within(v, w, p, zs)
    ensures Within(u, w, p, zs)
  {
    forall l: Loc | w[l] != u[l]
      ensures l.dev == p.dev && l.zone in zs
    {
      if w[l] == v[l] {
        assert v[l] != u[l];
      }
    }
  }

  /** Writing data keeps all files in order, and concerns no other file. */
  lemma StoreKeeps(v: View, p: Vol, me: nat, r: INode, bytes: seq<Byte>, offset: nat)
    requires Inv(v, p, me, r) && Live(v, p, me) && offset + |bytes| <= ZONE_SIZE * DataCount(Lead(Chain(v, p, r)))
    ensures var w := Store(v, p, r, bytes, offset);
      && Inv(w, p, me, r) && Live(w, p, me) && SameOthers(v, w, p, me) && Balance(v, w, p, r, r)
      && Chain(w, p, r) == Chain(v, p, r) && Record(w, p, me) == Record(v, p, me)
      && (forall z: nat :: InData(p, z) ==> ZSet(w, p, z) == ZSet(v, p, z))
  {
    hide Chain, ZSet, Store, Live, Record, Margins, Lead;
    var w := Store(v, p, r, bytes, offset);
    OwnOf(v, p, me, r);
    StoreWithin(v, p, r, bytes, offset);
    WithinKeepsOwn(v, w, p, r);
    AboveKeepsBits(v, w, p);
    var zs := DataZones(v, p, r);
    DataOfMine(v, p, me, r);
    TouchesNoOther(v, w, p, me, r, zs);
    LiveBound(v, p, me);
    TouchesNoRecord(v, w, p, zs, me);
    FormedOf(v, p, me, r);
    FormedSame(v, w, p, r, r);
    KeepsSound(v, w, p, me, r, r);
    KeepsFormed(v, w, p, me, r, r);
  }

  lemma LiveBound(v: View, p: Vol, i: nat)
    requires Live(v, p, i)
    ensures 1 <= i <= Inodes(p)
  {
  }

  lemma FormedSame(v: View, w: View, p: Vol, r: INode, s: INode)
    requires Formed(v, p, r) && Chain(w, p, s) == Chain(v, p, r) && s.zone[8] == 0
    requires s.size <= ZONE_SIZE * DataCount(Lead(Chain(v, p, r)))
    ensures Formed(w, p, s)
  {
  }

  lemma StoreWithin(v: View, p: Vol, r: INode, bytes: seq<Byte>, offset: nat)
    requires Fits(p) && Own(v, p, r) && offset + |bytes| <= ZONE_SIZE * DataCount(Lead(Chain(v, p, r)))
    ensures Within(v, Store(v, p, r, bytes, offset), p, DataZones(v, p, r))
  {
    hide Own, FileByte, Within, DataZones, Chain, Lead;
    if bytes == [] {
      WithinNothing(v, p, DataZones(v, p, r));
    } else {
      StoreIs(v, p, r, bytes, offset, offset);
    }
  }

  lemma DataOfMine(v: View, p: Vol, me: nat, r: INode)
    requires Marked(v, p, me, r) && Disjoint(v, p, me, r) && Live(v, p, me)
    ensures forall z :: z in DataZones(v, p, r) ==>
      InData(p, z) && forall i, q, y: u16 :: i != me && Reaches(v, p, me, r, i, q, y) ==> y != z
  {
    hide Chain, ZSet, Live;
    var c := Chain(v, p, r);
    forall z | z in DataZones(v, p, r)
      ensures InData(p, z) && forall i, q, y: u16 :: i != me && Reaches(v, p, me, r, i, q, y) ==> y != z
    {
      var s :| 0 <= s < 520 && s != 7 && c[s] != 0 && z == c[s];
      assert Reaches(v, p, me, r, me, s, c[s]);
    }
  }
}
