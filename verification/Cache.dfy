/** The write-back cache: 128 zones over a disk, each zone in the slot that its number picks. */
module Cache {
  import opened Bits

  const ZONE_SIZE := 1024
  const CACHE_CNT := 128

  type Sector = s: seq<Byte> | |s| == 512 witness seq(512, i => ZERO)
  type Block = b: seq<Byte> | |b| == 1024 witness seq(1024, i => ZERO)

  /** A zone on a device. */
  datatype Loc = Loc(dev: nat, zone: nat)

  /** What a device without a cache would hold: a block of bytes for every zone. */
  type View = v: imap<Loc, Block> | forall l: Loc :: l in v
    ghost witness imap l: Loc | true :: seq(1024, i => ZERO)

  /** `b` with `bytes` written over it from `offset` on. */
  function Splice(b: Block, offset: nat, bytes: seq<Byte>): (c: Block)
    requires offset + |bytes| <= 1024
  {
    b[..offset] + bytes + b[offset + |bytes|..]
  }

  /** Reading back what was spliced in gives it, and every other byte is as before. */
  lemma SpliceBytes(b: Block, offset: nat, bytes: seq<Byte>)
    requires offset + |bytes| <= 1024
    ensures Splice(b, offset, bytes)[offset..offset + |bytes|] == bytes
    ensures forall i :: 0 <= i < 1024 && !(offset <= i < offset + |bytes|) ==> Splice(b, offset, bytes)[i] == b[i]
  {
  }

  lemma SpliceWhole(b: Block, bytes: seq<Byte>)
    ensures |bytes| == 1024 ==> Splice(b, 0, bytes) == bytes
  {
  }

  /** Zones the driver can reach: device numbers have 16 bits, sector numbers 28. */
  predicate Addressable(l: Loc) {
    l.dev < 0x1_0000 && l.zone < 0x800_0000
  }

  /** How much of a transfer of `size` bytes at `offset` lies inside the zone. */
  function Clamp(size: nat, offset: nat): nat {
    if offset >= 1024 then 0 else if offset + size > 1024 then 1024 - offset else size
  }

  /** What a read of `size` bytes at `offset` finds in a zone. */
  function Part(b: Block, size: nat, offset: nat): seq<Byte> {
    if offset >= 1024 then [] else b[offset..offset + Clamp(size, offset)]
  }

  /** The device after a write of `bytes` into zone `l`. */
  ghost function Written(v: View, l: Loc, offset: nat, bytes: seq<Byte>): (w: View) {
    if offset + |bytes| <= 1024 then v[l := Splice(v[l], offset, bytes)] else v
  }

  datatype Op = Get(l: Loc, size: nat, offset: nat) | Put(l: Loc, offset: nat, bytes: seq<Byte>) | Flush

  predicate Proper(op: Op) {
    match op
    case Get(l, size, offset) => Addressable(l) && offset + size < 0x1_0000_0000
    case Put(l, offset, bytes) => Addressable(l) && offset + |bytes| < 0x1_0000_0000
    case Flush => true
  }

  /** An operation on a device without a cache: what it looks like afterwards, and what a read gives. */
  ghost function Plain(v: View, op: Op): (View, seq<Byte>) {
    match op
    case Get(l, size, offset) => (v, Part(v[l], size, offset))
    case Put(l, offset, bytes) => (Written(v, l, offset, bytes[..Clamp(|bytes|, offset)]), [])
    case Flush => (v, [])
  }

  ghost function PlainRun(v: View, ops: seq<Op>): (r: (View, seq<seq<Byte>>)) {
    if ops == [] then (v, [])
    else
      var (w, outs) := PlainRun(v, ops[..|ops| - 1]);
      var (x, out) := Plain(w, ops[|ops| - 1]);
      (x, outs + [out])
  }

  /** A read gives the bytes from `offset` on, up to the end of the zone. */
  lemma ReadsAre(v: View, l: Loc, size: nat, offset: nat)
    ensures var (w, out) := Plain(v, Get(l, size, offset));
      && w == v && |out| == (if offset >= 1024 then 0 else if size <= 1024 - offset then size else 1024 - offset)
      && forall i :: 0 <= i < |out| ==> out[i] == v[l][offset + i]
  {
  }

  /** A write changes the bytes from `offset` on, up to the end of the zone, and nothing else on any device. */
  lemma WritesAre(v: View, l: Loc, offset: nat, bytes: seq<Byte>, m: Loc, i: nat)
    requires i < 1024
    ensures var (w, out) := Plain(v, Put(l, offset, bytes));
      w[m][i] == (if m == l && offset <= i < offset + |bytes| then bytes[i - offset] else v[m][i]) && out == []
  {
    var n := Clamp(|bytes|, offset);
    if offset < 1024 {
      SpliceBytes(v[l], offset, bytes[..n]);
      if m == l && offset <= i < offset + n {
        assert Splice(v[l], offset, bytes[..n])[offset..offset + n][i - offset] == bytes[i - offset];
      }
    }
  }

  /** The disk: two sectors to a zone. */
  class Disk {
    var sectors: (nat, nat) -> Sector

    /** `n` sectors from `nr` on. */
    function Stretch(dev: nat, nr: nat, n: nat): (b: seq<Byte>)
      reads this
      ensures |b| == 512 * n
      decreases n
    {
      if n == 0 then [] else sectors(dev, nr) + Stretch(dev, nr + 1, n - 1)
    }

    function Zone(l: Loc): (b: Block)
      reads this
    {
      Stretch(l.dev, 2 * l.zone, 2)
    }

    method Read(dev: nat, nr: nat, n: nat) returns (b: seq<Byte>)
      ensures b == Stretch(dev, nr, n)
    {
      b := [];
      var i := 0;
      while i < n
        invariant 0 <= i <= n
        invariant b + Stretch(dev, nr + i, n - i) == Stretch(dev, nr, n)
      {
        ghost var rest := Stretch(dev, nr + i + 1, n - i - 1);
        assert b + (sectors(dev, nr + i) + rest) == b + sectors(dev, nr + i) + rest;
        b := b + sectors(dev, nr + i);
        i := i + 1;
      }
    }

    /** Writes a zone: two sectors, as the driver does, one after the other. */
    method WriteZone(l: Loc, b: Block)
      modifies this
      ensures Zone(l) == b
      ensures forall m: Loc :: m != l ==> Zone(m) == old(Zone(m))
    {
      WriteSector(l.dev, 2 * l.zone, b[..512]);
      WriteSector(l.dev, 2 * l.zone + 1, b[512..]);
      ZoneSectors(l);
      forall m: Loc | m != l
        ensures Zone(m) == old(Zone(m))
      {
        ZoneSectors(m);
        assert old(Zone(m)) == old(sectors(m.dev, 2 * m.zone) + sectors(m.dev, 2 * m.zone + 1)) by {
          assert old(Stretch(m.dev, 2 * m.zone + 1, 1)) == old(sectors(m.dev, 2 * m.zone + 1)) + old(Stretch(m.dev, 2 * m.zone + 2, 0));
        }
      }
    }

    lemma ZoneSectors(l: Loc)
      ensures Zone(l) == sectors(l.dev, 2 * l.zone) + sectors(l.dev, 2 * l.zone + 1)
    {
      assert Stretch(l.dev, 2 * l.zone + 1, 1) == sectors(l.dev, 2 * l.zone + 1) + Stretch(l.dev, 2 * l.zone + 2, 0);
    }

    method WriteSector(dev: nat, nr: nat, s: Sector)
      modifies this
      ensures forall d: nat, n: nat :: sectors(d, n) == if d == dev && n == nr then s else old(sectors(d, n))
    {
      var f := sectors;
      sectors := (d, n) => if d == dev && n == nr then s else f(d, n);
    }
  }

  datatype Flag = Invalid | Busy | Dirty

  datatype Slot = Slot(flag: Flag, dev: nat, zone: nat)

  class ZoneCache {
    const disk: Disk
    /** `caches` */
    const slots: array<Slot>
    /** `cache_data`: slot `i` is cached in the 1024 bytes from `1024 * i` on. */
    const data: array<Byte>

    ghost predicate Shape()
    {
      slots.Length == CACHE_CNT && data.Length == ZONE_SIZE * CACHE_CNT
    }

    /** The bytes of slot `i`. */
    function Bytes(i: nat): (b: Block)
      requires Shape() && i < CACHE_CNT
      reads data
    {
      data[ZONE_SIZE * i..ZONE_SIZE * (i + 1)]
    }

    /** Slot `l.zone % 128` holds zone `l`. */
    predicate Holds(l: Loc)
      requires Shape()
      reads slots
    {
      var s := slots[l.zone % CACHE_CNT];
      s.flag != Invalid && s.dev == l.dev && s.zone == l.zone
    }

    /** A slot that is in use caches a zone that belongs there, and if it is clean, the disk agrees. */
    ghost predicate Valid()
      reads slots, data, disk
      ensures Valid() ==> Shape()
    {
      && Shape()
      && (forall i :: 0 <= i < CACHE_CNT && slots[i].flag != Invalid ==> slots[i].zone % CACHE_CNT == i)
      && (forall i :: 0 <= i < CACHE_CNT && slots[i].flag == Busy ==> disk.Zone(Loc(slots[i].dev, slots[i].zone)) == Bytes(i))
    }

    /** What the cache makes the device look like. */
    ghost function Look(l: Loc): (b: Block)
      requires Shape()
      reads slots, data, disk
    {
      if Holds(l) then Bytes(l.zone % CACHE_CNT) else disk.Zone(l)
    }

    ghost function View(): (v: View)
      requires Shape()
      reads slots, data, disk
    {
      imap l: Loc | true :: Look(l)
    }

    /** `cache_init` */
    constructor (disk: Disk)
      ensures Valid() && this.disk == disk && fresh(slots) && fresh(data)
      ensures forall l: Loc :: View()[l] == disk.Zone(l)
    {
      this.disk := disk;
      slots := new Slot[CACHE_CNT](i => Slot(Invalid, 0, 0));
      data := new Byte[ZONE_SIZE * CACHE_CNT];
    }

    /** Puts bytes into the data of slot `i`, from `offset` on, as `memcpy` does. */
    method CopyIn(i: nat, offset: nat, bytes: seq<Byte>)
      requires Shape() && i < CACHE_CNT && offset + |bytes| <= ZONE_SIZE
      modifies data
      ensures Bytes(i) == Splice(old(Bytes(i)), offset, bytes)
      ensures forall j :: 0 <= j < CACHE_CNT && j != i ==> Bytes(j) == old(Bytes(j))
    {
      var n := 0;
      var at := ZONE_SIZE * i + offset;
      while n < |bytes|
        invariant 0 <= n <= |bytes|
        invariant forall j :: 0 <= j < data.Length ==> data[j] == if at <= j < at + n then bytes[j - at] else old(data[j])
      {
        data[at + n] := bytes[n];
        n := n + 1;
      }
    }

    /** Writes a dirty slot back. */
    method WriteBack(i: nat)
      requires Valid() && i < CACHE_CNT && slots[i].flag == Dirty
      modifies slots, disk
      ensures Valid() && View() == old(View())
      ensures slots[i] == old(slots[i]).(flag := Busy)
      ensures forall j :: 0 <= j < CACHE_CNT && j != i ==> slots[j] == old(slots[j])
    {
      var s := slots[i];
      ghost var loc := Loc(s.dev, s.zone);
      disk.WriteZone(Loc(s.dev, s.zone), Bytes(i));
      slots[i] := s.(flag := Busy);
      assert forall j :: 0 <= j < CACHE_CNT ==> Bytes(j) == old(Bytes(j));
      forall j | 0 <= j < CACHE_CNT && slots[j].flag == Busy
        ensures disk.Zone(Loc(slots[j].dev, slots[j].zone)) == Bytes(j)
      {
        assert j != i ==> slots[j].zone % CACHE_CNT != s.zone % CACHE_CNT;
      }
      forall l: Loc
        ensures Look(l) == old(Look(l))
      {
      }
    }

    /** One zone from the disk. */
    method ReadZone(l: Loc) returns (b: Block)
      ensures b == disk.Zone(l)
    {
      b := disk.Read(l.dev, 2 * l.zone, 2);
    }

    /** Reads a zone into its slot, which holds nothing that would be lost. */
    method Fetch(l: Loc)
      requires Valid() && slots[l.zone % CACHE_CNT].flag != Dirty
      modifies slots, data
      ensures Valid() && View() == old(View())
      ensures Holds(l)
    {
      hide Splice, Bytes, Disk.Zone;
      var index := l.zone % CACHE_CNT;
      var b := ReadZone(l);
      SpliceWhole(Bytes(index), b);
      CopyIn(index, 0, b);
      slots[index] := Slot(Busy, l.dev, l.zone);
      forall m: Loc
        ensures Look(m) == old(Look(m))
      {
        if m.zone % CACHE_CNT == index {
          assert Look(m) == disk.Zone(m);
          assert old(Look(m)) == old(disk.Zone(m));
        } else {
          assert Holds(m) == old(Holds(m));
        }
      }
    }

    /** `cache_load`: brings a zone into its slot, and the zone that was there back to disk if need be. */
    method Load(l: Loc)
      requires Valid()
      modifies slots, data, disk
      ensures Valid() && View() == old(View())
      ensures Holds(l)
    {
      var index := l.zone % CACHE_CNT;
      if slots[index].flag == Invalid || slots[index].dev != l.dev || slots[index].zone != l.zone {
        if slots[index].flag == Dirty {
          WriteBack(index);
        }
        Fetch(l);
      }
    }

    /** `cache_read`: the bytes that end up in the caller's buffer. */
    method Read(l: Loc, size: nat, offset: nat) returns (bytes: seq<Byte>)
      requires Valid() && Addressable(l) && offset + size < 0x1_0000_0000
      modifies slots, data, disk
      ensures Valid() && View() == old(View())
      ensures bytes == Part(old(View())[l], size, offset)
    {
      if offset >= ZONE_SIZE {
        return [];
      }
      var n := if offset + size > ZONE_SIZE then ZONE_SIZE - offset else size;
      var index := l.zone % CACHE_CNT;
      Load(l);
      bytes := Bytes(index)[offset..offset + n];
      assert Bytes(index) == View()[l];
    }

    /** `cache_write`: returns how many of the `size` bytes were written. */
    method Write(l: Loc, size: nat, offset: nat, buffer: seq<Byte>) returns (n: nat)
      requires Valid() && Addressable(l) && offset + size < 0x1_0000_0000 && size <= |buffer|
      modifies slots, data, disk
      ensures Valid() && n == Clamp(size, offset)
      ensures View() == Written(old(View()), l, offset, buffer[..n])
    {
      if offset >= ZONE_SIZE {
        assert offset == ZONE_SIZE ==> Splice(View()[l], offset, []) == View()[l];
        return 0;
      }
      n := if offset + size > ZONE_SIZE then ZONE_SIZE - offset else size;
      Load(l);
      Overwrite(l, offset, buffer[..n]);
    }

    /** Changes part of a zone that is in the cache. */
    method Overwrite(l: Loc, offset: nat, bytes: seq<Byte>)
      requires Valid() && Holds(l) && offset + |bytes| <= ZONE_SIZE
      modifies slots, data
      ensures Valid() && View() == Written(old(View()), l, offset, bytes)
    {
      hide Splice, Bytes, Disk.Zone, Written;
      var index := l.zone % CACHE_CNT;
      ghost var v := View();
      assert v[l] == Look(l) == Bytes(index);
      CopyIn(index, offset, bytes);
      slots[index] := slots[index].(flag := Dirty);
      assert Look(l) == Splice(v[l], offset, bytes);
      forall m: Loc | m != l
        ensures Look(m) == v[m]
      {
        assert v[m] == old(Look(m));
        if m.zone % CACHE_CNT == index {
          assert !Holds(m) && !old(Holds(m));
        }
      }
      ViewIsWritten(v, l, offset, bytes);
    }

    lemma ViewIsWritten(v: View, l: Loc, offset: nat, bytes: seq<Byte>)
      requires Shape() && offset + |bytes| <= ZONE_SIZE
      requires Look(l) == Splice(v[l], offset, bytes) && forall m: Loc :: m != l ==> Look(m) == v[m]
      ensures View() == Written(v, l, offset, bytes)
    {
      hide Splice, Look;
    }

    /** `cache_sync`: afterwards the disk holds everything. */
    method Sync()
      requires Valid()
      modifies slots, disk
      ensures Valid() && View() == old(View())
      ensures forall i :: 0 <= i < CACHE_CNT ==> slots[i].flag != Dirty
      ensures forall l: Loc :: disk.Zone(l) == View()[l]
    {
      var i := 0;
      while i < CACHE_CNT
        invariant 0 <= i <= CACHE_CNT && Valid() && View() == old(View())
        invariant forall j :: 0 <= j < i ==> slots[j].flag != Dirty
      {
        if slots[i].flag == Dirty {
          WriteBack(i);
        }
        i := i + 1;
      }
      forall l: Loc
        ensures disk.Zone(l) == View()[l]
      {
        assert View()[l] == Look(l);
      }
    }

    method Perform(op: Op) returns (out: seq<Byte>)
      requires Valid() && Proper(op)
      modifies slots, data, disk
      ensures Valid() && (View(), out) == Plain(old(View()), op)
    {
      out := [];
      match op {
        case Get(l, size, offset) => out := Read(l, size, offset);
        case Put(l, offset, bytes) => var n := Write(l, |bytes|, offset, bytes);
        case Flush => Sync();
      }
    }

    /** Any sequence of operations gives what the device without a cache would give, and leaves it looking so. */
    method Replay(ops: seq<Op>) returns (outs: seq<seq<Byte>>)
      requires Valid() && forall op :: op in ops ==> Proper(op)
      modifies slots, data, disk
      ensures Valid() && (View(), outs) == PlainRun(old(View()), ops)
    {
      hide Plain;
      outs := [];
      var i := 0;
      while i < |ops|
        invariant 0 <= i <= |ops| && Valid()
        invariant (View(), outs) == PlainRun(old(View()), ops[..i])
      {
        assert ops[..i + 1][..i] == ops[..i];
        var out := Perform(ops[i]);
        outs := outs + [out];
        i := i + 1;
      }
      assert ops[..i] == ops;
    }
  }
}
