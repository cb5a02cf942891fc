/** The table of open inodes as it is kept in memory. */
module OpenInodes {
  import opened Bits
  import opened Cache
  import opened FsLayout
  import opened FsFiles
  import opened InodeOps
  import opened InodeTable

  class Inodes {
    /** `inode_list` */
    const list: seq<Inode>
    /** `inode_hash`; a list element is named by its place in `inode_list`. */
    const hash: array<seq<nat>>
    /** `inode_slots` */
    var slots: seq<nat>

    ghost predicate Distinct()
    {
      && |list| == LIST_SIZE && hash.Length == LIST_SIZE
      && forall i, j :: 0 <= i < j < LIST_SIZE ==> list[i] != list[j]
    }

    function Entry(i: nat): Ent
      requires i < |list|
      reads list
    {
      Ent(list[i].dev, list[i].ino, list[i].openCnt)
    }

    function Tab(): (t: Table)
      reads this, list, hash
      ensures |t.ents| == |list| && |t.hash| == hash.Length && t.slots == slots
      ensures forall i :: 0 <= i < |list| ==> t.ents[i] == Entry(i)
    {
      Table(seq(|list|, i requires 0 <= i < |list| reads list => Entry(i)), hash[..], slots)
    }

    ghost predicate Valid()
      reads this, list, hash
      ensures Valid() ==> Distinct() && Shape(Tab())
    {
      Distinct() && Shape(Tab()) && Placed(Tab())
    }

    /** `inode_init` */
    constructor ()
      ensures Valid() && Tab() == Fresh() && fresh(list) && fresh(hash)
    {
      var l: seq<Inode> := [];
      var q: seq<nat> := [];
      while |l| < LIST_SIZE
        invariant |l| <= LIST_SIZE && fresh(l) && |q| == |l|
        invariant forall i, j :: 0 <= i < j < |l| ==> l[i] != l[j]
        invariant forall i :: 0 <= i < |l| ==> l[i].dev == 0 && l[i].ino == 0 && l[i].openCnt == 0 && q[i] == i
      {
        var x := new Inode();
        q := q + [|l|];
        l := l + [x];
      }
      list, slots := l, q;
      hash := new seq<nat>[LIST_SIZE](i => []);
      new;
      assert Tab() == Fresh();
      FreshIsInv();
    }

    /** `ino2inode`: the entry that holds an inode, or -1. */
    method Ino2Inode(k: Key) returns (i: int)
      requires Valid()
      ensures i == Find(Tab(), k)
    {
      hide Placed, Shape, Matches;
      var q := hash[Bucket(k.ino)];
      ghost var ents := Tab().ents;
      BucketShape(Tab(), Bucket(k.ino));
      assert q[0..] == q;
      var n := 0;
      while n < |q|
        invariant 0 <= n <= |q| && AllBelow(q[n..], |ents|)
        invariant First(ents, q[n..], k) == First(ents, q, k)
      {
        FirstStep(ents, q, n, k);
        var e := list[q[n]];
        MatchesIs(ents[q[n]], k);
        if e.dev == k.dev && e.ino == k.ino {
          return q[n];
        }
        n := n + 1;
      }
      return -1;
    }

    /** `inode_open`: the place of the entry, or -1. An inode that was not open is read from the device. */
    method InodeOpen(cache: ZoneCache, sb: Super, d: u16, ino: u32) returns (i: int)
      requires Valid() && cache.Valid() && Fits(Vol(d, sb)) && 1 <= ino <= FsFiles.Inodes(Vol(d, sb))
      modifies this`slots, list, hash, cache.slots, cache.data, cache.disk
      ensures Distinct() && cache.Valid() && cache.View() == old(cache.View()) && -1 <= i < LIST_SIZE
      ensures (Tab(), i) == Open(old(Tab()), Key(d, ino))
      ensures i != -1 && old(Find(Tab(), Key(d, ino))) == -1 ==> list[i].Rec() == Record(cache.View(), Vol(d, sb), ino)
      ensures forall j :: 0 <= j < LIST_SIZE && (j != i || old(Find(Tab(), Key(d, ino))) != -1) ==> list[j].Rec() == old(list[j].Rec())
    {
      hide Placed, ZoneCache.View, ZoneCache.Valid, Record, Matches;
      var k := Key(d, ino);
      ghost var t := Tab();
      InShape(t, k);
      i := Ino2Inode(k);
      if i != -1 {
        CountUp(i);
        return;
      }
      if slots == [] {
        return -1;
      }
      assert slots[0] in slots;
      i := slots[0];
      TakeSlot(cache, sb, i, d, ino);
    }

    method CountUp(i: nat)
      requires Distinct() && i < LIST_SIZE
      modifies list
      ensures Tab() == old(Tab().(ents := Tab().ents[i := Tab().ents[i].(cnt := (Tab().ents[i].cnt + 1) % 0x1_0000)]))
      ensures forall j :: 0 <= j < LIST_SIZE ==> list[j].Rec() == old(list[j].Rec())
    {
      ghost var ents := Tab().ents;
      list[i].openCnt := (list[i].openCnt + 1) % 0x1_0000;
      assert Tab().ents == ents[i := ents[i].(cnt := (ents[i].cnt + 1) % 0x1_0000)];
    }

    /** Takes an entry that is free. */
    method TakeSlot(cache: ZoneCache, sb: Super, i: nat, d: u16, ino: u32)
      requires Valid() && cache.Valid() && Fits(Vol(d, sb)) && 1 <= ino <= FsFiles.Inodes(Vol(d, sb))
      requires i < LIST_SIZE && slots != [] && i == slots[0]
      modifies this`slots, list, hash, cache.slots, cache.data, cache.disk
      ensures cache.Valid() && cache.View() == old(cache.View())
      ensures Tab() == old(Table(Tab().ents[i := Ent(d, ino, 1)],
                                 Tab().hash[Bucket(ino) := Tab().hash[Bucket(ino)] + [i]], slots[1..]))
      ensures list[i].Rec() == Record(cache.View(), Vol(d, sb), ino)
      ensures forall j :: 0 <= j < LIST_SIZE && j != i ==> list[j].Rec() == old(list[j].Rec())
    {
      hide ZoneCache.View, ZoneCache.Valid, Decode, Placed, Shape, Record;
      ghost var t := Tab();
      slots := slots[1..];
      hash[Bucket(ino)] := hash[Bucket(ino)] + [i];
      var inode := list[i];
      ghost var v := cache.View();
      var r := ReadRecord(cache, sb, d, ino);
      inode.Claim(r, d, ino);
      assert Tab().ents == t.ents[i := Ent(d, ino, 1)];
    }

    /** `inode_close`: the last close gives the entry back and writes everything to disk. */
    method InodeClose(cache: ZoneCache, i: nat)
      requires Valid() && cache.Valid() && i < LIST_SIZE && list[i].openCnt >= 1
      modifies this`slots, list, hash, cache.slots, cache.disk
      ensures Distinct() && cache.Valid() && cache.View() == old(cache.View())
      ensures Tab() == Close(old(Tab()), i)
      ensures forall j :: 0 <= j < LIST_SIZE ==> list[j].Rec() == old(list[j].Rec())
      ensures old(list[i].openCnt) == 1 ==> forall l: Loc :: cache.disk.Zone(l) == cache.View()[l]
    {
      hide ZoneCache.View, ZoneCache.Valid, Placed, Shape;
      ghost var t := Tab();
      var b := Bucket(list[i].ino);
      CountDown(i);
      if list[i].openCnt == 0 {
        hash[b] := Unlinked(hash[b], i);
        slots := slots + [i];
        cache.Sync();
      }
      assert Tab().hash == Close(t, i).hash;
    }

    /** An entry that is open no more holds no inode. */
    method CountDown(i: nat)
      requires Distinct() && i < LIST_SIZE && list[i].openCnt >= 1
      modifies list
      ensures list[i].openCnt == old(list[i].openCnt) - 1
      ensures var e := old(Tab().ents[i]);
        Tab() == old(Tab()).(ents := old(Tab()).ents[i := if e.cnt == 1 then Ent(e.dev, 0, 0) else e.(cnt := e.cnt - 1)])
      ensures forall j :: 0 <= j < LIST_SIZE ==> list[j].Rec() == old(list[j].Rec())
    {
      ghost var ents := Tab().ents;
      list[i].openCnt := list[i].openCnt - 1;
      if list[i].openCnt == 0 {
        list[i].ino := 0;
      }
      ghost var e := ents[i];
      assert Tab().ents == ents[i := if e.cnt == 1 then Ent(e.dev, 0, 0) else e.(cnt := e.cnt - 1)];
    }
  }

  /** The record of an inode, as `inode_open` reads it. */
  method ReadRecord(cache: ZoneCache, sb: Super, d: u16, ino: u32) returns (r: INode)
    requires cache.Valid() && Fits(Vol(d, sb)) && 1 <= ino <= FsFiles.Inodes(Vol(d, sb))
    modifies cache.slots, cache.data, cache.disk
    ensures cache.Valid() && cache.View() == old(cache.View()) && r == Record(cache.View(), Vol(d, sb), ino)
  {
    hide ZoneCache.View, ZoneCache.Valid, Decode;
    var zone := 2 + sb.imapBlk + sb.zmapBlk + (ino - 1) / INODES_PER_ZONE;
    var bias := (ino - 1) % INODES_PER_ZONE * INODE_SIZE;
    var buf := cache.Read(Loc(d, zone), INODE_SIZE, bias);
    r := Decode(buf);
  }
}
