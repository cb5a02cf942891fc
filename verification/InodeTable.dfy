/** The inodes that are open: a fixed table, whose entries are either free or in the hash bucket of their number. */
module InodeTable {
  import opened Bits
  import opened Cache
  import opened FsLayout
  import opened FsBitmap
  import opened FsFiles
  import opened InodeOps

  const LIST_SIZE := 128

  /** What the table says about an entry: which inode it holds, and how often it was opened. */
  datatype Ent = Ent(dev: nat, ino: nat, cnt: nat)

  /** An entry is named by its place in `inode_list`. */
  datatype Table = Table(ents: seq<Ent>, hash: seq<seq<nat>>, slots: seq<nat>)

  datatype Key = Key(dev: nat, ino: nat)

  function Bucket(ino: nat): (b: nat)
    ensures b < LIST_SIZE
  {
    (ino - 1) % LIST_SIZE
  }

  predicate Shape(t: Table) {
    && |t.ents| == LIST_SIZE && |t.hash| == LIST_SIZE
    && (forall b, i :: 0 <= b < LIST_SIZE && i in t.hash[b] ==> i < LIST_SIZE)
    && (forall i :: i in t.slots ==> i < LIST_SIZE)
  }

  predicate Matches(e: Ent, k: Key) {
    e.dev == k.dev && e.ino == k.ino
  }

  /** The first entry in a bucket that holds this inode, or -1. */
  function First(ents: seq<Ent>, q: seq<nat>, k: Key): (i: int)
    requires forall j :: j in q ==> j < |ents|
    ensures i == -1 ==> forall j :: j in q ==> !Matches(ents[j], k)
    ensures i != -1 ==> i in q && 0 <= i < |ents| && Matches(ents[i], k)
  {
    if q == [] then -1
    else
      assert q[0] in q && forall j :: j in q[1..] ==> j in q;
      if Matches(ents[q[0]], k) then q[0] else First(ents, q[1..], k)
  }

  predicate AllBelow(q: seq<nat>, n: nat) {
    forall j :: j in q ==> j < n
  }

  lemma BucketShape(t: Table, b: nat)
    requires Shape(t) && b < LIST_SIZE
    ensures AllBelow(t.hash[b], |t.ents|)
  {
  }

  lemma MatchesIs(e: Ent, k: Key)
    ensures Matches(e, k) <==> e.dev == k.dev && e.ino == k.ino
  {
  }

  lemma FirstStep(ents: seq<Ent>, q: seq<nat>, n: nat, k: Key)
    requires n < |q| && AllBelow(q[n..], |ents|)
    ensures q[n] < |ents| && AllBelow(q[n + 1..], |ents|)
    ensures First(ents, q[n..], k) == if Matches(ents[q[n]], k) then q[n] else First(ents, q[n + 1..], k)
  {
    assert q[n] in q[n..];
    assert q[n..][1..] == q[n + 1..];
    assert forall j :: j in q[n..][1..] ==> j in q[n..];
  }

  /** `ino2inode`: the entry that holds this inode, or -1. */
  function Find(t: Table, k: Key): (i: int)
    requires Shape(t)
  {
    First(t.ents, t.hash[Bucket(k.ino)], k)
  }

  /** `q` without the entry `i`. */
  function Unlinked(q: seq<nat>, i: nat): (r: seq<nat>)
    ensures forall j :: j in r ==> j in q && j != i
    ensures forall j :: j in q && j != i ==> j in r
  {
    if q == [] then []
    else if q[0] == i then Unlinked(q[1..], i)
    else [q[0]] + Unlinked(q[1..], i)
  }

  lemma {:induction false} UnlinkedOnce(q: seq<nat>, i: nat)
    requires Once(q)
    ensures Once(Unlinked(q, i))
  {
    if q == [] {
    } else {
      UnlinkedOnce(q[1..], i);
      assert q[0] !in q[1..];
    }
  }

  predicate Once(q: seq<nat>) {
    forall a, b :: 0 <= a < b < |q| ==> q[a] != q[b]
  }

  // ---------------------------------------------------------------- operations

  /** `inode_open`: the table, and the entry, or -1 if there is none to be had. */
  function Open(t: Table, k: Key): (Table, int)
    requires Shape(t)
  {
    var i := Find(t, k);
    if i != -1 then (t.(ents := t.ents[i := t.ents[i].(cnt := (t.ents[i].cnt + 1) % 0x1_0000)]), i)
    else if t.slots == [] then (t, -1)
    else
      var n, b := t.slots[0], Bucket(k.ino);
      assert n in t.slots;
      (Table(t.ents[n := Ent(k.dev, k.ino, 1)], t.hash[b := t.hash[b] + [n]], t.slots[1..]), n)
  }

  /** `inode_close` */
  function Close(t: Table, i: nat): Table
    requires Shape(t) && i < LIST_SIZE && t.ents[i].cnt >= 1
  {
    var e := t.ents[i];
    var b := Bucket(e.ino);
    if e.cnt == 1 then
      Table(t.ents[i := Ent(e.dev, 0, 0)], t.hash[b := Unlinked(t.hash[b], i)], t.slots + [i])
    else t.(ents := t.ents[i := e.(cnt := e.cnt - 1)])
  }

  function Fresh(): Table {
    Table(seq(LIST_SIZE, i => Ent(0, 0, 0)), seq(LIST_SIZE, i => []), seq(LIST_SIZE, i => i))
  }

  // ---------------------------------------------------------------- invariant

  /** A free entry is in the slots, once, and an open one in the bucket of its number, once; nothing is anywhere else. */
  ghost predicate Placed(t: Table)
    requires Shape(t)
  {
    && (forall i :: 0 <= i < LIST_SIZE ==> t.ents[i].cnt < 0x1_0000)
    && Once(t.slots)
    && (forall b :: 0 <= b < LIST_SIZE ==> Once(t.hash[b]))
    && (forall i :: 0 <= i < LIST_SIZE ==> (i in t.slots <==> t.ents[i].cnt == 0))
    && (forall b, i :: 0 <= b < LIST_SIZE && 0 <= i < LIST_SIZE ==>
         (i in t.hash[b] <==> t.ents[i].cnt > 0 && Bucket(t.ents[i].ino) == b))
  }

  predicate SameInode(a: Ent, b: Ent) {
    a.cnt > 0 && b.cnt > 0 && a.dev == b.dev && a.ino == b.ino
  }

  /** No inode is open in two entries. */
  ghost predicate Unique(t: Table)
    requires Shape(t)
  {
    && (forall i :: 0 <= i < LIST_SIZE && t.ents[i].cnt > 0 ==> t.ents[i].ino >= 1)
    && (forall i, j :: 0 <= i < LIST_SIZE && 0 <= j < LIST_SIZE && SameInode(t.ents[i], t.ents[j]) ==> i == j)
  }

  /** How often an inode is open. */
  ghost function CountOf(t: Table, k: Key): nat
    requires Shape(t)
  {
    var i := Find(t, k);
    if i == -1 then 0 else t.ents[i].cnt
  }

  /** The open counts are the opens that were not closed yet. */
  ghost predicate Counted(t: Table, held: multiset<Key>)
    requires Shape(t)
  {
    forall k: Key :: held[k] == CountOf(t, k)
  }

  ghost predicate TableInv(t: Table, held: multiset<Key>) {
    Shape(t) && Placed(t) && Unique(t) && Counted(t, held)
  }

  /** An inode that is open is found, and one that is found is open. */
  lemma FindIs(t: Table, k: Key, i: nat)
    requires Shape(t) && Placed(t) && Unique(t) && i < LIST_SIZE
    ensures t.ents[i].cnt > 0 && Matches(t.ents[i], k) <==> Find(t, k) == i
  {
    if t.ents[i].cnt > 0 && Matches(t.ents[i], k) {
      assert i in t.hash[Bucket(k.ino)];
      var j := Find(t, k);
      assert j in t.hash[Bucket(k.ino)];
    }
  }

  lemma FreshIsInv()
    ensures TableInv(Fresh(), multiset{})
  {
    var t := Fresh();
    forall i: nat | i < LIST_SIZE
      ensures i in t.slots
    {
      assert t.slots[i] == i;
    }
    forall k: Key
      ensures CountOf(t, k) == 0
    {
    }
  }

  /** What is counted after one entry changed. */
  lemma CountedAfter(t: Table, u: Table, i: nat, k: Key)
    requires Shape(t) && Placed(t) && Unique(t) && Shape(u) && Placed(u) && Unique(u) && i < LIST_SIZE
    requires forall j :: 0 <= j < LIST_SIZE && j != i ==> u.ents[j] == t.ents[j]
    ensures !Matches(t.ents[i], k) && !Matches(u.ents[i], k) ==> CountOf(u, k) == CountOf(t, k)
    ensures Matches(u.ents[i], k) && u.ents[i].cnt > 0 ==> CountOf(u, k) == u.ents[i].cnt
    ensures Matches(t.ents[i], k) && t.ents[i].cnt > 0 ==> CountOf(t, k) == t.ents[i].cnt
  {
    hide Placed, Unique, Find;
    FindIs(t, k, i);
    FindIs(u, k, i);
    if !Matches(t.ents[i], k) && !Matches(u.ents[i], k) {
      CountedElsewhere(t, u, i, k);
    }
  }

  lemma CountedElsewhere(t: Table, u: Table, i: nat, k: Key)
    requires Shape(t) && Placed(t) && Unique(t) && Shape(u) && Placed(u) && Unique(u) && i < LIST_SIZE
    requires forall j :: 0 <= j < LIST_SIZE && j != i ==> u.ents[j] == t.ents[j]
    requires !Matches(t.ents[i], k) && !Matches(u.ents[i], k)
    ensures CountOf(u, k) == CountOf(t, k)
  {
    hide Placed, Unique;
    var a, b := Find(t, k), Find(u, k);
    if a != -1 {
      FindIs(t, k, a);
      FindIs(u, k, a);
    } else if b != -1 {
      FindIs(t, k, b);
      FindIs(u, k, b);
    }
  }

  // ---------------------------------------------------------------- opening and closing

  lemma ReopenShape(t: Table, i: nat, n: nat)
    requires Shape(t) && Placed(t) && Unique(t) && i < LIST_SIZE && t.ents[i].cnt > 0 && 0 < n < 0x1_0000
    ensures var u := t.(ents := t.ents[i := t.ents[i].(cnt := n)]); Shape(u) && Placed(u) && Unique(u)
  {
    var u := t.(ents := t.ents[i := t.ents[i].(cnt := n)]);
    forall a, b | 0 <= a < LIST_SIZE && 0 <= b < LIST_SIZE && SameInode(u.ents[a], u.ents[b])
      ensures a == b
    {
      assert SameInode(t.ents[a], t.ents[b]);
    }
  }

  /** An inode that is open already is opened once more. */
  lemma OpenAgain(t: Table, held: multiset<Key>, k: Key)
    requires TableInv(t, held) && Find(t, k) != -1 && held[k] < 0xffff
    ensures TableInv(Open(t, k).0, held + multiset{k}) && Open(t, k).1 == Find(t, k)
  {
    hide Placed, Unique, Shape, Find, Matches;
    var i := Find(t, k);
    InShape(t, k);
    FindIs(t, k, i);
    assert held[k] == CountOf(t, k) == t.ents[i].cnt;
    ReopenShape(t, i, t.ents[i].cnt + 1);
    var u := Open(t, k).0;
    forall x: Key
      ensures (held + multiset{k})[x] == CountOf(u, x)
    {
      assert held[x] == CountOf(t, x);
      CountedAfter(t, u, i, x);
      OneKey(t.ents[i], k, x);
      OneKey(u.ents[i], k, x);
      SameKey(t.ents[i], u.ents[i], x);
      SameKey(t.ents[i], u.ents[i], k);
    }
  }

  lemma InShape(t: Table, k: Key)
    requires Shape(t)
    ensures -1 <= Find(t, k) < LIST_SIZE && |t.ents| == LIST_SIZE
  {
  }

  lemma OneKey(e: Ent, k: Key, x: Key)
    ensures Matches(e, k) ==> (Matches(e, x) <==> x == k)
  {
  }

  lemma SameKey(e: Ent, f: Ent, x: Key)
    requires e.dev == f.dev && e.ino == f.ino
    ensures Matches(e, x) == Matches(f, x)
  {
  }

  lemma OpenNewShape(t: Table, k: Key)
    requires Shape(t) && Placed(t) && Unique(t) && k.ino >= 1 && Find(t, k) == -1 && t.slots != []
    ensures var (u, i) := Open(t, k);
      Shape(u) && Placed(u) && Unique(u) && 0 <= i < LIST_SIZE && i == t.slots[0] && t.ents[i].cnt == 0
      && u.ents == t.ents[i := Ent(k.dev, k.ino, 1)]
  {
    var (u, n) := Open(t, k);
    var b := Bucket(k.ino);
    assert n in t.slots;
    OpenNewPlaced(t, k);
    forall i, j | 0 <= i < LIST_SIZE && 0 <= j < LIST_SIZE && SameInode(u.ents[i], u.ents[j])
      ensures i == j
    {
      if i == n && j != n {
        FindIs(t, k, j);
      } else if j == n && i != n {
        FindIs(t, k, i);
      } else if i != n {
        assert SameInode(t.ents[i], t.ents[j]);
      }
    }
  }

  lemma OpenNewPlaced(t: Table, k: Key)
    requires Shape(t) && Placed(t) && Find(t, k) == -1 && t.slots != []
    ensures Shape(Open(t, k).0) && Placed(Open(t, k).0)
  {
    var (u, n) := Open(t, k);
    var b := Bucket(k.ino);
    assert n in t.slots && n !in t.hash[b];
    assert forall i :: i in t.slots <==> i == n || i in u.slots;
    assert n !in u.slots;
    assert forall i :: i in u.hash[b] <==> i in t.hash[b] || i == n;
  }

  /** An inode that is not open yet takes the first free entry. */
  lemma OpenNew(t: Table, held: multiset<Key>, k: Key)
    requires TableInv(t, held) && k.ino >= 1 && Find(t, k) == -1 && t.slots != []
    ensures TableInv(Open(t, k).0, held + multiset{k}) && 0 <= Open(t, k).1 < LIST_SIZE
  {
    hide Placed, Unique, Shape, Find, Matches, Open;
    OpenNewShape(t, k);
    var (u, i) := Open(t, k);
    forall x: Key
      ensures (held + multiset{k})[x] == CountOf(u, x)
    {
      assert held[x] == CountOf(t, x);
      NewKey(t, u, i, k, x);
    }
  }

  lemma NewKey(t: Table, u: Table, i: nat, k: Key, x: Key)
    requires Shape(t) && Placed(t) && Unique(t) && Shape(u) && Placed(u) && Unique(u) && i < LIST_SIZE
    requires u.ents == t.ents[i := Ent(k.dev, k.ino, 1)] && t.ents[i].cnt == 0 && Find(t, k) == -1
    ensures CountOf(u, x) == CountOf(t, x) + if x == k then 1 else 0
  {
    hide Placed, Unique, Find;
    FindIs(u, k, i);
    if x != k {
      var a, b := Find(t, x), Find(u, x);
      InShape(t, x);
      InShape(u, x);
      if a != -1 {
        FindIs(t, x, a);
        FindIs(u, x, a);
      } else if b != -1 {
        FindIs(t, x, b);
        FindIs(u, x, b);
      }
    }
  }

  /** Opening fails exactly if the inode is not open and all entries are in use; then nothing changes. */
  lemma OpenFails(t: Table, held: multiset<Key>, k: Key)
    requires TableInv(t, held)
    ensures Open(t, k).1 == -1 <==> held[k] == 0 && forall i :: 0 <= i < LIST_SIZE ==> t.ents[i].cnt > 0
    ensures Open(t, k).1 == -1 ==> Open(t, k).0 == t
  {
    var i := Find(t, k);
    assert held[k] == CountOf(t, k);
    if i != -1 {
      FindIs(t, k, i);
    } else if t.slots != [] {
      assert t.slots[0] in t.slots;
    }
  }

  /** The last close gives the entry back. */
  lemma CloseLastShape(t: Table, i: nat)
    requires Shape(t) && Placed(t) && Unique(t) && i < LIST_SIZE && t.ents[i].cnt == 1
    ensures var u := Close(t, i); Shape(u) && Placed(u) && Unique(u) && i in u.slots && u.ents[i].cnt == 0
  {
    var u := Close(t, i);
    var b := Bucket(t.ents[i].ino);
    UnlinkedOnce(t.hash[b], i);
    assert i !in t.slots;
    assert forall j :: j in u.slots <==> j == i || j in t.slots;
    forall a, c | 0 <= a < LIST_SIZE && 0 <= c < LIST_SIZE && SameInode(u.ents[a], u.ents[c])
      ensures a == c
    {
      assert SameInode(t.ents[a], t.ents[c]);
    }
  }

  /** A close takes back one open; the entry becomes free exactly if it was the last. */
  lemma CloseKeeps(t: Table, held: multiset<Key>, i: nat)
    requires TableInv(t, held) && i < LIST_SIZE && t.ents[i].cnt >= 1
    ensures var k := Key(t.ents[i].dev, t.ents[i].ino); var u := Close(t, i);
      k in held && TableInv(u, held - multiset{k}) && (i in u.slots <==> held[k] == 1)
  {
    hide Unique, Find, Close;
    var k := Key(t.ents[i].dev, t.ents[i].ino);
    var u := Close(t, i);
    CloseShape(t, i);
    IsKey(t.ents[i], k);
    FindIs(t, k, i);
    assert held[k] == CountOf(t, k) == t.ents[i].cnt;
    forall x: Key
      ensures (held - multiset{k})[x] == CountOf(u, x)
    {
      assert held[x] == CountOf(t, x);
      ClosedKey(t, u, i, k, x);
    }
  }

  lemma IsKey(e: Ent, k: Key)
    requires k == Key(e.dev, e.ino)
    ensures Matches(e, k)
  {
  }

  lemma CloseShape(t: Table, i: nat)
    requires Shape(t) && Placed(t) && Unique(t) && i < LIST_SIZE && t.ents[i].cnt >= 1
    ensures var u := Close(t, i); Shape(u) && Placed(u) && Unique(u) && (i in u.slots <==> t.ents[i].cnt == 1)
    ensures var u := Close(t, i);
      (forall j :: 0 <= j < LIST_SIZE && j != i ==> u.ents[j] == t.ents[j]) && u.ents[i].cnt == t.ents[i].cnt - 1
      && (u.ents[i].cnt > 0 ==> u.ents[i].dev == t.ents[i].dev && u.ents[i].ino == t.ents[i].ino)
  {
    if t.ents[i].cnt == 1 {
      CloseLastShape(t, i);
    } else {
      ReopenShape(t, i, t.ents[i].cnt - 1);
    }
  }

  lemma ClosedKey(t: Table, u: Table, i: nat, k: Key, x: Key)
    requires Shape(t) && Placed(t) && Unique(t) && Shape(u) && Placed(u) && Unique(u) && i < LIST_SIZE
    requires forall j :: 0 <= j < LIST_SIZE && j != i ==> u.ents[j] == t.ents[j]
    requires Matches(t.ents[i], k) && t.ents[i].cnt > 0 && u.ents[i].cnt == t.ents[i].cnt - 1
    requires u.ents[i].cnt > 0 ==> Matches(u.ents[i], k)
    ensures CountOf(u, x) == CountOf(t, x) - if x == k then 1 else 0
  {
    hide Placed, Unique, Shape, Find;
    FindIs(t, k, i);
    FindIs(u, k, i);
    var a, b := Find(t, x), Find(u, x);
    InShape(t, x);
    InShape(u, x);
    if a != -1 {
      FindIs(t, x, a);
      FindIs(u, x, a);
    }
    if b != -1 {
      FindIs(t, x, b);
      FindIs(u, x, b);
    }
  }

  /**
   * A successful open is counted, and leaves the table in order, exactly if the inode was open less than 65535
   * times; after that the count starts again from zero.
   */
  lemma OpenKeepsExactly(t: Table, held: multiset<Key>, k: Key)
    requires TableInv(t, held) && k.ino >= 1 && Open(t, k).1 != -1
    ensures TableInv(Open(t, k).0, held + multiset{k}) <==> held[k] < 0xffff
  {
    hide Placed, Unique;
    InShape(t, k);
    var i := Find(t, k);
    assert held[k] == CountOf(t, k);
    if i == -1 {
      OpenNew(t, held, k);
    } else if held[k] < 0xffff {
      OpenAgain(t, held, k);
    } else {
      FindIs(t, k, i);
      Wrapped(t, i, Open(t, k).0);
    }
  }

  lemma Wrapped(t: Table, i: nat, u: Table)
    requires Shape(t) && Placed(t) && i < LIST_SIZE && t.ents[i].cnt >= 0xffff
    requires u == t.(ents := t.ents[i := t.ents[i].(cnt := (t.ents[i].cnt + 1) % 0x1_0000)])
    ensures Shape(u) ==> !Placed(u)
  {
    assert i in t.hash[Bucket(t.ents[i].ino)];
    assert u.ents[i].cnt == 0;
  }

  // ---------------------------------------------------------------- runs

  datatype Use = Opens(k: Key) | Closes(k: Key)

  /** The table, and the opens that are not closed yet. */
  datatype State = State(t: Table, held: multiset<Key>)

  /** Only what is open is closed; inodes count from 1, and none is open 65535 times. */
  ghost predicate MayUse(s: State, e: Use) {
    Shape(s.t) &&
    match e
    case Opens(k) => k.ino >= 1 && s.held[k] < 0xffff
    case Closes(k) => k in s.held && Find(s.t, k) != -1 && |s.t.ents| == LIST_SIZE && s.t.ents[Find(s.t, k)].cnt >= 1
  }

  ghost function Used(s: State, e: Use): State
    requires MayUse(s, e)
  {
    match e
    case Opens(k) => var (u, i) := Open(s.t, k); State(u, if i == -1 then s.held else s.held + multiset{k})
    case Closes(k) => State(Close(s.t, Find(s.t, k)), s.held - multiset{k})
  }

  /** Every use keeps the table in order and the counts right; an inode that stays open stays where it is. */
  lemma UseKeeps(s: State, e: Use, k: Key)
    requires TableInv(s.t, s.held) && MayUse(s, e)
    ensures var z := Used(s, e); TableInv(z.t, z.held) && (k in s.held && k in z.held ==> Find(z.t, k) == Find(s.t, k))
  {
    hide Placed, Unique, Find, Open, Close;
    var z := Used(s, e);
    InShape(s.t, e.k);
    match e
    case Opens(x) =>
      if Open(s.t, x).1 == -1 {
        OpenFails(s.t, s.held, x);
      } else if Find(s.t, x) == -1 {
        OpenFails(s.t, s.held, x);
        NewMayOpen(s.t, x);
        OpenNew(s.t, s.held, x);
        OpenNewShape(s.t, x);
        StaysPut(s.t, z.t, k, s.held, z.held, Open(s.t, x).1);
      } else {
        OpenAgain(s.t, s.held, x);
        AgainOnly(s.t, x);
        StaysPut(s.t, z.t, k, s.held, z.held, Open(s.t, x).1);
      }
    case Closes(x) =>
      var i := Find(s.t, x);
      FindIs(s.t, x, i);
      OneEntry(s.t.ents[i], x);
      CloseKeeps(s.t, s.held, i);
      CloseShape(s.t, i);
      StaysPut(s.t, z.t, k, s.held, z.held, i);
  }

  lemma OneEntry(e: Ent, k: Key)
    requires Matches(e, k)
    ensures k == Key(e.dev, e.ino)
  {
  }

  lemma NewMayOpen(t: Table, k: Key)
    requires Shape(t) && Find(t, k) == -1 && Open(t, k).1 != -1
    ensures t.slots != []
  {
  }

  lemma AgainOnly(t: Table, k: Key)
    requires Shape(t) && Find(t, k) != -1
    ensures var (u, i) := Open(t, k);
      i == Find(t, k) && |u.ents| == |t.ents| && 0 <= i < |t.ents| && (forall j :: 0 <= j < |t.ents| && j != i ==> u.ents[j] == t.ents[j])
      && u.ents[i].dev == t.ents[i].dev && u.ents[i].ino == t.ents[i].ino
  {
  }

  /** If only one entry changes, and keeps its inode while it is open, every inode stays where it is. */
  lemma StaysPut(t: Table, u: Table, k: Key, held: multiset<Key>, left: multiset<Key>, i: nat)
    requires TableInv(t, held) && TableInv(u, left) && i < LIST_SIZE
    requires forall j :: 0 <= j < LIST_SIZE && j != i ==> u.ents[j] == t.ents[j]
    requires t.ents[i].cnt > 0 && u.ents[i].cnt > 0 ==> u.ents[i].dev == t.ents[i].dev && u.ents[i].ino == t.ents[i].ino
    ensures k in held && k in left ==> Find(u, k) == Find(t, k)
  {
    hide Placed, Unique, Find;
    assert held[k] == CountOf(t, k) && left[k] == CountOf(u, k);
    InShape(t, k);
    InShape(u, k);
    var a, b := Find(t, k), Find(u, k);
    if k in held && k in left {
      FindIs(t, k, a);
      FindIs(u, k, b);
      FindIs(t, k, b);
      FindIs(u, k, a);
      FindIs(t, k, i);
      FindIs(u, k, i);
    }
  }

  ghost predicate MayRun(s: State, es: seq<Use>)
    decreases |es|
  {
    es == [] || (MayUse(s, es[0]) && MayRun(Used(s, es[0]), es[1..]))
  }

  ghost function Ran(s: State, es: seq<Use>): State
    requires MayRun(s, es)
    decreases |es|
  {
    if es == [] then s else Ran(Used(s, es[0]), es[1..])
  }

  lemma {:induction false} RunKeepsTable(s: State, es: seq<Use>)
    requires TableInv(s.t, s.held) && MayRun(s, es)
    ensures TableInv(Ran(s, es).t, Ran(s, es).held)
    decreases |es|
  {
    hide TableInv, MayUse, Used;
    if es == [] {
    } else {
      UseKeeps(s, es[0], es[0].k);
      RunKeepsTable(Used(s, es[0]), es[1..]);
    }
  }

  /** From `inode_init` on, every entry is in one place, no inode has two, and the counts are the opens outstanding. */
  lemma RunsKeepTable(es: seq<Use>)
    requires MayRun(State(Fresh(), multiset{}), es)
    ensures var z := Ran(State(Fresh(), multiset{}), es); TableInv(z.t, z.held)
  {
    hide TableInv, MayUse, Used;
    FreshIsInv();
    RunKeepsTable(State(Fresh(), multiset{}), es);
  }

  // ---------------------------------------------------------------- how many

  /** The inodes that are open. */
  function KeysOf(held: multiset<Key>): (ks: set<Key>) {
    set k | k in held
  }

  /** The free entries and the inodes that are open make up the table. */
  ghost predicate Room(s: State) {
    |s.t.slots| + |KeysOf(s.held)| == 128
  }

  lemma OpenRoom(s: State, k: Key)
    requires TableInv(s.t, s.held) && MayUse(s, Opens(k)) && Room(s)
    ensures Room(Used(s, Opens(k)))
  {
    hide Placed, Unique, Find, Matches;
    assert s.held[k] == CountOf(s.t, k);
    InShape(s.t, k);
    if Find(s.t, k) != -1 {
      FindIs(s.t, k, Find(s.t, k));
      assert KeysOf(s.held + multiset{k}) == KeysOf(s.held);
    } else {
      assert KeysOf(s.held + multiset{k}) == KeysOf(s.held) + {k};
    }
  }

  lemma CloseRoom(s: State, k: Key)
    requires TableInv(s.t, s.held) && MayUse(s, Closes(k)) && Room(s)
    ensures Room(Used(s, Closes(k)))
  {
    hide Placed, Unique, Find, Unlinked;
    assert s.held[k] == CountOf(s.t, k);
    if s.held[k] == 1 {
      assert KeysOf(s.held - multiset{k}) == KeysOf(s.held) - {k};
    } else {
      assert KeysOf(s.held - multiset{k}) == KeysOf(s.held);
    }
  }

  lemma {:induction false} RunKeepsRoom(s: State, es: seq<Use>)
    requires TableInv(s.t, s.held) && Room(s) && MayRun(s, es)
    ensures Room(Ran(s, es))
    decreases |es|
  {
    hide TableInv, MayUse, Used, Room;
    if es == [] {
    } else {
      UseKeeps(s, es[0], es[0].k);
      match es[0] {
        case Opens(k) => OpenRoom(s, k);
        case Closes(k) => CloseRoom(s, k);
      }
      RunKeepsRoom(Used(s, es[0]), es[1..]);
    }
  }

  /** Over every run from `inode_init` on, an open fails exactly if 128 other inodes are open. */
  lemma FailsAt128(es: seq<Use>, k: Key)
    requires MayRun(State(Fresh(), multiset{}), es) && k.ino >= 1
    ensures var z := Ran(State(Fresh(), multiset{}), es);
      |KeysOf(z.held)| <= 128 && Shape(z.t) && (Open(z.t, k).1 == -1 <==> k !in z.held && |KeysOf(z.held)| == 128)
  {
    hide Placed, Unique, Ran, MayRun, Find;
    FreshIsInv();
    var s := State(Fresh(), multiset{});
    assert KeysOf(s.held) == {};
    RunsKeepTable(es);
    RunKeepsRoom(s, es);
    var z := Ran(s, es);
    assert z.held[k] == CountOf(z.t, k);
    InShape(z.t, k);
    if Find(z.t, k) != -1 {
      FindIs(z.t, k, Find(z.t, k));
    }
  }

  // ---------------------------------------------------------------- where it goes wrong

  function Times(k: Key, n: nat): (es: seq<Use>)
    ensures |es| == n
  {
    if n == 0 then [] else [Opens(k)] + Times(k, n - 1)
  }

  /** Opening an inode that is open, or for which there is room, succeeds. */
  lemma OneMore(s: State, k: Key)
    requires TableInv(s.t, s.held) && k.ino >= 1 && s.held[k] < 0xffff && (s.held[k] > 0 || s.t.slots != [])
    ensures MayUse(s, Opens(k))
    ensures var z := Used(s, Opens(k)); TableInv(z.t, z.held) && z.held[k] == s.held[k] + 1 && Open(s.t, k).1 != -1
  {
    hide Placed, Unique, Open;
    UseKeeps(s, Opens(k), k);
    Succeeds(s.t, s.held, k);
  }

  lemma Succeeds(t: Table, held: multiset<Key>, k: Key)
    requires TableInv(t, held) && (held[k] > 0 || t.slots != [])
    ensures Open(t, k).1 != -1
  {
    hide Unique;
    OpenFails(t, held, k);
    assert t.slots != [] ==> t.slots[0] in t.slots && t.ents[t.slots[0]].cnt == 0;
  }

  lemma {:induction false} OpenTimes(s: State, k: Key, n: nat)
    requires TableInv(s.t, s.held) && k.ino >= 1 && s.held[k] + n <= 0xffff && (s.held[k] > 0 || s.t.slots != [])
    ensures MayRun(s, Times(k, n))
    ensures var z := Ran(s, Times(k, n)); TableInv(z.t, z.held) && z.held[k] == s.held[k] + n
    decreases n
  {
    hide TableInv, MayUse, Used, Open;
    if n == 0 {
      assert Ran(s, []) == s;
    } else {
      OneMore(s, k);
      OpenTimes(Used(s, Opens(k)), k, n - 1);
      assert Times(k, n)[1..] == Times(k, n - 1);
    }
  }

  /** Whoever opens an inode 65535 times can open it once more, and nobody knows then that it is open. */
  lemma CountCanOverflow(k: Key)
    requires k.ino >= 1
    ensures MayRun(State(Fresh(), multiset{}), Times(k, 0xffff))
    ensures var z := Ran(State(Fresh(), multiset{}), Times(k, 0xffff));
      TableInv(z.t, z.held) && z.held[k] == 0xffff && Open(z.t, k).1 != -1 && !TableInv(Open(z.t, k).0, z.held + multiset{k})
  {
    hide Placed, Unique, Open, MayRun, Ran, Times;
    FreshIsInv();
    var s := State(Fresh(), multiset{});
    assert s.held[k] == 0;
    OpenTimes(s, k, 0xffff);
    var z := Ran(s, Times(k, 0xffff));
    Succeeds(z.t, z.held, k);
    OpenKeepsExactly(z.t, z.held, k);
  }
}
