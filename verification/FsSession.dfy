/** Several inodes open at once: requests on the inode table and the files, in any order. */
module FsSession {
  import opened Bits
  import opened Cache
  import opened FsLayout
  import opened FsBitmap
  import opened FsFiles
  import opened FsWrite
  import opened FsBytes
  import opened FsUpdate
  import opened FsTrunc
  import opened FsCreate
  import opened FsRun
  import opened InodeTable
  import FsSimple

  datatype Request =
    | Opening(ino: nat)
    | Closing(ino: nat)
    | Reading(ino: nat, size: nat, offset: nat)
    | Changing(e: Change)

  /** The inode table with the records in memory, the opens that are not closed yet, and the device. */
  datatype Session = Session(t: Table, recs: seq<INode>, held: multiset<Key>, v: View)

  /** An entry holds an inode of this device, and what is in memory is what is on the device. */
  ghost predicate Faithful(s: Session, p: Vol, i: nat)
    requires i < |s.t.ents| && i < |s.recs|
  {
    var e := s.t.ents[i];
    e.dev == p.dev && Live(s.v, p, e.ino) && s.recs[i] == Record(s.v, p, e.ino)
  }

  /** The device and the table are in order, and every inode that is open is as on the device. */
  ghost predicate Coherent(s: Session, p: Vol) {
    && Sound(s.v, p) && TableInv(s.t, s.held) && |s.recs| == LIST_SIZE
    && forall i :: 0 <= i < LIST_SIZE && s.t.ents[i].cnt > 0 ==> Faithful(s, p, i)
  }

  /** An inode that is held is found. */
  lemma HeldIsFound(t: Table, held: multiset<Key>, k: Key)
    requires TableInv(t, held) && k in held
    ensures 0 <= Find(t, k) < LIST_SIZE && |t.ents| == LIST_SIZE
    ensures t.ents[Find(t, k)].cnt == held[k] && t.ents[Find(t, k)].dev == k.dev && t.ents[Find(t, k)].ino == k.ino
  {
    hide Placed, Unique;
    assert held[k] == CountOf(t, k);
    FindIs(t, k, Find(t, k));
  }

  /** The place of an inode that is held. */
  ghost function PlaceOf(s: Session, p: Vol, ino: nat): (i: nat)
    requires Coherent(s, p) && Key(p.dev, ino) in s.held
    ensures i < LIST_SIZE && |s.t.ents| == LIST_SIZE == |s.recs| && s.t.ents[i].cnt == s.held[Key(p.dev, ino)]
    ensures s.t.ents[i].dev == p.dev && s.t.ents[i].ino == ino && Faithful(s, p, i) && i == Find(s.t, Key(p.dev, ino))
  {
    hide TableInv, Sound, Faithful;
    HeldIsFound(s.t, s.held, Key(p.dev, ino));
    Find(s.t, Key(p.dev, ino))
  }

  /**
   * Only inodes in use are opened, and only open ones closed, read or changed; one that is removed is open nowhere
   * else.
   */
  ghost predicate MayServe(s: Session, p: Vol, q: Request) {
    match q
    case Opening(ino) => Live(s.v, p, ino) && s.held[Key(p.dev, ino)] < 0xffff
    case Closing(ino) => Key(p.dev, ino) in s.held
    case Reading(ino, size, offset) => Key(p.dev, ino) in s.held && offset + size < 0x1_0000_0000
    case Changing(e) =>
      Allowed(s.v, p, e) &&
      match e
      case Create(_, _) => true
      case Remove(ino) => s.held[Key(p.dev, ino)] == 1
      case _ => Key(p.dev, e.ino) in s.held
  }

  ghost function Opened(s: Session, p: Vol, ino: nat): Session
    requires Shape(s.t) && |s.recs| == LIST_SIZE
  {
    var k := Key(p.dev, ino);
    var (u, i) := Open(s.t, k);
    InShape(s.t, k);
    if i == -1 then s
    else if Find(s.t, k) != -1 then s.(t := u, held := s.held + multiset{k})
    else
      assert i in s.t.slots;
      Session(u, s.recs[i := Record(s.v, p, ino)], s.held + multiset{k}, s.v)
  }

  ghost function Closed(s: Session, p: Vol, ino: nat): Session
    requires TableInv(s.t, s.held) && Key(p.dev, ino) in s.held
  {
    HeldIsFound(s.t, s.held, Key(p.dev, ino));
    s.(t := Close(s.t, Find(s.t, Key(p.dev, ino))), held := s.held - multiset{Key(p.dev, ino)})
  }

  /** `inode_remove` and the close after it. */
  ghost function Removed(s: Session, p: Vol, ino: nat): Session
    requires Coherent(s, p) && Key(p.dev, ino) in s.held
  {
    hide Sound, TableInv, RemoveFile, Find;
    var i := PlaceOf(s, p, ino);
    var r := s.recs[i];
    CoherentParts(s, p);
    Closed(s.(v := RemoveFile(s.v, p, ino, r), recs := s.recs[i := r.(zone := r.zone[7 := 0])]), p, ino)
  }

  /** The operations use the record in memory. */
  ghost function Changed(s: Session, p: Vol, e: Change): Session
    requires Coherent(s, p) && MayServe(s, p, Changing(e))
  {
    hide Sound, TableInv, Coherent, CreateFile, WriteFile, TruncFile, Find, Live, Record, CanHold, FreeZones, TakeInode;
    match e
    case Create(mode, zones) => s.(v := CreateFile(s.v, p, mode, zones).0)
    case Write(ino, bytes, offset) =>
      var i := PlaceOf(s, p, ino);
      var (w, r) := WriteFile(s.v, p, ino, s.recs[i], bytes, offset);
      s.(v := w, recs := s.recs[i := r])
    case Trunc(ino, length) =>
      var i := PlaceOf(s, p, ino);
      var (w, r) := TruncFile(s.v, p, ino, s.recs[i], length);
      s.(v := w, recs := s.recs[i := r])
    case Remove(ino) => Removed(s, p, ino)
  }

  ghost function Served(s: Session, p: Vol, q: Request): Session
    requires Coherent(s, p) && MayServe(s, p, q)
  {
    match q
    case Opening(ino) => Opened(s, p, ino)
    case Closing(ino) => Closed(s, p, ino)
    case Reading(_, _, _) => s
    case Changing(e) => Changed(s, p, e)
  }

  /** What a read finds. */
  ghost function Answer(s: Session, p: Vol, ino: nat, size: nat, offset: nat): seq<Byte>
    requires Coherent(s, p) && Key(p.dev, ino) in s.held
  {
    Load(s.v, p, s.recs[PlaceOf(s, p, ino)], size, offset)
  }

  // ---------------------------------------------------------------- opening and closing

  lemma OpenedKeeps(s: Session, p: Vol, ino: nat)
    requires Coherent(s, p) && MayServe(s, p, Opening(ino))
    ensures Coherent(Opened(s, p, ino), p)
  {
    hide Sound, Placed, Unique, Live, Record, Open, Find;
    var k := Key(p.dev, ino);
    var (u, i) := Open(s.t, k);
    InShape(s.t, k);
    LiveBound(s.v, p, ino);
    if i != -1 {
      OpenedTable(s.t, s.held, k);
      var z := Opened(s, p, ino);
      forall j | 0 <= j < LIST_SIZE && z.t.ents[j].cnt > 0
        ensures Faithful(z, p, j)
      {
        if j != i || Find(s.t, k) != -1 {
          assert Faithful(s, p, j);
        }
      }
    }
  }

  lemma OpenedTable(t: Table, held: multiset<Key>, k: Key)
    requires TableInv(t, held) && k.ino >= 1 && held[k] < 0xffff && Open(t, k).1 != -1
    ensures var (u, i) := Open(t, k);
      && TableInv(u, held + multiset{k}) && 0 <= i < LIST_SIZE && u.ents[i].dev == k.dev && u.ents[i].ino == k.ino
      && (Find(t, k) != -1 ==> t.ents[i].cnt > 0 && t.ents[i].dev == k.dev && t.ents[i].ino == k.ino)
      && forall j :: 0 <= j < LIST_SIZE && j != i ==> u.ents[j] == t.ents[j]
  {
    hide Placed, Unique, Open, Find;
    if Find(t, k) != -1 {
      OpenAgain(t, held, k);
      AgainOnly(t, k);
      InShape(t, k);
      FindIs(t, k, Find(t, k));
    } else {
      NewMayOpen(t, k);
      OpenNew(t, held, k);
      OpenNewShape(t, k);
    }
  }

  lemma ClosedTable(t: Table, held: multiset<Key>, k: Key)
    requires TableInv(t, held) && k in held
    ensures var i := Find(t, k); 0 <= i < LIST_SIZE && Shape(t) && t.ents[i].cnt >= 1
    ensures var i := Find(t, k); var u := Close(t, i);
      && TableInv(u, held - multiset{k}) && u.ents[i].cnt == held[k] - 1
      && (u.ents[i].cnt > 0 ==> u.ents[i].dev == t.ents[i].dev && u.ents[i].ino == t.ents[i].ino)
      && forall j :: 0 <= j < LIST_SIZE && j != i ==> u.ents[j] == t.ents[j]
  {
    hide Placed, Unique, Close, Find;
    HeldIsFound(t, held, k);
    CloseKeeps(t, held, Find(t, k));
    CloseShape(t, Find(t, k));
  }

  lemma ClosedKeeps(s: Session, p: Vol, ino: nat)
    requires Coherent(s, p) && Key(p.dev, ino) in s.held
    ensures Coherent(Closed(s, p, ino), p)
  {
    hide Sound, Placed, Unique, Live, Record, Close, Find, Counted;
    var k := Key(p.dev, ino);
    ClosedTable(s.t, s.held, k);
    var z := Closed(s, p, ino);
    forall j | 0 <= j < LIST_SIZE && z.t.ents[j].cnt > 0
      ensures Faithful(z, p, j)
    {
      assert Faithful(s, p, j);
    }
  }

  // ---------------------------------------------------------------- changes

  /** An entry whose inode a change leaves alone is as on the device afterwards. */
  lemma FaithfulStays(s: Session, z: Session, p: Vol, i: nat)
    requires i < |s.t.ents| && i < |s.recs| && i < |z.t.ents| && i < |z.recs| && Faithful(s, p, i)
    requires z.t.ents[i].dev == s.t.ents[i].dev && z.t.ents[i].ino == s.t.ents[i].ino && z.recs[i] == s.recs[i]
    requires Untouched(s.v, z.v, p, s.t.ents[i].ino)
    ensures Faithful(z, p, i)
  {
    hide Live, Record, Chain;
  }

  /** Two entries that are open hold different inodes. */
  lemma OtherInode(t: Table, held: multiset<Key>, i: nat, j: nat)
    requires TableInv(t, held) && i < LIST_SIZE && j < LIST_SIZE && i != j && t.ents[i].cnt > 0 && t.ents[j].cnt > 0
    ensures t.ents[i].dev != t.ents[j].dev || t.ents[i].ino != t.ents[j].ino
  {
    assert !SameInode(t.ents[i], t.ents[j]);
  }

  /** A change to one inode that is open, which is as on the device afterwards. */
  lemma ChangeKeeps(s: Session, p: Vol, e: Change, i: nat, w: View, r: INode)
    requires Coherent(s, p) && Allowed(s.v, p, e) && !e.Create? && i < LIST_SIZE && s.t.ents[i].cnt > 0
    requires s.t.ents[i].dev == p.dev && s.t.ents[i].ino == e.ino
    requires w == Apply(s.v, p, e) && Live(w, p, e.ino) && Record(w, p, e.ino) == r
    ensures Coherent(s.(v := w, recs := s.recs[i := r]), p)
  {
    hide Sound, TableInv, Live, Record, Apply, SameStray, Untouched, Allowed;
    StepKeepsFiles(s.v, p, e);
    var z := s.(v := w, recs := s.recs[i := r]);
    TableShape(s.t, s.held);
    forall j | 0 <= j < LIST_SIZE && z.t.ents[j].cnt > 0
      ensures Faithful(z, p, j)
    {
      if j != i {
        assert Faithful(s, p, j);
        OtherInode(s.t, s.held, i, j);
        FaithfulStays(s, z, p, j);
      }
    }
  }

  lemma TableShape(t: Table, held: multiset<Key>)
    requires TableInv(t, held)
    ensures Shape(t) && |t.ents| == LIST_SIZE
  {
  }

  lemma WriteRecord(v: View, p: Vol, ino: nat, bytes: seq<Byte>, offset: nat)
    requires Sound(v, p) && Allowed(v, p, Write(ino, bytes, offset))
    ensures var (w, r) := WriteFile(v, p, ino, Record(v, p, ino), bytes, offset);
      w == Apply(v, p, Write(ino, bytes, offset)) && Live(w, p, ino) && Record(w, p, ino) == r
  {
    hide Live, Record, Inv, WriteFile, CanHold, Balance, SameOthers, Stray;
    SameInMemory(v, p, 0, BLANK, ino, Record(v, p, ino));
    WriteKeeps(v, p, ino, Record(v, p, ino), bytes, offset);
  }

  lemma TruncRecord(v: View, p: Vol, ino: nat, length: u32)
    requires Sound(v, p) && Allowed(v, p, Trunc(ino, length))
    ensures var (w, r) := TruncFile(v, p, ino, Record(v, p, ino), length);
      w == Apply(v, p, Trunc(ino, length)) && Live(w, p, ino) && Record(w, p, ino) == r
  {
    hide Live, Record, Inv, TruncFile, Balance, SameOthers, Stray;
    SameInMemory(v, p, 0, BLANK, ino, Record(v, p, ino));
    TruncKeeps(v, p, ino, Record(v, p, ino), length);
  }

  /** Nothing that is open is concerned by a new file. */
  lemma CreatedKeeps(s: Session, p: Vol, mode: u16, zones: nat)
    requires Coherent(s, p) && Allowed(s.v, p, Create(mode, zones))
    ensures Coherent(s.(v := Apply(s.v, p, Create(mode, zones))), p)
  {
    hide Sound, TableInv, Live, Record, Apply, SameStray, Untouched, Allowed;
    var e := Create(mode, zones);
    StepKeepsFiles(s.v, p, e);
    var z := s.(v := Apply(s.v, p, e));
    TableShape(s.t, s.held);
    forall j | 0 <= j < LIST_SIZE && z.t.ents[j].cnt > 0
      ensures Faithful(z, p, j)
    {
      assert Faithful(s, p, j) && !Concerns(e, s.t.ents[j].ino);
      FaithfulStays(s, z, p, j);
    }
  }

  /** What a removal does to the device. */
  lemma RemovedDevice(s: Session, p: Vol, ino: nat)
    requires Coherent(s, p) && Key(p.dev, ino) in s.held
    ensures Allowed(s.v, p, Remove(ino))
    ensures var w := Removed(s, p, ino).v; w == Apply(s.v, p, Remove(ino)) && Sound(w, p) && !Live(w, p, ino)
  {
    hide Inv, Live, Record, RemoveFile, SameStray, Untouched, TableInv, Close, Find;
    FaithfulParts(s, p, PlaceOf(s, p, ino));
    RemoveStep(s.v, p, ino);
  }

  /** What it does to the table. */
  lemma RemovedTable(s: Session, p: Vol, ino: nat)
    requires Coherent(s, p) && Key(p.dev, ino) in s.held
    ensures var z := Removed(s, p, ino); TableInv(z.t, z.held) && |z.t.ents| == |z.recs| == LIST_SIZE
    ensures var z := Removed(s, p, ino); var i := PlaceOf(s, p, ino);
      && |z.t.ents| == |z.recs| == LIST_SIZE && z.t.ents[i].cnt == s.held[Key(p.dev, ino)] - 1
      && (z.t.ents[i].cnt > 0 ==> z.t.ents[i].ino == ino)
      && (forall j :: 0 <= j < LIST_SIZE && j != i ==> z.t.ents[j] == s.t.ents[j] && z.recs[j] == s.recs[j])
  {
    hide Inv, Live, Record, RemoveFile, Placed, Unique, Counted, Close, Find;
    ClosedTable(s.t, s.held, Key(p.dev, ino));
  }

  /** A file that is removed leaves the table in agreement with the device exactly if nobody else has it open. */
  lemma RemovedCoherentExactly(s: Session, p: Vol, ino: nat)
    requires Coherent(s, p) && Key(p.dev, ino) in s.held
    ensures Coherent(Removed(s, p, ino), p) <==> s.held[Key(p.dev, ino)] == 1
  {
    hide Sound, TableInv, Live, Record, Removed, SameStray, Untouched, Apply, Find;
    RemovedDevice(s, p, ino);
    RemovedTable(s, p, ino);
    var z := Removed(s, p, ino);
    var i := PlaceOf(s, p, ino);
    if s.held[Key(p.dev, ino)] == 1 {
      StepKeepsFiles(s.v, p, Remove(ino));
      forall j | 0 <= j < LIST_SIZE && z.t.ents[j].cnt > 0
        ensures Faithful(z, p, j)
      {
        assert Faithful(s, p, j);
        OtherInode(s.t, s.held, i, j);
        FaithfulStays(s, z, p, j);
      }
    } else {
      assert z.t.ents[i].cnt > 0 && !Faithful(z, p, i);
    }
  }

  /** The device after a request, as it would be if nobody kept records in memory. */
  ghost function OnDevice(v: View, p: Vol, q: Request): View
    requires q.Changing? ==> Allowed(v, p, q.e)
  {
    if q.Changing? then Apply(v, p, q.e) else v
  }

  /** A change that works on what is in memory does what it should do to the device, and to what is in memory. */
  ghost predicate Right(s: Session, p: Vol, e: Change)
    requires Coherent(s, p) && MayServe(s, p, Changing(e))
  {
    Coherent(Changed(s, p, e), p) && Allowed(s.v, p, e) && Changed(s, p, e).v == Apply(s.v, p, e)
  }

  lemma ChangedWrite(s: Session, p: Vol, ino: nat, bytes: seq<Byte>, offset: nat)
    requires Coherent(s, p) && MayServe(s, p, Changing(Write(ino, bytes, offset)))
    ensures Right(s, p, Write(ino, bytes, offset))
  {
    hide Sound, TableInv, Live, Record, WriteFile, Find, Coherent, Faithful, CanHold;
    CoherentParts(s, p);
    var i := PlaceOf(s, p, ino);
    FaithfulParts(s, p, i);
    WriteRecord(s.v, p, ino, bytes, offset);
    var (w, r) := WriteFile(s.v, p, ino, s.recs[i], bytes, offset);
    ChangeKeeps(s, p, Write(ino, bytes, offset), i, w, r);
  }

  lemma ChangedTrunc(s: Session, p: Vol, ino: nat, length: u32)
    requires Coherent(s, p) && MayServe(s, p, Changing(Trunc(ino, length)))
    ensures Right(s, p, Trunc(ino, length))
  {
    hide Sound, TableInv, Live, Record, TruncFile, Find, Coherent, Faithful;
    CoherentParts(s, p);
    var i := PlaceOf(s, p, ino);
    FaithfulParts(s, p, i);
    TruncRecord(s.v, p, ino, length);
    var (w, r) := TruncFile(s.v, p, ino, s.recs[i], length);
    ChangeKeeps(s, p, Trunc(ino, length), i, w, r);
  }

  lemma ChangedRemove(s: Session, p: Vol, ino: nat)
    requires Coherent(s, p) && MayServe(s, p, Changing(Remove(ino)))
    ensures Right(s, p, Remove(ino))
  {
    hide Sound, TableInv, Live, Record, Removed, Apply, Find, Coherent, Allowed;
    RemovedDevice(s, p, ino);
    RemovedCoherentExactly(s, p, ino);
  }

  lemma ChangedCreate(s: Session, p: Vol, mode: u16, zones: nat)
    requires Coherent(s, p) && MayServe(s, p, Changing(Create(mode, zones)))
    ensures Right(s, p, Create(mode, zones))
  {
    hide Sound, TableInv, CreateFile, TakeInode, FreeZones, Coherent;
    CreatedKeeps(s, p, mode, zones);
  }

  lemma ChangedKeeps(s: Session, p: Vol, e: Change)
    requires Coherent(s, p) && MayServe(s, p, Changing(e))
    ensures Right(s, p, e)
  {
    hide Allowed, Apply, Changed, Coherent, Right;
    match e
    case Create(mode, zones) => ChangedCreate(s, p, mode, zones);
    case Write(ino, bytes, offset) => ChangedWrite(s, p, ino, bytes, offset);
    case Trunc(ino, length) => ChangedTrunc(s, p, ino, length);
    case Remove(ino) => ChangedRemove(s, p, ino);
  }

  lemma CoherentParts(s: Session, p: Vol)
    requires Coherent(s, p)
    ensures Sound(s.v, p) && TableInv(s.t, s.held) && |s.recs| == LIST_SIZE
  {
  }

  lemma FaithfulParts(s: Session, p: Vol, i: nat)
    requires i < |s.t.ents| && i < |s.recs| && Faithful(s, p, i)
    ensures Live(s.v, p, s.t.ents[i].ino) && s.recs[i] == Record(s.v, p, s.t.ents[i].ino)
  {
  }

  /** Every request keeps the records in memory as on the device, and does to the device what it would do without them. */
  lemma ServedKeeps(s: Session, p: Vol, q: Request)
    requires Coherent(s, p) && MayServe(s, p, q)
    ensures var z := Served(s, p, q); Coherent(z, p) && (q.Changing? ==> Allowed(s.v, p, q.e)) && z.v == OnDevice(s.v, p, q)
  {
    hide Coherent, Opened, Closed, Changed, Apply, Allowed;
    match q
    case Opening(ino) =>
      OpenedKeeps(s, p, ino);
      OpenedView(s, p, ino);
    case Closing(ino) =>
      ClosedKeeps(s, p, ino);
      ClosedView(s, p, ino);
    case Reading(_, _, _) =>
    case Changing(e) => ChangedKeeps(s, p, e);
  }

  lemma OpenedView(s: Session, p: Vol, ino: nat)
    requires Coherent(s, p)
    ensures Opened(s, p, ino).v == s.v
  {
    hide Sound, TableInv, Open, Find;
    TableShape(s.t, s.held);
  }

  lemma ClosedView(s: Session, p: Vol, ino: nat)
    requires Coherent(s, p) && Key(p.dev, ino) in s.held
    ensures Closed(s, p, ino).v == s.v
  {
  }

  // ---------------------------------------------------------------- any number of requests

  ghost predicate MayServeAll(s: Session, p: Vol, qs: seq<Request>)
    requires Coherent(s, p)
    decreases |qs|
  {
    qs == [] ||
    (MayServe(s, p, qs[0]) && (ServedKeeps(s, p, qs[0]); MayServeAll(Served(s, p, qs[0]), p, qs[1..])))
  }

  ghost function ServedAll(s: Session, p: Vol, qs: seq<Request>): Session
    requires Coherent(s, p) && MayServeAll(s, p, qs)
    decreases |qs|
  {
    if qs == [] then s
    else
      ServedKeeps(s, p, qs[0]);
      ServedAll(Served(s, p, qs[0]), p, qs[1..])
  }

  /** The changes among the requests. */
  function Changes(qs: seq<Request>): seq<Change> {
    if qs == [] then []
    else if qs[0].Changing? then [qs[0].e] + Changes(qs[1..])
    else Changes(qs[1..])
  }

  /**
   * However opens, closes, reads and changes mix: what is in memory stays as on the device, and the device becomes
   * what the changes alone make of it.
   */
  lemma {:induction false} SessionIsRun(s: Session, p: Vol, qs: seq<Request>)
    requires Coherent(s, p) && MayServeAll(s, p, qs)
    ensures var z := ServedAll(s, p, qs);
      Coherent(z, p) && AllowedRun(s.v, p, Changes(qs)) && z.v == After(s.v, p, Changes(qs))
    decreases |qs|
  {
    hide Coherent, MayServe, Served, Apply, Allowed;
    if qs == [] {
      assert Changes(qs) == [];
    } else {
      ServedKeeps(s, p, qs[0]);
      SessionIsRun(Served(s, p, qs[0]), p, qs[1..]);
      if qs[0].Changing? {
        assert Changes(qs)[1..] == Changes(qs[1..]);
      }
    }
  }

  /** It starts with an empty table and a device without files. */
  lemma FirstSession(p: Vol, recs: seq<INode>)
    requires Fits(p) && |recs| == LIST_SIZE
    ensures Coherent(Session(InodeTable.Fresh(), recs, multiset{}, Formatted(p)), p)
  {
    hide Sound, TableInv, Formatted;
    FreshIsInv();
    FormattedIsSound(p);
  }

  /** What was written through one open is what any other open of the file reads, until somebody changes the file. */
  lemma WrittenIsShared(s: Session, p: Vol, ino: nat, bytes: seq<Byte>, offset: nat, qs: seq<Request>)
    requires Coherent(s, p) && MayServe(s, p, Changing(Write(ino, bytes, offset)))
    requires Coherent(Served(s, p, Changing(Write(ino, bytes, offset))), p)
    requires MayServeAll(Served(s, p, Changing(Write(ino, bytes, offset))), p, qs)
    requires forall e :: e in Changes(qs) ==> !Concerns(e, ino)
    ensures var z := ServedAll(Served(s, p, Changing(Write(ino, bytes, offset))), p, qs);
      Coherent(z, p) && (Key(p.dev, ino) in z.held ==> Answer(z, p, ino, |bytes|, offset) == bytes)
  {
    hide Coherent, MayServeAll, ServedAll, Served, Faithful, Sound, Load, Apply, AllowedRun, After, Concerns, Record, Allowed, Live, Find;
    var q := Changing(Write(ino, bytes, offset));
    CoherentParts(s, p);
    ServedKeeps(s, p, q);
    var u := Served(s, p, q);
    SessionIsRun(u, p, qs);
    WrittenLasts(s.v, p, ino, bytes, offset, Changes(qs));
    var z := ServedAll(u, p, qs);
    if Key(p.dev, ino) in z.held {
      FaithfulParts(z, p, PlaceOf(z, p, ino));
    }
  }

  /**
   * Whatever else is opened, closed and read in between: if the changes among the requests leave no gaps, the files of
   * the device become what these changes make of a map from numbers to modes and bytes.
   */
  lemma SessionIsSimple(s: Session, p: Vol, qs: seq<Request>)
    requires Coherent(s, p) && MayServeAll(s, p, qs) && 0 <= Inodes(p)
    requires FsSimple.GaplessRun(FsSimple.Files(s.v, p), Inodes(p), Changes(qs))
    ensures FsSimple.Files(ServedAll(s, p, qs).v, p) == FsSimple.SimpleRun(FsSimple.Files(s.v, p), Inodes(p), Changes(qs))
  {
    hide Coherent, MayServeAll, ServedAll, Sound, After, AllowedRun, FsSimple.Files, FsSimple.SimpleRun, FsSimple.GaplessRun;
    CoherentParts(s, p);
    SessionIsRun(s, p, qs);
    FsSimple.FilesAreSimple(s.v, p, Changes(qs));
  }

  /** A read through an open inode gives the bytes of the file. */
  lemma AnswerIsFile(s: Session, p: Vol, ino: nat, size: nat, offset: nat)
    requires Coherent(s, p) && Key(p.dev, ino) in s.held
    ensures ino in FsSimple.Files(s.v, p)
    ensures var d := FsSimple.Files(s.v, p)[ino].data; offset + size <= |d| ==> Answer(s, p, ino, size, offset) == d[offset..offset + size]
  {
    hide Coherent, Faithful, Sound, Load, Record, Live, Find, FsSimple.Files;
    CoherentParts(s, p);
    FaithfulParts(s, p, PlaceOf(s, p, ino));
    FsSimple.InFiles(s.v, p, ino);
    if offset + size <= |FsSimple.Files(s.v, p)[ino].data| {
      FsSimple.ReadsFile(s.v, p, ino, size, offset);
    }
  }
}
