/** The whole stack at work: requests on open files, by way of the inode table and the cache, down to the disk. */
module FileServer {
  import opened Bits
  import opened Cache
  import opened FsLayout
  import opened FsBitmap
  import opened FsFiles
  import opened FsWrite
  import opened FsBytes
  import opened FsUpdate
  import opened FsTrunc
  import opened FsCreate
  import opened FsRun
  import opened InodeOps
  import opened InodeTable
  import opened OpenInodes
  import opened FsSession

  /** The records in memory. */
  ghost function Recs(inodes: OpenInodes.Inodes): (r: seq<INode>)
    reads inodes.list
    ensures |r| == |inodes.list| && forall i :: 0 <= i < |r| ==> r[i] == inodes.list[i].Rec()
  {
    seq(|inodes.list|, i requires 0 <= i < |inodes.list| reads inodes.list => inodes.list[i].Rec())
  }

  /** Table, cache and disk are in this state of a session. */
  ghost predicate Is(cache: ZoneCache, inodes: OpenInodes.Inodes, s: Session)
    reads cache, cache.slots, cache.data, cache.disk, inodes, inodes.list, inodes.hash
  {
    cache.Valid() && inodes.Distinct() && inodes.Tab() == s.t && Recs(inodes) == s.recs && cache.View() == s.v
  }

  lemma TableValid(inodes: OpenInodes.Inodes, held: multiset<Key>)
    requires inodes.Distinct() && TableInv(inodes.Tab(), held)
    ensures inodes.Valid()
  {
  }

  /** What an operation on an inode of a sound device needs. */
  lemma ReadyFor(v: View, p: Vol, ino: nat)
    requires Sound(v, p) && Live(v, p, ino)
    ensures var r := Record(v, p, ino);
      && InodeOps.Proper(v, p, r) && Ends(v, p, r) && Allocated(v, p, r) <= 518
      && Fits(p) && 1 <= ino <= FsFiles.Inodes(p) && ino < 0x1_0000_0000
  {
    hide Record, Inv, Live, Formed, Own;
    var r := Record(v, p, ino);
    SameInMemory(v, p, 0, BLANK, ino, r);
    FormedOf(v, p, ino, r);
    InvOwn(v, p, ino, r);
    InvFits(v, p, ino, r);
    LastsToDrop(v, p, r);
    LiveBound(v, p, ino);
  }

  lemma WriteFits(v: View, p: Vol, r: INode, end: nat)
    requires CanHold(v, p, r, end) && Allocated(v, p, r) <= 518
    ensures end <= ZONE_SIZE * 518
  {
    hide Allocated, FreeZones;
    ZonesForFit(end, 518);
  }

  /** Whether nothing is left to be written to the disk. */
  ghost predicate Flushed(cache: ZoneCache)
    requires cache.Valid()
    reads cache, cache.slots, cache.data, cache.disk
  {
    forall l: Loc :: cache.disk.Zone(l) == cache.View()[l]
  }

  /** The session after a request that may be made. */
  ghost function Next(s: Session, p: Vol, q: Request): Session {
    if Coherent(s, p) && MayServe(s, p, q) then Served(s, p, q) else s
  }

  function InoOf(q: Request): nat {
    match q
    case Changing(Create(_, _)) => 0
    case Changing(e) => e.ino
    case _ => q.ino
  }

  /** A request on an open inode may be made, and this is the inode's entry. */
  ghost predicate Handle(s: Session, p: Vol, q: Request, i: nat) {
    && Coherent(s, p) && MayServe(s, p, q) && i < LIST_SIZE == |s.recs| && Key(p.dev, InoOf(q)) in s.held
    && i == PlaceOf(s, p, InoOf(q))
  }

  /** What an operation on an open inode works with. */
  lemma AtHand(s: Session, p: Vol, q: Request, i: nat)
    requires Handle(s, p, q, i)
    ensures |s.t.ents| == LIST_SIZE == |s.recs| && i < LIST_SIZE
    ensures var ino := InoOf(q); var r := s.recs[i];
      && s.t.ents[i].dev == p.dev && s.t.ents[i].ino == ino && s.t.ents[i].cnt == s.held[Key(p.dev, ino)] > 0
      && TableInv(s.t, s.held) && i == Find(s.t, Key(p.dev, ino))
      && InodeOps.Proper(s.v, p, r) && Ends(s.v, p, r) && Allocated(s.v, p, r) <= 518
      && Fits(p) && 1 <= ino <= FsFiles.Inodes(p) && ino < 0x1_0000_0000
  {
    hide TableInv, Find, Sound, Live, Record, Ends, InodeOps.Proper, Allocated, MayServe;
    FaithfulParts(s, p, i);
    ReadyFor(s.v, p, InoOf(q));
  }

  method ServeOpen(cache: ZoneCache, inodes: OpenInodes.Inodes, sb: Super, d: u16, ino: u32, ghost s: Session) returns (i: int)
    requires Is(cache, inodes, s) && Coherent(s, Vol(d, sb)) && MayServe(s, Vol(d, sb), Opening(ino))
    modifies inodes`slots, inodes.list, inodes.hash, cache.slots, cache.data, cache.disk
    ensures Is(cache, inodes, Next(s, Vol(d, sb), Opening(ino)))
  {
    hide ZoneCache.View, ZoneCache.Valid, Record, Open, Find, Next, Opened, Coherent, MayServe, Placed;
    ghost var p := Vol(d, sb);
    MayOpen(inodes, s, p, ino);
    i := inodes.InodeOpen(cache, sb, d, ino);
    OpenedIs(inodes, s, p, ino, i);
  }

  lemma MayOpen(inodes: OpenInodes.Inodes, s: Session, p: Vol, ino: nat)
    requires inodes.Distinct() && inodes.Tab() == s.t && Coherent(s, p) && MayServe(s, p, Opening(ino))
    ensures inodes.Valid() && Fits(p) && 1 <= ino <= FsFiles.Inodes(p)
  {
    hide Record, TableInv, Find, Live, Sound, Ends, InodeOps.Proper, Allocated;
    TableValid(inodes, s.held);
    ReadyFor(s.v, p, ino);
  }

  /** The table and the in-memory records after an open. */
  lemma OpenedIs(inodes: OpenInodes.Inodes, s: Session, p: Vol, ino: nat, i: int)
    requires |inodes.list| == LIST_SIZE && Coherent(s, p) && MayServe(s, p, Opening(ino)) && Shape(s.t)
    requires (inodes.Tab(), i) == Open(s.t, Key(p.dev, ino))
    requires var again := Find(s.t, Key(p.dev, ino)) != -1;
      && -1 <= i < LIST_SIZE && (i != -1 && !again ==> inodes.list[i].Rec() == Record(s.v, p, ino))
      && forall j :: 0 <= j < LIST_SIZE && (j != i || again) ==> inodes.list[j].Rec() == s.recs[j]
    ensures var z := Next(s, p, Opening(ino)); z.t == inodes.Tab() && z.recs == Recs(inodes) && z.v == s.v
  {
    hide Record, Open, Find, Sound, Shape, Placed, Unique, Counted, Live;
    InShape(s.t, Key(p.dev, ino));
    assert i == -1 ==> Recs(inodes) == s.recs;
    OpenSame(s.t, Key(p.dev, ino));
  }

  lemma OpenSame(t: Table, k: Key)
    requires Shape(t)
    ensures Open(t, k).1 == -1 ==> Open(t, k).0 == t
  {
    InShape(t, k);
  }

  method ServeClose(cache: ZoneCache, inodes: OpenInodes.Inodes, sb: Super, d: u16, i: nat, ghost s: Session, ghost ino: nat)
    requires Is(cache, inodes, s) && TableInv(s.t, s.held) && Key(d, ino) in s.held && i == Find(s.t, Key(d, ino))
    modifies inodes`slots, inodes.list, inodes.hash, cache.slots, cache.disk
    ensures Is(cache, inodes, Closed(s, Vol(d, sb), ino))
    ensures s.held[Key(d, ino)] == 1 ==> Flushed(cache)
  {
    hide ZoneCache.View, ZoneCache.Valid, TableInv, Close, Find;
    HeldIsFound(s.t, s.held, Key(d, ino));
    TableValid(inodes, s.held);
    ClosedTable(s.t, s.held, Key(d, ino));
    ghost var recs := Recs(inodes);
    inodes.InodeClose(cache, i);
    assert Recs(inodes) == recs;
  }

  lemma AnswerIs(s: Session, p: Vol, ino: nat, size: nat, offset: nat, i: nat)
    requires Handle(s, p, Reading(ino, size, offset), i)
    ensures Answer(s, p, ino, size, offset) == FsBytes.Load(s.v, p, s.recs[i], size, offset)
  {
    hide FsBytes.Load, Coherent, MayServe;
  }

  method ServeRead(cache: ZoneCache, inodes: OpenInodes.Inodes, sb: Super, d: u16, i: nat, size: nat, offset: nat, ghost s: Session,
                   ghost ino: nat) returns (bytes: seq<Byte>)
    requires Is(cache, inodes, s) && Handle(s, Vol(d, sb), Reading(ino, size, offset), i) && offset + size < 0x1_0000_0000
    modifies cache.slots, cache.data, cache.disk
    ensures Is(cache, inodes, s) && bytes == Answer(s, Vol(d, sb), ino, size, offset)
  {
    hide ZoneCache.View, ZoneCache.Valid, FsBytes.Load, Handle, Answer, TableInv, Find, InodeOps.Proper, Ends, Allocated;
    AtHand(s, Vol(d, sb), Reading(ino, size, offset), i);
    AnswerIs(s, Vol(d, sb), ino, size, offset, i);
    bytes := InodeRead(cache, sb, inodes.list[i], size, offset);
  }

  lemma NextWrite(s: Session, p: Vol, ino: nat, bytes: seq<Byte>, offset: nat, i: nat)
    requires Handle(s, p, Changing(Write(ino, bytes, offset)), i)
    ensures offset + |bytes| <= ZONE_SIZE * 519
    ensures var (w, r) := WriteFile(s.v, p, ino, s.recs[i], bytes, offset);
      Next(s, p, Changing(Write(ino, bytes, offset))) == s.(v := w, recs := s.recs[i := r])
  {
    hide TableInv, Find, Sound, WriteFile, Allocated, CanHold, Coherent, Live, Record;
    AtHand(s, p, Changing(Write(ino, bytes, offset)), i);
    FaithfulParts(s, p, i);
    WriteFits(s.v, p, s.recs[i], offset + |bytes|);
  }

  lemma NextTrunc(s: Session, p: Vol, ino: nat, length: u32, i: nat)
    requires Handle(s, p, Changing(Trunc(ino, length)), i)
    ensures var (w, r) := TruncFile(s.v, p, ino, s.recs[i], length);
      Next(s, p, Changing(Trunc(ino, length))) == s.(v := w, recs := s.recs[i := r])
  {
    hide TableInv, Find, Sound, TruncFile, Coherent, Live, Record;
  }

  method ServeWrite(cache: ZoneCache, inodes: OpenInodes.Inodes, sb: Super, d: u16, i: nat, bytes: seq<Byte>, offset: nat,
                    ghost s: Session, ghost ino: nat)
    requires Is(cache, inodes, s) && Handle(s, Vol(d, sb), Changing(Write(ino, bytes, offset)), i)
    modifies inodes.list, cache.slots, cache.data, cache.disk
    ensures Is(cache, inodes, Next(s, Vol(d, sb), Changing(Write(ino, bytes, offset))))
  {
    hide ZoneCache.View, ZoneCache.Valid, Handle, Next, TableInv, Find, WriteFile, Ends, InodeOps.Proper, Allocated;
    AtHand(s, Vol(d, sb), Changing(Write(ino, bytes, offset)), i);
    NextWrite(s, Vol(d, sb), ino, bytes, offset, i);
    assert bytes[..|bytes|] == bytes;
    var inode := inodes.list[i];
    var n := InodeWrite(cache, sb, inode, bytes, |bytes|, offset);
    assert inodes.Tab().ents == s.t.ents;
    assert Recs(inodes) == s.recs[i := inode.Rec()];
  }

  method ServeTrunc(cache: ZoneCache, inodes: OpenInodes.Inodes, sb: Super, d: u16, i: nat, length: u32, ghost s: Session, ghost ino: nat)
    requires Is(cache, inodes, s) && Handle(s, Vol(d, sb), Changing(Trunc(ino, length)), i)
    modifies inodes.list, cache.slots, cache.data, cache.disk
    ensures Is(cache, inodes, Next(s, Vol(d, sb), Changing(Trunc(ino, length))))
  {
    hide ZoneCache.View, ZoneCache.Valid, Handle, Next, TableInv, Find, TruncFile, Ends, InodeOps.Proper, Allocated;
    AtHand(s, Vol(d, sb), Changing(Trunc(ino, length)), i);
    NextTrunc(s, Vol(d, sb), ino, length, i);
    var inode := inodes.list[i];
    InodeTrunc(cache, sb, inode, length);
    assert inodes.Tab().ents == s.t.ents;
    assert Recs(inodes) == s.recs[i := inode.Rec()];
  }

  /** Removes a file and closes it. */
  method ServeRemove(cache: ZoneCache, inodes: OpenInodes.Inodes, sb: Super, d: u16, i: nat, ghost s: Session, ghost ino: nat)
    requires Is(cache, inodes, s) && Coherent(s, Vol(d, sb)) && Key(d, ino) in s.held && i == PlaceOf(s, Vol(d, sb), ino)
    modifies inodes`slots, inodes.list, inodes.hash, cache.slots, cache.data, cache.disk
    ensures Is(cache, inodes, Removed(s, Vol(d, sb), ino))
    ensures s.held[Key(d, ino)] == 1 ==> Flushed(cache)
  {
    hide ZoneCache.View, ZoneCache.Valid, TableInv, Find, Sound, Live, Record, RemoveFile, InodeOps.Proper, Closed;
    ghost var p := Vol(d, sb);
    FaithfulParts(s, p, i);
    ReadyFor(s.v, p, ino);
    var inode := inodes.list[i];
    InodeRemove(cache, sb, inode);
    assert inodes.Tab().ents == s.t.ents;
    assert Recs(inodes) == s.recs[i := inode.Rec()];
    ServeClose(cache, inodes, sb, d, i, s.(v := cache.View(), recs := Recs(inodes)), ino);
  }

  method ServeCreate(cache: ZoneCache, inodes: OpenInodes.Inodes, sb: Super, d: u16, mode: u16, zones: nat, ghost s: Session)
    requires Is(cache, inodes, s) && Coherent(s, Vol(d, sb)) && MayServe(s, Vol(d, sb), Changing(Create(mode, zones)))
    modifies cache.slots, cache.data, cache.disk
    ensures Is(cache, inodes, Next(s, Vol(d, sb), Changing(Create(mode, zones))))
  {
    hide ZoneCache.View, ZoneCache.Valid, TableInv, Marked, Disjoint, AllFormed, Margins, CreateFile, TakeInode, FreeZones;
    InvFits(s.v, Vol(d, sb), 0, BLANK);
    var ino := InodeCreate(cache, sb, d, mode, zones);
    assert inodes.Tab().ents == s.t.ents;
    assert Recs(inodes) == s.recs;
  }

  /** Whether a request closes an inode for the last time. */
  ghost predicate ClosesLast(s: Session, p: Vol, q: Request) {
    match q
    case Closing(ino) => s.held[Key(p.dev, ino)] == 1
    case Changing(e) => e.Remove?
    case _ => false
  }

  ghost predicate OnOpen(q: Request) {
    !q.Opening? && (q.Changing? ==> !q.e.Create?)
  }

  lemma HasHandle(inodes: OpenInodes.Inodes, s: Session, p: Vol, q: Request)
    requires Coherent(s, p) && MayServe(s, p, q) && OnOpen(q) && inodes.Distinct() && inodes.Tab() == s.t
    ensures Key(p.dev, InoOf(q)) in s.held && Handle(s, p, q, PlaceOf(s, p, InoOf(q))) && inodes.Valid()
  {
    hide TableInv, Sound, Find, Allowed;
    TableValid(inodes, s.held);
    var i := PlaceOf(s, p, InoOf(q));
  }

  lemma NextIs(s: Session, p: Vol, q: Request)
    requires Coherent(s, p) && MayServe(s, p, q) && TableInv(s.t, s.held)
    ensures q.Reading? ==> Next(s, p, q) == s
    ensures q.Closing? ==> Key(p.dev, q.ino) in s.held && Next(s, p, q) == Closed(s, p, q.ino)
    ensures q.Changing? && q.e.Remove? ==> s.held[Key(p.dev, q.e.ino)] == 1 && Next(s, p, q) == Removed(s, p, q.e.ino)
  {
    hide Coherent, Allowed, Closed, Removed;
  }

  /** One request, on an inode that is open. */
  method ServeOpened(cache: ZoneCache, inodes: OpenInodes.Inodes, sb: Super, d: u16, q: Request, ghost s: Session)
    returns (bytes: seq<Byte>)
    requires Is(cache, inodes, s) && Coherent(s, Vol(d, sb)) && MayServe(s, Vol(d, sb), q) && OnOpen(q)
    modifies inodes`slots, inodes.list, inodes.hash, cache.slots, cache.data, cache.disk
    ensures Is(cache, inodes, Next(s, Vol(d, sb), q))
    ensures q.Reading? ==> bytes == Answer(s, Vol(d, sb), q.ino, q.size, q.offset)
    ensures ClosesLast(s, Vol(d, sb), q) ==> Flushed(cache)
  {
    hide ZoneCache.View, ZoneCache.Valid, Coherent, Allowed, Find, Opened, Closed, Removed, Handle;
    bytes := [];
    HasHandle(inodes, s, Vol(d, sb), q);
    CoherentParts(s, Vol(d, sb));
    NextIs(s, Vol(d, sb), q);
    hide TableInv, Sound, PlaceOf, Next, MayServe, Answer, ClosesLast, Flushed;
    var i := inodes.Ino2Inode(Key(d, InoOf(q)));
    match q {
      case Closing(ino) => ServeClose(cache, inodes, sb, d, i, s, ino);
      case Reading(ino, size, offset) => bytes := ServeRead(cache, inodes, sb, d, i, size, offset, s, ino);
      case Changing(Write(ino, data, offset)) => ServeWrite(cache, inodes, sb, d, i, data, offset, s, ino);
      case Changing(Trunc(ino, length)) => ServeTrunc(cache, inodes, sb, d, i, length, s, ino);
      case Changing(Remove(ino)) => ServeRemove(cache, inodes, sb, d, i, s, ino);
    }
  }

  /** One request, whatever else is open: memory and device are afterwards as the request makes them. */
  method Serve(cache: ZoneCache, inodes: OpenInodes.Inodes, sb: Super, d: u16, q: Request, ghost s: Session)
    returns (bytes: seq<Byte>)
    requires Is(cache, inodes, s) && Coherent(s, Vol(d, sb)) && MayServe(s, Vol(d, sb), q)
    modifies inodes`slots, inodes.list, inodes.hash, cache.slots, cache.data, cache.disk
    ensures Is(cache, inodes, Served(s, Vol(d, sb), q))
    ensures q.Reading? ==> bytes == Answer(s, Vol(d, sb), q.ino, q.size, q.offset)
    ensures ClosesLast(s, Vol(d, sb), q) ==> Flushed(cache)
  {
    hide ZoneCache.View, ZoneCache.Valid, Coherent, MayServe, Served, TableInv, Find;
    bytes := [];
    match q {
      case Opening(ino) =>
        MayOpen(inodes, s, Vol(d, sb), ino);
        var i := ServeOpen(cache, inodes, sb, d, ino, s);
      case Changing(Create(mode, zones)) => ServeCreate(cache, inodes, sb, d, mode, zones, s);
      case _ => bytes := ServeOpened(cache, inodes, sb, d, q, s);
    }
  }

  /** Whether a request, after which the session is `z`, has closed an inode for the last time. */
  ghost predicate IsClosed(z: Session, p: Vol, q: Request) {
    match q
    case Closing(ino) => Key(p.dev, ino) !in z.held
    case Changing(e) => e.Remove?
    case _ => false
  }

  lemma ClosedLast(s: Session, p: Vol, q: Request)
    requires Coherent(s, p) && MayServe(s, p, q)
    ensures IsClosed(Served(s, p, q), p, q) ==> ClosesLast(s, p, q)
  {
    hide Coherent, Allowed, Changed, Opened;
  }

  /**
   * Any number of requests, in whatever order: the device becomes what the changes among them make of it, and after
   * a last close the disk holds just that.
   */
  method ServeAll(cache: ZoneCache, inodes: OpenInodes.Inodes, sb: Super, d: u16, qs: seq<Request>, ghost s: Session)
    requires Is(cache, inodes, s) && Coherent(s, Vol(d, sb)) && MayServeAll(s, Vol(d, sb), qs)
    modifies inodes`slots, inodes.list, inodes.hash, cache.slots, cache.data, cache.disk
    ensures Is(cache, inodes, ServedAll(s, Vol(d, sb), qs)) && Coherent(ServedAll(s, Vol(d, sb), qs), Vol(d, sb))
    ensures AllowedRun(s.v, Vol(d, sb), Changes(qs)) && cache.View() == After(s.v, Vol(d, sb), Changes(qs))
    ensures qs != [] && IsClosed(ServedAll(s, Vol(d, sb), qs), Vol(d, sb), qs[|qs| - 1]) ==> Flushed(cache)
  {
    hide ZoneCache.View, ZoneCache.Valid, Coherent, MayServe, Served, AllowedRun, After, IsClosed, ClosesLast, Flushed;
    var i := 0;
    ghost var p, u := Vol(d, sb), s;
    assert qs[0..] == qs;
    while i < |qs|
      invariant 0 <= i <= |qs| && Is(cache, inodes, u) && Coherent(u, p)
      invariant MayServeAll(u, p, qs[i..]) && ServedAll(u, p, qs[i..]) == ServedAll(s, p, qs)
      invariant i > 0 && IsClosed(u, p, qs[i - 1]) ==> Flushed(cache)
    {
      assert qs[i..][0] == qs[i] && qs[i..][1..] == qs[i + 1..];
      ServedKeeps(u, p, qs[i]);
      ClosedLast(u, p, qs[i]);
      var bytes := Serve(cache, inodes, sb, d, qs[i], u);
      u := Served(u, p, qs[i]);
      i := i + 1;
    }
    SessionIsRun(s, p, qs);
  }
}
