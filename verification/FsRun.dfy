/** Any number of changes to the files of a device, one after the other. */
module FsRun {
  import opened Bits
  import opened Cache
  import opened FsLayout
  import opened FsBitmap
  import opened FsFiles
  import opened FsWrite
  import opened FsBytes
  import opened FsUpdate
  import opened FsTrunc
  import opened FsCreate

  /** What a caller can do to the files. The inode is opened before and closed afterwards. */
  datatype Change =
    | Create(mode: u16, zones: nat)
    | Write(ino: nat, bytes: seq<Byte>, offset: nat)
    | Trunc(ino: nat, length: u32)
    | Remove(ino: nat)

  /** The device is in order. */
  ghost predicate Sound(v: View, p: Vol) {
    Inv(v, p, 0, BLANK)
  }

  ghost predicate Allowed(v: View, p: Vol, e: Change) {
    match e
    case Create(_, zones) => zones <= 6 && (TakeInode(v, p.dev, p.sb).1 > 0 ==> zones <= FreeZones(v, p))
    case Write(ino, bytes, offset) =>
      Live(v, p, ino) && offset + |bytes| < 0x1_0000_0000 && CanHold(v, p, Record(v, p, ino), offset + |bytes|)
    case Trunc(ino, _) => Live(v, p, ino)
    case Remove(ino) => Live(v, p, ino)
  }

  ghost function Apply(v: View, p: Vol, e: Change): View
    requires Allowed(v, p, e)
  {
    match e
    case Create(mode, zones) => CreateFile(v, p, mode, zones).0
    case Write(ino, bytes, offset) => WriteFile(v, p, ino, Record(v, p, ino), bytes, offset).0
    case Trunc(ino, offset) => TruncFile(v, p, ino, Record(v, p, ino), offset).0
    case Remove(ino) => RemoveFile(v, p, ino, Record(v, p, ino))
  }

  /** The file a change is about. */
  ghost predicate Concerns(e: Change, i: nat) {
    !e.Create? && e.ino == i
  }

  /** A file that a change is not about stays in use, and stays what it is. */
  ghost predicate Untouched(v: View, w: View, p: Vol, i: nat) {
    Live(w, p, i) && SameFile(v, w, p, i)
  }

  /** Every zone that is marked without reason was so before, and the other way round. */
  ghost predicate SameStray(v: View, w: View, p: Vol) {
    forall z: u16 :: Stray(w, p, 0, BLANK, z) == Stray(v, p, 0, BLANK, z)
  }

  lemma StrayThrough(v: View, w: View, p: Vol, me: nat, r: INode, s: INode)
    requires Live(v, p, me) && Live(w, p, me) && SameOthers(v, w, p, me) && Balance(v, w, p, r, s) && Fits(p)
    requires Record(v, p, me) == r && Record(w, p, me) == s
    ensures SameStray(v, w, p)
  {
    hide Live, SameOthers, Balance, Record, Stray;
    SameInMemory(v, p, me, r, 0, BLANK);
    SameInMemory(w, p, me, s, 0, BLANK);
    forall z: u16
      ensures Stray(w, p, 0, BLANK, z) == Stray(v, p, 0, BLANK, z)
    {
      KeepsStray(v, w, p, me, r, s, z);
    }
  }

  lemma OthersUntouched(v: View, w: View, p: Vol, me: nat)
    requires SameOthers(v, w, p, me)
    ensures forall i :: Live(v, p, i) && i != me ==> Untouched(v, w, p, i)
  {
    hide SameFile;
  }

  lemma WriteStep(v: View, p: Vol, ino: nat, bytes: seq<Byte>, offset: nat)
    requires Sound(v, p) && Allowed(v, p, Write(ino, bytes, offset))
    ensures var w := Apply(v, p, Write(ino, bytes, offset));
      Sound(w, p) && SameStray(v, w, p) && (forall i :: Live(v, p, i) && i != ino ==> Untouched(v, w, p, i))
  {
    hide Live, SameOthers, Balance, Record, Stray, Inv, WriteFile, CanHold, SameStray, Untouched;
    var r := Record(v, p, ino);
    SameInMemory(v, p, 0, BLANK, ino, r);
    WriteKeeps(v, p, ino, r, bytes, offset);
    var (w, s) := WriteFile(v, p, ino, r, bytes, offset);
    SameInMemory(w, p, ino, s, 0, BLANK);
    InvFits(v, p, ino, r);
    StrayThrough(v, w, p, ino, r, s);
    OthersUntouched(v, w, p, ino);
  }

  lemma TruncStep(v: View, p: Vol, ino: nat, offset: u32)
    requires Sound(v, p) && Allowed(v, p, Trunc(ino, offset))
    ensures var w := Apply(v, p, Trunc(ino, offset));
      Sound(w, p) && SameStray(v, w, p) && (forall i :: Live(v, p, i) && i != ino ==> Untouched(v, w, p, i))
  {
    hide Live, SameOthers, Balance, Record, Stray, Inv, TruncFile, SameStray, Untouched;
    var r := Record(v, p, ino);
    SameInMemory(v, p, 0, BLANK, ino, r);
    TruncKeeps(v, p, ino, r, offset);
    var (w, s) := TruncFile(v, p, ino, r, offset);
    SameInMemory(w, p, ino, s, 0, BLANK);
    InvFits(v, p, ino, r);
    StrayThrough(v, w, p, ino, r, s);
    OthersUntouched(v, w, p, ino);
  }

  lemma RemoveStep(v: View, p: Vol, ino: nat)
    requires Sound(v, p) && Allowed(v, p, Remove(ino))
    ensures var w := Apply(v, p, Remove(ino));
      Sound(w, p) && SameStray(v, w, p) && (forall i :: Live(v, p, i) && i != ino ==> Untouched(v, w, p, i)) && !Live(w, p, ino)
  {
    hide Live, SameOthers, Record, Stray, Inv, RemoveFile, Untouched;
    var r := Record(v, p, ino);
    SameInMemory(v, p, 0, BLANK, ino, r);
    RemoveKeeps(v, p, ino, r);
    RemoveFrees(v, p, ino, r);
    var w := RemoveFile(v, p, ino, r);
    DeadInMemory(w, p, ino, r);
    forall z: u16
      ensures Stray(w, p, 0, BLANK, z) == Stray(v, p, 0, BLANK, z)
    {
      RemoveKeepsStray(v, p, ino, r, z);
    }
    OthersUntouched(v, w, p, ino);
  }

  /** The record of an inode that is not in use does not matter. */
  lemma DeadInMemory(v: View, p: Vol, me: nat, r: INode)
    requires !Live(v, p, me)
    ensures Inv(v, p, me, r) == Inv(v, p, 0, BLANK)
    ensures forall z: u16 :: Stray(v, p, me, r, z) == Stray(v, p, 0, BLANK, z)
  {
    hide Record, Chain, Margins, ZSet, InData, Formed;
    assert forall i :: Live(v, p, i) ==> RecOf(v, p, me, r, i) == RecOf(v, p, 0, BLANK, i);
    SameReaches(v, p, me, r, 0, BLANK);
    hide Live;
    assert AllFormed(v, p, me, r) == AllFormed(v, p, 0, BLANK);
  }

  lemma CreateStep(v: View, p: Vol, mode: u16, zones: nat)
    requires Sound(v, p) && Allowed(v, p, Create(mode, zones))
    ensures var w := Apply(v, p, Create(mode, zones));
      Sound(w, p) && SameStray(v, w, p) && (forall i :: Live(v, p, i) ==> Untouched(v, w, p, i))
  {
    hide Live, SameOthers, Record, Stray, Inv, TakeInode, FreeZones, Untouched;
    if TakeInode(v, p.dev, p.sb).1 > 0 {
      CreateKeeps(v, p, mode, zones);
      hide CreateFile;
      var (w, ino, s) := CreateFile(v, p, mode, zones);
      SameInMemory(w, p, ino, s, 0, BLANK);
      OthersUntouched(v, w, p, ino);
    } else {
      NoInode(v, p);
      NothingUntouched(v, p);
    }
  }

  lemma NoInode(v: View, p: Vol)
    requires Sound(v, p) && TakeInode(v, p.dev, p.sb).1 <= 0
    ensures TakeInode(v, p.dev, p.sb) == (v, -1)
  {
  }

  lemma NothingUntouched(v: View, p: Vol)
    ensures forall i :: Live(v, p, i) ==> Untouched(v, v, p, i)
  {
  }

  /**
   * Every change keeps the device in order, frees no zone that is in use and loses none, and leaves every file
   * alone that it is not about.
   */
  lemma StepKeepsFiles(v: View, p: Vol, e: Change)
    requires Sound(v, p) && Allowed(v, p, e)
    ensures var w := Apply(v, p, e);
      Sound(w, p) && SameStray(v, w, p) && forall i :: Live(v, p, i) && !Concerns(e, i) ==> Untouched(v, w, p, i)
  {
    hide Sound, Allowed, SameStray, Live, Untouched, Apply;
    match e
    case Create(mode, zones) => CreateStep(v, p, mode, zones);
    case Write(ino, bytes, offset) => WriteStep(v, p, ino, bytes, offset);
    case Trunc(ino, offset) => TruncStep(v, p, ino, offset);
    case Remove(ino) => RemoveStep(v, p, ino);
  }

  // ---------------------------------------------------------------- runs

  ghost predicate AllowedRun(v: View, p: Vol, es: seq<Change>)
    decreases |es|
  {
    es == [] || (Allowed(v, p, es[0]) && AllowedRun(Apply(v, p, es[0]), p, es[1..]))
  }

  ghost function After(v: View, p: Vol, es: seq<Change>): View
    requires AllowedRun(v, p, es)
    decreases |es|
  {
    if es == [] then v else After(Apply(v, p, es[0]), p, es[1..])
  }

  /** The same of every run. */
  lemma {:induction false} RunKeepsFiles(v: View, p: Vol, es: seq<Change>)
    requires Sound(v, p) && AllowedRun(v, p, es)
    ensures var w := After(v, p, es); Sound(w, p) && SameStray(v, w, p)
    decreases |es|
  {
    hide Sound, Allowed, Live, Untouched, Apply, Stray;
    if es == [] {
    } else {
      StepKeepsFiles(v, p, es[0]);
      RunKeepsFiles(Apply(v, p, es[0]), p, es[1..]);
    }
  }

  lemma {:induction false} RunLeavesAlone(v: View, p: Vol, es: seq<Change>, i: nat)
    requires Sound(v, p) && AllowedRun(v, p, es) && Live(v, p, i) && forall e :: e in es ==> !Concerns(e, i)
    ensures Untouched(v, After(v, p, es), p, i)
    decreases |es|
  {
    hide Sound, Allowed, Live, SameFile, Apply, SameStray;
    if es != [] {
      assert es[0] in es;
      var u := Apply(v, p, es[0]);
      StepKeepsFiles(v, p, es[0]);
      assert Untouched(v, u, p, i);
      RunLeavesAlone(u, p, es[1..], i);
      SameFileTransitive(v, u, After(v, p, es), p, i);
    } else {
      NothingUntouched(v, p);
      assert Untouched(v, v, p, i);
    }
  }

  lemma SameFileTransitive(u: View, v: View, w: View, p: Vol, i: nat)
    requires SameFile(u, v, p, i) && SameFile(v, w, p, i)
    ensures SameFile(u, w, p, i)
  {
    hide Record, Chain;
    var c := Chain(u, p, Record(u, p, i));
    forall q | 0 <= q < 520 && c[q] != 0
      ensures SameBlock(u, w, p, c[q])
    {
      assert SameBlock(u, v, p, c[q]) && SameBlock(v, w, p, c[q]);
    }
  }

  /** What is written to a file is what is read from it, whatever happens to other files in between. */
  lemma WrittenLasts(v: View, p: Vol, ino: nat, bytes: seq<Byte>, offset: nat, es: seq<Change>)
    requires Sound(v, p) && Allowed(v, p, Write(ino, bytes, offset))
    requires AllowedRun(Apply(v, p, Write(ino, bytes, offset)), p, es) && forall e :: e in es ==> !Concerns(e, ino)
    ensures var w := After(Apply(v, p, Write(ino, bytes, offset)), p, es); Load(w, p, Record(w, p, ino), |bytes|, offset) == bytes
  {
    hide AllowedRun, After, Load, Inv, CanHold, SameFile, SameStray, Untouched, Record, WriteFile, Live, SameOthers, Balance;
    var r := Record(v, p, ino);
    SameInMemory(v, p, 0, BLANK, ino, r);
    var (u, s) := WriteFile(v, p, ino, r, bytes, offset);
    WriteKeeps(v, p, ino, r, bytes, offset);
    WriteThenRead(v, p, ino, r, bytes, offset);
    WriteStep(v, p, ino, bytes, offset);
    FormedOf(u, p, ino, s);
    AloneReads(u, p, ino, es, |bytes|, offset);
  }

  lemma AloneReads(u: View, p: Vol, i: nat, es: seq<Change>, size: nat, offset: nat)
    requires Sound(u, p) && AllowedRun(u, p, es) && Live(u, p, i) && Formed(u, p, Record(u, p, i))
    requires forall e :: e in es ==> !Concerns(e, i)
    ensures var w := After(u, p, es); Load(w, p, Record(w, p, i), size, offset) == Load(u, p, Record(u, p, i), size, offset)
  {
    hide Sound, AllowedRun, Live, Formed, Load, SameFile, Record, After;
    RunLeavesAlone(u, p, es, i);
    SameFileReads(u, After(u, p, es), p, i, size, offset);
  }

  // ---------------------------------------------------------------- from an empty device on

  /** Whether a bit of a freshly formatted device is set: those that stand for no inode, or for no zone. */
  predicate PresetBit(p: Vol, l: Loc, j: nat, k: nat) {
    var i := j * 8 + k;
    if 2 <= l.zone < 2 + p.sb.imapBlk then
      var n := (l.zone - 2) * BITS_PER_ZONE + i; n == 0 || Inodes(p) < n
    else if InZmap(p, l.zone) then
      var n := (l.zone - 2 - p.sb.imapBlk) * BITS_PER_ZONE + i; n == 0 || 0x1_0000 <= n - 1 + p.sb.fst
    else false
  }

  function PresetBlock(p: Vol, l: Loc): Block {
    seq(1024, j requires 0 <= j < 1024 => seq(8, k requires 0 <= k < 8 => PresetBit(p, l, j, k)))
  }

  /** A device without files. */
  ghost function Formatted(p: Vol): View {
    imap l: Loc | true :: PresetBlock(p, l)
  }

  lemma FormattedBit(p: Vol, st: nat, n: nat)
    ensures MapBit(Formatted(p), p.dev, st, n) == PresetBit(p, BitLoc(p.dev, st, n), n / 8 % 1024, n % 8)
  {
  }

  lemma PresetInode(p: Vol, n: nat)
    requires n < BITS_PER_ZONE * p.sb.imapBlk
    ensures MapBit(Formatted(p), p.dev, 2, n) <==> n == 0 || Inodes(p) < n
  {
    hide MapBit, Formatted, Inodes;
    FormattedBit(p, 2, n);
    assert n / 8 / 1024 < p.sb.imapBlk && n / 8 / 1024 * BITS_PER_ZONE + (n / 8 % 1024 * 8 + n % 8) == n;
  }

  lemma PresetZone(p: Vol, z: nat)
    requires p.sb.fst <= z + 1 && z - p.sb.fst + 1 < BITS_PER_ZONE * p.sb.zmapBlk
    ensures MapBit(Formatted(p), p.dev, p.sb.imapBlk + 2, z - p.sb.fst + 1) <==> z + 1 == p.sb.fst || 0x1_0000 <= z
  {
    hide MapBit, Formatted;
    var n := z - p.sb.fst + 1;
    FormattedBit(p, p.sb.imapBlk + 2, n);
    assert n / 8 / 1024 < p.sb.zmapBlk && n / 8 / 1024 * BITS_PER_ZONE + (n / 8 % 1024 * 8 + n % 8) == n;
  }

  /** It is in order: there is no file, and no zone is marked. */
  lemma FormattedIsSound(p: Vol)
    requires Fits(p)
    ensures Sound(Formatted(p), p)
    ensures forall i :: !Live(Formatted(p), p, i)
    ensures forall z: u16 :: InData(p, z) ==> !ZSet(Formatted(p), p, z)
  {
    hide MapBit, Formatted, PresetBit, Formed, Chain, Record;
    var v := Formatted(p);
    forall n: nat | n < BITS_PER_ZONE * p.sb.imapBlk
      ensures MapBit(v, p.dev, 2, n) <==> n == 0 || Inodes(p) < n
    {
      PresetInode(p, n);
    }
    forall z: nat | InData(p, z)
      ensures ZSet(v, p, z) <==> 0x1_0000 <= z
    {
      PresetZone(p, z);
    }
    PresetZone(p, p.sb.fst - 1);
    assert forall i :: !Live(v, p, i);
  }

  /**
   * After any run that starts with an empty device, the zones marked in the bitmap are exactly those that some file
   * reaches.
   */
  lemma BitmapIsExact(p: Vol, es: seq<Change>, z: u16)
    requires Fits(p) && AllowedRun(Formatted(p), p, es) && InData(p, z)
    ensures var w := After(Formatted(p), p, es); ZSet(w, p, z) <==> exists i, q :: Reaches(w, p, 0, BLANK, i, q, z)
  {
    hide AllowedRun, After, Formatted, ZSet, Reaches, InData;
    var v := Formatted(p);
    FormattedIsSound(p);
    RunKeepsFiles(v, p, es);
    var w := After(v, p, es);
    assert !Stray(v, p, 0, BLANK, z);
    assert !Stray(w, p, 0, BLANK, z);
  }
}
