/** What a device means: a number of files, each a mode and a sequence of bytes; and that changes do to these what they should. */
module FsSimple {
  import opened Bits
  import opened Cache
  import opened FsLayout
  import opened FsBitmap
  import opened FsFiles
  import opened FsWrite
  import opened FsBytes
  import opened FsUpdate
  import opened FsTrunc
  import opened FsCreate
  import opened FsRun

  datatype File = File(mode: u16, data: seq<Byte>)

  /** The files of a device, by their numbers. */
  type Tree = map<nat, File>

  /** The bytes of a file up to its size. */
  ghost function Data(v: View, p: Vol, r: INode): (d: seq<Byte>)
    ensures |d| == r.size && forall x :: 0 <= x < r.size ==> d[x] == FileByte(v, p, r, x)
  {
    seq(r.size, x requires 0 <= x < r.size => FileByte(v, p, r, x))
  }

  ghost function FileOf(v: View, p: Vol, i: nat): File {
    var r := Record(v, p, i);
    File(r.mode, Data(v, p, r))
  }

  ghost function Files(v: View, p: Vol): Tree {
    map i: nat | i <= Inodes(p) && Live(v, p, i) :: FileOf(v, p, i)
  }

  // ---------------------------------------------------------------- changes of files

  /** The least number from `i` on that no file has, or `n + 1`. */
  function Lowest(fs: Tree, n: int, i: nat): (k: nat)
    requires i <= n + 1
    ensures i <= k <= n + 1 && (forall j :: i <= j < k ==> j in fs) && (k <= n ==> k !in fs)
    decreases n + 1 - i
  {
    if i == n + 1 || i !in fs then i else Lowest(fs, n, i + 1)
  }

  /** The bytes `b` are in `d` from `o` on, and what `c` has elsewhere is there as well. */
  predicate Overlaid(c: seq<Byte>, d: seq<Byte>, b: seq<Byte>, o: nat) {
    && |d| == (if |c| < o + |b| then o + |b| else |c|)
    && d[o..o + |b|] == b
    && forall x :: 0 <= x < |c| && !(o <= x < o + |b|) ==> d[x] == c[x]
  }

  /**
   * What a change may do to the files of a device with `n` inodes: nothing but what the caller asks for, except that the
   * bytes between an old end and a later new one can be anything, and that a file need not grow when it is truncated.
   */
  ghost predicate Does(fs: Tree, n: int, e: Change, gs: Tree) {
    match e
    case Create(mode, _) =>
      0 <= n && var i := Lowest(fs, n, 1); gs == if i > n then fs else fs[i := File(mode, [])]
    case Write(ino, bytes, offset) =>
      ino in fs && ino in gs && gs == fs[ino := gs[ino]] && gs[ino].mode == fs[ino].mode
      && Overlaid(fs[ino].data, gs[ino].data, bytes, offset)
    case Trunc(ino, length) =>
      ino in fs && ino in gs && gs == fs[ino := gs[ino]] && gs[ino].mode == fs[ino].mode
      && var c, d := fs[ino].data, gs[ino].data;
         if length <= |c| then d == c[..length] else |d| in {|c|, length} && d[..|c|] == c
    case Remove(ino) => gs == fs - {ino}
  }

  // ---------------------------------------------------------------- a change of the device is one of its files

  lemma InFiles(v: View, p: Vol, i: nat)
    ensures i in Files(v, p) <==> Live(v, p, i)
    ensures Live(v, p, i) ==> Files(v, p)[i] == FileOf(v, p, i)
  {
    hide FileOf;
  }

  /** Files that are the same have the same bytes. */
  lemma SameBytes(v: View, w: View, p: Vol, i: nat)
    requires SameFile(v, w, p, i) && Formed(v, p, Record(v, p, i))
    ensures FileOf(w, p, i) == FileOf(v, p, i)
  {
    hide SameFile, Formed, Record, FileByte, Lead, Chain;
    var r := Record(v, p, i);
    SameFileRecord(v, w, p, i);
    SizeFits(v, p, r);
    forall x | 0 <= x < r.size
      ensures FileByte(w, p, r, x) == FileByte(v, p, r, x)
    {
      SameFileByte(v, w, p, i, x);
    }
    assert Data(w, p, r) == Data(v, p, r);
  }

  lemma SoundFormed(v: View, p: Vol, i: nat)
    requires Sound(v, p) && Live(v, p, i)
    ensures Inv(v, p, i, Record(v, p, i)) && Formed(v, p, Record(v, p, i))
  {
    hide Inv, Live, Record, Formed;
    SameInMemory(v, p, 0, BLANK, i, Record(v, p, i));
    FormedOf(v, p, i, Record(v, p, i));
  }

  /** If only one file is concerned, the others stay. */
  lemma OthersStay(v: View, w: View, p: Vol, me: nat)
    requires Sound(v, p) && SameOthers(v, w, p, me)
    ensures Files(w, p) - {me} == Files(v, p) - {me}
  {
    hide Sound, Live, FileOf, SameFile;
    forall i: nat | i != me
      ensures i in Files(w, p) <==> i in Files(v, p)
      ensures i in Files(v, p) ==> Files(w, p)[i] == Files(v, p)[i]
    {
      OtherStays(v, w, p, me, i);
    }
  }

  lemma OtherStays(v: View, w: View, p: Vol, me: nat, i: nat)
    requires Sound(v, p) && SameOthers(v, w, p, me) && i != me
    ensures i in Files(w, p) <==> i in Files(v, p)
    ensures i in Files(v, p) ==> Files(w, p)[i] == Files(v, p)[i]
  {
    hide Sound, FileOf, SameFile, Files, Record, Formed;
    InFiles(v, p, i);
    InFiles(w, p, i);
    if Live(v, p, i) {
      SoundFormed(v, p, i);
      SameBytes(v, w, p, i);
    }
  }

  /** Files that differ in one at most. */
  lemma OneSet(fs: Tree, gs: Tree, i: nat)
    requires gs - {i} == fs - {i}
    ensures i in gs ==> gs == fs[i := gs[i]]
    ensures i !in gs ==> gs == fs - {i}
  {
    assert forall j :: j != i && j in fs ==> j in fs - {i} && (fs - {i})[j] == fs[j];
    assert forall j :: j != i && j in gs ==> j in gs - {i} && (gs - {i})[j] == gs[j];
  }

  lemma WriteData(v: View, p: Vol, ino: nat, bytes: seq<Byte>, offset: nat)
    requires Sound(v, p) && Allowed(v, p, Write(ino, bytes, offset))
    ensures var (w, s) := WriteFile(v, p, ino, Record(v, p, ino), bytes, offset);
      Overlaid(Data(v, p, Record(v, p, ino)), Data(w, p, s), bytes, offset)
  {
    hide Sound, Live, Record, Inv, WriteFile, FileByte, CanHold, SameOthers, Balance, Formed, Lead, Chain;
    var r := Record(v, p, ino);
    SoundFormed(v, p, ino);
    SizeFits(v, p, r);
    WriteKeeps(v, p, ino, r, bytes, offset);
    var (w, s) := WriteFile(v, p, ino, r, bytes, offset);
    var c, d := Data(v, p, r), Data(w, p, s);
    forall x | 0 <= x < |d|
      ensures offset <= x < offset + |bytes| ==> d[x] == bytes[x - offset]
      ensures x < |c| && !(offset <= x < offset + |bytes|) ==> d[x] == c[x]
    {
      WriteBytes(v, p, ino, r, bytes, offset, x);
    }
    assert d[offset..offset + |bytes|] == bytes;
  }

  lemma WriteDoes(v: View, p: Vol, ino: nat, bytes: seq<Byte>, offset: nat)
    requires Sound(v, p) && Allowed(v, p, Write(ino, bytes, offset))
    ensures var e := Write(ino, bytes, offset); Does(Files(v, p), Inodes(p), e, Files(Apply(v, p, e), p))
  {
    hide Sound, Live, Record, Inv, WriteFile, CanHold, SameOthers, Balance, Overlaid, Data, Files, Formed;
    var r := Record(v, p, ino);
    SoundFormed(v, p, ino);
    WriteKeeps(v, p, ino, r, bytes, offset);
    var (w, s) := WriteFile(v, p, ino, r, bytes, offset);
    InFiles(v, p, ino);
    InFiles(w, p, ino);
    OthersStay(v, w, p, ino);
    OneSet(Files(v, p), Files(w, p), ino);
    WriteData(v, p, ino, bytes, offset);
  }

  lemma TruncData(v: View, p: Vol, ino: nat, length: u32)
    requires Sound(v, p) && Allowed(v, p, Trunc(ino, length))
    ensures var r := Record(v, p, ino); var (w, s) := TruncFile(v, p, ino, r, length); var c, d := Data(v, p, r), Data(w, p, s);
      if length <= |c| then d == c[..length] else |d| in {|c|, length} && d[..|c|] == c
  {
    hide Sound, Live, Record, Inv, TruncFile, FileByte, SameOthers, Balance, Formed, Lead, Chain;
    var r := Record(v, p, ino);
    SoundFormed(v, p, ino);
    SizeFits(v, p, r);
    TruncKeeps(v, p, ino, r, length);
    var (w, s) := TruncFile(v, p, ino, r, length);
    var c, d := Data(v, p, r), Data(w, p, s);
    forall x | 0 <= x < |d| && x < |c|
      ensures d[x] == c[x]
    {
      if x < length {
        ZonesForFit(length, 0);
        TruncBytes(v, p, ino, r, length, x);
      } else {
        TruncNot(v, p, ino, r, length);
      }
    }
  }

  lemma TruncNot(v: View, p: Vol, me: nat, r: INode, length: u32)
    requires Formed(v, p, r) && Room(v, p, r) <= length
    ensures TruncFile(v, p, me, r, length) == (v, r)
  {
    hide Formed, Chain, Lead, Shorten, Synced;
    AllocatedIsDataCount(v, p, r);
  }

  lemma TruncDoes(v: View, p: Vol, ino: nat, length: u32)
    requires Sound(v, p) && Allowed(v, p, Trunc(ino, length))
    ensures var e := Trunc(ino, length); Does(Files(v, p), Inodes(p), e, Files(Apply(v, p, e), p))
  {
    hide Sound, Live, Record, Inv, TruncFile, SameOthers, Balance, Data, Files, Formed;
    var r := Record(v, p, ino);
    SoundFormed(v, p, ino);
    TruncKeeps(v, p, ino, r, length);
    var (w, s) := TruncFile(v, p, ino, r, length);
    InFiles(v, p, ino);
    InFiles(w, p, ino);
    OthersStay(v, w, p, ino);
    OneSet(Files(v, p), Files(w, p), ino);
    TruncData(v, p, ino, length);
  }

  lemma RemoveDoes(v: View, p: Vol, ino: nat)
    requires Sound(v, p) && Allowed(v, p, Remove(ino))
    ensures Does(Files(v, p), Inodes(p), Remove(ino), Files(Apply(v, p, Remove(ino)), p))
  {
    hide Sound, Live, Record, Inv, RemoveFile, SameOthers, Files, Formed;
    var r := Record(v, p, ino);
    SoundFormed(v, p, ino);
    RemoveFrees(v, p, ino, r);
    var w := RemoveFile(v, p, ino, r);
    InFiles(w, p, ino);
    OthersStay(v, w, p, ino);
    OneSet(Files(v, p), Files(w, p), ino);
  }

  /** The inode that is taken is the lowest that no file has. */
  lemma TakesLowest(v: View, p: Vol)
    requires Sound(v, p)
    ensures 0 <= Inodes(p)
    ensures var i, k := Lowest(Files(v, p), Inodes(p), 1), TakeInode(v, p.dev, p.sb).1;
      if i > Inodes(p) then k == -1 else k == i
  {
    hide Sound, MapBit, TakeInode, Files, Lowest, Live;
    SoundMargins(v, p);
    var fs := Files(v, p);
    forall j: nat | 1 <= j <= Inodes(p)
      ensures j in fs <==> MapBit(v, p.dev, 2, j)
    {
      InFiles(v, p, j);
      LiveIsBit(v, p, j);
    }
    LowestTaken(v, p, fs, Inodes(p));
  }

  lemma LiveIsBit(v: View, p: Vol, j: nat)
    requires 1 <= j <= Inodes(p)
    ensures Live(v, p, j) <==> MapBit(v, p.dev, 2, j)
  {
    hide MapBit;
  }

  lemma LowestTaken(v: View, p: Vol, fs: Tree, n: nat)
    requires n < 8192 * p.sb.imapBlk && 1 <= p.sb.zmapBlk && MapBit(v, p.dev, 2, 0)
    requires forall k: nat :: n < k < 8192 * p.sb.imapBlk ==> MapBit(v, p.dev, 2, k)
    requires forall j: nat :: 1 <= j <= n ==> (j in fs <==> MapBit(v, p.dev, 2, j))
    ensures var i, k := Lowest(fs, n, 1), TakeInode(v, p.dev, p.sb).1; if i > n then k == -1 else k == i
  {
    hide MapBit, TakeInode, TakeZone;
    var i := Lowest(fs, n, 1);
    var z, k := TakeIs(v, p.dev, p.sb);
    if i <= n {
      assert !MapBit(v, p.dev, 2, i);
    }
  }

  lemma SoundMargins(v: View, p: Vol)
    requires Sound(v, p)
    ensures Fits(p) && 0 <= Inodes(p) < 8192 * p.sb.imapBlk && 1 <= p.sb.zmapBlk && 1 <= p.sb.imapBlk && MapBit(v, p.dev, 2, 0)
    ensures forall k: nat :: Inodes(p) < k < 8192 * p.sb.imapBlk ==> MapBit(v, p.dev, 2, k)
  {
    hide Marked, Disjoint, AllFormed, MapBit;
  }

  lemma CreateDoes(v: View, p: Vol, mode: u16, zones: nat)
    requires Sound(v, p) && Allowed(v, p, Create(mode, zones))
    ensures Does(Files(v, p), Inodes(p), Create(mode, zones), Files(Apply(v, p, Create(mode, zones)), p))
  {
    hide Sound, Live, Record, Inv, TakeInode, FreeZones, SameOthers, Stray, Files, Data, Fresh, Lead, Chain;
    TakesLowest(v, p);
    if TakeInode(v, p.dev, p.sb).1 > 0 {
      NewFile(v, p, mode, zones);
    } else {
      NoInode(v, p);
    }
  }

  lemma NewFile(v: View, p: Vol, mode: u16, zones: nat)
    requires Sound(v, p) && Allowed(v, p, Create(mode, zones)) && TakeInode(v, p.dev, p.sb).1 > 0
    ensures var w := Apply(v, p, Create(mode, zones)); Files(w, p) == Files(v, p)[TakeInode(v, p.dev, p.sb).1 := File(mode, [])]
  {
    hide Live, Record, Inv, FreeZones, SameOthers, Stray, Files, Fresh, Lead, Chain, TakeInode;
    CreateKeeps(v, p, mode, zones);
    TakenNumber(v, p, mode, zones);
    var (w, ino, s) := CreateFile(v, p, mode, zones);
    hide CreateFile;
    InFiles(w, p, ino);
    OthersStay(v, w, p, ino);
    OneSet(Files(v, p), Files(w, p), ino);
    assert Data(w, p, s) == [];
  }

  lemma TakenNumber(v: View, p: Vol, mode: u16, zones: nat)
    requires TakeInode(v, p.dev, p.sb).1 > 0
    ensures CreateFile(v, p, mode, zones).1 == TakeInode(v, p.dev, p.sb).1
  {
    hide TakeInode, Preallocate, Synced;
  }

  /** Every change of the device does to its files what it should. */
  lemma ApplyDoes(v: View, p: Vol, e: Change)
    requires Sound(v, p) && Allowed(v, p, e)
    ensures Does(Files(v, p), Inodes(p), e, Files(Apply(v, p, e), p))
  {
    hide Sound, Allowed, Does, Apply, Files;
    match e
    case Create(mode, zones) => CreateDoes(v, p, mode, zones);
    case Write(ino, bytes, offset) => WriteDoes(v, p, ino, bytes, offset);
    case Trunc(ino, length) => TruncDoes(v, p, ino, length);
    case Remove(ino) => RemoveDoes(v, p, ino);
  }

  // ---------------------------------------------------------------- runs

  /** The change leaves no gap: it writes up to the end of the file at most, and truncates to no more than is there. */
  predicate Gapless(fs: Tree, e: Change) {
    match e
    case Write(ino, _, offset) => ino in fs && offset <= |fs[ino].data|
    case Trunc(ino, length) => ino in fs && length <= |fs[ino].data|
    case _ => true
  }

  /** What becomes of files by changes that leave no gaps. */
  function Simple(fs: Tree, n: nat, e: Change): Tree
    requires Gapless(fs, e)
  {
    match e
    case Create(mode, _) => var i := Lowest(fs, n, 1); if i > n then fs else fs[i := File(mode, [])]
    case Write(ino, bytes, offset) =>
      var d := fs[ino].data;
      var end := offset + |bytes|;
      fs[ino := fs[ino].(data := d[..offset] + bytes + if end < |d| then d[end..] else [])]
    case Trunc(ino, length) => fs[ino := fs[ino].(data := fs[ino].data[..length])]
    case Remove(ino) => fs - {ino}
  }

  predicate GaplessRun(fs: Tree, n: nat, es: seq<Change>)
    decreases |es|
  {
    es == [] || (Gapless(fs, es[0]) && GaplessRun(Simple(fs, n, es[0]), n, es[1..]))
  }

  function SimpleRun(fs: Tree, n: nat, es: seq<Change>): Tree
    requires GaplessRun(fs, n, es)
    decreases |es|
  {
    if es == [] then fs else SimpleRun(Simple(fs, n, es[0]), n, es[1..])
  }

  lemma DoesIsSimple(fs: Tree, n: nat, e: Change, gs: Tree)
    requires Gapless(fs, e) && Does(fs, n, e, gs)
    ensures gs == Simple(fs, n, e)
  {
    if e.Write? {
      var c, d, end := fs[e.ino].data, gs[e.ino].data, e.offset + |e.bytes|;
      OverlaidIs(c, d, e.bytes, e.offset);
      assert gs[e.ino] == File(fs[e.ino].mode, d);
    } else if e.Trunc? {
      assert gs[e.ino] == File(fs[e.ino].mode, gs[e.ino].data);
    }
  }

  lemma OverlaidIs(c: seq<Byte>, d: seq<Byte>, b: seq<Byte>, o: nat)
    requires Overlaid(c, d, b, o) && o <= |c|
    ensures d == c[..o] + b + if o + |b| < |c| then c[o + |b|..] else []
  {
    var end := o + |b|;
    assert d[..o] == c[..o];
    if end < |c| {
      assert d[end..] == c[end..];
    }
    assert d == d[..o] + d[o..end] + d[end..];
  }

  /**
   * The files of a device after any run of changes that leave no gaps are what the same changes make of a map from
   * numbers to modes and bytes, which knows of no zones, blocks or bitmaps.
   */
  lemma {:induction false} FilesAreSimple(v: View, p: Vol, es: seq<Change>)
    requires Sound(v, p) && AllowedRun(v, p, es) && 0 <= Inodes(p) && GaplessRun(Files(v, p), Inodes(p), es)
    ensures Files(After(v, p, es), p) == SimpleRun(Files(v, p), Inodes(p), es)
    decreases |es|
  {
    hide Sound, Allowed, Apply, Files, Gapless, Simple, SameStray, Untouched, Live, Does;
    if es == [] {
    } else {
      StepKeepsFiles(v, p, es[0]);
      ApplyDoes(v, p, es[0]);
      DoesIsSimple(Files(v, p), Inodes(p), es[0], Files(Apply(v, p, es[0]), p));
      FilesAreSimple(Apply(v, p, es[0]), p, es[1..]);
    }
  }

  /** A read inside a file gives the bytes there. */
  lemma ReadsFile(v: View, p: Vol, i: nat, size: nat, offset: nat)
    requires Sound(v, p) && Live(v, p, i) && offset + size <= |Files(v, p)[i].data|
    ensures Load(v, p, Record(v, p, i), size, offset) == Files(v, p)[i].data[offset..offset + size]
  {
    hide Sound, Live, Record, Files, Load, FileByte, Formed, Lead, Chain, ReadCount;
    var r := Record(v, p, i);
    InFiles(v, p, i);
    SoundFormed(v, p, i);
    SizeFits(v, p, r);
    LoadIs(v, p, r, size, offset);
    ReadCountIsExact(r.size, size, offset);
    if size == 0 || offset < r.size {
      assert Load(v, p, r, size, offset) == Data(v, p, r)[offset..offset + size];
    }
  }

  /** An empty device has no files. */
  lemma NoFiles(p: Vol)
    requires Fits(p)
    ensures Sound(Formatted(p), p) && Files(Formatted(p), p) == map[]
  {
    hide Sound, Live, Formatted;
    FormattedIsSound(p);
  }
}
