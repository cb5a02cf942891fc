/** The memory of user processes: exec packs what it allocated into a descriptor, exit frees what it unpacks. */
module ProcMemory {
  import opened PageAlloc
  import PageRuns
  import opened Desc

  /** The page bitmap, and the code segment descriptor of every user process that has not exited. */
  datatype Memory = Memory(used: seq<bool>, seg: map<nat, bv64>)

  /** The address and the number of pages that `process_exit` reads out of a descriptor. */
  function BaseOf(desc: bv64): nat {
    GetBaseFromDesc(desc) as int
  }

  function PagesOf(desc: bv64): nat {
    (GetLimitFromDesc(desc) / 4096) as int
  }

  function BlockOf(desc: bv64): PageRuns.Block {
    PageRuns.Block(BaseOf(desc) / PAGE_SIZE, PagesOf(desc))
  }

  /** `base` and `pages` are the 32-bit words for the address and the page count of an allocation. */
  datatype Op = Exec(pid: nat, n: nat, base: bv32, pages: bv32) | Exit(pid: nat)

  predicate Enabled(m: Memory, op: Op) {
    match op
    case Exec(pid, n, base, pages) =>
      pid !in m.seg && 1 <= n && pages as int == n && base as int == Allocate(m.used, n).1
    case Exit(pid) => pid in m.seg
  }

  function Step(m: Memory, op: Op): Memory
    requires Enabled(m, op)
  {
    match op
    case Exec(pid, n, base, pages) =>
      var (used, addr) := Allocate(m.used, n);
      if addr == 0 then Memory(used, m.seg) else Memory(used, m.seg[pid := UserSegment(base, pages)])
    case Exit(pid) =>
      Memory(Release(m.used, BaseOf(m.seg[pid]), PagesOf(m.seg[pid])), m.seg - {pid})
  }

  predicate RunEnabled(m: Memory, ops: seq<Op>)
    decreases |ops|, 0
  {
    ops != [] ==> RunEnabled(m, ops[..|ops| - 1]) && Enabled(Run(m, ops[..|ops| - 1]), ops[|ops| - 1])
  }

  function Run(m: Memory, ops: seq<Op>): Memory
    requires RunEnabled(m, ops)
    decreases |ops|, 1
  {
    if ops == [] then m else Step(Run(m, ops[..|ops| - 1]), ops[|ops| - 1])
  }

  /** The allocator's view: every process owns the block its descriptor says. */
  function HeapOf(m: Memory): (h: PageRuns.Heap)
    ensures h.used == m.used && h.live.Keys == m.seg.Keys
  {
    PageRuns.Heap(m.used, map p | p in m.seg :: BlockOf(m.seg[p]))
  }

  ghost predicate Aligned(m: Memory) {
    forall p :: p in m.seg ==> BaseOf(m.seg[p]) % PAGE_SIZE == 0
  }

  /** The descriptor that exec builds unpacks to the very pages that were allocated. */
  lemma PackedBlock(n: nat, base: bv32, pages: bv32)
    requires pages as int == n <= MAX_PAGES
    ensures BlockOf(UserSegment(base, pages)) == PageRuns.Block(base as int / PAGE_SIZE, n)
    ensures BaseOf(UserSegment(base, pages)) == base as int
  {
    hide UserSegment, GetBaseFromDesc, GetLimitFromDesc;
    assert pages < 0x100000;
    UserSegmentPages(base, pages);
  }

  lemma HeapOfStart(m: Memory, used: seq<bool>, pid: nat, desc: bv64)
    ensures HeapOf(Memory(used, m.seg[pid := desc])) == PageRuns.Heap(used, HeapOf(m).live[pid := BlockOf(desc)])
  {
    hide BlockOf;
  }

  lemma HeapOfStop(m: Memory, used: seq<bool>, pid: nat)
    ensures HeapOf(Memory(used, m.seg - {pid})) == PageRuns.Heap(used, HeapOf(m).live - {pid})
  {
    hide BlockOf;
  }

  /** Starting a process takes a block of pages: the one its descriptor will be unpacked to. */
  lemma ExecTakes(m: Memory, pid: nat, n: nat, base: bv32, pages: bv32)
    requires |m.used| <= MAX_PAGES && Aligned(m) && Enabled(m, Exec(pid, n, base, pages))
    ensures var m' := Step(m, Exec(pid, n, base, pages));
      |m'.used| == |m.used| && Aligned(m') && PageRuns.Enabled(HeapOf(m), PageRuns.Take(pid, n))
      && HeapOf(m') == PageRuns.Step(HeapOf(m), PageRuns.Take(pid, n))
  {
    hide UserSegment, PagesOf, BlockOf, BaseOf, HeapOf, Allocate, PageRuns.Step;
    AllocateShape(m.used, n);
    var (used, addr) := Allocate(m.used, n);
    if addr == 0 {
      SameHeap(m, used, pid, n);
    } else {
      PackedBlock(n, base, pages);
      Taken(m, pid, n, UserSegment(base, pages));
    }
  }

  lemma AllocateShape(u: seq<bool>, n: nat)
    ensures var (used, addr) := Allocate(u, n);
      |used| == |u| && addr % PAGE_SIZE == 0 && (addr != 0 ==> n <= |u|)
  {
    FirstFitIsLeast(u, n, 0);
  }

  lemma SameHeap(m: Memory, used: seq<bool>, pid: nat, n: nat)
    requires pid !in m.seg && 1 <= n && Allocate(m.used, n) == (used, 0)
    ensures HeapOf(Memory(used, m.seg)) == PageRuns.Step(HeapOf(m), PageRuns.Take(pid, n))
  {
    hide BlockOf, Allocate;
  }

  lemma Taken(m: Memory, pid: nat, n: nat, desc: bv64)
    requires pid !in m.seg && 1 <= n
    requires var (used, addr) := Allocate(m.used, n);
      addr != 0 && BlockOf(desc) == PageRuns.Block(addr / PAGE_SIZE, n)
    ensures HeapOf(Memory(Allocate(m.used, n).0, m.seg[pid := desc])) == PageRuns.Step(HeapOf(m), PageRuns.Take(pid, n))
  {
    hide BlockOf, Allocate;
    HeapOfStart(m, Allocate(m.used, n).0, pid, desc);
  }

  /** Stopping a process gives exactly its block back. */
  lemma ExitGivesBack(m: Memory, pid: nat)
    requires Aligned(m) && Enabled(m, Exit(pid))
    ensures var m' := Step(m, Exit(pid));
      |m'.used| == |m.used| && Aligned(m') && PageRuns.Enabled(HeapOf(m), PageRuns.GiveBack(pid))
      && HeapOf(m') == PageRuns.Step(HeapOf(m), PageRuns.GiveBack(pid))
  {
    hide BaseOf, PagesOf, Fill;
    assert BaseOf(m.seg[pid]) == PAGE_SIZE * (BaseOf(m.seg[pid]) / PAGE_SIZE);
    HeapOfStop(m, Step(m, Exit(pid)).used, pid);
  }

  /**
   * Over every run of exec and exit, no two processes share a page, no process has a reserved page, and
   * the taken pages are exactly the reserved ones and those of the processes that are still there.
   */
  lemma {:induction false} RunKeepsAccounts(reserved: seq<bool>, ops: seq<Op>)
    requires 0 < |reserved| <= MAX_PAGES && reserved[0]
    requires RunEnabled(Memory(reserved, map[]), ops)
    ensures var m := Run(Memory(reserved, map[]), ops);
      PageRuns.Accounted(reserved, HeapOf(m)) && Aligned(m)
  {
    hide UserSegment, BaseOf, PagesOf, BlockOf, Step;
    if ops == [] {
    } else {
      RunKeepsAccounts(reserved, ops[..|ops| - 1]);
      var m := Run(Memory(reserved, map[]), ops[..|ops| - 1]);
      var op := ops[|ops| - 1];
      match op
      case Exec(pid, n, base, pages) =>
        ExecTakes(m, pid, n, base, pages);
        PageRuns.TakeKeepsAccounts(reserved, HeapOf(m), pid, n);
      case Exit(pid) =>
        ExitGivesBack(m, pid);
        PageRuns.GiveBackKeepsAccounts(reserved, HeapOf(m), pid);
    }
  }

  /** Byte `x` of the memory is in the segment that a descriptor describes. */
  predicate Covers(desc: bv64, x: nat) {
    BaseOf(desc) <= x < BaseOf(desc) + 4096 * PagesOf(desc)
  }

  /** Over every run: each byte of a process's segment is in a page that is taken and not reserved, and in no other segment. */
  lemma SegmentsApart(reserved: seq<bool>, ops: seq<Op>, p: nat, q: nat, x: nat)
    requires 0 < |reserved| <= MAX_PAGES && reserved[0]
    requires RunEnabled(Memory(reserved, map[]), ops)
    requires var m := Run(Memory(reserved, map[]), ops); p in m.seg && Covers(m.seg[p], x)
    ensures var m := Run(Memory(reserved, map[]), ops);
      && x / 4096 < |m.used| == |reserved| && m.used[x / 4096] && !reserved[x / 4096]
      && (q in m.seg && q != p ==> !Covers(m.seg[q], x))
  {
    hide Run, RunEnabled, BaseOf, PagesOf;
    RunKeepsAccounts(reserved, ops);
    var m := Run(Memory(reserved, map[]), ops);
    CoversHas(m.seg[p], x);
    if q in m.seg {
      CoversHas(m.seg[q], x);
    }
    var h := HeapOf(m);
    assert p in h.live && h.live[p].Has(x / 4096);
  }

  /** The byte is in a page of the block. */
  lemma CoversHas(desc: bv64, x: nat)
    requires BaseOf(desc) % PAGE_SIZE == 0
    ensures Covers(desc, x) <==> BlockOf(desc).Has(x / 4096)
  {
    hide BaseOf, PagesOf;
  }

  /** A process that is started and exits leaves the bitmap as it was. */
  lemma ExitUndoesExec(m: Memory, pid: nat, n: nat, base: bv32, pages: bv32)
    requires |m.used| <= MAX_PAGES && Enabled(m, Exec(pid, n, base, pages)) && Allocate(m.used, n).1 != 0
    ensures Step(Step(m, Exec(pid, n, base, pages)), Exit(pid)) == m
  {
    hide UserSegment, GetBaseFromDesc, GetLimitFromDesc;
    FirstFitIsLeast(m.used, n, 0);
    PackedBlock(n, base, pages);
    PageRuns.FreeUndoesAlloc(m.used, n);
  }
}
