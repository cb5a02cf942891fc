/** Whole runs of the page allocator: who owns which pages. */
module PageRuns {
  import opened PageAlloc

  /** `len` pages from page `start`. */
  datatype Block = Block(start: nat, len: nat) {
    predicate Has(i: int) {
      start <= i < start + len
    }
  }

  /** The bitmap, and for every owner the block it has been given and has not given back. */
  datatype Heap = Heap(used: seq<bool>, live: map<nat, Block>)

  datatype Op = Take(owner: nat, n: nat) | GiveBack(owner: nat)

  /** Callers ask for at least one page, and give back only what they hold. */
  predicate Enabled(h: Heap, op: Op) {
    match op
    case Take(owner, n) => owner !in h.live && 1 <= n
    case GiveBack(owner) => owner in h.live
  }

  function Step(h: Heap, op: Op): Heap
    requires Enabled(h, op)
  {
    match op
    case Take(owner, n) =>
      var (used, addr) := Allocate(h.used, n);
      if addr == 0 then Heap(used, h.live) else Heap(used, h.live[owner := Block(addr / PAGE_SIZE, n)])
    case GiveBack(owner) =>
      Heap(Release(h.used, PAGE_SIZE * h.live[owner].start, h.live[owner].len), h.live - {owner})
  }

  predicate RunEnabled(h: Heap, ops: seq<Op>)
    decreases |ops|, 0
  {
    ops != [] ==> RunEnabled(h, ops[..|ops| - 1]) && Enabled(Run(h, ops[..|ops| - 1]), ops[|ops| - 1])
  }

  function Run(h: Heap, ops: seq<Op>): Heap
    requires RunEnabled(h, ops)
    decreases |ops|, 1
  {
    if ops == [] then h else Step(Run(h, ops[..|ops| - 1]), ops[|ops| - 1])
  }

  /**
   * An allocation takes the lowest run of `n` free pages, and nothing else; it gives the address of its first byte, for
   * pages of 4096 bytes. Where there is no such run it changes nothing and gives 0.
   */
  lemma AllocateIs(u: seq<bool>, n: nat) returns (p: nat)
    ensures var (w, addr) := Allocate(u, n);
      if forall q: nat :: !Free(u, q, n) then w == u && addr == 0
      else
        && Free(u, p, n) && (forall q: nat :: q < p ==> !Free(u, q, n)) && addr == 4096 * p
        && |w| == |u| && forall i :: 0 <= i < |u| ==> (w[i] <==> u[i] || p <= i < p + n)
  {
    FirstFitIsLeast(u, n, 0);
    p := if FirstFit(u, n, 0) == -1 then 0 else FirstFit(u, n, 0);
  }

  /** A release frees the pages whose bytes are among the `4096 * n` from `addr` on, and no other. */
  lemma ReleaseIs(u: seq<bool>, addr: nat, n: nat)
    requires addr % 4096 == 0
    ensures var w := Release(u, addr, n);
      |w| == |u| && forall i :: 0 <= i < |u| ==> (w[i] <==> u[i] && !(addr <= 4096 * i < addr + 4096 * n))
  {
  }

  /** The taken pages are exactly the reserved ones and those of the owners, and nothing is owned twice. */
  ghost predicate Accounted(reserved: seq<bool>, h: Heap) {
    && |h.used| == |reserved|
    && (forall o :: o in h.live ==> 1 <= h.live[o].len && h.live[o].start + h.live[o].len <= |h.used|)
    && (forall i :: 0 <= i < |h.used| ==> (h.used[i] <==> reserved[i] || exists o :: o in h.live && h.live[o].Has(i)))
    && (forall o, i :: o in h.live && 0 <= i < |reserved| && h.live[o].Has(i) ==> !reserved[i])
    && (forall o, p, i :: o in h.live && p in h.live && h.live[o].Has(i) && h.live[p].Has(i) ==> o == p)
  }

  /** An allocation hands out pages that nobody had, and it fails exactly when no free run is long enough. */
  lemma TakeKeepsAccounts(reserved: seq<bool>, h: Heap, owner: nat, n: nat)
    requires Accounted(reserved, h) && |reserved| > 0 && reserved[0] && Enabled(h, Take(owner, n))
    ensures Accounted(reserved, Step(h, Take(owner, n)))
    ensures owner in Step(h, Take(owner, n)).live <==> exists q: nat :: Free(h.used, q, n)
  {
    FirstFitIsLeast(h.used, n, 0);
    var p := FirstFit(h.used, n, 0);
    var h' := Step(h, Take(owner, n));
    if p != -1 {
      assert p != 0 by {
        assert h.used[0];
      }
      var b := Block(p, n);
      assert PAGE_SIZE * p / PAGE_SIZE == p;
      assert h'.live[owner] == b;
      forall i | 0 <= i < |h'.used|
        ensures h'.used[i] <==> reserved[i] || exists o :: o in h'.live && h'.live[o].Has(i)
      {
        if b.Has(i) {
          assert owner in h'.live;
        } else if o :| o in h.live && h.live[o].Has(i) {
          assert o in h'.live && h'.live[o].Has(i);
        }
      }
      forall o, i | o in h.live && b.Has(i)
        ensures !h.live[o].Has(i)
      {
        assert !h.used[i];
      }
    }
  }

  lemma GiveBackKeepsAccounts(reserved: seq<bool>, h: Heap, owner: nat)
    requires Accounted(reserved, h) && Enabled(h, GiveBack(owner))
    ensures Accounted(reserved, Step(h, GiveBack(owner)))
  {
    var h' := Step(h, GiveBack(owner));
    var b := h.live[owner];
    assert PAGE_SIZE * b.start / PAGE_SIZE == b.start;
    forall i | 0 <= i < |h'.used|
      ensures h'.used[i] <==> reserved[i] || exists o :: o in h'.live && h'.live[o].Has(i)
    {
      if b.Has(i) {
        assert !h'.used[i];
      } else if o :| o in h.live && h.live[o].Has(i) {
        assert o in h'.live;
      }
    }
  }

  /**
   * Over every run that frees only live blocks, starting with nothing handed out: live blocks are
   * pairwise disjoint and clear of reserved pages, and the bitmap shows exactly the reserved and live ones.
   */
  lemma {:induction false} RunKeepsAccounts(reserved: seq<bool>, ops: seq<Op>)
    requires |reserved| > 0 && reserved[0]
    requires RunEnabled(Heap(reserved, map[]), ops)
    ensures Accounted(reserved, Run(Heap(reserved, map[]), ops))
  {
    if ops == [] {
    } else {
      RunKeepsAccounts(reserved, ops[..|ops| - 1]);
      var h := Run(Heap(reserved, map[]), ops[..|ops| - 1]);
      match ops[|ops| - 1]
      case Take(owner, n) => TakeKeepsAccounts(reserved, h, owner, n);
      case GiveBack(owner) => GiveBackKeepsAccounts(reserved, h, owner);
    }
  }

  /** Freeing what an allocation returned restores the bitmap bit for bit. */
  lemma FreeUndoesAlloc(u: seq<bool>, n: nat)
    requires 1 <= n && Allocate(u, n).1 != 0
    ensures Release(Allocate(u, n).0, Allocate(u, n).1, n) == u
  {
    FirstFitIsLeast(u, n, 0);
    var p := FirstFit(u, n, 0);
    assert PAGE_SIZE * p / PAGE_SIZE == p;
  }
}
