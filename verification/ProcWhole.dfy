/** Processes and their memory in one run: exec allocates, exit frees, and everything else leaves the pages alone. */
module ProcWhole {
  import opened Proc
  import opened ProcInv
  import opened ProcIpc
  import opened ProcSteps
  import opened ProcLife
  import opened ProcExit
  import ProcRun
  import opened ProcMail
  import PageAlloc
  import PageRuns
  import ProcMemory

  datatype Whole = Whole(k: Kernel, m: ProcMemory.Memory)

  /**
   * Starting a process of `n` pages, where `base` and `pages` are the words for the address found and the page count;
   * a process exiting; anything else that can happen.
   */
  datatype Event =
    | Start(parent: nat, n: nat, base: bv32, pages: bv32)
    | Stop(self: nat, status: int)
    | Else(e: ProcRun.Event)

  /** What the event is to the kernel. There is memory for a new process if the pages were found. */
  function ToKernel(w: Whole, e: Event): ProcRun.Event {
    match e
    case Start(parent, n, _, _) => ProcRun.Exec(parent, PageAlloc.Allocate(w.m.used, n).1 != 0)
    case Stop(self, status) => ProcRun.ExitOf(self, status)
    case Else(f) => f
  }

  predicate Enabled(w: Whole, e: Event) {
    && ProcRun.Enabled(w.k, ToKernel(w, e))
    && (e.Start? ==> 1 <= e.n && e.pages as int == e.n && e.base as int == PageAlloc.Allocate(w.m.used, e.n).1)
    && (e.Else? ==> !e.e.Exec? && !e.e.ExitOf?)
  }

  /** What the event asks of the memory: without a free slot, exec asks for none. */
  predicate Asks(w: Whole, e: Event) {
    (e.Start? && w.k.slots != []) || e.Stop?
  }

  function ToMemory(w: Whole, e: Event): ProcMemory.Op
    requires Asks(w, e)
  {
    match e
    case Start(_, n, base, pages) => ProcMemory.Exec(w.k.nextPid, n, base, pages)
    case Stop(self, _) => ProcMemory.Exit(self)
  }

  function Step(w: Whole, e: Event): Whole {
    Whole(ProcRun.Step(w.k, ToKernel(w, e)),
          if Asks(w, e) && ProcMemory.Enabled(w.m, ToMemory(w, e)) then ProcMemory.Step(w.m, ToMemory(w, e)) else w.m)
  }

  /** A user process that has not exited. */
  ghost predicate User(k: Kernel, i: Slot, pid: nat) {
    TASK_IDLE < i && Alive(k, i) && k.procs[i].pid == pid
  }

  /** The processes that have memory are those. */
  ghost predicate Housed(w: Whole) {
    forall pid: nat :: pid in w.m.seg <==> exists i: Slot :: User(w.k, i, pid)
  }

  /** A new process has a pid that no descriptor is kept for, and one that exits has a descriptor. */
  lemma NeverRefused(w: Whole, e: Event)
    requires Inv(w.k) && Housed(w) && Enabled(w, e) && Asks(w, e)
    ensures ProcMemory.Enabled(w.m, ToMemory(w, e))
  {
    hide Inv, Housed, ProcMemory.Enabled, ProcRun.Enabled, Enabled;
    if e.Start? {
      RegistryOf(w.k);
      FreshPid(w);
      StartAllowed(w, e);
    } else {
      StopCalled(w, e);
      HasSegment(w, e.self);
      StopAllowed(w.m, e.self);
    }
  }

  lemma StartAllowed(w: Whole, e: Event)
    requires Enabled(w, e) && e.Start? && w.k.nextPid !in w.m.seg
    ensures ProcMemory.Enabled(w.m, ProcMemory.Exec(w.k.nextPid, e.n, e.base, e.pages))
  {
    hide ProcRun.Enabled, PageAlloc.Allocate;
  }

  lemma StopAllowed(m: ProcMemory.Memory, pid: nat)
    requires pid in m.seg
    ensures ProcMemory.Enabled(m, ProcMemory.Exit(pid))
  {
  }

  lemma StopCalled(w: Whole, e: Event)
    requires Enabled(w, e) && e.Stop?
    ensures ExitCalled(w.k, e.self)
  {
    hide ExitCalled, MayExit;
  }

  lemma RegistryOf(k: Kernel)
    requires Inv(k)
    ensures Registry(k)
  {
  }

  lemma HasSegment(w: Whole, self: nat)
    requires Inv(w.k) && Housed(w) && ExitCalled(w.k, self)
    ensures self in w.m.seg
  {
    hide Inv;
    PidOf(w.k, self);
    assert User(w.k, Pid2Proc(w.k, self), self);
  }

  lemma FreshPid(w: Whole)
    requires Registry(w.k) && Housed(w)
    ensures w.k.nextPid !in w.m.seg
  {
    assert forall i: Slot :: !User(w.k, i, w.k.nextPid);
  }

  lemma PidOf(k: Kernel, pid: nat)
    requires Pid2Proc(k, pid) != -1
    ensures k.procs[Pid2Proc(k, pid)].pid == pid
  {
  }

  /** Nobody is born or dies, and all keep their pids. */
  ghost predicate SamePeople(k: Kernel, l: Kernel) {
    forall i: Slot, pid: nat :: User(l, i, pid) <==> User(k, i, pid)
  }

  lemma PeopleOf(k: Kernel, l: Kernel)
    requires RespectsMail(k, l) && forall j: Slot :: Alive(l, j) <==> Alive(k, j)
    ensures SamePeople(k, l)
  {
  }

  lemma ElseKeepsPeople(k: Kernel, e: ProcRun.Event)
    requires Inv(k) && ProcRun.Enabled(k, e) && !e.Exec? && !e.ExitOf?
    ensures SamePeople(k, ProcRun.Step(k, e))
  {
    hide Inv, RespectsMail, Schedule, Send, Receive, IntrSend, Wait, MayWait, WaitCalled;
    match e {
      case Tick => ScheduleRespects(k);
      case SendTo(dest, msg) => SendRespects(k, dest, msg);
      case ReceiveFrom(src, buf, window) => ReceiveRespects(k, src, buf, window);
      case Interrupt(dest) => IntrSendRespects(k, dest);
      case WaitFor(child, parent) => WaitRespects(k, child, parent);
    }
    PeopleOf(k, ProcRun.Step(k, e));
  }

  /** An exit takes one of them away. */
  lemma StopPeople(k: Kernel, self: nat, status: int)
    requires Inv(k) && ProcRun.Enabled(k, ProcRun.ExitOf(self, status))
    ensures forall i: Slot, pid: nat :: User(Exit(k, self, status), i, pid) <==> User(k, i, pid) && pid != self
  {
    hide Inv, Exit, MayExit;
    ExitRespects(k, self, status);
    var l := Exit(k, self, status);
    PidOf(k, self);
    forall i: Slot, pid: nat
      ensures User(l, i, pid) <==> User(k, i, pid) && pid != self
    {
      if Live(k, i) && k.procs[i].pid == self {
        OnePid(k, i, Pid2Proc(k, self));
      }
    }
  }

  lemma OnePid(k: Kernel, i: Slot, j: Slot)
    requires Inv(k) && Live(k, i) && Live(k, j) && k.procs[i].pid == k.procs[j].pid
    ensures i == j
  {
  }

  /** An exec that succeeds adds one, under the next pid. */
  lemma StartPeople(k: Kernel, parent: nat)
    requires Inv(k) && ProcRun.Enabled(k, ProcRun.Exec(parent, true)) && k.slots != []
    ensures k.slots[0] > TASK_IDLE
    ensures forall i: Slot, pid: nat ::
      User(Execute(k, parent, true), i, pid) <==> User(k, i, pid) || (i == k.slots[0] && pid == k.nextPid)
  {
    InvParts(k);
    var p := Pid2Proc(k, parent);
    SpawnSlots(k, p);
    ExecuteSpawns(k, parent);
    hide Inv, Core, Scheduling, Execute;
    SpawnPeople(k, p);
  }

  lemma SpawnPeople(k: Kernel, p: Slot)
    requires Registry(k) && MaySpawn(k, p) && k.slots[0] != p && !Live(k, k.slots[0])
    requires forall j: Slot :: Live(Spawn(k, p), j) <==> Live(k, j) || j == k.slots[0]
    ensures k.slots[0] > TASK_IDLE
    ensures forall i: Slot, pid: nat :: User(Spawn(k, p), i, pid) <==> User(k, i, pid) || (i == k.slots[0] && pid == k.nextPid)
  {
  }

  /** Every event keeps the processes that have memory exactly those that have not exited. */
  lemma StepHoused(w: Whole, e: Event)
    requires Inv(w.k) && Housed(w) && Enabled(w, e)
    ensures Housed(Step(w, e))
  {
    hide Inv, User, ProcRun.Step, PageAlloc.Allocate, PageAlloc.Release;
    var x := Step(w, e);
    match e
    case Start(parent, n, _, _) =>
      if w.k.slots != [] {
        NeverRefused(w, e);
        StartHoused(w, e);
      } else {
        NothingStarted(w.k, parent, PageAlloc.Allocate(w.m.used, n).1 != 0);
      }
    case Stop(self, status) =>
      NeverRefused(w, e);
      StopPeople(w.k, self, status);
      StopStep(w.k, self, status);
    case Else(f) =>
      ElseKeepsPeople(w.k, f);
  }

  lemma NothingStarted(k: Kernel, parent: nat, hasMemory: bool)
    requires k.slots == [] || !hasMemory
    ensures ProcRun.Step(k, ProcRun.Exec(parent, hasMemory)) == k
  {
  }

  lemma StopStep(k: Kernel, self: nat, status: int)
    ensures ProcRun.Step(k, ProcRun.ExitOf(self, status)) == Exit(k, self, status)
  {
  }

  lemma StartHoused(w: Whole, e: Event)
    requires Inv(w.k) && Housed(w) && e.Start? && Enabled(w, e) && w.k.slots != [] && ProcMemory.Enabled(w.m, ToMemory(w, e))
    ensures Housed(Step(w, e))
  {
    hide Inv, User, PageAlloc.Allocate, Execute;
    if PageAlloc.Allocate(w.m.used, e.n).1 != 0 {
      StartPeople(w.k, e.parent);
      var x := Step(w, e);
      assert User(x.k, w.k.slots[0], w.k.nextPid);
    } else {
      NothingStarted(w.k, e.parent, false);
    }
  }

  // ---------------------------------------------------------------- runs

  function Run(w: Whole, es: seq<Event>): Whole {
    if es == [] then w else Step(Run(w, es[..|es| - 1]), es[|es| - 1])
  }

  predicate RunEnabled(w: Whole, es: seq<Event>) {
    es != [] ==> RunEnabled(w, es[..|es| - 1]) && Enabled(Run(w, es[..|es| - 1]), es[|es| - 1])
  }

  /** `process_init` has run, and nobody has memory but the kernel. */
  function Start0(reserved: seq<bool>): Whole {
    Whole(Initial(), ProcMemory.Memory(reserved, map[]))
  }

  /** The kernel's part of a run. */
  function KernelPart(w: Whole, es: seq<Event>): seq<ProcRun.Event> {
    if es == [] then []
    else
      var before := es[..|es| - 1];
      KernelPart(w, before) + [ToKernel(Run(w, before), es[|es| - 1])]
  }

  /** The memory's part of a run. */
  function MemoryPart(w: Whole, es: seq<Event>): seq<ProcMemory.Op> {
    if es == [] then []
    else
      var before := es[..|es| - 1];
      MemoryPart(w, before) + if Asks(Run(w, before), es[|es| - 1]) then [ToMemory(Run(w, before), es[|es| - 1])] else []
  }

  lemma KernelMore(k: Kernel, es: seq<ProcRun.Event>, e: ProcRun.Event)
    requires ProcRun.RunEnabled(k, es) && ProcRun.Enabled(ProcRun.Run(k, es), e)
    ensures ProcRun.RunEnabled(k, es + [e]) && ProcRun.Run(k, es + [e]) == ProcRun.Step(ProcRun.Run(k, es), e)
  {
    hide ProcRun.Enabled, ProcRun.Step;
    assert (es + [e])[..|es|] == es;
  }

  lemma MemoryMore(m: ProcMemory.Memory, ops: seq<ProcMemory.Op>, op: ProcMemory.Op)
    requires ProcMemory.RunEnabled(m, ops) && ProcMemory.Enabled(ProcMemory.Run(m, ops), op)
    ensures ProcMemory.RunEnabled(m, ops + [op]) && ProcMemory.Run(m, ops + [op]) == ProcMemory.Step(ProcMemory.Run(m, ops), op)
  {
    hide ProcMemory.Enabled, ProcMemory.Step;
    assert (ops + [op])[..|ops|] == ops;
  }

  lemma HousedAtFirst(reserved: seq<bool>)
    ensures Housed(Start0(reserved)) && Inv(Initial())
  {
    hide Inv;
    ProcRun.InitialInv();
    forall i: Slot, pid: nat
      ensures !User(Initial(), i, pid)
    {
      assert TASK_IDLE < i ==> Initial().slots[i - 6] == i;
    }
  }

  /**
   * A run of the whole is a run of the kernel and a run of the memory: no pid that exec hands out has a descriptor
   * yet, and no exit lacks one. All that holds of either kind of run therefore holds here.
   */
  lemma {:induction false} RunIsBoth(reserved: seq<bool>, es: seq<Event>)
    requires RunEnabled(Start0(reserved), es)
    ensures var w0 := Start0(reserved); var w := Run(w0, es);
      && Inv(w.k) && Housed(w)
      && ProcRun.RunEnabled(w0.k, KernelPart(w0, es)) && ProcRun.Run(w0.k, KernelPart(w0, es)) == w.k
      && ProcMemory.RunEnabled(w0.m, MemoryPart(w0, es)) && ProcMemory.Run(w0.m, MemoryPart(w0, es)) == w.m
  {
    hide Inv, Housed, Enabled, ToKernel, ToMemory, Asks, ProcRun.Step, ProcMemory.Step, ProcMemory.Enabled, ProcRun.Enabled;
    var w0 := Start0(reserved);
    HousedAtFirst(reserved);
    assert w0.k == Initial();
    hide Start0, Initial;
    if es == [] {
      assert Run(w0, es) == w0;
    } else {
      var before, e := es[..|es| - 1], es[|es| - 1];
      RunIsBoth(reserved, before);
      var w := Run(w0, before);
      EnabledParts(w, e);
      ProcRun.StepKeeps(w.k, ToKernel(w, e));
      StepHoused(w, e);
      KernelMore(w0.k, KernelPart(w0, before), ToKernel(w, e));
      if Asks(w, e) {
        NeverRefused(w, e);
        MemoryMore(w0.m, MemoryPart(w0, before), ToMemory(w, e));
      } else {
        assert MemoryPart(w0, before) + [] == MemoryPart(w0, before);
      }
    }
  }

  lemma EnabledParts(w: Whole, e: Event)
    requires Enabled(w, e)
    ensures ProcRun.Enabled(w.k, ToKernel(w, e))
  {
  }

  /**
   * Over every run: a page is taken exactly if it is reserved or belongs to the block of a user process that has not
   * exited, and no page belongs to two of them.
   */
  lemma PagesOfTheLiving(reserved: seq<bool>, es: seq<Event>, i: nat)
    requires 0 < |reserved| <= PageAlloc.MAX_PAGES && reserved[0] && i < |reserved| && RunEnabled(Start0(reserved), es)
    ensures var w := Run(Start0(reserved), es);
      && |w.m.used| == |reserved|
      && (w.m.used[i] <==> reserved[i] || exists s: Slot, pid: nat :: User(w.k, s, pid) && Owns(w.m, pid, i))
      && (forall s: Slot, t: Slot, p: nat, q: nat ::
            User(w.k, s, p) && User(w.k, t, q) && Owns(w.m, p, i) && Owns(w.m, q, i) ==> s == t && p == q)
  {
    hide Inv, User, Run, RunEnabled, ProcMemory.RunEnabled, ProcMemory.Run, ProcRun.Run, ProcRun.RunEnabled, KernelPart, MemoryPart;
    var w := Run(Start0(reserved), es);
    RunIsBoth(reserved, es);
    ProcMemory.RunKeepsAccounts(reserved, MemoryPart(Start0(reserved), es));
    OwnersOf(reserved, w.m, i);
    forall s: Slot, t: Slot, p: nat, q: nat | User(w.k, s, p) && User(w.k, t, q) && Owns(w.m, p, i) && Owns(w.m, q, i)
      ensures s == t && p == q
    {
      OneUser(w.k, s, t, p);
    }
  }

  predicate Owns(m: ProcMemory.Memory, pid: nat, i: nat) {
    pid in m.seg && ProcMemory.BlockOf(m.seg[pid]).Has(i)
  }

  lemma OwnersOf(reserved: seq<bool>, m: ProcMemory.Memory, i: nat)
    requires PageRuns.Accounted(reserved, ProcMemory.HeapOf(m)) && i < |reserved|
    ensures |m.used| == |reserved| && (m.used[i] <==> reserved[i] || exists pid: nat :: Owns(m, pid, i))
    ensures forall p: nat, q: nat :: Owns(m, p, i) && Owns(m, q, i) ==> p == q
  {
    hide ProcMemory.BlockOf;
    var h := ProcMemory.HeapOf(m);
    assert forall pid: nat :: Owns(m, pid, i) <==> pid in h.live && h.live[pid].Has(i);
  }

  lemma OneUser(k: Kernel, s: Slot, t: Slot, p: nat)
    requires Inv(k) && User(k, s, p) && User(k, t, p)
    ensures s == t
  {
    hide Inv;
    OnePid(k, s, t);
  }
}
