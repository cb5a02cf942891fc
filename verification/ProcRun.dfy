/** Runs of the kernel: what holds in every reachable state, and what every step respects. */
module ProcRun {
  import opened Proc
  import opened ProcInv
  import opened ProcIpc
  import opened ProcSteps
  import opened ProcLife
  import opened ProcExit

  datatype Event =
    | Tick
    | SendTo(dest: nat, msg: Message)
    | ReceiveFrom(src: nat, buf: Message, window: seq<nat>)
    | Interrupt(dest: nat)
    | Exec(parent: nat, hasMemory: bool)
    | ExitOf(self: nat, status: int)
    | WaitFor(child: nat, parent: nat)

  /**
   * When an event can happen. The idle task only spins. Nobody sends to or receives from itself. Exec,
   * exit and wait run in the system task, on behalf of a process that has not exited.
   */
  predicate Enabled(k: Kernel, e: Event) {
    match e
    case Tick => true
    case SendTo(dest, _) => k.cur != TASK_IDLE && dest != k.procs[k.cur].pid
    case ReceiveFrom(src, _, _) => k.cur != TASK_IDLE && src != k.procs[k.cur].pid
    case Interrupt(_) => true
    case Exec(parent, _) =>
      var p := Pid2Proc(k, parent);
      k.cur == TASK_SYS && k.nextPid < NO_PROC && p != -1 && Alive(k, p) && p != TASK_SYS && p != TASK_IDLE
    case ExitOf(self, _) => ExitCalled(k, self) && MayExit(k, Pid2Proc(k, self))
    case WaitFor(child, parent) => WaitCalled(k, parent) && MayWait(k, child, Pid2Proc(k, parent))
  }

  function Step(k: Kernel, e: Event): Kernel {
    match e
    case Tick => Schedule(k)
    case SendTo(dest, msg) => Send(k, dest, msg)
    case ReceiveFrom(src, buf, window) => Receive(k, src, buf, window)
    case Interrupt(dest) => IntrSend(k, dest)
    case Exec(parent, hasMemory) => Execute(k, parent, hasMemory)
    case ExitOf(self, status) => Exit(k, self, status)
    case WaitFor(child, parent) => Wait(k, child, parent)
  }

  lemma StepKeeps(k: Kernel, e: Event)
    requires Inv(k) && Enabled(k, e)
    ensures Inv(Step(k, e))
  {
    hide Inv, Schedule, Send, Receive, IntrSend, Execute, Exit, Wait, MayExit, MayWait, ExitCalled, WaitCalled;
    match e
    case Tick => TickKeeps(k);
    case SendTo(dest, msg) => SendKeeps(k, dest, msg);
    case ReceiveFrom(src, buf, window) => ReceiveKeeps(k, src, buf, window);
    case Interrupt(dest) => IntrSendKeeps(k, dest);
    case Exec(parent, hasMemory) => ExecuteKeeps(k, parent, hasMemory);
    case ExitOf(self, status) => ExitKeepsExactly(k, self, status);
    case WaitFor(child, parent) => WaitKeepsExactly(k, child, parent);
  }

  function Run(k: Kernel, es: seq<Event>): Kernel {
    if es == [] then k else Step(Run(k, es[..|es| - 1]), es[|es| - 1])
  }

  predicate RunEnabled(k: Kernel, es: seq<Event>) {
    es != [] ==> RunEnabled(k, es[..|es| - 1]) && Enabled(Run(k, es[..|es| - 1]), es[|es| - 1])
  }

  /** The six tasks are there, one of them running, and nothing has happened yet. */
  ghost predicate JustStarted(k: Kernel) {
    && NoDup(k.ready) && NoDup(k.slots)
    && (forall i: Slot :: Live(k, i) <==> i <= TASK_IDLE)
    && (forall i: Slot :: i in k.ready <==> 1 <= i <= TASK_IDLE)
    && (forall i: Slot :: k.procs[i] == InitialPcb(i))
    && (forall b :: 0 <= b < 128 ==> k.hash[b] == if b <= TASK_IDLE then [b] else [])
    && k.cur == TASK_SYS && k.nextPid == TASK_IDLE + 1 && !k.halted
    && k.sent == [] && k.received == [] && k.reaped == []
  }

  lemma InitialJustStarted()
    ensures JustStarted(Initial())
  {
    var k := Initial();
    forall i: Slot
      ensures Live(k, i) <==> i <= TASK_IDLE
      ensures i in k.ready <==> 1 <= i <= TASK_IDLE
    {
      if TASK_IDLE < i {
        assert k.slots[i - 6] == i;
      } else if 1 <= i {
        assert k.ready[i - 1] == i;
      }
    }
  }

  lemma StartedRegistry(k: Kernel)
    requires JustStarted(k)
    ensures Registry(k)
  {
    hide NoDup;
    assert forall i: Slot :: Live(k, i) ==> k.procs[i].pid == i && k.hash[k.procs[i].pid % 128] == [i];
    assert forall b :: 0 <= b < 128 ==> NoDup(k.hash[b]) by {
      assert forall b :: 0 <= b < 128 ==> |k.hash[b]| <= 1;
      NoDupShort(k);
    }
  }

  lemma NoDupShort(k: Kernel)
    requires forall b :: 0 <= b < 128 ==> |k.hash[b]| <= 1
    ensures forall b :: 0 <= b < 128 ==> NoDup(k.hash[b])
  {
  }

  lemma StartedScheduling(k: Kernel)
    requires JustStarted(k)
    ensures Scheduling(k)
  {
    hide NoDup;
  }

  lemma StartedQueues(k: Kernel)
    requires JustStarted(k)
    ensures Queues(k) && Family(k) && forall q: Slot, s: Slot :: !InQueue(k, q, s)
  {
    assert forall i: Slot :: k.procs[i] == InitialPcb(i) && k.procs[i].senders == [] && k.procs[i].children == [];
    assert forall q: Slot, s: Slot :: !InQueue(k, q, s);
    assert forall p: Slot, c: Slot :: !ParentOf(k, p, c);
    hide ParentOf, InQueue;
  }

  /** What `process_init` leaves satisfies the invariant. */
  lemma InitialInv()
    ensures Inv(Initial())
  {
    hide Initial, Registry, Scheduling, Queues, Family;
    InitialJustStarted();
    var k := Initial();
    StartedRegistry(k);
    StartedScheduling(k);
    StartedQueues(k);
    InitialHistories(k);
  }

  lemma InitialHistories(k: Kernel)
    requires Registry(k) && k.sent == [] && k.received == [] && k.reaped == []
    requires forall q: Slot, s: Slot :: !InQueue(k, q, s)
    ensures Histories(k) && Reaped(k)
  {
    hide Registry, InQueue;
    forall a: nat, b: nat
      ensures Outstanding(k, a, b) == []
    {
      OutstandingNone(k, a, b);
    }
  }

  /** The invariant holds in every state that the kernel can reach from the one `process_init` leaves. */
  lemma {:induction false} RunKeepsInv(es: seq<Event>)
    requires RunEnabled(Initial(), es)
    ensures Inv(Run(Initial(), es))
  {
    hide Inv, Step, Enabled, Initial;
    if es == [] {
      InitialInv();
    } else {
      RunKeepsInv(es[..|es| - 1]);
      StepKeeps(Run(Initial(), es[..|es| - 1]), es[|es| - 1]);
    }
  }

  /**
   * Over every run: exactly one process runs, and it is the current one; the ready list has each ready
   * process once and nobody else, so nobody who is blocked; and there is always somebody to run next, so
   * the "no ready process" panic is never reached.
   */
  lemma RunSchedules(es: seq<Event>, i: Slot)
    requires RunEnabled(Initial(), es)
    ensures var k := Run(Initial(), es);
      && (Live(k, i) ==>
            && (k.procs[i].status == RUNNING <==> i == k.cur)
            && (multiset(k.ready)[i] == if k.procs[i].status == READY then 1 else 0)
            && (k.procs[i].status.Blocked() ==> i !in k.ready && i != k.cur))
      && Live(k, k.cur) && (k.cur == TASK_IDLE || TASK_IDLE in k.ready) && !k.halted
  {
    RunKeepsInv(es);
    var k := Run(Initial(), es);
    hide Run, Initial;
    if i in k.ready {
      OnceIn(k.ready, i);
    }
    var idle: Slot := TASK_IDLE;
    assert Live(k, idle);
  }

  lemma {:induction false} OnceIn<T>(l: seq<T>, x: T)
    requires NoDup(l) && x in l
    ensures multiset(l)[x] == 1
  {
    assert l == [l[0]] + l[1..];
    if x !in l[1..] {
    } else {
      OnceIn(l[1..], x);
    }
  }

  /**
   * Over every run: each slot is either free or in the one bucket of its pid; a pid leads back to its
   * process; a child's exit status is handed over at most once; and no process waits for a child that has
   * already exited.
   */
  lemma RunLifecycle(es: seq<Event>, i: Slot)
    requires RunEnabled(Initial(), es)
    ensures var k := Run(Initial(), es);
      && (i in k.slots <==> forall b :: 0 <= b < 128 ==> i !in k.hash[b])
      && (forall b :: 0 <= b < 128 && i in k.hash[b] ==> b == k.procs[i].pid % 128)
      && (i !in k.slots ==> Pid2Proc(k, k.procs[i].pid) == i)
      && (forall a, b :: 0 <= a < b < |k.reaped| ==> k.reaped[a].child != k.reaped[b].child)
      && (Alive(k, i) && k.procs[i].status.waiting ==>
            forall c :: c in k.procs[i].children && k.procs[c].status == DEAD ==>
              k.procs[i].waitFor != ANY && k.procs[i].waitFor != k.procs[c].pid)
  {
    hide Run, Initial, RunEnabled, Inv;
    RunKeepsInv(es);
    var k := Run(Initial(), es);
    SlotOrBucket(k, i);
    OncePerChild(k);
    NoneAwaited(k, i);
  }

  lemma SlotOrBucket(k: Kernel, i: Slot)
    requires Inv(k)
    ensures i in k.slots <==> forall b :: 0 <= b < 128 ==> i !in k.hash[b]
    ensures forall b :: 0 <= b < 128 && i in k.hash[b] ==> b == k.procs[i].pid % 128
    ensures i !in k.slots ==> Pid2Proc(k, k.procs[i].pid) == i
  {
    hide Scheduling, Queues, Family, Histories, Reaped, Pid2Proc;
    assert Live(k, i) <==> i !in k.slots;
    if i !in k.slots {
      LookupFinds(k, k.procs[i].pid);
    }
  }

  lemma OncePerChild(k: Kernel)
    requires Inv(k)
    ensures forall a, b :: 0 <= a < b < |k.reaped| ==> k.reaped[a].child != k.reaped[b].child
  {
    hide Registry, Scheduling, Queues, Family, Histories;
  }

  lemma NoneAwaited(k: Kernel, i: Slot)
    requires Inv(k)
    ensures Alive(k, i) && k.procs[i].status.waiting ==>
      forall c :: c in k.procs[i].children && k.procs[c].status == DEAD ==>
        k.procs[i].waitFor != ANY && k.procs[i].waitFor != k.procs[c].pid
  {
    hide Registry, Scheduling, Queues, Histories, Reaped;
    assert forall c :: c in k.procs[i].children && Alive(k, i) ==> ParentOf(k, i, c);
  }
}
