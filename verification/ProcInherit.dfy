/**
 * An entry of the process table that changes hands keeps an interrupt that was not heard: the next process there hears
 * it though nobody has sent it one.
 */
module ProcInherit {
  import opened Proc
  import opened ProcInv
  import opened ProcIpc
  import opened ProcSteps
  import opened ProcLife
  import opened ProcExit
  import opened ProcRun
  import opened ProcInbox
  import opened ProcIntr
  import ProcReport
  import ProcPids
  import ProcExample
  import ProcSched

  // ---------------------------------------------------------------- when a process is owed an interrupt

  /** An interrupt for pid `d` comes in event `j`, and process `i` has heard none since. */
  ghost predicate SentSince(es: seq<Event>, j: nat, d: nat, i: Slot) {
    j < |es| && es[j] == Interrupt(d) && forall m: nat :: j <= m < |es| ==> !HeardAt(es, m, i)
  }

  lemma PrefixSame(es: seq<Event>, n: nat, i: Slot)
    requires n <= |es|
    ensures forall m: nat :: m < n ==> HeardAt(es[..n], m, i) == HeardAt(es, m, i)
    ensures forall m: nat :: m < n ==> ComesAt(es[..n], m, i) == ComesAt(es, m, i)
  {
    hide Heard, Comes, Run;
    forall m: nat | m < n
      ensures HeardAt(es[..n], m, i) == HeardAt(es, m, i) && ComesAt(es[..n], m, i) == ComesAt(es, m, i)
    {
      assert es[..n][..m] == es[..m];
    }
  }

  /** While `d` is in entry `i`, the interrupts for the entry are those for `d`. */
  lemma ComesToPid(es: seq<Event>, j: nat, j0: nat, d: nat, i: Slot)
    requires RunEnabled(Initial(), es) && j0 < j < |es| && Pid2Proc(Run(Initial(), es), d) == i
    requires d < Run(Initial(), es[..j0 + 1]).nextPid
    ensures ComesAt(es, j, i) <==> es[j] == Interrupt(d)
  {
    hide Run, Initial, RunEnabled, Inv, Pid2Proc;
    var k, m := Run(Initial(), es), Run(Initial(), es[..j]);
    ProcPids.PrefixEnabled(es, j);
    RunKeepsInv(es);
    RunKeepsInv(es[..j]);
    ProcPids.Found(k, d);
    ProcPids.NextGrows(es[..j], j0 + 1);
    assert es[..j][..j0 + 1] == es[..j0 + 1];
    ProcPids.WasThere(es, j, i);
    PidHere(m, i);
    if es[j].Interrupt? && Pid2Proc(m, es[j].dest) == i {
      ProcPids.Found(m, es[j].dest);
    }
  }

  lemma PidHere(k: Kernel, i: Slot)
    requires Inv(k) && Live(k, i)
    ensures Pid2Proc(k, k.procs[i].pid) == i
  {
    LookupFinds(k, k.procs[i].pid);
  }

  /**
   * A process `d` that exec has put into entry `i` in event `j0` is owed an interrupt exactly if one has come for it and
   * it has heard none since, or if its entry was owed one when it was started, and it has heard none yet.
   */
  lemma OwedToProcess(es: seq<Event>, j0: nat, d: nat, parent: nat, i: Slot)
    requires RunEnabled(Initial(), es) && Calm(es) && j0 < |es| && ProcReport.StartedAt(es, j0, d, parent)
    requires Pid2Proc(Run(Initial(), es), d) == i
    ensures Owed(es, i) <==> (exists j: nat :: j0 < j && SentSince(es, j, d, i))
                             || (Owed(es[..j0], i) && forall m: nat :: j0 <= m < |es| ==> !HeardAt(es, m, i))
  {
    hide Run, Initial, RunEnabled, Inv, Owed, Heard, ComesAt, HeardAt, Pid2Proc;
    StartGivesPid(es, j0, d, parent);
    OwedSince(es, i);
    OwedSince(es[..j0], i);
    PrefixSame(es, j0, i);
    StartIsNoInterrupt(es, j0, i);
    if j: nat :| PendsSince(es, j, i) {
      if j < j0 {
        assert PendsSince(es[..j0], j, i);
      } else {
        assert j != j0;
        PendsBound(es, j, i);
        ComesToPid(es, j, j0, d, i);
        assert SentSince(es, j, d, i);
      }
    }
    if j: nat :| j0 < j && SentSince(es, j, d, i) {
      ComesToPid(es, j, j0, d, i);
      assert PendsSince(es, j, i);
    }
    if (forall m: nat :: j0 <= m < |es| ==> !HeardAt(es, m, i)) && exists j: nat :: PendsSince(es[..j0], j, i) {
      var j: nat :| PendsSince(es[..j0], j, i);
      PendsBound(es[..j0], j, i);
      assert PendsSince(es, j, i);
    }
  }

  lemma PendsBound(es: seq<Event>, j: nat, i: Slot)
    requires PendsSince(es, j, i)
    ensures j < |es|
  {
  }

  lemma StartIsNoInterrupt(es: seq<Event>, j: nat, i: Slot)
    requires j < |es| && es[j].Exec?
    ensures !ComesAt(es, j, i)
  {
    hide Run;
  }

  lemma StartGivesPid(es: seq<Event>, j0: nat, d: nat, parent: nat)
    requires RunEnabled(Initial(), es) && j0 < |es| && ProcReport.StartedAt(es, j0, d, parent)
    ensures d < Run(Initial(), es[..j0 + 1]).nextPid && es[j0].Exec?
  {
    hide Initial, RunEnabled;
    assert es[..j0 + 1][..j0] == es[..j0] && es[..j0 + 1][j0] == es[j0];
  }

  /** A task is owed exactly the interrupts that come for it. */
  lemma OwedToTask(es: seq<Event>, i: Slot)
    requires RunEnabled(Initial(), es) && Calm(es) && i <= TASK_IDLE
    ensures Owed(es, i) <==> exists j: nat :: SentSince(es, j, i, i)
  {
    hide Run, Initial, RunEnabled, Inv, Owed, Heard, ComesAt, HeardAt;
    OwedSince(es, i);
    forall j: nat | j < |es|
      ensures ComesAt(es, j, i) <==> es[j] == Interrupt(i)
    {
      ComesToTask(es, j, i);
    }
    if j: nat :| PendsSince(es, j, i) {
      PendsBound(es, j, i);
      assert SentSince(es, j, i, i);
    }
    if j: nat :| SentSince(es, j, i, i) {
      assert PendsSince(es, j, i);
    }
  }

  lemma ComesToTask(es: seq<Event>, j: nat, i: Slot)
    requires RunEnabled(Initial(), es) && j < |es| && i <= TASK_IDLE
    ensures ComesAt(es, j, i) <==> es[j] == Interrupt(i)
  {
    hide Run, Initial, RunEnabled, Pid2Proc, Inv;
    var m := Run(Initial(), es[..j]);
    ProcPids.PrefixEnabled(es, j);
    RunKeepsInv(es[..j]);
    TaskPid(m, i);
    PidHere(m, i);
    if es[j].Interrupt? && Pid2Proc(m, es[j].dest) == i {
      ProcPids.Found(m, es[j].dest);
    }
  }

  lemma TaskPid(k: Kernel, i: Slot)
    requires Inv(k) && i <= TASK_IDLE
    ensures Live(k, i) && k.procs[i].pid == i
  {
  }

  // ---------------------------------------------------------------- an interrupt that was for another

  /** The kernel can get here without an interrupt for pid 128. */
  ghost predicate Quiet(k: Kernel) {
    exists es: seq<Event> :: RunEnabled(Initial(), es) && Run(Initial(), es) == k && Calm(es) && Interrupt(128) !in es
  }

  lemma QuietStart(k: Kernel)
    requires ProcExample.Reached(k)
    ensures Quiet(k)
  {
    hide Initial, Run, RunEnabled;
    var es: seq<Event> :|
      RunEnabled(Initial(), es) && Run(Initial(), es) == k && forall e :: e in es ==> !e.Interrupt? && !e.ReceiveFrom?;
    assert Calm(es);
  }

  lemma QuietStep(k: Kernel, e: Event)
    requires Quiet(k) && Enabled(k, e) && Plain(e) && e != Interrupt(128)
    ensures Quiet(Step(k, e))
  {
    hide Enabled, Step, Initial;
    var es: seq<Event> :| RunEnabled(Initial(), es) && Run(Initial(), es) == k && Calm(es) && Interrupt(128) !in es;
    var fs := es + [e];
    assert fs[..|es|] == es && fs[|es|] == e;
    assert RunEnabled(Initial(), fs) && Run(Initial(), fs) == Step(k, e) && Calm(fs);
  }

  lemma QuietInv(k: Kernel)
    requires Quiet(k)
    ensures Inv(k)
  {
    hide Inv, Initial, Run;
    var es: seq<Event> :| RunEnabled(Initial(), es) && Run(Initial(), es) == k && Calm(es) && Interrupt(128) !in es;
    RunKeepsInv(es);
  }

  function Rest(n: nat): seq<Slot>
    requires n <= 128
  {
    if n == 128 then [] else UpFrom(n, 128)
  }

  /**
   * The system task runs; `n` is the next pid and the next free entry; the last free entry is 7, which somebody has left
   * with an interrupt that was not heard.
   */
  predicate Row(k: Kernel, n: nat) {
    && 8 <= n <= 128 && k.cur == TASK_SYS && k.slots == Rest(n) + [7] && k.nextPid == n && k.procs[7].hasIntrMsg
    && Pid2Proc(k, 4) == 4 && Alive(k, 4)
  }

  /** Process 7 is interrupted, its parent exits, and then it exits itself. */
  lemma RowStart() returns (k: Kernel)
    ensures Quiet(k) && Row(k, 8)
  {
    hide Quiet, ProcExample.Scene, ProcExample.Reached;
    var k0 := ProcExample.SceneStarts();
    QuietStart(k0);
    k := LeaveBehind(k0);
  }

  lemma LeaveBehind(k0: Kernel) returns (k: Kernel)
    requires Quiet(k0) && ProcExample.Scene(k0, 0, [1, 2, 3, 4, 5, 6, 7], -1)
    ensures Quiet(k) && Row(k, 8)
  {
    hide Quiet, IntrSend, Exit, Trio, ProcExample.Scene;
    SceneTrio(k0);
    QuietStep(k0, Interrupt(7));
    var k1 := IntrSend(k0, 7);
    TrioInterrupted(k0);
    TrioExits(k1);
    k := LastExits(Exit(k1, 6, 0));
  }

  /** The shell, its child 6 and the child 7 of that: all are ready. */
  predicate Trio(k: Kernel) {
    && k.cur == TASK_SYS && k.slots == UpFrom(8, 128) && k.nextPid == 8
    && Pid2Proc(k, 4) == 4 && Pid2Proc(k, 6) == 6 && Pid2Proc(k, 7) == 7 && Live(k, 4) && Live(k, 6) && Live(k, 7)
    && k.procs[4].status == READY && k.procs[6].status == READY && k.procs[7].status == READY
    && k.procs[6].children == [7] && k.procs[7].children == [] && k.procs[6].parent == 4 && k.procs[7].parent == 6
    && k.procs[6].senders == [] && k.procs[7].senders == []
  }

  lemma SceneTrio(k: Kernel)
    requires ProcExample.Scene(k, 0, [1, 2, 3, 4, 5, 6, 7], -1)
    ensures Trio(k)
  {
    SceneFound(k);
  }

  lemma TrioInterrupted(k: Kernel)
    requires Trio(k)
    ensures var l := IntrSend(k, 7); Trio(l) && l.procs[7].hasIntrMsg
  {
    hide IntrSend;
    InterruptPends(k, 7);
    SameFound(k, IntrSend(k, 7));
    SameLive(k, IntrSend(k, 7));
  }

  /** Of the three, 6 has exited. */
  predicate Orphaned(k: Kernel) {
    && k.cur == TASK_SYS && k.slots == UpFrom(8, 128) && k.nextPid == 8 && Pid2Proc(k, 7) == 7 && Live(k, 7)
    && k.procs[7].status == READY && k.procs[4].status == READY && k.procs[4].pid == 4
    && k.procs[7].parent == NO_PROC && k.procs[7].senders == [] && k.procs[7].hasIntrMsg
  }

  lemma TrioExits(k: Kernel)
    requires Quiet(k) && Trio(k) && k.procs[7].hasIntrMsg
    ensures Quiet(Exit(k, 6, 0)) && Orphaned(Exit(k, 6, 0))
  {
    hide Quiet, Exit, MayExit;
    ProcExample.ExitLeavesDead(k, 6, 4);
    QuietStep(k, ExitOf(6, 0));
    DieShape(k, 6, 0);
    SameFound(k, Exit(k, 6, 0));
    SameLive(k, Exit(k, 6, 0));
  }

  lemma LastExits(k: Kernel) returns (l: Kernel)
    requires Quiet(k) && Orphaned(k)
    ensures Quiet(l) && Row(l, 8)
  {
    hide Quiet, Exit, MayExit;
    OrphanLeaves(k);
    QuietStep(k, ExitOf(7, 0));
    l := Exit(k, 7, 0);
    QuietInv(l);
    FourFound(l);
  }

  lemma SceneFound(k: Kernel)
    requires ProcExample.Scene(k, 0, [1, 2, 3, 4, 5, 6, 7], -1)
    ensures k.cur == TASK_SYS && k.slots == UpFrom(8, 128) && k.nextPid == 8
    ensures forall i: Slot :: i in [4, 6, 7] ==> Pid2Proc(k, i) == i && Live(k, i) && k.procs[i].status == READY
    ensures k.procs[6].children == [7] && k.procs[7].children == [] && k.procs[6].parent == 4 && k.procs[7].parent == 6
    ensures k.procs[6].senders == [] && k.procs[7].senders == []
  {
    ProcExample.Finds(k, 8, 4);
    ProcExample.Finds(k, 8, 6);
    ProcExample.Finds(k, 8, 7);
    assert forall i: Slot :: i in [4, 6, 7] ==> ProcExample.StatusIs(k.procs[i].status, false, false);
  }

  lemma SameFound(k: Kernel, l: Kernel)
    requires l.hash == k.hash && forall j: Slot :: l.procs[j].pid == k.procs[j].pid
    ensures Pid2Proc(l, 4) == Pid2Proc(k, 4) && Pid2Proc(l, 6) == Pid2Proc(k, 6) && Pid2Proc(l, 7) == Pid2Proc(k, 7)
  {
    SameLookup(k, l, 4);
    SameLookup(k, l, 6);
    SameLookup(k, l, 7);
  }

  lemma OrphanLeaves(k: Kernel)
    requires Pid2Proc(k, 7) == 7 && k.procs[7].parent == NO_PROC && !k.procs[7].status.sending && k.procs[7].senders == []
    requires k.procs[7].pid == 7
    ensures MayExit(k, 7)
    ensures var l := Exit(k, 7, 0);
      && l.slots == k.slots + [7] && l.cur == k.cur && l.nextPid == k.nextPid
      && forall j: Slot :: l.procs[j].hasIntrMsg == k.procs[j].hasIntrMsg && l.procs[j].pid == k.procs[j].pid
                        && (j != 7 ==> l.procs[j].status == k.procs[j].status)
  {
    DieShape(k, 7, 0);
    hide Die;
    ReclaimRest(Die(k, 7, 0), 7);
  }

  lemma FourFound(k: Kernel)
    requires Inv(k) && k.procs[4].pid == 4
    ensures Live(k, 4) && Pid2Proc(k, 4) == 4
  {
    LookupFinds(k, 4);
  }

  /** One more child of the shell takes the next entry. */
  lemma RowStep(k: Kernel, n: nat)
    requires Quiet(k) && Row(k, n) && n < 128
    ensures Quiet(Execute(k, 4, true)) && Row(Execute(k, 4, true), n + 1)
  {
    hide Quiet, Inv, Execute, Pid2Proc, Row, Enabled, Live, Step;
    var l := Execute(k, 4, true);
    RowEnabled(k, n);
    QuietStep(k, Exec(4, true));
    ExecIsStep(k);
    QuietInv(l);
    RowFields(k, n);
    FourFound(l);
    RowNext(k, l, n);
  }

  lemma ExecIsStep(k: Kernel)
    ensures Step(k, Exec(4, true)) == Execute(k, 4, true)
  {
  }

  lemma RowNext(k: Kernel, l: Kernel, n: nat)
    requires Row(k, n) && n < 128 && RowAfter(k, l, n) && Live(l, 4) && Pid2Proc(l, 4) == 4
    ensures Row(l, n + 1)
  {
    hide Pid2Proc;
  }

  lemma RestIs(n: nat)
    requires n < 128
    ensures Rest(n) == [n] + Rest(n + 1)
  {
  }

  lemma RowEnabled(k: Kernel, n: nat)
    requires Row(k, n) && n < 128
    ensures Enabled(k, Exec(4, true)) && Plain(Exec(4, true))
  {
  }

  predicate RowAfter(k: Kernel, l: Kernel, n: nat)
    requires n < 128
  {
    && l.cur == TASK_SYS && l.slots == Rest(n + 1) + [7] && l.nextPid == n + 1 && l.procs[7].hasIntrMsg
    && l.procs[4].pid == 4 && l.procs[4].status == k.procs[4].status
  }

  lemma RowFields(k: Kernel, n: nat)
    requires Row(k, n) && n < 128
    ensures RowAfter(k, Execute(k, 4, true), n)
  {
    hide Pid2Proc;
    RestIs(n);
    assert k.slots[1..] == Rest(n + 1) + [7];
  }

  lemma {:induction false} RowRun(k: Kernel, n: nat) returns (l: Kernel)
    requires Quiet(k) && Row(k, n)
    ensures Quiet(l) && Row(l, 128)
    decreases 128 - n
  {
    hide Quiet, Row, Execute;
    if n == 128 {
      l := k;
    } else {
      RowBound(k, n);
      RowStep(k, n);
      l := RowRun(Execute(k, 4, true), n + 1);
    }
  }

  lemma RowBound(k: Kernel, n: nat)
    requires Row(k, n)
    ensures n <= 128
  {
  }

  /** The one that takes entry 7 has pid 128, and the interrupt. */
  predicate Heir(k: Kernel) {
    k.procs[7].pid == 128 && k.procs[7].hasIntrMsg && Live(k, 7)
  }

  lemma HeirStarts(k: Kernel)
    requires Quiet(k) && Row(k, 128)
    ensures var l := Execute(k, 4, true); Quiet(l) && Heir(l) && 7 in l.ready
  {
    hide Quiet;
    assert k.slots == [7];
    QuietStep(k, Exec(4, true));
    QuietInv(Execute(k, 4, true));
    HeirFields(k);
    hide Execute;
    InReady(Execute(k, 4, true));
  }

  lemma HeirFields(k: Kernel)
    requires Row(k, 128) && k.slots == [7]
    ensures var l := Execute(k, 4, true); Heir(l) && l.procs[7].status == READY
  {
    hide Pid2Proc;
  }

  lemma InReady(k: Kernel)
    requires Inv(k) && Live(k, 7) && k.procs[7].status == READY
    ensures 7 in k.ready
  {
    var seven: Slot := 7;
    assert seven in k.ready;
  }

  function Ticks(n: nat): (es: seq<Event>)
    ensures |es| == n && forall j :: 0 <= j < n ==> es[j] == Tick
  {
    seq(n, j => Tick)
  }

  lemma {:induction false} TicksTurn(k: Kernel, n: nat)
    ensures RunEnabled(k, Ticks(n)) && ProcSched.Turns(k, Ticks(n)) == n
  {
    hide Schedule;
    if n == 0 {
      assert Ticks(0) == [];
    } else {
      TicksTurn(k, n - 1);
      assert Ticks(n)[..n - 1] == Ticks(n - 1);
    }
  }

  lemma {:induction false} TicksKeepHeir(k: Kernel, n: nat)
    requires Quiet(k) && Heir(k)
    ensures var l := Run(k, Ticks(n)); Quiet(l) && Heir(l)
  {
    hide Quiet, Heir, Schedule;
    if n == 0 {
      assert Ticks(0) == [];
    } else {
      TicksKeepHeir(k, n - 1);
      assert Ticks(n)[..n - 1] == Ticks(n - 1);
      var m := Run(k, Ticks(n - 1));
      QuietStep(m, Tick);
      QuietInv(m);
      TickKeepsHeir(m);
    }
  }

  lemma TickKeepsHeir(k: Kernel)
    requires Inv(k) && Heir(k)
    ensures Heir(Schedule(k))
  {
    TickFlags(k);
    ScheduleNear(k);
    hide Inv, Schedule;
  }

  lemma ScheduleNear(k: Kernel)
    ensures Schedule(k).slots == k.slots && forall j: Slot :: Schedule(k).procs[j].pid == k.procs[j].pid
  {
  }

  /**
   * There is a run without an interrupt for pid 128 after which the process of that pid asks for an interrupt, and gets
   * one.
   */
  lemma InterruptOfAnother() returns (es: seq<Event>)
    ensures RunEnabled(Initial(), es) && Calm(es) && Interrupt(128) !in es
    ensures var k, e := Run(Initial(), es), ReceiveFrom(INTERRUPT, NO_MSG, []);
      k.procs[k.cur].pid == 128 && Enabled(k, e) && Heard(k, e, k.cur)
  {
    hide Quiet, Row, Heir, Initial, Run, RunEnabled, Execute;
    var k := RowStart();
    k := RowRun(k, 8);
    HeirStarts(k);
    k := HeirRuns(Execute(k, 4, true));
    es := HeirHears(k);
  }

  lemma HeirRuns(k: Kernel) returns (l: Kernel)
    requires Quiet(k) && Heir(k) && 7 in k.ready
    ensures Quiet(l) && Heir(l) && l.cur == 7
  {
    hide Heir, Initial, Run, RunEnabled;
    var before: seq<Event> :| RunEnabled(Initial(), before) && Run(Initial(), before) == k && Calm(before) && Interrupt(128) !in before;
    hide Quiet;
    var n := ProcSched.Ahead(k.ready, 7) + 1;
    TicksTurn(k, n);
    ProcSched.BoundedWaiting(before, Ticks(n), 7);
    var m: nat :| ProcSched.Served(k, Ticks(n), 7, m);
    assert Ticks(n)[..m] == Ticks(m);
    TicksKeepHeir(k, m);
    l := Run(k, Ticks(m));
  }

  lemma HeirHears(k: Kernel) returns (es: seq<Event>)
    requires Quiet(k) && Heir(k) && k.cur == 7
    ensures RunEnabled(Initial(), es) && Run(Initial(), es) == k && Calm(es) && Interrupt(128) !in es
    ensures var e := ReceiveFrom(INTERRUPT, NO_MSG, []); k.procs[k.cur].pid == 128 && Enabled(k, e) && Heard(k, e, k.cur)
  {
    hide Initial, Run, RunEnabled, Receive, Heard, Inv;
    es :| RunEnabled(Initial(), es) && Run(Initial(), es) == k && Calm(es) && Interrupt(128) !in es;
    QuietInv(k);
    TakenAtOnce(k, ReceiveFrom(INTERRUPT, NO_MSG, []));
  }
}
