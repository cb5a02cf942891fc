/** Who has which pid over a run: a pid is given once, and stays with its process. */
module ProcPids {
  import opened Proc
  import opened ProcInv
  import opened ProcIpc
  import opened ProcSteps
  import opened ProcLife
  import opened ProcExit
  import opened ProcRun
  import ProcReport

  // ---------------------------------------------------------------- the next pid

  lemma UnblockNext(k: Kernel, i: Slot, reason: Reason)
    ensures Unblock(k, i, reason).nextPid == k.nextPid
  {
  }

  lemma BlockNext(k: Kernel, i: Slot, reason: Reason)
    ensures Block(k, i, reason).nextPid == k.nextPid
  {
  }

  lemma SendNext(k: Kernel, dest: nat, msg: Message)
    ensures Send(k, dest, msg).nextPid == k.nextPid
  {
    hide Unblock, Block;
    var r := Pid2Proc(k, dest);
    if r != -1 {
      var m := msg.(source := k.procs[k.cur].pid);
      var k1 := Put(k, k.cur, k.procs[k.cur].(msg := m)).(sent := k.sent + [Letter(k.procs[k.cur].pid, dest, m)]);
      UnblockNext(Put(k1, r, k1.procs[r].(msg := m)), r, Receiving);
      BlockNext(k1, k.cur, Sending);
    }
  }

  lemma {:induction false} IntrAllNext(k: Kernel, dests: seq<nat>)
    ensures IntrSendAll(k, dests).nextPid == k.nextPid
  {
    if dests == [] {
    } else {
      IntrAllNext(k, dests[..|dests| - 1]);
    }
  }

  lemma ReceiveNext(k: Kernel, src: nat, buf: Message, window: seq<nat>)
    ensures Receive(k, src, buf, window).nextPid == k.nextPid
  {
    hide Unblock, Block, IntrSendAll, PickSender;
    var r := k.cur;
    var k1 := Put(k, r, k.procs[r].(msg := buf));
    var s := PickSender(k1, r, src);
    if s != -1 {
      UnblockNext(Put(k1, r, k1.procs[r].(senders := Without<Slot>(k1.procs[r].senders, s), msg := k1.procs[s].msg)), s, Sending);
    } else {
      var k2 := IntrSendAll(k1, window);
      IntrAllNext(k1, window);
      BlockNext(Put(k2, r, k2.procs[r].(recvfrom := src)), r, Receiving);
    }
  }

  lemma ReapNext(k: Kernel, p: Slot, i: Slot, status: int)
    ensures Reap(k, p, i, status).nextPid == k.nextPid
  {
  }

  lemma ExitNext(k: Kernel, self: nat, status: int)
    ensures Exit(k, self, status).nextPid == k.nextPid
  {
    hide Unblock, Send, Reap, Pid2Proc, Die, Awaited;
    var i := Pid2Proc(k, self);
    if i != -1 {
      var k1 := Die(k, i, status);
      DieShape(k, i, status);
      ReclaimRest(k1, i);
      var parent := k1.procs[i].parent;
      var p := Pid2Proc(k1, parent);
      if parent != NO_PROC && p != -1 {
        var k2 := Unblock(Put(k1, p, k1.procs[p].(waitFor := k1.procs[i].pid)), p, Waiting);
        UnblockNext(Put(k1, p, k1.procs[p].(waitFor := k1.procs[i].pid)), p, Waiting);
        ReapNext(k2, p, i, status);
        SendNext(Reap(k2, p, i, status), parent, Reply(status));
      }
    }
  }

  lemma WaitNext(k: Kernel, child: nat, parent: nat)
    ensures Wait(k, child, parent).nextPid == k.nextPid
  {
    hide Send, Reap, Pid2Proc;
    var p := Pid2Proc(k, parent);
    SendNext(k, parent, Reply(-1));
    if p != -1 {
      forall c: Slot
        ensures Collect(k, p, c).nextPid == k.nextPid
      {
        ReapNext(k, p, c, k.procs[c].exitStatus);
        SendNext(Reap(k, p, c, k.procs[c].exitStatus), k.procs[p].pid, Reply(k.procs[c].exitStatus));
      }
    }
  }

  /** Only exec moves on to the next pid. */
  lemma StepNext(k: Kernel, e: Event)
    ensures k.nextPid <= Step(k, e).nextPid
    ensures !e.Exec? ==> Step(k, e).nextPid == k.nextPid
  {
    hide Send, Receive, Exit, Wait, Pid2Proc;
    match e
    case Tick =>
    case SendTo(dest, msg) => SendNext(k, dest, msg);
    case ReceiveFrom(src, buf, window) => ReceiveNext(k, src, buf, window);
    case Interrupt(dest) =>
    case Exec(parent, hasMemory) =>
    case ExitOf(self, status) => ExitNext(k, self, status);
    case WaitFor(child, parent) => WaitNext(k, child, parent);
  }

  // ---------------------------------------------------------------- processes keep their pids

  /** Who is there after a step and does not have the next pid was there before, under the same pid. */
  ghost predicate OldOnes(k: Kernel, l: Kernel) {
    forall i: Slot :: Live(l, i) && l.procs[i].pid < k.nextPid ==> Live(k, i) && k.procs[i].pid == l.procs[i].pid
  }

  lemma StillOld(k: Kernel, l: Kernel)
    requires ProcReport.Still(k, l)
    ensures OldOnes(k, l)
  {
  }

  lemma HandsOverOld(k: Kernel, l: Kernel, i: Slot, status: int)
    requires ProcReport.HandsOver(k, l, i, status)
    ensures OldOnes(k, l)
  {
    assert forall j: Slot :: Live(l.(reaped := k.reaped), j) <==> Live(l, j);
  }

  lemma ExecOld(k: Kernel, parent: nat, hasMemory: bool)
    ensures OldOnes(k, Execute(k, parent, hasMemory))
  {
    if k.slots != [] && hasMemory {
      ProcReport.ExecuteParents(k, parent);
      hide Execute;
    }
  }

  lemma ExitOld(k: Kernel, self: nat, status: int)
    requires Inv(k) && ExitCalled(k, self) && MayExit(k, Pid2Proc(k, self))
    ensures OldOnes(k, Exit(k, self, status))
  {
    hide Registry, Scheduling, Queues, Histories, Reaped, ChildrenKnowParent, ParentKnowsChildren, NoLostExit,
      InvBut, Die, OldOnes, AfterDeath, ProcReport.HandsOver;
    var i := Pid2Proc(k, self);
    var k1 := Die(k, i, status);
    DieKeeps(k, i, status);
    DieShape(k, i, status);
    DeathSameGone(k, i, status);
    SystemPart(k, i, status);
    ProcReport.AfterDeathHandsOver(k1, i, status);
    HandsOverOld(k1, AfterDeath(k1, i, status), i, status);
    OldThrough(k, k1, AfterDeath(k1, i, status));
  }

  lemma SystemPart(k: Kernel, i: Slot, status: int)
    requires Inv(k) && Alive(k, i) && TASK_IDLE < i && k.cur == TASK_SYS && MayExit(k, i)
    ensures var l := Die(k, i, status); Live(l, i) && l.procs[i].status == DEAD && l.cur == TASK_SYS
    ensures GoneAtExit(k, i) ==> Die(k, i, status).procs[i].senders == []
  {
    DieShape(k, i, status);
    hide Inv, Die;
  }

  lemma OldThrough(k: Kernel, k1: Kernel, l: Kernel)
    requires k1.slots == k.slots && k1.nextPid == k.nextPid && (forall j: Slot :: k1.procs[j].pid == k.procs[j].pid) && OldOnes(k1, l)
    ensures OldOnes(k, l)
  {
    SameLive(k, k1);
    hide Live;
  }

  lemma WaitOld(k: Kernel, child: nat, parent: nat)
    requires Inv(k) && WaitCalled(k, parent) && MayWait(k, child, Pid2Proc(k, parent))
    ensures OldOnes(k, Wait(k, child, parent))
  {
    hide Inv, Wait, Send, FoundByWait, WaitSleeps, OldOnes, Collect, SleepFor, ProcReport.HandsOver, ProcReport.Still, ParentOf;
    var p := Pid2Proc(k, parent);
    if FoundByWait(k, child, p) != -1 {
      WaitCollects(k, child, p);
      ChildIsCorpse(k, p, FoundByWait(k, child, p));
      ProcReport.CollectHandsOver(k, p, FoundByWait(k, child, p));
      HandsOverOld(k, Collect(k, p, FoundByWait(k, child, p)), FoundByWait(k, child, p), k.procs[FoundByWait(k, child, p)].exitStatus);
    } else {
      WaitOtherwise(k, child, p);
      if WaitSleeps(k, child, p) {
        ProcReport.StillSleep(k, p, child);
        StillOld(k, SleepFor(k, p, child));
      } else {
        ProcReport.StillSend(k, k.procs[p].pid, Reply(-1));
        StillOld(k, Send(k, k.procs[p].pid, Reply(-1)));
      }
    }
  }

  lemma StepOld(k: Kernel, e: Event)
    requires Inv(k) && Enabled(k, e)
    ensures OldOnes(k, Step(k, e))
  {
    hide Inv, Schedule, Send, Receive, IntrSend, Execute, Exit, Wait, MayExit, MayWait, OldOnes, ProcReport.Still;
    match e
    case Tick => ProcReport.StillSchedule(k); StillOld(k, Step(k, e));
    case SendTo(dest, msg) => ProcReport.StillSend(k, dest, msg); StillOld(k, Step(k, e));
    case ReceiveFrom(src, buf, window) => ProcReport.StillReceive(k, src, buf, window); StillOld(k, Step(k, e));
    case Interrupt(dest) => ProcReport.StillIntr(k, dest); StillOld(k, Step(k, e));
    case Exec(parent, hasMemory) => ExecOld(k, parent, hasMemory);
    case ExitOf(self, status) => ExitOld(k, self, status);
    case WaitFor(child, parent) => WaitOld(k, child, parent);
  }

  /** A process that is there at the end of a run, with a pid that was given before event `j`, was there at `j`. */
  lemma {:induction false} WasThere(es: seq<Event>, j: nat, i: Slot)
    requires RunEnabled(Initial(), es) && j <= |es|
    requires var k := Run(Initial(), es); Live(k, i) && k.procs[i].pid < Run(Initial(), es[..j]).nextPid
    ensures RunEnabled(Initial(), es[..j])
    ensures var m := Run(Initial(), es[..j]); Live(m, i) && m.procs[i].pid == Run(Initial(), es).procs[i].pid
  {
    hide Inv, Step, Enabled, Initial, Live;
    if j == |es| {
      assert es[..j] == es;
    } else {
      var init := es[..|es| - 1];
      assert init[..j] == es[..j];
      RunKeepsInv(init);
      NextGrows(init, j);
      StepOld(Run(Initial(), init), es[|es| - 1]);
      WasThere(init, j, i);
    }
  }

  lemma {:induction false} NextGrows(es: seq<Event>, j: nat)
    requires j <= |es|
    ensures Run(Initial(), es[..j]).nextPid <= Run(Initial(), es).nextPid
  {
    hide Step, Initial;
    if j == |es| {
      assert es[..j] == es;
    } else {
      assert es[..|es| - 1][..j] == es[..j];
      NextGrows(es[..|es| - 1], j);
      StepNext(Run(Initial(), es[..|es| - 1]), es[|es| - 1]);
    }
  }

  /** As long as a process is there, it is found in the same place. */
  lemma SamePlace(es: seq<Event>, j: nat, d: nat)
    requires RunEnabled(Initial(), es) && j <= |es|
    requires Pid2Proc(Run(Initial(), es[..j]), d) != -1 && Pid2Proc(Run(Initial(), es), d) != -1
    ensures Pid2Proc(Run(Initial(), es[..j]), d) == Pid2Proc(Run(Initial(), es), d)
  {
    hide Run, Initial, RunEnabled, Pid2Proc, Inv;
    var k, m := Run(Initial(), es), Run(Initial(), es[..j]);
    var i := Pid2Proc(k, d);
    PrefixEnabled(es, j);
    RunKeepsInv(es);
    RunKeepsInv(es[..j]);
    Found(k, d);
    Found(m, d);
    WasThere(es, j, i);
    Unique(m, i, Pid2Proc(m, d));
  }

  lemma {:induction false} PrefixEnabled(es: seq<Event>, j: nat)
    requires RunEnabled(Initial(), es) && j <= |es|
    ensures RunEnabled(Initial(), es[..j])
  {
    hide Enabled, Step, Initial;
    if j == |es| {
      assert es[..j] == es;
    } else {
      PrefixEnabled(es[..|es| - 1], j);
      assert es[..|es| - 1][..j] == es[..j];
    }
  }

  lemma Found(k: Kernel, d: nat)
    requires Inv(k)
    ensures var i := Pid2Proc(k, d); i != -1 ==> 0 <= i < 128 && Live(k, i) && k.procs[i].pid == d < k.nextPid
  {
    LookupFinds(k, d);
  }

  lemma Unique(k: Kernel, i: Slot, j: Slot)
    requires Inv(k) && Live(k, i) && Live(k, j) && k.procs[i].pid == k.procs[j].pid
    ensures i == j
  {
  }
}
