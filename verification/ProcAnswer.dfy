/** What a wait is answered with, and by which exit, over whole runs. */
module ProcAnswer {
  import opened Proc
  import opened ProcInv
  import opened ProcIpc
  import opened ProcSteps
  import opened ProcLife
  import opened ProcExit
  import opened ProcRun
  import opened ProcMail
  import opened ProcInbox
  import opened ProcIntr
  import opened ProcPids
  import ProcReport

  // ---------------------------------------------------------------- who sleeps in a wait

  /** Nobody but `x` starts or stops waiting, or waits for something else. */
  ghost predicate SameWaits(k: Kernel, l: Kernel, x: int) {
    forall j: Slot :: j != x ==> SameWait(k.procs[j], l.procs[j])
  }

  predicate SameWait(p: Pcb, q: Pcb) {
    q.status.waiting == p.status.waiting && q.waitFor == p.waitFor
  }

  lemma WaitsBoth(k: Kernel, l: Kernel, m: Kernel, x: int)
    requires SameWaits(k, l, x) && SameWaits(l, m, x)
    ensures SameWaits(k, m, x)
  {
    assert forall j: Slot :: j != x ==> SameWait(k.procs[j], l.procs[j]) && SameWait(l.procs[j], m.procs[j]);
  }

  lemma CoreWaits(k: Kernel, l: Kernel)
    requires SameCore(k, l)
    ensures SameWaits(k, l, -1)
  {
    assert forall j: Slot :: SameBut(k.procs[j], l.procs[j]);
  }

  lemma TickWaits(k: Kernel)
    requires Inv(k)
    ensures SameWaits(k, Schedule(k), -1)
  {
    InvParts(k);
    RunsOn(k);
    hide Inv, Core, Stopping, Scheduling, SameCore, Schedule;
    ScheduleKeeps(k);
    CoreWaits(k, Schedule(k));
  }

  lemma StatusWaits(k: Kernel, i: Slot, reason: Reason, on: bool)
    requires reason != Waiting
    ensures SameWaits(k, SetStatus(k, i, With(k.procs[i].status, reason, on)), -1)
  {
  }

  lemma UnblockWaits(k: Kernel, i: Slot, reason: Reason)
    ensures SameWaits(k, Unblock(k, i, reason), if reason == Waiting then i else -1)
    ensures reason == Waiting ==> !Unblock(k, i, reason).procs[i].status.waiting
  {
  }

  lemma BlockWaits(k: Kernel, reason: Reason)
    requires Scheduling(k) && k.cur != TASK_IDLE && reason != Waiting && forall i: Slot :: i <= TASK_IDLE ==> Live(k, i)
    ensures SameWaits(k, Block(k, k.cur, reason), -1)
  {
    hide Scheduling, Block, SameCore, SameWaits, SetStatus, Live;
    var k1 := SetStatus(k, k.cur, With(k.procs[k.cur].status, reason, true));
    StatusWaits(k, k.cur, reason, true);
    BlockKeeps(k, reason);
    CoreWaits(k1, Block(k, k.cur, reason));
    WaitsBoth(k, k1, Block(k, k.cur, reason), -1);
  }

  lemma PutWaits(k: Kernel, i: Slot, p: Pcb)
    requires SameWait(k.procs[i], p)
    ensures SameWaits(k, Put(k, i, p), -1)
  {
  }

  lemma SendWaits(k: Kernel, dest: nat, msg: Message)
    requires Inv(k) && k.cur != TASK_IDLE
    ensures SameWaits(k, Send(k, dest, msg), -1)
  {
    hide Inv, Core, Scheduling, Block, Unblock, Pid2Proc, Live;
    InvParts(k);
    var r := Pid2Proc(k, dest);
    if r != -1 {
      var m := msg.(source := k.procs[k.cur].pid);
      var k1 := Put(k, k.cur, k.procs[k.cur].(msg := m)).(sent := k.sent + [Letter(k.procs[k.cur].pid, dest, m)]);
      SameLive(k, k1);
      SameSchedule(k, k1);
      if Accepts(k1.procs[r], k.procs[k.cur].pid) {
        UnblockWaits(Put(k1, r, k1.procs[r].(msg := m)), r, Receiving);
      } else {
        BlockWaits(k1, Sending);
      }
    }
  }

  lemma IntrWaits(k: Kernel, dest: nat)
    ensures SameWaits(k, IntrSend(k, dest), -1)
  {
    hide Unblock, Pid2Proc;
    var r := Pid2Proc(k, dest);
    if r != -1 {
      var p := k.procs[r];
      UnblockWaits(Put(k, r, p.(hasIntrMsg := false, msg := p.msg.(source := INTERRUPT, kind := HARD_INT))), r, Receiving);
    }
  }

  lemma {:induction false} IntrAllWaits(k: Kernel, dests: seq<nat>)
    ensures SameWaits(k, IntrSendAll(k, dests), -1)
  {
    hide IntrSend, SameWaits;
    if dests == [] {
      NothingWaits(k);
    } else {
      var l := IntrSendAll(k, dests[..|dests| - 1]);
      IntrAllWaits(k, dests[..|dests| - 1]);
      IntrWaits(l, dests[|dests| - 1]);
      WaitsBoth(k, l, IntrSendAll(k, dests), -1);
    }
  }

  lemma NothingWaits(k: Kernel)
    ensures SameWaits(k, k, -1)
  {
  }

  lemma PickUpWaits(k: Kernel, s: Slot)
    ensures SameWaits(k, PickUp(k, s), -1)
  {
    hide Unblock;
    UnblockWaits(Put(k, k.cur, k.procs[k.cur].(senders := Without(k.procs[k.cur].senders, s), msg := k.procs[s].msg)), s, Sending);
  }

  lemma ListenWaits(k: Kernel, src: nat, window: seq<nat>)
    requires Inv(k) && k.cur != TASK_IDLE
    ensures SameWaits(k, Listen(k, src, window), -1)
  {
    hide Inv, Core, Scheduling, Block, IntrSendAll, SameWaits, Live;
    var k1 := IntrSendAll(k, window);
    IntrAllWaits(k, window);
    IntrSendAllKeeps(k, window);
    CurrentRuns(k);
    IntrAllUndisturbed(k, window);
    InvParts(k1);
    PutWaits(k1, k1.cur, TakeIntr(k1, k1.cur).procs[k1.cur]);
    WaitsBoth(k, k1, TakeIntr(k1, k1.cur), -1);
    var k2 := Put(k1, k1.cur, k1.procs[k1.cur].(recvfrom := src));
    PutWaits(k1, k1.cur, k2.procs[k1.cur]);
    BufferKeeps(k1, k2.procs[k1.cur]);
    InvParts(k2);
    BlockWaits(k2, Receiving);
    WaitsBoth(k, k1, k2, -1);
    WaitsBoth(k, k2, Block(k2, k2.cur, Receiving), -1);
  }

  lemma ReceiveWaits(k: Kernel, src: nat, buf: Message, window: seq<nat>)
    requires Inv(k) && k.cur != TASK_IDLE
    ensures SameWaits(k, Receive(k, src, buf, window), -1)
  {
    hide Inv, PickUp, Listen, SameWaits, PickSender, Receive;
    var k1 := Put(k, k.cur, k.procs[k.cur].(msg := buf));
    ReceiveIsOneOf(k, src, buf, window);
    PutWaits(k, k.cur, k1.procs[k.cur]);
    PutWaits(k1, k.cur, TakeIntr(k1, k.cur).procs[k.cur]);
    WaitsBoth(k, k1, TakeIntr(k1, k.cur), -1);
    BufferKeeps(k, k1.procs[k.cur]);
    ListenWaits(k1, src, window);
    WaitsBoth(k, k1, Listen(k1, src, window), -1);
    var s := PickSender(k1, k.cur, src);
    if s != -1 {
      PickUpWaits(k1, s);
      WaitsBoth(k, k1, PickUp(k1, s), -1);
    }
  }

  lemma ExecuteWaits(k: Kernel, parent: nat, hasMemory: bool)
    ensures var l := Execute(k, parent, hasMemory);
      if k.slots == [] || !hasMemory then l == k
      else SameWaits(k, l, k.slots[0]) && !l.procs[k.slots[0]].status.waiting
  {
  }

  lemma DieWaits(k: Kernel, i: Slot, status: int)
    ensures SameWaits(k, Die(k, i, status), i) && !Die(k, i, status).procs[i].status.waiting
  {
    DieShape(k, i, status);
  }

  lemma ReapWaits(k: Kernel, p: Slot, i: Slot, status: int)
    ensures SameWaits(k, Reap(k, p, i, status), -1)
  {
    hide Reap;
    ReapShape(k, p, i, status);
    ReclaimRest(k, i);
  }

  lemma SendReaped(k: Kernel, dest: nat, msg: Message)
    ensures Send(k, dest, msg).reaped == k.reaped
  {
    ProcReport.StillSend(k, dest, msg);
    hide Send;
  }

  // ---------------------------------------------------------------- what an exit does

  /** The parent of `i` waits for it, or for any child. */
  predicate AskedFor(k: Kernel, i: Slot) {
    var p := Pid2Proc(k, k.procs[i].parent);
    && k.procs[i].parent != 0xffff_fffd && p != -1 && k.procs[p].status.waiting
    && (k.procs[p].waitFor == 0xffff_ffff || k.procs[p].waitFor == k.procs[i].pid)
  }

  /** Nobody but `x` and `y` starts or stops waiting. */
  ghost predicate WaitsBut(k: Kernel, l: Kernel, x: int, y: int) {
    forall j: Slot :: j != x && j != y ==> SameWait(k.procs[j], l.procs[j])
  }

  /** An exit that is asked for is handed over, and its parent does not wait any more. */
  lemma ExitAsked(k: Kernel, self: nat, status: int)
    requires Inv(k) && ExitCalled(k, self) && MayExit(k, Pid2Proc(k, self)) && AskedFor(k, Pid2Proc(k, self))
    ensures var i := Pid2Proc(k, self); var p := Pid2Proc(k, k.procs[i].parent); var l := Exit(k, self, status);
      && l.reaped == k.reaped + [Notice(self, k.procs[i].parent, status)]
      && p != i && !l.procs[p].status.waiting && WaitsBut(k, l, i, p)
  {
    hide Inv, Exit, Departed, Die, Send, Intact, MayExit, SameWaits, WaitsBut;
    ExitShape(k, self, status);
    var i := Pid2Proc(k, self);
    var p := Pid2Proc(k, k.procs[i].parent);
    DieSameParent(k, i, status);
    FoundPid(k, k.procs[i].parent);
    FoundPid(k, self);
    var l3 := Departed(Die(k, i, status), i, p, status);
    DepartedWaits(k, i, p, status);
    DepartedReaped(k, i, p, status);
    SendWaits(l3, k.procs[i].parent, Reply(status));
    SendReaped(l3, k.procs[i].parent, Reply(status));
    ThenSame(k, l3, Exit(k, self, status), i, p);
  }

  lemma ThenSame(k: Kernel, l3: Kernel, l: Kernel, i: Slot, p: Slot)
    requires WaitsBut(k, l3, i, p) && SameWaits(l3, l, -1) && !l3.procs[p].status.waiting
    ensures WaitsBut(k, l, i, p) && !l.procs[p].status.waiting
  {
    assert SameWait(l3.procs[p], l.procs[p]);
    assert forall j: Slot :: j != i && j != p ==> SameWait(k.procs[j], l3.procs[j]) && SameWait(l3.procs[j], l.procs[j]);
  }

  lemma DepartedReaped(k: Kernel, i: Slot, p: Slot, status: int)
    ensures Departed(Die(k, i, status), i, p, status).reaped == k.reaped + [Notice(k.procs[i].pid, k.procs[p].pid, status)]
  {
    DieShape(k, i, status);
    hide Die, Unblock;
    var k1 := Die(k, i, status);
    UnblockLogs(Put(k1, p, k1.procs[p].(waitFor := k1.procs[i].pid)), p, Waiting);
  }

  lemma UnblockLogs(k: Kernel, i: Slot, reason: Reason)
    ensures var l := Unblock(k, i, reason); l.reaped == k.reaped && forall j: Slot :: l.procs[j].pid == k.procs[j].pid
  {
  }

  lemma DepartedWaits(k: Kernel, i: Slot, p: Slot, status: int)
    ensures var l := Departed(Die(k, i, status), i, p, status); WaitsBut(k, l, i, p) && (p != i ==> !l.procs[p].status.waiting)
  {
    hide Die, Unblock, Reap;
    var k1 := Die(k, i, status);
    DieWaits(k, i, status);
    var k2 := Put(k1, p, k1.procs[p].(waitFor := k1.procs[i].pid));
    var k3 := Unblock(k2, p, Waiting);
    UnblockWaits(k2, p, Waiting);
    ReapWaits(k3, p, i, status);
    var l := Reap(k3, p, i, status);
    assert SameWait(k3.procs[p], l.procs[p]);
    forall j: Slot | j != i && j != p
      ensures SameWait(k.procs[j], l.procs[j])
    {
      assert SameWait(k.procs[j], k1.procs[j]) && SameWait(k2.procs[j], k3.procs[j]) && SameWait(k3.procs[j], l.procs[j]);
    }
  }

  /**
   * An exit that nobody asks for is not handed over to anybody; the parent, if there is one, is in the same state, with the
   * same message record and the same children, and of the ready list only the process that exits is gone.
   */
  lemma ExitUnasked(k: Kernel, self: nat, status: int)
    requires Inv(k) && ExitCalled(k, self) && !AskedFor(k, Pid2Proc(k, self))
    ensures var i: Slot := Pid2Proc(k, self); var l := Exit(k, self, status);
      && l.reaped == k.reaped && l.sent == k.sent && l.received == k.received
      && SameWaits(k, l, i)
      && l.ready == (if k.procs[i].status == READY then Without(k.ready, i) else k.ready) && l.cur == k.cur
      && (forall j: Slot :: j != i ==> l.procs[j] == k.procs[j].(parent := l.procs[j].parent))
      && l.procs[i].status == DEAD && l.procs[i].exitStatus == status
      && (i in l.slots <==> k.procs[i].parent == 0xffff_fffd)
  {
    hide Inv, Die, Exit, AskedFor, Reclaim, Live;
    var i: Slot := Pid2Proc(k, self);
    ExitPlain(k, self, status);
    DieShape(k, i, status);
    DieReadyIs(k, i, status);
    ReclaimRest(Die(k, i, status), i);
    ReclaimAdds(Die(k, i, status), i);
    NotFree(k, self);
  }

  lemma NotFree(k: Kernel, self: nat)
    requires Inv(k) && Pid2Proc(k, self) != -1
    ensures Pid2Proc(k, self) !in k.slots
  {
    LookupFinds(k, self);
  }

  lemma ReclaimAdds(k: Kernel, i: Slot)
    ensures Reclaim(k, i).slots == k.slots + [i]
  {
  }

  lemma ExitPlain(k: Kernel, self: nat, status: int)
    requires Inv(k) && ExitCalled(k, self) && !AskedFor(k, Pid2Proc(k, self))
    ensures var i: Slot := Pid2Proc(k, self); var k1 := Die(k, i, status);
      Exit(k, self, status) == if k.procs[i].parent == NO_PROC then Reclaim(k1, i) else k1
  {
    var i: Slot := Pid2Proc(k, self);
    FoundPid(k, self);
    DieSameParent(k, i, status);
    DieShape(k, i, status);
    hide Inv, Die, Send, Unblock, Pid2Proc, Reclaim;
  }

  lemma DieReadyIs(k: Kernel, i: Slot, status: int)
    ensures Die(k, i, status).ready == (if k.procs[i].status == READY then Without(k.ready, i) else k.ready)
  {
  }

  // ---------------------------------------------------------------- what a wait does

  /** A wait for `asked`, or for any child, is one for this child. */
  predicate Asks(asked: nat, child: nat) {
    asked == 0xffff_ffff || asked == child
  }

  /** Child `n` of `p` is dead, and one that the wait is for. */
  predicate DeadChild(k: Kernel, p: Slot, n: nat, asked: nat)
    requires n < |k.procs[p].children|
  {
    var c := k.procs[p].children[n];
    k.procs[c].status == DEAD && Asks(asked, k.procs[c].pid)
  }

  lemma {:induction false} FindDeadFirst(procs: Table, l: seq<Slot>) returns (n: nat)
    requires FindDead(procs, l) != -1
    ensures n < |l| && l[n] == FindDead(procs, l) && forall m :: 0 <= m < n ==> procs[l[m]].status != DEAD
  {
    if procs[l[0]].status == DEAD {
      n := 0;
    } else {
      var m := FindDeadFirst(procs, l[1..]);
      n := m + 1;
      assert forall q :: 1 <= q < n ==> l[q] == l[1..][q - 1];
    }
  }

  /** A wait finds the first dead child on the list that it is for, and none only if there is none. */
  lemma FindsFirst(k: Kernel, asked: nat, p: Slot) returns (n: nat)
    requires Inv(k) && Alive(k, p) && !k.procs[p].status.waiting
    ensures var c := FoundByWait(k, asked, p);
      if c == -1 then forall m: nat :: m < |k.procs[p].children| ==> !DeadChild(k, p, m, asked)
      else n < |k.procs[p].children| && c == k.procs[p].children[n] && DeadChild(k, p, n, asked)
           && forall m: nat :: m < n ==> !DeadChild(k, p, m, asked)
  {
    ChildrenDiffer(k, p);
    hide Inv;
    var kids := k.procs[p].children;
    n := 0;
    if FoundByWait(k, asked, p) != -1 {
      if asked == ANY {
        n := FindDeadFirst(k.procs, kids);
      } else {
        n :| n < |kids| && kids[n] == FoundByWait(k, asked, p);
      }
    } else if asked == ANY {
      assert forall m: nat :: m < |kids| ==> kids[m] in kids;
    } else {
      forall m: nat | m < |kids|
        ensures !DeadChild(k, p, m, asked)
      {
        assert kids[m] in kids;
      }
    }
  }

  /** No two children have the same pid. */
  lemma ChildrenDiffer(k: Kernel, p: Slot)
    requires Inv(k) && Alive(k, p)
    ensures var kids := k.procs[p].children;
      forall m, n :: 0 <= m < |kids| && 0 <= n < |kids| && k.procs[kids[m]].pid == k.procs[kids[n]].pid ==> kids[m] == kids[n] && m == n
  {
    var kids := k.procs[p].children;
    assert forall m :: 0 <= m < |kids| ==> ParentOf(k, p, kids[m]);
  }

  /** The system task sends a message to `to` whose first parameter is `value`, and nothing else. */
  predicate Replies(k: Kernel, e: Event, to: nat, value: int) {
    |Posts(k, e)| == 1 && var x := Posts(k, e)[0]; x.from == TASK_SYS && x.to == to && x.msg.source == TASK_SYS && x.msg.param1 == value
  }

  /**
   * The first dead child that a wait is for is handed over at once; without one, the wait sleeps, if there is a child it
   * is for; and it is answered with -1 otherwise, as is one by a process that waits already.
   */
  lemma WaitAnswers(k: Kernel, child: nat, parent: nat) returns (n: nat)
    requires Inv(k) && Enabled(k, WaitFor(child, parent))
    ensures var e := WaitFor(child, parent); var l, p := Step(k, e), Pid2Proc(k, parent); var kids := k.procs[p].children;
      if !k.procs[p].status.waiting && exists m: nat :: m < |kids| && DeadChild(k, p, m, child) then
        && n < |kids| && DeadChild(k, p, n, child) && (forall m: nat :: m < n ==> !DeadChild(k, p, m, child))
        && l.reaped == k.reaped + [Notice(k.procs[kids[n]].pid, parent, k.procs[kids[n]].exitStatus)]
        && Replies(k, e, parent, k.procs[kids[n]].exitStatus) && SameWaits(k, l, -1)
      else if !k.procs[p].status.waiting && exists c :: c in kids && Asks(child, k.procs[c].pid) then
        && l.reaped == k.reaped && Posts(k, e) == [] && SameWaits(k, l, p) && l.procs[p].status.waiting && l.procs[p].waitFor == child
      else l.reaped == k.reaped && Replies(k, e, parent, -1) && SameWaits(k, l, -1)
  {
    hide Inv, Send, Reap, FoundByWait, MayWait, SameWaits, Wait, Intact, SleepFor, FindPid, Pid2Proc;
    var p := Pid2Proc(k, parent);
    WaiterLives(k, parent);
    n := 0;
    if k.procs[p].status.waiting {
      WaitingMisses(k, child, p);
      WaitRefused(k, child, p);
    } else {
      n := FindsFirst(k, child, p);
      if FoundByWait(k, child, p) != -1 {
        WaitHandsOver(k, child, p);
      } else {
        WaitOtherwise(k, child, p);
        SleepsIf(k, child, p);
        if WaitSleeps(k, child, p) {
          SleepWaits(k, p, child);
        } else {
          WaitRefused(k, child, p);
        }
      }
    }
  }

  lemma WaitingMisses(k: Kernel, child: nat, p: Slot)
    requires k.procs[p].status.waiting
    ensures FoundByWait(k, child, p) == -1 && !WaitSleeps(k, child, p)
  {
  }

  lemma SleepsIf(k: Kernel, child: nat, p: Slot)
    requires !k.procs[p].status.waiting && FoundByWait(k, child, p) == -1
    ensures WaitSleeps(k, child, p) <==> exists c :: c in k.procs[p].children && Asks(child, k.procs[c].pid)
  {
    hide FoundByWait;
    var kids := k.procs[p].children;
    if kids != [] && child == ANY {
      assert kids[0] in kids && Asks(child, k.procs[kids[0]].pid);
    }
  }

  lemma SleepWaits(k: Kernel, p: Slot, child: nat)
    ensures var l := SleepFor(k, p, child);
      SameWaits(k, l, p) && l.procs[p].status.waiting && l.procs[p].waitFor == child && l.reaped == k.reaped
  {
  }

  lemma WaitRefused(k: Kernel, child: nat, p: Slot)
    requires Inv(k) && WaitCalled(k, k.procs[p].pid) && Pid2Proc(k, k.procs[p].pid) == p
    requires FoundByWait(k, child, p) == -1 && !WaitSleeps(k, child, p)
    ensures var e := WaitFor(child, k.procs[p].pid); var l := Step(k, e);
      l.reaped == k.reaped && Replies(k, e, k.procs[p].pid, -1) && SameWaits(k, l, -1)
  {
    hide Inv, Send, FoundByWait, WaitSleeps, SameWaits, Wait;
    WaitOtherwise(k, child, p);
    SendWaits(k, k.procs[p].pid, Reply(-1));
    SendReaped(k, k.procs[p].pid, Reply(-1));
  }

  lemma WaitHandsOver(k: Kernel, child: nat, p: Slot)
    requires Inv(k) && WaitCalled(k, k.procs[p].pid) && MayWait(k, child, p) && Pid2Proc(k, k.procs[p].pid) == p
    requires FoundByWait(k, child, p) != -1
    ensures var e := WaitFor(child, k.procs[p].pid); var l, c := Step(k, e), FoundByWait(k, child, p);
      && l.reaped == k.reaped + [Notice(k.procs[c].pid, k.procs[p].pid, k.procs[c].exitStatus)]
      && Replies(k, e, k.procs[p].pid, k.procs[c].exitStatus) && SameWaits(k, l, -1)
  {
    hide Inv, Send, Reap, FoundByWait, WaitSleeps, SameWaits, Wait, Intact, MayWait;
    WaitFindsShape(k, child, p);
    var c := FoundByWait(k, child, p);
    var l3 := Reap(k, p, c, k.procs[c].exitStatus);
    ReapWaits(k, p, c, k.procs[c].exitStatus);
    ReapNotes(k, p, c, k.procs[c].exitStatus);
    SendWaits(l3, k.procs[p].pid, Reply(k.procs[c].exitStatus));
    SendReaped(l3, k.procs[p].pid, Reply(k.procs[c].exitStatus));
    WaitsBoth(k, l3, Step(k, WaitFor(child, k.procs[p].pid)), -1);
  }

  lemma ReapNotes(k: Kernel, p: Slot, i: Slot, status: int)
    ensures Reap(k, p, i, status).reaped == k.reaped + [Notice(k.procs[i].pid, k.procs[p].pid, status)]
  {
  }

  // ---------------------------------------------------------------- steps

  /** Process `i` sleeps in a wait. */
  predicate Sleeps(k: Kernel, i: Slot) {
    Live(k, i) && k.procs[i].status.waiting
  }

  /** Whoever sleeps after an event did so before, in the same wait, or the event is its wait. */
  lemma StepSleeps(k: Kernel, e: Event, i: Slot)
    requires Inv(k) && Enabled(k, e) && Inv(Step(k, e)) && Sleeps(Step(k, e), i)
    ensures var l := Step(k, e);
      && Live(k, i) && k.procs[i].pid == l.procs[i].pid
      && if k.procs[i].status.waiting then k.procs[i].waitFor == l.procs[i].waitFor else e == WaitFor(l.procs[i].waitFor, l.procs[i].pid)
  {
    hide Inv, Schedule, Send, Receive, IntrSend, Execute, Exit, Wait, MayExit, MayWait, OldOnes, SameWaits, Pid2Proc;
    StepOld(k, e);
    StepNext(k, e);
    SleeperOld(k, e, i);
    match e
    case Tick => TickWaits(k); SameSleeper(k, Step(k, e), i, -1);
    case SendTo(dest, msg) => SendWaits(k, dest, msg); SameSleeper(k, Step(k, e), i, -1);
    case ReceiveFrom(src, buf, window) => ReceiveWaits(k, src, buf, window); SameSleeper(k, Step(k, e), i, -1);
    case Interrupt(dest) => IntrWaits(k, dest); SameSleeper(k, Step(k, e), i, -1);
    case Exec(parent, hasMemory) =>
      ExecuteWaits(k, parent, hasMemory);
      if k.slots != [] && hasMemory {
        SameSleeper(k, Step(k, e), i, k.slots[0]);
      }
    case ExitOf(self, status) => ExitSleeps(k, self, status, i);
    case WaitFor(child, parent) => WaitSleepsStep(k, child, parent, i);
  }

  lemma SameSleeper(k: Kernel, l: Kernel, i: Slot, x: int)
    requires SameWaits(k, l, x) && i != x
    ensures l.procs[i].status.waiting == k.procs[i].status.waiting && l.procs[i].waitFor == k.procs[i].waitFor
  {
    assert SameWait(k.procs[i], l.procs[i]);
  }

  /** Who sleeps is not new. */
  lemma SleeperOld(k: Kernel, e: Event, i: Slot)
    requires Inv(Step(k, e)) && Sleeps(Step(k, e), i) && OldOnes(k, Step(k, e)) && (!e.Exec? ==> Step(k, e).nextPid == k.nextPid)
    ensures Live(k, i) && k.procs[i].pid == Step(k, e).procs[i].pid
  {
    if e.Exec? {
      ExecuteWaits(k, e.parent, e.hasMemory);
      if k.slots != [] && e.hasMemory {
        ProcReport.ExecuteParents(k, e.parent);
      }
      hide Inv, Execute;
    } else {
      LiveBelow(Step(k, e), i);
      hide Inv, Step;
    }
  }

  lemma LiveBelow(k: Kernel, i: Slot)
    requires Inv(k) && Live(k, i)
    ensures k.procs[i].pid < k.nextPid
  {
  }

  lemma ExitSleeps(k: Kernel, self: nat, status: int, i: Slot)
    requires Inv(k) && ExitCalled(k, self) && MayExit(k, Pid2Proc(k, self)) && Inv(Exit(k, self, status))
    requires Sleeps(Exit(k, self, status), i)
    ensures k.procs[i].status.waiting && k.procs[i].waitFor == Exit(k, self, status).procs[i].waitFor
  {
    hide Inv, Exit, MayExit, SameWaits, WaitsBut, Pid2Proc, Live;
    var x := Pid2Proc(k, self);
    ExitKillsWaits(k, self, status);
    if AskedFor(k, x) {
      ExitAsked(k, self, status);
      ButSleeper(k, Exit(k, self, status), i, x, Pid2Proc(k, k.procs[x].parent));
    } else {
      ExitUnasked(k, self, status);
      SameSleeper(k, Exit(k, self, status), i, x);
    }
  }

  lemma ButSleeper(k: Kernel, l: Kernel, i: Slot, x: int, y: int)
    requires WaitsBut(k, l, x, y) && i != x && i != y
    ensures l.procs[i].status.waiting == k.procs[i].status.waiting && l.procs[i].waitFor == k.procs[i].waitFor
  {
    assert SameWait(k.procs[i], l.procs[i]);
  }

  /** Who has exited does not sleep. */
  lemma ExitKillsWaits(k: Kernel, self: nat, status: int)
    requires Inv(k) && ExitCalled(k, self) && MayExit(k, Pid2Proc(k, self)) && Inv(Exit(k, self, status))
    ensures var l := Exit(k, self, status); Sleeps(l, Pid2Proc(k, self)) ==> false
  {
    ExitRespects(k, self, status);
    DeadSleepNot(Exit(k, self, status), Pid2Proc(k, self));
    hide Inv, Exit;
  }

  lemma DeadSleepNot(k: Kernel, i: Slot)
    requires Inv(k) && !Alive(k, i)
    ensures !Sleeps(k, i)
  {
  }

  lemma WaitSleepsStep(k: Kernel, child: nat, parent: nat, i: Slot)
    requires Inv(k) && Enabled(k, WaitFor(child, parent)) && Sleeps(Step(k, WaitFor(child, parent)), i)
    requires k.procs[i].pid == Step(k, WaitFor(child, parent)).procs[i].pid
    ensures var l := Step(k, WaitFor(child, parent));
      if k.procs[i].status.waiting then k.procs[i].waitFor == l.procs[i].waitFor
      else WaitFor(child, parent) == WaitFor(l.procs[i].waitFor, l.procs[i].pid)
  {
    hide Inv, Step, Enabled, SameWaits, Live, DeadChild, Replies;
    var n := WaitAnswers(k, child, parent);
    var l := Step(k, WaitFor(child, parent));
    WaiterPid(k, child, parent);
    var p := Pid2Proc(k, parent);
    if i != p {
      if SameWaits(k, l, -1) {
        SameSleeper(k, l, i, -1);
      } else {
        SameSleeper(k, l, i, p);
      }
    } else if SameWaits(k, l, -1) {
      SameSleeper(k, l, i, -1);
    }
  }

  lemma WaiterPid(k: Kernel, child: nat, parent: nat)
    requires Inv(k) && Enabled(k, WaitFor(child, parent))
    ensures Pid2Proc(k, parent) != -1 && k.procs[Pid2Proc(k, parent)].pid == parent
  {
    WaiterLives(k, parent);
  }

  /** The event hands a status over. */
  predicate Hands(k: Kernel, e: Event, n: Notice) {
    Step(k, e).reaped == k.reaped + [n]
  }

  /**
   * What is handed over is the status of a dead child to the wait that finds it, or of a child that exits to the wait its
   * parent sleeps in. The parent is told the status, and sleeps no more.
   */
  ghost predicate Rightly(k: Kernel, e: Event, n: Notice) {
    var p := Pid2Proc(k, n.parent);
    && p != -1 && Hands(k, e, n) && Replies(k, e, n.parent, n.status) && !Sleeps(Step(k, e), p)
    && if k.procs[p].status.waiting then e == ExitOf(n.child, n.status) && Asks(k.procs[p].waitFor, n.child)
       else e.WaitFor? && e.parent == n.parent && Asks(e.child, n.child)
  }

  lemma StepHands(k: Kernel, e: Event)
    requires Inv(k) && Enabled(k, e) && Inv(Step(k, e))
    ensures Step(k, e).reaped == k.reaped || exists n :: Rightly(k, e, n)
  {
    hide Inv, Schedule, Send, Receive, IntrSend, Execute, Exit, Wait, MayExit, MayWait, ExitCalled, WaitCalled, Rightly, Pid2Proc;
    match e
    case Tick => ProcReport.StillSchedule(k);
    case SendTo(dest, msg) => SendReaped(k, dest, msg);
    case ReceiveFrom(src, buf, window) => ProcReport.StillReceive(k, src, buf, window);
    case Interrupt(dest) => ProcReport.StillIntr(k, dest);
    case Exec(parent, hasMemory) => ProcReport.UndisturbedExecute(k, parent, hasMemory);
    case ExitOf(self, status) => ExitHands(k, self, status);
    case WaitFor(child, parent) => WaitHands(k, child, parent);
  }

  lemma ExitHands(k: Kernel, self: nat, status: int)
    requires Inv(k) && ExitCalled(k, self) && MayExit(k, Pid2Proc(k, self))
    ensures var e := ExitOf(self, status); var i := Pid2Proc(k, self);
      if AskedFor(k, i) then Rightly(k, e, Notice(self, k.procs[i].parent, status)) else Step(k, e).reaped == k.reaped
  {
    hide Inv, Exit, MayExit, SameWaits, WaitsBut;
    var i := Pid2Proc(k, self);
    FoundPid(k, self);
    if AskedFor(k, i) {
      ExitAsked(k, self, status);
    } else {
      ExitUnasked(k, self, status);
    }
  }

  lemma WaitHands(k: Kernel, child: nat, parent: nat)
    requires Inv(k) && Enabled(k, WaitFor(child, parent))
    ensures var e := WaitFor(child, parent); Step(k, e).reaped == k.reaped || exists n :: Rightly(k, e, n)
  {
    hide Inv, Step, Enabled, SameWaits, Replies;
    var e := WaitFor(child, parent);
    var m := WaitAnswers(k, child, parent);
    WaiterPid(k, child, parent);
    var p := Pid2Proc(k, parent);
    if Step(k, e).reaped != k.reaped {
      var c := k.procs[p].children[m];
      var n := Notice(k.procs[c].pid, parent, k.procs[c].exitStatus);
      SameSleeper(k, Step(k, e), p, -1);
      assert Rightly(k, e, n);
    }
  }
}
