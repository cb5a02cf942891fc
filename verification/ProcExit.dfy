/** Exit and wait. */
module ProcExit {
  import opened Proc
  import opened ProcInv
  import opened ProcIpc
  import opened ProcSteps

  /** No lost exit, but perhaps for that of `i`, which is just being dealt with. */
  ghost predicate NoOtherLostExit(k: Kernel, i: Slot) {
    forall p: Slot, c: Slot :: ParentOf(k, p, c) && c != i && k.procs[p].status.waiting && k.procs[c].status == DEAD ==>
      k.procs[p].waitFor != ANY && k.procs[p].waitFor != k.procs[c].pid
  }

  ghost predicate InvBut(k: Kernel, i: Slot) {
    Registry(k) && Scheduling(k) && Queues(k) && ChildrenKnowParent(k) && ParentKnowsChildren(k)
    && NoOtherLostExit(k, i) && Histories(k) && Reaped(k)
  }

  // ---------------------------------------------------------------- dying

  lemma DieScheduling(k: Kernel, i: Slot, status: int)
    requires Scheduling(k) && Live(k, i) && i != k.cur && TASK_IDLE < i
    ensures Scheduling(Die(k, i, status))
  {
    hide Scheduling, Die;
    var l := Die(k, i, status);
    DieShape(k, i, status);
    DieUnready(k, i, status);
    DeadSchedule(k, l, i);
  }

  lemma DieUnready(k: Kernel, i: Slot, status: int)
    requires Scheduling(k) && Live(k, i)
    ensures var l := Die(k, i, status);
      NoDup(l.ready) && (forall j: Slot :: j in l.ready <==> j in k.ready && j != i) && l.halted == k.halted
  {
    WithoutHas(k.ready, i);
  }

  /** One process less to schedule. */
  lemma DeadSchedule(k: Kernel, l: Kernel, i: Slot)
    requires Scheduling(k) && Live(k, i) && i != k.cur && TASK_IDLE < i
    requires l.slots == k.slots && l.cur == k.cur && l.halted == k.halted && NoDup(l.ready)
    requires forall j: Slot :: j in l.ready <==> j in k.ready && j != i
    requires forall j: Slot :: l.procs[j].status == if j == i then DEAD else k.procs[j].status
    ensures Scheduling(l)
  {
    assert forall j: Slot :: Live(l, j) <==> Live(k, j);
    hide NoDup;
  }

  lemma DieShape(k: Kernel, i: Slot, status: int)
    ensures var l := Die(k, i, status);
      && l.slots == k.slots && l.hash == k.hash && l.nextPid == k.nextPid && l.cur == k.cur
      && l.sent == k.sent && l.received == k.received && l.reaped == k.reaped
      && (forall j: Slot :: l.procs[j] == k.procs[j].(
            status := if j == i then DEAD else k.procs[j].status,
            exitStatus := if j == i then status else k.procs[j].exitStatus,
            parent := if j in k.procs[i].children then NO_PROC else k.procs[j].parent))
  {
  }

  lemma DieRegistry(k: Kernel, i: Slot, status: int)
    requires Registry(k) && Reaped(k)
    ensures Registry(Die(k, i, status)) && Reaped(Die(k, i, status))
  {
    DieShape(k, i, status);
    hide Die;
    var l := Die(k, i, status);
    assert forall j: Slot :: l.procs[j].pid == k.procs[j].pid && (Live(l, j) <==> Live(k, j));
  }

  lemma DieQueues(k: Kernel, i: Slot, status: int)
    requires Queues(k) && !k.procs[i].status.sending
    ensures Queues(Die(k, i, status)) && SameMail(k, Die(k, i, status))
  {
    DieShape(k, i, status);
    hide Die;
    var l := Die(k, i, status);
    assert forall q: Slot, s: Slot :: InQueue(l, q, s) <==> InQueue(k, q, s);
    forall s: Slot | Live(l, s) && l.procs[s].status.sending
      ensures exists q: Slot :: InQueue(l, q, s)
    {
      var q: Slot :| InQueue(k, q, s);
      assert InQueue(l, q, s);
    }
  }

  lemma DieChildren(k: Kernel, i: Slot, status: int)
    requires Registry(k) && ChildrenKnowParent(k) && ParentKnowsChildren(k) && Alive(k, i)
    ensures var l := Die(k, i, status);
      ChildrenKnowParent(l) && ParentKnowsChildren(l)
      && forall p: Slot, c: Slot :: ParentOf(l, p, c) <==> ParentOf(k, p, c) && p != i
  {
    DieShape(k, i, status);
    hide Die;
    var l := Die(k, i, status);
    assert forall p: Slot, c: Slot :: ParentOf(l, p, c) <==> ParentOf(k, p, c) && p != i;
    forall p: Slot, c: Slot | ParentOf(l, p, c)
      ensures l.procs[c].parent == k.procs[c].parent
    {
      assert ParentOf(k, i, c) <==> c in k.procs[i].children;
    }
    forall c: Slot | Live(l, c) && TASK_IDLE < c && l.procs[c].parent != NO_PROC
      ensures exists p: Slot :: ParentOf(l, p, c)
    {
      var p: Slot :| ParentOf(k, p, c);
      assert ParentOf(l, p, c);
    }
  }

  lemma DieLosesNoOther(k: Kernel, i: Slot, status: int)
    requires NoLostExit(k)
    ensures NoOtherLostExit(Die(k, i, status), i)
  {
    DieShape(k, i, status);
    hide Die;
    var l := Die(k, i, status);
    assert forall p: Slot, c: Slot :: ParentOf(l, p, c) ==> ParentOf(k, p, c);
  }

  lemma DieKeeps(k: Kernel, i: Slot, status: int)
    requires Inv(k) && Alive(k, i) && i != k.cur && TASK_IDLE < i && !k.procs[i].status.sending
    ensures InvBut(Die(k, i, status), i)
  {
    hide Registry, Scheduling, QueuedSend, OneQueue, SendersQueued, NoMissedSender, NoMissedInterrupt, Histories, Reaped,
      ChildrenKnowParent, ParentKnowsChildren, NoLostExit, NoOtherLostExit, Die;
    DieScheduling(k, i, status);
    DieRegistry(k, i, status);
    DieQueues(k, i, status);
    DieChildren(k, i, status);
    DieLosesNoOther(k, i, status);
    SameMailHistories(k, Die(k, i, status));
  }

  // ---------------------------------------------------------------- giving a slot back

  /** A user process that is dead and has not been given back. */
  predicate Corpse(k: Kernel, i: Slot) {
    Live(k, i) && k.procs[i].status == DEAD && TASK_IDLE < i
  }

  predicate MayReclaim(k: Kernel, i: Slot) {
    Corpse(k, i) && k.procs[i].senders == []
  }

  lemma ReclaimSlots(k: Kernel, i: Slot)
    requires Registry(k) && Corpse(k, i)
    ensures var l := Reclaim(k, i);
      && l.procs == k.procs
      && (forall j: Slot :: Live(l, j) <==> Live(k, j) && j != i)
      && (forall b, j: Slot :: 0 <= b < 128 ==> (j in l.hash[b] <==> j in k.hash[b] && j != i))
      && (forall b :: 0 <= b < 128 ==> NoDup(l.hash[b])) && NoDup(l.slots)
  {
    var b := k.procs[i].pid % 128;
    WithoutHas(k.hash[b], i);
    var l := Reclaim(k, i);
    forall a, j: Slot | 0 <= a < 128
      ensures j in l.hash[a] <==> j in k.hash[a] && j != i
    {
    }
  }

  lemma ReclaimRegistry(k: Kernel, i: Slot)
    requires Registry(k) && Reaped(k) && Corpse(k, i)
    ensures Registry(Reclaim(k, i)) && Reaped(Reclaim(k, i))
  {
    ReclaimSlots(k, i);
    hide Reclaim;
    assert Reclaim(k, i).nextPid == k.nextPid && Reclaim(k, i).reaped == k.reaped by {
      ReclaimRest(k, i);
    }
  }

  lemma ReclaimRest(k: Kernel, i: Slot)
    ensures Reclaim(k, i) == k.(hash := Reclaim(k, i).hash, slots := Reclaim(k, i).slots)
  {
  }

  lemma ReclaimScheduling(k: Kernel, i: Slot)
    requires Registry(k) && Scheduling(k) && Corpse(k, i)
    ensures Scheduling(Reclaim(k, i))
  {
    ReclaimSlots(k, i);
    ReclaimRest(k, i);
    hide Reclaim, Registry;
  }

  lemma ReclaimQueues(k: Kernel, i: Slot)
    requires Registry(k) && Queues(k) && MayReclaim(k, i)
    ensures Queues(Reclaim(k, i))
    ensures forall q: Slot, s: Slot :: InQueue(Reclaim(k, i), q, s) <==> InQueue(k, q, s)
  {
    ReclaimSlots(k, i);
    hide Reclaim, Registry;
    var l := Reclaim(k, i);
    forall q: Slot, s: Slot
      ensures InQueue(l, q, s) <==> InQueue(k, q, s)
      ensures InQueue(k, q, s) ==> s != i
    {
    }
    forall s: Slot | Live(l, s) && l.procs[s].status.sending
      ensures exists q: Slot :: InQueue(l, q, s)
    {
      var q: Slot :| InQueue(k, q, s);
      assert InQueue(l, q, s);
    }
  }

  lemma ReclaimHistories(k: Kernel, i: Slot)
    requires Registry(k) && Queues(k) && Histories(k) && Reaped(k) && MayReclaim(k, i)
    ensures Histories(Reclaim(k, i))
  {
    ReclaimQueues(k, i);
    ReclaimRegistry(k, i);
    ReclaimSlots(k, i);
    ReclaimRest(k, i);
    hide Reclaim, Registry, Between, Outstanding, QueuedSend, OneQueue, SendersQueued, NoMissedSender, NoMissedInterrupt;
    var l := Reclaim(k, i);
    forall a: nat, b: nat
      ensures Outstanding(l, a, b) == Outstanding(k, a, b)
    {
      assert forall q: Slot, s: Slot :: Waits(l, q, s, a, b) <==> Waits(k, q, s, a, b);
      OutstandingSame(k, l, a, b);
    }
  }

  /** An orphan, or a process that never had a parent, leaves nothing behind. */
  lemma ReclaimOrphan(k: Kernel, i: Slot)
    requires InvBut(k, i) && MayReclaim(k, i)
    requires forall p: Slot :: !ParentOf(k, p, i)
    ensures Inv(Reclaim(k, i))
  {
    hide Registry, Scheduling, Queues, Histories, Reaped, Reclaim;
    ReclaimRegistry(k, i);
    ReclaimScheduling(k, i);
    ReclaimQueues(k, i);
    ReclaimHistories(k, i);
    ReclaimSlots(k, i);
    var l := Reclaim(k, i);
    assert forall p: Slot, c: Slot :: ParentOf(l, p, c) <==> ParentOf(k, p, c);
    forall c: Slot | Live(l, c) && TASK_IDLE < c && l.procs[c].parent != NO_PROC
      ensures exists p: Slot :: ParentOf(l, p, c)
    {
      var p: Slot :| ParentOf(k, p, c);
      assert ParentOf(l, p, c);
    }
  }

  // ---------------------------------------------------------------- giving the exit status to the parent

  lemma ReapParentOf(k: Kernel, p: Slot, i: Slot, status: int)
    requires Registry(k) && ChildrenKnowParent(k) && Corpse(k, i) && ParentOf(k, p, i)
    ensures forall q: Slot, c: Slot :: ParentOf(Reap(k, p, i, status), q, c) <==> ParentOf(k, q, c) && c != i
  {
    ReclaimSlots(k, i);
    ReclaimRest(k, i);
    WithoutHas(k.procs[p].children, i);
    var l := Reap(k, p, i, status);
    forall q: Slot, c: Slot
      ensures ParentOf(l, q, c) <==> ParentOf(k, q, c) && c != i
    {
      if ParentOf(k, q, i) {
        SamePid(k, p, q);
      }
    }
  }

  /** What is left of the processes and their families once `i` is gone. */
  ghost predicate Bereft(k: Kernel, l: Kernel, p: Slot, i: Slot) {
    && (forall j: Slot :: Live(l, j) <==> Live(k, j) && j != i)
    && (forall j: Slot :: l.procs[j] == k.procs[j].(children := l.procs[j].children))
    && (forall q: Slot, c: Slot :: ParentOf(l, q, c) <==> ParentOf(k, q, c) && c != i)
    && (forall q: Slot :: Alive(l, q) ==> NoDup(l.procs[q].children))
  }

  lemma ReapBereft(k: Kernel, p: Slot, i: Slot, status: int)
    requires Registry(k) && ChildrenKnowParent(k) && Corpse(k, i) && ParentOf(k, p, i)
    ensures Bereft(k, Reap(k, p, i, status), p, i)
  {
    ReclaimSlots(k, i);
    ReclaimRest(k, i);
    WithoutHas(k.procs[p].children, i);
    ReapParentOf(k, p, i, status);
    hide Registry, Reclaim, ParentOf;
  }

  lemma BereftFamily(k: Kernel, l: Kernel, p: Slot, i: Slot)
    requires ChildrenKnowParent(k) && ParentKnowsChildren(k) && NoOtherLostExit(k, i) && Bereft(k, l, p, i)
    ensures Family(l)
  {
    hide ParentOf;
    forall c: Slot | Live(l, c) && TASK_IDLE < c && l.procs[c].parent != NO_PROC
      ensures exists q: Slot :: ParentOf(l, q, c)
    {
      var q: Slot :| ParentOf(k, q, c);
      assert ParentOf(l, q, c);
    }
  }

  lemma ReapReaped(k: Kernel, p: Slot, i: Slot, status: int)
    requires Registry(k) && Reaped(k) && Corpse(k, i)
    ensures Registry(Reap(k, p, i, status)) && Reaped(Reap(k, p, i, status))
  {
    hide Registry, Reaped, Corpse, Reclaim, Live;
    ReclaimRegistry(k, i);
    ReclaimRest(k, i);
    FreshNotice(k, i);
    var u, l := Reclaim(k, i), Reap(k, p, i, status);
    SameRegistry(u, l);
    OneMoreReaped(u, l, Notice(k.procs[i].pid, k.procs[p].pid, status));
  }

  lemma SameRegistry(k: Kernel, l: Kernel)
    requires Registry(k) && l.slots == k.slots && l.hash == k.hash && l.nextPid == k.nextPid
    requires forall j: Slot :: l.procs[j].pid == k.procs[j].pid
    ensures Registry(l)
  {
    assert forall j: Slot :: Live(l, j) <==> Live(k, j);
  }

  /** The exit status of a dead process has not been handed over, and nobody else has its pid. */
  lemma FreshNotice(k: Kernel, i: Slot)
    requires Registry(k) && Reaped(k) && Corpse(k, i)
    ensures k.procs[i].pid < k.nextPid && forall n :: n in k.reaped ==> n.child != k.procs[i].pid
    ensures forall j: Slot :: Live(Reclaim(k, i), j) ==> k.procs[j].pid != k.procs[i].pid
  {
    ReclaimSlots(k, i);
    hide Reclaim;
  }

  lemma OneMoreReaped(k: Kernel, l: Kernel, n: Notice)
    requires Reaped(k) && l.slots == k.slots && l.nextPid == k.nextPid && l.reaped == k.reaped + [n]
    requires forall j: Slot :: l.procs[j].pid == k.procs[j].pid
    requires n.child < k.nextPid && (forall m :: m in k.reaped ==> m.child != n.child)
    requires forall j: Slot :: Live(k, j) ==> k.procs[j].pid != n.child
    ensures Reaped(l)
  {
    assert forall j: Slot :: Live(l, j) <==> Live(k, j);
    forall a, b | 0 <= a < b < |l.reaped|
      ensures l.reaped[a].child != l.reaped[b].child
    {
      assert k.reaped[a] in k.reaped;
    }
  }

  lemma ReapKeeps(k: Kernel, p: Slot, i: Slot, status: int)
    requires InvBut(k, i) && MayReclaim(k, i) && ParentOf(k, p, i)
    ensures Inv(Reap(k, p, i, status))
  {
    hide Registry, Scheduling, QueuedSend, OneQueue, SendersQueued, NoMissedSender, NoMissedInterrupt, Histories, Reaped,
      Family, Reclaim, ChildrenKnowParent, ParentKnowsChildren, NoOtherLostExit, Bereft;
    var u, l := Reclaim(k, i), Reap(k, p, i, status);
    ReapBereft(k, p, i, status);
    BereftFamily(k, l, p, i);
    ReapReaped(k, p, i, status);
    ReclaimRegistry(k, i);
    ReclaimScheduling(k, i);
    ReclaimQueues(k, i);
    ReclaimHistories(k, i);
    ReclaimRest(k, i);
    SameSchedule(u, l);
    SameBoxesQueues(u, l);
    SameMailHistories(u, l);
  }

  /** A parent that waited for `i` is told to go on. */
  lemma UnwaitKeeps(k: Kernel, p: Slot, i: Slot, self: nat)
    requires InvBut(k, i) && Live(k, p) && k.procs[p].status.waiting
    ensures var l := Unblock(Put(k, p, k.procs[p].(waitFor := self)), p, Waiting);
      && InvBut(l, i) && OnlyUnwaits(k, l, p)
      && (forall q: Slot, c: Slot :: ParentOf(l, q, c) <==> ParentOf(k, q, c))
  {
    hide Registry, Scheduling, QueuedSend, OneQueue, SendersQueued, NoMissedSender, NoMissedInterrupt, Histories, Reaped,
      ChildrenKnowParent, ParentKnowsChildren, NoOtherLostExit, ParentOf, Unblock, OnlyUnwaits, SameBoxes, SameMail;
    var k1 := Put(k, p, k.procs[p].(waitFor := self));
    var l := Unblock(k1, p, Waiting);
    SameSchedule(k, k1);
    UnblockKeeps(k1, p, Waiting);
    UnwaitShape(k, p, i, self);
    UnwaitSame(k, l, p);
    SameBoxesQueues(k, l);
    UnwaitRegistry(k, l);
    SameMailHistories(k, l);
    UnwaitFamily(k, l, p, i);
  }

  lemma UnwaitSame(k: Kernel, l: Kernel, p: Slot)
    requires OnlyUnwaits(k, l, p)
    ensures SameBoxes(k, l) && SameMail(k, l)
    ensures l.slots == k.slots && l.hash == k.hash && l.nextPid == k.nextPid && l.reaped == k.reaped
    ensures forall j: Slot :: l.procs[j].pid == k.procs[j].pid
  {
  }

  predicate OnlyUnwaits(k: Kernel, l: Kernel, p: Slot) {
    && l == k.(procs := l.procs, ready := l.ready)
    && (forall j: Slot :: j != p ==> l.procs[j] == k.procs[j])
    && l.procs[p] == k.procs[p].(status := l.procs[p].status, waitFor := l.procs[p].waitFor)
    && l.procs[p].status == k.procs[p].status.(waiting := false, phase := l.procs[p].status.phase)
    && l.procs[p].status.phase != Dead && k.procs[p].status.phase != Dead
  }

  lemma UnwaitShape(k: Kernel, p: Slot, i: Slot, self: nat)
    requires Scheduling(k) && Live(k, p) && k.procs[p].status.waiting
    ensures OnlyUnwaits(k, Unblock(Put(k, p, k.procs[p].(waitFor := self)), p, Waiting), p)
  {
    BlockedAlive(k, p);
  }

  lemma UnwaitRegistry(k: Kernel, l: Kernel)
    requires Registry(k) && Reaped(k)
    requires l.slots == k.slots && l.hash == k.hash && l.nextPid == k.nextPid && l.reaped == k.reaped
    requires forall j: Slot :: l.procs[j].pid == k.procs[j].pid
    ensures Registry(l) && Reaped(l)
  {
    assert forall j: Slot :: Live(l, j) <==> Live(k, j);
  }

  lemma UnwaitFamily(k: Kernel, l: Kernel, p: Slot, i: Slot)
    requires OnlyUnwaits(k, l, p)
    requires ChildrenKnowParent(k) && ParentKnowsChildren(k) && NoOtherLostExit(k, i)
    ensures ChildrenKnowParent(l) && ParentKnowsChildren(l) && NoOtherLostExit(l, i)
    ensures forall q: Slot, c: Slot :: ParentOf(l, q, c) <==> ParentOf(k, q, c)
  {
    assert forall q: Slot, c: Slot :: ParentOf(l, q, c) <==> ParentOf(k, q, c);
    forall c: Slot | Live(l, c) && TASK_IDLE < c && l.procs[c].parent != NO_PROC
      ensures exists q: Slot :: ParentOf(l, q, c)
    {
      var q: Slot :| ParentOf(k, q, c);
      assert ParentOf(l, q, c);
    }
  }

  // ---------------------------------------------------------------- exit

  /** Process `i` will be gone for good once it exits: nobody is left to ask for its exit status. */
  predicate GoneAtExit(k: Kernel, i: Slot) {
    var p := Pid2Proc(k, k.procs[i].parent);
    k.procs[i].parent == NO_PROC || p == -1 || Awaited(k, p, i)
  }

  /**
   * What exit needs of the process that exits: it is not itself stuck in a queue, and if its slot is
   * given back at once, nobody is stuck in its queue.
   */
  predicate MayExit(k: Kernel, i: Slot) {
    !k.procs[i].status.sending && (GoneAtExit(k, i) ==> k.procs[i].senders == [])
  }

  /** A user process whose exit message the system task, which is running, has received. */
  predicate ExitCalled(k: Kernel, self: nat) {
    var i := Pid2Proc(k, self);
    k.cur == TASK_SYS && i != -1 && TASK_IDLE < i && Alive(k, i)
  }

  /** The parent named in a process is the one whose children list it is on. */
  lemma ParentFound(k: Kernel, i: Slot)
    requires Registry(k) && ChildrenKnowParent(k) && ParentKnowsChildren(k) && Live(k, i) && TASK_IDLE < i
    ensures k.procs[i].parent == NO_PROC ==> forall p: Slot :: !ParentOf(k, p, i)
    ensures k.procs[i].parent != NO_PROC ==>
      var p := Pid2Proc(k, k.procs[i].parent); p != -1 && ParentOf(k, p, i) && p != TASK_SYS && p != TASK_IDLE
  {
    if k.procs[i].parent != NO_PROC {
      var p: Slot :| ParentOf(k, p, i);
      LookupFinds(k, k.procs[i].parent);
    } else {
      assert forall p: Slot :: Live(k, p) ==> k.procs[p].pid < NO_PROC;
    }
  }

  lemma ReplyKeeps(k: Kernel, p: Slot, value: int)
    requires Inv(k) && k.cur == TASK_SYS && Live(k, p) && p != TASK_SYS
    ensures Inv(Send(k, k.procs[p].pid, Reply(value)))
  {
    hide Send;
    assert k.procs[k.cur].pid != k.procs[p].pid by {
      assert Registry(k) && Live(k, k.cur);
    }
    SendKeeps(k, k.procs[p].pid, Reply(value));
  }

  lemma AfterDeathKeeps(k: Kernel, i: Slot, status: int)
    requires InvBut(k, i) && Live(k, i) && k.procs[i].status == DEAD && TASK_IDLE < i && k.cur == TASK_SYS
    requires GoneAtExit(k, i) ==> k.procs[i].senders == []
    ensures Inv(AfterDeath(k, i, status))
  {
    ParentFound(k, i);
    var parent := k.procs[i].parent;
    var p := Pid2Proc(k, parent);
    if parent == NO_PROC {
      ReclaimOrphan(k, i);
    } else if Awaited(k, p, i) {
      UnwaitKeeps(k, p, i, k.procs[i].pid);
      var k2 := Unblock(Put(k, p, k.procs[p].(waitFor := k.procs[i].pid)), p, Waiting);
      hide InvBut, Inv, Unblock, Reclaim, Send;
      assert p != i;
      ReapKeeps(k2, p, i, status);
      ReapRest(k2, p, i, status);
      ReplyKeeps(Reap(k2, p, i, status), p, status);
    } else {
      NothingLost(k, i, p);
    }
  }

  lemma ReapRest(k: Kernel, p: Slot, i: Slot, status: int)
    requires Registry(k) && Corpse(k, i) && Live(k, p) && p != i
    ensures var l := Reap(k, p, i, status); l.cur == k.cur && l.procs[p].pid == k.procs[p].pid && Live(l, p)
  {
    ReclaimSlots(k, i);
    ReclaimRest(k, i);
  }

  lemma NothingLost(k: Kernel, i: Slot, p: Slot)
    requires InvBut(k, i) && ParentOf(k, p, i) && !Awaited(k, p, i)
    ensures Inv(k)
  {
    hide Registry, Scheduling, Queues, Histories, Reaped;
    forall q: Slot, c: Slot | ParentOf(k, q, c) && k.procs[q].status.waiting && k.procs[c].status == DEAD
      ensures k.procs[q].waitFor != ANY && k.procs[q].waitFor != k.procs[c].pid
    {
      if c == i {
        ParentUnique(k, p, q, c);
      }
    }
  }

  lemma ParentUnique(k: Kernel, p: Slot, q: Slot, c: Slot)
    requires Registry(k) && ChildrenKnowParent(k) && ParentOf(k, p, c) && ParentOf(k, q, c)
    ensures p == q
  {
    SamePid(k, p, q);
  }

  /** Exit keeps the invariant. */
  lemma ExitKeeps(k: Kernel, self: nat, status: int)
    requires Inv(k) && ExitCalled(k, self) && MayExit(k, Pid2Proc(k, self))
    ensures Inv(Exit(k, self, status))
  {
    var i := Pid2Proc(k, self);
    DieKeeps(k, i, status);
    DieShape(k, i, status);
    DeathSameGone(k, i, status);
    hide Inv, InvBut, Die, Exit;
    AfterDeathKeeps(Die(k, i, status), i, status);
  }

  lemma DeathSameGone(k: Kernel, i: Slot, status: int)
    requires ChildrenKnowParent(k) && Alive(k, i)
    ensures GoneAtExit(Die(k, i, status), i) ==> GoneAtExit(k, i)
  {
    DieShape(k, i, status);
    var l := Die(k, i, status);
    assert i !in k.procs[i].children by {
      assert ParentOf(k, i, i) <==> i in k.procs[i].children;
    }
    var parent := k.procs[i].parent;
    FindPidSame(k.procs, l.procs, k.hash[parent % 128], parent);
    hide Die;
  }

  /** The free slots are the same, no queue loses anybody, the current process at most joins one, and who sends goes on. */
  ghost predicate OnlyAdds(k: Kernel, l: Kernel) {
    && l.slots == k.slots
    && (forall q: Slot, s: Slot :: s in k.procs[q].senders ==> s in l.procs[q].senders)
    && (forall q: Slot, s: Slot :: s in l.procs[q].senders && s != k.cur ==> s in k.procs[q].senders)
    && (forall s: Slot :: k.procs[s].status.sending ==> l.procs[s].status.sending)
  }

  lemma ScheduleOnlyAdds(k: Kernel)
    requires forall i :: i in k.ready ==> !k.procs[i].status.sending
    ensures OnlyAdds(k, Schedule(k))
  {
  }

  lemma UnblockOnlyAdds(k: Kernel, i: Slot)
    ensures OnlyAdds(k, Unblock(k, i, Receiving))
  {
  }

  lemma BlockOnlyAdds(k: Kernel, i: Slot)
    requires i !in k.ready && forall j :: j in k.ready ==> !k.procs[j].status.sending
    ensures OnlyAdds(k, Block(k, i, Sending))
  {
    if k.procs[i].status == RUNNING {
      ScheduleOnlyAdds(SetStatus(k, i, With(k.procs[i].status, Sending, true)));
    }
  }

  /** The reply that exit and wait end with only adds the system task to a queue, if it changes one at all. */
  lemma SendOnlyAdds(k: Kernel, dest: nat, msg: Message)
    requires Scheduling(k)
    ensures OnlyAdds(k, Send(k, dest, msg))
  {
    hide Unblock, Block;
    CurRuns(k);
    var s, r := k.cur, Pid2Proc(k, dest);
    if r != -1 {
      var m := msg.(source := k.procs[s].pid);
      var k1 := Put(k, s, k.procs[s].(msg := m)).(sent := k.sent + [Letter(k.procs[s].pid, dest, m)]);
      if Accepts(k1.procs[r], k.procs[s].pid) {
        UnblockOnlyAdds(Put(k1, r, k1.procs[r].(msg := m)), r);
      } else {
        BlockOnlyAdds(k1, s);
      }
    }
  }

  /** Slot `i` is given back, and the queues are as in `OnlyAdds`. */
  ghost predicate GoneAndAdds(k: Kernel, l: Kernel, i: Slot) {
    && (forall j: Slot :: Live(l, j) <==> Live(k, j) && j != i)
    && (forall q: Slot, s: Slot :: s in k.procs[q].senders ==> s in l.procs[q].senders)
    && (forall q: Slot, s: Slot :: s in l.procs[q].senders && s != k.cur ==> s in k.procs[q].senders)
    && (forall s: Slot :: k.procs[s].status.sending ==> l.procs[s].status.sending)
  }

  /** What the end of an exit does to free slots and queues, when the slot of `i` is given back. */
  lemma AfterDeathQueues(k: Kernel, i: Slot, status: int)
    requires Registry(k) && Scheduling(k) && Corpse(k, i) && GoneAtExit(k, i)
    ensures GoneAndAdds(k, AfterDeath(k, i, status), i)
  {
    var parent := k.procs[i].parent;
    var p := Pid2Proc(k, parent);
    if parent == NO_PROC || p == -1 {
      ReclaimSlots(k, i);
    } else {
      hide Registry, Scheduling, GoneAndAdds, AfterDeath;
      LookupFinds(k, parent);
      AwaitedQueues(k, p, i, status);
    }
  }

  lemma AwaitedQueues(k: Kernel, p: Slot, i: Slot, status: int)
    requires Registry(k) && Scheduling(k) && Corpse(k, i) && Live(k, p) && Awaited(k, p, i) && p != i
    requires k.procs[i].parent != NO_PROC && Pid2Proc(k, k.procs[i].parent) == p
    ensures GoneAndAdds(k, AfterDeath(k, i, status), i)
  {
    hide Unblock, Send, Registry, Scheduling, OnlyAdds, GoneAndAdds, OnlyUnwaits, Reap, Live;
    var k1 := Put(k, p, k.procs[p].(waitFor := k.procs[i].pid));
    var k2 := Unblock(k1, p, Waiting);
    UnwaitShape(k, p, i, k.procs[i].pid);
    SameLive(k, k1);
    SameSchedule(k, k1);
    UnblockKeeps(k1, p, Waiting);
    var k3 := Reap(k2, p, i, status);
    ReapSchedule(k, k2, p, i, status);
    SendOnlyAdds(k3, k.procs[i].parent, Reply(status));
    Combine(k, k2, k3, AfterDeath(k, i, status), p, i);
  }

  lemma Combine(k: Kernel, k2: Kernel, k3: Kernel, l: Kernel, p: Slot, i: Slot)
    requires OnlyUnwaits(k, k2, p) && OnlyAdds(k3, l) && k3.cur == k2.cur
    requires forall j: Slot :: Live(k3, j) <==> Live(k, j) && j != i
    requires forall j: Slot :: k3.procs[j].senders == k.procs[j].senders
    requires forall j: Slot :: k3.procs[j].status == k2.procs[j].status
    ensures GoneAndAdds(k, l, i)
  {
    assert forall j: Slot :: k2.procs[j].status.sending == k.procs[j].status.sending;
  }

  lemma ReapSchedule(k: Kernel, k2: Kernel, p: Slot, i: Slot, status: int)
    requires Registry(k) && Scheduling(k2) && Corpse(k, i) && OnlyUnwaits(k, k2, p) && p != i
    ensures var k3 := Reap(k2, p, i, status);
      && Scheduling(k3) && k3.cur == k2.cur
      && (forall j: Slot :: Live(k3, j) <==> Live(k, j) && j != i)
      && (forall j: Slot :: k3.procs[j].senders == k.procs[j].senders)
      && (forall j: Slot :: k3.procs[j].status == k2.procs[j].status)
  {
    hide Registry, Scheduling, Reclaim, Reap, Live;
    SameRegistry(k, k2);
    SameLive(k, k2);
    ReclaimSlots(k2, i);
    ReclaimScheduling(k2, i);
    ReclaimRest(k2, i);
    ReapShape(k2, p, i, status);
    SameLive(Reclaim(k2, i), Reap(k2, p, i, status));
    SameSchedule(Reclaim(k2, i), Reap(k2, p, i, status));
  }

  /** Handing over an exit status changes, besides the free slots, the children of one process and the log. */
  lemma ReapShape(k: Kernel, p: Slot, i: Slot, status: int)
    ensures var u, l := Reclaim(k, i), Reap(k, p, i, status);
      && l == u.(procs := l.procs, reaped := l.reaped)
      && forall j: Slot :: l.procs[j] == k.procs[j].(children := l.procs[j].children)
  {
  }

  /** A process stuck in a queue cannot exit: the queue would keep an entry for a process that sends nothing. */
  lemma ExitOfStuckSender(k: Kernel, self: nat, status: int)
    requires Inv(k) && ExitCalled(k, self) && k.procs[Pid2Proc(k, self)].status.sending
    ensures !QueuedSend(Exit(k, self, status))
  {
    var i := Pid2Proc(k, self);
    DieShape(k, i, status);
    var q: Slot :| InQueue(k, q, i);
    QueuedNotSelf(k, q, i);
    DieScheduling(k, i, status);
    DieRegistry(k, i, status);
    hide Inv, Exit, Die;
    StuckAfterDeath(Die(k, i, status), i, q, status);
  }

  lemma QueuedNotSelf(k: Kernel, q: Slot, s: Slot)
    requires QueuedSend(k) && InQueue(k, q, s)
    ensures q != s && Live(k, s) && k.procs[s].status.sending
  {
  }

  lemma StuckAfterDeath(k: Kernel, i: Slot, q: Slot, status: int)
    requires Registry(k) && Scheduling(k) && Corpse(k, i)
    requires InQueue(k, q, i) && q != i
    ensures !QueuedSend(AfterDeath(k, i, status))
  {
    if GoneAtExit(k, i) {
      AfterDeathQueues(k, i, status);
      hide Registry, Scheduling, AfterDeath;
      assert InQueue(AfterDeath(k, i, status), q, i);
    }
  }

  /** Giving a slot back strands everybody who waits in its queue: they are sending, but are in no queue. */
  lemma ExitStrands(k: Kernel, self: nat, status: int)
    requires Inv(k) && ExitCalled(k, self)
    requires var i := Pid2Proc(k, self); GoneAtExit(k, i) && k.procs[i].senders != [] && !k.procs[i].status.sending
    ensures !SendersQueued(Exit(k, self, status))
  {
    var i := Pid2Proc(k, self);
    DieShape(k, i, status);
    ParentFound(k, i);
    DeathKeepsGone(k, i, status);
    DieKeeps(k, i, status);
    var s := k.procs[i].senders[0];
    assert InQueue(k, i, s);
    QueuedNotSelf(k, i, s);
    hide Inv, Exit, Die, Registry, Scheduling, QueuedSend, OneQueue, GoneAndAdds;
    AfterDeathQueues(Die(k, i, status), i, status);
    Stranded(Die(k, i, status), AfterDeath(Die(k, i, status), i, status), i, s);
  }

  lemma DeathKeepsGone(k: Kernel, i: Slot, status: int)
    requires GoneAtExit(k, i) && (k.procs[i].parent != NO_PROC ==> Pid2Proc(k, k.procs[i].parent) != i)
    ensures GoneAtExit(Die(k, i, status), i)
  {
    DieShape(k, i, status);
    var l := Die(k, i, status);
    var parent := k.procs[i].parent;
    FindPidSame(k.procs, l.procs, k.hash[parent % 128], parent);
    hide Die;
  }

  /** Whoever waited in the queue of a slot that is given back is in no queue any more. */
  lemma Stranded(k: Kernel, l: Kernel, i: Slot, s: Slot)
    requires Scheduling(k) && QueuedSend(k) && OneQueue(k) && InQueue(k, i, s) && GoneAndAdds(k, l, i)
    ensures !SendersQueued(l)
  {
    CurNotSending(k);
    QueuedNotSelf(k, i, s);
    OnlyQueue(k, i, s);
    hide Scheduling, QueuedSend, OneQueue;
    forall q: Slot
      ensures !InQueue(l, q, s)
    {
      assert InQueue(l, q, s) ==> InQueue(k, q, s);
    }
  }

  lemma CurNotSending(k: Kernel)
    requires Scheduling(k)
    ensures !k.procs[k.cur].status.sending
  {
  }

  lemma OnlyQueue(k: Kernel, q: Slot, s: Slot)
    requires OneQueue(k) && InQueue(k, q, s)
    ensures forall r: Slot :: InQueue(k, r, s) ==> r == q
  {
  }

  /** Exit keeps the invariant exactly when the process is in no queue and, if it goes at once, nobody is in its own. */
  lemma ExitKeepsExactly(k: Kernel, self: nat, status: int)
    requires Inv(k) && ExitCalled(k, self)
    ensures Inv(Exit(k, self, status)) <==> MayExit(k, Pid2Proc(k, self))
  {
    var i := Pid2Proc(k, self);
    if MayExit(k, i) {
      ExitKeeps(k, self, status);
    } else if k.procs[i].status.sending {
      ExitOfStuckSender(k, self, status);
    } else {
      ExitStrands(k, self, status);
    }
  }

  // ---------------------------------------------------------------- wait

  /** A user process, or the shell, whose wait message the system task, which is running, has received. */
  predicate WaitCalled(k: Kernel, parent: nat) {
    var p := Pid2Proc(k, parent);
    k.cur == TASK_SYS && p != -1 && p != TASK_SYS && p != TASK_IDLE && Alive(k, p)
  }

  /** The dead child that a wait finds, or -1. */
  function FoundByWait(k: Kernel, child: nat, p: Slot): (c: int)
    ensures c != -1 ==> 0 <= c < 128 && c in k.procs[p].children && k.procs[c].status == DEAD
  {
    if k.procs[p].status.waiting then -1
    else
      var c := if child == ANY then FindDead(k.procs, k.procs[p].children) else FindPid(k.procs, k.procs[p].children, child);
      if c != -1 && k.procs[c].status == DEAD then c else -1
  }

  /** What wait needs: nobody is stuck in the queue of the dead child whose slot it gives back. */
  predicate MayWait(k: Kernel, child: nat, p: Slot) {
    var c := FoundByWait(k, child, p);
    c != -1 ==> k.procs[c].senders == []
  }

  lemma SleepShape(k: Kernel, p: Slot, child: nat)
    requires k.procs[p].status.phase != Dead
    ensures var l := SleepFor(k, p, child);
      && SameBoxes(k, l) && SameMail(k, l)
      && l.slots == k.slots && l.hash == k.hash && l.nextPid == k.nextPid && l.reaped == k.reaped
      && (forall j: Slot :: l.procs[j].pid == k.procs[j].pid && l.procs[j].parent == k.procs[j].parent)
      && (forall j: Slot :: l.procs[j].children == k.procs[j].children)
      && (forall q: Slot :: Alive(l, q) <==> Alive(k, q))
      && (forall j: Slot :: j != p ==> l.procs[j] == k.procs[j])
      && l.procs[p].waitFor == child && l.procs[p].status != DEAD
  {
  }

  lemma SleepLosesNothing(k: Kernel, p: Slot, child: nat)
    requires NoLostExit(k) && Alive(k, p)
    requires child == ANY ==> forall c: Slot :: c in k.procs[p].children ==> k.procs[c].status != DEAD
    requires forall c: Slot :: c in k.procs[p].children && k.procs[c].pid == child ==> k.procs[c].status != DEAD
    ensures NoLostExit(SleepFor(k, p, child))
  {
    SleepShape(k, p, child);
    hide SleepFor;
    var l := SleepFor(k, p, child);
    assert forall q: Slot, c: Slot :: ParentOf(l, q, c) <==> ParentOf(k, q, c);
  }

  lemma SleepKeeps(k: Kernel, p: Slot, child: nat)
    requires Inv(k) && Alive(k, p) && p != k.cur && p != TASK_IDLE
    requires child == ANY ==> forall c: Slot :: c in k.procs[p].children ==> k.procs[c].status != DEAD
    requires forall c: Slot :: c in k.procs[p].children && k.procs[c].pid == child ==> k.procs[c].status != DEAD
    ensures Inv(SleepFor(k, p, child))
  {
    var l := SleepFor(k, p, child);
    SleepShape(k, p, child);
    SleepLosesNothing(k, p, child);
    SleepScheduling(k, p, child);
    hide Registry, Scheduling, QueuedSend, OneQueue, SendersQueued, NoMissedSender, NoMissedInterrupt, Histories, Reaped,
      ChildrenKnowParent, ParentKnowsChildren, NoLostExit, SleepFor, SameBoxes, SameMail;
    SameBoxesQueues(k, l);
    UnwaitRegistry(k, l);
    SameMailHistories(k, l);
    StillKnow(k, l);
  }

  lemma StillKnow(k: Kernel, l: Kernel)
    requires ChildrenKnowParent(k) && ParentKnowsChildren(k) && l.slots == k.slots
    requires forall j: Slot :: l.procs[j].pid == k.procs[j].pid && l.procs[j].parent == k.procs[j].parent
    requires forall j: Slot :: l.procs[j].children == k.procs[j].children
    requires forall q: Slot :: Alive(l, q) <==> Alive(k, q)
    ensures ChildrenKnowParent(l) && ParentKnowsChildren(l)
  {
    assert forall q: Slot, c: Slot :: ParentOf(l, q, c) <==> ParentOf(k, q, c);
    forall c: Slot | Live(l, c) && TASK_IDLE < c && l.procs[c].parent != NO_PROC
      ensures exists q: Slot :: ParentOf(l, q, c)
    {
      var q: Slot :| ParentOf(k, q, c);
      assert ParentOf(l, q, c);
    }
  }

  lemma SleepScheduling(k: Kernel, p: Slot, child: nat)
    requires Scheduling(k) && Alive(k, p) && p != k.cur && p != TASK_IDLE
    ensures Scheduling(SleepFor(k, p, child))
  {
    WithoutHas(k.ready, p);
    var l := SleepFor(k, p, child);
    assert forall j: Slot :: j != p ==> l.procs[j] == k.procs[j];
    assert l.procs[p].status.Blocked() && l.procs[p].status.phase == k.procs[p].status.phase;
    assert forall j: Slot :: j in l.ready <==> j in k.ready && j != p;
  }

  lemma CollectKeeps(k: Kernel, p: Slot, c: Slot)
    requires Inv(k) && k.cur == TASK_SYS && p != TASK_SYS && p != TASK_IDLE && ParentOf(k, p, c) && MayReclaim(k, c)
    ensures Inv(Collect(k, p, c))
  {
    ReapKeeps(k, p, c, k.procs[c].exitStatus);
    ReapRest(k, p, c, k.procs[c].exitStatus);
    hide Inv, Send, Reclaim;
    ReplyKeeps(Reap(k, p, c, k.procs[c].exitStatus), p, k.procs[c].exitStatus);
  }

  lemma WaitCollects(k: Kernel, child: nat, p: Slot)
    requires Pid2Proc(k, k.procs[p].pid) == p && FoundByWait(k, child, p) != -1
    ensures Wait(k, child, k.procs[p].pid) == Collect(k, p, FoundByWait(k, child, p))
  {
    hide Send;
  }

  lemma CollectStrands(k: Kernel, p: Slot, c: Slot)
    requires Inv(k) && ParentOf(k, p, c) && Corpse(k, c) && c != p && !k.procs[p].status.waiting && k.procs[c].senders != []
    ensures !SendersQueued(Collect(k, p, c))
  {
    var value := k.procs[c].exitStatus;
    var k3 := Reap(k, p, c, value);
    assert OnlyUnwaits(k, k, p);
    ReapSchedule(k, k, p, c, value);
    hide Registry, Scheduling, OnlyAdds, GoneAndAdds, Reap, Send, QueuedSend, OneQueue, OnlyUnwaits;
    SendOnlyAdds(k3, k.procs[p].pid, Reply(value));
    Combine(k, k, k3, Collect(k, p, c), p, c);
    var s := k.procs[c].senders[0];
    assert InQueue(k, c, s);
    Stranded(k, Collect(k, p, c), c, s);
  }

  /** There is a child to wait for, and none that a wait would find dead. */
  predicate WaitSleeps(k: Kernel, child: nat, p: Slot) {
    && !k.procs[p].status.waiting && k.procs[p].children != []
    && (child == ANY || FindPid(k.procs, k.procs[p].children, child) != -1)
    && FoundByWait(k, child, p) == -1
  }

  lemma WaitOtherwise(k: Kernel, child: nat, p: Slot)
    requires Pid2Proc(k, k.procs[p].pid) == p && FoundByWait(k, child, p) == -1
    ensures Wait(k, child, k.procs[p].pid)
         == if WaitSleeps(k, child, p) then SleepFor(k, p, child) else Send(k, k.procs[p].pid, Reply(-1))
  {
    hide Send, SleepFor;
  }

  lemma WaitFindsNone(k: Kernel, child: nat, p: Slot)
    requires Inv(k) && k.cur == TASK_SYS && p != TASK_SYS && p != TASK_IDLE && Alive(k, p)
    requires Pid2Proc(k, k.procs[p].pid) == p && FoundByWait(k, child, p) == -1
    ensures Inv(Wait(k, child, k.procs[p].pid))
  {
    WaitOtherwise(k, child, p);
    UniqueChild(k, p, child);
    hide Inv, Send, SleepFor, Wait;
    if WaitSleeps(k, child, p) {
      SleepKeeps(k, p, child);
    } else {
      ReplyKeeps(k, p, -1);
    }
  }

  lemma ChildIsCorpse(k: Kernel, p: Slot, c: Slot)
    requires Inv(k) && Alive(k, p) && c in k.procs[p].children && k.procs[c].status == DEAD
    ensures ParentOf(k, p, c) && Corpse(k, c) && c != p
  {
    assert ParentOf(k, p, c);
  }

  /** Wait keeps the invariant exactly when nobody is in the queue of the dead child that it finds, if any. */
  lemma WaitKeepsExactly(k: Kernel, child: nat, parent: nat)
    requires Inv(k) && WaitCalled(k, parent)
    ensures Inv(Wait(k, child, parent)) <==> MayWait(k, child, Pid2Proc(k, parent))
  {
    var p := Pid2Proc(k, parent);
    var c := FoundByWait(k, child, p);
    hide Wait, Collect, Scheduling, Registry, Family, Histories, Reaped, QueuedSend, OneQueue, NoMissedSender, NoMissedInterrupt,
      SendersQueued, FoundByWait;
    if c == -1 {
      WaitFindsNone(k, child, p);
    } else {
      WaitCollects(k, child, p);
      ChildIsCorpse(k, p, c);
      if MayWait(k, child, p) {
        CollectKeeps(k, p, c);
      } else {
        assert !k.procs[p].status.waiting by {
          FoundMeansIdle(k, child, p);
        }
        CollectStrands(k, p, c);
      }
    }
  }

  lemma FoundMeansIdle(k: Kernel, child: nat, p: Slot)
    requires FoundByWait(k, child, p) != -1
    ensures !k.procs[p].status.waiting
  {
  }

  lemma UniqueChild(k: Kernel, p: Slot, child: nat)
    requires Inv(k) && Alive(k, p)
    ensures var f := FindPid(k.procs, k.procs[p].children, child);
      forall c: Slot :: c in k.procs[p].children && k.procs[c].pid == child ==> c == f
  {
    assert forall c: Slot :: ParentOf(k, p, c) <==> c in k.procs[p].children;
  }
}
