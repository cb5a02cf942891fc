/** What holds in every reachable state of the kernel. */
module ProcInv {
  import opened Proc

  predicate NoDup<T(==)>(s: seq<T>) {
    forall i, j :: 0 <= i < j < |s| ==> s[i] != s[j]
  }

  predicate Live(k: Kernel, i: Slot) {
    i !in k.slots
  }

  /** Every slot is either free or in exactly the bucket of its pid, once; live pids are unique. */
  ghost predicate Registry(k: Kernel) {
    && NoDup(k.slots)
    && (forall b :: 0 <= b < 128 ==> NoDup(k.hash[b]))
    && (forall b, i :: 0 <= b < 128 && i in k.hash[b] ==> Live(k, i) && k.procs[i].pid % 128 == b)
    && (forall i: Slot :: Live(k, i) ==> i in k.hash[k.procs[i].pid % 128])
    && (forall i: Slot, j: Slot :: Live(k, i) && Live(k, j) && k.procs[i].pid == k.procs[j].pid ==> i == j)
    && (forall i: Slot :: Live(k, i) ==> k.procs[i].pid < k.nextPid)
    && (forall i: Slot :: i <= TASK_IDLE ==> Live(k, i) && k.procs[i].pid == i)
    && TASK_IDLE < k.nextPid <= NO_PROC
  }

  /**
   * One process runs, and it is the current one; the ready list holds the ready processes, once each;
   * the idle task is always one of those, so there is always something to run.
   */
  ghost predicate Scheduling(k: Kernel) {
    && !k.halted
    && NoDup(k.ready)
    && (forall i: Slot :: i in k.ready <==> Live(k, i) && k.procs[i].status == READY)
    && Live(k, k.cur) && k.procs[k.cur].status == RUNNING
    && (forall i: Slot :: Live(k, i) && k.procs[i].status == RUNNING ==> i == k.cur)
    && !k.procs[TASK_IDLE].status.Blocked()
    && (forall i: Slot :: Live(k, i) ==> k.procs[i].status.phase in {Ready, Running, Dead})
    && (forall i: Slot :: k.procs[i].status.phase == Dead ==> !k.procs[i].status.Blocked())
    && (forall i: Slot :: i <= TASK_IDLE ==> k.procs[i].status.phase != Dead)
  }

  lemma SameLive(k: Kernel, l: Kernel)
    requires l.slots == k.slots
    ensures forall j: Slot :: Live(l, j) <==> Live(k, j)
  {
  }

  /** `s` waits in the queue of `q`. */
  predicate InQueue(k: Kernel, q: Slot, s: Slot) {
    Live(k, q) && s in k.procs[q].senders
  }

  /** Who is in a queue is sending and does nothing else, and is in there once. */
  ghost predicate QueuedSend(k: Kernel) {
    && (forall q: Slot :: Live(k, q) ==> NoDup(k.procs[q].senders))
    && (forall q: Slot, s: Slot :: InQueue(k, q, s) ==>
          s != q && Live(k, s) && k.procs[s].status.sending && !k.procs[s].status.receiving)
  }

  /** Nobody is in two queues. */
  ghost predicate OneQueue(k: Kernel) {
    forall q: Slot, r: Slot, s: Slot :: InQueue(k, q, s) && InQueue(k, r, s) ==> q == r
  }

  /** Who is sending is in a queue. */
  ghost predicate SendersQueued(k: Kernel) {
    forall s: Slot :: Live(k, s) && k.procs[s].status.sending ==> exists q: Slot :: InQueue(k, q, s)
  }

  /** Nobody waits in the queue of a process that would take the message. */
  ghost predicate NoMissedSender(k: Kernel) {
    forall q: Slot, s: Slot :: InQueue(k, q, s) ==> !Accepts(k.procs[q], k.procs[s].pid)
  }

  /** No process that waits for interrupts has one pending. */
  ghost predicate NoMissedInterrupt(k: Kernel) {
    forall q: Slot :: Live(k, q) && k.procs[q].status.receiving && k.procs[q].hasIntrMsg ==>
      k.procs[q].recvfrom != ANY && k.procs[q].recvfrom != INTERRUPT
  }

  /** A sender waits in exactly one queue, once, and never in that of a process that would take its message. */
  ghost predicate Queues(k: Kernel) {
    QueuedSend(k) && OneQueue(k) && SendersQueued(k) && NoMissedSender(k) && NoMissedInterrupt(k)
  }

  predicate Alive(k: Kernel, p: Slot) {
    Live(k, p) && k.procs[p].status.phase != Dead
  }

  /** `c` is on the children list of `p`, which has not exited. */
  predicate ParentOf(k: Kernel, p: Slot, c: Slot) {
    Alive(k, p) && c in k.procs[p].children
  }

  /** On a children list there are existing user processes, once each, that name the list's owner as parent. */
  ghost predicate ChildrenKnowParent(k: Kernel) {
    && (forall p: Slot :: Alive(k, p) ==> NoDup(k.procs[p].children))
    && (forall p: Slot, c: Slot :: ParentOf(k, p, c) ==>
          Live(k, c) && TASK_IDLE < c && c != p && k.procs[c].parent == k.procs[p].pid && p != TASK_SYS && p != TASK_IDLE)
  }

  /** A user process that is no orphan is on a children list. */
  ghost predicate ParentKnowsChildren(k: Kernel) {
    forall c: Slot :: Live(k, c) && TASK_IDLE < c && k.procs[c].parent != NO_PROC ==> exists p: Slot :: ParentOf(k, p, c)
  }

  /** A process that waits has no dead child of the kind it waits for. */
  ghost predicate NoLostExit(k: Kernel) {
    forall p: Slot, c: Slot :: ParentOf(k, p, c) && k.procs[p].status.waiting && k.procs[c].status == DEAD ==>
      k.procs[p].waitFor != ANY && k.procs[p].waitFor != k.procs[c].pid
  }

  ghost predicate Family(k: Kernel) {
    ChildrenKnowParent(k) && ParentKnowsChildren(k) && NoLostExit(k)
  }

  /** The messages on a log from `a` to `b`, in order. */
  function Between(log: seq<Letter>, a: nat, b: nat): seq<Message> {
    if log == [] then []
    else
      var l := log[|log| - 1];
      Between(log[..|log| - 1], a, b) + if l.from == a && l.to == b then [l.msg] else []
  }

  /** The message from `a` that waits in the queue of `b`, if there is one. */
  function Outstanding(k: Kernel, a: nat, b: nat): seq<Message> {
    var q := Pid2Proc(k, b);
    var s := if q == -1 then -1 else FindPid(k.procs, k.procs[q].senders, a);
    if s == -1 then [] else [k.procs[s].msg]
  }

  /** Everything sent has been received in order, but for at most one message that waits; all are signed. */
  ghost predicate Histories(k: Kernel) {
    && (forall l :: l in k.sent ==> l.from < k.nextPid && l.to < k.nextPid && l.msg.source == l.from)
    && (forall l :: l in k.received ==> l.from < k.nextPid && l.to < k.nextPid)
    && (forall a: nat, b: nat :: Between(k.sent, a, b) == Between(k.received, a, b) + Outstanding(k, a, b))
  }

  /** An exit status is handed over at most once, and only when the child is gone. */
  ghost predicate Reaped(k: Kernel) {
    && (forall n :: n in k.reaped ==> n.child < k.nextPid)
    && (forall n, i: Slot :: n in k.reaped && Live(k, i) ==> k.procs[i].pid != n.child)
    && (forall i, j :: 0 <= i < j < |k.reaped| ==> k.reaped[i].child != k.reaped[j].child)
  }

  ghost predicate Inv(k: Kernel) {
    Registry(k) && Scheduling(k) && Queues(k) && Family(k) && Histories(k) && Reaped(k)
  }

  // ---------------------------------------------------------------- lookups

  /** A lookup by pid finds exactly the live process that has the pid. */
  lemma LookupFinds(k: Kernel, pid: nat)
    requires Registry(k)
    ensures var i := Pid2Proc(k, pid);
      if i == -1 then forall j: Slot :: Live(k, j) ==> k.procs[j].pid != pid
      else Live(k, i) && k.procs[i].pid == pid && forall j: Slot :: Live(k, j) && k.procs[j].pid == pid ==> j == i
  {
  }

  lemma WithoutHas<T>(s: seq<T>, x: T)
    requires NoDup(s)
    ensures NoDup(Without(s, x))
    ensures forall y :: y in Without(s, x) <==> y in s && y != x
  {
    if s == [] || s[0] == x {
    } else {
      WithoutHas(s[1..], x);
      assert s[0] !in s[1..];
    }
  }

  // ---------------------------------------------------------------- scheduling

  /** The same process, but for being ready rather than running or the other way round. */
  predicate SameBut(p: Pcb, q: Pcb) {
    && q.pid == p.pid && q.msg == p.msg && q.recvfrom == p.recvfrom && q.hasIntrMsg == p.hasIntrMsg
    && q.senders == p.senders && q.children == p.children && q.parent == p.parent && q.waitFor == p.waitFor
    && q.exitStatus == p.exitStatus
    && q.status.sending == p.status.sending && q.status.receiving == p.status.receiving
    && q.status.waiting == p.status.waiting
    && (q.status.phase == Dead <==> p.status.phase == Dead)
  }

  /** The same slots are taken, by the same processes. */
  ghost predicate SameProcs(k: Kernel, l: Kernel) {
    l.slots == k.slots && forall i: Slot :: SameBut(k.procs[i], l.procs[i])
  }

  /** The same process as far as messages go. */
  predicate SameBox(p: Pcb, q: Pcb) {
    && q.pid == p.pid && q.recvfrom == p.recvfrom && q.hasIntrMsg == p.hasIntrMsg && q.senders == p.senders
    && q.status.sending == p.status.sending && q.status.receiving == p.status.receiving
  }

  ghost predicate SameBoxes(k: Kernel, l: Kernel) {
    l.slots == k.slots && forall i: Slot :: SameBox(k.procs[i], l.procs[i])
  }

  lemma SameProcsBoxes(k: Kernel, l: Kernel)
    requires SameProcs(k, l)
    ensures SameBoxes(k, l)
  {
    assert forall i: Slot :: SameBut(k.procs[i], l.procs[i]);
  }

  /** The two states differ at most in who is ready and who is running. */
  ghost predicate SameCore(k: Kernel, l: Kernel) {
    && SameProcs(k, l)
    && l.hash == k.hash && l.nextPid == k.nextPid
    && l.sent == k.sent && l.received == k.received && l.reaped == k.reaped
  }

  /** The two states have the same processes in the same families. */
  ghost predicate SameFamilies(k: Kernel, l: Kernel) {
    && l.slots == k.slots && l.hash == k.hash && l.nextPid == k.nextPid && l.reaped == k.reaped
    && forall i: Slot ::
         var p, q := k.procs[i], l.procs[i];
         && q.pid == p.pid && q.children == p.children && q.parent == p.parent && q.waitFor == p.waitFor
         && q.status.waiting == p.status.waiting
         && (q.status == DEAD <==> p.status == DEAD) && (q.status.phase == Dead <==> p.status.phase == Dead)
  }

  lemma SameCoreFamilies(k: Kernel, l: Kernel)
    requires SameCore(k, l)
    requires forall i: Slot :: k.procs[i].status.phase == Dead ==> !k.procs[i].status.Blocked()
    ensures SameFamilies(k, l)
  {
    assert forall i: Slot :: SameBut(k.procs[i], l.procs[i]);
  }

  lemma SameFamiliesKeep(k: Kernel, l: Kernel)
    requires SameFamilies(k, l) && Registry(k) && Family(k) && Reaped(k)
    ensures Registry(l) && Family(l) && Reaped(l)
  {
    hide ChildrenKnowParent, ParentKnowsChildren, NoLostExit, Registry;
    SameFamiliesRegistry(k, l);
    SameFamiliesChildrenKnowParent(k, l);
    SameFamiliesParentKnowsChildren(k, l);
    SameFamiliesNoLostExit(k, l);
  }

  lemma SameBoxesQueuedSend(k: Kernel, l: Kernel)
    requires SameBoxes(k, l) && QueuedSend(k)
    ensures QueuedSend(l)
  {
    assert forall i: Slot :: SameBox(k.procs[i], l.procs[i]);
    assert forall q: Slot, s: Slot :: InQueue(l, q, s) ==> InQueue(k, q, s);
  }

  lemma SameBoxesOneQueue(k: Kernel, l: Kernel)
    requires SameBoxes(k, l) && OneQueue(k)
    ensures OneQueue(l)
  {
    assert forall i: Slot :: SameBox(k.procs[i], l.procs[i]);
    assert forall q: Slot, s: Slot :: InQueue(l, q, s) ==> InQueue(k, q, s);
  }

  lemma SameBoxesSendersQueued(k: Kernel, l: Kernel)
    requires SameBoxes(k, l) && SendersQueued(k)
    ensures SendersQueued(l)
  {
    assert forall i: Slot :: SameBox(k.procs[i], l.procs[i]);
    forall s: Slot | Live(l, s) && l.procs[s].status.sending
      ensures exists q: Slot :: InQueue(l, q, s)
    {
      var q: Slot :| InQueue(k, q, s);
      assert InQueue(l, q, s);
    }
  }

  lemma SameBoxesNoMissedSender(k: Kernel, l: Kernel)
    requires SameBoxes(k, l) && NoMissedSender(k)
    ensures NoMissedSender(l)
  {
    assert forall i: Slot :: SameBox(k.procs[i], l.procs[i]);
    assert forall q: Slot, s: Slot :: InQueue(l, q, s) ==> InQueue(k, q, s);
  }

  lemma SameBoxesNoMissedInterrupt(k: Kernel, l: Kernel)
    requires SameBoxes(k, l) && NoMissedInterrupt(k)
    ensures NoMissedInterrupt(l)
  {
    assert forall i: Slot :: SameBox(k.procs[i], l.procs[i]);
  }

  lemma SameFamiliesRegistry(k: Kernel, l: Kernel)
    requires SameFamilies(k, l) && Registry(k)
    ensures Registry(l)
  {
    assert forall i: Slot :: l.procs[i].pid == k.procs[i].pid && (Live(l, i) <==> Live(k, i));
  }

  lemma SameFamiliesChildrenKnowParent(k: Kernel, l: Kernel)
    requires SameFamilies(k, l) && ChildrenKnowParent(k)
    ensures ChildrenKnowParent(l)
  {
    assert forall p: Slot, c: Slot :: ParentOf(l, p, c) ==> ParentOf(k, p, c);
  }

  lemma SameFamiliesParentKnowsChildren(k: Kernel, l: Kernel)
    requires SameFamilies(k, l) && ParentKnowsChildren(k)
    ensures ParentKnowsChildren(l)
  {
    forall c: Slot | Live(l, c) && TASK_IDLE < c && l.procs[c].parent != NO_PROC
      ensures exists p: Slot :: ParentOf(l, p, c)
    {
      var p: Slot :| ParentOf(k, p, c);
      assert ParentOf(l, p, c);
    }
  }

  lemma SameFamiliesNoLostExit(k: Kernel, l: Kernel)
    requires SameFamilies(k, l) && NoLostExit(k)
    ensures NoLostExit(l)
  {
    assert forall p: Slot, c: Slot :: ParentOf(l, p, c) ==> ParentOf(k, p, c);
  }

  lemma SameBoxesQueues(k: Kernel, l: Kernel)
    requires SameBoxes(k, l) && Queues(k)
    ensures Queues(l)
  {
    hide QueuedSend, OneQueue, SendersQueued, NoMissedSender, NoMissedInterrupt, SameBoxes;
    SameBoxesQueuedSend(k, l);
    SameBoxesOneQueue(k, l);
    SameBoxesSendersQueued(k, l);
    SameBoxesNoMissedSender(k, l);
    SameBoxesNoMissedInterrupt(k, l);
  }

  /** As in `Scheduling`, but the current process may just have been blocked. */
  ghost predicate Stopping(k: Kernel) {
    && !k.halted
    && NoDup(k.ready)
    && (forall i: Slot :: i in k.ready <==> Live(k, i) && k.procs[i].status == READY)
    && Live(k, k.cur) && k.procs[k.cur].status.phase == Running
    && (k.procs[k.cur].status.Blocked() ==> k.cur != TASK_IDLE)
    && (forall i: Slot :: Live(k, i) && k.procs[i].status == RUNNING ==> i == k.cur)
    && !k.procs[TASK_IDLE].status.Blocked()
    && (forall i: Slot :: Live(k, i) ==> k.procs[i].status.phase in {Ready, Running, Dead})
    && (forall i: Slot :: k.procs[i].status.phase == Dead ==> !k.procs[i].status.Blocked())
    && (forall i: Slot :: i <= TASK_IDLE ==> Live(k, i) && k.procs[i].status.phase != Dead)
  }

  /** What `Schedule` needs before it picks the next process. */
  ghost predicate Picking(k: Kernel) {
    && !k.halted
    && NoDup(k.ready)
    && (forall i: Slot :: i in k.ready <==> Live(k, i) && k.procs[i].status == READY)
    && (forall i: Slot :: Live(k, i) ==> k.procs[i].status != RUNNING)
    && !k.procs[TASK_IDLE].status.Blocked()
    && (forall i: Slot :: Live(k, i) ==> k.procs[i].status.phase in {Ready, Running, Dead})
    && (forall i: Slot :: k.procs[i].status.phase == Dead ==> !k.procs[i].status.Blocked())
    && (forall i: Slot :: i <= TASK_IDLE ==> Live(k, i) && k.procs[i].status.phase != Dead)
  }

  lemma PopReadyKeeps(k: Kernel)
    requires Picking(k)
    ensures Scheduling(PopReady(k)) && SameCore(k, PopReady(k))
  {
    var idle: Slot := TASK_IDLE;
    assert Live(k, idle) && k.procs[idle].status == READY;
    assert idle in k.ready;
    var l := PopReady(k);
    assert forall i: Slot :: i in k.ready <==> i == k.ready[0] || i in l.ready;
  }

  lemma MakeReadyPicks(k: Kernel)
    requires Stopping(k) && k.procs[k.cur].status == RUNNING
    ensures Picking(MakeReady(k, k.cur)) && SameCore(k, MakeReady(k, k.cur))
  {
    var l := MakeReady(k, k.cur);
    assert forall i: Slot :: i in l.ready <==> i in k.ready || i == k.cur;
  }

  lemma ScheduleKeeps(k: Kernel)
    requires Stopping(k)
    ensures Scheduling(Schedule(k)) && SameCore(k, Schedule(k))
  {
    hide PopReady, MakeReady, Picking, SameBut;
    if k.procs[k.cur].status == RUNNING {
      MakeReadyPicks(k);
      PopReadyKeeps(MakeReady(k, k.cur));
      SameCoreTransitive(k, MakeReady(k, k.cur), Schedule(k));
    } else {
      StoppedPicks(k);
      PopReadyKeeps(k);
    }
  }

  lemma StoppedPicks(k: Kernel)
    requires Stopping(k) && k.procs[k.cur].status != RUNNING
    ensures Picking(k)
  {
  }

  lemma SameCoreTransitive(k: Kernel, l: Kernel, m: Kernel)
    requires SameCore(k, l) && SameCore(l, m)
    ensures SameCore(k, m)
  {
    forall i: Slot
      ensures SameBut(k.procs[i], m.procs[i])
    {
      assert SameBut(k.procs[i], l.procs[i]) && SameBut(l.procs[i], m.procs[i]);
    }
  }

  /** A blocked process of which one reason to be blocked goes away, while another stays. */
  lemma StillBlocked(k: Kernel, i: Slot, t: Status)
    requires Scheduling(k) && Live(k, i) && k.procs[i].status.Blocked()
    requires t.Blocked() && t.phase == k.procs[i].status.phase
    ensures Scheduling(SetStatus(k, i, t))
  {
    var l := SetStatus(k, i, t);
    assert forall j: Slot :: j != i ==> l.procs[j] == k.procs[j];
  }

  lemma NowReady(k: Kernel, i: Slot)
    requires Scheduling(k) && Live(k, i) && k.procs[i].status.Blocked()
    ensures Scheduling(MakeReady(k, i))
  {
    var l := MakeReady(k, i);
    assert i !in k.ready && i != k.cur;
    assert forall j: Slot :: j != i ==> l.procs[j] == k.procs[j];
    assert forall j: Slot :: j in l.ready <==> j in k.ready || j == i;
  }

  lemma UnblockKeeps(k: Kernel, i: Slot, reason: Reason)
    requires Scheduling(k) && Live(k, i)
    requires With(k.procs[i].status, reason, true) == k.procs[i].status
    ensures Scheduling(Unblock(k, i, reason))
    ensures SameCore(SetStatus(k, i, With(k.procs[i].status, reason, false)), Unblock(k, i, reason))
  {
    var t := With(k.procs[i].status, reason, false);
    var u, l := SetStatus(k, i, t), Unblock(k, i, reason);
    assert k.procs[i].status.Blocked();
    if t.Blocked() {
      StillBlocked(k, i, t);
    } else {
      NowReady(k, i);
    }
    assert SameBut(u.procs[i], l.procs[i]) by {
      BlockedAlive(k, i);
    }
    assert forall j: Slot :: j != i ==> l.procs[j] == u.procs[j];
  }

  lemma BlockedAlive(k: Kernel, i: Slot)
    requires Scheduling(k) && Live(k, i) && k.procs[i].status.Blocked()
    ensures k.procs[i].status.phase in {Ready, Running} && i !in k.ready && i != k.cur
  {
  }

  lemma CurRuns(k: Kernel)
    requires Scheduling(k)
    ensures k.procs[k.cur].status == RUNNING && Live(k, k.cur) && k.cur !in k.ready
  {
  }

  lemma BlockedStops(k: Kernel, reason: Reason)
    requires Scheduling(k) && k.cur != TASK_IDLE
    requires forall i: Slot :: i <= TASK_IDLE ==> Live(k, i)
    ensures Stopping(SetStatus(k, k.cur, With(k.procs[k.cur].status, reason, true)))
  {
    var l := SetStatus(k, k.cur, With(k.procs[k.cur].status, reason, true));
    assert forall i: Slot :: i != k.cur ==> l.procs[i] == k.procs[i];
    assert l.procs[k.cur].status.phase == Running && l.procs[k.cur].status.Blocked();
  }

  lemma BlockKeeps(k: Kernel, reason: Reason)
    requires Scheduling(k) && k.cur != TASK_IDLE
    requires forall i: Slot :: i <= TASK_IDLE ==> Live(k, i)
    ensures Scheduling(Block(k, k.cur, reason))
    ensures SameCore(SetStatus(k, k.cur, With(k.procs[k.cur].status, reason, true)), Block(k, k.cur, reason))
  {
    hide Schedule, SameBut, Stopping, Scheduling;
    BlockedStops(k, reason);
    ScheduleKeeps(SetStatus(k, k.cur, With(k.procs[k.cur].status, reason, true)));
    assert k.procs[k.cur].status == RUNNING by {
      CurRuns(k);
    }
  }
}
