/** What becomes of exit statuses: each that is handed over is the one its process exited with, and its parent is told. */
module ProcReport {
  import opened Proc
  import opened ProcInv
  import opened ProcIpc
  import opened ProcSteps
  import opened ProcLife
  import opened ProcExit
  import opened ProcRun

  /** Event `j` of a run was the exec with which `parent` started `child`. */
  predicate StartedAt(es: seq<Event>, j: nat, child: nat, parent: nat)
    requires j < |es|
  {
    var k := Run(Initial(), es[..j]);
    es[j] == Exec(parent, true) && k.nextPid == child && k.slots != []
  }

  /** `parent` started `child`. */
  ghost predicate Started(es: seq<Event>, child: nat, parent: nat) {
    exists j: nat :: j < |es| && StartedAt(es, j, child, parent)
  }

  /** Every user process that is no orphan names the process that started it as its parent. */
  ghost predicate TrueParents(k: Kernel, es: seq<Event>) {
    forall i: Slot :: Live(k, i) && TASK_IDLE < i && k.procs[i].parent != NO_PROC ==>
      Started(es, k.procs[i].pid, k.procs[i].parent)
  }

  /**
   * Every exit status, handed over or waiting with a dead process, is the one of an exit; it is handed over to the
   * process that started the one that exited.
   */
  ghost predicate Reported(k: Kernel, es: seq<Event>) {
    && TrueParents(k, es)
    && (forall n :: n in k.reaped ==> ExitOf(n.child, n.status) in es && Started(es, n.child, n.parent))
    && (forall i: Slot :: k.procs[i].status.phase == Dead ==> ExitOf(k.procs[i].pid, k.procs[i].exitStatus) in es)
  }

  /** Nobody is new, and nobody gets another parent. */
  ghost predicate Kin(k: Kernel, l: Kernel) {
    forall i: Slot :: Live(l, i) ==>
      Live(k, i) && l.procs[i].pid == k.procs[i].pid && (l.procs[i].parent == k.procs[i].parent || l.procs[i].parent == NO_PROC)
  }

  /** Nobody starts or dies, and the dead stay as they are; nothing sent is unsent. */
  ghost predicate Still(k: Kernel, l: Kernel) {
    && Kin(k, l) && Undisturbed(k, l)
  }

  ghost predicate Undisturbed(k: Kernel, l: Kernel) {
    && l.reaped == k.reaped && (forall x :: x in k.sent ==> x in l.sent)
    && forall i: Slot :: l.procs[i].status.phase == Dead ==>
         k.procs[i].status.phase == Dead && l.procs[i].pid == k.procs[i].pid && l.procs[i].exitStatus == k.procs[i].exitStatus
  }

  /** The same processes with the same parents, and nobody has died; nothing is sent. */
  ghost predicate Near(k: Kernel, l: Kernel) {
    && l.slots == k.slots && l.reaped == k.reaped && l.sent == k.sent
    && forall i: Slot :: NearPcb(k.procs[i], l.procs[i])
  }

  predicate NearPcb(p: Pcb, q: Pcb) {
    q.pid == p.pid && q.parent == p.parent && q.exitStatus == p.exitStatus && (q.status.phase == Dead ==> p.status.phase == Dead)
  }

  lemma NearStill(k: Kernel, k1: Kernel, l: Kernel)
    requires Near(k1, l) && Near(k, k1.(sent := k.sent)) && forall x :: x in k.sent ==> x in k1.sent
    ensures Still(k, l)
  {
    assert forall i: Slot :: NearPcb(k.procs[i], k1.procs[i]) && NearPcb(k1.procs[i], l.procs[i]);
  }

  lemma NearBoth(k: Kernel, l: Kernel, m: Kernel)
    requires Near(k, l) && Near(l, m)
    ensures Near(k, m)
  {
    assert forall i: Slot :: NearPcb(k.procs[i], l.procs[i]) && NearPcb(l.procs[i], m.procs[i]);
  }

  lemma NearSchedule(k: Kernel)
    ensures Near(k, Schedule(k))
  {
    hide Near;
    var k1 := if k.procs[k.cur].status == RUNNING then MakeReady(k, k.cur) else k;
    NearReady(k, k.cur);
    NearPop(k1);
    NearSelf(k);
    NearBoth(k, k1, Schedule(k));
  }

  lemma NearSelf(k: Kernel)
    ensures Near(k, k)
  {
  }

  lemma NearReady(k: Kernel, i: Slot)
    ensures Near(k, MakeReady(k, i))
  {
  }

  lemma NearPop(k: Kernel)
    ensures Near(k, PopReady(k))
  {
  }

  lemma NearBlock(k: Kernel, i: Slot, reason: Reason)
    ensures Near(k, Block(k, i, reason))
  {
    hide Schedule;
    var k1 := SetStatus(k, i, With(k.procs[i].status, reason, true));
    assert Near(k, k1);
    NearSchedule(k1);
    NearBoth(k, k1, Schedule(k1));
  }

  lemma NearUnblock(k: Kernel, i: Slot, reason: Reason)
    ensures Near(k, Unblock(k, i, reason))
  {
  }

  lemma StillSchedule(k: Kernel)
    ensures Still(k, Schedule(k))
  {
    hide Near, Still, Schedule;
    NearSchedule(k);
    NearSelf(k);
    NearStill(k, k, Schedule(k));
  }

  lemma StillBlock(k: Kernel, i: Slot, reason: Reason)
    ensures Still(k, Block(k, i, reason))
  {
    hide Near, Still, Block;
    NearBlock(k, i, reason);
    NearSelf(k);
    NearStill(k, k, Block(k, i, reason));
  }

  lemma StillUnblock(k: Kernel, i: Slot, reason: Reason)
    ensures Still(k, Unblock(k, i, reason))
  {
    hide Near, Still, Unblock;
    NearUnblock(k, i, reason);
    NearSelf(k);
    NearStill(k, k, Unblock(k, i, reason));
  }

  /** The same processes with the same parents. */
  ghost predicate Alike(k: Kernel, l: Kernel) {
    l.slots == k.slots && forall i: Slot :: l.procs[i].pid == k.procs[i].pid && l.procs[i].parent == k.procs[i].parent
  }

  lemma KinAlike(k: Kernel, k1: Kernel, l1: Kernel, l: Kernel)
    requires Alike(k, k1) && Kin(k1, l1) && Alike(l1, l)
    ensures Kin(k, l)
  {
    assert forall i: Slot :: (Live(l, i) ==> Live(l1, i)) && (Live(k1, i) ==> Live(k, i));
  }

  /** A send puts the letter on the record, if there is such a receiver. */
  lemma StillSend(k: Kernel, dest: nat, msg: Message)
    ensures Still(k, Send(k, dest, msg))
    ensures Pid2Proc(k, dest) != -1 ==>
      Letter(k.procs[k.cur].pid, dest, msg.(source := k.procs[k.cur].pid)) in Send(k, dest, msg).sent
  {
    hide Block, Unblock, Still, Near;
    var s, r := k.cur, Pid2Proc(k, dest);
    if r != -1 {
      var m := msg.(source := k.procs[s].pid);
      var x := Letter(k.procs[s].pid, dest, m);
      var k1 := Put(k, s, k.procs[s].(msg := m)).(sent := k.sent + [x]);
      NearMessage(k, s, m, k.sent + [x]);
      var l := Send(k, dest, msg);
      if Accepts(k1.procs[r], k.procs[s].pid) {
        var k2 := Put(k1, r, k1.procs[r].(msg := m));
        NearMessage(k1, r, m, k1.sent);
        NearUnblock(k2, r, Receiving);
        NearBoth(k1, k2, Unblock(k2, r, Receiving));
        NearRecords(k1, Unblock(k2, r, Receiving), l);
      } else {
        NearBlock(k1, s, Sending);
        NearRecords(k1, Block(k1, s, Sending), l);
      }
      NearStill(k, k1, l);
      SentStays(k1, l, x);
    } else {
      StillSame(k);
    }
  }

  lemma NearMessage(k: Kernel, i: Slot, m: Message, sent: seq<Letter>)
    ensures var k1 := Put(k, i, k.procs[i].(msg := m)).(sent := sent); Near(k, k1.(sent := k.sent))
  {
  }

  lemma NearRecords(k: Kernel, l: Kernel, m: Kernel)
    requires Near(k, l) && m == l.(procs := m.procs, received := m.received)
    requires forall j: Slot :: m.procs[j] == l.procs[j].(senders := m.procs[j].senders)
    ensures Near(k, m)
  {
    assert forall j: Slot :: NearPcb(k.procs[j], l.procs[j]);
  }

  lemma SentStays(k: Kernel, l: Kernel, x: Letter)
    requires Near(k, l) && k.sent != [] && k.sent[|k.sent| - 1] == x
    ensures x in l.sent
  {
  }

  lemma StillIntr(k: Kernel, dest: nat)
    ensures Still(k, IntrSend(k, dest))
  {
    hide Unblock;
    var r := Pid2Proc(k, dest);
    if r != -1 {
      var p := k.procs[r];
      StillUnblock(Put(k, r, p.(hasIntrMsg := false, msg := p.msg.(source := INTERRUPT, kind := HARD_INT))), r, Receiving);
    }
  }

  lemma {:induction false} StillIntrAll(k: Kernel, dests: seq<nat>)
    ensures Still(k, IntrSendAll(k, dests))
  {
    hide IntrSend;
    if dests == [] {
    } else {
      StillIntrAll(k, dests[..|dests| - 1]);
      StillIntr(IntrSendAll(k, dests[..|dests| - 1]), dests[|dests| - 1]);
    }
  }

  lemma StillListen(k: Kernel, src: nat, window: seq<nat>)
    ensures Still(k, Listen(k, src, window))
  {
    hide Block, IntrSendAll;
    StillIntrAll(k, window);
    var r, k1 := k.cur, IntrSendAll(k, window);
    StillBlock(Put(k1, r, k1.procs[r].(recvfrom := src)), r, Receiving);
  }

  lemma StillPickUp(k: Kernel, s: Slot)
    ensures Still(k, PickUp(k, s))
  {
    hide Unblock;
    var r := k.cur;
    var k1 := Put(k, r, k.procs[r].(senders := Without(k.procs[r].senders, s), msg := k.procs[s].msg));
    StillUnblock(k1, s, Sending);
    KinAlike(k, k1, Unblock(k1, s, Sending), PickUp(k, s));
  }

  lemma StillReceive(k: Kernel, src: nat, buf: Message, window: seq<nat>)
    ensures Still(k, Receive(k, src, buf, window))
  {
    hide Listen, PickUp;
    var k1 := Put(k, k.cur, k.procs[k.cur].(msg := buf));
    StillListen(k1, src, window);
    BufferStill(k, k1, Listen(k1, src, window));
    if PickSender(k1, k.cur, src) != -1 {
      StillPickUp(k1, PickSender(k1, k.cur, src));
      BufferStill(k, k1, PickUp(k1, PickSender(k1, k.cur, src)));
    }
    StillTake(k1);
    BufferStill(k, k1, k1);
    BufferStill(k, k1, TakeIntr(k1, k.cur));
    hide Still;
  }

  lemma StillTake(k: Kernel)
    ensures Still(k, k) && Still(k, TakeIntr(k, k.cur))
  {
  }

  lemma BufferStill(k: Kernel, k1: Kernel, l: Kernel)
    requires k1 == Put(k, k.cur, k.procs[k.cur].(msg := k1.procs[k.cur].msg)) && Still(k1, l)
    ensures Still(k, l)
  {
    KinAlike(k, k1, l, l);
  }

  lemma UndisturbedExecute(k: Kernel, parent: nat, hasMemory: bool)
    ensures Undisturbed(k, Execute(k, parent, hasMemory))
  {
  }

  lemma StillReclaim(k: Kernel, i: Slot)
    ensures Still(k, Reclaim(k, i))
  {
  }

  lemma StillSleep(k: Kernel, p: Slot, child: nat)
    ensures Still(k, SleepFor(k, p, child))
  {
  }

  /** Handing a status over is the only way onto the list of those. */
  lemma StillReap(k: Kernel, p: Slot, i: Slot, status: int)
    ensures var l := Reap(k, p, i, status);
      l.reaped == k.reaped + [Notice(k.procs[i].pid, k.procs[p].pid, status)] && Still(k, l.(reaped := k.reaped))
  {
  }

  /** Between the two states at most the status of `i` was handed over, to its parent, and then the parent was told. */
  ghost predicate HandsOver(k: Kernel, l: Kernel, i: Slot, status: int) {
    var n := Notice(k.procs[i].pid, k.procs[i].parent, status);
    && Still(k, l.(reaped := k.reaped))
    && (l.reaped == k.reaped || (n.parent != NO_PROC && l.reaped == k.reaped + [n] && Told(l, n)))
  }

  /** The system task has sent the one it was handed over to a message with the exit status as its first parameter. */
  predicate Told(k: Kernel, n: Notice) {
    Letter(TASK_SYS, n.parent, Message(TASK_SYS, 0, n.status, 0, 0, 0)) in k.sent
  }

  /** The end of handing a status over: the reply. */
  lemma ReplyTells(k: Kernel, p: Slot, child: nat, status: int)
    requires Inv(k) && k.cur == TASK_SYS && Live(k, p)
    ensures var l := Send(k, k.procs[p].pid, Reply(status));
      Still(k, l) && Told(l, Notice(child, k.procs[p].pid, status))
  {
    LookupFinds(k, k.procs[p].pid);
    assert Live(k, k.cur) && k.procs[k.cur].pid == TASK_SYS;
    hide Inv, Send, Still;
    StillSend(k, k.procs[p].pid, Reply(status));
  }

  lemma HandedOver(k: Kernel, k2: Kernel, k3: Kernel, l: Kernel, i: Slot, status: int)
    requires Still(k, k2) && Still(k2, k3.(reaped := k2.reaped)) && Still(k3, l) && k.procs[i].parent != NO_PROC
    requires var n := Notice(k.procs[i].pid, k.procs[i].parent, status); k3.reaped == k2.reaped + [n] && Told(l, n)
    ensures HandsOver(k, l, i, status)
  {
    hide Kin, Told;
    KinSame(k2, k3, k3.(reaped := k2.reaped));
    KinTransitive(k, k2, k3);
    KinTransitive(k, k3, l);
    KinSame(k, l, l.(reaped := k.reaped));
  }

  lemma KinTransitive(k: Kernel, l: Kernel, m: Kernel)
    requires Kin(k, l) && Kin(l, m)
    ensures Kin(k, m)
  {
  }

  /** Kinship does not depend on what was handed over. */
  lemma KinSame(k: Kernel, l: Kernel, m: Kernel)
    requires m.procs == l.procs && m.slots == l.slots
    ensures Kin(k, m) <==> Kin(k, l)
  {
  }

  lemma NothingHandedOver(k: Kernel, l: Kernel, i: Slot, status: int)
    requires Still(k, l)
    ensures HandsOver(k, l, i, status)
  {
  }

  lemma StillSame(k: Kernel)
    ensures Still(k, k)
  {
  }

  /** The parent stops waiting. */
  lemma StillUnwait(k: Kernel, p: Slot, self: nat)
    ensures Still(k, Unblock(Put(k, p, k.procs[p].(waitFor := self)), p, Waiting))
  {
  }

  lemma AfterDeathHandsOver(k: Kernel, i: Slot, status: int)
    requires InvBut(k, i) && Live(k, i) && k.procs[i].status == DEAD && TASK_IDLE < i && k.cur == TASK_SYS
    requires GoneAtExit(k, i) ==> k.procs[i].senders == []
    ensures HandsOver(k, AfterDeath(k, i, status), i, status)
  {
    ParentFound(k, i);
    var parent := k.procs[i].parent;
    var p := Pid2Proc(k, parent);
    if parent == NO_PROC {
      hide InvBut, Reclaim, Still, HandsOver;
      StillReclaim(k, i);
      NothingHandedOver(k, AfterDeath(k, i, status), i, status);
    } else if Awaited(k, p, i) {
      UnwaitKeeps(k, p, i, k.procs[i].pid);
      var k2 := Unblock(Put(k, p, k.procs[p].(waitFor := k.procs[i].pid)), p, Waiting);
      hide InvBut, Inv, Unblock, Reclaim, Send, Still, HandsOver, Told, Reap;
      StillUnwait(k, p, k.procs[i].pid);
      HandToParent(k, k2, p, i, status);
    } else {
      hide InvBut, Still, HandsOver;
      StillSame(k);
      NothingHandedOver(k, k, i, status);
    }
  }

  /** The slot of `i` goes back, its status to `p`, and `p` is told. */
  lemma HandToParent(k: Kernel, k2: Kernel, p: Slot, i: Slot, status: int)
    requires InvBut(k2, i) && MayReclaim(k2, i) && ParentOf(k2, p, i) && p != i && Still(k, k2) && k2.cur == TASK_SYS
    ensures HandsOver(k, Send(Reap(k2, p, i, status), k2.procs[p].pid, Reply(status)), i, status)
  {
    var k3 := Reap(k2, p, i, status);
    ReapKeeps(k2, p, i, status);
    ReapRest(k2, p, i, status);
    StillReap(k2, p, i, status);
    NamedParent(k, k2, p, i);
    hide InvBut, Inv, Send, Still, HandsOver, Told, Reap;
    ReplyTells(k3, p, k2.procs[i].pid, status);
    HandedOver(k, k2, k3, Send(k3, k2.procs[p].pid, Reply(status)), i, status);
  }

  /** The process whose children list `i` is on is the one that `i` names as its parent, and did before. */
  lemma NamedParent(k: Kernel, k2: Kernel, p: Slot, i: Slot)
    requires InvBut(k2, i) && Live(k2, i) && ParentOf(k2, p, i) && Still(k, k2)
    ensures k.procs[i].parent == k2.procs[p].pid != NO_PROC && k.procs[i].pid == k2.procs[i].pid
  {
    assert Live(k2, p) && k2.procs[p].pid < NO_PROC;
  }

  lemma CollectHandsOver(k: Kernel, p: Slot, c: Slot)
    requires Inv(k) && k.cur == TASK_SYS && p != TASK_SYS && p != TASK_IDLE && ParentOf(k, p, c) && MayReclaim(k, c)
    ensures HandsOver(k, Collect(k, p, c), c, k.procs[c].exitStatus)
  {
    hide Inv, Send, Still, HandsOver, Reap;
    CorpseInvBut(k, p, c);
    StillSame(k);
    HandToParent(k, k, p, c, k.procs[c].exitStatus);
  }

  lemma CorpseInvBut(k: Kernel, p: Slot, c: Slot)
    requires Inv(k) && ParentOf(k, p, c) && MayReclaim(k, c)
    ensures InvBut(k, c) && p != c
  {
  }

  /** A step that hands over at most the status of an exit that has happened. */
  lemma HandsOverReported(k: Kernel, l: Kernel, es: seq<Event>, i: Slot, status: int)
    requires Reported(k, es) && HandsOver(k, l, i, status) && ExitOf(k.procs[i].pid, status) in es && Live(k, i) && TASK_IDLE < i
    requires forall n :: n in k.reaped ==> Told(k, n)
    ensures Reported(l, es) && forall n :: n in l.reaped ==> Told(l, n)
  {
    hide Started;
    KinParents(k, l.(reaped := k.reaped), es);
    assert TrueParents(l, es);
  }

  lemma KinParents(k: Kernel, l: Kernel, es: seq<Event>)
    requires TrueParents(k, es) && Kin(k, l)
    ensures TrueParents(l, es)
  {
    hide Started;
  }

  /** What has happened has still happened later. */
  lemma StartedLater(es: seq<Event>, e: Event)
    ensures forall child: nat, parent: nat :: Started(es, child, parent) ==> Started(es + [e], child, parent)
  {
    forall child: nat, parent: nat | Started(es, child, parent)
      ensures Started(es + [e], child, parent)
    {
      var j: nat :| j < |es| && StartedAt(es, j, child, parent);
      assert (es + [e])[..j] == es[..j];
      assert StartedAt(es + [e], j, child, parent);
    }
  }

  lemma ReportedLater(k: Kernel, es: seq<Event>, e: Event)
    requires Reported(k, es)
    ensures Reported(k, es + [e])
  {
    hide Started;
    StartedLater(es, e);
  }

  lemma StillReported(k: Kernel, l: Kernel, es: seq<Event>, e: Event)
    requires Reported(k, es) && Still(k, l) && forall n :: n in k.reaped ==> Told(k, n)
    ensures Reported(l, es + [e]) && forall n :: n in l.reaped ==> Told(l, n)
  {
    hide Started;
    ReportedLater(k, es, e);
    KinParents(k, l, es + [e]);
  }

  /** A process that is started has the one that started it as its parent. */
  lemma ExecReported(k: Kernel, es: seq<Event>, parent: nat, hasMemory: bool)
    requires k == Run(Initial(), es) && Reported(k, es) && forall n :: n in k.reaped ==> Told(k, n)
    ensures var l, fs := Execute(k, parent, hasMemory), es + [Exec(parent, hasMemory)];
      Reported(l, fs) && forall n :: n in l.reaped ==> Told(l, n)
  {
    hide Run, Initial, StartedAt, Started, Execute, Undisturbed, Told, TrueParents;
    var e, l := Exec(parent, hasMemory), Execute(k, parent, hasMemory);
    var fs := es + [e];
    ReportedLater(k, es, e);
    UndisturbedExecute(k, parent, hasMemory);
    if k.slots != [] && hasMemory {
      IsStarted(k, es, parent);
      ExecuteParents(k, parent);
      NewParent(k, l, fs, k.slots[0], parent);
    } else {
      NothingExecuted(k, parent, hasMemory);
    }
    StatusesStay(k, l, fs);
  }

  lemma NothingExecuted(k: Kernel, parent: nat, hasMemory: bool)
    requires k.slots == [] || !hasMemory
    ensures Execute(k, parent, hasMemory) == k
  {
  }

  lemma IsStarted(k: Kernel, es: seq<Event>, parent: nat)
    requires k == Run(Initial(), es) && k.slots != []
    ensures Started(es + [Exec(parent, true)], k.nextPid, parent)
  {
    hide Run, Initial;
    var fs := es + [Exec(parent, true)];
    assert fs[..|es|] == es && StartedAt(fs, |es|, k.nextPid, parent);
  }

  lemma NewParent(k: Kernel, l: Kernel, es: seq<Event>, n: Slot, parent: nat)
    requires TrueParents(k, es) && Started(es, l.procs[n].pid, parent) && l.procs[n].parent == parent
    requires forall i: Slot :: i != n && Live(l, i) ==>
      Live(k, i) && l.procs[i].pid == k.procs[i].pid && l.procs[i].parent == k.procs[i].parent
    ensures TrueParents(l, es)
  {
    hide Started, Live;
  }

  lemma StatusesStay(k: Kernel, l: Kernel, es: seq<Event>)
    requires Reported(k, es) && Undisturbed(k, l) && TrueParents(l, es)
    ensures Reported(l, es) && forall n :: n in k.reaped && Told(k, n) ==> Told(l, n)
    ensures l.reaped == k.reaped
  {
    hide Started;
  }

  lemma ExecuteParents(k: Kernel, parent: nat)
    requires k.slots != []
    ensures var l := Execute(k, parent, true);
      && l.procs[k.slots[0]].pid == k.nextPid && l.procs[k.slots[0]].parent == parent
      && forall i: Slot :: i != k.slots[0] && Live(l, i) ==>
           Live(k, i) && l.procs[i].pid == k.procs[i].pid && l.procs[i].parent == k.procs[i].parent
  {
  }

  lemma DieReported(k: Kernel, es: seq<Event>, self: nat, status: int)
    requires Reported(k, es) && Pid2Proc(k, self) != -1 && forall n :: n in k.reaped ==> Told(k, n)
    ensures var i := Pid2Proc(k, self); var l, fs := Die(k, i, status), es + [ExitOf(self, status)];
      && Reported(l, fs) && ExitOf(l.procs[i].pid, status) in fs && (Live(k, i) ==> Live(l, i))
      && forall n :: n in l.reaped ==> Told(l, n)
  {
    var i := Pid2Proc(k, self);
    var e := ExitOf(self, status);
    DieShape(k, i, status);
    hide Die, Started;
    ReportedLater(k, es, e);
    KinParents(k, Die(k, i, status), es + [e]);
    assert e in es + [e];
  }

  lemma ExitReported(k: Kernel, es: seq<Event>, self: nat, status: int)
    requires Inv(k) && ExitCalled(k, self) && MayExit(k, Pid2Proc(k, self))
    requires Reported(k, es) && forall n :: n in k.reaped ==> Told(k, n)
    ensures var l, fs := Exit(k, self, status), es + [ExitOf(self, status)];
      Reported(l, fs) && forall n :: n in l.reaped ==> Told(l, n)
  {
    var i := Pid2Proc(k, self);
    var k1, fs := Die(k, i, status), es + [ExitOf(self, status)];
    DieKeeps(k, i, status);
    DieShape(k, i, status);
    DeathSameGone(k, i, status);
    DieReported(k, es, self, status);
    hide Inv, InvBut, Die, Reported, HandsOver, AfterDeath, Told;
    AfterDeathHandsOver(k1, i, status);
    HandsOverReported(k1, AfterDeath(k1, i, status), fs, i, status);
  }

  lemma WaitReported(k: Kernel, es: seq<Event>, child: nat, p: Slot)
    requires Inv(k) && WaitCalled(k, k.procs[p].pid) && MayWait(k, child, p) && Pid2Proc(k, k.procs[p].pid) == p
    requires Reported(k, es) && forall n :: n in k.reaped ==> Told(k, n)
    ensures var l, fs := Wait(k, child, k.procs[p].pid), es + [WaitFor(child, k.procs[p].pid)];
      Reported(l, fs) && forall n :: n in l.reaped ==> Told(l, n)
  {
    var c := FoundByWait(k, child, p);
    var e := WaitFor(child, k.procs[p].pid);
    if c != -1 {
      WaitCollects(k, child, p);
      ChildIsCorpse(k, p, c);
      assert ExitOf(k.procs[c].pid, k.procs[c].exitStatus) in es;
      hide Inv, Wait, Collect, HandsOver, Reported;
      CollectHandsOver(k, p, c);
      HandsOverReported(k, Collect(k, p, c), es, c, k.procs[c].exitStatus);
      ReportedLater(Collect(k, p, c), es, e);
    } else {
      WaitOtherwise(k, child, p);
      hide Inv, Wait, Send, SleepFor, Reported;
      if WaitSleeps(k, child, p) {
        StillSleep(k, p, child);
        StillReported(k, SleepFor(k, p, child), es, e);
      } else {
        StillSend(k, k.procs[p].pid, Reply(-1));
        StillReported(k, Send(k, k.procs[p].pid, Reply(-1)), es, e);
      }
    }
  }

  lemma StepReported(k: Kernel, es: seq<Event>, e: Event)
    requires k == Run(Initial(), es) && Inv(k) && Enabled(k, e) && Reported(k, es) && forall n :: n in k.reaped ==> Told(k, n)
    ensures Reported(Step(k, e), es + [e]) && forall n :: n in Step(k, e).reaped ==> Told(Step(k, e), n)
  {
    hide Run, Initial, Inv, Reported, Told, Still, Schedule, Send, Receive, IntrSend, Execute, Exit, Wait, MayExit, MayWait, ExitCalled;
    match e
    case ExitOf(self, status) => ExitReported(k, es, self, status);
    case WaitFor(child, parent) => WaitReported(k, es, child, Pid2Proc(k, parent));
    case Tick => StillSchedule(k); StillReported(k, Step(k, e), es, e);
    case SendTo(dest, msg) => StillSend(k, dest, msg); StillReported(k, Step(k, e), es, e);
    case ReceiveFrom(src, buf, window) => StillReceive(k, src, buf, window); StillReported(k, Step(k, e), es, e);
    case Interrupt(dest) => StillIntr(k, dest); StillReported(k, Step(k, e), es, e);
    case Exec(parent, hasMemory) => ExecReported(k, es, parent, hasMemory);
  }

  lemma InitialReported()
    ensures Reported(Initial(), []) && Initial().reaped == []
  {
    hide Initial;
    InitialJustStarted();
    var k := Initial();
    assert forall i: Slot :: k.procs[i] == InitialPcb(i);
  }

  /**
   * Over every run: an exit status that has been handed over is the one with which its process exited; it was handed
   * over to the process that had started that one, and the system task has sent it there.
   */
  lemma {:induction false} ExitStatusArrives(es: seq<Event>)
    requires RunEnabled(Initial(), es)
    ensures var k := Run(Initial(), es);
      && Reported(k, es)
      && forall n :: n in k.reaped ==> ExitOf(n.child, n.status) in es && Started(es, n.child, n.parent) && Told(k, n)
  {
    hide Inv, Told, Step, Enabled, Initial, Started, TrueParents;
    if es == [] {
      InitialReported();
    } else {
      var k := Run(Initial(), es[..|es| - 1]);
      RunKeepsInv(es[..|es| - 1]);
      ExitStatusArrives(es[..|es| - 1]);
      StepReported(k, es[..|es| - 1], es[|es| - 1]);
      assert es == es[..|es| - 1] + [es[|es| - 1]];
    }
  }
}
