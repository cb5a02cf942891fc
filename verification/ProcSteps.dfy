/** Every message step keeps the invariant. */
module ProcSteps {
  import opened Proc
  import opened ProcInv
  import opened ProcIpc

  lemma InvParts(k: Kernel)
    requires Inv(k)
    ensures Core(k) && Scheduling(k)
    ensures Live(k, k.cur) && k.procs[k.cur].status == RUNNING && k.procs[k.cur].pid < k.nextPid
    ensures forall i: Slot :: i <= TASK_IDLE ==> Live(k, i)
    ensures forall i: Slot :: k.procs[i].status.phase == Dead ==> !k.procs[i].status.Blocked()
    ensures forall i: Slot :: Live(k, i) && k.procs[i].status.Blocked() ==> k.procs[i].status.phase != Dead
  {
  }

  /** Scheduling depends on nothing but statuses, free slots, the ready list and who is current. */
  lemma SameSchedule(k: Kernel, l: Kernel)
    requires Scheduling(k)
    requires l.slots == k.slots && l.ready == k.ready && l.cur == k.cur && l.halted == k.halted
    requires forall i: Slot :: l.procs[i].status == k.procs[i].status
    ensures Scheduling(l)
  {
  }

  /** A process that is receiving is not sending. */
  lemma ReceivingNotSending(k: Kernel, r: Slot)
    requires Queues(k) && Live(k, r) && k.procs[r].status.receiving
    ensures !k.procs[r].status.sending
  {
  }

  lemma LivePid(k: Kernel, i: Slot)
    requires Registry(k) && Live(k, i)
    ensures k.procs[i].pid < k.nextPid
  {
  }

  lemma UnblockLogs(k: Kernel, i: Slot, reason: Reason, sent: seq<Letter>)
    ensures Unblock(k.(sent := sent), i, reason) == Unblock(k, i, reason).(sent := sent)
  {
  }

  lemma NothingOutstandingFrom(k: Kernel, s: Slot, b: nat)
    requires Core(k) && Live(k, s) && !k.procs[s].status.sending
    ensures Outstanding(k, k.procs[s].pid, b) == []
  {
    NothingOutstanding(k, s, b);
  }

  lemma TickKeeps(k: Kernel)
    requires Inv(k)
    ensures Inv(Schedule(k))
  {
    hide Registry, Queues, Family, Histories, Reaped, Schedule;
    InvParts(k);
    assert Stopping(k);
    ScheduleKeeps(k);
    SameCoreKeeps(k, Schedule(k));
  }

  lemma SendDelivers(k: Kernel, r: Slot, msg: Message)
    requires Inv(k) && r != k.cur && Pid2Proc(k, k.procs[r].pid) == r
    requires Accepts(k.procs[r], k.procs[k.cur].pid)
    ensures Inv(Send(k, k.procs[r].pid, msg))
  {
    hide Registry, Queues, Family, Histories, Reaped, Scheduling, SameBut, Outstanding, Unblock;
    InvParts(k);
    var s := k.cur;
    assert Live(k, r) && k.procs[r].pid < k.nextPid by {
      LookupFinds(k, k.procs[r].pid);
      LivePid(k, r);
    }
    var m := msg.(source := k.procs[s].pid);
    var x := Letter(k.procs[s].pid, k.procs[r].pid, m);
    var k1 := Put(k, s, k.procs[s].(msg := m));
    ReceivingNotSending(k, r);
    TouchKeeps(k, s, k1.procs[s]);
    var k2 := Put(k1, r, k1.procs[r].(msg := m));
    var k3 := SetStatus(k2, r, With(k2.procs[r].status, Receiving, false));
    TouchKeeps(k1, r, k3.procs[r]);
    assert k3.procs == k1.procs[r := k3.procs[r]];
    assert k3 == Put(k1, r, k3.procs[r]);
    NothingOutstandingFrom(k3, s, x.to);
    var k4 := k3.(sent := k3.sent + [x], received := k3.received + [x]);
    LogBothKeeps(k3, x);
    SameSchedule(k, k2);
    UnblockKeeps(k2, r, Receiving);
    var l := Send(k, k.procs[r].pid, msg);
    UnblockLogs(k2, r, Receiving, k4.sent);
    assert l == Unblock(k2, r, Receiving).(sent := k4.sent, received := k4.received);
    assert SameCore(k4, l);
    SameSchedule(Unblock(k2, r, Receiving), l);
    SameCoreKeeps(k4, l);
  }

  lemma SendQueues(k: Kernel, r: Slot, msg: Message)
    requires Inv(k) && r != k.cur && k.cur != TASK_IDLE && Pid2Proc(k, k.procs[r].pid) == r
    requires !Accepts(k.procs[r], k.procs[k.cur].pid)
    ensures Inv(Send(k, k.procs[r].pid, msg))
  {
    hide Registry, Queues, Family, Histories, Reaped, Scheduling, SameBut, Outstanding, Block, Live;
    InvParts(k);
    var s := k.cur;
    LookupFinds(k, k.procs[r].pid);
    var m := msg.(source := k.procs[s].pid);
    EnqueueKeeps(k, s, r, m);
    var u := Enqueue(k, s, r, m);
    var k1 := Put(k, s, k.procs[s].(msg := m)).(sent := u.sent);
    SameLive(k, k1);
    SameSchedule(k, k1);
    BlockKeeps(k1, Sending);
    var k2 := Block(k1, s, Sending);
    var l := Send(k, k.procs[r].pid, msg);
    assert l == Put(k2, r, k2.procs[r].(senders := k2.procs[r].senders + [s]));
    SameSchedule(k2, l);
    forall i: Slot
      ensures SameBut(u.procs[i], l.procs[i])
    {
      SameButSenders(SetStatus(k1, s, With(k1.procs[s].status, Sending, true)).procs[i], k2.procs[i], s);
    }
    SameCoreKeeps(u, l);
  }

  lemma SameButSenders(p: Pcb, q: Pcb, s: Slot)
    requires SameBut(p, q)
    ensures SameBut(p.(senders := p.senders + [s]), q.(senders := q.senders + [s]))
  {
  }

  /** Sending keeps the invariant, whoever the message is for. */
  lemma SendKeeps(k: Kernel, dest: nat, msg: Message)
    requires Inv(k) && k.cur != TASK_IDLE && dest != k.procs[k.cur].pid
    ensures Inv(Send(k, dest, msg))
  {
    hide Inv, Send;
    var r := Pid2Proc(k, dest);
    if r == -1 {
      assert Send(k, dest, msg) == k by {
        SendNowhere(k, dest, msg);
      }
    } else if Accepts(k.procs[r], k.procs[k.cur].pid) {
      SendDelivers(k, r, msg);
    } else {
      SendQueues(k, r, msg);
    }
  }

  lemma SendNowhere(k: Kernel, dest: nat, msg: Message)
    requires Pid2Proc(k, dest) == -1
    ensures Send(k, dest, msg) == k
  {
  }

  // ---------------------------------------------------------------- interrupts

  lemma IntrDelivers(k: Kernel, r: Slot)
    requires Inv(k) && Live(k, r) && Pid2Proc(k, k.procs[r].pid) == r
    requires k.procs[r].status.receiving && k.procs[r].recvfrom in {ANY, INTERRUPT}
    ensures Inv(IntrSend(k, k.procs[r].pid))
  {
    hide Registry, Queues, Family, Histories, Reaped, Scheduling, SameBut, Unblock;
    InvParts(k);
    ReceivingNotSending(k, r);
    var p := k.procs[r];
    var k1 := Put(k, r, p.(hasIntrMsg := false, msg := p.msg.(source := INTERRUPT, kind := HARD_INT)));
    var k2 := SetStatus(k1, r, With(p.status, Receiving, false));
    assert k2.procs == k.procs[r := k2.procs[r]];
    assert k2 == Put(k, r, k2.procs[r]);
    TouchKeeps(k, r, k2.procs[r]);
    SameSchedule(k, k1);
    UnblockKeeps(k1, r, Receiving);
    SameCoreKeeps(k2, IntrSend(k, p.pid));
  }

  lemma IntrPends(k: Kernel, r: Slot)
    requires Inv(k) && Live(k, r) && Pid2Proc(k, k.procs[r].pid) == r
    requires !(k.procs[r].status.receiving && k.procs[r].recvfrom in {ANY, INTERRUPT})
    ensures Inv(IntrSend(k, k.procs[r].pid))
  {
    hide Registry, Queues, Family, Histories, Reaped, Scheduling;
    InvParts(k);
    var p := k.procs[r].(hasIntrMsg := true);
    forall s: Slot | InQueue(k, r, s)
      ensures !Accepts(p, k.procs[s].pid)
    {
      NotMissed(k, r, s);
    }
    TouchKeeps(k, r, p);
    SameSchedule(k, Put(k, r, p));
  }

  lemma NotMissed(k: Kernel, q: Slot, s: Slot)
    requires Queues(k) && InQueue(k, q, s)
    ensures !Accepts(k.procs[q], k.procs[s].pid)
  {
  }

  /** An interrupt keeps the invariant, whoever it is for, and whatever that process is doing. */
  lemma IntrSendKeeps(k: Kernel, dest: nat)
    requires Inv(k)
    ensures Inv(IntrSend(k, dest))
  {
    hide Registry, Queues, Family, Histories, Reaped, Scheduling, Unblock;
    var r := Pid2Proc(k, dest);
    if r != -1 {
      LookupFinds(k, dest);
      if k.procs[r].status.receiving && k.procs[r].recvfrom in {ANY, INTERRUPT} {
        IntrDelivers(k, r);
      } else {
        IntrPends(k, r);
      }
    }
  }

  lemma {:induction false} IntrSendAllKeeps(k: Kernel, dests: seq<nat>)
    requires Inv(k)
    ensures Inv(IntrSendAll(k, dests))
  {
    hide Inv, IntrSend;
    if dests == [] {
    } else {
      IntrSendAllKeeps(k, dests[..|dests| - 1]);
      IntrSendKeeps(IntrSendAll(k, dests[..|dests| - 1]), dests[|dests| - 1]);
    }
  }

  /** Interrupts leave alone who is current, all queues, and the current process but for its flag. */
  ghost predicate Undisturbed(k: Kernel, l: Kernel) {
    && l.cur == k.cur && l.slots == k.slots
    && (forall i: Slot :: l.procs[i].pid == k.procs[i].pid && l.procs[i].senders == k.procs[i].senders)
    && l.procs[k.cur] == k.procs[k.cur].(hasIntrMsg := l.procs[k.cur].hasIntrMsg)
  }

  lemma IntrUndisturbed(k: Kernel, dest: nat)
    requires !k.procs[k.cur].status.receiving
    ensures Undisturbed(k, IntrSend(k, dest))
  {
  }

  lemma {:induction false} IntrAllUndisturbed(k: Kernel, dests: seq<nat>)
    requires !k.procs[k.cur].status.receiving
    ensures Undisturbed(k, IntrSendAll(k, dests))
  {
    hide IntrSend;
    if dests == [] {
    } else {
      IntrAllUndisturbed(k, dests[..|dests| - 1]);
      IntrUndisturbed(IntrSendAll(k, dests[..|dests| - 1]), dests[|dests| - 1]);
    }
  }

  // ---------------------------------------------------------------- receiving

  /** Another buffer, or a pending interrupt taken: nothing of the current process that others rely on. */
  lemma BufferKeeps(k: Kernel, p: Pcb)
    requires Inv(k)
    requires p == k.procs[k.cur].(msg := p.msg, hasIntrMsg := p.hasIntrMsg, recvfrom := p.recvfrom)
    ensures Inv(Put(k, k.cur, p))
  {
    hide Registry, Queues, Family, Histories, Reaped, Scheduling;
    InvParts(k);
    TouchKeeps(k, k.cur, p);
    SameSchedule(k, Put(k, k.cur, p));
  }

  lemma PickUpKeeps(k: Kernel, s: Slot)
    requires Inv(k) && InQueue(k, k.cur, s)
    ensures Inv(PickUp(k, s))
  {
    hide Registry, Queues, Family, Histories, Reaped, Scheduling, SameBut, Unblock;
    InvParts(k);
    var r := k.cur;
    SenderSends(k, r, s);
    DequeueKeeps(k, s, r);
    var m := k.procs[s].msg;
    var u := Dequeue(k, s, r);
    var k1 := Put(k, r, k.procs[r].(senders := Without(k.procs[r].senders, s), msg := m));
    SameSchedule(k, k1);
    UnblockKeeps(k1, s, Sending);
    var l := PickUp(k, s);
    SameSchedule(Unblock(k1, s, Sending), l);
    assert SameCore(u, l);
    SameCoreKeeps(u, l);
  }

  lemma SenderSends(k: Kernel, q: Slot, s: Slot)
    requires Queues(k) && InQueue(k, q, s)
    ensures Live(k, s) && k.procs[s].status.sending
  {
  }

  lemma StopKeeps(k: Kernel, src: nat)
    requires Inv(k) && k.cur != TASK_IDLE
    requires forall s: Slot :: InQueue(k, k.cur, s) ==> src != ANY && src != k.procs[s].pid
    requires !TakesIntr(k.procs[k.cur], src)
    ensures Inv(Block(Put(k, k.cur, k.procs[k.cur].(recvfrom := src)), k.cur, Receiving))
  {
    hide Registry, Queues, Family, Histories, Reaped, Scheduling, SameBut, Block;
    InvParts(k);
    var r := k.cur;
    var k1 := Put(k, r, k.procs[r].(recvfrom := src));
    var u := SetStatus(k1, r, With(k1.procs[r].status, Receiving, true));
    assert u.procs == k.procs[r := u.procs[r]];
    assert u == Put(k, r, u.procs[r]);
    TouchKeeps(k, r, u.procs[r]);
    SameSchedule(k, k1);
    BlockKeeps(k1, Receiving);
    SameCoreKeeps(u, Block(k1, r, Receiving));
  }

  /** Receiving keeps the invariant, whatever interrupts come between the two looks at the flag. */
  lemma ReceiveKeeps(k: Kernel, src: nat, buf: Message, window: seq<nat>)
    requires Inv(k) && k.cur != TASK_IDLE
    ensures Inv(Receive(k, src, buf, window))
  {
    hide Inv, PickUp, Block, IntrSendAll;
    var r := k.cur;
    var k1 := Put(k, r, k.procs[r].(msg := buf));
    BufferKeeps(k, k1.procs[r]);
    assert TakesIntr(k1.procs[r], src) ==> Inv(TakeIntr(k1, r)) by {
      BufferKeeps(k1, TakeIntr(k1, r).procs[r]);
    }
    var s := PickSender(k1, r, src);
    assert Live(k1, r) && k1.procs[r].status == RUNNING by {
      InvParts(k1);
    }
    if s != -1 {
      PickUpKeeps(k1, s);
    } else {
      hide Listen;
      ListenKeeps(k1, src, window);
    }
  }

  /** Even when an interrupt arrives between the two looks at the flag. */
  lemma ListenKeeps(k: Kernel, src: nat, window: seq<nat>)
    requires Inv(k) && k.cur != TASK_IDLE && PickSender(k, k.cur, src) == -1
    ensures Inv(Listen(k, src, window))
  {
    hide Inv, Block, IntrSendAll;
    var r := k.cur;
    assert Live(k, r) && k.procs[r].status == RUNNING by {
      InvParts(k);
    }
    var k2 := IntrSendAll(k, window);
    IntrSendAllKeeps(k, window);
    IntrAllUndisturbed(k, window);
    assert TakesIntr(k2.procs[r], src) ==> Inv(TakeIntr(k2, r)) by {
      BufferKeeps(k2, TakeIntr(k2, r).procs[r]);
    }
    forall t: Slot | InQueue(k2, r, t)
      ensures src != ANY && src != k2.procs[t].pid
    {
      assert t in k.procs[r].senders;
      QueuedPid(k2, r, t);
    }
    if !TakesIntr(k2.procs[r], src) {
      StopKeeps(k2, src);
    }
  }

  lemma QueuedPid(k: Kernel, q: Slot, s: Slot)
    requires Inv(k) && InQueue(k, q, s)
    ensures k.procs[s].pid < NO_PROC
  {
    SenderSends(k, q, s);
  }

  /** A process that is blocked while it is ready only leaves the ready list: its status says nothing of it. */
  lemma BlockOfReady(k: Kernel, i: Slot, reason: Reason)
    requires NoDup(k.ready) && k.procs[i].status == READY
    ensures var l := Block(k, i, reason);
      l == k.(ready := l.ready) && NoDup(l.ready) && forall j :: j in l.ready <==> j in k.ready && j != i
  {
    WithoutHas(k.ready, i);
  }
}
