/** Message delivery over whole runs, and what a single step may do to a message. */
module ProcMail {
  import opened Proc
  import opened ProcInv
  import opened ProcIpc
  import opened ProcSteps
  import opened ProcLife
  import opened ProcExit
  import opened ProcRun

  /**
   * Over every run: what is logged as received by `b` from `a` is, in order, what is logged as sent by `a` to `b`,
   * but for at most one message that waits; and whoever a message says it is from did send it.
   */
  lemma LogsMatch(es: seq<Event>, a: nat, b: nat)
    requires RunEnabled(Initial(), es)
    ensures var k := Run(Initial(), es);
      && Between(k.received, a, b) <= Between(k.sent, a, b)
      && |Between(k.sent, a, b)| <= |Between(k.received, a, b)| + 1
      && forall m :: m in Between(k.sent, a, b) ==> m.source == a
  {
    hide Run, Initial, RunEnabled, Inv;
    RunKeepsInv(es);
    LogsOf(Run(Initial(), es), a, b);
  }

  lemma LogsOf(k: Kernel, a: nat, b: nat)
    requires Inv(k)
    ensures Between(k.received, a, b) <= Between(k.sent, a, b)
    ensures |Between(k.sent, a, b)| <= |Between(k.received, a, b)| + 1
    ensures forall m :: m in Between(k.sent, a, b) ==> m.source == a
  {
    Signed(k.sent, a, b);
    hide Registry, Scheduling, Queues, Family, Reaped;
  }

  lemma {:induction false} Signed(log: seq<Letter>, a: nat, b: nat)
    requires forall l :: l in log ==> l.msg.source == l.from
    ensures forall m :: m in Between(log, a, b) ==> m.source == a
  {
    if log == [] {
    } else {
      assert log[|log| - 1] in log;
      Signed(log[..|log| - 1], a, b);
    }
  }

  /** Over every run: a process is sending just when it is in some queue, then only in one, and once. */
  lemma SendingIsQueued(es: seq<Event>, s: Slot)
    requires RunEnabled(Initial(), es) && Live(Run(Initial(), es), s)
    ensures var k := Run(Initial(), es);
      && (k.procs[s].status.sending <==> exists q: Slot :: InQueue(k, q, s))
      && (forall q: Slot, r: Slot :: InQueue(k, q, s) && InQueue(k, r, s) ==> q == r)
      && (forall q: Slot :: InQueue(k, q, s) ==> multiset(k.procs[q].senders)[s] == 1)
  {
    RunKeepsInv(es);
    var k := Run(Initial(), es);
    hide Run, Initial;
    forall q: Slot | InQueue(k, q, s)
      ensures multiset(k.procs[q].senders)[s] == 1
    {
      OnceIn(k.procs[q].senders, s);
    }
  }

  /** Over every run: nobody waits in vain for a message, or an interrupt, that is already there. */
  lemma NoMissedWakeUp(es: seq<Event>, q: Slot)
    requires RunEnabled(Initial(), es)
    ensures var k := Run(Initial(), es);
      var from := k.procs[q].recvfrom;
      Live(k, q) && k.procs[q].status.receiving ==>
      && (from == ANY ==> k.procs[q].senders == [])
      && (forall s :: s in k.procs[q].senders ==> k.procs[s].pid != from)
      && (from == ANY || from == INTERRUPT ==> !k.procs[q].hasIntrMsg)
  {
    hide Run, Initial, RunEnabled, Inv;
    RunKeepsInv(es);
    NobodyMissed(Run(Initial(), es), q);
  }

  lemma NobodyMissed(k: Kernel, q: Slot)
    requires Inv(k)
    ensures var from := k.procs[q].recvfrom;
      Live(k, q) && k.procs[q].status.receiving ==>
      && (from == ANY ==> k.procs[q].senders == [])
      && (forall s :: s in k.procs[q].senders ==> k.procs[s].pid != from)
      && (from == ANY || from == INTERRUPT ==> !k.procs[q].hasIntrMsg)
  {
    hide Registry, Scheduling, Family, Histories, Reaped;
    assert Live(k, q) ==> forall s :: s in k.procs[q].senders ==> InQueue(k, q, s);
    if Live(k, q) && k.procs[q].senders != [] {
      assert InQueue(k, q, k.procs[q].senders[0]);
    }
  }

  // ---------------------------------------------------------------- single steps

  /** A receive from `src` may end with a message from `source`. */
  predicate Permits(src: nat, source: nat) {
    src == ANY || src == source
  }

  /** What `r` finds in its record is an interrupt, or a letter that has just been received by it. */
  ghost predicate Filed(k: Kernel, l: Kernel, r: Slot)
    requires k.received <= l.received
  {
    var m := l.procs[r].msg;
    m.source == INTERRUPT || Letter(m.source, k.procs[r].pid, m) in l.received[|k.received|..]
  }

  /**
   * No step touches the message record of a process that is neither current nor receiving, above all not
   * that of a process in a queue; nobody but the current process starts to receive; and a process stops
   * receiving only with a message it asked for, which is on the record as received by it, or with an interrupt.
   */
  ghost predicate RespectsMail(k: Kernel, l: Kernel) {
    && k.received <= l.received
    && (forall r: Slot :: Live(k, r) && Alive(l, r) ==> l.procs[r].pid == k.procs[r].pid)
    && (forall r: Slot :: r != k.cur && !k.procs[r].status.receiving ==>
          l.procs[r].msg == k.procs[r].msg && !l.procs[r].status.receiving)
    && (forall r: Slot :: Live(k, r) && k.procs[r].status.receiving && Alive(l, r) ==>
          if l.procs[r].status.receiving
          then l.procs[r].recvfrom == k.procs[r].recvfrom && l.procs[r].msg == k.procs[r].msg
          else Permits(k.procs[r].recvfrom, l.procs[r].msg.source) && Filed(k, l, r))
  }

  lemma RespectsBoth(k: Kernel, l: Kernel, m: Kernel)
    requires RespectsMail(k, l) && RespectsMail(l, m) && l.cur == k.cur && !k.procs[k.cur].status.receiving
    requires forall j: Slot :: Alive(m, j) ==> Alive(l, j)
    ensures RespectsMail(k, m)
  {
    assert m.received[|k.received|..] == l.received[|k.received|..] + m.received[|l.received|..];
    forall r: Slot | Live(k, r) && k.procs[r].status.receiving && Alive(m, r)
      ensures if m.procs[r].status.receiving
              then m.procs[r].recvfrom == k.procs[r].recvfrom && m.procs[r].msg == k.procs[r].msg
              else Permits(k.procs[r].recvfrom, m.procs[r].msg.source) && Filed(k, m, r)
    {
      assert Alive(l, r);
    }
  }

  /** The same mailboxes, but that of `i` has its receiving bit as given. */
  ghost predicate SameMailbox(k: Kernel, l: Kernel, i: Slot, receiving: bool) {
    && l.received == k.received
    && (forall j: Slot :: l.procs[j].msg == k.procs[j].msg && l.procs[j].recvfrom == k.procs[j].recvfrom)
    && (forall j: Slot :: l.procs[j].pid == k.procs[j].pid)
    && (forall j: Slot :: l.procs[j].status.receiving == if j == i then receiving else k.procs[j].status.receiving)
    && (forall j: Slot :: Alive(l, j) <==> Alive(k, j))
  }

  lemma SameCoreMailbox(k: Kernel, l: Kernel, i: Slot)
    requires SameCore(k, l)
    ensures SameMailbox(k, l, i, k.procs[i].status.receiving)
  {
    assert forall j: Slot :: SameBut(k.procs[j], l.procs[j]);
  }

  lemma UnblockMailbox(k: Kernel, i: Slot, reason: Reason)
    requires Scheduling(k) && Live(k, i) && With(k.procs[i].status, reason, true) == k.procs[i].status
    ensures SameMailbox(k, Unblock(k, i, reason), i, k.procs[i].status.receiving && reason != Receiving)
    ensures Unblock(k, i, reason).cur == k.cur
  {
    hide Scheduling, Unblock, SameMailbox;
    BlockedAlive(k, i);
    UnblockShape(k, i, reason);
    StatusOnly(k, Unblock(k, i, reason), i);
  }

  lemma UnblockShape(k: Kernel, i: Slot, reason: Reason)
    requires With(k.procs[i].status, reason, true) == k.procs[i].status && k.procs[i].status.phase != Dead
    ensures var l := Unblock(k, i, reason); var s := l.procs[i].status;
      && l == k.(procs := k.procs[i := k.procs[i].(status := s)], ready := l.ready)
      && s.phase != Dead && s.receiving == (k.procs[i].status.receiving && reason != Receiving)
  {
  }

  lemma StatusOnly(k: Kernel, l: Kernel, i: Slot)
    requires l == k.(procs := k.procs[i := k.procs[i].(status := l.procs[i].status)], ready := l.ready)
    requires k.procs[i].status.phase != Dead && l.procs[i].status.phase != Dead
    ensures SameMailbox(k, l, i, l.procs[i].status.receiving)
  {
  }

  lemma BlockMailbox(k: Kernel, reason: Reason)
    requires Inv(k) && k.cur != TASK_IDLE
    ensures SameMailbox(k, Block(k, k.cur, reason), k.cur, reason == Receiving)
  {
    InvParts(k);
    var k1, l := SetStatus(k, k.cur, With(k.procs[k.cur].status, reason, true)), Block(k, k.cur, reason);
    hide Inv, Core, Scheduling, Block, SameCore, SameMailbox, SetStatus;
    BlockKeeps(k, reason);
    SameCoreMailbox(k1, l, k.cur);
    StatusMailbox(k, l, reason);
  }

  /** From the state in which the current process has its new status on to the next one. */
  lemma StatusMailbox(k: Kernel, l: Kernel, reason: Reason)
    requires Live(k, k.cur) && k.procs[k.cur].status == RUNNING
    requires var k1 := SetStatus(k, k.cur, With(k.procs[k.cur].status, reason, true));
      SameMailbox(k1, l, k.cur, k1.procs[k.cur].status.receiving)
    ensures SameMailbox(k, l, k.cur, reason == Receiving)
  {
    var k1 := SetStatus(k, k.cur, With(k.procs[k.cur].status, reason, true));
    assert forall j: Slot :: Alive(k1, j) <==> Alive(k, j);
  }

  lemma ScheduleRespects(k: Kernel)
    requires Inv(k)
    ensures RespectsMail(k, Schedule(k)) && forall j: Slot :: Alive(Schedule(k), j) <==> Alive(k, j)
  {
    hide Inv, Core, Schedule, Stopping, Scheduling, SameCore, SameMailbox, Prepared, RespectsMail, Live;
    InvParts(k);
    RunsOn(k);
    ScheduleKeeps(k);
    SameCoreMailbox(k, Schedule(k), k.cur);
    NothingPrepared(k);
    StoppedRespects(k, k, Schedule(k), false);
  }

  lemma RunsOn(k: Kernel)
    requires Scheduling(k) && forall i: Slot :: i <= TASK_IDLE ==> Live(k, i)
    ensures Stopping(k)
  {
  }

  lemma NothingPrepared(k: Kernel)
    ensures Prepared(k, k, k.cur)
  {
  }

  /** From `k` to `l`, only the records of the current process and of `r` have changed. */
  ghost predicate Prepared(k: Kernel, l: Kernel, r: Slot) {
    && k.received <= l.received
    && (forall j: Slot :: l.procs[j].pid == k.procs[j].pid)
    && (forall j: Slot :: j != k.cur && j != r ==> l.procs[j].msg == k.procs[j].msg)
    && (forall j: Slot :: j != k.cur ==> l.procs[j].recvfrom == k.procs[j].recvfrom)
    && (forall j: Slot :: l.procs[j].status.receiving == k.procs[j].status.receiving)
    && (forall j: Slot :: Alive(l, j) <==> Alive(k, j))
  }

  lemma WokenRespects(k: Kernel, k1: Kernel, l: Kernel, r: Slot)
    requires Prepared(k, k1, r) && SameMailbox(k1, l, r, false) && !k.procs[k.cur].status.receiving
    requires k.procs[r].status.receiving && Permits(k.procs[r].recvfrom, k1.procs[r].msg.source) && Filed(k, k1, r)
    ensures RespectsMail(k, l) && forall j: Slot :: Alive(l, j) <==> Alive(k, j)
  {
  }

  lemma StoppedRespects(k: Kernel, k1: Kernel, l: Kernel, receiving: bool)
    requires Prepared(k, k1, k.cur) && SameMailbox(k1, l, k.cur, receiving) && !k.procs[k.cur].status.receiving
    ensures RespectsMail(k, l) && forall j: Slot :: Alive(l, j) <==> Alive(k, j)
  {
  }

  /** `r` stops receiving, after `k` has become `k1` in which the message is in its buffer. */
  lemma WakingRespects(k: Kernel, k1: Kernel, r: Slot)
    requires Inv(k) && Live(k, r) && Prepared(k, k1, r) && k.procs[r].status.receiving
    requires k1.slots == k.slots && k1.ready == k.ready && k1.cur == k.cur && k1.halted == k.halted
    requires forall i: Slot :: k1.procs[i].status == k.procs[i].status
    requires Permits(k.procs[r].recvfrom, k1.procs[r].msg.source) && Filed(k, k1, r)
    ensures RespectsMail(k, Unblock(k1, r, Receiving)) && Unblock(k1, r, Receiving).cur == k.cur
    ensures forall j: Slot :: Alive(Unblock(k1, r, Receiving), j) <==> Alive(k, j)
  {
    InvParts(k);
    hide Inv, Core, Scheduling, Unblock, SameMailbox;
    SameSchedule(k, k1);
    UnblockMailbox(k1, r, Receiving);
    WokenRespects(k, k1, Unblock(k1, r, Receiving), r);
  }

  lemma SendWakes(k: Kernel, r: Slot, msg: Message)
    requires Inv(k) && Live(k, r) && r != k.cur && Pid2Proc(k, k.procs[r].pid) == r
    requires Accepts(k.procs[r], k.procs[k.cur].pid)
    ensures RespectsMail(k, Send(k, k.procs[r].pid, msg))
    ensures forall j: Slot :: Alive(Send(k, k.procs[r].pid, msg), j) <==> Alive(k, j)
  {
    hide Inv, Unblock, RespectsMail;
    var s, dest := k.cur, k.procs[r].pid;
    var m := msg.(source := k.procs[s].pid);
    var x := [Letter(k.procs[s].pid, dest, m)];
    var k1 := Put(Put(k, s, k.procs[s].(msg := m)), r, k.procs[r].(msg := m)).(sent := k.sent + x);
    var k2 := k1.(received := k.received + x);
    assert k2.received[|k.received|..] == x;
    WakingRespects(k, k2, r);
    UnblockReceived(k1, r, Receiving, k.received + x);
    assert Send(k, dest, msg) == Unblock(k2, r, Receiving);
  }

  lemma UnblockReceived(k: Kernel, i: Slot, reason: Reason, received: seq<Letter>)
    ensures Unblock(k.(received := received), i, reason) == Unblock(k, i, reason).(received := received)
  {
  }

  /** The current process has signed its message and stopped; it is not yet in the queue. */
  function Halted(k: Kernel, msg: Message): Kernel {
    Block(Put(k, k.cur, k.procs[k.cur].(msg := msg.(source := k.procs[k.cur].pid))), k.cur, Sending)
  }

  lemma SendStopsShape(k: Kernel, r: Slot, msg: Message)
    requires Pid2Proc(k, k.procs[r].pid) == r && r != k.cur && !Accepts(k.procs[r], k.procs[k.cur].pid)
    ensures var l, m := Halted(k, msg), Send(k, k.procs[r].pid, msg);
      m.slots == l.slots && m.received == l.received
      && forall j: Slot :: m.procs[j] == l.procs[j].(senders := m.procs[j].senders)
  {
    hide Block;
    var x := Letter(k.procs[k.cur].pid, k.procs[r].pid, msg.(source := k.procs[k.cur].pid));
    BlockLogs(Put(k, k.cur, k.procs[k.cur].(msg := x.msg)), k.cur, Sending, k.sent + [x]);
  }

  lemma BufferPrepared(k: Kernel, msg: Message)
    ensures Prepared(k, Put(k, k.cur, k.procs[k.cur].(msg := msg)), k.cur)
  {
  }

  lemma HaltedRespects(k: Kernel, msg: Message)
    requires Inv(k) && k.cur != TASK_IDLE
    ensures RespectsMail(k, Halted(k, msg)) && forall j: Slot :: Alive(Halted(k, msg), j) <==> Alive(k, j)
  {
    InvParts(k);
    var k1 := Put(k, k.cur, k.procs[k.cur].(msg := msg.(source := k.procs[k.cur].pid)));
    BufferPrepared(k, msg.(source := k.procs[k.cur].pid));
    hide Inv, Core, Scheduling, Block, SameMailbox, RespectsMail, Alive, Prepared;
    BufferKeeps(k, k1.procs[k.cur]);
    BlockMailbox(k1, Sending);
    StoppedRespects(k, k1, Halted(k, msg), false);
  }

  lemma SendStops(k: Kernel, r: Slot, msg: Message)
    requires Inv(k) && k.cur != TASK_IDLE && Pid2Proc(k, k.procs[r].pid) == r && r != k.cur
    requires !Accepts(k.procs[r], k.procs[k.cur].pid)
    ensures RespectsMail(k, Send(k, k.procs[r].pid, msg))
    ensures forall j: Slot :: Alive(Send(k, k.procs[r].pid, msg), j) <==> Alive(k, j)
  {
    hide Inv, Send, Halted, RespectsMail;
    HaltedRespects(k, msg);
    SendStopsShape(k, r, msg);
    SameRecords(k, Halted(k, msg), Send(k, k.procs[r].pid, msg));
  }

  lemma SameRecords(k: Kernel, l: Kernel, m: Kernel)
    requires RespectsMail(k, l) && m.slots == l.slots && m.received == l.received
    requires forall j: Slot :: m.procs[j] == l.procs[j].(senders := m.procs[j].senders)
    ensures RespectsMail(k, m) && forall j: Slot :: Alive(m, j) <==> Alive(l, j)
  {
  }

  lemma SendRespects(k: Kernel, dest: nat, msg: Message)
    requires Inv(k) && k.cur != TASK_IDLE && dest != k.procs[k.cur].pid
    ensures RespectsMail(k, Send(k, dest, msg))
    ensures forall j: Slot :: Alive(Send(k, dest, msg), j) <==> Alive(k, j)
  {
    InvParts(k);
    var r := Pid2Proc(k, dest);
    if r == -1 {
      SendNowhere(k, dest, msg);
    } else {
      LookupFinds(k, dest);
      hide Inv, Core, Scheduling, Send, RespectsMail;
      if Accepts(k.procs[r], k.procs[k.cur].pid) {
        SendWakes(k, r, msg);
      } else if r != k.cur {
        SendStops(k, r, msg);
      }
    }
  }

  lemma BlockLogs(k: Kernel, i: Slot, reason: Reason, sent: seq<Letter>)
    ensures Block(k.(sent := sent), i, reason) == Block(k, i, reason).(sent := sent)
  {
  }

  lemma IntrWakes(k: Kernel, r: Slot)
    requires Inv(k) && Live(k, r) && k.procs[r].status.receiving && k.procs[r].recvfrom in {ANY, INTERRUPT}
    ensures var l := Unblock(Put(k, r, k.procs[r].(hasIntrMsg := false,
                     msg := k.procs[r].msg.(source := INTERRUPT, kind := HARD_INT))), r, Receiving);
      RespectsMail(k, l) && l.cur == k.cur && forall j: Slot :: Alive(l, j) <==> Alive(k, j)
  {
    hide Inv, Unblock, RespectsMail;
    WakingRespects(k, Put(k, r, k.procs[r].(hasIntrMsg := false,
                   msg := k.procs[r].msg.(source := INTERRUPT, kind := HARD_INT))), r);
  }

  lemma IntrSendRespects(k: Kernel, dest: nat)
    requires Inv(k)
    ensures RespectsMail(k, IntrSend(k, dest)) && IntrSend(k, dest).cur == k.cur
    ensures forall j: Slot :: Alive(IntrSend(k, dest), j) <==> Alive(k, j)
  {
    var r := Pid2Proc(k, dest);
    if r != -1 {
      LookupFinds(k, dest);
      hide Inv, Unblock, RespectsMail, Alive;
      if k.procs[r].status.receiving && k.procs[r].recvfrom in {ANY, INTERRUPT} {
        IntrWakes(k, r);
      } else {
        PendRespects(k, r);
      }
    } else {
      NothingRespects(k);
    }
  }

  lemma NothingRespects(k: Kernel)
    ensures RespectsMail(k, k)
  {
  }

  lemma PendRespects(k: Kernel, r: Slot)
    ensures var l := Put(k, r, k.procs[r].(hasIntrMsg := true)); RespectsMail(k, l) && forall j: Slot :: Alive(l, j) <==> Alive(k, j)
  {
  }

  lemma {:induction false} IntrSendAllRespects(k: Kernel, dests: seq<nat>)
    requires Inv(k)
    ensures RespectsMail(k, IntrSendAll(k, dests)) && IntrSendAll(k, dests).cur == k.cur
    ensures forall j: Slot :: Alive(IntrSendAll(k, dests), j) <==> Alive(k, j)
  {
    if dests == [] {
    } else {
      var l := IntrSendAll(k, dests[..|dests| - 1]);
      IntrSendAllRespects(k, dests[..|dests| - 1]);
      IntrSendAllKeeps(k, dests[..|dests| - 1]);
      InvParts(k);
      hide Inv, RespectsMail, IntrSend, Core, Scheduling;
      IntrSendRespects(l, dests[|dests| - 1]);
      RespectsBoth(k, l, IntrSendAll(k, dests));
    }
  }

  /** A step that touches nothing but the current process. */
  lemma OwnRespects(k: Kernel, p: Pcb)
    requires Scheduling(k) && p.status == k.procs[k.cur].status && p.pid == k.procs[k.cur].pid
    ensures RespectsMail(k, Put(k, k.cur, p)) && forall j: Slot :: Alive(Put(k, k.cur, p), j) <==> Alive(k, j)
  {
  }

  lemma PickUpRespects(k: Kernel, s: Slot)
    requires Inv(k) && InQueue(k, k.cur, s)
    ensures RespectsMail(k, PickUp(k, s)) && forall j: Slot :: Alive(PickUp(k, s), j) <==> Alive(k, j)
  {
    hide Inv, Core, Scheduling, Unblock, SameMailbox, RespectsMail, InQueue;
    InvParts(k);
    SenderSends(k, k.cur, s);
    var k1 := Put(k, k.cur, k.procs[k.cur].(senders := Without(k.procs[k.cur].senders, s), msg := k.procs[s].msg));
    SameSchedule(k, k1);
    UnblockMailbox(k1, s, Sending);
    PickedRespects(k, k1, PickUp(k, s), s);
  }

  /** The current process has the message of `s` in its record, and `s` may go on. */
  lemma PickedRespects(k: Kernel, k1: Kernel, l: Kernel, s: Slot)
    requires Prepared(k, k1, k.cur) && !k.procs[k.cur].status.receiving && !k.procs[s].status.receiving
    requires SameMailbox(k1, Unblock(k1, s, Sending), s, false) && l == Unblock(k1, s, Sending).(received := l.received)
    requires k1.received <= l.received
    ensures RespectsMail(k, l) && forall j: Slot :: Alive(l, j) <==> Alive(k, j)
  {
    hide Unblock;
    var l1 := Unblock(k1, s, Sending);
    assert forall j: Slot :: Alive(l, j) <==> Alive(l1, j);
  }

  lemma StopRespects(k: Kernel, src: nat)
    requires Inv(k) && k.cur != TASK_IDLE
    ensures var l := Block(Put(k, k.cur, k.procs[k.cur].(recvfrom := src)), k.cur, Receiving);
      RespectsMail(k, l) && forall j: Slot :: Alive(l, j) <==> Alive(k, j)
  {
    hide Inv, Core, Scheduling, Block, SameMailbox, Prepared, RespectsMail, Live;
    InvParts(k);
    var k1 := Put(k, k.cur, k.procs[k.cur].(recvfrom := src));
    BufferKeeps(k, k1.procs[k.cur]);
    BlockMailbox(k1, Receiving);
    WantPrepared(k, src);
    StoppedRespects(k, k1, Block(k1, k.cur, Receiving), true);
  }

  lemma WantPrepared(k: Kernel, src: nat)
    ensures Prepared(k, Put(k, k.cur, k.procs[k.cur].(recvfrom := src)), k.cur)
  {
  }

  lemma ListenRespects(k: Kernel, src: nat, window: seq<nat>)
    requires Inv(k) && k.cur != TASK_IDLE
    ensures RespectsMail(k, Listen(k, src, window)) && forall j: Slot :: Alive(Listen(k, src, window), j) <==> Alive(k, j)
  {
    InvParts(k);
    var k1 := IntrSendAll(k, window);
    IntrSendAllRespects(k, window);
    IntrSendAllKeeps(k, window);
    assert Scheduling(k1);
    hide Inv, Core, Scheduling, RespectsMail, IntrSendAll, Block;
    if TakesIntr(k1.procs[k.cur], src) {
      OwnRespects(k1, TakeIntr(k1, k.cur).procs[k.cur]);
    } else {
      StopRespects(k1, src);
    }
    RespectsBoth(k, k1, Listen(k, src, window));
  }

  lemma ReceiveRespects(k: Kernel, src: nat, buf: Message, window: seq<nat>)
    requires Inv(k) && k.cur != TASK_IDLE
    ensures RespectsMail(k, Receive(k, src, buf, window))
    ensures forall j: Slot :: Alive(Receive(k, src, buf, window), j) <==> Alive(k, j)
  {
    InvParts(k);
    var r := k.cur;
    var k1 := Put(k, r, k.procs[r].(msg := buf));
    BufferKeeps(k, k1.procs[r]);
    OwnRespects(k, k1.procs[r]);
    assert Scheduling(k1) && Live(k1, r);
    hide Inv, Core, Scheduling, PickUp, RespectsMail, Listen;
    if src != ANY && src != INTERRUPT && Pid2Proc(k1, src) == -1 {
    } else if TakesIntr(k1.procs[r], src) {
      OwnRespects(k1, TakeIntr(k1, r).procs[r]);
      RespectsBoth(k, k1, TakeIntr(k1, r));
    } else if PickSender(k1, r, src) != -1 {
      PickUpRespects(k1, PickSender(k1, r, src));
      RespectsBoth(k, k1, PickUp(k1, PickSender(k1, r, src)));
    } else {
      ListenRespects(k1, src, window);
      RespectsBoth(k, k1, Listen(k1, src, window));
    }
  }

  /**
   * What a receive by the current process comes to: an error if the wanted sender does not exist, or a
   * message that was asked for, or a wait for one.
   */
  lemma ReceiveResult(k: Kernel, src: nat, buf: Message, window: seq<nat>)
    requires Inv(k) && k.cur != TASK_IDLE
    ensures var l, r := Receive(k, src, buf, window), k.cur;
      if src != ANY && src != INTERRUPT && Pid2Proc(k, src) == -1 then l == Put(k, r, k.procs[r].(msg := buf))
      else if l.procs[r].status.receiving then l.procs[r].recvfrom == src && l.procs[r].msg == buf && l.received == k.received
      else
        var m := l.procs[r].msg;
        && Permits(src, m.source)
        && (m.source == INTERRUPT ==> m.kind == HARD_INT && l.received == k.received)
        && (m.source != INTERRUPT ==> l.received == k.received + [Letter(m.source, k.procs[r].pid, m)])
  {
    hide Inv, Core, Scheduling, PickUp, Listen, PickSender;
    InvParts(k);
    var r := k.cur;
    var k1 := Put(k, r, k.procs[r].(msg := buf));
    BufferKeeps(k, k1.procs[r]);
    FindPidSame(k.procs, k1.procs, k.hash[src % 128], src);
    if src != ANY && src != INTERRUPT && Pid2Proc(k1, src) == -1 {
    } else if TakesIntr(k1.procs[r], src) {
    } else if PickSender(k1, r, src) != -1 {
      PickUpResult(k1, PickSender(k1, r, src));
    } else {
      ListenResult(k1, src, window);
    }
  }

  lemma PickUpResult(k: Kernel, s: Slot)
    requires Inv(k) && InQueue(k, k.cur, s)
    ensures var l, r := PickUp(k, s), k.cur;
      && !l.procs[r].status.receiving && l.procs[r].msg == k.procs[s].msg
      && l.procs[r].msg.source == k.procs[s].pid < NO_PROC
      && l.received == k.received + [Letter(k.procs[s].pid, k.procs[r].pid, k.procs[s].msg)]
  {
    hide Inv, Core, Scheduling, InQueue;
    InvParts(k);
    SenderSends(k, k.cur, s);
    QueuedPid(k, k.cur, s);
    QueuedSigned(k, k.cur, s);
  }

  /** A message that waits is signed by the process that waits with it. */
  lemma QueuedSigned(k: Kernel, q: Slot, s: Slot)
    requires Inv(k) && InQueue(k, q, s)
    ensures k.procs[s].msg.source == k.procs[s].pid
  {
    var a, b := k.procs[s].pid, k.procs[q].pid;
    assert Waits(k, q, s, a, b);
    OutstandingOf(k, q, s, a, b);
    Signed(k.sent, a, b);
    var w := Between(k.received, a, b);
    assert Between(k.sent, a, b) == w + [k.procs[s].msg];
    assert Between(k.sent, a, b)[|w|] == k.procs[s].msg;
  }

  lemma ListenResult(k: Kernel, src: nat, window: seq<nat>)
    requires Inv(k) && k.cur != TASK_IDLE
    ensures var l, r := Listen(k, src, window), k.cur;
      && l.received == k.received
      && if l.procs[r].status.receiving then l.procs[r].recvfrom == src && l.procs[r].msg == k.procs[r].msg
         else Permits(src, l.procs[r].msg.source) && l.procs[r].msg.source == INTERRUPT && l.procs[r].msg.kind == HARD_INT
  {
    InvParts(k);
    var r := k.cur;
    IntrAllUndisturbed(k, window);
    IntrAllLogs(k, window);
    IntrSendAllKeeps(k, window);
    var k1 := IntrSendAll(k, window);
    hide Inv, Core, Scheduling, IntrSendAll, Block;
    if !TakesIntr(k1.procs[r], src) {
      var k2 := Put(k1, r, k1.procs[r].(recvfrom := src));
      BufferKeeps(k1, k2.procs[r]);
      BlockMailbox(k2, Receiving);
      BlockReceived(k2, r);
    }
  }

  lemma BlockReceived(k: Kernel, i: Slot)
    ensures Block(k, i, Receiving).received == k.received
  {
  }

  lemma {:induction false} IntrAllLogs(k: Kernel, dests: seq<nat>)
    ensures IntrSendAll(k, dests).received == k.received
  {
    if dests == [] {
    } else {
      IntrAllLogs(k, dests[..|dests| - 1]);
    }
  }

  /** Steps that leave records, wishes and receiving bits alone, except of processes that are gone or dead afterwards. */
  lemma QuietRespects(k: Kernel, l: Kernel)
    requires l.received == k.received && forall r: Slot :: Live(k, r) ==> l.procs[r].pid == k.procs[r].pid
    requires forall r: Slot :: l.procs[r].msg == k.procs[r].msg && l.procs[r].recvfrom == k.procs[r].recvfrom
    requires forall r: Slot :: l.procs[r].status.receiving ==> k.procs[r].status.receiving
    requires forall r: Slot :: k.procs[r].status.receiving && Live(k, r) && Alive(l, r) ==> l.procs[r].status.receiving
    ensures RespectsMail(k, l)
  {
  }

  lemma SpawnRespects(k: Kernel, p: Slot)
    requires MaySpawn(k, p) && k.slots[0] != p && !Live(k, k.slots[0])
    requires forall j: Slot :: j != k.slots[0] ==> (Live(Spawn(k, p), j) <==> Live(k, j))
    ensures RespectsMail(k, Spawn(k, p))
  {
    hide RespectsMail;
    QuietRespects(k, Spawn(k, p));
  }

  lemma SleepRespects(k: Kernel, p: Slot, child: nat)
    ensures RespectsMail(k, SleepFor(k, p, child))
  {
    hide RespectsMail;
    QuietRespects(k, SleepFor(k, p, child));
  }

  lemma ExecuteRespects(k: Kernel, parent: nat, hasMemory: bool)
    requires Inv(k) && k.nextPid < NO_PROC
    requires var p := Pid2Proc(k, parent); p != -1 && Alive(k, p) && p != TASK_SYS && p != TASK_IDLE
    ensures RespectsMail(k, Execute(k, parent, hasMemory))
  {
    if k.slots != [] && hasMemory {
      var p := Pid2Proc(k, parent);
      SpawnSlots(k, p);
      ExecuteSpawns(k, parent);
      InvParts(k);
      hide Inv, Execute, RespectsMail, Core, Scheduling;
      SpawnRespects(k, p);
    } else {
      QuietRespects(k, k);
    }
  }

  lemma DieRespects(k: Kernel, i: Slot, status: int)
    ensures RespectsMail(k, Die(k, i, status)) && forall j: Slot :: Alive(Die(k, i, status), j) <==> Alive(k, j) && j != i
  {
    DieShape(k, i, status);
    hide Die, RespectsMail;
    QuietRespects(k, Die(k, i, status));
  }

  lemma ReapRespects(k: Kernel, k2: Kernel, p: Slot, i: Slot, status: int)
    requires Registry(k) && Scheduling(k2) && Corpse(k, i) && OnlyUnwaits(k, k2, p) && p != i
    ensures var l := Reap(k2, p, i, status); RespectsMail(k, l) && forall j: Slot :: Alive(l, j) <==> Alive(k, j)
  {
    hide Registry, Scheduling, RespectsMail, Reap, Live;
    ReapSchedule(k, k2, p, i, status);
    ReapShape(k2, p, i, status);
    ReclaimRest(k2, i);
    QuietRespects(k, Reap(k2, p, i, status));
  }

  lemma AfterDeathRespects(k: Kernel, i: Slot, status: int)
    requires InvBut(k, i) && Corpse(k, i) && k.cur == TASK_SYS && (GoneAtExit(k, i) ==> k.procs[i].senders == [])
    ensures RespectsMail(k, AfterDeath(k, i, status))
    ensures forall j: Slot :: Alive(AfterDeath(k, i, status), j) <==> Alive(k, j)
  {
    var parent := k.procs[i].parent;
    var p := Pid2Proc(k, parent);
    ParentFound(k, i);
    if parent == NO_PROC {
      ReclaimSlots(k, i);
      QuietRespects(k, k);
    } else if Awaited(k, p, i) {
      hide InvBut, RespectsMail, AfterDeath, Alive;
      AwaitedRespects(k, p, i, status);
    } else {
      QuietRespects(k, k);
    }
  }

  /** The rest of an exit that the parent waits for. */
  lemma AwaitedRespects(k: Kernel, p: Slot, i: Slot, status: int)
    requires InvBut(k, i) && Corpse(k, i) && k.cur == TASK_SYS && k.procs[i].senders == []
    requires k.procs[i].parent != NO_PROC && Pid2Proc(k, k.procs[i].parent) == p && ParentOf(k, p, i) && Awaited(k, p, i)
    ensures RespectsMail(k, AfterDeath(k, i, status))
    ensures forall j: Slot :: Alive(AfterDeath(k, i, status), j) <==> Alive(k, j)
  {
    hide InvBut, Inv, Unblock, Reap, Send, RespectsMail, Scheduling, Registry, OnlyUnwaits;
    InvButParts(k, i, p);
    UnwaitKeeps(k, p, i, k.procs[i].pid);
    var k2 := Unblock(Put(k, p, k.procs[p].(waitFor := k.procs[i].pid)), p, Waiting);
    InvButParts(k2, i, p);
    UnwaitedCorpse(k, k2, p, i);
    var k3 := Reap(k2, p, i, status);
    ReapRespects(k, k2, p, i, status);
    ReapKeeps(k2, p, i, status);
    ReapRest(k2, p, i, status);
    TaskIsNot(k3, p);
    SendRespects(k3, k3.procs[p].pid, Reply(status));
    RespectsBoth(k, k3, AfterDeath(k, i, status));
  }

  lemma UnwaitedCorpse(k: Kernel, k2: Kernel, p: Slot, i: Slot)
    requires OnlyUnwaits(k, k2, p) && Corpse(k, i) && p != i
    ensures MayReclaim(k2, i) <==> k.procs[i].senders == []
    ensures k2.cur == k.cur && k2.procs[p].pid == k.procs[p].pid && (Live(k2, p) <==> Live(k, p))
  {
  }

  lemma InvButParts(k: Kernel, i: Slot, p: Slot)
    requires InvBut(k, i)
    ensures Registry(k) && Scheduling(k) && k.procs[k.cur].status == RUNNING
    ensures Corpse(k, i) && Alive(k, p) ==> p != i
    ensures Pid2Proc(k, k.procs[i].parent) == p ==> k.procs[p].pid == k.procs[i].parent && Live(k, p)
  {
    LookupFinds(k, k.procs[i].parent);
  }

  lemma TaskIsNot(k: Kernel, p: Slot)
    requires Inv(k) && k.cur == TASK_SYS && Live(k, p) && p != TASK_SYS
    ensures k.procs[p].pid != k.procs[k.cur].pid
  {
  }

  lemma ExitRespects(k: Kernel, self: nat, status: int)
    requires Inv(k) && ExitCalled(k, self) && MayExit(k, Pid2Proc(k, self))
    ensures RespectsMail(k, Exit(k, self, status))
    ensures forall j: Slot :: Alive(Exit(k, self, status), j) <==> Alive(k, j) && j != Pid2Proc(k, self)
  {
    var i := Pid2Proc(k, self);
    DieKeeps(k, i, status);
    DieShape(k, i, status);
    DeathSameGone(k, i, status);
    DieRespects(k, i, status);
    InvParts(k);
    hide Inv, InvBut, Die, Exit, RespectsMail, AfterDeath;
    var k1 := Die(k, i, status);
    AfterDeathRespects(k1, i, status);
    RespectsBoth(k, k1, AfterDeath(k1, i, status));
  }

  lemma WaitRespects(k: Kernel, child: nat, parent: nat)
    requires Inv(k) && WaitCalled(k, parent) && MayWait(k, child, Pid2Proc(k, parent))
    ensures RespectsMail(k, Wait(k, child, parent)) && forall j: Slot :: Alive(Wait(k, child, parent), j) <==> Alive(k, j)
  {
    InvParts(k);
    var p := Pid2Proc(k, parent);
    TaskIsNot(k, p);
    if FoundByWait(k, child, p) != -1 {
      WaitFindsRespects(k, child, p);
    } else {
      WaitMissesRespects(k, child, p);
    }
  }

  lemma WaitFindsRespects(k: Kernel, child: nat, p: Slot)
    requires Inv(k) && WaitCalled(k, k.procs[p].pid) && MayWait(k, child, p) && Pid2Proc(k, k.procs[p].pid) == p
    requires p != TASK_SYS && p != TASK_IDLE && FoundByWait(k, child, p) != -1
    ensures RespectsMail(k, Wait(k, child, k.procs[p].pid))
    ensures forall j: Slot :: Alive(Wait(k, child, k.procs[p].pid), j) <==> Alive(k, j)
  {
    var c := FoundByWait(k, child, p);
    WaitCollects(k, child, p);
    ChildIsCorpse(k, p, c);
    hide Inv, Wait, Collect, RespectsMail;
    CollectRespects(k, p, c);
  }

  lemma WaitMissesRespects(k: Kernel, child: nat, p: Slot)
    requires Inv(k) && WaitCalled(k, k.procs[p].pid) && Pid2Proc(k, k.procs[p].pid) == p && FoundByWait(k, child, p) == -1
    requires p != TASK_SYS && p != TASK_IDLE
    ensures RespectsMail(k, Wait(k, child, k.procs[p].pid))
    ensures forall j: Slot :: Alive(Wait(k, child, k.procs[p].pid), j) <==> Alive(k, j)
  {
    WaitOtherwise(k, child, p);
    InvParts(k);
    hide Inv, Wait, Send, RespectsMail, Core, Scheduling, SleepFor;
    if WaitSleeps(k, child, p) {
      SleepShape(k, p, child);
      SleepRespects(k, p, child);
    } else {
      SendRespects(k, k.procs[p].pid, Reply(-1));
    }
  }

  lemma CollectRespects(k: Kernel, p: Slot, c: Slot)
    requires Inv(k) && k.cur == TASK_SYS && p != TASK_SYS && p != TASK_IDLE && ParentOf(k, p, c) && MayReclaim(k, c)
    requires c != p && !k.procs[p].status.waiting
    ensures RespectsMail(k, Collect(k, p, c)) && forall j: Slot :: Alive(Collect(k, p, c), j) <==> Alive(k, j)
  {
    hide Reap, Send, RespectsMail, Core, Registry, Scheduling, Queues, Histories, Reaped, ChildrenKnowParent, ParentKnowsChildren;
    var value := k.procs[c].exitStatus;
    var k3 := Reap(k, p, c, value);
    InvParts(k);
    assert OnlyUnwaits(k, k, p);
    ReapRespects(k, k, p, c, value);
    ReapKeeps(k, p, c, value);
    ReapRest(k, p, c, value);
    TaskIsNot(k3, p);
    SendRespects(k3, k3.procs[p].pid, Reply(value));
    RespectsBoth(k, k3, Collect(k, p, c));
  }

  /** What every step of every run respects. */
  lemma StepRespectsMail(k: Kernel, e: Event)
    requires Inv(k) && Enabled(k, e)
    ensures RespectsMail(k, Step(k, e))
  {
    hide Inv, RespectsMail, Schedule, Send, Receive, IntrSend, Execute, Exit, Wait, MayExit, MayWait, ExitCalled, WaitCalled;
    match e
    case Tick => ScheduleRespects(k);
    case SendTo(dest, msg) => SendRespects(k, dest, msg);
    case ReceiveFrom(src, buf, window) => ReceiveRespects(k, src, buf, window);
    case Interrupt(dest) => IntrSendRespects(k, dest);
    case Exec(parent, hasMemory) => ExecuteRespects(k, parent, hasMemory);
    case ExitOf(self, status) => ExitRespects(k, self, status);
    case WaitFor(child, parent) => WaitRespects(k, child, parent);
  }
}
