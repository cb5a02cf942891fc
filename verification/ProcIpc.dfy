/** Messages: what sending, receiving and interrupts keep. */
module ProcIpc {
  import opened Proc
  import opened ProcInv

  // ---------------------------------------------------------------- histories

  lemma {:induction false} FindPidSame(t: Table, u: Table, l: seq<Slot>, pid: nat)
    requires forall i: Slot :: u[i].pid == t[i].pid
    ensures FindPid(u, l, pid) == FindPid(t, l, pid)
  {
    if l == [] {
    } else {
      FindPidSame(t, u, l[1..], pid);
    }
  }

  /** A lookup depends on nothing but buckets and pids. */
  lemma SameLookup(k: Kernel, l: Kernel, pid: nat)
    requires l.hash == k.hash && forall j: Slot :: l.procs[j].pid == k.procs[j].pid
    ensures Pid2Proc(l, pid) == Pid2Proc(k, pid)
  {
    FindPidSame(k.procs, l.procs, k.hash[pid % 128], pid);
  }

  /** `s` waits in the queue of `q`, with a message from pid `a` to pid `b`. */
  predicate Waits(k: Kernel, q: Slot, s: Slot, a: nat, b: nat) {
    InQueue(k, q, s) && k.procs[s].pid == a && k.procs[q].pid == b
  }

  lemma OutstandingOf(k: Kernel, q: Slot, s: Slot, a: nat, b: nat)
    requires Registry(k) && QueuedSend(k) && Waits(k, q, s, a, b)
    ensures Outstanding(k, a, b) == [k.procs[s].msg]
  {
    LookupFinds(k, b);
    var t := FindPid(k.procs, k.procs[q].senders, a);
    assert InQueue(k, q, t);
    assert Live(k, s) && Live(k, t);
  }

  lemma OutstandingNone(k: Kernel, a: nat, b: nat)
    requires Registry(k) && forall q: Slot, s: Slot :: !Waits(k, q, s, a, b)
    ensures Outstanding(k, a, b) == []
  {
    LookupFinds(k, b);
    var q := Pid2Proc(k, b);
    if q != -1 {
      var s := FindPid(k.procs, k.procs[q].senders, a);
      if s != -1 {
        assert Waits(k, q, s, a, b);
      }
    }
  }

  /** When the same processes wait with the same messages, the same messages are outstanding. */
  lemma OutstandingSame(k: Kernel, l: Kernel, a: nat, b: nat)
    requires Registry(k) && QueuedSend(k) && Registry(l) && QueuedSend(l)
    requires forall q: Slot, s: Slot :: Waits(l, q, s, a, b) <==> Waits(k, q, s, a, b)
    requires forall q: Slot, s: Slot :: Waits(k, q, s, a, b) ==> l.procs[s].msg == k.procs[s].msg
    ensures Outstanding(l, a, b) == Outstanding(k, a, b)
  {
    if q: Slot, s: Slot :| Waits(k, q, s, a, b) {
      OutstandingOf(k, q, s, a, b);
      OutstandingOf(l, q, s, a, b);
    } else {
      OutstandingNone(k, a, b);
      OutstandingNone(l, a, b);
    }
  }

  lemma BetweenAppend(log: seq<Letter>, x: Letter, a: nat, b: nat)
    ensures Between(log + [x], a, b) == Between(log, a, b) + if x.from == a && x.to == b then [x.msg] else []
  {
    assert (log + [x])[..|log|] == log;
  }

  /** The two states have the same queues with the same messages in them, and the same histories. */
  ghost predicate SameMail(k: Kernel, l: Kernel) {
    && l.slots == k.slots && l.nextPid == k.nextPid && l.sent == k.sent && l.received == k.received
    && (forall i: Slot :: l.procs[i].pid == k.procs[i].pid && l.procs[i].senders == k.procs[i].senders)
    && (forall q: Slot, s: Slot :: InQueue(k, q, s) ==> l.procs[s].msg == k.procs[s].msg)
  }

  lemma SameMailHistories(k: Kernel, l: Kernel)
    requires SameMail(k, l) && Histories(k)
    requires Registry(k) && QueuedSend(k) && Registry(l) && QueuedSend(l)
    ensures Histories(l)
  {
    forall a: nat, b: nat
      ensures Between(l.sent, a, b) == Between(l.received, a, b) + Outstanding(l, a, b)
    {
      assert forall q: Slot, s: Slot :: Waits(l, q, s, a, b) <==> Waits(k, q, s, a, b);
      OutstandingSame(k, l, a, b);
    }
  }

  // ---------------------------------------------------------------- what stays the same

  /** Everything but the scheduling. */
  ghost predicate Core(k: Kernel) {
    Registry(k) && Queues(k) && Family(k) && Histories(k) && Reaped(k)
  }

  lemma SameCoreKeeps(k: Kernel, l: Kernel)
    requires SameCore(k, l) && Core(k)
    requires forall i: Slot :: k.procs[i].status.phase == Dead ==> !k.procs[i].status.Blocked()
    ensures Core(l)
  {
    hide Registry, QueuedSend, OneQueue, SendersQueued, NoMissedSender, NoMissedInterrupt, Family, Histories, Reaped, SameBut;
    SameCoreFamilies(k, l);
    SameFamiliesKeep(k, l);
    SameProcsBoxes(k, l);
    SameBoxesQueues(k, l);
    SameCoreMail(k, l);
    SameMailHistories(k, l);
  }

  lemma SameCoreMail(k: Kernel, l: Kernel)
    requires SameCore(k, l)
    ensures SameMail(k, l)
  {
    assert forall i: Slot :: SameBut(k.procs[i], l.procs[i]);
  }

  lemma SamePid(k: Kernel, i: Slot, j: Slot)
    requires Registry(k) && Live(k, i) && Live(k, j) && k.procs[i].pid == k.procs[j].pid
    ensures i == j
  {
  }

  /** A process that sends nothing is in no queue, so nothing of its own is outstanding. */
  lemma NothingOutstanding(k: Kernel, s: Slot, b: nat)
    requires Registry(k) && QueuedSend(k) && Live(k, s) && !k.procs[s].status.sending
    ensures Outstanding(k, k.procs[s].pid, b) == []
  {
    hide Registry, NoDup;
    forall q: Slot, t: Slot
      ensures !Waits(k, q, t, k.procs[s].pid, b)
    {
      if Waits(k, q, t, k.procs[s].pid, b) {
        SamePid(k, s, t);
      }
    }
    OutstandingNone(k, k.procs[s].pid, b);
  }

  // ---------------------------------------------------------------- a process that is in no queue changes

  /** `p` is process `i` with another message, another wish to receive or another interrupt flag. */
  predicate Touched(k: Kernel, i: Slot, p: Pcb) {
    p == k.procs[i].(msg := p.msg, hasIntrMsg := p.hasIntrMsg, recvfrom := p.recvfrom,
                     status := k.procs[i].status.(receiving := p.status.receiving))
  }

  lemma TouchedQueues(k: Kernel, i: Slot, p: Pcb)
    requires Queues(k) && Touched(k, i, p)
    requires k.procs[i].status.sending ==> p.msg == k.procs[i].msg && p.status == k.procs[i].status
    requires forall s: Slot :: InQueue(k, i, s) ==> !Accepts(p, k.procs[s].pid)
    requires p.status.receiving && p.hasIntrMsg ==> p.recvfrom != ANY && p.recvfrom != INTERRUPT
    ensures Queues(Put(k, i, p))
  {
    var l := Put(k, i, p);
    assert forall q: Slot, t: Slot :: InQueue(l, q, t) ==> InQueue(k, q, t);
    forall t: Slot | Live(l, t) && l.procs[t].status.sending
      ensures exists q: Slot :: InQueue(l, q, t)
    {
      var q: Slot :| InQueue(k, q, t);
      assert InQueue(l, q, t);
    }
  }

  lemma TouchedMail(k: Kernel, i: Slot, p: Pcb)
    requires QueuedSend(k) && Touched(k, i, p)
    requires k.procs[i].status.sending ==> p.msg == k.procs[i].msg
    ensures SameMail(k, Put(k, i, p))
  {
  }

  lemma TouchKeeps(k: Kernel, i: Slot, p: Pcb)
    requires Core(k) && Touched(k, i, p)
    requires k.procs[i].status.sending ==> p.msg == k.procs[i].msg && p.status == k.procs[i].status
    requires k.procs[i].status.phase == Dead ==> p.status == k.procs[i].status
    requires forall s: Slot :: InQueue(k, i, s) ==> !Accepts(p, k.procs[s].pid)
    requires p.status.receiving && p.hasIntrMsg ==> p.recvfrom != ANY && p.recvfrom != INTERRUPT
    ensures Core(Put(k, i, p))
  {
    hide Registry, QueuedSend, OneQueue, SendersQueued, NoMissedSender, NoMissedInterrupt, Family, Histories, Reaped;
    TouchedQueues(k, i, p);
    assert SameFamilies(k, Put(k, i, p));
    SameFamiliesKeep(k, Put(k, i, p));
    TouchedMail(k, i, p);
    SameMailHistories(k, Put(k, i, p));
  }

  // ---------------------------------------------------------------- a message goes straight through

  lemma LogBothKeeps(k: Kernel, x: Letter)
    requires Core(k) && x.from < k.nextPid && x.to < k.nextPid && x.msg.source == x.from
    requires Outstanding(k, x.from, x.to) == []
    ensures Core(k.(sent := k.sent + [x], received := k.received + [x]))
  {
    hide Registry, Queues, Family, Reaped, Between, Outstanding;
    var l := k.(sent := k.sent + [x], received := k.received + [x]);
    LogBothOthers(k, l);
    forall a: nat, b: nat
      ensures Between(l.sent, a, b) == Between(l.received, a, b) + Outstanding(l, a, b)
    {
      BetweenAppend(k.sent, x, a, b);
      BetweenAppend(k.received, x, a, b);
      SameOutstanding(k, l, a, b);
    }
  }

  lemma SameOutstanding(k: Kernel, l: Kernel, a: nat, b: nat)
    requires l.procs == k.procs && l.hash == k.hash
    ensures Outstanding(l, a, b) == Outstanding(k, a, b)
  {
  }

  lemma LogBothOthers(k: Kernel, l: Kernel)
    requires Core(k) && l == k.(sent := l.sent, received := l.received)
    ensures Registry(l) && Queues(l) && Family(l) && Reaped(l)
  {
    hide Registry, Queues, Family, Histories, Reaped;
    SameFamiliesKeep(k, l);
    SameProcsBoxes(k, l);
    SameBoxesQueues(k, l);
  }

  // ---------------------------------------------------------------- a message waits

  /** `s` stops in front of `r`'s door with message `m`. */
  function Enqueue(k: Kernel, s: Slot, r: Slot, m: Message): Kernel {
    var k1 := Put(k, s, k.procs[s].(msg := m, status := k.procs[s].status.(sending := true)));
    Put(k1, r, k1.procs[r].(senders := k1.procs[r].senders + [s]))
    .(sent := k.sent + [Letter(k.procs[s].pid, k.procs[r].pid, m)])
  }

  predicate MayEnqueue(k: Kernel, s: Slot, r: Slot) {
    && Live(k, s) && Live(k, r) && s != r
    && !k.procs[s].status.Blocked() && k.procs[s].status.phase != Dead
    && !Accepts(k.procs[r], k.procs[s].pid)
  }

  lemma EnqueueInQueue(k: Kernel, s: Slot, r: Slot, m: Message)
    requires QueuedSend(k) && MayEnqueue(k, s, r)
    ensures forall q: Slot, t: Slot :: InQueue(Enqueue(k, s, r, m), q, t) <==> InQueue(k, q, t) || (q == r && t == s)
    ensures forall q: Slot, t: Slot :: InQueue(k, q, t) ==> t != s
  {
  }

  lemma EnqueueQueues(k: Kernel, s: Slot, r: Slot, m: Message)
    requires Queues(k) && MayEnqueue(k, s, r)
    ensures Queues(Enqueue(k, s, r, m))
  {
    var l := Enqueue(k, s, r, m);
    EnqueueInQueue(k, s, r, m);
    assert s !in k.procs[r].senders by {
      assert InQueue(k, r, s) <==> s in k.procs[r].senders;
    }
    assert InQueue(l, r, s);
    forall t: Slot | Live(l, t) && l.procs[t].status.sending
      ensures exists q: Slot :: InQueue(l, q, t)
    {
      if t != s {
        var q: Slot :| InQueue(k, q, t);
        assert InQueue(l, q, t);
      }
    }
  }

  lemma EnqueueOutstanding(k: Kernel, s: Slot, r: Slot, m: Message, a: nat, b: nat)
    requires Registry(k) && QueuedSend(k) && MayEnqueue(k, s, r)
    requires Registry(Enqueue(k, s, r, m)) && QueuedSend(Enqueue(k, s, r, m))
    ensures if a == k.procs[s].pid && b == k.procs[r].pid
            then Outstanding(k, a, b) == [] && Outstanding(Enqueue(k, s, r, m), a, b) == [m]
            else Outstanding(Enqueue(k, s, r, m), a, b) == Outstanding(k, a, b)
  {
    hide Registry, QueuedSend;
    var l := Enqueue(k, s, r, m);
    EnqueueInQueue(k, s, r, m);
    if a == k.procs[s].pid && b == k.procs[r].pid {
      NothingOutstanding(k, s, b);
      assert Waits(l, r, s, a, b);
      OutstandingOf(l, r, s, a, b);
    } else {
      assert forall q: Slot, t: Slot :: Waits(l, q, t, a, b) <==> Waits(k, q, t, a, b);
      OutstandingSame(k, l, a, b);
    }
  }

  lemma EnqueueKeeps(k: Kernel, s: Slot, r: Slot, m: Message)
    requires Core(k) && MayEnqueue(k, s, r) && m.source == k.procs[s].pid
    ensures Core(Enqueue(k, s, r, m))
  {
    hide QueuedSend, OneQueue, SendersQueued, NoMissedSender, NoMissedInterrupt, Family, Reaped, Between, Outstanding;
    var l := Enqueue(k, s, r, m);
    SameFamiliesKeep(k, l);
    EnqueueQueues(k, s, r, m);
    var x := Letter(k.procs[s].pid, k.procs[r].pid, m);
    forall a: nat, b: nat
      ensures Between(l.sent, a, b) == Between(l.received, a, b) + Outstanding(l, a, b)
    {
      BetweenAppend(k.sent, x, a, b);
      EnqueueOutstanding(k, s, r, m, a, b);
    }
  }

  // ---------------------------------------------------------------- a waiting message is picked up

  /** `r` takes the message of `s`, which waited for it. */
  function Dequeue(k: Kernel, s: Slot, r: Slot): Kernel {
    var m := k.procs[s].msg;
    var k1 := Put(k, r, k.procs[r].(senders := Without(k.procs[r].senders, s), msg := m));
    Put(k1, s, k1.procs[s].(status := k1.procs[s].status.(sending := false)))
    .(received := k.received + [Letter(k.procs[s].pid, k.procs[r].pid, m)])
  }

  predicate MayDequeue(k: Kernel, s: Slot, r: Slot) {
    InQueue(k, r, s) && s != r && !k.procs[r].status.sending && k.procs[s].status.phase != Dead
  }

  lemma DequeueInQueue(k: Kernel, s: Slot, r: Slot)
    requires QueuedSend(k) && MayDequeue(k, s, r)
    ensures forall q: Slot, t: Slot :: InQueue(Dequeue(k, s, r), q, t) <==> InQueue(k, q, t) && !(q == r && t == s)
    ensures forall q: Slot, t: Slot :: InQueue(k, q, t) ==> t != r
  {
    WithoutHas(k.procs[r].senders, s);
    assert forall t: Slot :: t in Dequeue(k, s, r).procs[r].senders <==> t in k.procs[r].senders && t != s;
  }

  lemma DequeueQueues(k: Kernel, s: Slot, r: Slot)
    requires Queues(k) && MayDequeue(k, s, r)
    ensures Queues(Dequeue(k, s, r))
  {
    var l := Dequeue(k, s, r);
    DequeueInQueue(k, s, r);
    WithoutHas(k.procs[r].senders, s);
    forall q: Slot, t: Slot | InQueue(l, q, t)
      ensures t != s
    {
      assert InQueue(k, q, t) && InQueue(k, r, s);
    }
    forall t: Slot | Live(l, t) && l.procs[t].status.sending
      ensures exists q: Slot :: InQueue(l, q, t)
    {
      var q: Slot :| InQueue(k, q, t);
      assert InQueue(l, q, t);
    }
  }

  lemma DequeueOutstanding(k: Kernel, s: Slot, r: Slot, a: nat, b: nat)
    requires Registry(k) && QueuedSend(k) && OneQueue(k) && MayDequeue(k, s, r)
    requires Registry(Dequeue(k, s, r)) && QueuedSend(Dequeue(k, s, r))
    ensures if a == k.procs[s].pid && b == k.procs[r].pid
            then Outstanding(k, a, b) == [k.procs[s].msg] && Outstanding(Dequeue(k, s, r), a, b) == []
            else Outstanding(Dequeue(k, s, r), a, b) == Outstanding(k, a, b)
  {
    hide Registry, QueuedSend;
    var l := Dequeue(k, s, r);
    DequeueInQueue(k, s, r);
    if a == k.procs[s].pid && b == k.procs[r].pid {
      assert Waits(k, r, s, a, b);
      OutstandingOf(k, r, s, a, b);
      assert Live(l, s) by {
        QueuedLive(k, r, s);
      }
      NothingOutstanding(l, s, b);
    } else {
      forall q: Slot, t: Slot
        ensures Waits(l, q, t, a, b) <==> Waits(k, q, t, a, b)
        ensures Waits(k, q, t, a, b) ==> l.procs[t].msg == k.procs[t].msg
      {
      }
      OutstandingSame(k, l, a, b);
    }
  }

  lemma QueuedLive(k: Kernel, q: Slot, s: Slot)
    requires QueuedSend(k) && InQueue(k, q, s)
    ensures Live(k, s) && k.procs[s].status.sending
  {
  }

  lemma DequeueKeeps(k: Kernel, s: Slot, r: Slot)
    requires Core(k) && MayDequeue(k, s, r)
    ensures Core(Dequeue(k, s, r))
  {
    hide QueuedSend, OneQueue, SendersQueued, NoMissedSender, NoMissedInterrupt, Family, Reaped, Histories, Registry;
    SameFamiliesKeep(k, Dequeue(k, s, r));
    DequeueQueues(k, s, r);
    DequeueHistories(k, s, r);
  }

  lemma DequeueHistories(k: Kernel, s: Slot, r: Slot)
    requires Registry(k) && QueuedSend(k) && OneQueue(k) && Histories(k) && MayDequeue(k, s, r)
    requires Registry(Dequeue(k, s, r)) && QueuedSend(Dequeue(k, s, r))
    ensures Histories(Dequeue(k, s, r))
  {
    hide Registry, QueuedSend, OneQueue, Between, Outstanding, InQueue, Histories;
    QueuedLive(k, r, s);
    QueuedBound(k, r, s);
    var l := Dequeue(k, s, r);
    var x := Letter(k.procs[s].pid, k.procs[r].pid, k.procs[s].msg);
    forall a: nat, b: nat
      ensures Outstanding(k, a, b) == (if a == x.from && b == x.to then [x.msg] else []) + Outstanding(l, a, b)
    {
      DequeueOutstanding(k, s, r, a, b);
    }
    OneMoreReceived(k, l, x);
  }

  lemma QueuedBound(k: Kernel, q: Slot, s: Slot)
    requires Registry(k) && InQueue(k, q, s) && Live(k, s)
    ensures k.procs[q].pid < k.nextPid && k.procs[s].pid < k.nextPid
  {
  }

  lemma OneMoreReceived(k: Kernel, l: Kernel, x: Letter)
    requires Histories(k) && l.sent == k.sent && l.received == k.received + [x] && l.nextPid == k.nextPid
    requires x.from < k.nextPid && x.to < k.nextPid
    requires forall a: nat, b: nat ::
      Outstanding(k, a, b) == (if a == x.from && b == x.to then [x.msg] else []) + Outstanding(l, a, b)
    ensures Histories(l)
  {
    hide Between, Outstanding;
    forall a: nat, b: nat
      ensures Between(l.sent, a, b) == Between(l.received, a, b) + Outstanding(l, a, b)
    {
      BetweenAppend(k.received, x, a, b);
      var one := if a == x.from && b == x.to then [x.msg] else [];
      assert Between(k.received, a, b) + (one + Outstanding(l, a, b)) == Between(k.received, a, b) + one + Outstanding(l, a, b);
    }
  }

}
