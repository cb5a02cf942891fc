/** Who is received from first: whoever sent first, over whole runs. */
module ProcOrder {
  import opened Proc
  import opened ProcInv
  import opened ProcIpc
  import opened ProcSteps
  import opened ProcLife
  import opened ProcExit
  import opened ProcRun
  import opened ProcMail
  import opened ProcInbox
  import opened ProcIntr

  // ---------------------------------------------------------------- from events

  /** The event sends a message from `a` to `b`. */
  predicate PostsTo(k: Kernel, e: Event, a: nat, b: nat) {
    exists x :: x in Posts(k, e) && x.from == a && x.to == b
  }

  /** The last event of a run that sends a message from `a` to `b`, or -1. */
  function LastPost(es: seq<Event>, a: nat, b: nat): (n: int)
    ensures -1 <= n < |es|
  {
    if es == [] then -1
    else if PostsTo(Run(Initial(), es[..|es| - 1]), es[|es| - 1], a, b) then |es| - 1
    else LastPost(es[..|es| - 1], a, b)
  }

  /** A message from `a` waits for `b`: it was sent, and `b` has not found it yet. */
  predicate Awaits(es: seq<Event>, a: nat, b: nat) {
    |Between(Outbox(es), a, b)| > |From(Inbox(es, b), a)|
  }

  // ---------------------------------------------------------------- queues

  /** The same queues of the same processes. */
  ghost predicate SameQueues(k: Kernel, l: Kernel) {
    l.slots == k.slots && forall j: Slot :: l.procs[j].pid == k.procs[j].pid && l.procs[j].senders == k.procs[j].senders
  }

  lemma QueuesBoth(k: Kernel, l: Kernel, m: Kernel)
    requires SameQueues(k, l) && SameQueues(l, m)
    ensures SameQueues(k, m)
  {
  }

  lemma ScheduleQueues(k: Kernel)
    ensures SameQueues(k, Schedule(k))
  {
  }

  lemma UnblockQueues(k: Kernel, i: Slot, reason: Reason)
    ensures SameQueues(k, Unblock(k, i, reason))
  {
  }

  lemma BlockQueues(k: Kernel, i: Slot, reason: Reason)
    ensures SameQueues(k, Block(k, i, reason))
  {
    hide Schedule;
    var k1 := SetStatus(k, i, With(k.procs[i].status, reason, true));
    ScheduleQueues(k1);
    assert SameQueues(k, k1);
    QueuesBoth(k, k1, Schedule(k1));
  }

  lemma {:induction false} IntrAllQueues(k: Kernel, dests: seq<nat>)
    ensures SameQueues(k, IntrSendAll(k, dests))
  {
    hide IntrSend, SameQueues;
    if dests == [] {
      assert SameQueues(k, k) by { QueuesSelf(k); }
    } else {
      var l := IntrSendAll(k, dests[..|dests| - 1]);
      IntrAllQueues(k, dests[..|dests| - 1]);
      IntrQueues(l, dests[|dests| - 1]);
      QueuesBoth(k, l, IntrSendAll(k, dests));
    }
  }

  lemma QueuesSelf(k: Kernel)
    ensures SameQueues(k, k)
  {
  }

  lemma IntrQueues(k: Kernel, dest: nat)
    ensures SameQueues(k, IntrSend(k, dest))
  {
    hide Unblock, Pid2Proc;
    var r := Pid2Proc(k, dest);
    if r != -1 {
      var p := k.procs[r];
      UnblockQueues(Put(k, r, p.(hasIntrMsg := false, msg := p.msg.(source := INTERRUPT, kind := HARD_INT))), r, Receiving);
    }
  }

  /** Somebody has left the queue. */
  ghost predicate OneGone(p: seq<Slot>, q: seq<Slot>) {
    exists s: Slot :: q == Without(p, s)
  }

  /** What can become of the queue of `r` in an event in which `who` may send. */
  ghost predicate Fairly(k: Kernel, l: Kernel, r: Slot, who: Slot) {
    l.procs[r].senders == []
    || (&& Live(k, r) && l.procs[r].pid == k.procs[r].pid
        && (forall s :: s in l.procs[r].senders ==> l.procs[s].pid == k.procs[s].pid)
        && (|| l.procs[r].senders == k.procs[r].senders
            || OneGone(k.procs[r].senders, l.procs[r].senders)
            || l.procs[r].senders == k.procs[r].senders + [who]))
  }

  /** Queues only grow at their end, by the current process. */
  ghost predicate FirstInLine(k: Kernel, l: Kernel) {
    forall r: Slot :: Live(l, r) ==> Fairly(k, l, r, k.cur)
  }

  lemma SameIsFair(k: Kernel, l: Kernel)
    requires SameQueues(k, l)
    ensures FirstInLine(k, l)
  {
  }

  lemma SendFair(k: Kernel, dest: nat, msg: Message)
    ensures FirstInLine(k, Send(k, dest, msg))
  {
    hide Unblock, Block, SameQueues, Fairly, Pid2Proc, Live;
    SendLine(k, dest, msg);
    FairFromLine(k, Send(k, dest, msg));
  }

  /** The queues are the same, but that the current process may be at the end. */
  ghost predicate LineGrows(k: Kernel, l: Kernel) {
    && l.slots == k.slots
    && forall j: Slot :: l.procs[j].pid == k.procs[j].pid
         && (l.procs[j].senders == k.procs[j].senders || l.procs[j].senders == k.procs[j].senders + [k.cur])
  }

  lemma FairFromLine(k: Kernel, l: Kernel)
    requires LineGrows(k, l)
    ensures FirstInLine(k, l)
  {
  }

  lemma SendLine(k: Kernel, dest: nat, msg: Message)
    ensures LineGrows(k, Send(k, dest, msg))
  {
    hide Unblock, Block;
    var r := Pid2Proc(k, dest);
    if r != -1 {
      var m := msg.(source := k.procs[k.cur].pid);
      var k1 := Put(k, k.cur, k.procs[k.cur].(msg := m)).(sent := k.sent + [Letter(k.procs[k.cur].pid, dest, m)]);
      UnblockQueues(Put(k1, r, k1.procs[r].(msg := m)), r, Receiving);
      BlockQueues(k1, k.cur, Sending);
    }
  }

  lemma ReceiveFair(k: Kernel, src: nat, buf: Message, window: seq<nat>)
    ensures FirstInLine(k, Receive(k, src, buf, window))
  {
    hide PickUp, Listen, FirstInLine, SameQueues, PickSender, Pid2Proc;
    var k1 := Put(k, k.cur, k.procs[k.cur].(msg := buf));
    ReceiveIsOneOf(k, src, buf, window);
    BufferQueues(k, buf);
    SameIsFair(k, k1);
    SameIsFair(k, TakeIntr(k1, k.cur));
    ListenQueues(k1, src, window);
    QueuesBoth(k, k1, Listen(k1, src, window));
    SameIsFair(k, Listen(k1, src, window));
    var s := PickSender(k1, k.cur, src);
    if s != -1 {
      PickUpFair(k, k1, s);
    }
  }

  lemma BufferQueues(k: Kernel, buf: Message)
    ensures var k1 := Put(k, k.cur, k.procs[k.cur].(msg := buf)); SameQueues(k, k1) && SameQueues(k, TakeIntr(k1, k.cur))
  {
  }

  lemma ListenQueues(k: Kernel, src: nat, window: seq<nat>)
    ensures SameQueues(k, Listen(k, src, window))
  {
    hide Block, IntrSendAll, SameQueues;
    var k1 := IntrSendAll(k, window);
    IntrAllQueues(k, window);
    WantQueues(k1, k.cur, src);
    QueuesBoth(k, k1, TakeIntr(k1, k.cur));
    var k2 := Put(k1, k.cur, k1.procs[k.cur].(recvfrom := src));
    BlockQueues(k2, k.cur, Receiving);
    QueuesBoth(k, k1, k2);
    QueuesBoth(k, k2, Block(k2, k.cur, Receiving));
  }

  lemma WantQueues(k: Kernel, r: Slot, src: nat)
    ensures SameQueues(k, TakeIntr(k, r)) && SameQueues(k, Put(k, r, k.procs[r].(recvfrom := src)))
  {
  }

  lemma PickUpFair(k: Kernel, k1: Kernel, s: Slot)
    requires k1 == Put(k, k.cur, k.procs[k.cur].(msg := k1.procs[k.cur].msg))
    ensures FirstInLine(k, PickUp(k1, s))
  {
    hide Unblock;
    var k2 := Put(k1, k.cur, k1.procs[k.cur].(senders := Without(k1.procs[k.cur].senders, s), msg := k1.procs[s].msg));
    UnblockQueues(k2, s, Sending);
    assert OneGone(k.procs[k.cur].senders, PickUp(k1, s).procs[k.cur].senders);
  }

  lemma ExecuteFair(k: Kernel, parent: nat, hasMemory: bool)
    requires Inv(k)
    ensures FirstInLine(k, Execute(k, parent, hasMemory))
  {
    if k.slots != [] && hasMemory {
      NewQueue(k, parent);
      QueuedLiveAll(k);
      hide Inv, Execute;
      NewFair(k, Execute(k, parent, true), k.slots[0]);
    } else {
      hide Inv;
      QueuesSelf(k);
      SameIsFair(k, k);
    }
  }

  lemma NewQueue(k: Kernel, parent: nat)
    requires k.slots != []
    ensures var l := Execute(k, parent, true); var n := k.slots[0];
      && l.procs[n].senders == [] && l.slots == k.slots[1..]
      && forall j: Slot :: j != n ==> l.procs[j].senders == k.procs[j].senders && l.procs[j].pid == k.procs[j].pid
  {
  }

  lemma QueuedLiveAll(k: Kernel)
    requires Inv(k)
    ensures forall q: Slot, s: Slot :: Live(k, q) && s in k.procs[q].senders ==> Live(k, s)
  {
    assert forall q: Slot, s: Slot :: Live(k, q) && s in k.procs[q].senders ==> InQueue(k, q, s);
  }

  lemma NewFair(k: Kernel, l: Kernel, n: Slot)
    requires k.slots != [] && k.slots[0] == n && l.slots == k.slots[1..] && l.procs[n].senders == []
    requires forall j: Slot :: j != n ==> l.procs[j].senders == k.procs[j].senders && l.procs[j].pid == k.procs[j].pid
    requires forall q: Slot, s: Slot :: Live(k, q) && s in k.procs[q].senders ==> Live(k, s)
    ensures FirstInLine(k, l)
  {
    assert n in k.slots;
    assert forall j: Slot :: j in k.slots <==> j == n || j in k.slots[1..];
    forall r: Slot | Live(l, r)
      ensures Fairly(k, l, r, k.cur)
    {
      if r != n {
        forall s | s in l.procs[r].senders
          ensures l.procs[s].pid == k.procs[s].pid
        {
          assert Live(k, s);
        }
      }
    }
  }

  /** The queues of those that remain are the same. */
  ghost predicate RemainingQueues(k: Kernel, l: Kernel) {
    forall j: Slot :: l.procs[j].pid == k.procs[j].pid && l.procs[j].senders == k.procs[j].senders && (Live(l, j) ==> Live(k, j))
  }

  lemma RemainingBoth(k: Kernel, l: Kernel, m: Kernel)
    requires RemainingQueues(k, l) && RemainingQueues(l, m)
    ensures RemainingQueues(k, m)
  {
  }

  lemma RemainingSame(k: Kernel, l: Kernel)
    requires SameQueues(k, l)
    ensures RemainingQueues(k, l)
  {
    SameLive(k, l);
  }

  lemma DieQueues(k: Kernel, i: Slot, status: int)
    ensures SameQueues(k, Die(k, i, status))
  {
    DieShape(k, i, status);
  }

  lemma ReclaimQueuesOf(k: Kernel, i: Slot)
    ensures RemainingQueues(k, Reclaim(k, i))
  {
  }

  lemma ReapQueues(k: Kernel, p: Slot, i: Slot, status: int)
    ensures RemainingQueues(k, Reap(k, p, i, status))
  {
    hide Reap;
    ReapShape(k, p, i, status);
    ReclaimQueuesOf(k, i);
    SameLive(Reclaim(k, i), Reap(k, p, i, status));
    ReclaimRest(k, i);
  }

  lemma RemainingFair(k: Kernel, l3: Kernel, l: Kernel)
    requires RemainingQueues(k, l3) && LineGrows(l3, l) && l3.cur == k.cur
    ensures FirstInLine(k, l)
  {
    SameLive(l3, l);
    hide Live;
  }

  lemma RemainingIsFair(k: Kernel, l: Kernel)
    requires RemainingQueues(k, l)
    ensures FirstInLine(k, l)
  {
    hide Live;
  }

  lemma DepartedQueues(k: Kernel, i: Slot, p: Slot, status: int)
    ensures RemainingQueues(k, Departed(Die(k, i, status), i, p, status))
  {
    hide Die, Unblock, Reap, SameQueues, RemainingQueues;
    var k1 := Die(k, i, status);
    DieQueues(k, i, status);
    var k2 := Put(k1, p, k1.procs[p].(waitFor := k1.procs[i].pid));
    assert SameQueues(k1, k2) by { WaitForQueues(k1, p, k1.procs[i].pid); }
    var k3 := Unblock(k2, p, Waiting);
    UnblockQueues(k2, p, Waiting);
    QueuesBoth(k, k1, k2);
    QueuesBoth(k, k2, k3);
    RemainingSame(k, k3);
    ReapQueues(k3, p, i, status);
    RemainingBoth(k, k3, Reap(k3, p, i, status));
  }

  lemma WaitForQueues(k: Kernel, p: Slot, pid: nat)
    ensures SameQueues(k, Put(k, p, k.procs[p].(waitFor := pid)))
  {
  }

  lemma ExitFair(k: Kernel, self: nat, status: int)
    requires Inv(k) && ExitCalled(k, self) && MayExit(k, Pid2Proc(k, self))
    ensures FirstInLine(k, Exit(k, self, status))
  {
    hide Inv, Exit, Departed, Die, Send, Intact, MayExit, Awaited, RemainingQueues, LineGrows, FirstInLine;
    ExitShape(k, self, status);
    var i := Pid2Proc(k, self);
    var p := Pid2Proc(k, k.procs[i].parent);
    if k.procs[i].parent != NO_PROC && p != -1 && Awaited(k, p, i) {
      var l3 := Departed(Die(k, i, status), i, p, status);
      DepartedQueues(k, i, p, status);
      SendLine(l3, k.procs[i].parent, Reply(status));
      RemainingFair(k, l3, Exit(k, self, status));
    } else {
      ExitQueues(k, self, status);
      RemainingIsFair(k, Exit(k, self, status));
    }
  }

  lemma ExitQueues(k: Kernel, self: nat, status: int)
    requires Inv(k) && ExitCalled(k, self)
    requires var i := Pid2Proc(k, self); var p := Pid2Proc(k, k.procs[i].parent);
      !(k.procs[i].parent != NO_PROC && p != -1 && Awaited(k, p, i))
    ensures RemainingQueues(k, Exit(k, self, status))
  {
    var i := Pid2Proc(k, self);
    var k1 := Die(k, i, status);
    DieSameParent(k, i, status);
    DieQueues(k, i, status);
    hide Inv, Die, Send, Unblock, Awaited, RemainingQueues, SameQueues, Reclaim;
    ReclaimQueuesOf(k1, i);
    RemainingSame(k, k1);
    RemainingBoth(k, k1, Reclaim(k1, i));
  }

  lemma WaitFair(k: Kernel, child: nat, parent: nat)
    requires Inv(k) && WaitCalled(k, parent) && MayWait(k, child, Pid2Proc(k, parent))
    ensures FirstInLine(k, Wait(k, child, parent))
  {
    hide Inv, Wait, Send, Reap, FoundByWait, WaitSleeps, MayWait, Intact, Live, FirstInLine, LineGrows, RemainingQueues, SameQueues;
    var p := Pid2Proc(k, parent);
    WaiterLives(k, parent);
    if FoundByWait(k, child, p) != -1 {
      WaitFindsShape(k, child, p);
      var c := FoundByWait(k, child, p);
      var l3 := Reap(k, p, c, k.procs[c].exitStatus);
      ReapQueues(k, p, c, k.procs[c].exitStatus);
      SendLine(l3, parent, Reply(k.procs[c].exitStatus));
      ReapCur(k, p, c, k.procs[c].exitStatus);
      RemainingFair(k, l3, Wait(k, child, parent));
    } else {
      WaitOtherwise(k, child, p);
      if WaitSleeps(k, child, p) {
        SleepQueues(k, p, child);
        SameIsFair(k, SleepFor(k, p, child));
      } else {
        SendLine(k, parent, Reply(-1));
        FairFromLine(k, Send(k, parent, Reply(-1)));
      }
    }
  }

  lemma ReapCur(k: Kernel, p: Slot, i: Slot, status: int)
    ensures Reap(k, p, i, status).cur == k.cur
  {
  }

  lemma SleepQueues(k: Kernel, p: Slot, child: nat)
    ensures SameQueues(k, SleepFor(k, p, child))
  {
  }

  lemma StepFair(k: Kernel, e: Event)
    requires Inv(k) && Enabled(k, e)
    ensures FirstInLine(k, Step(k, e))
  {
    hide Inv, Schedule, Send, Receive, IntrSend, Execute, Exit, Wait, MayExit, MayWait, FirstInLine, Pid2Proc, SameQueues;
    match e
    case Tick => ScheduleQueues(k); SameIsFair(k, Step(k, e));
    case SendTo(dest, msg) => SendFair(k, dest, msg);
    case ReceiveFrom(src, buf, window) => ReceiveFair(k, src, buf, window);
    case Interrupt(dest) => IntrQueues(k, dest); SameIsFair(k, Step(k, e));
    case Exec(parent, hasMemory) => ExecuteFair(k, parent, hasMemory);
    case ExitOf(self, status) => ExitFair(k, self, status);
    case WaitFor(child, parent) => WaitFair(k, child, parent);
  }

  // ---------------------------------------------------------------- the order of a queue

  /** Everybody in a queue is there in the order of their last sends to its owner. */
  ghost predicate Ordered(k: Kernel, es: seq<Event>) {
    forall r: Slot, x: nat, y: nat :: Live(k, r) && x < y < |k.procs[r].senders| ==> Before(k, es, r, x, y)
  }

  ghost predicate Before(k: Kernel, es: seq<Event>, r: Slot, x: nat, y: nat)
    requires x < |k.procs[r].senders| && y < |k.procs[r].senders|
  {
    var q := k.procs[r].senders;
    LastPost(es, k.procs[q[x]].pid, k.procs[r].pid) < LastPost(es, k.procs[q[y]].pid, k.procs[r].pid)
  }

  /** What remains of a list is in the same order. */
  lemma {:induction false} WithoutPlaces(q: seq<Slot>, s: Slot, x: nat, y: nat) returns (u: nat, v: nat)
    requires x < y < |Without(q, s)|
    ensures u < v < |q| && Without(q, s)[x] == q[u] && Without(q, s)[y] == q[v]
  {
    if q[0] == s {
      u, v := x + 1, y + 1;
    } else if x == 0 {
      var w := WithoutPlace(q[1..], s, y - 1);
      u, v := 0, w + 1;
    } else {
      var a, b := WithoutPlaces(q[1..], s, x - 1, y - 1);
      u, v := a + 1, b + 1;
    }
  }

  lemma {:induction false} WithoutPlace(q: seq<Slot>, s: Slot, x: nat) returns (u: nat)
    requires x < |Without(q, s)|
    ensures u < |q| && Without(q, s)[x] == q[u]
  {
    if q[0] == s {
      u := x + 1;
    } else if x == 0 {
      u := 0;
    } else {
      var w := WithoutPlace(q[1..], s, x - 1);
      u := w + 1;
    }
  }

  /** Only the current process sends. */
  lemma PostsFromCurrent(k: Kernel, e: Event)
    requires Inv(k) && Enabled(k, e)
    ensures forall x :: x in Posts(k, e) ==> x.from == k.procs[k.cur].pid
  {
    SignedByPid(k);
    hide Inv, MayExit, MayWait, Awaited, FoundByWait, WaitSleeps, Pid2Proc;
  }

  lemma LastPostStep(es: seq<Event>, e: Event, a: nat, b: nat)
    ensures LastPost(es + [e], a, b) == if PostsTo(Run(Initial(), es), e, a, b) then |es| else LastPost(es, a, b)
  {
    hide PostsTo, Run;
    assert (es + [e])[..|es|] == es;
  }

  /** Who waits in a queue is not running. */
  lemma QueuedIsNotCurrent(k: Kernel, r: Slot, s: Slot)
    requires Inv(k) && Live(k, r) && s in k.procs[r].senders
    ensures Live(k, s) && s != k.cur && k.procs[s].pid != k.procs[k.cur].pid
  {
    assert InQueue(k, r, s);
    CurrentRuns(k);
    SenderSends(k, r, s);
    OneOwner(k, s, k.cur);
  }

  lemma OneOwner(k: Kernel, i: Slot, j: Slot)
    requires Inv(k) && Live(k, i) && Live(k, j)
    ensures k.procs[i].pid == k.procs[j].pid ==> i == j
  {
  }

  /** Those who were in a queue before the event have not sent in it. */
  lemma SameLastPost(k: Kernel, es: seq<Event>, e: Event, r: Slot, s: Slot)
    requires k == Run(Initial(), es) && Inv(k) && Enabled(k, e) && Live(k, r) && s in k.procs[r].senders
    ensures LastPost(es + [e], k.procs[s].pid, k.procs[r].pid) == LastPost(es, k.procs[s].pid, k.procs[r].pid)
  {
    hide Inv, Enabled, Posts, Run, Initial;
    QueuedIsNotCurrent(k, r, s);
    PostsFromCurrent(k, e);
    LastPostStep(es, e, k.procs[s].pid, k.procs[r].pid);
  }

  // ---------------------------------------------------------------- who is in a queue

  lemma {:induction false} BetweenJoined(a: seq<Letter>, b: seq<Letter>, x: nat, y: nat)
    ensures Between(a + b, x, y) == Between(a, x, y) + Between(b, x, y)
  {
    if b == [] {
      assert a + b == a;
    } else {
      var l := b[|b| - 1];
      assert (a + b)[..|a + b| - 1] == a + b[..|b| - 1];
      BetweenJoined(a, b[..|b| - 1], x, y);
      var one := if l.from == x && l.to == y then [l.msg] else [];
      assert Between(a, x, y) + (Between(b[..|b| - 1], x, y) + one) == Between(a, x, y) + Between(b[..|b| - 1], x, y) + one;
    }
  }

  lemma {:induction false} NoneBetween(log: seq<Letter>, a: nat, b: nat)
    requires forall x :: x in log ==> !(x.from == a && x.to == b)
    ensures Between(log, a, b) == []
  {
    if log == [] {
    } else {
      assert log[|log| - 1] in log;
      NoneBetween(log[..|log| - 1], a, b);
    }
  }

  lemma OutstandingIs(k: Kernel, a: nat, b: nat)
    requires Inv(k)
    ensures Between(k.sent, a, b) == Between(k.received, a, b) + Outstanding(k, a, b)
  {
    hide Registry, Scheduling, Queues, Family, Reaped, Outstanding, Between;
  }

  /** A message from `a` is outstanding exactly if the process with that pid is in the queue. */
  lemma OutstandingMeans(k: Kernel, a: nat, q: Slot)
    requires Inv(k) && Live(k, q)
    ensures Outstanding(k, a, k.procs[q].pid) != [] <==> exists s :: s in k.procs[q].senders && k.procs[s].pid == a
  {
    LookupFinds(k, k.procs[q].pid);
    hide Inv;
  }

  /** Who has come into a queue has sent in this event. */
  lemma JoinedHasPosted(k: Kernel, e: Event, r: Slot)
    requires Inv(k) && Enabled(k, e) && Inv(Step(k, e)) && Live(k, r) && Live(Step(k, e), r)
    requires Step(k, e).procs[r].senders == k.procs[r].senders + [k.cur] && Step(k, e).procs[r].pid == k.procs[r].pid
    requires Step(k, e).procs[k.cur].pid == k.procs[k.cur].pid && k.received <= Step(k, e).received
    ensures PostsTo(k, e, k.procs[k.cur].pid, k.procs[r].pid)
  {
    hide Inv, Enabled, Posts, Step, Outstanding, Between;
    var l := Step(k, e);
    var a, b := k.procs[k.cur].pid, k.procs[r].pid;
    StepPosts(k, e);
    OutstandingIs(k, a, b);
    OutstandingIs(l, a, b);
    OutstandingMeans(k, a, r);
    OutstandingMeans(l, a, r);
    assert k.cur in l.procs[r].senders;
    forall s | s in k.procs[r].senders
      ensures k.procs[s].pid != a
    {
      QueuedIsNotCurrent(k, r, s);
    }
    BetweenJoined(k.sent, Posts(k, e), a, b);
    assert l.received == k.received + l.received[|k.received|..];
    BetweenJoined(k.received, l.received[|k.received|..], a, b);
    if !PostsTo(k, e, a, b) {
      NoneBetween(Posts(k, e), a, b);
    }
  }

  /** An event keeps a queue in order. */
  lemma QueueStaysOrdered(k: Kernel, es: seq<Event>, e: Event, r: Slot, x: nat, y: nat)
    requires k == Run(Initial(), es) && Inv(k) && Enabled(k, e) && Inv(Step(k, e)) && Ordered(k, es)
    requires Fairly(k, Step(k, e), r, k.cur) && Live(Step(k, e), r) && x < y < |Step(k, e).procs[r].senders|
    requires Live(k, k.cur) && Live(Step(k, e), k.cur) && k.received <= Step(k, e).received
    ensures Before(Step(k, e), es + [e], r, x, y)
  {
    hide Inv, Enabled, Posts, Run, Initial, Step, LastPost;
    var l, fs := Step(k, e), es + [e];
    var q: seq<Slot>, p: seq<Slot> := l.procs[r].senders, k.procs[r].senders;
    if q == p + [k.cur] {
      assert q[x] == p[x];
      SameLastPost(k, es, e, r, q[x]);
      if y == |p| {
        assert k.cur in q;
        JoinedHasPosted(k, e, r);
        LastPostStep(es, e, k.procs[k.cur].pid, k.procs[r].pid);
      } else {
        SameLastPost(k, es, e, r, q[y]);
        assert Before(k, es, r, x, y);
      }
    } else {
      var u, v := StayedPlaces(p, q, x, y);
      SameLastPost(k, es, e, r, p[u]);
      SameLastPost(k, es, e, r, p[v]);
      assert Before(k, es, r, u, v);
    }
  }

  lemma StayedPlaces(p: seq<Slot>, q: seq<Slot>, x: nat, y: nat) returns (u: nat, v: nat)
    requires q == p || OneGone(p, q)
    requires x < y < |q|
    ensures u < v < |p| && q[x] == p[u] && q[y] == p[v]
  {
    if q == p {
      u, v := x, y;
    } else {
      var s: Slot :| q == Without(p, s);
      u, v := WithoutPlaces(p, s, x, y);
    }
  }

  lemma OrderedStep(k: Kernel, es: seq<Event>, e: Event)
    requires k == Run(Initial(), es) && Inv(k) && Enabled(k, e) && Inv(Step(k, e)) && Ordered(k, es)
    ensures Ordered(Step(k, e), es + [e])
  {
    hide Inv, Enabled, Run, Initial, Step, Before, Fairly, RespectsMail;
    StepFair(k, e);
    StepRespectsMail(k, e);
    MailGrows(k, Step(k, e));
    CurrentRuns(k);
    StillLive(k, e);
    forall r: Slot, x: nat, y: nat | Live(Step(k, e), r) && x < y < |Step(k, e).procs[r].senders|
      ensures Before(Step(k, e), es + [e], r, x, y)
    {
      QueueStaysOrdered(k, es, e, r, x, y);
    }
  }

  lemma MailGrows(k: Kernel, l: Kernel)
    requires RespectsMail(k, l)
    ensures k.received <= l.received
  {
  }

  /** The process that runs is still there after the event. */
  lemma StillLive(k: Kernel, e: Event)
    requires Inv(k) && Enabled(k, e)
    ensures Live(Step(k, e), k.cur)
  {
    hide Inv, Step, Enabled;
    CurrentRuns(k);
    StillAlive(k, e);
  }

  lemma StillAlive(k: Kernel, e: Event)
    requires Inv(k) && Enabled(k, e) && Alive(k, k.cur)
    ensures Alive(Step(k, e), k.cur)
  {
    hide Inv, Schedule, Send, Receive, IntrSend, Execute, Exit, Wait, MayExit, MayWait, RespectsMail, Alive;
    match e
    case Tick => ScheduleRespects(k);
    case SendTo(dest, msg) => SendRespects(k, dest, msg);
    case ReceiveFrom(src, buf, window) => ReceiveRespects(k, src, buf, window);
    case Interrupt(dest) => IntrSendRespects(k, dest);
    case Exec(parent, hasMemory) => ExecKeepsAlive(k, parent, hasMemory);
    case ExitOf(self, status) => ExitRespects(k, self, status);
    case WaitFor(child, parent) => WaitRespects(k, child, parent);
  }

  lemma ExecKeepsAlive(k: Kernel, parent: nat, hasMemory: bool)
    requires Alive(k, k.cur)
    ensures Alive(Execute(k, parent, hasMemory), k.cur)
  {
  }

  /** Over every run, queues are in the order of the sends. */
  lemma {:induction false} QueuesAreOrdered(es: seq<Event>)
    requires RunEnabled(Initial(), es)
    ensures Ordered(Run(Initial(), es), es)
  {
    hide Inv, Step, Enabled, Initial, Ordered;
    if es == [] {
      NoQueues();
    } else {
      var init, e := es[..|es| - 1], es[|es| - 1];
      RunKeepsInv(init);
      RunKeepsInv(es);
      QueuesAreOrdered(init);
      OrderedStep(Run(Initial(), init), init, e);
      assert init + [e] == es;
    }
  }

  lemma NoQueues()
    ensures Ordered(Initial(), [])
  {
    hide Before;
    assert forall r: Slot :: Initial().procs[r] == InitialPcb(r) && Initial().procs[r].senders == [];
  }

  // ---------------------------------------------------------------- who is received from

  /** Over every run: a message from `a` waits for `b` exactly if the process `a` is in the queue of `b`. */
  lemma AwaitsMeans(es: seq<Event>, a: nat, q: Slot)
    requires RunEnabled(Initial(), es) && Live(Run(Initial(), es), q)
    ensures var k := Run(Initial(), es); Awaits(es, a, k.procs[q].pid) <==> exists s :: s in k.procs[q].senders && k.procs[s].pid == a
  {
    hide Run, Initial, RunEnabled, Inv, Outstanding, Between, Outbox, Inbox, From, To;
    var k := Run(Initial(), es);
    var b := k.procs[q].pid;
    RunKeepsInv(es);
    LogsAreTrue(es, b);
    OutstandingIs(k, a, b);
    OutstandingMeans(k, a, q);
    ReceivedIsSigned(es, b);
    BetweenIsFrom(k.received, a, b);
    OutstandingOne(k, a, b);
  }

  lemma OutstandingOne(k: Kernel, a: nat, b: nat)
    ensures |Outstanding(k, a, b)| <= 1
  {
  }

  lemma ReceivedIsSigned(es: seq<Event>, b: nat)
    requires RunEnabled(Initial(), es)
    ensures forall l :: l in Run(Initial(), es).received && l.to == b ==> l.msg.source == l.from
  {
    hide Run, Initial, RunEnabled;
    var k := Run(Initial(), es);
    forall l | l in k.received && l.to == b
      ensures l.msg.source == l.from
    {
      LogsMatch(es, l.from, b);
      InBetween(k.received, l);
    }
  }

  /** A receive from anybody that does not end with an interrupt, and does not wait, takes the first in the queue. */
  lemma TakesFirst(k: Kernel, e: Event)
    requires Inv(k) && Enabled(k, e) && e.ReceiveFrom? && e.src == ANY
    requires var l := Step(k, e); !l.procs[k.cur].status.receiving && l.procs[k.cur].msg.source != INTERRUPT
    ensures k.procs[k.cur].senders != [] && Live(k, k.procs[k.cur].senders[0])
    ensures Step(k, e).procs[k.cur].msg.source == k.procs[k.procs[k.cur].senders[0]].pid
  {
    hide Inv, PickUp, Block, IntrSendAll, Receive;
    CurrentRuns(k);
    FirstLook(k, e.src, e.buf, e.window);
    var k1 := Put(k, k.cur, k.procs[k.cur].(msg := e.buf));
    if k.procs[k.cur].senders != [] {
      var s := k.procs[k.cur].senders[0];
      QueuedIsNotCurrent(k, k.cur, s);
      PickUpCurrent(k1, s);
      assert InQueue(k, k.cur, s);
      QueuedSigned(k, k.cur, s);
    } else {
      NobodyToTake(k, e);
    }
  }

  lemma NobodyToTake(k: Kernel, e: Event)
    requires Inv(k) && Enabled(k, e) && e.ReceiveFrom? && e.src == ANY && k.procs[k.cur].senders == []
    ensures var l := Step(k, e); l.procs[k.cur].status.receiving || l.procs[k.cur].msg.source == INTERRUPT
  {
    hide Inv, Block, IntrSendAll, Receive;
    CurrentRuns(k);
    FirstLook(k, ANY, e.buf, e.window);
    var k1 := Put(k, k.cur, k.procs[k.cur].(msg := e.buf));
    BufferKeeps(k, k1.procs[k.cur]);
    IntrAllUndisturbed(k1, e.window);
    IntrSendAllKeeps(k1, e.window);
    var k2 := IntrSendAll(k1, e.window);
    var k3 := Put(k2, k.cur, k2.procs[k.cur].(recvfrom := ANY));
    BufferKeeps(k2, k3.procs[k.cur]);
    BlockMailbox(k3, Receiving);
  }

  /**
   * First come, first served, over every run: when a receive from anybody ends with a message that has been waiting, then
   * of all whose messages wait for the receiver, its sender is the one who has sent first.
   */
  lemma FirstComeFirstServed(es: seq<Event>, e: Event, other: nat)
    requires RunEnabled(Initial(), es) && Enabled(Run(Initial(), es), e) && e.ReceiveFrom? && e.src == 0xffff_ffff
    requires var k := Run(Initial(), es); var l := Step(k, e);
      !l.procs[k.cur].status.receiving && l.procs[k.cur].msg.source != 0xffff_fffe
    ensures var k := Run(Initial(), es); var a, b := Step(k, e).procs[k.cur].msg.source, k.procs[k.cur].pid;
      && Awaits(es, a, b)
      && (Awaits(es, other, b) && other != a ==> LastPost(es, a, b) < LastPost(es, other, b))
  {
    hide Run, Initial, RunEnabled, Inv, Enabled, Step, Awaits, LastPost;
    var k := Run(Initial(), es);
    var r := k.cur;
    RunKeepsInv(es);
    CurrentRuns(k);
    TakesFirst(k, e);
    QueuesAreOrdered(es);
    var q := k.procs[r].senders;
    assert q[0] in q;
    AwaitsMeans(es, k.procs[q[0]].pid, r);
    AwaitsMeans(es, other, r);
    if Awaits(es, other, k.procs[r].pid) && other != k.procs[q[0]].pid {
      var s :| s in q && k.procs[s].pid == other;
      var y: nat :| y < |q| && q[y] == s;
      assert Before(k, es, r, 0, y);
    }
  }
}
