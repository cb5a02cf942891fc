/** The order of children: which of several dead children a wait for any collects. */
module ProcChildren {
  import opened Proc
  import opened ProcInv
  import opened ProcSteps
  import opened ProcLife
  import opened ProcExit
  import opened ProcRun
  import opened ProcMail
  import opened ProcInbox
  import opened ProcIntr
  import opened ProcPids
  import opened ProcAnswer
  import opened ProcWaits
  import ProcOrder
  import ProcReport

  // ---------------------------------------------------------------- who changes lists of children

  /** Everybody has the same pid and the same children. */
  ghost predicate SameKids(k: Kernel, l: Kernel) {
    forall j: Slot :: SameKid(k.procs[j], l.procs[j])
  }

  predicate SameKid(p: Pcb, q: Pcb) {
    q.pid == p.pid && q.children == p.children
  }

  lemma KidsBoth(k: Kernel, l: Kernel, m: Kernel)
    requires SameKids(k, l) && SameKids(l, m)
    ensures SameKids(k, m)
  {
    assert forall j: Slot :: SameKid(k.procs[j], l.procs[j]) && SameKid(l.procs[j], m.procs[j]);
  }

  lemma PutKids(k: Kernel, i: Slot, p: Pcb)
    requires SameKid(k.procs[i], p)
    ensures SameKids(k, Put(k, i, p))
  {
  }

  lemma ReadyKids(k: Kernel, i: Slot)
    ensures SameKids(k, MakeReady(k, i))
  {
  }

  lemma PopKids(k: Kernel)
    ensures SameKids(k, PopReady(k))
  {
  }

  lemma ScheduleKids(k: Kernel)
    ensures SameKids(k, Schedule(k))
  {
    hide SameKids;
    ReadyKids(k, k.cur);
    PopKids(k);
    PopKids(MakeReady(k, k.cur));
    if k.procs[k.cur].status == RUNNING {
      KidsBoth(k, MakeReady(k, k.cur), Schedule(k));
    }
  }

  lemma UnblockKids(k: Kernel, i: Slot, reason: Reason)
    ensures SameKids(k, Unblock(k, i, reason))
  {
  }

  lemma BlockKids(k: Kernel, i: Slot, reason: Reason)
    ensures SameKids(k, Block(k, i, reason))
  {
    hide Schedule, SameKids;
    var s := With(k.procs[i].status, reason, true);
    PutKids(k, i, k.procs[i].(status := s));
    ScheduleKids(SetStatus(k, i, s));
    KidsBoth(k, SetStatus(k, i, s), Schedule(SetStatus(k, i, s)));
    PutKids(k, i, k.procs[i]);
    StillKids(k, k.(ready := Without(k.ready, i)));
  }

  lemma StillKids(k: Kernel, l: Kernel)
    requires l.procs == k.procs
    ensures SameKids(k, l)
  {
  }

  /** As `SameKids`, for a state that is reached by way of two others. */
  lemma KidsOver(k: Kernel, a: Kernel, b: Kernel, l: Kernel)
    requires SameKids(k, a) && SameKids(a, b) && SameKids(b, l)
    ensures SameKids(k, l)
  {
    hide SameKids;
    KidsBoth(k, a, b);
    KidsBoth(k, b, l);
  }

  lemma SendKids(k: Kernel, dest: nat, msg: Message)
    ensures SameKids(k, Send(k, dest, msg))
  {
    hide Unblock, Block, Pid2Proc, SameKids;
    var s, r := k.cur, Pid2Proc(k, dest);
    if r == -1 {
      StillKids(k, k);
    } else {
      var m := msg.(source := k.procs[s].pid);
      PutKids(k, s, k.procs[s].(msg := m));
      var k1 := Put(k, s, k.procs[s].(msg := m)).(sent := k.sent + [Letter(k.procs[s].pid, dest, m)]);
      StillKids(Put(k, s, k.procs[s].(msg := m)), k1);
      KidsBoth(k, Put(k, s, k.procs[s].(msg := m)), k1);
      if Accepts(k1.procs[r], k.procs[s].pid) {
        var k2 := Put(k1, r, k1.procs[r].(msg := m));
        PutKids(k1, r, k2.procs[r]);
        UnblockKids(k2, r, Receiving);
        KidsOver(k, k1, k2, Unblock(k2, r, Receiving));
        StillKids(Unblock(k2, r, Receiving), Send(k, dest, msg));
        KidsBoth(k, Unblock(k2, r, Receiving), Send(k, dest, msg));
      } else {
        var k2 := Block(k1, s, Sending);
        BlockKids(k1, s, Sending);
        PutKids(k2, r, k2.procs[r].(senders := k2.procs[r].senders + [s]));
        KidsOver(k, k1, k2, Send(k, dest, msg));
      }
    }
  }

  lemma IntrKids(k: Kernel, dest: nat)
    ensures SameKids(k, IntrSend(k, dest))
  {
    hide Unblock, Pid2Proc, SameKids;
    var r := Pid2Proc(k, dest);
    StillKids(k, k);
    if r != -1 {
      var p := k.procs[r];
      var k1 := Put(k, r, p.(hasIntrMsg := false, msg := p.msg.(source := INTERRUPT, kind := HARD_INT)));
      PutKids(k, r, k1.procs[r]);
      PutKids(k, r, p.(hasIntrMsg := true));
      UnblockKids(k1, r, Receiving);
      KidsBoth(k, k1, Unblock(k1, r, Receiving));
    }
  }

  lemma {:induction false} IntrAllKids(k: Kernel, dests: seq<nat>)
    ensures SameKids(k, IntrSendAll(k, dests))
  {
    hide IntrSend, SameKids;
    if dests == [] {
      StillKids(k, k);
    } else {
      var l := IntrSendAll(k, dests[..|dests| - 1]);
      IntrAllKids(k, dests[..|dests| - 1]);
      IntrKids(l, dests[|dests| - 1]);
      KidsBoth(k, l, IntrSendAll(k, dests));
    }
  }

  lemma PickUpKids(k: Kernel, s: Slot)
    ensures SameKids(k, PickUp(k, s))
  {
    hide Unblock, SameKids;
    var k1 := Put(k, k.cur, k.procs[k.cur].(senders := Without(k.procs[k.cur].senders, s), msg := k.procs[s].msg));
    PutKids(k, k.cur, k1.procs[k.cur]);
    UnblockKids(k1, s, Sending);
    StillKids(Unblock(k1, s, Sending), PickUp(k, s));
    KidsOver(k, k1, Unblock(k1, s, Sending), PickUp(k, s));
  }

  lemma ListenKids(k: Kernel, src: nat, window: seq<nat>)
    ensures SameKids(k, Listen(k, src, window))
  {
    hide Block, IntrSendAll, SameKids;
    var r, k1 := k.cur, IntrSendAll(k, window);
    IntrAllKids(k, window);
    PutKids(k1, r, TakeIntr(k1, r).procs[r]);
    KidsBoth(k, k1, TakeIntr(k1, r));
    var k2 := Put(k1, r, k1.procs[r].(recvfrom := src));
    PutKids(k1, r, k2.procs[r]);
    BlockKids(k2, r, Receiving);
    KidsOver(k, k1, k2, Block(k2, r, Receiving));
  }

  lemma ReceiveKids(k: Kernel, src: nat, buf: Message, window: seq<nat>)
    ensures SameKids(k, Receive(k, src, buf, window))
  {
    hide PickUp, Listen, PickSender, Pid2Proc, SameKids;
    var k1 := Put(k, k.cur, k.procs[k.cur].(msg := buf));
    PutKids(k, k.cur, k1.procs[k.cur]);
    PutKids(k1, k.cur, TakeIntr(k1, k.cur).procs[k.cur]);
    KidsBoth(k, k1, TakeIntr(k1, k.cur));
    ListenKids(k1, src, window);
    KidsBoth(k, k1, Listen(k1, src, window));
    var s := PickSender(k1, k.cur, src);
    if s != -1 {
      PickUpKids(k1, s);
      KidsBoth(k, k1, PickUp(k1, s));
    }
  }

  // ---------------------------------------------------------------- the order

  /** Children are on the list in the order of their pids. */
  predicate Rising(procs: Table, kids: seq<Slot>) {
    forall x, y :: 0 <= x < y < |kids| ==> procs[kids[x]].pid < procs[kids[y]].pid
  }

  ghost predicate Aged(k: Kernel) {
    forall p: Slot :: Alive(k, p) ==> Rising(k.procs, k.procs[p].children)
  }

  lemma KidsAged(k: Kernel, l: Kernel)
    requires Aged(k) && SameKids(k, l) && forall p: Slot :: Alive(l, p) ==> Alive(k, p)
    ensures Aged(l)
  {
    hide Alive;
    forall p: Slot | Alive(l, p)
      ensures Rising(l.procs, l.procs[p].children)
    {
      assert SameKid(k.procs[p], l.procs[p]);
      assert forall j: Slot :: SameKid(k.procs[j], l.procs[j]);
    }
  }

  lemma RisingWithout(procs: Table, kids: seq<Slot>, c: Slot)
    requires Rising(procs, kids)
    ensures Rising(procs, Without(kids, c))
  {
    var rest := Without(kids, c);
    forall x, y | 0 <= x < y < |rest|
      ensures procs[rest[x]].pid < procs[rest[y]].pid
    {
      var u, v := ProcOrder.WithoutPlaces(kids, c, x, y);
    }
  }

  /** As `SameKids`, but that `p` loses child `c`. */
  ghost predicate OneLess(k: Kernel, l: Kernel, p: Slot, c: Slot) {
    && (forall j: Slot :: l.procs[j].pid == k.procs[j].pid)
    && (forall j: Slot :: l.procs[j].children == if j == p then Without(k.procs[j].children, c) else k.procs[j].children)
  }

  lemma ReapKids(k: Kernel, p: Slot, i: Slot, status: int)
    ensures OneLess(k, Reap(k, p, i, status), p, i)
  {
    ReclaimRest(k, i);
    hide Reclaim;
  }

  lemma LessAfter(k: Kernel, a: Kernel, b: Kernel, l: Kernel, p: Slot, c: Slot)
    requires SameKids(k, a) && OneLess(a, b, p, c) && SameKids(b, l)
    ensures OneLess(k, l, p, c)
  {
    assert forall j: Slot :: SameKid(k.procs[j], a.procs[j]) && SameKid(b.procs[j], l.procs[j]);
  }

  lemma LessAged(k: Kernel, l: Kernel, p: Slot, c: Slot)
    requires Aged(k) && OneLess(k, l, p, c) && forall j: Slot :: Alive(l, j) ==> Alive(k, j)
    ensures Aged(l)
  {
    hide Alive;
    forall j: Slot | Alive(l, j)
      ensures Rising(l.procs, l.procs[j].children)
    {
      RisingWithout(k.procs, k.procs[j].children, c);
      SamePidsRise(k.procs, l.procs, l.procs[j].children);
    }
  }

  lemma SamePidsRise(a: Table, b: Table, kids: seq<Slot>)
    requires Rising(a, kids) && forall j: Slot :: b[j].pid == a[j].pid
    ensures Rising(b, kids)
  {
  }

  lemma DieKids(k: Kernel, i: Slot, status: int)
    ensures SameKids(k, Die(k, i, status))
  {
    DieShape(k, i, status);
    hide Die;
  }

  lemma ReclaimKids(k: Kernel, i: Slot)
    ensures SameKids(k, Reclaim(k, i))
  {
  }

  lemma ExitAged(k: Kernel, self: nat, status: int)
    requires Inv(k) && ExitCalled(k, self) && MayExit(k, Pid2Proc(k, self)) && Aged(k)
    ensures Aged(Exit(k, self, status))
  {
    hide Inv, Exit, Die, Send, MayExit, Intact, SameKids, OneLess, Alive, Aged, Unblock, Reap, RespectsMail;
    ExitShape(k, self, status);
    ExitRespects(k, self, status);
    var i := Pid2Proc(k, self);
    var k1, l := Die(k, i, status), Exit(k, self, status);
    DieKids(k, i, status);
    if AskedFor(k, i) {
      var p := Pid2Proc(k, k.procs[i].parent);
      var k2 := Put(k1, p, k1.procs[p].(waitFor := k1.procs[i].pid));
      PutKids(k1, p, k2.procs[p]);
      UnblockKids(k2, p, Waiting);
      var k3 := Unblock(k2, p, Waiting);
      KidsOver(k, k1, k2, k3);
      ReapKids(k3, p, i, status);
      SendKids(Reap(k3, p, i, status), k.procs[i].parent, Reply(status));
      LessAfter(k, k3, Reap(k3, p, i, status), l, p, i);
      LessAged(k, l, p, i);
    } else {
      ExitPlain(k, self, status);
      ReclaimKids(k1, i);
      KidsBoth(k, k1, Reclaim(k1, i));
      KidsAged(k, l);
    }
  }

  lemma WaitAged(k: Kernel, child: nat, p: Slot)
    requires Inv(k) && WaitCalled(k, k.procs[p].pid) && MayWait(k, child, p) && Pid2Proc(k, k.procs[p].pid) == p && Aged(k)
    ensures Aged(Wait(k, child, k.procs[p].pid))
  {
    hide Inv, Send, Reap, FoundByWait, WaitSleeps, Wait, Intact, MayWait, SameKids, OneLess, Alive, Aged, RespectsMail;
    var pid := k.procs[p].pid;
    var l := Wait(k, child, pid);
    WaitRespects(k, child, pid);
    if FoundByWait(k, child, p) != -1 {
      WaitFindsShape(k, child, p);
      var c := FoundByWait(k, child, p);
      var k1 := Reap(k, p, c, k.procs[c].exitStatus);
      StillKids(k, k);
      ReapKids(k, p, c, k.procs[c].exitStatus);
      SendKids(k1, pid, Reply(k.procs[c].exitStatus));
      LessAfter(k, k, k1, l, p, c);
      LessAged(k, l, p, c);
    } else {
      WaitOtherwise(k, child, p);
      SendKids(k, pid, Reply(-1));
      SleepKids(k, p, child);
      KidsAged(k, l);
    }
  }

  lemma SleepKids(k: Kernel, p: Slot, child: nat)
    ensures SameKids(k, SleepFor(k, p, child))
  {
  }

  /** A child that is started has the greatest pid so far. */
  lemma ExecAged(k: Kernel, parent: nat, hasMemory: bool)
    requires Inv(k) && Enabled(k, Exec(parent, hasMemory)) && Aged(k)
    ensures Aged(Execute(k, parent, hasMemory))
  {
    if k.slots != [] && hasMemory {
      var p := Pid2Proc(k, parent);
      InvParts(k);
      SpawnSlots(k, p);
      ExecuteSpawns(k, parent);
      hide Execute, Scheduling;
      SpawnAged(k, p);
    }
  }

  lemma SpawnAged(k: Kernel, p: Slot)
    requires Inv(k) && MaySpawn(k, p) && Aged(k) && k.slots[0] != p
    ensures Aged(Spawn(k, p))
  {
    var i, l := k.slots[0], Spawn(k, p);
    SpawnSlots(k, p);
    SpawnFields(k, p);
    forall j: Slot | Alive(l, j)
      ensures Rising(l.procs, l.procs[j].children)
    {
      if j != i {
        OldKids(k, j, i);
        OldRising(k, l, i, k.procs[j].children);
        if j == p {
          NewRising(l, i, k.procs[j].children);
        }
      }
    }
  }

  lemma SpawnFields(k: Kernel, p: Slot)
    requires k.slots != [] && k.slots[0] != p
    ensures var i, l := k.slots[0], Spawn(k, p);
      && l.procs[i].pid == k.nextPid && l.procs[i].children == []
      && l.procs[p].children == k.procs[p].children + [i] && l.procs[p].status == k.procs[p].status
      && (forall j: Slot :: j != i ==> l.procs[j].pid == k.procs[j].pid)
      && (forall j: Slot :: j != i && j != p ==> l.procs[j] == k.procs[j])
  {
  }

  lemma OldKids(k: Kernel, j: Slot, i: Slot)
    requires Inv(k) && Alive(k, j) && !Live(k, i)
    ensures i !in k.procs[j].children && forall c :: c in k.procs[j].children ==> k.procs[c].pid < k.nextPid
  {
    assert forall c :: c in k.procs[j].children ==> ParentOf(k, j, c);
  }

  lemma OldRising(k: Kernel, l: Kernel, i: Slot, kids: seq<Slot>)
    requires Rising(k.procs, kids) && i !in kids && forall j: Slot :: j != i ==> l.procs[j].pid == k.procs[j].pid
    ensures Rising(l.procs, kids)
  {
  }

  lemma NewRising(l: Kernel, i: Slot, kids: seq<Slot>)
    requires Rising(l.procs, kids) && forall c :: c in kids ==> l.procs[c].pid < l.procs[i].pid
    ensures Rising(l.procs, kids + [i])
  {
  }

  lemma StepAged(k: Kernel, e: Event)
    requires Inv(k) && Enabled(k, e) && Aged(k)
    ensures Aged(Step(k, e))
  {
    hide Inv, Schedule, Send, Receive, IntrSend, Execute, Exit, Wait, MayExit, MayWait, SameKids, Alive, Aged, RespectsMail;
    match e
    case Tick => ScheduleKids(k); ScheduleRespects(k); KidsAged(k, Step(k, e));
    case SendTo(dest, msg) => SendKids(k, dest, msg); SendRespects(k, dest, msg); KidsAged(k, Step(k, e));
    case ReceiveFrom(src, buf, window) =>
      ReceiveKids(k, src, buf, window); ReceiveRespects(k, src, buf, window); KidsAged(k, Step(k, e));
    case Interrupt(dest) => IntrKids(k, dest); IntrSendRespects(k, dest); KidsAged(k, Step(k, e));
    case Exec(parent, hasMemory) => ExecAged(k, parent, hasMemory);
    case ExitOf(self, status) => ExitAged(k, self, status);
    case WaitFor(child, parent) =>
      FoundPid(k, parent);
      WaitAged(k, child, Pid2Proc(k, parent));
  }

  /** Over every run, the children of a process are on its list in the order in which it started them. */
  lemma {:induction false} ChildrenInOrder(es: seq<Event>)
    requires RunEnabled(Initial(), es)
    ensures Aged(Run(Initial(), es))
  {
    hide Inv, Step, Enabled, Initial, Aged;
    if es == [] {
      NoChildren();
    } else {
      RunKeepsInv(es[..|es| - 1]);
      ChildrenInOrder(es[..|es| - 1]);
      StepAged(Run(Initial(), es[..|es| - 1]), es[|es| - 1]);
    }
  }

  lemma NoChildren()
    ensures Aged(Initial())
  {
    assert forall p: Slot :: Initial().procs[p] == InitialPcb(p) && Initial().procs[p].children == [];
  }

  /** Who has the lower pid was started first. */
  lemma StartOrder(es: seq<Event>, a: nat, c: nat, p: nat, b: nat, d: nat, q: nat)
    requires a < |es| && b < |es| && ProcReport.StartedAt(es, a, c, p) && ProcReport.StartedAt(es, b, d, q) && c < d
    ensures a < b
  {
    hide Run, Initial;
    if b <= a {
      var fs := es[..a];
      assert fs[..b] == es[..b];
      NextGrows(fs, b);
    }
  }

  /**
   * Over every run: a wait for any child collects, of all children of the process that are dead, the one that was
   * started first.
   */
  lemma FirstStartedFirst(es: seq<Event>, parent: nat, n: Notice, c: Slot) returns (a: nat, b: nat)
    requires RunEnabled(Initial(), es)
    requires var k, e := Run(Initial(), es), WaitFor(0xffff_ffff, parent);
      && Enabled(k, e) && Hands(k, e, n)
      && Live(k, c) && TASK_IDLE < c && k.procs[c].parent == parent && k.procs[c].status == DEAD && k.procs[c].pid != n.child
    ensures a < b < |es| && ProcReport.StartedAt(es, a, n.child, parent)
            && ProcReport.StartedAt(es, b, Run(Initial(), es).procs[c].pid, parent)
  {
    hide Run, RunEnabled, Initial, Inv, Enabled, Step, ProcReport.StartedAt, Aged;
    var k := Run(Initial(), es);
    RunKeepsInv(es);
    ProcReport.ExitStatusArrives(es);
    ChildrenInOrder(es);
    WaiterBelow(k, parent);
    var d := LowestCollected(k, parent, n, c);
    assert ProcReport.Started(es, k.procs[d].pid, parent) && ProcReport.Started(es, k.procs[c].pid, parent);
    a :| a < |es| && ProcReport.StartedAt(es, a, n.child, parent);
    b :| b < |es| && ProcReport.StartedAt(es, b, k.procs[c].pid, parent);
    StartOrder(es, a, n.child, parent, b, k.procs[c].pid, parent);
  }

  /** It is the one with the lowest pid. */
  lemma LowestCollected(k: Kernel, parent: nat, n: Notice, c: Slot) returns (d: Slot)
    requires Inv(k) && Aged(k) && Enabled(k, WaitFor(ANY, parent)) && Hands(k, WaitFor(ANY, parent), n)
    requires Live(k, c) && TASK_IDLE < c && k.procs[c].parent == parent && k.procs[c].status == DEAD && k.procs[c].pid != n.child
    ensures Live(k, d) && TASK_IDLE < d && k.procs[d].parent == parent && k.procs[d].pid == n.child < k.procs[c].pid
  {
    hide Inv, Enabled, Step, SameWaits, Replies, Pid2Proc, Live;
    var m := WaitAnswers(k, ANY, parent);
    WaiterBelow(k, parent);
    var p: Slot := Pid2Proc(k, parent);
    ChildOf(k, p, c);
    var kids := k.procs[p].children;
    var y: nat :| y < |kids| && kids[y] == c;
    LongerLog(k, WaitFor(ANY, parent), n);
    assert DeadChild(k, p, y, ANY);
    assert (k.reaped + [n])[|k.reaped|] == n;
    d := kids[m];
    KidOf(k, p, d);
  }

  lemma WaiterBelow(k: Kernel, parent: nat)
    requires Inv(k) && Enabled(k, WaitFor(ANY, parent))
    ensures Pid2Proc(k, parent) != -1 && parent < NO_PROC
  {
    Found(k, parent);
  }

  lemma ChildOf(k: Kernel, p: Slot, c: Slot)
    requires Inv(k) && Live(k, c) && TASK_IDLE < c && Pid2Proc(k, k.procs[c].parent) == p && k.procs[c].parent < NO_PROC
    ensures c in k.procs[p].children && Alive(k, p) && k.procs[p].pid == k.procs[c].parent
  {
    ParentFound(k, c);
    LookupFinds(k, k.procs[c].parent);
  }

  lemma KidOf(k: Kernel, p: Slot, d: Slot)
    requires Inv(k) && Alive(k, p) && d in k.procs[p].children
    ensures Live(k, d) && TASK_IDLE < d && k.procs[d].parent == k.procs[p].pid
  {
    assert ParentOf(k, p, d);
  }
}
