/** Runs of the kernel that end where an exit, or a wait, breaks its bookkeeping. */
module ProcExample {
  import opened Proc
  import opened ProcInv
  import opened ProcIpc
  import opened ProcExit
  import opened ProcRun

  /** The kernel can get here, even if there are no interrupts and nobody receives. */
  ghost predicate Reached(k: Kernel) {
    exists es: seq<Event> ::
      RunEnabled(Initial(), es) && Run(Initial(), es) == k && forall e :: e in es ==> !e.Interrupt? && !e.ReceiveFrom?
  }

  lemma ReachedInitial()
    ensures Reached(Initial())
  {
    assert RunEnabled(Initial(), []) && Run(Initial(), []) == Initial();
  }

  lemma ReachedStep(k: Kernel, e: Event)
    requires Reached(k) && Enabled(k, e) && !e.Interrupt? && !e.ReceiveFrom?
    ensures Reached(Step(k, e))
  {
    hide Enabled, Step, Initial;
    var es: seq<Event> :|
      RunEnabled(Initial(), es) && Run(Initial(), es) == k && forall e :: e in es ==> !e.Interrupt? && !e.ReceiveFrom?;
    var fs := es + [e];
    assert fs[..|es|] == es && fs[|es|] == e;
    assert RunEnabled(Initial(), fs) && Run(Initial(), fs) == Step(k, e);
  }

  /** Everybody who runs so far has the slot that is its pid. */
  predicate InPlace(k: Kernel, n: nat)
    requires n <= 128
  {
    forall i: Slot :: i < n ==> k.procs[i].pid == i && k.hash[i] == [i] && i !in k.slots
  }

  lemma Finds(k: Kernel, n: nat, i: Slot)
    requires i < n <= 128 && InPlace(k, n)
    ensures Pid2Proc(k, i) == i && Live(k, i)
  {
    assert i % 128 == i;
  }

  /** The shell, pid 4, has started 6, and 6 has started 7. */
  predicate Cast(k: Kernel) {
    && InPlace(k, 8) && k.nextPid == 8 && k.slots == UpFrom(8, 128)
    && k.procs[4].children == [6] && k.procs[6].children == [7] && k.procs[7].children == []
    && k.procs[6].parent == 4 && k.procs[7].parent == 6 && k.procs[6].senders == []
  }

  predicate StatusIs(s: Status, running: bool, stuck: bool) {
    s == if stuck then Status(Running, true, false, false) else if running then RUNNING else READY
  }

  /**
   * If `stuck` is a process, it waits in the queue of 7 to get rid of a message; everybody else runs or is ready, and
   * no one waits for anything.
   */
  predicate Scene(k: Kernel, cur: Slot, ready: seq<Slot>, stuck: int) {
    && Cast(k) && k.cur == cur && k.ready == ready
    && (forall i: Slot :: i < 8 ==> StatusIs(k.procs[i].status, i == cur, i == stuck))
    && k.procs[7].senders == (if 0 <= stuck < 128 then [stuck] else [])
  }

  lemma CastSame(k: Kernel, l: Kernel)
    requires Cast(k) && l.hash == k.hash && l.slots == k.slots && l.nextPid == k.nextPid
    requires forall i: Slot :: l.procs[i].pid == k.procs[i].pid && l.procs[i].children == k.procs[i].children
                            && l.procs[i].parent == k.procs[i].parent
    requires l.procs[6].senders == k.procs[6].senders
    ensures Cast(l)
  {
  }

  lemma TickIs(k: Kernel, next: Slot, rest: seq<Slot>)
    requires k.procs[k.cur].status == RUNNING && k.ready == [next] + rest && next != k.cur
    ensures Schedule(k) == k.(procs := k.procs[k.cur := k.procs[k.cur].(status := READY)][next := k.procs[next].(status := RUNNING)],
                              ready := rest + [k.cur], cur := next)
  {
    assert (k.ready + [k.cur])[1..] == rest + [k.cur];
  }

  lemma TickReached(k: Kernel)
    requires Reached(k)
    ensures Reached(Schedule(k))
  {
    hide Reached, Schedule, Inv;
    ReachedStep(k, Tick);
  }

  lemma SceneTick(k: Kernel, cur: Slot, next: Slot, rest: seq<Slot>, stuck: int)
    requires Reached(k) && Scene(k, cur, [next] + rest, stuck) && cur < 8 && next < 8 && cur != stuck && next != stuck && next != cur
    ensures Reached(Schedule(k)) && Scene(Schedule(k), next, rest + [cur], stuck)
  {
    hide Reached, Cast, Schedule;
    TickReached(k);
    assert StatusIs(k.procs[cur].status, true, false);
    TickIs(k, next, rest);
    CastSame(k, Schedule(k));
  }

  /** The current process stops, to send. */
  lemma StopIs(k: Kernel, next: Slot, rest: seq<Slot>)
    requires k.procs[k.cur].status == RUNNING && k.ready == [next] + rest && next != k.cur
    ensures Block(k, k.cur, Sending)
         == k.(procs := k.procs[k.cur := k.procs[k.cur].(status := Status(Running, true, false, false))]
                               [next := k.procs[next].(status := RUNNING)],
               ready := rest, cur := next)
  {
    assert k.ready[1..] == rest;
  }

  lemma SendReached(k: Kernel)
    requires Reached(k) && k.cur != TASK_IDLE && k.procs[k.cur].pid != 7
    ensures Reached(Send(k, 7, NO_MSG))
  {
    hide Reached, Send, Inv;
    ReachedStep(k, SendTo(7, NO_MSG));
  }

  /** The current process sends to 7, which is not receiving. */
  lemma SendIs(k: Kernel, next: Slot, rest: seq<Slot>)
    requires k.procs[k.cur].status == RUNNING && k.ready == [next] + rest && next != k.cur && k.cur != 7
    requires Pid2Proc(k, 7) == 7 && !k.procs[7].status.receiving
    ensures var m := NO_MSG.(source := k.procs[k.cur].pid);
            var procs := k.procs[k.cur := k.procs[k.cur].(msg := m, status := Status(Running, true, false, false))]
                                [next := k.procs[next].(status := RUNNING)];
      Send(k, 7, NO_MSG) == k.(procs := procs[7 := procs[7].(senders := k.procs[7].senders + [k.cur])],
                               ready := rest, cur := next, sent := k.sent + [Letter(k.procs[k.cur].pid, 7, m)])
  {
    hide Block, Pid2Proc;
    var m := NO_MSG.(source := k.procs[k.cur].pid);
    var k1 := Put(k, k.cur, k.procs[k.cur].(msg := m)).(sent := k.sent + [Letter(k.procs[k.cur].pid, 7, m)]);
    StopIs(k1, next, rest);
  }

  lemma SceneSend(k: Kernel, cur: Slot, next: Slot, rest: seq<Slot>)
    requires Reached(k) && Scene(k, cur, [next] + rest, -1) && cur < 7 && cur != TASK_IDLE && next < 8 && next != cur
    ensures var l := Send(k, 7, NO_MSG); Reached(l) && Scene(l, next, rest, cur)
  {
    hide Reached, Cast, Send, Pid2Proc;
    SceneLooks(k, cur, [next] + rest);
    SendReached(k);
    SendIs(k, next, rest);
    CastSame(k, Send(k, 7, NO_MSG));
  }

  lemma SceneLooks(k: Kernel, cur: Slot, ready: seq<Slot>)
    requires Scene(k, cur, ready, -1) && cur < 7
    ensures k.procs[cur].pid == cur && k.procs[cur].status == RUNNING
    ensures Pid2Proc(k, 7) == 7 && !k.procs[7].status.receiving && k.procs[7].senders == []
  {
    var seven: Slot := 7;
    Finds(k, 8, seven);
    assert StatusIs(k.procs[cur].status, true, false) && StatusIs(k.procs[seven].status, false, false);
  }

  lemma ExecIs(k: Kernel, parent: Slot, n: Slot)
    requires k.slots != [] && k.slots[0] == n == k.nextPid && k.hash[n] == [] && parent < n && InPlace(k, n)
    ensures var l := Execute(k, parent, true);
      l == k.(procs := k.procs[n := k.procs[n].(pid := n, status := READY, senders := [], children := [], parent := parent)]
                              [parent := k.procs[parent].(children := k.procs[parent].children + [n])],
              slots := k.slots[1..], hash := k.hash[n := [n]], nextPid := n + 1, ready := k.ready + [n])
  {
    assert n % 128 == n && parent % 128 == parent;
    assert [] + [n] == [n];
  }

  /** A process that has not started any other starts one. */
  lemma StartOne(k: Kernel, parent: Slot, n: Slot)
    requires Reached(k) && k.cur == TASK_SYS && n == k.nextPid && TASK_SYS < parent < n < 100 && parent != TASK_IDLE && InPlace(k, n)
    requires k.slots != [] && k.slots[0] == n && (forall i :: 1 <= i < |k.slots| ==> k.slots[i] > n) && k.hash[n] == []
    requires k.procs[parent].status == READY && k.procs[parent].children == []
    ensures var l := Execute(k, parent, true);
      && Reached(l) && InPlace(l, n + 1) && l.nextPid == n + 1 && l.cur == k.cur
      && l.ready == k.ready + [n] && l.slots == k.slots[1..] && (forall b :: n < b < 128 ==> l.hash[b] == k.hash[b])
      && (forall i: Slot :: i != n && i != parent ==> l.procs[i] == k.procs[i])
      && l.procs[parent] == k.procs[parent].(children := [n])
      && l.procs[n].status == READY && l.procs[n].children == [] && l.procs[n].senders == [] && l.procs[n].parent == parent
  {
    hide Reached, Execute;
    ExecReached(k, parent, n);
    ExecIs(k, parent, n);
    var l := Execute(k, parent, true);
    assert forall j :: 0 <= j < |l.slots| ==> l.slots[j] == k.slots[j + 1];
  }

  lemma ExecReached(k: Kernel, parent: Slot, n: Slot)
    requires Reached(k) && k.cur == TASK_SYS && n == k.nextPid && TASK_SYS < parent < n < 100 && parent != TASK_IDLE && InPlace(k, n)
    requires k.procs[parent].status == READY
    ensures Reached(Execute(k, parent, true))
  {
    hide Reached, Execute, Inv;
    Finds(k, n, parent);
    ReachedStep(k, Exec(parent, true));
  }

  /** What `process_init` leaves, in so far as it matters here. */
  lemma InitialScene()
    ensures var k := Initial();
      && k.ready == [1, 2, 3, 4, 5] && k.slots == UpFrom(6, 128) && |k.slots| == 122 && k.slots[0] == 6 && k.slots[1] == 7 && InPlace(k, 6)
      && (forall i :: 1 <= i < 122 ==> k.slots[i] > 6) && (forall i :: 2 <= i < 122 ==> k.slots[i] > 7)
      && k.hash[6] == [] && k.hash[7] == [] && k.cur == TASK_SYS && k.nextPid == 6
      && (forall i: Slot :: k.procs[i] == InitialPcb(i))
  {
  }

  /** Both are started. */
  lemma SceneStarts() returns (k: Kernel)
    ensures Reached(k) && Scene(k, 0, [1, 2, 3, 4, 5, 6, 7], -1)
  {
    ReachedInitial();
    InitialScene();
    var k0 := Initial();
    hide Reached, Initial, Execute, InPlace;
    StartOne(k0, 4, 6);
    var k1 := Execute(k0, 4, true);
    StartOne(k1, 6, 7);
    k := Execute(k1, 6, true);
    assert UpFrom(6, 128)[1..] == UpFrom(7, 128) && UpFrom(7, 128)[1..] == UpFrom(8, 128);
    assert [1, 2, 3, 4, 5] + [6] + [7] == [1, 2, 3, 4, 5, 6, 7];
  }

  /** Task 1 gets its turn and sends to 7; then the system task runs again. */
  lemma TaskStuck() returns (k: Kernel)
    ensures Reached(k) && Scene(k, 0, [2, 3, 4, 5, 6, 7], 1)
  {
    hide Reached, Scene;
    k := SceneStarts();
    k := Turn(k, 0, 1, [2, 3, 4, 5, 6, 7], -1);
    k := Dispatch(k, 1, 2, [3, 4, 5, 6, 7, 0]);
    k := Turn(k, 2, 3, [4, 5, 6, 7, 0], 1);
    k := Turn(k, 3, 4, [5, 6, 7, 0, 2], 1);
    k := Turn(k, 4, 5, [6, 7, 0, 2, 3], 1);
    k := Turn(k, 5, 6, [7, 0, 2, 3, 4], 1);
    k := Turn(k, 6, 7, [0, 2, 3, 4, 5], 1);
    k := Turn(k, 7, 0, [2, 3, 4, 5, 6], 1);
    assert [2, 3, 4, 5, 6] + [7] == [2, 3, 4, 5, 6, 7];
  }

  /** A clock tick. */
  lemma Turn(k: Kernel, cur: Slot, next: Slot, rest: seq<Slot>, stuck: int) returns (l: Kernel)
    requires Reached(k) && cur < 8 && next < 8 && cur != stuck && next != stuck && next != cur
    requires exists r: seq<Slot> :: r == [next] + rest && Scene(k, cur, r, stuck)
    ensures Reached(l) && Scene(l, next, rest + [cur], stuck)
  {
    hide Reached, Scene, Schedule;
    SceneTick(k, cur, next, rest, stuck);
    l := Schedule(k);
  }

  lemma Dispatch(k: Kernel, cur: Slot, next: Slot, rest: seq<Slot>) returns (l: Kernel)
    requires Reached(k) && cur < 7 && cur != TASK_IDLE && next < 8 && next != cur
    requires exists r: seq<Slot> :: r == [next] + rest && Scene(k, cur, r, -1)
    ensures Reached(l) && Scene(l, next, rest, cur)
  {
    hide Reached, Scene, Send;
    SceneSend(k, cur, next, rest);
    l := Send(k, 7, NO_MSG);
  }

  /** Process 6 gets its turn and sends to 7; then the system task runs again. */
  lemma ParentStuck() returns (k: Kernel)
    ensures Reached(k) && Scene(k, 0, [1, 2, 3, 4, 5, 7], 6)
  {
    hide Reached, Scene;
    k := SceneStarts();
    k := Turn(k, 0, 1, [2, 3, 4, 5, 6, 7], -1);
    k := Turn(k, 1, 2, [3, 4, 5, 6, 7, 0], -1);
    k := Turn(k, 2, 3, [4, 5, 6, 7, 0, 1], -1);
    k := Turn(k, 3, 4, [5, 6, 7, 0, 1, 2], -1);
    k := Turn(k, 4, 5, [6, 7, 0, 1, 2, 3], -1);
    k := Turn(k, 5, 6, [7, 0, 1, 2, 3, 4], -1);
    k := Dispatch(k, 6, 7, [0, 1, 2, 3, 4, 5]);
    k := Turn(k, 7, 0, [1, 2, 3, 4, 5], 6);
    assert [1, 2, 3, 4, 5] + [7] == [1, 2, 3, 4, 5, 7];
  }

  /** The system task runs, and someone is stuck in the queue of 7: what exit and wait find. */
  lemma SceneFacts(k: Kernel, ready: seq<Slot>, stuck: Slot)
    requires Scene(k, 0, ready, stuck) && 0 < stuck < 7
    ensures Pid2Proc(k, 4) == 4 && Pid2Proc(k, 6) == 6 && Pid2Proc(k, 7) == 7 && k.cur == TASK_SYS
    ensures forall i: Slot :: i < 8 ==> Alive(k, i) && !k.procs[i].status.waiting
    ensures k.procs[6].status.sending == (stuck == 6) && !k.procs[7].status.sending
    ensures k.procs[7].senders == [stuck] && k.procs[6].children == [7] && k.procs[7].children == []
    ensures k.procs[6].parent == 4 && k.procs[7].parent == 6
  {
    Finds(k, 8, 4);
    Finds(k, 8, 6);
    Finds(k, 8, 7);
    assert forall i: Slot :: i < 8 ==> StatusIs(k.procs[i].status, i == 0, i == stuck);
  }

  /** The exit of a process that its parent does not wait for leaves it dead, and its children without a parent. */
  lemma ExitLeavesDead(k: Kernel, i: Slot, parent: Slot)
    requires Pid2Proc(k, i) == i && k.procs[i].parent == parent && Pid2Proc(k, parent) == parent && parent != i
    requires !k.procs[parent].status.waiting && !k.procs[i].status.sending && i !in k.procs[i].children
    ensures MayExit(k, i) && Exit(k, i, 0) == Die(k, i, 0)
  {
    DieShape(k, i, 0);
    var l := Die(k, i, 0);
    assert Pid2Proc(l, parent) == parent by {
      SameLookup(k, l, parent);
    }
  }

  /** When 6 has exited, 7 is an orphan, and somebody still waits in its queue. */
  lemma OrphanWanted(k: Kernel, ready: seq<Slot>)
    requires Scene(k, 0, ready, 1)
    ensures ExitCalled(k, 6) && MayExit(k, Pid2Proc(k, 6))
    ensures var l := Exit(k, 6, 0); ExitCalled(l, 7) && !MayExit(l, Pid2Proc(l, 7))
  {
    SceneFacts(k, ready, 1);
    hide Scene, Exit;
    ExitLeavesDead(k, 6, 4);
    var l := Die(k, 6, 0);
    DieShape(k, 6, 0);
    SameLookup(k, l, 7);
    hide Die;
  }

  /** When 7 has exited instead, it is a dead child that 6 can wait for. */
  lemma CorpseWanted(k: Kernel, ready: seq<Slot>)
    requires Scene(k, 0, ready, 1)
    ensures ExitCalled(k, 7) && MayExit(k, Pid2Proc(k, 7))
    ensures var l := Exit(k, 7, 0); WaitCalled(l, 6) && !MayWait(l, 7, Pid2Proc(l, 6))
  {
    SceneFacts(k, ready, 1);
    hide Scene, Exit;
    ExitLeavesDead(k, 7, 6);
    var l := Die(k, 7, 0);
    DieShape(k, 7, 0);
    SameLookup(k, l, 6);
    hide Die;
    assert FoundByWait(l, 7, 6) == 7;
  }

  /** An orphan exits while somebody waits in its queue: a run that ends where the exit breaks the bookkeeping. */
  lemma ExitCanFail()
    ensures exists k: Kernel :: Reached(k) && ExitCalled(k, 7) && !MayExit(k, Pid2Proc(k, 7)) && !Inv(Exit(k, 7, 0))
  {
    hide Scene, Reached, Inv, Exit, MayExit;
    var k0 := TaskStuck();
    OrphanWanted(k0, [2, 3, 4, 5, 6, 7]);
    ReachedStep(k0, ExitOf(6, 0));
    var k := Exit(k0, 6, 0);
    ReachedInv(k);
    ExitKeepsExactly(k, 7, 0);
    assert Reached(k) && !MayExit(k, Pid2Proc(k, 7)) && !Inv(Exit(k, 7, 0));
  }

  /** A process exits while it waits in the queue of another. */
  lemma ExitOfSenderFails()
    ensures exists k: Kernel :: Reached(k) && ExitCalled(k, 6) && !MayExit(k, Pid2Proc(k, 6)) && !Inv(Exit(k, 6, 0))
  {
    hide Scene, Reached, Inv, Exit;
    var k := ParentStuck();
    SceneFacts(k, [1, 2, 3, 4, 5, 7], 6);
    ReachedInv(k);
    ExitKeepsExactly(k, 6, 0);
    assert Reached(k) && !MayExit(k, Pid2Proc(k, 6)) && !Inv(Exit(k, 6, 0));
  }

  /** A wait finds a dead child in whose queue somebody waits. */
  lemma WaitCanFail()
    ensures exists k: Kernel :: Reached(k) && WaitCalled(k, 6) && !MayWait(k, 7, Pid2Proc(k, 6)) && !Inv(Wait(k, 7, 6))
  {
    hide Scene, Reached, Inv, Wait, Exit, MayExit, MayWait;
    var k0 := TaskStuck();
    CorpseWanted(k0, [2, 3, 4, 5, 6, 7]);
    ReachedStep(k0, ExitOf(7, 0));
    var k := Exit(k0, 7, 0);
    ReachedInv(k);
    WaitKeepsExactly(k, 7, 6);
    assert Reached(k) && !MayWait(k, 7, Pid2Proc(k, 6)) && !Inv(Wait(k, 7, 6));
  }

  lemma ReachedInv(k: Kernel)
    requires Reached(k)
    ensures Inv(k)
  {
    hide Inv, Initial, Run;
    var es: seq<Event> :| RunEnabled(Initial(), es) && Run(Initial(), es) == k;
    RunKeepsInv(es);
  }
}
