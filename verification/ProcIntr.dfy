/** Interrupts over whole runs: which receive ends with one, and which interrupt that is. */
module ProcIntr {
  import opened Proc
  import opened ProcInv
  import opened ProcIpc
  import opened ProcSteps
  import opened ProcLife
  import opened ProcExit
  import opened ProcRun
  import opened ProcMail
  import opened ProcInbox
  import ProcReport
  import ProcPids

  // ---------------------------------------------------------------- interrupts during a receive

  /** The interrupts in the window of a receive come as events of their own before it, if it would have to wait. */
  function FlatEvent(k: Kernel, e: Event): seq<Event> {
    if e.ReceiveFrom? then
      (if Receive(k, e.src, e.buf, []).procs[k.cur].status.receiving then Interrupts(e.window) else [])
      + [ReceiveFrom(e.src, e.buf, [])]
    else [e]
  }

  function Interrupts(dests: seq<nat>): (es: seq<Event>)
    ensures |es| == |dests| && forall j :: 0 <= j < |es| ==> es[j] == Interrupt(dests[j])
  {
    seq(|dests|, j requires 0 <= j < |dests| => Interrupt(dests[j]))
  }

  function Flat(es: seq<Event>): seq<Event> {
    if es == [] then [] else Flat(es[..|es| - 1]) + FlatEvent(Run(Initial(), es[..|es| - 1]), es[|es| - 1])
  }

  /** No interrupt comes during a receive. */
  predicate Calm(es: seq<Event>) {
    forall j :: 0 <= j < |es| && es[j].ReceiveFrom? ==> es[j].window == []
  }

  /** An interrupt does not care for what the current process has as its buffer. */
  lemma IntrBuffer(k: Kernel, buf: Message, dest: nat)
    requires !k.procs[k.cur].status.receiving
    ensures var k1 := Put(k, k.cur, k.procs[k.cur].(msg := buf)); var l := IntrSend(k, dest);
      l.cur == k.cur && IntrSend(k1, dest) == Put(l, k.cur, l.procs[k.cur].(msg := buf))
  {
    hide Unblock, Pid2Proc;
    var k1 := Put(k, k.cur, k.procs[k.cur].(msg := buf));
    SameLookup(k, k1, dest);
    var r := Pid2Proc(k, dest);
    if r != -1 && k.procs[r].status.receiving {
      UnblockBuffer(Put(k, r, k.procs[r].(hasIntrMsg := false, msg := k.procs[r].msg.(source := INTERRUPT, kind := HARD_INT))), r, buf);
    }
    if r != -1 && r != k.cur {
      var p := k.procs[r];
      Swapped(k.procs, k.cur, k1.procs[k.cur], r, p.(hasIntrMsg := true));
      Swapped(k.procs, k.cur, k1.procs[k.cur], r, p.(hasIntrMsg := false, msg := p.msg.(source := INTERRUPT, kind := HARD_INT)));
    }
  }

  lemma UnblockBuffer(k: Kernel, r: Slot, buf: Message)
    requires r != k.cur
    ensures var k1 := Put(k, k.cur, k.procs[k.cur].(msg := buf)); var l := Unblock(k, r, Receiving);
      l.cur == k.cur && Unblock(k1, r, Receiving) == Put(l, k.cur, l.procs[k.cur].(msg := buf))
  {
    hide With;
    var p := k.procs[r];
    Swapped(k.procs, k.cur, k.procs[k.cur].(msg := buf), r, p.(status := With(p.status, Receiving, false)));
    Swapped(k.procs, k.cur, k.procs[k.cur].(msg := buf), r, p.(status := READY));
  }

  lemma Swapped(procs: Table, i: Slot, p: Pcb, j: Slot, q: Pcb)
    requires i != j
    ensures procs[i := p][j := q] == procs[j := q][i := p]
  {
  }

  lemma {:induction false} IntrAllBuffer(k: Kernel, buf: Message, dests: seq<nat>)
    requires !k.procs[k.cur].status.receiving
    ensures var k1 := Put(k, k.cur, k.procs[k.cur].(msg := buf)); var l := IntrSendAll(k, dests);
      l.cur == k.cur && IntrSendAll(k1, dests) == Put(l, k.cur, l.procs[k.cur].(msg := buf))
  {
    hide IntrSend;
    if dests == [] {
    } else {
      var init := dests[..|dests| - 1];
      IntrAllBuffer(k, buf, init);
      IntrAllUndisturbed(k, init);
      IntrBuffer(IntrSendAll(k, init), buf, dests[|dests| - 1]);
    }
  }

  /** Interrupts change neither who is known nor who waits for the current process. */
  lemma {:induction false} IntrAllLooks(k: Kernel, dests: seq<nat>, src: nat)
    requires !k.procs[k.cur].status.receiving
    ensures var l := IntrSendAll(k, dests);
      l.cur == k.cur && Pid2Proc(l, src) == Pid2Proc(k, src) && PickSender(l, l.cur, src) == PickSender(k, k.cur, src)
  {
    var l := IntrSendAll(k, dests);
    IntrAllUndisturbed(k, dests);
    IntrAllHash(k, dests);
    FindPidSame(k.procs, l.procs, k.hash[src % 128], src);
    FindPidSame(k.procs, l.procs, k.procs[k.cur].senders, src);
  }

  lemma {:induction false} IntrAllHash(k: Kernel, dests: seq<nat>)
    ensures IntrSendAll(k, dests).hash == k.hash
  {
    if dests == [] {
    } else {
      IntrAllHash(k, dests[..|dests| - 1]);
    }
  }

  /** What a receive finds at its first look. */
  lemma FirstLook(k: Kernel, src: nat, buf: Message, window: seq<nat>)
    requires !k.procs[k.cur].status.receiving
    ensures var k1 := Put(k, k.cur, k.procs[k.cur].(msg := buf));
      if src != ANY && src != INTERRUPT && Pid2Proc(k, src) == -1 then Receive(k, src, buf, window) == k1
      else if TakesIntr(k.procs[k.cur], src) then Receive(k, src, buf, window) == TakeIntr(k1, k.cur)
      else if PickSender(k, k.cur, src) != -1 then Receive(k, src, buf, window) == PickUp(k1, PickSender(k, k.cur, src))
      else Receive(k, src, buf, window) == Listen(k1, src, window)
  {
    hide PickUp, Listen;
    var k1 := Put(k, k.cur, k.procs[k.cur].(msg := buf));
    FindPidSame(k.procs, k1.procs, k.hash[src % 128], src);
    FindPidSame(k.procs, k1.procs, k.procs[k.cur].senders, src);
  }

  /** Interrupts between the two looks of a receive might as well come before it. */
  lemma WindowBefore(k: Kernel, src: nat, buf: Message, window: seq<nat>)
    requires !k.procs[k.cur].status.receiving
    requires src == ANY || src == INTERRUPT || Pid2Proc(k, src) != -1
    requires !TakesIntr(k.procs[k.cur], src) && PickSender(k, k.cur, src) == -1
    ensures Receive(k, src, buf, window) == Receive(IntrSendAll(k, window), src, buf, [])
  {
    hide PickUp, IntrSendAll, Block, PickSender, Pid2Proc;
    var k1 := Put(k, k.cur, k.procs[k.cur].(msg := buf));
    var l := IntrSendAll(k, window);
    FirstLook(k, src, buf, window);
    IntrAllLooks(k, window, src);
    IntrAllBuffer(k, buf, window);
    IntrAllUndisturbed(k, window);
    FirstLook(l, src, buf, []);
    assert IntrSendAll(Put(l, l.cur, l.procs[l.cur].(msg := buf)), []) == Put(l, l.cur, l.procs[l.cur].(msg := buf)) by {
      NoInterrupts(Put(l, l.cur, l.procs[l.cur].(msg := buf)));
    }
  }

  lemma NoInterrupts(k: Kernel)
    ensures IntrSendAll(k, []) == k
  {
  }

  lemma {:induction false} InterruptsRun(k: Kernel, dests: seq<nat>)
    ensures RunEnabled(k, Interrupts(dests)) && Run(k, Interrupts(dests)) == IntrSendAll(k, dests)
  {
    hide IntrSend;
    var es := Interrupts(dests);
    if dests == [] {
      assert es == [];
    } else {
      var init := dests[..|dests| - 1];
      InterruptsRun(k, init);
      assert es[..|es| - 1] == Interrupts(init);
    }
  }

  lemma {:induction false} RunBoth(k: Kernel, a: seq<Event>, b: seq<Event>)
    ensures Run(k, a + b) == Run(Run(k, a), b)
    ensures RunEnabled(k, a) && RunEnabled(Run(k, a), b) ==> RunEnabled(k, a + b)
  {
    hide Step, Enabled;
    if b == [] {
      assert a + b == a;
    } else {
      RunBoth(k, a, b[..|b| - 1]);
      assert (a + b)[..|a + b| - 1] == a + b[..|b| - 1];
    }
  }

  lemma OneEvent(k: Kernel, e: Event)
    ensures Run(k, [e]) == Step(k, e) && (Enabled(k, e) ==> RunEnabled(k, [e]))
  {
    hide Step, Enabled;
    assert [e][..0] == [];
    assert Run(k, []) == k && RunEnabled(k, []);
  }

  /** Without interrupts coming, a receive waits exactly if its first look finds neither an error nor a message. */
  lemma WaitsWhen(k: Kernel, src: nat, buf: Message)
    requires Inv(k) && k.cur != TASK_IDLE
    ensures Receive(k, src, buf, []).procs[k.cur].status.receiving
       <==> (src == ANY || src == INTERRUPT || Pid2Proc(k, src) != -1)
            && !TakesIntr(k.procs[k.cur], src) && PickSender(k, k.cur, src) == -1
  {
    hide Inv, PickUp, Listen, Pid2Proc, PickSender, Receive;
    CurrentRuns(k);
    FirstLook(k, src, buf, []);
    var k1 := Put(k, k.cur, k.procs[k.cur].(msg := buf));
    BufferKeeps(k, k1.procs[k.cur]);
    if PickSender(k, k.cur, src) != -1 {
      PickedIsAnother(k, src);
      PickUpCurrent(k1, PickSender(k, k.cur, src));
    }
    if !TakesIntr(k.procs[k.cur], src) {
      ListensOn(k1, src);
    }
  }

  lemma ListensOn(k: Kernel, src: nat)
    requires Inv(k) && k.cur != TASK_IDLE && !TakesIntr(k.procs[k.cur], src)
    ensures Listen(k, src, []).procs[k.cur].status.receiving
  {
    hide Inv, Block, IntrSendAll;
    NoInterrupts(k);
    CurrentRuns(k);
    var k2 := Put(k, k.cur, k.procs[k.cur].(recvfrom := src));
    BufferKeeps(k, k2.procs[k.cur]);
    BlockMailbox(k2, Receiving);
  }

  lemma CurrentRuns(k: Kernel)
    requires Inv(k)
    ensures k.procs[k.cur].status == RUNNING && Live(k, k.cur)
  {
  }

  /** Nobody is in its own queue. */
  lemma PickedIsAnother(k: Kernel, src: nat)
    requires Inv(k) && PickSender(k, k.cur, src) != -1
    ensures PickSender(k, k.cur, src) != k.cur && InQueue(k, k.cur, PickSender(k, k.cur, src))
  {
    CurrentRuns(k);
    SenderSends(k, k.cur, PickSender(k, k.cur, src));
  }

  lemma PickUpCurrent(k: Kernel, s: Slot)
    requires s != k.cur
    ensures var l := PickUp(k, s);
      && l.cur == k.cur
      && l.procs[k.cur] == k.procs[k.cur].(senders := Without(k.procs[k.cur].senders, s), msg := k.procs[s].msg)
  {
  }

  lemma FlatStep(k: Kernel, e: Event)
    requires Inv(k) && Enabled(k, e)
    ensures RunEnabled(k, FlatEvent(k, e)) && Run(k, FlatEvent(k, e)) == Step(k, e)
  {
    hide Inv, Step, Enabled, Receive, Run, RunEnabled;
    if e.ReceiveFrom? {
      FlatReceive(k, e.src, e.buf, e.window);
    } else {
      OneEvent(k, e);
    }
  }

  lemma FlatReceive(k: Kernel, src: nat, buf: Message, window: seq<nat>)
    requires Inv(k) && Enabled(k, ReceiveFrom(src, buf, window))
    ensures var e := ReceiveFrom(src, buf, window); RunEnabled(k, FlatEvent(k, e)) && Run(k, FlatEvent(k, e)) == Step(k, e)
  {
    hide Inv, Receive, IntrSendAll, Run, RunEnabled, Step, Enabled;
    var f := ReceiveFrom(src, buf, []);
    StepIsReceive(k, src, buf, window);
    SameReceive(k, src, buf, window);
    StepIsReceive(k, src, buf, []);
    if Receive(k, src, buf, []).procs[k.cur].status.receiving {
      StepIsReceive(IntrSendAll(k, window), src, buf, []);
      InterruptsRun(k, window);
      OneEvent(IntrSendAll(k, window), f);
      RunBoth(k, Interrupts(window), [f]);
    } else {
      OneEvent(k, f);
      assert [] + [f] == [f];
    }
  }

  lemma StepIsReceive(k: Kernel, src: nat, buf: Message, window: seq<nat>)
    ensures var e := ReceiveFrom(src, buf, window);
      Step(k, e) == Receive(k, src, buf, window) && (Enabled(k, e) <==> k.cur != TASK_IDLE && src != k.procs[k.cur].pid)
  {
    hide Receive;
  }

  lemma SameReceive(k: Kernel, src: nat, buf: Message, window: seq<nat>)
    requires Inv(k) && k.cur != TASK_IDLE
    ensures var l := IntrSendAll(k, window);
      && l.cur == k.cur && l.procs[l.cur].pid == k.procs[k.cur].pid
      && if Receive(k, src, buf, []).procs[k.cur].status.receiving
         then Receive(k, src, buf, window) == Receive(l, src, buf, [])
         else Receive(k, src, buf, window) == Receive(k, src, buf, [])
  {
    hide Inv, Receive, IntrSendAll, Pid2Proc, PickSender, PickUp, TakesIntr;
    CurrentRuns(k);
    WaitsWhen(k, src, buf);
    IntrAllUndisturbed(k, window);
    if Receive(k, src, buf, []).procs[k.cur].status.receiving {
      WindowBefore(k, src, buf, window);
    } else {
      FirstLook(k, src, buf, []);
      FirstLook(k, src, buf, window);
    }
  }

  /** Every run is one without interrupts during a receive; so what is said of these is said of all. */
  lemma {:induction false} FlatRun(es: seq<Event>)
    requires RunEnabled(Initial(), es)
    ensures RunEnabled(Initial(), Flat(es)) && Run(Initial(), Flat(es)) == Run(Initial(), es) && Calm(Flat(es))
  {
    hide Inv, Step, Enabled, FlatEvent, Initial;
    if es == [] {
    } else {
      var init, e := es[..|es| - 1], es[|es| - 1];
      var k := Run(Initial(), init);
      FlatRun(init);
      RunKeepsInv(init);
      FlatStep(k, e);
      FlatIsCalm(k, e);
      RunBoth(Initial(), Flat(init), FlatEvent(k, e));
    }
  }

  lemma FlatIsCalm(k: Kernel, e: Event)
    ensures Calm(FlatEvent(k, e))
  {
    hide Receive;
  }

  // ---------------------------------------------------------------- what a step does to a pending interrupt

  /** A receive of process `i` ends in this step, and with an interrupt. */
  predicate Heard(k: Kernel, e: Event, i: Slot) {
    Ends(k, e, i) && Step(k, e).procs[i].msg.source == INTERRUPT
  }

  /** The event is an interrupt for process `i`. */
  predicate Comes(k: Kernel, e: Event, i: Slot) {
    e.Interrupt? && Pid2Proc(k, e.dest) == i
  }

  /** Nobody but `x` has started or stopped receiving, and pending interrupts stay. */
  ghost predicate SameEars(k: Kernel, l: Kernel, x: int) {
    forall j: Slot ::
      l.procs[j].hasIntrMsg == k.procs[j].hasIntrMsg && (j != x ==> l.procs[j].status.receiving == k.procs[j].status.receiving)
  }

  lemma EarsBoth(k: Kernel, l: Kernel, m: Kernel, x: int)
    requires SameEars(k, l, x) && SameEars(l, m, x)
    ensures SameEars(k, m, x)
  {
  }

  lemma ReadyEars(k: Kernel, i: Slot)
    requires !k.procs[i].status.receiving
    ensures SameEars(k, MakeReady(k, i), -1)
  {
  }

  lemma PopEars(k: Kernel)
    requires forall j: Slot :: j in k.ready ==> !k.procs[j].status.receiving
    ensures SameEars(k, PopReady(k), -1)
  {
    assert k.ready != [] ==> k.ready[0] in k.ready;
  }

  lemma ScheduleEars(k: Kernel)
    requires (forall j: Slot :: j in k.ready ==> !k.procs[j].status.receiving)
    ensures SameEars(k, Schedule(k), -1)
  {
    hide SameEars;
    var k1 := if k.procs[k.cur].status == RUNNING then MakeReady(k, k.cur) else k;
    if k.procs[k.cur].status == RUNNING {
      ReadyEars(k, k.cur);
    } else {
      SelfEars(k);
    }
    PopEars(k1);
    EarsBoth(k, k1, Schedule(k), -1);
  }

  lemma SelfEars(k: Kernel)
    ensures SameEars(k, k, -1)
  {
  }

  lemma UnblockEars(k: Kernel, i: Slot, reason: Reason)
    ensures SameEars(k, Unblock(k, i, reason), if reason == Receiving then i else -1)
    ensures !With(k.procs[i].status, reason, false).receiving ==> !Unblock(k, i, reason).procs[i].status.receiving
  {
  }

  lemma BlockEars(k: Kernel, i: Slot, reason: Reason)
    requires k.procs[i].status == RUNNING && (forall j: Slot :: j in k.ready ==> j != i && !k.procs[j].status.receiving)
    ensures SameEars(k, Block(k, i, reason), if reason == Receiving then i else -1)
  {
    var k1 := SetStatus(k, i, With(k.procs[i].status, reason, true));
    hide Schedule;
    ScheduleEars(k1);
  }

  lemma ReadyHearsNothing(k: Kernel)
    requires Scheduling(k)
    ensures k.procs[k.cur].status == RUNNING && forall j: Slot :: j in k.ready ==> j != k.cur && !k.procs[j].status.receiving
  {
  }

  /** A send wakes at most the one it is for, with a message that bears the sender's name. */
  lemma SendEars(k: Kernel, dest: nat, msg: Message)
    requires Scheduling(k)
    ensures var l := Send(k, dest, msg);
      && SameEars(k, l, Pid2Proc(k, dest))
      && (Pid2Proc(k, dest) != -1 && k.procs[Pid2Proc(k, dest)].status.receiving && !l.procs[Pid2Proc(k, dest)].status.receiving ==>
            l.procs[Pid2Proc(k, dest)].msg.source == k.procs[k.cur].pid)
  {
    hide Block, Unblock, Pid2Proc, Scheduling;
    ReadyHearsNothing(k);
    var r := Pid2Proc(k, dest);
    if r != -1 {
      var m := msg.(source := k.procs[k.cur].pid);
      var k1 := Put(k, k.cur, k.procs[k.cur].(msg := m)).(sent := k.sent + [Letter(k.procs[k.cur].pid, dest, m)]);
      if Accepts(k1.procs[r], k.procs[k.cur].pid) {
        UnblockEars(Put(k1, r, k1.procs[r].(msg := m)), r, Receiving);
        UnblockMsg(Put(k1, r, k1.procs[r].(msg := m)), r, Receiving);
      } else {
        BlockEars(k1, k.cur, Sending);
        StillReceives(k, k1, Block(k1, k.cur, Sending), r);
      }
    }
  }

  lemma UnblockMsg(k: Kernel, i: Slot, reason: Reason)
    ensures Unblock(k, i, reason).procs[i].msg == k.procs[i].msg
  {
  }

  lemma StillReceives(k: Kernel, k1: Kernel, l: Kernel, r: Slot)
    requires SameEars(k1, l, -1) && k1.procs[r].status == k.procs[r].status
    ensures l.procs[r].status.receiving == k.procs[r].status.receiving
  {
  }

  /** Nobody hears an interrupt when only one process may have been woken, by a message with a name, or has died. */
  lemma NobodyHears(k: Kernel, e: Event, x: int, y: int)
    requires !e.ReceiveFrom?
    requires forall j: Slot :: j != x && j != y ==> Step(k, e).procs[j].status.receiving == k.procs[j].status.receiving
    requires 0 <= x < 128 && k.procs[x].status.receiving && !Step(k, e).procs[x].status.receiving ==>
      Step(k, e).procs[x].msg.source < NO_PROC
    requires 0 <= y < 128 ==> !Alive(Step(k, e), y)
    ensures forall j: Slot :: !Heard(k, e, j)
  {
    hide Step;
  }

  lemma TickFlags(k: Kernel)
    requires Inv(k)
    ensures SameEars(k, Schedule(k), -1) && forall j: Slot :: !Heard(k, Tick, j)
  {
    ReadyHearsNothing(k);
    hide Inv, Schedule;
    ScheduleEars(k);
    NobodyHears(k, Tick, -1, -1);
  }

  lemma SendFlags(k: Kernel, dest: nat, msg: Message)
    requires Inv(k)
    ensures SameEars(k, Send(k, dest, msg), Pid2Proc(k, dest)) && forall j: Slot :: !Heard(k, SendTo(dest, msg), j)
  {
    SignedByPid(k);
    hide Registry, Queues, Family, Histories, Reaped, Scheduling, Send;
    SendEars(k, dest, msg);
    NobodyHears(k, SendTo(dest, msg), Pid2Proc(k, dest), -1);
  }

  lemma ExecFlags(k: Kernel, parent: nat, hasMemory: bool)
    requires Inv(k)
    ensures forall j: Slot :: Execute(k, parent, hasMemory).procs[j].hasIntrMsg == k.procs[j].hasIntrMsg
    ensures forall j: Slot :: !Heard(k, Exec(parent, hasMemory), j)
  {
    hide Inv, Execute;
    if k.slots != [] && hasMemory {
      ExecStatuses(k, parent);
      NewHearsNothing(k, Exec(parent, hasMemory), k.slots[0]);
    } else {
      ProcReport.NothingExecuted(k, parent, hasMemory);
      NobodyHears(k, Exec(parent, hasMemory), -1, -1);
    }
  }

  lemma NewHearsNothing(k: Kernel, e: Event, i: Slot)
    requires !e.ReceiveFrom? && i in k.slots && forall j: Slot :: j != i ==> Step(k, e).procs[j].status == k.procs[j].status
    ensures forall j: Slot :: !Heard(k, e, j)
  {
    hide Step;
  }

  lemma ExecStatuses(k: Kernel, parent: nat)
    requires k.slots != []
    ensures forall j: Slot :: j != k.slots[0] ==> Execute(k, parent, true).procs[j].status == k.procs[j].status
    ensures forall j: Slot :: Execute(k, parent, true).procs[j].hasIntrMsg == k.procs[j].hasIntrMsg
  {
  }

  lemma DieEars(k: Kernel, i: Slot, status: int)
    ensures SameEars(k, Die(k, i, status), i)
  {
    DieShape(k, i, status);
  }

  lemma ReapEars(k: Kernel, p: Slot, i: Slot, status: int)
    ensures SameEars(k, Reap(k, p, i, status), -1)
  {
    hide Reap;
    ReapShape(k, p, i, status);
    ReclaimRest(k, i);
  }

  lemma EarsWeaken(k: Kernel, l: Kernel, x: int)
    requires SameEars(k, l, -1)
    ensures SameEars(k, l, x)
  {
  }

  /** Up to the reply, an exit changes nobody's ears but those of the process that dies. */
  lemma DepartedEars(k: Kernel, i: Slot, p: Slot, status: int)
    ensures SameEars(k, Departed(Die(k, i, status), i, p, status), i)
  {
    hide Die, Unblock, Reap, SameEars;
    var k1 := Die(k, i, status);
    DieEars(k, i, status);
    var k2 := Put(k1, p, k1.procs[p].(waitFor := k1.procs[i].pid));
    PutEars(k1, p, k2.procs[p]);
    var k3 := Unblock(k2, p, Waiting);
    UnblockEars(k2, p, Waiting);
    EarsBoth(k1, k2, k3, -1);
    ReapEars(k3, p, i, status);
    EarsBoth(k1, k3, Reap(k3, p, i, status), -1);
    EarsWeaken(k1, Reap(k3, p, i, status), i);
    EarsBoth(k, k1, Reap(k3, p, i, status), i);
  }

  lemma PutEars(k: Kernel, p: Slot, q: Pcb)
    requires q.status == k.procs[p].status && q.hasIntrMsg == k.procs[p].hasIntrMsg
    ensures SameEars(k, Put(k, p, q), -1)
  {
  }

  /** A reply of the system task, at the end of an event that so far has changed nobody's ears but those of `y`, who died. */
  lemma ReplyFlags(k: Kernel, l3: Kernel, e: Event, parent: nat, value: int, y: int)
    requires Inv(l3) && l3.cur == TASK_SYS && !e.ReceiveFrom? && SameEars(k, l3, y)
    requires Step(k, e) == Send(l3, parent, Reply(value)) && (0 <= y < 128 ==> !Alive(Step(k, e), y))
    ensures (forall j: Slot :: Step(k, e).procs[j].hasIntrMsg == k.procs[j].hasIntrMsg) && forall j: Slot :: !Heard(k, e, j)
  {
    hide Inv, Core, Scheduling, Send, Step, Alive, Live, SameEars, Pid2Proc;
    SignedByPid(l3);
    InvParts(l3);
    SendEars(l3, parent, Reply(value));
    EarsToTheEnd(k, l3, e, Pid2Proc(l3, parent), y);
  }

  lemma EarsToTheEnd(k: Kernel, l: Kernel, e: Event, x: int, y: int)
    requires !e.ReceiveFrom? && SameEars(k, l, y) && SameEars(l, Step(k, e), x) && -1 <= x < 128
    requires x != -1 && l.procs[x].status.receiving && !Step(k, e).procs[x].status.receiving ==> Step(k, e).procs[x].msg.source < NO_PROC
    requires 0 <= y < 128 ==> !Alive(Step(k, e), y)
    ensures (forall j: Slot :: Step(k, e).procs[j].hasIntrMsg == k.procs[j].hasIntrMsg) && forall j: Slot :: !Heard(k, e, j)
  {
    hide Step, Alive, Heard;
    NobodyHears(k, e, if x == y then -1 else x, y);
  }

  lemma ExitFlags(k: Kernel, self: nat, status: int)
    requires Inv(k) && ExitCalled(k, self) && MayExit(k, Pid2Proc(k, self))
    ensures var e := ExitOf(self, status);
      (forall j: Slot :: Exit(k, self, status).procs[j].hasIntrMsg == k.procs[j].hasIntrMsg) && forall j: Slot :: !Heard(k, e, j)
  {
    hide Inv, Exit, Departed, Die, Send, Intact, MayExit, Awaited, SameEars, RespectsMail, Alive;
    ExitShape(k, self, status);
    ExitRespects(k, self, status);
    var i := Pid2Proc(k, self);
    var p := Pid2Proc(k, k.procs[i].parent);
    if k.procs[i].parent != NO_PROC && p != -1 && Awaited(k, p, i) {
      DepartedEars(k, i, p, status);
      ReplyFlags(k, Departed(Die(k, i, status), i, p, status), ExitOf(self, status), k.procs[i].parent, status, i);
    } else {
      ExitEars(k, self, status);
      QuietFlags(k, ExitOf(self, status), i);
    }
  }

  lemma QuietFlags(k: Kernel, e: Event, y: int)
    requires !e.ReceiveFrom? && SameEars(k, Step(k, e), y) && (0 <= y < 128 ==> !Alive(Step(k, e), y))
    ensures (forall j: Slot :: Step(k, e).procs[j].hasIntrMsg == k.procs[j].hasIntrMsg) && forall j: Slot :: !Heard(k, e, j)
  {
    hide Step, Alive;
    NobodyHears(k, e, -1, y);
  }

  /** An exit that nobody waits for. */
  lemma ExitEars(k: Kernel, self: nat, status: int)
    requires Inv(k) && ExitCalled(k, self)
    requires var i := Pid2Proc(k, self); var p := Pid2Proc(k, k.procs[i].parent);
      !(k.procs[i].parent != NO_PROC && p != -1 && Awaited(k, p, i))
    ensures SameEars(k, Exit(k, self, status), Pid2Proc(k, self))
  {
    var i := Pid2Proc(k, self);
    var k1 := Die(k, i, status);
    DieSameParent(k, i, status);
    DieEars(k, i, status);
    hide Inv, Die, Send, Unblock, Awaited, SameEars;
    ReclaimRest(k1, i);
    ReclaimEars(k1, i);
    EarsWeaken(k1, Reclaim(k1, i), i);
    EarsBoth(k, k1, Reclaim(k1, i), i);
  }

  lemma ReclaimEars(k: Kernel, i: Slot)
    ensures SameEars(k, Reclaim(k, i), -1)
  {
  }

  lemma WaitFlags(k: Kernel, child: nat, parent: nat)
    requires Inv(k) && WaitCalled(k, parent) && MayWait(k, child, Pid2Proc(k, parent))
    ensures var e := WaitFor(child, parent);
      (forall j: Slot :: Wait(k, child, parent).procs[j].hasIntrMsg == k.procs[j].hasIntrMsg) && forall j: Slot :: !Heard(k, e, j)
  {
    hide Inv, Wait, Send, Reap, FoundByWait, WaitSleeps, SameEars, MayWait, Intact, Alive, Live;
    var p := Pid2Proc(k, parent);
    WaiterLives(k, parent);
    if FoundByWait(k, child, p) != -1 {
      WaitFindsFlags(k, child, p);
    } else {
      WaitOtherwise(k, child, p);
      if WaitSleeps(k, child, p) {
        SleepEars(k, p, child);
        QuietFlags(k, WaitFor(child, parent), -1);
      } else {
        SelfEars(k);
        ReplyFlags(k, k, WaitFor(child, parent), parent, -1, -1);
      }
    }
  }

  lemma WaitFindsFlags(k: Kernel, child: nat, p: Slot)
    requires Inv(k) && WaitCalled(k, k.procs[p].pid) && MayWait(k, child, p) && Pid2Proc(k, k.procs[p].pid) == p
    requires FoundByWait(k, child, p) != -1
    ensures var e := WaitFor(child, k.procs[p].pid);
      (forall j: Slot :: Wait(k, child, k.procs[p].pid).procs[j].hasIntrMsg == k.procs[j].hasIntrMsg) && forall j: Slot :: !Heard(k, e, j)
  {
    hide Inv, Wait, Send, Reap, FoundByWait, SameEars, MayWait, WaitCalled, Intact, Heard;
    WaitFindsShape(k, child, p);
    var c := FoundByWait(k, child, p);
    ReapEars(k, p, c, k.procs[c].exitStatus);
    ReplyFlags(k, Reap(k, p, c, k.procs[c].exitStatus), WaitFor(child, k.procs[p].pid), k.procs[p].pid, k.procs[c].exitStatus, -1);
  }

  lemma SleepEars(k: Kernel, p: Slot, child: nat)
    ensures SameEars(k, SleepFor(k, p, child), -1)
  {
  }

  lemma ReceiveFlags(k: Kernel, src: nat, buf: Message)
    requires Inv(k) && k.cur != TASK_IDLE
    ensures var l, e := Receive(k, src, buf, []), ReceiveFrom(src, buf, []);
      forall j: Slot ::
        && (Heard(k, e, j) <==> j == k.cur && TakesIntr(k.procs[k.cur], src))
        && l.procs[j].hasIntrMsg == (k.procs[j].hasIntrMsg && !Heard(k, e, j))
  {
    hide Inv, PickUp, Block, Pid2Proc, PickSender, IntrSendAll, SameEars, Receive;
    CurrentRuns(k);
    FirstLook(k, src, buf, []);
    ReceiveAlive(k, src, buf, []);
    var k1 := Put(k, k.cur, k.procs[k.cur].(msg := buf));
    NoInterrupts(k1);
    if src != ANY && src != INTERRUPT && Pid2Proc(k, src) == -1 {
      NothingHeard(k, ReceiveFrom(src, buf, []));
    } else if TakesIntr(k.procs[k.cur], src) {
      TakenHeard(k, ReceiveFrom(src, buf, []));
    } else if PickSender(k, k.cur, src) != -1 {
      PickUpFlags(k, src, buf);
    } else {
      StopFlags(k, src, buf);
    }
  }

  lemma NothingHeard(k: Kernel, e: Event)
    requires e.ReceiveFrom? && e.src != ANY && e.src != INTERRUPT && Pid2Proc(k, e.src) == -1
    requires Step(k, e) == Put(k, k.cur, k.procs[k.cur].(msg := e.buf)) && !k.procs[k.cur].status.receiving
    ensures forall j: Slot :: !Heard(k, e, j) && Step(k, e).procs[j].hasIntrMsg == k.procs[j].hasIntrMsg
  {
    hide Step;
  }

  lemma TakenHeard(k: Kernel, e: Event)
    requires e.ReceiveFrom? && (e.src == ANY || e.src == INTERRUPT) && Live(k, k.cur) && Alive(Step(k, e), k.cur)
    requires !k.procs[k.cur].status.receiving
    requires Step(k, e) == TakeIntr(Put(k, k.cur, k.procs[k.cur].(msg := e.buf)), k.cur)
    ensures forall j: Slot :: (Heard(k, e, j) <==> j == k.cur)
                           && Step(k, e).procs[j].hasIntrMsg == (k.procs[j].hasIntrMsg && j != k.cur)
  {
    hide Step;
  }

  lemma PickUpFlags(k: Kernel, src: nat, buf: Message)
    requires Inv(k) && PickSender(k, k.cur, src) != -1
    requires Receive(k, src, buf, []) == PickUp(Put(k, k.cur, k.procs[k.cur].(msg := buf)), PickSender(k, k.cur, src))
    ensures var l, e := Receive(k, src, buf, []), ReceiveFrom(src, buf, []);
      forall j: Slot :: !Heard(k, e, j) && l.procs[j].hasIntrMsg == k.procs[j].hasIntrMsg
  {
    hide Inv, PickSender, SameEars, Receive, Unblock, InQueue, Heard;
    var s: Slot := PickSender(k, k.cur, src);
    var k1 := Put(k, k.cur, k.procs[k.cur].(msg := buf));
    PickedIsAnother(k, src);
    QueuedPid(k, k.cur, s);
    QueuedSigned(k, k.cur, s);
    var k2 := Put(k1, k.cur, k1.procs[k.cur].(senders := Without(k1.procs[k.cur].senders, s), msg := k1.procs[s].msg));
    UnblockEars(k2, s, Sending);
    PickUpCurrent(k1, s);
    PickedEars(k, k2, Unblock(k2, s, Sending), ReceiveFrom(src, buf, []));
  }

  lemma PickedEars(k: Kernel, k2: Kernel, l: Kernel, e: Event)
    requires e.ReceiveFrom? && SameEars(k2, l, -1) && Step(k, e) == l.(received := Step(k, e).received)
    requires forall j: Slot :: k2.procs[j].status == k.procs[j].status && k2.procs[j].hasIntrMsg == k.procs[j].hasIntrMsg
    requires l.procs[k.cur].msg.source < NO_PROC
    ensures forall j: Slot :: !Heard(k, e, j) && Step(k, e).procs[j].hasIntrMsg == k.procs[j].hasIntrMsg
  {
    hide Step;
    assert forall j: Slot :: Step(k, e).procs[j] == l.procs[j];
  }

  lemma StopFlags(k: Kernel, src: nat, buf: Message)
    requires Inv(k) && k.cur != TASK_IDLE
    requires var k1 := Put(k, k.cur, k.procs[k.cur].(msg := buf));
      Receive(k, src, buf, []) == Block(Put(k1, k.cur, k1.procs[k.cur].(recvfrom := src)), k.cur, Receiving)
    ensures var l, e := Receive(k, src, buf, []), ReceiveFrom(src, buf, []);
      forall j: Slot :: !Heard(k, e, j) && l.procs[j].hasIntrMsg == k.procs[j].hasIntrMsg
  {
    hide Inv, Core, Scheduling, SameEars, Receive, Block, Heard, Live;
    InvParts(k);
    ReadyHearsNothing(k);
    var k1 := Put(k, k.cur, k.procs[k.cur].(msg := buf));
    var k2 := Put(k1, k.cur, k1.procs[k.cur].(recvfrom := src));
    assert k2.procs == k.procs[k.cur := k2.procs[k.cur]];
    BufferKeeps(k, k2.procs[k.cur]);
    BlockMailbox(k2, Receiving);
    SameOwner(k, k2);
    BlockEars(k2, k.cur, Receiving);
    StoppedEars(k, k2, Block(k2, k.cur, Receiving), ReceiveFrom(src, buf, []));
  }

  lemma SameOwner(k: Kernel, k2: Kernel)
    requires k2 == Put(k, k.cur, k2.procs[k.cur])
    requires forall j: Slot :: j in k.ready ==> j != k.cur && !k.procs[j].status.receiving
    ensures forall j: Slot :: j in k2.ready ==> j != k2.cur && !k2.procs[j].status.receiving
  {
  }

  lemma StoppedEars(k: Kernel, k2: Kernel, l: Kernel, e: Event)
    requires e.ReceiveFrom? && SameEars(k2, l, k.cur) && Step(k, e) == l && l.procs[k.cur].status.receiving
    requires forall j: Slot :: k2.procs[j].status == k.procs[j].status && k2.procs[j].hasIntrMsg == k.procs[j].hasIntrMsg
    ensures forall j: Slot :: !Heard(k, e, j) && Step(k, e).procs[j].hasIntrMsg == k.procs[j].hasIntrMsg
  {
    hide Step;
  }

  /** An interrupt for a process that waits for one, or for anything: its receive ends, and nothing else happens. */
  lemma InterruptWakes(k: Kernel, dest: nat)
    requires Inv(k) && Pid2Proc(k, dest) != -1
    requires var p := k.procs[Pid2Proc(k, dest)]; p.status.receiving && p.recvfrom in {0xffff_ffff, 0xffff_fffe}
    ensures var i := Pid2Proc(k, dest); var l, p := Step(k, Interrupt(dest)), k.procs[i];
      && Heard(k, Interrupt(dest), i) && !l.procs[i].hasIntrMsg
      && l.procs[i].msg == Message(0xffff_fffe, 1, p.msg.param1, p.msg.param2, p.msg.param3, p.msg.param4)
      && (forall j: Slot :: j != i ==> l.procs[j] == k.procs[j])
      && (if p.status.waiting then l.procs[i].status.waiting && l.ready == k.ready
          else l.procs[i].status == READY && l.ready == k.ready + [i])
      && l.cur == k.cur && l.received == k.received
  {
    hide Inv, Pid2Proc, RespectsMail, Alive, IntrSend, Live;
    ProcPids.Found(k, dest);
    var i := Pid2Proc(k, dest);
    IntrSendRespects(k, dest);
    ReceiverAlive(k, IntrSend(k, dest), i);
    NotSending(k, i);
    WokenState(k, dest);
  }

  lemma NotSending(k: Kernel, i: Slot)
    requires Inv(k) && Live(k, i) && k.procs[i].status.receiving
    ensures !k.procs[i].status.sending
  {
    ReceivingNotSending(k, i);
  }

  lemma WokenState(k: Kernel, dest: nat)
    requires Pid2Proc(k, dest) != -1
    requires var p := k.procs[Pid2Proc(k, dest)]; p.status.receiving && p.recvfrom in {0xffff_ffff, 0xffff_fffe} && !p.status.sending
    ensures var i := Pid2Proc(k, dest); var l, p := IntrSend(k, dest), k.procs[i];
      && !l.procs[i].hasIntrMsg && !l.procs[i].status.receiving
      && l.procs[i].msg == Message(0xffff_fffe, 1, p.msg.param1, p.msg.param2, p.msg.param3, p.msg.param4)
      && (forall j: Slot :: j != i ==> l.procs[j] == k.procs[j])
      && (if p.status.waiting then l.procs[i].status.waiting && l.ready == k.ready
          else l.procs[i].status == READY && l.ready == k.ready + [i])
      && l.cur == k.cur && l.received == k.received
  {
    hide Pid2Proc;
  }

  /** For any other process it changes nothing that can be seen at once. */
  lemma InterruptPends(k: Kernel, dest: nat)
    requires var i := Pid2Proc(k, dest);
      i == -1 || !(k.procs[i].status.receiving && (k.procs[i].recvfrom == ANY || k.procs[i].recvfrom == INTERRUPT))
    ensures var l := Step(k, Interrupt(dest));
      && l == k.(procs := l.procs)
      && (forall j: Slot :: l.procs[j] == k.procs[j].(hasIntrMsg := l.procs[j].hasIntrMsg))
      && (forall j: Slot :: !Heard(k, Interrupt(dest), j) && l.procs[j].hasIntrMsg == (Comes(k, Interrupt(dest), j) || k.procs[j].hasIntrMsg))
  {
  }

  /** The event leaves no interrupts to come in between. */
  predicate Plain(e: Event) {
    e.ReceiveFrom? ==> e.window == []
  }

  /** What a step does to what is pending. */
  lemma StepPending(k: Kernel, e: Event, i: Slot)
    requires Inv(k) && Enabled(k, e) && Plain(e)
    ensures Step(k, e).procs[i].hasIntrMsg == (!Heard(k, e, i) && (Comes(k, e, i) || k.procs[i].hasIntrMsg))
  {
    hide Inv, Heard, SameEars, Schedule, Send, Receive, IntrSend, Execute, Exit, Wait, MayExit, MayWait, ExitCalled, WaitCalled, Pid2Proc;
    match e
    case Tick => TickFlags(k); FlagsOf(k, Step(k, e), -1);
    case SendTo(dest, msg) => SendFlags(k, dest, msg); FlagsOf(k, Step(k, e), Pid2Proc(k, dest));
    case ReceiveFrom(src, buf, _) => ReceiveFlags(k, src, buf);
    case Interrupt(dest) => InterruptPending(k, dest, i);
    case Exec(parent, hasMemory) => ExecFlags(k, parent, hasMemory);
    case ExitOf(self, status) => ExitFlags(k, self, status);
    case WaitFor(child, parent) => WaitFlags(k, child, parent);
  }

  lemma FlagsOf(k: Kernel, l: Kernel, x: int)
    requires SameEars(k, l, x)
    ensures forall j: Slot :: l.procs[j].hasIntrMsg == k.procs[j].hasIntrMsg
  {
  }

  lemma InterruptPending(k: Kernel, dest: nat, i: Slot)
    requires Inv(k)
    ensures var e := Interrupt(dest);
      Step(k, e).procs[i].hasIntrMsg == (!Heard(k, e, i) && (Comes(k, e, i) || k.procs[i].hasIntrMsg))
  {
    hide Inv, Heard, IntrSend, Pid2Proc;
    var r := Pid2Proc(k, dest);
    if r != -1 && k.procs[r].status.receiving && (k.procs[r].recvfrom == ANY || k.procs[r].recvfrom == INTERRUPT) {
      InterruptWakes(k, dest);
      if i != r {
        OthersDeaf(k, Interrupt(dest), i);
      }
    } else {
      InterruptPends(k, dest);
    }
  }

  lemma OthersDeaf(k: Kernel, e: Event, i: Slot)
    requires !e.ReceiveFrom? && Step(k, e).procs[i] == k.procs[i]
    ensures !Heard(k, e, i)
  {
    hide Step;
  }

  // ---------------------------------------------------------------- runs

  /** Whether process `i` is owed an interrupt: one has come since its last receive that ended with one. */
  predicate Owed(es: seq<Event>, i: Slot) {
    es != [] &&
    var k, e := Run(Initial(), es[..|es| - 1]), es[|es| - 1];
    !Heard(k, e, i) && (Comes(k, e, i) || Owed(es[..|es| - 1], i))
  }

  /** What is owed is what is pending. */
  lemma {:induction false} OwedIsPending(es: seq<Event>, i: Slot)
    requires RunEnabled(Initial(), es) && Calm(es)
    ensures Run(Initial(), es).procs[i].hasIntrMsg == Owed(es, i)
  {
    hide Inv, Step, Enabled, Initial, Heard, Comes;
    if es == [] {
      InitialDeaf(i);
    } else {
      var init := es[..|es| - 1];
      RunKeepsInv(init);
      OwedIsPending(init, i);
      StepPending(Run(Initial(), init), es[|es| - 1], i);
    }
  }

  lemma InitialDeaf(i: Slot)
    ensures !Initial().procs[i].hasIntrMsg
  {
  }

  /** Event `j` of a run is an interrupt for process `i`. */
  predicate ComesAt(es: seq<Event>, j: nat, i: Slot) {
    j < |es| && Comes(Run(Initial(), es[..j]), es[j], i)
  }

  /** In event `j` of a run a receive of process `i` ends with an interrupt. */
  predicate HeardAt(es: seq<Event>, j: nat, i: Slot) {
    j < |es| && Heard(Run(Initial(), es[..j]), es[j], i)
  }

  /** An interrupt for `i` has come in event `j`, and none has been heard by it since. */
  ghost predicate PendsSince(es: seq<Event>, j: nat, i: Slot) {
    ComesAt(es, j, i) && forall m: nat :: j <= m < |es| ==> !HeardAt(es, m, i)
  }

  lemma {:induction false} OwedSince(es: seq<Event>, i: Slot)
    ensures Owed(es, i) <==> exists j: nat :: PendsSince(es, j, i)
  {
    hide Heard, Comes, Run;
    if es == [] {
    } else {
      var n := |es| - 1;
      OwedSince(es[..n], i);
      PrefixEvents(es, i);
      if Owed(es, i) {
        if ComesAt(es, n, i) {
          assert PendsSince(es, n, i);
        } else {
          var j: nat :| PendsSince(es[..n], j, i);
          assert PendsSince(es, j, i);
        }
      }
      forall j: nat | PendsSince(es, j, i)
        ensures Owed(es, i)
      {
        assert !HeardAt(es, n, i);
        if j < n {
          assert ComesAt(es[..n], j, i);
          forall m: nat | j <= m < |es[..n]|
            ensures !HeardAt(es[..n], m, i)
          {
            assert !HeardAt(es, m, i);
          }
          assert PendsSince(es[..n], j, i);
        }
      }
    }
  }

  lemma PrefixEvents(es: seq<Event>, i: Slot)
    requires es != []
    ensures forall m: nat :: m < |es| - 1 ==> HeardAt(es[..|es| - 1], m, i) == HeardAt(es, m, i)
    ensures forall m: nat :: m < |es| - 1 ==> ComesAt(es[..|es| - 1], m, i) == ComesAt(es, m, i)
  {
    hide Heard, Comes, Run;
    forall m: nat | m < |es| - 1
      ensures HeardAt(es[..|es| - 1], m, i) == HeardAt(es, m, i) && ComesAt(es[..|es| - 1], m, i) == ComesAt(es, m, i)
    {
      assert es[..|es| - 1][..m] == es[..m];
    }
  }

  /** What the current process gets at once when it is owed an interrupt and asks for one, or for anything. */
  ghost predicate HearsAtOnce(k: Kernel, e: Event)
    requires e.ReceiveFrom?
  {
    var l, r := Step(k, e), k.cur;
    && Heard(k, e, r) && l.cur == r && l.procs[r].status == RUNNING
    && l.procs[r].msg == Message(0xffff_fffe, 1, e.buf.param1, e.buf.param2, e.buf.param3, e.buf.param4)
    && l.ready == k.ready && l.received == k.received
    && (forall j: Slot :: j != r ==> l.procs[j] == k.procs[j]) && l.procs[r].senders == k.procs[r].senders
  }

  lemma TakenAtOnce(k: Kernel, e: Event)
    requires Inv(k) && e.ReceiveFrom? && (e.src == ANY || e.src == INTERRUPT) && k.procs[k.cur].hasIntrMsg && k.cur != TASK_IDLE
    ensures HearsAtOnce(k, e)
  {
    hide Inv, PickUp, Listen, Receive, Alive;
    CurrentRuns(k);
    FirstLook(k, e.src, e.buf, e.window);
    ReceiveAlive(k, e.src, e.buf, e.window);
  }

  /**
   * Over every run: a process that asks for an interrupt, or for anything, gets one at once exactly if it is owed one,
   * before any message that waits for it.
   */
  lemma ReceiveTakesOwed(es: seq<Event>, e: Event)
    requires RunEnabled(Initial(), es) && Calm(es)
    requires Enabled(Run(Initial(), es), e) && e.ReceiveFrom? && e.src in {0xffff_ffff, 0xffff_fffe}
    ensures var k := Run(Initial(), es);
      && (Owed(es, k.cur) ==> HearsAtOnce(k, e))
      && (e.window == [] ==> (Heard(k, e, k.cur) <==> Owed(es, k.cur)))
  {
    hide Run, Initial, RunEnabled, Inv, Receive, Owed, HearsAtOnce, Heard;
    var k := Run(Initial(), es);
    RunKeepsInv(es);
    OwedIsPending(es, k.cur);
    if k.procs[k.cur].hasIntrMsg {
      TakenAtOnce(k, e);
    }
    ReceiveFlags(k, e.src, e.buf);
  }

  /**
   * Over every run: an interrupt for a process that exists is not lost. If none has been heard by the process since,
   * its next receive from anybody, or from interrupts only, ends at once with an interrupt.
   */
  lemma InterruptIsHeard(es: seq<Event>, j: nat, d: nat, e: Event)
    requires RunEnabled(Initial(), es) && Calm(es) && j < |es| && es[j] == Interrupt(d)
    requires Pid2Proc(Run(Initial(), es[..j]), d) != -1
    requires forall m: nat :: j <= m < |es| ==> !HeardAt(es, m, Pid2Proc(Run(Initial(), es[..j]), d))
    requires var k := Run(Initial(), es);
      k.procs[k.cur].pid == d && Enabled(k, e) && e.ReceiveFrom? && e.src in {0xffff_ffff, 0xffff_fffe}
    ensures HearsAtOnce(Run(Initial(), es), e)
  {
    hide Run, Initial, RunEnabled, Inv, Owed, HearsAtOnce, Heard, Enabled, Pid2Proc;
    var k := Run(Initial(), es);
    var i := Pid2Proc(Run(Initial(), es[..j]), d);
    RunKeepsInv(es);
    CurrentFound(k);
    ProcPids.SamePlace(es, j, d);
    assert ComesAt(es, j, i);
    assert PendsSince(es, j, i);
    OwedSince(es, i);
    ReceiveTakesOwed(es, e);
  }

  lemma CurrentFound(k: Kernel)
    requires Inv(k)
    ensures Pid2Proc(k, k.procs[k.cur].pid) == k.cur
  {
    LookupFinds(k, k.procs[k.cur].pid);
  }

  /**
   * Over every run: a receive that ends with an interrupt ends with one that has come for this process table entry, and
   * has not been heard there before.
   */
  lemma HeardHasCome(es: seq<Event>, e: Event, i: Slot)
    requires RunEnabled(Initial(), es) && Calm(es) && Enabled(Run(Initial(), es), e) && Plain(e)
    requires Heard(Run(Initial(), es), e, i)
    ensures Comes(Run(Initial(), es), e, i) || exists j: nat :: PendsSince(es, j, i)
  {
    hide Run, Initial, RunEnabled, Inv, Owed, Heard, PendsSince;
    var k := Run(Initial(), es);
    RunKeepsInv(es);
    OwedIsPending(es, i);
    OwedSince(es, i);
    HeardWasPending(k, e, i);
  }

  lemma HeardWasPending(k: Kernel, e: Event, i: Slot)
    requires Inv(k) && Enabled(k, e) && Plain(e) && Heard(k, e, i)
    ensures Comes(k, e, i) || k.procs[i].hasIntrMsg
  {
    hide Inv, Heard, Schedule, Send, Receive, IntrSend, Execute, Exit, Wait, MayExit, MayWait, ExitCalled, WaitCalled, Pid2Proc;
    match e
    case Tick => TickFlags(k);
    case SendTo(dest, msg) => SendFlags(k, dest, msg);
    case ReceiveFrom(src, buf, _) => ReceiveFlags(k, src, buf);
    case Interrupt(dest) => InterruptHeard(k, dest, i);
    case Exec(parent, hasMemory) => ExecFlags(k, parent, hasMemory);
    case ExitOf(self, status) => ExitFlags(k, self, status);
    case WaitFor(child, parent) => WaitFlags(k, child, parent);
  }

  lemma InterruptHeard(k: Kernel, dest: nat, i: Slot)
    requires Inv(k) && Heard(k, Interrupt(dest), i)
    ensures Comes(k, Interrupt(dest), i)
  {
    hide Inv, Heard, IntrSend, Pid2Proc;
    var r := Pid2Proc(k, dest);
    if r != i {
      if r != -1 && k.procs[r].status.receiving && (k.procs[r].recvfrom == ANY || k.procs[r].recvfrom == INTERRUPT) {
        InterruptWakes(k, dest);
        OthersDeaf(k, Interrupt(dest), i);
      } else {
        InterruptPends(k, dest);
      }
    }
  }
}
