/** Delivery as processes see it: what they ask to be sent, and what they find in their message records. */
module ProcInbox {
  import opened Proc
  import opened ProcInv
  import opened ProcIpc
  import opened ProcSteps
  import opened ProcLife
  import opened ProcExit
  import opened ProcRun
  import opened ProcMail

  // ---------------------------------------------------------------- what goes out

  /** The letters that an event sends: a message as it was handed in, but signed, or a reply of the system task. */
  function Posts(k: Kernel, e: Event): seq<Letter> {
    match e
    case SendTo(dest, msg) =>
      var a := k.procs[k.cur].pid;
      if Pid2Proc(k, dest) == -1 then [] else [Letter(a, dest, msg.(source := a))]
    case ExitOf(self, status) =>
      var i := Pid2Proc(k, self);
      if i == -1 then []
      else
        var p := Pid2Proc(k, k.procs[i].parent);
        if k.procs[i].parent != NO_PROC && p != -1 && k.procs[p].status.waiting
           && (k.procs[p].waitFor == ANY || k.procs[p].waitFor == self)
        then [Answer(k.procs[i].parent, status)] else []
    case WaitFor(child, parent) =>
      var p := Pid2Proc(k, parent);
      if p == -1 then []
      else
        var c := FoundByWait(k, child, p);
        if c != -1 then [Answer(parent, k.procs[c].exitStatus)]
        else if WaitSleeps(k, child, p) then [] else [Answer(parent, -1)]
    case _ => []
  }

  /** What the system task sends to a parent: the value is the first parameter. */
  function Answer(parent: nat, value: int): Letter {
    Letter(TASK_SYS, parent, Message(TASK_SYS, 0, value, 0, 0, 0))
  }

  /** All letters sent in a run. */
  function Outbox(es: seq<Event>): seq<Letter> {
    if es == [] then []
    else Outbox(es[..|es| - 1]) + Posts(Run(Initial(), es[..|es| - 1]), es[|es| - 1])
  }

  lemma UnblockSent(k: Kernel, i: Slot, reason: Reason)
    ensures Unblock(k, i, reason).sent == k.sent && Unblock(k, i, reason).received == k.received
  {
  }

  lemma BlockSent(k: Kernel, i: Slot, reason: Reason)
    ensures Block(k, i, reason).sent == k.sent && Block(k, i, reason).received == k.received
  {
  }

  lemma ScheduleSent(k: Kernel)
    ensures Schedule(k).sent == k.sent && Schedule(k).received == k.received
  {
  }

  lemma SendSent(k: Kernel, dest: nat, msg: Message)
    ensures var a := k.procs[k.cur].pid;
      Send(k, dest, msg).sent == k.sent + if Pid2Proc(k, dest) == -1 then [] else [Letter(a, dest, msg.(source := a))]
  {
    hide Unblock, Block;
    var s, r := k.cur, Pid2Proc(k, dest);
    if r != -1 {
      var m := msg.(source := k.procs[s].pid);
      var k1 := Put(k, s, k.procs[s].(msg := m)).(sent := k.sent + [Letter(k.procs[s].pid, dest, m)]);
      UnblockSent(Put(k1, r, k1.procs[r].(msg := m)), r, Receiving);
      BlockSent(k1, s, Sending);
    } else {
      assert k.sent + [] == k.sent;
    }
  }

  lemma IntrSent(k: Kernel, dest: nat)
    ensures IntrSend(k, dest).sent == k.sent && IntrSend(k, dest).received == k.received
  {
  }

  lemma {:induction false} IntrAllSent(k: Kernel, dests: seq<nat>)
    ensures IntrSendAll(k, dests).sent == k.sent && IntrSendAll(k, dests).received == k.received
  {
    hide IntrSend;
    if dests == [] {
    } else {
      IntrAllSent(k, dests[..|dests| - 1]);
      IntrSent(IntrSendAll(k, dests[..|dests| - 1]), dests[|dests| - 1]);
    }
  }

  lemma ReceiveSent(k: Kernel, src: nat, buf: Message, window: seq<nat>)
    ensures Receive(k, src, buf, window).sent == k.sent
  {
    hide Unblock, Block, IntrSendAll;
    var r := k.cur;
    var k1 := Put(k, r, k.procs[r].(msg := buf));
    var s := PickSender(k1, r, src);
    if s != -1 {
      UnblockSent(Put(k1, r, k1.procs[r].(senders := Without<Slot>(k1.procs[r].senders, s), msg := k1.procs[s].msg)), s, Sending);
    } else {
      var k2 := IntrSendAll(k1, window);
      IntrAllSent(k1, window);
      BlockSent(Put(k2, r, k2.procs[r].(recvfrom := src)), r, Receiving);
    }
  }

  lemma ExecuteSent(k: Kernel, parent: nat, hasMemory: bool)
    ensures Execute(k, parent, hasMemory).sent == k.sent && Execute(k, parent, hasMemory).received == k.received
  {
  }

  // ---------------------------------------------------------------- exit and wait, up to the reply

  /** Between the two states nothing was sent or received, and `p` is the same process, as far as messages go. */
  predicate Intact(k: Kernel, l: Kernel, p: Slot) {
    && l.sent == k.sent && l.received == k.received
    && l.procs[p].pid == k.procs[p].pid && l.procs[p].status.receiving == k.procs[p].status.receiving
  }

  lemma ReapIntact(k: Kernel, p: Slot, i: Slot, status: int)
    ensures var l := Reap(k, p, i, status); Intact(k, l, p)
  {
  }

  lemma DieIntact(k: Kernel, i: Slot, status: int, p: Slot)
    requires p != i
    ensures Intact(k, Die(k, i, status), p)
  {
    DieShape(k, i, status);
  }

  /** The state in which an awaited process has exited and its parent is about to be told. */
  function Departed(k: Kernel, i: Slot, p: Slot, status: int): Kernel {
    Reap(Unblock(Put(k, p, k.procs[p].(waitFor := k.procs[i].pid)), p, Waiting), p, i, status)
  }

  lemma DepartedKeeps(k: Kernel, i: Slot, status: int)
    requires InvBut(k, i) && Corpse(k, i) && k.cur == TASK_SYS && k.procs[i].senders == []
    requires var p := Pid2Proc(k, k.procs[i].parent); k.procs[i].parent != NO_PROC && p != -1 && Awaited(k, p, i)
    ensures var p := Pid2Proc(k, k.procs[i].parent); var l := Departed(k, i, p, status);
      && Inv(l) && l.cur == TASK_SYS && Intact(k, l, p) && Live(l, p) && p != TASK_SYS && p != i && Live(k, p)
      && AfterDeath(k, i, status) == Send(l, k.procs[i].parent, Reply(status))
  {
    ParentFound(k, i);
    var p := Pid2Proc(k, k.procs[i].parent);
    UnwaitKeeps(k, p, i, k.procs[i].pid);
    var k2 := Unblock(Put(k, p, k.procs[p].(waitFor := k.procs[i].pid)), p, Waiting);
    UnwaitShape(k, p, i, k.procs[i].pid);
    assert p != i && Intact(k, k2, p) && Live(k, p);
    hide InvBut, Inv, Unblock, Reclaim, Send, Reap;
    ReapKeeps(k2, p, i, status);
    ReapRest(k2, p, i, status);
    ReapIntact(k2, p, i, status);
  }

  /** An exit either tells an awaiting parent, or sends nothing at all. */
  lemma ExitShape(k: Kernel, self: nat, status: int)
    requires Inv(k) && ExitCalled(k, self) && MayExit(k, Pid2Proc(k, self))
    ensures var i := Pid2Proc(k, self); var parent := k.procs[i].parent; var p := Pid2Proc(k, parent); var l := Exit(k, self, status);
      if parent != NO_PROC && p != -1 && Awaited(k, p, i)
      then var l3 := Departed(Die(k, i, status), i, p, status);
        Inv(l3) && l3.cur == TASK_SYS && Intact(k, l3, p) && Live(l3, p) && Live(k, p) && p != TASK_SYS
        && l == Send(l3, parent, Reply(status))
      else l.sent == k.sent && l.received == k.received
  {
    var i := Pid2Proc(k, self);
    var p := Pid2Proc(k, k.procs[i].parent);
    DieKeeps(k, i, status);
    DieCorpse(k, i, status);
    DeathSameGone(k, i, status);
    DieSameParent(k, i, status);
    ExitIsDeath(k, self, status);
    var k1 := Die(k, i, status);
    hide Inv, InvBut, Die, Exit, Departed, AfterDeath, Pid2Proc;
    if k.procs[i].parent != NO_PROC && p != -1 && Awaited(k, p, i) {
      DepartedKeeps(k1, i, status);
      DieIntact(k, i, status, p);
    } else {
      AfterDeathQuiet(k1, i, status);
    }
  }

  lemma DieCorpse(k: Kernel, i: Slot, status: int)
    requires Live(k, i) && TASK_IDLE < i
    ensures var l := Die(k, i, status);
      Corpse(l, i) && l.cur == k.cur && l.procs[i].senders == k.procs[i].senders && l.sent == k.sent && l.received == k.received
      && forall j: Slot :: Live(l, j) <==> Live(k, j)
  {
    DieShape(k, i, status);
  }

  /** A process that dies does not change its parent, nor whether that waits for it. */
  lemma DieSameParent(k: Kernel, i: Slot, status: int)
    requires Inv(k) && Alive(k, i) && TASK_IDLE < i
    ensures var l := Die(k, i, status); var parent := k.procs[i].parent; var p := Pid2Proc(k, parent);
      && l.procs[i].parent == parent && Pid2Proc(l, parent) == p
      && (parent != NO_PROC ==> p != -1 && p != i && (Awaited(l, p, i) <==> Awaited(k, p, i)))
  {
    DieShape(k, i, status);
    OwnParent(k, i);
    ParentFound(k, i);
    hide Inv, Die;
    var l := Die(k, i, status);
    FindPidSame(k.procs, l.procs, k.hash[k.procs[i].parent % 128], k.procs[i].parent);
  }

  lemma AfterDeathQuiet(k: Kernel, i: Slot, status: int)
    requires var p := Pid2Proc(k, k.procs[i].parent); !(k.procs[i].parent != NO_PROC && p != -1 && Awaited(k, p, i))
    ensures AfterDeath(k, i, status).sent == k.sent && AfterDeath(k, i, status).received == k.received
  {
  }

  lemma ExitIsDeath(k: Kernel, self: nat, status: int)
    requires Pid2Proc(k, self) != -1
    ensures var i := Pid2Proc(k, self); Exit(k, self, status) == AfterDeath(Die(k, i, status), i, status)
  {
  }

  /** Nobody is its own child. */
  lemma OwnParent(k: Kernel, i: Slot)
    requires Inv(k) && Alive(k, i)
    ensures i !in k.procs[i].children
  {
    assert i in k.procs[i].children ==> ParentOf(k, i, i);
  }

  /** A wait that finds a dead child tells its parent. */
  lemma CollectShape(k: Kernel, p: Slot, c: Slot)
    requires Inv(k) && k.cur == TASK_SYS && p != TASK_SYS && p != TASK_IDLE && ParentOf(k, p, c) && MayReclaim(k, c)
    ensures var l3 := Reap(k, p, c, k.procs[c].exitStatus);
      && Inv(l3) && l3.cur == TASK_SYS && Intact(k, l3, p) && Live(l3, p)
      && Collect(k, p, c) == Send(l3, k.procs[p].pid, Reply(k.procs[c].exitStatus))
  {
    ReapKeeps(k, p, c, k.procs[c].exitStatus);
    ReapRest(k, p, c, k.procs[c].exitStatus);
    ReapIntact(k, p, c, k.procs[c].exitStatus);
  }

  /** A wait that finds a dead child, up to the reply. */
  lemma WaitFindsShape(k: Kernel, child: nat, p: Slot)
    requires Inv(k) && WaitCalled(k, k.procs[p].pid) && MayWait(k, child, p) && Pid2Proc(k, k.procs[p].pid) == p
    requires FoundByWait(k, child, p) != -1
    ensures var c := FoundByWait(k, child, p); var l3 := Reap(k, p, c, k.procs[c].exitStatus);
      && Inv(l3) && l3.cur == TASK_SYS && Intact(k, l3, p) && Live(l3, p) && Live(k, p)
      && Wait(k, child, k.procs[p].pid) == Send(l3, k.procs[p].pid, Reply(k.procs[c].exitStatus))
  {
    hide Inv, Wait, Collect, Reap, Send, Intact;
    WaitCollects(k, child, p);
    WaiterLives(k, k.procs[p].pid);
    ChildIsCorpse(k, p, FoundByWait(k, child, p));
    hide FoundByWait;
    CollectShape(k, p, FoundByWait(k, child, p));
  }

  lemma WaitPosts(k: Kernel, child: nat, parent: nat)
    requires Inv(k) && WaitCalled(k, parent) && MayWait(k, child, Pid2Proc(k, parent))
    ensures Wait(k, child, parent).sent == k.sent + Posts(k, WaitFor(child, parent))
  {
    var p := Pid2Proc(k, parent);
    if FoundByWait(k, child, p) != -1 {
      WaitFindsPosts(k, child, p);
    } else {
      WaitMissesPosts(k, child, p);
    }
  }

  lemma WaitFindsPosts(k: Kernel, child: nat, p: Slot)
    requires Inv(k) && WaitCalled(k, k.procs[p].pid) && MayWait(k, child, p) && Pid2Proc(k, k.procs[p].pid) == p
    requires FoundByWait(k, child, p) != -1
    ensures Wait(k, child, k.procs[p].pid).sent == k.sent + [Answer(k.procs[p].pid, k.procs[FoundByWait(k, child, p)].exitStatus)]
  {
    hide Inv, Wait, Reap, Send, Answer, FoundByWait, MayWait, Intact, WaitCalled;
    WaitFindsShape(k, child, p);
    var status := k.procs[FoundByWait(k, child, p)].exitStatus;
    ReapIntact(k, p, FoundByWait(k, child, p), status);
    IntactSame(k, Reap(k, p, FoundByWait(k, child, p), status), p);
    AnswerSent(Reap(k, p, FoundByWait(k, child, p), status), p, status);
  }

  lemma IntactSame(k: Kernel, l: Kernel, p: Slot)
    requires Intact(k, l, p)
    ensures l.sent == k.sent && l.procs[p].pid == k.procs[p].pid
  {
  }

  lemma WaitMissesPosts(k: Kernel, child: nat, p: Slot)
    requires Inv(k) && WaitCalled(k, k.procs[p].pid) && Pid2Proc(k, k.procs[p].pid) == p && FoundByWait(k, child, p) == -1
    ensures Wait(k, child, k.procs[p].pid).sent
         == k.sent + if WaitSleeps(k, child, p) then [] else [Answer(k.procs[p].pid, -1)]
  {
    WaitOtherwise(k, child, p);
    WaiterLives(k, k.procs[p].pid);
    hide Inv, Wait, Send, Answer, FoundByWait, WaitSleeps;
    AnswerSent(k, p, -1);
    assert k.sent + [] == k.sent;
  }

  lemma WaiterLives(k: Kernel, parent: nat)
    requires Inv(k) && WaitCalled(k, parent)
    ensures var p := Pid2Proc(k, parent); Live(k, p) && k.procs[p].pid == parent
  {
  }

  lemma AnswerSent(k: Kernel, p: Slot, value: int)
    requires Inv(k) && k.cur == TASK_SYS && Live(k, p)
    ensures Send(k, k.procs[p].pid, Reply(value)).sent == k.sent + [Answer(k.procs[p].pid, value)]
  {
    LookupFinds(k, k.procs[p].pid);
    assert Live(k, k.cur) && k.procs[k.cur].pid == TASK_SYS;
    hide Inv, Send;
    SendSent(k, k.procs[p].pid, Reply(value));
  }

  lemma ExitPosts(k: Kernel, self: nat, status: int)
    requires Inv(k) && ExitCalled(k, self) && MayExit(k, Pid2Proc(k, self))
    ensures Exit(k, self, status).sent == k.sent + Posts(k, ExitOf(self, status))
  {
    hide Inv, Exit, Departed, Die, Send;
    ExitShape(k, self, status);
    var i := Pid2Proc(k, self);
    var p := Pid2Proc(k, k.procs[i].parent);
    if k.procs[i].parent != NO_PROC && p != -1 && Awaited(k, p, i) {
      AnswerSent(Departed(Die(k, i, status), i, p, status), p, status);
    } else {
      assert k.sent + [] == k.sent;
    }
  }

  /** Every step sends exactly the letters that belong to its event. */
  lemma StepPosts(k: Kernel, e: Event)
    requires Inv(k) && Enabled(k, e)
    ensures Step(k, e).sent == k.sent + Posts(k, e)
  {
    hide Inv, Schedule, Send, Receive, IntrSend, Execute, Exit, Wait, MayExit, MayWait, ExitCalled, WaitCalled, Awaited,
      FoundByWait, WaitSleeps;
    assert k.sent + [] == k.sent;
    match e
    case Tick => ScheduleSent(k);
    case SendTo(dest, msg) => SendSent(k, dest, msg);
    case ReceiveFrom(src, buf, window) => ReceiveSent(k, src, buf, window);
    case Interrupt(dest) => IntrSent(k, dest);
    case Exec(parent, hasMemory) => ExecuteSent(k, parent, hasMemory);
    case ExitOf(self, status) => ExitPosts(k, self, status);
    case WaitFor(child, parent) => WaitPosts(k, child, parent);
  }

  // ---------------------------------------------------------------- what comes in

  /** A receive of process `r` ends with this step, and not with an error. */
  predicate Ends(k: Kernel, e: Event, r: Slot) {
    var l := Step(k, e);
    && Live(k, r) && Alive(l, r) && !l.procs[r].status.receiving
    && (k.procs[r].status.receiving
        || (r == k.cur && e.ReceiveFrom? && (e.src == ANY || e.src == INTERRUPT || Pid2Proc(k, e.src) != -1)))
  }

  /** What the process with pid `b` finds in its message record, when its receive ends with a message from a process. */
  function Finds(k: Kernel, e: Event, b: nat): seq<Message> {
    var r, l := Pid2Proc(k, b), Step(k, e);
    if r != -1 && Ends(k, e, r) && l.procs[r].msg.source != INTERRUPT then [l.procs[r].msg] else []
  }

  /** All the messages that the process with pid `b` finds in a run, in order. */
  function Inbox(es: seq<Event>, b: nat): seq<Message> {
    if es == [] then []
    else Inbox(es[..|es| - 1], b) + Finds(Run(Initial(), es[..|es| - 1]), es[|es| - 1], b)
  }

  /** The messages on a log to `b`, in order. */
  function To(log: seq<Letter>, b: nat): seq<Message> {
    if log == [] then []
    else To(log[..|log| - 1], b) + if log[|log| - 1].to == b then [log[|log| - 1].msg] else []
  }

  /** The messages from `a` among these, in order. */
  function From(ms: seq<Message>, a: nat): seq<Message> {
    if ms == [] then []
    else From(ms[..|ms| - 1], a) + if ms[|ms| - 1].source == a then [ms[|ms| - 1]] else []
  }

  /** A letter is received: it is what its receiver finds. */
  predicate Arrives(k: Kernel, e: Event, x: Letter) {
    var r := Pid2Proc(k, x.to);
    r != -1 && Ends(k, e, r) && Step(k, e).procs[r].msg == x.msg && x.msg.source != INTERRUPT
  }

  /** A step receives no letter, or one that arrives. */
  ghost predicate AtMostOne(k: Kernel, e: Event) {
    var l := Step(k, e);
    l.received == k.received || exists x: Letter :: l.received == k.received + [x] && Arrives(k, e, x)
  }

  /** A send that is received at once puts the message into the record of its receiver, which goes on. */
  lemma SendArrives(k: Kernel, dest: nat, msg: Message)
    requires k.procs[k.cur].status == RUNNING
    ensures var l, r, a := Send(k, dest, msg), Pid2Proc(k, dest), k.procs[k.cur].pid;
      var m := msg.(source := a);
      l.received == k.received
      || (r != -1 && l.received == k.received + [Letter(a, dest, m)] && k.procs[r].status.receiving
          && !l.procs[r].status.receiving && l.procs[r].msg == m)
  {
    hide Block;
    var s, r := k.cur, Pid2Proc(k, dest);
    if r != -1 {
      var m := msg.(source := k.procs[s].pid);
      BlockSent(Put(k, s, k.procs[s].(msg := m)).(sent := k.sent + [Letter(k.procs[s].pid, dest, m)]), s, Sending);
    }
  }

  /** A process that is receiving and stays is alive afterwards. */
  lemma ReceiverAlive(k: Kernel, l: Kernel, r: Slot)
    requires Inv(k) && Live(k, r) && k.procs[r].status.receiving
    requires forall j: Slot :: Alive(l, j) <==> Alive(k, j)
    ensures Alive(l, r)
  {
  }

  lemma SignedByPid(k: Kernel)
    requires Inv(k)
    ensures k.procs[k.cur].pid < NO_PROC && Live(k, k.cur) && k.procs[k.cur].status == RUNNING
    ensures k.cur == TASK_SYS ==> k.procs[k.cur].pid == TASK_SYS
  {
  }

  lemma SendOne(k: Kernel, dest: nat, msg: Message)
    requires Inv(k) && Enabled(k, SendTo(dest, msg))
    ensures AtMostOne(k, SendTo(dest, msg))
  {
    var r := Pid2Proc(k, dest);
    SignedByPid(k);
    SendArrives(k, dest, msg);
    SendRespects(k, dest, msg);
    if r != -1 {
      LookupFinds(k, dest);
      if k.procs[r].status.receiving {
        ReceiverAlive(k, Send(k, dest, msg), r);
      }
    }
    hide Inv, Send, RespectsMail, Alive;
    var e, l := SendTo(dest, msg), Send(k, dest, msg);
    if l.received != k.received {
      var x := Letter(k.procs[k.cur].pid, dest, msg.(source := k.procs[k.cur].pid));
      assert l.received == k.received + [x] && Arrives(k, e, x);
    }
  }

  lemma ReceiveOne(k: Kernel, src: nat, buf: Message, window: seq<nat>)
    requires Inv(k) && Enabled(k, ReceiveFrom(src, buf, window))
    ensures AtMostOne(k, ReceiveFrom(src, buf, window))
  {
    SignedByPid(k);
    LookupFinds(k, k.procs[k.cur].pid);
    ReceiveResult(k, src, buf, window);
    ReceiveAlive(k, src, buf, window);
    hide Inv, Receive, Alive;
    ReceivedArrives(k, src, buf, window);
  }

  lemma ReceivedArrives(k: Kernel, src: nat, buf: Message, window: seq<nat>)
    requires Live(k, k.cur) && Pid2Proc(k, k.procs[k.cur].pid) == k.cur && !k.procs[k.cur].status.receiving
    requires var l, r := Receive(k, src, buf, window), k.cur;
      && Alive(l, r)
      && (l.received == k.received
          || ((src == ANY || src == INTERRUPT || Pid2Proc(k, src) != -1)
             && !l.procs[r].status.receiving && l.procs[r].msg.source != INTERRUPT
             && l.received == k.received + [Letter(l.procs[r].msg.source, k.procs[r].pid, l.procs[r].msg)]))
    ensures AtMostOne(k, ReceiveFrom(src, buf, window))
  {
    hide Receive, Alive, Live;
    var e, l := ReceiveFrom(src, buf, window), Receive(k, src, buf, window);
    if l.received != k.received {
      var m := l.procs[k.cur].msg;
      var x := Letter(m.source, k.procs[k.cur].pid, m);
      assert l.received == k.received + [x] && Arrives(k, e, x);
    }
  }

  /** The process that receives is there afterwards. */
  lemma ReceiveAlive(k: Kernel, src: nat, buf: Message, window: seq<nat>)
    requires Inv(k) && k.cur != TASK_IDLE
    ensures Alive(Receive(k, src, buf, window), k.cur)
  {
    hide Inv, PickUp, Listen, RespectsMail, TakeIntr, Alive, Receive;
    var r := k.cur;
    var k1 := Put(k, r, k.procs[r].(msg := buf));
    BufferAlive(k, buf);
    if PickSender(k1, r, src) != -1 {
      PickedInQueue(k, k1, src);
      PickUpRespects(k1, PickSender(k1, r, src));
    }
    ListenRespects(k1, src, window);
    ReceiveIsOneOf(k, src, buf, window);
  }

  lemma ReceiveIsOneOf(k: Kernel, src: nat, buf: Message, window: seq<nat>)
    ensures var k1 := Put(k, k.cur, k.procs[k.cur].(msg := buf)); var l, s := Receive(k, src, buf, window), PickSender(k1, k.cur, src);
      l == k1 || l == TakeIntr(k1, k.cur) || (s != -1 && l == PickUp(k1, s)) || l == Listen(k1, src, window)
  {
    hide PickUp, Listen;
  }

  lemma BufferAlive(k: Kernel, buf: Message)
    requires Inv(k)
    ensures var k1 := Put(k, k.cur, k.procs[k.cur].(msg := buf)); Inv(k1) && Alive(k1, k1.cur) && Alive(TakeIntr(k1, k1.cur), k1.cur)
  {
    InvParts(k);
    hide Core, Scheduling;
    BufferKeeps(k, k.procs[k.cur].(msg := buf));
  }

  lemma PickedInQueue(k: Kernel, k1: Kernel, src: nat)
    requires Inv(k) && k1 == Put(k, k.cur, k1.procs[k.cur]) && k1.procs[k.cur].senders == k.procs[k.cur].senders
    requires PickSender(k1, k.cur, src) != -1
    ensures InQueue(k1, k.cur, PickSender(k1, k.cur, src))
  {
    SignedByPid(k);
  }

  // ---------------------------------------------------------------- replies of the system task

  /** A reply that is received at once arrives, also seen from the state before the exit or wait. */
  lemma ReplyOne(k: Kernel, l3: Kernel, e: Event, p: Slot, value: int)
    requires Inv(k) && Inv(l3) && l3.cur == TASK_SYS && Intact(k, l3, p) && Live(k, p) && Live(l3, p) && p != TASK_SYS
    requires Step(k, e) == Send(l3, k.procs[p].pid, Reply(value))
    ensures AtMostOne(k, e)
  {
    hide Inv, Send, RespectsMail, Alive, Step, AtMostOne;
    LiveLookup(k, p);
    LiveLookup(l3, p);
    SignedByPid(l3);
    TaskIsNot(l3, p);
    SendArrives(l3, k.procs[p].pid, Reply(value));
    SendRespects(l3, k.procs[p].pid, Reply(value));
    if l3.procs[p].status.receiving {
      ReceiverAlive(l3, Send(l3, k.procs[p].pid, Reply(value)), p);
    }
    ReplyArrives(k, e, p, value);
  }

  lemma LiveLookup(k: Kernel, p: Slot)
    requires Inv(k) && Live(k, p)
    ensures Pid2Proc(k, k.procs[p].pid) == p
  {
    LookupFinds(k, k.procs[p].pid);
  }

  lemma ReplyArrives(k: Kernel, e: Event, p: Slot, value: int)
    requires Live(k, p) && Pid2Proc(k, k.procs[p].pid) == p
    requires var l, pid := Step(k, e), k.procs[p].pid;
      l.received == k.received
      || (k.procs[p].status.receiving && !l.procs[p].status.receiving && Alive(l, p)
          && l.received == k.received + [Answer(pid, value)] && l.procs[p].msg == Answer(pid, value).msg)
    ensures AtMostOne(k, e)
  {
    hide Step, Alive, Live;
    var x := Answer(k.procs[p].pid, value);
    if Step(k, e).received != k.received {
      assert Arrives(k, e, x);
    }
  }

  lemma ExitOne(k: Kernel, self: nat, status: int)
    requires Inv(k) && ExitCalled(k, self) && MayExit(k, Pid2Proc(k, self))
    ensures AtMostOne(k, ExitOf(self, status))
  {
    hide Inv, Exit, Departed, Die, Send, AtMostOne, Intact, MayExit, Awaited;
    ExitShape(k, self, status);
    var i := Pid2Proc(k, self);
    var p := Pid2Proc(k, k.procs[i].parent);
    if k.procs[i].parent != NO_PROC && p != -1 && Awaited(k, p, i) {
      FoundPid(k, k.procs[i].parent);
      ReplyOne(k, Departed(Die(k, i, status), i, p, status), ExitOf(self, status), p, status);
    } else {
      NoneReceived(k, ExitOf(self, status));
    }
  }

  lemma SystemRuns(k: Kernel)
    requires Inv(k) && k.cur == TASK_SYS
    ensures forall p: Slot :: Intact(k, k, p)
  {
  }

  lemma FoundPid(k: Kernel, pid: nat)
    ensures Pid2Proc(k, pid) != -1 ==> k.procs[Pid2Proc(k, pid)].pid == pid
  {
  }

  lemma NoneReceived(k: Kernel, e: Event)
    requires Step(k, e).received == k.received
    ensures AtMostOne(k, e)
  {
  }

  lemma WaitOne(k: Kernel, child: nat, parent: nat)
    requires Inv(k) && WaitCalled(k, parent) && MayWait(k, child, Pid2Proc(k, parent))
    ensures AtMostOne(k, WaitFor(child, parent))
  {
    var p := Pid2Proc(k, parent);
    WaiterLives(k, parent);
    if FoundByWait(k, child, p) != -1 {
      WaitFindsOne(k, child, p);
    } else {
      WaitMissesOne(k, child, p);
    }
  }

  lemma WaitFindsOne(k: Kernel, child: nat, p: Slot)
    requires Inv(k) && WaitCalled(k, k.procs[p].pid) && MayWait(k, child, p) && Pid2Proc(k, k.procs[p].pid) == p && Live(k, p)
    requires FoundByWait(k, child, p) != -1
    ensures AtMostOne(k, WaitFor(child, k.procs[p].pid))
  {
    hide Inv, Wait, Reap, Send, FoundByWait, AtMostOne, Intact, MayWait;
    WaitFindsShape(k, child, p);
    var status := k.procs[FoundByWait(k, child, p)].exitStatus;
    ReplyOne(k, Reap(k, p, FoundByWait(k, child, p), status), WaitFor(child, k.procs[p].pid), p, status);
  }

  lemma WaitMissesOne(k: Kernel, child: nat, p: Slot)
    requires Inv(k) && WaitCalled(k, k.procs[p].pid) && Pid2Proc(k, k.procs[p].pid) == p && Live(k, p)
    requires FoundByWait(k, child, p) == -1
    ensures AtMostOne(k, WaitFor(child, k.procs[p].pid))
  {
    hide Inv, Wait, Send, FoundByWait, WaitSleeps, AtMostOne;
    WaitOtherwise(k, child, p);
    if WaitSleeps(k, child, p) {
      assert SleepFor(k, p, child).received == k.received;
      NoneReceived(k, WaitFor(child, k.procs[p].pid));
    } else {
      SystemRuns(k);
      ReplyOne(k, k, WaitFor(child, k.procs[p].pid), p, -1);
    }
  }

  lemma StepOne(k: Kernel, e: Event)
    requires Inv(k) && Enabled(k, e)
    ensures AtMostOne(k, e)
  {
    hide Inv, Schedule, Send, Receive, IntrSend, Execute, Exit, Wait, MayExit, MayWait, ExitCalled, WaitCalled, Arrives;
    match e
    case Tick => ScheduleSent(k);
    case SendTo(dest, msg) => SendOne(k, dest, msg);
    case ReceiveFrom(src, buf, window) => ReceiveOne(k, src, buf, window);
    case Interrupt(dest) => IntrSent(k, dest);
    case Exec(parent, hasMemory) => ExecuteSent(k, parent, hasMemory);
    case ExitOf(self, status) => ExitOne(k, self, status);
    case WaitFor(child, parent) => WaitOne(k, child, parent);
  }

  // ---------------------------------------------------------------- the record is what processes find

  lemma ToAppend(log: seq<Letter>, x: Letter, b: nat)
    ensures To(log + [x], b) == To(log, b) + if x.to == b then [x.msg] else []
  {
    assert (log + [x])[..|log|] == log;
  }

  /** Who finds a message from a process has just received a letter with it. */
  lemma FoundIsReceived(k: Kernel, e: Event, b: nat)
    requires Inv(k) && Enabled(k, e) && Finds(k, e, b) != []
    ensures var l := Step(k, e); k.received <= l.received
    ensures var l := Step(k, e); var m := Finds(k, e, b)[0]; Letter(m.source, b, m) in l.received[|k.received|..]
  {
    hide Inv, Step, Enabled;
    var r := Pid2Proc(k, b);
    if k.procs[r].status.receiving {
      StepRespectsMail(k, e);
    } else {
      FoundByReceiver(k, e);
    }
  }

  lemma FoundByReceiver(k: Kernel, e: Event)
    requires Inv(k) && Enabled(k, e) && e.ReceiveFrom? && Ends(k, e, k.cur) && Step(k, e).procs[k.cur].msg.source != INTERRUPT
    requires !k.procs[k.cur].status.receiving
    ensures var l, m := Step(k, e), Step(k, e).procs[k.cur].msg;
      && k.received <= l.received && Letter(m.source, k.procs[k.cur].pid, m) in l.received[|k.received|..]
  {
    ReceiveResult(k, e.src, e.buf, e.window);
    hide Inv, Receive;
  }

  /** A step adds to what is received just what processes find. */
  lemma StepFinds(k: Kernel, e: Event, b: nat)
    requires Inv(k) && Enabled(k, e)
    ensures To(Step(k, e).received, b) == To(k.received, b) + Finds(k, e, b)
  {
    hide Inv, Step, Enabled, Finds, Arrives, To;
    StepOne(k, e);
    var l, f := Step(k, e), Finds(k, e, b);
    if f != [] {
      FoundIsReceived(k, e, b);
    }
    FindsOne(k, e, b);
    if l.received == k.received {
      assert To(k.received, b) + [] == To(k.received, b);
    } else {
      var x: Letter :| l.received == k.received + [x] && Arrives(k, e, x);
      assert l.received[|k.received|..] == [x];
      ToAppend(k.received, x, b);
      if x.to == b {
        ArrivesFinds(k, e, x);
      }
    }
  }

  lemma FindsOne(k: Kernel, e: Event, b: nat)
    ensures |Finds(k, e, b)| <= 1
  {
  }

  lemma ArrivesFinds(k: Kernel, e: Event, x: Letter)
    requires Arrives(k, e, x)
    ensures Finds(k, e, x.to) == [x.msg]
  {
  }

  /** Over every run, the logs are what processes sent and found. */
  lemma {:induction false} LogsAreTrue(es: seq<Event>, b: nat)
    requires RunEnabled(Initial(), es)
    ensures var k := Run(Initial(), es); k.sent == Outbox(es) && To(k.received, b) == Inbox(es, b)
  {
    hide Inv, Step, Enabled, Initial, Finds, Posts;
    if es == [] {
      InitialLogs();
    } else {
      var k, e := Run(Initial(), es[..|es| - 1]), es[|es| - 1];
      RunKeepsInv(es[..|es| - 1]);
      LogsAreTrue(es[..|es| - 1], b);
      StepPosts(k, e);
      StepFinds(k, e, b);
    }
  }

  lemma InitialLogs()
    ensures Initial().sent == [] && Initial().received == []
  {
  }

  /** What has been received from `a` are the messages from `a` among all that has been received. */
  lemma {:induction false} BetweenIsFrom(log: seq<Letter>, a: nat, b: nat)
    requires forall l :: l in log && l.to == b ==> l.msg.source == l.from
    ensures Between(log, a, b) == From(To(log, b), a)
  {
    if log == [] {
    } else {
      var x, init := log[|log| - 1], log[..|log| - 1];
      assert x in log && forall l :: l in init ==> l in log;
      BetweenIsFrom(init, a, b);
      var ms := To(init, b);
      assert (ms + [x.msg])[..|ms|] == ms;
      assert ms + [] == ms;
    }
  }

  lemma {:induction false} InBetween(log: seq<Letter>, x: Letter)
    requires x in log
    ensures x.msg in Between(log, x.from, x.to)
  {
    if log[|log| - 1] == x {
    } else {
      InBetween(log[..|log| - 1], x);
    }
  }

  /**
   * Exactly-once delivery, over every run: the messages from `a` that `b` finds in its record are, in order and
   * unaltered, the messages that `a` has asked to be sent to `b`, but for at most one that waits; each bears the
   * name of its sender.
   */
  lemma Delivery(es: seq<Event>, a: nat, b: nat)
    requires RunEnabled(Initial(), es)
    ensures From(Inbox(es, b), a) <= Between(Outbox(es), a, b)
    ensures |Between(Outbox(es), a, b)| <= |From(Inbox(es, b), a)| + 1
    ensures forall m :: m in Between(Outbox(es), a, b) ==> m.source == a
  {
    var k := Run(Initial(), es);
    LogsMatch(es, a, b);
    LogsAreTrue(es, b);
    forall l | l in k.received && l.to == b
      ensures l.msg.source == l.from
    {
      LogsMatch(es, l.from, b);
      InBetween(k.received, l);
    }
    BetweenIsFrom(k.received, a, b);
  }
}
