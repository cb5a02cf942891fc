/** First come, first served: how long a ready process waits for its turn. */
module ProcSched {
  import opened Proc
  import opened ProcInv
  import opened ProcIpc
  import opened ProcSteps
  import opened ProcLife
  import opened ProcExit
  import opened ProcRun

  /** How many processes are ahead of `i` on a list. */
  function Ahead(s: seq<Slot>, i: Slot): nat
    requires i in s
  {
    if s[0] == i then 0 else 1 + Ahead(s[1..], i)
  }

  lemma {:induction false} AheadAppend(s: seq<Slot>, x: Slot, i: Slot)
    requires i in s
    ensures Ahead(s + [x], i) == Ahead(s, i)
  {
    if s[0] == i {
    } else {
      AheadAppend(s[1..], x, i);
      assert (s + [x])[1..] == s[1..] + [x];
    }
  }

  lemma {:induction false} AheadWithout(s: seq<Slot>, x: Slot, i: Slot)
    requires i in s && i != x
    ensures i in Without(s, x) && Ahead(Without(s, x), i) <= Ahead(s, i)
  {
    if s[0] == x {
    } else if s[0] != i {
      AheadWithout(s[1..], x, i);
      assert Without(s, x)[1..] == Without(s[1..], x);
    }
  }

  /** `i` has kept its place on the ready list, or come forward. */
  predicate Stays(k: Kernel, l: Kernel, i: Slot)
    requires i in k.ready
  {
    i in l.ready && Ahead(l.ready, i) <= Ahead(k.ready, i)
  }

  /** `i` runs, or has come forward by at least `n` places. */
  predicate Advances(k: Kernel, l: Kernel, i: Slot, n: nat)
    requires i in k.ready
  {
    l.cur == i || (i in l.ready && Ahead(l.ready, i) + n <= Ahead(k.ready, i))
  }

  lemma ScheduleAdvances(k: Kernel, i: Slot)
    requires i in k.ready
    ensures Advances(k, Schedule(k), i, 1)
  {
    AheadAppend(k.ready, k.cur, i);
    var r := if k.procs[k.cur].status == RUNNING then k.ready + [k.cur] else k.ready;
    if r[0] != i {
      InTail(r, i);
    }
  }

  lemma InTail(r: seq<Slot>, i: Slot)
    requires i in r && r[0] != i
    ensures i in r[1..] && Ahead(r, i) == 1 + Ahead(r[1..], i)
  {
    var q :| 0 <= q < |r| && r[q] == i;
    assert r[1..][q - 1] == i;
  }

  lemma UnblockStays(k: Kernel, j: Slot, reason: Reason, i: Slot)
    requires i in k.ready
    ensures Stays(k, Unblock(k, j, reason), i) && Unblock(k, j, reason).cur == k.cur
  {
    AheadAppend(k.ready, j, i);
  }

  lemma BlockAdvances(k: Kernel, reason: Reason, i: Slot)
    requires i in k.ready && k.procs[k.cur].status == RUNNING
    ensures Advances(k, Block(k, k.cur, reason), i, 1)
  {
    ScheduleAdvances(SetStatus(k, k.cur, With(k.procs[k.cur].status, reason, true)), i);
  }

  /** One place, if somebody else has become current. */
  function Gain(k: Kernel, l: Kernel): nat {
    if l.cur != k.cur then 1 else 0
  }

  lemma SendAdvances(k: Kernel, dest: nat, msg: Message, i: Slot)
    requires i in k.ready && k.procs[k.cur].status == RUNNING
    ensures Advances(k, Send(k, dest, msg), i, Gain(k, Send(k, dest, msg)))
  {
    hide Unblock, Block;
    var s, r := k.cur, Pid2Proc(k, dest);
    if r != -1 {
      var m := msg.(source := k.procs[s].pid);
      var k1 := Put(k, s, k.procs[s].(msg := m)).(sent := k.sent + [Letter(k.procs[s].pid, dest, m)]);
      if Accepts(k1.procs[r], k.procs[s].pid) {
        UnblockStays(Put(k1, r, k1.procs[r].(msg := m)), r, Receiving, i);
      } else {
        BlockAdvances(k1, Sending, i);
      }
    }
  }

  lemma IntrStays(k: Kernel, dest: nat, i: Slot)
    requires i in k.ready
    ensures Stays(k, IntrSend(k, dest), i) && IntrSend(k, dest).cur == k.cur
  {
    hide Unblock;
    var r := Pid2Proc(k, dest);
    if r != -1 {
      UnblockStays(Put(k, r, k.procs[r].(hasIntrMsg := false,
                   msg := k.procs[r].msg.(source := INTERRUPT, kind := HARD_INT))), r, Receiving, i);
    }
  }

  lemma IntrAdvances(k: Kernel, dest: nat, i: Slot)
    requires i in k.ready
    ensures Advances(k, IntrSend(k, dest), i, 0) && Gain(k, IntrSend(k, dest)) == 0
  {
    IntrStays(k, dest, i);
  }

  lemma {:induction false} IntrAllStays(k: Kernel, dests: seq<nat>, i: Slot)
    requires i in k.ready
    ensures Stays(k, IntrSendAll(k, dests), i) && IntrSendAll(k, dests).cur == k.cur
  {
    hide IntrSend;
    if dests == [] {
    } else {
      IntrAllStays(k, dests[..|dests| - 1], i);
      IntrStays(IntrSendAll(k, dests[..|dests| - 1]), dests[|dests| - 1], i);
    }
  }

  lemma ReceiveAdvances(k: Kernel, src: nat, buf: Message, window: seq<nat>, i: Slot)
    requires i in k.ready && k.procs[k.cur].status == RUNNING
    ensures Advances(k, Receive(k, src, buf, window), i, Gain(k, Receive(k, src, buf, window)))
  {
    hide Unblock, Block, IntrSendAll;
    var r := k.cur;
    var k1 := Put(k, r, k.procs[r].(msg := buf));
    var s := PickSender(k1, r, src);
    if s != -1 {
      UnblockStays(Put(k1, r, k1.procs[r].(senders := Without<Slot>(k1.procs[r].senders, s), msg := k1.procs[s].msg)), s, Sending, i);
    } else {
      var k2 := IntrSendAll(k1, window);
      IntrAllStays(k1, window, i);
      IntrAllUndisturbed(k1, window);
      BlockAdvances(Put(k2, r, k2.procs[r].(recvfrom := src)), Receiving, i);
    }
  }

  lemma ExecuteAdvances(k: Kernel, parent: nat, hasMemory: bool, i: Slot)
    requires i in k.ready
    ensures Advances(k, Execute(k, parent, hasMemory), i, 0) && Gain(k, Execute(k, parent, hasMemory)) == 0
  {
    if k.slots != [] {
      AheadAppend(k.ready, k.slots[0], i);
    }
  }

  lemma ExitAdvances(k: Kernel, self: nat, status: int, i: Slot)
    requires i in k.ready && Pid2Proc(k, self) != i && Scheduling(k) && k.cur != Pid2Proc(k, self)
    ensures Advances(k, Exit(k, self, status), i, Gain(k, Exit(k, self, status)))
  {
    hide Send, Unblock, Die, Reap, Awaited, Pid2Proc, Scheduling;
    var j := Pid2Proc(k, self);
    if j != -1 {
      var k1 := Die(k, j, status);
      DieShape(k, j, status);
      DieStays(k, j, status, i);
      Runs(k);
      var parent := k1.procs[j].parent;
      var p := Pid2Proc(k1, parent);
      if parent != NO_PROC && p != -1 && Awaited(k1, p, j) {
        AwaitedAdvances(k1, p, j, status, i);
        StaysThenAdvances(k, k1, AfterDeath(k1, j, status), i);
      } else {
        ReclaimRest(k1, j);
      }
    }
  }

  lemma Runs(k: Kernel)
    requires Scheduling(k)
    ensures k.procs[k.cur].status == RUNNING
  {
  }

  lemma DieStays(k: Kernel, j: Slot, status: int, i: Slot)
    requires i in k.ready && i != j
    ensures Stays(k, Die(k, j, status), i)
  {
    AheadWithout(k.ready, j, i);
  }

  lemma StaysThenAdvances(k: Kernel, l: Kernel, m: Kernel, i: Slot)
    requires i in k.ready && Stays(k, l, i) && l.cur == k.cur && i in l.ready && Advances(l, m, i, Gain(l, m))
    ensures Advances(k, m, i, Gain(k, m))
  {
  }

  /** The rest of an exit that the parent waits for. */
  lemma AwaitedAdvances(k: Kernel, p: Slot, j: Slot, status: int, i: Slot)
    requires i in k.ready && k.procs[k.cur].status == RUNNING && Awaited(k, p, j)
    requires k.procs[j].parent != NO_PROC && Pid2Proc(k, k.procs[j].parent) == p
    ensures Advances(k, AfterDeath(k, j, status), i, Gain(k, AfterDeath(k, j, status)))
  {
    hide Send, Unblock, Reap, Pid2Proc;
    assert k.cur != p;
    var k1 := Put(k, p, k.procs[p].(waitFor := k.procs[j].pid));
    var k2 := Unblock(k1, p, Waiting);
    UnblockStays(k1, p, Waiting, i);
    UnblockOther(k1, p, k.cur);
    var k3 := Reap(k2, p, j, status);
    ReapShape(k2, p, j, status);
    ReclaimRest(k2, j);
    SendAdvances(k3, k.procs[j].parent, Reply(status), i);
    StaysThenAdvances(k, k3, AfterDeath(k, j, status), i);
  }

  lemma UnblockOther(k: Kernel, p: Slot, i: Slot)
    requires i != p
    ensures Unblock(k, p, Waiting).procs[i] == k.procs[i]
  {
  }

  lemma WaitAdvances(k: Kernel, child: nat, parent: nat, i: Slot)
    requires i in k.ready && k.procs[k.cur].status == RUNNING
    requires var p := Pid2Proc(k, parent); p == i ==> !WaitSleeps(k, child, p)
    ensures Advances(k, Wait(k, child, parent), i, Gain(k, Wait(k, child, parent)))
  {
    var p := Pid2Proc(k, parent);
    if p != -1 {
      if p != i {
        AheadWithout(k.ready, p, i);
      }
      hide Send;
      SendAdvances(k, parent, Reply(-1), i);
      var c := FoundByWait(k, child, p);
      if c != -1 {
        WaitCollects(k, child, p);
        var value := k.procs[c].exitStatus;
        SendAdvances(Reap(k, p, c, value), parent, Reply(value), i);
      } else {
        WaitOtherwise(k, child, p);
      }
    }
  }

  /** The event takes `i` off the ready list for good or until a child ends: its own exit, or a wait that it sleeps in. */
  predicate Removes(k: Kernel, e: Event, i: Slot) {
    || (e.ExitOf? && Pid2Proc(k, e.self) == i)
    || (e.WaitFor? && Pid2Proc(k, e.parent) == i && WaitSleeps(k, e.child, i))
  }

  /** The event makes the kernel pick the next process: a clock tick, or one that blocks the current process. */
  predicate Picks(k: Kernel, e: Event) {
    e.Tick? || Step(k, e).cur != k.cur
  }

  /** No step moves a ready process back, and each that picks the next process moves it forward or lets it run. */
  lemma StepAdvances(k: Kernel, e: Event, i: Slot)
    requires Inv(k) && Enabled(k, e) && i in k.ready && !Removes(k, e, i)
    ensures Advances(k, Step(k, e), i, if Picks(k, e) then 1 else 0)
  {
    InvParts(k);
    assert e.ExitOf? ==> k.cur != Pid2Proc(k, e.self);
    hide Inv, Core, Scheduling, Registry, Queues, Family, Histories, Reaped, MayExit, MayWait, Advances, WaitSleeps,
      Schedule, Send, Receive, IntrSend, Execute, Exit, Wait;
    match e
    case Tick => ScheduleAdvances(k, i);
    case SendTo(dest, msg) => SendAdvances(k, dest, msg, i);
    case ReceiveFrom(src, buf, window) => ReceiveAdvances(k, src, buf, window, i);
    case Interrupt(dest) => IntrAdvances(k, dest, i);
    case Exec(parent, hasMemory) => ExecuteAdvances(k, parent, hasMemory, i);
    case ExitOf(self, status) => ExitAdvances(k, self, status, i);
    case WaitFor(child, parent) => WaitAdvances(k, child, parent, i);
  }

  /** How many events of a run make the kernel pick the next process. */
  function Turns(k: Kernel, es: seq<Event>): nat {
    if es == [] then 0
    else Turns(k, es[..|es| - 1]) + if Picks(Run(k, es[..|es| - 1]), es[|es| - 1]) then 1 else 0
  }

  /** After `n` events `i` is running, or the last of them removed it. */
  predicate Served(k: Kernel, es: seq<Event>, i: Slot, n: nat) {
    0 < n <= |es| && (Run(k, es[..n]).cur == i || Removes(Run(k, es[..n - 1]), es[n - 1], i))
  }

  lemma {:induction false} WaitsAtMost(k: Kernel, es: seq<Event>, i: Slot)
    requires Inv(k) && RunEnabled(k, es) && i in k.ready
    ensures Inv(Run(k, es))
    ensures (exists n: nat :: Served(k, es, i, n))
      || (var l := Run(k, es); i in l.ready && Ahead(l.ready, i) + Turns(k, es) <= Ahead(k.ready, i))
  {
    hide Inv, Step, Enabled, Removes, Picks;
    if es == [] {
    } else {
      var fs, e := es[..|es| - 1], es[|es| - 1];
      WaitsAtMost(k, fs, i);
      StepKeeps(Run(k, fs), e);
      if n: nat :| Served(k, fs, i, n) {
        assert es[..n] == fs[..n] && es[..n - 1] == fs[..n - 1];
        assert Served(k, es, i, n);
      } else if Removes(Run(k, fs), e, i) {
        assert Served(k, es, i, |es|);
      } else {
        StepAdvances(Run(k, fs), e, i);
        assert es[..|es|] == es;
        if Run(k, es).cur == i {
          assert Served(k, es, i, |es|);
        }
      }
    }
  }

  /**
   * Bounded waiting: a process with `n` others ahead of it on the ready list runs before the kernel has picked the
   * next process `n + 1` times, unless it is removed by its own exit, or by a wait that it sleeps in, first.
   */
  lemma BoundedWaiting(before: seq<Event>, es: seq<Event>, i: Slot)
    requires RunEnabled(Initial(), before) && i in Run(Initial(), before).ready
    requires RunEnabled(Run(Initial(), before), es)
    requires Ahead(Run(Initial(), before).ready, i) < Turns(Run(Initial(), before), es)
    ensures exists n: nat :: Served(Run(Initial(), before), es, i, n)
  {
    hide Inv, Initial;
    RunKeepsInv(before);
    WaitsAtMost(Run(Initial(), before), es, i);
  }
}
