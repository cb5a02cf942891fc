/** Waits and exit statuses over whole runs: which wait every status answers, and how long a wait lasts. */
module ProcWaits {
  import opened Proc
  import opened ProcInv
  import opened ProcExit
  import opened ProcRun
  import opened ProcMail
  import opened ProcInbox
  import opened ProcPids
  import opened ProcAnswer
  import ProcReport

  /** The kernel after the first `j` events of a run. */
  function At(es: seq<Event>, j: nat): Kernel
    requires j <= |es|
  {
    Run(Initial(), es[..j])
  }

  /** Process `pid` sleeps in a wait for `asked`. */
  predicate Dozes(k: Kernel, pid: nat, asked: nat) {
    var p := Pid2Proc(k, pid);
    p != -1 && k.procs[p].status.waiting && k.procs[p].waitFor == asked
  }

  /** The event is a wait for `asked` by process `pid`, which did not sleep, and nothing answers it yet. */
  ghost predicate FallsAsleep(k: Kernel, e: Event, pid: nat, asked: nat) {
    e == WaitFor(asked, pid) && Posts(k, e) == [] && Step(k, e).reaped == k.reaped && forall d: nat :: !Dozes(k, pid, d)
  }

  lemma DozerSleeps(k: Kernel, pid: nat, asked: nat)
    requires Inv(k) && Dozes(k, pid, asked)
    ensures var p := Pid2Proc(k, pid); p != -1 && Sleeps(k, p) && Alive(k, p) && k.procs[p].pid == pid && k.procs[p].waitFor == asked
  {
    Found(k, pid);
    var p: Slot := Pid2Proc(k, pid);
    if !Alive(k, p) {
      DeadSleepNot(k, p);
    }
  }

  lemma SleeperDozes(k: Kernel, p: Slot, asked: nat)
    requires Inv(k) && Live(k, p) && k.procs[p].status.waiting && k.procs[p].waitFor == asked
    ensures Dozes(k, k.procs[p].pid, asked) && Pid2Proc(k, k.procs[p].pid) == p
  {
    LookupFinds(k, k.procs[p].pid);
  }

  lemma AwakeIsAwake(k: Kernel, p: Slot)
    requires Inv(k) && Live(k, p) && !k.procs[p].status.waiting
    ensures forall d: nat :: !Dozes(k, k.procs[p].pid, d)
  {
    LookupFinds(k, k.procs[p].pid);
  }

  // ---------------------------------------------------------------- back to the wait

  /** Whoever sleeps in a wait after an event slept in it before, or the event is this wait. */
  lemma DozedBefore(k: Kernel, e: Event, pid: nat, asked: nat)
    requires Inv(k) && Enabled(k, e) && Inv(Step(k, e)) && Dozes(Step(k, e), pid, asked)
    ensures Dozes(k, pid, asked) || FallsAsleep(k, e, pid, asked)
  {
    hide Inv, Step, Enabled, Dozes, FallsAsleep;
    DozerSleeps(Step(k, e), pid, asked);
    var p: Slot := Pid2Proc(Step(k, e), pid);
    StepSleeps(k, e, p);
    if k.procs[p].status.waiting {
      SleeperDozes(k, p, asked);
    } else {
      WaitBegins(k, asked, p);
    }
  }

  lemma WaitBegins(k: Kernel, asked: nat, p: Slot)
    requires var e := WaitFor(asked, k.procs[p].pid); Inv(k) && Enabled(k, e) && Inv(Step(k, e)) && Dozes(Step(k, e), k.procs[p].pid, asked)
    requires Live(k, p) && !k.procs[p].status.waiting
    requires var l := Step(k, WaitFor(asked, k.procs[p].pid)); Live(l, p) && k.procs[p].pid == l.procs[p].pid
    ensures FallsAsleep(k, WaitFor(asked, k.procs[p].pid), k.procs[p].pid, asked)
  {
    hide Inv, Step, Enabled, Dozes, SameWaits, Posts, Replies, DeadChild;
    var pid := k.procs[p].pid;
    var e := WaitFor(asked, pid);
    AwakeIsAwake(k, p);
    LookupFindsIt(k, p);
    DozesAt(Step(k, e), p, asked);
    var n := WaitAnswers(k, asked, pid);
    if SameWaits(k, Step(k, e), -1) {
      SameSleeper(k, Step(k, e), p, -1);
    }
  }

  lemma LookupFindsIt(k: Kernel, p: Slot)
    requires Inv(k) && Live(k, p)
    ensures Pid2Proc(k, k.procs[p].pid) == p
  {
    LookupFinds(k, k.procs[p].pid);
  }

  lemma DozesAt(k: Kernel, p: Slot, asked: nat)
    requires Inv(k) && Dozes(k, k.procs[p].pid, asked) && Live(k, p)
    ensures k.procs[p].status.waiting
  {
    LookupFinds(k, k.procs[p].pid);
  }

  /** `pid` has slept since event `j` in the wait that this event is. */
  ghost predicate DozesSince(es: seq<Event>, j: nat, pid: nat, asked: nat)
    requires j < |es|
  {
    FallsAsleep(At(es, j), es[j], pid, asked) && forall x: nat :: j < x <= |es| ==> Dozes(At(es, x), pid, asked)
  }

  lemma {:induction false} FindWait(es: seq<Event>, pid: nat, asked: nat) returns (j: nat)
    requires RunEnabled(Initial(), es) && Dozes(Run(Initial(), es), pid, asked)
    ensures j < |es| && DozesSince(es, j, pid, asked)
  {
    hide Inv, Step, Enabled, Initial, Dozes, FallsAsleep;
    j := 0;
    if es == [] {
      NobodyDozes(pid, asked);
    } else {
      var init, e := es[..|es| - 1], es[|es| - 1];
      RunKeepsInv(init);
      RunKeepsInv(es);
      DozedBefore(Run(Initial(), init), e, pid, asked);
      if Dozes(Run(Initial(), init), pid, asked) {
        j := FindWait(init, pid, asked);
        LongerSince(es, j, pid, asked);
      } else {
        j := |init|;
        assert es[..|es|] == es;
      }
    }
  }

  lemma LongerSince(es: seq<Event>, j: nat, pid: nat, asked: nat)
    requires j < |es| - 1 && DozesSince(es[..|es| - 1], j, pid, asked) && Dozes(Run(Initial(), es), pid, asked)
    ensures DozesSince(es, j, pid, asked)
  {
    hide Run, Initial, Dozes, FallsAsleep;
    var init := es[..|es| - 1];
    assert es[..|es|] == es && es[..j] == init[..j];
    forall x: nat | j < x <= |es|
      ensures Dozes(At(es, x), pid, asked)
    {
      if x < |es| {
        assert es[..x] == init[..x];
        assert Dozes(At(init, x), pid, asked);
      }
    }
  }

  lemma NobodyDozes(pid: nat, asked: nat)
    ensures !Dozes(Initial(), pid, asked)
  {
    var p := Pid2Proc(Initial(), pid);
    if p != -1 {
      assert Initial().procs[p] == InitialPcb(p);
    }
  }

  // ---------------------------------------------------------------- every status answers one wait

  /**
   * Event `j` is the wait that status `n`, handed over by event `x`, answers: it is for the child, and found it dead; or
   * the parent slept in it ever since, up to the exit of the child.
   */
  ghost predicate AnswersWait(es: seq<Event>, x: nat, n: Notice, j: nat)
    requires j <= x < |es|
  {
    && es[j].WaitFor? && es[j].parent == n.parent && Asks(es[j].child, n.child)
    && (j < x ==>
          && es[x] == ExitOf(n.child, n.status)
          && FallsAsleep(At(es, j), es[j], n.parent, es[j].child)
          && forall y: nat :: j < y <= x ==> Dozes(At(es, y), n.parent, es[j].child))
  }

  /**
   * Over every run, every exit status that has been handed over was so by one event, which also told the parent, and
   * answered a wait of the parent with it.
   */
  lemma EveryStatusAnswersAWait(es: seq<Event>, n: Notice) returns (x: nat, j: nat)
    requires RunEnabled(Initial(), es) && n in Run(Initial(), es).reaped
    ensures j <= x < |es| && AnswersWait(es, x, n, j)
    ensures Hands(At(es, x), es[x], n) && Replies(At(es, x), es[x], n.parent, n.status)
  {
    hide Inv, Step, Enabled, Initial, Dozes, FallsAsleep, Replies, Hands, Pid2Proc;
    x := HandedAt(es, n);
    ReachedAt(es, x);
    var k := At(es, x);
    var p := Pid2Proc(k, n.parent);
    if k.procs[p].status.waiting {
      DozesFor(k, n.parent);
      PrefixEnabled(es, x);
      j := FindWait(es[..x], n.parent, k.procs[p].waitFor);
      ShorterRun(es, x, n, j);
    } else {
      j := x;
    }
  }

  /** The event that handed a status over. */
  lemma {:induction false} HandedAt(es: seq<Event>, n: Notice) returns (x: nat)
    requires RunEnabled(Initial(), es) && n in Run(Initial(), es).reaped
    ensures x < |es| && Rightly(At(es, x), es[x], n)
  {
    hide Inv, Step, Enabled, Rightly, Initial;
    x := 0;
    if es == [] {
      NothingReaped();
    } else {
      var init := es[..|es| - 1];
      var k, e := Run(Initial(), init), es[|es| - 1];
      if n in k.reaped {
        x := HandedAt(init, n);
        assert init[..x] == es[..x];
      } else {
        RunKeepsInv(init);
        RunKeepsInv(es);
        StepHands(k, e);
        x := |init|;
        OnlyOne(k, e, n);
      }
    }
  }

  lemma OnlyOne(k: Kernel, e: Event, n: Notice)
    requires n !in k.reaped && n in Step(k, e).reaped && (Step(k, e).reaped == k.reaped || exists m :: Rightly(k, e, m))
    ensures Rightly(k, e, n)
  {
    hide Step, Replies, Sleeps, Pid2Proc;
    var m :| Rightly(k, e, m);
  }

  lemma NothingReaped()
    ensures Initial().reaped == []
  {
  }

  lemma DozesFor(k: Kernel, pid: nat)
    requires Pid2Proc(k, pid) != -1 && k.procs[Pid2Proc(k, pid)].status.waiting
    ensures Dozes(k, pid, k.procs[Pid2Proc(k, pid)].waitFor)
  {
  }

  lemma ShorterRun(es: seq<Event>, x: nat, n: Notice, j: nat)
    requires j < x < |es| && es[x] == ExitOf(n.child, n.status)
    requires exists asked: nat :: DozesSince(es[..x], j, n.parent, asked) && Asks(asked, n.child)
    ensures AnswersWait(es, x, n, j)
  {
    hide Run, Initial, Dozes;
    var asked: nat :| DozesSince(es[..x], j, n.parent, asked) && Asks(asked, n.child);
    assert es[..x][..j] == es[..j];
    forall y: nat | j < y <= x
      ensures Dozes(At(es, y), n.parent, asked)
    {
      assert es[..x][..y] == es[..y];
      assert Dozes(At(es[..x], y), n.parent, asked);
    }
  }

  lemma {:induction false} ReachedAt(es: seq<Event>, x: nat)
    requires RunEnabled(Initial(), es) && x < |es|
    ensures Inv(At(es, x)) && Enabled(At(es, x), es[x]) && Inv(Step(At(es, x), es[x]))
    ensures At(es, x + 1) == Step(At(es, x), es[x])
  {
    hide Inv, Step, Enabled, Initial;
    PrefixEnabled(es, x + 1);
    RunKeepsInv(es[..x + 1]);
    assert es[..x + 1][..x] == es[..x];
    RunKeepsInv(es[..x]);
  }

  /** A child of `parent` that exits, and for which, or for any, the parent waits. */
  predicate ExitsFor(k: Kernel, e: Event, parent: nat, asked: nat) {
    e.ExitOf? && var i := Pid2Proc(k, e.self); i != -1 && k.procs[i].parent == parent && Asks(asked, e.self)
  }

  /**
   * Between a wait and the status that answers it there is no other exit that it was for, and no status handed to the
   * same parent; each other wait of that parent is refused.
   */
  lemma NothingBetween(es: seq<Event>, x: nat, n: Notice, j: nat, y: nat)
    requires RunEnabled(Initial(), es) && j < y < x < |es| && AnswersWait(es, x, n, j)
    ensures !ExitsFor(At(es, y), es[y], n.parent, es[j].child)
    ensures forall m :: Hands(At(es, y), es[y], m) ==> m.parent != n.parent
    ensures es[y].WaitFor? && es[y].parent == n.parent ==> Replies(At(es, y), es[y], n.parent, -1)
  {
    hide Run, Inv, Step, Enabled, Initial, Dozes, FallsAsleep, Replies, Hands, Pid2Proc;
    ReachedAt(es, y);
    StaysAsleep(At(es, y), es[y], n.parent, es[j].child);
  }

  /** A step after which a process still sleeps in its wait has not answered it. */
  lemma StaysAsleep(k: Kernel, e: Event, pid: nat, asked: nat)
    requires Inv(k) && Enabled(k, e) && Inv(Step(k, e)) && Dozes(k, pid, asked) && Dozes(Step(k, e), pid, asked)
    ensures !ExitsFor(k, e, pid, asked)
    ensures forall m :: Hands(k, e, m) ==> m.parent != pid
    ensures e.WaitFor? && e.parent == pid ==> Replies(k, e, pid, -1)
  {
    hide Inv, Step, Enabled, Dozes, FallsAsleep, Replies, Hands, Pid2Proc, AskedFor, ExitsFor, Sleeps;
    forall m | Hands(k, e, m)
      ensures m.parent != pid
    {
      HandedAwake(k, e, m, pid, asked);
    }
    if ExitsFor(k, e, pid, asked) {
      ExitHandsTo(k, e, pid, asked);
    }
    if e.WaitFor? && e.parent == pid {
      DozerSleeps(k, pid, asked);
      var n := WaitAnswers(k, e.child, pid);
    }
  }

  /** Whom a status is handed to does not sleep any more. */
  lemma HandedAwake(k: Kernel, e: Event, m: Notice, pid: nat, asked: nat)
    requires Inv(k) && Enabled(k, e) && Inv(Step(k, e)) && Hands(k, e, m) && Dozes(Step(k, e), pid, asked)
    ensures m.parent != pid
  {
    hide Inv, Step, Enabled, Dozes, Replies, Pid2Proc;
    StepHands(k, e);
    var n :| Rightly(k, e, n);
    assert (k.reaped + [n])[|k.reaped|] == (k.reaped + [m])[|k.reaped|];
    if m.parent == pid {
      DozerSleeps(Step(k, e), pid, asked);
      StepOld(k, e);
      StepSleeps(k, e, Pid2Proc(Step(k, e), pid));
      LookupFindsIt(k, Pid2Proc(Step(k, e), pid));
    }
  }

  /** A child exits for which its parent waits: its status is handed over. */
  lemma ExitHandsTo(k: Kernel, e: Event, pid: nat, asked: nat)
    requires Inv(k) && Enabled(k, e) && Inv(Step(k, e)) && Dozes(k, pid, asked) && ExitsFor(k, e, pid, asked)
    ensures Rightly(k, e, Notice(e.self, pid, e.status))
  {
    IsAskedFor(k, e, pid, asked);
    hide Inv, Exit, Rightly, Pid2Proc, AskedFor, MayExit;
    ExitHands(k, e.self, e.status);
  }

  lemma IsAskedFor(k: Kernel, e: Event, pid: nat, asked: nat)
    requires Inv(k) && Dozes(k, pid, asked) && ExitsFor(k, e, pid, asked)
    ensures AskedFor(k, Pid2Proc(k, e.self))
  {
    Found(k, pid);
    Found(k, e.self);
    assert k.nextPid <= NO_PROC;
  }

  /** A wait is answered with one status, and a status answers one wait. */
  lemma OneStatusOneWait(es: seq<Event>, x: nat, n: Notice, j: nat, y: nat, m: Notice, i: nat)
    requires RunEnabled(Initial(), es) && j <= x < |es| && i <= y < |es| && n.parent == m.parent
    requires Hands(At(es, x), es[x], n) && AnswersWait(es, x, n, j) && Hands(At(es, y), es[y], m) && AnswersWait(es, y, m, i)
    ensures x == y <==> i == j
  {
    hide Run, Inv, Step, Enabled, Initial, Dozes, Hands, FallsAsleep, Replies;
    if x < y {
      NotYet(es, y, m, i, x, n);
    } else if y < x {
      NotYet(es, x, n, j, y, m);
    } else {
      WaitsOnce(es, x, n, j, m, i);
      WaitsOnce(es, x, m, i, n, j);
    }
  }

  lemma NotYet(es: seq<Event>, x: nat, n: Notice, j: nat, y: nat, m: Notice)
    requires RunEnabled(Initial(), es) && j <= x < |es| && y < x && n.parent == m.parent
    requires AnswersWait(es, x, n, j) && Hands(At(es, y), es[y], m)
    ensures y < j
  {
    hide Run, Inv, Step, Enabled, Initial, Dozes, Replies;
    if y == j {
      LongerLog(At(es, j), es[j], m);
    } else if j < y {
      NothingBetween(es, x, n, j, y);
    }
  }

  lemma LongerLog(k: Kernel, e: Event, m: Notice)
    requires Hands(k, e, m)
    ensures Step(k, e).reaped != k.reaped
  {
    hide Step;
    assert |k.reaped + [m]| != |k.reaped|;
  }

  lemma WaitsOnce(es: seq<Event>, x: nat, n: Notice, j: nat, m: Notice, i: nat)
    requires i <= x < |es| && j <= x && n.parent == m.parent && AnswersWait(es, x, n, j) && AnswersWait(es, x, m, i)
    ensures j <= i
  {
    hide Run, Step, Initial, Dozes, Posts;
    if i < j < x {
      Dozing(es, x, m, i, j);
    }
  }

  lemma Dozing(es: seq<Event>, x: nat, m: Notice, i: nat, y: nat)
    requires i < y <= x < |es| && AnswersWait(es, x, m, i)
    ensures Dozes(At(es, y), m.parent, es[i].child)
  {
  }

  // ---------------------------------------------------------------- how long a wait lasts

  /** Who sleeps in a wait goes on sleeping, but for a status that is handed to it, or its own exit. */
  lemma StillDozes(k: Kernel, e: Event, pid: nat, asked: nat)
    requires Inv(k) && Enabled(k, e) && Inv(Step(k, e)) && Dozes(k, pid, asked)
    ensures Dozes(Step(k, e), pid, asked)
            || (e.ExitOf? && (e.self == pid || (ExitsFor(k, e, pid, asked) && Hands(k, e, Notice(e.self, pid, e.status)))))
  {
    hide Inv, Schedule, Send, Receive, IntrSend, Execute, Exit, Wait, MayExit, MayWait, SameWaits, Pid2Proc, Dozes, ExitsFor, Hands;
    DozerSleeps(k, pid, asked);
    var p: Slot := Pid2Proc(k, pid);
    match e
    case Tick => TickWaits(k); ScheduleRespects(k); KeepsDozing(k, Step(k, e), p, -1);
    case SendTo(dest, msg) => SendWaits(k, dest, msg); SendRespects(k, dest, msg); KeepsDozing(k, Step(k, e), p, -1);
    case ReceiveFrom(src, buf, window) =>
      ReceiveWaits(k, src, buf, window); ReceiveRespects(k, src, buf, window); KeepsDozing(k, Step(k, e), p, -1);
    case Interrupt(dest) => IntrWaits(k, dest); IntrSendRespects(k, dest); KeepsDozing(k, Step(k, e), p, -1);
    case Exec(parent, hasMemory) => ExecDozes(k, parent, hasMemory, p);
    case ExitOf(self, status) => ExitDozes(k, self, status, p);
    case WaitFor(child, parent) => WaitDozes(k, child, parent, p);
  }

  lemma KeepsDozing(k: Kernel, l: Kernel, p: Slot, x: int)
    requires Inv(k) && Inv(l) && Sleeps(k, p) && SameWaits(k, l, x) && p != x && RespectsMail(k, l) && Alive(l, p)
    ensures Dozes(l, k.procs[p].pid, k.procs[p].waitFor)
  {
    SameSleeper(k, l, p, x);
    hide Inv, SameWaits;
    SleeperDozes(l, p, k.procs[p].waitFor);
  }

  lemma ExecDozes(k: Kernel, parent: nat, hasMemory: bool, p: Slot)
    requires Inv(k) && Enabled(k, Exec(parent, hasMemory)) && Inv(Execute(k, parent, hasMemory)) && Sleeps(k, p) && Alive(k, p)
    ensures Dozes(Execute(k, parent, hasMemory), k.procs[p].pid, k.procs[p].waitFor)
  {
    hide Inv, Execute, SameWaits, RespectsMail, Dozes;
    ExecuteWaits(k, parent, hasMemory);
    if k.slots != [] && hasMemory {
      ExecuteRespects(k, parent, hasMemory);
      ExecAlive(k, parent, p);
      KeepsDozing(k, Execute(k, parent, hasMemory), p, k.slots[0]);
    } else {
      SleeperDozes(k, p, k.procs[p].waitFor);
    }
  }

  lemma ExecAlive(k: Kernel, parent: nat, p: Slot)
    requires k.slots != [] && Alive(k, p)
    ensures Alive(Execute(k, parent, true), p)
  {
  }

  lemma ExitDozes(k: Kernel, self: nat, status: int, p: Slot)
    requires Inv(k) && ExitCalled(k, self) && MayExit(k, Pid2Proc(k, self)) && Inv(Exit(k, self, status)) && Sleeps(k, p) && Alive(k, p)
    ensures var pid, e := k.procs[p].pid, ExitOf(self, status);
      Dozes(Exit(k, self, status), pid, k.procs[p].waitFor) || self == pid
      || (ExitsFor(k, e, pid, k.procs[p].waitFor) && Hands(k, e, Notice(self, pid, status)))
  {
    hide Inv, Exit, MayExit, SameWaits, WaitsBut, Dozes;
    Found(k, self);
    LookupFindsIt(k, p);
    var i, l := Pid2Proc(k, self), Exit(k, self, status);
    ExitRespects(k, self, status);
    if AskedFor(k, i) {
      ExitAsked(k, self, status);
      Found(k, k.procs[i].parent);
      if p != i && p != Pid2Proc(k, k.procs[i].parent) {
        ButSleeper(k, l, p, i, Pid2Proc(k, k.procs[i].parent));
        DozesStill(k, l, p);
      }
    } else {
      ExitUnasked(k, self, status);
      if p != i {
        KeepsDozing(k, l, p, i);
      }
    }
  }

  lemma DozesStill(k: Kernel, l: Kernel, p: Slot)
    requires Inv(l) && Live(k, p) && Alive(l, p) && RespectsMail(k, l) && l.procs[p].status.waiting
    ensures Dozes(l, k.procs[p].pid, l.procs[p].waitFor)
  {
    hide Inv, Dozes;
    SleeperDozes(l, p, l.procs[p].waitFor);
  }

  lemma WaitDozes(k: Kernel, child: nat, parent: nat, p: Slot)
    requires Inv(k) && Enabled(k, WaitFor(child, parent)) && Inv(Wait(k, child, parent)) && Sleeps(k, p) && Alive(k, p)
    ensures Dozes(Wait(k, child, parent), k.procs[p].pid, k.procs[p].waitFor)
  {
    hide Inv, Wait, MayWait, SameWaits, RespectsMail, Replies, DeadChild, Dozes, Pid2Proc;
    var n := WaitAnswers(k, child, parent);
    WaitRespects(k, child, parent);
    var l := Wait(k, child, parent);
    if SameWaits(k, l, -1) {
      KeepsDozing(k, l, p, -1);
    } else {
      KeepsDozing(k, l, p, Pid2Proc(k, parent));
    }
  }

  /**
   * No wait is forgotten: a process that fell asleep in a wait and has not exited sleeps in it still, unless a child it
   * waits for has exited and its status has been handed over.
   */
  lemma {:induction false} WaitLasts(es: seq<Event>, j: nat, pid: nat, asked: nat)
    requires RunEnabled(Initial(), es) && j < |es| && Dozes(At(es, j + 1), pid, asked)
    requires forall y :: j < y < |es| ==> es[y].ExitOf? ==> es[y].self != pid && !ExitsFor(At(es, y), es[y], pid, asked)
    ensures Dozes(Run(Initial(), es), pid, asked)
  {
    hide Inv, Step, Enabled, Initial, Dozes, ExitsFor, Hands;
    if j + 1 == |es| {
      assert es[..|es|] == es;
    } else {
      var init, x := es[..|es| - 1], |es| - 1;
      forall y | 0 <= y <= x
        ensures init[..y] == es[..y]
      {
      }
      forall y: nat | j < y < x && es[y].ExitOf?
        ensures init[y] == es[y] && !ExitsFor(At(init, y), init[y], pid, asked)
      {
        assert init[..y] == es[..y] && !ExitsFor(At(es, y), es[y], pid, asked);
      }
      WaitLasts(init, j, pid, asked);
      ReachedAt(es, x);
      StillDozes(At(es, x), es[x], pid, asked);
    }
  }

  // ---------------------------------------------------------------- letters

  /**
   * Over every run: each exit status that has been handed over is in a letter that the system task sent to the parent,
   * as the first parameter.
   */
  lemma StatusIsSent(es: seq<Event>, n: Notice)
    requires RunEnabled(Initial(), es) && n in Run(Initial(), es).reaped
    ensures exists x :: x in Outbox(es) && x.from == TASK_SYS && x.to == n.parent && x.msg.source == TASK_SYS && x.msg.param1 == n.status
  {
    hide Run, RunEnabled, Initial, Inv, Outbox;
    ProcReport.ExitStatusArrives(es);
    LogsAreTrue(es, n.parent);
    var x := Letter(TASK_SYS, n.parent, Message(TASK_SYS, 0, n.status, 0, 0, 0));
    assert x in Outbox(es);
  }
}
