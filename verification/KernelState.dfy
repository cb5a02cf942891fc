/** The kernel as it is written: a process table and lists that are updated in place. */
module KernelState {
  import opened Proc
  import opened ProcInv
  import opened ProcIpc
  import opened ProcSteps
  import opened ProcLife
  import opened ProcExit
  import opened ProcRun

  class Machine {
    const procs: array<Pcb>
    const hash: array<seq<Slot>>
    var ready: seq<Slot>
    var slots: seq<Slot>
    var cur: Slot
    var nextPid: nat
    var halted: bool
    ghost var sent: seq<Letter>
    ghost var received: seq<Letter>
    ghost var reaped: seq<Notice>

    ghost predicate Valid()
      reads this
    {
      procs.Length == 128 && hash.Length == 128
    }

    /** The abstract state. */
    ghost function State(): Kernel
      requires Valid()
      reads this, procs, hash
    {
      Kernel(procs[..], ready, slots, hash[..], cur, nextPid, halted, sent, received, reaped)
    }

    /** `process_init` */
    constructor ()
      ensures Valid() && fresh(procs) && fresh(hash)
      ensures State() == Initial() && Inv(State())
    {
      procs := new Pcb[128](i => FREE_PCB);
      hash := new seq<Slot>[128](i => []);
      ready, slots, cur, nextPid, halted := [], [], 0, TASK_IDLE + 1, false;
      sent, received, reaped := [], [], [];
      new;
      var i := 0;
      while i < MAX_PROC_CNT
        modifies this`slots
        invariant 0 <= i <= 128 && slots == UpFrom(0, i)
      {
        slots := slots + [i];
        i := i + 1;
      }
      i := 0;
      while i <= TASK_IDLE
        modifies this`slots, this`ready, procs, hash
        invariant 0 <= i <= 6 && Started(i)
      {
        StartTask(i);
        i := i + 1;
      }
      StartFirst();
      InitialInv();
    }

    /** The first `n` tasks have been set up, and are ready. */
    ghost predicate Started(n: nat)
      requires n <= 6
      reads this, procs, hash
    {
      && Valid()
      && slots == UpFrom(n, 128) && ready == UpFrom(0, n)
      && (forall j :: 0 <= j < 128 ==> procs[j] == if j < n then FREE_PCB.(pid := j, status := READY) else FREE_PCB)
      && (forall j :: 0 <= j < 128 ==> hash[j] == if j < n then [j] else [])
    }

    /** Sets up task `i`. */
    method StartTask(i: nat)
      requires i <= TASK_IDLE && Started(i)
      modifies this`slots, this`ready, procs, hash
      ensures Started(i + 1)
    {
      var proc := slots[0];
      slots := slots[1..];
      hash[i] := hash[i] + [proc];
      procs[proc] := procs[proc].(pid := i, status := READY, senders := [], children := [], hasIntrMsg := false);
      ready := ready + [proc];
    }

    /** The end of `process_init`: the system task is the one to run first. */
    method StartFirst()
      requires Started(6) && nextPid == 6 && !halted && sent == [] && received == [] && reaped == []
      modifies this`cur, this`ready, procs
      ensures Valid() && State() == Initial()
    {
      assert hash[0] == [0];
      cur := Pid2ProcAt(0);
      assert ready == [0] + UpFrom(1, 6);
      ready := Without(ready, cur);
      procs[cur] := procs[cur].(status := RUNNING);
      assert procs[..] == Initial().procs;
      assert hash[..] == Initial().hash;
    }

    /** `pid2proc`: the slot of the process with the given pid, or -1. */
    method Pid2ProcAt(pid: nat) returns (i: int)
      requires Valid()
      ensures i == Pid2Proc(State(), pid)
    {
      var l := hash[pid % MAX_PROC_CNT];
      var e := 0;
      while e < |l|
        invariant 0 <= e <= |l|
        invariant Pid2Proc(State(), pid) == FindPid(State().procs, l[e..], pid)
      {
        if procs[l[e]].pid == pid {
          return l[e];
        }
        e := e + 1;
      }
      return -1;
    }

    /** Writes one process control block. */
    method Write(i: Slot, p: Pcb)
      requires Valid()
      modifies procs
      ensures State() == Put(old(State()), i, p)
    {
      procs[i] := p;
    }

    method MarkReady(i: Slot)
      requires Valid()
      modifies this`ready, procs
      ensures State() == MakeReady(old(State()), i)
    {
      Write(i, procs[i].(status := READY));
      ready := ready + [i];
    }

    /** `schedule`; panics, which stops the machine, when nobody is ready. */
    method Reschedule()
      requires Valid() && AllReady()
      modifies this`ready, this`cur, this`halted, procs
      ensures State() == Schedule(old(State()))
    {
      if procs[cur].status == RUNNING {
        MarkReady(cur);
      }
      if ready == [] {
        halted := true;
        return;
      }
      var proc := ready[0];
      ready := ready[1..];
      assert procs[proc].status == READY;
      cur := proc;
      Write(cur, procs[cur].(status := RUNNING));
    }

    /** Everybody on the ready list is ready. */
    ghost predicate AllReady()
      requires Valid()
      reads this, procs
    {
      forall j :: j in ready ==> procs[j].status == READY
    }

    /** `unblock` */
    method Release(i: Slot, reason: Reason)
      requires Valid()
      modifies this`ready, procs
      ensures State() == Unblock(old(State()), i, reason)
      ensures forall j: Slot :: procs[j].pid == old(procs[j].pid)
      ensures old(AllReady()) ==> AllReady()
    {
      Write(i, procs[i].(status := With(procs[i].status, reason, false)));
      if !procs[i].status.Blocked() {
        ghost var k := State();
        MarkReady(i);
        assert State().procs == old(State()).procs[i := State().procs[i]];
      }
    }

    /** `block` */
    method Stop(i: Slot, reason: Reason)
      requires Valid() && AllReady()
      modifies this`ready, this`cur, this`halted, procs
      ensures State() == Block(old(State()), i, reason)
    {
      if procs[i].status == READY {
        ready := Without(ready, i);
      } else if procs[i].status == RUNNING {
        Write(i, procs[i].(status := With(procs[i].status, reason, true)));
        Reschedule();
      } else {
        Write(i, procs[i].(status := With(procs[i].status, reason, true)));
      }
    }

    ghost predicate Good()
      reads this, procs, hash
    {
      Valid() && Inv(State())
    }

    lemma ReadyAreReady()
      requires Good()
      ensures AllReady()
      ensures procs[cur].status == RUNNING
    {
      assert State().procs[State().cur].status == RUNNING;
      forall i | i in ready
        ensures procs[i].status == READY
      {
        assert i in State().ready && State().procs[i].status == READY;
      }
    }

    /** The clock interrupt, when it does not interrupt the kernel. */
    method ClockTick()
      requires Good()
      modifies this, procs, hash
      ensures Good() && State() == Schedule(old(State()))
      ensures !halted
    {
      ReadyAreReady();
      TickKeeps(State());
      Reschedule();
    }

    /** Copies the message record of `sender` to that of `receiver`. */
    method CopyMessage(receiver: Slot, sender: Slot)
      requires Valid()
      modifies procs
      ensures State() == Put(old(State()), receiver, old(State()).procs[receiver].(msg := old(State()).procs[sender].msg))
    {
      procs[receiver] := procs[receiver].(msg := procs[sender].msg);
    }

    /** `msg_send`, by the current process; `eax` is what it returns to the process. */
    method MsgSend(dest: nat, msg: Message) returns (eax: int)
      requires Good() && cur != TASK_IDLE && dest != procs[cur].pid
      modifies this, procs, hash
      ensures Good() && State() == Send(old(State()), dest, msg)
      ensures eax == if Pid2Proc(old(State()), dest) == -1 then -1 else 0
    {
      ReadyAreReady();
      SendKeeps(State(), dest, msg);
      eax := SendMessage(dest, msg);
    }

    method SendMessage(dest: nat, msg: Message) returns (eax: int)
      requires Valid() && dest != procs[cur].pid && AllReady()
      modifies this`ready, this`cur, this`halted, this`sent, this`received, procs
      ensures State() == Send(old(State()), dest, msg)
      ensures eax == if Pid2Proc(old(State()), dest) == -1 then -1 else 0
    {
      hide Unblock, Block, FindPid, With;
      ghost var k := State();
      var receiver := Pid2ProcAt(dest);
      if receiver == -1 {
        return -1;
      }
      var sender := cur;
      assert receiver != sender;
      Write(sender, procs[sender].(msg := msg.(source := procs[sender].pid)));
      sent := sent + [Letter(procs[sender].pid, dest, procs[sender].msg)];
      if procs[receiver].status.receiving && (procs[receiver].recvfrom == ANY || procs[receiver].recvfrom == procs[sender].pid) {
        CopyMessage(receiver, sender);
        Release(receiver, Receiving);
        received := received + [Letter(k.procs[sender].pid, dest, msg.(source := k.procs[sender].pid))];
      } else {
        Stop(sender, Sending);
        Write(receiver, procs[receiver].(senders := procs[receiver].senders + [sender]));
      }
      eax := 0;
    }

    /** `intr_send`: an interrupt for `dest`. */
    method Interrupt(dest: nat)
      requires Valid() && AllReady()
      modifies this`ready, procs
      ensures State() == IntrSend(old(State()), dest)
      ensures AllReady()
      ensures old(Good()) ==> Good()
    {
      hide Unblock, FindPid, Inv, IntrSend;
      ghost var k := State();
      if Good() {
        IntrSendKeeps(k, dest);
      }
      var receiver := Pid2ProcAt(dest);
      IntrSendIs(k, dest, receiver);
      if receiver != -1 {
        Raise(receiver);
      }
    }

    /** An interrupt for the process `r`. */
    method Raise(r: Slot)
      requires Valid() && AllReady()
      modifies this`ready, procs
      ensures State() == Raised(old(State()), r)
      ensures AllReady()
    {
      hide Unblock;
      var p := procs[r];
      if p.status.receiving && (p.recvfrom == INTERRUPT || p.recvfrom == ANY) {
        Write(r, p.(hasIntrMsg := false, msg := p.msg.(source := INTERRUPT, kind := HARD_INT)));
        Release(r, Receiving);
      } else {
        Write(r, p.(hasIntrMsg := true));
      }
    }

    /** The interrupts that arrive while the kernel is busy with a receive. */
    method Interrupts(dests: seq<nat>)
      requires Valid() && AllReady()
      modifies this`ready, procs
      ensures State() == IntrSendAll(old(State()), dests)
      ensures AllReady()
    {
      hide IntrSend, Inv;
      var i := 0;
      while i < |dests|
        invariant 0 <= i <= |dests|
        invariant AllReady()
        invariant State() == IntrSendAll(old(State()), dests[..i])
      {
        Interrupt(dests[i]);
        assert dests[..i + 1][..i] == dests[..i];
        i := i + 1;
      }
      assert dests[..i] == dests;
    }

    /** The sender in the queue of `r` that a receive from `src` picks, or -1. */
    method ChooseSender(r: Slot, src: nat) returns (s: int)
      requires Valid() && forall j :: j in procs[r].senders ==> procs[j].status.sending
      ensures s == PickSender(State(), r, src)
    {
      s := -1;
      if procs[r].senders != [] && src != INTERRUPT {
        if src == ANY {
          s := procs[r].senders[0];
        } else {
          var l := procs[r].senders;
          var e := 0;
          while e < |l|
            invariant 0 <= e <= |l| && s == -1
            invariant FindPid(State().procs, l, src) == FindPid(State().procs, l[e..], src)
          {
            var p := l[e];
            assert procs[p].status.sending;
            if procs[p].pid == src {
              s := p;
              break;
            }
            e := e + 1;
          }
        }
      }
    }

    /** The current process takes the interrupt that is pending for it. */
    method AcceptInterrupt()
      requires Valid()
      modifies procs
      ensures State() == TakeIntr(old(State()), cur)
    {
      var p := procs[cur];
      Write(cur, p.(hasIntrMsg := false, msg := p.msg.(source := INTERRUPT, kind := HARD_INT)));
    }

    /** The current process takes the message of `s` out of its queue. */
    method AcceptMessage(s: Slot)
      requires Valid() && s != cur
      modifies this`ready, this`received, procs
      ensures State() == PickUp(old(State()), s)
    {
      hide Unblock;
      var r := cur;
      ghost var k := State();
      Write(r, procs[r].(senders := Without(procs[r].senders, s)));
      CopyMessage(r, s);
      assert State().procs == k.procs[r := k.procs[r].(senders := Without(k.procs[r].senders, s), msg := k.procs[s].msg)];
      Release(s, Sending);
      received := received + [Letter(k.procs[s].pid, k.procs[r].pid, k.procs[s].msg)];
    }

    /** `msg_receive`, by the current process, into a buffer that holds `buf`. */
    method MsgReceive(src: nat, buf: Message, window: seq<nat>) returns (eax: int)
      requires Good() && cur != TASK_IDLE && src != procs[cur].pid
      modifies this, procs, hash
      ensures Good() && State() == Receive(old(State()), src, buf, window)
      ensures eax == if src != ANY && src != INTERRUPT && Pid2Proc(old(State()), src) == -1 then -1 else 0
    {
      ReadyAreReady();
      ReceiveKeeps(State(), src, buf, window);
      QueueIsSending();
      eax := ReceiveMessage(src, buf, window);
    }

    lemma QueueIsSending()
      requires Good()
      ensures forall j :: j in procs[cur].senders ==> procs[j].status.sending && j != cur
    {
      var k := State();
      assert Live(k, k.cur);
      forall j | j in procs[cur].senders
        ensures procs[j].status.sending && j != cur
      {
        assert InQueue(k, k.cur, j);
        assert k.procs[j].status.sending;
      }
    }

    method ReceiveMessage(src: nat, buf: Message, window: seq<nat>) returns (eax: int)
      requires Valid() && src != procs[cur].pid && AllReady()
      requires forall j :: j in procs[cur].senders ==> procs[j].status.sending && j != cur
      modifies this`ready, this`cur, this`halted, this`received, procs
      ensures State() == Receive(old(State()), src, buf, window)
      ensures eax == if src != ANY && src != INTERRUPT && Pid2Proc(old(State()), src) == -1 then -1 else 0
    {
      hide Block, FindPid, PickUp, IntrSendAll, TakeIntr;
      var r := cur;
      ghost var k := State();
      Write(r, procs[r].(msg := buf));
      SameLookup(k, State(), src);
      if src != ANY && src != INTERRUPT {
        var p := Pid2ProcAt(src);
        if p == -1 {
          return -1;
        }
      }
      if procs[r].hasIntrMsg && (src == ANY || src == INTERRUPT) {
        AcceptInterrupt();
        return 0;
      }
      var sender := ChooseSender(r, src);
      if sender == -1 {
        Interrupts(window);
        if procs[r].hasIntrMsg && (src == ANY || src == INTERRUPT) {
          AcceptInterrupt();
          return 0;
        } else {
          Write(r, procs[r].(recvfrom := src));
          Stop(r, Receiving);
        }
      } else {
        assert procs[sender].status.sending;
        AcceptMessage(sender);
      }
      eax := 0;
    }

    /**
     * `process_execute`, once the file has been read and memory asked for (`hasMemory`): the bookkeeping.
     * Returns the new pid, or -1.
     */
    method ProcessExecute(parent: nat, hasMemory: bool) returns (pid: int)
      requires Good() && nextPid < NO_PROC
      requires var p := Pid2Proc(State(), parent); p != -1 && Alive(State(), p) && p != TASK_SYS && p != TASK_IDLE
      modifies this, procs, hash
      ensures Good() && State() == Execute(old(State()), parent, hasMemory)
      ensures pid == if old(slots) == [] || !hasMemory then -1 else old(nextPid)
    {
      ExecuteKeeps(State(), parent, hasMemory);
      if slots == [] || !hasMemory {
        return -1;
      }
      pid := NewProcess(parent);
    }

    method NewProcess(parent: nat) returns (pid: nat)
      requires Valid() && slots != []
      modifies this`slots, this`nextPid, this`ready, procs, hash
      ensures State() == Execute(old(State()), parent, true)
      ensures pid == old(nextPid)
    {
      hide FindPid;
      ghost var k := State();
      var i := slots[0];
      pid := ClaimSlot(parent);
      var p := Pid2ProcAt(parent);
      if p != -1 {
        Write(p, procs[p].(children := procs[p].children + [i]));
      }
      ready := ready + [i];
    }

    /** Takes the first free slot and gives the process there a pid. */
    method ClaimSlot(parent: nat) returns (pid: nat)
      requires Valid() && slots != []
      modifies this`slots, this`nextPid, procs, hash
      ensures pid == old(nextPid)
      ensures var k := old(State()); var i := k.slots[0];
        State() == Put(k, i, k.procs[i].(pid := pid, status := READY, senders := [], children := [], parent := parent))
                   .(slots := k.slots[1..], hash := k.hash[pid % 128 := k.hash[pid % 128] + [i]], nextPid := pid + 1)
    {
      ghost var k := State();
      var i := slots[0];
      slots := slots[1..];
      pid := nextPid;
      hash[pid % MAX_PROC_CNT] := hash[pid % MAX_PROC_CNT] + [i];
      procs[i] := procs[i].(status := Status(Created, false, false, false));
      procs[i] := procs[i].(pid := pid);
      nextPid := nextPid + 1;
      procs[i] := procs[i].(senders := [], children := [], parent := parent);
      procs[i] := procs[i].(status := READY);
      assert procs[..] == k.procs[i := k.procs[i].(pid := pid, status := READY, senders := [], children := [], parent := parent)];
      assert hash[..] == k.hash[pid % MAX_PROC_CNT := k.hash[pid % MAX_PROC_CNT] + [i]];
    }

    /** Takes the slot of a process out of its bucket and back to the free ones. */
    method FreeSlot(i: Slot)
      requires Valid()
      modifies this`slots, hash
      ensures State() == Reclaim(old(State()), i)
    {
      var b := procs[i].pid % MAX_PROC_CNT;
      hash[b] := Without(hash[b], i);
      slots := slots + [i];
      assert hash[..] == old(hash[..])[b := Without(old(hash[..])[b], i)];
    }

    method LoseChild(p: Slot, i: Slot)
      requires Valid()
      modifies procs
      ensures State() == DropChild(old(State()), p, i)
    {
      Write(p, procs[p].(children := Without(procs[p].children, i)));
    }

    /** The first part of `process_exit`: the process is dead, and its children are orphans. */
    method Kill(i: Slot, status: int)
      requires Valid()
      modifies this`ready, procs
      ensures State() == Die(old(State()), i, status)
    {
      ghost var k := State();
      if procs[i].status == READY {
        ready := Without(ready, i);
      }
      Write(i, procs[i].(status := DEAD));
      Write(i, procs[i].(exitStatus := status));
      ghost var k2 := State();
      assert k2.procs == k.procs[i := k.procs[i].(status := DEAD, exitStatus := status)];
      var l := procs[i].children;
      var e := 0;
      while e < |l|
        invariant 0 <= e <= |l| && l == k2.procs[i].children
        invariant State() == k2.(procs := State().procs)
        invariant Orphan(k2.procs, l) == Orphan(State().procs, l[e..])
      {
        Write(l[e], procs[l[e]].(parent := NO_PROC));
        e := e + 1;
      }
    }

    /** `process_exit`, which the system task runs; it keeps the invariant exactly when the process may go. */
    method ProcessExit(self: nat, status: int)
      requires Good() && ExitCalled(State(), self)
      modifies this, procs, hash
      ensures Valid() && State() == Exit(old(State()), self, status)
      ensures Good() <==> old(MayExit(State(), Pid2Proc(State(), self)))
    {
      hide Inv, Die, AfterDeath, FindPid, MayExit;
      ExitKeepsExactly(State(), self, status);
      DieReady(State(), Pid2Proc(State(), self), status);
      hide Alive;
      var i := Pid2ProcAt(self);
      Kill(i, status);
      TellParent(i, status);
    }

    /** The second part of `process_exit`. */
    method TellParent(i: Slot, status: int)
      requires Valid() && procs[i].parent != procs[cur].pid && AllReady()
      modifies this, procs, hash
      ensures Valid() && State() == AfterDeath(old(State()), i, status)
    {
      hide FindPid, Unblock, Reclaim, Send, Reap, AfterDeath;
      ghost var k := State();
      var parent := procs[i].parent;
      var p := Pid2ProcAt(parent);
      AfterDeathIs(k, i, status, p);
      if parent == NO_PROC || p == -1 {
        FreeSlot(i);
      } else if procs[p].status.waiting && (procs[p].waitFor == ANY || procs[p].waitFor == procs[i].pid) {
        Write(p, procs[p].(waitFor := procs[i].pid));
        Release(p, Waiting);
        TakeChild(p, i, parent, status);
        var eax := SendMessage(parent, Reply(status));
      }
    }

    /** Takes a dead child away from its parent, whose pid is `parent`. */
    method TakeChild(p: Slot, i: Slot, parent: nat, status: int)
      requires Valid() && procs[p].pid == parent && AllReady()
      modifies this`slots, this`reaped, procs, hash
      ensures Valid() && State() == Reap(old(State()), p, i, status) && AllReady()
      ensures forall j: Slot :: procs[j].pid == old(procs[j].pid)
    {
      hide Reclaim;
      ghost var k := State();
      FreeSlot(i);
      ReclaimRest(k, i);
      LoseChild(p, i);
      reaped := reaped + [Notice(procs[i].pid, parent, status)];
    }

    /** The first dead process on a list, or -1. */
    method SearchDead(l: seq<Slot>) returns (c: int)
      requires Valid()
      ensures c == FindDead(State().procs, l)
    {
      var e := 0;
      while e < |l|
        invariant 0 <= e <= |l|
        invariant FindDead(State().procs, l) == FindDead(State().procs, l[e..])
      {
        if procs[l[e]].status == DEAD {
          return l[e];
        }
        e := e + 1;
      }
      return -1;
    }

    /** The first process with the given pid on a list, or -1. */
    method SearchPid(l: seq<Slot>, pid: nat) returns (c: int)
      requires Valid()
      ensures c == FindPid(State().procs, l, pid)
    {
      var e := 0;
      while e < |l|
        invariant 0 <= e <= |l|
        invariant FindPid(State().procs, l, pid) == FindPid(State().procs, l[e..], pid)
      {
        if procs[l[e]].pid == pid {
          return l[e];
        }
        e := e + 1;
      }
      return -1;
    }

    /** `process_wait`, which the system task runs; it keeps the invariant exactly when the child it finds may go. */
    method ProcessWait(child: nat, parent: nat)
      requires Good() && WaitCalled(State(), parent)
      modifies this, procs, hash
      ensures Valid() && State() == Wait(old(State()), child, parent)
      ensures Good() <==> old(MayWait(State(), child, Pid2Proc(State(), parent)))
    {
      WaitKeepsExactly(State(), child, parent);
      ReadyAreReady();
      assert parent != procs[cur].pid && procs[Pid2Proc(State(), parent)].status != RUNNING by {
        InvParts(State());
        LookupFinds(State(), parent);
        assert Scheduling(State());
      }
      hide Inv, MayWait, Wait;
      WaitForChild(child, parent);
    }

    method WaitForChild(child: nat, parent: nat)
      requires Valid() && parent != procs[cur].pid && AllReady()
      requires var p := Pid2Proc(State(), parent); p != -1 && procs[p].status != RUNNING
      modifies this, procs, hash
      ensures Valid() && State() == Wait(old(State()), child, parent)
    {
      hide FindPid, FindDead, Send, Reclaim;
      var p := Pid2ProcAt(parent);
      if procs[p].status.waiting || procs[p].children == [] {
        var eax := SendMessage(parent, Reply(-1));
        return;
      }
      var c;
      if child == ANY {
        c := SearchDead(procs[p].children);
      } else {
        c := SearchPid(procs[p].children, child);
        if c == -1 {
          var eax := SendMessage(parent, Reply(-1));
          return;
        }
      }
      if c == -1 || procs[c].status != DEAD {
        assert procs[p].status != RUNNING;
        Sleep(p, child);
      } else {
        HandOver(p, c);
      }
    }

    /** The parent is blocked until a child that it waits for exits. */
    method Sleep(p: Slot, child: nat)
      requires Valid()
      modifies this`ready, procs
      ensures State() == SleepFor(old(State()), p, child)
    {
      ghost var k := State();
      procs[p] := procs[p].(waitFor := child);
      if procs[p].status == READY {
        ready := Without(ready, p);
      }
      procs[p] := procs[p].(status := With(procs[p].status, Waiting, true));
      assert procs[..] == SleepFor(k, p, child).procs;
    }

    /** The dead child `c` of `p` is given back, and its exit status is sent to `p`. */
    method HandOver(p: Slot, c: Slot)
      requires Valid() && procs[p].pid != procs[cur].pid && AllReady()
      modifies this, procs, hash
      ensures Valid() && State() == Collect(old(State()), p, c)
    {
      hide Send, Reclaim, Reap;
      ghost var k := State();
      TakeChild(p, c, procs[p].pid, procs[c].exitStatus);
      ReapShape(k, p, c, k.procs[c].exitStatus);
      assert State().procs[p].pid == k.procs[p].pid && State().procs[c].exitStatus == k.procs[c].exitStatus;
      var eax := SendMessage(procs[p].pid, Reply(procs[c].exitStatus));
    }
  }

  function Raised(k: Kernel, r: Slot): Kernel {
    var p := k.procs[r];
    if p.status.receiving && (p.recvfrom == INTERRUPT || p.recvfrom == ANY) then
      Unblock(Put(k, r, p.(hasIntrMsg := false, msg := p.msg.(source := INTERRUPT, kind := HARD_INT))), r, Receiving)
    else Put(k, r, p.(hasIntrMsg := true))
  }

  lemma IntrSendIs(k: Kernel, dest: nat, r: int)
    requires r == Pid2Proc(k, dest)
    ensures IntrSend(k, dest) == if r == -1 then k else Raised(k, r)
  {
    hide Unblock, FindPid;
  }

  /** What is left to do for an exit that the parent waits for, step by step. */
  lemma AfterDeathIs(k: Kernel, i: Slot, status: int, p: int)
    requires p == Pid2Proc(k, k.procs[i].parent)
    ensures AfterDeath(k, i, status)
         == if k.procs[i].parent == NO_PROC || p == -1 then Reclaim(k, i)
            else if Awaited(k, p, i) then
              var k2 := Unblock(Put(k, p, k.procs[p].(waitFor := k.procs[i].pid)), p, Waiting);
              Send(Reap(k2, p, i, status), k.procs[i].parent, Reply(status))
            else k
  {
    hide Unblock, FindPid, Send, Reap, Reclaim;
  }

  lemma DieReady(k: Kernel, i: Slot, status: int)
    requires Inv(k) && Live(k, i) && k.cur == TASK_SYS && TASK_IDLE < i
    ensures var l := Die(k, i, status);
      && (forall j :: j in l.ready ==> l.procs[j].status == READY)
      && l.procs[i].parent != l.procs[l.cur].pid
  {
    DieScheduling(k, i, status);
    DieShape(k, i, status);
    ParentFound(k, i);
    LookupFinds(k, k.procs[i].parent);
  }
}
