/** Processes, messages and what each kernel entry point does to them. */
module Proc {

  const MAX_PROC_CNT := 128

  const TASK_SYS := 0
  const TASK_IDLE := 5

  // Pids that stand for something else than a process.
  const ANY := 0xffff_ffff
  const INTERRUPT := 0xffff_fffe
  const NO_PROC := 0xffff_fffd

  const HARD_INT := 1

  /** An index into the process table: the model of a pointer to a process. */
  type Slot = i: int | 0 <= i < 128

  datatype Message = Message(source: nat, kind: int, param1: int, param2: int, param3: int, param4: int)

  /** The low four bits of a status. */
  datatype Phase = Unused | Created | Ready | Running | Dead

  /** A status word: the phase, and one bit for every reason to be blocked. */
  datatype Status = Status(phase: Phase, sending: bool, receiving: bool, waiting: bool) {
    /** `status & 0xf0` */
    predicate Blocked() {
      sending || receiving || waiting
    }
  }

  const UNUSED := Status(Unused, false, false, false)
  const READY := Status(Ready, false, false, false)
  const RUNNING := Status(Running, false, false, false)
  const DEAD := Status(Dead, false, false, false)

  datatype Reason = Sending | Receiving | Waiting

  /** `status | reason` and `status & ~reason` */
  function With(s: Status, reason: Reason, on: bool): Status {
    match reason
    case Sending => s.(sending := on)
    case Receiving => s.(receiving := on)
    case Waiting => s.(waiting := on)
  }

  /** A process control block. `msg` is the message record that `p_msg` points at. */
  datatype Pcb = Pcb(
    pid: nat,
    status: Status,
    msg: Message,
    recvfrom: nat,
    hasIntrMsg: bool,
    senders: seq<Slot>,
    children: seq<Slot>,
    parent: nat,
    waitFor: nat,
    exitStatus: int)

  const NO_MSG := Message(0, 0, 0, 0, 0, 0)
  const FREE_PCB := Pcb(0, UNUSED, NO_MSG, 0, false, [], [], 0, 0, 0)

  type Table = s: seq<Pcb> | |s| == 128 witness seq(128, i => FREE_PCB)
  type Buckets = s: seq<seq<Slot>> | |s| == 128 witness seq(128, i => [])

  /** A message that went from one process to another. */
  datatype Letter = Letter(from: nat, to: nat, msg: Message)

  /** The exit status of a child, handed to its parent. */
  datatype Notice = Notice(child: nat, parent: nat, status: int)

  /**
   * The kernel's data, and three histories that only the specification keeps: messages sent, messages
   * received, and exit statuses handed over.
   */
  datatype Kernel = Kernel(
    procs: Table,
    ready: seq<Slot>,
    slots: seq<Slot>,
    hash: Buckets,
    cur: Slot,
    nextPid: nat,
    halted: bool,
    sent: seq<Letter>,
    received: seq<Letter>,
    reaped: seq<Notice>)

  // ---------------------------------------------------------------- lists

  function Without<T(==)>(s: seq<T>, x: T): (r: seq<T>) {
    if s == [] then [] else if s[0] == x then s[1..] else [s[0]] + Without(s[1..], x)
  }

  /** The first process on `l` whose pid is `pid`, or -1. */
  function FindPid(procs: Table, l: seq<Slot>, pid: nat): (i: int)
    ensures i != -1 ==> i in l && procs[i].pid == pid
    ensures i == -1 ==> forall j :: j in l ==> procs[j].pid != pid
  {
    if l == [] then -1 else if procs[l[0]].pid == pid then l[0] else FindPid(procs, l[1..], pid)
  }

  /** The first process on `l` that is dead, or -1. */
  function FindDead(procs: Table, l: seq<Slot>): (i: int)
    ensures i != -1 ==> i in l && procs[i].status == DEAD
    ensures i == -1 ==> forall j :: j in l ==> procs[j].status != DEAD
  {
    if l == [] then -1 else if procs[l[0]].status == DEAD then l[0] else FindDead(procs, l[1..])
  }

  function Pid2Proc(k: Kernel, pid: nat): (i: int)
    ensures i != -1 ==> 0 <= i < 128 && i in k.hash[pid % 128] && k.procs[i].pid == pid
    ensures i == -1 ==> forall j :: j in k.hash[pid % 128] ==> k.procs[j].pid != pid
  {
    FindPid(k.procs, k.hash[pid % 128], pid)
  }

  // ---------------------------------------------------------------- scheduling

  function Put(k: Kernel, i: Slot, p: Pcb): Kernel {
    k.(procs := k.procs[i := p])
  }

  function SetStatus(k: Kernel, i: Slot, s: Status): Kernel {
    Put(k, i, k.procs[i].(status := s))
  }

  function MakeReady(k: Kernel, i: Slot): Kernel {
    SetStatus(k, i, READY).(ready := k.ready + [i])
  }

  function PopReady(k: Kernel): Kernel {
    if k.ready == [] then k.(halted := true)
    else SetStatus(k, k.ready[0], RUNNING).(ready := k.ready[1..], cur := k.ready[0])
  }

  function Schedule(k: Kernel): Kernel {
    PopReady(if k.procs[k.cur].status == RUNNING then MakeReady(k, k.cur) else k)
  }

  function Unblock(k: Kernel, i: Slot, reason: Reason): Kernel {
    var s := With(k.procs[i].status, reason, false);
    if s.Blocked() then SetStatus(k, i, s) else MakeReady(k, i)
  }

  function Block(k: Kernel, i: Slot, reason: Reason): Kernel {
    var s := With(k.procs[i].status, reason, true);
    if k.procs[i].status == READY then k.(ready := Without(k.ready, i))
    else if k.procs[i].status == RUNNING then Schedule(SetStatus(k, i, s))
    else SetStatus(k, i, s)
  }

  // ---------------------------------------------------------------- messages

  predicate Accepts(p: Pcb, pid: nat) {
    p.status.receiving && (p.recvfrom == ANY || p.recvfrom == pid)
  }

  /** The current process sends `msg` to `dest`. */
  function Send(k: Kernel, dest: nat, msg: Message): Kernel {
    var s, r := k.cur, Pid2Proc(k, dest);
    if r == -1 then k
    else
      var m := msg.(source := k.procs[s].pid);
      var k1 := Put(k, s, k.procs[s].(msg := m)).(sent := k.sent + [Letter(k.procs[s].pid, dest, m)]);
      if Accepts(k1.procs[r], k.procs[s].pid) then
        Unblock(Put(k1, r, k1.procs[r].(msg := m)), r, Receiving)
        .(received := k.received + [Letter(k.procs[s].pid, dest, m)])
      else
        var k2 := Block(k1, s, Sending);
        Put(k2, r, k2.procs[r].(senders := k2.procs[r].senders + [s]))
  }

  /** An interrupt for `dest`. */
  function IntrSend(k: Kernel, dest: nat): Kernel {
    var r := Pid2Proc(k, dest);
    if r == -1 then k
    else
      var p := k.procs[r];
      if p.status.receiving && (p.recvfrom == INTERRUPT || p.recvfrom == ANY) then
        Unblock(Put(k, r, p.(hasIntrMsg := false, msg := p.msg.(source := INTERRUPT, kind := HARD_INT))), r, Receiving)
      else Put(k, r, p.(hasIntrMsg := true))
  }

  function IntrSendAll(k: Kernel, dests: seq<nat>): Kernel {
    if dests == [] then k else IntrSend(IntrSendAll(k, dests[..|dests| - 1]), dests[|dests| - 1])
  }

  predicate TakesIntr(p: Pcb, src: nat) {
    p.hasIntrMsg && (src == ANY || src == INTERRUPT)
  }

  function TakeIntr(k: Kernel, r: Slot): Kernel {
    var p := k.procs[r];
    Put(k, r, p.(hasIntrMsg := false, msg := p.msg.(source := INTERRUPT, kind := HARD_INT)))
  }

  /** The queued sender that a receive from `src` picks, or -1. */
  function PickSender(k: Kernel, r: Slot, src: nat): (s: int)
    ensures s != -1 ==> 0 <= s < 128 && s in k.procs[r].senders && (src == ANY || k.procs[s].pid == src) && src != INTERRUPT
    ensures s == -1 && src == ANY ==> k.procs[r].senders == []
    ensures s == -1 && src != ANY && src != INTERRUPT ==> forall j :: j in k.procs[r].senders ==> k.procs[j].pid != src
  {
    if k.procs[r].senders == [] || src == INTERRUPT then -1
    else if src == ANY then k.procs[r].senders[0]
    else FindPid(k.procs, k.procs[r].senders, src)
  }

  /** The current process takes the message of `s`, which was waiting in its queue. */
  function PickUp(k: Kernel, s: Slot): Kernel {
    var r := k.cur;
    var m := k.procs[s].msg;
    var k1 := Put(k, r, k.procs[r].(senders := Without(k.procs[r].senders, s), msg := m));
    Unblock(k1, s, Sending).(received := k.received + [Letter(k.procs[s].pid, k.procs[r].pid, m)])
  }

  /**
   * Nobody it wants to hear from is there: the current process looks at its interrupt flag once more, after
   * the interrupts in `window` have arrived, and then stops to wait.
   */
  function Listen(k: Kernel, src: nat, window: seq<nat>): Kernel {
    var r, k1 := k.cur, IntrSendAll(k, window);
    if TakesIntr(k1.procs[r], src) then TakeIntr(k1, r)
    else Block(Put(k1, r, k1.procs[r].(recvfrom := src)), r, Receiving)
  }

  /**
   * The current process receives from `src` into a buffer that holds `buf`. Interrupts for the processes
   * in `window` arrive between the two looks at the pending-interrupt flag, if it comes to the second one.
   */
  function Receive(k: Kernel, src: nat, buf: Message, window: seq<nat>): Kernel {
    var r := k.cur;
    var k1 := Put(k, r, k.procs[r].(msg := buf));
    if src != ANY && src != INTERRUPT && Pid2Proc(k1, src) == -1 then k1
    else if TakesIntr(k1.procs[r], src) then TakeIntr(k1, r)
    else
      var s := PickSender(k1, r, src);
      if s != -1 then PickUp(k1, s) else Listen(k1, src, window)
  }

  // ---------------------------------------------------------------- lifecycle

  /** A new child of `parent`, if a process slot and memory (`hasMemory`) are there. */
  function Execute(k: Kernel, parent: nat, hasMemory: bool): Kernel {
    if k.slots == [] || !hasMemory then k
    else
      var i, pid := k.slots[0], k.nextPid;
      var k1 := Put(k, i, k.procs[i].(pid := pid, status := READY, senders := [], children := [], parent := parent))
        .(slots := k.slots[1..], hash := k.hash[pid % 128 := k.hash[pid % 128] + [i]], nextPid := pid + 1);
      var p := Pid2Proc(k1, parent);
      var k2 := if p == -1 then k1 else Put(k1, p, k1.procs[p].(children := k1.procs[p].children + [i]));
      k2.(ready := k2.ready + [i])
  }

  /** Returns the slot of a process to the free ones. */
  function Reclaim(k: Kernel, i: Slot): Kernel {
    var b := k.procs[i].pid % 128;
    k.(hash := k.hash[b := Without(k.hash[b], i)], slots := k.slots + [i])
  }

  function Orphan(procs: Table, children: seq<Slot>): (t: Table)
    ensures forall j: Slot :: t[j] == if j in children then procs[j].(parent := NO_PROC) else procs[j]
    decreases |children|
  {
    if children == [] then procs
    else Orphan(procs[children[0] := procs[children[0]].(parent := NO_PROC)], children[1..])
  }

  /** The state after the exiting process `i` has been declared dead and its children orphaned. */
  function Die(k: Kernel, i: Slot, status: int): Kernel {
    var k1 := if k.procs[i].status == READY then k.(ready := Without(k.ready, i)) else k;
    var k2 := Put(k1, i, k1.procs[i].(status := DEAD, exitStatus := status));
    k2.(procs := Orphan(k2.procs, k2.procs[i].children))
  }

  function DropChild(k: Kernel, p: Slot, i: Slot): Kernel {
    Put(k, p, k.procs[p].(children := Without(k.procs[p].children, i)))
  }

  /** What a reply carries besides its first parameter is left over on the stack; the model leaves it zero. */
  function Reply(value: int): Message {
    NO_MSG.(param1 := value)
  }

  /** The parent `p` of `i` is waiting for it, or for any child. */
  predicate Awaited(k: Kernel, p: Slot, i: Slot) {
    k.procs[p].status.waiting && (k.procs[p].waitFor == ANY || k.procs[p].waitFor == k.procs[i].pid)
  }

  /** Child `i` of `p` goes, and its exit status is handed over. */
  function Reap(k: Kernel, p: Slot, i: Slot, status: int): Kernel {
    DropChild(Reclaim(k, i), p, i).(reaped := k.reaped + [Notice(k.procs[i].pid, k.procs[p].pid, status)])
  }

  /** The rest of an exit, once `i` is dead and its children are orphans. */
  function AfterDeath(k: Kernel, i: Slot, status: int): Kernel {
    var parent := k.procs[i].parent;
    var p := Pid2Proc(k, parent);
    if parent == NO_PROC || p == -1 then Reclaim(k, i)
    else if Awaited(k, p, i) then
      var k2 := Unblock(Put(k, p, k.procs[p].(waitFor := k.procs[i].pid)), p, Waiting);
      Send(Reap(k2, p, i, status), parent, Reply(status))
    else k
  }

  /** Process `self` exits. */
  function Exit(k: Kernel, self: nat, status: int): Kernel {
    var i := Pid2Proc(k, self);
    if i == -1 then k else AfterDeath(Die(k, i, status), i, status)
  }

  /** The child that a wait finds goes, and its parent gets the exit status. */
  function Collect(k: Kernel, p: Slot, c: Slot): Kernel {
    Send(Reap(k, p, c, k.procs[c].exitStatus), k.procs[p].pid, Reply(k.procs[c].exitStatus))
  }

  /** `p` is taken off the ready list, if it is on it, and waits for `child`. */
  function SleepFor(k: Kernel, p: Slot, child: nat): Kernel {
    var k1 := if k.procs[p].status == READY then k.(ready := Without(k.ready, p)) else k;
    Put(k1, p, k1.procs[p].(waitFor := child, status := With(k1.procs[p].status, Waiting, true)))
  }

  /** Process `parent` waits for its child `child`, or for any child. */
  function Wait(k: Kernel, child: nat, parent: nat): Kernel {
    var p := Pid2Proc(k, parent);
    if p == -1 then k
    else if k.procs[p].status.waiting || k.procs[p].children == [] then Send(k, parent, Reply(-1))
    else
      var c := if child == ANY then FindDead(k.procs, k.procs[p].children) else FindPid(k.procs, k.procs[p].children, child);
      if child != ANY && c == -1 then Send(k, parent, Reply(-1))
      else if c == -1 || k.procs[c].status != DEAD then
        SleepFor(k, p, child)
      else Collect(k, p, c)
  }

  // ---------------------------------------------------------------- start

  function InitialPcb(i: Slot): Pcb {
    if i == 0 then FREE_PCB.(pid := i, status := RUNNING)
    else if i <= TASK_IDLE then FREE_PCB.(pid := i, status := READY)
    else FREE_PCB
  }

  function UpFrom(lo: Slot, hi: nat): (s: seq<Slot>)
    requires lo <= hi <= 128
    ensures |s| == hi - lo && forall j :: 0 <= j < |s| ==> s[j] == lo + j
  {
    seq(hi - lo, j requires 0 <= j < hi - lo => lo + j)
  }

  /** The state that `process_init` leaves behind. */
  function Initial(): Kernel {
    Kernel(seq(128, i requires 0 <= i < 128 => InitialPcb(i)), UpFrom(1, 6), UpFrom(6, 128),
           seq(128, i requires 0 <= i < 128 => if i <= TASK_IDLE then [i] else []), 0, TASK_IDLE + 1, false, [], [], [])
  }
}
