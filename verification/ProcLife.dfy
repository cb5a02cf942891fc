/** Starting, ending and waiting for processes: what exec, exit and wait keep. */
module ProcLife {
  import opened Proc
  import opened ProcInv
  import opened ProcIpc
  import opened ProcSteps

  // ---------------------------------------------------------------- exec

  /** A new process in free slot `i`, with a fresh pid, as a child of `p`. */
  function Spawn(k: Kernel, p: Slot): Kernel
    requires k.slots != [] && k.slots[0] != p
  {
    var i, pid := k.slots[0], k.nextPid;
    var k1 := Put(k, i, k.procs[i].(pid := pid, status := READY, senders := [], children := [], parent := k.procs[p].pid));
    Put(k1, p, k1.procs[p].(children := k1.procs[p].children + [i]))
    .(slots := k.slots[1..], hash := k.hash[pid % 128 := k.hash[pid % 128] + [i]], nextPid := pid + 1, ready := k.ready + [i])
  }

  predicate MaySpawn(k: Kernel, p: Slot) {
    k.slots != [] && k.nextPid < NO_PROC && Alive(k, p) && p != TASK_SYS && p != TASK_IDLE
  }

  lemma SpawnSlots(k: Kernel, p: Slot)
    requires Registry(k) && MaySpawn(k, p)
    ensures k.slots[0] != p
    ensures var i, l := k.slots[0], Spawn(k, p);
      && !Live(k, i) && Live(l, i) && TASK_IDLE < i
      && (forall j: Slot :: j != i ==> (Live(l, j) <==> Live(k, j)))
      && (forall j: Slot :: j != i && j != p ==> l.procs[j] == k.procs[j])
  {
    var i := k.slots[0];
    assert i in k.slots;
    assert forall j: Slot :: j in k.slots <==> j == i || j in k.slots[1..];
  }

  lemma SpawnHash(k: Kernel, p: Slot)
    requires Registry(k) && MaySpawn(k, p) && k.slots[0] != p
    ensures var l := Spawn(k, p);
      && (forall b :: 0 <= b < 128 ==> NoDup(l.hash[b]))
      && (forall b, j: Slot :: 0 <= b < 128 ==>
            (j in l.hash[b] <==> j in k.hash[b] || (j == k.slots[0] && b == k.nextPid % 128)))
  {
    SpawnSlots(k, p);
    forall b | 0 <= b < 128
      ensures NoDup(Spawn(k, p).hash[b])
    {
      assert NoDup(k.hash[b]) && k.slots[0] !in k.hash[b];
    }
  }

  lemma SpawnRegistry(k: Kernel, p: Slot)
    requires Registry(k) && MaySpawn(k, p) && k.slots[0] != p
    ensures Registry(Spawn(k, p))
  {
    hide Registry, Spawn, Live;
    SpawnSlots(k, p);
    SpawnHash(k, p);
    SpawnPids(k, p);
    var i, l := k.slots[0], Spawn(k, p);
    assert forall j: Slot :: Live(l, j) <==> j == i || Live(k, j);
    OneMoreRegistered(k, l, i);
  }

  lemma OneMoreRegistered(k: Kernel, l: Kernel, i: Slot)
    requires Registry(k) && TASK_IDLE < i && !Live(k, i) && NoDup(l.slots) && l.nextPid == k.nextPid + 1 <= NO_PROC
    requires forall j: Slot :: Live(l, j) <==> j == i || Live(k, j)
    requires forall j: Slot :: l.procs[j].pid == if j == i then k.nextPid else k.procs[j].pid
    requires forall b :: 0 <= b < 128 ==> NoDup(l.hash[b])
    requires forall b, j: Slot :: 0 <= b < 128 ==> (j in l.hash[b] <==> j in k.hash[b] || (j == i && b == k.nextPid % 128))
    ensures Registry(l)
  {
    hide Live, NoDup;
  }

  lemma SpawnPids(k: Kernel, p: Slot)
    requires Registry(k) && MaySpawn(k, p) && k.slots[0] != p
    ensures var i, l := k.slots[0], Spawn(k, p);
      && NoDup(l.slots) && l.nextPid == k.nextPid + 1 <= NO_PROC
      && (forall j: Slot :: l.procs[j].pid == if j == i then k.nextPid else k.procs[j].pid)
  {
  }

  lemma SpawnScheduling(k: Kernel, p: Slot)
    requires Registry(k) && Scheduling(k) && MaySpawn(k, p) && k.slots[0] != p
    ensures Scheduling(Spawn(k, p))
  {
    hide Registry;
    SpawnSlots(k, p);
    var i, l := k.slots[0], Spawn(k, p);
    assert l.procs[p].status == k.procs[p].status;
    assert forall j: Slot :: j in l.ready <==> j == i || j in k.ready;
  }

  lemma SpawnQueues(k: Kernel, p: Slot)
    requires Registry(k) && Queues(k) && MaySpawn(k, p) && k.slots[0] != p
    ensures Queues(Spawn(k, p))
    ensures forall q: Slot, s: Slot :: InQueue(Spawn(k, p), q, s) <==> InQueue(k, q, s)
    ensures forall q: Slot, s: Slot :: InQueue(k, q, s) ==> q != k.slots[0] && s != k.slots[0]
  {
    hide Registry;
    SpawnSlots(k, p);
    var i, l := k.slots[0], Spawn(k, p);
    forall q: Slot, s: Slot
      ensures InQueue(l, q, s) <==> InQueue(k, q, s)
      ensures InQueue(k, q, s) ==> q != i && s != i
    {
    }
    forall s: Slot | Live(l, s) && l.procs[s].status.sending
      ensures exists q: Slot :: InQueue(l, q, s)
    {
      var q: Slot :| InQueue(k, q, s);
      assert InQueue(l, q, s);
    }
  }

  lemma SpawnParentOf(k: Kernel, p: Slot)
    requires Registry(k) && ChildrenKnowParent(k) && MaySpawn(k, p) && k.slots[0] != p
    ensures forall q: Slot, c: Slot :: ParentOf(Spawn(k, p), q, c) <==> ParentOf(k, q, c) || (q == p && c == k.slots[0])
    ensures forall q: Slot, c: Slot :: ParentOf(k, q, c) ==> c != k.slots[0]
  {
    SpawnSlots(k, p);
    hide Registry;
  }

  lemma SpawnFamily(k: Kernel, p: Slot)
    requires Registry(k) && Family(k) && MaySpawn(k, p) && k.slots[0] != p
    ensures Family(Spawn(k, p))
  {
    SpawnSlots(k, p);
    SpawnParentOf(k, p);
    hide Registry, ParentOf, ChildrenKnowParent, ParentKnowsChildren, NoLostExit;
    SpawnChildrenKnowParent(k, p);
    SpawnParentKnowsChildren(k, p);
    assert NoLostExit(Spawn(k, p)) by {
      SpawnNoLostExit(k, p);
    }
  }

  lemma SpawnChildrenKnowParent(k: Kernel, p: Slot)
    requires Registry(k) && ChildrenKnowParent(k) && MaySpawn(k, p) && k.slots[0] != p
    ensures ChildrenKnowParent(Spawn(k, p))
  {
    SpawnSlots(k, p);
    SpawnParentOf(k, p);
    hide Registry;
    var i, l := k.slots[0], Spawn(k, p);
    assert i !in k.procs[p].children by {
      assert ParentOf(k, p, i) <==> i in k.procs[p].children;
    }
  }

  lemma SpawnParentKnowsChildren(k: Kernel, p: Slot)
    requires Registry(k) && ChildrenKnowParent(k) && ParentKnowsChildren(k) && MaySpawn(k, p) && k.slots[0] != p
    ensures ParentKnowsChildren(Spawn(k, p))
  {
    SpawnSlots(k, p);
    SpawnParentOf(k, p);
    hide Registry, ChildrenKnowParent, ParentOf;
    var i, l := k.slots[0], Spawn(k, p);
    assert ParentOf(l, p, i);
    forall c: Slot | Live(l, c) && TASK_IDLE < c && l.procs[c].parent != NO_PROC
      ensures exists q: Slot :: ParentOf(l, q, c)
    {
      if c != i {
        var q: Slot :| ParentOf(k, q, c);
        assert ParentOf(l, q, c);
      }
    }
  }

  lemma SpawnNoLostExit(k: Kernel, p: Slot)
    requires Registry(k) && ChildrenKnowParent(k) && NoLostExit(k) && MaySpawn(k, p) && k.slots[0] != p
    ensures NoLostExit(Spawn(k, p))
  {
    SpawnSlots(k, p);
    SpawnParentOf(k, p);
    hide Registry, ChildrenKnowParent, ParentOf;
  }

  lemma SpawnHistories(k: Kernel, p: Slot)
    requires Core(k) && MaySpawn(k, p) && k.slots[0] != p
    requires Registry(Spawn(k, p)) && Queues(Spawn(k, p))
    ensures Histories(Spawn(k, p)) && Reaped(Spawn(k, p))
  {
    hide Registry, QueuedSend, OneQueue, SendersQueued, NoMissedSender, NoMissedInterrupt, Family, Between, Outstanding;
    SpawnSlots(k, p);
    SpawnQueues(k, p);
    var i, l := k.slots[0], Spawn(k, p);
    forall a: nat, b: nat
      ensures Outstanding(l, a, b) == Outstanding(k, a, b)
    {
      assert forall q: Slot, s: Slot :: Waits(l, q, s, a, b) <==> Waits(k, q, s, a, b);
      OutstandingSame(k, l, a, b);
    }
  }

  /** Exec: with a free slot, memory, and a parent that has not exited. */
  lemma ExecuteKeeps(k: Kernel, parent: nat, hasMemory: bool)
    requires Inv(k) && k.nextPid < NO_PROC
    requires var p := Pid2Proc(k, parent); p != -1 && Alive(k, p) && p != TASK_SYS && p != TASK_IDLE
    ensures Inv(Execute(k, parent, hasMemory))
  {
    hide Registry, Queues, Family, Histories, Reaped, Scheduling, Spawn;
    if k.slots != [] && hasMemory {
      InvParts(k);
      var p := Pid2Proc(k, parent);
      SpawnSlots(k, p);
      SpawnRegistry(k, p);
      SpawnScheduling(k, p);
      SpawnQueues(k, p);
      SpawnFamily(k, p);
      SpawnHistories(k, p);
      ExecuteSpawns(k, parent);
    }
  }

  lemma ExecuteSpawns(k: Kernel, parent: nat)
    requires Registry(k) && k.slots != [] && Pid2Proc(k, parent) != -1
    requires MaySpawn(k, Pid2Proc(k, parent)) && k.slots[0] != Pid2Proc(k, parent)
    ensures Execute(k, parent, true) == Spawn(k, Pid2Proc(k, parent))
  {
    hide Registry, Live;
    var p := Pid2Proc(k, parent);
    var i, pid := k.slots[0], k.nextPid;
    SpawnRegistry(k, p);
    LookupFinds(Spawn(k, p), parent);
    LookupFinds(k, parent);
    SpawnSlots(k, p);
    var k1 := Put(k, i, k.procs[i].(pid := pid, status := READY, senders := [], children := [], parent := parent))
      .(slots := k.slots[1..], hash := k.hash[pid % 128 := k.hash[pid % 128] + [i]], nextPid := pid + 1);
    FindPidSame(k1.procs, Spawn(k, p).procs, k1.hash[parent % 128], parent);
    assert Pid2Proc(k1, parent) == Pid2Proc(Spawn(k, p), parent) == p;
  }
}
