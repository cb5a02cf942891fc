# Qiux: a verified model

Qiux is a small message-passing kernel for x86 with a file server for the Minix v1 file system. This project models
the parts of it that are hardest to get right and proves what they promise, in Dafny 4.11. `dafny verify dfyconfig.toml`
checks all of it.

## What is modelled

**Processes and messages** (`kernel/proc.c`). `Proc` gives the kernel's data as a value and one function for every entry
point: send, receive, interrupt, tick, exec, exit, wait. `KernelState.Machine` is the same code working in place on the
process table, the ready list, the free slots and the pid buckets; every method is proved to do exactly what its function
says. `ProcInv` states the invariant, `ProcSteps`, `ProcLife` and `ProcExit` prove that every entry point keeps it, and
`ProcRun`, `ProcMail`, `ProcInbox`, `ProcReport` and `ProcSched` draw the conclusions for all runs from `process_init` on:
what processes find in their message records against what others asked to be sent, who is told of an exit, and how long a
ready process waits. The next modules say it of the events of a run alone: `ProcIntr` which receive an interrupt ends,
`ProcOrder` who of several senders is served first, `ProcAnswer` and `ProcWaits` what each wait is answered with and by
which exit, `ProcChildren` which child is collected; `ProcPids` has who is who over a run. `ProcExample` and `ProcInherit`
have runs that end where something goes wrong. An entry point is one atomic step, except that any number of interrupts may
arrive between the two looks that `msg_receive` takes at its interrupt flag; `ProcIntr.FlatRun` turns these into events of
their own. The two priorities are stored but never consulted by the source, whose ready list is a plain queue; that
is what is modelled, though comments there speak of priorities.

**Physical pages** (`kernel/page.c`, `kernel/desc.c`). `PageAlloc` proves that the byte-wise search finds exactly what a
page-by-page first fit finds. `PageRuns` follows the blocks over whole runs, and `ProcMemory` adds the trip through the
segment descriptor into which exec packs a block and from which exit unpacks it. `ProcWhole` runs kernel and memory
together: exec succeeds if the pages were found, under a pid that no descriptor is kept for.

**Files** (`filesys/`). In layers: `Cache` is the write-back cache, proved to be no different from a plain device over any
sequence of operations. `FsLayout` and `FsBitmap` lay numbers, inode records and bitmaps out in zones. `FsFiles` says what
it means for all files of a device together to be in order; `FsWrite`, `FsBytes`, `FsUpdate`, `FsTrunc` and `FsCreate`
prove what growing, writing, reading, truncating, creating and removing a file do to it and to the rest of the device, as
functions that follow the code step by step; `FsPlace` says where on the device everything lies, byte by byte; `FsRun`
puts the changes together for all runs, `FsSimple` proves that a device is then no more than a map from numbers to files,
`FsIndirect` proves when a write or
a creation breaks the device, and `FsExample` has devices that are broken so. `InodeOps` is the code in place on an inode
and the cache, method by method equal to those functions. `InodeTable` and `OpenInodes` are the table of open inodes.
`FsSession` opens, reads, changes and closes any number of inodes in any order, working on the records in memory, and
`FileServer` is that down to the disk.

**Support** (`lib/`). `List` is the intrusive doubly linked list with two sentinels, over real links. `Stdlib` prints and
parses numbers. `Bits` has bytes as eight bits.

## Conventions

- Assertions in the source are active in its build, so what they demand of a caller is a precondition.
- A pointer into a fixed table is an index into it, and a list is the sequence of what it links; only `List` models the
  links themselves.
- A buffer that a caller passes in is a sequence of bytes going in or coming out.
- Words have the source's widths where that matters: 16-bit zone numbers and open counts, 32-bit sizes, offsets and
  descriptors, a signed 32-bit `int` in `atoi`, signed characters in `itoa`.
- The disk is 512-byte sectors, two to a zone, and its driver always succeeds.
- A file is in order when the zones its record refers to - seven direct ones, the indirect block, the entries of that -
  are a run of non-zero numbers followed by zeros, with at least one entry if there is an indirect block and at least one
  free entry at its end, and when its size is within the space that these give it. A device is in order when every file
  is, when every zone that is reached is a marked zone of the data area and is reached once only, and when the unused bits
  at the ends of both bitmaps are set.

## Where the code does not do what one would expect

- A new indirect block gets its number from the inode bitmap (`filesys/inode.c:162` and `filesys/inode.c:258-267`), while
  `tool/tool.c:132` takes it from the zone bitmap. The model does what the code does. `FsIndirect.WriteKeepsExactly` and
  `FsIndirect.CreateKeepsExactly` say exactly when the device stays in order: when no such block is needed. That holds
  whether the number is that of a zone below the data, behind it, of this file, of another, or of none. `FsExample` has
  both statements for every device that a run of changes can lead to, and a small device on which it happens.
- A read that runs past the end of a file inside a zone returns what is left of the zone; `FsBytes.ReadCountIsExact`.
- An exit, and a wait that finds a dead child, break the kernel's bookkeeping in exactly the cases that
  `ProcExit.ExitKeepsExactly` and `ProcExit.WaitKeepsExactly` name: somebody still waits in the queue of the process whose
  slot is given back, or the exiting process is itself in a queue. `ProcExample` has a run to each of them.
- A process can hear an interrupt that was meant for another, which had the same process table entry before it and left
  without hearing it: `process_execute` does not clear `has_intr_msg`, which only kernel/proc.c:99 does.
  `ProcInherit.OwedToProcess` says exactly when, and `ProcInherit.InterruptOfAnother` is a run in which it happens.
- The count of opens has 16 bits and starts again from zero; `InodeTable.OpenKeepsExactly` says when, and
  `InodeTable.CountCanOverflow` gets there.
- A file that is removed while somebody else has it open stays in the inode table; `FsSession.RemovedCoherentExactly`.
- The page count of a process survives its descriptor exactly below 2^20 pages; `Desc.UserSegmentPages`.
- The scratch buffer of `itoa` holds every 32-bit number exactly from base four on; `Stdlib.EveryNumberFits`.
- A bitmap whose first bit is clear gives that bit away and reports failure; `FsBitmap.TakeBitFails`.

## Model

| member | source | states |
|---|---|---|
| PageAlloc.FirstFitIsLeast | kernel/page.c:141-210 | first fit gives the least free run of `n` pages, and none exactly if there is none |
| PageAlloc.FallThroughFails | kernel/page.c:150-198 | for at most eight pages, once the one-byte and two-byte tests have failed everywhere, the general search finds nothing either |
| PageAlloc.PageMap.constructor | kernel/page.c:30-90 | after start the reserved ranges and the first megabyte are taken and every other page is free |
| PageAlloc.PageMap.LeftBit | kernel/page.c:92-103 | the number of free bits at the high end of a byte |
| PageAlloc.PageMap.RightBit | kernel/page.c:104-116 | the number of free bits at the low end of a byte |
| PageAlloc.PageMap.BitIn | kernel/page.c:117-131 | the lowest place in a byte where `n` free bits are, or -1 exactly if there is none |
| PageAlloc.PageMap.FindShort | kernel/page.c:144-169 | the search for at most eight pages stops at the first byte, or pair of bytes, where they fit, or hands over to the general search when there is none |
| PageAlloc.PageMap.FindLong | kernel/page.c:180-198 | the general search finds the first run that starts in a byte's free high end, or nothing exactly if there is no free run |
| PageAlloc.PageMap.Palloc | kernel/page.c:141-210 | returns the address that page-by-page first fit gives and marks exactly those pages, or returns 0 and changes nothing; the spare byte behind the bitmap stays as it is |
| PageAlloc.PageMap.Pfree | kernel/page.c:220-224 | exactly the pages of the block are free afterwards, every other page is as before |
| PageAlloc.PageMap.SetMultiple | kernel/page.c:226-242 | exactly the bits of `[start, end)` are set, every other bit is as before, also when the range ends on the last bit |
| PageAlloc.PageMap.ClearMultiple | kernel/page.c:244-260 | exactly the bits of `[start, end)` are clear, every other bit is as before |
| PageAlloc.ReserveIs | kernel/page.c:63-89 | the pages that are taken after the reserved ranges are those that were, and those that lie in one of the ranges |
| PageRuns.AllocateIs | kernel/page.c:141-210 | an allocation takes the lowest run of `n` free pages and no other, and its address is 4096 times the first one; where there is no run it changes nothing and gives 0 |
| PageRuns.ReleaseIs | kernel/page.c:220-260 | a release frees exactly the pages whose first bytes are among the 4096 times `n` from the address on |
| PageRuns.TakeKeepsAccounts | kernel/page.c:141-210 | an allocation gives out pages nobody had, and succeeds exactly if there is a free run that is long enough |
| PageRuns.RunKeepsAccounts | kernel/page.c:141-260 | over every run that frees only live blocks: live blocks are disjoint and clear of reserved pages, and the set bits are exactly those of both |
| PageRuns.FreeUndoesAlloc | kernel/page.c:220-260 | freeing what was allocated restores the bitmap |
| Desc.DescRoundTrip | kernel/desc.c:3-70 | base, 20-bit limit with its granularity, and attributes are unpacked as they were packed |
| Desc.GateRoundTrip | kernel/desc.c:27-85 | stub address, selector and attribute byte are unpacked as they were packed |
| Desc.DescLayout | kernel/desc.c:3-10 | each part of base, limit and attributes is in the bits where the processor looks for it |
| Desc.GateLayout | kernel/desc.c:27-32 | each part of a gate is in the bits where the processor looks for it |
| Desc.GateKinds | kernel/desc.c:34-53 | each kind of gate is present, has the type number that the processor knows it by (0xC, 0xF, 0xE, 5) and the privilege asked for |
| Desc.UserSegmentPages | kernel/proc.c:163-164 | exit reads back the base always, and the page count exactly if it is below 2^20; the segment is present, readable code for privilege 3, of 32 bits and in pages (attributes 0xc0fa) |
| ProcMemory.PackedBlock | kernel/proc.c:135-164 | the descriptor made by exec unpacks to the very block that was allocated |
| ProcMemory.ExecTakes | kernel/proc.c:135-164 | exec takes a block of pages for the new process, the one that its descriptor stands for |
| ProcMemory.ExitGivesBack | kernel/proc.c:312-314 | exit frees exactly the block of its process |
| ProcMemory.RunKeepsAccounts | kernel/proc.c:118-356 | over every run of exec and exit no two processes share a page, none has a reserved page, and the taken pages are exactly the reserved ones and those of live processes |
| ProcMemory.SegmentsApart | kernel/proc.c:118-356 | over every run of exec and exit each byte of a process's segment, as its descriptor says, is in a page that is taken and not reserved, and in no other process's segment |
| ProcMemory.ExitUndoesExec | kernel/proc.c:135-314 | a process that is started and exits leaves the page bitmap as it was |
| Desc.DescKinds | kernel/desc.c:3-25 | a segment keeps the type asked for, an LDT descriptor has type 2 and a TSS descriptor type 9; each is present and has the privilege asked for |
| Desc.UserDataSegment | kernel/proc.c:163-164 | the data segment of a process has exactly the base and the limit of its code segment, and is writable data for privilege 3 (attributes 0xc0f2) |
| ProcWhole.NeverRefused | kernel/proc.c:137-145 | exec gives memory to a pid that has none yet, and exit finds the descriptor of the one that exits |
| ProcWhole.RunIsBoth | kernel/proc.c:118-356 | every run of kernel and memory together is a run of each, so that all that is proved of either holds |
| ProcWhole.PagesOfTheLiving | kernel/proc.c:118-356 | over every run a page is taken exactly if it is reserved or belongs to one user process that has not exited, and to one only |
| ProcInv.LookupFinds | kernel/proc.c:43-53 | a pid is looked up to the one live process that has it, and to none exactly if none has it |
| ProcRun.InitialInv | kernel/proc.c:62-109 | the state that `process_init` leaves satisfies the invariant |
| ProcSteps.TickKeeps | kernel/proc.c:379-394 | a clock tick keeps the invariant |
| ProcSteps.SendKeeps | kernel/proc.c:403-437 | a send keeps the invariant, whoever it is for |
| ProcSteps.IntrSendKeeps | kernel/proc.c:531-549 | an interrupt keeps the invariant, whatever its receiver is doing; that it is heard is in `ProcIntr` |
| ProcSteps.ListenKeeps | kernel/proc.c:493-511 | waiting for a message keeps the invariant even when interrupts arrive between the two looks at the flag |
| ProcSteps.ReceiveKeeps | kernel/proc.c:446-522 | a receive keeps the invariant, with any interrupts in between |
| ProcSteps.BlockOfReady | kernel/proc.c:577-583 | blocking a process that is ready takes it off the ready list and changes nothing else, its status neither |
| ProcLife.ExecuteKeeps | kernel/proc.c:118-208 | exec keeps the invariant, whether it succeeds or not |
| ProcExit.ExitKeepsExactly | kernel/proc.c:301-356 | exit keeps the invariant if and only if the process is in no queue and, when its slot is given back at once, nobody is in its own |
| ProcExit.ExitOfStuckSender | kernel/proc.c:301-353 | a process that exits while in a queue leaves a queue entry that sends nothing |
| ProcExit.ExitStrands | kernel/proc.c:325-353 | a slot given back with senders in its queue leaves processes that are sending but in no queue |
| ProcExit.WaitKeepsExactly | kernel/proc.c:217-292 | wait keeps the invariant if and only if nobody is in the queue of the dead child that it finds |
| ProcRun.StepKeeps | kernel/proc.c:62-590 | every enabled step keeps the invariant |
| ProcRun.RunKeepsInv | kernel/proc.c:62-590 | the invariant holds in every reachable state |
| ProcRun.RunSchedules | kernel/proc.c:379-394 | over every run exactly one process runs and is the current one, the ready list has exactly the ready processes, once each, nobody blocked is on it, and the panic is never reached |
| ProcRun.RunLifecycle | kernel/proc.c:118-356 | over every run a slot is free or in the one bucket of its pid, its pid leads back to it, an exit status is handed over at most once, and nobody waits for a child that is already dead |
| ProcInbox.Delivery | kernel/proc.c:403-522 | over every run the messages from `a` that `b` finds in its record are, unaltered and in order, those that `a` asked to be sent to `b`, but for at most one that waits, and all carry the true sender |
| ProcInbox.StepPosts | kernel/proc.c:403-437 | every step puts on record as sent exactly what its event asks to be sent: a message with its sender's name, an exit status, or -1 for a wait that is refused, as the first parameter of a message of the system task |
| ProcInbox.StepFinds | kernel/proc.c:403-522 | every step puts on record as received exactly what a process that stops receiving finds in its message record |
| ProcMail.LogsMatch | kernel/proc.c:414-518 | over every run what is on record as received by `b` from `a` is a prefix of what is on record as sent, at most one message short |
| ProcMail.SendingIsQueued | kernel/proc.c:425-436 | over every run a process is sending if and only if it is in a queue, then in one queue only, and once |
| ProcMail.NoMissedWakeUp | kernel/proc.c:446-549 | over every run a process that receives has nobody in its queue that it would accept, and no interrupt pending that it waits for; that a pending interrupt is one that came, and one that came is pending or heard, is in `ProcIntr` |
| ProcMail.ReceiveResult | kernel/proc.c:446-522 | a receive ends with an error exactly for an unknown sender, with a message of a permitted source that goes on the record, or with waiting for one; which of several it takes is in `ProcOrder` and `ProcIntr` |
| ProcMail.StepRespectsMail | kernel/proc.c:403-549 | no step changes the message record of a process in a queue, or of one that goes on receiving; a process stops receiving only with an interrupt, or with a message from whom it asked for that is the very one put on record as received by it |
| ProcReport.StepReported | kernel/proc.c:217-356 | no step makes up or changes an exit status or a parent, and one that hands a status over sends it, as the first parameter, to the process that started the one that exited |
| ProcReport.ExitStatusArrives | kernel/proc.c:217-356 | over every run each exit status handed over is the one with which that process exited, it goes to the process whose exec started that one, and the system task has sent it there as the first parameter |
| ProcIntr.FlatRun | kernel/proc.c:446-511 | every run ends as one in which the interrupts that come during a receive are events of their own before it |
| ProcIntr.InterruptWakes | kernel/proc.c:537-543 | an interrupt for a process that waits for one, or for anything, ends its receive with source 0xfffffffe and type 1 and with the other parameters unchanged, makes it ready unless it is in a wait, and changes nothing else |
| ProcIntr.StepPending | kernel/proc.c:446-549 | after any step an interrupt is pending for a process exactly if one has come in this step or was pending, and the process has not heard it in this step |
| ProcIntr.OwedIsPending | kernel/proc.c:446-549 | over every run an interrupt is pending exactly if one has come since the last receive of the process that ended with one |
| ProcIntr.ReceiveTakesOwed | kernel/proc.c:459-466 | over every run a receive from anybody or from interrupts ends at once with an interrupt if and only if one is owed, whoever is in the queue, and changes nothing but the process's own message record |
| ProcIntr.InterruptIsHeard | kernel/proc.c:531-549 | over every run an interrupt for a process that has heard none since ends the next receive of it from anybody or from interrupts, at once |
| ProcIntr.HeardHasCome | kernel/proc.c:446-549 | over every run a receive ends with an interrupt only if one has come for this process table entry, and none has been heard there since |
| ProcPids.SamePlace | kernel/proc.c:43-53 | over every run a process that is there twice is in the same process table entry both times |
| ProcInherit.OwedToProcess | kernel/proc.c:140-158 | over every run an interrupt is owed to a user process exactly if one was sent to it since it was started and it has heard none since, or the entry was owed one when it was started and it has heard none |
| ProcInherit.OwedToTask | kernel/proc.c:99 | an interrupt is owed to one of the six tasks exactly if one was sent to it and it has heard none since |
| ProcInherit.InterruptOfAnother | kernel/proc.c:140-158 | a run leads to a process that hears an interrupt though none was ever sent to it |
| ProcOrder.QueuesAreOrdered | kernel/proc.c:433-434 | over every run the processes in a queue are there in the order of the events with which they sent |
| ProcOrder.AwaitsMeans | kernel/proc.c:403-522 | over every run a message from `a` has been sent to `b` and not been found by `b` exactly if `a` is in the queue of `b` |
| ProcOrder.FirstComeFirstServed | kernel/proc.c:470-473 | over every run, when a receive from anybody ends with a message that has waited, its sender is, of all whose messages to the receiver wait, the one that sent first |
| ProcAnswer.FindsFirst | kernel/proc.c:230-262 | a wait finds the first dead child on the list that it is for, and none exactly if there is none |
| ProcAnswer.WaitAnswers | kernel/proc.c:217-292 | a wait with a dead child that it is for hands over the first one's status; one with a living child that it is for sleeps; any other, or one by a process that sleeps in a wait, is answered with -1 and changes nobody's wait |
| ProcAnswer.ExitAsked | kernel/proc.c:332-353 | an exit of a child that its parent waits for, or of any child when the parent waits for any, hands its status over and ends the wait |
| ProcAnswer.ExitUnasked | kernel/proc.c:301-331 | any other exit hands nothing over and sends nothing, leaves every other process as it is but for orphans' parents, and takes nobody else off the ready list |
| ProcAnswer.StepHands | kernel/proc.c:217-356 | a step that hands a status over does so to a wait that is for that child, tells the parent the status in the first parameter, and the parent then sleeps in no wait |
| ProcWaits.EveryStatusAnswersAWait | kernel/proc.c:217-356 | over every run each status handed over was so by one event, and answers a wait of the parent for that child or for any: one that found the child dead, or one that the parent has slept in since, up to that exit |
| ProcWaits.NothingBetween | kernel/proc.c:217-356 | between a wait and the status that answers it no other child that the wait is for exits, no status goes to the same parent, and each other wait of that parent is refused |
| ProcWaits.OneStatusOneWait | kernel/proc.c:217-356 | over every run a wait is answered with one status only, and a status answers one wait only |
| ProcWaits.WaitLasts | kernel/proc.c:264-282 | over every run a process that sleeps in a wait goes on sleeping in it until a child that it is for exits, or the process itself |
| ProcWaits.StatusIsSent | kernel/proc.c:286-288 | over every run each status handed over is the first parameter of a letter that the system task has sent to the parent |
| ProcChildren.ChildrenInOrder | kernel/proc.c:162 | over every run the children on a list have rising pids |
| ProcChildren.FirstStartedFirst | kernel/proc.c:233-243 | over every run a wait for any child collects, of all children that are dead, the one whose exec was the first |
| ProcSched.StepAdvances | kernel/proc.c:379-590 | no step moves a ready process back, and each that picks the next process, by a tick or because the current one blocks, moves it forward or lets it run |
| ProcSched.BoundedWaiting | kernel/proc.c:379-590 | a process with `n` others ahead of it runs before the next process has been picked `n + 1` times, unless its own exit, or a wait that it sleeps in, takes it off the list |
| ProcExample.ExitCanFail | kernel/proc.c:325-331 | a run leads to an orphan that exits with somebody in its queue, and that breaks the invariant |
| ProcExample.ExitOfSenderFails | kernel/proc.c:301-356 | a run leads to a process that exits while in a queue, and that breaks the invariant |
| ProcExample.WaitCanFail | kernel/proc.c:217-292 | a run leads to a wait that finds a dead child with somebody in its queue, and that breaks the invariant |
| KernelState.Machine.constructor | kernel/proc.c:62-109 | leaves exactly the initial state |
| KernelState.Machine.Pid2ProcAt | kernel/proc.c:43-53 | the slot of the process with the pid, or -1, as the specification finds it |
| KernelState.Machine.Reschedule | kernel/proc.c:379-394 | the new state is that of the specified schedule |
| KernelState.Machine.Release | kernel/proc.c:559-567 | the new state is that of the specified unblock: ready only when no reason to be blocked is left |
| KernelState.Machine.Stop | kernel/proc.c:577-590 | the new state is that of the specified block |
| KernelState.Machine.ClockTick | kernel/proc.c:379-394 | a tick is the specified step and keeps the invariant |
| KernelState.Machine.MsgSend | kernel/proc.c:403-437 | a send is the specified step, with its return value |
| KernelState.Machine.Interrupt | kernel/proc.c:531-549 | an interrupt is the specified step; what that is worth is in `ProcIntr` |
| KernelState.Machine.ChooseSender | kernel/proc.c:467-490 | the queued sender that the specification picks, or -1: for a receive from anybody the first who came, by `ProcOrder.FirstComeFirstServed` |
| KernelState.Machine.MsgReceive | kernel/proc.c:446-522 | a receive is the specified step, with its return value; which interrupt or message it takes is in `ProcIntr` and `ProcOrder` |
| KernelState.Machine.ProcessExecute | kernel/proc.c:118-208 | exec is the specified step and returns the new pid or -1 |
| KernelState.Machine.Kill | kernel/proc.c:303-323 | the first part of exit is the specified death: off the ready list, dead, children orphaned |
| KernelState.Machine.ProcessExit | kernel/proc.c:301-356 | exit is the specified step, whatever is in the queues; the machine stays in order if and only if `MayExit` held; who is told what is in `ProcAnswer` |
| KernelState.Machine.TellParent | kernel/proc.c:325-354 | the second part of exit is as specified: reclaim, wake and reply, or leave a dead child behind; which of these is in `ProcAnswer.ExitAsked` and `ProcAnswer.ExitUnasked` |
| KernelState.Machine.SearchDead | kernel/proc.c:233-243 | the first dead process on a list, or -1 |
| KernelState.Machine.SearchPid | kernel/proc.c:248-257 | the first process on a list with the pid, or -1 |
| KernelState.Machine.ProcessWait | kernel/proc.c:217-292 | wait is the specified step, whatever is in the queues; the machine stays in order if and only if `MayWait` held; the answers are in `ProcAnswer.WaitAnswers` |
| Cache.SpliceBytes | filesys/cache.c:67-76 | bytes written into a zone are read back from there, and every other byte is as before |
| Cache.ReadsAre | filesys/cache.c:50-58 | a read of a device without a cache gives the bytes from the offset on, up to the end of the zone |
| Cache.WritesAre | filesys/cache.c:67-76 | a write to it changes exactly the bytes from the offset on, up to the end of the zone |
| Cache.Disk.WriteZone | filesys/cache.c:85-101 | two sectors written change one zone and no other |
| Cache.ZoneCache.constructor | filesys/cache.c:34-41 | an empty cache shows the disk |
| Cache.ZoneCache.Load | filesys/cache.c:104-133 | loading a zone, with whatever is evicted, leaves every zone looking as it did, and puts this one into slot `zone % 128` |
| Cache.ZoneCache.Read | filesys/cache.c:50-58 | a read gives the bytes of the zone and changes nothing that can be seen |
| Cache.ZoneCache.Write | filesys/cache.c:67-76 | a write changes exactly the bytes within the zone and returns how many |
| Cache.ZoneCache.Sync | filesys/cache.c:85-101 | afterwards no slot is dirty and the disk holds what the cache showed |
| Cache.ZoneCache.Replay | filesys/cache.c:34-133 | any sequence of reads, writes and syncs gives what a device without a cache gives |
| FsLayout.InodeRoundTrip | filesys/inode.h:4-19 | an inode record that is written and read back is the same |
| FsLayout.EntryOfSplice | filesys/inode.c:172 | writing one entry of an indirect block changes this entry only |
| FsLayout.SetMapBitOnly | filesys/bitmap.c:36-48 | setting or clearing a bit changes this bit and nothing else on the device |
| FsLayout.SetThenClear | filesys/bitmap.c:21-48 | setting a clear bit and clearing it again restores the device |
| FsBitmap.TakeBitFails | filesys/bitmap.c:84-108 | taking a bit gives -1 if and only if all are set or bit 0 is clear |
| FsBitmap.TakeIs | filesys/bitmap.c:21-108 | the zone or inode taken is that of the lowest clear bit, zones counted from `fst_data_zone` on for bit 1 and inodes from 1 on, and -1 exactly if the map is full or its unused bit is clear |
| FsBitmap.LowestClear | filesys/bitmap.c:93-101 | the least clear bit of a byte, and a mask that sets it alone |
| FsBitmap.AllocBit | filesys/bitmap.c:84-108 | sets the least clear bit and no other, and returns its number less one, or -1 |
| FsBitmap.AllocZmapBit | filesys/bitmap.c:21-26 | takes the first free zone and returns its number |
| FsBitmap.FreeZmapBit | filesys/bitmap.c:36-48 | clears exactly the bit of this zone |
| FsBitmap.AllocImapBit | filesys/bitmap.c:57-62 | takes the first free inode and returns its number |
| FsBitmap.FreeImapBit | filesys/bitmap.c:72-82 | clears exactly the bit of this inode |
| FsBitmap.GiveUndoesTakeZone | filesys/bitmap.c:21-48 | freeing the zone that was allocated restores the device |
| FsBitmap.GiveUndoesTakeInode | filesys/bitmap.c:57-82 | freeing the inode that was allocated restores the device |
| FsFiles.SyncedRecords | filesys/inode.c:315-321 | writing the record of one inode leaves that of every other as it was; where each lies is in `FsPlace` |
| FsPlace.RecordIs | filesys/inode.h:4-19 | the fields of inode `i` are the little-endian numbers at their places in the 32 bytes from byte `32 * (i - 1)` of the inode zones on |
| FsPlace.SyncedPlace | filesys/inode.c:315-321 | writing a record back changes these 32 bytes and no other byte of any device |
| FsPlace.LiveIs | filesys/bitmap.c:57-82 | inode `i` is in use exactly if bit `i % 8`, counted by value, of byte `i / 8` of the inode bitmap's zones is set |
| FsPlace.MarkIs | filesys/bitmap.c:21-48 | the same for data zones, of which the first has bit 1 |
| FsPlace.DataIs | filesys/inode.c:126-138 | byte `x` of a file is in the zone whose number is the record's, or the little-endian number in the indirect block, for `x / 1024`, at `x % 1024` |
| FsPlace.WrittenIsThere | filesys/inode.c:153-200 | after a write those places hold the bytes written, and everywhere else in the file what was there |
| FsFiles.AllocatedIsDataCount | filesys/inode.c:330-347 | the zones counted are all the data zones of a file in order |
| FsFiles.KeepsSound | filesys/inode.c:153-306 | a step on one file that keeps its own zones in order keeps every zone marked and reached once only |
| FsFiles.KeepsStray | filesys/inode.c:153-306 | such a step loses no zone and frees none that is in use |
| FsWrite.SyncKeeps | filesys/inode.c:315-321 | a record that is written back concerns no other file |
| FsWrite.TakeZoneShape | filesys/bitmap.c:21-26 | a zone that is taken was free, has a 16-bit number in the data area, and is the only one whose mark changes |
| FsWrite.GrowOneChain | filesys/inode.c:163-174 | the new zone comes at the end of the file, direct or as an entry, and no other zone of it changes |
| FsWrite.GrowOneKeeps | filesys/inode.c:163-174 | one zone more keeps the device in order |
| FsWrite.GrowKeeps | filesys/inode.c:163-174 | growing to any size keeps the device in order, keeps the old zones and their data, takes only zones that were free, and exactly as many as needed |
| FsBytes.LoadIs | filesys/inode.c:116-144 | a read gives the file's bytes from the offset on, across direct and indirect zones, as many as the count below says |
| FsBytes.ReadCountIsExact | filesys/inode.c:119-142 | the number of bytes read is what was asked for up to the end of the file if and only if the read does not pass an end inside a zone |
| FsBytes.StoreIs | filesys/inode.c:182-198 | the bytes written are where they belong and every other byte of the file is as before |
| FsBytes.StoreKeeps | filesys/inode.c:182-198 | writing data changes no record, no bitmap and no other file |
| FsUpdate.WriteKeeps | filesys/inode.c:153-200 | a write keeps the device in order, writes the record back, sets the size to the larger of the old one and the end of the write, and changes no other file |
| FsUpdate.WriteZones | filesys/inode.c:157-175 | the file keeps its zones and gains as many as are missing, all free before, and these are the only marks that change |
| FsUpdate.WriteBytes | filesys/inode.c:153-200 | after a write the bytes in its range are those written and all others of the file are as before |
| FsUpdate.WriteThenRead | filesys/inode.c:116-200 | reading what was written gives exactly what was written |
| FsUpdate.SameFileReads | filesys/inode.c:116-144 | a file that a step leaves alone reads as before, for every offset and size |
| FsTrunc.DropEntriesIs | filesys/inode.c:218-225 | exactly the zones of the dropped entries are freed, these entries are zero, the others as before |
| FsTrunc.DropDirectIs | filesys/inode.c:226-230 | the same for the zones in the record |
| FsTrunc.ShortenIs | filesys/inode.c:214-230 | the file keeps exactly its first data zones, and exactly the others are freed |
| FsTrunc.TruncKeeps | filesys/inode.c:209-233 | a truncation keeps the device in order, sets the size and writes it back, changes no other file, and does nothing for an offset beyond the space of the file |
| FsTrunc.TruncFrees | filesys/inode.c:209-233 | the zones freed are precisely those dropped, the indirect block if and only if no entry remains, and the space left is the offset rounded up to whole zones |
| FsTrunc.TruncBytes | filesys/inode.c:209-233 | the bytes in the zones that are kept are as before |
| FsCreate.DoomedIsChain | filesys/inode.c:280-303 | the zones that a removal frees are all the zones of the file and no others |
| FsCreate.RemoveFrees | filesys/inode.c:280-306 | exactly the zones of the file and its inode are freed; no other file changes |
| FsCreate.RemoveKeeps | filesys/inode.c:280-306 | a removal keeps the device in order |
| FsCreate.RemoveKeepsStray | filesys/inode.c:280-306 | a removal loses no zone and frees none in use |
| FsCreate.CreateKeeps | filesys/inode.c:242-271 | a new file of up to six zones has an inode that was free, zones that were free, the mode asked for and one link; the device is in order, its record is written, no other file changes and no zone is lost |
| FsCreate.CreateFails | filesys/inode.c:242-248 | no file is made, and -1 returned, exactly if no inode can be taken; a full device then stays as it is |
| FsRun.StepKeepsFiles | filesys/inode.c:153-306 | every create, write, trunc and remove keeps the device in order, loses and doubly frees no zone, and leaves every other file and its data alone |
| FsRun.RunKeepsFiles | filesys/inode.c:153-306 | the same of every run |
| FsRun.RunLeavesAlone | filesys/inode.c:153-306 | a file that no change of a run is about keeps its record, its zones and their contents |
| FsRun.WrittenLasts | filesys/inode.c:116-306 | what is written to a file is what is read from it, whatever happens to other files in between |
| FsRun.FormattedIsSound | filesys/inode.c:64-306 | an empty device, with only the unused bits set, is in order |
| FsRun.BitmapIsExact | filesys/inode.c:153-306 | after any run from an empty device on, the zones marked in the bitmap are exactly those that some file reaches |
| FsSimple.ApplyDoes | filesys/inode.c:153-306 | every create, write, trunc and remove does to the files, as modes and bytes by inode number, just what the caller asks for: a new file has the lowest free number and no bytes, a write replaces the bytes in its range, a truncation keeps those before the new end |
| FsSimple.FilesAreSimple | filesys/inode.c:153-306 | after any run of changes that leave no gaps, the files of the device are what the same changes make of a map from numbers to modes and bytes |
| FsSimple.ReadsFile | filesys/inode.c:116-144 | a read inside a file gives the bytes that the map has there |
| FsSimple.NoFiles | filesys/inode.c:64-306 | an empty device has no files |
| FsIndirect.GrowAnyway | filesys/inode.c:160-175 | whatever zone the indirect block is, growing looks up the old zones as before and gives the new places zones that were free |
| FsIndirect.WriteKeepsExactly | filesys/inode.c:153-200 | a write leaves the device in order if and only if it needs no new indirect block, wherever the number of that block lies, unless it is a leaked zone or one that the write itself takes |
| FsIndirect.CreateKeepsExactly | filesys/inode.c:242-271 | a new file is in order if and only if it has at most six zones, wherever the second inode number lies, unless that is a leaked zone or zero in 16 bits |
| FsExample.RunWriteExactly | filesys/inode.c:153-200 | on every device that a run of changes leads to from an empty one, a write leaves it in order if and only if it needs no new indirect block, unless that block's number is a zone that the write itself takes |
| FsExample.RunCreateExactly | filesys/inode.c:242-271 | on every such device a new file is in order if and only if it has at most six zones, unless the second number is zero in 16 bits |
| FsExample.WriteCanFail | filesys/inode.c:160-166 | a write beyond the seventh zone of the first file of an empty device breaks the device |
| FsExample.CreateCanFail | filesys/inode.c:257-268 | so does a first file that is made with seven zones or more |
| FsExample.SmallCanFail | filesys/inode.c:153-271 | both happen on a device of ten zones before the data |
| InodeOps.GetAllocatedSize | filesys/inode.c:330-347 | the size of all zones counted, for every record whose count ends |
| InodeOps.InodeRead | filesys/inode.c:116-144 | the loop gives the specified bytes, for every record |
| InodeOps.InodeSync | filesys/inode.c:315-321 | the device afterwards has this record in its place, which is that of `FsPlace.SyncedPlace` |
| InodeOps.MakeRoom | filesys/inode.c:156-175 | device and inode are those of the specified extension |
| InodeOps.StoreBytes | filesys/inode.c:182-199 | the device is that of the specified store, and the count is complete |
| InodeOps.InodeWrite | filesys/inode.c:153-200 | device and inode are those of the specified write, with or without a new indirect block |
| InodeOps.InodeTrunc | filesys/inode.c:209-233 | device and inode are those of the specified truncation |
| InodeOps.InodeRemove | filesys/inode.c:280-306 | the device is that of the specified removal |
| InodeOps.InodeCreate | filesys/inode.c:242-271 | the device and the number returned are those of the specified creation, for any number of zones |
| InodeTable.FindIs | filesys/inode.c:25-35 | an entry is found if and only if it is open for this inode |
| InodeTable.OpenFails | filesys/inode.c:64-72 | opening fails if and only if the inode is not open and all entries are in use, and then changes nothing |
| InodeTable.OpenNew | filesys/inode.c:66-88 | an inode that is not open takes a free entry, counted once |
| InodeTable.OpenAgain | filesys/inode.c:73-76 | an inode that is open is counted once more in the same entry |
| InodeTable.OpenKeepsExactly | filesys/inode.c:64-89 | a successful open is counted and leaves the table in order if and only if the inode was open less than 65535 times |
| InodeTable.CloseKeeps | filesys/inode.c:98-107 | a close takes back one open, and the entry is recycled if and only if it was the last |
| InodeTable.UseKeeps | filesys/inode.c:64-107 | every use keeps each entry in exactly one place, no inode in two, and the counts right; an inode that stays open stays in its entry |
| InodeTable.CountCanOverflow | filesys/inode.c:73-76 | 65535 opens of one inode lead to a table where one more succeeds and is not counted |
| InodeTable.RunsKeepTable | filesys/inode.c:44-107 | the same over every run from `inode_init` on |
| InodeTable.FailsAt128 | filesys/inode.c:44-72 | over every run from `inode_init` on an open fails if and only if 128 other inodes are open |
| OpenInodes.Inodes.constructor | filesys/inode.c:44-55 | 128 different entries, all free |
| OpenInodes.Inodes.Ino2Inode | filesys/inode.c:25-35 | the entry that the specification finds, or -1 |
| OpenInodes.Inodes.InodeOpen | filesys/inode.c:64-89 | the table and the result are those specified; a newly opened inode has the record of the device, by `FsPlace.RecordIs` the numbers at its place there, every other keeps its own |
| OpenInodes.Inodes.InodeClose | filesys/inode.c:98-107 | the table is that specified, no record changes, and after the last close the disk holds everything |
| FsSession.FirstSession | filesys/inode.c:44-55 | with the table as `inode_init` leaves it and an empty device, memory and device agree |
| FsSession.ServedKeeps | filesys/inode.c:64-306 | every open, close, read and change, whatever else is open, keeps every record in memory as on the device and does to the device what it would do without records in memory |
| FsSession.SessionIsRun | filesys/inode.c:64-306 | the same over any interleaving: the device becomes what the changes alone make of it |
| FsSession.SessionIsSimple | filesys/inode.c:64-306 | over any interleaving of opens, closes, reads and changes without gaps the files become what the changes make of the map of `FsSimple` |
| FsSession.AnswerIsFile | filesys/inode.c:116-144 | a read inside a file through any open inode gives the bytes of that map |
| FsSession.RemovedCoherentExactly | filesys/inode.c:280-306 | a file that is removed and closed leaves memory as on the device if and only if nobody else has it open |
| FsSession.WrittenIsShared | filesys/inode.c:64-200 | what is written through one open is what any other open of the file reads, until somebody changes the file |
| FileServer.Serve | filesys/inode.c:64-306 | one request with any other inodes open: table, records, cache and disk are in the specified state, a read gives the specified bytes, and after a last close the disk holds everything |
| FileServer.ServeAll | filesys/inode.c:64-306 | any sequence of requests, with several inodes open at once, leaves the device that its changes make, on the disk itself after a last close |
| List.Places | lib/list.c:5-22 | an element is a head, a tail or an interior one exactly by its place |
| List.Insert | lib/list.c:80-91 | the element comes before the given one, and nothing else moves |
| List.Splice | lib/list.c:93-112 | the run moves before the given element, in the same list or from one to another, an empty run and a move to its own end included |
| List.SpliceKeepsElements | lib/list.c:93-112 | a splice neither loses nor duplicates an element |
| List.Remove | lib/list.c:138-144 | the element is gone, the one after it is returned |
| List.List.constructor | lib/list.c:23-30 | an empty list |
| List.List.PushFront | lib/list.c:114-124 | the element comes first |
| List.List.PushBack | lib/list.c:126-136 | the element comes last |
| List.List.PopBack | lib/list.c:146-154 | returns the last element and leaves the rest |
| List.List.PopFront | lib/list.c:156-164 | returns the first element and leaves the rest |
| List.List.Ends | lib/list.c:166-176 | the first and the last element |
| List.List.Size | lib/list.c:178-185 | the walk ends, at the number of elements |
| List.List.Empty | lib/list.c:187-193 | true if and only if there is no element |
| Stdlib.DigitsAre | lib/stdlib.c:19-20 | digit `t` is printed as the character at place `t` of `0123456789ABCDEFGHIJKLMNOPQRSTUVWXYZ`, and that character, or its small letter, is read as `t` |
| Stdlib.NumeralSpells | lib/stdlib.c:15-23 | the digits printed are characters of this text, each worth less than the base, no zero in front, and their weighted sum is the number |
| Stdlib.TextSpells | lib/stdlib.c:5-30 | the same of all that is printed, zero being `0` |
| Stdlib.ParseWeighs | lib/stdlib.c:32-42 | what is read from characters of this text, capital or small, is their weighted sum in the base |
| Stdlib.NumeralLength | lib/stdlib.c:16-23 | a number has at most `k` digits if and only if it is below the `k`-th power of the base |
| Stdlib.EveryNumberFits | lib/stdlib.c:14-23 | every 32-bit number fits the scratch buffer if and only if the base is at least four |
| Stdlib.RoundTrip | lib/stdlib.c:5-42 | parsing what was printed, in bases 2 to 36, gives the number in an `int`, which is the number itself if and only if it is below 2^31; which characters are printed is in `Stdlib.TextSpells` |
| Stdlib.RoundTripBases | lib/stdlib.c:5-42 | all numbers below 2^31 come back if and only if the base is at most 36 |
| Stdlib.Itoa | lib/stdlib.c:5-30 | the buffer holds the numeral and a terminator, and the rest of it is untouched; the numeral is that of `Stdlib.TextSpells` |
| Stdlib.TakeDigits | lib/stdlib.c:15-23 | the scratch buffer holds the numeral back to front, in the characters of `Stdlib.NumeralSpells` |
| Stdlib.Atoi | lib/stdlib.c:32-42 | the number that the text up to its terminator stands for, in an `int`: by `Stdlib.ParseWeighs` the weighted sum of its digits |
| Stdlib.ThereAndBack | lib/stdlib.c:5-42 | the two functions one after the other give the number back, for bases 4 to 36 |

## Left out

- Assembly stubs, boot code, register frames, port I/O, and the programming of interrupt controller, screen, keyboard and clock: hardware.
- device/ide.c: replaced by an abstract disk; transfers do not fail.
- Reading the memory map in `page_init`: the reserved ranges are given, and lie inside the bitmap.
- ELF loading, argument copying, terminals and open files in `process_execute`: the number of pages is a parameter.
- The place of a process's LDT in the GDT, and privileges: not needed for memory or lifecycle.
- Messages the system task exchanges to get its work: exec, exit and wait are steps it takes while it runs, on behalf of a process that has not exited.
- Pids do not reach the three reserved values; the source does not guard against it.
- A send or receive by a process to or from itself, and by the idle task: the idle task only spins, and a process that waits for itself never goes on.
- What a reply to exit and wait carries besides its first parameter: left over on the stack, and zero here.
- Deadlock of processes that send to each other, and dead children of a parent that has gone: the code gives no guarantee.
- Files whose indirect block has no free entry: the count of zones does not end for them.
- A write or a creation for which zones run out: the failure is not checked for by the source.
- Offsets and sizes whose sum does not fit 32 bits.
- A creation that finds no inode for its indirect block: the source then writes outside the cache.
- The result of `inode_trunc`, which the source leaves unset on its main path.
- Buffers that overlap what is being read or written.
- What becomes of an inode that was removed while somebody else had it open, after that.
- Directories and paths, in filesys/inode.c from line 356 on and in filesys/filesys.c: C strings dominate there.
- lib/string.c, lib/stdio.c, the terminal, the shell, user programs and tool/: simple, or a copy of what is here.
- List.List.Size: does not model that the count has 32 bits, because a list that long does not fit memory.
- FsIndirect.WriteKeepsExactly: says nothing of a number that is that of a free zone which the same write takes for data, because the data then overwrites the indirect block with whatever the caller wrote; nor of a zone that is marked though no file reaches it, of which there is none after any run.
- FsIndirect.CreateKeepsExactly: says nothing of a second inode number that is zero in 16 bits, nor of leaked zones, of which there are none after any run.
