# A verified model of the kernel core

This project models the core of a small message-passing kernel for one ARM processor, and the
parts of its user-space drivers that the core's promises are about, and proves what that core is
for:

* **Memory.** Page frames come from a slab allocator whose free and live blocks always partition
  what boot left free. A two-level page table implements a flat map. Fork shares pages
  copy-on-write, and over every history of allocations, forks, stores, faults and exits each
  process sees exactly what it would see if every fork had copied every page, the reference count of
  every frame is the number of its mappings, and device pages are those of the process and its
  forebears. Each operation has exactly the outcome that the free frames, counted one by one, allow.
* **Scheduling.** Run queues, the Big Kernel Lock, rendez condition variables and interrupts: in
  every run each process is in exactly one place, whoever waits for the lock waits for a process
  that can run, and the lock is handed on first come, first served, up to the one kind of step that
  can break this, an interrupt having come between the halves of an entry to or an exit from the
  kernel. A hashed timing wheel implements a set of timers, and over every order of wakeup, expiry
  and return a timed sleeper is told of a timeout exactly if its timer went off before it ran, and
  `sys_sleep` returns exactly when its time is up, whatever wakes the process before.
* **Messages.** Each synchronous message is in exactly one place and its sender gets the status
  given to that very message. Knotes are on a pending list exactly when enabled and pending. On the
  scheduler's own rendez lists, however processes interleave, no server that drains its ports sleeps
  while a port it listens to has a message, no client while it has a reply, and nobody for a kqueue
  that is free, unless another is on the way to it.
* **Processes.** Over every run of fork, exit and waitpid the parent links form a tree in which
  every zombie is listed by a living parent, waitpid tells the status of the child's own exit, and
  nobody sleeps who waits for one that is dead.
* **Bytes.** Multi-part messages read and write as one string of bytes, and through them the SD
  card driver is a byte array: a read returns what was written, and what requests that are too short
  or run past the card do is exact to the byte.

Imperative parts of the source are classes with the source's fields and methods with its loops.
Their invariants are predicates on plain values, kept by small lemmas about each move. Methods
called `Run` execute an arbitrary list of steps, each taken exactly if the process it belongs to can
take it, so that what they ensure holds of every interleaving.

| file | models |
|---|---|
| `Core.dfy`, `Lists.dfy` | shared types; lists without repetition |
| `Frames.dfy`, `FrameHistory.dfy` | `kernel/vm/page.c`, the boot lists of `init_vm.c` |
| `Segments.dfy` | `kernel/vm/segment.c` |
| `Pmap.dfy` | `kernel/boards/raspberry_pi_4/pmap.c` |
| `Cow.dfy`, `Vm.dfy`, `VmHistory.dfy` | `kernel/vm/vm.c`, `as.c`, `pagefault.c` |
| `Placement.dfy`, `Bkl.dfy`, `Sched.dfy`, `SchedRuns.dfy` | `kernel/proc/sched.c`, the interrupt wrapper, the scheduling half of fork and exit |
| `Wheel.dfy`, `TimedSleep.dfy`, `Snooze.dfy` | `kernel/proc/timer.c`, timed sleeps of `sched.c` |
| `Messages.dfy`, `KEvents.dfy`, `Ipc.dfy`, `IpcRuns.dfy` | `kernel/fs/msg.c`, `kernel/fs/kqueue.c` |
| `ProcTree.dfy` | `kernel/proc/proc.c` |
| `Iov.dfy`, `SdCard.dfy` | the byte copies of `msg.c`; `system/drivers/sdcard/main.c` |

## Where the code is not what its comments say

* `segment_create` adds address and size in 32 bits. A request whose end passes 4 gigabytes can
  succeed, and then the table is out of order; `Create` says exactly when. `sys_virtualalloc` then
  returns the address without having mapped a page.
* `segment_free` leaves the table out of order whatever it is asked to free. `Free` gives the table
  it leaves, says that it stays a partition exactly if the address is null, and says exactly when the
  words it writes all lie in the table. `segment_splice` doubles a word instead of splitting a
  segment, and `segment_coalesce` counts the closing word.
* When memory runs out half-way, both allocation calls look up the pages to take back with a null
  pointer for the flags, through which `pmap_extract` writes. `CleanUp` says exactly when the kernel
  gets past that, and that the segment table is then out of order.
* `pmap_enter` of a page that is already mapped frees the page table, and every mapping of that
  megabyte goes with it. Allocation, fork and faults never do this.
* `sys_virtualfree` unmaps pages without giving up their references. `VirtualFreePages` says how many
  are lost for each frame; no other operation loses any.
* When memory runs out while a copy-on-write page is being made writable, the page is lost to the
  writer. `PageFault` says exactly when, `LostPageRun` is a run that does it, and `NeverShort` a
  stock of memory with which no history does.
* System calls enter `KernelLock` and `KernelUnlock` with interrupts enabled (`vectors.S` lines
  254 to 257), while the comment at `sched.c` line 255 has them disabled. `TakeLock` and `FreeLock`
  say exactly when the second half of either comes too late and breaks the invariant. `Run` covers
  every run up to such a step, `RunMasked` every run in which no interrupt comes between the halves.
  `StrandedRun`, `DoubleEntryRun` and `SwitchedEntryRun` are runs from boot that go wrong. The only
  interrupt they need is the timer's.
* `KernelUnlock` hands the lock to the first waiter but runs the most urgent process, which may be
  the one that unlocked or a third one, so waiters do not always run before user mode does, as the
  comment at `sched.c` lines 286 and 287 has it. `KernelUnlock` says exactly when the waiter is the
  next to run; otherwise a process outside the kernel is. In `EarlyReturnRun` root forks two
  processes and sleeps, one of them wakes it and leaves the kernel, and the other runs in user mode
  before root does.
* A timed sleeper that was woken, but whose timer goes off before it runs, is told `-ETIMEDOUT`:
  `Return` says exactly when, and `WokenYetTimedOutRun` is such a run.
* The question at the end of `TimerBottomHalf`, whether a tick just before the timer process sleeps
  costs an extra tick, is answered by `ExtraJiffyRun`: it does, and a sleeper whose time has come
  sleeps on.
* A call to `sys_kevent` that ends in an error leaves the kqueue busy, and nobody can use it any more.
  `Change` says exactly when a call does, `Run` that a busy kqueue has a holder exactly unless one
  has, and `StuckRun` is a run in which a process sleeps for such a kqueue for ever.
* `SetTimeout` returns the clock less a hundredth of the old expiry, not the time that was left.
* The SD card driver does not look at how many bytes a request holds. Where they run out, a block
  that is written in part keeps its bytes, and one that is written whole gets what is in the driver's
  buffer: what it held before the call, and after the first block the block before. `Write` says
  exactly when the bytes that the request does not hold are kept, and `StaleBlock` is a write that
  loses them. Past the end of the card a read returns what is left in the buffer.

## Model

| member | source | states |
|---|---|---|
| Frames.PageframeTable.constructor | kernel/boards/raspberry_pi_4/init_vm.c:123-132 | before boot has flagged anything no page is managed, on a list or in use |
| Frames.PageframeTable.InitPageframeFlags | kernel/boards/raspberry_pi_4/init_vm.c:137-150 | exactly the pages touched by the byte range get the flags |
| Frames.PageframeTable.CoalesceFreePageframes | kernel/boards/raspberry_pi_4/init_vm.c:155-186 | the boot lists partition exactly the unflagged pages of the whole 64k slabs that fit in memory |
| Frames.PageframeTable.AddSlab | kernel/boards/raspberry_pi_4/init_vm.c:173-176 | a wholly free slab becomes one 64k block and the rest stays partitioned |
| Frames.PageframeTable.AddPages | kernel/boards/raspberry_pi_4/init_vm.c:177-184 | in a mixed slab exactly the free pages become 4k blocks |
| Frames.PageframeTable.AllocPageframe | kernel/vm/page.c:80-152 | fails exactly when the size's list and the 64k list are empty; otherwise the pages handed out were free, become one live block, are zeroed, and no other page changes hands |
| Frames.PageframeTable.TakeHead | kernel/vm/page.c:87-112 | the block is the head of the size's own list, or of the 64k list when that is empty |
| Frames.PageframeTable.Split16k | kernel/vm/page.c:117-125 | cutting a slab gives four aligned 16k blocks that cover it, the upper three at the head of their list |
| Frames.PageframeTable.Split4k | kernel/vm/page.c:128-137 | cutting a slab gives sixteen pages that cover it, the upper fifteen at the head of their list |
| Frames.BlockTaken | kernel/vm/page.c:80-152 | taking a block, cutting it and handing out its first piece keeps free and live blocks an aligned partition of the managed pages |
| Frames.BlocksDisjoint | kernel/vm/page.c:80-152 | two blocks that both own a page are the same block |
| Frames.PageframeTable.AllocPage | kernel/vm/page.c:80-152 | one zeroed page that nobody holds, with reference count 0, every live page keeping its count and contents |
| FrameHistory.AllocateAll | kernel/vm/page.c:80-152 | over any sequence of 4k, 16k and 64k requests, each is met exactly when the stock that those before it left, counted by block size, has a block for it; the grants share no page, were free at the start, and are all that is taken into use |
| FrameHistory.StockNext | kernel/vm/page.c:80-152 | the stock before a request, and the request, tell whether it is met and what it leaves |
| FrameHistory.GrantsDisjoint | kernel/vm/page.c:80-152 | no two grants of a history share a page |
| FrameHistory.PagesConserved | kernel/vm/page.c:80-152 | the pages still free and the pages granted add up to the pages that were free |
| Segments.Covered | kernel/vm/segment.c:170-189 | in a sorted table every user page lies in exactly one segment, whose type is its type, and no other page lies in one |
| Segments.SegmentTable.Find | kernel/vm/segment.c:170-189 | the binary search returns the one segment that holds the address, or none exactly outside user space |
| Segments.SegmentTable.Alloc | kernel/vm/segment.c:216-246 | first fit: the segment at the hint if the request fits behind the hint, else the first FREE one that is large enough |
| Segments.SegmentTable.Insert | kernel/vm/segment.c:152-164 | opens a gap of the given size and moves every later word up by it |
| Segments.SegmentTable.Place | kernel/vm/segment.c:76-114 | whichever of the four shapes applies, the table becomes the split of the FREE segment at the request |
| Segments.SplitSorted | kernel/vm/segment.c:76-114 | splitting a FREE segment keeps the table strictly increasing |
| Segments.SplitType | kernel/vm/segment.c:76-114 | splitting changes the type of exactly the requested pages |
| Segments.SegmentTable.Create | kernel/vm/segment.c:38-115 | without 32-bit overflow: succeeds exactly when the request is available, at the address asked for if that is fixed and else where it first fits from the hint up, and then turns exactly that stretch of user space from FREE into the type by splitting the one segment that holds it; with overflow: succeeds exactly under a stated condition and then leaves the table out of order |
| Segments.LowestFit | kernel/vm/segment.c:216-246 | there is no room below the first fit from the hint up, except exactly room at the hint that ends where the segment around it does, which the strict comparison passes over |
| Segments.DefaultPlace | kernel/vm/segment.c:221-225 | in a fresh address space a request without an address is put at 0x00800000 |
| Segments.OverflowExample | kernel/vm/segment.c:59-70 | a fixed request in a fresh address space whose end wraps below its start is accepted |
| Segments.WrapUnsorted | kernel/vm/segment.c:76-114 | a segment whose end wrapped is followed by a smaller word |
| Segments.SegmentTable.Splice | kernel/vm/segment.c:248-272 | comes back with the one segment that holds the address, past the table at the ceiling, -1 exactly outside user space; at the start of a segment nothing changes, inside one its word is doubled, if there is room for it |
| Segments.SegmentTable.Coalesce | kernel/vm/segment.c:195-210 | of FREE words in a row the last is left, and the closing word is there twice, if there is room for it |
| Segments.SegmentTable.Free | kernel/vm/segment.c:120-140 | for every address and size: writes inside the table exactly if the start is in user space or the end is not, and the words added have room; then it leaves exactly the table that two splices, freeing and coalescing give, which is a partition exactly if the address is null |
| Segments.Indexed | kernel/vm/segment.c:248-263 | in an ordered table, even with a word doubled, the search finds a place exactly from the base to the ceiling of user space |
| Segments.NeverSorted | kernel/vm/segment.c:195-210 | a coalesced table is never sorted |
| Segments.SegmentTable.Reset | kernel/vm/as.c:190-192 | cleanup leaves all of user space FREE |
| Segments.SegmentTable.CopyFrom | kernel/vm/as.c:58-66 | the child's table is the parent's, word by word |
| PageTables.CalcPaBitsWritable | kernel/boards/raspberry_pi_4/pmap.c:43-99 | hardware lets user mode read every page, and write it exactly when the flags say writable and not copy-on-write |
| PageTables.PackedEntry | kernel/boards/raspberry_pi_4/pmap.c:160-161 | address and bits can be read back from the packed word, user mode can read it, and write it exactly when the flags say so |
| PageTables.Pmap.constructor | kernel/boards/raspberry_pi_4/pmap.c:474-500 | a new page directory maps no user page |
| PageTables.Pmap.Enter | kernel/boards/raspberry_pi_4/pmap.c:106-181 | inserts into the flat map, every other page unchanged; fails for page 0 and when no frame is left for a table; on a mapped page the whole megabyte is unmapped |
| PageTables.Pmap.OpenTable | kernel/boards/raspberry_pi_4/pmap.c:123-142 | a table is allocated exactly when the megabyte has none, and maps nothing yet |
| PageTables.Pmap.Remove | kernel/boards/raspberry_pi_4/pmap.c:187-256 | deletes exactly one page from the flat map, and frees the table exactly with its last entry |
| PageTables.Pmap.Protect | kernel/boards/raspberry_pi_4/pmap.c:262-316 | changes the flags of exactly one page of the flat map |
| PageTables.Pmap.Extract | kernel/boards/raspberry_pi_4/pmap.c:322-355 | looks up the flat map, with the error cases of page 0 and unmapped pages |
| PageTables.Pmap.IsPagetablePresent | kernel/boards/raspberry_pi_4/pmap.c:361-374 | true exactly when some page of the megabyte is mapped |
| PageTables.Pmap.IsPagePresent | kernel/boards/raspberry_pi_4/pmap.c:380-420 | true exactly when the page is mapped |
| PageTables.EntryPut | kernel/boards/raspberry_pi_4/pmap.c:144-178 | writing one entry keeps the table's reference count equal to its number of valid entries and changes one page of the flat map |
| PageTables.TableDropped | kernel/boards/raspberry_pi_4/pmap.c:236-245 | invalidating a directory entry unmaps exactly its 256 pages |
| PageTables.TableUsed | kernel/boards/raspberry_pi_4/pmap.c:106-256 | a directory entry is valid exactly when its table has a mapped page |
| PageTables.Pmap.WritableInHardware | kernel/boards/raspberry_pi_4/pmap.c:43-99 | hardware read access to a mapped page is always there, and write access is what its flags say |
| Cow.SharedIsReadOnly | kernel/vm/as.c:91-118 | a frame mapped twice or more is writable in hardware in none of its mappings |
| Cow.Marked | kernel/vm/as.c:91-99 | marking a page copy-on-write keeps the sharing invariant and what every process sees |
| Cow.SharedTo | kernel/vm/as.c:101-118 | sharing a frame that nobody can write, and counting the reference, keeps the reference count equal to the number of mappings |
| Cow.NoWriters | kernel/vm/pagefault.c:98-150 | if one mapping of a frame is read-only in hardware they all are |
| Cow.Reclaimed | kernel/vm/pagefault.c:129-150 | with reference count 1 the faulting mapping is the only one, so it may become writable in place |
| Cow.Written | kernel/vm/pagefault.c:94-156 | a store through a writable mapping shows in that page of that process and nowhere else |
| Cow.Unmapped | kernel/vm/as.c:169-186 | unmapping a page keeps the reference count of its frame exact if the reference is given up, and otherwise one more is lost |
| VirtualMemory.Vm.PageFault | kernel/vm/pagefault.c:37-157 | a write fault on a copy-on-write page is resolved exactly when there are as many free frames as it needs, one if the frame is mapped elsewhere too and one if no other page of the megabyte is mapped; then nobody sees a change and the page is writable, in the same frame if nobody else maps it and in a new one otherwise; if not, that page is lost to that process alone; all other faults are refused without change |
| VirtualMemory.Vm.DropPage | kernel/vm/pagefault.c:99-105 | a private page goes and its frame gives up exactly one reference |
| VirtualMemory.Vm.StoresMissTables | kernel/vm/pagefault.c:94-156 | no frame that user pages are mapped to is part of any page table or page directory, so no user store reaches one |
| VirtualMemory.Vm.CopyPage | kernel/vm/pagefault.c:98-128 | a copy of the frame takes its place with what every process sees unchanged, exactly when there are frames for the copy and its table; the stock of free frames afterwards is exact |
| VirtualMemory.Vm.ReclaimPage | kernel/vm/pagefault.c:129-152 | the same frame is mapped writable with what every process sees unchanged, exactly when there is a frame for its table if it needs one |
| VirtualMemory.Vm.ForkPage | kernel/vm/as.c:86-131 | one page of a fork: fails exactly when the child needs a table and no frame is left; the parent keeps its entry, marked copy-on-write if it could be written, and the child gets the same entry, or a device page of the same address that it may read and write |
| VirtualMemory.Vm.ForkPages | kernel/vm/as.c:68-133 | the page loops succeed exactly when there is a frame for each page table of the parent; up to the point reached every entry of parent and child is exact, and the child sees the parent's pages |
| VirtualMemory.Vm.Fork | kernel/vm/as.c:41-142 | succeeds exactly when there is a block for the directory and a frame for each of the parent's page tables; then the child sees and has the segments of exactly the parent, mapped to the same frames, device pages included, every entry of parent and child is exact and no other process's changes; on failure nobody sees any change and only marks of the parent may be left; sharing, page table, frame and segment invariants kept |
| VirtualMemory.ForkedPte | kernel/vm/as.c:86-131 | parent and child have the same frame; a private one neither can write and looks to both as it did to the parent; a device page the child may read and write |
| VirtualMemory.Vm.Cleanup | kernel/vm/as.c:149-195 | the process has no page any more, its frames have given up one reference for each, all of user space is FREE, and no entry of another process changes |
| VirtualMemory.Vm.VirtualAlloc | kernel/vm/vm.c:75-112 | refused exactly when no such segment is available; otherwise the segment is created, at the address asked for or where it first fits, every page entered was unmapped, and the process sees zeroed pages in new frames over all of it, or over exactly as many pages as there are frames for, tables included; no other entry changes; mapped pages lie in segments that are not FREE; a request whose end passes 4 gigabytes is refused exactly unless the checks let it through, and then no page is mapped and the table is out of order |
| VirtualMemory.Vm.VirtualAllocPhys | kernel/vm/vm.c:136-176 | maps exactly consecutive device pages over a new segment, placed as in VirtualAlloc, as far as there are frames for their tables, and changes no other entry and nobody's private memory; a request whose end passes 4 gigabytes as in VirtualAlloc |
| VirtualMemory.Vm.CleanUp | kernel/vm/vm.c:114-128 | after an allocation that ran out of memory: the kernel halts exactly if one of its pages was mapped; otherwise the segment is given back, which leaves the table out of order; no page is unmapped |
| VirtualMemory.Vm.VirtualFreePages | kernel/vm/vm.c:212-217 | exactly the pages of the range disappear from the caller's view, keeping the sharing and page table invariants, and the references to their frames are lost |
| VirtualMemory.Vm.VirtualFree | kernel/vm/vm.c:200-222 | exactly the pages of the range disappear, and the segment table becomes what `segment_free` leaves, a partition exactly if the address is null, or the call strays from it exactly as `Free` says |
| VirtualMemory.Vm.UserWrite | kernel/vm/pagefault.c:94-156 | a store, with its fault if it takes one, is refused exactly when the process sees no writable private page there, loses the page exactly when its fault needs more frames than there are, and otherwise changes that byte for that process alone; no other entry of any process changes |
| VirtualMemory.FreeUnmapped | kernel/vm/vm.c:91-107 | no page of a FREE stretch is mapped, so entering its pages never meets a valid entry |
| VirtualMemory.CallerFlags | kernel/vm/vm.c:87-89 | a caller can set neither the memory kind nor the copy-on-write mark |
| VirtualMemory.MaskedFlags | kernel/vm/vm.c:87-89 | the bits under the mask are the kernel's, and all others are the caller's |
| VirtualMemory.PagesFor | kernel/vm/vm.c:88-88 | the length rounded up to whole pages, or none when rounding passes 4 gigabytes |
| VirtualMemory.Vm.Exit | kernel/proc/proc.c:99-103 | an exiting process leaves an empty address space and no entry of another process changes |
| VirtualMemory.Vm.EnterPage | kernel/boards/raspberry_pi_4/pmap.c:106-181 | entering an unmapped page through the two-level table fails exactly when the megabyte has no table and no frame is left |
| VirtualMemory.Vm.Boot | kernel/boards/raspberry_pi_4/init_proc.c:55-147 | a first process gets an empty address space exactly when there is a block for its page directory |
| VmHistory.Machine.Step | kernel/vm/as.c:41-195 | one operation of any process does to what everybody sees what it does to a memory in which fork copies, has exactly the outcome that segments and free frames allow, and changes exactly the mappings and segments that it names |
| VmHistory.Machine.Run | kernel/vm/as.c:41-195 | over every history up to an allocation that runs out of memory, what every process sees equals the memory of the eager reference; the reference count of every frame is the number of its mappings; and at every step a boot, fork or store fails, an allocation stops, or a page is lost exactly when the free frames, tracked exactly, do not suffice |
| VmHistory.NeverShort | kernel/vm/as.c:41-195 | a history that starts with as many free slabs as its operations may take blocks never fails for want of memory and never loses a page |
| VmHistory.DevicesRun | kernel/vm/as.c:41-195 | over every history the device pages of every process are exactly those that its own calls mapped and those that its parent had when it was forked |
| VmHistory.LastSharer | kernel/vm/pagefault.c:98-150 | of two that share a page, the one that stores second has the frame to itself |
| VmHistory.LostPageRun | kernel/vm/pagefault.c:98-128 | a concrete run, with three pages and three 16k blocks free at boot, in which the first store after a fork costs the writer its page |
| Placement.ExactlyOnePlace | kernel/proc/sched.c:257-529 | each process is once on the one list its state names, on no other, and idle and zombies on none |
| Placement.MovedToBkl | kernel/proc/sched.c:266-270 | moving the running process to the lock's queue keeps every process in one place |
| Placement.MovedToRendez | kernel/proc/sched.c:352-355 | moving it to a rendez keeps every process in one place |
| Placement.HandedOff | kernel/proc/sched.c:296-303 | readying the first waiter keeps every process in one place |
| Placement.MovedByWakeup | kernel/proc/sched.c:471-475 | moving a sleeper to the lock's queue keeps every process in one place |
| Placement.WokenInHandOff | kernel/proc/sched.c:294-304 | a wakeup at any point while KernelUnlock passes the lock on ends as if it had come before |
| Placement.MovedToZombie | kernel/proc/proc.c:151-152 | a process that exits ends on no list, the others where they were |
| BigKernelLock.Waits | kernel/proc/sched.c:257-312 | until the (k+1)-th release the process queued at place k does not hold the lock and has moved up one place a release |
| BigKernelLock.Granted | kernel/proc/sched.c:294-304 | at the (k+1)-th release it holds the lock |
| BigKernelLock.NoBarging | kernel/proc/sched.c:263-271 | a process that asks for a held lock gets it only after a release for each waiter before it and one more |
| BigKernelLock.OwnerKept | kernel/proc/sched.c:257-312 | without a release the holder stays the holder |
| Scheduling.IdleNeverWaits | kernel/boards/raspberry_pi_4/idle.c:35-45 | while idle runs nobody else holds the lock, so idle never blocks on it |
| Scheduling.Scheduler.constructor | kernel/boards/raspberry_pi_4/init_proc.c:55-147 | the boot state satisfies the invariant, with root running and the lock free |
| Scheduling.Scheduler.SchedReady | kernel/proc/sched.c:140-162 | the process joins the end of its queue, and the bitmap names exactly the queues that are not empty |
| Scheduling.Scheduler.SchedUnready | kernel/proc/sched.c:167-196 | the process leaves its queue, and the bitmap names exactly the queues that are not empty |
| Scheduling.Scheduler.Reschedule | kernel/proc/sched.c:74-136 | the process chosen is the first of the highest queue that is not empty, or idle; nobody who can run is more urgent; a round-robin caller's queue turns by one, and the lock's invariant survives the switch |
| Scheduling.Scheduler.KernelLock | kernel/proc/sched.c:257-272 | grants a free lock; on a held one queues the caller behind all waiters and runs the first of the highest queue left; invariant kept |
| Scheduling.Scheduler.KernelUnlock | kernel/proc/sched.c:289-312 | the first waiter becomes the holder, or the lock free if there is none; the panic is unreachable; invariant kept; with a waiter, the waiter is the next to run exactly if RunsNext holds of the queues before the call, the caller runs on exactly if KeepsProcessor does, and whoever else runs is outside the kernel |
| Scheduling.NextExactly | kernel/proc/sched.c:284-304 | having been readied, a waiter is chosen exactly if no queue above its own has anybody and its own is empty or holds the round-robin caller alone |
| Scheduling.KeptExactly | kernel/proc/sched.c:294-304 | having readied a waiter the caller is chosen again exactly if nobody more urgent can run and it is first in its queue or, under round-robin, alone in it with a less urgent waiter, or second |
| Scheduling.KeptByPicked | kernel/proc/sched.c:284-287 | for a caller that runs because it was chosen: a round-robin one yields to an equal or to a more urgent waiter or if it has company in its queue, a FIFO one only to a more urgent waiter; when the waiter is then the next to run |
| SchedulingRuns.EarlyReturnRun | kernel/proc/sched.c:284-312 | a concrete run from boot: root forks two processes and sleeps, one wakes it and leaves the kernel, and the other runs in user mode while root holds the lock and has not run |
| Scheduling.Scheduler.TaskSleep | kernel/proc/sched.c:329-363 | the caller is last on the rendez, the lock went to the first waiter or became free, the queues and the process chosen are exactly those of the turned queues |
| Scheduling.Scheduler.Resume | kernel/proc/sched.c:359-360 | a process that runs again inside KernelLock or a sleep always holds the lock, as the assertions demand |
| Scheduling.Scheduler.TaskWakeup | kernel/proc/sched.c:462-500 | exactly the longest sleeper moves to the end of the lock's queue |
| Scheduling.Scheduler.TaskWakeupAll | kernel/proc/sched.c:507-529 | all sleepers move to the end of the lock's queue in the order they fell asleep |
| Scheduling.Scheduler.TimedSleepCallback | kernel/proc/sched.c:440-455 | a process still asleep moves to the lock's queue; one already moved is left alone |
| Scheduling.Scheduler.InterruptHandler | kernel/boards/raspberry_pi_4/interrupt.c:153-169 | interrupt wakeups reach a held lock: under a holder they queue behind its waiters and nobody else runs; on a free lock the first one woken is handed it, the rest wait, and the interrupted process runs on exactly under the condition of KernelUnlock, and from where it was |
| Scheduling.Scheduler.TestLock | kernel/proc/sched.c:257-271 | the first half of KernelLock: only notes a free lock, and waits for a held one as KernelLock does |
| Scheduling.Scheduler.TakeLock | kernel/proc/sched.c:264-265 | the second half: the invariant survives exactly if the lock is still free when the process writes it, whoever ran in between; otherwise it and the holder are both in the kernel |
| Scheduling.Scheduler.LookForWaiter | kernel/proc/sched.c:289-304 | the first half of KernelUnlock: hands on a lock that is waited for as KernelUnlock does, and only notes that nobody waits |
| Scheduling.Scheduler.FreeLock | kernel/proc/sched.c:305-308 | the second half: the invariant survives exactly if nobody has begun to wait since |
| Scheduling.Scheduler.InterruptedUnlock | kernel/proc/sched.c:289-312 | with an interrupt between the look at the queue and the write, the invariant survives exactly if somebody was queued already or nobody is woken; otherwise those woken wait for a lock nobody holds |
| Scheduling.Scheduler.InterruptedLock | kernel/proc/sched.c:257-272 | with an interrupt between the look at a free lock and taking it: the caller keeps the processor exactly if nobody is woken or it outranks the first one woken; then the invariant survives exactly if nobody is woken, and otherwise two processes are inside the kernel; if it loses the processor it is left about to write a lock that is held |
| SchedulingRuns.StrandedRun | kernel/proc/sched.c:289-363 | a concrete run from boot: a process leaves the kernel, the timer interrupt comes between its look at the queue and its write, and the timer process waits for a lock that nobody holds |
| SchedulingRuns.DoubleEntryRun | kernel/proc/sched.c:257-272 | a concrete run from boot: one of two children is stopped by the timer interrupt half-way into the kernel, and ends up in it together with root, which the other child woke |
| SchedulingRuns.SwitchedEntryRun | kernel/proc/sched.c:257-312 | a concrete run from boot: the timer interrupt switches processes between the halves of an entry, the timer process wakes root whose time is up, and root and the child are in the kernel together |
| Scheduling.Scheduler.Fork | kernel/proc/proc.c:71-75 | the child joins the end of its parent's priority queue outside the kernel; invariant kept |
| Scheduling.Scheduler.Exit | kernel/proc/proc.c:131-153 | the process becomes a zombie on no list, the lock goes to the first waiter, and the queues and the process chosen are exactly those of the turned queues; invariant kept |
| Scheduling.Scheduler.Reap | kernel/proc/proc.c:304-309 | the process is forgotten and no other one changes |
| Scheduling.Scheduler.Run | kernel/proc/sched.c:74-529 | over every run, with interrupts anywhere and the lock's methods whole or by halves: each action is taken exactly if its process is where it can, with exactly its effect on the process and on the sleepers; each process is in its one place, and if anybody waits for the lock it is held by a process that can run, exactly up to a step that writes a held lock or frees one that is waited for, after which two processes are in the kernel or processes wait for a free lock |
| Scheduling.Scheduler.Step | kernel/proc/sched.c:74-529 | one step is taken exactly if its process is where it can, with exactly its effect on the process and on the sleepers; it breaks the invariant exactly if it is the second half of an entry and the lock has been taken, or of an exit and somebody has begun to wait |
| Scheduling.Scheduler.RunMasked | kernel/proc/sched.c:247-256 | over every run in which no interrupt comes between the halves the invariant holds |
| Scheduling.Scheduler.HandOffIsFifo | kernel/proc/sched.c:257-360 | over any stretch of a run the process queued at place k gets the lock at exactly the (k+1)-th release |
| TimingWheels.TimingWheel.Arm | kernel/proc/sched.c:401-412 | adds one timer to the plain set, last in the order of arming, which is once in the bucket of its expiry |
| TimingWheels.TimingWheel.Cancel | kernel/proc/sched.c:418-422 | removes one timer from the plain set and from its bucket |
| TimingWheels.TimingWheel.SetTimeout | kernel/proc/timer.c:259-294 | replaces or removes one timeout in the plain set, and returns what the code returns, cut to 32 bits |
| TimingWheels.TimingWheel.TopHalf | kernel/proc/timer.c:334-336 | the hard clock advances and no timer changes |
| TimingWheels.TimingWheel.Tick | kernel/proc/timer.c:366-388 | fires, once each and in the order in which they were armed, exactly the timers of the plain set that expire at the soft clock |
| TimingWheels.TimingWheel.BottomHalf | kernel/proc/timer.c:350-395 | for any lag between the clocks and any interrupts meanwhile each timer fires once, at its own expiry, in order, those of one tick in the order in which they were armed, and those that remain are for later |
| TimedSleeps.TimedKernel.TaskTimedSleep | kernel/proc/sched.c:374-415 | the caller sleeps on the rendez with its timer armed for the delay; lock, queues and processor as after a plain sleep; all other sleeps unaffected |
| TimedSleeps.TimedKernel.Return | kernel/proc/sched.c:415-430 | the sleeper was moved to the lock's queue exactly once; it is told -ETIMEDOUT exactly if the soft clock has passed its expiry, woken or not, and 0 only after a real wakeup; the timer is off the wheel |
| TimedSleeps.TimedKernel.Wakeup | kernel/proc/sched.c:462-500 | moves exactly the first sleeper, timed or not, and records it |
| TimedSleeps.TimedKernel.Tick | kernel/proc/timer.c:366-386 | exactly the timers due have gone off, in the order in which they were armed; those of their processes that are still asleep join the lock's queue in that order, and no other sleep is touched |
| TimedSleeps.TimedKernel.Callback | kernel/proc/sched.c:440-455 | a process still asleep is on the rendez held in the timer and is moved; one already moved is left alone |
| TimedSleeps.TimedKernel.Plainly | kernel/proc/sched.c:257-529 | whatever else a process or an interrupt does is done exactly if it can be, exactly the timed sleepers it wakes are moved, once, and no other timed sleep is touched |
| TimedSleeps.TimedKernel.TimerInterrupt | kernel/proc/timer.c:322-339 | the hard clock advances and the timer process, if asleep, is woken |
| TimedSleeps.TimedKernel.NobodyOversleeps | kernel/proc/timer.c:366-386 | no process whose time the soft clock has passed is asleep |
| TimedSleeps.TimedKernel.Run | kernel/proc/sched.c:374-455 | over every order of timed sleeps, wakeups, interrupts, ticks and returns: each sleep that was begun is under way or has ended with a report; each report says -ETIMEDOUT exactly if the timer had gone off, 0 only after a wakeup, one move to the lock's queue each; nobody oversleeps |
| TimedSleeps.WokenYetTimedOutRun | kernel/proc/sched.c:415-430 | a concrete run from boot: a child wakes root before root's timer goes off, the timer process runs before root does, and root is told -ETIMEDOUT |
| TimedSleeps.ExtraJiffyRun | kernel/proc/timer.c:390-393 | a concrete run from boot: the timer process sleeps behind the clock with the timer of root due, and root is still asleep |
| Snoozes.SleepKernel.BeginSleep | kernel/proc/timer.c:185-196 | the timer is armed for the delay from now, and the sleeps of others are unaffected |
| Snoozes.SleepKernel.SleepLoop | kernel/proc/timer.c:198-202 | once round the loop the process returns exactly if the soft clock has passed the time it asked for, and otherwise is asleep again, alone on its rendez |
| Snoozes.SleepKernel.Callback | kernel/proc/timer.c:164-169 | when its timer goes off the process is on no rendez any more, whether sys_sleep or a timed sleep had it, and nobody else is woken |
| Snoozes.SleepKernel.Tick | kernel/proc/timer.c:366-388 | exactly the timers due go off, in the order in which they were armed, and none of their processes is asleep afterwards |
| Snoozes.SleepKernel.Else | kernel/proc/sched.c:257-529 | whatever else anybody does, waking the rendez of a sleeper included, its sleep goes on until its time |
| Snoozes.SleepKernel.NobodyOversleeps | kernel/proc/timer.c:179-203 | no process whose time the soft clock has passed is asleep |
| Snoozes.SleepKernel.Run | kernel/proc/timer.c:179-250 | over every order of sleeps, timed sleeps, wakeups, exits of children, interrupts and ticks: a sleep is under way or has ended after more ticks than were asked for, and nobody oversleeps |
| Snoozes.SleepKernel.Step | kernel/proc/timer.c:179-250 | each step is taken exactly if it can be, with exactly its effect on the calls under way and on the clocks |
| Messages.ExactlyOnce | kernel/fs/msg.c:363-433 | every message is once on one port, in one slot, or once on one reply port |
| Messages.OwnReply | kernel/fs/msg.c:363-382 | a reply port holds nothing or exactly its owner's message |
| Messages.MailRoom.constructor | kernel/fs/msg.c:503-517 | a backlog starts with a free bit for each of its slots and all of them empty |
| Messages.MailRoom.PutMsg | kernel/fs/msg.c:363-398 | a new message is last on its port and its sender waits for it; every message stays in one place |
| Messages.MailRoom.AllocMsgid | kernel/fs/msg.c:557-571 | the lowest free slot, or none exactly when no bit is set |
| Messages.MailRoom.GetMsg | kernel/fs/msg.c:88-125 | the oldest message moves to the lowest free slot; EAGAIN exactly without a free slot; nothing taken and nothing changed on an empty port; a set bit always means an empty slot |
| Messages.MailRoom.ReplyMsg | kernel/fs/msg.c:159-219 | the message of an assigned slot, and only of one, moves with its status to its own sender's reply port and the slot is free again |
| Messages.MailRoom.FinishSend | kernel/fs/msg.c:377-381 | ksendmsg returns the status the server gave to this very message |
| KEvents.EventQueues.GetKnote | kernel/fs/kqueue.c:263-280 | the hash lookup finds exactly the knote a search of all knotes would, and there is at most one |
| KEvents.EventQueues.Knote | kernel/fs/kqueue.c:234-257 | every knote of the object becomes pending, the enabled ones are listed once, behind what was listed, and for each list that grows the first sleeper of that kqueue's event rendez joins the lock's queue |
| KEvents.EventQueues.AllocKnote | kernel/fs/kqueue.c:400-513 | a new knote, disabled and unlisted, last among those of its object, exactly when there is a spare one and an object; keys stay unique |
| KEvents.EventQueues.FreeKnote | kernel/fs/kqueue.c:523-598 | the knote is on no list any more and is spare again |
| KEvents.EventQueues.EnableKnote | kernel/fs/kqueue.c:610-693 | an enabled knote is listed if its event was pending or its port has a message |
| KEvents.EventQueues.DisableKnote | kernel/fs/kqueue.c:700-712 | the knote is unlisted and remembers whether its event is pending |
| KEvents.EventQueues.Apply | kernel/fs/kqueue.c:89-143 | refused exactly when the change is malformed, names no knote, or has no spare knote or object to make one of, with the error for it and nothing changed; an added knote listens unless told not to and knows of a message that is there; one that is switched listens as told, keeps what it knew and looks for a message when it begins to listen; pending lists and spare knotes are exact, and no other knote changes |
| KEvents.EventQueues.Collect | kernel/fs/kqueue.c:162-188 | hands out the oldest pending events in order, up to the number asked for; one-shot knotes are freed and spare again, the others no longer pending |
| KEvents.EventQueues.Acquire | kernel/fs/kqueue.c:84-87 | takes a kqueue that is not busy, and otherwise sleeps, last on its busy rendez |
| KEvents.EventQueues.Release | kernel/fs/kqueue.c:193-194 | the kqueue is free and the first that waits for it joins the lock's queue |
| Ipc.IpcSystem.Send | kernel/fs/msg.c:363-398 | every enabled knote of the port is pending, and every process asleep for events of its kqueue has joined the queue for the lock |
| Ipc.IpcSystem.Await | kernel/fs/msg.c:453-466 | a client sleeps on its own reply port, and only without a reply |
| Ipc.IpcSystem.Try | kernel/fs/kqueue.c:84-87 | the kqueue goes to a caller exactly if it is not busy, and then to no other |
| Ipc.IpcSystem.Change | kernel/fs/kqueue.c:89-143 | a change that is refused, and only such a one, ends the call with the kqueue busy and held by nobody; otherwise the caller goes on holding it and the knote is exactly what Apply says |
| Ipc.IpcSystem.Wait | kernel/fs/kqueue.c:150-160 | a process sleeps for events only with none pending, and alone: it is the only one on the event rendez |
| Ipc.IpcSystem.End | kernel/fs/kqueue.c:162-194 | the oldest events are handed out, a port so told of counts as being drained, and the kqueue is free with its first waiter woken |
| Ipc.AsleepOverEmpty | kernel/fs/kqueue.c:149-160 | a port that a sleeping server listens to is empty, unless the server was told of it and has not found it empty since |
| Ipc.OneSleeper | kernel/fs/kqueue.c:84-87 | the busy mark lets at most one process sleep on an event rendez |
| Ipc.OneOwner | kernel/fs/msg.c:377-379 | on a reply port only its owner sleeps, and only without a reply |
| Ipc.SceneReleases | kernel/fs/kqueue.c:193-194 | letting a kqueue go never leaves a sleeper behind a free kqueue with nobody awake who wants it |
| Ipc.IpcSystem.Get | system/drivers/null/main.c:49-78 | the oldest message moves to a slot, unless there is none or no slot; draining ends exactly when getmsg finds the port empty |
| Ipc.IpcSystem.Reply | kernel/fs/msg.c:405-417 | the sender of the message replied to, if asleep on its reply port, has joined the queue for the lock, and every other list of sleepers is as it was |
| Ipc.IpcSystem.Finish | kernel/fs/msg.c:363-382 | the client returns with the status its own message was given, whatever happened in between |
| Ipc.IpcSystem.Step | kernel/fs/kqueue.c:59-202 | each step of a call is taken exactly if its process is where it can, with its effect on ports, knotes, kqueues and sleepers; otherwise nothing changes |
| Ipc.IpcSystem.Run | kernel/fs/kqueue.c:59-202 | over every interleaving on the scheduler: at most one process sleeps for events of a kqueue, and then its ports are empty but for those it was told of and has not found empty since; on a reply port only its owner sleeps, and only without a reply; whoever sleeps for a kqueue that is not busy has another before it that is awake; a busy kqueue has a holder exactly unless a call on it has ended in an error, and then stays so for ever |
| IpcRuns.StuckRun | kernel/fs/kqueue.c:84-143 | a concrete run from boot: after a call that ends in an error, the next one sleeps for the kqueue, which nobody holds |
| Ipc.IpcSystem.RunDrained | system/drivers/null/main.c:45-78 | over every interleaving in which servers empty the ports they are told of before they wait again, no process sleeps over a port with a message |
| ProcessTree.Acyclic | kernel/proc/proc.c:40-155 | no process is its own ancestor |
| ProcessTree.ZombieReapable | kernel/proc/proc.c:85-155 | every zombie is listed exactly once, by its parent, which is in use and no zombie |
| ProcessTree.ProcessTable.AllocProcess | kernel/proc/proc.c:322-363 | the lowest number not in use, or none exactly when all are |
| ProcessTree.ProcessTable.Fork | kernel/proc/proc.c:40-78 | the child is a new last child of its parent; fails exactly without room, and then changes nothing; statuses and sleepers kept; tree kept |
| ProcessTree.ProcessTable.Exit | kernel/proc/proc.c:85-155 | exactly the dead children are freed, exactly the living ones become root's, in order behind its own, the process is a zombie of a living parent with its status, every other status is kept, and the parent is the one woken, so that no sleeping waiter misses it; tree kept |
| ProcessTree.ProcessTable.Waitpid | kernel/proc/proc.c:165-315 | EINVAL exactly when no child can answer; otherwise EFAULT exactly when a dead child is found and the status cannot be copied out, else reaps the first dead child asked for, in all four forms of the argument, with the status kept for it, or sleeps or fails with EAGAIN exactly when none is dead; a failure changes nothing; nobody else who sleeps in waitpid misses a dead child |
| ProcessTree.ProcessTable.Run | kernel/proc/proc.c:40-315 | over every run each step is taken exactly if it can be, with exactly what must come of it; a process that is reaped answers with the status of its own last exit; every zombie is listed by a living parent, so each can be reaped, and nobody sleeps in waitpid who waits for a child that is dead |
| MessageParts.FlatAt | kernel/fs/msg.c:591-614 | where a part lies in the string of bytes |
| MessageParts.SeekIov | kernel/fs/msg.c:591-614 | fails exactly outside the message, and otherwise names the part and the bytes left in it |
| MessageParts.Message.Read | kernel/fs/msg.c:231-278 | the stretch of the string from the offset, as long as buffer and message allow; EINVAL exactly outside the message; nothing from a message without parts |
| MessageParts.Message.Get | kernel/fs/msg.c:131-146 | the start of the string |
| MessageParts.Message.Write | kernel/fs/msg.c:290-343 | overwrites exactly the stretch from the offset with the first bytes of the data, up to the end of the data, of the message, or the start of the first part that cannot be written to; sizes of parts kept |
| MessageParts.Message.Reply | kernel/fs/msg.c:189-209 | overwrites exactly the start of the string, up to the first part that cannot be written to |
| SdCards.SdCard.Read | system/drivers/sdcard/main.c:93-126 | for every request: the reply buffers start with exactly the addressed bytes of the card and, past its end, with those of the last block that the driver read, and are otherwise as they were |
| SdCards.SdCard.Write | system/drivers/sdcard/main.c:138-173 | for a request of any length and place: its bytes after the header are at the addressed place as far as they and the card go; of the other bytes addressed, those in blocks written in part are kept and those in blocks written whole are exactly what the buffer held, at first, or the block before; all of them are kept exactly if these happen to be the same; no byte outside the addressed stretch changes |
| SdCards.SdCard.WriteChunk | system/drivers/sdcard/main.c:150-168 | one chunk: the bytes the request holds go over the block if it is written in part, over the buffer if it is written whole, and buffer and block are then the same |
| SdCards.StaleBlock | system/drivers/sdcard/main.c:157-164 | a write of a whole block with fewer bytes than announced leaves the block with those bytes and then what the driver's buffer held |
| SdCards.KeptExactly | system/drivers/sdcard/main.c:138-173 | a write keeps the bytes that its request does not hold exactly if each block written whole has the bytes of the buffer or of the block before |
| SdCards.StoredWhole | system/drivers/sdcard/main.c:138-173 | a request that holds what it announces is stored whole, and nothing else changes |
| SdCards.SdCard.BlockRead | system/drivers/sdcard/main.c:108-118 | the wanted bytes of one block are those bytes of the card, or of the buffer past its end |
| SdCards.ReadAfterWrite | system/drivers/sdcard/main.c:93-173 | reading a stretch after writing it gives what was written, elsewhere what was there |
| SdCards.WriteThenRead | system/drivers/sdcard/main.c:93-173 | end to end, through the multi-part buffers of two requests, a client reads back what was written |

## Left out

- VirtualMemory.Vm.VirtualAlloc: ends, when memory runs out, where its cleanup begins, which `CleanUp` models for both allocation calls.
- Segments.SegmentTable.Free: says nothing of what lies outside the table when a write strays from it.
- VirtualMemory.Vm.VirtualFree: the range lies in the lower half of the address space; the page tables above it are the kernel's.
- VmHistory.Machine.Run: takes no step once an allocation has run out of memory, which `CleanUp` shows the kernel or the segment table not to survive, for a request whose end passes 4 gigabytes, which `Create` shows to break the segment table, for `sys_virtualfree`, which `Free` shows to, or for a store to a device page, which is shared by design, or outside user space.
- `free_pageframe` and `coalesce_slab` return at once in the source; giving up a reference frees nothing in the model either.
- The reverse map `vpte_list`, which nothing reads; TLB and cache maintenance; cache policy bits.
- The segment tables and page directories of all address spaces are held by value and loaded into a `SegmentTable` or a `Pmap` for each call; addresses and sizes are in pages. The kernel half of a page directory is the root's and does not change.
- Scheduling.Scheduler.Run: takes `TaskWakeupAll` and the hand-over of the lock in `KernelUnlock` as single steps; `WokenInHandOff` shows that a wakeup between the moves of the latter makes no difference. An interrupt inside the list macros or the context switch is below this model.
- Scheduling.Scheduler.Reschedule: `SCHED_OTHER` and its demotion, which moves queues without the bitmap, and time accounting are left out; round-robin fairness does not hold, because the queue turns even when the caller has left it.
- Signals and `sys_kill`, which readies a process without taking it off its rendez; `sys_setschedparams`.
- TimingWheels.TimingWheel.SetTimeout: the clocks do not wrap.
- TimedSleeps.TimedKernel.Tick: takes all timers that are due off the wheel before it runs their callbacks, which do not look at the wheel.
- Snoozes.SleepKernel.BeginSleep: the delay is in ticks and not negative; the busy wait of `sys_nanosleep` for less than ten milliseconds is left out.
- Snoozes.SleepKernel.EndTimedSleep: of a timed sleep only what concerns the shared timer is modelled here; `TimedSleep.dfy` has the rest.
- ProcessTree.ProcessTable.Exit: a single step, although closing files before the process becomes a zombie may let others run; process groups never change after fork.
- Messages without a reply port; `fini_msgport`; timeouts of `kwaitport`.
- KEvents.EventQueues.AllocKnote: a knote taken and put back because there is no object to watch is modelled by its net effect, none.
- Ipc.IpcSystem.Run: a timed `kevent` is a wakeup of the event rendez by the timer process and a return without events, at any time; kqueue close is left out, and the descriptor behind a knote names the same object throughout.
- The kqueue's own list of knotes, which only close reads; negative identifiers.
- Copies to and from user space succeed, except where a parameter says otherwise (`Message.Write`, `Message.Reply`, `Waitpid`).
- SdCards.SdCard.Write: a block that the card does not have can be neither read nor written, and the transfer leaves the buffer and the card as they are; all other block transfers succeed.
- The size of the next part that the copy loops load after the last part, which is never used.
- Pipes, the file and block caches, descriptors, vnodes, lookup and mounts, whose bookkeeping is unfinished in the source.
- Device registers, the UART, GPIO and mailbox, boot code, the init script, libraries: I/O and plumbing, or small and easy.
