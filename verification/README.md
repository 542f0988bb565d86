# OSv: models and proofs

OSv is a kernel that runs one application in a virtual machine. This project models the
parts of it that are hardest to get right, in Dafny, and proves what they are for.

Protocols between threads and CPUs are state machines. A step is one atomic access of the
code, or what is done under a lock, or one operation of a lock-free list or ring; any number of
threads take steps in any order, and a theorem about a run holds in every state of every run. Code
that works in place is a class or a method with loops, proved against a reference definition that
says nothing about how the code goes about it. A method that verifies also ends, so each of these
loops ends.

| file | models |
|---|---|
| `LfMutex`, `LfMutexProof` | the lock-free recursive mutex with its hand-off protocol and its wait queue |
| `Sched`, `SchedProof` | thread states, run queues, wakeups between CPUs, the idle loop and its interrupt |
| `Rcu`, `RcuProof` | grace periods of read-copy-update |
| `Condvar`, `CondvarWait` | condition variables: the linked list, and the protocol of waits, timeouts and wakes |
| `Vma` | the list of virtual memory areas |
| `PageTable`, `LinearMap`, `PageOps`, `Populate` | the four-level page table (section 4.5 of the Intel SDM, volume 3A) and its walkers |
| `AddressSpace` | the areas and the page table together: mapping, unmapping, protecting, page faults |
| `PageRanges`, `Pool` | the allocator: page ranges and page buffers, object pools |
| `RemoteFree`, `RemoteFreeProof`, `Ring` | freeing an object on another CPU: the protocol with the worker, and the ring |
| `Vring`, `VringRun` | the virtio split ring (section 2.4 of VIRTIO 1.0), and the cookies it gives back over a history |
| `Cksum` | the Internet checksum (RFC 1071) |
| `Pipe`, `PipeRun` | the pipe buffer |
| `Elf` | symbol lookup through both kinds of hash table |
| `Arith`, `Wrap` | division facts the others share, and rings indexed by counters that wrap |

## Where the code does less than it says

The model follows the code. Each of these is a lemma or a contract.

- `condvar_wait()` remembers the mutex of its waiters and is to forget it with the last of
  them. It does so exactly unless the last one times out (`CondvarWait.ForgottenUnlessTimeout`);
  a later wait with another mutex then fails an assertion although nobody waits
  (`CondvarWait.AssertionCanFail`).
- `linear_map()` asserts that the two addresses agree modulo the slop. The range is mapped at
  the distance asked for if and only if the distance is a multiple of every page size that fits
  in the range (`LinearMap.LinearRangeIsExact`, `LinearMap.MisalignedExample`).
- `evacuate()` erases the marker at the top of the address space if the range contains it
  (`Vma.VmaList.Evacuate`, with an input in `Vma.MarkerErased`), and a mapping at the fixed address 0
  is refused after what was there has been unmapped, because the lower marker starts there too
  (`Vma.VmaList.AllocateFixed`, `Vma.ZeroRefused`). If it is to be populated, its pages are mapped all
  the same, outside every area, exactly then (`AddressSpace.MapFixed`, `AddressSpace.MapAnywhere`).
- Splitting an area at an address inside a page loses the upper part or shifts file offsets,
  except for anonymous areas beyond their first page (`Vma.SplitExact`, with inputs in
  `Vma.SplitLoses` and `Vma.SplitShifts`).
- A page fault in memory that is not a file fails the assertion of `free_intermediate_level()` if and
  only if a small page is mapped in the huge block that is to be brought in (`AddressSpace.Fault`). It gets there when one
  page of a huge page is protected with the permission it has already
  (`AddressSpace.FaultFails`). Populating a new mapping never does (`Populate.UnmappedIsFree`).
- Fetching an instruction from a page that is not mapped yet is answered with a signal, whatever the
  area allows (`AddressSpace.Fault`).
- The kick decision of the virtio ring counts additions in 16 bits: it is exact below 2^16
  additions since the last kick, and beyond that only about the last of them (`Vring.KickIsExact`,
  with an input in `Vring.KickMissed`). `used_ring_is_half_empty()` compares without reducing to 16
  bits, and says only whether one counter has wrapped and the other has not
  (`Vring.HalfEmptyMeansWrapped`, with an input in `Vring.FullCalledHalfEmpty`).
- A callback can run while a section that was running when it was registered still runs: in every
  state of every grace period that can happen if and only if the CPU of the section was not
  registered when the grace period began (`RcuProof.OvertakenIff`). A run in which a reader holds
  an object that is deleted is `RcuProof.RegisterFirst`; a reader whose CPU was registered when its
  section began never does (`RcuProof.GraceIsKept`).
- The flag that a CPU polls stays set when the idle thread is switched out between setting and
  clearing it, exactly then (`SchedProof.PollStaysSet`, with a run in `SchedProof.PollPreempted`),
  and then other CPUs send it no interrupt (`SchedProof.StaleSendsNone`). No wakeup is lost by it:
  the CPU is not halted.
- The worker that frees objects of other CPUs is meant to be signalled when a ring is half full. A
  step signals it if and only if it is that of a free whose first push found the ring full, and
  which then found it over half full (`RemoteFreeProof.SignalIff`); pushes that succeed fill the
  ring to the brim without (`RemoteFreeProof.FullUnsignalled`).
- `workman::signal()` looks at whether the worker of its own CPU has started, not that of the CPU it
  signals. If it has not, the object that was put into the one-item slot stays there for good, and
  so does whoever waits for the slot. An object in the slot is without anyone who will come to it if
  and only if a signal for it was dropped so (`RemoteFreeProof.SlotIsServedIff`, with a run in
  `RemoteFreeProof.SignalLost`).
- `ring_spsc::pop()` compares its counters without reducing the difference to 32 bits. It finds the
  ring empty if and only if it is, or one counter has wrapped and the other has not
  (`Ring.RingSpsc.Pop`), which then stays so (`Ring.StraddlesMore`); `Ring.Wedge` gets there.
- `protect()` reports a missing page if and only if it is missing from a table of small pages within
  a 2 MB block of the range (`PageOps.Operate`); in a shorter range, or where nothing is mapped, it
  reports success (`PageOps.ProtectNothing`).
- `lookup_symbol()` gives no symbol if the first one its table finds is only referred to, although a
  defined one of the name may follow (`Elf.LookupSymbol`, `Elf.UndefinedHides`).
- A pool gives a page back when it has a spare one. The spare it sees can be the page itself
  (`Pool.ObjectPool.FreeSameCpu`, with an input in `Pool.SpareIsItself`).
- A comment in `unlock()` asks whether its loop can go round more than twice. It cannot
  (`LfMutexProof.MutexIsCorrect`).

## Model

| member | source | states |
|---|---|---|
| LfMutexProof.MutexIsCorrect | core/lfmutex.cc:23-238 | in every state of every interleaving of lock, try_lock, send_lock, receive_lock and unlock by any number of threads: one holder, which is the recorded owner with the recorded depth; one consumer of the queue; only live records not woken before are woken; no assert of the code fails; a published hand-off has someone who will still claim it, or, with an empty queue, a lock that is counted and not yet pushed; unlock's loop goes round at most twice, the second time with a record; while a thread wants the mutex somebody can move or holds it |
| LfMutexProof.KeepStep | core/lfmutex.cc:23-238 | every step keeps the invariant with one token that is free, with one thread, or in the hand-off word |
| LfMutexProof.RunInv | core/lfmutex.cc:23-238 | the invariant holds in every state of every run |
| LfMutexProof.InvNotStuck | core/lfmutex.cc:53-89 | a counted thread never waits with nobody in the critical section and no operation able to go on |
| LfMutexProof.PushIsFifo | include/lockfree/queue-mpsc.hh:56-70 | pushing appends to the queue that the two lists and a reversal in progress stand for |
| LfMutexProof.PopIsFifo | include/lockfree/queue-mpsc.hh:72-105 | each step of a pop, the exchange and the reversal one node at a time included, keeps that queue or takes its oldest record |
| SchedProof.SchedulerIsCorrect | core/sched.cc:184-386 | in every state of every run: each thread is in the one structure that fits its status and in no other; a thread asleep on a predicate that has become true has a wake on its way; a thread in an incoming queue has its bit set or about to be set, or is being drained; a halted CPU has an empty run queue, no drain in progress, and no bit in its mask unless its interrupt is pending or a waker has yet to decide on it; a thread queued for a halted CPU is one whose waker has yet to set the bit, or the interrupt is on its way; nothing the next step takes from a queue is missing |
| SchedProof.KeepInv | core/sched.cc:355-451 | every step of waiting, waking, draining, switching, idling, balancing and terminating keeps the invariant |
| SchedProof.RunInv | core/sched.cc:622-742 | the invariant holds in every state of every run |
| SchedProof.SwitchFinds | core/sched.cc:232-254 | whenever the current thread cannot go on, there is a queued thread, it is not the outgoing one, and none in the queue has a smaller runtime |
| SchedProof.IdleIsQueued | core/sched.cc:315-353 | the idle thread is in the run queue whenever it does not run |
| SchedProof.AlwaysSane | core/sched.cc:355-386 | no enabled step meets an empty queue or a thread that is not there |
| SchedProof.AssertionsHold | core/sched.cc:622-718 | the assertions of the scheduler on thread states hold |
| SchedProof.PollStaysSet | core/sched.cc:296-338 | in every run: another thread runs with the flag set if and only if the idle loop is between setting and clearing it; and a step makes it so if and only if it switches the idle thread out there |
| SchedProof.StaleSendsNone | core/sched.cc:307-313 | no waker then sends an interrupt to that CPU |
| SchedProof.PollPreempted | core/sched.cc:315-338 | a run, on one CPU, in which it happens |
| RcuProof.GraceIsKept | core/rcu.cc:52-129 | in every run, for any number of CPUs and any batching: a callback runs only after every section that ran when it was registered has ended, on all CPUs that were registered when the grace period began; and no reader holds a deleted object if its CPU was registered when its section began |
| RcuProof.RunsAfterGrace | core/rcu.cc:78-117 | the collector is past its wait only when no section of the batch is active on a CPU it asked |
| RcuProof.WorkerCanAnswer | core/rcu.cc:66-76 | a CPU still waited for has a reader on it or a worker that can run, which answers at the latest in its second round |
| RcuProof.CanEnd | core/rcu.cc:89-102 | from every state of every grace period a run leads to its end, with every section on a CPU that was not asked still running |
| RcuProof.OvertakenIff | core/rcu.cc:89-117 | in every state of every grace period, a section the first callback should wait for can still be running when it runs if and only if its CPU was not asked |
| RcuProof.RegisterFirst | core/rcu.cc:38-50 | a run, from the start, in which a reader on a CPU that is not registered holds an object when it is deleted |
| Condvar.GroupedIsAll | core/condvar.cc:139-184 | the regrouped order contains each queued waiter exactly once |
| Condvar.GroupedByCpu | core/condvar.cc:157-178 | between two waiters of one CPU there is none of another |
| Condvar.SendAt | core/condvar.cc:161-178 | unlinking during the traversal leaves the list without exactly that record |
| Condvar.SendSame | core/condvar.cc:161-178 | the inner loop sends the waiters of one CPU in order and leaves the others linked in order |
| Condvar.SendAll | core/condvar.cc:155-183 | the nested traversal sends the grouped order of the whole list |
| Condvar.Cond.Enqueue | core/condvar.cc:35-41 | the waiter is last in the linked list |
| Condvar.Cond.WakeOne | core/condvar.cc:105-135 | the oldest waiter, and no other, goes to the mutex; nothing happens when there is none |
| Condvar.Cond.Remove | core/condvar.cc:56-82 | after a timeout the record is taken out wherever it is and the order of the others stays; not found if and only if it was not queued |
| Condvar.Cond.WakeAll | core/condvar.cc:139-184 | the list is empty and all its waiters went to the mutex in the grouped order |
| CondvarWait.WaitsEndOnce | core/condvar.cc:29-184 | in every run: ETIMEDOUT only if the record was never given to the mutex, 0 only after it was given exactly once and woken, and when a wait returns its record is in no list; queued waiters and those in batches wait with the remembered mutex |
| CondvarWait.KeepInv | core/condvar.cc:29-184 | every step of waits, timeouts and wakes keeps the invariant |
| CondvarWait.ForgottenUnlessTimeout | core/condvar.cc:57-82 | an empty list has no remembered mutex after a step if and only if the step is not the timeout of the last waiter |
| CondvarWait.AssertionCanFail | core/condvar.cc:42-47 | after such a timeout a wait with another mutex fails the assertion with nobody waiting |
| Vma.SplitLookup | core/mmu.cc:899-907 | splitting at a page boundary changes the permission and file offset of no address |
| Vma.SplitExact | core/mmu.cc:899-946 | that holds if and only if the edge is on a page boundary, or the area is anonymous and the edge not in its first page |
| Vma.VmaList.constructor | core/mmu.cc:56-64 | with the two markers nothing is mapped |
| Vma.VmaList.EqualRange | include/mmu.hh:96-106 | exactly the areas that meet the range |
| Vma.VmaList.SplitArea | core/mmu.cc:937-946 | the list stays ordered and every address keeps its attributes |
| Vma.VmaList.EvacuateOne | core/mmu.cc:641-649 | one visit keeps the relation to the old list, although it inserts and erases around the iterator, and comes closer to the end |
| Vma.VmaList.Evacuate | core/mmu.cc:636-652 | exactly the addresses of the range are unmapped; the list stays ordered; the markers stay unless the upper one is inside the range |
| Vma.VmaList.ProtectOne | core/mmu.cc:604-612 | one visit gives the permission to what is in the range of its area |
| Vma.VmaList.Protect | core/mmu.cc:597-616 | exactly the mapped addresses of the range get the permission; file offsets and everything outside stay |
| Vma.VmaList.FindHole | core/mmu.cc:618-634 | the least address at or after the hint with that much room; aborts if and only if there is none |
| Vma.VmaList.IsMapped | core/mmu.cc:766-783 | true if and only if every address of the range is mapped; what it says of an empty range |
| Vma.VmaList.AllocateFree | core/mmu.cc:686-704 | the least free place at or after the hint is mapped in whole pages, and nothing else changes; aborts only for want of room |
| Vma.VmaList.AllocateFixed | core/mmu.cc:686-704 | exactly the range is replaced by the new area, or only unmapped when it starts at 0 |
| Vma.MarkerErased | core/mmu.cc:636-652 | an input for which the upper marker is gone |
| Vma.ZeroRefused | core/mmu.cc:686-704 | an input for which a mapping at 0 leaves nothing mapped |
| Vma.SplitLoses | core/mmu.cc:899-907 | an input for which the upper part of an area is lost |
| Vma.SplitShifts | core/mmu.cc:937-946 | an input for which file offsets are shifted |
| PageTable.IndexIsEntry | include/mmu.hh:34-38 | the index bits of an address select the one entry of a table whose addresses include it |
| PageTable.KidOk | core/mmu.cc:186-191 | the table below an entry covers exactly the addresses of the entry |
| PageTable.ExtendIsEntry | core/mmu.cc:1006-1007 | extending bit 47 gives the canonical address of an entry |
| PageTable.WalkOutside | core/mmu.cc:179-191 | changes at and below one table leave the translation of every address outside it |
| PageTable.WalkWrite | core/mmu.cc:124-141 | writing one entry changes the translation of no address outside the entry |
| PageTable.WalkInto | core/mmu.cc:179-182 | an entry that points to a table sends the walk there |
| PageTable.AllocWalk | core/mmu.cc:241-250 | putting an empty table into an empty entry changes no translation |
| PageTable.Tables.AllocateIntermediateLevel | core/mmu.cc:241-250 | a frame not in use becomes a table of empty entries in its place in the tree |
| LinearMap.LinearIsExact | core/mmu.cc:1008-1018 | an address goes to itself plus delta if and only if delta is a multiple of the size of the page used for it |
| LinearMap.PageIsLinear | core/mmu.cc:1011-1012 | the entry written for a page that fits sends each of its addresses where the range sends it |
| LinearMap.LinearMapLevel | core/mmu.cc:995-1019 | the recursion maps the part of the range in one table, and changes no other address of it and no table elsewhere |
| LinearMap.LinearMap | core/mmu.cc:1026-1033 | every address of the range widened to the slop translates as the linear map says, every other address as before; and large pages stay aligned to their size, if they were and the distance is a multiple of the sizes that fit |
| LinearMap.LinearRangeIsExact | core/mmu.cc:1026-1033 | the whole range is at the distance asked for if and only if the distance is a multiple of every page size that fits in it |
| LinearMap.MisalignedExample | core/mmu.cc:1028-1030 | a call that passes the assertion and maps 2 MB pages at another distance |
| PageOps.SplitWalk | core/mmu.cc:277-291 | a large page and the table of its pieces translate every address alike, with the same permissions |
| PageOps.SplitLargePage | core/mmu.cc:277-291 | the loop writes those pieces, so that no translation changes, from any table |
| PageOps.ChangeEntry | core/mmu.cc:264-275 | changing one entry changes the permissions of exactly its addresses, or unmaps exactly them |
| PageOps.ChangeAll | core/mmu.cc:568-577 | the loop changes every small page of a table, and notices if and only if one is missing |
| PageOps.HugePage | core/mmu.cc:517-577 | for a huge page, small pages in its place or nothing, exactly its addresses are changed; failure if and only if a small page is missing |
| PageOps.OperatePage | core/mmu.cc:419-454 | the walk, splitting large pages on its way, changes exactly the addresses of one small or huge page; it fails if and only if it is a huge one to be protected, with small pages in its place of which one is missing |
| PageOps.TilesOnce | core/mmu.cc:400-408 | visits that follow each other cover each address of the range once and none outside |
| PageOps.HugeBounds | core/mmu.cc:386-398 | the huge part is in the range and contains every huge page that fits, in the degenerate cases too |
| PageOps.Operate | core/mmu.cc:380-417 | protecting or unpopulating visits pages that tile the range, huge wherever one fits, changes exactly the addresses of the range, and reports failure if and only if pages are protected and a small page is missing from its table in a huge block of the range; what is protected in small pages is mapped in small pages then |
| PageOps.FullIff | core/mmu.cc:568-577 | a small page is missing from a huge block if and only if the table in its place is not full |
| PageOps.SplitMissing | core/mmu.cc:277-291 | splitting a large page makes no page missing |
| PageOps.MissingIsNone | core/mmu.cc:206-220 | a page missing from its table is not mapped |
| PageOps.ProtectNothing | core/mmu.cc:556-582 | an input with nothing mapped for which success is reported |
| Populate.FillHuge | core/mmu.cc:479-493 | for a large page, nothing or a table in its place: exactly its unmapped addresses go to a new frame; the assertion fails if and only if a small page is there |
| Populate.FillPage | core/mmu.cc:419-454 | the walk allocates and splits on its way without changing a translation, and maps exactly what was not mapped of one small or huge page |
| Populate.Populate | core/mmu.cc:462-497 | exactly the addresses of the range that were not mapped are mapped to new frames, huge ones wherever they fit, with the permissions given; the assertion on a freed table fails if and only if a small page is mapped in a huge block of the range |
| Populate.UnmappedIsFree | core/mmu.cc:252-262 | where nothing is mapped the assertion holds |
| PageOps.VirtToPhysPt | core/mmu.cc:206-220 | for a mapped address, where the page table sends it |
| AddressSpace.Evacuate | core/mmu.cc:636-659 | the addresses of the range are in no area and not in the page table either, and all others are where they were; every mapped page stays in an area with its permissions |
| AddressSpace.Protect | core/mmu.cc:597-616 | areas and page table get the permission alike; what is reported; nothing happens to the list if all areas have the permission |
| AddressSpace.MapAnywhere | core/mmu.cc:722-734 | the least free place becomes an area, populated completely if asked for, without failing; every mapped page is in an area with its permissions if and only if the place is not at 0 or is not populated |
| AddressSpace.MapFixed | core/mmu.cc:722-734 | what was in the range is gone from list and page table, and the new area is there, likewise |
| AddressSpace.PopulatedBoth | core/mmu.cc:728-732 | the exact condition for that |
| AddressSpace.Fault | core/mmu.cc:811-850 | a signal if and only if there is no area or it does not allow the access; else the page or huge block is mapped with the permissions of the area and what was mapped stays; it aborts if and only if the area is that of a file or a small page is mapped in that huge block |
| AddressSpace.FaultFails | core/mmu.cc:914-928 | a sequence of calls, at every huge block, after which a fault fails it |
| PageRanges.Canonical | core/mempool.cc:372-386 | ranges that are ordered, not empty and do not touch are determined by the pages they contain |
| PageRanges.FreeInOne | core/mempool.cc:418-432 | pages that are free in a row are in one range |
| PageRanges.FreeRestores | core/mempool.cc:434-463 | freeing what was taken gives the same ranges, not just the same pages |
| PageRanges.FreeRanges.FreePageRange | core/mempool.cc:434-445 | the pages are free, and the ranges do not touch |
| PageRanges.FreeRanges.MallocLarge | core/mempool.cc:388-416 | pages that were free are no longer so, and no others; aborts if and only if that many are nowhere free in a row |
| PageRanges.FreeRanges.TakeBlock | core/mempool.cc:628-650 | an aligned block is taken and what is around it stays free |
| PageRanges.FreeRanges.AllocHugePage | core/mempool.cc:619-657 | an aligned block that was free; aborts if and only if there is none |
| PageRanges.MallocFree | core/mempool.cc:388-463 | malloc_large and free_large one after the other leave the ranges as they were |
| PageRanges.Pages.constructor | core/mempool.cc:472-478 | at first no page is anywhere |
| PageRanges.Pages.AllocLocal | core/mempool.cc:528-537 | a page of the CPU's buffer is handed out, none if and only if it is empty |
| PageRanges.Pages.FreeLocal | core/mempool.cc:539-549 | the page is in the CPU's buffer, refused if and only if it is full |
| PageRanges.Pages.RefillPageBuffer | core/mempool.cc:480-511 | pages move only from the ranges to this buffer, until it is half full or none are left; aborts if and only if none were free |
| PageRanges.Pages.UnfillPageBuffer | core/mempool.cc:513-526 | pages move only from this buffer to the ranges, until it is at most half full |
| PageRanges.Pages.AllocPage | core/mempool.cc:575-588 | a page that nobody had, and no other page changes hands; aborts if and only if buffer and ranges are empty |
| PageRanges.Pages.FreePage | core/mempool.cc:597-606 | the page is back and no other page changes hands |
| PageRanges.Pages.AllocLarge | core/mempool.cc:388-416 | every boot page stays in exactly one place: those of the range are handed out |
| PageRanges.Pages.AllocHuge | core/mempool.cc:619-657 | likewise for an aligned block |
| PageRanges.Pages.FreeLarge | core/mempool.cc:447-463 | likewise back to the ranges |
| PageRanges.Pages.FreeInitialMemoryRange | core/mempool.cc:664-686 | exactly the whole pages within the bytes given are added, never page 0 |
| Pool.Ilog2RoundupIs | include/ilog2.hh:33-41 | the least power of two that is large enough |
| Pool.SizeClassFits | core/mempool.cc:358-365 | the pool of a request exists and its objects are large enough, and less than twice as large above the smallest size |
| Pool.OffsetsFit | core/mempool.cc:237-241 | an object is counted if and only if it is behind the header |
| Pool.LinkObjects | core/mempool.cc:237-241 | the loop links all objects that fit, each once |
| Pool.OwnerIsFound | core/mempool.cc:779-794 | address bits alone tell early, large and pooled blocks apart, and lead to the page of an object |
| Pool.ObjectPool.constructor | core/mempool.cc:161-166 | no page and no object in use |
| Pool.ObjectPool.AddPage | core/mempool.cc:225-244 | a page of free objects at the end of the CPU's list |
| Pool.ObjectPool.Alloc | core/mempool.cc:187-215 | an object not in use before is in use, of the first page of this CPU, or a new one if there is none; used and free objects make up each page, and a page is listed if and only if it has a free one |
| Pool.ObjectPool.Release | core/mempool.cc:257-263 | a page leaves with its objects, all other pages stay |
| Pool.ObjectPool.GiveBack | core/mempool.cc:264-276 | the object is free in its page, which is listed |
| Pool.ObjectPool.FreeSameCpu | core/mempool.cc:251-277 | exactly the object is no longer in use; its page leaves if and only if none of its objects is in use and the last page of the list, possibly the same, has none in use |
| Pool.SpareIsItself | core/mempool.cc:251-277 | an input for which the only page is given back |
| RemoteFreeProof.FreedOnce | core/mempool.cc:279-314 | in every run an object freed on another CPU is with one thread, in one ring, in the one-item slot, with the worker or back, once; and a thread asleep until the slot is empty finds it full or is about to be woken |
| RemoteFreeProof.KeepInv | core/mempool.cc:113-138 | every step of the freeing threads and of the worker keeps the invariant |
| RemoteFreeProof.SlotIsServedIff | core/percpu-worker.cc:62-84 | in every run, an object in the slot is without a worker that will come to it, or a thread that may still signal one, if and only if a signal was dropped because the worker of the signalling CPU had not started |
| RemoteFreeProof.StuckBegins | core/mempool.cc:298-309 | exactly one step leaves it so: also when the worker empties the ring between the failed push and the look at its size, it has yet to come to the slot |
| RemoteFreeProof.StuckStays | core/mempool.cc:290-297 | from then on no step changes it |
| RemoteFreeProof.SignalLost | core/percpu-worker.cc:62-66 | a run, for every size of the ring, that leads there |
| RemoteFreeProof.SignalIff | core/mempool.cc:285-309 | in every run, a step sets the flag for the worker if and only if it is that of a free whose first push found the ring it went to full, and which after that found a ring over half full |
| RemoteFreeProof.FullUnsignalled | core/mempool.cc:285-286 | a run, for every size of the ring, in which pushes that succeed fill it with no flag set |
| Ring.RingSpsc.constructor | include/lockfree/ring.hh:24-24 | an empty ring |
| Ring.RingSpsc.Push | include/lockfree/ring.hh:26-39 | the element is last; refused if and only if the ring is full, whatever the counters are |
| Ring.RingSpsc.Pop | include/lockfree/ring.hh:41-54 | the oldest element; refused if and only if there is none or the counters straddle the wrap |
| Ring.RingSpsc.Size | include/lockfree/ring.hh:56-61 | the number of elements |
| Ring.CompareIs | include/lockfree/ring.hh:43-48 | what comparing counters that wrap says |
| Ring.StraddlesMore | include/lockfree/ring.hh:26-54 | once they straddle it, pushing as much as fits leaves them so |
| Ring.Wedge | include/lockfree/ring.hh:41-54 | after 2^32 - 1 elements the next one cannot be popped |
| Vring.PostPartition | drivers/virtio-vring.cc:103-165 | taking descriptors from the free list keeps each descriptor in one place, and the new head is not out |
| Vring.RecyclePartition | drivers/virtio-vring.cc:167-195 | so does giving a chain back |
| Vring.HostTakesOk | drivers/virtio-vring.cc:155-161 | the host finds the heads in the avail ring in the order they were posted |
| Vring.HostReturnsOk | drivers/virtio-vring.cc:199-213 | a host that returns each head it took once keeps the invariant, across the wrap of its counter |
| Vring.FetchOk | drivers/virtio-vring.cc:198-218 | the entry read names a head that is out |
| Vring.FinalizeOk | drivers/virtio-vring.cc:220-228 | finalizing an entry keeps the invariant |
| Vring.GcOneOk | drivers/virtio-vring.cc:170-193 | walking the flags of a chain finds its end, and only finished heads are recycled |
| Vring.PostedOk | drivers/virtio-vring.cc:103-165 | a filled chain that is posted keeps the invariant |
| Vring.CollectFrees | drivers/virtio-vring.cc:167-195 | exactly the chains of the finished heads come back, with the count of their descriptors |
| Vring.RoomIsReal | drivers/virtio-vring.cc:243-249 | the room promised is never more than recycling gives |
| Vring.HalfEmptyMeansWrapped | drivers/virtio-vring.cc:256-259 | true if and only if the host's counter has wrapped where the driver's has not |
| Vring.FullCalledHalfEmpty | drivers/virtio-vring.cc:256-259 | an input for which a full ring is called half empty |
| Vring.KickIsExact | drivers/virtio-vring.cc:261-278 | with the event index: kicked if and only if the entry asked about was added since the last kick, below 2^16 additions, and what happens beyond |
| Vring.KickMissed | drivers/virtio-vring.cc:261-278 | an input for which the host is not kicked although it asked |
| Vring.KickedOk | drivers/virtio-vring.cc:261-278 | kicking keeps the invariant |
| Vring.FreshOk | drivers/virtio-vring.cc:29-61 | a new ring has all descriptors on its free list, linked in order |
| Vring.NothingReturned | drivers/virtio-vring.cc:204-209 | the 16-bit counters are equal if and only if nothing is returned and unread; otherwise the slot read holds the oldest such entry |
| Vring.VirtQueue.constructor | drivers/virtio-vring.cc:29-61 | the ring is fresh and satisfies the invariant |
| Vring.VirtQueue.AddBuf | drivers/virtio-vring.cc:103-165 | succeeds if and only if the segments fit after recycling; then they are, in order, the chain of a head that was not out, posted last and owing the cookie, and nothing else changes |
| Vring.VirtQueue.GetBufGc | drivers/virtio-vring.cc:167-195 | the loop over the shared rings recycles all finished entries |
| Vring.VirtQueue.GetBufElem | drivers/virtio-vring.cc:198-218 | the cookie owed for the oldest unread entry, once; nothing if and only if none is there |
| Vring.VirtQueue.GetBufFinalize | drivers/virtio-vring.cc:220-228 | one more entry may be recycled, and the host is told its number if interrupts are on |
| Vring.VirtQueue.AvailRingHasRoom | drivers/virtio-vring.cc:243-249 | true only if the next add_buf of that many segments succeeds |
| Vring.VirtQueue.Kick | drivers/virtio-vring.cc:261-278 | tells the device as decided, and forgets what was added only then |
| VringRun.CookiesInOrder | drivers/virtio-vring.cc:198-218 | over every history of postings, recycling, reads and steps of the host: no posting is returned twice, the cookies given out are those of the postings in the order of their return, each at most once, and the next call gives the next one |
| VringRun.KeepInv | drivers/virtio-vring.cc:103-228 | every such step keeps the invariant |
| Cksum.OnesSumWeighted | bsd/machine/in_cksum.c:59-71 | the one's-complement sum of RFC 1071 is the sum of the bytes weighted by parity, folded, with zero only for zero |
| Cksum.InCksumdata | bsd/machine/in_cksum.c:91-170 | for every length and alignment the unrolled, masked loops sum exactly the bytes of the buffer, with no overflow of 64 bits |
| Cksum.Segment | bsd/machine/in_cksum.c:217-228 | a buffer is added with the shift its parity needs |
| Cksum.Skip | bsd/machine/in_cksum.c:203-212 | what is left to sum after skipping is the rest of the data |
| Cksum.Rest | bsd/machine/in_cksum.c:214-229 | the sum of the rest of the chain |
| Cksum.InCksumSkip | bsd/machine/in_cksum.c:193-232 | for every chain, fragmentation and alignment, the RFC 1071 checksum of the bytes from skip to len |
| Cksum.InCksumHdr | bsd/machine/in_cksum.c:234-241 | the checksum of the 20 header bytes; at an odd address, of the bytes moved by one |
| Cksum.CarriedChecksumVerifies | bsd/machine/in_cksum.c:193-232 | data that carries its own checksum in an even place has checksum 0 |
| PipeRun.PipeIsCorrect | libc/pipe_buffer.cc:144-196 | in every interleaving of readers and writers with scattered buffers: bytes taken and then queued are the bytes put in, in order; at most 8192 queued; a write of at most 4096 bytes goes in all or not at all, in one piece; what a write has put in and what is left are its data; one that returns success put in all of it unless the receiver is gone or it is a large one that may not block; the assertion holds |
| PipeRun.ReadsAreCorrect | libc/pipe_buffer.cc:95-115 | in every run a read has in its buffers, in order, what it took at one time; it returns none only if it asked for none or the sender is gone, or with EAGAIN if it may not block |
| PipeRun.EagainIff | libc/pipe_buffer.cc:100-103 | a step returns EAGAIN for a read if and only if it may not block, asks for something and finds the queue empty with the sender there |
| PipeRun.NoWakeupIsLost | libc/pipe_buffer.cc:104-118 | in every run those asleep would go to sleep again, or somebody is about to wake them all |
| PipeRun.CopyIn | libc/pipe_buffer.cc:174-174 | what a step of a writer copies is what the loop over the vectors copies, and stops where it stops |
| PipeRun.CopyOut | libc/pipe_buffer.cc:110-110 | what a step of a reader takes is what the loop over the vectors takes |
| PipeRun.KeepInv | libc/pipe_buffer.cc:15-35 | every step of reads, writes, waking and detaching keeps the invariant |
| Pipe.CopyFromUio | libc/pipe_buffer.cc:121-142 | as many bytes as fit, from where the last copy stopped, in order across the vectors, and the place where this one stops |
| Pipe.StopRest | libc/pipe_buffer.cc:121-142 | from where the copy stops, what is left is the rest of the bytes |
| Pipe.CopyToUio | libc/pipe_buffer.cc:83-93 | the first bytes of the queue, as many as the vectors hold, laid out in them in order |
| Pipe.SpreadFlat | libc/pipe_buffer.cc:83-93 | the vectors then contain that prefix of the queue, none more than its length |
| Elf.DlNewHash | core/elf.cc:517-525 | cutting the 64-bit loop once at the end gives the 32-bit hash |
| Elf.FoldsAgree | core/elf.cc:490-493 | the folding in 64 bits is that of the System V ABI in 32 |
| Elf.Elf64Hash | core/elf.cc:484-496 | the hash function of chapter 5 of the System V ABI |
| Elf.FilterPasses | core/elf.cc:538-544 | the weakened Bloom test turns away no symbol that is there |
| Elf.LookupGnu | core/elf.cc:527-560 | for every well-formed table, the first hashed symbol of the name; none if and only if a scan of the hashed symbols finds none |
| Elf.LookupOld | core/elf.cc:498-515 | the first symbol of the name in its row; none if and only if a scan of the symbols finds none |
| Elf.LookupsAgree | core/elf.cc:562-577 | if the symbols of the name are all defined or all not, both tables give a symbol or both none, and the same one if there is one of the name |
| Elf.LookupSymbol | core/elf.cc:562-577 | if the object is visible, the symbol its table gives unless that is only referred to; so none if and only if no defined one has the name, where those of the name are all defined or all not |
| Elf.UndefinedHides | core/elf.cc:573-575 | a well-formed table for which the lookup gives no symbol although a defined one of the name is there |

## Left out

Assumptions. Memory is sequentially consistent. Time, the network and the device are parameters.
Addresses and sizes are unbounded, so 64-bit wrap-around of a sum such as `start + size` is not
modelled.

- LfMutexProof.MutexIsCorrect: `sequence` and `count` are not bounded by 32 bits, so a hand-off number that comes round again after 2^32 hand-offs is not modelled; the node links of a push are not separate steps.
- SchedProof.SchedulerIsCorrect: the floating-point runtimes and their renormalisation are ordered values that any step may choose on waking and that never decrease while a thread runs; timers, reference counts of terminated threads and CPUs that come up later are not modelled.
- RcuProof.GraceIsKept: `rcu_synchronize()` and counters that wrap after 2^64 grace periods are not modelled.
- Condvar.Cond.WakeAll: the CPU of a waiting thread is constant during the call, as a waiting thread is not migrated.
- CondvarWait.WaitsEndOnce: what the mutex does between receiving a record and waking it is in the mutex model, which takes waiters of condition variables as a case of its own; here it is one step.
- Vma.VmaList.AllocateFixed: only ranges below the upper marker; a range across it erases the marker, as Evacuate states.
- Vma.VmaList.Evacuate: only page-aligned ranges, as for Protect.
- AddressSpace.MapFixed: only ranges below the upper marker; sizes are whole pages, as `map_anon()` rounds them.
- AddressSpace.Fault: operations on the page table are one after another, so a compare-and-swap in `populate` never fails; the contents of pages, and mappings of files, which are populated and read, are not modelled.
- LinearMap.LinearMap: only ranges of at least one byte in one half of the address space, a slop that is a power of two and at least a page, and no large page cut by the ends of the range, which the code would take for a table.
- PageOps.Operate: the TLB flush and the frames given back are not modelled, so a frame is never used again.
- Populate.Populate: the frames are given; that no two pages share one is a matter of the allocator.
- PageOps.VirtToPhysPt: only for addresses that are mapped, as the code asserts.
- PageRanges.Pages.AllocPage: allocation before the first CPU is up, which takes pages from the ranges directly, is not modelled; addresses are page numbers.
- Vring.HostReturnsOk: the host returns only heads it took, and the ring size divides 2^16, as section 2.4 of VIRTIO 1.0 demands; indirect descriptors are switched off in the code and not modelled.
- Cksum.InCksumSkip: lengths are at most 2^31 - 1 and skip at most len, as the types and callers of the code have it.
- Elf.LookupGnu: the table and strings are well formed; names are sequences of bytes without the terminating zero; symbol versions are not modelled, as the code does not look at them.
- RemoteFreeProof.FreedOnce: what `free()` on the owning CPU does to the page is in the pool model; a ring takes and gives elements as a queue does, which the code's does up to 2^32 of them, as Ring.RingSpsc.Pop states; the thread of a worker exists before objects of its CPU are freed elsewhere, and a flag it waits for wakes it, as the scheduler model has it.
- PageRanges.FreeRanges.AllocHugePage: `int endsize` is not modelled; it is less than the size asked for, so exact below 2^31 bytes.
- Vring.VirtQueue.AddBuf: at least one segment; with none the code writes through index -1.
- Semaphores, read-write locks, timers, file systems, drivers other than the virtio ring, the loader apart from symbol lookup, the network stack apart from the checksum, and the Java launcher are not modelled; several would only add easier versions of the properties above.
- `std_realloc`, `object_size`, `lookup_addr` and `symtab_len` are not modelled.
