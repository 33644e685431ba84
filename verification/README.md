# xv6 with an MLFQ scheduler: a verified model

A Dafny model of the parts of this xv6 kernel that hold their promises over whole runs: what survives
a crash, who runs when, which page or block belongs to whom, and three user programs.  Each module
follows one or two source files.  Code that updates state in place is a class or a method with
loops, proved against functions on values; protocols between processes, CPUs or a device are step
machines in which any participant may move next, with invariants proved for every step and theorems
about every run.

| module | what it models |
|---|---|
| `Bio` | the buffer cache: the ring of buffers, lookup, recycling in least-recently-used order (kernel/bio.c) |
| `Journal` | the redo log over the cache as a step machine: any number of operations and readers, one committer, crashes after any step (kernel/log.c, kernel/bio.c) |
| `Log` | the loops of kernel/log.c as methods, with every state the disk passes through |
| `Admission` | begin_op's reservation against log_write's guard: when the promise holds, and that it fails for the log mkfs makes |
| `SleepLock` | sleep locks on top of sleep and wakeup (kernel/sleeplock.c, kernel/proc.c) |
| `Scheduler` | dispatch, tick, yield, sleep, exit, boost and setprocpriority over NCPU CPUs (kernel/proc.c, kernel/trap.c) |
| `Fairness` | the same scheduler on one CPU under CPU-bound load, in closed form |
| `Mlfq` | the rules of the scheduler, replayed on the history of one process, against that step machine; its life cycle and progress |
| `OneCpu` | the step machine of `Scheduler` when one CPU takes all steps: it goes through the rounds of `Fairness`, or starves processes |
| `ExitWait` | fork, exit, reparent and wait under wait_lock (kernel/proc.c) |
| `PageTable` | Sv39 page tables (section 4.4 of the RISC-V Privileged Architecture), the page pool, user memory and its copying (kernel/vm.c, kernel/kalloc.c) |
| `Inode` | block allocation, direct and indirect blocks, reading, writing and truncating files (kernel/fs.c) |
| `Virtio` | descriptors and rings of the disk driver (kernel/virtio_disk.c; sections 2.6 and 5.2 of VIRTIO 1.1) |
| `Umalloc` | malloc and free over the circular free list (user/umalloc.c) |
| `Shell` | the command parser (user/sh.c) |
| `ShellGrammar` | the grammar of the lines that parser accepts |
| `Grep` | the regular expression matcher and the line buffer (user/grep.c) |
| `Finite`, `Options` | cardinalities of finite sets and sequences without repetition; optional values |

`dafny verify dfyconfig.toml` checks everything.

Where the code and its documentation part, the model follows the code:

* Rule 2 in the repository's README speaks of round robin inside a queue.  Every scan of the
  scheduler restarts at the first entry of the table, so ties go to table order;
  `Fairness.LowestQueueIsNotShared` shows what that means.
* begin_op reserves room for LOGSIZE blocks, but log_write already refuses at log.size - 1, and mkfs
  makes logs of LOGSIZE blocks.  `Admission.PanicFreeIff` gives the exact condition and
  `Admission.MkfsLogPanics` a run that meets the panic.
* grep prints nothing from the first line on that does not fit its buffer; `Grep.AllPrintedIff` says
  when that loses nothing, and `Grep.MatchingLineLost` gives an input where it does.
* The boost keeps CPU-bound processes from starving (`Fairness.NoLongWait`, `OneCpu.DrivenNoLongWait`),
  but only them.  `OneCpu.Starvation` shows processes that sleep before each tick starving all others,
  and `OneCpu.StarvationDespiteBoosts` two that use setpriority, over any number of boosts.
* wait tests killed before sleep takes the process's lock, so a kill in between leaves the process
  asleep; `ExitWait.KillMissedIff` says that this is the only case, `ExitWait.KillCanBeMissed` gives a run.
* A log of more than LOGSIZE blocks would avoid the panic above, but a full transaction would then pin
  every buffer and leave bget none for the log's own blocks: `Journal.SpareBufferIff`.

## Model

| member | source | states |
|---|---|---|
| `Bio.BgetKeepsUnique` | kernel/bio.c:59-89 | whether bget finds the block or recycles a buffer, at most one buffer holds each block of a device >= 1 afterwards |
| `Bio.MoveToFrontKeepsPermutation` | kernel/bio.c:127-133 | moving a released buffer to the front leaves the ring a permutation of all NBUF buffers |
| `Bio.ReleaseKeepsRecency` | kernel/bio.c:117-137 | along the ring the unused buffers stay in decreasing order of the time they became unused, also when the last reference goes |
| `Bio.RecycleTakesOldest` | kernel/bio.c:76-86 | the buffer bget recycles is unused, and no unused buffer became free earlier |
| `Bio.CacheStepOk` | kernel/bio.c:59-151 | bget, brelse, bpin and bunpin all keep uniqueness, the permutation and the recency order |
| `Bio.RecyclesLeastRecent` | kernel/bio.c:59-137 | in every run of the cache, what bget recycles is the unused buffer that became free longest ago |
| `Bio.UnlinkRing` | kernel/bio.c:127-128 | with the two neighbours joined, next and prev link exactly the remaining buffers in a ring, in their order |
| `Bio.LinkFrontRing` | kernel/bio.c:129-132 | with a buffer put in behind the head, next and prev link the new ring, the buffer first |
| `Bio.BufferCache.constructor` | kernel/bio.c:37-53 | binit links all NBUF unused buffers into a ring, the last one most recent |
| `Bio.BufferCache.Lookup` | kernel/bio.c:66-73 | the forward search returns the first buffer from the head that holds the block, or finds there is none |
| `Bio.BufferCache.FindUnused` | kernel/bio.c:77-86 | the backward search returns the last unused buffer of the ring, or finds that all are in use |
| `Bio.BufferCache.Bget` | kernel/bio.c:59-89 | bget on the linked ring is exactly a hit or a recycling, and panics exactly when the block is not cached and no buffer is unused |
| `Bio.BufferCache.Brelse` | kernel/bio.c:117-137 | brelse drops one reference and, when it was the last, moves the buffer to the front; nothing else changes |
| `Bio.BufferCache.Bpin` | kernel/bio.c:140-144 | one more reference to that buffer, nothing else |
| `Bio.BufferCache.Bunpin` | kernel/bio.c:147-151 | one reference less to that buffer, and no move in the ring |
| `Journal.HeaderRoundTrip` | kernel/log.c:87-114 | the header block that write_head builds reads back as the same list of block numbers |
| `Journal.FillReadsCurrent` | kernel/bio.c:93-103 | when bread has to read the disk, the disk has the newest contents of that block: pinned and half-installed blocks are already cached |
| `Journal.LogsNewest` | kernel/log.c:179-191 | the contents write_log copies into the log are the newest writes of the transaction |
| `Journal.CommitPoint` | kernel/log.c:194-203 | once the header names a fully written log, the disk alone determines the new home blocks |
| `Journal.InstallsCommitted` | kernel/log.c:69-83 | what install_trans copies home is the committed contents of that block |
| `Journal.InstallOne` | kernel/log.c:69-83 | a disk that is part-way through installing still recovers to the same home blocks |
| `Journal.ErasePoint` | kernel/log.c:201-202 | clearing the header after everything is installed does not change what the disk recovers to |
| `Journal.NextInv` | kernel/log.c:69-235 | every step of every operation, of the committer and of recovery, and every crash, keeps the whole invariant of disk, cache, pins and log |
| `Journal.RecoveredIsCommitted` | kernel/log.c:117-123 | recovery of any disk in that invariant yields exactly the committed home blocks |
| `Journal.CrashSafe` | kernel/log.c:69-203 | cut any run after any step, recovery included: the home blocks are the state after exactly the transactions committed so far, each whole |
| `Journal.CommitsOnlyAtHeader` | kernel/log.c:194-203 | a transaction joins the committed ones exactly when its first write_head reaches the disk, and is never lost |
| `Journal.CacheRefinesStore` | kernel/bio.c:59-112 | cache and disk are one map: outside a commit the home blocks on disk are the committed state, and a filled, unmodified buffer always shows the newest write |
| `Journal.LoggedBlocksStayCached` | kernel/log.c:215-235 | every logged block stays in exactly one buffer, filled and referenced, until it is installed |
| `Journal.OperationsAreAtomic` | kernel/log.c:127-175 | the writes of one operation are never split between two commits, and a running operation has nothing committed |
| `Journal.Fate` | kernel/log.c:215-235 | from any log_write on, in every later state: it waits for the commit, or a commit holds it, or its operation is over and none of its writes is or will be on disk; without a crash it is never the last, by Journal.FinishedIsDurable |
| `Journal.NothingLeftBehind` | kernel/log.c:147-203 | in every reachable state with no operation open, no commit running and recovery over, every log_write has been committed and the log is empty: the last end_op always commits, and commits all |
| `Journal.FinishedIsDurable` | kernel/log.c:147-235 | a log_write is committed, with the contents it had, once all operations have ended and the commit is over, whatever ran in between, unless there was a crash; Journal.CrashSafe then makes it survive any later one |
| `Journal.FewOperations` | kernel/log.c:127-142 | at most LOGSIZE / MAXOPBLOCKS operations are open at a time |
| `Journal.CommitProgress` | kernel/log.c:69-203 | every step of the committer, and of recovery, leaves less of it to do |
| `Journal.WorkLeft` | kernel/log.c:69-203 | that measure is never negative, and zero in exactly the states in which neither commit nor recovery is under way and operations may begin |
| `Journal.CommitHoldsEveryWrite` | kernel/log.c:147-235 | step by step: if a commit holds any write of an operation it holds the block and contents of every log_write that operation made before |
| `Journal.NoOpWhileCommitting` | kernel/log.c:147-175 | while a commit runs no operation is inside a transaction, so the panic in end_op cannot fire |
| `Journal.SpareBufferIff` | kernel/bio.c:76-88 | when nobody else holds a buffer, bget finds one to recycle exactly if the log pins fewer than NBUF; always if log.size <= LOGSIZE |
| `Log.RedoLog.BeginOp` | kernel/log.c:127-142 | an operation is admitted exactly when no commit runs and MAXOPBLOCKS more blocks per operation still fit |
| `Log.RedoLog.LogWrite` | kernel/log.c:215-235 | the block is recorded once (absorption), in order; the two panics fire under exactly their conditions and change nothing |
| `Log.RedoLog.WriteLog` | kernel/log.c:179-191 | after n block writes the log area holds the newest contents of the logged blocks; no disk state on the way differs at home or in the header |
| `Log.RedoLog.WriteHead` | kernel/log.c:103-114 | one block write, after which the header on disk spells the list in memory |
| `Log.RedoLog.ReadHead` | kernel/log.c:87-97 | the list in memory is the one the header on disk spells |
| `Log.RedoLog.InstallTrans` | kernel/log.c:69-83 | all blocks are home, and every disk state on the way recovers to the committed state |
| `Log.RedoLog.Commit` | kernel/log.c:194-203 | of its 2n+2 block writes, a crash before the (n+1)-st recovers the old state and a crash from there on the new one; at the end the disk is the new state with an empty log |
| `Log.RedoLog.RecoverFromLog` | kernel/log.c:117-123 | the home blocks become what the log prescribes, and a crash at any write of recovery leads to the same state |
| `Log.AllRecoverMeans` | kernel/log.c:117-123 | a crash that leaves any disk state of such a stretch recovers to the promised home blocks |
| `Admission.RunReserved` | kernel/log.c:127-142 | in every run the logged blocks plus the calls the admitted operations may still make fit in LOGSIZE |
| `Admission.PanicFreeIff` | kernel/log.c:215-235 | operations that make at most MAXOPBLOCKS calls never meet the panic "too big a transaction", in any run, if and only if log.size > LOGSIZE |
| `Admission.MkfsLogPanics` | mkfs/mkfs.c:25 | with the log that mkfs makes, a run of three admitted operations reaches that panic |
| `SleepLock.NextInv` | kernel/sleeplock.c:22-41 | every step of acquiresleep, releasesleep, sleep, wakeup and kill, in any interleaving, keeps the lock invariant |
| `SleepLock.MutualExclusion` | kernel/sleeplock.c:22-41 | at most one process is between acquiresleep and releasesleep |
| `SleepLock.HoldingSleepExact` | kernel/sleeplock.c:44-52 | holdingsleep is true for exactly the process that holds the lock |
| `SleepLock.NoLostWakeup` | kernel/proc.c:644-692 | when the lock is free and no releaser is inside releasesleep, nobody sleeps on it and nobody is committed to sleeping |
| `SleepLock.ScanLeavesNoSleeper` | kernel/proc.c:679-692 | while a releaser scans, nobody it has passed sleeps on the lock |
| `SleepLock.AcquireReturnsHolding` | kernel/sleeplock.c:22-31 | acquiresleep returns only as the owner of the lock, and only when the lock was free; until then it goes on trying, also after a wakeup or a kill |
| `SleepLock.TestDecides` | kernel/sleeplock.c:22-31 | a process that finds the lock free takes it, and one that finds it taken is on its way to sleep |
| `SleepLock.HeldUntilReleased` | kernel/sleeplock.c:22-41 | the lock stays with its owner until that very process releases it |
| `SleepLock.NoDeadlock` | kernel/sleeplock.c:22-41 | in every reachable state in which anyone holds or wants the lock, some process can take a step |
| `Umalloc.FreeIntoOk` | user/umalloc.c:25-44 | inserting and merging a freed block keeps the list ascending, disjoint and fully merged, and conserves units |
| `Umalloc.FreeIntoApart` | user/umalloc.c:25-44 | the list after free overlaps nothing that the old list and the freed block did not overlap |
| `Umalloc.TakeFromOk` | user/umalloc.c:74-84 | carving a block keeps the list ascending, disjoint and fully merged, and conserves units |
| `Umalloc.TakeFromApart` | user/umalloc.c:74-84 | what is carved off overlaps neither the remaining list nor anything the list did not overlap |
| `Umalloc.FreeIntoCovers` | user/umalloc.c:25-44 | after free the free memory is exactly the old free memory and the freed block, unit by unit |
| `Umalloc.TakeFromCovers` | user/umalloc.c:74-84 | after malloc the free memory is exactly the old free memory without the block it carved, unit by unit |
| `Umalloc.FreeMemory` | user/umalloc.c:33-43 | the header assignments of free turn headers that spell the old circular list into headers that spell the new one |
| `Umalloc.FreeHeapOk` | user/umalloc.c:25-44 | free keeps the whole heap invariant: list, headers, freep, live blocks apart, free plus live equal to what sbrk gave |
| `Umalloc.TakeHeapOk` | user/umalloc.c:74-84 | taking a block keeps the whole heap invariant |
| `Umalloc.GrowHeapOk` | user/umalloc.c:47-61 | a grant of sbrk becomes a live block without breaking the heap invariant |
| `Umalloc.Heap.constructor` | user/umalloc.c:22-22 | before the first call nothing is free, live or granted |
| `Umalloc.Heap.FindPlace` | user/umalloc.c:31-33 | the search loop of free terminates at the list position where the block belongs, wherever it starts |
| `Umalloc.Heap.Free` | user/umalloc.c:25-44 | the live block goes back to the list at its place, merged with its neighbours; all else stays live |
| `Umalloc.Heap.Morecore` | user/umalloc.c:47-61 | a grant of at least MORE units is freed into the list and leaves a block of the wanted size; a refusal changes nothing |
| `Umalloc.Heap.Malloc` | user/umalloc.c:64-90 | the search terminates; the first block from freep on that is large enough, if there is one, is used, and sbrk is then not asked; null only when no free block was large enough and sbrk refused, with nothing changed; a result is a new live block of the fewest units that hold nbytes and a header |
| `Inode.WordRoundTrip` | kernel/fs.c:402-415 | a block number stored in an indirect block reads back, and no other entry changes |
| `Inode.MarkExact` | kernel/fs.c:74-80 | setting or clearing a bitmap bit changes the bit of that block and of no other |
| `Inode.LinkDirect` | kernel/fs.c:388-395 | a free block put into a direct entry keeps the file system consistent and changes no byte of any file |
| `Inode.LinkIndirect` | kernel/fs.c:401-407 | a free block made the indirect block keeps the file system consistent and changes no byte of any file |
| `Inode.LinkWord` | kernel/fs.c:408-416 | a free block put into an indirect entry keeps the file system consistent and changes no byte of any file |
| `Inode.StoreKeeps` | kernel/fs.c:516-530 | writing into one block of a file keeps the file system consistent and the bytes of every other file |
| `Inode.StoreBytes` | kernel/fs.c:516-530 | writing into one block of a file changes exactly that stretch of that file |
| `Inode.UnlinkDirect` | kernel/fs.c:432-437 | freeing a direct block, which is in use and the file's own, keeps the file system consistent |
| `Inode.UnlinkWord` | kernel/fs.c:439-445 | freeing a block named by the indirect block keeps the file system consistent |
| `Inode.UnlinkIndirect` | kernel/fs.c:446-449 | freeing an indirect block that names nothing keeps the file system consistent |
| `Inode.UsedExactly` | kernel/fs.c:66-105 | the bitmap marks exactly the metadata blocks and the blocks some inode names |
| `Inode.NamedOnce` | kernel/fs.c:383-421 | no block is named twice, by one inode or two, as data or as indirect block |
| `Inode.IndirectOnce` | kernel/fs.c:401-407 | no two inodes share an indirect block, even one that names nothing yet |
| `Inode.Covered` | kernel/fs.c:383-421 | below its size a file has all its blocks, so writing there needs none |
| `Inode.WrittenContent` | kernel/fs.c:506-539 | the bytes written, under the new size, are the old contents with the data laid over them, cut at that size |
| `Inode.FileSystem.constructor` | mkfs/mkfs.c:93-115 | an empty file system whose bitmap marks the metadata is consistent |
| `Inode.FileSystem.Balloc` | kernel/fs.c:66-88 | the lowest free block is marked and zeroed; 0 exactly when no block is free |
| `Inode.FileSystem.Bfree` | kernel/fs.c:92-105 | clears the bit of a block in use; freeing a free block is the panic |
| `Inode.FileSystem.Bmap` | kernel/fs.c:383-421 | returns the block of that position, allocating it (and the indirect block) if need be, 0 only when the disk is full; no byte of any file changes, and nothing at all if the block existed |
| `Inode.FileSystem.Readi` | kernel/fs.c:472-496 | delivers exactly the requested slice, cut at the end of the file; -1 exactly when the user cannot take all of it, who then has what fits; 0 when the offset is past the end or the sum wraps; changes nothing |
| `Inode.FileSystem.WriteBlocks` | kernel/fs.c:516-530 | the loop lays a prefix of the data over the file: all of it; or up to the start of a block that the file did not have before, the disk being full; or up to the block in which the copy from the user fails, with the bytes before the failure stored but not counted; other files are left alone |
| `Inode.FileSystem.Writei` | kernel/fs.c:506-539 | the contents become old[..off] + src[..r] + old[off+r..]; r is short only at a block the file did not have, the disk being full, or where a copy from the user fails, with up to a block more of src stored but not counted; a write inside the file that the user supports is never short; -1 with no change in exactly the refused cases; other files keep their contents |
| `Inode.FileSystem.Itrunc` | kernel/fs.c:426-453 | the file becomes empty, exactly its blocks become free, and other files keep their contents; no free block is freed |
| `PageTable.PteRoundTrip` | kernel/riscv.h:348-352 | a page address and its flags survive the trip through a page-table entry, in 64-bit arithmetic |
| `PageTable.MakePteIsMacros` | kernel/vm.c:165 | the entry mappages stores is PA2PTE(pa) with the flags and PTE_V, and PTE2PA and PTE_FLAGS read both back |
| `PageTable.UserPermBits` | kernel/vm.c:249 | PTE_R|PTE_U|xperm has both bits set and every other bit as in xperm |
| `PageTable.FlagBits` | kernel/riscv.h:341-352 | whether an entry is valid, for the user, or writable depends on its ten flag bits only |
| `PageTable.LeafBits` | kernel/vm.c:285-289 | freewalk takes an entry for a leaf exactly if PTE_R, PTE_W or PTE_X is set |
| `PageTable.PxInjective` | kernel/riscv.h:355-357 | the three 9-bit indices determine a page below MAXVA |
| `PageTable.Digits` | kernel/riscv.h:355-357 | a page number is made of its three indices, each nine bits in its place |
| `PageTable.NoSharedEntry` | kernel/vm.c:86-103 | two pages, under one root or two, never share an entry |
| `PageTable.StoreLookup` | kernel/vm.c:144-172 | storing a leaf entry changes the flat map at that page only |
| `PageTable.LinkTableOk` | kernel/vm.c:91-101 | a new empty table keeps the tree well formed and changes no mapping |
| `PageTable.RetypeOk` | kernel/kalloc.c:47-82 | handing a page to or from the pool keeps all trees and mappings |
| `PageTable.AllocUndone` | kernel/vm.c:241-253 | unmapping what was added so far leaves every mapping and every page as before, but for tables |
| `PageTable.NoLeavesLeft` | kernel/vm.c:279-294 | when nothing is mapped, freewalk meets no leaf |
| `PageTable.Conservation` | kernel/kalloc.c:47-82 | free pages, pages reachable from some page table by following entries, and pages held outside add up to all of memory, in every state the operations reach |
| `PageTable.NoLeak` | kernel/vm.c:86-103 | a page that is neither free nor held outside can be reached from some page table by following entries |
| `PageTable.ReachedInUse` | kernel/vm.c:86-103 | a page reached from a root is that root's own table or page, or held outside; it is never free |
| `PageTable.PlaceOf` | kernel/kalloc.c:47-82 | every page is in exactly one of the three places |
| `PageTable.OnlyRestored` | kernel/vm.c:299-304 | after any growing and shrinking of a page table, freeing it restores the use of every page |
| `PageTable.AllocOnly` | kernel/vm.c:233-256 | growing a page table takes free pages for that page table only |
| `PageTable.UnmapOnly` | kernel/vm.c:263-274 | shrinking it gives pages of that page table only |
| `PageTable.Memory.constructor` | kernel/kalloc.c:27-40 | after kinit every page from the end of the kernel on is free, once |
| `PageTable.Memory.Kalloc` | kernel/kalloc.c:69-82 | pops a free page filled with junk; 0 exactly when there is none; no mapping changes |
| `PageTable.Memory.Kfree` | kernel/kalloc.c:47-63 | pushes a page that nothing refers to |
| `PageTable.Memory.Walk` | kernel/vm.c:86-103 | finds the table that holds the entry of a page, making tables if asked; no mapping changes; fails to make one only when memory is exhausted |
| `PageTable.Memory.MapOne` | kernel/vm.c:158-169 | a one-page mappages sets that entry, or fails without changing any mapping |
| `PageTable.Memory.Mappages` | kernel/vm.c:144-172 | maps the requested pages, all of them or those before memory ran out, changes no other mapping of any page table, and keeps every page accounted for |
| `PageTable.Memory.Uvmunmap` | kernel/vm.c:178-199 | removes exactly those pages and frees exactly their frames, if asked |
| `PageTable.Memory.Uvmdealloc` | kernel/vm.c:263-274 | removes the pages between the two rounded sizes and returns the new size |
| `PageTable.Memory.Uvmalloc` | kernel/vm.c:233-256 | all new pages are mapped to zeroed frames of their own with PTE_R|PTE_U|xperm, or every mapping is restored and no page is lost; with three free pages for each it succeeds |
| `PageTable.GrownSeen` | kernel/vm.c:233-256 | afterwards the user reads zeros at every new address, and may write there exactly if xperm has PTE_W |
| `PageTable.Memory.GrowThenFill` | kernel/vm.c:233-383 | memory granted with PTE_W can be filled: copyout of any data that fits succeeds |
| `PageTable.Memory.Uvmcopy` | kernel/vm.c:313-340 | the child gets the parent's pages, byte for byte and with the same flags, in frames of its own, or nothing; the parent is untouched; with three free pages for each it succeeds |
| `PageTable.ChildSeesParent` | kernel/vm.c:313-340 | after uvmcopy the child reads at every address what the parent reads, and may read and write where the parent may |
| `PageTable.Memory.Freewalk` | kernel/vm.c:279-294 | frees exactly the tables of the tree, children first; its panic is unreachable |
| `PageTable.Memory.Uvmcreate` | kernel/vm.c:204-212 | a fresh root that maps nothing |
| `PageTable.Memory.Uvmfree` | kernel/vm.c:299-304 | everything the page table held, tables and user pages, is free, and nothing else changes |
| `PageTable.Memory.CreateGrowFree` | kernel/vm.c:204-304 | create, grow and free give back the same set of free pages, whether or not memory sufficed |
| `PageTable.Memory.Copyout` | kernel/vm.c:359-383 | memory becomes what storing the bytes one by one at the user addresses gives, up to the first page the user may not write; in pages of its own, the bytes stand there and no other byte changes |
| `PageTable.StandsCopied` | kernel/vm.c:359-383 | storing byte by byte into pages that share no frame puts the bytes at the user address and changes no other byte of memory |
| `PageTable.Memory.Copyin` | kernel/vm.c:389-408 | fetches the bytes the user sees, or fails at the first page the user may not read; changes nothing |
| `PageTable.Memory.CopyRoundTrip` | kernel/vm.c:359-408 | copyout then copyin returns the same bytes, exactly when all pages are writable |
| `Scheduler.NextInv` | kernel/proc.c:484-692 | every step of every CPU keeps the invariant of locks, current processes, priorities and boost timing |
| `Scheduler.NoTwoCpus` | kernel/proc.c:507-561 | no process is current on two CPUs |
| `Scheduler.RunningIsCurrent` | kernel/proc.c:507-588 | a RUNNING process is c->proc of exactly one CPU, which is executing it |
| `Scheduler.SavedWhenUnlocked` | kernel/proc.c:571-588 | a process that is not RUNNING and whose lock is free has left its CPU with its context saved |
| `Scheduler.ResumesSaved` | kernel/proc.c:544-552 | swtch only ever resumes a saved context of a RUNNABLE process |
| `Scheduler.BoostTiming` | kernel/proc.c:521-529 | mlfq_ticks is at most BOOST_INTERVAL - 1 + NCPU, and 100*B <= T <= (99 + NCPU)*(B + 1) for T ticks and B boosts |
| `Scheduler.Levels` | kernel/trap.c:39-53 | priority is a queue number; ticks_used is below the slice, or equal to it between tick and yield; num_boosted + (priority > 0) <= num_demoted <= 2*num_boosted + priority without setprocpriority |
| `Scheduler.SampledLevels` | kernel/proc.c:904-941 | entries read at different moments of a run, each under its lock, all have a valid queue |
| `Scheduler.Search` | kernel/proc.c:531-545 | the search picks a RUNNABLE process of the highest non-empty queue, the first of the table among those |
| `Scheduler.PriorityBoost` | kernel/proc.c:484-504 | every process in use is in queue 0 with no ticks used, counted as boosted only if it moved |
| `Scheduler.QueueCounts` | kernel/proc.c:904-941 | every count is exact: processes in use, in each queue, RUNNING, SLEEPING and RUNNABLE; the queues sum to the total |
| `Fairness.PlaceStep` | kernel/proc.c:593-614 | a tick and yield move exactly the process whose turn it is to its next place in the closed form |
| `Fairness.PickIsTurn` | kernel/proc.c:531-545 | in that form the search picks the process whose turn it is |
| `Fairness.Period` | kernel/proc.c:507-561 | t ticks after a boost every process stands where the closed form says, with that many ticks received |
| `Fairness.FirstRoundInOrder` | kernel/proc.c:531-545 | the first R dispatches after a boost visit each runnable process once, in table order |
| `Fairness.TicksPerPeriod` | kernel/proc.c:521-614 | if 3R <= 100 every process gets three ticks per period, exactly three but for the first in the table |
| `Fairness.LowestQueueIsNotShared` | kernel/proc.c:531-545 | once all runnable processes are in the lowest queue, only the first of the table runs until the next boost: ties go to table order, not round robin |
| `Fairness.NoLongWait` | kernel/proc.c:484-561 | from any moment on, no runnable process waits BOOST_INTERVAL + NPROC ticks |
| `Fairness.OneRound` | kernel/proc.c:507-561 | one turn of the scheduler loop on one CPU is such a round |
| `OneCpu.DrivenIsRounds` | kernel/proc.c:484-614 | when one CPU schedules and threads run from tick to tick, the turns of the step machine are the picks of a run of such rounds |
| `OneCpu.DrivenNoLongWait` | kernel/proc.c:484-614 | so in the step machine too every ready process has a turn among any BOOST_INTERVAL + NPROC turns in a row |
| `OneCpu.Starvation` | kernel/proc.c:531-545 | for every n there is a run with n dispatches in which two processes that sleep before each tick keep all others waiting, RUNNABLE in the highest queue all the time |
| `OneCpu.StarvationDespiteBoosts` | kernel/proc.c:484-529 | for every n there is a run with n boosts in which two processes that set each other's priority back keep all others waiting, RUNNABLE in the highest queue all the time |
| `Mlfq.FollowsRules` | kernel/proc.c:484-692 | in every run on all CPUs, the queue, the ticks used of the slice and the total ticks of every process are the scheduling rules replayed on its own history: one queue down after a full slice, slice forgotten on sleep, top queue on a boost, the queue asked for on setpriority, and nothing else |
| `Mlfq.LifeCycle` | kernel/proc.c:117-692 | a process changes state only in steps about itself, along UNUSED, USED, RUNNABLE, RUNNING and back or SLEEPING or ZOMBIE, UNUSED |
| `Mlfq.EveryLevelCanBeSet` | kernel/proc.c:852-873 | a priority is accepted exactly if it names one of the queues |
| `Mlfq.NoDeadlock` | kernel/proc.c:484-614 | in every reachable state every CPU can take a step, or waits for a lock while another CPU can |
| `ExitWait.NextInv` | kernel/proc.c:304-459 | every step of fork, exit, reparent, wait, sleep, wakeup and kill keeps the parent and sleep invariant |
| `ExitWait.ParentsAlive` | kernel/proc.c:371-410 | every recorded parent is neither UNUSED nor ZOMBIE, whoever holds wait_lock |
| `ExitWait.NoSleeperMissesZombie` | kernel/proc.c:415-459 | when wait_lock is free no process asleep in wait, or about to be, has a ZOMBIE child, children handed to init included |
| `ExitWait.ZombiesHaveParents` | kernel/proc.c:355-365 | a ZOMBIE has a recorded parent to wait for it and no children left |
| `ExitWait.HaveKidsExact` | kernel/proc.c:423-448 | at entry i of its loop, wait has havekids set exactly if an entry before i is its child |
| `ExitWait.WaitReturns` | kernel/proc.c:415-459 | wait returns with one ZOMBIE child of its own freed and nothing else changed; or without any change because the status of one could not be copied out, because the caller was killed, or because it has no child at all |
| `ExitWait.WaitSleeps` | kernel/proc.c:451-457 | wait goes to sleep only if the caller has a child and none of its children is a ZOMBIE |
| `ExitWait.WaitGoesOn` | kernel/proc.c:415-459 | wait comes back only from its scan: a process that is woken up scans again |
| `ExitWait.ParentChanges` | kernel/proc.c:304-365 | a parent field changes only from none to the forking process, from an exiting process to init, or to none for a ZOMBIE that its parent reaps |
| `ExitWait.ZombieUntilReaped` | kernel/proc.c:415-459 | a ZOMBIE stays one until its parent's wait frees it, and it alone |
| `ExitWait.LifeCycle` | kernel/proc.c:304-459 | only fork makes processes, only its own exit ends one, only its own wait puts it to sleep, and it is woken only by kill, by the exit of its child or, if it is init, by a child handed to it |
| `ExitWait.KilledStays` | kernel/proc.c:698-735 | killed is set by kill of that process only, and stays until the process is freed |
| `ExitWait.KillMissedIff` | kernel/proc.c:451-457 | a process asleep in wait, or bound to be, has been killed if and only if the kill came after wait tested killed and before sleep took p->lock |
| `ExitWait.KillCanBeMissed` | kernel/proc.c:451-457 | a run in which that happens: the killed process is asleep |
| `ExitWait.NoDeadlock` | kernel/proc.c:304-459 | in every reachable state with a process inside fork, exit or wait and not asleep, some process can take a step |
| `Virtio.NextInv` | kernel/virtio_disk.c:216-327 | every step of the driver and of the device keeps descriptors, rings and requests consistent |
| `Virtio.Partition` | kernel/virtio_disk.c:157-213 | free descriptors and the three-element chains of waiting requests partition the NUM descriptors |
| `Virtio.NoReuseInFlight` | kernel/virtio_disk.c:170-197 | a chain that the device may still look at is whole and entirely marked in use |
| `Virtio.DeviceSeesRequest` | kernel/virtio_disk.c:238-272 | the chain the device finds is the one formatted for that request: command, that buffer's data, its own status byte |
| `Virtio.RingsIntact` | kernel/virtio_disk.c:274-282 | no unread avail or used entry is overwritten, also when the 16-bit indices wrap, and the emptiness tests are exact |
| `Virtio.StatusIsReported` | kernel/virtio_disk.c:316-317 | the status byte the driver reads is what the device last stored for that request |
| `Virtio.InterruptPanicsIff` | kernel/virtio_disk.c:311-325 | virtio_disk_intr finds a finished request whose buffer is waiting, and panics exactly when the device reported an error for it |
| `Virtio.CompletionClearsOwn` | kernel/virtio_disk.c:311-325 | each completion clears b->disk of its own buffer and of no other |
| `Virtio.NoRequestLost` | kernel/virtio_disk.c:284-287 | a request whose buffer is still marked is in the avail ring, with the device, or in the used ring |
| `Virtio.StatusOfRequest` | kernel/virtio_disk.c:263-317 | a request's status byte is 0xff until the device stores one, and 0 when its process goes on: nobody goes on from a request that failed or is not finished |
| `Virtio.NoRequestStuck` | kernel/virtio_disk.c:274-325 | in every reachable state with a waiting request, the device, the interrupt handler or a process whose request is done can take a step, unless the device reported an error |
| `Virtio.ChainIsDetermined` | kernel/virtio_disk.c:202-213 | the three lowest free descriptors are taken: from one state a request can get no others |
| `Virtio.RetiredChain` | kernel/virtio_disk.c:289-290 | when a request retires, its three descriptors form the chain that free_chain follows |
| `Virtio.Descriptors.AllocDesc` | kernel/virtio_disk.c:157-166 | takes the lowest free descriptor; -1 exactly when there is none |
| `Virtio.Descriptors.FreeDesc` | kernel/virtio_disk.c:170-182 | clears and frees one descriptor; both panics are excluded |
| `Virtio.Descriptors.Alloc3Desc` | kernel/virtio_disk.c:202-213 | takes the three lowest free descriptors, or none at all when there are fewer than three |
| `Virtio.Descriptors.FreeChain` | kernel/virtio_disk.c:186-197 | frees exactly the descriptors of the chain, of any length |
| `Shell.Parser.NextToken` | user/sh.c:267-309 | gettoken returns the next token, its extent and the cursor of the token grammar |
| `Shell.Parser.Peek` | user/sh.c:312-321 | peek skips white space and tests the next character |
| `Shell.Parser.Line` | user/sh.c:346-360 | parseline terminates on every string and returns what the grammar says, or fails where it says so |
| `Shell.Parser.Pipeline` | user/sh.c:363-373 | likewise parsepipe |
| `Shell.Parser.Redirections` | user/sh.c:376-398 | likewise parseredirs |
| `Shell.Parser.Block` | user/sh.c:401-414 | likewise parseblock |
| `Shell.Parser.Simple` | user/sh.c:417-447 | likewise parseexec, with at most nine arguments |
| `Shell.LineWords` | user/sh.c:346-447 | every argument and file name in a parsed tree delimits a maximal word of the line |
| `Shell.Nulterminate` | user/sh.c:451-494 | writes a NUL at the end of each argument and file name and nowhere else |
| `Shell.TokensReadBack` | user/sh.c:451-494 | those NULs fall between words, so each argument and file name reads as exactly its token |
| `Shell.ParseCommand` | user/sh.c:329-343 | parsecmd fails exactly when the grammar does or something is left over; otherwise every token is a C string |
| `Shell.RoundTrip` | user/sh.c:329-447 | parsing the parenthesised printing of any tree of good words, at most nine per command, rebuilds the tree |
| `ShellGrammar.ParsesIff` | user/sh.c:329-447 | parsecmd returns a tree exactly when the line has a derivation in the grammar with that meaning: redirections anywhere, bare pipes and lists, repeated &, any white space, at most nine words per command |
| `ShellGrammar.Accepts` | user/sh.c:329-447 | every line with a derivation is parsed, to the meaning of the derivation |
| `ShellGrammar.Explains` | user/sh.c:329-447 | every line that is parsed has a derivation with that meaning |
| `ShellGrammar.Unambiguous` | user/sh.c:346-447 | two derivations of one line have the same meaning |
| `ShellGrammar.SimpleInOrder` | user/sh.c:376-447 | in the tree of a command its words stand in the order of the line, inside its redirections in the order of the line, the last one outermost, wherever among the words they stand |
| `ShellGrammar.GroupInOrder` | user/sh.c:401-414 | the redirections after a parenthesised line go around it in the same order |
| `ShellGrammar.WrapAround` | user/sh.c:208-221 | each redirection goes around all that came before |
| `Grep.Match` | user/grep.c:73-82 | match holds exactly when a substring (at the start for ^) is in the language of the parsed pattern |
| `Grep.MatchHere` | user/grep.c:85-96 | matchhere holds exactly when a prefix (all for $) is in the language; the mutual recursion terminates |
| `Grep.MatchStar` | user/grep.c:99-106 | matchstar holds exactly when some number of repetitions is followed by a match of the rest |
| `Grep.PrintLines` | user/grep.c:22-29 | the inner loop prints the matching complete lines of the buffer and keeps the rest |
| `Grep.Grep` | user/grep.c:12-35 | for NUL-free input the output is that of the lines up to the first too long for the buffer, however read cuts the input |
| `Grep.SameOutput` | user/grep.c:12-35 | two ways of delivering the same input print the same |
| `Grep.OutputStops` | user/grep.c:12-35 | what grep prints is the matching lines before the first that does not fit its buffer |
| `Grep.AllPrintedIff` | user/grep.c:12-35 | every matching line is printed if and only if none matches from the first too long one on |
| `Grep.FittingLinesPrinted` | user/grep.c:12-35 | if every complete line has at most 1023 bytes with its newline, every matching line is printed |
| `Grep.MatchingLineLost` | user/grep.c:18-35 | a line of 1023 letters makes grep miss the matching line after it |

## Left out

- Journal: bget's panic for lack of buffers is a step that is not enabled; Journal.SpareBufferIff says when that is.
- Journal: reading a block that is being written by its holder is not a step; buffer contents are 256 words.
- Journal.CrashSafe: block writes are atomic and reach the disk in the order they are issued; torn writes are not modelled.
- Log.RedoLog.Commit: bpin and bunpin are in Journal and Bio; here a block is simply what bread returns.
- Log.RedoLog.BeginOp: one test of the loop; sleeping and waking between tests is in Journal as a step that is not yet enabled.
- Admission.MkfsLogPanics: only the count of logged blocks is modelled, not their numbers.
- SleepLock.NoLostWakeup: one sleep lock and its channel; other channels are other instances.
- Scheduler: wait channels and the search for a victim in wakeup and kill; a step wakes one sleeping process.
- Scheduler.Search: the table does not change during the search; in the step machine it may, one entry at a time.
- Scheduler.QueueCounts: each entry is as it was under its own lock; the per-process fields copied to the user are left out.
- Fairness: one CPU, a fixed set of runnable processes, no sleeping; with several CPUs no bound on waiting is proved.
- ExitWait: sleeping for other reasons than wait, and RUNNABLE against RUNNING, which module Scheduler has.
- PageTable: physical addresses are frame numbers, addresses handed to the loops are page numbers, and a frame holds either bytes or entries.
- PageTable.Memory.Kfree: a page still in use must not be freed; the code cannot check that.
- PageTable.Memory.Uvmcopy: the parent's pages must be frames of its own, as uvmalloc and uvmcopy make them.
- PageTable.Memory.Copyout: what the user can reach must hold bytes, not page tables; nothing in the code checks that.
- PageTable.Memory.Copyin: likewise.
- PageTable.Memory.CopyRoundTrip: the user's pages share no frame; where two do, a later byte can overwrite an earlier one.
- PageTable: the kernel page table, uvmfirst, uvmclear and copyinstr, which add only easier members.
- Inode: the inode in memory and on disk are one record (iupdate), bread, log_write and brelse are the map of module Journal, and type, nlink and device numbers are absent.
- Inode.FileSystem.Writei: after a copy that fails half-way the last buffer is changed but not logged; that it reverts when the buffer is recycled is not modelled.
- Inode: directories, path names, the inode cache and its locks.
- Virtio: when a device reports an error, the contents transferred, the negotiation at start-up, and sleeping for free descriptors.
- Umalloc.Heap.Malloc: sbrk grants memory above all earlier grants or refuses; requests are small enough for its int argument.
- Shell: running the parsed commands, and memory for the tree.
- Grep: printing, opening files and the main program.
- Assembly, traps, interrupt hardware, console, pipes, exec and system call plumbing: no logic these theorems need.
- Overflow of process identifiers and of the statistics counters: both are unbounded here.
