# xv6 for RISC-V: a model and its proofs

This project models the parts of xv6 (the RISC-V version) in which a mistake is hard to see: the crash-safe
log under the file system, the scheduler with `exit` and `wait`, page tables and process memory, files and
their blocks, directory links, pipes, sleep locks, the buffer list, the disk queue, and from user space the
allocator, `grep` and the shell's parser. Each part is a Dafny module or a few; `dafny verify dfyconfig.toml`
checks all of them together.

## How it is modelled

Code that several processes run at once is a state machine on values. A step is one critical section, one
access to shared state without a lock, one single-block disk write or a crash, and any process may take the
next step. The theorems are about every state of every run: `Legal` runs from an `Initial` state, or
`Reachable` states.

Code that one thread runs over data it has to itself is a class with the source's fields, or a method on an
array. Ghost fields say who owns each page, block or cell; every method is proved against a specification
over the old and the new state. Where both forms exist (the log, the disk queue's descriptors) the methods
are proved to take exactly the steps of the machine.

* **Log** (`LogDisk`, `LogProtocol`, `LogCrash`, `LogTheorems`, `LogReserve`, `LogOverflow`, `Log`). The buffer
  cache, the header in memory and on disk, operations between `begin_op` and `end_op`, the test for room that
  `log_write` makes without the lock, buffers released with changes that were not logged, commit, crash at
  any point and recovery, which may crash again. The reference is `Replay`: the flat array of blocks that the
  logged writes make when they are done in order, without cache, log or crash. Bytes that a commit finds in a
  buffer instead of those logged last enter the history as a slip, which `Logged` leaves out.
* **Processes** (`ProcProtocol`, `ProcInvariant`, `ProcTheorems`, `ProcFamily`, `ProcMissed`). Slots, CPUs,
  per-process locks and the place in the kernel at which each thread is, down to the reads of `parent` that
  the code makes without a lock.
* **Files** (`FsState`, `Fs`). Bitmap, inodes with direct and indirect blocks, `bmap`, `readi`, `writei`,
  `itrunc`, `filewrite`. The reference is `Content`, the bytes of a file as a sequence.
* **Memory** (`VmState`, `VmFree`, `Vm`, `VmProc`, `VmExec`, `VmArgs`). The page allocator, three-level page
  tables in the same pages, and everything in `vm.c`, `proc.c`, `exec.c` and `sys_exec` that makes, copies,
  fills or frees an address space. The reference is `Leaf`, the map from virtual pages to entries that a page table stands for,
  together with one owner for every physical page. `misses` counts the calls in which `kalloc` found no page,
  so that "fails only for lack of memory" can be said.
* **Links** (`Links`), **pipes** (`Pipe`), **sleep locks** (`SleepLock`), **the buffer list** (`Bio`), **the
  disk queue** (`Virtio`), **malloc** (`MallocState`, `Malloc`), **grep** (`Grep`), **the shell's parser**
  (`ShellParse`, `ShellPrint`, `ShellLex`, `Shell`).

Assumptions: a write of one block is atomic and the disk keeps what it acknowledged; the log area is disjoint
from all other blocks; a lock makes its critical section one step; sleeping and waking are atomic steps in
`Pipe` and `Virtio`, which is what `SleepLock` proves of `sleep` and `wakeup` down to the scan over the
process table. Choices of the environment (which process runs, what a read returns, whether user memory can
be copied, whether `sbrk` refuses, how the device orders its work) are parameters of a step or arbitrary. A
panic is a result where the code can reach it, and otherwise an obligation: the model asserts that it is not
reached.

## What turned out not to hold

Each of these is stated as a theorem together with its exact condition.

* `log_write` can panic although no operation logs more than `MAXOPBLOCKS` distinct blocks. It looks whether
  the log is full before it looks whether the block is there already, so that a repeated `log_write` of a
  logged block panics when other operations have filled the log. Operations within that budget, which is the
  one that `filewrite` keeps, can reach the panic on any disk whose home blocks suffice to fill the log,
  however large the log is (`LogOverflow.ThriftyPanicIff`); a new block within the budget always has room in a
  log of more than `LOGSIZE` blocks (`LogReserve.NewBlockFits`). If the budget is `MAXOPBLOCKS` calls,
  repeated ones included, they can if and only if moreover the log area has at most `LOGSIZE` blocks, one
  block of it being the header (`LogOverflow.PanicReachableIff`). The image that `mkfs` writes is such a disk.
* `log_write` makes that test before it takes `log.lock`. Two calls can both find room for the last block, and
  then the header has one entry more than the log area has room for. Operations within either budget can get
  there if and only if the disk is tight: the log area has between 2 and `LOGSIZE` blocks, and there are as
  many home blocks (`LogOverflow.OverflowIff`). The last round of `write_log` then writes the block behind the
  log area, and a crash leaves it changed although nothing was committed (`LogOverflow.OverflowBreaks`). Given
  a block behind the log area, the log is atomic and durable over all runs within the budget of distinct
  blocks, with nothing unlogged released, if and only if the disk is not tight
  (`LogOverflow.KeepsAllDataIff`). The image that `mkfs` writes is tight (`LogOverflow.MkfsImage`); with one
  more block in its log it would not be.
* `writei` releases a buffer that it has changed without logging it when the copy from user memory fails. If
  the block is in the log all the same, the next commit puts those bytes on the disk (`LogTheorems.DirtyRun`).
  A home block differs from what was logged there last, after a commit, if and only if its buffer held other
  bytes when the last `end_op` of the group started that commit, or an earlier commit had left it so
  (`LogTheorems.CommitSlipsIff`); only a release with an unlogged change leaves such bytes behind
  (`LogTheorems.LooseIff`, `LogTheorems.CopySlipsIff`). Without such releases the log commits exactly what was
  logged (`LogTheorems.CrashAtomicity`, `LogTheorems.CommitIsDurable`).
* `install_trans` unpins blocks that recovery never pinned. Recovery itself is right, but after a boot whose
  recovery found a committed log the reference counts are wrong and a committed write can be lost; after any
  other boot this cannot happen (`LogTheorems.BootIsSafeIff`). Every disk with room for one logged block has
  runs that lead to such a boot (`LogTheorems.FoundLogBoot`).
* `init` can sleep in `wait` with a zombie child, as the code says, and nobody else can; only a zombie that
  had read another parent is missed (`ProcTheorems.NoMissedZombie`, `ProcMissed.InitMissesZombie`).
* `writei` returns `n` even if the copy from user memory fails half way; the number is right if and only if
  all `n` bytes could be read (`Fs.ShortCopyIff`).
* `mkfs` rounds the root directory up by a whole block when it ends at a block boundary, which leaves a hole
  (`Fs.RootRounding`).
* Shrinking a process by more than its size wraps around in 32 bits and is reported as success, with nothing
  changed (`VmProc.ProcMem.GrowProc`).
* A `malloc` of almost 2 GB or more asks `sbrk` for a number that does not fit in an `int`
  (`Malloc.RequestArrives`).
* A writer that is killed while a pipe is full leaves without waking anyone. Of all steps, this one, with a
  reader asleep, is the only one that leaves a reader asleep without a reason
  (`Pipe.KilledWriterStrandsIff`, `Pipe.StrandedReader`); it stays so until a writer wakes the readers or the
  pipe has been emptied (`Pipe.SleepersHaveReason`).
* A byte that `piperead` has taken out is lost if `copyout` fails on it (`Pipe.DeliveredIff`).
* An entry made in a directory that has been removed but is still open breaks the link counts; no other step
  of any system call does (`Links.KeepStep`, `Links.CreateIff`, `Links.EnterIff`, `Links.UnlinkedInUse`).
* A crash leaves every inode in use that has no name, because it was unlinked while open, allocated for good;
  nothing else makes such an orphan (`Links.OrphanIff`, `Links.CrashOrphans`).
* `grep` stops looking at the first line that does not fit in its buffer (`Grep.WritesAllIff`,
  `Grep.LongLine`).

Where a comment and the code disagree the model follows the code. The comment above `uvmdealloc`
(kernel/vm.c:254-257) allows `oldsz` to be larger than the process; `Vm.Vm.UvmDealloc` shows that `uvmunmap`
then panics, exactly if pages are to be freed that are not there.

## Model

| member | source | states |
|---|---|---|
| LogDisk.HeadRoundTrip | kernel/log.c:85-113 | Reading back a header block gives the list that was written, whatever the block held before. |
| LogDisk.ReplayAppend | kernel/log.c:68-82 | One more write in the history changes that block of the flat array and no other. |
| LogDisk.ReplayUntouched | kernel/log.c:68-82 | Writes from some point on change only the blocks that they name. |
| LogDisk.ReplayLast | kernel/log.c:68-82 | A block of the flat array holds what the last write to it put there. |
| LogDisk.SlippedIff | kernel/log.c:177-190 | Leaving out the bytes that nobody logged changes a block of the flat array if and only if the last write to it is such a slip. |
| LogCrash.InitialInv | kernel/log.c:54-65 | A disk with an empty log and nothing in memory meets the invariant that ties disk, header, cache and history together. |
| LogCrash.KeepBegin | kernel/log.c:126-141 | `begin_op` keeps that invariant, so an operation never starts inside a commit and the count of operations is right. |
| LogCrash.KeepRef | kernel/bio.c:58-89 | `bget` keeps it: the reference count is the number of users, plus one if the block is pinned. |
| LogCrash.KeepLock | kernel/bio.c:92-103 | Locking and reading a buffer keeps it: what is read in is what the history says, or the bytes that the last holder left unlogged. |
| LogCrash.KeepModify | kernel/fs.c:492-500 | Changing a locked buffer keeps it: the change is marked as not logged, and the history does not know of it. |
| LogCrash.KeepCheck | kernel/log.c:218-221 | The test for room, made without the lock, keeps it. |
| LogCrash.KeepAdd | kernel/log.c:223-233 | The locked part of `log_write` keeps it if the block is in the log already or the log still has room: the header lists each logged block once, pinned, and the history grows by this write. |
| LogCrash.KeepRelease | kernel/bio.c:116-137 | `brelse` keeps it, also for a buffer with a change that was not logged, which stays in the buffer. |
| LogCrash.KeepEvict | kernel/bio.c:58-89 | Recycling a buffer keeps it: no block whose only current copy is in memory can be evicted. |
| LogCrash.KeepEnd | kernel/log.c:145-174 | `end_op` keeps it: the last operation of a group starts the commit, earlier ones do not. |
| LogCrash.KeepWriteLogBlock | kernel/log.c:177-190 | Each block written to the log area keeps it, and is not yet visible to recovery; bytes other than those logged last enter the history as a slip. |
| LogCrash.KeepWriteHeader | kernel/log.c:101-113 | Writing the header keeps it: with that one write everything logged becomes durable. |
| LogCrash.KeepInstallBlock | kernel/log.c:68-82 | Each installed block keeps it, in commit and in recovery: a crash now would install it again to the same effect. |
| LogCrash.KeepEraseHeader | kernel/log.c:192-202 | Erasing the header keeps it: by then every home block has its committed contents. |
| LogCrash.KeepCrash | kernel/log.c:115-122 | A crash in any state keeps it: what the header covers is kept and nothing else is. |
| LogCrash.KeepReadHeader | kernel/log.c:85-96 | Recovery reads the list that was written last. |
| LogCrash.UsersBound | kernel/bio.c:146-151 | A reference count cannot overflow, since at most NPROC processes use a buffer. |
| LogCrash.ReadViaIsLatest | kernel/bio.c:92-103 | Through the cache, a block that nobody is changing reads as its latest logged contents. |
| LogTheorems.KeepStep | kernel/log.c:68-234 | Every step of every process, of commit, of recovery and every crash keeps the invariant, if the boot that uses the file system found an empty log and the log does not overflow. |
| LogTheorems.RunInv | kernel/log.c:68-234 | It holds in all states of all runs of that kind; `LogReserve.ThriftySound` says which runs are. |
| LogTheorems.LooseIff | kernel/fs.c:496-498 | Of all steps, only the release of a buffer with an unlogged change leaves one in a buffer that nobody holds. |
| LogTheorems.RunTidy | kernel/log.c:68-234 | In runs without such a release, unlogged changes are seen by their holder only and everything in the history was logged. |
| LogTheorems.CrashExact | kernel/log.c:68-202 | After any run in which the log does not overflow, a crash and a recovery, every home block has the contents that the commits covered by the last header give it; they differ from what was logged there last if and only if the last of them is a slip. |
| LogTheorems.CrashAtomicity | kernel/log.c:68-202 | If moreover no buffer is released with an unlogged change, every home block has, after a crash and a recovery (itself interrupted by any number of crashes), exactly the contents that the logged writes covered by the last header give it. |
| LogTheorems.NoHalfOperation | kernel/log.c:126-202 | No operation has one write that survives and another that does not: durable, pending and lost writes belong to different operations. |
| LogTheorems.CommitIsDurable | kernel/log.c:192-202 | When a commit is done in such a run, everything logged so far is durable and in its home block, and the log is empty. |
| LogTheorems.UnloggedCommitIff | kernel/log.c:177-202 | In runs with such releases too, everything logged is covered when a commit is done, and a home block differs from what was logged there last if and only if the last write to it is a slip. |
| LogTheorems.CopySlipsIff | kernel/log.c:177-190 | A round of `write_log` records a slip if and only if the bytes in the buffer, which nobody holds, differ from those logged last. |
| LogTheorems.CommitSlipsIff | kernel/log.c:145-202 | Which home blocks a commit leaves with unlogged bytes is settled when it starts: those of the group whose buffers hold other bytes than those logged last, and of the others those that an earlier commit left so. |
| LogTheorems.DirtyRun | kernel/fs.c:492-500 | On every disk with room for a logged block there is a run, with one logged write of any bytes, after whose commit the disk holds any other bytes. |
| LogTheorems.CacheIsFlatArray | kernel/bio.c:58-151 | In all runs in which the log does not overflow: whoever holds a buffer without an unlogged change sees the flat array's block, a pinned block is in the cache, and reference counts are exact; if no unlogged change is released, no other holder ever meets one. |
| LogTheorems.LoseWrite | kernel/log.c:68-122 | After a recovery that found a log there is a legal run in which a committed write never reaches its home block. |
| LogTheorems.BootIsSafeIff | kernel/log.c:68-122 | All runs of a boot keep the promises of the log if and only if that boot's recovery found the log empty. |
| LogTheorems.FoundLogBoot | kernel/log.c:68-122 | On every disk with room for a logged block, a run from power-on, with a crash between the commit point and the installation, to a boot that found the log and that does not keep the promises. |
| LogReserve.ReserveStep | kernel/log.c:126-234 | What is logged, plus what operations in progress may still log, stays within LOGSIZE at every step, on any disk and even if the log area overflows. |
| LogReserve.Reservation | kernel/log.c:126-141 | In every run in which no operation adds more than MAXOPBLOCKS distinct blocks, on any disk, every operation has room within LOGSIZE for all it may still add. |
| LogReserve.NewBlockFits | kernel/log.c:213-234 | In those runs, with a log area of more than LOGSIZE blocks, the log is full only when every operation in progress has added all it may: no new block within the budget meets the panic. |
| LogReserve.NoPanic | kernel/log.c:213-234 | With a log area of more than LOGSIZE blocks, runs in which no operation calls `log_write` more than MAXOPBLOCKS times, repeated calls included, never panic there. |
| LogReserve.HomeCount | kernel/log.c:223-233 | A header names each home block at most once, so no more than there are. |
| LogReserve.ThriftySound | kernel/log.c:213-234 | On a disk that is not tight, the log never overflows in a run in which no operation adds more than MAXOPBLOCKS distinct blocks, whatever the test without the lock saw. |
| LogReserve.ThriftyKeeps | kernel/log.c:68-234 | Hence such runs, if they release nothing unlogged, are atomic under crashes and durable. |
| LogOverflow.PanicReachableIff | kernel/log.c:213-234 | With at most MAXOPBLOCKS calls to an operation, the panic is reachable on a disk if and only if the log area has at most LOGSIZE blocks and there are home blocks enough to fill it. |
| LogOverflow.ThriftyPanicIff | kernel/log.c:213-234 | With at most MAXOPBLOCKS distinct blocks to an operation, the panic is reachable if and only if there are home blocks enough to fill the log, whatever its size: a repeated `log_write` of a logged block meets it. |
| LogOverflow.OverflowIff | kernel/log.c:213-234 | With at most MAXOPBLOCKS distinct blocks to an operation, and just so with at most MAXOPBLOCKS calls, the header can get more entries than the log area has room for if and only if the disk is tight. |
| LogOverflow.OverflowBreaks | kernel/log.c:177-190 | On a tight disk with a block behind the log area, a run within both budgets that logs all it changes, after which a crash leaves that block changed although nothing was ever committed. |
| LogOverflow.KeepsAllDataIff | kernel/log.c:68-234 | Given a block behind the log area, all runs within the budget of distinct blocks that release nothing unlogged are atomic and durable if and only if the disk is not tight. |
| LogOverflow.MkfsImage | mkfs/mkfs.c:23-27 | The image that `mkfs` builds is a disk on which the panic and the overflow are reachable and atomicity is not kept. |
| Log.Log.constructor | kernel/log.c:54-65 | The log starts in an initial state of the machine. |
| Log.Log.BeginOp | kernel/log.c:126-141 | One pass of the loop admits the caller exactly when the machine does, and otherwise changes nothing. |
| Log.Log.TestRoom | kernel/log.c:218-221 | The two tests are the machine's unlocked step; they panic exactly when the log is too full or no operation is in progress. |
| Log.Log.AddBlock | kernel/log.c:223-233 | The search for an entry to absorb into, and the new entry otherwise, do what the machine's locked step does. |
| Log.Log.LogWrite | kernel/log.c:213-234 | With nobody in between, the two together are `log_write`: a panic, or one more write in the history and one more entry unless the block had one. |
| Log.Log.CopyToLog | kernel/log.c:177-190 | One round of the loop is one step: one block of the log area gets the cached contents. |
| Log.Log.WriteLog | kernel/log.c:177-190 | The whole loop is a legal run that leaves the cached contents of every logged block in the log area, before the header, and what was logged as it was. |
| Log.Log.WriteHead | kernel/log.c:101-113 | Writing the header is the machine's commit point. |
| Log.Log.InstallOne | kernel/log.c:68-82 | One round of the loop is one step of installation. |
| Log.Log.InstallTrans | kernel/log.c:68-82 | The whole loop is a legal run that ends with everything installed and the history as it was. |
| Log.Log.EraseLog | kernel/log.c:192-202 | Clearing the count and writing the header is the machine's erasing step. |
| Log.Log.CommitLogged | kernel/log.c:192-202 | The same for the branch taken when there is something to commit. |
| Log.Log.Commit | kernel/log.c:192-202 | A commit is a legal run after which everything is covered and the log empty, and a home block differs from what was logged there last exactly if its buffer held other bytes at the start, or an earlier commit had left it so. |
| Log.Log.LeaveOp | kernel/log.c:145-174 | The first critical section of `end_op`: the caller commits exactly if it was the last operation. |
| Log.Log.LeaveCommit | kernel/log.c:145-174 | The second critical section lets operations start again. |
| Log.Log.EndOp | kernel/log.c:145-174 | After the last operation of a group the same holds, the log is empty and operations may start again; before that only the count changes. |
| Log.Log.ReadHead | kernel/log.c:85-96 | The loop reads the list that the header block holds. |
| Log.Log.RecoverFromLog | kernel/log.c:115-122 | Recovery is a legal run after which home blocks hold exactly what was committed, and the header on disk is empty. |
| ProcTheorems.BootedInv | kernel/proc.c:211-234 | The state after `userinit` meets the invariant over all pairs of slots. |
| ProcTheorems.KeepStep | kernel/proc.c:259-600 | Each of the 31 kinds of step keeps it, whatever the other threads are in the middle of. |
| ProcTheorems.ReachableInv | kernel/proc.c:259-600 | It holds in every reachable state. |
| ProcTheorems.RunningOnOneCpu | kernel/proc.c:457-518 | Whenever a process's lock is free, it is RUNNING if and only if some CPU has it as its process, and then exactly one has. |
| ProcTheorems.ReapAfterLeavingCpu | kernel/proc.c:398-447 | When `wait` frees a zombie, no CPU, not even a scheduler that is about to release its lock, still has it, and it is the caller's child. |
| ProcTheorems.ReapedOnce | kernel/proc.c:398-447 | No pid is returned by `wait` twice. |
| ProcTheorems.ParentIsAlive | kernel/proc.c:306-393 | Every process but init has a parent that is neither unused nor a zombie, at every moment of an exit. |
| ProcTheorems.NoMissedZombie | kernel/proc.c:333-447 | No process but init sleeps in `wait` with a zombie child; init does so only for one whose `exit` had read another parent. |
| ProcTheorems.SchedChecksHold | kernel/proc.c:501-518 | `sched` is called with the process's own lock held, no other process lock, and not in state RUNNING. |
| ProcTheorems.RunnableCanResume | kernel/proc.c:457-491 | What the scheduler finds RUNNABLE is a thread that was switched out and can go on; an exited thread never runs again. |
| ProcTheorems.UnlockedReadsAreStable | kernel/proc.c:306-447 | What `wait`, `reparent` and `exit` read of a parent without the lock is still so when they have the lock. |
| ProcFamily.StepOlder | kernel/proc.c:259-447 | Every step keeps parents older than their children, by pid, through forks, exits and adoption by init. |
| ProcFamily.ScanStep | kernel/proc.c:306-447 | While init's scan has found no child, one is still ahead of it or there are no other processes, although children may be given to it behind the scan. |
| ProcFamily.DescendsFromInit | kernel/proc.c:306-393 | In every reachable state, following parents from any process leads to init: there are no cycles and no orphans. |
| ProcFamily.WaitGivesUpRightly | kernel/proc.c:398-447 | When `wait` gives up on a process that was not killed, that process has no children; init included. |
| ProcMissed.InitMissesZombie | kernel/proc.c:350-361 | There is a run after which init sleeps in `wait` with a zombie child and no thread is left in `exit` to wake it. |
| FsState.WordPut | kernel/fs.c:377-405 | Storing a block number in an indirect block changes that entry and no other. |
| FsState.TakeDirect | kernel/fs.c:377-405 | Giving a file a direct block keeps one owner per block and the bytes of all files. |
| FsState.TakeInd | kernel/fs.c:377-405 | So does giving it an indirect block. |
| FsState.TakeEntry | kernel/fs.c:377-405 | So does a new entry in the indirect block. |
| FsState.WriteData | kernel/fs.c:482-514 | Changing a content block changes no file's block map. |
| FsState.WriteChunk | kernel/fs.c:482-514 | Writing part of a block changes just those bytes of that file, and no byte of another. |
| FsState.BlockWrote | kernel/fs.c:482-514 | Allocating a block, if need be, and writing into it changes exactly the bytes written. |
| FsState.WroteContent | kernel/fs.c:482-514 | The content afterwards is the old one with the new bytes spliced in, up to the new size; other files keep theirs. |
| FsState.WroteInv | kernel/fs.c:482-514 | No file has a hole afterwards. |
| FsState.TruncatedKeeps | kernel/fs.c:409-437 | Truncating a file leaves it empty, all others as they were, and the bitmap right. |
| Fs.Fs.constructor | mkfs/mkfs.c:100-119 | An image without files meets the invariant: every block is the system's own or free, as the bitmap says. |
| Fs.Fs.Balloc | kernel/fs.c:64-86 | The first free block, zeroed and marked, or none exactly if all are in use; two blocks are logged. |
| Fs.Fs.Bfree | kernel/fs.c:89-103 | The block's bit is cleared; it panics exactly if the block was free. |
| Fs.Fs.BmapDirect | kernel/fs.c:377-405 | The block of a direct slot, made if there was none, with all bytes of all files as before. |
| Fs.Fs.LoadIndirect | kernel/fs.c:377-405 | The indirect block, made if there was none; it fails only on a full disk. |
| Fs.Fs.BmapEntry | kernel/fs.c:377-405 | The same for a slot in the indirect block. |
| Fs.Fs.Bmap | kernel/fs.c:377-405 | The block of any slot up to MAXFILE, made if there was none and the disk is not full; distinct slots never share a block. |
| Fs.Fs.ReadBlock | kernel/fs.c:455-476 | What one block gives is that part of the content. |
| Fs.Fs.Readi | kernel/fs.c:455-476 | The bytes read are the file's content at that offset, cut at its end and at the first failed copy; nothing changes, and an offset past the end or a sum that wraps gives none. |
| Fs.Fs.WriteBlock | kernel/fs.c:482-514 | One block's share of a write, and how many blocks it adds to the transaction. |
| Fs.Fs.WriteStep | kernel/fs.c:482-514 | One round of the loop extends what has been written by the next part. |
| Fs.Fs.WriteBlocks | kernel/fs.c:482-514 | The loop writes what can be read of the n bytes, in order, within a bound on logged blocks; bytes before a failure inside a block may stay or not, since that buffer is not logged. |
| Fs.Fs.Writei | kernel/fs.c:482-514 | It refuses exactly the offsets and lengths it should, otherwise splices the bytes in that could be read, or the whole blocks of them, grows the size and returns n; it logs at most the stated number of blocks, and panics only on a full disk. |
| Fs.Copied | kernel/fs.c:496-513 | How many bytes go in when a copy fails: whole blocks, never more than could be read. |
| Fs.CopySucceeds | kernel/fs.c:482-514 | If every copy succeeds, a write replaces those n bytes of the content and nothing else in any file. |
| Fs.ChunkFits | kernel/file.c:148-175 | A chunk of `filewrite` logs at most MAXOPBLOCKS blocks, which is the bound for a whole chunk at any unaligned offset. |
| Fs.ShortCopyIff | kernel/fs.c:482-514 | After `writei` the number that it returned is the number of bytes in place if and only if all of them could be read, and then the file has them. |
| Fs.Fs.FileWrite | kernel/file.c:135-181 | The chunks together splice the data into the content; each is a transaction of at most MAXOPBLOCKS blocks; n comes back exactly if every chunk was accepted, and -1 only when n is negative or the next chunk does not fit in a file. |
| Fs.Fs.Itrunc | kernel/fs.c:409-437 | Exactly the file's blocks are freed, each once; `bfree` does not panic; only the inode's block and bitmap blocks are logged. |
| Fs.TruncFits | kernel/fs.c:409-437 | These are at most one for every 8192 blocks of the disk and one more, however long the file is. |
| Fs.Fs.FreeDirect | kernel/fs.c:409-437 | The loop over direct addresses frees these and clears them. |
| Fs.Fs.FreeIndirect | kernel/fs.c:409-437 | The loop over the indirect block frees its entries and then the block. |
| Fs.RootRounding | mkfs/mkfs.c:166-171 | After `mkfs` rounds the root directory's size it has no hole if and only if the size was not a multiple of the block size. |
| VmState.Path | kernel/vm.c:71-89 | A walk arrives at the tables that belong to the address. |
| VmState.SlotOwner | kernel/vm.c:71-89 | The table that belongs to an address is where a walk for it arrives. |
| VmState.DistinctSlots | kernel/vm.c:71-89 | Distinct virtual pages, of one page table or of two, never share an entry. |
| VmState.Indices | kernel/riscv.h:342-345 | The three shifted and masked indices are the digits of the page number in base 512. |
| VmState.HangTree | kernel/vm.c:71-89 | A new page-table page keeps all page tables trees. |
| VmState.HangLeaf | kernel/vm.c:71-89 | It changes no translation of any address space. |
| VmState.HangGood | kernel/vm.c:71-89 | Allocating it moves one page from the free list to the page table and touches nothing else. |
| VmState.PutTree | kernel/vm.c:148-168 | Setting a leaf keeps all page tables trees. |
| VmState.PutLeaf | kernel/vm.c:148-168 | Setting a leaf changes that one translation, in that one address space. |
| VmState.TakenGood | kernel/kalloc.c:68-82 | Taking a page off the free list keeps one owner for every page and every translation. |
| VmState.ReleasedGood | kernel/kalloc.c:46-63 | So does giving one back. |
| VmState.MapGood | kernel/vm.c:148-168 | Mapping a page changes that translation and the owner of that page only. |
| VmState.UnmapGood | kernel/vm.c:173-195 | Unmapping changes that translation only. |
| VmState.UnmapFree | kernel/vm.c:173-195 | Unmapping and freeing a user page leaves no page without an owner. |
| VmState.CoversFits | kernel/vm.c:228-252 | An address space that is mapped from 0 up cannot reach the trapframe: there is not that much memory. |
| VmFree.WholeTree | kernel/vm.c:274-290 | A page table without leaves is a tree that `freewalk` can take apart. |
| VmFree.FreedGone | kernel/vm.c:274-290 | Once it is, no page is left that belonged to it, and no other address space has changed. |
| VmFree.BornCreated | kernel/vm.c:199-208 | A fresh zeroed page is a page table that maps nothing, beside all others. |
| Vm.Vm.constructor | kernel/kalloc.c:26-40 | `freerange` puts every page after the kernel on the free list, once. |
| Vm.Vm.Kfree | kernel/kalloc.c:46-63 | The page goes to the front of the free list; it panics exactly for a page it does not manage. |
| Vm.Vm.Kalloc | kernel/kalloc.c:68-82 | The front page comes off, or 0 exactly if there is none. |
| Vm.Vm.Walk | kernel/vm.c:71-89 | The table that holds the entry for an address; tables are added only if asked for, it finds none only if there is none or no page to make one, and no translation changes even if it gives up half way. |
| Vm.Vm.NewTable | kernel/vm.c:71-89 | One level more, or nothing changed. |
| Vm.Vm.WalkAddr | kernel/vm.c:94-112 | The physical page exactly of those addresses that are mapped for the user. |
| Vm.Vm.MapPages | kernel/vm.c:148-168 | Consecutive pages are mapped, in order, to consecutive physical pages; it stops with -1 exactly when a table cannot be allocated, and panics only at a page that is mapped already or out of range. |
| Vm.Vm.MapOne | kernel/vm.c:148-168 | One page of that. |
| Vm.Vm.UvmUnmap | kernel/vm.c:173-195 | It panics if and only if the address is not a page's or a page of the range is not mapped; otherwise the range is unmapped, user pages are freed and the two top pages are not. |
| Vm.Vm.UnmapOne | kernel/vm.c:173-195 | One page of that. |
| Vm.Vm.UvmDealloc | kernel/vm.c:258-270 | The address space ends at the smaller size and everything below is as before; it panics if and only if pages are to be freed beyond those that are there. |
| Vm.Vm.UvmAlloc | kernel/vm.c:228-252 | Zeroed pages up to the new size, or 0 with every translation as before; the latter if and only if `kalloc` found no page. |
| Vm.Vm.GrowOne | kernel/vm.c:228-252 | One page of that. |
| Vm.Vm.CopyOne | kernel/vm.c:308-336 | A page with given bytes and permissions is mapped, or, if and only if memory ran out, nothing is kept but tables. |
| Vm.Vm.FreeWalk | kernel/vm.c:274-290 | Exactly the pages of the page table become free, each once. |
| Vm.Vm.UvmCreate | kernel/vm.c:199-208 | A page table that maps nothing, or 0 exactly if there is no page. |
| Vm.Vm.UvmFree | kernel/vm.c:294-300 | Every page of the address space is free again and nothing else has changed; `freewalk` meets no leaf. |
| Vm.Vm.UvmCopy | kernel/vm.c:308-336 | The child gets its own copy of every byte with the same permissions, or nothing if and only if memory ran out; the parent keeps everything. |
| Vm.Vm.UvmClear | kernel/vm.c:340-349 | The page stays mapped with its contents, but not for the user. |
| Vm.Vm.CopyIn | kernel/vm.c:379-399 | The bytes at the user's addresses, up to the first page that is not there; it succeeds exactly if that is all. |
| Vm.Vm.CopyOut | kernel/vm.c:354-374 | The bytes are stored up to the first page that is not there, and no other byte of any process changes. |
| Vm.Vm.CopyInStr | kernel/vm.c:405-442 | The string up to its NUL, or what came before the limit or the first page that is not there. |
| VmProc.Partition | kernel/proc.c:93-196 | Every page is free, held by the kernel, or belongs to exactly one process, and free means on the free list. |
| VmProc.NoLeak | kernel/proc.c:137-153 | When no process is left, no page is either. |
| VmProc.MadeAndGone | kernel/proc.c:158-196 | A page table that was made and taken apart leaves no trace in any page or translation. |
| VmProc.NotAllotted | kernel/proc.c:93-153 | Nor does a process that was set up and freed. |
| VmProc.ProcMem.constructor | kernel/proc.c:25-45 | The empty process table is in order. |
| VmProc.ProcMem.ProcPagetable | kernel/proc.c:158-186 | A page table with trampoline and trapframe and no user page, or 0 and all as before, if and only if memory ran out. |
| VmProc.ProcMem.ProcFreePagetable | kernel/proc.c:191-196 | All its pages are free; trampoline and trapframe are not freed with them. |
| VmProc.ProcMem.FreeProc | kernel/proc.c:137-153 | Exactly the process's pages become free. |
| VmProc.ProcMem.AllocProc | kernel/proc.c:93-131 | A slot with trapframe and page table; it fails if and only if there is no slot or no memory, and then no page has changed hands. |
| VmProc.ProcMem.Reap | kernel/proc.c:398-447 | Freeing a zombie leaves the other processes in order, with their pages. |
| VmProc.ProcMem.Fork | kernel/proc.c:259-301 | The child's memory is a copy of the parent's in pages of its own; it fails if and only if there is no slot or no memory, and then nothing has changed. |
| VmProc.ProcMem.GrowProc | kernel/proc.c:239-254 | The size changes by n with zeroed pages or freed ones; it fails if and only if memory ran out, and shrinking below 0 is no error and changes nothing. |
| VmExec.LoadPage | kernel/exec.c:135-157 | One page gets the bytes that the file has at that offset. |
| VmExec.LoadSeg | kernel/exec.c:135-157 | The segment's bytes are stored at its address; it succeeds if and only if the file has them all. |
| VmExec.LoadSegs | kernel/exec.c:42-59 | Memory is the image of all segments over zeroes; the loop succeeds if and only if every program header is in order and memory did not run out. |
| VmExec.LoadOne | kernel/exec.c:42-59 | One program header of that. |
| VmExec.MakeStack | kernel/exec.c:67-76 | Two pages above the image, of which the lower is not there for the user. |
| VmExec.Push | kernel/exec.c:78-98 | Bytes are pushed at a multiple of 16, exactly if the stack page has room. |
| VmExec.PushArgs | kernel/exec.c:78-98 | The strings and below them the pointers to them, ended by a null pointer, if and only if they are not too many and fit in one page. |
| VmExec.Exec | kernel/exec.c:12-129 | It succeeds if and only if headers, segments and arguments are in order and memory did not run out. Then the new memory is the image, a guard page and the stack with the arguments, and all old pages are free; otherwise the process and all memory are as before. |
| VmExec.StoredAround | kernel/exec.c:135-157 | Bytes stored in one address space are in no page of another. |
| VmExec.ImageAbove | kernel/exec.c:42-59 | Above the segments the image is zero. |
| VmArgs.FetchAddr | kernel/syscall.c:11-20 | The pointer at a user address; it fails only for an address outside the process or not mapped for it. |
| VmArgs.FetchArg | kernel/sysfile.c:416-455 | A page is taken for the string at a user address; without a page nothing changes, and the string fails only if it is not ended or not mapped. |
| VmArgs.FetchArgs | kernel/sysfile.c:416-455 | The strings that the user's argv points to, up to its null pointer, each in a page of its own; it fails only for too many, for one that cannot be read, or for lack of memory, and all pages taken by then are accounted for. |
| VmArgs.FreeArgs | kernel/sysfile.c:416-455 | Exactly those pages go back to the free list. |
| VmArgs.TakenAndGiven | kernel/sysfile.c:416-455 | Pages taken and given back around something that leaves no trace leave none. |
| VmArgs.ReplacedBeside | kernel/sysfile.c:416-455 | Around the replacement of an address space they leave just that. |
| VmArgs.SysExec | kernel/sysfile.c:416-455 | On every path all argument pages are free again. If it succeeds the new address space has the image and the strings that the old one's argv pointed to; if it fails the process and all memory are as before, and there is one of the named reasons. |
| Links.DirLookup | kernel/fs.c:526-550 | The slot of a name if and only if the directory has it, and the only one. |
| Links.DirLink | kernel/fs.c:553-580 | The entry goes in the first empty slot or at the end, unless the name is there; names stay distinct. |
| Links.CreateKeeps | kernel/sysfile.c:241-284 | `create` in a linked directory keeps every link count equal to the number of names. |
| Links.CreateIff | kernel/sysfile.c:241-284 | It keeps them if and only if the directory is linked. |
| Links.Resurrected | kernel/sysfile.c:241-284 | Otherwise the count that goes wrong is that of the removed directory's old parent. |
| Links.LinkStartKeeps | kernel/sysfile.c:120-166 | The count that `link` raises before it makes the entry is accounted for as pending. |
| Links.LinkUndoKeeps | kernel/sysfile.c:120-166 | Taking it back on failure is too. |
| Links.EnterKeeps | kernel/sysfile.c:120-166 | Making the entry in a linked directory turns the pending count into a name. |
| Links.EnterIff | kernel/sysfile.c:120-166 | It keeps the counts if and only if the directory is linked. |
| Links.UnlinkFacts | kernel/sysfile.c:184-239 | A directory that `unlink` removes has the directory it is removed from as its "..", and no other name. |
| Links.UnlinkKeeps | kernel/sysfile.c:184-239 | `unlink` keeps the counts of the entry's inode and of both directories. |
| Links.FreedUnnamed | kernel/fs.c:332-358 | `iput` frees an inode only if it has no name, no other reference and no `link` under way. |
| Links.PutKeeps | kernel/fs.c:332-358 | `iput` keeps the counts. |
| Links.GetKeeps | kernel/fs.c:242-273 | `iget` keeps them. |
| Links.LockKeeps | kernel/fs.c:289-313 | So does `ilock`. |
| Links.CrashKeeps | kernel/log.c:115-122 | So does a crash, which drops all references and takes back the counts raised by a `link` under way. |
| Links.KeepStep | kernel/sysfile.c:120-284 | A step of a system call, or a crash, keeps all counts and directories right if and only if it is not one that makes an entry in an unlinked directory. |
| Links.NlinkCounts | kernel/sysfile.c:120-284 | In every run from the image of `mkfs`, with crashes, that makes entries in linked directories only, an inode's link count is the number of its names whenever no `link` is under way for it, and names in a directory are distinct. |
| Links.NoOrphan | kernel/fs.c:332-358 | In every such run without a crash an inode in use has a name, a `link` under way, or a reference whose `iput` will free it, the test for `valid` notwithstanding. |
| Links.OrphanIff | kernel/fs.c:332-358 | A step leaves an inode in use without links and without anyone to free it if and only if it is a crash and the inode has no name. |
| Links.CrashOrphans | kernel/sysfile.c:184-284 | There is a run from the image after which a crash leaves an orphan. |
| Links.UnlinkedInUse | kernel/sysfile.c:184-284 | There is a run after which a directory is unlinked and still in use; a file created in it has a wrong count. |
| Links.ImageInv | mkfs/mkfs.c:118-164 | The image that `mkfs` makes, the root with files named in it, meets the invariant. |
| Pipe.PutKeeps | kernel/pipe.c:76-100 | A byte written where `nwrite` points, with counters that wrap, is the newest of those in the pipe. |
| Pipe.TakeKeeps | kernel/pipe.c:102-127 | The byte where `nread` points is the oldest that was not read. |
| Pipe.KeepStep | kernel/pipe.c:58-127 | Every step of readers, writers and closers keeps ring, lock and sleepers consistent. |
| Pipe.Fifo | kernel/pipe.c:58-127 | In every run the bytes read are a prefix of the bytes written, and at most PIPESIZE are between. |
| Pipe.DeliveredIff | kernel/pipe.c:102-127 | In every run the readers have got all the bytes taken out, in order, if and only if no `copyout` failed on a byte. |
| Pipe.SleepersHaveReason | kernel/pipe.c:76-127 | In every run, whenever the lock is free, a sleeping writer faces a full pipe with a reader left, and a sleeping reader a pipe with a writer left that is empty, except exactly while a killed writer's full pipe has neither been emptied nor had its readers woken. |
| Pipe.ZeroIsEnd | kernel/pipe.c:102-127 | A read of more than 0 bytes whose copy to the reader does not fail returns 0 only at the end: all bytes are read and the write end is closed. |
| Pipe.NothingAfterEnd | kernel/pipe.c:58-127 | After the write end is closed no byte is added. |
| Pipe.FreedOnce | kernel/pipe.c:58-74 | The pipe's page is freed once, exactly when both ends are closed, and nobody is in a call on it then. |
| Pipe.KilledWriterStrandsIff | kernel/pipe.c:76-127 | For every step of every process: afterwards all sleeping readers have reason to sleep, unless the step is a killed writer's return from a full pipe while a reader sleeps, and then one has not. |
| Pipe.StrandedReader | kernel/pipe.c:76-127 | There is a run in which a reader sleeps before a full pipe with the lock free. |
| SleepLock.KeepStep | kernel/sleeplock.c:21-41 | Every step of `acquiresleep`, `releasesleep`, `sleep` and `wakeup`, slot by slot, keeps the invariant. |
| SleepLock.OneHolder | kernel/sleeplock.c:21-41 | In every run at most one process has the sleep lock. |
| SleepLock.NoForgottenSleeper | kernel/proc.c:554-600 | When the lock and its spinlock are free, nobody sleeps on it or is about to. |
| SleepLock.NoLostWakeup | kernel/proc.c:554-600 | Behind the place that a `wakeup` scan has reached nobody sleeps on its channel. |
| Bio.MovedUpOrdered | kernel/bio.c:116-137 | Moving a buffer to the front keeps the doubly linked list in order of last release. |
| Bio.BCache.constructor | kernel/bio.c:36-53 | `binit` links all buffers in one list. |
| Bio.BCache.Lookup | kernel/bio.c:58-89 | Following `next` finds the block's buffer if there is one. |
| Bio.BCache.Recycle | kernel/bio.c:58-89 | Following `prev` finds the unused buffer that was released longest ago. |
| Bio.BCache.Bget | kernel/bio.c:58-89 | A block has at most one buffer; a hit counts one reference more, a miss recycles the least recently used free buffer, and it panics exactly if every buffer is in use. |
| Bio.BCache.Brelse | kernel/bio.c:116-137 | One reference less, and at none the buffer becomes the most recently used; it panics exactly if the caller does not hold the buffer's lock. |
| Bio.BCache.Bpin | kernel/bio.c:139-144 | One reference more, and the list stays. |
| Bio.BCache.Bunpin | kernel/bio.c:146-151 | One reference less, around 0 too, and the list stays. |
| Virtio.AtMostTwo | kernel/virtio_disk.c:154-166 | No three requests are in flight. |
| Virtio.FewPending | kernel/virtio_disk.c:168-270 | At most two entries of either ring are pending, so that indices modulo NUM tell them apart. |
| Virtio.TestIsExact | kernel/virtio_disk.c:251-270 | The interrupt handler's comparison of two wrapped indices finds a finished request if and only if there is one. |
| Virtio.InitialInv | kernel/virtio_disk.c:49-113 | The queue after initialisation is in order. |
| Virtio.KeepSubmit | kernel/virtio_disk.c:168-249 | Submitting a request keeps descriptors, rings and waiting processes consistent. |
| Virtio.KeepFetch | kernel/virtio_disk.c:168-249 | So does the device fetching the next one. |
| Virtio.KeepComplete | kernel/virtio_disk.c:168-249 | So does the device finishing any one, in any order. |
| Virtio.KeepInterrupt | kernel/virtio_disk.c:251-270 | The handler wakes the process whose request it is. |
| Virtio.KeepReturn | kernel/virtio_disk.c:141-152 | `free_chain` frees three descriptors that are in use, so that it does not panic. |
| Virtio.KeepStep | kernel/virtio_disk.c:168-270 | All of these keep the invariant. |
| Virtio.DisjointChains | kernel/virtio_disk.c:168-270 | In every run requests in flight have no descriptor in common. |
| Virtio.FewInFlight | kernel/virtio_disk.c:168-270 | In every run at most two requests are in flight. |
| Virtio.StagesInOrder | kernel/virtio_disk.c:168-270 | A request is offered, served, finished and seen in this order, and its process goes on only after the last. |
| Virtio.Descriptors.constructor | kernel/virtio_disk.c:49-113 | All descriptors are free at first. |
| Virtio.Descriptors.AllocDesc | kernel/virtio_disk.c:115-126 | The first free descriptor, or none exactly if there is none. |
| Virtio.Descriptors.FreeDesc | kernel/virtio_disk.c:128-139 | A descriptor in use becomes free. |
| Virtio.Descriptors.Alloc3 | kernel/virtio_disk.c:154-166 | Three descriptors, or none taken exactly if there are not three. |
| Virtio.Descriptors.Unwind | kernel/virtio_disk.c:154-166 | What was taken before the failure is given back. |
| Virtio.Descriptors.FreeChain | kernel/virtio_disk.c:141-152 | Following the links frees the chain and nothing else. |
| MallocState.InsertKeeps | user/umalloc.c:24-44 | Putting a block on the circular list keeps it ordered by address, and every cell in one block. |
| MallocState.MergeKeeps | user/umalloc.c:24-44 | Merging two neighbours does too. |
| MallocState.Apart | user/umalloc.c:63-90 | Blocks do not overlap. |
| MallocState.FreedKeeps | user/umalloc.c:24-44 | After `free` no two free blocks touch, and all other allocated blocks are as before. |
| MallocState.UnlinkedKeeps | user/umalloc.c:63-90 | Taking a whole block off the list keeps the invariant. |
| MallocState.CarvedKeeps | user/umalloc.c:63-90 | Cutting off its end does too. |
| MallocState.ObtainedKeeps | user/umalloc.c:46-61 | So does new memory from `sbrk`, wherever it begins. |
| Malloc.RequestArrives | user/umalloc.c:46-61 | The number passed to `sbrk` survives the conversion to `int` if and only if nbytes is at most 2^31 - 32. |
| Malloc.Heap.constructor | user/umalloc.c:21-22 | The empty heap is in order. |
| Malloc.Heap.FindPlace | user/umalloc.c:24-44 | The search ends, at the place where the block belongs. |
| Malloc.Heap.Relink | user/umalloc.c:24-44 | The assignments insert and merge on both sides. |
| Malloc.Heap.Free | user/umalloc.c:24-44 | The block is free, merged with free neighbours, and no allocated block changes. |
| Malloc.Heap.MoreCore | user/umalloc.c:46-61 | There is room for the request afterwards, or nothing has changed because `sbrk` refused. |
| Malloc.Heap.Take | user/umalloc.c:63-90 | A block of exactly the size asked for leaves the list. |
| Malloc.Heap.Malloc | user/umalloc.c:63-90 | The search ends. The block is new, disjoint from all others and large enough; 0 is returned if and only if `sbrk` refused, and then no free block was large enough. |
| Grep.FirstToken | user/grep.c:83-94 | A pattern matches here if and only if its first token takes some piece and the rest matches after it. |
| Grep.MatchHere | user/grep.c:83-94 | The recursion decides whether the text can be cut into pieces, one for each token. |
| Grep.MatchStar | user/grep.c:97-104 | So does the loop for a star. |
| Grep.Match | user/grep.c:70-80 | A line matches if and only if some part of it, or its beginning after '^', does. |
| Grep.FindNewline | user/grep.c:10-34 | The newline that `strchr` finds: the first, if no NUL comes before it. |
| Grep.GrepLine | user/grep.c:10-34 | The line is written exactly if it matches, with its newline, and the rest of the buffer is as before. |
| Grep.GrepBuffer | user/grep.c:10-34 | All complete lines in the buffer are dealt with. |
| Grep.Fill | user/grep.c:10-34 | What is read goes behind what is left over. |
| Grep.Shift | user/grep.c:10-34 | The left-over part moves to the front. |
| Grep.GrepFile | user/grep.c:10-34 | The output does not depend on how reads divide the input. |
| Grep.ThenTheRest | user/grep.c:10-34 | What should be written is what is written and what should be in the part never looked at. |
| Grep.WritesAllIff | user/grep.c:10-34 | The output is all matching lines if and only if none comes after the first line that is too long. |
| Grep.LongLine | user/grep.c:10-34 | A line of 1023 characters and its newline matches and is not written. |
| Grep.ShortLines | user/grep.c:10-34 | It is if all lines fit in the buffer. |
| ShellParse.LineIn | user/sh.c:344-359 | Every word and file name in the tree is a token of the line. |
| ShellPrint.BackLine | user/sh.c:344-446 | A printed tree, in any context that ends it, parses back to itself. |
| ShellPrint.TokensRoundTrip | user/sh.c:327-446 | Every tree with at most 9 words to a command, printed as tokens, parses to itself: the grammar loses and confuses nothing. |
| ShellLex.LexRender | user/sh.c:265-308 | Tokens written out as text are read back as these tokens. |
| ShellLex.SameAll | user/sh.c:327-342 | The tree depends on the texts of the tokens only, not on where they are. |
| ShellLex.RoundTrip | user/sh.c:265-446 | Every such tree, printed as a line of text, is what the line parses to. |
| Shell.GetToken | user/sh.c:265-308 | The next token and its span. |
| Shell.Peek | user/sh.c:310-320 | Whether the next token is one of those symbols; nothing is consumed. |
| Shell.ParseRedirs | user/sh.c:374-397 | The loop agrees with the grammar, errors included. |
| Shell.ParseExecCmd | user/sh.c:415-446 | A simple command or block: the scanning loop gives what the grammar gives, or fails when it does. |
| Shell.ParseBlockCmd | user/sh.c:399-413 | The same for parentheses. |
| Shell.ParsePipeCmd | user/sh.c:361-372 | The same for pipes. |
| Shell.ParseLineCmd | user/sh.c:344-359 | The same for `&` and `;`. |
| Shell.ParseCmd | user/sh.c:327-342 | The same for the whole line, with left-overs an error. |
| Shell.NulTerminate | user/sh.c:448-493 | Exactly the ends of the tree's words become NUL. |
| Shell.NulBoth | user/sh.c:448-493 | The same for the two sides of a pipe or list. |
| Shell.LexWords | user/sh.c:265-308 | A word is a maximal run of ordinary characters. |
| Shell.ParseInPlace | user/sh.c:327-342 | After parsing in place every word of the tree is a C string with its own text: no NUL falls inside another word. |

## Left out

- Weak memory order and interrupts: steps are sequentially consistent, and `push_off` and `pop_off` are not modelled.
- Traps, system-call decoding, the console, the UART, the PLIC and the timer: device plumbing without invariants of its own.
- The kernel's own page table (`kvminit`, `kvmmap`), and the packing of flags and page number into a 64-bit entry: an entry is a record, a page a number.
- `namex` and `skipelem`, and the cut of names at DIRSIZ characters: names in `Links` are given and compared whole.
- `ialloc`'s search and the inode cache's slots: an unused inode is any unused inode, and reference counts are numbers.
- `sys_pipe` and the counts of open files in `file.c`; the path that `sys_exec` fetches, and its lookup.
- `runcmd` and the rest of the shell after parsing; the other user programs.
- Liveness: nothing is said about fairness of the scheduler or about a process that sleeps for ever for a good reason.
- Status errors from the disk, and the contents and addresses in descriptors: the device is taken to do what it is asked.
- Update in place is not captured for processes, pipes, sleep locks, the disk queue's rings and links: these are steps on values. Aliasing between buffers is ruled out by naming a buffer by its block.
- Fs.Fs.FileWrite: between two chunks nobody else changes the file, although the code releases the inode's lock there.
- Links.NlinkCounts: link counts are unbounded, although the field has 16 bits, and entries are made in linked directories only; `Links.CreateIff` and `Links.EnterIff` say what happens otherwise.
- LogTheorems.LoseWrite: a buffer without references may be evicted at any time; in the code it is recycled only when NBUF other blocks are wanted after it, so the losing run needs a disk with that many blocks in use.
- LogTheorems.BootIsSafeIff: the unsafe half rests on the same eviction.
- LogTheorems.FoundLogBoot: that the boot does not keep its promises rests on it too; the run to that boot does not.
- LogCrash.KeepAdd: keeps the invariant only while the log has room; `LogReserve.ThriftySound` says on which disks it always has, and `LogOverflow.OverflowIff` on which not.
- Log.Log.AddBlock: asks for a free entry in `log.lh.block`, which `LogReserve.Reservation` gives for operations within the budget; what a write past the end of that array does is not modelled.
- LogOverflow.KeepsAllDataIff: a log area at the very end of the disk is left out, since a write past the disk's last block is not modelled.
- Links.OrphanIff: the log takes the disk back to a point between operations, so that the run is the one up to that point; `LogTheorems.CrashAtomicity` is about how it gets there.
- Links.UnlinkKeeps: one step, although the code releases the directory before it lowers the entry's count; the entry's inode stays locked in between.
- VmProc.Partition: a page that kernel code holds (a pipe's page, an argument page during `sys_exec`) is not told apart from another such page.
- Vm.Vm.UvmDealloc: a new size beyond the trapframe's address, which no caller passes, is excluded.
- Malloc.Heap.Malloc: says nothing of the heap once a request of almost 2 GB has been cut to another number.
- ShellLex.RoundTrip: trees with 10 or more words in a command are left out, since the parser rejects them.
