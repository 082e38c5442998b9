# xv6 in Dafny

A model of the stateful algorithms of xv6 for RISC-V, with proofs of what they promise: the
write-ahead log and its buffer cache under crashes, the file system down to its bitmap bytes, virtual
memory on the page allocator, scheduling, sleeping and waiting under every interleaving, the pipe, the
user-level allocator and the shell's parser.  `dafny verify dfyconfig.toml` checks all of it.

## How it is organised

| files | what they model |
|---|---|
| `Params`, `Collections` | constants and types, and facts about sets and sequences, that several modules share |
| `LogProtocol`, `LogProtocolInv`, `LogProtocolProof`, `LogTheorems`, `LogReservation`, `LogExamples` | cache and log as a step system: any number of processes, one disk write per step, a crash between any two steps |
| `BufferRing`, `LogCode`, `LogRuns` | bio.c and log.c as classes: the doubly linked ring, the loops of commit and recovery, every disk state they pass through; transactions one after the other |
| `FsBytes`, `FsDisk`, `FsFiles` | bitmap bits, indirect blocks, who owns which block; balloc, bfree, bmap, itrunc |
| `FsReadWrite`, `FsRuns` | readi, writei, fileread, filewrite against byte sequences |
| `FsDirs`, `LinkCounts`, `SysFile` | directories as finite maps, link counts, link, unlink, create with all failure paths |
| `FsSystem` | all of these actions in one run, from an image that mkfs made |
| `FsInodes`, `FsCrash` | inodes as bytes; the run on the log, with power failures |
| `Mkfs`, `MkfsNames`, `MkfsCases` | the initial image, when it satisfies the invariants, and images on which the conditions matter |
| `InodeTable` | iget, ilock, iput, ialloc as an interleaved step system |
| `VmPages`, `VmTables`, `VmSpace`, `VmFree`, `VmProc`, `VmLife` | the free list, the three-level tree, address spaces, their life cycle |
| `VmHardware` | address translation as section 4.4 of the RISC-V Instruction Set Manual, Volume II (Privileged Architecture, 20211203) prescribes it |
| `Scheduler`, `SleepLock`, `ExitWait` | context switches, sleep and wakeup, fork, exit and wait as interleaved step systems |
| `Pipe`, `UMalloc` | the ring with wrapping counters; the circular free list |
| `ShellGrammar`, `ShellTokens`, `ShellParser` | the parser as functions, its tokens, and as it runs, with a cursor |
| `ShellLexer`, `ShellSource`, `ShellSound`, `ShellComplete`, `ShellRoundTrip` | the language stated without the parser: tokens and whitespace, what may be written and what it means; the parser accepts exactly that |

Code that updates fields in place is a class or a method on one; code that runs on several CPUs at
once is a state, a set of guarded steps and a theorem about every run.

## What turned out to be conditional

- `kernel/log.c` says an operation may write MAXOPBLOCKS (10) blocks.  The log has 29 data slots, because
  mkfs counts the header in `nlog`, and reservation is against 30: the panic in log_write is unreachable
  exactly for operations of at most 9 blocks (`LogReservation.PanicUnreachableIff`).  On a disk with one
  bitmap block link, unlink and create log at most 9 (`SysFile.Perform`) and a piece of a write at most 7
  (`FsReadWrite.OpenFile.WriteChunk`), so none of them reaches it.
- A short link count wraps at 32767, and a directory that was removed while in use still accepts entries:
  counts stay right exactly when neither happens (`LinkCounts.LinkKeepsIff`, `LinkCounts.CreateKeepsIff`).
  A file can have that many links (`LinkCounts.LargestCount`); a directory cannot, because it would need
  more entries than the largest file holds (`SysFile.DirLinksFit`).  `LinkCounts.CreateInRemoved` is a
  create in a removed directory.
- create can panic in ilock, exactly through the `..` of a removed directory whose parent was freed
  (`SysFile.Create`, `SysFile.StaleOnlyDotDot`); four ordinary calls lead there (`SysFile.PanicReached`).
- mkfs rounds the root's size up by a whole block when it already ends on a boundary, and does not look at
  names.  The size is sound exactly when it did not (`Mkfs.MakeImage`); the link counts are right exactly
  when no file is called `.`; the root is a finite map exactly when all names differ
  (`MkfsNames.ImageNames`).  `MkfsCases` has an image for each failure.
- writei leaves the bytes of an interrupted copy in the cached block without logging it.  Everything else
  that it, itrunc, link, unlink and create change is logged; the exception is exactly that one block
  (`FsReadWrite.Writei`).  Inside a file it happens if and only if the readable bytes end inside the
  write and not on a block boundary (`FsReadWrite.WholeOrNot`); `MkfsCases.LostWrite` is such a write.
  The log theorems are about clients that call log_write on every block they changed before releasing
  it, as the comment on log_write asks.
- iput decides to free an inode when it has the only reference, and gives up `itable.lock` before it frees
  it.  At that moment others may have found the inode (`InodeTable.FreedWhileFound`), only since the decision
  (`InodeTable.FreedByLastReference`).  The last reference to an unlinked inode leaves it free exactly
  when ialloc has not handed it out during the iput that freed it (`InodeTable.LastReferenceGone`);
  `InodeTable.LeftUnlinked` is a run in which it has, and the inode stays in use without a link.
- mappages keeps the mappings it made before it failed, and a failed uvmalloc or uvmcopy may keep new
  table pages; both restore every translation, which is what is proved.
- sleep and exit reach sched with p->lock alone because sleep is called with exactly the one lock it is
  given and exit takes only wait_lock; yield starts from a trap that found interrupts enabled
  (`Scheduler.SchedNeverPanics`).

## Model

| member | source | states |
|---|---|---|
| `LogProtocolProof.NextKeeps` | kernel/log.c:68-235 | every step of the cache and log, by any process, and a crash at any point keep the invariant: pinned blocks cached, the disk with its log standing for the committed contents |
| `LogTheorems.RunSafe` | kernel/log.c:68-235 | the invariant holds in every state of every run, for any number of processes, any interleaving and any number of crashes, also inside recovery |
| `LogTheorems.ReplayInstalls` | kernel/log.c:68-83 | copying the remaining log slots home yields the logged contents on every home block, from whatever point the copying had reached before |
| `LogTheorems.CrashAtomicity` | kernel/log.c:68-123 | in every reachable state, running recovery on the disk of that moment yields exactly the contents of the last commit point on every home block |
| `LogTheorems.AllOrNothing` | kernel/log.c:193-203 | the committed contents change only at the header write, and then from one state with no operation outstanding to the next |
| `LogTheorems.QuiescentDisk` | kernel/log.c:116-123 | when a commit or a recovery has finished and no operation has begun, disk, committed and last-written contents agree on every home block and the header is empty |
| `LogTheorems.ReadersSeeLast` | kernel/bio.c:91-103 | whoever holds a home block reads what was last given to that block, whether it is in the cache only, in the log or in place |
| `LogTheorems.LoggedStaysCached` | kernel/log.c:214-235 | from log_write until its installation a logged block is in the cache, valid, with a positive reference count |
| `LogTheorems.CleanWhenUnreferenced` | kernel/bio.c:58-89 | every valid buffer with reference count zero equals its disk block, so recycling it loses nothing |
| `LogTheorems.PinsLeaveABuffer` | kernel/bio.c:75-88 | pinned blocks never exhaust the cache: when no process holds a buffer a miss can be served |
| `LogTheorems.RecoveryCanLoad` | kernel/log.c:86-97 | the header that recovery reads always names at most as many blocks as the log has slots |
| `LogReservation.ReservationHolds` | kernel/log.c:126-142 | on every run: blocks in the header plus the room still reserved by the outstanding operations stay within LOGSIZE, and the header holds at most MAXOPBLOCKS + 2k blocks when operations add at most k |
| `LogReservation.CommitRunsAlone` | kernel/log.c:146-175 | a commit runs only with no operation outstanding |
| `LogReservation.NoPanicUpTo9` | kernel/log.c:214-221 | when no operation adds more than 9 blocks, no run reaches the panic in log_write although the log has 29 slots and begin_op reserves against 30 |
| `LogReservation.PanicAt10` | kernel/log.c:126-142 | with operations of 10 blocks, which MAXOPBLOCKS allows, a concrete run reaches the panic |
| `LogReservation.PanicUnreachableIff` | kernel/log.c:126-235 | the panic is unreachable if and only if every operation adds at most 9 blocks |
| `LogExamples.CommitReached` | kernel/log.c:126-203 | such runs exist: any change to any home block can be logged, committed and installed, after which the log is empty |
| `LogExamples.RecoveryReached` | kernel/log.c:68-123 | such runs exist: power fails after the header write and before the block is in place, and recovery puts it there |
| `BufferRing.UnlinkRing` | kernel/bio.c:128-129 | unlinking a buffer leaves a well-formed ring of all the others in the same order |
| `BufferRing.LinkFrontRing` | kernel/bio.c:130-133 | linking a buffer at the head gives a well-formed ring that begins with it |
| `BufferRing.BufferCache.constructor` | kernel/bio.c:36-53 | binit leaves a ring through all buffers, none referenced or valid |
| `BufferRing.BufferCache.Lookup` | kernel/bio.c:65-73 | the forward search finds the buffer of a block if there is one, and none exactly when no buffer caches it |
| `BufferRing.BufferCache.Victim` | kernel/bio.c:75-87 | the backward search finds the unreferenced buffer whose last release is oldest |
| `BufferRing.BufferCache.Bget` | kernel/bio.c:58-89 | a hit adds one reference; a miss recycles the least recently released unreferenced buffer; it panics exactly when there is none; no two buffers ever share a block of a real device |
| `BufferRing.BufferCache.Bread` | kernel/bio.c:91-103 | the contents returned are the cached ones if there were any and the disk's otherwise; no other buffer changes |
| `BufferRing.BufferCache.Bwrite` | kernel/bio.c:105-112 | one block of the disk becomes the buffer's data, as one recorded disk state |
| `BufferRing.BufferCache.Brelse` | kernel/bio.c:114-137 | one reference is dropped; the last one moves the buffer to the front, and only then does the order change |
| `BufferRing.BufferCache.Bpin` | kernel/bio.c:139-144 | one more reference, ring and everything else unchanged |
| `BufferRing.BufferCache.Bunpin` | kernel/bio.c:146-151 | one reference less; the ring and its order by age are untouched, also when it was the last |
| `LogCode.Log.LogWrite` | kernel/log.c:214-235 | panics exactly when the header is full or no operation is outstanding; logging a block twice absorbs it; otherwise the header stays a list of distinct home blocks and the logical contents take the buffer's data |
| `LogCode.Log.WriteHead` | kernel/log.c:100-114 | one disk write replaces the header by the list in memory |
| `LogCode.Log.ReadHead` | kernel/log.c:85-97 | the list in memory becomes the one the header names |
| `LogCode.Log.WriteLog` | kernel/log.c:177-191 | the log slots receive the new contents, and the disk stands for the old contents after every single write |
| `LogCode.Log.InstallTrans` | kernel/log.c:67-83 | every home block ends up with its logged contents, the pins are gone, and the disk stands for the same contents after every single write, in commit and in recovery |
| `LogCode.Log.EraseLog` | kernel/log.c:120-122 | emptying the header keeps the contents, because every home block is in place |
| `LogCode.Log.Commit` | kernel/log.c:193-203 | there is one write before which every disk state stands for the old contents and from which on every disk state stands for the new |
| `LogCode.Log.RecoverFromLog` | kernel/log.c:116-123 | whatever contents the disk stands for, every disk state on the way stands for them and the last has all of them in place |
| `LogCode.Survive` | kernel/log.c:116-123 | recovery interrupted after any writes, any number of times, finally restores the contents the first disk stood for |
| `LogCode.CrashDuringCommit` | kernel/log.c:177-203 | power failing at any disk state of a commit and of any recoveries after it: all home blocks as before the transaction, or all as it left them |
| `LogCode.Log.Update` | kernel/log.c:214-235 | bread, change, log_write, brelse of one block: the block is logged once with its new contents, the disk is untouched, and it panics exactly when no slot is left |
| `LogRuns.Fill` | kernel/log.c:214-235 | the log_writes of a transaction, in any order, leave exactly its blocks in the log with their new contents and the disk untouched |
| `LogRuns.FailIn` | kernel/log.c:68-123 | any list of transactions, with power failing in one of them and any number of times during recovery: every home block ends as after all transactions before it, or as after it too |
| `FsBytes.WordOfPut` | kernel/fs.c:407-414 | a 32-bit little-endian block number stored in an indirect block is read back, and no other entry changes |
| `FsBytes.MarkedOfMark` | kernel/fs.c:74-77 | setting a bitmap bit by byte and mask sets that bit and no other |
| `FsBytes.MarkedOfUnmark` | kernel/fs.c:98-103 | clearing a bitmap bit clears that bit and no other |
| `FsFiles.FileSystem.FirstFree` | kernel/fs.c:65-88 | the search returns the first block whose bit is clear, and 0 exactly when all are set |
| `FsFiles.FileSystem.Balloc` | kernel/fs.c:65-88 | the first free block, never 0, marked, zeroed, logged with its bitmap block, and owned by nobody; 0 only when the disk is full, and then nothing changes |
| `FsFiles.FileSystem.Bfree` | kernel/fs.c:90-105 | the bit is cleared; it panics exactly when the block was free |
| `FsFiles.FileSystem.MapAddr` | kernel/fs.c:382-398 | an address of the inode is kept, or gets a fresh zeroed block; every other reference is unchanged; every block that changed was logged |
| `FsFiles.FileSystem.MapEntry` | kernel/fs.c:400-418 | the same for an entry of the indirect block |
| `FsFiles.FileSystem.Bmap` | kernel/fs.c:382-421 | after it the file block has an address unless fewer blocks were free than it costs, which is none if it was there, one, or two with its indirect block; the bitmap marks exactly the metadata and the blocks reachable from inodes, each from one place; every block that changed was logged, and no inode but this one changed |
| `FsFiles.FileSystem.FreeDirect` | kernel/fs.c:432-437 | one direct block becomes free and its address 0; the panic on freeing a free block cannot happen |
| `FsFiles.FileSystem.FreeIndirect` | kernel/fs.c:439-449 | every block listed and the list itself become free; no stale entry is reachable again |
| `FsFiles.FileSystem.Itrunc` | kernel/fs.c:423-453 | exactly the blocks the inode owned become free, its size is 0, no other inode loses a block, no panic is reachable; everything that changed was logged, and nothing but the bitmap and the inode's block |
| `FsReadWrite.Readi` | kernel/fs.c:471-496 | returns the slice of the file that exists at the offset, up to a fault of the destination; allocates nothing and logs nothing |
| `FsReadWrite.WriteChunk` | kernel/fs.c:515-531 | one block of the file is replaced at its offset by the bytes that could be read, and nothing else; what changed was logged, except that a fault leaves those bytes changed in a block that is not |
| `FsReadWrite.Writei` | kernel/fs.c:505-539 | the file becomes its old bytes with the written ones patched in; -1 exactly for an offset past the end or a file too large.  With only the first avail bytes readable, the exact result and the exact number of bytes changed, for writes inside the file a function of the arguments alone; a shorter result only when the disk is full.  Every block and inode that changed was logged, except the one block in which the copy was interrupted, and that block, if the file had it, was not.  Every block below the size stays allocated; at most 3 plus the number of blocks touched are logged |
| `FsReadWrite.WholeOrNot` | kernel/fs.c:515-526 | more bytes change than are reported exactly when the readable bytes end inside the write and not on a block boundary of the file |
| `FsReadWrite.OpenFile.Read` | kernel/file.c:104-130 | fileread returns the next slice and moves the offset by its length, a negative length being a large unsigned one; nothing is allocated or logged |
| `FsReadWrite.OpenFile.WriteChunk` | kernel/file.c:155-174 | one transaction of filewrite edits the file at the offset, with the exact counts of writei; everything changed was logged but the block of an interrupted copy; at most 7 blocks are logged when the bitmap is one block |
| `FsReadWrite.OpenFile.Write` | kernel/file.c:132-181 | filewrite as a whole edits the file at the offset by a prefix of the source and returns n only if all of it was written; it stops only because it began past the end, the file would be too large, the next byte has no block and none is free, or the source cannot be read; transaction by transaction, each disk follows from the one before with every change logged, except for the one block that an interrupted copy left in the last of them; each logs at most 7 blocks |
| `FsReadWrite.AllOwned` | kernel/fs.c:65-88 | every block of the disk is metadata, free or owned by one place in one inode, and on a full disk none is free |
| `FsReadWrite.TooDear` | kernel/fs.c:382-421 | a write that finds no block was begun with fewer free blocks than the block costs |
| `FsRuns.Truncate` | kernel/fs.c:423-453 | the file is empty, every other file has its bytes; everything that changed was logged |
| `FsRuns.Perform` | kernel/fs.c:423-539 | read, write and truncate act on the files as on an array of byte sequences: a write is complete unless its source faults or no block is free beyond the old end of the file; what changed was logged but for an interrupted copy; at most 7 blocks for what filewrite writes at a time |
| `FsRuns.Run` | kernel/fs.c:382-539 | any list of calls behaves, call by call, like the same list on byte sequences, and the block ownership invariant holds at the end |
| `FsDirs.Namecmp` | kernel/fs.c:543-547 | two name fields compare equal exactly when they agree up to the first NUL within DIRSIZ bytes |
| `FsDirs.DecodeEntry` | kernel/fs.c:580-606 | an entry written as 16 bytes is read back as the same inode number and name, also a name of full length |
| `FsDirs.EntsOfPatch` | kernel/fs.c:600-603 | writing one entry into the directory's bytes changes that entry alone |
| `FsDirs.LinkIsInsert` | kernel/fs.c:580-606 | dirlink adds one binding to the finite map and keeps names unique |
| `FsDirs.ClearIsRemove` | kernel/sysfile.c:222-224 | clearing an entry removes one binding and keeps names unique |
| `FsDirs.DirLookup` | kernel/fs.c:549-575 | finds an entry of the name exactly when the directory has one, and then the first of them |
| `FsDirs.FreeEntry` | kernel/fs.c:592-598 | the first free entry, or the end of the directory |
| `FsDirs.WriteEntry` | kernel/fs.c:600-603 | an entry is written whole or not at all, and always when its place exists; only an entry that begins a block can fail; everything that changed was logged |
| `FsDirs.DirLink` | kernel/fs.c:577-606 | adds the entry at a free place; fails exactly because the name is there or there is no room, and then changes nothing; everything that changed was logged |
| `FsDirs.ClearEntry` | kernel/sysfile.c:222-224 | the panic of sys_unlink on a short write is unreachable |
| `FsDirs.IsDirEmpty` | kernel/sysfile.c:173-186 | true exactly when no entry after the first two is in use |
| `LinkCounts.LinkKeepsIff` | kernel/sysfile.c:123-170 | a link keeps every count equal to the number of entries naming the inode in linked directories if and only if the directory is still linked and the count is below 32767 |
| `LinkCounts.EntryLinked` | kernel/sysfile.c:188-243 | an entry past the first two is in a linked directory and names an inode with at least one link, so the panic for a missing link is unreachable |
| `LinkCounts.NotEmpty` | kernel/sysfile.c:173-186 | the parent of a linked directory is not empty |
| `LinkCounts.EmptyNamedOnce` | kernel/sysfile.c:215-233 | an empty linked directory has exactly one name, its count is 1 and its parent is the directory that names it |
| `LinkCounts.UnlinkKeeps` | kernel/sysfile.c:188-243 | unlinking a file or an empty directory keeps every count right, the parent's included |
| `LinkCounts.CreateKeepsIff` | kernel/sysfile.c:245-302 | a create keeps every count right if and only if the directory is still linked and, for a directory, its count is below 32767 |
| `LinkCounts.CreateInRemoved` | kernel/sysfile.c:245-302 | a concrete tree: a file created in a removed directory has count 1 and no name |
| `LinkCounts.FreeKeeps` | kernel/fs.c:336-362 | freeing an inode without links keeps every count right |
| `LinkCounts.OrphanReached` | kernel/sysfile.c:188-302 | mkdir a, mkdir a/b, rmdir a/b while it is in use, rmdir a: every call keeps the invariant, and the .. of b then names a free inode |
| `LinkCounts.DirLinksBounded` | kernel/sysfile.c:285-289 | the link count of a directory is less than the number of its entries, whatever the tree |
| `LinkCounts.LargestCount` | kernel/sysfile.c:141-143 | a tree with all its invariants in which a file has 32767 links and no directory is full; the next link breaks the count |
| `SysFile.SetNlink` | kernel/fs.c:225-241 | the stored count wraps as a short; nothing else changes |
| `SysFile.Ialloc` | kernel/fs.c:198-219 | the first free inode becomes an empty one of the given type; 0 exactly when there is none |
| `SysFile.Iput` | kernel/fs.c:336-362 | an inode without links and other users is emptied and freed, any other put changes nothing; no other file loses its bytes |
| `SysFile.Enter` | kernel/fs.c:577-606 | dirlink seen from the name space: one entry more, or nothing changed because the name is there or there is no room |
| `SysFile.Link` | kernel/sysfile.c:123-170 | sys_link adds one name and one count, with the exact condition for keeping the invariant; every failure path leaves names and counts as they were and puts both inodes, so that neither is left in use without links and users; it fails only for a directory, a missing parent, a taken name or lack of blocks; regular files keep their bytes or are freed; everything changed was logged, at most 5 blocks |
| `SysFile.LinkFile` | kernel/sysfile.c:145-169 | the same for a file and a directory that resolved: on failure the name was taken, or no entry was free, the last block of the directory was full and fewer blocks were free than another costs, or the directory has its greatest size |
| `SysFile.EnterAndPut` | kernel/sysfile.c:151-156 | dirlink and iunlockput of the directory: one entry more or none, then the directory freed if it was removed and unused |
| `SysFile.UndoLink` | kernel/sysfile.c:163-169 | the count is taken back and the inode put; nothing else changes |
| `SysFile.RemoveEntry` | kernel/sysfile.c:222-233 | the second half of sys_unlink is one removal on the tree and keeps the invariant |
| `SysFile.Unlink` | kernel/sysfile.c:188-243 | sys_unlink never panics, always keeps the invariant, removes one name, and fails only for names that may not be removed, are missing or are non-empty directories, and then puts the directory; regular files keep their bytes or are freed; everything changed was logged, at most 5 blocks |
| `SysFile.OpenExisting` | kernel/sysfile.c:256-263 | an existing name: returned for a file or device opened as a file, refused otherwise, panic exactly when the inode is free |
| `SysFile.StaleOnlyDotDot` | kernel/sysfile.c:256-263 | a name leads to a freed inode only as the second entry of a removed directory |
| `SysFile.MakeDots` | kernel/sysfile.c:276-280 | a new directory has exactly its two entries; only a disk that was full stops them, and only at the first |
| `SysFile.NewInode` | kernel/sysfile.c:265-280 | a new inode with one link and its entries; it fails only because no inode is free or, for a directory, because the disk was full |
| `SysFile.CreateFinish` | kernel/sysfile.c:285-293 | a new directory is counted for its parent's sake, and the parent put |
| `SysFile.CreateFail` | kernel/sysfile.c:295-301 | the new inode and its blocks are free again, and the parent put |
| `SysFile.CreateNew` | kernel/sysfile.c:265-302 | either one inode and one entry are new, or every failure path has undone everything; what was lacking is an inode, a place in a directory of the greatest size, or blocks: fewer were free than the new directory and the place for its name need |
| `SysFile.Create` | kernel/sysfile.c:245-302 | create as a whole; the counts stay right if and only if the directory is still linked; a name that is there is returned exactly for a file or device opened as a file; otherwise it fails only for want of an inode, of blocks or of a place in a directory of the greatest size, and then puts the directory; it panics exactly when the name leads to a freed inode, which happens only for .. in a removed directory; regular files keep their bytes or are freed; everything changed was logged, at most 9 blocks |
| `SysFile.PanicReached` | kernel/sysfile.c:256-263 | a reachable tree in which create of .. in a removed directory meets a freed inode |
| `SysFile.DirLinksFit` | kernel/sysfile.c:285-289 | no directory is large enough for mkdir to exhaust its link count |
| `SysFile.Perform` | kernel/sysfile.c:123-302 | one call is answered and changes the name space exactly as sys_link, sys_unlink or create does on the tree, or leaves it but for freed inodes, with the reason; unless it names something in a removed directory or links a file past 32767 it does not panic and keeps the counts right; inodes in use are not freed, regular files keep their bytes or are freed; it logs everything it changed, at most 9 blocks, within what the log can take |
| `SysFile.Run` | kernel/sysfile.c:123-302 | for any sequence of link, unlink and create calls up to the first such call: each answer and each change of the name space is that of the call, none panics, and every count equals the number of its names in linked directories after each of them |
| `FsSystem.DataKeepsNames` | kernel/fs.c:423-539 | reading, writing or truncating a regular file changes no directory and no link count |
| `FsSystem.Act` | kernel/sysfile.c:123-302 | one transaction of any kind, a last close included, keeps block ownership and link counts, is answered and changes bytes or names as that call does on them, logs what it changed and at most 9 blocks |
| `FsSystem.CloseFile` | kernel/file.c:78-82 | the iput of the last close frees the inode exactly when it has no link and no other user, and costs no other file its bytes |
| `FsSystem.Run` | kernel/sysfile.c:123-302 | reads, writes, truncations, link, unlink, create and closes in any order and number: each answer and each change is that of its action, and after each of them every block has one owner and every inode its link count, up to the first action that is not allowed |
| `FsSystem.Boot` | mkfs/mkfs.c:69-175 | the same from an image that mkfs makes, for every set of files that fits, with at most 9 blocks logged by every action |
| `FsSystem.Persists` | kernel/fs.c:423-539 | over a whole run, a file that stays in use keeps its bytes through every action that does not write or truncate that file |
| `FsInodes.InodeRoundTrip` | kernel/fs.c:225-241 | an inode written into its place of 64 bytes among sixteen, as iupdate does, is read back by ilock with the same type, link count, size and addresses |
| `FsInodes.InodeLayout` | kernel/fs.h:32-45 | byte by byte: the type is at 0, the device numbers at 2 and 4, the link count at 6, the size at 8 and the addresses from 12 on, low byte first, 64 bytes to an inode and sixteen inodes to a block |
| `FsCrash.InodesFit` | kernel/fs.h:32-39 | every inode of a sound file system fits the fields of struct dinode |
| `FsCrash.Unchanged` | kernel/fs.c:225-241 | a block that a transaction did not log holds the same bytes after it, inode blocks included |
| `FsCrash.Committed` | kernel/log.c:193-203 | over any run of file-system actions, the contents that the log has committed are those of the file system after the same actions, but for blocks of interrupted copies |
| `FsCrash.PowerFails` | kernel/log.c:116-123 | an image of mkfs, any actions, power failing in any of them and again in the recoveries that follow: the disk holds every inode, bitmap and data block of the sound file system before that action or after it, except blocks that interrupted copies left unlogged, of which there are none when every source can be read |
| `Mkfs.Image.constructor` | mkfs/mkfs.c:93-113 | the empty image satisfies the ownership invariant with the metadata blocks in use |
| `Mkfs.Image.TakeBlock` | mkfs/mkfs.c:267-285 | iappend's block map: the file block gets the next free block, through the indirect block if needed, and no other reference changes |
| `Mkfs.Image.IAlloc` | mkfs/mkfs.c:222-234 | the next inode number, of the given type, with one link and no bytes |
| `Mkfs.Image.IAppend` | mkfs/mkfs.c:252-296 | the bytes are appended to the file and no other file changes; at most two blocks are taken for each block the bytes touch |
| `Mkfs.Image.Balloc` | mkfs/mkfs.c:236-250 | the bitmap block gets exactly the bits below the first free block |
| `Mkfs.Image.AddFile` | mkfs/mkfs.c:130-163 | the image holds the earlier files and this one; it fails only for a bad name, a file too large, or no inode or block left |
| `Mkfs.RoundedOk` | mkfs/mkfs.c:165-170 | rounding up a size keeps every block below it allocated if and only if the file does not end on a block boundary |
| `Mkfs.MakeImage` | mkfs/mkfs.c:69-175 | the finished image holds every file under its inode, the bitmap marks exactly the blocks in use, and the file invariant holds if and only if the root's entries do not fill a whole number of blocks; it succeeds for all acceptable files within a stated number of blocks |
| `MkfsNames.ImageNames` | mkfs/mkfs.c:117-163 | the image's link counts are right if and only if no file is named with a single dot, and its root directory is a finite map if and only if the names differ from each other and from the two dots; mkfs checks neither; the whole name-space invariant holds exactly in the second case |
| `MkfsNames.ImageCounted` | mkfs/mkfs.c:130-163 | inode by inode: the count mkfs stores is right for every inode but that of a file named with a single dot, whose entry is no link |
| `MkfsCases.RootTooLarge` | mkfs/mkfs.c:165-170 | 62 empty files: mkfs succeeds and the root has a size for which it has no block |
| `MkfsCases.SameName` | mkfs/mkfs.c:130-163 | two files of one name: mkfs succeeds and every link count is right, but the name leads dirlookup to the first file and no name leads to the second |
| `MkfsCases.DotName` | mkfs/mkfs.c:130-163 | a file named with a single dot: mkfs succeeds and the file has a count of one and no link |
| `MkfsCases.LostWrite` | kernel/fs.c:515-526 | ten bytes written over ten on a new image, of which five can be read: the result is 0, five bytes of the file have changed, and the block that holds them is the only changed one that was not logged |
| `InodeTable.RunOk` | kernel/fs.c:246-362 | the invariant of the inode table holds in every state of every interleaving: reference counts, valid copies, locks, and an inode about to be freed has no links in memory or on the disk |
| `InodeTable.OneEntryPerInode` | kernel/fs.c:246-277 | at most one entry in use stands for an inode |
| `InodeTable.IputNeverWaits` | kernel/fs.c:336-362 | when iput takes the sleep-lock with itable.lock held, the lock is free |
| `InodeTable.LockerSeesTheDisk` | kernel/fs.c:292-317 | whoever locks an inode finds the copy equal to the disk and in use, or an invalid entry that ilock reads, also when ialloc reused the number during a free |
| `InodeTable.FreeInodeHasNoCopy` | kernel/fs.c:336-362 | while an inode is free on disk no entry offers a valid copy, except to the iput that is about to invalidate it |
| `InodeTable.ReuseIsReread` | kernel/fs.c:198-219 | when ialloc hands out a number, an entry that still stands for it is invalid or about to be invalidated by the iput that freed it |
| `InodeTable.ReusedWhileFreed` | kernel/fs.c:198-362 | such runs exist: an inode is handed out and referenced again while its entry holds a valid but outdated copy, and the new user reads it from the disk |
| `InodeTable.LastWriteStays` | kernel/fs.c:223-362 | in every run, what was last given to an inode, by its lock holder, by the iput that freed it or by ialloc, is what every later holder finds in its copy and what the disk has when nobody holds it, whichever entries the inode passes through |
| `InodeTable.ChangeIsSeen` | kernel/fs.c:223-317 | such runs exist: a holder changes an inode, writes it and lets go, and the next holder finds the change |
| `InodeTable.FreedOnlyUnlinked` | kernel/fs.c:336-362 | in every run an inode becomes free on the disk only by an iput, and it has no links on the disk at that moment |
| `InodeTable.FreedByLastReference` | kernel/fs.c:336-362 | that iput began when its reference was the only one to the inode; every other reference that exists when the inode is freed was taken since then |
| `InodeTable.FreedWhileFound` | kernel/fs.c:336-362 | such runs exist: another process finds the inode after iput has decided and before it is freed |
| `InodeTable.OneFreerInRun` | kernel/fs.c:336-362 | no two processes are inside the freeing part of iput for the same entry |
| `InodeTable.LastReferenceGone` | kernel/fs.c:336-362 | when the last reference to an inode goes away, either it was not an unlinked inode that had been read, or an iput has freed it; it is then still free exactly when ialloc has not handed it out since |
| `InodeTable.LeftUnlinked` | kernel/fs.c:198-362 | such runs exist: an inode handed out during an iput, and put again without a link while that iput is still under way, stays in use on the disk without links and without references |
| `VmPages.Memory.constructor` | kernel/kalloc.c:26-43 | after kinit every managed page is on the free list once |
| `VmPages.Memory.Kalloc` | kernel/kalloc.c:74-92 | a page that was free and is now owned by the caller alone; 0 exactly when none is free |
| `VmPages.Memory.Kfree` | kernel/kalloc.c:45-69 | the page is free again, in front of the list; it panics exactly for a page outside the managed range |
| `VmPages.Memory.CollectFree` | kernel/kalloc.c:94-109 | the number of bytes on the free list |
| `VmTables.OnPath` | kernel/vm.c:95-118 | the table pages on the way to an address belong to that way only |
| `VmTables.OnePath` | kernel/vm.c:95-118 | two addresses of any two trees that end in the same entry are the same address of the same tree |
| `VmTables.LeafWritten` | kernel/vm.c:176-186 | writing one leaf entry changes the translation of one address of one tree and no other |
| `VmTables.TableLinked` | kernel/vm.c:110-115 | linking a zeroed table page changes no translation |
| `VmTables.Walk` | kernel/vm.c:95-118 | yields the entry's table page, allocating tables on request without changing any translation; it fails exactly when fewer pages are free than tables are missing on the way, and takes exactly those; panics exactly at MAXVA and above |
| `VmTables.MapOne` | kernel/vm.c:176-186 | one address is mapped and no other translation changes; it runs out of memory exactly when fewer pages are free than tables are missing; panics exactly on an address that is mapped or out of range |
| `VmTables.UnmapOne` | kernel/vm.c:203-218 | one mapping is removed, and its page freed on request; panics exactly when there is none |
| `VmTables.Mappages` | kernel/vm.c:159-188 | a range is mapped page by page; on failure the first mappings stay, and memory is exhausted |
| `VmTables.OwnedKept` | kernel/vm.c:159-219 | a user page that keeps its owner stays where it is mapped |
| `VmTables.OwnedApart` | kernel/vm.c:159-219 | different virtual pages own different physical pages |
| `VmSpace.MapIsInsert` | kernel/vm.c:159-188 | on the flat map from page number to page and flags, mapping is insertion; every other tree's map is unchanged |
| `VmSpace.UnmapIsRemove` | kernel/vm.c:193-219 | unmapping is removal; every other tree's map is unchanged |
| `VmSpace.UnmapFree` | kernel/vm.c:193-219 | a range of owned pages is unmapped and each of them is free; no panic |
| `VmSpace.PlaceOne` | kernel/vm.c:274-278 | a fresh page is mapped, or given back when there is no memory for tables |
| `VmSpace.GrowOne` | kernel/vm.c:264-279 | one page more, or nothing but table pages changed |
| `VmSpace.Uvmdealloc` | kernel/vm.c:287-299 | the pages above the new size are unmapped and free, those below untouched; no panic |
| `VmSpace.Uvmalloc` | kernel/vm.c:253-281 | every page up to the new size is mapped with the given flags; on failure every translation is as before, only table pages may have been added, and at most as many pages are free as were asked for.  That it never reaches the trap frame is proved for every machine with fewer pages than that, and asked of the caller otherwise |
| `VmSpace.NoMoreThanMemory` | kernel/vm.c:253-281 | an address space has no more pages than the machine |
| `VmFree.FreeWalk` | kernel/vm.c:303-319 | every table page of the tree becomes free and no page of another tree; the panic on a leaf is unreachable |
| `VmFree.Uvmfree` | kernel/vm.c:323-329 | every user page and table page of the address space becomes free, and nothing else changes |
| `VmFree.AllReturned` | kernel/vm.c:303-329 | freeing an address space gives back exactly the pages that building it took |
| `VmFree.FreeCount` | kernel/kalloc.c:94-109 | the length of the free list is the number of pages without an owner |
| `VmProc.OtherSpaces` | kernel/vm.c:253-299 | growing one address space leaves every other one intact |
| `VmProc.Growproc` | kernel/proc.c:259-275 | memory grows or shrinks by n with all pages below the size mapped; new pages can be read and written by the user; every page below both sizes is mapped as before and holds the same words; failure leaves size and translations; a result below zero leaves the size alone because the unsigned sum wraps; other address spaces are untouched |
| `VmProc.CopyOne` | kernel/vm.c:346-362 | one page of the parent is copied to a page of the child's own, with the same flags |
| `VmProc.Uvmcopy` | kernel/vm.c:337-368 | the child gets its own copy of every page with the same flags; on failure the child's map is empty again and at most as many pages are free as the parent has; the parent is untouched; the panics are unreachable |
| `VmHardware.HardwareAgrees` | kernel/vm.c:82-119 | for every address the translation that Sv39 prescribes, three levels of nine bits, finds exactly the entry that walk finds, with its page and permissions, and faults where there is none |
| `VmLife.Uvmcreate` | kernel/vm.c:223-232 | an empty tree in a page that was free, or nothing changed |
| `VmLife.ProcPagetable` | kernel/proc.c:176-206 | trampoline and trap frame mapped and nothing else, at the price of three pages; it fails exactly when fewer than three are free, and then every page is back where it was; the second mappages cannot fail; other address spaces are untouched |
| `VmLife.ProcFreePagetable` | kernel/proc.c:210-216 | every page of the process's tree and memory is free, the trampoline and trap frame pages, all other trees and all other data are untouched |
| `VmLife.Fork` | kernel/proc.c:279-300 | the child's page table holds a copy of every page of the parent; if memory runs out every page is back; the data and translations of every other address space are unchanged |
| `VmLife.ForkAndFree` | kernel/proc.c:176-300 | after a fork and the freeing of the child every page has its first owner, every other address space its data and translations, and the amount of free memory is the same |
| `VmLife.Lifetime` | kernel/proc.c:176-275 | create, grow and shrink any number of times, free: every page has its first owner and the amount of free memory is the same; all along every page can be read and written, each call keeps the pages below both sizes, and on the machine a user access goes through exactly for the addresses of these pages |
| `VmLife.PageSurvives` | kernel/proc.c:259-275 | a page that the process has all the time from one call to a later one keeps its place and its words, however the size moved above it |
| `VmLife.UserReach` | kernel/proc.c:176-206 | the address translation of the machine lets the user read and write exactly the pages below the size: not the trap frame, not the trampoline, nothing in between |
| `Scheduler.RunOk` | kernel/proc.c:447-521 | the invariant of contexts, locks and CPUs holds in every state of every run with any number of CPUs and processes |
| `Scheduler.OneCpuPerProcess` | kernel/proc.c:447-521 | at most one CPU executes on a process's kernel stack |
| `Scheduler.LoadedContextIsSaved` | kernel/proc.c:457-475 | a context is loaded only after it was saved completely, with the lock held and no CPU on that stack |
| `Scheduler.ResumedHoldsLock` | kernel/proc.c:493-521 | a process that returns from sched holds p->lock on the CPU it is now on, which may differ from the one it left |
| `Scheduler.SchedNeverPanics` | kernel/proc.c:493-510 | whenever a process reaches sched from yield, sleep or exit, it holds p->lock and no other lock, has changed its state and runs with interrupts off: none of the four panics |
| `Scheduler.Migrates` | kernel/proc.c:447-521 | such runs exist: from any boot state, a process that entered sched on one CPU comes back from it on any other |
| `Scheduler.ReleaseNeverPanics` | kernel/spinlock.c:46-110 | release and pop_off are only called on held locks with interrupts off and a positive count |
| `Scheduler.FreedSlotIsQuiet` | kernel/proc.c:156-172 | a slot is freed only when no CPU is on its kernel stack |
| `Scheduler.StateStepInRun` | kernel/proc.c:110-615 | in every run a process's state changes only from RUNNABLE to RUNNING, from RUNNING by its own yield, sleep or exit, or by another process that holds its lock, and then as allocproc, freeproc, fork, wakeup and kill do |
| `Scheduler.SleeperIsWoken` | kernel/proc.c:447-596 | a process that sleeps at one moment and runs at a later one was made RUNNABLE in between by another process that held its lock |
| `Scheduler.ZombieIsReaped` | kernel/proc.c:156-475 | a process that has exited runs again only after its slot was freed and then allocated |
| `Scheduler.LookedAtIsRun` | kernel/proc.c:457-475 | a scheduler that has locked a process runs it if it is RUNNABLE, and otherwise releases the lock and changes nothing else |
| `Scheduler.SwitchIsComplete` | kernel/proc.c:465-468 | a context switch loads one side only after all registers of the other were stored |
| `Scheduler.RunsAgain` | kernel/proc.c:345-596 | such runs exist: a process sleeps, is woken by a process on another CPU and runs again; a process exits, is freed, and its slot is used again |
| `SleepLock.RunOk` | kernel/sleeplock.c:21-41 | the invariant of sleepers, scans and the lock holds in every state of every run |
| `SleepLock.MutualExclusion` | kernel/sleeplock.c:21-41 | at most one process holds the sleep-lock, and while one does it is marked locked by it |
| `SleepLock.NoLostWakeup` | kernel/proc.c:548-594 | whenever a process sleeps on the lock, the lock is held or a releaser's scan has yet to reach that process |
| `SleepLock.NobodyStuck` | kernel/proc.c:548-594 | when the lock is free and nobody is acquiring or releasing it, nobody sleeps on it |
| `SleepLock.SleepsOnFreeLock` | kernel/sleeplock.c:21-41 | such runs exist: a process falls asleep on a lock that has just become free, is found by the releaser's scan and gets the lock |
| `ExitWait.RunOk` | kernel/proc.c:278-437 | the invariant of states, parents and wait_lock holds in every state of every run of fork, exit, wait and kill |
| `ExitWait.ParentsAreAlive` | kernel/proc.c:330-388 | no parent field names a zombie or an unused slot, and every zombie has a parent |
| `ExitWait.ZombieFreedByParent` | kernel/proc.c:391-437 | a zombie is freed by its parent in wait only, with the status it passed to exit, after it left its kernel stack |
| `ExitWait.NoSleeperWithZombie` | kernel/proc.c:346-437 | whenever wait_lock is free no process sleeps in wait while it has a zombie child |
| `ExitWait.WaiterHasChild` | kernel/proc.c:391-437 | in every run a process goes to sleep in wait, and is asleep there, only with a child; when its scan is over it can go to sleep exactly when it has one |
| `ExitWait.GivesUpWithoutZombie` | kernel/proc.c:391-437 | wait returns -1 while it has a zombie child only if it has found one, whose status it could not copy out |
| `ExitWait.OrphanReaped` | kernel/proc.c:330-437 | such runs exist: a zombie whose parent exits is handed to init and freed by it with the status it passed |
| `ExitWait.SleeperReaps` | kernel/proc.c:345-437 | such runs exist: a parent asleep in wait is woken by its child's exit and frees it with its status |
| `Pipe.WrapIndex` | kernel/pipe.c:88-95 | the ring index is unaffected by the wrap of a 32-bit counter |
| `Pipe.Difference` | kernel/pipe.c:88-123 | full and empty are told apart by the wrapped counters exactly as by unwrapped ones |
| `Pipe.Ring.constructor` | kernel/pipe.c:22-56 | a new pipe is open at both ends and empty |
| `Pipe.Ring.WriteRound` | kernel/pipe.c:76-103 | between two sleeps a writer does exactly what the queue does: it appends the bytes from i on that are there, fit and can be read, until it finds that it was killed, which may be after any byte; it sleeps only on a full ring, and returns -1 when the reader is gone or it was killed |
| `Pipe.Ring.ReadRound` | kernel/pipe.c:105-130 | a reader does exactly what the queue does: it takes the oldest bytes in order, as many as asked for, buffered and accepted; a byte whose copy fails is taken and lost; it sleeps exactly on an empty pipe with a writer |
| `Pipe.Ring.Close` | kernel/pipe.c:58-74 | closing the write end leaves the read end as it was and the other way round; the ring is given up exactly when the other end was closed already |
| `Pipe.Fifo` | kernel/pipe.c:76-130 | on the queue, for any list of rounds: what came out followed by what is left is what was there followed by what went in |
| `Pipe.SentIs` | kernel/pipe.c:76-103 | the bytes that entered the queue are exactly those that the writers' results account for, in order |
| `Pipe.ReceivedIs` | kernel/pipe.c:105-130 | when no copy fails, the readers together get exactly the bytes that left the queue, in order |
| `Pipe.Interleave` | kernel/pipe.c:58-130 | for any interleaving of rounds the ring gives every caller the queue's result and ends as the queue does; what was taken followed by what is buffered is what was buffered followed by what the writers were told they sent, and without failed copies what was taken is what the readers got; the wrapped difference of the counters is the number of bytes buffered; a ring that was open is given up exactly when both ends have been closed |
| `Pipe.OpenEnds` | kernel/pipe.c:58-74 | for any list of rounds an end is open exactly when it was at first and has not been closed |
| `Pipe.ReaderSeesEnd` | kernel/pipe.c:105-130 | reading an empty pipe returns 0 exactly when the write end has been closed, and otherwise sleeps unless the reader was killed |
| `Pipe.ReaderNeverWaits` | kernel/pipe.c:105-130 | a reader never sleeps once the write end has been closed |
| `Pipe.WriterSeesClosed` | kernel/pipe.c:76-103 | a write with bytes left returns -1 without adding any exactly when the read end has been closed or the writer was killed before the first |
| `Pipe.ClosedIsRefused` | kernel/pipe.c:58-130 | no round of a call is performed on an end that was closed |
| `UMalloc.SearchStops` | user/umalloc.c:30-32 | free's search stops exactly at the entry after which the block belongs |
| `UMalloc.Disjoint` | user/umalloc.c:24-90 | two blocks, free or in use, do not overlap |
| `UMalloc.FreeWorks` | user/umalloc.c:24-44 | after insertion and both joins the list is ordered, blocks tile the memory and no two free blocks touch |
| `UMalloc.Carved` | user/umalloc.c:78-82 | cutting a block's upper end keeps list and tiling |
| `UMalloc.Unlinked` | user/umalloc.c:76-77 | giving out a whole block keeps list and tiling |
| `UMalloc.Gained` | user/umalloc.c:46-61 | memory from sbrk joins the tiling as a block in use |
| `UMalloc.Allocator.FindPlace` | user/umalloc.c:30-32 | the loop from freep terminates at the block's place |
| `UMalloc.Allocator.Free` | user/umalloc.c:24-44 | one block less in use, all others unchanged, and freep or its successor is at least as large as the block |
| `UMalloc.Allocator.Morecore` | user/umalloc.c:46-61 | the memory grows by at least 4096 units and a block large enough is at freep or after it, also when it was merged; nothing changes if sbrk fails |
| `UMalloc.Allocator.Search` | user/umalloc.c:74-88 | one pass ends, with a block large enough and its predecessor or because no free block is |
| `UMalloc.Allocator.Give` | user/umalloc.c:75-85 | exactly n units leave the free list, nothing else changes |
| `UMalloc.Allocator.Malloc` | user/umalloc.c:63-90 | a block of exactly the units that the bytes asked for need, disjoint from all others; 0 exactly when sbrk failed and no free block was large enough; memory is asked for only then; the search after morecore always succeeds |
| `UMalloc.Serve` | user/umalloc.c:24-90 | one call takes the blocks in use from what was given out before to what the call's pointer adds or removes; malloc in range returns 0 exactly when sbrk fails and no free block is large enough; a request out of range is not performed |
| `UMalloc.HeldApart` | user/umalloc.c:63-90 | the bytes that two callers asked for, between their pointers and sizes, do not overlap |
| `UMalloc.Run` | user/umalloc.c:24-90 | for any sequence of malloc and free calls the blocks in use are exactly those that the returned pointers say were given out and not freed; they are different, at least as large as asked for and do not overlap; malloc of a request in range returns 0 only when sbrk fails; requests out of range are passed over |
| `ShellParser.Parser.Peek` | user/sh.c:311-321 | skips whitespace and says whether the next character is one of those asked for |
| `ShellParser.Parser.GetToken` | user/sh.c:266-309 | the token, its ends and the new cursor are those of the grammar, for words, symbols, the doubled greater-than sign and the end of the line |
| `ShellParser.Parser.Parseredirs` | user/sh.c:375-398 | collects the redirections that the grammar reads, in order; panics exactly when a file name is missing |
| `ShellParser.Parser.Parseline` | user/sh.c:345-360 | parses what the grammar says and leaves the cursor there, on every line; terminates |
| `ShellParser.Parser.Parsepipe` | user/sh.c:362-373 | parses what the grammar says and leaves the cursor there, on every line; terminates |
| `ShellParser.Parser.Parseexec` | user/sh.c:416-447 | parses what the grammar says and leaves the cursor there, on every line; panics at the tenth argument; terminates |
| `ShellParser.Parser.Parseblock` | user/sh.c:400-414 | parses what the grammar says and leaves the cursor there, on every line; panics without a closing parenthesis; terminates |
| `ShellParser.Parser.Parsecmd` | user/sh.c:328-343 | the command of the grammar if the whole line is used up, else a panic; afterwards every argv and file address reads as exactly its token |
| `ShellTokens.LineOkCmd` | user/sh.c:345-447 | every token in a parsed command is a maximal word of the line and no command has more than nine arguments |
| `ShellTokens.Nulterminate` | user/sh.c:449-494 | every token is terminated, and only characters that belong to no word are overwritten |
| `ShellTokens.ReadsAsToken` | user/sh.c:449-494 | a terminated token reads as itself, whatever other terminators were written |
| `ShellTokens.AllTerminated` | user/sh.c:449-494 | every string in the command reads as its token |
| `ShellLexer.LexRender` | user/sh.c:263-309 | whatever whitespace stands before, between and after a list of tokens, as long as some separates two words, gettoken finds exactly these tokens; whitespace is blank, tab, carriage return, newline and vertical tab |
| `ShellLexer.RenderLex` | user/sh.c:263-309 | every line is its tokens with whitespace around them: no character is lost and each token is a whole word or a symbol |
| `ShellLexer.TokenLex` | user/sh.c:266-309 | gettoken returns the first token and leaves the cursor at the second |
| `ShellLexer.PeekLex` | user/sh.c:311-321 | peek is true exactly when the next token begins with one of the symbols asked for |
| `ShellSound.RedsParse` | user/sh.c:375-398 | redirections are read in the order in which they are written |
| `ShellSound.ItemsParse` | user/sh.c:429-446 | words and redirections in any order are read as the arguments and the redirections, each in its order |
| `ShellSound.Parses` | user/sh.c:345-447 | inside any line, at each level of the grammar, what is written in the language is read up to its end and no further, as it is meant |
| `ShellComplete.LineSrc` | user/sh.c:345-447 | whatever the parser reads, from any position, is written in the language and means what the parser made of it |
| `ShellSource.SourceMeans` | user/sh.c:345-447 | every command with valid words and at most nine arguments can be written, with only the parentheses that precedence demands |
| `ShellRoundTrip.Accepted` | user/sh.c:263-447 | however a command is written, with redirections before, between or after the words and any whitespace anywhere, the whole line is accepted and means what was written |
| `ShellRoundTrip.Written` | user/sh.c:263-447 | every line that is accepted is written in the language and means what was written, so the parser accepts exactly that language |
| `ShellRoundTrip.Respaced` | user/sh.c:263-343 | other whitespace between the same tokens makes no difference to what a line means |
| `ShellRoundTrip.Newline` | user/sh.c:139-169 | an accepted line followed by its newline, or by any other whitespace, is accepted and means the same |
| `ShellRoundTrip.Blanks` | user/sh.c:263-309 | one blank before, between and after the tokens is a spacing of any list of tokens |
| `ShellRoundTrip.RoundTrip` | user/sh.c:328-447 | every command with valid words and at most nine arguments each, written with only the parentheses that precedence demands and any whitespace, parses back to itself |
| `ShellRoundTrip.Canonical` | user/sh.c:328-447 | whatever line is accepted, writing its command out again gives a line that is accepted and means the same |

## Left out

- `kernel/virtio_disk.c`, `kernel/uart.c`, `kernel/plic.c`, `kernel/start.c`, `kernel/trap.c` and the assembly files: registers and instructions; a block write is one atomic step and a context switch one abstract one.
- `kernel/console.c`: a ring like the pipe's, tied to the UART.
- `kernel/exec.c`: a sequence of calls into vm.c and fs.c.
- printf, system-call tracing and fetching of system-call arguments: plumbing.
- Path walking (skipelem, namex): calls of link, unlink and create take the inodes that it returns, any directory or nothing.
- copyin, copyout and copyinstr: a transfer that faults is a number of bytes that could be copied.
- sysinfo's process count, which scans only the first NCPU slots, and kill of pid 0.
- Memory-ordering fences, TLB flushes, fairness: sequential consistency, and safety properties only.
- The contents of fresh user pages: kalloc does not fill them in this configuration.
- Devices and pipes behind a file descriptor, and the file table's reference counts.
- The interrupt-enable bit that push_off saves and pop_off restores; only the nesting count and whether interrupts are on are modelled.
- Interleaving of file-system calls on one inode: readi, writei and the directory operations run under the inode's lock and are modelled one after the other; the locking itself is `InodeTable`.
- More than one device: the file system is one disk, so the test of sys_link for a link across devices and the device numbers of inodes are not in it, except in `InodeTable` and `BufferRing`.
- mkfs host I/O, the superblock's fields as bytes, and `xv6-labs-2023/mkfs/mkfs.c`, a near copy.
- Mkfs.MakeImage: refuses when the blocks run out, where mkfs would go on writing past the end of the image; a file's contents are appended in one piece instead of block by block.
- FsInodes.InodeRoundTrip: the major and minor numbers of devices are not in the model and are 0 on the disk.
- FsCrash.PowerFails: transactions commit one by one; that several commit together is the log protocol's subject (LogTheorems.CrashAtomicity).
- VmPages.Memory.Kfree: freeing a page that is free already is not covered, because kfree cannot detect it and would put the page on the list twice.
- VmTables.MapOne: a permission without any of R, W and X is not covered; mappages accepts it, but such an entry would be a table to freewalk, and no caller passes one.
- VmTables.Mappages: the same.
- VmTables.UnmapOne: unmapping a user page without freeing it is not covered; it would leave the page without an owner, and only the trampoline and the trap frame are unmapped so.
- VmProc.Growproc: on a machine with at least 2^26 - 2 pages of memory asks for a new size below the trap frame, which growproc itself does not check.
- UMalloc.Allocator.Malloc: the one loop of malloc is a pass of the search, a call of morecore and a second pass; requests are below the int range of sbrk, to which malloc would pass a truncated number otherwise; sbrk returns nothing or memory above the old.
- ShellParser.Parser.Parseexec: argv and redirections are collected and combined at the end; that the source fills the command while redirections already wrap it is not captured.
- ExitWait.RunOk: copying memory in fork and freeing it in wait are the virtual-memory modules' subject; steps of one process under p->lock that nobody else can observe are merged.
- Pipe.Ring.WriteRound: what happens between acquiring the pipe's lock and sleeping or returning is one round; wakeups are not modelled, rounds may come in any order.
