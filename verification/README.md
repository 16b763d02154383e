# Models and proofs for tptfs, os-elephant and toyos

A Dafny 4.11 project that models the four hardest pieces of the repository and proves what they
promise. `dafny verify dfyconfig.toml` checks everything.

- **tptfs** is a stacking filesystem: every lower vnode has at most one alias vnode per mount. The
  alias owns one reference on the lower vnode and borrows its lock. The model (`tptfs_*.dfy`) is a
  transition system with any number of threads, vnodes, mounts and hash buckets. One step is one
  section under the hash lock or an interlock, or one kernel primitive; threads interleave at every
  point where they may sleep. `Kernel` defines vnodes, locks and primitives, `Invariant` what holds
  between any two sections, `Guarantee` what a section leaves alone for the other threads. Each
  operation is a small program with its own module: `Destroy` (tpt_destroy_proto), `Nodeget`,
  `Reclaim` (vgone and tpt_reclaim), `Notify` (the two lower-layer notifications), `Locking`
  (tpt_lock, tpt_unlock), `Inactive` (the last release), `Lookup` and `Environment` (the lower
  filesystem, write counts). `System` puts them side by side, `Runs` holds the theorems over all
  runs, `Endings` those about how lookups, last releases and upgrades end, `Panics` those about the one
  assertion that can fail, `Witness` and `LookupWitness` concrete runs. `NodeHash` is the hash code as a
  class, `Bypass` the generic operation tpt_bypass as seen from the thread that runs it.
- **The page allocator of os-elephant**: `Bitmaps` (bitmap.dfy), `Paging` (the two-level walk and
  page_table_add), `SetupPage` (the loader's tables), `PageMemory` (memory.dfy: pools, palloc,
  vaddr_get, malloc_page, whole runs) and `AsWritten` (page_table_add with line 168 as it is).
- **The formatter of toyos**: `Numbers` (what number and skip_atoi produce), `Formatter` (a
  recursive specification of vsprintf and the cursor-moving code that meets it) and `Meaning` (what a
  format says to whoever writes it, which is what the code understands).
- **The console of os-elephant**: `Console`, put_char and put_str over video memory, refining an
  unbounded tape of rows.

## What the code does that its comments do not say

- `tptfs_unlink_lowervp` asserts that an alias found unreferenced after vunref is doomed
  (tptfs/tpt_vfsops.c:436-445). Another thread may give up the last reference between vunref and the
  test. `Panics.OnlyTheTest` says that this is the only assertion that fails in any run,
  `Panics.PanicExactly` exactly when it fails, `Witness.UnlinkRaceHappens` is a run that takes it.
- `tpt_lookup` looks at the state of the directory alias only after a successful lower lookup. After
  a failed one the thread has the lock of the lower directory, which the alias names only if it was
  not reclaimed meanwhile (`Runs.LookupOutcome`, `LookupWitness.LockLostAfterFailure`). When a
  read-only mount refuses a create for which the lower filesystem returned a vnode, that vnode is
  left locked and referenced (`Endings.LeakExactly`, `LookupWitness.VnodeLeaksOnReadOnly`).
- `tpt_bypass` moves a lock to the first reclaimed alias among the arguments; another alias of the
  same lower vnode is left without the lock it names (`Bypass.BypassLocks`, `Bypass.LockMayBeLost`).
  Line 267 reads the node of an argument without asking whether there is one: an alias that another
  thread reclaimed before the call still has the tptfs operations until it is freed, and its v_data is
  null (`LookupWitness.HalfGoneHappens`). `Bypass.Caller.Bypass` says exactly when that is dereferenced.
- The comment at tptfs/tpt_vnops.c:268-272 speaks of releasing the argument; line 274 refers to the slot
  after it was overwritten, so the reference is taken on the lower vnode, which is what balances.
- os-elephant/kernel/memory.c:168 passes the physical address to pte_ptr. `PageMemory` passes the
  virtual one, as the comment at line 164 asks; `AsWritten` is the line as it stands. There the frame is
  mapped at its own physical address. The first 512 frames go to the heap pages 256 further on, since
  those share their page table with low memory, and from frame 512 on the line faults
  (`AsWritten.FrameEntry`, `AsWritten.AddPages`). No page malloc_page hands out gets its own frame
  (`AsWritten.NeverItsFrame`).
- os-elephant/lib/kernel/bitmap.c:24 and 47-63 read one byte and test one bit behind the bitmap. The
  memory of the model goes on behind the bitmap. `Bitmaps.FirstFitExactly` says when the scan is
  first fit all the same, `Bitmaps.UnguardedScanOverruns` shows an overrun. In malloc_page an
  overrun always ends in the failed assertion of palloc, so no overlapping range is ever returned.
- os-elephant/boot/loader.S:256-289: directory entries 0 and 768 name the same page table, so
  page_table_add maps each of the first 768 heap pages twice (`SetupPage.HeapTwins`,
  `Paging.AddsOneExactly`). Nothing clears the page tables of the heap; `PageMemory.StaleExactly`
  says what an entry that happens to be in use does.
- os-elephant/lib/kernel/bitmap.c:29 asserts before `return -1` can run on a full bitmap; so palloc
  never returns NULL, and the unchecked call at os-elephant/kernel/memory.c:178 cannot see one.
- os-elephant/kernel/memory.c:34 keeps the number of free pages in 16 bits
  (`PageMemory.PageCountLimit`), and line 33 wraps below 2 MB (`PageMemory.MemoryLowerLimit`).
- toyos/Library/libc/vsprintf.cpp:84 makes every negative number zero (`Formatter.NegativeIsZero`),
  lines 241 and 261 do not step past a star (`Formatter.StarIsPrinted`), of two qualifiers the second is
  printed (`Meaning.SecondQualifier`), and a `0` flag is kept when a
  precision is given; `Numbers.ZeroFlagShows` says when that makes a difference.
- os-elephant/lib/kernel/print.S:82-86: a backspace on the first cell of the screen writes at offset
  0xfffe, beyond the limit of the video segment, and faults.

## Model

| member | source | states |
|---|---|---|
| Runs.RunSound | tptfs/tpt_subr.c:98-293 | in every state of every run of any number of threads the invariant holds: hash, exact counts, locks, and what each thread holds at its program point; no assertion fails and nothing null, freed or not held is used, but for one race |
| Runs.StepSound | tptfs/tpt_vnops.c:669-861 | every section of every operation keeps the invariant and what other threads rely on |
| Panics.PanicExactly | tptfs/tpt_vfsops.c:434-457 | a notification that came to the test of the use count panics there if and only if vunref left the alias in use and by now no thread has a reference to it |
| Panics.OnlyTheTest | tptfs/tpt_vfsops.c:434-445 | no other step of any thread in any run panics |
| Panics.PanicMeansRace | tptfs/tpt_vfsops.c:432-445 | behind every panic there is a vunref that was not the last and another thread that gave up the last reference before the test |
| Panics.LastReleaseIsSafe | tptfs/tpt_vfsops.c:432-445 | a vunref that released the last reference dooms the alias, and no test of it panics from then on |
| Panics.OwnerIsSafe | tptfs/tpt_vfsops.c:432-457 | a caller with a reference of its own to the alias never runs into the panic |
| Witness.UnlinkRaceHappens | tptfs/tpt_vfsops.c:432-445 | a run in which another thread gives up the last reference after vunref and the first assertion fails |
| Runs.OneNodePerPair | tptfs/tpt_subr.c:137-168 | the hash never holds two nodes for one mount and lower vnode, in one bucket or two |
| Runs.SameAlias | tptfs/tpt_subr.c:94-135 | two successful calls of tpt_nodeget or tpt_lookup for one mount and lower vnode, with no reclaim of the first result between them, return the same alias |
| Runs.LiveUntilDoomed | tptfs/tpt_subr.c:121-126 | an alias that is hashed stays hashed and complete until it is doomed |
| Runs.LowerCountsExact | tptfs/tpt_subr.c:51-57 | use, hold and write counts of a lower vnode are exactly what threads and aliases have on it, in every state, also through failing increments and reclaim of a file open for write |
| Runs.AliasCountsExact | tptfs/tpt_subr.c:193-200 | the use count of an alias is the references threads have; a node owns its lower reference from insertion to reclaim |
| Runs.NodegetOutcome | tptfs/tpt_subr.c:193-293 | on all exits the spare reference is consumed once; success leaves one reference to a live alias and the lock it names, an error neither lock nor reference; ENOENT only for a shared caller of a doomed lower vnode |
| Runs.NeverOnDoomed | tptfs/tpt_subr.c:221-232 | a caller that came with a shared lock never inserts an alias of a doomed lower vnode, though the upgrade may have given the lock up |
| Runs.ExclusiveNeverBeaten | tptfs/tpt_subr.c:234-239 | a caller that came with the exclusive lock never finds a duplicate at insertion |
| Witness.SharedMayBeBeaten | tptfs/tpt_subr.c:221-289 | a run in which a caller with a shared lock does find one |
| Runs.NodeEndsOnce | tptfs/tpt_vnops.c:831-858 | every node is unhashed at most once and freed at most once: off the hash it stays off, freed it stays freed |
| Runs.PrototypeNeverHashed | tptfs/tpt_subr.c:170-183 | a prototype that is not inserted yet, or is destroyed, was on the hash and owned a lower reference in no state of the run up to then |
| Runs.NoUnlockOnlyInNotification | tptfs/tpt_vfsops.c:409-460 | NULLV_NOUNLOCK is on a complete alias only while a notification about its lower vnode runs in the thread with the lower lock |
| Runs.NotificationOutcome | tptfs/tpt_vfsops.c:409-460 | both notifications return with the lower lock held and nothing gained or lost; that of a reclaim with no alias of its pair on the hash, that of an unlink with none but a live one that carries NULLV_DROP and not NULLV_NOUNLOCK |
| Runs.ReclaimTakesDown | tptfs/tpt_vfsops.c:414-419 | whatever alias of the pair was live at any moment before a reclaim notification returns is then doomed and off the hash |
| Runs.UnlinkMarks | tptfs/tpt_vfsops.c:427-459 | an alias that was live before an unlink notification returns is then gone, or live and marked to go with its last reference |
| Runs.VgoneOutcome | tptfs/tpt_vnops.c:817-861 | after vgone the thread has exactly the private lock of the alias, which is off the hash and without data |
| Runs.LockOutcome | tptfs/tpt_vnops.c:669-735 | when tpt_lock returns 0 the thread holds exactly the lock v_vnlock names then, in the mode asked, and not the other one, even if the alias was reclaimed while it slept; for shared, exclusive, upgrade, try-upgrade and downgrade, and a refused try-upgrade keeps the share |
| Runs.KeptRequestFindsData | tptfs/tpt_vnops.c:711-724 | a downgrade or try-upgrade finds the alias with its data after the lower lock answered, so the panic for such a request on a reclaimed alias is never reached |
| Endings.UpgradeExactly | tptfs/tpt_vnops.c:702-733 | in any run the only sharer of the lock v_vnlock names becomes its exclusive owner in one step; with other sharers an upgrade gives the share up and a tried one keeps it |
| Endings.NodegetUpgrades | tptfs/tpt_subr.c:221-227 | the same for the lower lock in tpt_nodeget, which an exclusive caller keeps |
| Runs.LockStaysNamed | tptfs/tpt_vnops.c:836-852 | until the holder itself moves, v_vnlock goes on naming the lock it holds |
| Runs.TakingDownNeverSleeps | tptfs/tpt_vnops.c:836 | vgone, tpt_reclaim and tpt_destroy_proto never wait for a lock: whatever other threads do, their next section can go at once; so lockmgr, whose result tptfs/tpt_vnops.c:836 and tptfs/tpt_subr.c:174 ignore, always finds the lock free |
| Runs.UnlockOutcome | tptfs/tpt_vnops.c:742-760 | tpt_unlock releases the lock that was named at the call, and ends with neither |
| Runs.LookupOutcome | tptfs/tpt_vnops.c:372-448 | tpt_lookup returns the live alias, on the mount of the directory, of the vnode the lower lookup found, or the directory itself; it gains at most that upper reference, balances holds and references, and leaves the thread with the lock the directory alias names, also when it was reclaimed meanwhile, unless the lower lookup failed |
| LookupWitness.LockLostAfterFailure | tptfs/tpt_vnops.c:402-432 | a run in which the lower lookup fails after the directory was reclaimed and the thread is left without the lock the alias names |
| LookupWitness.HalfGoneHappens | tptfs/tpt_vnops.c:831-858 | a reachable state in which a vnode has the operations of tptfs and no v_data |
| LookupWitness.VnodeLeaksOnReadOnly | tptfs/tpt_vnops.c:434-437 | a run in which a create on a read-only mount leaves the vnode found locked and referenced |
| Endings.LookupAnswer | tptfs/tpt_vnops.c:382-448 | for every finished tpt_lookup of every run there is the step that decided it: the call was a delete or rename on a read-only mount and gives EROFS, or the lower lookup returned, and its error is passed on; a doomed directory makes it ENOENT; EJUSTRETURN becomes EROFS for a create or rename on a read-only mount and is returned otherwise when no vnode came with it; for the directory itself its alias comes with that error, for another vnode an alias comes if and only if the error is 0 |
| Endings.LeakExactly | tptfs/tpt_vnops.c:434-446 | a finished tpt_lookup, in any run, leaves a vnode locked and referenced if and only if the lower lookup of the last component of a create or rename returned EJUSTRETURN with a vnode, the directory is alive and the mount read-only; it is that vnode |
| Destroy.DpStepGood | tptfs/tpt_subr.c:170-183 | every section of tpt_destroy_proto keeps the invariant, the winner of the race and the locks of other vnodes |
| Nodeget.NgStepGood | tptfs/tpt_subr.c:201-293 | every section of tpt_nodeget, with each primitive succeeding or failing, leads to what the next section needs |
| Reclaim.VgStepGood | tptfs/tpt_vnops.c:817-861 | every section of vgone and tpt_reclaim; the lease of write counts goes back in full and the choice between vput and vunref is right |
| Reclaim.HashremHash | tptfs/tpt_subr.c:298-306 | LIST_REMOVE takes exactly the node off its list and keeps the others |
| Notify.RlStepGood | tptfs/tpt_vfsops.c:409-420 | every section of the reclaim notification |
| Notify.UlStepTest | tptfs/tpt_vfsops.c:436-457 | the three assertions of the unlink notification hold, the first except in the race |
| Locking.LkStepGood | tptfs/tpt_vnops.c:669-735 | every section of tpt_lock, for five kinds of request, granted or refused |
| Locking.UnStepGood | tptfs/tpt_vnops.c:742-760 | every section of tpt_unlock |
| Endings.ReleaseStarts | tptfs/tpt_vnops.c:806-811 | vrele of a live alias in any run: one reference less, and the release goes on to lock it if and only if that was the last, the mount does not cache or the alias is dropped or the lower vnode is not to be synced, and the thread has the lock exclusively or not at all |
| Endings.RecycleExactly | tptfs/tpt_vnops.c:779-803 | with the lock held, a live alias that still is unreferenced is doomed if and only if one of the same three holds, and left alone otherwise |
| Endings.RecycledIsGone | tptfs/tpt_vnops.c:794-803 | a release that doomed the alias ends with it off the hash, freed, and its lower reference given back |
| Endings.KeptAlive | tptfs/tpt_vnops.c:794-803 | one that did not leaves it live until the lock is given up |
| Inactive.InStepGood | tptfs/tpt_vnops.c:767-811 | every section of a last release: lock, tpt_inactive, reclaim, unlock |
| Lookup.LuStepGood | tptfs/tpt_vnops.c:402-446 | every section of tpt_lookup, for every behaviour of the lower lookup |
| Environment.StepAddWrite | tptfs/tpt_vnops.c:347-365 | tpt_add_writecount moves both counts by the same amount or neither, changes nothing else and keeps every count exact |
| Environment.DropMarks | tptfs/tpt_vnops.c:614-665 | remove, rename and rmdir set NULLV_DROP on a live alias and change nothing else |
| Environment.ActStepGood | tptfs/tpt_vnops.c:656-662 | whatever the lower filesystem and other kernel code do to shared vnodes keeps the invariant |
| Guarantee.NamedKept | tptfs/tpt_vnops.c:832-840 | no other thread moves v_vnlock while a thread has the lock it names |
| Guarantee.NoNodeKept | tptfs/tpt_subr.c:237-238 | nobody adds an alias of a lower vnode that another thread has exclusively locked |
| Invariant.LowerInUse | tptfs/tpt_vnops.c:690-701 | the lower vnode of an alias with data is in use, also for a losing prototype whose maker gave the spare reference up, so vholdnz is legal |
| Primitives.ScanFinds | tptfs/tpt_subr.c:117-126 | a search under the lower lock finds a live alias or proves there is none |
| NodeHash.Table.Hashget | tptfs/tpt_subr.c:98-135 | the search with its early exit for an empty bucket finds what the sections of the transition system find |
| NodeHash.Table.Hashins | tptfs/tpt_subr.c:141-168 | returns the node that is first of its pair or inserts at the head, and leaves the lists the section leaves |
| NodeHash.Table.Hashrem | tptfs/tpt_subr.c:298-306 | the first occurrence of the node goes, the rest stays in order, and the lists are those the section leaves |
| NodeHash.InsertThenRemove | tptfs/tpt_subr.c:141-168 | what was inserted is found and removing it restores the list |
| NodeHash.FindAfterRemove | tptfs/tpt_subr.c:298-306 | removing a node hides it and no node of another pair |
| Bypass.Caller.Bypass | tptfs/tpt_vnops.c:222-345 | for any lower layer that obeys its release flags every mapped argument is restored, references end as the flags say with one more for the alias of a returned vnode, locks end on what LockFollows says, and a vnode the lower layer returned comes back as an alias of it on the mount of the first argument, or as an error; v_data of null is dereferenced if and only if an argument to map is an alias reclaimed before the call, and the lower layer is not called then |
| Bypass.Caller.CallLower | tptfs/tpt_vnops.c:279-289 | there is always a lower vnode to call, so EINVAL is never returned |
| Bypass.GoneArgument | tptfs/tpt_vnops.c:262-275 | a call with such an argument, whose alias is reclaimed and not freed yet |
| Bypass.GivenToLower | tptfs/tpt_vnops.c:251-275 | the lower layer gets the lower vnode of the first argument and of every other alias with the operations of tptfs, and every other argument as it is |
| Bypass.FlagBit | tptfs/tpt_vnops.c:251-275 | argument i is released exactly when bit i of the flags is set |
| Bypass.BypassBalance | tptfs/tpt_vnops.c:251-322 | mapping adds no net reference to a lower vnode and every released argument costs exactly one reference of the vnode the caller passed: tpt_bypass obeys the flags if the lower layer does |
| Bypass.BypassLocks | tptfs/tpt_vnops.c:298-314 | an exclusive lock left on a lower vnode is the one v_vnlock of the mapped alias names if and only if no other alias of it among the arguments was reclaimed first |
| Bypass.LockMayBeLost | tptfs/tpt_vnops.c:298-314 | a call with two aliases of one lower vnode that ends without the lock one of them names |
| Bypass.LockFollows | tptfs/tpt_vnops.c:301-314 | the same for the loop that puts the arguments back |
| Bypass.ArgsBack | tptfs/tpt_vnops.c:289-324 | mapped arguments come back, the others are as the lower layer left them |
| Bypass.NoSelfDeadlock | tptfs/tpt_vnops.c:309-314 | the private lock that is taken is never one the thread has already |
| Bypass.MappedBalance | tptfs/tpt_vnops.c:262-275 | what the lower layer releases is what the caller passed plus what mapping took |
| Bitmaps.BitmapScan | os-elephant/lib/kernel/bitmap.c:21-65 | the failed assertion on a full bitmap, the lowest clear bit for one, otherwise the leftmost run of clear bits in the bitmap and the bit behind it, or -1 exactly when there is none |
| Bitmaps.ScanUnique | os-elephant/lib/kernel/bitmap.c:21-65 | the bits determine the result |
| Bitmaps.FirstFitExactly | os-elephant/lib/kernel/bitmap.c:47-63 | the scan is exact first fit within the bitmap if and only if the bitmap has a run of that length, or is full, or its last bits with the one behind it make up none |
| Bitmaps.OverrunExactly | os-elephant/lib/kernel/bitmap.c:47-63 | otherwise it returns just that run, which ends behind the bitmap |
| Bitmaps.GuardedFirstFit | os-elephant/lib/kernel/bitmap.c:47-63 | so it is exact first fit when the bit behind the bitmap is set |
| Bitmaps.UnguardedScanOverruns | os-elephant/lib/kernel/bitmap.c:47-63 | two bits asked of a bitmap whose last bit alone is free, with that bit clear, end behind it |
| Bitmaps.FilledScan | os-elephant/lib/kernel/bitmap.c:21-65 | what a scan finds in a bitmap that is filled from the left |
| Bitmaps.BitmapSet | os-elephant/lib/kernel/bitmap.c:68-80 | one bit changes, or nothing when the value is neither 0 nor 1 |
| Bitmaps.SetRefines | os-elephant/lib/kernel/bitmap.c:68-80 | bitmap_set refines the update of a boolean sequence |
| Bitmaps.SetBitBits | os-elephant/lib/kernel/bitmap.c:70-79 | a bit changes in whatever window of the memory it is looked at, and no other |
| Bitmaps.BitmapInit | os-elephant/lib/kernel/bitmap.c:9-11 | all bits clear, no byte outside touched |
| Bitmaps.ScanTest | os-elephant/lib/kernel/bitmap.c:14-18 | the value of the bit |
| Paging.PtePtrValue | os-elephant/kernel/memory.c:144-147 | pte_ptr(v) is 0xffc00000 + 4 * (v / 4096) and does not overflow |
| Paging.PtePtrBitsValue | os-elephant/kernel/memory.c:123-147 | the same on 32-bit words with the masks and shifts of the source |
| Paging.PtePtrInjective | os-elephant/kernel/memory.c:144-147 | two addresses share an entry exactly when they share a page |
| Paging.WalkOfPtePtr | os-elephant/kernel/memory.c:144-147 | the walk of pte_ptr(v) reaches the page table entry of v |
| Paging.WalkOfPdePtr | os-elephant/kernel/memory.c:149-152 | the walk of pde_ptr(v) reaches the directory entry of v |
| Paging.WalkOfAbsentPte | os-elephant/kernel/memory.c:170-181 | without the directory entry pte_ptr(v) is not mapped, which is why the entry is written before the table is zeroed |
| Paging.AddTranslates | os-elephant/kernel/memory.c:170-176 | setting an entry adds the translations that use it and preserves every other |
| Paging.AddsOneExactly | os-elephant/kernel/memory.c:170-176 | setting a free entry adds one page alone if and only if no other directory entry names its table |
| Paging.FreshTranslates | os-elephant/kernel/memory.c:177-183 | installing and zeroing a table through the window adds the page and the window page of the table, nothing else |
| Paging.SourceUsesAnotherSlot | os-elephant/kernel/memory.c:168 | pte_ptr of the physical address is not pte_ptr of the virtual one; two places in the window may still reach one entry |
| AsWritten.PageTableAdd | os-elephant/kernel/memory.c:165-176 | the line as written maps the frame at its own physical address and nothing else but the users of that entry; it fails the assertion on an entry in use and faults without a page table there |
| AsWritten.WrittenEntryExactly | os-elephant/kernel/memory.c:168 | the entry of page j below 3 GB is the one of heap page k if and only if k < 768 and j = 256 + k |
| AsWritten.FrameEntry | os-elephant/kernel/memory.c:168 | frame k of the kernel pool reaches the entry of heap page k + 256 for k < 512, and no entry from there on |
| AsWritten.OwnPageUntouched | os-elephant/kernel/memory.c:165-176 | so the call for heap page k and its frame leaves the translation of page k as it was |
| AsWritten.AddPages | os-elephant/kernel/memory.c:192-199 | any number of pages one after another: 512 of them are mapped 256 pages too far, the next one faults |
| AsWritten.ShiftedTranslates | os-elephant/kernel/memory.c:165-176 | where each heap page goes after that |
| AsWritten.NeverItsFrame | os-elephant/kernel/memory.c:168 | none of them is mapped to the frame it was given |
| SetupPage.Setup | os-elephant/boot/loader.S:243-289 | the directory and the first table, word by word, and nothing else |
| SetupPage.SetUpTables | os-elephant/boot/loader.S:265-289 | the recursive entry is in place and no other entry names the directory |
| SetupPage.LowMemoryMapped | os-elephant/boot/loader.S:256-276 | the first megabyte is mapped to itself and from 3 GB on |
| SetupPage.HeapEntry | os-elephant/boot/loader.S:277-289 | every heap page falls in a directory entry that is present |
| SetupPage.HeapTranslates | os-elephant/kernel/memory.c:187-201 | heap page k is translated to frame k of the kernel pool once it is given out, and not before |
| SetupPage.HeapSoleEntry | os-elephant/boot/loader.S:256-289 | the tables of the heap have one name from heap page 768 on, two before |
| SetupPage.HeapTwins | os-elephant/boot/loader.S:256-276 | the first 768 heap pages are mapped once more from 1 MB on |
| PageMemory.PageCountLimit | os-elephant/kernel/memory.c:33-34 | the 16-bit page count is right exactly below 258 MB |
| PageMemory.MemoryLowerLimit | os-elephant/kernel/memory.c:33-34 | the pools lie within the memory if and only if there are 2 MB of it |
| PageMemory.FreeMemoryWraps | os-elephant/kernel/memory.c:33-34 | what is taken for free memory below that |
| PageMemory.PoolsFit | os-elephant/kernel/memory.c:36-51 | from 2 MB up to 258 MB the pools are disjoint, within the memory, each half of its free pages, and every bitmap index names a frame of its own pool |
| PageMemory.MemoryLost | os-elephant/kernel/memory.c:39-42 | at most 14 whole pages and one partial page are lost |
| PageMemory.MemoryLostTight | os-elephant/kernel/memory.c:39-42 | that bound is reached |
| PageMemory.BitmapsFit | os-elephant/kernel/memory.c:7-11 | for every memory size the three bitmaps end below 0xc009e000 |
| PageMemory.Manager.MemPoolInit | os-elephant/kernel/memory.c:28-113 | the pools, the heap and clear bitmaps |
| PageMemory.Manager.Palloc | os-elephant/kernel/memory.c:154-162 | takes the lowest free frame or fails the assertion; never returns NULL |
| PageMemory.Manager.VaddrGet | os-elephant/kernel/memory.c:126-142 | takes the run the scan finds, or nothing |
| PageMemory.Manager.PageTableAdd | os-elephant/kernel/memory.c:164-184 | maps the page, and once more behind every other directory entry that names the same table, or with a new table the page and the window page of the table; preserves every other translation; fails an assertion on an entry in use or without a free frame |
| PageMemory.Manager.Install | os-elephant/kernel/memory.c:178-180 | the zeroed table of a directory entry, written through the window it makes |
| PageMemory.Manager.MallocPage | os-elephant/kernel/memory.c:186-201 | one to 3839 pages for the kernel are the next pages of the heap, mapped, if and only if their entries are free; NULL exactly when the heap has some but not as many pages left; a failed assertion otherwise and for any other count |
| PageMemory.AllServed | os-elephant/kernel/memory.c:186-201 | calls that together ask for no more than the free part of the heap are all served, one range behind the other |
| PageMemory.Manager.Boot | os-elephant/kernel/memory.c:115-121 | loader and mem_init leave an empty allocator, whatever the page tables hold |
| PageMemory.StaleExactly | os-elephant/kernel/memory.c:170-176 | the allocator does as over clear page tables if and only if it never uses the first heap page whose entry was in use; from there on an assertion fails |
| PageMemory.PagesTwice | os-elephant/kernel/memory.c:187-201 | a heap page below 768 that is given out appears a second time |
| PageMemory.Manager.Serve | os-elephant/kernel/memory.c:186-201 | any sequence of calls does as a bump allocator, and serves them all when they fit |
| PageMemory.RangesConsecutive | os-elephant/kernel/memory.c:187-201 | over any sequence of calls each range begins where those before it end, within the heap |
| PageMemory.RangesDisjoint | os-elephant/kernel/memory.c:187-201 | no two ranges overlap |
| PageMemory.ServedTranslates | os-elephant/kernel/memory.c:187-201 | after any sequence of calls, every byte of every range handed out is translated to the frame of the same rank in the kernel pool |
| Numbers.DigitsValue | toyos/Library/libc/vsprintf.cpp:102-112 | digits evaluate back to the number in every base |
| Numbers.DigitsFit | toyos/Library/libc/vsprintf.cpp:61-112 | no int has more than 31 digits, so tmp is large enough |
| Numbers.NumberLength | toyos/Library/libc/vsprintf.cpp:59-163 | the length is the maximum of the width and sign, prefix and digits or precision |
| Numbers.ZeroFlagShows | toyos/Library/libc/vsprintf.cpp:66-141 | next to a `0` flag without `-` the output is that without the flag if and only if the field is no wider than its contents |
| Numbers.NumberShape | toyos/Library/libc/vsprintf.cpp:118-160 | blanks, sign and prefix, digits, blanks |
| Numbers.NumberBodyValue | toyos/Library/libc/vsprintf.cpp:82-155 | the digits with the zeros in front evaluate to the number, or to zero for a negative one |
| Numbers.AtoiInverts | toyos/Library/libc/vsprintf.cpp:25-31 | skip_atoi inverts decimal output exactly up to INT_MAX - 48 |
| Formatter.WriteNumber | toyos/Library/libc/vsprintf.cpp:59-163 | number writes what Number says at the cursor and nothing else |
| Formatter.MakeDigits | toyos/Library/libc/vsprintf.cpp:104-112 | tmp holds the digits, the lowest first |
| Formatter.SkipAtoi | toyos/Library/libc/vsprintf.cpp:25-31 | value and new cursor |
| Formatter.DoDirective | toyos/Library/libc/vsprintf.cpp:196-390 | one directive: output, stores, arguments used, and a cursor that moves on and never passes the NUL |
| Formatter.Vsprintf | toyos/Library/libc/vsprintf.cpp:170-396 | for every NUL-terminated format with matching arguments it terminates, never reads behind the NUL, writes what the specification says and returns its length |
| Formatter.SpelledDirective | toyos/Library/libc/vsprintf.cpp:196-363 | flags, then width, precision and qualifier or none of them, and a conversion, spelled out, are read back as just that |
| Meaning.Understood | toyos/Library/libc/vsprintf.cpp:170-396 | every format that is spelled out piece by piece, as text and conversions, is rendered as what the pieces say |
| Meaning.NumberReadsBack | toyos/Library/libc/vsprintf.cpp:59-163 | the digits of a spelled-out number conversion evaluate back to the argument, in base 8 for o, 16 for x, X and p, 10 for d, i and u, in lower case exactly for x; the sign, the prefix, the width of the field and the side of its blanks are those the flags ask for |
| Meaning.TextReadsBack | toyos/Library/libc/vsprintf.cpp:280-319 | a character or a string, cut to its precision, stands in a field as wide as asked, at the left with - and at the right without |
| Meaning.CountStored | toyos/Library/libc/vsprintf.cpp:368-372 | %n stores the number of characters that the pieces before it wrote |
| Meaning.FlagsMean | toyos/Library/libc/vsprintf.cpp:203-228 | each flag sets its own mark and no other, in whatever order they come |
| Meaning.BarePoint | toyos/Library/libc/vsprintf.cpp:255-268 | a point without digits is a precision of zero |
| Meaning.SecondQualifier | toyos/Library/libc/vsprintf.cpp:269-273 | of two qualifiers the second ends the directive and is printed |
| Formatter.PlainText | toyos/Library/libc/vsprintf.cpp:191-195 | text without percent signs is copied |
| Formatter.TextThen | toyos/Library/libc/vsprintf.cpp:191-195 | formats are rendered piece by piece |
| Formatter.PlainDecimal | toyos/Library/libc/vsprintf.cpp:354-363 | "%d" of a number that is not negative is read back by skip_atoi |
| Formatter.NegativeIsZero | toyos/Library/libc/vsprintf.cpp:82-85 | every negative number is printed as -0 |
| Formatter.StarIsPrinted | toyos/Library/libc/vsprintf.cpp:239-246 | behind any flags a star for the width takes its argument, is printed and ends the directive |
| Formatter.PrecisionStarIsPrinted | toyos/Library/libc/vsprintf.cpp:255-268 | the same for a star as the precision, behind any flags and width |
| Formatter.PercentAtEnd | toyos/Library/libc/vsprintf.cpp:378-388 | a percent sign at the end is printed and the NUL found again |
| Console.Screen.PutChar | os-elephant/lib/kernel/print.S:41-153 | the screen goes on showing the last 25 rows of the tape, the cursor stays on it; it faults exactly for a backspace on the first cell |
| Console.Screen.Roll | os-elephant/lib/kernel/print.S:117-132 | the overlapping copy moves every row up by one and blanks the last |
| Console.Screen.LineFeed | os-elephant/lib/kernel/print.S:101-132 | the start of the next row, scrolling behind the last |
| Console.PutStr | os-elephant/lib/kernel/print.S:17-35 | a whole message, up to its NUL |
| Console.TextUpTo | os-elephant/lib/kernel/print.S:24-31 | which is all of it in front of the first NUL |
| Console.TextStands | os-elephant/lib/kernel/print.S:91-100 | printed characters stand on the tape one behind the other, across rows and scrolls |
| Console.FeedGoesDown | os-elephant/lib/kernel/print.S:101-132 | CR and LF alike go to the start of the next row and erase nothing |
| Console.BackspaceErases | os-elephant/lib/kernel/print.S:74-86 | a backspace undoes a printed character, also one that scrolled: the cursor is back on a blank, no other cell differs |
| Console.AboveIsKept | os-elephant/lib/kernel/print.S:117-132 | what left the screen never changes again |
| Console.StepOnShows | os-elephant/lib/kernel/print.S:91-132 | writing the last cell scrolls at once and the window follows |

## Left out

- tptfs mount, unmount, statfs, quotactl, vget and fhtovp; tpt_vput_pair and tpt_vptocnp; tpt_access, tpt_setattr, tpt_rename, tpt_stat and tpt_getattr.
- The v_object field and the VIRF_PGREAD flag: bookkeeping that no lock or count depends on.
- Recycling of the memory of alias vnodes: an alias keeps its number for ever, so the hold that tptfs_unlink_lowervp takes on the alias is not modelled.
- The lock of a lower vnode is its own; two layers of tptfs on each other are not modelled. The fields getnewvnode and the assignments after it fill are set in one step, since no other thread can see the vnode yet.
- The kernel's vrele is not part of this model; the last release is taken to lock the alias without sleeping, and to give up when it is refused or when the thread has the lock shared.
- Runs.LockOutcome: a refused request with LK_NOWAIT is taken to leave an upgrade without its share; LK_DRAIN, LK_CANRECURSE and the release request are not among the requests.
- Bypass.Caller.Bypass: one thread's view; references are counted as taken less given back, what happens on a last release is in `Runs`; tpt_nodeget is any operation that does what `Runs.NodegetOutcome` says. The lower layer is taken to leave arguments alone or to clear those that are lower vnodes, and v_mount of a first argument that was reclaimed during the call to be still set.
- NodeHash.Table.Hashrem: bucket lists are sequences, the pointers of LIST_REMOVE are not modelled.
- Bitmaps.BitmapScan: bitmaps longer than 2^28 bytes, where indices would wrap.
- PageMemory.Manager.Boot: the bitmap bytes are kept apart from the words that hold page tables.
- PageMemory.Manager.PageTableAdd: memset and the byte loop of the loader clear words instead of bytes; TLB and caches are not modelled. It uses the virtual address at line 168.
- PageMemory.Manager.MallocPage: PF_USER returns NULL, as the source leaves that branch open.
- Formatter.Vsprintf: arguments of another kind than the directive asks for, numbers above INT_MAX for conversions without sign, and widths that overflow are outside its precondition (the source is undefined there); field widths near INT_MAX are not wrapped further on.
- Console.Screen.PutChar: the ports of the cursor are one variable; put_int is left out.
- The assertion about VV_ROOT at tptfs/tpt_vnops.c:392-395: root flags are set by the mount code.
- Port input and output, interrupts, memory probing, disk reads, thread code, string.c and printk.
