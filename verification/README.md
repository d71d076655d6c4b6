# Verification of the secpoline monitor's core

secpoline runs an application next to a trusted system call monitor in one address space. This project models the five
parts of it that keep state over unbounded runs, and proves what each part promises. Everything is Dafny;
`dafny verify dfyconfig.toml` checks the whole project.

**Breakpoint rounds** (`Verdicts`, `BreakpointTable`, `BreakpointController`, `ThreadList`, `RoundProtocol`,
`RoundInvariant`, `RoundSteps`, `RoundControllerSteps`, `RoundSafety`, `RoundProgress`, `RoundRuns`). Every thread
keeps its own bounded table of hardware breakpoints that evicts the oldest page first. Before a page with unsafe
instructions becomes executable, a controller thread runs a two-phase round in which every listed thread makes the
same update. The class `HBreakpointController` is proved against a table value. The round is a transition system over
any number of threads in which every atomic access, lock operation and single eviction is a step; the theorems are
about all its runs, and from every idle state of every run a fault is shown to lead to a round that ends. The hardware
budget is a parameter.

**Loader heap** (`Bits`, `HeapLayout`, `FreeList`, `HeapShapes`, `HeapFrames`, `HeapRelease`, `HeapJoin`, `HeapUnmap`,
`HeapClaim`, `Allocator`). Boundary-tagged chunks in page-granular arenas with an intrusive first-fit free list. The
class `Allocator` works on raw memory words and a list head; its ghost fields say which chunks, arenas and list these
words encode, and `Valid` ties the two together: chunks tile arenas, header and footer mirror each other under the
canaries, the begin and end flags sit on the first and last chunk, the list is a doubly linked list of exactly the
free chunks, no two neighbours are both free, no arena is empty. The canary and consistency checks of the code appear
as assertions, which are proved, so none of them can fire except the two that guard a free against a pointer that is
not a live block.

**Page manager** (`PageMap`, `PageSpans`, `PageEdits`, `FixedMappings`, `PageManager`, `FixedMappingRun`). The sorted
linked list of page groups, read as a map from address to protection, flags and owner. Operations end `Ok`, `Refused`
or in a `Trap` (ud2, a failed assertion or a null dereference), and each outcome has an exact condition on the map and
the list. No operation that succeeds or is refused changes what is recorded for another owner. A node is its address;
taking a node may refill the spare list, which records a new group in the middle of the operation. A fixed mapping is
checked over the size asked for and recorded over whole pages. With one thread an accepted one never traps exactly
when every mapped byte has the owner of its page's first byte; all operations keep that, given that the kernel's
regions and the resized ranges are page-aligned. With several threads an accepted one can trap, after a protection
change that ends inside a page; the exact outcome and such a run are given.

**Signals and compartments** (`SignalMachine`, `SignalInvariant`, `SignalSafety`, `SignalSelector`, `SignalRuns`,
`ThreadContext`). One thread crossing between application and monitor by system calls, dispatch signals, signals,
handler calls and returns, nested without bound. `ThreadContext` has the sequences in instruction order, each proved
to be one step of the machine; the theorems are about all runs of the machine. Between steps the application may
change its registers at will and the monitor may write any trusted word below what the open sequences own.

**Symbol lookup** (`SymbolHash`, `SymbolTables`). The System V and GNU hash lookups against a linear search of the
symbol table, on every well-formed table. Tables are built with the standard hashes (System V gABI, chapter 5, section
"Hash Table"), which take bytes as unsigned and are stated by digits, apart from the loops; the loader adds `char`,
which is signed on its target. The lookups therefore agree with the linear search under an exact condition, which
ASCII names always meet.

Where comments and code disagree the model follows the code: a removal that starts in the gap after the first group
traps although a comment at virt_page_manager.cpp:157 calls it the edge case of starting at the first page; the list
of saved words at restore_selector_trampoline.asm:15 leaves out the flags and the trusted stack pointer.

## Model

| member | source | states |
|---|---|---|
| BreakpointTable.Evict | src/segfault_handler/hardware_breakpoints.cpp:90-95 | eviction keeps the accounting (used is the sum over pages and within the budget, the dynamic maximum is what static pages leave), never touches static pages, and leaves room for the request |
| BreakpointTable.EvictionIsShortest | src/segfault_handler/hardware_breakpoints.cpp:89-123 | what is evicted is the shortest oldest-first prefix that makes room; the rest survives in order |
| BreakpointTable.Add | src/segfault_handler/hardware_breakpoints.cpp:41-53 | adding a dynamic page keeps the accounting and watches that page |
| BreakpointTable.AddStatic | src/segfault_handler/hardware_breakpoints.cpp:26-39 | adding a static page keeps the accounting, puts the page after the old static ones and lowers the dynamic maximum by exactly its breakpoints |
| BreakpointTable.AddKeepsOrder | src/segfault_handler/hardware_breakpoints.cpp:41-86 | an added page comes last, after exactly those old pages that stay, in their order; the pages that go are the fewest oldest ones |
| BreakpointTable.AddStaticKeepsOrder | src/segfault_handler/hardware_breakpoints.cpp:26-39 | a static page displaces the fewest oldest dynamic pages and leaves the others in order |
| BreakpointTable.NewestAreKept | src/segfault_handler/hardware_breakpoints.cpp:41-123 | first in, first out: after any sequence of adds the table is exactly the longest run of newest pages that fits next to the static ones, in the order they were added |
| BreakpointTable.TotalBoundsLength | src/segfault_handler/hardware_breakpoints.cpp:63-67 | there are never more pages than breakpoints, so page list indices stay in bounds |
| BreakpointTable.DropCommutesWithAdd | src/segfault_handler/hardware_breakpoints.cpp:49-52 | one eviction does not change the table the whole operation ends in |
| BreakpointController.HBreakpointController.AddWatchedPage | src/segfault_handler/hardware_breakpoints.cpp:56-86 | from the space precondition alone, the arrays then hold the old pages followed by the new one, the counters move by its breakpoints, and every slot is armed by its own event |
| BreakpointController.HBreakpointController.RemoveLastPage | src/segfault_handler/hardware_breakpoints.cpp:98-123 | takes the oldest page off the table, closes exactly its events, and makes its page non-executable |
| BreakpointController.HBreakpointController.RemoveDynamicHBreakpoints | src/segfault_handler/hardware_breakpoints.cpp:90-95 | the loop is `Evict`, and exactly the pages of the evicted oldest entries lose execute permission |
| BreakpointController.HBreakpointController.AddBreakpoints | src/segfault_handler/hardware_breakpoints.cpp:22-54 | traps exactly when the page needs more than the dynamic maximum, else the table becomes `Add` or `AddStatic` of the old one; all other assertions and indices are safe |
| BreakpointController.HBreakpointController.SetAllHBreakpoints | src/segfault_handler/hardware_breakpoints.cpp:126-158 | the replay after fork rearms every slot with a fresh event, changes no page or count, and its closing assertions hold |
| ThreadList.ActiveThreads.Add | src/segfault_handler/segfault_handler.cpp:492-501 | appends the thread; traps exactly when the list is full |
| ThreadList.ActiveThreads.RemoveElement | src/segfault_handler/segfault_handler.cpp:433-451 | the search and array shift take out exactly that thread and keep the order; traps exactly when the thread is not listed |
| ThreadList.TidsSize | src/segfault_handler/segfault_handler.cpp:414 | the length the controller counts with is the number of distinct listed threads |
| ThreadList.TidsWithout | src/segfault_handler/segfault_handler.cpp:433-451 | removal from the array is removal from the set of listed threads |
| RoundSafety.StepKeepsInv | src/segfault_handler/segfault_handler.cpp:352-431 | every step of every thread (controller, follower, fault handler, arrival, departure) keeps the round invariant |
| RoundSafety.AssertionsNeverFail | src/segfault_handler/segfault_handler.cpp:352-501 | over every run the assertions on page, count, controller, table and list all hold, except exactly for a thread about to list itself in a full list |
| RoundRuns.FullListReached | src/segfault_handler/segfault_handler.cpp:456-501 | for every configuration some run does get there: the threads arrive one by one until the list is full |
| RoundRuns.ThreadArrives | src/segfault_handler/segfault_handler.cpp:456-501 | from every idle state of a run with a free slot a new thread can come in, and is listed |
| RoundRuns.ThreadLeaves | src/segfault_handler/segfault_handler.cpp:456-484 | from every idle state of a run every listed thread can leave, and is listed no more |
| RoundRuns.FaultLeavesExecutable | src/segfault_handler/segfault_handler.cpp:155-194 | in every reachable state a thread about to leave the fault handler has its page executable |
| RoundRuns.RoundCompletes | src/segfault_handler/segfault_handler.cpp:352-431 | every open round of every run can be run to its end, for the page it was opened for and with the threads it was opened with |
| RoundRuns.FaultIsServed | src/segfault_handler/segfault_handler.cpp:155-194 | from every idle state of every run a fault on a page that is not executable can be served: a round for the page opens, ends, and the thread goes on with the page executable |
| RoundRuns.PageBecomesExecutable | src/segfault_handler/segfault_handler.cpp:155-431 | for every number of threads that fits and every recorded page some run makes the page executable with all those threads watching it |
| RoundSafety.ReleaseMeansEveryoneUpdated | src/segfault_handler/segfault_handler.cpp:390-430 | when the controller releases the mutex, every other listed thread has left the round and holds the table that one update for this page makes of the common table before it |
| RoundSafety.EveryRoundRunsOnce | src/segfault_handler/segfault_handler.cpp:352-431 | each listed thread runs the update exactly once per round |
| RoundSafety.ReplicasAgree | src/segfault_handler/segfault_handler.cpp:407-410 | whenever no round is open all listed threads' tables equal the global one, page for page and in order, across rounds, evictions, arrivals and exits |
| RoundSafety.ExecutableMeansWatched | src/segfault_handler/segfault_handler.cpp:309-339 | in every reachable state, mid-round too, an executable page has all its recorded instructions watched in every listed thread's table |
| RoundSafety.OneRoundAtATime | src/segfault_handler/segfault_handler.cpp:376-431 | two rounds are never open at once |
| RoundProgress.RoundStepShrinks | src/segfault_handler/segfault_handler.cpp:352-431 | every step taken while a round is open shrinks a measure over all phases or ends the round |
| RoundProgress.RoundNeverBlocks | src/segfault_handler/segfault_handler.cpp:352-431 | every open-round state has an enabled step |
| RoundProgress.RoundsAreBounded | src/segfault_handler/segfault_handler.cpp:352-431 | the number of steps a round can take is bounded by that measure |
| Bits.XorCancels | src/secpoline_loader/loader/ld_malloc_internal.h:86-87 | an intact tag passes its canary check, whatever the size and the key |
| HeapLayout.AlignSize | src/secpoline_loader/loader/ld_malloc_internal.h:144-145 | the least multiple of the link size that is at least the request |
| HeapLayout.MapLengthExact | src/secpoline_loader/loader/ld_malloc.c:171-178 | in 64-bit arithmetic the mapped length has room for the request exactly when no sum wraps, and is then the length used here |
| HeapLayout.WordsDecode | src/secpoline_loader/loader/ld_malloc_internal.h:42-50 | size, used, begin and end flags read back from the words of a chunk are the chunk's own |
| HeapLayout.ArenaCovered | src/secpoline_loader/loader/ld_malloc.c:72-305 | every address of an arena lies in exactly one chunk |
| HeapLayout.ArenaHasUsedChunk | src/secpoline_loader/loader/ld_malloc.c:297-304 | every mapped arena holds a used chunk |
| HeapUnmap.LiveBlocksApart | src/secpoline_loader/loader/ld_malloc.c:164-214 | live blocks are pairwise disjoint and lie in mapped memory |
| HeapUnmap.ClientWritesKeep | src/secpoline_loader/loader/ld_malloc.c:164-214 | whatever callers write inside their own live blocks, every tag and the free list stay intact, so every later canary check passes |
| HeapShapes.SplitTiles | src/secpoline_loader/loader/ld_malloc.c:72-108 | cutting a chunk keeps the tiling |
| HeapShapes.MergeTiles | src/secpoline_loader/loader/ld_malloc.c:247-295 | joining two neighbours keeps the tiling |
| HeapRelease.ReleaseCoalesces | src/secpoline_loader/loader/ld_malloc.c:241-295 | after a chunk is given back no two neighbours are both free |
| HeapRelease.WholeMeansOnlyUsed | src/secpoline_loader/loader/ld_malloc.c:297-301 | the released chunk fills its arena exactly when it was the arena's only used chunk |
| HeapClaim.ClaimCoalesced | src/secpoline_loader/loader/ld_malloc.c:143-150 | handing out a chunk, split or whole, keeps free chunks apart |
| HeapClaim.ClaimLive | src/secpoline_loader/loader/ld_malloc.c:164-214 | the live blocks gain exactly the new one, with at least the request and less than one splittable remainder more |
| FreeList.FirstFit | src/secpoline_loader/loader/ld_malloc.c:138-162 | the first list member with enough room, every earlier one being too small |
| FreeList.UnlinkKeepsThread | src/secpoline_loader/loader/ld_malloc.c:52-70 | bypassing a member leaves a well-linked list of the others, in order, and changes only link words |
| FreeList.ReplaceKeepsThread | src/secpoline_loader/loader/ld_malloc.c:112-134 | putting the second half of a split in the place of the first leaves a well-linked list |
| Allocators.Allocator.FreelistLink | src/secpoline_loader/loader/ld_malloc.c:36-50 | puts the chunk in front of the list, writing only link words; its two abort checks cannot fire |
| Allocators.Allocator.FreelistUnlink | src/secpoline_loader/loader/ld_malloc.c:52-70 | takes exactly that member out; its abort checks cannot fire |
| Allocators.Allocator.SplitChunk | src/secpoline_loader/loader/ld_malloc.c:72-107 | tags both parts so that the heap is the split heap, flags included; the footer check holds |
| Allocators.Allocator.FreelistReplace | src/secpoline_loader/loader/ld_malloc.c:112-132 | the list with the second part where the first was |
| Allocators.Allocator.FindFreelist | src/secpoline_loader/loader/ld_malloc.c:138-162 | takes the first fit off the list, cut to size if the rest makes a chunk; nothing changes if there is none |
| Allocators.Allocator.JoinBefore | src/secpoline_loader/loader/ld_malloc.c:247-267 | finds the chunk before through its footer and joins it exactly if it is free |
| Allocators.Allocator.JoinAfter | src/secpoline_loader/loader/ld_malloc.c:269-288 | finds the chunk after through its header, and takes it off the list and joins it exactly if it is free |
| Allocators.Allocator.Malloc | src/secpoline_loader/loader/ld_malloc.c:164-214 | keeps the whole heap invariant; returns null exactly for size 0 or when nothing fits and mapping fails; else the first fit or a fresh arena, big enough, aligned, not live before, with every live block's bytes unchanged |
| Allocators.Allocator.Free | src/secpoline_loader/loader/ld_malloc.c:216-305 | keeps the whole heap invariant; succeeds exactly for null and live blocks, faults exactly where no header words are mapped, aborts otherwise, and changes nothing in those cases; else removes exactly that live block, keeps every other block's bytes, unmaps exactly the arena's span exactly when this was its last used chunk, and otherwise leaves a header that fails the checks (free, or erased because the block was joined to the one before) |
| Allocators.Allocator.FreeTwice | src/secpoline_loader/loader/ld_malloc.c:234-266 | a second free of any live block's pointer never succeeds: it faults exactly if the first unmapped the arena and aborts otherwise, also for a block joined to the chunk before it |
| Allocators.Allocator.ClientStore | src/secpoline_loader/loader/ld_malloc.c:164-214 | a caller's store inside its block keeps the heap invariant and changes that cell alone |
| PageMap.AtGroup | src/syscall_monitor/virt_page_manager.cpp:661-672 | in a sorted list an address belongs to the one group that covers it |
| PageMap.TrimMap | src/syscall_monitor/virt_page_manager.cpp:227-329 | cutting a range out of the groups it meets unmaps exactly that range |
| PageMap.TrimSorted | src/syscall_monitor/virt_page_manager.cpp:227-329 | and keeps the list sorted and disjoint |
| PageSpans.RunIsOwnership | src/syscall_monitor/virt_page_manager.cpp:193-219 | the group-by-group check (owner, no gap, end reached) is byte-by-byte ownership of the range |
| PageSpans.FindSpan | src/syscall_monitor/virt_page_manager.cpp:147-225 | the search answers exactly by where the range starts and how far one owner's groups run on |
| PageSpans.VerdictIsOwnership | src/syscall_monitor/virt_page_manager.cpp:147-225 | it says yes exactly when the owner has every byte and the start group is neither first nor last |
| PageEdits.FindPlace | src/syscall_monitor/virt_page_manager.cpp:68-117 | a place is found exactly when nothing overlaps, and it traps exactly when the first group met is not last and does not start later, or the mapping is fixed |
| PageEdits.ClearableIsOwnership | src/syscall_monitor/virt_page_manager.cpp:734-754 | the group-by-group check of a fixed mapping is byte by byte: nothing in the range is anyone else's |
| PageEdits.RoomIsUnmapped | src/syscall_monitor/virt_page_manager.cpp:87-112 | no group overlaps a range exactly when no byte of it is mapped |
| PageEdits.ProtectExactly | src/syscall_monitor/virt_page_manager.cpp:438-560 | a protection change succeeds exactly on a nonempty range that is its owner's and lies in one group or can be removed as whole pages, and traps exactly if it leaves its group from an unaligned start |
| PageEdits.ResizeExactly | src/syscall_monitor/virt_page_manager.cpp:580-627 | an owner can keep or shrink what one group holds, and let it grow exactly from the end of its group up to the next one |
| PageEdits.ChangeKeepsOthers | src/syscall_monitor/virt_page_manager.cpp:36-420 | a change inside a range where nothing is anyone else's leaves every byte of other owners as recorded, also if it refilled |
| FixedMappings.RecordExactly | src/syscall_monitor/virt_page_manager.cpp:36-118 | recording succeeds exactly: plain on free bytes, fixed on bytes that are free or the owner's, with several threads on the owner's bytes from a start between other groups |
| FixedMappings.CheckThenAdd | src/syscall_handlers/virtualize_maps.cpp:28-38 | on every list, recording a range that passed the check succeeds exactly when the check would also pass over the rounded range and, with several threads, the range starts in neither the first nor the last group once a refill is recorded; the condition is on the list before the refill |
| FixedMappings.AcceptedNeverTraps | src/syscall_handlers/virtualize_maps.cpp:28-38 | if the size is whole pages, or bytes of a page are recorded alike, an accepted request traps with several threads only if it starts in the first or last group, and never with one |
| FixedMappings.OneThreadNeverTraps | src/syscall_handlers/virtualize_maps.cpp:28-38 | with one thread no accepted request of any start, size and owner traps, if and only if every mapped byte has the owner of the first byte of its page |
| FixedMappings.SeveralThreadsTraps | src/syscall_handlers/virtualize_maps.cpp:28-38 | on such lists, with several threads, an accepted request traps exactly when a byte of its last page is not mapped or it starts in the first or last group |
| FixedMappings.WholePagesKeepRoots | src/syscall_monitor/virt_page_manager.cpp:36-118 | recording or removing whole pages, or recording part of a last page and dropping the rest, with or without a refill, keeps every mapped byte with the owner of its page's first byte |
| FixedMappings.OwnedOverrideKeepsRoots | src/syscall_monitor/virt_page_manager.cpp:438-514 | so does changing the protection of any bytes, aligned or not, that one owner has |
| FixedMappings.UnalignedProtectTraps | src/syscall_monitor/virt_page_manager.cpp:516-560 | after a protection change over several groups that ends inside a page, every fixed mapping of bytes left of that page passes the check and traps with several threads, and is accepted with one |
| FixedMappingRun.ProtectThenMap | src/syscall_handlers/virtualize_maps.cpp:28-80 | such a run from an empty page manager: four plain mappings, the unaligned protection change, the fixed mapping; it traps with several threads and is accepted with one |
| FixedMappings.ClearableRounds | src/syscall_handlers/virtualize_maps.cpp:34-80 | where every mapped byte has the owner of its page's first byte, checking the unrounded range checks the rounded one |
| FixedMappings.OverrideGranular | src/syscall_monitor/virt_page_manager.cpp:36-118 | page-rounded changes keep bytes of a page recorded alike |
| PageEdits.ChainCounts | src/syscall_monitor/virt_page_manager.cpp:830-842 | the nodes of a refill are distinct and there are exactly that many |
| PageManagers.PageManager.Refill | src/syscall_monitor/virt_page_manager.cpp:820-846 | 127 of the 128 new nodes become spare, the last records the region itself; no node is lost or doubly owned, and the record cannot fail |
| PageManagers.PageManager.Alloc | src/syscall_monitor/virt_page_manager.cpp:854-863 | takes one node off the spare list, refilling it exactly when it was empty; all other nodes stay owned once |
| PageManagers.PageManager.Insert | src/syscall_monitor/virt_page_manager.cpp:68-117 | links the group in at its place, or leaves the list as it was |
| PageManagers.PageManager.RemoveLocked | src/syscall_monitor/virt_page_manager.cpp:135-331 | returns 0 exactly when the rounded range is wholly owned and starts in a group neither first nor last; then exactly that range is gone and the list stays sorted; every other outcome leaves the list unchanged, and the traps are characterised exactly; nodes are conserved; bytes keep the owner of their page's first byte; nothing of another owner changes |
| PageManagers.PageManager.RemoveFixedLocked | src/syscall_monitor/virt_page_manager.cpp:334-420 | succeeds exactly when every group met belongs to the owner, gaps allowed, and then exactly the range is gone; nodes are conserved; bytes keep the owner of their page's first byte; nothing of another owner changes |
| PageManagers.PageManager.AddLocked | src/syscall_monitor/virt_page_manager.cpp:36-118 | exact outcome for plain and fixed mappings; on success the map is overridden on exactly the rounded range and the list stays sorted |
| PageManagers.PageManager.AddPage | src/syscall_monitor/virt_page_manager.cpp:16-32 | the same including the node: a refused request gives its node back, and no node is lost; bytes keep the owner of their page's first byte; nothing of another owner changes |
| PageManagers.PageManager.LookupAddr | src/syscall_monitor/virt_page_manager.cpp:661-672 | finds a group exactly when the address is recorded for that owner (or for anyone, with the wildcard), and it is the covering one |
| PageManagers.PageManager.LookupRange | src/syscall_monitor/virt_page_manager.cpp:676-714 | non-null exactly when every byte of the range is owned; traps exactly on the empty list |
| PageManagers.PageManager.LookupRangeAllowGaps | src/syscall_monitor/virt_page_manager.cpp:734-754 | accepts exactly when every group met by the range belongs to the owner |
| PageManagers.PageManager.UpdateMprotect | src/syscall_monitor/virt_page_manager.cpp:438-560 | exact outcome; inside one group the protection changes on exactly the range and order is kept; over several groups the map changes on the range (bytes past an unaligned size up to the page end are dropped), groups stay disjoint, and the list stays sorted exactly when nothing is mapped between the first group and the range; no node is lost, the known nodes growing by exactly those of a refill; bytes keep the owner of their page's first byte; it succeeds exactly on a range that is its owner's and lies in one group or can be removed as whole pages; nothing of another owner changes |
| PageManagers.PageManager.UpdateSize | src/syscall_monitor/virt_page_manager.cpp:580-627 | exact outcome (growing is refused with -2 exactly when a byte of the new tail is mapped); exactly the tail bytes are added or removed and the list stays sorted; no node is lost; with page-aligned arguments bytes keep the owner of their page's first byte; growing succeeds exactly from the end of an owned group up to the next one, shrinking exactly inside one; nothing of another owner changes |
| PageManagers.PageManager.MapFixed | src/syscall_handlers/virtualize_maps.cpp:20-80 | exact outcome on every sorted list, told from the list before the call: refused if empty, unaligned or the unrounded range fails the check, accepted exactly if the rounded range passes it too, else a trap; with one thread never a trap where bytes have the owner of their page's first byte, which it keeps; an accepted one overrides the map on exactly the rounded range, a refused one changes nothing, and no node is lost; nothing of another owner changes |
| SignalInvariant.StepKeepsInv | src/syscall_monitor/asm_entry_points.asm:12-244 | every crossing keeps the invariant of the thread context |
| SignalInvariant.InitHolds | src/syscall_monitor/setup_new_thread.cpp:53-65 | the context a thread starts application code with satisfies it |
| SignalInvariant.MemKept | src/syscall_monitor/asm_entry_points.asm:123-158 | writes below the floor touch no word an open sequence left in trusted memory |
| SignalInvariant.TrampolineFinds | src/syscall_monitor/restore_selector_trampoline.asm:32-88 | the trampoline's pops meet the pushes of the return setup word for word |
| SignalSafety.TrustedExactlyOnce | src/syscall_monitor/asm_syscall_hook.asm:229-235 | in every reachable state exactly one stack pointer and one thread-local base is the trusted one, live exactly in the monitor; in the application the alternate stack ends at the saved trusted stack pointer |
| SignalSafety.NewFramesBelowLive | src/syscall_monitor/asm_syscall_hook.asm:575-602 | at any depth the next signal or system call frame lies below everything open sequences own on the trusted stack |
| SignalSafety.SigreturnStackFits | src/include/gsreldata.h:88-91 | at most 9 slots per open signal, so 455 nested signals fit the 4096 slots |
| SignalSafety.ReturnsAreGuarded | src/syscall_monitor/asm_entry_points.asm:208-212 | the level counts open handler calls, so its zero test tells real from stray handler returns, and every pop on a return path finds its word |
| SignalSafety.NestedRestores | src/syscall_monitor/asm_entry_points.asm:120-244 | whatever nests in between, returning to the same depth returns to the same compartment, saved stack pointer, alternate stack, sigreturn stack and level |
| SignalSafety.SignalRoundTrip | src/syscall_monitor/restore_selector_trampoline.asm:16-125 | for any nesting, a signal's return restores rip, flags, rsp, rax, rdx and rcx of the final frame and selector, compartment, trusted stack pointer and sigreturn height as at delivery |
| SignalSafety.SyscallRoundTrip | src/syscall_monitor/asm_syscall_hook.asm:176-235 | a system call returns on the stack it was made from |
| SignalSafety.HandlerRoundTrip | src/syscall_monitor/asm_entry_points.asm:119-244 | a handler call comes back to its return address, stack and alternate stack size |
| SignalSafety.SudRoundTrip | src/syscall_monitor/sud.cpp:81-117 | a system call caught by dispatch resumes at the system call hook, two words further down the interrupted stack, with compartment, trusted stack pointer and sigreturn stack as before |
| SignalSelector.ApplicationIsBlocked | src/syscall_monitor/asm_entry_points.asm:36-148 | in every reachable state application code runs with system calls blocked, unless a dispatch exit has not been followed by its system call entry yet |
| SignalSelector.HandlerStarts | src/syscall_monitor/asm_entry_points.asm:120-168 | every handler call starts the application below the given room of its own stack with system calls blocked, and leaves old size and return address where the alternate stack now ends |
| SignalRuns.SyscallRuns | src/syscall_monitor/asm_entry_points.asm:11-50 | from every application state of a run a system call can be made and comes back |
| SignalRuns.SignalRuns | src/syscall_monitor/asm_entry_points.asm:119-244 | with room on the trusted stack a signal can be delivered, handled by the application and returned from |
| SignalRuns.DispatchRuns | src/syscall_monitor/asm_entry_points.asm:53-113 | and a dispatched system call can be brought to the hook, entered and returned from |
| ThreadContext.Thread.constructor | src/syscall_monitor/setup_new_thread.cpp:138-145 | the first context of a thread is an initial state of the machine |
| ThreadContext.Thread.SyscallHookEntry | src/syscall_monitor/asm_entry_points.asm:36-46 | the entry sequence is the machine's system call entry, with system calls blocked and the two stack pointers swapped |
| ThreadContext.Thread.SyscallHookExit | src/syscall_monitor/asm_syscall_hook.asm:229-235 | the exit sequence is the machine's system call exit |
| ThreadContext.Thread.SignalEntry | src/segfault_handler/signal_handler_entry.asm:25-49 | the signal entry sequence is the machine's delivery step, for a signal in the application and in the monitor |
| ThreadContext.Thread.CallAppHandler | src/syscall_monitor/asm_entry_points.asm:120-168 | the handler call sequence is the machine's handler call: the application runs with system calls blocked, below the room set aside on its stack |
| ThreadContext.Thread.ReturnFromHandler | src/syscall_monitor/asm_entry_points.asm:206-244 | traps exactly at level 0, else is the machine's handler return |
| ThreadContext.Thread.SetupTrampoline | src/syscall_monitor/setup_new_thread.cpp:196-230 | the pushes of a finished signal are the machine's return setup |
| ThreadContext.Thread.RestoreSelectorTrampoline | src/syscall_monitor/restore_selector_trampoline.asm:32-104 | the trampoline is the machine's return |
| ThreadContext.Thread.SudEntryPoint | src/syscall_monitor/asm_entry_points.asm:55-88 | the dispatch entry sequence is the machine's |
| ThreadContext.Thread.SudExitPoint | src/syscall_monitor/asm_entry_points.asm:99-113 | the dispatch exit sequence is the machine's, to the hook and two words down the interrupted stack |
| SymbolHash.ComputeElfHash | src/secpoline_loader/loader/symhash.c:9-24 | the loop computes the fold over sign-extended bytes; on ASCII names that is the gABI hash |
| SymbolHash.ComputeGnuHash | src/secpoline_loader/loader/symhash.c:26-34 | likewise for the GNU hash: on ASCII names 5381 and the bytes as base-33 digits modulo 2^32 |
| SymbolHash.ElfHashTop | src/secpoline_loader/loader/symhash.c:15-21 | System V hashes fit in 28 bits |
| SymbolHash.AsciiHashes | src/secpoline_loader/loader/symhash.c:9-34 | on ASCII names both loops compute the standard hashes, which are defined by digits and not by the loops' steps |
| SymbolHash.ElfStepIsDigit | src/secpoline_loader/loader/symhash.c:14-21 | shift, add, fold and clear are one more base-16 digit with bits 28 to 31 folded in from bit 4 on, in 28 bits |
| SymbolHash.ShortElfHash | src/secpoline_loader/loader/symhash.c:9-24 | up to six characters the System V hash is the name as a base-16 number |
| SymbolHash.PrintfHashes | src/secpoline_loader/loader/symhash.c:9-34 | both hashes of "printf" have their published values |
| SymbolHash.HighByteHashes | src/secpoline_loader/loader/symhash.c:14 | on the one-byte name 0x80 neither is: both values of both hashes |
| SymbolTables.SysvLookup | src/secpoline_loader/loader/symhash.c:36-72 | terminates and returns the first match on the chain of the computed bucket, null if there is none or it is undefined; an address it returns is base plus value of a symbol that defines the name |
| SymbolTables.SysvFinds | src/secpoline_loader/loader/symhash.c:46-61 | finds a symbol exactly when one has the name and computed and standard hash lead to the same bucket |
| SymbolTables.SysvIsLinear | src/secpoline_loader/loader/symhash.c:36-72 | with unique names equals the linear search exactly when that yields null or the buckets coincide |
| SymbolTables.HighByteMissed | src/secpoline_loader/loader/symhash.c:14 | a well-formed table on which the lookup misses a symbol that linear search finds |
| SymbolTables.WalkRun | src/secpoline_loader/loader/symhash.c:95-110 | the chain walk stops at the end of the bucket and finds its first hit |
| SymbolTables.FilterTest | src/secpoline_loader/loader/symhash.c:84-90 | masking a filter word tests exactly the bit of the hash and the bit of the shifted hash |
| SymbolTables.LinearDefines | src/secpoline_loader/loader/symhash.c:60-71 | what a search resolves to is the address of the first symbol of that name, if that is defined |
| SymbolTables.SearchBucket | src/secpoline_loader/loader/symhash.c:92-120 | searching the name's own bucket for its own hash prefix is the linear search over hashed symbols; any other bucket or prefix gives null |
| SymbolTables.GnuLookup | src/secpoline_loader/loader/symhash.c:74-121 | filter, bucket and chain together are the linear search exactly when the computed hash passes the filter and meets bucket and prefix of the standard one; an address it returns is base plus value of a symbol that defines the name |
| SymbolTables.GnuIsLinear | src/secpoline_loader/loader/symhash.c:74-121 | equals the linear search over hashed symbols exactly when that yields null or the computed hash leads to the standard one's filter bits, bucket and prefix; always for ASCII names |
| SymbolTables.GnuHighByteMissed | src/secpoline_loader/loader/symhash.c:30 | a well-formed GNU table on which the lookup misses a symbol that linear search finds |
| SymbolTables.LookupsAgree | src/secpoline_loader/loader/symhash.c:36-121 | with unique names, and only undefined symbols before the first hashed one, both lookups return the same for every ASCII name |

## Left out

- Rounds: the dispatch in the signal handler is reduced to entering as a follower or becoming controller; static pages are added only at setup; a controller opens rounds only from the read-only branch of the fault handler, under its mutex; the copy of a new thread's table is taken under the mutex.
- At release of a round a follower may still be giving back the count mutex, its last instruction in the wrapper; `Outside` includes that.
- BreakpointController.HBreakpointController.SetAllHBreakpoints: the kernel is a map from descriptors to addresses; failing perf_event_open calls are not modelled.
- Allocators.Allocator.Malloc: sizes are unbounded integers, one memory cell per address; `MapLengthExact` says for which requests 64-bit arithmetic agrees. The mapped region is a parameter.
- Allocators.Allocator.Free: words that are not a chunk's header but pass both checks, so that the code goes on with a forged chunk, are outside the model.
- ld_realloc, ld_malloc_reset and the allocator's lock.
- Page manager: addresses and sizes do not wrap; added and resized ranges are not empty; the wildcard owner is for lookups only. The kernel's region for a refill is a parameter that meets no recorded group and not the range being added.
- PageManagers.PageManager.UpdateMprotect: the flags of a range over several groups become those of the first group, as in the code; nothing is claimed about later operations on a list it left unsorted.
- PageManagers.PageManager.RemoveFixedLocked: after a trap part of the range may already be gone; the process does not survive it.
- handle_mremap, the scan of executable mappings and the kernel calls between check and record.
- Signals: each crossing sequence is one step, so interrupts inside one (between the two halves of a push, or while the stack pointer is parked at 0) are not; permission registers, vector state, r9, the words below the application's stack pointer, clone and vfork are not modelled.
- ThreadContext.Thread.SetupTrampoline: a signal that interrupted the monitor leaves the interrupted stack pointer as it was.
- Symbol lookup: an absent table gives null; symbol versions are not modelled.
- Instruction scanning, the zpoline sled, system call handlers, ELF loading, descriptor bitmap and library search.
