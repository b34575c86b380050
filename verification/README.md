# Dune: a process tree inside KVM, verified

Dune runs a process as a KVM guest. Guest addresses are host addresses, and every guest system call is
bounced by a small assembly stub to a host loop that executes it. The design rests on one claim
(Readme.md:24-26): a process inside dune behaves like the same process run natively. This project models the
LoongArch backend, which is the live one (dune/config.h:7), and proves that claim as a refinement between two
machines; beside it stand the concurrent core pool, the host code as imperative code, and the MIPS stub.

## How it fits together

**The specification** is `Native`: threads over address spaces, a kernel that is an uninterpreted function of
calling thread, number, seven arguments and memory, and a log of what the kernel was asked for. A native step is
an instruction, a call, a clone, a clone that the kernel refuses, or an exit.

**The implementation** is `Dune`: cores as KVM holds them (`LoongArch`), the two handlers of
dune/loongarch/entry.S executed instruction by instruction (`Handlers`, `Trampoline`), TLB misses at any
instruction with arbitrary replacement, evictions, interrupts at any time, the host loop of every thread cut at
every point where another thread may run, and the three clone strategies with their different orders of "make a
VM or a core" and "do the host clone". A step in which dune would call `die` does not exist, so what is enabled
is part of what is proved.

**The relation** between the two is `Simulation`; `Refinement`, `CloneRefinement` and `VmRefinement` show for
each of the seventeen kinds of step that it is one native step or none. `Runs` puts them together for whole runs;
`Syscalls` and `TreeSafety` draw the consequences: exactly-once execution of system calls, what parent and child
see behind a clone, KVM's address-space check, isolation of parameter blocks, the shared vector image.

**The converse**: `Progress` says what each step needs, `Resources` which steps use up slots, cores and memory,
`CatchUp` how a thread gets unseen to its next instruction or call, and `Completeness` builds, for each kind of
native step, a run of dune that is exactly this step. `Matching.CanMatchIffSupported` states the result: from any
related states, a native step can be matched if and only if a condition on registers and resources holds.
`Refusals` has the one step of dune that is left out of the machine, a refused clone of the two other strategies,
and exactly when its outcome is native.

The machine's steps and where they come from:

- `GuestOp`: a guest instruction through the TLB and the memory slot (dune/dune.c:228-235).
- `TlbMiss`, `HandlerInstr`, `Evicted`: dune/loongarch/entry.S:12-42 and 48-67, one instruction each.
- `TakeHypercall`, `Interrupted`, `LoopAgain`, `KvmRun`: dune/dune.c:441-451.
- `HostCall`, `StoreResult`: dune/loongarch/arch.c:446-469, before and after the store of the result.
- `BeginClone`: dune/dune.c:480-482 with dune/loongarch/arch.c:145-154.
- `ArmChild`, `CloneThread`: dune/dune.c:375-400, before and at the host clone.
- `ForkProcess`, `BuildVm`: dune/dune.c:340-367 and 404-421, the host clone and, in the child, the VM.
- `ForkFails`: dune/dune.c:359-367 with dune/loongarch/arch.c:446-469, a host clone that the kernel refuses.
- `ExitThread`: dune/dune.c:472-474 and 497.

**The pool** of dune/dune.c:94-163 is modelled twice: `VcpuPool` is the class with its arrays and its scan, and
`PoolProtocol` is the same code cut into single memory accesses under any interleaving, with the accesses that
happen outside the lock outside it. `PoolSafety`, `HighWater` and `PoolRuns` prove what the interleavings add
up to; `PoolLosses` and `ExitWindow` have the two ways in which the pool falls short, each with its exact condition
and a run that meets it. `PoolRefinement` shows the interleaved code to implement the atomic allocator of
`Allocator`, `TreePools` that this allocator is what the machine's steps use, and `TreeAllocation` what this means
for whole trees from the first VM on. `PoolOwners` has how claims pass between threads, and `PoolProgress` that no
call hangs and the lock always comes free. `BlockMemory` is about the memory that a core takes.

**The code itself**: `HostLoop` and `ForkCode` have the C functions as methods over the objects of the pool,
`LoopRefinement` relates a turn of the loop, and a clone in it, to the machine's steps, `Harts` runs the handlers
on a mutable core, `VectorImage` fills and patches the exception image, `MipsPaging`
and `MipsStub` are the second backend, and `CallContract` states the one contract both stubs meet.

Words are the integers below 2^64 with wrap-around written out (`Words`); the MIPS refill alone is done on
bit vectors. `LoongArch.Exec` follows the LoongArch Reference Manual Volume 1: section 4.2.1 (`CSRWR` swaps),
section 5.2.1 (direct-mapped windows), section 5.4 (paired-page TLB entries) and section 7.5 (the CSRs
involved); section 6.2.1 has the exception codes.

What cannot be seen from this code enters as parameters: what an instruction of the guest does, what the kernel
answers, which entries the TLB drops, where allocations end up, the numbers of new threads, and the schedule.
KVM_RUN returns for a hypercall or an interrupt. A parameter block is assumed to be allocated below the end of
the memory slot, as the slot itself demands (dune/dune.c:228-235).

## Found on the way

- A failed clone in the strategies that go through `do_simulate_clone` shows the guest a positive errno, that
  is, a child (`ForkCode.CloneResultIsNativeIff` for the C code, with `ForkCode.FailedCloneLooksLikeAChild` as an
  input; for the machine `Refusals.RefusalIsNativeIff` has the exact condition on the guest's arguments, and
  `Refusals.RefusalLosesCore` what happens to the core that was armed).
- Between `kvm_free_vcpu` and the exit system call another thread can be handed the core, whose parameters the
  exiting thread has yet to read. A core comes to have two users exactly when the unlocked read of an old pointer
  takes one whose last user is in that window (`ExitWindow.SharingBeginsIff`, over runs
  `ExitWindow.SharesIffTakesUsed`; `ExitWindow.WindowIsReal` is a run that gets there).
- A slot claimed for a clone that then fails, or of a thread that leaves otherwise than by exit, stays claimed for
  good. Every claimed slot has its thread if and only if nothing of this kind happened
  (`PoolLosses.AllClaimedIffNoneLost`; `PoolLosses.LossIsReal` is a run that loses one), and the losses are what
  bounds creating and releasing threads (`PoolLosses.LossesBoundTheRest`).
- Instructions and operands at or above 2^40 do not execute (`Matching.CanMatchIffSupported`;
  `Matching.BeyondTheSlot` is a process that natively starts and in dune never does).
- The MIPS stub reloads $3 for `pipe`, so every other call leaves its first argument there
  (`MipsStub.MipsHart.Serve`); the call conventions give $3 up anyway.

## Model

| member | source | states |
|---|---|---|
| Runs.Refines | dune/dune.c:438-499 | from the state `dune_enter` leaves, every run of dune under any schedule is a native run: same threads, same address spaces with the same contents, same kernel state, and call by call the same log |
| Runs.StepSim | dune/dune.c:438-499 | each of the seventeen kinds of step keeps the simulation and is exactly the native step that `Answer` names, or none |
| Runs.RunSim | dune/dune.c:438-499 | the same for whole runs from any related pair of states, with the native run given explicitly |
| Runs.StartSim | dune/dune.c:318-327 | the state behind `dune_enter` stands for the process it was called in |
| TreeAllocation.StartTakes | dune/dune.c:187-190 | that state has one VM, whose pool is the empty one after one allocation |
| Runs.UserSeesNative | dune/loongarch/entry.S:48-67 | in every reachable state a thread executing user code has the registers and the pc of its native counterpart, which is in no call |
| Syscalls.ExactlyOnce | dune/dune.c:438-499 | for every thread of every run, the guest's system-call instructions and the kernel's entries are equal in number but for one that may be on its way |
| Syscalls.NativeRunCounts | dune/dune.c:438-499 | the same balance for the native machine, which is what makes the count a fact about calls and not about dune |
| Syscalls.GoesOnAsNative | dune/loongarch/entry.S:48-67 | until its next instruction, nothing on the host side, no refill, interrupt, eviction or other thread changes what a thread will see |
| Syscalls.CallReturns | dune/loongarch/arch.c:446-469 | behind a host call, however the run goes on, the guest resumes at the next instruction with the kernel's result in a0 and every register but t0 as it was |
| Syscalls.CloneReturns | dune/dune.c:359-421 | behind a clone by any strategy, whichever of the two runs first, the child starts with a0 zero, its stack and tp as the original arguments ask, the parent with the child's number, both behind the call |
| Syscalls.RefusalReturns | dune/loongarch/arch.c:446-469 | behind a refused clone of the old-stack strategy the guest resumes with the negated errno in a0 and every register but t0 as it was |
| Refusals.RefusalShows | dune/loongarch/arch.c:525-542 | every host clone can be refused with any errno; the guest will find the negated errno in the old-stack strategy and the errno itself in the two others, and nothing else changes |
| Refusals.RefusalIsNativeIff | dune/loongarch/arch.c:525-542 | when the kernel refuses the host clone, with any errno and in any strategy, the state that results stands for a native one, reached by one native step or none, if and only if the guest's clone had neither CLONE_VM nor a stack of its own |
| Refusals.RefusalLosesCore | dune/dune.c:375-400 | behind a refused clone into the same VM the slot of the core armed for the child is still claimed, and no thread holds it |
| Syscalls.TrapIsNative | dune/loongarch/entry.S:48-60 | dune and the native machine take the same instructions for system calls |
| TreeSafety.KvmNeverRefuses | Readme.md:67-79 | in every state of every clone tree, each core a thread works on or prepares is in a VM that the thread's own address space created |
| TreeSafety.CoresAreExclusive | dune/dune.c:109-163 | no two threads hold the same core, and the slot of a held core is claimed |
| TreeSafety.BlocksAreIsolated | dune/loongarch/arch.c:225 | KS5 of every core leads cell by cell to its own parameter block, and blocks of two cores of one address space share no cell, slot reuse included |
| TreeSafety.ImageIsShared | dune/interface.h:81-85 | every core and every child under preparation is on the first core's vector image, so the null check of `init_csr` never fires |
| Progress.HandlerGoesOn | dune/loongarch/entry.S:12-67 | in every related state the next handler instruction executes, whatever the TLB drops: no access of the stub can miss or leave the slot |
| Progress.LoopGoesOn | dune/dune.c:440-498 | at the top of the loop, at the hypercall, after an interrupt and behind the host call there is always a next step; KVM_RUN is never refused |
| Progress.HypercallIsServed | dune/dune.c:458-497 | back from a hypercall, exit, clone or forwarding is enabled exactly for the native number, and none of them exactly for the two numbers the loop refuses |
| Progress.ArmChildGoesOn | dune/dune.c:329-338 | `dup_vcpu` succeeds if and only if fewer than all slots are taken and the slot has a core or there is a block for a new one |
| Progress.CloneGoesOn | dune/dune.c:369-421 | the host clones of the three strategies need nothing but fresh names |
| Progress.BuildVmGoesOn | dune/dune.c:340-357 | a forked child can build its VM if and only if there is a block for its core |
| Progress.AnyInterrupt | dune/dune.c:441-450 | a running thread can be taken out of KVM_RUN at any instruction, its core left alone |
| Progress.AnyMiss | dune/loongarch/entry.S:12-16 | a miss at any user address can be taken from everywhere but the refill handler, and enters it with registers, translations and everything outside the core as they were |
| Progress.AnyPartIsLost | dune/loongarch/entry.S:36 | a core can come to have any part of the translations it has |
| BlockMemory.RoomForABlock | dune/dune.c:142-144 | if fewer cells are in use than the slot has room for blocks, a block can be allocated |
| BlockMemory.MemoryLasts | dune/dune.c:142-144 | along any run that sets up a core for fewer than 2^31 - 1 children, a block can be allocated in every address space, so that the conditions on memory hold |
| CatchUp.CatchesUp | dune/dune.c:438-499 | left alone, a thread reaches user mode or its host call in a bounded number of steps that the native machine cannot see |
| CatchUp.Translates | dune/loongarch/entry.S:12-42 | a thread in user mode can come to have a translation of any user address without losing another, unseen by the native machine |
| Matching.CanMatchIffSupported | dune/dune.c:228-235 | from any related states and for any step that a native thread can take, dune can take exactly this step, after steps nobody sees, if and only if: the instruction and its operand lie below 2^40, and a forked child without a VM has memory for a block; the number is not one of the two the loop refuses; a clone sharing memory has an armed core, or a free slot with a core or a block for one; a refused clone is of the strategy that forwards the result |
| Matching.NewbornStartsIff | dune/dune.c:340-357 | a forked child gets to user mode, with nothing native in between, if and only if a block can be allocated in its address space |
| Matching.FirstInstruction | dune/dune.c:318-327 | the process's first instruction can be matched from the start of dune if and only if it and its operand lie below 2^40 |
| Matching.BeyondTheSlot | dune/dune.c:228-235 | a process at address 2^40 has a native first step that no run of dune matches |
| Completeness.CallCompletes | dune/dune.c:438-499 | from any state in which the native thread is in a call that is forwarded, there is a run of dune that is exactly this native call and ends with the thread back in user mode |
| Completeness.ExitCompletes | dune/dune.c:472-497 | the same for the exit of a thread |
| Completeness.ForkCompletes | dune/dune.c:404-421 | a native clone without CLONE_VM, with any fresh child and address space, is exactly a run of dune, whatever the pool |
| Completeness.SharedCloneCompletes | dune/dune.c:375-400 | so is one with CLONE_VM, from the middle of the clone too, if its core is armed or one is available |
| Completeness.RefusalCompletes | dune/dune.c:359-367 | so is a clone with the old stack that the kernel refuses with any errno |
| Completeness.NewbornStarts | dune/dune.c:340-357 | with memory for a block, a forked child builds its VM and reaches its first instruction, unseen by the native machine |
| Completeness.OrdinaryCompletes | dune/dune.c:228-235 | a guest instruction within the slot is matched wherever its thread is on its way, newborn children included |
| Paging.IdentityHit | dune/loongarch/internal.h:334-362 | a covering identity entry hits for every kind of access and translates the address to itself |
| Paging.IdentityFlags | dune/loongarch/internal.h:334-362 | base and flag bits do not disturb each other: valid, writable, cached, global, not inhibited, in both halves |
| Paging.WithoutAFlag | dune/loongarch/internal.h:334-362 | what each bit is for: without V, WE or GLOBAL accesses fail, and each of the bits left clear would forbid one |
| Paging.IdentityCovers | dune/loongarch/entry.S:17-27 | an entry covers an address if and only if both are in the same aligned gigabyte |
| Paging.OverlapsAgree | dune/loongarch/entry.S:12-42 | two entries that cover one user address are the same entry |
| Paging.EntryForCovers | dune/loongarch/entry.S:16-35 | what the handler computes from a faulting user address is an identity entry that covers it |
| Paging.GuestIsHost | dune/dune.c:228-235 | through any TLB of identity entries and the memory slot, a user address reaches itself if it is below 2^40 and nothing otherwise |
| Paging.WindowRoundTrip | dune/loongarch/internal.h:245-250 | for every host address below 2^48, adding the window base and translating gives the address back |
| Paging.UserNotInWindow | dune/loongarch/internal.h:245-250 | no user address falls into the window |
| Handlers.RefillEntry | dune/loongarch/entry.S:12-16 | a miss can be taken before any user or stub instruction without changing what the interrupted code will find |
| Handlers.RefillInstr | dune/loongarch/entry.S:12-41 | each of the eighteen instructions, with the swapping csrwr, keeps the interrupted code's view, touches no memory and adds at most the entry for the missing address |
| Handlers.RefillTransparent | dune/loongarch/entry.S:12-41 | a whole refill returns to the interrupted instruction with all registers and memory as before and the missing address mapped to itself |
| Handlers.MaskIsRegion | dune/loongarch/entry.S:20-21 | the shift pair clears exactly the bits below a pair of pages |
| Harts.Hart.Refill | dune/loongarch/entry.S:12-41 | the same, run as a loop on a core that is changed in place |
| Harts.Hart.EnterCall | dune/loongarch/entry.S:48-59 | from the trap to the hypercall the eight arguments reach their cells of the block, nothing else in memory changes, and of the registers only a0 and t0 |
| Harts.Hart.LeaveCall | dune/loongarch/entry.S:60-66 | from KVM's entry, which overwrites a0, to user mode: a0 is the cell, the pc is behind the trap, of the other registers only t0 changes |
| Trampoline.StubTarget | dune/loongarch/arch.c:225 | access i of the stub lands in element i of the block at any block address within the slot |
| Trampoline.StubInstr | dune/loongarch/entry.S:48-67 | every stub instruction executes, writes only its own block and keeps standing for the same native thread |
| Trampoline.StubAsks | dune/loongarch/entry.S:49-59 | at the hypercall the block holds number and seven arguments of the native thread |
| Clone.ChildStarts | dune/loongarch/arch.c:472-505 | whatever core the child is given, used or new, KVM hands the guest exactly the registers prepared for it, behind the parent's trap |
| Clone.ChildIsNative | dune/loongarch/arch.c:472-505 | for all flags, stacks and thread pointers the prepared registers are those of the native child, t0 excepted |
| CloneRefinement.CloneThreadSim | dune/dune.c:375-400 | SAME_VM: the host clone on an armed core is the native clone with a shared address space |
| CloneRefinement.ForkProcessSim | dune/dune.c:359-367 | the two other strategies: the host clone, with dune's own blocks copied too, is the native clone with a copied address space |
| CloneRefinement.ForkFailsSim | dune/dune.c:359-367 | the host clone refused by the kernel is the native clone refused with the same errno |
| CloneRefinement.RequestIsNative | dune/loongarch/arch.c:424-440 | the parameters in the block are the native arguments, and the strategy is SAME_VM if and only if they say CLONE_VM |
| VmRefinement.ArmChildSim | dune/dune.c:329-338 | claiming a slot and arming its core, old or new, changes nothing a native thread can see |
| VmRefinement.BuildVmSim | dune/dune.c:340-357 | a forked child's own VM and first core are built without changing what the child stands for |
| VmRefinement.FreeSlotUnheld | dune/dune.c:118-132 | a slot that is not valid is held by no thread |
| Refinement.HostCallSim | dune/loongarch/arch.c:446-469 | the forwarded call is the native call, with the native number and arguments |
| Refinement.StoreResultSim | dune/loongarch/arch.c:467 | writing the result makes the stub's reload deliver it |
| Refinement.HandlerInstrSim | dune/loongarch/entry.S:12-67 | every handler instruction is invisible to the native machine |
| Refinement.TlbMissSim | dune/loongarch/entry.S:12-16 | a miss at any user address, anywhere outside a refill, is invisible |
| Refinement.EvictedSim | dune/loongarch/entry.S:36 | losing any set of translations on any core is invisible |
| Refinement.InterruptedSim | dune/dune.c:449-451 | leaving KVM_RUN for a signal at any instruction is invisible |
| Refinement.KvmRunSim | dune/dune.c:441 | entering KVM_RUN, with a result pending or not, is invisible |
| Refinement.GuestOpSim | dune/dune.c:228-235 | a guest instruction through hitting TLB entries and the slot is the native instruction |
| Refinement.ExitThreadSim | dune/dune.c:472-497 | giving the core back and exiting is the native exit |
| PoolProtocol.StepKeeps | dune/dune.c:94-163 | every single memory access of allocation and release keeps the pool invariant, whichever thread takes it |
| PoolProtocol.RunKeeps | dune/dune.c:94-163 | hence every interleaving does |
| PoolProtocol.FetchSettles | dune/dune.c:122-127 | the pointer read after the lock is dropped is there, complete, and belongs to the reader's slot |
| PoolProtocol.CreateSucceeds | dune/dune.c:142-150 | a core about to be created is in its slot, linked, numbered, and its id was never used |
| PoolProtocol.ClearSucceeds | dune/dune.c:94-107 | the assertion in `kvm_free_vcpu` holds and the slot is the caller's |
| PoolSafety.LockIsExclusive | dune/dune.c:114-136 | at most one thread is inside the lock |
| PoolSafety.ClaimsAreExclusive | dune/dune.c:118-146 | at most one thread is answerable for a slot, before and after publication, and then the slot is valid |
| PoolSafety.OwnersAreExclusive | dune/dune.c:94-163 | no core has two owners between allocation and release, and an owned core is complete and in its slot |
| PoolOwners.HandOverPasses | dune/dune.c:381-393 | behind a successful host clone the child owns the core and answers for its slot, the parent no longer does, and nothing else has changed |
| PoolOwners.ClaimsMove | dune/dune.c:94-163 | behind any step a thread answers for a slot if and only if it did before and the step does not release, pass on or lose it, or the step marks the slot for it or starts it on the slot's core |
| PoolOwners.ThreadsComeAndGo | dune/dune.c:381-393 | threads come by successful host clones only, and go by their exit or by leaving without one |
| PoolSafety.ValidIffClaimed | dune/interface.h:137-141 | in every reachable state a slot is valid if and only if some thread is answerable for it or it was lost, and never both |
| PoolLosses.AllClaimedIffNoneLost | dune/dune.c:142-144 | every valid slot has a thread answerable for it, if and only if in the whole run no calloc failed, no host clone failed behind an allocation and no thread left without freeing its core |
| PoolLosses.LossesAddUp | dune/dune.c:471-474 | the number of lost slots is the number of those events: each loses one more, and nothing gives one back |
| PoolLosses.LossesBoundTheRest | Readme.md:54-55 | an allocation finds no slot if and only if each is lost or some thread is answerable for it; at most as many losses as slots are possible, and with that many no allocation succeeds |
| PoolLosses.LossIsReal | dune/dune.c:381-393 | a run, with a host clone that fails, to a valid slot that nobody is answerable for |
| PoolSafety.PublishedForGood | dune/dune.c:146-148 | a published pointer never changes, and its core keeps VM and number for good |
| PoolSafety.CreatedOnce | dune/dune.c:150 | KVM_CREATE_VCPU is issued at most once for any id |
| PoolSafety.DiesOnlyForLack | dune/dune.c:118-155 | a thread dies only where all slots were valid under the lock, or where calloc failed |
| PoolOwners.DiesIff | dune/dune.c:138-144 | a step makes a thread die if and only if its calloc fails or it unlocks behind a scan that found nothing |
| PoolProgress.CanGoOn | dune/dune.c:94-163 | inside a call a thread can always take its next step, whatever the others are doing |
| PoolProgress.OccasionsAreFree | dune/dune.c:142-144 | at any time a failing calloc, a host clone that succeeds or fails, and a thread that leaves without freeing can happen, on exactly these conditions |
| PoolProgress.CallIsBounded | dune/dune.c:94-163 | a call takes at most 27 steps of its own under any interleaving |
| PoolProgress.LockComesFree | dune/dune.c:114-136 | from every state in which the lock is taken, the holder's own steps give it back |
| PoolSafety.StepIsAtomic | dune/dune.c:118-140 | the interleaved code changes the valid bits as the sequential allocator does, in one step of each call |
| PoolRefinement.StepRefines | dune/dune.c:94-163 | every single memory access is one operation of the atomic allocator, at the write of a valid bit, or none |
| PoolRefinement.PoolIsAllocator | dune/dune.c:94-163 | every interleaving from the empty pool is a run of the atomic allocator ending in the same slots and cores |
| PoolRefinement.AllocationReturns | dune/dune.c:109-163 | whatever other threads do in between, a call returns the complete core of the slot that was the first free one at its write: the core the slot had, or else one created by the call, never one its thread had |
| TreePools.StepUsesAllocator | dune/dune.c:329-338 | every step of the machine is one operation of this allocator on a VM's pool, taking for `dup_vcpu` and giving back for an exit, or leaves the pool alone |
| TreePools.BuildVmTakes | dune/dune.c:340-350 | a new VM's pool is the empty allocator after one allocation |
| TreeAllocation.PoolsAreHistory | dune/dune.c:94-163 | every pool of every reachable state of the tree is what the atomic allocator makes of the empty pool by the allocations and releases of the run, in their order |
| TreeAllocation.ClaimedIffHeld | dune/dune.c:118-146 | in every reachable state of every clone tree a slot is claimed if and only if some thread works on its core or prepares it |
| PoolSafety.ScanFindsFirst | dune/dune.c:118-140 | the scan ends at the first free slot, and with none if and only if all are taken |
| HighWater.ClaimedArePrefix | Readme.md:54-55 | over any history the slots ever claimed are 0 to k-1 with k the largest number in use at the same time |
| HighWater.CoresAreReused | Readme.md:54-55 | no more kernel cores are ever created than were in use at the same time |
| PoolRuns.Allocation | dune/dune.c:109-163 | undisturbed, from any reachable state with a free slot, an allocation takes the first one, with its old core or a complete new one, and changes nothing else |
| PoolRuns.AllocationDies | dune/dune.c:138-140 | with no free slot the same run dies |
| PoolRuns.Release | dune/dune.c:94-107 | undisturbed, a release frees exactly the core's slot and keeps the core in it |
| ExitWindow.SharingBeginsIff | dune/dune.c:122-127 | a step gives a core a second user if and only if it reads the core's pointer outside the lock while the last user is between release and exit call |
| ExitWindow.SharesIffTakesUsed | dune/dune.c:472-497 | along a whole run some core is shared at some time if and only if some fetch takes a core whose last user is in that window |
| ExitWindow.SharedOnlyInWindow | dune/dune.c:472-497 | of two threads that use one core, one is between its release and its exit call |
| ExitWindow.WindowIsReal | dune/dune.c:472-497 | a run in which that happens |
| Slots.FirstFree | dune/dune.c:118-132 | the index the scan stops at: everything below is taken, and it is free unless it is the end |
| VcpuPool.KvmVm.FindFree | dune/dune.c:118-132 | the loop stops at the first free slot |
| VcpuPool.KvmVm.Alloc | dune/dune.c:109-163 | the first free slot becomes valid, its core is the old one or a new one created once, nothing else changes; none exactly when all are taken |
| VcpuPool.KvmVm.Free | dune/dune.c:94-107 | exactly the core's slot becomes free, and keeps its core |
| HostLoop.Turn | dune/dune.c:441-497 | an interrupt asks for nothing, leaves the block as it was and goes on; a forwarded hypercall is one request with number and arguments of the block and leaves the answer; an exit is one request and the only one that frees the slot; clone and refused numbers ask for nothing |
| HostLoop.Exit | dune/dune.c:472-474 | the slot is given back and the exit call carries the thread's own parameters |
| HostLoop.Loop | dune/dune.c:438-499 | over any sequence of exits, each hypercall is forwarded once and answered before the guest runs again, interrupts forward nothing, the loop ends at the first exit it must, and only an exit frees the slot |
| HostLoop.LoopAsks | dune/dune.c:438-499 | the loop's requests are, in order and once each, those of the hypercalls up to its end, with each one's own number and arguments; what it leaves behind an interrupt is what the interrupt found |
| HostLoop.StopsAtFirst | dune/dune.c:445-497 | every exit before the end is an interrupt or a forwarded hypercall; the loop dies at anything that is no hypercall and at kexec_load, ends at exit, and leaves clone to `emulate_fork` |
| LoopRefinement.TurnBranches | dune/dune.c:449-497 | the turn forwards, ends or forks exactly where the machine's host call, exit or clone is enabled |
| LoopRefinement.InterruptTurn | dune/dune.c:449-450 | the turn of an interrupt is the machine's step back to the top: no request, the same block, the same log |
| LoopRefinement.CallTurn | dune/dune.c:494-497 | behind host call and store, block and log are what the turn leaves and requests for the kernel's answer, guest memory and kernel are as the kernel left them |
| LoopRefinement.ExitTurn | dune/dune.c:471-474 | the machine's exit is the turn that ends the loop: the same request, the memory the kernel left, and exactly the core's slot is free |
| LoopRefinement.ForkTurn | dune/dune.c:480-492 | a clone into a new VM: the machine's three steps leave in the block what `EmulateFork` leaves for a child's number, the child starts from the fetched registers and an untouched copy of the block, and each of the two has the memory the kernel gave it |
| LoopRefinement.SharedTurn | dune/dune.c:480-492 | a clone into the same VM: the machine's four steps arm the first free slot's core from the original block as `EmulateSameVm` does, and leave the same answer |
| LoopRefinement.SharedTurnMemory | dune/dune.c:375-400 | behind the same turn parent and child share one memory, which is as the kernel left it for the clone in the block |
| LoopRefinement.RefusedTurn | dune/dune.c:359-367 | a refused old-stack clone: the machine's three steps leave the negated errno in the block as `EmulateOldStack` does, and neither thread nor core nor pool has changed |
| LoopRefinement.ClonesAlike | dune/loongarch/arch.c:525-535 | the guest's call, the call that `do_simulate_clone` makes and the one that is forwarded ask for the same clone: flags, both thread id addresses and thread pointer, each from its own argument |
| ForkCode.InitChildThreadInfo | dune/loongarch/arch.c:472-505 | editing the copied registers gives the child's registers of the model; it dies exactly on a null image |
| ForkCode.EmulateFork | dune/dune.c:424-436 | CLONE_VM: the first free slot is claimed and its core armed from the original arguments, the record sends the child into the host loop, the host clone gets the record's address as its stack, and it dies exactly when no slot is free; a stack of its own: the record sends the child to build a VM, no pool is touched; else the call is forwarded as it is, and only a child that gets zero goes on with a core of a pool of its own; the parent's block holds the result |
| ForkCode.EmulateSameVm | dune/dune.c:375-400 | the child is armed from the original arguments before the answer overwrites them, its record sends it into the host loop with its core, and the parent gets the answer |
| ForkCode.EmulateNewStack | dune/dune.c:404-421 | the record sends the child to build its own VM from its parent's core and the clone's number |
| ForkCode.EmulateOldStack | dune/dune.c:359-367 | the process that gets zero goes on with a core of its own built from the original arguments, the other with its own core and the answer |
| ForkCode.DupVm | dune/dune.c:340-350 | a new pool with one claimed slot, created once, armed from the parent, which is only read |
| ForkCode.PushRecord | dune/dune.c:386-391 | the record written at the top of a page reads back from there, and the rest of the page is as it was |
| ForkCode.RecordFitsPage | dune/dune.c:369-388 | the record is exactly the last 24 bytes of the page, at any page address |
| ForkCode.ChildEntersRecord | dune/loongarch/entry.S:80-95 | behind the host clone the child enters the recorded function with the recorded arguments on its own page, the parent returns with the child's number on its old stack |
| ForkCode.SimulateClone | dune/loongarch/arch.c:525-542 | the host clone gets the guest's arguments with the host stack in place of the guest's, and the block gets the absolute value of the answer |
| ForkCode.CloneResultIsNativeIff | dune/loongarch/arch.c:537-541 | the guest sees the native result if and only if the clone succeeded or used the old stack |
| ForkCode.FailedCloneLooksLikeAChild | dune/loongarch/arch.c:537-541 | EAGAIN as a concrete case |
| VectorImage.InitEbase | dune/loongarch/arch.c:177-206 | the fill loop writes exactly four pages, and fill and copies leave the image of `ImageWord` |
| VectorImage.ExceptionsLand | dune/loongarch/internal.h:319-332 | a system call finds the stub, a refill the refill handler, every other exception or interrupt only trap words in its whole vector |
| VectorImage.VectorsFit | dune/loongarch/arch.c:179-181 | vectors are apart and all lie in the image |
| VectorImage.HandlersFit | dune/loongarch/arch.c:197-200 | both handlers fit their vectors |
| CallContract.NativeHonors | dune/loongarch/entry.S:60-66 | the native call goes on behind the trap with its result and gives up only t0 |
| CallContract.Serve | dune/loongarch/entry.S:48-67 | a LoongArch core, into the call, answered and back, keeps the same contract, and the kernel is asked for the number in a7 with a0 to a6 |
| MipsPaging.Refill | dune/mips/entry.S:15-29 | for every user address the nor mask, shift and flags give a pair of pages that maps the two gigabytes around it to themselves |
| MipsStub.SlotTarget | dune/mips/arch.c:154-155 | each access of the MIPS stub lands in its own slot of the block |
| MipsStub.MipsHart.Dispatch | dune/mips/entry.S:36-48 | the general entry goes to the stub if and only if the exception code is a system call |
| MipsStub.ExcCodeIs | dune/mips/entry.S:37-39 | shift and mask give the five bits of the code, whatever the rest of the cause register |
| MipsStub.MipsHart.Enter | dune/mips/entry.S:50-58 | $2 and $4 to $9 reach slots 0 to 6 in this order, nothing else changes but a kernel register |
| MipsStub.MipsHart.Leave | dune/mips/entry.S:60-66 | $2, $3 and $7 come from the block, the return address moves by four, the rest stays |
| MipsStub.MipsHart.Serve | dune/mips/entry.S:36-67 | a whole MIPS call: the kernel is asked for the number in $2 with $4 to $9, or for `pipe` with $4, and the call keeps the contract: two results, $3, k0 and k1 given up; for `pipe` three results, or an error in $2 and $7 |

## Left out

- Runs.Refines: a guest store never hits dune's own parameter blocks, because user memory and blocks are two maps; dune itself relies on the guest not writing there.
- Runs.Refines: memory is cells of one word at their own addresses, so unaligned and narrower accesses and instruction fetch as bytes are not distinguished.
- Runs.Refines: an access with nothing behind it has no step; natively it raises a signal, in dune KVM reports it (Readme.md:35-48).
- Runs.Refines: a refused clone is a step where its result is passed on, the old-stack strategy; in the two others no native step leads where dune gets (`Refusals.RefusalIsNativeIff`), so the machine's runs end before it.
- Refinement.ExitThreadSim: `kvm_free_vcpu` and the exit call are one step of the machine; the window between them is the subject of `ExitWindow.SharesIffTakesUsed`.
- VmRefinement.ArmChildSim: allocating and setting up the child's core is one step of the machine; that the interleaved code behaves as one is `PoolRefinement.PoolIsAllocator` with `PoolRefinement.AllocationReturns`, that the machine uses it so `TreePools.StepUsesAllocator`.
- Refinement.InterruptedSim: what the host's libc writes into the shared address space is not modelled: errno of an interrupted ioctl in the thread's TLS (dune/dune.c:441-445), the heap that calloc manages (dune/dune.c:142).
- Matching.CanMatchIffSupported: is about one native step at a time; along a run the condition is needed again at each step, and what a call leaves in $t0 is dune's choice.
- A child with CLONE_VM that leaves by exit_group or execve frees no slot while its parent's VM lives on (dune/dune.c:471-474). The machine lets such a call return; the pool has it as a step, and what it costs is `PoolLosses.LossesBoundTheRest`.
- VmRefinement.BuildVmSim: `dup_vm` is one step, since the forked child is alone in its address space.
- KVM_RUN always returns with the reason of that return; the loop also lets EAGAIN pass (dune/dune.c:445), with which an earlier `exit_reason` would still be in place.
- HostLoop.Loop: takes a finite sequence of exits in place of `while (true)`, and ends at a clone, which `ForkCode` has as methods of its own and `LoopRefinement` relates to the machine.
- PoolProtocol.StepKeeps: `calloc`, the spin lock and KVM_CREATE_VCPU are single steps, and memory is sequentially consistent.
- Floating-point state: integer registers only; `kvm_access_fpu_regs` ignores the state it is passed (dune/loongarch/arch.c:119-124).
- clone3: only the placeholder number 0x3f3f3f3f is refused (dune/loongarch/arch.h:42-43); the kernel's own number is forwarded like any call, and what its child would do in the host is not modelled.
- execve, exit_group: ordinary calls to the machine; that the host kernel ends or replaces the process is not modelled.
- Signals, vdso, seccomp, `escape`: refused by dune or left to the host kernel.
- dune/loongarch/arch.c:347-409: the registers `kvm_launch` saves are a parameter of the start state; that it restores $r6 from the slot of $r8 is outside the model.
- Vector interrupts of a guest other than a miss or a system call: they land in trap words (`VectorImage.ExceptionsLand`), and what KVM then reports is not modelled.
- TLBREPC holds a symbolic location rather than an address in the vector image.
- MIPS clone code: does not compile as it stands (dune/mips/arch.c:481-484); the MIPS refill's use of the assembler's own register is not modelled either.
- Page-table walking CSRs, CSR numbers, register dumps, FPU save sequences, examples and test patches: constants or plumbing that would add easy members only.
