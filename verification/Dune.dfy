/** A process tree inside dune: cores run by KVM, host threads in their host loops, address spaces that
    hold both the guest's memory and dune's parameter blocks, and the VMs with their slots.

    Every atomic thing that can happen next is one `Label`; the order in which threads take their steps
    is arbitrary.  A step that would make dune die has no result. */
module Dune {
  import opened Words
  import opened Paging
  import opened LoongArch
  import opened Handlers
  import opened Trampoline
  import opened Clone
  import opened Slots
  import N = Native

  const SYS_KEXEC_LOAD: Word := 104
  /** What arch.h defines both SYS_FORK and SYS_CLONE3 as. */
  const SYS_FORK: Word := 0x3f3f3f3f

  datatype VcpuId = VcpuId(vm: nat, slot: nat)

  /** A kernel core and the `struct kvm_cpu` that goes with it, at its host address. */
  datatype Vcpu = Vcpu(block: Word, cpu: Cpu)

  /** A VM remembers the address space that created it; KVM refuses every other one. */
  datatype Vm = Vm(creator: nat, valid: seq<bool>)

  /** One address space: what the guest uses, and the parameter blocks dune keeps beside it. */
  datatype Space = Space(user: Mem, blocks: Mem)

  /** Where a host thread is in its loop.
      - Top: about to issue KVM_RUN
      - Running: inside KVM_RUN, the guest executes
      - Exited: back from KVM_RUN, by a hypercall or by an interrupt
      - Storing: the host system call returned; the result is not in the block yet
      - CloneReady: the parent's registers have been fetched
      - CloneArmed: SAME_VM only, the child's core is set up and the host clone is next
      - NeedsVm: a forked child that still has to build its own VM from its copy of the parent's block */
  datatype Phase =
    | Top(v: VcpuId)
    | Running(v: VcpuId)
    | Exited(v: VcpuId, hypercall: bool)
    | Storing(v: VcpuId, result: Word)
    | CloneReady(v: VcpuId, info: ThreadInfo)
    | CloneArmed(v: VcpuId, info: ThreadInfo, child: VcpuId)
    | NeedsVm(parentBlock: Word, info: ThreadInfo)

  datatype Thread = Thread(space: nat, phase: Phase)

  datatype System<K> = System(
    threads: map<Word, Thread>,
    spaces: map<nat, Space>,
    vms: map<nat, Vm>,
    vcpus: map<VcpuId, Vcpu>,
    kernel: K,
    log: seq<N.Event>)

  datatype Label =
    | GuestOp(t: Word, fetched: TlbEntry, accessed: TlbEntry)
    | TlbMiss(t: Word, va: Word)
    | HandlerInstr(t: Word, keep: set<TlbEntry>)
    | TakeHypercall(t: Word)
    | Interrupted(t: Word)
    | Evicted(v: VcpuId, keep: set<TlbEntry>)
    | LoopAgain(t: Word)
    | KvmRun(t: Word)
    | HostCall(t: Word)
    | StoreResult(t: Word)
    | BeginClone(t: Word)
    | ArmChild(t: Word, block: Word)
    | CloneThread(t: Word, child: Word)
    | ForkProcess(t: Word, child: Word, space: nat)
    | ForkFails(t: Word, errno: Word)
    | BuildVm(t: Word, vm: nat, block: Word)
    | ExitThread(t: Word)

  // ---------- Parts of a state ----------

  /** Thread `t` is in a phase that works on core `v`. */
  predicate Works<K>(s: System<K>, t: Word, v: VcpuId)
  {
    && t in s.threads && s.threads[t].space in s.spaces
    && !s.threads[t].phase.NeedsVm? && s.threads[t].phase.v == v
    && v in s.vcpus && v.vm in s.vms
    && HasBlock(s.spaces[s.threads[t].space].blocks, s.vcpus[v].block)
  }

  /** The check KVM makes on every ioctl: the caller's address space created the VM. */
  predicate KvmAllows<K>(s: System<K>, t: Word, vm: nat)
  {
    t in s.threads && vm in s.vms && s.vms[vm].creator == s.threads[t].space
  }

  function CpuOf<K>(s: System<K>, v: VcpuId): Cpu
    requires v in s.vcpus
  {
    s.vcpus[v].cpu
  }

  function BlocksOf<K>(s: System<K>, t: Word): Mem
    requires t in s.threads && s.threads[t].space in s.spaces
  {
    s.spaces[s.threads[t].space].blocks
  }

  function UserOf<K>(s: System<K>, t: Word): Mem
    requires t in s.threads && s.threads[t].space in s.spaces
  {
    s.spaces[s.threads[t].space].user
  }

  /** `syscall_parameter[0..8]` of the core the thread works on. */
  function ParamsOf<K>(s: System<K>, t: Word, v: VcpuId): (p: seq<Word>)
    requires Works(s, t, v)
    ensures |p| == PARAMETERS
  {
    Params(BlocksOf(s, t), s.vcpus[v].block)
  }

  function WithPhase<K>(s: System<K>, t: Word, p: Phase): System<K>
    requires t in s.threads
  {
    s.(threads := s.threads[t := s.threads[t].(phase := p)])
  }

  function WithCpu<K>(s: System<K>, v: VcpuId, c: Cpu): System<K>
    requires v in s.vcpus
  {
    s.(vcpus := s.vcpus[v := s.vcpus[v].(cpu := c)])
  }

  function WithUser<K>(s: System<K>, t: Word, m: Mem): System<K>
    requires t in s.threads && s.threads[t].space in s.spaces
  {
    var a := s.threads[t].space;
    s.(spaces := s.spaces[a := s.spaces[a].(user := m)])
  }

  function WithBlocks<K>(s: System<K>, t: Word, m: Mem): System<K>
    requires t in s.threads && s.threads[t].space in s.spaces
  {
    var a := s.threads[t].space;
    s.(spaces := s.spaces[a := s.spaces[a].(blocks := m)])
  }

  // ---------- The guest runs ----------

  /** A guest access through a given TLB entry: the entry must hit, and the slot must reach the page. */
  function Reach(c: Cpu, e: TlbEntry, va: Word, access: Access): Option<Word>
  {
    if e in c.tlb && IsUser(va) && Hits(e, va, access) then HostAddress(Physical(e, va)) else None
  }

  function DoGuestOp<K>(env: N.Env<K>, s: System<K>, t: Word, fetched: TlbEntry, accessed: TlbEntry): Option<System<K>>
  {
    if !(t in s.threads && s.threads[t].phase.Running?) then None else
      var v := s.threads[t].phase.v;
      if !Works(s, t, v) || !CpuOf(s, v).loc.User? then None else
        var c, m := CpuOf(s, v), UserOf(s, t);
        match Reach(c, fetched, c.loc.pc, Fetch)
        case None => None
        case Some(pc) =>
          match env.op(pc, m)
          case Alu(f) =>
            var (g, next) := f(c.gpr, c.loc.pc);
            Some(WithCpu(s, v, c.(gpr := g, loc := User(next))))
          case Load(rd, addr) =>
            (match Reach(c, accessed, addr(c.gpr), Read)
             case None => None
             case Some(a) =>
               if a in m then
                 Some(WithCpu(s, v, c.(gpr := Set(c.gpr, rd, m[a]), loc := User(Add(c.loc.pc, 4)))))
               else None)
          case Store(rs, addr) =>
            (match Reach(c, accessed, addr(c.gpr), Write)
             case None => None
             case Some(a) =>
               if a in m then
                 Some(WithUser(WithCpu(s, v, c.(loc := User(Add(c.loc.pc, 4)))), t, m[a := Get(c.gpr, rs)]))
               else None)
          case Syscall => Some(WithCpu(s, v, EnterStub(c, c.loc.pc)))
  }

  /** A miss can be taken before any instruction of the guest or of the stub; handler code of a refill
      itself runs untranslated. */
  function DoTlbMiss<K>(s: System<K>, t: Word, va: Word): Option<System<K>>
  {
    if !(t in s.threads && s.threads[t].phase.Running? && IsUser(va)) then None else
      var v := s.threads[t].phase.v;
      if !Works(s, t, v) || CpuOf(s, v).loc.Refill? then None else
        Some(WithCpu(s, v, EnterRefill(CpuOf(s, v), va)))
  }

  function DoHandlerInstr<K>(s: System<K>, t: Word, keep: set<TlbEntry>): Option<System<K>>
  {
    if !(t in s.threads && s.threads[t].phase.Running?) then None else
      var v := s.threads[t].phase.v;
      if !Works(s, t, v) then None else
        match Current(CpuOf(s, v).loc)
        case None => None
        case Some(i) =>
          match Exec(i, CpuOf(s, v), BlocksOf(s, t), keep)
          case Stuck => None
          case Done(c, m) => Some(WithBlocks(WithCpu(s, v, c), t, m))
  }

  function DoTakeHypercall<K>(s: System<K>, t: Word): Option<System<K>>
  {
    if !(t in s.threads && s.threads[t].phase.Running?) then None else
      var v := s.threads[t].phase.v;
      if !Works(s, t, v) || Current(CpuOf(s, v).loc) != Some(Hypercall) then None else
        Some(WithPhase(WithCpu(s, v, LoongArch.TakeHypercall(CpuOf(s, v))), t, Exited(v, true)))
  }

  /** KVM_RUN returns for a signal, whatever the core is doing. */
  function DoInterrupted<K>(s: System<K>, t: Word): Option<System<K>>
  {
    if !(t in s.threads && s.threads[t].phase.Running?) then None else
      var v := s.threads[t].phase.v;
      if !Works(s, t, v) then None else Some(WithPhase(s, t, Exited(v, false)))
  }

  /** A core may lose translations at any time. */
  function DoEvicted<K>(s: System<K>, v: VcpuId, keep: set<TlbEntry>): Option<System<K>>
  {
    if v !in s.vcpus then None
    else Some(WithCpu(s, v, CpuOf(s, v).(tlb := CpuOf(s, v).tlb * keep)))
  }

  // ---------- The host loop ----------

  function DoLoopAgain<K>(s: System<K>, t: Word): Option<System<K>>
  {
    if t in s.threads && s.threads[t].phase.Exited? && !s.threads[t].phase.hypercall then
      Some(WithPhase(s, t, Top(s.threads[t].phase.v)))
    else None
  }

  function DoKvmRun<K>(s: System<K>, t: Word): Option<System<K>>
  {
    if !(t in s.threads && s.threads[t].phase.Top?) then None else
      var v := s.threads[t].phase.v;
      if !Works(s, t, v) || !KvmAllows(s, t, v.vm) then None else
        Some(WithPhase(WithCpu(s, v, Resume(CpuOf(s, v))), t, Running(v)))
  }

  /** The thread is back from a hypercall and `syscall_parameter[7]` is `nr`. */
  predicate Asked<K>(s: System<K>, t: Word)
  {
    && t in s.threads && s.threads[t].phase.Exited? && s.threads[t].phase.hypercall
    && Works(s, t, s.threads[t].phase.v)
  }

  function Number<K>(s: System<K>, t: Word): Word
    requires Asked(s, t)
  {
    ParamsOf(s, t, s.threads[t].phase.v)[7]
  }

  /** `arch_do_syscall(cpu, false)` up to the return of the host system call. */
  function DoHostCall<K>(env: N.Env<K>, s: System<K>, t: Word): Option<System<K>>
  {
    if !Asked(s, t) || Number(s, t) in {N.SYS_EXIT, SYS_KEXEC_LOAD, N.SYS_CLONE, SYS_FORK} then None else
      var v := s.threads[t].phase.v;
      var pr := ParamsOf(s, t, v);
      var (r, m, k) := env.sys(t, pr[7], pr[..7], UserOf(s, t), s.kernel);
      Some(WithPhase(WithUser(s, t, m), t, Storing(v, r))
           .(kernel := k, log := s.log + [N.Called(t, pr[7], pr[..7], r)]))
  }

  /** `syscall_parameter[0] = result`, and back to the top of the loop. */
  function DoStoreResult<K>(s: System<K>, t: Word): Option<System<K>>
  {
    if !(t in s.threads && s.threads[t].phase.Storing?) then None else
      var v := s.threads[t].phase.v;
      if !Works(s, t, v) then None else
        var r := s.threads[t].phase.result;
        Some(WithPhase(WithBlocks(s, t, BlocksOf(s, t)[Cell(s.vcpus[v].block, 0) := r]), t, Top(v)))
  }

  /** `kvm_free_vcpu` followed by the exit system call, which does not return. */
  function DoExitThread<K>(env: N.Env<K>, s: System<K>, t: Word): Option<System<K>>
  {
    if !Asked(s, t) || Number(s, t) != N.SYS_EXIT then None else
      var v := s.threads[t].phase.v;
      if v.slot >= |s.vms[v.vm].valid| || !s.vms[v.vm].valid[v.slot] then None else
        var status := ParamsOf(s, t, v)[0];
        var (m, k) := env.exit(t, status, UserOf(s, t), s.kernel);
        var freed := s.vms[v.vm].(valid := s.vms[v.vm].valid[v.slot := false]);
        Some(WithUser(s, t, m).(
             threads := s.threads - {t}, vms := s.vms[v.vm := freed],
             kernel := k, log := s.log + [N.Left(t, status)]))
  }

  // ---------- Clone ----------

  /** `kvm_get_parent_thread_info`. */
  function DoBeginClone<K>(s: System<K>, t: Word): Option<System<K>>
  {
    if !Asked(s, t) || Number(s, t) != N.SYS_CLONE then None else
      var v := s.threads[t].phase.v;
      if !KvmAllows(s, t, v.vm) then None else
        var c := CpuOf(s, v);
        Some(WithPhase(s, t, CloneReady(v, ThreadInfo(c.gpr, c.csr.epc, c.csr.ebase))))
  }

  predicate Cloning<K>(s: System<K>, t: Word)
  {
    t in s.threads && s.threads[t].phase.CloneReady? && Works(s, t, s.threads[t].phase.v)
  }

  function StrategyOf<K>(s: System<K>, t: Word): CloneType
    requires Cloning(s, t)
  {
    CloneTypeOf(ParamsOf(s, t, s.threads[t].phase.v))
  }

  /** A block that `calloc` may return: none of its cells is in use, and the slot reaches it. */
  predicate Allocatable(mem: Mem, b: Word)
  {
    BlockInSlot(b) && forall i | 0 <= i < PARAMETERS :: Cell(b, i) !in mem
  }

  function ZeroBlock(b: Word): Mem
  {
    map[Cell(b, 0) := 0, Cell(b, 1) := 0, Cell(b, 2) := 0, Cell(b, 3) := 0,
        Cell(b, 4) := 0, Cell(b, 5) := 0, Cell(b, 6) := 0, Cell(b, 7) := 0]
  }

  /** `dup_vcpu`: the first free slot of the parent's VM, with the core it had before or a new one. */
  function DoArmChild<K>(s: System<K>, t: Word, block: Word): Option<System<K>>
  {
    if !Cloning(s, t) || StrategyOf(s, t) != SameVm then None else
      var v, info := s.threads[t].phase.v, s.threads[t].phase.info;
      var vm := s.vms[v.vm];
      var i := FirstFree(vm.valid);
      if i == |vm.valid| || info.ebase == 0 || !KvmAllows(s, t, v.vm) then None else
        var child := VcpuId(v.vm, i);
        var pr := ParamsOf(s, t, v);
        var claimed := WithPhase(s, t, CloneArmed(v, info, child))
                       .(vms := s.vms[v.vm := vm.(valid := vm.valid[i := true])]);
        if child in s.vcpus then
          Some(WithCpu(claimed, child, InitChild(CpuOf(s, child), info, pr, s.vcpus[child].block)))
        else if Allocatable(BlocksOf(s, t), block) then
          Some(WithBlocks(claimed, t, BlocksOf(s, t) + ZeroBlock(block))
               .(vcpus := s.vcpus[child := Vcpu(block, InitChild(NewCpu(), info, pr, block))]))
        else None
  }

  function RequestOf(pr: seq<Word>): N.CloneArgs
    requires |pr| == PARAMETERS
  {
    N.CloneArgs(pr[0], pr[2], pr[3], pr[4])
  }

  /** The host clone of SAME_VM: the child enters its host loop on the armed core. */
  function DoCloneThread<K>(env: N.Env<K>, s: System<K>, t: Word, child: Word): Option<System<K>>
  {
    if !(t in s.threads && s.threads[t].phase.CloneArmed? && child !in s.threads) then None else
      var v := s.threads[t].phase.v;
      if !Works(s, t, v) then None else
        var request := RequestOf(ParamsOf(s, t, v));
        var (m, _, k) := env.clone(t, request, child, UserOf(s, t), s.kernel);
        var a := s.threads[t].space;
        Some(WithUser(s, t, m).(
             threads := s.threads[t := Thread(a, Storing(v, child))]
                                 [child := Thread(a, Top(s.threads[t].phase.child))],
             kernel := k, log := s.log + [N.Cloned(t, child, request)]))
  }

  /** The host clone of the other two strategies: the child has a copy of everything, dune included. */
  function DoForkProcess<K>(env: N.Env<K>, s: System<K>, t: Word, child: Word, space: nat): Option<System<K>>
  {
    if !Cloning(s, t) || StrategyOf(s, t) == SameVm || child in s.threads || space in s.spaces then None else
      var v, info := s.threads[t].phase.v, s.threads[t].phase.info;
      var request := RequestOf(ParamsOf(s, t, v));
      var (pm, cm, k) := env.clone(t, request, child, UserOf(s, t), s.kernel);
      var a := s.threads[t].space;
      Some(s.(
           threads := s.threads[t := Thread(a, Storing(v, child))]
                               [child := Thread(space, NeedsVm(s.vcpus[v].block, info))],
           spaces := s.spaces[a := Space(pm, BlocksOf(s, t))][space := Space(cm, BlocksOf(s, t))],
           kernel := k, log := s.log + [N.Cloned(t, child, request)]))
  }

  /** The host refuses the clone of the strategy that forwards it as it is, `arch_do_syscall(cpu, true)`.
      In the other two strategies the guest would not see the native result of a refused clone. */
  function DoForkFails<K>(s: System<K>, t: Word, errno: Word): Option<System<K>>
  {
    if !Cloning(s, t) || StrategyOf(s, t) != DiffVmOldStack || !N.IsErrno(errno) then None else
      var v := s.threads[t].phase.v;
      Some(WithPhase(s, t, Storing(v, TWO_64 - errno))
           .(log := s.log + [N.Refused(t, RequestOf(ParamsOf(s, t, v)), errno)]))
  }

  /** `dup_vm` in the child: a VM of its own, and a first core initialised from the copied block. */
  function DoBuildVm<K>(s: System<K>, t: Word, vm: nat, block: Word): Option<System<K>>
  {
    if !(t in s.threads && s.threads[t].phase.NeedsVm? && s.threads[t].space in s.spaces) then None else
      var th, blocks := s.threads[t], BlocksOf(s, t);
      var v := VcpuId(vm, 0);
      if vm in s.vms || v in s.vcpus || th.phase.info.ebase == 0 || !Allocatable(blocks, block)
         || !HasBlock(blocks, th.phase.parentBlock)
      then None else
        var cpu := InitChild(NewCpu(), th.phase.info, Params(blocks, th.phase.parentBlock), block);
        Some(WithPhase(WithBlocks(s, t, blocks + ZeroBlock(block)), t, Top(v)).(
             vms := s.vms[vm := Vm(th.space, [true] + seq(KVM_MAX_VCPUS - 1, i => false))],
             vcpus := s.vcpus[v := Vcpu(block, cpu)]))
  }

  function Apply<K>(env: N.Env<K>, s: System<K>, l: Label): Option<System<K>>
  {
    match l
    case GuestOp(t, f, d) => DoGuestOp(env, s, t, f, d)
    case TlbMiss(t, va) => DoTlbMiss(s, t, va)
    case HandlerInstr(t, keep) => DoHandlerInstr(s, t, keep)
    case TakeHypercall(t) => DoTakeHypercall(s, t)
    case Interrupted(t) => DoInterrupted(s, t)
    case Evicted(v, keep) => DoEvicted(s, v, keep)
    case LoopAgain(t) => DoLoopAgain(s, t)
    case KvmRun(t) => DoKvmRun(s, t)
    case HostCall(t) => DoHostCall(env, s, t)
    case StoreResult(t) => DoStoreResult(s, t)
    case BeginClone(t) => DoBeginClone(s, t)
    case ArmChild(t, b) => DoArmChild(s, t, b)
    case CloneThread(t, c) => DoCloneThread(env, s, t, c)
    case ForkProcess(t, c, a) => DoForkProcess(env, s, t, c, a)
    case ForkFails(t, e) => DoForkFails(s, t, e)
    case BuildVm(t, vm, b) => DoBuildVm(s, t, vm, b)
    case ExitThread(t) => DoExitThread(env, s, t)
  }

  function Run<K>(env: N.Env<K>, s: System<K>, ls: seq<Label>): Option<System<K>>
    decreases |ls|
  {
    if ls == [] then Some(s) else
      match Run(env, s, ls[..|ls| - 1])
      case None => None
      case Some(m) => Apply(env, m, ls[|ls| - 1])
  }

  /** `dune_enter`: one thread, one space, one VM whose slot 0 holds the only core, about to run the
      guest from registers `g` at `pc`. */
  function Initial<K>(kernel: K, user: Mem, t: Word, g: Regs, pc: Word, block: Word, ebase: Word): System<K>
  {
    System(map[t := Thread(0, Top(VcpuId(0, 0)))],
           map[0 := Space(user, ZeroBlock(block))],
           map[0 := Vm(0, [true] + seq(KVM_MAX_VCPUS - 1, i => false))],
           map[VcpuId(0, 0) := Vcpu(block, NewCpu().(gpr := g, loc := User(pc), csr := InitCsrs(NewCpu().csr, block, ebase)))],
           kernel, [])
  }
}
