/** Whole runs: from the state `dune_enter` leaves, every run of dune, under any schedule of guest
    instructions, TLB misses, evictions, signals and host steps, is a run of the native machine. */
module Runs {
  import opened Words
  import opened LoongArch
  import opened Handlers
  import opened Trampoline
  import opened Clone
  import opened Dune
  import opened Simulation
  import opened Refinement
  import opened CloneRefinement
  import opened VmRefinement
  import N = Native

  // ---------- One step ----------

  predicate HasCore<K>(s: System<K>, t: Word)
  {
    t in s.threads && !s.threads[t].phase.NeedsVm? && s.threads[t].phase.v in s.vcpus
  }

  /** The thread is in user mode, about to execute the guest's next instruction. */
  predicate InUser<K>(s: System<K>, t: Word)
  {
    HasCore(s, t) && s.threads[t].phase.Running? && CoreOf(s, t).loc.User?
  }

  /** The native step that a step of dune is, if it is one. */
  function Answer<K>(s: System<K>, l: Label): Option<N.Label>
  {
    match l
    case GuestOp(t, _, _) => Some(N.Ordinary(t))
    case HostCall(t) => if HasCore(s, t) then Some(N.Call(t, CoreOf(s, t).csr.epc)) else None
    case CloneThread(t, child) =>
      if HasCore(s, t) then
        Some(N.Clone(t, child, s.threads[t].space, CoreOf(s, t).csr.epc, CoreOf(s, t).gpr[T0]))
      else None
    case ForkProcess(t, child, space) =>
      if HasCore(s, t) then Some(N.Clone(t, child, space, CoreOf(s, t).csr.epc, CoreOf(s, t).gpr[T0])) else None
    case ForkFails(t, errno) => if HasCore(s, t) then Some(N.CloneFails(t, errno, CoreOf(s, t).csr.epc)) else None
    case ExitThread(t) => Some(N.Exit(t))
    case _ => None
  }

  /** Steps inside KVM_RUN. */
  lemma GuestStepSim<K>(env: N.Env<K>, s: System<K>, l: Label, s': System<K>, n: N.System<K>)
    returns (n': N.System<K>)
    requires Sim(s, n) && Apply(env, s, l) == Some(s')
    requires l.GuestOp? || l.TlbMiss? || l.HandlerInstr? || l.TakeHypercall? || l.Interrupted? || l.Evicted?
    ensures Follows(env, n, Answer(s, l), n') && Sim(s', n')
  {
    hide Sim, DoGuestOp, DoTlbMiss, DoHandlerInstr, DoTakeHypercall, DoInterrupted, DoEvicted;
    n' := n;
    match l {
      case GuestOp(t, f, d) => n' := GuestOpSim(env, s, s', n, t, f, d);
      case TlbMiss(t, va) => TlbMissSim(env, s, s', n, t, va);
      case HandlerInstr(t, keep) => HandlerInstrSim(s, s', n, t, keep);
      case TakeHypercall(t) => TakeHypercallSim(env, s, s', n, t);
      case Interrupted(t) => InterruptedSim(env, s, s', n, t);
      case Evicted(v, keep) => EvictedSim(s, s', n, v, keep);
    }
  }

  /** Steps of the host loop. */
  lemma HostStepSim<K>(env: N.Env<K>, s: System<K>, l: Label, s': System<K>, n: N.System<K>)
    returns (n': N.System<K>)
    requires Sim(s, n) && Apply(env, s, l) == Some(s')
    requires l.LoopAgain? || l.KvmRun? || l.HostCall? || l.StoreResult? || l.ExitThread?
    ensures Follows(env, n, Answer(s, l), n') && Sim(s', n')
  {
    hide Sim, DoLoopAgain, DoKvmRun, DoHostCall, DoStoreResult, DoExitThread;
    n' := n;
    match l {
      case LoopAgain(t) => LoopAgainSim(env, s, s', n, t);
      case KvmRun(t) => KvmRunSim(env, s, s', n, t);
      case HostCall(t) =>
        var step;
        HostCallHasCore(env, s, s', t);
        step, n' := HostCallSim(env, s, s', n, t);
      case StoreResult(t) => StoreResultSim(s, s', n, t);
      case ExitThread(t) => n' := ExitThreadSim(env, s, s', n, t);
    }
  }

  lemma HostCallHasCore<K>(env: N.Env<K>, s: System<K>, s': System<K>, t: Word)
    requires DoHostCall(env, s, t) == Some(s')
    ensures HasCore(s, t)
  {
  }

  lemma CloneHasCore<K>(env: N.Env<K>, s: System<K>, s': System<K>, t: Word, child: Word, space: nat)
    requires DoCloneThread(env, s, t, child) == Some(s') || DoForkProcess(env, s, t, child, space) == Some(s')
    ensures HasCore(s, t)
  {
    hide RequestOf, ParamsOf, CloneTypeOf;
  }

  lemma ForkFailsHasCore<K>(s: System<K>, s': System<K>, t: Word, errno: Word)
    requires DoForkFails(s, t, errno) == Some(s')
    ensures HasCore(s, t)
  {
    hide RequestOf, ParamsOf, CloneTypeOf;
  }

  /** Steps of the three clone strategies. */
  lemma CloneStepSim<K>(env: N.Env<K>, s: System<K>, l: Label, s': System<K>, n: N.System<K>)
    returns (n': N.System<K>)
    requires Sim(s, n) && Apply(env, s, l) == Some(s')
    requires l.BeginClone? || l.ArmChild? || l.CloneThread? || l.ForkProcess? || l.ForkFails? || l.BuildVm?
    ensures Follows(env, n, Answer(s, l), n') && Sim(s', n')
  {
    hide Sim, DoBeginClone, DoArmChild, DoCloneThread, DoForkProcess, DoForkFails, DoBuildVm;
    n' := n;
    match l {
      case BeginClone(t) => BeginCloneSim(env, s, s', n, t);
      case ArmChild(t, block) => ArmChildSim(s, s', n, t, block);
      case CloneThread(t, child) =>
        var step;
        CloneHasCore(env, s, s', t, child, 0);
        step, n' := CloneThreadSim(env, s, s', n, t, child);
      case ForkProcess(t, child, space) =>
        var step;
        CloneHasCore(env, s, s', t, child, space);
        step, n' := ForkProcessSim(env, s, s', n, t, child, space);
      case ForkFails(t, errno) =>
        var step;
        ForkFailsHasCore(s, s', t, errno);
        step, n' := ForkFailsSim(env, s, s', n, t, errno);
      case BuildVm(t, vm, block) => BuildVmSim(s, s', n, t, vm, block);
    }
  }

  /** Every step of dune is the native step `Answer` names, or none. */
  lemma StepSim<K>(env: N.Env<K>, s: System<K>, l: Label, s': System<K>, n: N.System<K>)
    returns (n': N.System<K>)
    requires Sim(s, n) && Apply(env, s, l) == Some(s')
    ensures Follows(env, n, Answer(s, l), n') && Sim(s', n')
  {
    hide Sim, Apply, Answer, Follows;
    if l.GuestOp? || l.TlbMiss? || l.HandlerInstr? || l.TakeHypercall? || l.Interrupted? || l.Evicted? {
      n' := GuestStepSim(env, s, l, s', n);
    } else if l.LoopAgain? || l.KvmRun? || l.HostCall? || l.StoreResult? || l.ExitThread? {
      n' := HostStepSim(env, s, l, s', n);
    } else {
      n' := CloneStepSim(env, s, l, s', n);
    }
  }

  // ---------- Whole runs ----------

  /** The native steps that a run of dune is. */
  function NativeRun<K>(env: N.Env<K>, s: System<K>, ls: seq<Label>): seq<N.Label>
    decreases |ls|
  {
    if ls == [] then [] else
      var front := ls[..|ls| - 1];
      match Run(env, s, front)
      case None => []
      case Some(m) =>
        match Answer(m, ls[|ls| - 1])
        case None => NativeRun(env, s, front)
        case Some(step) => NativeRun(env, s, front) + [step]
  }

  lemma {:induction false} RunSim<K>(env: N.Env<K>, s: System<K>, ls: seq<Label>, s': System<K>, n: N.System<K>)
    returns (n': N.System<K>)
    requires Sim(s, n) && Run(env, s, ls) == Some(s')
    ensures N.Run(env, n, NativeRun(env, s, ls)) == Some(n') && Sim(s', n')
    decreases |ls|
  {
    hide Sim, Apply, Answer, N.Step;
    if ls == [] {
      n' := n;
    } else {
      var front, last := ls[..|ls| - 1], ls[|ls| - 1];
      var mid := Run(env, s, front).value;
      var m := RunSim(env, s, front, mid, n);
      n' := StepSim(env, mid, last, s', m);
      if Answer(mid, last).Some? {
        var steps := NativeRun(env, s, ls);
        assert steps[..|steps| - 1] == NativeRun(env, s, front);
      }
    }
  }

  // ---------- The beginning ----------

  /** What `dune_enter` finds: the process as it is, and where its allocations end up. */
  datatype Boot<K> = Boot(kernel: K, user: Mem, tid: Word, gpr: Regs, pc: Word, block: Word, ebase: Word)

  /** The first core's block is within the memory slot, and the vector image was mapped. */
  predicate BootOk<K>(b: Boot<K>) { BlockInSlot(b.block) && b.ebase != 0 }

  function Start<K>(b: Boot<K>): System<K>
  {
    Initial(b.kernel, b.user, b.tid, b.gpr, b.pc, b.block, b.ebase)
  }

  function NativeStart<K>(b: Boot<K>): N.System<K>
  {
    N.System(map[b.tid := N.Thread(0, b.gpr, b.pc, false)], map[0 := b.user], b.kernel, [])
  }

  lemma ZeroBlockHasBlock(b: Word)
    ensures HasBlock(ZeroBlock(b), b)
  {
    forall i | 0 <= i < PARAMETERS ensures Cell(b, i) in ZeroBlock(b) {
      ZeroBlockCell(b, i);
    }
  }

  lemma StartServes(c: Cpu, b: Word, ebase: Word)
    requires BlockInSlot(b) && c.csr == InitCsrs(NewCpu().csr, b, ebase) && c.tlb == {} && c.loc.User?
    ensures Serves(c, b, ZeroBlock(b)) && c.csr.ebase == ebase
  {
    ZeroBlockHasBlock(b);
  }

  lemma StartMatches(c: Cpu, g: Regs, pc: Word, pr: seq<Word>, th: N.Thread)
    requires |pr| == PARAMETERS && c.gpr == g && c.loc == User(pc) && !c.pending
    requires th.gpr == g && th.pc == pc && !th.calling
    ensures StandsFor(ViewOf(Resume(c)), pr, th)
  {
    ViewIsPlain(c);
  }

  lemma StartSim<K>(b: Boot<K>)
    requires BootOk(b)
    ensures Sim(Start(b), NativeStart(b))
  {
    hide Serves, StandsFor, HasBlock, BlockInSlot;
    var s, n := Start(b), NativeStart(b);
    var v := VcpuId(0, 0);
    var c := CpuOf(s, v);
    StartServes(c, b.block, b.ebase);
    ZeroBlockHasBlock(b.block);
    StartMatches(c, b.gpr, b.pc, Params(ZeroBlock(b.block), b.block), n.threads[b.tid]);
    hide ZeroBlock, InitCsrs, NewCpu, Params;
    assert Seated(s, b.tid, v);
    MatchesFrom(s, b.tid, v, b.block, c, s.spaces[0].blocks, n.threads[b.tid]);
  }

  /** The main theorem.  Whatever dune does from its start, under any schedule, the native machine does
      too: same threads, same address spaces with the same contents, same kernel state and, call by
      call, the same history of system calls, clones and exits. */
  lemma Refines<K>(env: N.Env<K>, b: Boot<K>, ls: seq<Label>, s': System<K>)
    returns (n': N.System<K>)
    requires BootOk(b) && Run(env, Start(b), ls) == Some(s')
    ensures N.Run(env, NativeStart(b), NativeRun(env, Start(b), ls)) == Some(n')
    ensures Sim(s', n')
    ensures s'.threads.Keys == n'.threads.Keys && s'.spaces.Keys == n'.mems.Keys
    ensures forall a | a in s'.spaces :: s'.spaces[a].user == n'.mems[a]
    ensures s'.kernel == n'.kernel && s'.log == n'.log
  {
    hide Inv, AllPaired;
    StartSim(b);
    n' := RunSim(env, Start(b), ls, s', NativeStart(b));
    hide Run, Start, N.Run, NativeStart;
  }

  /** Wherever a thread executes user code, it has the registers and the pc of its native counterpart,
      and the counterpart is not inside a system call. */
  lemma UserSeesNative<K>(env: N.Env<K>, b: Boot<K>, ls: seq<Label>, s': System<K>, t: Word)
    returns (n': N.System<K>)
    requires BootOk(b) && Run(env, Start(b), ls) == Some(s')
    requires InUser(s', t)
    ensures N.Run(env, NativeStart(b), NativeRun(env, Start(b), ls)) == Some(n')
    ensures t in n'.threads && !n'.threads[t].calling
    ensures CoreOf(s', t).gpr == n'.threads[t].gpr && CoreOf(s', t).loc == User(n'.threads[t].pc)
  {
    hide Sim, CoreOk, Run, Start, N.Run, NativeStart, NativeRun;
    n' := Refines(env, b, ls, s');
    CoreFacts(s', n', t, s'.threads[t].phase.v);
    ViewIsPlain(CoreOf(s', t));
  }
}
