/** The converse of the simulation, step by step: whatever native step a thread can take, there is a run of
    dune that is this one step, as long as what the step needs of dune is there. */
module Completeness {
  import opened Words
  import opened Paging
  import opened LoongArch
  import opened Trampoline
  import opened Clone
  import opened Dune
  import opened Simulation
  import opened Refinement
  import opened CloneRefinement
  import opened VmRefinement
  import opened Runs
  import opened Progress
  import opened Resources
  import opened CatchUp
  import opened TreePools
  import N = Native

  /** The thread has its own core and is not in the middle of a clone. */
  predicate Ready<K>(s: System<K>, t: Word)
  {
    HasCore(s, t) && (Looping(s.threads[t].phase) || Back(s, t))
  }

  /** A silent run and one more step, which is native. */
  lemma OneMore<K>(env: N.Env<K>, s: System<K>, ms: seq<Label>, mid: System<K>, l: Label, s': System<K>, n: N.System<K>)
    returns (n': N.System<K>)
    requires Silently(env, s, ms, mid) && Sim(mid, n) && Apply(env, mid, l) == Some(s') && Answer(mid, l).Some?
    ensures Run(env, s, ms + [l]) == Some(s') && NativeRun(env, s, ms + [l]) == [Answer(mid, l).value]
    ensures N.Step(env, n, Answer(mid, l).value) == Some(n') && Sim(s', n')
  {
    hide Sim, Apply, Answer, N.Step, Run, NativeRun;
    n' := StepSim(env, mid, l, s', n);
    StepRuns(env, mid, l, s');
    RunJoins(env, s, ms, mid, [l]);
  }

  // ---------- Where a thread may be ----------

  /** A thread whose native counterpart is in a call has its core; it may be in the middle of a clone only
      if that is the call. */
  lemma CallingThread<K>(s: System<K>, n: N.System<K>, t: Word)
    requires Sim(s, n) && N.Calls(n, t)
    ensures HasCore(s, t) && s.threads[t].space in s.spaces
    ensures Ready(s, t)
            || ((s.threads[t].phase.CloneReady? || s.threads[t].phase.CloneArmed?)
                && n.threads[t].gpr[A7] == N.SYS_CLONE)
  {
    hide Sim, StandsFor, Serves, HasBlock, Armed, CloneTypeOf;
    SimAgrees(s, n);
    FactsOf(s, n, t);
    if s.threads[t].phase.CloneReady? || s.threads[t].phase.CloneArmed? {
      CloneFacts(s, n, t);
    }
    hide Params;
  }

  /** Any other thread is on its way in its host loop, or still builds its VM. */
  lemma RunningThread<K>(s: System<K>, n: N.System<K>, t: Word)
    requires Sim(s, n) && t in n.threads && !n.threads[t].calling
    ensures t in s.threads && s.threads[t].space in s.spaces
    ensures s.threads[t].phase.NeedsVm? || (Ready(s, t) && Looping(s.threads[t].phase))
  {
    hide Sim, StandsFor, Serves, HasBlock, Armed, CloneTypeOf, Params;
    SimAgrees(s, n);
    FactsOf(s, n, t);
  }

  // ---------- Calls and exits ----------

  /** A thread whose native counterpart is in a call can come back from its hypercall unnoticed; there the
      host loop serves the call, unless its number is one of the two it refuses. */
  lemma CallIsServed<K>(env: N.Env<K>, s: System<K>, n: N.System<K>, t: Word)
    returns (ls: seq<Label>, s': System<K>)
    requires Sim(s, n) && Ready(s, t) && N.Calls(n, t)
    ensures Silently(env, s, ls, s') && Sim(s', n) && SameResources(s, s') && Back(s', t)
    ensures var nr := n.threads[t].gpr[A7];
            && (Enabled(env, s', ExitThread(t)) <==> nr == N.SYS_EXIT)
            && (Enabled(env, s', BeginClone(t)) <==> nr == N.SYS_CLONE)
            && (Enabled(env, s', HostCall(t)) <==> nr !in {N.SYS_EXIT, N.SYS_CLONE, SYS_KEXEC_LOAD, SYS_FORK})
  {
    hide Sim, Run, NativeRun, Looping, Enabled, Silently, SameResources;
    ls, s' := CatchesUp(env, s, n, t);
    CaughtUp(s', n, t);
    HypercallIsServed(env, s', n, t);
  }

  /** A call that the host loop forwards is completed: the run is this one native call and ends with the
      thread back in user mode. */
  lemma CallCompletes<K>(env: N.Env<K>, s: System<K>, n: N.System<K>, t: Word)
    returns (ls: seq<Label>, s': System<K>, t0: Word, n': N.System<K>)
    requires Sim(s, n) && N.Calls(n, t)
    requires n.threads[t].gpr[A7] !in {N.SYS_EXIT, N.SYS_CLONE, SYS_KEXEC_LOAD, SYS_FORK}
    ensures Run(env, s, ls) == Some(s') && NativeRun(env, s, ls) == [N.Call(t, t0)]
    ensures N.Step(env, n, N.Call(t, t0)) == Some(n') && Sim(s', n') && InUser(s', t)
  {
    hide Sim, Run, NativeRun, Looping, Apply, N.Step, SameResources;
    CallingThread(s, n, t);
    var ms, mid := CallIsServed(env, s, n, t);
    var s1 := Apply(env, mid, HostCall(t)).value;
    HostCallStores(env, mid, s1, t);
    t0 := CoreOf(mid, t).csr.epc;
    n' := OneMore(env, s, ms, mid, HostCall(t), s1, n);
    NativeCallEnds(env, n, t, t0, n');
    var rest;
    rest, s' := CatchesUp(env, s1, n', t);
    CaughtUp(s', n', t);
    RunJoins(env, s, ms + [HostCall(t)], s1, rest);
    ls := ms + [HostCall(t)] + rest;
  }

  lemma HostCallStores<K>(env: N.Env<K>, s: System<K>, s': System<K>, t: Word)
    requires Apply(env, s, HostCall(t)) == Some(s')
    ensures HasCore(s, t) && HasCore(s', t) && Looping(s'.threads[t].phase)
  {
    hide HasBlock, Params;
  }

  lemma NativeCallEnds<K>(env: N.Env<K>, n: N.System<K>, t: Word, t0: Word, n': N.System<K>)
    requires N.Step(env, n, N.Call(t, t0)) == Some(n')
    ensures t in n'.threads && !n'.threads[t].calling
  {
  }

  lemma ExitCompletes<K>(env: N.Env<K>, s: System<K>, n: N.System<K>, t: Word)
    returns (ls: seq<Label>, s': System<K>, n': N.System<K>)
    requires Sim(s, n) && N.Calls(n, t) && n.threads[t].gpr[A7] == N.SYS_EXIT
    ensures Run(env, s, ls) == Some(s') && NativeRun(env, s, ls) == [N.Exit(t)]
    ensures N.Step(env, n, N.Exit(t)) == Some(n') && Sim(s', n')
  {
    hide Sim, Run, NativeRun, Looping, Apply, N.Step, SameResources;
    CallingThread(s, n, t);
    var ms, mid := CallIsServed(env, s, n, t);
    s' := Apply(env, mid, ExitThread(t)).value;
    n' := OneMore(env, s, ms, mid, ExitThread(t), s', n);
    ls := ms + [ExitThread(t)];
  }

  // ---------- Clones ----------

  /** The parent gets, unnoticed and without using anything up, to where its registers are fetched. */
  lemma ReachesClone<K>(env: N.Env<K>, s: System<K>, n: N.System<K>, t: Word)
    returns (ls: seq<Label>, s': System<K>)
    requires Sim(s, n) && N.Calls(n, t) && n.threads[t].gpr[A7] == N.SYS_CLONE
    requires t in s.threads && !s.threads[t].phase.CloneArmed?
    ensures Silently(env, s, ls, s') && Sim(s', n) && SameResources(s, s')
    ensures t in s'.threads && s'.threads[t].phase.CloneReady?
  {
    hide Sim, Run, NativeRun, Looping, Apply, SameResources, Silently;
    CallingThread(s, n, t);
    if s.threads[t].phase.CloneReady? {
      ls, s' := [], s;
      SilentlyNothing(env, s);
      SameAtAll(s);
    } else {
      var ms, mid := CallIsServed(env, s, n, t);
      s' := Apply(env, mid, BeginClone(t)).value;
      BeginsClone(env, mid, s', t);
      BeginCloneSim(env, mid, s', n, t);
      PlainKeepsResources(env, mid, BeginClone(t), s');
      SameTwice(s, mid, s');
      SilentStep(env, mid, BeginClone(t), s');
      SilentlyJoins(env, s, ms, mid, [BeginClone(t)], s');
      ls := ms + [BeginClone(t)];
    }
  }

  lemma SilentlyNothing<K>(env: N.Env<K>, s: System<K>)
    ensures Silently(env, s, [], s)
  {
  }

  lemma SilentStep<K>(env: N.Env<K>, s: System<K>, l: Label, s': System<K>)
    requires Apply(env, s, l) == Some(s') && Answer(s, l) == None
    ensures Silently(env, s, [l], s')
  {
    hide Apply, Answer;
    StepRuns(env, s, l, s');
  }

  lemma BeginsClone<K>(env: N.Env<K>, s: System<K>, s': System<K>, t: Word)
    requires Apply(env, s, BeginClone(t)) == Some(s')
    ensures DoBeginClone(s, t) == Some(s') && t in s'.threads && s'.threads[t].phase.CloneReady?
  {
    hide HasBlock, Params;
  }

  /** Which strategy the native arguments ask for. */
  lemma StrategyIsNative<K>(s: System<K>, n: N.System<K>, t: Word)
    requires Sim(s, n) && t in s.threads && s.threads[t].phase.CloneReady?
    ensures Cloning(s, t) && t in n.threads
    ensures var g := n.threads[t].gpr;
            StrategyOf(s, t) == if Bit(g[4], N.CLONE_VM_BIT) then SameVm else if g[5] != 0 then DiffVmNewStack else DiffVmOldStack
  {
    hide Sim, Params, HasBlock;
    CloneFacts(s, n, t);
  }

  /** A clone without CLONE_VM is completed by a run that is this one native clone. */
  lemma ForkCompletes<K>(env: N.Env<K>, s: System<K>, n: N.System<K>, t: Word, child: Word, space: nat)
    returns (ls: seq<Label>, s': System<K>, l: N.Label, n': N.System<K>)
    requires Sim(s, n) && N.Calls(n, t) && n.threads[t].gpr[A7] == N.SYS_CLONE
    requires !Bit(n.threads[t].gpr[4], N.CLONE_VM_BIT) && child !in n.threads && space !in n.mems
    ensures Run(env, s, ls) == Some(s') && NativeRun(env, s, ls) == [l]
    ensures l.Clone? && l.t == t && l.child == child && l.space == space
    ensures N.Step(env, n, l) == Some(n') && Sim(s', n')
  {
    hide Sim, Run, NativeRun, Looping, Apply, SameResources, Silently, CloneTypeOf, Bit, N.Step;
    CallingThread(s, n, t);
    if s.threads[t].phase.CloneArmed? { ArmedIsShared(s, n, t); }
    var ms, mid := ReachesClone(env, s, n, t);
    StrategyIsNative(mid, n, t);
    SimAgrees(mid, n);
    CloneGoesOn(env, mid, n, t, child, space);
    var step := ForkProcess(t, child, space);
    s' := Apply(env, mid, step).value;
    CoreWhileCloning(mid, t);
    n' := OneMore(env, s, ms, mid, step, s', n);
    ls, l := ms + [step], Answer(mid, step).value;
  }

  lemma CoreWhileCloning<K>(s: System<K>, t: Word)
    requires Cloning(s, t)
    ensures HasCore(s, t)
  {
    hide HasBlock;
  }

  lemma ArmedIsShared<K>(s: System<K>, n: N.System<K>, t: Word)
    requires Sim(s, n) && t in s.threads && s.threads[t].phase.CloneArmed?
    ensures t in n.threads && Bit(n.threads[t].gpr[4], N.CLONE_VM_BIT)
  {
    hide Sim, HasBlock, Armed, Bit, ChildRegs;
    CloneFacts(s, n, t);
    ArmedFacts(s, n, t);
    var v := s.threads[t].phase.v;
    RequestIsNative(CpuOf(s, v), ParamsOf(s, t, v), n.threads[t], s.threads[t].phase.info, 0, 0);
  }

  /** A clone with CLONE_VM is completed if a core is available, or has been armed already. */
  lemma SharedCloneCompletes<K>(env: N.Env<K>, s: System<K>, n: N.System<K>, t: Word, child: Word)
    returns (ls: seq<Label>, s': System<K>, l: N.Label, n': N.System<K>)
    requires Sim(s, n) && N.Calls(n, t) && n.threads[t].gpr[A7] == N.SYS_CLONE
    requires Bit(n.threads[t].gpr[4], N.CLONE_VM_BIT) && child !in n.threads
    requires t in s.threads && (s.threads[t].phase.CloneArmed? || CoreAvailable(s, t))
    ensures Run(env, s, ls) == Some(s') && NativeRun(env, s, ls) == [l]
    ensures l.Clone? && l.t == t && l.child == child && l.space == n.threads[t].space
    ensures N.Step(env, n, l) == Some(n') && Sim(s', n')
  {
    hide Sim, Run, NativeRun, Looping, Apply, SameResources, Silently, CloneTypeOf, Bit, N.Step, CoreAvailable;
    CallingThread(s, n, t);
    var ms, mid := ReachesArmed(env, s, n, t);
    SimAgrees(mid, n);
    FactsOf(mid, n, t);
    FreshSpace(mid.spaces.Keys);
    var space: nat :| space !in mid.spaces.Keys;
    CloneGoesOn(env, mid, n, t, child, space);
    var step := CloneThread(t, child);
    s' := Apply(env, mid, step).value;
    ArmedHasCore(mid, n, t);
    n' := OneMore(env, s, ms, mid, step, s', n);
    ls, l := ms + [step], Answer(mid, step).value;
  }

  lemma ArmedHasCore<K>(s: System<K>, n: N.System<K>, t: Word)
    requires Sim(s, n) && t in s.threads && s.threads[t].phase.CloneArmed?
    ensures HasCore(s, t)
  {
    hide Sim, HasBlock;
    FactsOf(s, n, t);
  }

  /** With a core available, the parent gets unnoticed to where the child's core is armed. */
  lemma ReachesArmed<K>(env: N.Env<K>, s: System<K>, n: N.System<K>, t: Word)
    returns (ls: seq<Label>, s': System<K>)
    requires Sim(s, n) && N.Calls(n, t) && n.threads[t].gpr[A7] == N.SYS_CLONE
    requires Bit(n.threads[t].gpr[4], N.CLONE_VM_BIT)
    requires t in s.threads && (s.threads[t].phase.CloneArmed? || CoreAvailable(s, t))
    ensures Silently(env, s, ls, s') && Sim(s', n) && t in s'.threads && s'.threads[t].phase.CloneArmed?
  {
    hide Sim, Run, NativeRun, Looping, Apply, SameResources, Silently, CloneTypeOf, Bit;
    CallingThread(s, n, t);
    if s.threads[t].phase.CloneArmed? {
      ls, s' := [], s;
      SilentlyNothing(env, s);
    } else {
      var ms, mid := ReachesClone(env, s, n, t);
      StrategyIsNative(mid, n, t);
      SameCoreAvailable(s, mid, t);
      var block := ArmChildEnabled(env, mid, n, t);
      s' := Apply(env, mid, ArmChild(t, block)).value;
      AppliesArm(env, mid, t, block);
      ArmChildTakes(mid, s', t, block, mid.threads[t].phase.v.vm);
      ArmChildSim(mid, s', n, t, block);
      SilentStep(env, mid, ArmChild(t, block), s');
      SilentlyJoins(env, s, ms, mid, [ArmChild(t, block)], s');
      ls := ms + [ArmChild(t, block)];
    }
  }

  lemma AppliesArm<K>(env: N.Env<K>, s: System<K>, t: Word, block: Word)
    ensures Apply(env, s, ArmChild(t, block)) == DoArmChild(s, t, block)
  {
    hide DoArmChild;
  }

  lemma ArmChildEnabled<K>(env: N.Env<K>, s: System<K>, n: N.System<K>, t: Word)
    returns (block: Word)
    requires Sim(s, n) && Cloning(s, t) && StrategyOf(s, t) == SameVm && CoreAvailable(s, t)
    ensures Enabled(env, s, ArmChild(t, block)) && s.threads[t].phase.v.vm in s.vms
  {
    hide Sim, Allocatable, HasBlock, Params, CloneTypeOf, Enabled;
    block := 0;
    if BlockAvailable(BlocksOf(s, t)) {
      block :| Allocatable(BlocksOf(s, t), block);
    }
    SlotCount(s, n, s.threads[t].phase.v.vm);
    ArmChildGoesOn(env, s, n, t, block);
  }

  /** A clone that the kernel refuses is matched where its result reaches the guest as it is. */
  lemma RefusalCompletes<K>(env: N.Env<K>, s: System<K>, n: N.System<K>, t: Word, errno: Word)
    returns (ls: seq<Label>, s': System<K>, t0: Word, n': N.System<K>)
    requires Sim(s, n) && N.Calls(n, t) && n.threads[t].gpr[A7] == N.SYS_CLONE && N.IsErrno(errno)
    requires !Bit(n.threads[t].gpr[4], N.CLONE_VM_BIT) && n.threads[t].gpr[5] == 0
    ensures Run(env, s, ls) == Some(s') && NativeRun(env, s, ls) == [N.CloneFails(t, errno, t0)]
    ensures N.Step(env, n, N.CloneFails(t, errno, t0)) == Some(n') && Sim(s', n')
  {
    hide Sim, Run, NativeRun, Looping, SameResources, Silently, CloneTypeOf, Bit, N.Step, HasBlock, Params;
    CallingThread(s, n, t);
    if s.threads[t].phase.CloneArmed? { ArmedIsShared(s, n, t); }
    var ms, mid := ReachesClone(env, s, n, t);
    StrategyIsNative(mid, n, t);
    var step := ForkFails(t, errno);
    s' := Apply(env, mid, step).value;
    CoreWhileCloning(mid, t);
    t0 := CoreOf(mid, t).csr.epc;
    n' := OneMore(env, s, ms, mid, step, s', n);
    ls := ms + [step];
  }

  // ---------- A forked child ----------

  /** With memory for a block, a forked child gets unnoticed to its first guest instruction. */
  lemma NewbornStarts<K>(env: N.Env<K>, s: System<K>, n: N.System<K>, t: Word)
    returns (ls: seq<Label>, s': System<K>)
    requires Sim(s, n) && t in s.threads && s.threads[t].phase.NeedsVm? && s.threads[t].space in s.spaces
    requires BlockAvailable(BlocksOf(s, t))
    ensures Silently(env, s, ls, s') && Sim(s', n) && InUser(s', t)
  {
    hide Sim, Run, NativeRun, Apply, Silently, Allocatable, SameResources, HasBlock;
    var block: Word :| Allocatable(BlocksOf(s, t), block);
    FreshSpace(s.vms.Keys);
    var vm: nat :| vm !in s.vms.Keys;
    NoCoreWithoutVm(s, n, vm);
    BuildVmGoesOn(env, s, n, t, vm, block);
    var mid := Apply(env, s, BuildVm(t, vm, block)).value;
    Builds(env, s, mid, t, vm, block);
    BuildVmSim(s, mid, n, t, vm, block);
    NewbornFacts(s, n, t);
    SilentStep(env, s, BuildVm(t, vm, block), mid);
    var rest;
    rest, s' := CatchesUp(env, mid, n, t);
    CaughtUp(s', n, t);
    SilentlyJoins(env, s, [BuildVm(t, vm, block)], mid, rest, s');
    ls := [BuildVm(t, vm, block)] + rest;
  }

  lemma NoCoreWithoutVm<K>(s: System<K>, n: N.System<K>, vm: nat)
    requires Sim(s, n) && vm !in s.vms
    ensures VcpuId(vm, 0) !in s.vcpus
  {
    SimParts(s, n);
    assert forall w | w in s.vcpus :: VcpuOk(s, w) && w.vm in s.vms;
    hide Sim, Serves;
  }

  lemma Builds<K>(env: N.Env<K>, s: System<K>, s': System<K>, t: Word, vm: nat, block: Word)
    requires Apply(env, s, BuildVm(t, vm, block)) == Some(s')
    ensures DoBuildVm(s, t, vm, block) == Some(s') && HasCore(s', t) && s'.threads[t].phase.Top?
  {
    hide HasBlock, Params, InitChild, Allocatable, ZeroBlock;
  }

  // ---------- Guest instructions ----------

  /** A guest instruction within the slot is matched, from wherever the thread is. */
  lemma OrdinaryCompletes<K>(env: N.Env<K>, s: System<K>, n: N.System<K>, n1: N.System<K>, t: Word)
    returns (ls: seq<Label>, s': System<K>)
    requires Sim(s, n) && N.Live(n, t) && N.Step(env, n, N.Ordinary(t)) == Some(n1)
    requires n.threads[t].pc < SLOT_SIZE && Within(N.OpOf(env, n, t), n.threads[t].gpr, SLOT_SIZE)
    requires t in s.threads && s.threads[t].space in s.spaces
    requires s.threads[t].phase.NeedsVm? ==> BlockAvailable(BlocksOf(s, t))
    ensures Run(env, s, ls) == Some(s') && NativeRun(env, s, ls) == [N.Ordinary(t)] && Sim(s', n1)
  {
    hide Sim, Within, N.OpOf, Run, NativeRun, Looping, Silently, SameResources, BlockAvailable;
    OrdinaryIsLive(env, n, t);
    hide N.Step;
    RunningThread(s, n, t);
    var ms, mid;
    if s.threads[t].phase.NeedsVm? {
      ms, mid := NewbornStarts(env, s, n, t);
    } else {
      ms, mid := CatchesUp(env, s, n, t);
    }
    CaughtUp(mid, n, t);
    var rest;
    rest, s' := OrdinaryIsMatched(env, mid, n, n1, t);
    SilentlyRuns(env, s, ms, mid);
    RunJoins(env, s, ms, mid, rest);
    ls := ms + rest;
  }

  lemma SilentlyRuns<K>(env: N.Env<K>, s: System<K>, ls: seq<Label>, s': System<K>)
    requires Silently(env, s, ls, s')
    ensures Run(env, s, ls) == Some(s') && NativeRun(env, s, ls) == []
  {
    hide Run, NativeRun;
  }

  lemma OrdinaryIsLive<K>(env: N.Env<K>, n: N.System<K>, t: Word)
    requires N.Step(env, n, N.Ordinary(t)).Some?
    ensures N.Live(n, t) && !n.threads[t].calling
  {
  }
}
