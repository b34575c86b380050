/** When a thread can be stopped: at every point of the handlers, the host loop and the clones, exactly what
    the next step needs.  `Matching` says what this adds up to for native steps. */
module Progress {
  import opened Words
  import opened Paging
  import opened LoongArch
  import opened Handlers
  import opened Trampoline
  import opened Clone
  import opened Slots
  import opened Dune
  import opened Simulation
  import opened Refinement
  import opened CloneRefinement
  import opened VmRefinement
  import opened Runs
  import N = Native

  // ---------- Inside KVM_RUN ----------

  // ---------- What may happen to a core at any time ----------

  /** A signal takes a running thread out of KVM_RUN wherever its core is, and leaves the core alone. */
  lemma AnyInterrupt<K>(env: N.Env<K>, s: System<K>, n: N.System<K>, t: Word)
    requires Sim(s, n) && t in s.threads && s.threads[t].phase.Running?
    ensures Apply(env, s, Interrupted(t)) == Some(WithPhase(s, t, Exited(s.threads[t].phase.v, false)))
  {
    hide Sim, CoreOk, Mirrors, Serves;
    CoreFacts(s, n, t, s.threads[t].phase.v);
    hide HasBlock;
  }

  /** A miss at any user address reaches the refill handler from everywhere but the handler itself, with
      registers, translations and everything outside the core as they were. */
  lemma AnyMiss<K>(env: N.Env<K>, s: System<K>, n: N.System<K>, t: Word, va: Word)
    requires Sim(s, n) && t in s.threads && s.threads[t].phase.Running?
    ensures HasCore(s, t)
    ensures var s', c := DoTlbMiss(s, t, va), CoreOf(s, t);
            && s' == Apply(env, s, TlbMiss(t, va)) && (s'.Some? <==> IsUser(va) && !c.loc.Refill?)
            && (s'.Some? ==>
                  HasCore(s'.value, t) &&
                  var d := CoreOf(s'.value, t);
                  && s'.value == WithCpu(s, s.threads[t].phase.v, d)
                  && d.loc == Refill(0) && d.gpr == c.gpr && d.tlb == c.tlb && d.csr.tlbrepc == c.loc)
  {
    hide Sim, CoreOk, Mirrors, Serves;
    CoreFacts(s, n, t, s.threads[t].phase.v);
    hide HasBlock;
  }

  /** Any core may lose any part of its translations. */
  lemma AnyPartIsLost<K>(env: N.Env<K>, s: System<K>, v: VcpuId, left: set<TlbEntry>)
    requires v in s.vcpus && left <= CpuOf(s, v).tlb
    ensures Apply(env, s, Evicted(v, left)) == Some(WithCpu(s, v, CpuOf(s, v).(tlb := left)))
  {
    assert CpuOf(s, v).tlb * left == left;
  }

  predicate InHandler<K>(s: System<K>, t: Word)
  {
    t in s.threads && s.threads[t].phase.Running? && HasCore(s, t) && !CoreOf(s, t).loc.User?
  }

  lemma StubLoc(c: Cpu, mem: Mem, keep: set<TlbEntry>, d: Cpu, mem': Mem)
    requires c.loc.Stub? && c.loc.k < STUB_LENGTH && Exec(StubCode(c.loc.k), c, mem, keep) == Done(d, mem')
    ensures d.loc == if c.loc.k == 15 then User(c.csr.epc) else Stub(c.loc.k + 1)
  {
    hide WindowTarget, Words.Xor;
  }

  /** The next handler instruction always executes; only the hypercall leaves the guest instead. */
  lemma HandlerGoesOn<K>(env: N.Env<K>, s: System<K>, n: N.System<K>, t: Word, keep: set<TlbEntry>)
    returns (s': System<K>)
    requires Sim(s, n) && InHandler(s, t) && CoreOf(s, t).loc != Stub(10)
    ensures Apply(env, s, HandlerInstr(t, keep)) == Some(s') && Sim(s', n)
    ensures s'.threads == s.threads && HasCore(s', t) && s.threads[t].space in s.spaces
    ensures var c, d := CoreOf(s, t), CoreOf(s', t);
            match c.loc
            case User(_) => false
            case Stub(k) => d.loc == if k == 15 then User(c.csr.epc) else Stub(k + 1)
            case Refill(j) => j < REFILL_LENGTH && RefillAdvances(c, d, BlocksOf(s, t), keep)
  {
    hide Sim, CoreOk, StandsFor, Exec, RefillAdvances, RefillCode, StubCode, Current;
    var v := s.threads[t].phase.v;
    CoreFacts(s, n, t, v);
    var c, m := CpuOf(s, v), BlocksOf(s, t);
    if c.loc.Refill? {
      var d := RefillInstr(c, m, keep);
      RefillCurrent(c);
      RefillExecutes(c, d, m, keep);
      s' := WithBlocks(WithCpu(s, v, d), t, m);
    } else {
      StubCurrent(c, m, keep);
      var d, m' := StubInstr(c, s.vcpus[v].block, m, keep, n.threads[t]);
      StubLoc(c, m, keep, d, m');
      s' := WithBlocks(WithCpu(s, v, d), t, m');
    }
    hide Works, Mirrors, Serves, OnlyBlockChanges;
    assert DoHandlerInstr(s, t, keep) == Some(s');
    HandlerInstrSim(s, s', n, t, keep);
  }

  lemma RefillExecutes(c: Cpu, d: Cpu, mem: Mem, keep: set<TlbEntry>)
    requires c.loc.Refill? && c.loc.j < REFILL_LENGTH && RefillAdvances(c, d, mem, keep)
    ensures Exec(RefillCode(c.loc.j), c, mem, keep) == Done(d, mem)
  {
  }

  // ---------- Nothing but the listed cases stops a thread ----------

  /** `l` can be taken. */
  predicate Enabled<K>(env: N.Env<K>, s: System<K>, l: Label)
  {
    Apply(env, s, l).Some?
  }

  /** At the top of the loop, inside KVM_RUN and behind the host call there is always a next step. */
  lemma LoopGoesOn<K>(env: N.Env<K>, s: System<K>, n: N.System<K>, t: Word)
    requires Sim(s, n) && t in s.threads
    ensures match s.threads[t].phase
            case Top(_) => Enabled(env, s, KvmRun(t))
            case Running(_) => InHandler(s, t) && CoreOf(s, t).loc == Stub(10) ==> Enabled(env, s, Dune.TakeHypercall(t))
            case Exited(_, false) => Enabled(env, s, LoopAgain(t))
            case Storing(_, _) => Enabled(env, s, StoreResult(t))
            case _ => true
  {
    hide Sim, StandsFor, Serves, HasBlock, Answered, Asking, Params, Exec, Resume;
    if HasCore(s, t) {
      CoreFacts(s, n, t, s.threads[t].phase.v);
    } else {
      FactsOf(s, n, t);
    }
  }

  /** A thread back from a hypercall: its number, and what its core may be used for. */
  lemma AskedFacts<K>(s: System<K>, n: N.System<K>, t: Word)
    requires Sim(s, n) && t in s.threads && s.threads[t].phase.Exited? && s.threads[t].phase.hypercall
    ensures Asked(s, t) && t in n.threads && n.threads[t].calling && Number(s, t) == n.threads[t].gpr[A7]
    ensures var v := s.threads[t].phase.v;
            KvmAllows(s, t, v.vm) && v.slot < |s.vms[v.vm].valid| && s.vms[v.vm].valid[v.slot]
  {
    hide Sim, Serves, HasBlock, Inv, ThreadOk, Asking, Params;
    var v := s.threads[t].phase.v;
    CoreFacts(s, n, t, v);
    SimParts(s, n);
    assert v in Holds(s.threads[t].phase);
    InvThread(s, t);
    AskingIsAnswered(CpuOf(s, v), ParamsOf(s, t, v), 0, n.threads[t]);
  }

  /** Back from a hypercall, the host loop serves every number but the two it refuses. */
  lemma HypercallIsServed<K>(env: N.Env<K>, s: System<K>, n: N.System<K>, t: Word)
    requires Sim(s, n) && t in s.threads && s.threads[t].phase.Exited? && s.threads[t].phase.hypercall
    ensures t in n.threads && n.threads[t].calling
    ensures var nr := n.threads[t].gpr[A7];
            && (Enabled(env, s, ExitThread(t)) <==> nr == N.SYS_EXIT)
            && (Enabled(env, s, BeginClone(t)) <==> nr == N.SYS_CLONE)
            && (Enabled(env, s, HostCall(t))
                <==> nr !in {N.SYS_EXIT, N.SYS_CLONE, SYS_KEXEC_LOAD, SYS_FORK})
  {
    hide Sim, Params, HasBlock;
    AskedFacts(s, n, t);
  }

  /** `dup_vcpu` fails only when all slots are taken or there is no block for a new core. */
  lemma ArmChildGoesOn<K>(env: N.Env<K>, s: System<K>, n: N.System<K>, t: Word, block: Word)
    requires Sim(s, n) && t in s.threads && s.threads[t].phase.CloneReady?
    ensures Cloning(s, t)
    ensures StrategyOf(s, t) == SameVm ==>
              var vm := s.threads[t].phase.v.vm;
              var i := FirstFree(s.vms[vm].valid);
              (Enabled(env, s, ArmChild(t, block))
               <==> i < KVM_MAX_VCPUS && (VcpuId(vm, i) in s.vcpus || Allocatable(BlocksOf(s, t), block)))
  {
    hide Sim, Params, HasBlock, Asking, InitChild, Allocatable, CloneTypeOf, ZeroBlock, Serves;
    var v := s.threads[t].phase.v;
    CoreFacts(s, n, t, v);
    CloneFacts(s, n, t);
    SlotCount(s, n, v.vm);
  }

  lemma SlotCount<K>(s: System<K>, n: N.System<K>, vm: nat)
    requires Sim(s, n) && vm in s.vms
    ensures |s.vms[vm].valid| == KVM_MAX_VCPUS
  {
  }

  /** The host clones and `dup_vm` need nothing but fresh names and memory for a block. */
  lemma CloneGoesOn<K>(env: N.Env<K>, s: System<K>, n: N.System<K>, t: Word, child: Word, space: nat)
    requires Sim(s, n) && t in s.threads && child !in s.threads && space !in s.spaces
    ensures s.threads[t].phase.CloneArmed? ==> Enabled(env, s, CloneThread(t, child))
    ensures s.threads[t].phase.CloneReady? ==> Cloning(s, t)
    ensures s.threads[t].phase.CloneReady? && StrategyOf(s, t) != SameVm ==> Enabled(env, s, ForkProcess(t, child, space))
  {
    hide Sim, Params, HasBlock, Asking, CloneTypeOf, RequestOf, Serves, Armed;
    if HasCore(s, t) {
      CoreFacts(s, n, t, s.threads[t].phase.v);
    } else {
      FactsOf(s, n, t);
    }
  }

  lemma BuildVmGoesOn<K>(env: N.Env<K>, s: System<K>, n: N.System<K>, t: Word, vm: nat, block: Word)
    requires Sim(s, n) && t in s.threads && s.threads[t].phase.NeedsVm? && vm !in s.vms && VcpuId(vm, 0) !in s.vcpus
    ensures s.threads[t].space in s.spaces
    ensures Enabled(env, s, BuildVm(t, vm, block)) <==> Allocatable(BlocksOf(s, t), block)
  {
    hide Sim, HasBlock, InitChild, Allocatable, ZeroBlock;
    NewbornFacts(s, n, t);
  }
}
