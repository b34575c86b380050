/** The pools of a process tree are the atomic allocator that `PoolRefinement` shows the interleaved code to
    implement: `dup_vcpu` takes, the exit of a thread gives back, `dup_vm` takes from a new pool, and nothing
    else touches a pool. */
module TreePools {
  import opened Words
  import opened LoongArch
  import opened Handlers
  import opened Trampoline
  import opened Clone
  import opened Slots
  import opened Allocator
  import opened Dune
  import opened Simulation
  import N = Native

  function PoolOf<K>(s: System<K>, vm: nat): Allocator
    requires vm in s.vms
  {
    Allocator(s.vms[vm].valid, set w | w in s.vcpus && w.vm == vm :: w.slot)
  }

  /** What a step does to the pool of VM `vm`. */
  function PoolOp<K>(s: System<K>, l: Label, vm: nat): Option<Op>
  {
    match l
    case ArmChild(t, _) =>
      if t in s.threads && s.threads[t].phase.CloneReady? && s.threads[t].phase.v.vm == vm then Some(Take) else None
    case ExitThread(t) =>
      if t in s.threads && s.threads[t].phase.Exited? && s.threads[t].phase.v.vm == vm
      then Some(Give(s.threads[t].phase.v.slot)) else None
    case _ => None
  }

  lemma ArmChildTakes<K>(s: System<K>, s': System<K>, t: Word, block: Word, vm: nat)
    requires DoArmChild(s, t, block) == Some(s') && vm in s.vms
    ensures t in s.threads && t in s'.threads && s.threads[t].phase.CloneReady? && vm in s'.vms
    ensures var v := s.threads[t].phase.v;
            && s'.threads[t].phase.CloneArmed? && v.vm in s.vms
            && s'.threads[t].phase.child == VcpuId(v.vm, FirstFree(s.vms[v.vm].valid))
            && (v.vm != vm ==> PoolOf(s', vm) == PoolOf(s, vm))
            && (v.vm == vm ==> Do(PoolOf(s, vm), Take) == Some(PoolOf(s', vm)))
  {
    hide HasBlock, Params, InitChild, Allocatable, ZeroBlock, CloneTypeOf;
    var v := s.threads[t].phase.v;
    var child := VcpuId(v.vm, FirstFree(s.vms[v.vm].valid));
    assert s'.vcpus.Keys == s.vcpus.Keys + {child};
    CoredWith(s, s', child, vm);
  }

  lemma CoredWith<K>(s: System<K>, s': System<K>, child: VcpuId, vm: nat)
    requires vm in s.vms && vm in s'.vms && s'.vcpus.Keys == s.vcpus.Keys + {child}
    ensures PoolOf(s', vm).cored == PoolOf(s, vm).cored + if child.vm == vm then {child.slot} else {}
  {
    var a, b := PoolOf(s, vm).cored, PoolOf(s', vm).cored;
    if child.vm == vm { assert child in s'.vcpus; }
    forall w | w in s.vcpus && w.vm == vm ensures w.slot in b { assert w in s'.vcpus; }
  }

  lemma ExitGives<K>(env: N.Env<K>, s: System<K>, s': System<K>, t: Word, vm: nat)
    requires DoExitThread(env, s, t) == Some(s') && vm in s.vms
    ensures t in s.threads && s.threads[t].phase.Exited? && vm in s'.vms
    ensures var v := s.threads[t].phase.v;
            && (v.vm != vm ==> PoolOf(s', vm) == PoolOf(s, vm))
            && (v.vm == vm ==> Do(PoolOf(s, vm), Give(v.slot)) == Some(PoolOf(s', vm)))
  {
    hide HasBlock, Params;
    assert s'.vcpus == s.vcpus;
  }

  /** A new VM's pool is one allocation away from the empty one. */
  lemma BuildVmTakes<K>(s: System<K>, s': System<K>, t: Word, vm: nat, block: Word)
    requires Inv(s) && DoBuildVm(s, t, vm, block) == Some(s')
    ensures vm !in s.vms && vm in s'.vms
    ensures Do(NoneTaken(), Take) == Some(PoolOf(s', vm))
  {
    hide HasBlock, Params, InitChild, Allocatable, ZeroBlock, Serves, ThreadOk, VcpusApart, HoldingsApart, NewbornsAlone;
    forall w | w in s.vcpus ensures w.vm != vm { assert VcpuOk(s, w); }
    FirstFreeIs(NoneTaken().valid, 0);
    assert s'.vms[vm].valid == NoneTaken().valid[0 := true];
    assert PoolOf(s', vm).cored == {0} by {
      assert VcpuId(vm, 0) in s'.vcpus;
    }
    assert NoneTaken().cored + {0} == {0};
  }

  lemma BuildVmKeeps<K>(s: System<K>, s': System<K>, t: Word, other: nat, block: Word, vm: nat)
    requires DoBuildVm(s, t, other, block) == Some(s') && vm in s.vms
    ensures vm in s'.vms && PoolOf(s', vm) == PoolOf(s, vm)
  {
    hide HasBlock, Params, InitChild, Allocatable, ZeroBlock;
    assert s'.vcpus.Keys == s.vcpus.Keys + {VcpuId(other, 0)};
    CoredWith(s, s', VcpuId(other, 0), vm);
  }

  lemma GuestKeepsPools<K>(env: N.Env<K>, s: System<K>, l: Label, s': System<K>, vm: nat)
    requires Apply(env, s, l) == Some(s') && vm in s.vms
    requires l.GuestOp? || l.TlbMiss? || l.HandlerInstr? || l.TakeHypercall? || l.Interrupted? || l.Evicted?
    ensures vm in s'.vms && PoolOf(s', vm) == PoolOf(s, vm)
  {
    hide HasBlock, Params, Exec, Current, Reach, EnterRefill, EnterStub;
    assert s'.vms == s.vms && s'.vcpus.Keys == s.vcpus.Keys;
    SameCored(s, s', vm);
  }

  lemma SameCored<K>(s: System<K>, s': System<K>, vm: nat)
    requires vm in s.vms && vm in s'.vms && s'.vcpus.Keys == s.vcpus.Keys
    ensures PoolOf(s', vm).cored == PoolOf(s, vm).cored
  {
    assert forall w :: w in s.vcpus.Keys <==> w in s'.vcpus.Keys;
  }

  lemma HostKeepsPools<K>(env: N.Env<K>, s: System<K>, l: Label, s': System<K>, vm: nat)
    requires Apply(env, s, l) == Some(s') && vm in s.vms
    requires l.LoopAgain? || l.KvmRun? || l.HostCall? || l.StoreResult? || l.BeginClone?
             || l.CloneThread? || l.ForkProcess? || l.ForkFails?
    ensures vm in s'.vms && PoolOf(s', vm) == PoolOf(s, vm)
  {
    hide HasBlock, Params, CloneTypeOf, RequestOf;
    assert s'.vms == s.vms && s'.vcpus.Keys == s.vcpus.Keys;
    SameCored(s, s', vm);
  }

  /** Every step of the machine is one operation of the atomic allocator on a pool, or leaves it alone. */
  lemma StepUsesAllocator<K>(env: N.Env<K>, s: System<K>, l: Label, s': System<K>, vm: nat)
    requires Apply(env, s, l) == Some(s') && vm in s.vms
    ensures vm in s'.vms
    ensures match PoolOp(s, l, vm)
            case None => PoolOf(s', vm) == PoolOf(s, vm)
            case Some(op) => Do(PoolOf(s, vm), op) == Some(PoolOf(s', vm))
  {
    hide Do, DoArmChild, DoExitThread, DoBuildVm, DoGuestOp, DoTlbMiss, DoHandlerInstr, DoTakeHypercall, DoInterrupted,
         DoEvicted, DoLoopAgain, DoKvmRun, DoHostCall, DoStoreResult, DoBeginClone, DoCloneThread, DoForkProcess, DoForkFails;
    if l.ArmChild? {
      ArmChildTakes(s, s', l.t, l.block, vm);
    } else if l.ExitThread? {
      ExitGives(env, s, s', l.t, vm);
    } else if l.BuildVm? {
      BuildVmKeeps(s, s', l.t, l.vm, l.block, vm);
    } else if l.GuestOp? || l.TlbMiss? || l.HandlerInstr? || l.TakeHypercall? || l.Interrupted? || l.Evicted? {
      GuestKeepsPools(env, s, l, s', vm);
    } else {
      HostKeepsPools(env, s, l, s', vm);
    }
    hide Apply;
  }
}
