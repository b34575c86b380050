/** What holds in every state of every process tree: KVM's address-space check, the separation of the
    parameter blocks, and the one vector image. */
module TreeSafety {
  import opened Words
  import opened Paging
  import opened LoongArch
  import opened Handlers
  import opened Trampoline
  import opened Clone
  import opened Dune
  import opened Simulation
  import opened CloneRefinement
  import opened Runs
  import N = Native

  /** The simulation invariant holds in every state a run reaches. */
  lemma InvariantHolds<K>(env: N.Env<K>, b: Boot<K>, ls: seq<Label>, s': System<K>)
    requires BootOk(b) && Run(env, Start(b), ls) == Some(s')
    ensures Inv(s')
  {
    hide Run, Start, Inv;
    var n' := Refines(env, b, ls, s');
    SimParts(s', n');
  }

  // ---------- KVM's address-space check ----------

  lemma HoldersMayCall<K>(s: System<K>, t: Word, v: VcpuId)
    requires Inv(s) && t in s.threads && v in Holds(s.threads[t].phase)
    ensures v in s.vcpus && KvmAllows(s, t, v.vm)
    ensures v.slot < |s.vms[v.vm].valid| && s.vms[v.vm].valid[v.slot]
  {
    InvThread(s, t);
    hide Inv, ThreadOk, Serves, Holds;
  }

  /** Every core a thread works on or prepares belongs to a VM that the thread's own address space
      created, so no ioctl of any thread is ever refused, however the clone strategies nest. */
  lemma KvmNeverRefuses<K>(env: N.Env<K>, b: Boot<K>, ls: seq<Label>, s': System<K>, t: Word, v: VcpuId)
    requires BootOk(b) && Run(env, Start(b), ls) == Some(s')
    requires t in s'.threads && v in Holds(s'.threads[t].phase)
    ensures v in s'.vcpus && KvmAllows(s', t, v.vm)
  {
    hide Run, Start, Inv, Holds;
    InvariantHolds(env, b, ls, s');
    HoldersMayCall(s', t, v);
  }

  // ---------- Isolation ----------

  /** Two threads never hold the same core, and in the VM of the caller the slot is claimed. */
  lemma CoresAreExclusive<K>(env: N.Env<K>, b: Boot<K>, ls: seq<Label>, s': System<K>, t: Word, u: Word, v: VcpuId)
    requires BootOk(b) && Run(env, Start(b), ls) == Some(s')
    requires t in s'.threads && v in Holds(s'.threads[t].phase)
    requires u in s'.threads && v in Holds(s'.threads[u].phase)
    ensures t == u
    ensures v.vm in s'.vms && v.slot < |s'.vms[v.vm].valid| && s'.vms[v.vm].valid[v.slot]
  {
    hide Run, Start, Inv, Holds;
    InvariantHolds(env, b, ls, s');
    HoldersMayCall(s', t, v);
    OneHolder(s', t, u, v);
  }

  lemma OneHolder<K>(s: System<K>, t: Word, u: Word, v: VcpuId)
    requires Inv(s) && t in s.threads && v in Holds(s.threads[t].phase)
    requires u in s.threads && v in Holds(s.threads[u].phase)
    ensures t == u
  {
    hide VcpuOk, ThreadOk, VcpusApart, NewbornsAlone, Holds;
  }

  /** KS5 of every core leads, cell by cell, to the core's own block; blocks of two cores in one address
      space have no cell in common.  Both hold whatever thread used the slot before. */
  lemma BlocksAreIsolated<K>(env: N.Env<K>, b: Boot<K>, ls: seq<Label>, s': System<K>, v: VcpuId, w: VcpuId, i: nat, j: nat)
    requires BootOk(b) && Run(env, Start(b), ls) == Some(s')
    requires v in s'.vcpus && w in s'.vcpus && i < PARAMETERS && j < PARAMETERS
    ensures var c := CpuOf(s', v).csr;
            WindowTarget(c.dmw1, Add(c.ks5, 8 * i)) == Some(Cell(s'.vcpus[v].block, i))
    ensures v.vm in s'.vms && w.vm in s'.vms
    ensures v != w && s'.vms[v.vm].creator == s'.vms[w.vm].creator
            ==> Cell(s'.vcpus[v].block, i) != Cell(s'.vcpus[w].block, j)
  {
    hide Run, Start, Cell, WindowTarget, WindowAddress, ThreadOk;
    InvariantHolds(env, b, ls, s');
    assert VcpuOk(s', v) && VcpuOk(s', w);
    StubTarget(s'.vcpus[v].block, i);
  }

  // ---------- The vector image ----------

  /** The image address that a phase carries from parent to child. */
  ghost predicate Carries(p: Phase, e: Word)
  {
    (p.CloneReady? || p.CloneArmed? || p.NeedsVm?) ==> p.info.ebase == e
  }

  ghost predicate OneImage<K>(s: System<K>, e: Word)
  {
    && (forall v | v in s.vcpus :: s.vcpus[v].cpu.csr.ebase == e)
    && (forall t | t in s.threads :: Carries(s.threads[t].phase, e))
  }

  lemma ExecKeepsImage(i: Instr, c: Cpu, mem: Mem, keep: set<TlbEntry>)
    ensures Exec(i, c, mem, keep).Done? ==> Exec(i, c, mem, keep).cpu.csr.ebase == c.csr.ebase
  {
    hide WindowTarget, ShiftRight, ShiftLeft, Words.Xor;
  }

  lemma MoveKeepsImage<K>(s: System<K>, s': System<K>, t: Word, v: VcpuId, e: Word)
    requires OneImage(s, e) && t in s.threads && v in s.vcpus && t in s'.threads && v in s'.vcpus
    requires s'.threads == s.threads[t := s'.threads[t]] && s'.vcpus == s.vcpus[v := s'.vcpus[v]]
    requires s'.vcpus[v].cpu.csr.ebase == e && Carries(s'.threads[t].phase, e)
    ensures OneImage(s', e)
  {
  }

  lemma HandlerKeepsImage<K>(s: System<K>, s': System<K>, t: Word, keep: set<TlbEntry>, e: Word)
    requires OneImage(s, e) && DoHandlerInstr(s, t, keep) == Some(s')
    ensures OneImage(s', e)
  {
    hide Exec, Current, HasBlock;
    var v := s.threads[t].phase.v;
    ExecKeepsImage(Current(CpuOf(s, v).loc).value, CpuOf(s, v), BlocksOf(s, t), keep);
    MoveKeepsImage(s, s', t, v, e);
  }

  lemma GuestOpKeepsImage<K>(env: N.Env<K>, s: System<K>, s': System<K>, t: Word, f: TlbEntry, d: TlbEntry, e: Word)
    requires OneImage(s, e) && DoGuestOp(env, s, t, f, d) == Some(s')
    ensures OneImage(s', e)
  {
    hide Reach, HasBlock;
    MoveKeepsImage(s, s', t, s.threads[t].phase.v, e);
  }

  lemma GuestKeepsImage<K>(env: N.Env<K>, s: System<K>, l: Label, s': System<K>, e: Word)
    requires OneImage(s, e) && Apply(env, s, l) == Some(s')
    requires l.GuestOp? || l.TlbMiss? || l.HandlerInstr? || l.TakeHypercall? || l.Interrupted? || l.Evicted?
    ensures OneImage(s', e)
  {
    hide DoGuestOp, DoHandlerInstr, HasBlock, Latch, Current, IsUser;
    match l {
      case GuestOp(t, f, d) => GuestOpKeepsImage(env, s, s', t, f, d, e);
      case HandlerInstr(t, keep) => HandlerKeepsImage(s, s', t, keep, e);
      case _ =>
    }
  }

  lemma HostCallKeepsImage<K>(env: N.Env<K>, s: System<K>, s': System<K>, t: Word, e: Word)
    requires OneImage(s, e) && (DoHostCall(env, s, t) == Some(s') || DoExitThread(env, s, t) == Some(s'))
    ensures OneImage(s', e)
  {
    hide HasBlock, Params;
  }

  lemma HostKeepsImage<K>(env: N.Env<K>, s: System<K>, l: Label, s': System<K>, e: Word)
    requires OneImage(s, e) && Apply(env, s, l) == Some(s')
    requires l.LoopAgain? || l.KvmRun? || l.HostCall? || l.StoreResult? || l.BeginClone? || l.ExitThread?
    ensures OneImage(s', e)
  {
    hide HasBlock, Cell, Params, DoHostCall, DoExitThread;
    if l.HostCall? || l.ExitThread? {
      HostCallKeepsImage(env, s, s', l.t, e);
    }
  }

  lemma ArmKeepsImage<K>(s: System<K>, s': System<K>, t: Word, block: Word, e: Word)
    requires OneImage(s, e) && DoArmChild(s, t, block) == Some(s')
    ensures OneImage(s', e)
  {
    hide HasBlock, Cell, Params, ChildRegs, ZeroBlock, Allocatable, CloneTypeOf, WindowAddress;
  }

  lemma SpawnKeepsImage<K>(env: N.Env<K>, s: System<K>, s': System<K>, t: Word, child: Word, e: Word)
    requires OneImage(s, e) && DoCloneThread(env, s, t, child) == Some(s')
    ensures OneImage(s', e)
  {
    hide HasBlock, Cell, Params, RequestOf;
  }

  lemma BuildKeepsImage<K>(s: System<K>, s': System<K>, t: Word, vm: nat, block: Word, e: Word)
    requires OneImage(s, e) && DoBuildVm(s, t, vm, block) == Some(s')
    ensures OneImage(s', e)
  {
    hide HasBlock, Cell, Params, ChildRegs, ZeroBlock, Allocatable, WindowAddress;
  }

  lemma CloneKeepsImage<K>(env: N.Env<K>, s: System<K>, l: Label, s': System<K>, e: Word)
    requires OneImage(s, e) && Apply(env, s, l) == Some(s')
    requires l.ArmChild? || l.CloneThread? || l.ForkFails? || l.BuildVm?
    ensures OneImage(s', e)
  {
    hide HasBlock, Params, CloneTypeOf, DoArmChild, DoCloneThread, DoBuildVm;
    match l {
      case ArmChild(t, block) => ArmKeepsImage(s, s', t, block, e);
      case CloneThread(t, child) => SpawnKeepsImage(env, s, s', t, child, e);
      case BuildVm(t, vm, block) => BuildKeepsImage(s, s', t, vm, block, e);
      case _ =>
    }
  }

  lemma ForkKeepsImage<K>(env: N.Env<K>, s: System<K>, s': System<K>, t: Word, child: Word, space: nat, e: Word)
    requires OneImage(s, e) && DoForkProcess(env, s, t, child, space) == Some(s')
    ensures OneImage(s', e)
  {
    hide HasBlock, Cell, Params, CloneTypeOf, RequestOf;
  }

  lemma AppliesFork<K>(env: N.Env<K>, s: System<K>, l: Label)
    requires l.ForkProcess?
    ensures Apply(env, s, l) == DoForkProcess(env, s, l.t, l.child, l.space)
  {
    hide DoForkProcess;
  }

  lemma StepKeepsImage<K>(env: N.Env<K>, s: System<K>, l: Label, s': System<K>, e: Word)
    requires OneImage(s, e) && Apply(env, s, l) == Some(s')
    ensures OneImage(s', e)
  {
    hide Apply, OneImage, DoForkProcess;
    if l.GuestOp? || l.TlbMiss? || l.HandlerInstr? || l.TakeHypercall? || l.Interrupted? || l.Evicted? {
      GuestKeepsImage(env, s, l, s', e);
    } else if l.LoopAgain? || l.KvmRun? || l.HostCall? || l.StoreResult? || l.BeginClone? || l.ExitThread? {
      HostKeepsImage(env, s, l, s', e);
    } else if l.ForkProcess? {
      AppliesFork(env, s, l);
      ForkKeepsImage(env, s, s', l.t, l.child, l.space, e);
    } else {
      CloneKeepsImage(env, s, l, s', e);
    }
  }

  /** Every core of the tree, and every child still being prepared, is on the image of the first core;
      so `init_csr` never finds a null image and KVM vectors every exception of the tree through it. */
  lemma {:induction false} ImageIsShared<K>(env: N.Env<K>, b: Boot<K>, ls: seq<Label>, s': System<K>)
    requires Run(env, Start(b), ls) == Some(s')
    ensures OneImage(s', b.ebase)
    decreases |ls|
  {
    hide Apply;
    if ls != [] {
      var front := ls[..|ls| - 1];
      ImageIsShared(env, b, front, Run(env, Start(b), front).value);
      StepKeepsImage(env, Run(env, Start(b), front).value, ls[|ls| - 1], s', b.ebase);
    }
  }
}
