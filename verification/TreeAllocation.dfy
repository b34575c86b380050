/** The pools of a whole process tree, from the first VM on: each is a run of the atomic allocator from the
    empty pool, and its claimed slots are exactly those whose core some thread holds. */
module TreeAllocation {
  import opened Words
  import opened Handlers
  import opened Trampoline
  import opened Clone
  import opened Allocator
  import opened Slots
  import opened LoongArch
  import opened Dune
  import opened Simulation
  import opened Runs
  import opened TreeSafety
  import opened TreePools
  import N = Native

  // ---------- The history of a pool ----------

  /** A VM that is still to be made has the empty pool. */
  function PoolAt<K>(s: System<K>, vm: nat): Allocator
  {
    if vm in s.vms then PoolOf(s, vm) else NoneTaken()
  }

  function OpAt<K>(s: System<K>, l: Label, vm: nat): Option<Op>
  {
    match l
    case BuildVm(_, other, _) => if other == vm then Some(Take) else None
    case _ => if vm in s.vms then PoolOp(s, l, vm) else None
  }

  /** Only a forked child makes a VM, and none is ever forgotten. */
  lemma StepMakesVm<K>(env: N.Env<K>, s: System<K>, l: Label, s': System<K>)
    requires Apply(env, s, l) == Some(s')
    ensures s'.vms.Keys == s.vms.Keys + if l.BuildVm? then {l.vm} else {}
  {
    hide HasBlock, Params, InitChild, Allocatable, ZeroBlock, CloneTypeOf, RequestOf, Exec, Current, Reach, EnterRefill, EnterStub;
    if l.ArmChild? {
      ArmMakesNone(s, s', l.t, l.block);
    } else if l.BuildVm? {
      BuildMakesOne(s, s', l.t, l.vm, l.block);
    }
    hide DoArmChild, DoBuildVm;
  }

  lemma ArmMakesNone<K>(s: System<K>, s': System<K>, t: Word, block: Word)
    requires DoArmChild(s, t, block) == Some(s')
    ensures s'.vms.Keys == s.vms.Keys
  {
    hide HasBlock, Params, InitChild, Allocatable, ZeroBlock, CloneTypeOf;
  }

  lemma BuildMakesOne<K>(s: System<K>, s': System<K>, t: Word, vm: nat, block: Word)
    requires DoBuildVm(s, t, vm, block) == Some(s')
    ensures s'.vms.Keys == s.vms.Keys + {vm}
  {
    hide HasBlock, Params, InitChild, Allocatable, ZeroBlock;
  }

  lemma StepIsOp<K>(env: N.Env<K>, s: System<K>, l: Label, s': System<K>, vm: nat)
    requires Inv(s) && Apply(env, s, l) == Some(s')
    ensures match OpAt(s, l, vm)
            case None => PoolAt(s', vm) == PoolAt(s, vm)
            case Some(op) => Do(PoolAt(s, vm), op) == Some(PoolAt(s', vm))
  {
    hide Inv, Do, PoolOf, PoolOp;
    StepMakesVm(env, s, l, s');
    if l.BuildVm? && l.vm == vm {
      AppliesBuild(env, s, l);
      BuildVmTakes(s, s', l.t, vm, l.block);
    } else if vm in s.vms {
      StepUsesAllocator(env, s, l, s', vm);
      BuildsNoOp(s, l, vm);
    }
    hide Apply;
  }

  lemma AppliesBuild<K>(env: N.Env<K>, s: System<K>, l: Label)
    requires l.BuildVm?
    ensures Apply(env, s, l) == DoBuildVm(s, l.t, l.vm, l.block)
  {
    hide DoBuildVm;
  }

  lemma BuildsNoOp<K>(s: System<K>, l: Label, vm: nat)
    ensures l.BuildVm? ==> PoolOp(s, l, vm) == None
  {
  }

  function OpsAt<K>(env: N.Env<K>, s: System<K>, ls: seq<Label>, vm: nat): seq<Op>
    decreases |ls|
  {
    if ls == [] then [] else
      var front := OpsAt(env, s, ls[..|ls| - 1], vm);
      match Run(env, s, ls[..|ls| - 1])
      case None => front
      case Some(m) =>
        match OpAt(m, ls[|ls| - 1], vm)
        case None => front
        case Some(op) => front + [op]
  }

  /** `dune_enter` has made one VM, and allocated one core from its empty pool. */
  lemma StartTakes<K>(b: Boot<K>)
    ensures Start(b).vms.Keys == {0} && Do(NoneTaken(), Take) == Some(PoolOf(Start(b), 0))
  {
    FirstFreeIs(NoneTaken().valid, 0);
    assert NoneTaken().cored + {0} == {0};
    assert VcpuId(0, 0) in Start(b).vcpus;
    assert PoolOf(Start(b), 0).cored == {0};
    assert PoolOf(Start(b), 0).valid == NoneTaken().valid[0 := true];
  }

  /** What has been done to the pool of a VM before the first step. */
  function OpsBefore(vm: nat): seq<Op> { if vm == 0 then [Take] else [] }

  lemma StartIsHistory<K>(b: Boot<K>, vm: nat)
    ensures DoAll(NoneTaken(), OpsBefore(vm)) == Some(PoolAt(Start(b), vm))
  {
    StartTakes(b);
    assert OpsBefore(vm) != [] ==> OpsBefore(vm)[..0] == [];
    assert DoAll(NoneTaken(), []) == Some(NoneTaken());
    hide Do, PoolOf, NoneTaken;
  }

  lemma OneMoreOp(a: Allocator, ops: seq<Op>, b: Allocator, op: Op)
    requires DoAll(a, ops) == Some(b)
    ensures DoAll(a, ops + [op]) == Do(b, op)
  {
    hide Do;
    assert (ops + [op])[..|ops|] == ops;
  }

  /** Every pool of every reachable state is what the atomic allocator makes of the empty pool by the
      allocations and releases of the run. */
  lemma {:induction false} PoolsAreHistory<K>(env: N.Env<K>, b: Boot<K>, ls: seq<Label>, s': System<K>, vm: nat)
    requires BootOk(b) && Run(env, Start(b), ls) == Some(s')
    ensures DoAll(NoneTaken(), OpsBefore(vm) + OpsAt(env, Start(b), ls, vm)) == Some(PoolAt(s', vm))
    decreases |ls|
  {
    hide Apply, Inv, PoolAt, OpAt, Do, DoAll, NoneTaken, Start, BootOk;
    if ls == [] {
      StartIsHistory(b, vm);
      assert OpsBefore(vm) + [] == OpsBefore(vm);
    } else {
      var front, l := ls[..|ls| - 1], ls[|ls| - 1];
      var mid := Run(env, Start(b), front).value;
      PoolsAreHistory(env, b, front, mid, vm);
      InvariantHolds(env, b, front, mid);
      StepIsOp(env, mid, l, s', vm);
      if OpAt(mid, l, vm).Some? {
        var ops := OpsBefore(vm) + OpsAt(env, Start(b), front, vm);
        OneMoreOp(NoneTaken(), ops, PoolAt(mid, vm), OpAt(mid, l, vm).value);
        assert OpsBefore(vm) + OpsAt(env, Start(b), ls, vm) == ops + [OpAt(mid, l, vm).value];
      }
    }
  }

  // ---------- Who holds the claimed slots ----------

  ghost predicate SomeoneHolds<K>(s: System<K>, v: VcpuId)
  {
    exists t :: t in s.threads && v in Holds(s.threads[t].phase)
  }

  ghost predicate ClaimedAreHeld<K>(s: System<K>)
  {
    forall vm, i | vm in s.vms && 0 <= i < |s.vms[vm].valid| && s.vms[vm].valid[i] :: SomeoneHolds(s, VcpuId(vm, i))
  }

  /** No thread comes, goes or changes what it holds. */
  predicate SameHolders<K>(s: System<K>, s': System<K>)
  {
    && s'.vms == s.vms && s'.threads.Keys == s.threads.Keys
    && forall t | t in s.threads :: Holds(s'.threads[t].phase) == Holds(s.threads[t].phase)
  }

  lemma SameHoldersKeep<K>(s: System<K>, s': System<K>)
    requires SameHolders(s, s') && ClaimedAreHeld(s)
    ensures ClaimedAreHeld(s')
  {
    hide Holds;
    forall vm, i | vm in s'.vms && 0 <= i < |s'.vms[vm].valid| && s'.vms[vm].valid[i] ensures SomeoneHolds(s', VcpuId(vm, i)) {
      assert SomeoneHolds(s, VcpuId(vm, i));
    }
  }

  predicate Moves(l: Label) { l.ArmChild? || l.CloneThread? || l.ForkProcess? || l.BuildVm? || l.ExitThread? }

  lemma GuestStepHolds<K>(env: N.Env<K>, s: System<K>, l: Label, s': System<K>)
    requires Apply(env, s, l) == Some(s')
    requires l.GuestOp? || l.TlbMiss? || l.HandlerInstr? || l.TakeHypercall? || l.Interrupted? || l.Evicted?
    ensures SameHolders(s, s')
  {
    hide HasBlock, Params, Exec, Current, Reach, EnterRefill, EnterStub;
  }

  lemma HostStepHolds<K>(env: N.Env<K>, s: System<K>, l: Label, s': System<K>)
    requires Apply(env, s, l) == Some(s')
    requires l.LoopAgain? || l.KvmRun? || l.HostCall? || l.StoreResult? || l.BeginClone? || l.ForkFails?
    ensures SameHolders(s, s')
  {
    hide HasBlock, Params, CloneTypeOf, RequestOf;
  }

  /** How the other steps move holdings. */
  lemma ArmHolds<K>(s: System<K>, s': System<K>, t: Word, block: Word)
    requires DoArmChild(s, t, block) == Some(s') && ClaimedAreHeld(s)
    ensures ClaimedAreHeld(s')
  {
    hide HasBlock, Params, InitChild, Allocatable, ZeroBlock, CloneTypeOf;
    var v := s.threads[t].phase.v;
    forall vm, i | vm in s'.vms && 0 <= i < |s'.vms[vm].valid| && s'.vms[vm].valid[i] ensures SomeoneHolds(s', VcpuId(vm, i)) {
      if VcpuId(vm, i) == s'.threads[t].phase.child {
        assert VcpuId(vm, i) in Holds(s'.threads[t].phase);
      } else {
        assert SomeoneHolds(s, VcpuId(vm, i));
        var u :| u in s.threads && VcpuId(vm, i) in Holds(s.threads[u].phase);
        assert u in s'.threads && VcpuId(vm, i) in Holds(s'.threads[u].phase);
      }
    }
  }

  lemma CloneHolds<K>(env: N.Env<K>, s: System<K>, s': System<K>, t: Word, child: Word)
    requires DoCloneThread(env, s, t, child) == Some(s') && ClaimedAreHeld(s)
    ensures ClaimedAreHeld(s')
  {
    hide HasBlock, Params, RequestOf;
    forall vm, i | vm in s'.vms && 0 <= i < |s'.vms[vm].valid| && s'.vms[vm].valid[i] ensures SomeoneHolds(s', VcpuId(vm, i)) {
      assert SomeoneHolds(s, VcpuId(vm, i));
      var u :| u in s.threads && VcpuId(vm, i) in Holds(s.threads[u].phase);
      var w := if u == t && VcpuId(vm, i) == s.threads[t].phase.child then child else u;
      assert w in s'.threads && VcpuId(vm, i) in Holds(s'.threads[w].phase);
    }
  }

  lemma ForkHolds<K>(env: N.Env<K>, s: System<K>, s': System<K>, t: Word, child: Word, space: nat)
    requires DoForkProcess(env, s, t, child, space) == Some(s') && ClaimedAreHeld(s)
    ensures ClaimedAreHeld(s')
  {
    hide HasBlock, Params, RequestOf, CloneTypeOf;
    forall vm, i | vm in s'.vms && 0 <= i < |s'.vms[vm].valid| && s'.vms[vm].valid[i] ensures SomeoneHolds(s', VcpuId(vm, i)) {
      assert SomeoneHolds(s, VcpuId(vm, i));
      var u :| u in s.threads && VcpuId(vm, i) in Holds(s.threads[u].phase);
      assert u in s'.threads && VcpuId(vm, i) in Holds(s'.threads[u].phase);
    }
  }

  lemma BuildHolds<K>(s: System<K>, s': System<K>, t: Word, vm: nat, block: Word)
    requires DoBuildVm(s, t, vm, block) == Some(s') && ClaimedAreHeld(s)
    ensures ClaimedAreHeld(s')
  {
    hide HasBlock, Params, InitChild, Allocatable, ZeroBlock;
    forall w, i | w in s'.vms && 0 <= i < |s'.vms[w].valid| && s'.vms[w].valid[i] ensures SomeoneHolds(s', VcpuId(w, i)) {
      if w == vm {
        assert VcpuId(w, i) in Holds(s'.threads[t].phase);
      } else {
        assert SomeoneHolds(s, VcpuId(w, i));
        var u :| u in s.threads && VcpuId(w, i) in Holds(s.threads[u].phase);
        assert u in s'.threads && VcpuId(w, i) in Holds(s'.threads[u].phase);
      }
    }
  }

  lemma ExitHolds<K>(env: N.Env<K>, s: System<K>, s': System<K>, t: Word)
    requires DoExitThread(env, s, t) == Some(s') && ClaimedAreHeld(s)
    ensures ClaimedAreHeld(s')
  {
    hide HasBlock, Params;
    forall vm, i | vm in s'.vms && 0 <= i < |s'.vms[vm].valid| && s'.vms[vm].valid[i] ensures SomeoneHolds(s', VcpuId(vm, i)) {
      assert SomeoneHolds(s, VcpuId(vm, i));
      var u :| u in s.threads && VcpuId(vm, i) in Holds(s.threads[u].phase);
      assert u in s'.threads && VcpuId(vm, i) in Holds(s'.threads[u].phase);
    }
  }

  lemma MoveHolds<K>(env: N.Env<K>, s: System<K>, l: Label, s': System<K>)
    requires Apply(env, s, l) == Some(s') && ClaimedAreHeld(s) && Moves(l)
    ensures ClaimedAreHeld(s')
  {
    hide ClaimedAreHeld, DoArmChild, DoCloneThread, DoForkProcess, DoBuildVm, DoExitThread;
    match l {
      case ArmChild(t, block) => ArmHolds(s, s', t, block);
      case CloneThread(t, child) => CloneHolds(env, s, s', t, child);
      case ForkProcess(t, child, space) => ForkHolds(env, s, s', t, child, space);
      case BuildVm(t, vm, block) => BuildHolds(s, s', t, vm, block);
      case ExitThread(t) => ExitHolds(env, s, s', t);
    }
  }

  lemma StartHolds<K>(b: Boot<K>)
    ensures ClaimedAreHeld(Start(b))
  {
    assert VcpuId(0, 0) in Holds(Start(b).threads[b.tid].phase);
    assert SomeoneHolds(Start(b), VcpuId(0, 0));
  }

  lemma {:induction false} RunHolds<K>(env: N.Env<K>, b: Boot<K>, ls: seq<Label>, s': System<K>)
    requires Run(env, Start(b), ls) == Some(s')
    ensures ClaimedAreHeld(s')
    decreases |ls|
  {
    hide Apply, ClaimedAreHeld, SameHolders, Start;
    if ls == [] {
      StartHolds(b);
    } else {
      var l, mid := ls[|ls| - 1], Run(env, Start(b), ls[..|ls| - 1]).value;
      RunHolds(env, b, ls[..|ls| - 1], mid);
      if Moves(l) {
        MoveHolds(env, mid, l, s');
      } else {
        if l.GuestOp? || l.TlbMiss? || l.HandlerInstr? || l.TakeHypercall? || l.Interrupted? || l.Evicted? {
          GuestStepHolds(env, mid, l, s');
        } else {
          HostStepHolds(env, mid, l, s');
        }
        SameHoldersKeep(mid, s');
      }
    }
  }

  /** In every reachable state of every clone tree a slot is claimed if and only if some thread, and by
      `CoresAreExclusive` only one, works on its core or prepares it: no step of the machine loses a slot,
      and none is claimed for nothing. */
  lemma ClaimedIffHeld<K>(env: N.Env<K>, b: Boot<K>, ls: seq<Label>, s': System<K>, vm: nat, i: nat)
    requires BootOk(b) && Run(env, Start(b), ls) == Some(s') && vm in s'.vms && i < |s'.vms[vm].valid|
    ensures s'.vms[vm].valid[i] <==> exists t :: t in s'.threads && VcpuId(vm, i) in Holds(s'.threads[t].phase)
  {
    RunHolds(env, b, ls, s');
    InvariantHolds(env, b, ls, s');
    hide Run, Start, Inv, Holds, BootOk;
    if t :| t in s'.threads && VcpuId(vm, i) in Holds(s'.threads[t].phase) {
      HoldersMayCall(s', t, VcpuId(vm, i));
    }
    if s'.vms[vm].valid[i] {
      assert SomeoneHolds(s', VcpuId(vm, i));
    }
  }
}
