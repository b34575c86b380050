/** Exactly which native steps dune can match: all of them, but for instructions beyond the memory slot, two
    call numbers, refused clones that go through `do_simulate_clone`, and clones and forked children for
    which there is no core or no memory. */
module Matching {
  import opened Words
  import opened Paging
  import opened LoongArch
  import opened Trampoline
  import opened Clone
  import opened Slots
  import opened Dune
  import opened Simulation
  import opened Refinement
  import opened CloneRefinement
  import opened VmRefinement
  import opened Runs
  import opened Progress
  import opened Resources
  import opened CatchUp
  import opened Completeness
  import N = Native

  /** The same step, whatever is left in $t0. */
  predicate SameStep(x: N.Label, l: N.Label)
  {
    match l
    case Ordinary(t) => x == l
    case Call(t, _) => x.Call? && x.t == t
    case Clone(t, child, space, _, _) => x.Clone? && x.t == t && x.child == child && x.space == space
    case CloneFails(t, errno, _) => x.CloneFails? && x.t == t && x.errno == errno
    case Exit(t) => x == l
  }

  ghost predicate MatchedBy<K>(env: N.Env<K>, s: System<K>, l: N.Label, ls: seq<Label>)
  {
    Run(env, s, ls).Some? && |NativeRun(env, s, ls)| == 1 && SameStep(NativeRun(env, s, ls)[0], l)
  }

  /** There is a run of dune that is this one native step. */
  ghost predicate CanMatch<K>(env: N.Env<K>, s: System<K>, l: N.Label)
  {
    exists ls :: MatchedBy(env, s, l, ls)
  }

  /** What dune must have for the native step; each condition can be checked before the step is tried. */
  ghost predicate Supported<K>(env: N.Env<K>, s: System<K>, n: N.System<K>, l: N.Label)
    requires N.Live(n, l.t) && l.t in s.threads && s.threads[l.t].space in s.spaces
  {
    var t, g := l.t, n.threads[l.t].gpr;
    match l
    case Ordinary(_) =>
      && n.threads[t].pc < SLOT_SIZE && Within(N.OpOf(env, n, t), g, SLOT_SIZE)
      && (s.threads[t].phase.NeedsVm? ==> BlockAvailable(BlocksOf(s, t)))
    case Call(_, _) => g[A7] != SYS_KEXEC_LOAD && g[A7] != SYS_FORK
    case Clone(_, _, _, _, _) =>
      Bit(g[4], N.CLONE_VM_BIT) ==> s.threads[t].phase.CloneArmed? || CoreAvailable(s, t)
    case CloneFails(_, _, _) => !Bit(g[4], N.CLONE_VM_BIT) && g[5] == 0
    case Exit(_) => true
  }

  // ---------- If it is supported ----------

  lemma SupportedCallMatches<K>(env: N.Env<K>, s: System<K>, n: N.System<K>, l: N.Label)
    requires Sim(s, n) && N.Step(env, n, l).Some? && (l.Call? || l.Exit? || l.CloneFails?)
    requires N.Live(n, l.t) && l.t in s.threads && s.threads[l.t].space in s.spaces && Supported(env, s, n, l)
    ensures CanMatch(env, s, l)
  {
    hide Sim, Run, NativeRun;
    CallsWhatItSays(env, n, l);
    hide N.Step, Bit;
    var ls, s', t0, n';
    match l {
      case Call(t, _) => ls, s', t0, n' := CallCompletes(env, s, n, t);
      case Exit(t) => ls, s', n' := ExitCompletes(env, s, n, t);
      case CloneFails(t, errno, _) => ls, s', t0, n' := RefusalCompletes(env, s, n, t, errno);
    }
    assert MatchedBy(env, s, l, ls);
  }

  lemma SupportedCloneMatches<K>(env: N.Env<K>, s: System<K>, n: N.System<K>, l: N.Label)
    requires Sim(s, n) && N.Step(env, n, l).Some? && l.Clone?
    requires N.Live(n, l.t) && l.t in s.threads && s.threads[l.t].space in s.spaces && Supported(env, s, n, l)
    ensures CanMatch(env, s, l)
  {
    hide Sim, Run, NativeRun, CoreAvailable;
    CallsWhatItSays(env, n, l);
    hide N.Step, Bit;
    var ls, s', x, n';
    if Bit(n.threads[l.t].gpr[4], N.CLONE_VM_BIT) {
      ls, s', x, n' := SharedCloneCompletes(env, s, n, l.t, l.child);
    } else {
      ls, s', x, n' := ForkCompletes(env, s, n, l.t, l.child, l.space);
    }
    assert MatchedBy(env, s, l, ls);
  }

  /** What a native step that can be taken says of its thread. */
  lemma CallsWhatItSays<K>(env: N.Env<K>, n: N.System<K>, l: N.Label)
    requires N.Step(env, n, l).Some?
    ensures N.Live(n, l.t)
    ensures !l.Ordinary? ==> N.Calls(n, l.t)
    ensures l.Ordinary? ==> !n.threads[l.t].calling
    ensures var g := n.threads[l.t].gpr;
            && (l.Call? ==> g[A7] !in {N.SYS_EXIT, N.SYS_CLONE})
            && (l.Exit? ==> g[A7] == N.SYS_EXIT)
            && (l.CloneFails? ==> g[A7] == N.SYS_CLONE && N.IsErrno(l.errno))
            && (l.Clone? ==>
                  && g[A7] == N.SYS_CLONE && l.child !in n.threads
                  && (Bit(g[4], N.CLONE_VM_BIT) ==> l.space == n.threads[l.t].space)
                  && (!Bit(g[4], N.CLONE_VM_BIT) ==> l.space !in n.mems))
  {
    hide Bit;
  }

  lemma SupportedOrdinaryMatches<K>(env: N.Env<K>, s: System<K>, n: N.System<K>, l: N.Label)
    requires Sim(s, n) && N.Step(env, n, l).Some? && l.Ordinary?
    requires N.Live(n, l.t) && l.t in s.threads && s.threads[l.t].space in s.spaces && Supported(env, s, n, l)
    ensures CanMatch(env, s, l)
  {
    hide Sim, Run, NativeRun, BlockAvailable, N.Step, N.OpOf, Within;
    var ls, s' := OrdinaryCompletes(env, s, n, N.Step(env, n, l).value, l.t);
    assert MatchedBy(env, s, l, ls);
  }

  // ---------- If it is matched ----------

  /** The one native step of a run, with the silent run before it. */
  lemma {:induction false} FindsStep<K>(env: N.Env<K>, s: System<K>, n: N.System<K>, ls: seq<Label>, x: N.Label)
    returns (ms: seq<Label>, mid: System<K>, l: Label)
    requires Sim(s, n) && Run(env, s, ls).Some? && NativeRun(env, s, ls) == [x]
    ensures Run(env, s, ms) == Some(mid) && NativeRun(env, s, ms) == [] && Sim(mid, n)
    ensures Apply(env, mid, l).Some? && Answer(mid, l) == Some(x)
    decreases |ls|
  {
    hide Sim, Apply, Answer;
    ms, l := ls[..|ls| - 1], ls[|ls| - 1];
    mid := Run(env, s, ms).value;
    if Answer(mid, l) == None {
      ms, mid, l := FindsStep(env, s, n, ms, x);
    } else {
      var steps := NativeRun(env, s, ms) + [Answer(mid, l).value];
      assert steps[|steps| - 1] == Answer(mid, l).value && steps == [x];
      var m := RunSim(env, s, ms, mid, n);
    }
  }

  /** Only the expected step of dune answers a native step. */
  lemma AnsweredBy<K>(s: System<K>, l: Label, x: N.Label)
    requires Answer(s, l) == Some(x)
    ensures x.Ordinary? ==> l.GuestOp? && l.t == x.t
    ensures x.Call? ==> l == HostCall(x.t)
    ensures x.Clone? ==> l == CloneThread(x.t, x.child) || l == ForkProcess(x.t, x.child, x.space)
    ensures x.CloneFails? ==> l == ForkFails(x.t, x.errno)
  {
  }

  /** Nothing else happens to a forked child without a VM than that it builds one. */
  lemma NewbornStays<K>(env: N.Env<K>, s: System<K>, l: Label, s': System<K>, n: N.System<K>, t: Word)
    requires Sim(s, n) && Apply(env, s, l) == Some(s') && Answer(s, l) == None
    requires t in s.threads && s.threads[t].phase.NeedsVm? && s.threads[t].space in s.spaces
    requires !BlockAvailable(BlocksOf(s, t))
    ensures t in s'.threads && s'.threads[t] == s.threads[t] && s.threads[t].space in s'.spaces
    ensures !BlockAvailable(BlocksOf(s', t))
  {
    hide Sim, BlockAvailable, SameResources, DoGuestOp, DoTlbMiss, DoHandlerInstr, DoTakeHypercall, DoInterrupted, DoEvicted,
         DoLoopAgain, DoKvmRun, DoHostCall, DoStoreResult, DoBeginClone, DoArmChild, DoCloneThread, DoForkProcess,
         DoForkFails, DoBuildVm, DoExitThread;
    SilentSteps(env, s, l, s');
    if Plain(l) {
      PlainKeepsResources(env, s, l, s');
      SameCoreAvailable(s, s', t);
      SamePlaces(s, s', t);
    } else if l.ArmChild? {
      NewbornAlone(s, n, t);
      ArmKeepsOthers(s, s', l.t, l.block, t);
    } else if l.t == t {
      BuildsOnlyWithBlock(env, s, s', t, l.vm, l.block);
    } else {
      NewbornAlone(s, n, t);
      BuildKeepsOthers(s, s', l.t, l.vm, l.block, t);
    }
  }

  /** The steps that the native machine cannot see. */
  lemma SilentSteps<K>(env: N.Env<K>, s: System<K>, l: Label, s': System<K>)
    requires Apply(env, s, l) == Some(s') && Answer(s, l) == None
    ensures Plain(l) || l.ArmChild? || l.BuildVm?
    ensures l.ArmChild? ==>
              DoArmChild(s, l.t, l.block) == Some(s') && l.t in s.threads && s.threads[l.t].phase.CloneReady?
    ensures l.BuildVm? ==>
              DoBuildVm(s, l.t, l.vm, l.block) == Some(s') && l.t in s.threads && s.threads[l.t].phase.NeedsVm?
  {
    hide DoHostCall, DoCloneThread, DoForkProcess, DoForkFails, DoGuestOp, DoTlbMiss, DoHandlerInstr, DoTakeHypercall,
         DoInterrupted, DoEvicted, DoLoopAgain, DoKvmRun, DoStoreResult, DoBeginClone, DoArmChild, DoBuildVm, DoExitThread;
    match l {
      case HostCall(t) => HostCallHasCore(env, s, s', t);
      case CloneThread(t, c) => CloneHasCore(env, s, s', t, c, 0);
      case ForkProcess(t, c, a) => CloneHasCore(env, s, s', t, c, a);
      case ForkFails(t, e) => ForkFailsHasCore(s, s', t, e);
      case ArmChild(t, b) => ArmStarts(s, s', t, b);
      case BuildVm(t, vm, b) => BuildStarts(s, s', t, vm, b);
      case _ =>
    }
  }

  lemma ArmStarts<K>(s: System<K>, s': System<K>, t: Word, block: Word)
    requires DoArmChild(s, t, block) == Some(s')
    ensures t in s.threads && s.threads[t].phase.CloneReady?
  {
    hide HasBlock, Params, InitChild, Allocatable, ZeroBlock, CloneTypeOf;
  }

  lemma BuildStarts<K>(s: System<K>, s': System<K>, t: Word, vm: nat, block: Word)
    requires DoBuildVm(s, t, vm, block) == Some(s')
    ensures t in s.threads && s.threads[t].phase.NeedsVm?
  {
    hide HasBlock, Params, InitChild, Allocatable, ZeroBlock;
  }

  lemma SamePlaces<K>(s: System<K>, s': System<K>, t: Word)
    requires SameResources(s, s') && t in s.threads
    ensures t in s'.threads && s'.threads[t].space == s.threads[t].space
    ensures SamePlace(s.threads[t].phase, s'.threads[t].phase)
    ensures HasCore(s, t) ==> HasCore(s', t)
    ensures s'.spaces.Keys == s.spaces.Keys
  {
  }

  lemma NewbornAlone<K>(s: System<K>, n: N.System<K>, t: Word)
    requires Sim(s, n) && t in s.threads && s.threads[t].phase.NeedsVm?
    ensures forall u | u in s.threads && u != t :: s.threads[u].space != s.threads[t].space
  {
    SimParts(s, n);
    hide Sim, VcpuOk, ThreadOk;
    assert Newborn(s, t);
  }

  lemma ArmKeepsOthers<K>(s: System<K>, s': System<K>, u: Word, block: Word, t: Word)
    requires DoArmChild(s, u, block) == Some(s') && t in s.threads && s.threads[t].space in s.spaces
    requires t != u && s.threads[u].space != s.threads[t].space
    ensures t in s'.threads && s'.threads[t] == s.threads[t] && s.threads[t].space in s'.spaces
    ensures BlocksOf(s', t) == BlocksOf(s, t)
  {
    hide HasBlock, Params, InitChild, Allocatable, ZeroBlock, CloneTypeOf;
  }

  lemma BuildKeepsOthers<K>(s: System<K>, s': System<K>, u: Word, vm: nat, block: Word, t: Word)
    requires DoBuildVm(s, u, vm, block) == Some(s') && t in s.threads && s.threads[t].space in s.spaces
    requires t != u && s.threads[u].space != s.threads[t].space
    ensures t in s'.threads && s'.threads[t] == s.threads[t] && s.threads[t].space in s'.spaces
    ensures BlocksOf(s', t) == BlocksOf(s, t)
    ensures s.threads[u].phase.NeedsVm? && vm !in s.vms
    ensures s'.vms == s.vms[vm := s'.vms[vm]] && s'.vcpus.Keys == s.vcpus.Keys + {VcpuId(vm, 0)}
  {
    hide HasBlock, Params, InitChild, Allocatable, ZeroBlock;
  }

  lemma BuildsOnlyWithBlock<K>(env: N.Env<K>, s: System<K>, s': System<K>, t: Word, vm: nat, block: Word)
    requires DoBuildVm(s, t, vm, block) == Some(s')
    ensures t in s.threads && s.threads[t].space in s.spaces && BlockAvailable(BlocksOf(s, t))
  {
    hide HasBlock, Params, InitChild, Allocatable, ZeroBlock;
    assert Allocatable(BlocksOf(s, t), block);
  }

  lemma {:induction false} NewbornWaits<K>(env: N.Env<K>, s: System<K>, ls: seq<Label>, s': System<K>, n: N.System<K>, t: Word)
    requires Sim(s, n) && Run(env, s, ls) == Some(s') && NativeRun(env, s, ls) == []
    requires t in s.threads && s.threads[t].phase.NeedsVm? && s.threads[t].space in s.spaces
    requires !BlockAvailable(BlocksOf(s, t))
    ensures Sim(s', n) && t in s'.threads && s'.threads[t].phase.NeedsVm? && s'.threads[t].space in s'.spaces
    ensures !BlockAvailable(BlocksOf(s', t))
    decreases |ls|
  {
    hide Sim, Apply, Answer, BlockAvailable;
    if ls != [] {
      var front, l := ls[..|ls| - 1], ls[|ls| - 1];
      var mid := Run(env, s, front).value;
      NewbornWaits(env, s, front, mid, n, t);
      var n' := StepSim(env, mid, l, s', n);
      NewbornStays(env, mid, l, s', n, t);
    }
  }

  /** A forked child gets to its first instruction, without anything native happening in between, if and
      only if there is memory for its core's block. */
  lemma NewbornStartsIff<K>(env: N.Env<K>, s: System<K>, n: N.System<K>, t: Word)
    requires Sim(s, n) && t in s.threads && s.threads[t].phase.NeedsVm?
    ensures s.threads[t].space in s.spaces
    ensures BlockAvailable(BlocksOf(s, t))
            <==> exists ls :: Run(env, s, ls).Some? && NativeRun(env, s, ls) == [] && InUser(Run(env, s, ls).value, t)
  {
    hide Sim, Run, NativeRun, BlockAvailable;
    NewbornFacts(s, n, t);
    if BlockAvailable(BlocksOf(s, t)) {
      var ls, s' := NewbornStarts(env, s, n, t);
      SilentlyRuns(env, s, ls, s');
    }
    if ls :| Run(env, s, ls).Some? && NativeRun(env, s, ls) == [] && InUser(Run(env, s, ls).value, t) {
      if !BlockAvailable(BlocksOf(s, t)) {
        NewbornWaits(env, s, ls, Run(env, s, ls).value, n, t);
      }
    }
  }

  // ---------- No core, no clone ----------

  /** What thread `t`'s VM and address space offer can only have got less. */
  ghost predicate NoMore<K>(s: System<K>, s': System<K>, t: Word)
    requires t in s.threads && !s.threads[t].phase.NeedsVm? && s.threads[t].space in s.spaces
  {
    var vm := s.threads[t].phase.v.vm;
    && t in s'.threads && s'.threads[t] == s.threads[t] && s.threads[t].space in s'.spaces
    && vm in s.vms && vm in s'.vms && s'.vms[vm] == s.vms[vm]
    && (forall i: nat :: VcpuId(vm, i) in s'.vcpus <==> VcpuId(vm, i) in s.vcpus)
    && BlocksOf(s, t).Keys <= BlocksOf(s', t).Keys
  }

  lemma NoMoreCores<K>(s: System<K>, s': System<K>, t: Word)
    requires t in s.threads && !s.threads[t].phase.NeedsVm? && s.threads[t].space in s.spaces
    requires NoMore(s, s', t) && !CoreAvailable(s, t)
    ensures !CoreAvailable(s', t)
  {
    if BlockAvailable(BlocksOf(s', t)) {
      BlocksOnlyFill(BlocksOf(s, t), BlocksOf(s', t));
    }
    hide BlockAvailable;
  }

  /** Another thread's `dup_vcpu` in the same VM would have been for this one to take. */
  lemma ArmElsewhere<K>(s: System<K>, s': System<K>, u: Word, block: Word, t: Word, n: N.System<K>)
    requires Sim(s, n) && DoArmChild(s, u, block) == Some(s') && u in s.threads && t != u
    requires HasCore(s, t) && s.threads[t].space in s.spaces && !CoreAvailable(s, t)
    ensures NoMore(s, s', t)
  {
    hide Sim, CoreAvailable, HasBlock, DoArmChild;
    ArmStarts(s, s', u, block);
    CoreFacts(s, n, t, s.threads[t].phase.v);
    CoreFacts(s, n, u, s.threads[u].phase.v);
    ArmNeeds(s, s', u, block);
    ArmEffect(s, s', u, block);
    if s.threads[u].phase.v.vm == s.threads[t].phase.v.vm {
      SharedAvailability(s, u, t);
    }
  }

  lemma SharedAvailability<K>(s: System<K>, u: Word, t: Word)
    requires CoreAvailable(s, u) && t in s.threads && !s.threads[t].phase.NeedsVm?
    requires s.threads[u].phase.v.vm == s.threads[t].phase.v.vm && s.threads[u].space == s.threads[t].space
    ensures CoreAvailable(s, t)
  {
  }

  lemma ArmNeeds<K>(s: System<K>, s': System<K>, t: Word, block: Word)
    requires DoArmChild(s, t, block) == Some(s')
    ensures CoreAvailable(s, t)
  {
    hide HasBlock, Params, InitChild, ZeroBlock, CloneTypeOf;
    if VcpuId(s.threads[t].phase.v.vm, FirstFree(s.vms[s.threads[t].phase.v.vm].valid)) !in s.vcpus {
      assert Allocatable(BlocksOf(s, t), block);
    }
    hide Allocatable;
  }

  lemma ArmEffect<K>(s: System<K>, s': System<K>, u: Word, block: Word)
    requires DoArmChild(s, u, block) == Some(s') && u in s.threads && s.threads[u].phase.CloneReady?
    ensures s.threads[u].space in s.spaces && s.threads[u].phase.v.vm in s.vms
    ensures var a, vm := s.threads[u].space, s.threads[u].phase.v.vm;
            && s'.threads.Keys == s.threads.Keys && s'.vms.Keys == s.vms.Keys && s'.spaces.Keys == s.spaces.Keys
            && (forall t | t in s.threads && t != u :: s'.threads[t] == s.threads[t])
            && (forall w | w in s.vms && w != vm :: s'.vms[w] == s.vms[w])
            && (forall w: VcpuId | w.vm != vm :: w in s'.vcpus <==> w in s.vcpus)
            && (forall x | x in s.spaces && x != a :: s'.spaces[x] == s.spaces[x])
            && s.spaces[a].blocks.Keys <= s'.spaces[a].blocks.Keys
  {
    hide HasBlock, Params, InitChild, ZeroBlock, CloneTypeOf, Allocatable;
  }

  /** A thread for whose clone there is no core stays so, until something native happens. */
  lemma BlockedStays<K>(env: N.Env<K>, s: System<K>, l: Label, s': System<K>, n: N.System<K>, t: Word)
    requires Sim(s, n) && Apply(env, s, l) == Some(s') && Answer(s, l) == None
    requires HasCore(s, t) && s.threads[t].space in s.spaces && !s.threads[t].phase.CloneArmed? && !CoreAvailable(s, t)
    ensures HasCore(s', t) && s'.threads[t].space in s'.spaces && !s'.threads[t].phase.CloneArmed? && !CoreAvailable(s', t)
  {
    hide Sim, BlockAvailable, CoreAvailable, SameResources, Apply, Answer;
    SilentSteps(env, s, l, s');
    if Plain(l) {
      PlainKeepsResources(env, s, l, s');
      SameCoreAvailable(s, s', t);
      SamePlaces(s, s', t);
    } else if l.ArmChild? && l.t == t {
      ArmNeeds(s, s', t, l.block);
    } else if l.ArmChild? {
      ArmElsewhere(s, s', l.t, l.block, t, n);
      NoMoreCores(s, s', t);
      CoreStays(s, s', t);
    } else {
      NewbornAlone(s, n, l.t);
      BuildKeepsOthers(s, s', l.t, l.vm, l.block, t);
      CoreFacts(s, n, t, s.threads[t].phase.v);
      NoMoreCores(s, s', t);
      CoreStays(s, s', t);
    }
  }

  lemma CoreStays<K>(s: System<K>, s': System<K>, t: Word)
    requires HasCore(s, t) && s.threads[t].space in s.spaces && NoMore(s, s', t)
    ensures HasCore(s', t)
  {
    var v := s.threads[t].phase.v;
    assert VcpuId(v.vm, v.slot) in s'.vcpus <==> VcpuId(v.vm, v.slot) in s.vcpus;
  }

  lemma {:induction false} BlockedWaits<K>(env: N.Env<K>, s: System<K>, ls: seq<Label>, s': System<K>, n: N.System<K>, t: Word)
    requires Sim(s, n) && Run(env, s, ls) == Some(s') && NativeRun(env, s, ls) == []
    requires HasCore(s, t) && s.threads[t].space in s.spaces && !s.threads[t].phase.CloneArmed? && !CoreAvailable(s, t)
    ensures Sim(s', n) && HasCore(s', t) && s'.threads[t].space in s'.spaces && !s'.threads[t].phase.CloneArmed?
    ensures !CoreAvailable(s', t)
    decreases |ls|
  {
    hide Sim, Apply, Answer, CoreAvailable;
    if ls != [] {
      var front, l := ls[..|ls| - 1], ls[|ls| - 1];
      var mid := Run(env, s, front).value;
      BlockedWaits(env, s, front, mid, n, t);
      var n' := StepSim(env, mid, l, s', n);
      BlockedStays(env, mid, l, s', n, t);
    }
  }

  // ---------- The exact condition ----------

  lemma MatchedOrdinaryIsSupported<K>(env: N.Env<K>, s: System<K>, n: N.System<K>, l: N.Label)
    requires Sim(s, n) && N.Step(env, n, l).Some? && l.Ordinary? && CanMatch(env, s, l)
    requires N.Live(n, l.t) && l.t in s.threads && s.threads[l.t].space in s.spaces
    ensures Supported(env, s, n, l)
  {
    hide Sim, Run, NativeRun, N.Step, N.OpOf, Within, BlockAvailable, N.Live;
    var ls :| MatchedBy(env, s, l, ls);
    assert NativeRun(env, s, ls) == [l];
    var ms, mid, step := FindsStep(env, s, n, ls, l);
    AnswersOrdinary(env, mid, step, l.t);
    GuestOpIsWithin(env, mid, Apply(env, mid, step).value, n, l.t, step.fetched, step.accessed);
    GuestOpRuns(env, mid, Apply(env, mid, step).value, l.t, step.fetched, step.accessed);
    if s.threads[l.t].phase.NeedsVm? && !BlockAvailable(BlocksOf(s, l.t)) {
      NewbornWaits(env, s, ms, mid, n, l.t);
    }
  }

  lemma AnswersOrdinary<K>(env: N.Env<K>, s: System<K>, l: Label, t: Word)
    requires Answer(s, l) == Some(N.Ordinary(t))
    ensures l.GuestOp? && l.t == t && Apply(env, s, l) == DoGuestOp(env, s, t, l.fetched, l.accessed)
  {
    hide DoGuestOp;
  }

  lemma GuestOpRuns<K>(env: N.Env<K>, s: System<K>, s': System<K>, t: Word, f: TlbEntry, d: TlbEntry)
    requires DoGuestOp(env, s, t, f, d) == Some(s')
    ensures t in s.threads && s.threads[t].phase.Running?
  {
    hide HasBlock, Reach;
  }

  lemma MatchedCallIsSupported<K>(env: N.Env<K>, s: System<K>, n: N.System<K>, l: N.Label)
    requires Sim(s, n) && N.Step(env, n, l).Some? && (l.Call? || l.CloneFails?) && CanMatch(env, s, l)
    requires N.Live(n, l.t) && l.t in s.threads && s.threads[l.t].space in s.spaces
    ensures Supported(env, s, n, l)
  {
    hide Sim, Run, NativeRun, N.Step, Apply, Bit;
    var ls :| MatchedBy(env, s, l, ls);
    var x := NativeRun(env, s, ls)[0];
    assert NativeRun(env, s, ls) == [x];
    var ms, mid, step := FindsStep(env, s, n, ls, x);
    AnsweredBy(mid, step, x);
    hide Answer;
    if l.Call? {
      HostCallNumber(env, mid, n, l.t);
    } else {
      RefusedStrategy(env, mid, l.t, l.errno);
      StrategyIsNative(mid, n, l.t);
    }
  }

  lemma HostCallNumber<K>(env: N.Env<K>, s: System<K>, n: N.System<K>, t: Word)
    requires Sim(s, n) && Apply(env, s, HostCall(t)).Some?
    ensures t in n.threads && n.threads[t].gpr[A7] !in {SYS_KEXEC_LOAD, SYS_FORK}
  {
    hide Sim, HasBlock, Params;
    AskedFacts(s, n, t);
  }

  lemma RefusedStrategy<K>(env: N.Env<K>, s: System<K>, t: Word, errno: Word)
    requires Apply(env, s, ForkFails(t, errno)).Some?
    ensures Cloning(s, t) && StrategyOf(s, t) == DiffVmOldStack
  {
    hide HasBlock, Params, CloneTypeOf, RequestOf;
  }

  lemma MatchedCloneIsSupported<K>(env: N.Env<K>, s: System<K>, n: N.System<K>, l: N.Label)
    requires Sim(s, n) && N.Step(env, n, l).Some? && l.Clone? && CanMatch(env, s, l)
    requires N.Live(n, l.t) && l.t in s.threads && s.threads[l.t].space in s.spaces
    ensures Supported(env, s, n, l)
  {
    hide Sim, Run, NativeRun, N.Step, Apply, Bit, CoreAvailable, BlockAvailable;
    CallsWhatItSays(env, n, l);
    var ls :| MatchedBy(env, s, l, ls);
    var x := NativeRun(env, s, ls)[0];
    assert NativeRun(env, s, ls) == [x];
    var ms, mid, step := FindsStep(env, s, n, ls, x);
    AnsweredBy(mid, step, x);
    hide Answer;
    CallingThread(s, n, l.t);
    if Bit(n.threads[l.t].gpr[4], N.CLONE_VM_BIT) && !s.threads[l.t].phase.CloneArmed? && !CoreAvailable(s, l.t) {
      BlockedWaits(env, s, ms, mid, n, l.t);
      SharedCloneArmed(env, mid, n, step);
    }
  }

  /** A shared clone is taken by an armed thread only. */
  lemma SharedCloneArmed<K>(env: N.Env<K>, s: System<K>, n: N.System<K>, l: Label)
    requires Sim(s, n) && Apply(env, s, l).Some? && (l.CloneThread? || l.ForkProcess?)
    requires l.t in n.threads && Bit(n.threads[l.t].gpr[4], N.CLONE_VM_BIT)
    ensures l.t in s.threads && s.threads[l.t].phase.CloneArmed?
  {
    hide Sim, HasBlock, Params, CloneTypeOf, RequestOf, Bit;
    if l.ForkProcess? {
      StrategyIsNative(s, n, l.t);
    }
  }

  /** Exactly which native steps dune can match, from any state that stands for a native one and for any
      thread: the instruction's address and operand lie in the slot, and a forked child has memory for its
      first block; the number is not one of the two that the loop refuses; a clone that shares memory has
      a core available or armed; a clone that the kernel refuses is one whose result is passed on. */
  lemma CanMatchIffSupported<K>(env: N.Env<K>, s: System<K>, n: N.System<K>, l: N.Label)
    requires Sim(s, n) && N.Step(env, n, l).Some?
    ensures N.Live(n, l.t) && l.t in s.threads && s.threads[l.t].space in s.spaces
    ensures CanMatch(env, s, l) <==> Supported(env, s, n, l)
  {
    hide Sim, N.Step, CanMatch, Supported, N.Live;
    CallsWhatItSays(env, n, l);
    LiveInDune(s, n, l.t);
    if Supported(env, s, n, l) {
      if l.Ordinary? {
        SupportedOrdinaryMatches(env, s, n, l);
      } else if l.Clone? {
        SupportedCloneMatches(env, s, n, l);
      } else {
        SupportedCallMatches(env, s, n, l);
      }
    }
    if CanMatch(env, s, l) {
      if l.Ordinary? {
        MatchedOrdinaryIsSupported(env, s, n, l);
      } else if l.Clone? {
        MatchedCloneIsSupported(env, s, n, l);
      } else if l.Exit? {
        ExitIsSupported(env, s, n, l);
      } else {
        MatchedCallIsSupported(env, s, n, l);
      }
    }
  }

  lemma LiveInDune<K>(s: System<K>, n: N.System<K>, t: Word)
    requires Sim(s, n) && N.Live(n, t)
    ensures t in s.threads && s.threads[t].space in s.spaces
  {
    hide Sim;
    SimAgrees(s, n);
    FactsOf(s, n, t);
  }

  lemma ExitIsSupported<K>(env: N.Env<K>, s: System<K>, n: N.System<K>, l: N.Label)
    requires l.Exit? && N.Live(n, l.t) && l.t in s.threads && s.threads[l.t].space in s.spaces
    ensures Supported(env, s, n, l)
  {
  }

  // ---------- From the start ----------

  /** The process's first instruction can be taken if and only if it lies in the slot. */
  lemma FirstInstruction<K>(env: N.Env<K>, b: Boot<K>)
    requires BootOk(b) && N.Step(env, NativeStart(b), N.Ordinary(b.tid)).Some?
    ensures CanMatch(env, Start(b), N.Ordinary(b.tid))
            <==> b.pc < SLOT_SIZE && Within(env.op(b.pc, b.user), b.gpr, SLOT_SIZE)
  {
    hide Sim, Within, CanMatch, BlockAvailable;
    StartSim(b);
    CanMatchIffSupported(env, Start(b), NativeStart(b), N.Ordinary(b.tid));
  }

  /** A process that starts at the first address beyond the slot: natively its first instruction is an
      ordinary one, in dune nothing ever follows the misses it causes. */
  lemma BeyondTheSlot<K>(env: N.Env<K>, b: Boot<K>)
    requires BootOk(b) && b.pc == 0x100_0000_0000 && env.op(b.pc, b.user).Alu?
    ensures N.Step(env, NativeStart(b), N.Ordinary(b.tid)).Some?
    ensures !CanMatch(env, Start(b), N.Ordinary(b.tid))
  {
    hide CanMatch;
    FirstInstruction(env, b);
  }
}
