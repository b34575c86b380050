/** The host loop as code and the host loop as steps of the machine do the same: one turn of `HostLoop.Loop`
    and of `ForkCode.EmulateFork` against the steps of `Dune` that stand for it. */
module LoopRefinement {
  import opened Words
  import opened LoongArch
  import opened Trampoline
  import opened Clone
  import opened Slots
  import opened Dune
  import opened Simulation
  import opened VmRefinement
  import opened Progress
  import opened HostLoop
  import opened ForkCode
  import N = Native

  /** How KVM_RUN returned for a thread that is back from its hypercall. */
  function ExitOf<K>(s: System<K>, t: Word, answer: Word): (r: RunExit)
    requires Asked(s, t)
    ensures |r.parameters| == PARAMETERS
  {
    RunExit(ExitHypercall, ParamsOf(s, t, s.threads[t].phase.v), answer)
  }

  /** The turn goes the way of the one step that the machine can take, and dies where it can take none. */
  lemma TurnBranches<K>(env: N.Env<K>, s: System<K>, n: N.System<K>, t: Word, answer: Word)
    requires Sim(s, n) && Asked(s, t)
    ensures var r := ExitOf(s, t, answer);
            && (Passes(r) <==> DoHostCall(env, s, t).Some?)
            && (!Passes(r) && EndingOf(r) == Finished <==> DoExitThread(env, s, t).Some?)
            && (!Passes(r) && EndingOf(r) == Forking && r.parameters[7] == N.SYS_CLONE <==> DoBeginClone(s, t).Some?)
  {
    hide Sim, HasBlock, Params;
    AskedFacts(s, n, t);
  }

  /** No guest memory is written. */
  predicate SameUsers<K>(s: System<K>, s': System<K>)
  {
    s'.spaces.Keys == s.spaces.Keys && forall a | a in s.spaces :: s'.spaces[a].user == s.spaces[a].user
  }

  lemma StoredParameters<K>(s: System<K>, t: Word, s': System<K>)
    requires DoStoreResult(s, t) == Some(s')
    ensures t in s.threads && s.threads[t].phase.Storing? && Works(s, t, s.threads[t].phase.v)
    ensures var v, r := s.threads[t].phase.v, s.threads[t].phase.result;
            && Works(s', t, v) && ParamsOf(s', t, v) == ParamsOf(s, t, v)[0 := r]
            && s'.threads[t].phase == Top(v) && s'.log == s.log && s'.kernel == s.kernel && SameUsers(s, s')
            && s'.threads == s.threads[t := s'.threads[t]] && s'.threads[t].space == s.threads[t].space
  {
    var v := s.threads[t].phase.v;
    var b := s.vcpus[v].block;
    forall i | 0 < i < PARAMETERS ensures Cell(b, i) != Cell(b, 0) {
      if Cell(b, i) == Cell(b, 0) { CellsDistinct(b, i, 0); }
    }
    hide Cell;
    assert ParamsOf(s', t, v) == ParamsOf(s, t, v)[0 := s.threads[t].phase.result];
  }

  /** An interrupt: the machine goes back to the top, and so does the loop, with nothing asked for and the
      block as it was. */
  lemma InterruptTurn<K>(s: System<K>, t: Word, answer: Word, s': System<K>)
    requires DoLoopAgain(s, t) == Some(s') && Works(s, t, s.threads[t].phase.v)
    ensures var v := s.threads[t].phase.v;
            var r := RunExit(ExitIntr, ParamsOf(s, t, v), answer);
            && Passes(r) && HostLoop.RequestOf(r) == [] && s'.log == s.log
            && Works(s', t, v) && s'.threads[t].phase == Top(v) && Replied(r) == ParamsOf(s', t, v)
  {
    hide Params, HasBlock;
  }

  /** A forwarded call: the block holds the reply of the turn, the call was the one it requests, and guest
      memory and kernel are as the kernel left them. */
  lemma CallTurn<K>(env: N.Env<K>, s: System<K>, t: Word, s1: System<K>, s2: System<K>)
    requires DoHostCall(env, s, t) == Some(s1) && DoStoreResult(s1, t) == Some(s2)
    ensures Asked(s, t) && Works(s2, t, s.threads[t].phase.v)
    ensures var v := s.threads[t].phase.v;
            var pr := ParamsOf(s, t, v);
            var (answer, m, k) := env.sys(t, pr[7], pr[..7], UserOf(s, t), s.kernel);
            var r := ExitOf(s, t, answer);
            && UserOf(s2, t) == m && s2.kernel == k
            && ParamsOf(s2, t, v) == Replied(r) && HostLoop.RequestOf(r) == [Request(pr[7], pr[..7])]
            && s2.log == s.log + [N.Called(t, pr[7], pr[..7], r.answer)] && s2.threads[t].phase == Top(v)
  {
    StoredParameters(s1, t, s2);
    hide HasBlock, DoStoreResult, Params;
  }

  /** The exit of a thread: the turn ends, its request carries the status, and the slot is the one that
      `kvm_free_vcpu` clears. */
  lemma ExitTurn<K>(env: N.Env<K>, s: System<K>, t: Word, answer: Word, s': System<K>)
    requires DoExitThread(env, s, t) == Some(s')
    ensures Asked(s, t) && EndingOf(ExitOf(s, t, answer)) == Finished
    ensures var v, pr := s.threads[t].phase.v, ParamsOf(s, t, s.threads[t].phase.v);
            && HostLoop.RequestOf(ExitOf(s, t, answer)) == [Request(N.SYS_EXIT, pr[..7])]
            && s'.log == s.log + [N.Left(t, pr[0])] && t !in s'.threads
            && v.vm in s'.vms && s'.vms == s.vms[v.vm := s'.vms[v.vm]]
            && v.slot < |s.vms[v.vm].valid| && s'.vms[v.vm].valid == s.vms[v.vm].valid[v.slot := false]
    ensures var a, (m, k) := s.threads[t].space, env.exit(t, ParamsOf(s, t, s.threads[t].phase.v)[0], UserOf(s, t), s.kernel);
            a in s'.spaces && s'.spaces[a].user == m && s'.kernel == k
  {
    hide HasBlock, Params;
  }

  /** The call `r` asks the kernel for the clone `c`: flags, stack, the two thread id addresses, parent's
      first, and the thread pointer are its arguments, in this order. */
  predicate AsksToClone(r: Request, c: N.CloneArgs)
  {
    && r.nr == N.SYS_CLONE && |r.args| >= 5
    && c.flags == r.args[0] && c.ptid == r.args[2] && c.ctid == r.args[3] && c.tls == r.args[4]
  }

  /** The guest's own call and the two forms in which `emulate_fork` passes it on, with a stack of the host
      or as it is, ask for the same clone, the one in the log of both machines. */
  lemma ClonesAlike(g: Regs, pr: seq<Word>, stack: Word)
    requires |pr| == PARAMETERS && pr[7] == g[A7] == N.SYS_CLONE && pr[..7] == g[A0..A7]
    ensures AsksToClone(Request(g[A7], [g[4], g[5], g[6], g[7], g[8], g[9], g[10]]), N.ArgsOf(g))
    ensures AsksToClone(Request(N.SYS_CLONE, [pr[0], stack, pr[2], pr[3], pr[4]]), Dune.RequestOf(pr))
    ensures AsksToClone(Request(pr[7], pr[..7]), Dune.RequestOf(pr))
    ensures Dune.RequestOf(pr) == N.ArgsOf(g)
  {
    assert forall i | 0 <= i < 7 :: pr[i] == pr[..7][i] == g[A0..A7][i] == g[A0 + i];
  }

  lemma ForwardedClone(pr: seq<Word>)
    requires |pr| == PARAMETERS
    ensures AsksToClone(Request(N.SYS_CLONE, pr[..7]), Dune.RequestOf(pr))
  {
  }

  lemma BeginsWith<K>(s: System<K>, t: Word, s1: System<K>)
    requires DoBeginClone(s, t) == Some(s1)
    ensures Asked(s, t) && t in s1.threads && s.threads[t].space in s.spaces
    ensures var v, c := s.threads[t].phase.v, CpuOf(s, s.threads[t].phase.v);
            && s1 == WithPhase(s, t, CloneReady(v, ThreadInfo(c.gpr, c.csr.epc, c.csr.ebase)))
            && Works(s1, t, v) && ParamsOf(s1, t, v) == ParamsOf(s, t, v)
  {
    hide Params, HasBlock;
  }

  lemma ForkedThread<K>(env: N.Env<K>, s: System<K>, t: Word, child: Word, space: nat, s': System<K>)
    requires DoForkProcess(env, s, t, child, space) == Some(s')
    ensures Cloning(s, t) && StrategyOf(s, t) != SameVm && child !in s.threads && t in s'.threads
    ensures var v := s.threads[t].phase.v;
            && s'.threads[t].phase == Storing(v, child)
            && s'.log == s.log + [N.Cloned(t, child, Dune.RequestOf(ParamsOf(s, t, v)))]
            && child in s'.threads && space in s'.spaces && space != s.threads[t].space
            && s'.threads[child] == Thread(space, NeedsVm(s.vcpus[v].block, s.threads[t].phase.info))
            && HasBlock(s'.spaces[space].blocks, s.vcpus[v].block)
            && Params(s'.spaces[space].blocks, s.vcpus[v].block) == ParamsOf(s, t, v)
            && (Works(s', t, v) ==> ParamsOf(s', t, v) == ParamsOf(s, t, v))
    ensures s'.threads[t].space == s.threads[t].space && s'.threads[t].space in s'.spaces
    ensures var pr := ParamsOf(s, t, s.threads[t].phase.v);
            (UserOf(s', t), s'.spaces[space].user, s'.kernel) == env.clone(t, Dune.RequestOf(pr), child, UserOf(s, t), s.kernel)
  {
    hide CloneTypeOf, Dune.RequestOf, Params, HasBlock;
  }

  /** A clone into a new VM: the block ends up with what `EmulateFork` leaves there for a child's number, the
      kernel was asked for the same clone, and the child starts from what `GetParentThreadInfo` fetched and
      from an untouched copy of the block. */
  lemma ForkTurn<K>(env: N.Env<K>, s: System<K>, t: Word, child: Word, space: nat, s1: System<K>, s2: System<K>, s3: System<K>)
    requires DoBeginClone(s, t) == Some(s1) && DoForkProcess(env, s1, t, child, space) == Some(s2)
    requires DoStoreResult(s2, t) == Some(s3) && child < TWO_64 / 2
    ensures Asked(s, t) && Works(s3, t, s.threads[t].phase.v)
    ensures var v, c, pr := s.threads[t].phase.v, CpuOf(s, s.threads[t].phase.v), ParamsOf(s, t, s.threads[t].phase.v);
            && CloneTypeOf(pr) != SameVm
            && AsksToClone(Request(N.SYS_CLONE, pr[..7]), Dune.RequestOf(pr))
            && ParamsOf(s3, t, v) == pr[0 := CloneResult(CloneTypeOf(pr), child)]
            && s3.log == s.log + [N.Cloned(t, child, Dune.RequestOf(pr))]
            && child in s2.threads && space in s2.spaces && child != t
            && s2.threads[child] == Thread(space, NeedsVm(s.vcpus[v].block, ThreadInfo(c.gpr, c.csr.epc, c.csr.ebase)))
            && HasBlock(s2.spaces[space].blocks, s.vcpus[v].block)
            && Params(s2.spaces[space].blocks, s.vcpus[v].block) == pr
    ensures space in s3.spaces
    ensures var pr := ParamsOf(s, t, s.threads[t].phase.v);
            (UserOf(s3, t), s3.spaces[space].user, s3.kernel) == env.clone(t, Dune.RequestOf(pr), child, UserOf(s, t), s.kernel)
  {
    hide DoBeginClone, DoForkProcess, DoStoreResult, CloneTypeOf, Dune.RequestOf, AsksToClone, Works, Params, HasBlock;
    BeginsWith(s, t, s1);
    ForwardedClone(ParamsOf(s, t, s.threads[t].phase.v));
    ForkedThread(env, s1, t, child, space, s2);
    StoredParameters(s2, t, s3);
  }

  /** A refused clone of the strategy that forwards the call: the block ends up with the negated errno, as
      `EmulateOldStack` leaves it, and nothing else has happened. */
  lemma RefusedTurn<K>(s: System<K>, t: Word, errno: Word, s1: System<K>, s2: System<K>, s3: System<K>)
    requires DoBeginClone(s, t) == Some(s1) && DoForkFails(s1, t, errno) == Some(s2) && DoStoreResult(s2, t) == Some(s3)
    ensures Asked(s, t) && Works(s3, t, s.threads[t].phase.v) && N.IsErrno(errno)
    ensures var v, pr, answer: int := s.threads[t].phase.v, ParamsOf(s, t, s.threads[t].phase.v), 0 - errno;
            && CloneTypeOf(pr) == DiffVmOldStack && AsksToClone(Request(N.SYS_CLONE, pr[..7]), Dune.RequestOf(pr))
            && ParamsOf(s3, t, v) == pr[0 := CloneResult(DiffVmOldStack, answer)]
            && s3.log == s.log + [N.Refused(t, Dune.RequestOf(pr), errno)]
            && s3.threads.Keys == s.threads.Keys && s3.vms == s.vms && s3.vcpus == s.vcpus
  {
    hide DoBeginClone, DoForkFails, DoStoreResult, CloneTypeOf, Dune.RequestOf, AsksToClone, Works, Params, HasBlock;
    BeginsWith(s, t, s1);
    ForwardedClone(ParamsOf(s, t, s.threads[t].phase.v));
    RefusedThread(s1, t, errno, s2);
    StoredParameters(s2, t, s3);
    StoresOnly(s2, t, s3);
    StartsOnly(s, t, s1);
  }

  lemma RefusedThread<K>(s: System<K>, t: Word, errno: Word, s': System<K>)
    requires DoForkFails(s, t, errno) == Some(s')
    ensures Cloning(s, t) && StrategyOf(s, t) == DiffVmOldStack && N.IsErrno(errno) && t in s'.threads
    ensures var v := s.threads[t].phase.v;
            && s'.threads == s.threads[t := s.threads[t].(phase := Storing(v, TWO_64 - errno))]
            && s'.log == s.log + [N.Refused(t, Dune.RequestOf(ParamsOf(s, t, v)), errno)]
            && s'.vms == s.vms && s'.vcpus == s.vcpus
            && Works(s', t, v) && ParamsOf(s', t, v) == ParamsOf(s, t, v)
  {
    hide CloneTypeOf, Dune.RequestOf, Params, HasBlock;
  }

  lemma StoresOnly<K>(s: System<K>, t: Word, s': System<K>)
    requires DoStoreResult(s, t) == Some(s')
    ensures s'.threads.Keys == s.threads.Keys && s'.vms == s.vms && s'.vcpus == s.vcpus
  {
  }

  lemma StartsOnly<K>(s: System<K>, t: Word, s': System<K>)
    requires DoBeginClone(s, t) == Some(s')
    ensures s'.threads.Keys == s.threads.Keys && s'.vms == s.vms && s'.vcpus == s.vcpus && s'.log == s.log
  {
    hide Params, HasBlock;
  }

  lemma ArmedCoreOf<K>(s: System<K>, t: Word, block: Word, s': System<K>)
    requires DoArmChild(s, t, block) == Some(s')
    ensures Cloning(s, t) && StrategyOf(s, t) == SameVm && t in s'.threads && s'.log == s.log && s'.kernel == s.kernel
    ensures var v, info := s.threads[t].phase.v, s.threads[t].phase.info;
            var w := VcpuId(v.vm, FirstFree(s.vms[v.vm].valid));
            && w in s'.vcpus && s'.threads[t].phase == CloneArmed(v, info, w) && s'.threads.Keys == s.threads.Keys
            && s'.vcpus[w].cpu == InitChild(if w in s.vcpus then CpuOf(s, w) else NewCpu(), info, ParamsOf(s, t, v), s'.vcpus[w].block)
            && (w != v ==> Works(s', t, v) && ParamsOf(s', t, v) == ParamsOf(s, t, v))
  {
    hide InitChild, CloneTypeOf, Params, HasBlock, Allocatable, ZeroBlock;
    var v := s.threads[t].phase.v;
    var w := VcpuId(v.vm, FirstFree(s.vms[v.vm].valid));
    var m := BlocksOf(s, t);
    if w in s.vcpus {
      ExtendsItself(m);
      assert BlocksOf(s', t) == m;
    } else {
      assert BlocksOf(s', t) == m + ZeroBlock(block);
      ZeroBlockServes(m, block);
    }
    ExtendedParams(m, BlocksOf(s', t), s.vcpus[v].block);
    hide Extends;
  }

  lemma ClonedThread<K>(env: N.Env<K>, s: System<K>, t: Word, child: Word, s': System<K>)
    requires DoCloneThread(env, s, t, child) == Some(s')
    ensures t in s.threads && s.threads[t].phase.CloneArmed? && Works(s, t, s.threads[t].phase.v) && child !in s.threads
    ensures var v := s.threads[t].phase.v;
            && child in s'.threads && s'.threads[child].phase == Top(s.threads[t].phase.child)
            && t in s'.threads && s'.threads[t].phase == Storing(v, child)
            && s'.vcpus == s.vcpus && s'.log == s.log + [N.Cloned(t, child, Dune.RequestOf(ParamsOf(s, t, v)))]
            && (Works(s', t, v) ==> ParamsOf(s', t, v) == ParamsOf(s, t, v))
  {
    hide Params, HasBlock, Dune.RequestOf;
  }

  /** A clone into the same VM, the same way; the child's core is the one that `EmulateSameVm` arms, from
      the block as the guest left it. */
  lemma SharedTurn<K>(env: N.Env<K>, s: System<K>, n: N.System<K>, t: Word, block: Word, child: Word,
                      s1: System<K>, s2: System<K>, s3: System<K>, s4: System<K>)
    requires Sim(s, n) && DoBeginClone(s, t) == Some(s1) && DoArmChild(s1, t, block) == Some(s2)
    requires DoCloneThread(env, s2, t, child) == Some(s3) && DoStoreResult(s3, t) == Some(s4) && child < TWO_64 / 2
    ensures Asked(s, t) && Works(s4, t, s.threads[t].phase.v)
    ensures var v, c, pr := s.threads[t].phase.v, CpuOf(s, s.threads[t].phase.v), ParamsOf(s, t, s.threads[t].phase.v);
            var w := VcpuId(v.vm, FirstFree(s.vms[v.vm].valid));
            var info := ThreadInfo(c.gpr, c.csr.epc, c.csr.ebase);
            && CloneTypeOf(pr) == SameVm && w != v && child != t
            && AsksToClone(Request(N.SYS_CLONE, pr[..7]), Dune.RequestOf(pr))
            && w in s3.vcpus && child in s3.threads && s3.threads[child].phase == Top(w)
            && s3.vcpus[w].cpu == InitChild(if w in s.vcpus then CpuOf(s, w) else NewCpu(), info, pr, s3.vcpus[w].block)
            && ParamsOf(s4, t, v) == pr[0 := CloneResult(SameVm, child)]
            && s4.log == s.log + [N.Cloned(t, child, Dune.RequestOf(pr))]
  {
    hide Sim, DoBeginClone, DoArmChild, DoCloneThread, DoStoreResult, CloneTypeOf, Dune.RequestOf, AsksToClone, InitChild, Works, Params;
    BeginsWith(s, t, s1);
    AskedFacts(s, n, t);
    ArmedCoreOf(s1, t, block, s2);
    ForwardedClone(ParamsOf(s, t, s.threads[t].phase.v));
    ClonedThread(env, s2, t, child, s3);
    StoredParameters(s3, t, s4);
  }

  lemma ArmsOnly<K>(s: System<K>, t: Word, block: Word, s': System<K>)
    requires DoArmChild(s, t, block) == Some(s')
    ensures t in s.threads && t in s'.threads && s'.threads[t].space == s.threads[t].space && SameUsers(s, s')
    ensures s'.kernel == s.kernel
  {
    hide InitChild, CloneTypeOf, Params, HasBlock, Allocatable, ZeroBlock;
  }

  lemma ClonedMemory<K>(env: N.Env<K>, s: System<K>, t: Word, child: Word, s': System<K>)
    requires DoCloneThread(env, s, t, child) == Some(s')
    ensures t in s.threads && s.threads[t].phase.CloneArmed? && Works(s, t, s.threads[t].phase.v)
    ensures var a := s.threads[t].space;
            && t in s'.threads && child in s'.threads && a in s'.spaces
            && s'.threads[t].space == a && s'.threads[child].space == a
            && var c := env.clone(t, Dune.RequestOf(ParamsOf(s, t, s.threads[t].phase.v)), child, UserOf(s, t), s.kernel);
               s'.spaces[a].user == c.0 && s'.kernel == c.2
  {
    hide Params, HasBlock, Dune.RequestOf;
  }

  /** The same turn again: parent and child share one memory and the kernel, both as the kernel left them for
      the clone that the block asks for. */
  lemma SharedTurnMemory<K>(env: N.Env<K>, s: System<K>, n: N.System<K>, t: Word, block: Word, child: Word,
                            s1: System<K>, s2: System<K>, s3: System<K>, s4: System<K>)
    requires Sim(s, n) && DoBeginClone(s, t) == Some(s1) && DoArmChild(s1, t, block) == Some(s2)
    requires DoCloneThread(env, s2, t, child) == Some(s3) && DoStoreResult(s3, t) == Some(s4)
    ensures Asked(s, t)
    ensures var a, pr := s.threads[t].space, ParamsOf(s, t, s.threads[t].phase.v);
            && t in s4.threads && child in s4.threads && a in s4.spaces
            && s4.threads[t].space == a && s4.threads[child].space == a
            && var c := env.clone(t, Dune.RequestOf(pr), child, UserOf(s, t), s.kernel);
               s4.spaces[a].user == c.0 && s4.kernel == c.2
  {
    hide Sim, DoBeginClone, DoArmChild, DoCloneThread, DoStoreResult, CloneTypeOf, Dune.RequestOf, InitChild, Works, Params;
    BeginsWith(s, t, s1);
    AskedFacts(s, n, t);
    ArmedCoreOf(s1, t, block, s2);
    ArmsOnly(s1, t, block, s2);
    ClonedMemory(env, s2, t, child, s3);
    StoredParameters(s3, t, s4);
  }
}
