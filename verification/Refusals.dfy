/** Clones that the kernel refuses, in all three strategies: exactly when what dune shows its guest is what
    the native machine shows, and what becomes of a core that was armed for the child. */
module Refusals {
  import opened Words
  import opened LoongArch
  import opened Trampoline
  import opened Clone
  import opened Dune
  import opened Simulation
  import opened Refinement
  import opened CloneRefinement
  import opened ForkCode
  import opened Completeness
  import opened TreeSafety
  import N = Native

  /** The parent is at its host clone: SAME_VM has armed the child's core before. */
  predicate AtHostClone<K>(s: System<K>, t: Word)
  {
    && t in s.threads && (s.threads[t].phase.CloneReady? || s.threads[t].phase.CloneArmed?)
    && Works(s, t, s.threads[t].phase.v)
    && (s.threads[t].phase.CloneReady? ==> StrategyOf(s, t) != SameVm)
  }

  function StrategyAt<K>(s: System<K>, t: Word): CloneType
    requires AtHostClone(s, t)
  {
    CloneTypeOf(ParamsOf(s, t, s.threads[t].phase.v))
  }

  /** The host clone is refused with `errno`; nothing is undone. */
  function DoRefusal<K>(s: System<K>, t: Word, errno: Word): Option<System<K>>
  {
    if !AtHostClone(s, t) || !N.IsErrno(errno) then None else
      var v, answer: int := s.threads[t].phase.v, 0 - errno;
      Some(WithPhase(s, t, Storing(v, CloneResult(StrategyAt(s, t), answer)))
           .(log := s.log + [N.Refused(t, Dune.RequestOf(ParamsOf(s, t, v)), errno)]))
  }

  /** The kernel can refuse every host clone, and what the guest will find in a0 is the negated errno in one
      strategy and the errno itself in the other two. */
  lemma RefusalShows<K>(s: System<K>, n: N.System<K>, t: Word, errno: Word)
    requires Sim(s, n) && N.IsErrno(errno)
    requires (Cloning(s, t) && StrategyOf(s, t) != SameVm) || (t in s.threads && s.threads[t].phase.CloneArmed?)
    ensures AtHostClone(s, t) && DoRefusal(s, t, errno).Some?
    ensures var s', v := DoRefusal(s, t, errno).value, s.threads[t].phase.v;
            var r := if s.threads[t].phase.CloneReady? && StrategyOf(s, t) == DiffVmOldStack then TWO_64 - errno else errno;
            && s'.threads == s.threads[t := s.threads[t].(phase := Storing(v, r))]
            && s'.log == s.log + [N.Refused(t, Dune.RequestOf(ParamsOf(s, t, v)), errno)]
            && s'.vms == s.vms && s'.vcpus == s.vcpus && s'.spaces == s.spaces && s'.kernel == s.kernel
  {
    hide Sim, Params, HasBlock, CloneTypeOf, Dune.RequestOf, Armed;
    var e: int := errno;
    assert AsWord(-e) == TWO_64 - e;
    if s.threads[t].phase.CloneArmed? { ArmedFacts(s, n, t); }
  }

  /** The strategy that forwards the call as it is has no armed core, and a step of the machine. */
  lemma OldStackRefusal<K>(s: System<K>, n: N.System<K>, t: Word, errno: Word)
    requires Sim(s, n) && AtHostClone(s, t) && N.IsErrno(errno) && StrategyAt(s, t) == DiffVmOldStack
    ensures DoRefusal(s, t, errno) == DoForkFails(s, t, errno)
  {
    hide Sim, Params, HasBlock, CloneTypeOf;
    var e: int := errno;
    assert AsWord(-e) == TWO_64 - e;
    if s.threads[t].phase.CloneArmed? {
      ArmedFacts(s, n, t);
    }
  }

  lemma StrategyIs<K>(s: System<K>, n: N.System<K>, t: Word)
    requires Sim(s, n) && AtHostClone(s, t)
    ensures N.Calls(n, t) && n.threads[t].gpr[A7] == N.SYS_CLONE
    ensures StrategyAt(s, t) == DiffVmOldStack
            <==> !Bit(n.threads[t].gpr[4], N.CLONE_VM_BIT) && n.threads[t].gpr[5] == 0
  {
    hide Sim, Params, HasBlock, CloneTypeOf, Bit, Asking, Armed;
    CloneFacts(s, n, t);
    var v := s.threads[t].phase.v;
    RequestIsNative(CpuOf(s, v), ParamsOf(s, t, v), n.threads[t], s.threads[t].phase.info, 0, 0);
    if s.threads[t].phase.CloneReady? {
      StrategyIsNative(s, n, t);
    } else {
      ArmedFacts(s, n, t);
      ArmedIsShared(s, n, t);
    }
  }

  /** What a thread that has its answer stands for. */
  lemma AnswerIs<K>(s: System<K>, n: N.System<K>, t: Word)
    requires Sim(s, n) && t in s.threads && s.threads[t].phase.Storing?
    ensures t in n.threads && !n.threads[t].calling && n.threads[t].gpr[A0] == s.threads[t].phase.result
  {
    CoreFacts(s, n, t, s.threads[t].phase.v);
    hide Sim;
  }

  /** Natively, a clone is answered without a new thread only by a negated errno. */
  lemma AnsweredAlone<K>(env: N.Env<K>, n: N.System<K>, l: N.Label, n': N.System<K>, t: Word)
    requires N.Step(env, n, l) == Some(n') && N.Calls(n, t) && n.threads[t].gpr[A7] == N.SYS_CLONE
    requires n'.threads.Keys == n.threads.Keys && !n'.threads[t].calling
    ensures N.IsErrno(TWO_64 - n'.threads[t].gpr[A0])
  {
  }

  /** A refused clone leaves a state that stands for a native one, reached by a native step or none, if and
      only if it is a clone without CLONE_VM and without a stack of its own.  Otherwise the positive errno
      in a0 is what no native step leaves there. */
  lemma RefusalIsNativeIff<K>(env: N.Env<K>, s: System<K>, s': System<K>, n: N.System<K>, t: Word, errno: Word)
    requires Sim(s, n) && DoRefusal(s, t, errno) == Some(s')
    ensures N.Calls(n, t)
    ensures (exists l: Option<N.Label>, n' :: Follows(env, n, l, n') && Sim(s', n'))
            <==> !Bit(n.threads[t].gpr[4], N.CLONE_VM_BIT) && n.threads[t].gpr[5] == 0
  {
    hide Sim, Params, HasBlock, CloneTypeOf, Bit, N.Step, N.Calls;
    StrategyIs(s, n, t);
    if StrategyAt(s, t) == DiffVmOldStack {
      OldStackRefusal(s, n, t, errno);
      hide DoRefusal;
      var l, n' := ForkFailsSim(env, s, s', n, t, errno);
      assert Follows(env, n, Some(l), n');
    }
    hide DoForkFails;
    if l: Option<N.Label>, n' :| Follows(env, n, l, n') && Sim(s', n') {
      SimAgrees(s, n);
      SimAgrees(s', n');
      AnswerIs(s', n', t);
      assert l.Some?;
      AnsweredAlone(env, n, l.value, n', t);
    }
  }

  /** A core armed for the child of a refused clone: its slot stays claimed, and no thread holds it. */
  lemma RefusalLosesCore<K>(s: System<K>, s': System<K>, n: N.System<K>, t: Word, errno: Word, u: Word)
    requires Sim(s, n) && DoRefusal(s, t, errno) == Some(s') && s.threads[t].phase.CloneArmed?
    ensures var c := s.threads[t].phase.child;
            && c.vm in s'.vms && c.slot < |s'.vms[c.vm].valid| && s'.vms[c.vm].valid[c.slot]
            && (u in s'.threads ==> c !in Holds(s'.threads[u].phase))
  {
    hide Sim, Inv, DoRefusal, Holds, Works, Armed;
    RefusalKeeps(s, s', t, errno);
    ArmedChild(s, n, t);
    SimParts(s, n);
    var c := s.threads[t].phase.child;
    if u in s.threads && u != t && c in Holds(s.threads[u].phase) {
      OneHolder(s, t, u, c);
    }
  }

  lemma ArmedChild<K>(s: System<K>, n: N.System<K>, t: Word)
    requires Sim(s, n) && t in s.threads && s.threads[t].phase.CloneArmed?
    ensures var ph := s.threads[t].phase;
            && ph.child in Holds(ph) && ph.child != ph.v
            && ph.child.vm in s.vms && ph.child.slot < |s.vms[ph.child.vm].valid| && s.vms[ph.child.vm].valid[ph.child.slot]
  {
    hide Sim, Inv, Params, HasBlock, CloneTypeOf, Armed;
    SimParts(s, n);
    ArmedFacts(s, n, t);
    HoldersMayCall(s, t, s.threads[t].phase.child);
  }

  lemma RefusalKeeps<K>(s: System<K>, s': System<K>, t: Word, errno: Word)
    requires DoRefusal(s, t, errno) == Some(s')
    ensures t in s.threads && s'.vms == s.vms && s'.threads == s.threads[t := s'.threads[t]]
    ensures Holds(s'.threads[t].phase) == {s.threads[t].phase.v}
  {
    hide Params, HasBlock, CloneTypeOf, CloneResult, Dune.RequestOf;
  }
}
