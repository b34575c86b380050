/** Clone refines the native clone: the steps that create threads, address spaces, cores and VMs keep the
    simulation, whatever the flags, the stack and the thread pointer, and however they nest. */
module CloneRefinement {
  import opened Words
  import opened LoongArch
  import opened Handlers
  import opened Trampoline
  import opened Clone
  import opened Dune
  import opened Simulation
  import opened Refinement
  import N = Native

  /** A thread that waits behind its clone, its parent-side state read off the simulation. */
  lemma CloneFacts<K>(s: System<K>, n: N.System<K>, t: Word)
    requires Sim(s, n) && t in s.threads && (s.threads[t].phase.CloneReady? || s.threads[t].phase.CloneArmed?)
    ensures var v := s.threads[t].phase.v;
            && Works(s, t, v)
            && t in n.threads && n.threads[t].space == s.threads[t].space
            && var c, pr, th := CpuOf(s, v), ParamsOf(s, t, v), n.threads[t];
               && c.pending && !c.loc.Refill? && Asking(ViewOf(c), pr, th)
               && s.threads[t].phase.info == ThreadInfo(c.gpr, c.csr.epc, c.csr.ebase)
               && pr[7] == N.SYS_CLONE && c.csr.ebase != 0
    ensures N.Calls(n, t) && N.MemOf(n, t) == UserOf(s, t)
  {
    var v := s.threads[t].phase.v;
    CoreFacts(s, n, t, v);
    FactsOf(s, n, t);
    hide Sim, Matches, ThreadOk, Serves, Works;
  }

  /** The native thread behind the clone, and the native child. */
  function NativeParent(th: N.Thread, child: Word, epc: Word): N.Thread
  {
    N.Returned(th, child, epc)
  }

  function NativeChild(th: N.Thread, space: nat, t0: Word): N.Thread
  {
    N.Thread(space, N.ChildAfterClone(th.gpr, th.gpr[4], th.gpr[5], th.gpr[8], t0), Add(th.pc, 4), false)
  }

  /** Dune's clone request and the native one are the same five arguments. */
  lemma RequestIsNative(c: Cpu, pr: seq<Word>, th: N.Thread, info: ThreadInfo, child: Word, space: nat)
    requires |pr| == PARAMETERS && Asking(ViewOf(c), pr, th) && !c.loc.Refill?
    requires info == ThreadInfo(c.gpr, c.csr.epc, c.csr.ebase)
    ensures RequestOf(pr) == N.ArgsOf(th.gpr)
    ensures CloneTypeOf(pr) == SameVm <==> Bit(th.gpr[4], N.CLONE_VM_BIT)
    ensures th.gpr[A7] == pr[7]
    ensures Answered(ViewOf(c), child, NativeParent(th, child, c.csr.epc))
    ensures NativeChild(th, space, c.gpr[T0]).gpr == ChildRegs(info.regs, pr)
    ensures NativeChild(th, space, c.gpr[T0]).pc == Add(info.era, 4)
  {
    ViewIsPlain(c);
    ChildIsNative(ViewOf(c), pr, th);
  }

  // ---------- SAME_VM: the host clone ----------

  /** The parent's phase changes and a thread with its own phase appears; nothing else does. */
  function Joined<K>(s: System<K>, t: Word, p: Phase, child: Word, q: Thread): System<K>
    requires t in s.threads
  {
    s.(threads := s.threads[t := s.threads[t].(phase := p)][child := q])
  }

  /** The two threads between them hold no more than the first did before. */
  ghost predicate CanJoin<K>(s: System<K>, t: Word, p: Phase, child: Word, q: Thread)
  {
    && Inv(s) && t in s.threads && child !in s.threads && q.space == s.threads[t].space
    && Holds(p) + Holds(q.phase) <= Holds(s.threads[t].phase) && Holds(p) !! Holds(q.phase)
    && !s.threads[t].phase.NeedsVm? && !p.NeedsVm? && !q.phase.NeedsVm?
  }

  lemma JoinedHoldings<K>(s: System<K>, t: Word, p: Phase, child: Word, q: Thread)
    requires CanJoin(s, t, p, child, q)
    ensures HoldingsApart(Joined(s, t, p, child, q))
  {
    hide VcpuOk, ThreadOk, VcpusApart, NewbornsAlone, Holds;
  }

  lemma JoinedNewborns<K>(s: System<K>, t: Word, p: Phase, child: Word, q: Thread)
    requires CanJoin(s, t, p, child, q)
    ensures NewbornsAlone(Joined(s, t, p, child, q))
  {
    hide VcpuOk, ThreadOk, VcpusApart, HoldingsApart, Holds;
    var s' := Joined(s, t, p, child, q);
    forall u | u in s'.threads && s'.threads[u].phase.NeedsVm? ensures Newborn(s', u) {
      assert Newborn(s, u);
    }
  }

  lemma JoinedApart<K>(s: System<K>, t: Word, p: Phase, child: Word, q: Thread)
    requires CanJoin(s, t, p, child, q)
    ensures VcpusApart(Joined(s, t, p, child, q))
    ensures HoldingsApart(Joined(s, t, p, child, q)) && NewbornsAlone(Joined(s, t, p, child, q))
  {
    JoinedHoldings(s, t, p, child, q);
    JoinedNewborns(s, t, p, child, q);
    hide VcpuOk, ThreadOk, BlocksApart, HoldingsApart, NewbornsAlone, Holds;
  }

  lemma JoinedSeats<K>(s: System<K>, t: Word, p: Phase, child: Word, q: Thread, u: Word)
    requires Inv(s) && t in s.threads && child !in s.threads && q.space == s.threads[t].space
    requires Holds(p) + Holds(q.phase) <= Holds(s.threads[t].phase)
    requires !s.threads[t].phase.NeedsVm? && !p.NeedsVm? && !q.phase.NeedsVm?
    requires u in s.threads || u == child
    ensures ThreadOk(Joined(s, t, p, child, q), u)
    ensures u in s.threads && u != t ==> ThreadOk(s, u) && Untouched(s, Joined(s, t, p, child, q), u)
  {
    hide Serves, VcpusApart, HoldingsApart, NewbornsAlone;
    var s' := Joined(s, t, p, child, q);
    forall w | w in s.vcpus ensures VcpuOk(s', w) {
      assert VcpuOk(s, w);
    }
    assert ThreadOk(s, t);
    if u in s.threads { assert ThreadOk(s, u); }
    if u == t { assert p.v in Holds(p); }
    if u == child { assert q.phase.v in Holds(q.phase); }
  }

  /** An armed core, about to run, stands for the native child. */
  lemma ArmedStandsForChild(c: Cpu, info: ThreadInfo, pr: seq<Word>, any: seq<Word>, th: N.Thread)
    requires |pr| == PARAMETERS && |any| == PARAMETERS && Armed(c, info, pr)
    requires th.gpr == ChildRegs(info.regs, pr) && th.pc == Add(info.era, 4) && !th.calling
    ensures StandsFor(ViewOf(Resume(c)), any, th)
  {
    ViewIsPlain(Resume(c));
  }

  /** Puts the pieces of `Matches` together for a thread that has just its own core. */
  lemma MatchesFrom<K>(s: System<K>, t: Word, v: VcpuId, b: Word, c: Cpu, m: Mem, th: N.Thread)
    requires t in s.threads && ThreadOk(s, t)
    requires !s.threads[t].phase.NeedsVm? && !s.threads[t].phase.CloneArmed? && s.threads[t].phase.v == v
    requires v in s.vcpus && s.vcpus[v] == Vcpu(b, c) && BlocksOf(s, t) == m && HasBlock(m, b)
    requires Mirrors(s.threads[t].phase, c, Params(m, b), th)
    ensures Matches(s, t, th)
  {
    hide Mirrors, Seated;
  }

  lemma JoinedShape<K>(s: System<K>, t: Word, p: Phase, child: Word, q: Thread)
    requires t in s.threads && s.threads[t].space in s.spaces && child != t && q.space == s.threads[t].space
    ensures var s' := Joined(s, t, p, child, q);
            && t in s'.threads && s'.threads[t] == s.threads[t].(phase := p) && child in s'.threads && s'.threads[child] == q
            && s'.vcpus == s.vcpus && s'.spaces == s.spaces
  {
  }

  lemma WorksFacts<K>(s: System<K>, t: Word, v: VcpuId)
    requires Works(s, t, v)
    ensures t in s.threads && s.threads[t].space in s.spaces && v in s.vcpus
    ensures HasBlock(BlocksOf(s, t), s.vcpus[v].block)
  {
    hide HasBlock;
  }

  lemma CloneThreadParent<K>(s: System<K>, n: N.System<K>, t: Word, child: Word)
    requires Sim(s, n) && t in s.threads && s.threads[t].phase.CloneArmed? && child !in s.threads
    ensures var ph := s.threads[t].phase;
            var s' := Joined(s, t, Storing(ph.v, child), child, Thread(s.threads[t].space, Top(ph.child)));
            && ph.v in s.vcpus && t in n.threads && ThreadOk(s', t)
            && Matches(s', t, NativeParent(n.threads[t], child, CpuOf(s, ph.v).csr.epc))
  {
    hide Sim, Inv, Asking, Answered, Seated, Armed, HasBlock, ThreadOk, NativeParent, Params, Works, Joined, CloneTypeOf;
    var ph := s.threads[t].phase;
    var p, q := Storing(ph.v, child), Thread(s.threads[t].space, Top(ph.child));
    CloneFacts(s, n, t);
    WorksFacts(s, t, ph.v);
    SimParts(s, n);
    JoinedSeats(s, t, p, child, q, t);
    JoinedShape(s, t, p, child, q);
    var c, pr := CpuOf(s, ph.v), ParamsOf(s, t, ph.v);
    RequestIsNative(c, pr, n.threads[t], ph.info, child, 0);
    MatchesFrom(Joined(s, t, p, child, q), t, ph.v, s.vcpus[ph.v].block, c, BlocksOf(s, t),
                NativeParent(n.threads[t], child, c.csr.epc));
  }

  lemma CloneThreadChild<K>(s: System<K>, n: N.System<K>, t: Word, child: Word)
    requires Sim(s, n) && t in s.threads && s.threads[t].phase.CloneArmed? && child !in s.threads
    ensures var ph := s.threads[t].phase;
            var s' := Joined(s, t, Storing(ph.v, child), child, Thread(s.threads[t].space, Top(ph.child)));
            && ph.v in s.vcpus && t in n.threads && ThreadOk(s', child)
            && Matches(s', child, NativeChild(n.threads[t], s.threads[t].space, CpuOf(s, ph.v).gpr[T0]))
  {
    hide Sim, Asking, Answered, Seated, Armed, HasBlock, ThreadOk, StandsFor, Params, Resume;
    var ph, a := s.threads[t].phase, s.threads[t].space;
    var p, q := Storing(ph.v, child), Thread(a, Top(ph.child));
    CloneFacts(s, n, t);
    ArmedFacts(s, n, t);
    SimParts(s, n);
    JoinedSeats(s, t, p, child, q, child);
    var c, pr, th := CpuOf(s, ph.v), ParamsOf(s, t, ph.v), n.threads[t];
    RequestIsNative(c, pr, th, ph.info, child, a);
    ArmedBlock(s, t);
    hide Inv;
    var b := s.vcpus[ph.child].block;
    var born := NativeChild(th, a, c.gpr[T0]);
    ArmedStandsForChild(CpuOf(s, ph.child), ph.info, pr, Params(BlocksOf(s, t), b), born);
    MatchesFrom(Joined(s, t, p, child, q), child, ph.child, b, CpuOf(s, ph.child), BlocksOf(s, t), born);
  }

  lemma ArmedFacts<K>(s: System<K>, n: N.System<K>, t: Word)
    requires Sim(s, n) && t in s.threads && s.threads[t].phase.CloneArmed?
    ensures var ph := s.threads[t].phase;
            && Works(s, t, ph.v) && ph.child in s.vcpus && ph.child != ph.v
            && Armed(CpuOf(s, ph.child), ph.info, ParamsOf(s, t, ph.v))
            && CloneTypeOf(ParamsOf(s, t, ph.v)) == SameVm
  {
    hide Sim, Asking, Answered, Armed, CloneTypeOf;
    CloneFacts(s, n, t);
    FactsOf(s, n, t);
    hide Params, HasBlock, VcpuOk;
  }

  lemma ArmedBlock<K>(s: System<K>, t: Word)
    requires Inv(s) && t in s.threads && s.threads[t].phase.CloneArmed?
    ensures s.threads[t].space in s.spaces && s.threads[t].phase.child in s.vcpus
    ensures HasBlock(BlocksOf(s, t), s.vcpus[s.threads[t].phase.child].block)
  {
    assert ThreadOk(s, t);
  }

  lemma JoinedInv<K>(s: System<K>, t: Word, p: Phase, child: Word, q: Thread)
    requires CanJoin(s, t, p, child, q)
    ensures Inv(Joined(s, t, p, child, q))
  {
    JoinedApart(s, t, p, child, q);
    hide ThreadOk, VcpusApart, HoldingsApart, NewbornsAlone, Serves;
    var s' := Joined(s, t, p, child, q);
    forall u | u in s'.threads ensures ThreadOk(s', u) {
      JoinedSeats(s, t, p, child, q, u);
    }
    forall w | w in s'.vcpus ensures VcpuOk(s', w) {
      assert VcpuOk(s, w);
    }
  }

  function NativeJoined<K>(n: N.System<K>, t: Word, parent: N.Thread, child: Word, born: N.Thread): N.System<K>
  {
    n.(threads := n.threads[t := parent][child := born])
  }

  lemma JoinedAllPaired<K>(s: System<K>, n: N.System<K>, t: Word, p: Phase, child: Word, q: Thread, parent: N.Thread, born: N.Thread)
    requires Sim(s, n) && t in s.threads && child !in s.threads && q.space == s.threads[t].space
    requires Holds(p) + Holds(q.phase) <= Holds(s.threads[t].phase)
    requires !s.threads[t].phase.NeedsVm? && !p.NeedsVm? && !q.phase.NeedsVm?
    requires parent.space == s.threads[t].space && born.space == q.space
    requires ThreadOk(Joined(s, t, p, child, q), t) && Matches(Joined(s, t, p, child, q), t, parent)
    requires ThreadOk(Joined(s, t, p, child, q), child) && Matches(Joined(s, t, p, child, q), child, born)
    ensures AllPaired(Joined(s, t, p, child, q), NativeJoined(n, t, parent, child, born))
  {
    hide Sim, ThreadOk, Matches;
    var s', n' := Joined(s, t, p, child, q), NativeJoined(n, t, parent, child, born);
    forall u | u in s'.threads ensures ThreadOk(s', u) && u in n'.threads && Paired(s', n', u) {
      if u != t && u != child {
        FactsOf(s, n, u);
        SimParts(s, n);
        JoinedSeats(s, t, p, child, q, u);
        UntouchedMatches(s, s', u, n.threads[u]);
      }
    }
  }

  lemma SimParts<K>(s: System<K>, n: N.System<K>)
    requires Sim(s, n)
    ensures Inv(s) && Agrees(s, n) && AllPaired(s, n)
  {
  }

  /** The state behind the host clone of SAME_VM, but for what the kernel did to user memory. */
  function Spawned<K>(s: System<K>, t: Word, child: Word): System<K>
    requires t in s.threads && s.threads[t].phase.CloneArmed?
  {
    var ph := s.threads[t].phase;
    Joined(s, t, Storing(ph.v, child), child, Thread(s.threads[t].space, Top(ph.child)))
  }

  function NativeSpawned<K>(n: N.System<K>, c: Cpu, t: Word, child: Word): N.System<K>
    requires t in n.threads
  {
    var th := n.threads[t];
    NativeJoined(n, t, NativeParent(th, child, c.csr.epc), child, NativeChild(th, th.space, c.gpr[T0]))
  }

  lemma SpawnedPaired<K>(s: System<K>, n: N.System<K>, t: Word, child: Word)
    requires Sim(s, n) && t in s.threads && s.threads[t].phase.CloneArmed? && child !in s.threads
    ensures s.threads[t].phase.v in s.vcpus && t in n.threads
    ensures AllPaired(Spawned(s, t, child), NativeSpawned(n, CpuOf(s, s.threads[t].phase.v), t, child))
  {
    hide Sim, AllPaired, ThreadOk, Matches, Asking, Armed, Params, HasBlock, NativeParent, NativeChild, Joined;
    var ph, a := s.threads[t].phase, s.threads[t].space;
    CloneFacts(s, n, t);
    ArmedFacts(s, n, t);
    hide Works, CloneTypeOf;
    SimParts(s, n);
    hide Inv, Agrees;
    CloneThreadParent(s, n, t, child);
    CloneThreadChild(s, n, t, child);
    var c := CpuOf(s, ph.v);
    BornSpaces(n.threads[t], child, c.csr.epc, a, c.gpr[T0]);
    JoinedAllPaired(s, n, t, Storing(ph.v, child), child, Thread(a, Top(ph.child)),
                    NativeParent(n.threads[t], child, c.csr.epc), NativeChild(n.threads[t], a, c.gpr[T0]));
  }

  lemma SpawnedSim<K>(s: System<K>, n: N.System<K>, t: Word, child: Word)
    requires Sim(s, n) && t in s.threads && s.threads[t].phase.CloneArmed? && child !in s.threads
    ensures s.threads[t].phase.v in s.vcpus && t in n.threads
    ensures Sim(Spawned(s, t, child), NativeSpawned(n, CpuOf(s, s.threads[t].phase.v), t, child))
  {
    SpawnedPaired(s, n, t, child);
    SimParts(s, n);
    SpawnedInv(s, n, t, child);
    SpawnedAgrees(s, n, t, child);
    hide Sim, AllPaired, Inv, Agrees, Spawned, NativeSpawned;
    SimFromParts(Spawned(s, t, child), NativeSpawned(n, CpuOf(s, s.threads[t].phase.v), t, child));
  }

  lemma SpawnedInv<K>(s: System<K>, n: N.System<K>, t: Word, child: Word)
    requires Sim(s, n) && t in s.threads && s.threads[t].phase.CloneArmed? && child !in s.threads
    ensures Inv(Spawned(s, t, child))
  {
    hide Sim, Armed, Params, Inv, Works, CloneTypeOf;
    ArmedFacts(s, n, t);
    SimParts(s, n);
    JoinedInv(s, t, Storing(s.threads[t].phase.v, child), child, Thread(s.threads[t].space, Top(s.threads[t].phase.child)));
  }

  lemma SpawnedAgrees<K>(s: System<K>, n: N.System<K>, t: Word, child: Word)
    requires Sim(s, n) && t in s.threads && s.threads[t].phase.CloneArmed? && child !in s.threads
    requires s.threads[t].phase.v in s.vcpus && t in n.threads
    ensures Agrees(Spawned(s, t, child), NativeSpawned(n, CpuOf(s, s.threads[t].phase.v), t, child))
  {
    hide Inv, AllPaired, NativeParent, NativeChild;
  }

  lemma BornSpaces(th: N.Thread, child: Word, epc: Word, a: nat, t0: Word)
    ensures NativeParent(th, child, epc).space == th.space && NativeChild(th, a, t0).space == a
  {
  }

  lemma SimFromParts<K>(s: System<K>, n: N.System<K>)
    requires Inv(s) && Agrees(s, n) && AllPaired(s, n)
    ensures Sim(s, n)
  {
  }

  lemma CloneThreadSim<K>(env: N.Env<K>, s: System<K>, s': System<K>, n: N.System<K>, t: Word, child: Word)
    returns (l: N.Label, n': N.System<K>)
    requires Sim(s, n) && DoCloneThread(env, s, t, child) == Some(s')
    ensures Follows(env, n, Some(l), n') && Sim(s', n')
    ensures var c := CpuOf(s, s.threads[t].phase.v);
            l == N.Clone(t, child, s.threads[t].space, c.csr.epc, c.gpr[T0])
  {
    hide Sim, Armed, HasBlock, Asking, Answered, NativeParent, NativeChild;
    var ph, a := s.threads[t].phase, s.threads[t].space;
    var c, pr := CpuOf(s, ph.v), ParamsOf(s, t, ph.v);
    CloneFacts(s, n, t);
    ArmedFacts(s, n, t);
    SimAgrees(s, n);
    var th := n.threads[t];
    RequestIsNative(c, pr, th, ph.info, child, a);
    hide Params, CloneTypeOf;
    var (m, _, k) := env.clone(t, RequestOf(pr), child, UserOf(s, t), s.kernel);
    var log := s.log + [N.Cloned(t, child, RequestOf(pr))];
    SpawnedSim(s, n, t, child);
    OutsideSim(Spawned(s, t, child), NativeSpawned(n, c, t, child), a, m, k, log);
    l := N.Clone(t, child, a, c.csr.epc, c.gpr[T0]);
    n' := NativeOutside(NativeSpawned(n, c, t, child), a, m, k, log);
    assert s' == Outside(Spawned(s, t, child), a, m, k, log);
    NativeCloneShares(env, n, l, n', c, m, k);
  }

  /** The native clone of a shared address space, in the terms used here. */
  lemma NativeCloneShares<K>(env: N.Env<K>, n: N.System<K>, l: N.Label, n': N.System<K>, c: Cpu, m: Mem, k: K)
    requires l.Clone? && N.Calls(n, l.t) && n.threads[l.t].gpr[A7] == N.SYS_CLONE && l.child !in n.threads
    requires Bit(n.threads[l.t].gpr[4], N.CLONE_VM_BIT) && l.space == n.threads[l.t].space
    requires l.parentT0 == c.csr.epc && l.childT0 == c.gpr[T0]
    requires m == env.clone(l.t, N.ArgsOf(n.threads[l.t].gpr), l.child, N.MemOf(n, l.t), n.kernel).0
    requires k == env.clone(l.t, N.ArgsOf(n.threads[l.t].gpr), l.child, N.MemOf(n, l.t), n.kernel).2
    requires n' == NativeOutside(NativeSpawned(n, c, l.t, l.child), l.space, m, k,
                                 n.log + [N.Cloned(l.t, l.child, N.ArgsOf(n.threads[l.t].gpr))])
    ensures N.Step(env, n, l) == Some(n')
  {
  }

  // ---------- The other two strategies: the host clone ----------

  /** The state behind a fork, but for what the kernel did to the parent's memory. */
  function Forked<K>(s: System<K>, t: Word, child: Word, space: nat, cm: Mem): System<K>
    requires t in s.threads && s.threads[t].phase.CloneReady? && s.threads[t].space in s.spaces
    requires s.threads[t].phase.v in s.vcpus
  {
    var ph := s.threads[t].phase;
    s.(threads := s.threads[t := s.threads[t].(phase := Storing(ph.v, child))]
                           [child := Thread(space, NeedsVm(s.vcpus[ph.v].block, ph.info))],
       spaces := s.spaces[space := Space(cm, BlocksOf(s, t))])
  }

  ghost predicate CanFork<K>(s: System<K>, t: Word, child: Word, space: nat)
  {
    && Inv(s) && t in s.threads && s.threads[t].phase.CloneReady? && s.threads[t].space in s.spaces
    && s.threads[t].phase.v in s.vcpus && child !in s.threads && space !in s.spaces
  }

  lemma ForkedNewborns<K>(s: System<K>, t: Word, child: Word, space: nat, cm: Mem)
    requires CanFork(s, t, child, space)
    ensures NewbornsAlone(Forked(s, t, child, space, cm))
  {
    var s' := Forked(s, t, child, space, cm);
    forall u | u in s.threads ensures s'.threads[u].space == s.threads[u].space && s.threads[u].space != space {
      assert ThreadOk(s, u);
    }
    forall u | u in s'.threads && s'.threads[u].phase.NeedsVm? ensures Newborn(s', u) {
      if u != child { assert Newborn(s, u); }
    }
    hide VcpuOk, ThreadOk, VcpusApart, HoldingsApart;
  }

  lemma ForkedHoldings<K>(s: System<K>, t: Word, child: Word, space: nat, cm: Mem)
    requires CanFork(s, t, child, space)
    ensures HoldingsApart(Forked(s, t, child, space, cm))
  {
    hide VcpuOk, ThreadOk, VcpusApart, NewbornsAlone;
  }

  lemma ForkedApart<K>(s: System<K>, t: Word, child: Word, space: nat, cm: Mem)
    requires CanFork(s, t, child, space)
    ensures VcpusApart(Forked(s, t, child, space, cm))
    ensures HoldingsApart(Forked(s, t, child, space, cm)) && NewbornsAlone(Forked(s, t, child, space, cm))
  {
    ForkedNewborns(s, t, child, space, cm);
    ForkedHoldings(s, t, child, space, cm);
    hide VcpuOk, ThreadOk, BlocksApart, NewbornsAlone, HoldingsApart;
  }

  lemma ForkedVcpus<K>(s: System<K>, t: Word, child: Word, space: nat, cm: Mem)
    requires CanFork(s, t, child, space)
    ensures forall w | w in s.vcpus :: VcpuOk(Forked(s, t, child, space, cm), w)
  {
    hide Serves, VcpusApart, HoldingsApart, NewbornsAlone, ThreadOk;
    forall w | w in s.vcpus ensures VcpuOk(Forked(s, t, child, space, cm), w) {
      assert VcpuOk(s, w);
    }
  }

  lemma ForkedSeats<K>(s: System<K>, t: Word, child: Word, space: nat, cm: Mem, u: Word)
    requires CanFork(s, t, child, space) && (u in s.threads || u == child)
    ensures ThreadOk(Forked(s, t, child, space, cm), u)
    ensures u in s.threads && u != t ==> ThreadOk(s, u) && Untouched(s, Forked(s, t, child, space, cm), u)
  {
    hide Inv, VcpuOk, Extends;
    var s' := Forked(s, t, child, space, cm);
    if u in s.threads {
      InvThread(s, u);
      ExtendsItself(BlocksOf(s, u));
      forall w | w in Holds(s.threads[u].phase) ensures w in s'.vcpus && s'.vcpus[w] == s.vcpus[w] && Seated(s', u, w) {
        ForkedKeepsSeat(s, t, child, space, cm, u, w);
      }
    }
  }

  lemma ForkedKeepsSeat<K>(s: System<K>, t: Word, child: Word, space: nat, cm: Mem, u: Word, w: VcpuId)
    requires CanFork(s, t, child, space) && u in s.threads && w in s.vcpus && Seated(s, u, w)
    ensures w in Forked(s, t, child, space, cm).vcpus && Forked(s, t, child, space, cm).vcpus[w] == s.vcpus[w]
    ensures Seated(Forked(s, t, child, space, cm), u, w)
  {
    ForkedVcpus(s, t, child, space, cm);
    hide Inv, VcpuOk;
  }

  lemma ForkedInv<K>(s: System<K>, t: Word, child: Word, space: nat, cm: Mem)
    requires CanFork(s, t, child, space)
    ensures Inv(Forked(s, t, child, space, cm))
  {
    ForkedApart(s, t, child, space, cm);
    ForkedVcpus(s, t, child, space, cm);
    hide VcpuOk, ThreadOk, VcpusApart, HoldingsApart, NewbornsAlone;
    var s' := Forked(s, t, child, space, cm);
    forall u | u in s'.threads ensures ThreadOk(s', u) {
      ForkedSeats(s, t, child, space, cm, u);
    }
  }

  function NativeForked<K>(n: N.System<K>, c: Cpu, t: Word, child: Word, space: nat, cm: Mem): N.System<K>
    requires t in n.threads
  {
    var th := n.threads[t];
    NativeJoined(n, t, NativeParent(th, child, c.csr.epc), child, NativeChild(th, space, c.gpr[T0]))
    .(mems := n.mems[space := cm])
  }

  lemma ForkedParent<K>(s: System<K>, n: N.System<K>, t: Word, child: Word, space: nat, cm: Mem)
    requires Sim(s, n) && CanFork(s, t, child, space)
    ensures var ph, s' := s.threads[t].phase, Forked(s, t, child, space, cm);
            && t in n.threads && ThreadOk(s', t)
            && Matches(s', t, NativeParent(n.threads[t], child, CpuOf(s, ph.v).csr.epc))
  {
    hide Sim, Asking, Answered, Seated, HasBlock, ThreadOk, NativeParent, Params, Inv;
    var ph := s.threads[t].phase;
    CloneFacts(s, n, t);
    ForkedSeats(s, t, child, space, cm, t);
    var c := CpuOf(s, ph.v);
    RequestIsNative(c, ParamsOf(s, t, ph.v), n.threads[t], ph.info, child, 0);
    MatchesFrom(Forked(s, t, child, space, cm), t, ph.v, s.vcpus[ph.v].block, c, BlocksOf(s, t),
                NativeParent(n.threads[t], child, c.csr.epc));
  }

  lemma ForkedChild<K>(s: System<K>, n: N.System<K>, t: Word, child: Word, space: nat, cm: Mem)
    requires Sim(s, n) && CanFork(s, t, child, space)
    ensures var ph, s' := s.threads[t].phase, Forked(s, t, child, space, cm);
            && t in n.threads && ThreadOk(s', child)
            && Matches(s', child, NativeChild(n.threads[t], space, CpuOf(s, ph.v).gpr[T0]))
  {
    hide Sim, Asking, Answered, Seated, ThreadOk, Params, Inv, ChildRegs;
    var ph := s.threads[t].phase;
    CloneFacts(s, n, t);
    ForkedSeats(s, t, child, space, cm, child);
    RequestIsNative(CpuOf(s, ph.v), ParamsOf(s, t, ph.v), n.threads[t], ph.info, child, space);
    hide HasBlock;
  }

  lemma ForkedPaired<K>(s: System<K>, n: N.System<K>, t: Word, child: Word, space: nat, cm: Mem)
    requires Sim(s, n) && CanFork(s, t, child, space) && t in n.threads
    ensures AllPaired(Forked(s, t, child, space, cm), NativeForked(n, CpuOf(s, s.threads[t].phase.v), t, child, space, cm))
  {
    hide Sim, ThreadOk, Matches, Asking, NativeParent, NativeChild, Inv;
    var ph := s.threads[t].phase;
    var c := CpuOf(s, ph.v);
    CloneFacts(s, n, t);
    hide Works;
    ForkedParent(s, n, t, child, space, cm);
    ForkedChild(s, n, t, child, space, cm);
    BornSpaces(n.threads[t], child, c.csr.epc, space, c.gpr[T0]);
    var s', n' := Forked(s, t, child, space, cm), NativeForked(n, c, t, child, space, cm);
    forall u | u in s'.threads ensures ThreadOk(s', u) && u in n'.threads && Paired(s', n', u) {
      if u != t && u != child {
        FactsOf(s, n, u);
        ForkedSeats(s, t, child, space, cm, u);
        UntouchedMatches(s, s', u, n.threads[u]);
      }
    }
  }

  lemma ForkedAgrees<K>(s: System<K>, n: N.System<K>, t: Word, child: Word, space: nat, cm: Mem)
    requires Agrees(s, n) && CanFork(s, t, child, space) && t in n.threads
    ensures Agrees(Forked(s, t, child, space, cm), NativeForked(n, CpuOf(s, s.threads[t].phase.v), t, child, space, cm))
  {
    hide Inv, NativeParent, NativeChild;
  }

  lemma ForkedSim<K>(s: System<K>, n: N.System<K>, t: Word, child: Word, space: nat, cm: Mem)
    requires Sim(s, n) && CanFork(s, t, child, space) && t in n.threads
    ensures Sim(Forked(s, t, child, space, cm), NativeForked(n, CpuOf(s, s.threads[t].phase.v), t, child, space, cm))
  {
    SimParts(s, n);
    hide Sim, AllPaired, Inv, Agrees;
    ForkedPaired(s, n, t, child, space, cm);
    ForkedInv(s, t, child, space, cm);
    ForkedAgrees(s, n, t, child, space, cm);
    hide Forked, NativeForked;
    SimFromParts(Forked(s, t, child, space, cm), NativeForked(n, CpuOf(s, s.threads[t].phase.v), t, child, space, cm));
  }

  lemma NativeCloneCopies<K>(env: N.Env<K>, n: N.System<K>, l: N.Label, n': N.System<K>, c: Cpu, pm: Mem, cm: Mem, k: K)
    requires l.Clone? && N.Calls(n, l.t) && n.threads[l.t].gpr[A7] == N.SYS_CLONE && l.child !in n.threads
    requires !Bit(n.threads[l.t].gpr[4], N.CLONE_VM_BIT) && l.space !in n.mems
    requires l.parentT0 == c.csr.epc && l.childT0 == c.gpr[T0]
    requires (pm, cm, k) == env.clone(l.t, N.ArgsOf(n.threads[l.t].gpr), l.child, N.MemOf(n, l.t), n.kernel)
    requires n' == NativeOutside(NativeForked(n, c, l.t, l.child, l.space, cm), n.threads[l.t].space, pm, k,
                                 n.log + [N.Cloned(l.t, l.child, N.ArgsOf(n.threads[l.t].gpr))])
    ensures N.Step(env, n, l) == Some(n')
  {
    assert n'.mems == n.mems[n.threads[l.t].space := pm][l.space := cm];
  }

  lemma ForkProcessSim<K>(env: N.Env<K>, s: System<K>, s': System<K>, n: N.System<K>, t: Word, child: Word, space: nat)
    returns (l: N.Label, n': N.System<K>)
    requires Sim(s, n) && DoForkProcess(env, s, t, child, space) == Some(s')
    ensures Follows(env, n, Some(l), n') && Sim(s', n')
    ensures var c := CpuOf(s, s.threads[t].phase.v);
            l == N.Clone(t, child, space, c.csr.epc, c.gpr[T0])
  {
    hide Sim, HasBlock, Asking, Answered, NativeParent, NativeChild;
    var ph, a := s.threads[t].phase, s.threads[t].space;
    var c, pr := CpuOf(s, ph.v), ParamsOf(s, t, ph.v);
    CloneFacts(s, n, t);
    SimAgrees(s, n);
    var th := n.threads[t];
    RequestIsNative(c, pr, th, ph.info, child, space);
    hide Params;
    SimParts(s, n);
    hide Inv, Agrees, AllPaired;
    var (pm, cm, k) := env.clone(t, RequestOf(pr), child, UserOf(s, t), s.kernel);
    var log := s.log + [N.Cloned(t, child, RequestOf(pr))];
    ForkedSim(s, n, t, child, space, cm);
    OutsideSim(Forked(s, t, child, space, cm), NativeForked(n, c, t, child, space, cm), a, pm, k, log);
    l := N.Clone(t, child, space, c.csr.epc, c.gpr[T0]);
    n' := NativeOutside(NativeForked(n, c, t, child, space, cm), a, pm, k, log);
    ForkShape(s, s', t, child, space, pm, cm, k, log);
    NativeCloneCopies(env, n, l, n', c, pm, cm, k);
  }

  lemma ForkShape<K>(s: System<K>, s': System<K>, t: Word, child: Word, space: nat, pm: Mem, cm: Mem, k: K, log: seq<N.Event>)
    requires CanFork(s, t, child, space)
    requires var ph, a := s.threads[t].phase, s.threads[t].space;
             s' == s.(threads := s.threads[t := Thread(a, Storing(ph.v, child))]
                                          [child := Thread(space, NeedsVm(s.vcpus[ph.v].block, ph.info))],
                      spaces := s.spaces[a := Space(pm, BlocksOf(s, t))][space := Space(cm, BlocksOf(s, t))],
                      kernel := k, log := log)
    ensures s' == Outside(Forked(s, t, child, space, cm), s.threads[t].space, pm, k, log)
  {
    hide Inv;
    var a := s.threads[t].space;
    assert s'.spaces == Outside(Forked(s, t, child, space, cm), a, pm, k, log).spaces;
  }

  // ---------- A refused clone ----------

  lemma ForkFailsSim<K>(env: N.Env<K>, s: System<K>, s': System<K>, n: N.System<K>, t: Word, errno: Word)
    returns (l: N.Label, n': N.System<K>)
    requires Sim(s, n) && DoForkFails(s, t, errno) == Some(s')
    ensures Follows(env, n, Some(l), n') && Sim(s', n')
    ensures l == N.CloneFails(t, errno, CpuOf(s, s.threads[t].phase.v).csr.epc)
  {
    hide Sim, CoreOk, Asking, Answered, Serves, NativeParent;
    var ph := s.threads[t].phase;
    var v := ph.v;
    CoreFacts(s, n, t, v);
    CloneFacts(s, n, t);
    SimAgrees(s, n);
    SameCpu(s, v);
    var c, pr, th, r := CpuOf(s, v), ParamsOf(s, t, v), n.threads[t], TWO_64 - errno;
    RequestIsNative(c, pr, th, ph.info, r, 0);
    var back := NativeParent(th, r, c.csr.epc);
    var mid := WithPhase(s, t, Storing(v, r));
    BornSpaces(th, r, c.csr.epc, 0, 0);
    MoveSim(s, mid, t, v, c, Storing(v, r), n, back);
    var log := s.log + [N.Refused(t, RequestOf(pr), errno)];
    var a := s.threads[t].space;
    OutsideSim(mid, WithThread(n, t, back), a, UserOf(s, t), s.kernel, log);
    l := N.CloneFails(t, errno, c.csr.epc);
    n' := NativeOutside(WithThread(n, t, back), a, UserOf(s, t), s.kernel, log);
    hide Works, Params, CloneTypeOf;
    NativeCloneRefused(env, n, l, n', c, UserOf(s, t));
    SameUser(mid, a, log);
  }

  lemma SameUser<K>(s: System<K>, a: nat, log: seq<N.Event>)
    requires a in s.spaces
    ensures Outside(s, a, s.spaces[a].user, s.kernel, log) == s.(log := log)
  {
    assert s.spaces[a := s.spaces[a].(user := s.spaces[a].user)] == s.spaces;
  }

  lemma NativeCloneRefused<K>(env: N.Env<K>, n: N.System<K>, l: N.Label, n': N.System<K>, c: Cpu, m: Mem)
    requires l.CloneFails? && N.Calls(n, l.t) && n.threads[l.t].gpr[A7] == N.SYS_CLONE && N.IsErrno(l.errno)
    requires l.t0 == c.csr.epc && m == N.MemOf(n, l.t)
    requires n' == NativeOutside(WithThread(n, l.t, NativeParent(n.threads[l.t], TWO_64 - l.errno, c.csr.epc)),
                                 n.threads[l.t].space, m, n.kernel,
                                 n.log + [N.Refused(l.t, N.ArgsOf(n.threads[l.t].gpr), l.errno)])
    ensures N.Step(env, n, l) == Some(n')
  {
    assert n.mems[n.threads[l.t].space := m] == n.mems;
  }
}
