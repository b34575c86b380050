/** Dune refines the native machine: whatever step a dune state takes, the native state that it stands
    for either takes the matching step or stays where it is. */
module Refinement {
  import opened Words
  import opened Paging
  import opened LoongArch
  import opened Handlers
  import opened Trampoline
  import opened Clone
  import opened Dune
  import opened Simulation
  import N = Native

  /** The native answer to a step of dune: nothing, or one step. */
  ghost predicate Follows<K>(env: N.Env<K>, n: N.System<K>, l: Option<N.Label>, n': N.System<K>)
  {
    match l
    case None => n' == n
    case Some(step) => N.Step(env, n, step) == Some(n')
  }

  // ---------- Moves that leave memory, kernel and history alone ----------

  ghost predicate Moved<K>(s: System<K>, s': System<K>, t: Word, v: VcpuId, c: Cpu, p: Phase)
  {
    && t in s.threads && v in s.vcpus
    && s' == WithPhase(WithCpu(s, v, c), t, p)
  }

  function WithThread<K>(n: N.System<K>, t: Word, th: N.Thread): N.System<K>
  {
    n.(threads := n.threads[t := th])
  }

  lemma SamePhase<K>(s: System<K>, t: Word)
    requires t in s.threads
    ensures WithPhase(s, t, s.threads[t].phase) == s
  {
  }

  lemma SameCpu<K>(s: System<K>, v: VcpuId)
    requires v in s.vcpus
    ensures WithCpu(s, v, CpuOf(s, v)) == s
  {
  }

  lemma SameBlocks<K>(s: System<K>, t: Word)
    requires t in s.threads && s.threads[t].space in s.spaces
    ensures WithBlocks(s, t, BlocksOf(s, t)) == s
  {
  }

  lemma SameThread<K>(n: N.System<K>, t: Word)
    requires t in n.threads
    ensures WithThread(n, t, n.threads[t]) == n
  {
  }

  /** A move keeps the simulation when the core still serves its block and mirrors the native thread. */
  lemma MoveSim<K>(s: System<K>, s': System<K>, t: Word, v: VcpuId, c: Cpu, p: Phase, n: N.System<K>, th: N.Thread)
    requires Sim(s, n) && Moved(s, s', t, v, c, p)
    requires Holds(s.threads[t].phase) == {v} && Holds(p) == {v} && !p.NeedsVm? && !p.CloneArmed?
    requires s.threads[t].space in s.spaces && Serves(c, s.vcpus[v].block, BlocksOf(s, t)) && c.csr.ebase != 0
    requires th.space == s.threads[t].space
    requires Mirrors(p, c, Params(BlocksOf(s, t), s.vcpus[v].block), th)
    ensures Sim(s', WithThread(n, t, th))
  {
    var n' := WithThread(n, t, th);
    MoveLocal(s, s', t, v, c, p);
    MoveMems(s, s', t, v, c, p, n);
    MoveMatches(s, s', t, v, c, p, th);
    LocalSim(s, s', t, v, n, n') by { hide Sim, Local, VcpuOk, ThreadOk, Matches, Mirrors, Serves, Moved; }
  }

  lemma MoveLocal<K>(s: System<K>, s': System<K>, t: Word, v: VcpuId, c: Cpu, p: Phase)
    requires Inv(s) && Moved(s, s', t, v, c, p)
    requires Holds(s.threads[t].phase) == {v} && Holds(p) == {v}
    requires s.threads[t].space in s.spaces && Serves(c, s.vcpus[v].block, BlocksOf(s, t)) && c.csr.ebase != 0
    ensures Local(s, s', t, v) && VcpuOk(s', v)
  {
    hide Serves, VcpusApart, HoldingsApart, NewbornsAlone;
    assert ThreadOk(s, t);
    assert v in Holds(s.threads[t].phase);
    assert Seated(s, t, v);
    assert s'.spaces == s.spaces[s.threads[t].space := s'.spaces[s.threads[t].space]];
  }

  lemma MoveMems<K>(s: System<K>, s': System<K>, t: Word, v: VcpuId, c: Cpu, p: Phase, n: N.System<K>)
    requires Sim(s, n) && Moved(s, s', t, v, c, p) && s.threads[t].space in s.spaces
    ensures n.mems == n.mems[s.threads[t].space := UserOf(s', t)]
    ensures n.kernel == s'.kernel && n.log == s'.log
  {
    hide Inv, AllPaired;
  }

  lemma MoveMatches<K>(s: System<K>, s': System<K>, t: Word, v: VcpuId, c: Cpu, p: Phase, th: N.Thread)
    requires Moved(s, s', t, v, c, p) && Holds(p) == {v} && !p.NeedsVm? && !p.CloneArmed?
    requires s.threads[t].space in s.spaces && HasBlock(BlocksOf(s, t), s.vcpus[v].block)
    requires Mirrors(p, c, Params(BlocksOf(s, t), s.vcpus[v].block), th)
    ensures ThreadOk(s', t) ==> Matches(s', t, th)
  {
    hide Mirrors, VcpuOk;
    assert p.v in Holds(p);
  }

  /** What the simulation says of one thread. */
  lemma FactsOf<K>(s: System<K>, n: N.System<K>, t: Word)
    requires Sim(s, n) && t in s.threads
    ensures ThreadOk(s, t) && t in n.threads && n.threads[t].space == s.threads[t].space
    ensures n.threads[t].space in n.mems && n.mems[n.threads[t].space] == UserOf(s, t)
    ensures Matches(s, t, n.threads[t])
    ensures N.Live(n, t) && N.MemOf(n, t) == UserOf(s, t)
  {
    hide Matches, Inv;
    assert Paired(s, n, t);
  }

  /** The same for a thread that has a core. */
  lemma CoreFacts<K>(s: System<K>, n: N.System<K>, t: Word, v: VcpuId)
    requires Sim(s, n) && t in s.threads && !s.threads[t].phase.NeedsVm? && s.threads[t].phase.v == v
    ensures v in s.vcpus && s.threads[t].space in s.spaces && Works(s, t, v)
    ensures Serves(CpuOf(s, v), s.vcpus[v].block, BlocksOf(s, t)) && CpuOf(s, v).csr.ebase != 0
    ensures KvmAllows(s, t, v.vm)
    ensures t in n.threads && n.threads[t].space == s.threads[t].space
    ensures Mirrors(s.threads[t].phase, CpuOf(s, v), ParamsOf(s, t, v), n.threads[t])
  {
    FactsOf(s, n, t);
    hide Mirrors, Sim;
    assert Seated(s, t, v);
  }

  // ---------- Steps inside KVM_RUN ----------

  lemma TlbMissSim<K>(env: N.Env<K>, s: System<K>, s': System<K>, n: N.System<K>, t: Word, va: Word)
    requires Sim(s, n) && DoTlbMiss(s, t, va) == Some(s')
    ensures Sim(s', n)
  {
    hide Sim, CoreOk, StandsFor;
    var v := s.threads[t].phase.v;
    CoreFacts(s, n, t, v);
    var c := EnterRefill(CpuOf(s, v), va);
    RefillEntry(CpuOf(s, v), va);
    SamePhase(s', t);
    MoveSim(s, s', t, v, c, Running(v), n, n.threads[t]);
    SameThread(n, t);
  }

  lemma TakeHypercallSim<K>(env: N.Env<K>, s: System<K>, s': System<K>, n: N.System<K>, t: Word)
    requires Sim(s, n) && DoTakeHypercall(s, t) == Some(s')
    ensures Sim(s', n)
  {
    hide Sim, CoreOk;
    var v := s.threads[t].phase.v;
    CoreFacts(s, n, t, v);
    var c := CpuOf(s, v);
    OnlyHypercall(c.loc);
    ViewIsPlain(c);
    StubAsks(c, s.vcpus[v].block, BlocksOf(s, t), n.threads[t]);
    MoveSim(s, s', t, v, LoongArch.TakeHypercall(c), Exited(v, true), n, n.threads[t]);
    SameThread(n, t);
  }

  lemma OnlyHypercall(loc: Loc)
    requires Current(loc) == Some(Hypercall)
    ensures loc == Stub(10)
  {
  }

  lemma InterruptedSim<K>(env: N.Env<K>, s: System<K>, s': System<K>, n: N.System<K>, t: Word)
    requires Sim(s, n) && DoInterrupted(s, t) == Some(s')
    ensures Sim(s', n)
  {
    hide Sim, CoreOk, StandsFor, Serves;
    var v := s.threads[t].phase.v;
    CoreFacts(s, n, t, v);
    SameCpu(s, v);
    MoveSim(s, s', t, v, CpuOf(s, v), Exited(v, false), n, n.threads[t]);
    SameThread(n, t);
  }

  // ---------- The host loop ----------

  lemma LoopAgainSim<K>(env: N.Env<K>, s: System<K>, s': System<K>, n: N.System<K>, t: Word)
    requires Sim(s, n) && DoLoopAgain(s, t) == Some(s')
    ensures Sim(s', n)
  {
    hide Sim, CoreOk, StandsFor, Serves;
    var v := s.threads[t].phase.v;
    CoreFacts(s, n, t, v);
    SameCpu(s, v);
    MoveSim(s, s', t, v, CpuOf(s, v), Top(v), n, n.threads[t]);
    SameThread(n, t);
  }

  lemma ResumeServes(c: Cpu, b: Word, mem: Mem)
    requires Serves(c, b, mem)
    ensures Serves(Resume(c), b, mem) && !Resume(c).pending && Resume(c).csr == c.csr
  {
  }

  lemma KvmRunSim<K>(env: N.Env<K>, s: System<K>, s': System<K>, n: N.System<K>, t: Word)
    requires Sim(s, n) && DoKvmRun(s, t) == Some(s')
    ensures Sim(s', n)
  {
    hide Sim, CoreOk, StandsFor, Serves;
    var v := s.threads[t].phase.v;
    CoreFacts(s, n, t, v);
    ResumeServes(CpuOf(s, v), s.vcpus[v].block, BlocksOf(s, t));
    MoveSim(s, s', t, v, Resume(CpuOf(s, v)), Running(v), n, n.threads[t]);
    SameThread(n, t);
  }

  lemma BeginCloneSim<K>(env: N.Env<K>, s: System<K>, s': System<K>, n: N.System<K>, t: Word)
    requires Sim(s, n) && DoBeginClone(s, t) == Some(s')
    ensures Sim(s', n)
  {
    hide Sim, CoreOk, StandsFor, Asking, Serves;
    var v := s.threads[t].phase.v;
    CoreFacts(s, n, t, v);
    SameCpu(s, v);
    var c := CpuOf(s, v);
    MoveSim(s, s', t, v, c, CloneReady(v, ThreadInfo(c.gpr, c.csr.epc, c.csr.ebase)), n, n.threads[t]);
    SameThread(n, t);
  }

  // ---------- What only the guest and the kernel see ----------

  /** User memory of one space, the kernel and the history change; dune's own state does not. */
  function Outside<K>(s: System<K>, a: nat, m: Mem, k: K, log: seq<N.Event>): System<K>
    requires a in s.spaces
  {
    s.(spaces := s.spaces[a := s.spaces[a].(user := m)], kernel := k, log := log)
  }

  function NativeOutside<K>(n: N.System<K>, a: nat, m: Mem, k: K, log: seq<N.Event>): N.System<K>
  {
    n.(mems := n.mems[a := m], kernel := k, log := log)
  }

  lemma OutsideInv<K>(s: System<K>, a: nat, m: Mem, k: K, log: seq<N.Event>)
    requires Inv(s) && a in s.spaces
    ensures Inv(Outside(s, a, m, k, log))
  {
    hide Serves, BlocksApart;
    var s' := Outside(s, a, m, k, log);
    assert s'.spaces.Keys == s.spaces.Keys;
    forall v | v in s'.vcpus ensures VcpuOk(s', v) {
      assert VcpuOk(s, v);
    }
    forall t | t in s'.threads ensures ThreadOk(s', t) {
      assert ThreadOk(s, t);
    }
    forall t | t in s'.threads && s'.threads[t].phase.NeedsVm? ensures Newborn(s', t) {
      assert Newborn(s, t);
    }
  }

  lemma OutsideMatches<K>(s: System<K>, a: nat, m: Mem, k: K, log: seq<N.Event>, t: Word, th: N.Thread)
    requires a in s.spaces && t in s.threads && ThreadOk(s, t) && Matches(s, t, th)
    requires ThreadOk(Outside(s, a, m, k, log), t)
    ensures Matches(Outside(s, a, m, k, log), t, th)
  {
    hide Mirrors, Armed, VcpuOk;
  }

  lemma OutsideSim<K>(s: System<K>, n: N.System<K>, a: nat, m: Mem, k: K, log: seq<N.Event>)
    requires Sim(s, n) && a in s.spaces
    ensures Sim(Outside(s, a, m, k, log), NativeOutside(n, a, m, k, log))
  {
    OutsideInv(s, a, m, k, log);
    OutsideAgrees(s, n, a, m, k, log);
    hide Agrees, Inv, Matches, Outside;
    forall t | t in s.threads
      ensures ThreadOk(Outside(s, a, m, k, log), t) && Paired(Outside(s, a, m, k, log), n, t)
    {
      FactsOf(s, n, t);
      OutsideThread(s, a, m, k, log, t);
      OutsideMatches(s, a, m, k, log, t, n.threads[t]);
    }
  }

  lemma OutsideAgrees<K>(s: System<K>, n: N.System<K>, a: nat, m: Mem, k: K, log: seq<N.Event>)
    requires Agrees(s, n) && a in s.spaces
    ensures Agrees(Outside(s, a, m, k, log), NativeOutside(n, a, m, k, log))
  {
    assert Outside(s, a, m, k, log).spaces.Keys == s.spaces.Keys;
  }

  lemma OutsideThread<K>(s: System<K>, a: nat, m: Mem, k: K, log: seq<N.Event>, t: Word)
    requires Inv(s) && a in s.spaces && t in s.threads
    ensures ThreadOk(Outside(s, a, m, k, log), t)
    ensures t in Outside(s, a, m, k, log).threads
    ensures Outside(s, a, m, k, log).threads[t] == s.threads[t]
  {
    OutsideInv(s, a, m, k, log);
  }

  // ---------- Guest instructions ----------

  /** Every guest access that goes through reaches the host address it names. */
  lemma ReachIsIdentity(c: Cpu, e: TlbEntry, va: Word, access: Access)
    requires IdentityTlb(c.tlb) && Reach(c, e, va, access).Some?
    ensures Reach(c, e, va, access) == Some(va)
  {
    IdentityHit(e, va, access);
  }

  /** The three kinds of guest instruction that stay on the core. */
  lemma GuestRegsSim<K>(s: System<K>, s': System<K>, n: N.System<K>, t: Word, v: VcpuId, c: Cpu, g: Regs, pc: Word)
    requires Sim(s, n) && t in s.threads && s.threads[t].phase == Running(v) && v in s.vcpus
    requires CpuOf(s, v).loc.User? && c == CpuOf(s, v).(gpr := g, loc := User(pc)) && s' == WithCpu(s, v, c)
    ensures t in n.threads && Sim(s', WithThread(n, t, n.threads[t].(gpr := g, pc := pc)))
  {
    hide Sim;
    CoreFacts(s, n, t, v);
    SamePhase(s', t);
    ViewIsPlain(c);
    ViewIsPlain(CpuOf(s, v));
    MoveSim(s, s', t, v, c, Running(v), n, n.threads[t].(gpr := g, pc := pc));
  }

  lemma GuestTrapSim<K>(s: System<K>, s': System<K>, n: N.System<K>, t: Word, v: VcpuId)
    requires Sim(s, n) && t in s.threads && s.threads[t].phase == Running(v) && v in s.vcpus
    requires CpuOf(s, v).loc.User? && s' == WithCpu(s, v, EnterStub(CpuOf(s, v), CpuOf(s, v).loc.pc))
    ensures t in n.threads && Sim(s', WithThread(n, t, n.threads[t].(calling := true)))
  {
    hide Sim;
    CoreFacts(s, n, t, v);
    SamePhase(s', t);
    var c := EnterStub(CpuOf(s, v), CpuOf(s, v).loc.pc);
    ViewIsPlain(c);
    ViewIsPlain(CpuOf(s, v));
    MoveSim(s, s', t, v, c, Running(v), n, n.threads[t].(calling := true));
  }

  lemma GuestStoreSim<K>(s: System<K>, s': System<K>, n: N.System<K>, n': N.System<K>, t: Word, v: VcpuId, m: Mem)
    requires Sim(s, n) && t in s.threads && s.threads[t].phase == Running(v) && v in s.vcpus
    requires s.threads[t].space in s.spaces && CpuOf(s, v).loc.User?
    requires s' == WithUser(WithCpu(s, v, CpuOf(s, v).(loc := User(Add(CpuOf(s, v).loc.pc, 4)))), t, m)
    requires t in n.threads && n.threads[t].space in n.mems
    requires n' == n.(threads := n.threads[t := n.threads[t].(pc := Add(n.threads[t].pc, 4))],
                      mems := n.mems[n.threads[t].space := m])
    ensures Sim(s', n')
  {
    var c := CpuOf(s, v).(loc := User(Add(CpuOf(s, v).loc.pc, 4)));
    var mid := WithCpu(s, v, c);
    CoreFacts(s, n, t, v);
    GuestRegsSim(s, mid, n, t, v, c, c.gpr, c.loc.pc);
    var a := s.threads[t].space;
    OutsideSim(mid, WithThread(n, t, n.threads[t].(gpr := c.gpr, pc := c.loc.pc)), a, m, s.kernel, s.log)
      by { hide Sim; }
    GuestStoreShape(s, s', n, n', t, v, m);
  }

  lemma GuestStoreShape<K>(s: System<K>, s': System<K>, n: N.System<K>, n': N.System<K>, t: Word, v: VcpuId, m: Mem)
    requires Sim(s, n) && t in s.threads && v in s.vcpus && s.threads[t].space in s.spaces && CpuOf(s, v).loc.User?
    requires s.threads[t].phase == Running(v)
    requires s' == WithUser(WithCpu(s, v, CpuOf(s, v).(loc := User(Add(CpuOf(s, v).loc.pc, 4)))), t, m)
    requires t in n.threads && n.threads[t].space in n.mems
    requires n' == n.(threads := n.threads[t := n.threads[t].(pc := Add(n.threads[t].pc, 4))],
                      mems := n.mems[n.threads[t].space := m])
    ensures var c := CpuOf(s, v).(loc := User(Add(CpuOf(s, v).loc.pc, 4)));
            var th := n.threads[t].(gpr := c.gpr, pc := c.loc.pc);
            && s' == Outside(WithCpu(s, v, c), s.threads[t].space, m, s.kernel, s.log)
            && n' == NativeOutside(WithThread(n, t, th), s.threads[t].space, m, s.kernel, s.log)
  {
    CoreFacts(s, n, t, v);
    FactsOf(s, n, t);
    ViewIsPlain(CpuOf(s, v));
    hide Inv, AllPaired, Matches, Serves;
  }

  /** Before a guest instruction both machines have the same thread and decode the same instruction. */
  lemma GuestDecodes<K>(env: N.Env<K>, s: System<K>, s': System<K>, n: N.System<K>, t: Word, f: TlbEntry, d: TlbEntry)
    requires Sim(s, n) && DoGuestOp(env, s, t, f, d) == Some(s')
    ensures t in s.threads && s.threads[t].phase.Running? && Works(s, t, s.threads[t].phase.v)
    ensures var c := CpuOf(s, s.threads[t].phase.v);
            && c.loc.User? && Reach(c, f, c.loc.pc, Fetch) == Some(c.loc.pc) && IdentityTlb(c.tlb)
            && N.Live(n, t) && N.OpOf(env, n, t) == env.op(c.loc.pc, UserOf(s, t))
            && N.MemOf(n, t) == UserOf(s, t)
            && n.threads[t].gpr == c.gpr && n.threads[t].pc == c.loc.pc && !n.threads[t].calling
  {
    hide Sim;
    var v := s.threads[t].phase.v;
    CoreFacts(s, n, t, v);
    FactsOf(s, n, t);
    ViewIsPlain(CpuOf(s, v));
    ReachIsIdentity(CpuOf(s, v), f, CpuOf(s, v).loc.pc, Fetch);
    hide ThreadOk, Matches, KvmAllows, Covers, Hits, Physical;
  }

  lemma GuestAluSim<K>(env: N.Env<K>, s: System<K>, s': System<K>, n: N.System<K>, t: Word, f: TlbEntry, d: TlbEntry)
    requires Sim(s, n) && DoGuestOp(env, s, t, f, d) == Some(s') && N.Live(n, t) && N.OpOf(env, n, t).Alu?
    ensures exists n' :: Follows(env, n, Some(N.Ordinary(t)), n') && Sim(s', n')
  {
    hide Sim, Reach, HasBlock, IdentityTlb;
    GuestDecodes(env, s, s', n, t, f, d);
    var v := s.threads[t].phase.v;
    var c := CpuOf(s, v);
    var (g, next) := N.OpOf(env, n, t).f(c.gpr, c.loc.pc);
    GuestRegsSim(s, s', n, t, v, c.(gpr := g, loc := User(next)), g, next);
    assert Follows(env, n, Some(N.Ordinary(t)), WithThread(n, t, n.threads[t].(gpr := g, pc := next)));
  }

  lemma GuestLoadSim<K>(env: N.Env<K>, s: System<K>, s': System<K>, n: N.System<K>, t: Word, f: TlbEntry, d: TlbEntry)
    requires Sim(s, n) && DoGuestOp(env, s, t, f, d) == Some(s') && N.Live(n, t) && N.OpOf(env, n, t).Load?
    ensures exists n' :: Follows(env, n, Some(N.Ordinary(t)), n') && Sim(s', n')
  {
    hide Sim, Reach, HasBlock, IdentityTlb;
    GuestDecodes(env, s, s', n, t, f, d);
    var v := s.threads[t].phase.v;
    var c, op := CpuOf(s, v), N.OpOf(env, n, t);
    ReachIsIdentity(c, d, op.addr(c.gpr), Read);
    var g, next := Set(c.gpr, op.rd, UserOf(s, t)[op.addr(c.gpr)]), Add(c.loc.pc, 4);
    GuestRegsSim(s, s', n, t, v, c.(gpr := g, loc := User(next)), g, next);
    assert Follows(env, n, Some(N.Ordinary(t)), WithThread(n, t, n.threads[t].(gpr := g, pc := next)));
  }

  lemma GuestWriteSim<K>(env: N.Env<K>, s: System<K>, s': System<K>, n: N.System<K>, t: Word, f: TlbEntry, d: TlbEntry)
    requires Sim(s, n) && DoGuestOp(env, s, t, f, d) == Some(s') && N.Live(n, t) && N.OpOf(env, n, t).Store?
    ensures exists n' :: Follows(env, n, Some(N.Ordinary(t)), n') && Sim(s', n')
  {
    hide Sim, Reach, HasBlock, IdentityTlb;
    GuestDecodes(env, s, s', n, t, f, d);
    var v := s.threads[t].phase.v;
    var c, op := CpuOf(s, v), N.OpOf(env, n, t);
    ReachIsIdentity(c, d, op.addr(c.gpr), Write);
    var n' := N.StepOrdinary(env, n, t).value;
    GuestStoreSim(s, s', n, n', t, v, UserOf(s, t)[op.addr(c.gpr) := Get(c.gpr, op.rs)]);
    assert Follows(env, n, Some(N.Ordinary(t)), n');
  }

  lemma GuestCallSim<K>(env: N.Env<K>, s: System<K>, s': System<K>, n: N.System<K>, t: Word, f: TlbEntry, d: TlbEntry)
    requires Sim(s, n) && DoGuestOp(env, s, t, f, d) == Some(s') && N.Live(n, t) && N.OpOf(env, n, t).Syscall?
    ensures exists n' :: Follows(env, n, Some(N.Ordinary(t)), n') && Sim(s', n')
  {
    hide Sim, Reach, HasBlock, IdentityTlb;
    GuestDecodes(env, s, s', n, t, f, d);
    GuestTrapSim(s, s', n, t, s.threads[t].phase.v);
    assert Follows(env, n, Some(N.Ordinary(t)), WithThread(n, t, n.threads[t].(calling := true)));
  }

  lemma GuestOpSim<K>(env: N.Env<K>, s: System<K>, s': System<K>, n: N.System<K>, t: Word, f: TlbEntry, d: TlbEntry)
    returns (n': N.System<K>)
    requires Sim(s, n) && DoGuestOp(env, s, t, f, d) == Some(s')
    ensures Follows(env, n, Some(N.Ordinary(t)), n') && Sim(s', n')
  {
    hide Sim;
    GuestDecodes(env, s, s', n, t, f, d);
    hide DoGuestOp, Follows;
    match N.OpOf(env, n, t) {
      case Alu(_) => GuestAluSim(env, s, s', n, t, f, d);
      case Load(_, _) => GuestLoadSim(env, s, s', n, t, f, d);
      case Store(_, _) => GuestWriteSim(env, s, s', n, t, f, d);
      case Syscall => GuestCallSim(env, s, s', n, t, f, d);
    }
    n' :| Follows(env, n, Some(N.Ordinary(t)), n') && Sim(s', n');
  }

  // ---------- Steps that write the thread's own block ----------

  ghost predicate BlockMoved<K>(s: System<K>, s': System<K>, t: Word, v: VcpuId, c: Cpu, p: Phase, m: Mem)
  {
    && t in s.threads && v in s.vcpus && s.threads[t].space in s.spaces
    && s' == WithPhase(WithBlocks(WithCpu(s, v, c), t, m), t, p)
  }

  /** Like `MoveSim`, with the cells of the thread's own block changing too. */
  lemma BlockMoveSim<K>(s: System<K>, s': System<K>, t: Word, v: VcpuId, c: Cpu, p: Phase, m: Mem, n: N.System<K>, th: N.Thread)
    requires Sim(s, n) && BlockMoved(s, s', t, v, c, p, m)
    requires Holds(s.threads[t].phase) == {v} && Holds(p) == {v} && !p.NeedsVm? && !p.CloneArmed?
    requires Serves(c, s.vcpus[v].block, m) && c.csr.ebase != 0
    requires OnlyBlockChanges(BlocksOf(s, t), m, s.vcpus[v].block)
    requires th.space == s.threads[t].space
    requires Mirrors(p, c, Params(m, s.vcpus[v].block), th)
    ensures Sim(s', WithThread(n, t, th))
  {
    BlockMoveLocal(s, s', t, v, c, p, m);
    BlockMoveMems(s, s', t, v, c, p, m, n);
    BlockMoveMatches(s, s', t, v, c, p, m, th);
    hide Sim, Local, VcpuOk, ThreadOk, Matches, Mirrors, Serves, OnlyBlockChanges;
    LocalSim(s, s', t, v, n, WithThread(n, t, th));
  }

  lemma BlockMoveLocal<K>(s: System<K>, s': System<K>, t: Word, v: VcpuId, c: Cpu, p: Phase, m: Mem)
    requires Inv(s) && BlockMoved(s, s', t, v, c, p, m)
    requires Holds(s.threads[t].phase) == {v} && Holds(p) == {v}
    requires Serves(c, s.vcpus[v].block, m) && c.csr.ebase != 0
    requires OnlyBlockChanges(BlocksOf(s, t), m, s.vcpus[v].block)
    ensures Local(s, s', t, v) && VcpuOk(s', v)
  {
    hide Serves, OnlyBlockChanges, VcpusApart, HoldingsApart, NewbornsAlone;
    assert ThreadOk(s, t);
    assert v in Holds(s.threads[t].phase);
    assert Seated(s, t, v);
  }

  lemma BlockMoveMems<K>(s: System<K>, s': System<K>, t: Word, v: VcpuId, c: Cpu, p: Phase, m: Mem, n: N.System<K>)
    requires Sim(s, n) && BlockMoved(s, s', t, v, c, p, m)
    ensures s'.threads[t].space in s'.spaces
    ensures n.mems == n.mems[s.threads[t].space := UserOf(s', t)]
    ensures n.kernel == s'.kernel && n.log == s'.log
  {
    hide Inv, AllPaired;
  }

  lemma BlockMoveMatches<K>(s: System<K>, s': System<K>, t: Word, v: VcpuId, c: Cpu, p: Phase, m: Mem, th: N.Thread)
    requires BlockMoved(s, s', t, v, c, p, m) && Holds(p) == {v} && !p.NeedsVm? && !p.CloneArmed?
    requires HasBlock(m, s.vcpus[v].block)
    requires Mirrors(p, c, Params(m, s.vcpus[v].block), th)
    ensures ThreadOk(s', t) ==> Matches(s', t, th)
  {
    hide Mirrors, VcpuOk;
    assert p.v in Holds(p);
  }

  lemma RefillInstrSim<K>(s: System<K>, s': System<K>, n: N.System<K>, t: Word, keep: set<TlbEntry>)
    requires Sim(s, n) && DoHandlerInstr(s, t, keep) == Some(s') && CpuOf(s, s.threads[t].phase.v).loc.Refill?
    ensures Sim(s', n)
  {
    hide Sim, CoreOk, StandsFor;
    var v := s.threads[t].phase.v;
    CoreFacts(s, n, t, v);
    var d := RefillInstr(CpuOf(s, v), BlocksOf(s, t), keep);
    RefillCurrent(CpuOf(s, v));
    hide Exec, RefillCode, Current;
    SamePhase(s', t);
    SameBlocks(WithCpu(s, v, d), t);
    MoveSim(s, s', t, v, d, Running(v), n, n.threads[t]);
    SameThread(n, t);
  }

  lemma RefillCurrent(c: Cpu)
    requires CoreOk(c) && c.loc.Refill?
    ensures c.loc.j < REFILL_LENGTH && Current(c.loc) == Some(RefillCode(c.loc.j))
  {
  }

  lemma StubInstrSim<K>(s: System<K>, s': System<K>, n: N.System<K>, t: Word, keep: set<TlbEntry>)
    requires Sim(s, n) && DoHandlerInstr(s, t, keep) == Some(s') && CpuOf(s, s.threads[t].phase.v).loc.Stub?
    ensures Sim(s', n)
  {
    hide Sim, CoreOk, StandsFor;
    var v := s.threads[t].phase.v;
    CoreFacts(s, n, t, v);
    var c := CpuOf(s, v);
    StubCurrent(c, BlocksOf(s, t), keep);
    var d, m := StubInstr(c, s.vcpus[v].block, BlocksOf(s, t), keep, n.threads[t]);
    hide Exec, StubCode, Current, Serves, OnlyBlockChanges;
    StubRuns(s, s', t, v, d, m);
    BlockMoveSim(s, s', t, v, d, Running(v), m, n, n.threads[t]);
    SameThread(n, t);
  }

  lemma StubCurrent(c: Cpu, mem: Mem, keep: set<TlbEntry>)
    requires CoreOk(c) && c.loc.Stub?
    ensures c.loc.k < STUB_LENGTH && Current(c.loc) == Some(StubCode(c.loc.k)) && !ViewOf(c).loc.Refill?
    ensures c.loc.k == 10 ==> Exec(StubCode(c.loc.k), c, mem, keep) == Stuck
  {
  }

  lemma StubRuns<K>(s: System<K>, s': System<K>, t: Word, v: VcpuId, d: Cpu, m: Mem)
    requires t in s.threads && v in s.vcpus && s.threads[t].space in s.spaces && s.threads[t].phase == Running(v)
    requires s' == WithBlocks(WithCpu(s, v, d), t, m)
    ensures BlockMoved(s, s', t, v, d, Running(v), m)
  {
    SamePhase(s', t);
  }

  lemma HandlerInstrSim<K>(s: System<K>, s': System<K>, n: N.System<K>, t: Word, keep: set<TlbEntry>)
    requires Sim(s, n) && DoHandlerInstr(s, t, keep) == Some(s')
    ensures Sim(s', n)
  {
    hide Sim, Exec;
    if CpuOf(s, s.threads[t].phase.v).loc.Refill? {
      RefillInstrSim(s, s', n, t, keep);
    } else {
      StubInstrSim(s, s', n, t, keep);
    }
  }

  /** Writing the result makes the block hand it back, wherever it came from. */
  lemma ResultStored(m: Mem, b: Word, r: Word)
    requires HasBlock(m, b)
    ensures HasBlock(m[Cell(b, 0) := r], b) && Params(m[Cell(b, 0) := r], b)[0] == r
    ensures OnlyBlockChanges(m, m[Cell(b, 0) := r], b)
  {
  }

  lemma AnsweredIsServed(c: Cpu, pr: seq<Word>, r: Word, n: N.Thread)
    requires |pr| == PARAMETERS && pr[0] == r && Answered(ViewOf(c), r, n)
    ensures StandsFor(ViewOf(Resume(c)), pr, n)
  {
  }

  lemma StoreResultSim<K>(s: System<K>, s': System<K>, n: N.System<K>, t: Word)
    requires Sim(s, n) && DoStoreResult(s, t) == Some(s')
    ensures Sim(s', n)
  {
    hide Sim, CoreOk, StandsFor;
    var v := s.threads[t].phase.v;
    CoreFacts(s, n, t, v);
    SameCpu(s, v);
    var c, b, r := CpuOf(s, v), s.vcpus[v].block, s.threads[t].phase.result;
    var m := BlocksOf(s, t)[Cell(b, 0) := r];
    ResultStored(BlocksOf(s, t), b, r);
    AnsweredIsServed(c, Params(m, b), r, n.threads[t]);
    hide OnlyBlockChanges, Resume;
    BlockMoveSim(s, s', t, v, c, Top(v), m, n, n.threads[t]);
    SameThread(n, t);
  }

  // ---------- The host system call ----------

  lemma HostCallSim<K>(env: N.Env<K>, s: System<K>, s': System<K>, n: N.System<K>, t: Word)
    returns (l: N.Label, n': N.System<K>)
    requires Sim(s, n) && DoHostCall(env, s, t) == Some(s')
    ensures Follows(env, n, Some(l), n') && Sim(s', n')
    ensures l == N.Call(t, CpuOf(s, s.threads[t].phase.v).csr.epc)
  {
    hide Sim, CoreOk, StandsFor;
    var v := s.threads[t].phase.v;
    CoreFacts(s, n, t, v);
    FactsOf(s, n, t);
    SameCpu(s, v);
    var c, pr, th := CpuOf(s, v), ParamsOf(s, t, v), n.threads[t];
    var (r, m, k) := env.sys(t, pr[7], pr[..7], UserOf(s, t), s.kernel);
    AskingIsAnswered(c, pr, r, th);
    var back := N.Returned(th, r, c.csr.epc);
    var mid := WithPhase(s, t, Storing(v, r));
    MoveSim(s, mid, t, v, c, Storing(v, r), n, back);
    var log := s.log + [N.Called(t, pr[7], pr[..7], r)];
    OutsideSim(mid, WithThread(n, t, back), s.threads[t].space, m, k, log);
    l, n' := N.Call(t, c.csr.epc), NativeOutside(WithThread(n, t, back), s.threads[t].space, m, k, log);
    SimAgrees(s, n);
    hide Works, Matches, ThreadOk, Serves, Mirrors, Params;
  }

  lemma SimAgrees<K>(s: System<K>, n: N.System<K>)
    requires Sim(s, n)
    ensures s.kernel == n.kernel && s.log == n.log && s.threads.Keys == n.threads.Keys && s.spaces.Keys == n.mems.Keys
  {
  }

  /** The parameters in the block are the native thread's arguments, and with the host's result in hand
      the core stands for the thread behind its call. */
  lemma AskingIsAnswered(c: Cpu, pr: seq<Word>, r: Word, th: N.Thread)
    requires |pr| == PARAMETERS && Asking(ViewOf(c), pr, th)
    ensures th.calling && pr[7] == th.gpr[A7] && pr[..7] == th.gpr[A0..A7]
    ensures Answered(ViewOf(c), r, N.Returned(th, r, c.csr.epc))
  {
  }

  // ---------- Losing translations ----------

  lemma EvictedSim<K>(s: System<K>, s': System<K>, n: N.System<K>, v: VcpuId, keep: set<TlbEntry>)
    requires Sim(s, n) && DoEvicted(s, v, keep) == Some(s')
    ensures Sim(s', n)
  {
    EvictedInv(s, s', v, keep);
    assert Agrees(s', n);
    hide Inv, Matches, Agrees, DoEvicted;
    forall t | t in s.threads ensures ThreadOk(s', t) && Paired(s', n, t) {
      FactsOf(s, n, t);
      EvictedThread(s, s', v, keep, t, n.threads[t]);
    }
    EvictedKeepsThreads(s, s', v, keep);
  }

  lemma EvictedKeepsThreads<K>(s: System<K>, s': System<K>, v: VcpuId, keep: set<TlbEntry>)
    requires DoEvicted(s, v, keep) == Some(s')
    ensures s'.threads == s.threads
  {
  }

  lemma EvictedInv<K>(s: System<K>, s': System<K>, v: VcpuId, keep: set<TlbEntry>)
    requires Inv(s) && DoEvicted(s, v, keep) == Some(s')
    ensures Inv(s')
  {
    EvictedVcpus(s, s', v, keep);
    EvictedApart(s, s', v, keep);
    hide VcpuOk, VcpusApart, HoldingsApart, NewbornsAlone, ThreadOk;
    forall t | t in s'.threads ensures ThreadOk(s', t) {
      EvictedSeats(s, s', v, keep, t);
    }
  }

  lemma EvictedSeats<K>(s: System<K>, s': System<K>, v: VcpuId, keep: set<TlbEntry>, t: Word)
    requires Inv(s) && DoEvicted(s, v, keep) == Some(s') && t in s.threads
    ensures t in s'.threads && ThreadOk(s', t)
  {
    hide VcpuOk, Inv;
    InvThread(s, t);
    EvictedVcpus(s, s', v, keep);
  }

  lemma EvictedApart<K>(s: System<K>, s': System<K>, v: VcpuId, keep: set<TlbEntry>)
    requires Inv(s) && DoEvicted(s, v, keep) == Some(s')
    ensures VcpusApart(s') && HoldingsApart(s') && NewbornsAlone(s')
  {
    hide VcpuOk, BlocksApart, ThreadOk;
    forall t | t in s'.threads && s'.threads[t].phase.NeedsVm? ensures Newborn(s', t) {
      assert Newborn(s, t);
    }
  }

  lemma EvictedVcpus<K>(s: System<K>, s': System<K>, v: VcpuId, keep: set<TlbEntry>)
    requires Inv(s) && DoEvicted(s, v, keep) == Some(s')
    ensures forall w | w in s'.vcpus :: VcpuOk(s', w)
  {
    hide VcpusApart, HoldingsApart, NewbornsAlone, ThreadOk;
    assert VcpuOk(s, v);
    EvictedServes(CpuOf(s, v), s.vcpus[v].block, s.spaces[s.vms[v.vm].creator].blocks, keep);
    hide Serves;
    forall w | w in s'.vcpus ensures VcpuOk(s', w) {
      assert VcpuOk(s, w);
    }
  }

  lemma EvictedServes(c: Cpu, b: Word, mem: Mem, keep: set<TlbEntry>)
    requires Serves(c, b, mem)
    ensures Serves(c.(tlb := c.tlb * keep), b, mem)
  {
  }

  lemma EvictedThread<K>(s: System<K>, s': System<K>, v: VcpuId, keep: set<TlbEntry>, t: Word, th: N.Thread)
    requires Inv(s) && DoEvicted(s, v, keep) == Some(s') && t in s.threads
    requires ThreadOk(s, t) && Matches(s, t, th)
    ensures ThreadOk(s', t) && Matches(s', t, th)
  {
    hide Mirrors, VcpuOk, Inv, Armed;
    EvictedInv(s, s', v, keep);
    EvictedKeepsThreads(s, s', v, keep);
    InvThread(s', t);
    EvictedMirrors(CoreOf(s, t), CoreOf(s', t), s.threads[t].phase, Params(BlocksOf(s, t), BlockOf(s, t)), th);
    if s.threads[t].phase.CloneArmed? {
      EvictedArmed(s, s', v, keep, t);
    }
  }

  lemma EvictedArmed<K>(s: System<K>, s': System<K>, v: VcpuId, keep: set<TlbEntry>, t: Word)
    requires DoEvicted(s, v, keep) == Some(s') && t in s.threads && s.threads[t].phase.CloneArmed?
    requires s.threads[t].phase.child in s.vcpus
    ensures forall pr | |pr| == PARAMETERS && Armed(CpuOf(s, s.threads[t].phase.child), s.threads[t].phase.info, pr) ::
              Armed(CpuOf(s', s.threads[t].phase.child), s.threads[t].phase.info, pr)
  {
  }

  lemma EvictedMirrors(c: Cpu, d: Cpu, p: Phase, pr: seq<Word>, th: N.Thread)
    requires d == c.(tlb := d.tlb) && |pr| == PARAMETERS && Mirrors(p, c, pr, th)
    ensures Mirrors(p, d, pr, th)
  {
    hide StandsFor, Asking, Answered;
    assert ViewOf(d) == ViewOf(c) && ViewOf(Resume(d)) == ViewOf(Resume(c));
  }

  // ---------- The end of a thread ----------

  function Gone<K>(s: System<K>, t: Word, v: VcpuId): System<K>
    requires v.vm in s.vms && v.slot < |s.vms[v.vm].valid|
  {
    var freed := s.vms[v.vm].(valid := s.vms[v.vm].valid[v.slot := false]);
    s.(threads := s.threads - {t}, vms := s.vms[v.vm := freed])
  }

  lemma GoneVcpus<K>(s: System<K>, t: Word, v: VcpuId)
    requires Inv(s) && t in s.threads && v in s.vcpus && v.vm in s.vms && v.slot < |s.vms[v.vm].valid|
    ensures forall w | w in s.vcpus :: VcpuOk(Gone(s, t, v), w)
  {
    hide Serves, VcpusApart, HoldingsApart, NewbornsAlone, ThreadOk;
    forall w | w in s.vcpus ensures VcpuOk(Gone(s, t, v), w) {
      assert VcpuOk(s, w);
    }
  }

  lemma GoneApart<K>(s: System<K>, t: Word, v: VcpuId)
    requires Inv(s) && t in s.threads && v in s.vcpus && v.vm in s.vms && v.slot < |s.vms[v.vm].valid|
    ensures VcpusApart(Gone(s, t, v)) && HoldingsApart(Gone(s, t, v)) && NewbornsAlone(Gone(s, t, v))
  {
    hide VcpuOk, ThreadOk, BlocksApart;
    var s' := Gone(s, t, v);
    assert forall m | m in s.vms :: s'.vms[m].creator == s.vms[m].creator;
    forall u | u in s'.threads && s'.threads[u].phase.NeedsVm? ensures Newborn(s', u) {
      assert Newborn(s, u);
    }
  }

  lemma GoneKeepsSeat<K>(s: System<K>, t: Word, v: VcpuId, u: Word, w: VcpuId)
    requires Inv(s) && t in s.threads && v in s.vcpus && v.vm in s.vms && v.slot < |s.vms[v.vm].valid|
    requires u in s.threads && u != t && w in s.vcpus && w != v && Seated(s, u, w)
    ensures Seated(Gone(s, t, v), u, w)
  {
    GoneVcpus(s, t, v);
    hide VcpuOk, Inv;
    assert VcpuOk(Gone(s, t, v), w);
    GoneKeepsSlot(s, t, v, w);
  }

  lemma GoneKeepsSlot<K>(s: System<K>, t: Word, v: VcpuId, w: VcpuId)
    requires v.vm in s.vms && v.slot < |s.vms[v.vm].valid| && w != v
    requires w.vm in s.vms && w.slot < |s.vms[w.vm].valid| && s.vms[w.vm].valid[w.slot]
    ensures w.vm in Gone(s, t, v).vms && Gone(s, t, v).vms[w.vm].creator == s.vms[w.vm].creator
    ensures w.slot < |Gone(s, t, v).vms[w.vm].valid| && Gone(s, t, v).vms[w.vm].valid[w.slot]
  {
  }

  lemma GoneUntouched<K>(s: System<K>, t: Word, v: VcpuId, u: Word)
    requires Inv(s) && t in s.threads && v in Holds(s.threads[t].phase)
    requires v in s.vcpus && v.vm in s.vms && v.slot < |s.vms[v.vm].valid|
    requires u in s.threads && u != t && ThreadOk(s, u)
    ensures Untouched(s, Gone(s, t, v), u)
  {
    hide Inv, Seated, Extends;
    InvThread(s, u);
    InvHoldings(s, t, u);
    ExtendsItself(BlocksOf(s, u));
    forall w | w in Holds(s.threads[u].phase) ensures w in s.vcpus && Seated(Gone(s, t, v), u, w) {
      GoneKeepsSeat(s, t, v, u, w);
    }
  }

  lemma GoneSim<K>(s: System<K>, n: N.System<K>, t: Word, v: VcpuId)
    requires Sim(s, n) && t in s.threads && Holds(s.threads[t].phase) == {v}
    requires v in s.vcpus && v.vm in s.vms && v.slot < |s.vms[v.vm].valid|
    ensures Sim(Gone(s, t, v), n.(threads := n.threads - {t}))
  {
    GoneInv(s, t, v);
    GoneAgrees(s, n, t, v);
    GoneAllPaired(s, n, t, v);
    hide Inv, Agrees, AllPaired, Gone;
  }

  lemma GoneAllPaired<K>(s: System<K>, n: N.System<K>, t: Word, v: VcpuId)
    requires Sim(s, n) && t in s.threads && Holds(s.threads[t].phase) == {v}
    requires v in s.vcpus && v.vm in s.vms && v.slot < |s.vms[v.vm].valid|
    ensures AllPaired(Gone(s, t, v), n.(threads := n.threads - {t}))
  {
    hide Sim, ThreadOk, Paired;
    forall u | u in s.threads && u != t
      ensures ThreadOk(Gone(s, t, v), u) && u in n.threads && Paired(Gone(s, t, v), n.(threads := n.threads - {t}), u)
    {
      GonePaired(s, n, t, v, u);
    }
  }

  lemma GoneSeats<K>(s: System<K>, t: Word, v: VcpuId, u: Word)
    requires Inv(s) && t in s.threads && v in Holds(s.threads[t].phase)
    requires v in s.vcpus && v.vm in s.vms && v.slot < |s.vms[v.vm].valid|
    requires u in s.threads && u != t
    ensures ThreadOk(Gone(s, t, v), u)
  {
    hide Inv, Seated, Extends;
    InvThread(s, u);
    GoneUntouched(s, t, v, u);
    UntouchedOk(s, Gone(s, t, v), u);
  }

  lemma GoneInv<K>(s: System<K>, t: Word, v: VcpuId)
    requires Inv(s) && t in s.threads && v in Holds(s.threads[t].phase)
    requires v in s.vcpus && v.vm in s.vms && v.slot < |s.vms[v.vm].valid|
    ensures Inv(Gone(s, t, v))
  {
    GoneVcpus(s, t, v);
    GoneApart(s, t, v);
    hide VcpuOk, VcpusApart, HoldingsApart, NewbornsAlone, ThreadOk;
    forall u | u in s.threads && u != t ensures ThreadOk(Gone(s, t, v), u) {
      GoneSeats(s, t, v, u);
    }
  }

  lemma GonePaired<K>(s: System<K>, n: N.System<K>, t: Word, v: VcpuId, u: Word)
    requires Sim(s, n) && t in s.threads && Holds(s.threads[t].phase) == {v}
    requires v in s.vcpus && v.vm in s.vms && v.slot < |s.vms[v.vm].valid|
    requires u in s.threads && u != t
    ensures ThreadOk(Gone(s, t, v), u) && u in n.threads
    ensures Paired(Gone(s, t, v), n.(threads := n.threads - {t}), u)
  {
    FactsOf(s, n, u);
    GoneUntouched(s, t, v, u);
    UntouchedMatches(s, Gone(s, t, v), u, n.threads[u]);
    hide Matches, ThreadOk, Sim;
  }

  lemma GoneAgrees<K>(s: System<K>, n: N.System<K>, t: Word, v: VcpuId)
    requires Agrees(s, n) && v.vm in s.vms && v.slot < |s.vms[v.vm].valid|
    ensures Agrees(Gone(s, t, v), n.(threads := n.threads - {t}))
    ensures Gone(s, t, v).threads == s.threads - {t}
  {
  }

  lemma ExitThreadSim<K>(env: N.Env<K>, s: System<K>, s': System<K>, n: N.System<K>, t: Word)
    returns (n': N.System<K>)
    requires Sim(s, n) && DoExitThread(env, s, t) == Some(s')
    ensures Follows(env, n, Some(N.Exit(t)), n') && Sim(s', n')
  {
    hide Sim, CoreOk, StandsFor;
    var v := s.threads[t].phase.v;
    CoreFacts(s, n, t, v);
    FactsOf(s, n, t);
    SimAgrees(s, n);
    var pr := ParamsOf(s, t, v);
    var (m, k) := env.exit(t, pr[0], UserOf(s, t), s.kernel);
    var log := s.log + [N.Left(t, pr[0])];
    GoneSim(s, n, t, v);
    OutsideSim(Gone(s, t, v), n.(threads := n.threads - {t}), s.threads[t].space, m, k, log);
    n' := NativeOutside(n.(threads := n.threads - {t}), s.threads[t].space, m, k, log);
    hide Works, Matches, ThreadOk, Serves, Params;
  }
}
