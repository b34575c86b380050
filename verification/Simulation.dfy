/** What relates a state of dune to a state of the native machine, and what that says about dune. */
module Simulation {
  import opened Words
  import opened LoongArch
  import opened Handlers
  import opened Trampoline
  import opened Clone
  import opened Slots
  import opened Dune
  import N = Native

  // ---------- Invariant ----------

  /** A core of the tree: its VM's creator holds its block, and it is set up to serve that block. */
  ghost predicate VcpuOk<K>(s: System<K>, v: VcpuId)
    requires v in s.vcpus
  {
    && v.vm in s.vms && s.vms[v.vm].creator in s.spaces
    && v.slot < |s.vms[v.vm].valid|
    && Serves(CpuOf(s, v), s.vcpus[v].block, s.spaces[s.vms[v.vm].creator].blocks)
    && CpuOf(s, v).csr.ebase != 0
  }

  ghost predicate BlocksApart(b: Word, c: Word)
  {
    forall i, j | 0 <= i < PARAMETERS && 0 <= j < PARAMETERS :: Cell(b, i) != Cell(c, j)
  }

  ghost predicate VcpusApart<K>(s: System<K>)
  {
    forall v, w | v in s.vcpus && w in s.vcpus && v != w && v.vm in s.vms && w.vm in s.vms
                  && s.vms[v.vm].creator == s.vms[w.vm].creator ::
      BlocksApart(s.vcpus[v].block, s.vcpus[w].block)
  }

  /** The cores a thread holds: the one it runs on, and a child's that it has armed. */
  function Holds(p: Phase): set<VcpuId>
  {
    match p
    case NeedsVm(_, _) => {}
    case CloneArmed(v, _, child) => {v, child}
    case _ => {p.v}
  }

  ghost predicate HoldingsApart<K>(s: System<K>)
  {
    forall t, u | t in s.threads && u in s.threads && t != u ::
      Holds(s.threads[t].phase) !! Holds(s.threads[u].phase)
  }

  /** A forked child without a VM is alone in its address space, and nothing there runs yet. */
  ghost predicate Newborn<K>(s: System<K>, t: Word)
    requires t in s.threads
  {
    && (forall u | u in s.threads && u != t :: s.threads[u].space != s.threads[t].space)
    && (forall m | m in s.vms :: s.vms[m].creator != s.threads[t].space)
  }

  ghost predicate NewbornsAlone<K>(s: System<K>)
  {
    forall t | t in s.threads && s.threads[t].phase.NeedsVm? :: Newborn(s, t)
  }

  /** The thread holds core `v` rightfully: KVM will accept its ioctls, and the slot is claimed. */
  ghost predicate Seated<K>(s: System<K>, t: Word, v: VcpuId)
    requires t in s.threads
  {
    && v in s.vcpus && VcpuOk(s, v)
    && s.vms[v.vm].creator == s.threads[t].space
    && s.vms[v.vm].valid[v.slot]
  }

  ghost predicate ThreadOk<K>(s: System<K>, t: Word)
    requires t in s.threads
  {
    && s.threads[t].space in s.spaces
    && (!s.threads[t].phase.NeedsVm? ==> Seated(s, t, s.threads[t].phase.v))
    && (s.threads[t].phase.CloneArmed? ==> Seated(s, t, s.threads[t].phase.child))
  }

  ghost predicate Inv<K>(s: System<K>)
  {
    && (forall v | v in s.vcpus :: VcpuOk(s, v))
    && (forall t | t in s.threads :: ThreadOk(s, t))
    && (forall m | m in s.vms :: s.vms[m].creator in s.spaces && |s.vms[m].valid| == KVM_MAX_VCPUS)
    && VcpusApart(s)
    && HoldingsApart(s)
    && NewbornsAlone(s)
  }

  /** What the invariant says of one thread. */
  lemma InvThread<K>(s: System<K>, u: Word)
    requires Inv(s) && u in s.threads
    ensures ThreadOk(s, u)
    ensures forall w | w in Holds(s.threads[u].phase) :: w in s.vcpus && Seated(s, u, w)
  {
    hide VcpuOk;
  }

  lemma InvHoldings<K>(s: System<K>, t: Word, u: Word)
    requires Inv(s) && t in s.threads && u in s.threads && t != u
    ensures Holds(s.threads[t].phase) !! Holds(s.threads[u].phase)
  {
    hide VcpuOk, ThreadOk, VcpusApart, NewbornsAlone, Holds;
  }

  // ---------- Simulation relation ----------

  /** The host call has returned `r`: the native thread is behind its syscall with that result. */
  ghost predicate Answered(v: View, r: Word, n: N.Thread)
  {
    && v.loc == Stub(11) && SameBut(v.gpr, n.gpr) && !n.calling
    && v.gpr[T0] == v.ks5 && n.gpr[T0] == v.epc && n.pc == Add(v.epc, 4) && n.gpr[A0] == r
  }

  ghost predicate InfoOf(info: ThreadInfo, c: Cpu)
  {
    info == ThreadInfo(c.gpr, c.csr.epc, c.csr.ebase)
  }

  /** The core is ready to hand the guest the child's registers behind the parent's clone. */
  ghost predicate Armed(c: Cpu, info: ThreadInfo, pr: seq<Word>)
    requires |pr| == PARAMETERS
  {
    && Resume(c).gpr == ChildRegs(info.regs, pr) && c.loc == User(Add(info.era, 4))
  }

  /** What a host thread in phase `p`, its core and its parameters have to do with a native thread. */
  ghost predicate Mirrors(p: Phase, c: Cpu, pr: seq<Word>, n: N.Thread)
    requires |pr| == PARAMETERS
  {
    match p
    case Running(_) => !c.pending && StandsFor(ViewOf(c), pr, n)
    case Top(_) => StandsFor(ViewOf(Resume(c)), pr, n)
    case Exited(_, false) => !c.pending && StandsFor(ViewOf(c), pr, n)
    case Exited(_, true) => c.pending && !c.loc.Refill? && Asking(ViewOf(c), pr, n)
    case Storing(_, r) => c.pending && Answered(ViewOf(c), r, n)
    case CloneReady(_, info) =>
      c.pending && !c.loc.Refill? && Asking(ViewOf(c), pr, n) && InfoOf(info, c) && pr[7] == N.SYS_CLONE
    case CloneArmed(v, info, child) =>
      && c.pending && !c.loc.Refill? && Asking(ViewOf(c), pr, n) && InfoOf(info, c) && pr[7] == N.SYS_CLONE
      && CloneTypeOf(pr) == SameVm && child != v
    case NeedsVm(_, info) =>
      info.ebase != 0 && n.gpr == ChildRegs(info.regs, pr) && n.pc == Add(info.era, 4) && !n.calling
  }

  /** The block a thread's parameters are in: its core's, or the copy of its parent's. */
  function BlockOf<K>(s: System<K>, t: Word): Word
    requires t in s.threads && (!s.threads[t].phase.NeedsVm? ==> s.threads[t].phase.v in s.vcpus)
  {
    match s.threads[t].phase
    case NeedsVm(b, _) => b
    case p => s.vcpus[p.v].block
  }

  /** The core of a thread; a thread without one stands for any. */
  function CoreOf<K>(s: System<K>, t: Word): Cpu
    requires t in s.threads && (!s.threads[t].phase.NeedsVm? ==> s.threads[t].phase.v in s.vcpus)
  {
    match s.threads[t].phase
    case NeedsVm(_, _) => NewCpu()
    case p => CpuOf(s, p.v)
  }

  /** What thread `t` of dune and the native thread `n` have to do with each
      other. */
  ghost predicate Matches<K>(s: System<K>, t: Word, n: N.Thread)
    requires t in s.threads && ThreadOk(s, t)
  {
    var p := s.threads[t].phase;
    && HasBlock(BlocksOf(s, t), BlockOf(s, t))
    && Mirrors(p, CoreOf(s, t), Params(BlocksOf(s, t), BlockOf(s, t)), n)
    && (p.CloneArmed? ==> Armed(CpuOf(s, p.child), p.info, Params(BlocksOf(s, t), BlockOf(s, t))))
  }

  ghost predicate Paired<K>(s: System<K>, n: N.System<K>, t: Word)
    requires t in s.threads && ThreadOk(s, t) && t in n.threads
  {
    n.threads[t].space == s.threads[t].space && Matches(s, t, n.threads[t])
  }

  /** The native machine has the same threads, memories, kernel and history of calls. */
  ghost predicate Agrees<K>(s: System<K>, n: N.System<K>)
  {
    && s.threads.Keys == n.threads.Keys
    && s.spaces.Keys == n.mems.Keys
    && (forall a | a in s.spaces :: n.mems[a] == s.spaces[a].user)
    && s.kernel == n.kernel && s.log == n.log
  }

  ghost predicate AllPaired<K>(s: System<K>, n: N.System<K>)
  {
    forall t | t in s.threads :: ThreadOk(s, t) && t in n.threads && Paired(s, n, t)
  }

  ghost predicate Sim<K>(s: System<K>, n: N.System<K>)
  {
    Inv(s) && Agrees(s, n) && AllPaired(s, n)
  }

  // ---------- Steps of one thread on its own core ----------

  /** Thread `t` moves on core `v`, which it holds before and after, and changes at most its own
      phase, that core, that core's block and its space's user memory. */
  ghost predicate Local<K>(s: System<K>, s': System<K>, t: Word, v: VcpuId)
  {
    && t in s.threads && t in s'.threads
    && Holds(s.threads[t].phase) == {v} && Holds(s'.threads[t].phase) == {v}
    && s'.threads == s.threads[t := s'.threads[t]]
    && s'.threads[t].space == s.threads[t].space
    && s'.vms == s.vms
    && v in s.vcpus && v in s'.vcpus && s'.vcpus == s.vcpus[v := s.vcpus[v].(cpu := s'.vcpus[v].cpu)]
    && s.threads[t].space in s.spaces && s.threads[t].space in s'.spaces
    && s'.spaces == s.spaces[s.threads[t].space := s'.spaces[s.threads[t].space]]
    && OnlyBlockChanges(BlocksOf(s, t), BlocksOf(s', t), s.vcpus[v].block)
  }

  lemma BlockKept(mem: Mem, mem': Mem, b: Word, c: Word)
    requires HasBlock(mem, c) && OnlyBlockChanges(mem, mem', b) && BlocksApart(c, b)
    ensures HasBlock(mem', c) && Params(mem', c) == Params(mem, c)
  {
  }

  /** Cores other than the one a local step moves are as good as before. */
  lemma LocalVcpu<K>(s: System<K>, s': System<K>, t: Word, v: VcpuId, w: VcpuId)
    requires Inv(s) && Local(s, s', t, v) && w in s.vcpus && w != v
    ensures s'.vcpus[w] == s.vcpus[w] && VcpuOk(s', w)
  {
    assert VcpuOk(s, w);
  }

  /** Other threads do not notice a local step. */
  lemma LocalOthers<K>(s: System<K>, s': System<K>, t: Word, v: VcpuId, u: Word, n: N.Thread)
    requires Inv(s) && Local(s, s', t, v) && u in s.threads && u != t
    requires ThreadOk(s, u) && Matches(s, u, n)
    ensures ThreadOk(s', u) && Matches(s', u, n)
  {
    hide Mirrors, Armed, Serves, BlocksApart, OnlyBlockChanges;
    assert ThreadOk(s, t) && Seated(s, t, v);
    var p := s.threads[u].phase;
    assert Holds(s.threads[t].phase) !! Holds(p);
    if p.NeedsVm? {
      assert Newborn(s, u);
    } else {
      LocalVcpu(s, s', t, v, p.v);
      if p.CloneArmed? {
        LocalVcpu(s, s', t, v, p.child);
      }
      if s.threads[u].space == s.threads[t].space {
        BlockKept(BlocksOf(s, t), BlocksOf(s', t), s.vcpus[v].block, s.vcpus[p.v].block);
      }
    }
  }

  lemma LocalVcpusApart<K>(s: System<K>, s': System<K>, t: Word, v: VcpuId)
    requires Inv(s) && Local(s, s', t, v)
    ensures VcpusApart(s')
  {
    hide VcpuOk, ThreadOk, BlocksApart, OnlyBlockChanges, HoldingsApart, NewbornsAlone;
    assert s'.vcpus.Keys == s.vcpus.Keys;
    assert forall w | w in s.vcpus :: s'.vcpus[w].block == s.vcpus[w].block;
  }

  lemma LocalHoldings<K>(s: System<K>, s': System<K>, t: Word, v: VcpuId)
    requires Inv(s) && Local(s, s', t, v)
    ensures HoldingsApart(s')
  {
    hide VcpuOk, ThreadOk, VcpusApart, NewbornsAlone, OnlyBlockChanges;
    assert forall u | u in s.threads :: Holds(s'.threads[u].phase) == Holds(s.threads[u].phase);
    hide Holds;
  }

  lemma LocalApart<K>(s: System<K>, s': System<K>, t: Word, v: VcpuId)
    requires Inv(s) && Local(s, s', t, v)
    ensures VcpusApart(s') && HoldingsApart(s') && NewbornsAlone(s')
  {
    LocalVcpusApart(s, s', t, v);
    LocalHoldings(s, s', t, v);
    hide VcpuOk, ThreadOk, VcpusApart, HoldingsApart, OnlyBlockChanges;
    forall u | u in s'.threads && s'.threads[u].phase.NeedsVm? ensures Newborn(s', u) {
      assert Newborn(s, u);
      assert forall w | w in s.threads :: s'.threads[w].space == s.threads[w].space;
    }
  }

  lemma LocalInv<K>(s: System<K>, s': System<K>, t: Word, v: VcpuId)
    requires Inv(s) && Local(s, s', t, v) && VcpuOk(s', v)
    requires forall u | u in s.threads && u != t :: ThreadOk(s', u)
    ensures Inv(s') && ThreadOk(s', t)
  {
    LocalApart(s, s', t, v);
    LocalSeat(s, s', t, v);
    forall w | w in s'.vcpus && w != v ensures VcpuOk(s', w) {
      LocalVcpu(s, s', t, v, w);
    }
    hide VcpuOk, ThreadOk, VcpusApart, HoldingsApart, NewbornsAlone, OnlyBlockChanges;
  }

  lemma LocalSeat<K>(s: System<K>, s': System<K>, t: Word, v: VcpuId)
    requires Inv(s) && Local(s, s', t, v) && VcpuOk(s', v)
    ensures ThreadOk(s', t)
  {
    hide Serves, VcpusApart, HoldingsApart, NewbornsAlone, OnlyBlockChanges;
    assert ThreadOk(s, t) && Seated(s, t, v);
    assert v in Holds(s'.threads[t].phase) && v in Holds(s.threads[t].phase);
  }

  /** A local step keeps the simulation as soon as it keeps it for the thread that takes it. */
  lemma LocalSim<K>(s: System<K>, s': System<K>, t: Word, v: VcpuId, n: N.System<K>, n': N.System<K>)
    requires Sim(s, n) && Local(s, s', t, v) && VcpuOk(s', v)
    requires t in n'.threads && n'.threads == n.threads[t := n'.threads[t]]
    requires n'.threads[t].space == s.threads[t].space
    requires n'.mems == n.mems[s.threads[t].space := UserOf(s', t)]
    requires n'.kernel == s'.kernel && n'.log == s'.log
    requires ThreadOk(s', t) ==> Matches(s', t, n'.threads[t])
    ensures Sim(s', n')
  {
    LocalAgrees(s, s', t, v, n, n');
    LocalPairs(s, s', t, v, n, n');
    hide Agrees, AllPaired, Inv, Local;
  }

  lemma LocalAgrees<K>(s: System<K>, s': System<K>, t: Word, v: VcpuId, n: N.System<K>, n': N.System<K>)
    requires Agrees(s, n) && Local(s, s', t, v)
    requires t in n'.threads && n'.threads == n.threads[t := n'.threads[t]]
    requires n'.mems == n.mems[s.threads[t].space := UserOf(s', t)]
    requires n'.kernel == s'.kernel && n'.log == s'.log
    ensures Agrees(s', n')
  {
    hide OnlyBlockChanges;
    assert s'.threads.Keys == s.threads.Keys;
  }

  lemma LocalPairs<K>(s: System<K>, s': System<K>, t: Word, v: VcpuId, n: N.System<K>, n': N.System<K>)
    requires Sim(s, n) && Local(s, s', t, v) && VcpuOk(s', v)
    requires t in n'.threads && n'.threads == n.threads[t := n'.threads[t]]
    requires n'.threads[t].space == s.threads[t].space
    requires ThreadOk(s', t) ==> Matches(s', t, n'.threads[t])
    ensures AllPaired(s', n') && Inv(s')
  {
    hide Inv, ThreadOk, Matches, Local, VcpuOk, Agrees;
    LocalShape(s, s', t, v);
    forall u | u in s.threads && u != t ensures ThreadOk(s', u) && Paired(s', n', u) {
      LocalPair(s, s', t, v, n, n', u);
    }
    LocalInv(s, s', t, v);
    assert Paired(s', n', t);
  }

  lemma LocalShape<K>(s: System<K>, s': System<K>, t: Word, v: VcpuId)
    requires Local(s, s', t, v)
    ensures s'.threads.Keys == s.threads.Keys && t in s.threads
    ensures s'.threads[t].space == s.threads[t].space
  {
  }

  lemma LocalPair<K>(s: System<K>, s': System<K>, t: Word, v: VcpuId, n: N.System<K>, n': N.System<K>, u: Word)
    requires Sim(s, n) && Local(s, s', t, v) && u in s.threads && u != t
    requires t in n'.threads && n'.threads == n.threads[t := n'.threads[t]]
    ensures ThreadOk(s', u) && Paired(s', n', u)
  {
    assert ThreadOk(s, u);
    assert Paired(s, n, u);
    hide Inv, ThreadOk, Matches, OnlyBlockChanges;
    LocalOthers(s, s', t, v, u, n.threads[u]);
  }

  // ---------- Steps that change who is there ----------

  /** Nothing that thread `u` depends on has changed. */
  ghost predicate Untouched<K>(s: System<K>, s': System<K>, u: Word)
    requires u in s.threads && ThreadOk(s, u)
  {
    && u in s'.threads && s'.threads[u] == s.threads[u] && s.threads[u].space in s'.spaces
    && Extends(BlocksOf(s, u), s'.spaces[s.threads[u].space].blocks)
    && (forall w | w in Holds(s.threads[u].phase) :: w in s'.vcpus && s'.vcpus[w] == s.vcpus[w] && Seated(s', u, w))
  }

  ghost predicate Extends(m: Mem, m': Mem)
  {
    forall a | a in m :: a in m' && m'[a] == m[a]
  }

  lemma ExtendsItself(m: Mem)
    ensures Extends(m, m)
  {
  }

  lemma ExtendedParams(m: Mem, m': Mem, b: Word)
    requires HasBlock(m, b) && Extends(m, m')
    ensures HasBlock(m', b) && Params(m', b) == Params(m, b)
  {
  }

  lemma UntouchedOk<K>(s: System<K>, s': System<K>, u: Word)
    requires u in s.threads && ThreadOk(s, u) && Untouched(s, s', u)
    ensures u in s'.threads && ThreadOk(s', u)
  {
    hide Seated, Extends;
    if !s.threads[u].phase.NeedsVm? {
      assert s.threads[u].phase.v in Holds(s.threads[u].phase);
    }
    if s.threads[u].phase.CloneArmed? {
      assert s.threads[u].phase.child in Holds(s.threads[u].phase);
    }
  }

  lemma UntouchedMatches<K>(s: System<K>, s': System<K>, u: Word, n: N.Thread)
    requires u in s.threads && ThreadOk(s, u) && Matches(s, u, n) && Untouched(s, s', u)
    ensures ThreadOk(s', u) && Matches(s', u, n)
  {
    hide Mirrors, VcpuOk, Extends;
    var p := s.threads[u].phase;
    ExtendedParams(BlocksOf(s, u), BlocksOf(s', u), BlockOf(s, u));
    if !p.NeedsVm? {
      assert p.v in Holds(p);
    }
    if p.CloneArmed? {
      assert p.child in Holds(p);
    }
  }

  lemma ExtendedServes(c: Cpu, b: Word, m: Mem, m': Mem)
    requires Serves(c, b, m) && Extends(m, m')
    ensures Serves(c, b, m')
  {
  }
}
