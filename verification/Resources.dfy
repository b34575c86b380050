/** What clones and forked children need: slots, cores, memory for blocks.  The steps that the native machine
    cannot see leave it alone, but for those that build a child's core or VM. */
module Resources {
  import opened Words
  import opened Paging
  import opened LoongArch
  import opened Handlers
  import opened Trampoline
  import opened Slots
  import opened Dune
  import N = Native

  /** The thread is where it was as far as clones go: on the same core, or still without one, and not newly
      armed. */
  predicate SamePlace(p: Phase, q: Phase)
  {
    if p.NeedsVm? then q == p else !q.NeedsVm? && q.v == p.v && (q.CloneArmed? ==> p.CloneArmed?)
  }

  ghost predicate SameResources<K>(s: System<K>, s': System<K>)
  {
    && s'.vms == s.vms && s'.vcpus.Keys == s.vcpus.Keys
    && s'.spaces.Keys == s.spaces.Keys
    && (forall a | a in s.spaces :: s'.spaces[a].blocks.Keys == s.spaces[a].blocks.Keys)
    && s'.threads.Keys == s.threads.Keys
    && (forall u | u in s.threads ::
          s'.threads[u].space == s.threads[u].space && SamePlace(s.threads[u].phase, s'.threads[u].phase))
  }

  predicate Plain(l: Label)
  {
    l.TlbMiss? || l.HandlerInstr? || l.TakeHypercall? || l.Interrupted? || l.Evicted?
    || l.LoopAgain? || l.KvmRun? || l.StoreResult? || l.BeginClone?
  }

  lemma SameAtAll<K>(s: System<K>)
    ensures SameResources(s, s)
  {
  }

  lemma SameTwice<K>(s: System<K>, mid: System<K>, s': System<K>)
    requires SameResources(s, mid) && SameResources(mid, s')
    ensures SameResources(s, s')
  {
  }

  lemma ExecKeepsCells(i: Instr, c: Cpu, mem: Mem, keep: set<TlbEntry>)
    ensures Exec(i, c, mem, keep).Done? ==> Exec(i, c, mem, keep).mem.Keys == mem.Keys
  {
    hide WindowTarget, ShiftRight, ShiftLeft, Words.Xor;
  }

  lemma HandlerKeepsResources<K>(s: System<K>, s': System<K>, t: Word, keep: set<TlbEntry>)
    requires DoHandlerInstr(s, t, keep) == Some(s')
    ensures SameResources(s, s')
  {
    hide Exec, Current, HasBlock;
    var v := s.threads[t].phase.v;
    ExecKeepsCells(Current(CpuOf(s, v).loc).value, CpuOf(s, v), BlocksOf(s, t), keep);
  }

  lemma GuestKeepsResources<K>(env: N.Env<K>, s: System<K>, l: Label, s': System<K>)
    requires Apply(env, s, l) == Some(s') && (l.TlbMiss? || l.TakeHypercall? || l.Interrupted? || l.Evicted?)
    ensures SameResources(s, s')
  {
    hide HasBlock, Current, Params, EnterRefill;
  }

  lemma LoopKeepsResources<K>(env: N.Env<K>, s: System<K>, l: Label, s': System<K>)
    requires Apply(env, s, l) == Some(s') && (l.LoopAgain? || l.KvmRun? || l.BeginClone?)
    ensures SameResources(s, s')
  {
    hide HasBlock, Params;
  }

  lemma PlainKeepsResources<K>(env: N.Env<K>, s: System<K>, l: Label, s': System<K>)
    requires Apply(env, s, l) == Some(s') && Plain(l)
    ensures SameResources(s, s')
  {
    hide SameResources, DoHandlerInstr, DoTlbMiss, DoTakeHypercall, DoInterrupted, DoEvicted, DoLoopAgain, DoKvmRun,
         DoBeginClone, DoStoreResult;
    if l.HandlerInstr? {
      HandlerKeepsResources(s, s', l.t, l.keep);
    } else if l.StoreResult? {
      StoreKeepsResources(s, s', l.t);
    } else if l.LoopAgain? || l.KvmRun? || l.BeginClone? {
      LoopKeepsResources(env, s, l, s');
    } else {
      GuestKeepsResources(env, s, l, s');
    }
  }

  lemma StoreKeepsResources<K>(s: System<K>, s': System<K>, t: Word)
    requires DoStoreResult(s, t) == Some(s')
    ensures SameResources(s, s')
  {
    var b := s.vcpus[s.threads[t].phase.v].block;
    assert Cell(b, 0) in BlocksOf(s, t);
    hide Cell;
    assert s'.spaces[s.threads[t].space].blocks.Keys == BlocksOf(s, t).Keys;
  }

  // ---------- What a child needs ----------

  /** There is memory for one more block. */
  ghost predicate BlockAvailable(m: Mem)
  {
    exists b: Word :: Allocatable(m, b)
  }

  lemma BlocksOnlyFill(m: Mem, m': Mem)
    requires m.Keys <= m'.Keys && BlockAvailable(m')
    ensures BlockAvailable(m)
  {
    var b: Word :| Allocatable(m', b);
    assert Allocatable(m, b);
  }

  /** `dup_vcpu` would find a slot, with a core or with memory for one. */
  ghost predicate CoreAvailable<K>(s: System<K>, t: Word)
  {
    && t in s.threads && !s.threads[t].phase.NeedsVm? && s.threads[t].phase.v.vm in s.vms
    && s.threads[t].space in s.spaces
    && var vm := s.threads[t].phase.v.vm;
       var i := FirstFree(s.vms[vm].valid);
       i < |s.vms[vm].valid| && (VcpuId(vm, i) in s.vcpus || BlockAvailable(BlocksOf(s, t)))
  }

  lemma SameCoreAvailable<K>(s: System<K>, s': System<K>, t: Word)
    requires SameResources(s, s') && t in s.threads && s.threads[t].space in s.spaces
    ensures CoreAvailable(s', t) <==> CoreAvailable(s, t)
    ensures s'.threads[t].space in s'.spaces
    ensures BlockAvailable(BlocksOf(s', t)) <==> BlockAvailable(BlocksOf(s, t))
  {
    var m, m' := BlocksOf(s, t), BlocksOf(s', t);
    if BlockAvailable(m) { BlocksOnlyFill(m', m); }
    if BlockAvailable(m') { BlocksOnlyFill(m, m'); }
    hide BlockAvailable;
  }

  // ---------- Fresh names ----------

  lemma FreshSpace(used: set<nat>)
    ensures exists a: nat :: a !in used
  {
    if forall a: nat :: a in used {
      AllBelow(used, |used| + 1);
    }
  }

  lemma {:induction false} AllBelow(used: set<nat>, k: nat)
    requires forall a: nat | a < k :: a in used
    ensures k <= |used|
    decreases k
  {
    if k > 0 {
      AllBelow(used - {k - 1}, k - 1);
    }
  }
}
