/** A thread left alone: how it gets, unseen by the native machine, to its next guest instruction or to its
    host call, and how it comes to have the translations it needs. */
module CatchUp {
  import opened Words
  import opened Paging
  import opened LoongArch
  import opened Handlers
  import opened Trampoline
  import opened Dune
  import opened Simulation
  import opened Refinement
  import opened Runs
  import opened Progress
  import opened Resources
  import N = Native

  // ---------- Silent runs ----------

  /** `ls` leads from `s` to `s'` and is no native step at all. */
  ghost predicate Silently<K>(env: N.Env<K>, s: System<K>, ls: seq<Label>, s': System<K>)
  {
    Run(env, s, ls) == Some(s') && NativeRun(env, s, ls) == []
  }

  lemma {:induction false} RunJoins<K>(env: N.Env<K>, s: System<K>, ls: seq<Label>, mid: System<K>, ms: seq<Label>)
    requires Run(env, s, ls) == Some(mid)
    ensures Run(env, s, ls + ms) == Run(env, mid, ms)
    ensures NativeRun(env, s, ls + ms) == NativeRun(env, s, ls) + NativeRun(env, mid, ms) || Run(env, mid, ms) == None
    decreases |ms|
  {
    hide Apply, Answer;
    if ms == [] {
      assert ls + ms == ls;
    } else {
      var all := ls + ms;
      var front := ms[..|ms| - 1];
      assert all[..|all| - 1] == ls + front && all[|all| - 1] == ms[|ms| - 1];
      RunJoins(env, s, ls, mid, front);
    }
  }

  lemma StepRuns<K>(env: N.Env<K>, s: System<K>, l: Label, s': System<K>)
    requires Apply(env, s, l) == Some(s')
    ensures Run(env, s, [l]) == Some(s')
    ensures Answer(s, l) == None ==> NativeRun(env, s, [l]) == []
    ensures Answer(s, l).Some? ==> NativeRun(env, s, [l]) == [Answer(s, l).value]
  {
    hide Apply, Answer;
    assert [l][..0] == [];
    assert Run(env, s, []) == Some(s);
  }

  lemma SilentlyJoins<K>(env: N.Env<K>, s: System<K>, ls: seq<Label>, mid: System<K>, ms: seq<Label>, s': System<K>)
    requires Silently(env, s, ls, mid) && Silently(env, mid, ms, s')
    ensures Silently(env, s, ls + ms, s')
  {
    hide Run, NativeRun;
    RunJoins(env, s, ls, mid, ms);
  }

  // ---------- Catching up ----------

  /** Instructions left before a core is in user mode or at its hypercall. */
  function CoreRank(c: Cpu): int
  {
    (if c.loc.Refill? then 18 - c.loc.j else 0)
    + (match ViewOf(c).loc
       case User(_) => 0
       case Stub(k) => 16 - k
       case Refill(_) => 0)
  }

  /** Steps left before the thread is in user mode or back from its hypercall. */
  function Rank<K>(s: System<K>, t: Word): int
    requires HasCore(s, t)
  {
    match s.threads[t].phase
    case Running(_) => CoreRank(CoreOf(s, t))
    case Top(_) => CoreRank(CoreOf(s, t)) + 1
    case Exited(_, false) => CoreRank(CoreOf(s, t)) + 2
    case Storing(_, _) => CoreRank(CoreOf(s, t)) + 2
    case _ => 0
  }

  predicate Looping(p: Phase)
  {
    p.Running? || p.Top? || p.Storing? || (p.Exited? && !p.hypercall)
  }

  predicate Back<K>(s: System<K>, t: Word)
  {
    HasCore(s, t) && s.threads[t].phase.Exited? && s.threads[t].phase.hypercall
  }

  lemma RefillRank(c: Cpu, d: Cpu, mem: Mem, keep: set<TlbEntry>)
    requires CoreOk(c) && c.loc.Refill? && c.loc.j < REFILL_LENGTH && RefillAdvances(c, d, mem, keep)
    ensures CoreRank(d) < CoreRank(c)
  {
    hide Exec, RefillCode;
  }

  lemma RankIsNatural<K>(s: System<K>, n: N.System<K>, t: Word)
    requires Sim(s, n) && HasCore(s, t)
    ensures CoreOk(CoreOf(s, t)) && CoreRank(CoreOf(s, t)) >= 0
  {
    hide Sim;
    CoreFacts(s, n, t, s.threads[t].phase.v);
  }

  /** A thread in a handler advances by one instruction. */
  lemma HandlerAdvances<K>(env: N.Env<K>, s: System<K>, n: N.System<K>, t: Word)
    returns (l: Label, s': System<K>)
    requires Sim(s, n) && InHandler(s, t)
    ensures Apply(env, s, l) == Some(s') && Answer(s, l) == None && Plain(l) && Sim(s', n)
    ensures HasCore(s', t) && (Back(s', t) || (Looping(s'.threads[t].phase) && Rank(s', t) < Rank(s, t)))
  {
    hide Sim, CoreOk, Exec, RefillAdvances, Apply;
    RankIsNatural(s, n, t);
    if CoreOf(s, t).loc == Stub(10) {
      l := Dune.TakeHypercall(t);
      LoopGoesOn(env, s, n, t);
      s' := Apply(env, s, l).value;
      TakesHypercall(env, s, s', t);
      TakeHypercallSim(env, s, s', n, t);
    } else {
      l := HandlerInstr(t, {});
      s' := HandlerGoesOn(env, s, n, t, {});
      if CoreOf(s, t).loc.Refill? {
        RefillRank(CoreOf(s, t), CoreOf(s', t), BlocksOf(s, t), {});
      }
    }
  }

  lemma TakesHypercall<K>(env: N.Env<K>, s: System<K>, s': System<K>, t: Word)
    requires Apply(env, s, Dune.TakeHypercall(t)) == Some(s')
    ensures DoTakeHypercall(s, t) == Some(s') && Back(s', t)
  {
    hide HasBlock, Current;
  }

  /** A thread in the host loop takes its next step there. */
  lemma LoopAdvances<K>(env: N.Env<K>, s: System<K>, n: N.System<K>, t: Word)
    returns (l: Label, s': System<K>)
    requires Sim(s, n) && HasCore(s, t) && Looping(s.threads[t].phase) && !s.threads[t].phase.Running?
    ensures Apply(env, s, l) == Some(s') && Answer(s, l) == None && Plain(l) && Sim(s', n)
    ensures HasCore(s', t) && Looping(s'.threads[t].phase) && Rank(s', t) < Rank(s, t)
  {
    hide Sim, CoreOk, HasBlock;
    LoopGoesOn(env, s, n, t);
    if s.threads[t].phase.Top? {
      l, s' := KvmRun(t), Apply(env, s, KvmRun(t)).value;
      KvmRunSim(env, s, s', n, t);
    } else if s.threads[t].phase.Storing? {
      l, s' := StoreResult(t), Apply(env, s, StoreResult(t)).value;
      StoreResultSim(s, s', n, t);
    } else {
      l, s' := LoopAgain(t), Apply(env, s, LoopAgain(t)).value;
      LoopAgainSim(env, s, s', n, t);
    }
  }

  /** Left alone, a thread reaches user mode or its host call in at most `Rank` steps of its own, none
      of which the native machine can see. */
  lemma {:induction false} CatchesUp<K>(env: N.Env<K>, s: System<K>, n: N.System<K>, t: Word)
    returns (ls: seq<Label>, s': System<K>)
    requires Sim(s, n) && HasCore(s, t) && (Looping(s.threads[t].phase) || Back(s, t))
    ensures Silently(env, s, ls, s') && Sim(s', n) && (InUser(s', t) || Back(s', t))
    ensures |ls| <= Rank(s, t) + 1 && SameResources(s, s')
    decreases Rank(s, t)
  {
    hide Sim, CoreOk, Apply, Answer, CoreRank, SameResources, Plain;
    RankIsNatural(s, n, t);
    SameAtAll(s);
    if InUser(s, t) || Back(s, t) {
      ls, s' := [], s;
    } else {
      var l, mid;
      if s.threads[t].phase.Running? {
        l, mid := HandlerAdvances(env, s, n, t);
      } else {
        l, mid := LoopAdvances(env, s, n, t);
      }
      StepRuns(env, s, l, mid);
      PlainKeepsResources(env, s, l, mid);
      if Back(mid, t) {
        ls, s' := [l], mid;
      } else {
        RankIsNatural(mid, n, t);
        var rest;
        rest, s' := CatchesUp(env, mid, n, t);
        SilentlyJoins(env, s, [l], mid, rest, s');
        SameTwice(s, mid, s');
        ls := [l] + rest;
      }
    }
  }

  /** Where a thread that has caught up is depends on whether its native counterpart is in a call. */
  lemma CaughtUp<K>(s: System<K>, n: N.System<K>, t: Word)
    requires Sim(s, n) && (InUser(s, t) || Back(s, t))
    ensures t in n.threads && (n.threads[t].calling <==> Back(s, t))
    ensures InUser(s, t) ==> n.threads[t].gpr == CoreOf(s, t).gpr && CoreOf(s, t).loc == User(n.threads[t].pc)
    ensures N.Live(n, t) && N.MemOf(n, t) == UserOf(s, t)
    ensures Works(s, t, s.threads[t].phase.v) && IdentityTlb(CoreOf(s, t).tlb)
  {
    hide Sim, Params, HasBlock;
    CoreFacts(s, n, t, s.threads[t].phase.v);
    FactsOf(s, n, t);
    ViewIsPlain(CoreOf(s, t));
  }

  // ---------- Translations on demand ----------

  /** A refill in progress ends in the interrupted user code, with its entry in the TLB and, if the
      hardware so chooses, without having dropped any other. */
  lemma {:induction false} FinishesRefill<K>(env: N.Env<K>, s: System<K>, n: N.System<K>, t: Word)
    returns (ls: seq<Label>, s': System<K>)
    requires Sim(s, n) && InHandler(s, t) && CoreOf(s, t).loc.Refill? && CoreOf(s, t).csr.tlbrepc.User?
    ensures Silently(env, s, ls, s') && Sim(s', n) && InUser(s', t)
    ensures CoreOf(s, t).tlb <= CoreOf(s', t).tlb
    ensures CoreOf(s, t).loc.j <= 14 ==> EntryFor(CoreOf(s, t).csr.tlbrehi) in CoreOf(s', t).tlb
    decreases 18 - CoreOf(s, t).loc.j
  {
    hide Sim, Apply, Exec, RefillCode, CoreOk, EntryFor;
    var c := CoreOf(s, t);
    var mid := HandlerGoesOn(env, s, n, t, c.tlb);
    StepRuns(env, s, HandlerInstr(t, c.tlb), mid);
    if c.loc.j == 17 {
      ls, s' := [HandlerInstr(t, c.tlb)], mid;
    } else {
      var rest;
      rest, s' := FinishesRefill(env, mid, n, t);
      SilentlyJoins(env, s, [HandlerInstr(t, c.tlb)], mid, rest, s');
      ls := [HandlerInstr(t, c.tlb)] + rest;
    }
  }

  lemma MissGoesOn<K>(env: N.Env<K>, s: System<K>, n: N.System<K>, t: Word, va: Word)
    returns (s': System<K>)
    requires Sim(s, n) && InUser(s, t) && IsUser(va)
    ensures Apply(env, s, TlbMiss(t, va)) == Some(s') && Sim(s', n) && s'.threads == s.threads
    ensures InHandler(s', t) && CoreOf(s', t) == EnterRefill(CoreOf(s, t), va)
    ensures CoreOk(CoreOf(s, t))
  {
    hide Sim, HasBlock, CoreOk, Params;
    CoreFacts(s, n, t, s.threads[t].phase.v);
    s' := WithCpu(s, s.threads[t].phase.v, EnterRefill(CoreOf(s, t), va));
    TlbMissSim(env, s, s', n, t, va);
  }

  /** A thread in user mode can come to have a translation for any user address. */
  lemma Translates<K>(env: N.Env<K>, s: System<K>, n: N.System<K>, t: Word, va: Word)
    returns (ls: seq<Label>, s': System<K>, e: TlbEntry)
    requires Sim(s, n) && InUser(s, t) && IsUser(va)
    ensures Silently(env, s, ls, s') && Sim(s', n) && InUser(s', t)
    ensures CoreOf(s, t).tlb <= CoreOf(s', t).tlb && e in CoreOf(s', t).tlb && Covers(e, va)
  {
    hide Sim, Apply, CoreOk, Covers, EntryFor, Region, Latch;
    var mid := MissGoesOn(env, s, n, t, va);
    RefillEntry(CoreOf(s, t), va);
    StepRuns(env, s, TlbMiss(t, va), mid);
    var rest;
    rest, s' := FinishesRefill(env, mid, n, t);
    SilentlyJoins(env, s, [TlbMiss(t, va)], mid, rest, s');
    ls := [TlbMiss(t, va)] + rest;
    e := EntryFor(CoreOf(mid, t).csr.tlbrehi);
    EntryForCovers(CoreOf(mid, t).csr.tlbrehi, va);
  }

  /** An access through a covering entry succeeds exactly below the end of the memory slot. */
  lemma ReachesSlot(c: Cpu, e: TlbEntry, va: Word, access: Access)
    requires IdentityTlb(c.tlb) && e in c.tlb && IsUser(va) && Covers(e, va)
    ensures Reach(c, e, va, access) == if va < SLOT_SIZE then Some(va) else None
  {
    IdentityHit(e, va, access);
  }

  // ---------- Ordinary instructions ----------

  /** What the instruction touches besides its own address. */
  predicate Within(op: N.Op, g: Regs, limit: int)
  {
    match op
    case Load(_, addr) => addr(g) < limit
    case Store(_, addr) => addr(g) < limit
    case _ => true
  }

  function DataAddress(op: N.Op, g: Regs, otherwise: Word): Word
  {
    match op
    case Load(_, addr) => addr(g)
    case Store(_, addr) => addr(g)
    case _ => otherwise
  }

  /** A guest instruction that executes in dune lies within the slot, and so does its operand. */
  lemma GuestOpIsWithin<K>(env: N.Env<K>, s: System<K>, s': System<K>, n: N.System<K>, t: Word, f: TlbEntry, d: TlbEntry)
    requires Sim(s, n) && DoGuestOp(env, s, t, f, d) == Some(s')
    ensures N.Live(n, t) && n.threads[t].pc < SLOT_SIZE && Within(N.OpOf(env, n, t), n.threads[t].gpr, SLOT_SIZE)
  {
    hide Sim, HasBlock, IdentityTlb, Hits;
    GuestDecodes(env, s, s', n, t, f, d);
    var c := CpuOf(s, s.threads[t].phase.v);
    ReachBelow(c, f, c.loc.pc, Fetch);
    var op := N.OpOf(env, n, t);
    if op.Load? { ReachBelow(c, d, op.addr(c.gpr), Read); ReachIsIdentity(c, d, op.addr(c.gpr), Read); }
    if op.Store? { ReachBelow(c, d, op.addr(c.gpr), Write); ReachIsIdentity(c, d, op.addr(c.gpr), Write); }
    hide Reach;
  }

  lemma ReachBelow(c: Cpu, e: TlbEntry, va: Word, access: Access)
    ensures Reach(c, e, va, access).Some? ==> Reach(c, e, va, access).value < SLOT_SIZE
  {
    hide Hits, Physical;
  }

  lemma GuestOpGoesOn<K>(env: N.Env<K>, s: System<K>, n: N.System<K>, t: Word, f: TlbEntry, d: TlbEntry)
    requires Sim(s, n) && InUser(s, t) && N.Step(env, n, N.Ordinary(t)).Some?
    requires n.threads[t].pc < SLOT_SIZE && Within(N.OpOf(env, n, t), n.threads[t].gpr, SLOT_SIZE)
    requires f in CoreOf(s, t).tlb && Covers(f, n.threads[t].pc)
    requires d in CoreOf(s, t).tlb && Covers(d, DataAddress(N.OpOf(env, n, t), n.threads[t].gpr, n.threads[t].pc))
    ensures Enabled(env, s, GuestOp(t, f, d))
  {
    hide Sim, HasBlock, IdentityTlb, Covers, Reach;
    CaughtUp(s, n, t);
    var c, op := CoreOf(s, t), N.OpOf(env, n, t);
    ReachesSlot(c, f, c.loc.pc, Fetch);
    var a := DataAddress(op, c.gpr, c.loc.pc);
    ReachesSlot(c, d, a, Read);
    ReachesSlot(c, d, a, Write);
  }

  /** The native instruction, in dune. */
  lemma OrdinaryIsMatched<K>(env: N.Env<K>, s: System<K>, n: N.System<K>, n1: N.System<K>, t: Word)
    returns (ls: seq<Label>, s': System<K>)
    requires Sim(s, n) && InUser(s, t) && N.Step(env, n, N.Ordinary(t)) == Some(n1)
    requires n.threads[t].pc < SLOT_SIZE && Within(N.OpOf(env, n, t), n.threads[t].gpr, SLOT_SIZE)
    ensures Run(env, s, ls) == Some(s') && NativeRun(env, s, ls) == [N.Ordinary(t)] && Sim(s', n1)
  {
    hide Sim, Apply, Covers, N.Step, N.OpOf, Within;
    CaughtUp(s, n, t);
    var pc := n.threads[t].pc;
    var a := DataAddress(N.OpOf(env, n, t), n.threads[t].gpr, pc);
    WithinData(N.OpOf(env, n, t), n.threads[t].gpr, pc);
    var ms, s1, f := Translates(env, s, n, t, pc);
    var ms', s2, d := Translates(env, s1, n, t, a);
    SilentlyJoins(env, s, ms, s1, ms', s2);
    GuestOpGoesOn(env, s2, n, t, f, d);
    var l := GuestOp(t, f, d);
    s' := Apply(env, s2, l).value;
    var n' := StepSim(env, s2, l, s', n);
    StepRuns(env, s2, l, s');
    RunJoins(env, s, ms + ms', s2, [l]);
    ls := ms + ms' + [l];
  }

  lemma WithinData(op: N.Op, g: Regs, pc: Word)
    requires pc < SLOT_SIZE && Within(op, g, SLOT_SIZE)
    ensures DataAddress(op, g, pc) < SLOT_SIZE
  {
  }
}
