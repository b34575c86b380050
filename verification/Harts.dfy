/** The handlers running on a core that they change step by step: what a TLB refill, the way into a system
    call and the way back do from end to end. */
module Harts {
  import opened Words
  import opened Paging
  import opened LoongArch
  import opened Handlers
  import opened Trampoline
  import N = Native

  class Hart {
    var cpu: Cpu
    var mem: Mem

    constructor (c: Cpu, m: Mem)
      ensures cpu == c && mem == m
    {
      cpu, mem := c, m;
    }

    /** One instruction of a handler. */
    method Step(i: Instr, keep: set<TlbEntry>)
      requires Exec(i, cpu, mem, keep).Done?
      modifies this
      ensures Done(cpu, mem) == Exec(i, old(cpu), old(mem), keep)
    {
      var next := Exec(i, cpu, mem, keep);
      cpu, mem := next.cpu, next.mem;
    }

    /** A complete refill: the interrupted code finds its registers, its pc and all memory as they were,
        and the TLB has gained an entry that maps the missing address to itself. */
    method Refill(va: Word, keep: set<TlbEntry>) returns (e: TlbEntry)
      requires CoreOk(cpu) && !cpu.loc.Refill? && IsUser(va)
      modifies this
      ensures cpu.gpr == old(cpu.gpr) && cpu.loc == old(cpu.loc) && mem == old(mem)
      ensures ViewOf(cpu) == ViewOf(old(cpu)) && CoreOk(cpu)
      ensures cpu.tlb == old(cpu.tlb) * keep + {e}
      ensures forall access :: Hits(e, va, access)
      ensures Physical(e, va) == va
    {
      hide Exec, RefillCode, RefillAdvances, RefillProgress, IdentityTlb, EntryFor, Covers, Hits, Physical, Region, Latch;
      RefillEntry(cpu, va);
      ViewIsPlain(cpu);
      cpu := EnterRefill(cpu, va);
      e := EntryFor(cpu.csr.tlbrehi);
      EntryForCovers(cpu.csr.tlbrehi, va);
      while cpu.loc.Refill?
        invariant CoreOk(cpu) && ViewOf(cpu) == ViewOf(old(cpu)) && mem == old(mem)
        invariant cpu.loc.Refill? ==> EntryFor(cpu.csr.tlbrehi) == e && cpu.loc.j < REFILL_LENGTH
        invariant cpu.loc.Refill? && cpu.loc.j <= 14 ==> cpu.tlb == old(cpu.tlb)
        invariant !cpu.loc.Refill? || cpu.loc.j > 14 ==> cpu.tlb == old(cpu.tlb) * keep + {e}
        decreases if cpu.loc.Refill? then 18 - cpu.loc.j else 0
      {
        RefillBound(cpu);
        ghost var d := RefillInstr(cpu, mem, keep);
        RefillEffect(cpu, d, mem, keep);
        Step(RefillCode(cpu.loc.j), keep);
      }
      ViewIsPlain(cpu);
      forall access ensures Hits(e, va, access) {
        IdentityHit(e, va, access);
      }
      IdentityHit(e, va, Fetch);
    }

    /** The way into a system call, from the trap at `pc` to the exit to the host: the eight argument
        registers are in the block, nothing else in memory has changed, and of the registers only a0 and
        $t0 have. */
    method EnterCall(pc: Word, b: Word, keep: set<TlbEntry>)
      requires Serves(cpu, b, mem) && cpu.loc == User(pc)
      modifies this
      ensures cpu.loc == Stub(11) && cpu.csr.epc == pc && cpu.pending && Serves(cpu, b, mem)
      ensures cpu.gpr[T0] == cpu.csr.ks5
      ensures forall i | 0 <= i < PARAMETERS :: Params(mem, b)[i] == old(cpu.gpr)[A0 + i]
      ensures SameBut(cpu.gpr, old(cpu.gpr)) && OnlyBlockChanges(old(mem), mem, b)
    {
      hide Exec, StubCode, CoreOk, StubAdvances;
      ghost var th := N.Thread(0, cpu.gpr, pc, true);
      ViewIsPlain(cpu);
      cpu := EnterStub(cpu, pc);
      ViewIsPlain(cpu);
      EntryServes(old(cpu), pc, b, mem);
      while cpu.loc != Stub(10)
        invariant InStub(cpu, b, mem, th) && cpu.loc.k <= 10
        invariant OnlyBlockChanges(old(mem), mem, b)
        decreases 10 - cpu.loc.k
      {
        ghost var d, m := StubInstr(cpu, b, mem, keep, th);
        StubEffect(cpu, d, b, mem, m, keep, th);
        Step(StubCode(cpu.loc.k), keep);
      }
      StubAsks(cpu, b, mem, th);
      cpu := TakeHypercall(cpu);
      ViewIsPlain(cpu);
    }

    /** The way back, once the result is in the block: the guest finds it in a0, its pc behind the trap, and
        of the other registers only $t0 changed, although a0 was cleared on the way in and overwritten by
        KVM on the way back. */
    method LeaveCall(b: Word, keep: set<TlbEntry>)
      requires Serves(cpu, b, mem) && cpu.loc == Stub(11) && cpu.gpr[T0] == cpu.csr.ks5
      modifies this
      ensures cpu.loc == User(Add(old(cpu.csr.epc), 4)) && !cpu.pending && Serves(cpu, b, mem)
      ensures cpu.gpr[A0] == old(Params(mem, b))[0]
      ensures SameBut(cpu.gpr, old(cpu.gpr)) && mem == old(mem)
    {
      hide Exec, StubCode, CoreOk, StubAdvances;
      ghost var result := Params(mem, b)[0];
      ghost var th := N.Thread(0, N.AfterCall(cpu.gpr, result, cpu.csr.epc), Add(cpu.csr.epc, 4), false);
      ViewIsPlain(cpu);
      cpu := Resume(cpu);
      ViewIsPlain(cpu);
      ResumedServes(old(cpu), b, mem);
      while cpu.loc.Stub?
        invariant Serves(cpu, b, mem) && StandsFor(ViewOf(cpu), Params(mem, b), th) && mem == old(mem) && !cpu.pending
        invariant cpu.loc.Stub? ==> 11 <= cpu.loc.k < STUB_LENGTH
        invariant !cpu.loc.Stub? ==> cpu.loc.User?
        decreases if cpu.loc.Stub? then 16 - cpu.loc.k else 0
      {
        ghost var d, m := StubInstr(cpu, b, mem, keep, th);
        StubEffect(cpu, d, b, mem, m, keep, th);
        Step(StubCode(cpu.loc.k), keep);
      }
      ViewIsPlain(cpu);
    }
  }

  lemma RefillBound(c: Cpu)
    requires CoreOk(c) && c.loc.Refill?
    ensures c.loc.j < REFILL_LENGTH && !c.csr.tlbrepc.Refill?
  {
  }

  lemma RefillEffect(c: Cpu, d: Cpu, mem: Mem, keep: set<TlbEntry>)
    requires CoreOk(c) && c.loc.Refill? && c.loc.j < REFILL_LENGTH && RefillAdvances(c, d, mem, keep)
    ensures Exec(RefillCode(c.loc.j), c, mem, keep) == Done(d, mem)
    ensures CoreOk(d) && ViewOf(d) == ViewOf(c) && EntryFor(d.csr.tlbrehi) == EntryFor(c.csr.tlbrehi)
    ensures d.loc == (if c.loc.j == 17 then c.csr.tlbrepc else Refill(c.loc.j + 1))
    ensures d.tlb == (if c.loc.j == 14 then c.tlb * keep + {EntryFor(c.csr.tlbrehi)} else c.tlb)
  {
  }

  lemma EntryServes(c: Cpu, pc: Word, b: Word, mem: Mem)
    requires Serves(c, b, mem) && c.loc == User(pc)
    ensures Serves(EnterStub(c, pc), b, mem)
  {
  }

  lemma ResumedServes(c: Cpu, b: Word, mem: Mem)
    requires Serves(c, b, mem) && c.loc == Stub(11)
    ensures Serves(Resume(c), b, mem)
  {
  }

  lemma StubEffect(c: Cpu, d: Cpu, b: Word, mem: Mem, mem': Mem, keep: set<TlbEntry>, n: N.Thread)
    requires c.loc.Stub? && c.loc.k < STUB_LENGTH && HasBlock(mem, b) && StubAdvances(c, d, b, mem, mem', keep, n)
    ensures Exec(StubCode(c.loc.k), c, mem, keep) == Done(d, mem')
    ensures Serves(d, b, mem') && StandsFor(ViewOf(d), Params(mem', b), n) && OnlyBlockChanges(mem, mem', b)
    ensures d.pending == c.pending
    ensures d.loc == if c.loc.k == 15 then User(c.csr.epc) else Stub(c.loc.k + 1)
    ensures 11 <= c.loc.k ==> mem' == mem
  {
    hide WindowTarget, Words.Xor, CoreOk, StandsFor;
  }
}
