/** The two handlers of dune/loongarch/entry.S as instruction sequences, and what each instruction of
    them keeps. */
module Handlers {
  import opened Paging
  import opened Words
  import opened LoongArch

  const REFILL_LENGTH := 18
  const STUB_LENGTH := 16

  function RefillCode(j: nat): Instr
    requires j < REFILL_LENGTH
  {
    match j
    case 0 => CsrWr(T0, TLBRSAVE)
    case 1 => CsrWr(T1, KS0)
    case 2 => CsrRd(T0, TLBREHI)
    case 3 => SrliD(T0, T0, 30)
    case 4 => SlliD(T0, T0, 30)
    case 5 => Li(T1, TLB_PS)
    case 6 => AddD(T1, T1, T0)
    case 7 => CsrWr(T1, TLBREHI)
    case 8 => CsrRd(T1, KS6)
    case 9 => AddD(T1, T1, T0)
    case 10 => CsrWr(T1, TLBRELO0)
    case 11 => CsrRd(T1, KS7)
    case 12 => AddD(T1, T1, T0)
    case 13 => CsrWr(T1, TLBRELO1)
    case 14 => TlbFill
    case 15 => CsrRd(T0, TLBRSAVE)
    case 16 => CsrRd(T1, KS0)
    case _ => Ertn
  }

  function StubCode(k: nat): Instr
    requires k < STUB_LENGTH
  {
    match k
    case 0 => CsrRd(T0, KS5)
    case 1 => StD(4, T0, 0)
    case 2 => StD(5, T0, 8)
    case 3 => StD(6, T0, 16)
    case 4 => StD(7, T0, 24)
    case 5 => StD(8, T0, 32)
    case 6 => StD(9, T0, 40)
    case 7 => StD(10, T0, 48)
    case 8 => StD(11, T0, 56)
    case 9 => Xor(A0, A0, A0)
    case 10 => Hypercall
    case 11 => LdD(A0, T0, 0)
    case 12 => CsrRd(T0, EPC)
    case 13 => AddiD(T0, T0, 4)
    case 14 => CsrWr(T0, EPC)
    case _ => Ertn
  }

  /** The instruction the core is about to execute, when it is in a handler. */
  function Current(loc: Loc): Option<Instr>
  {
    match loc
    case User(_) => None
    case Stub(k) => if k < STUB_LENGTH then Some(StubCode(k)) else None
    case Refill(j) => if j < REFILL_LENGTH then Some(RefillCode(j)) else None
  }

  // ---------- What a refill in progress stands for ----------

  /** The state the interrupted code will find when the refill returns: the part of a core that a
      refill must not disturb. */
  datatype View = View(gpr: Regs, loc: Loc, epc: Word, ks5: Word, dmw1: Word, ebase: Word, pending: bool, ret: Word)

  function SavedT0(c: Cpu): Word
  {
    if c.loc.Refill? && 1 <= c.loc.j <= 15 then c.csr.tlbrsave else c.gpr[T0]
  }

  function SavedT1(c: Cpu): Word
  {
    if c.loc.Refill? && 2 <= c.loc.j <= 16 then c.csr.ks0 else c.gpr[T1]
  }

  function ViewOf(c: Cpu): View
  {
    View(c.gpr[T0 := SavedT0(c)][T1 := SavedT1(c)],
         if c.loc.Refill? then c.csr.tlbrepc else c.loc,
         c.csr.epc, c.csr.ks5, c.csr.dmw1, c.csr.ebase, c.pending, c.ret)
  }

  /** Progress of the refill computation: what the scratch registers and refill CSRs hold before
      instruction `j`. */
  ghost predicate RefillProgress(c: Cpu)
    requires c.loc.Refill?
  {
    var j := c.loc.j;
    var e := EntryFor(c.csr.tlbrehi);
    && j <= 17
    && !c.csr.tlbrepc.Refill?
    && (c.csr.tlbrepc.Stub? ==> c.csr.tlbrepc.k < STUB_LENGTH)
    && IsUser(Region(c.csr.tlbrehi))
    && (j == 3 ==> c.gpr[T0] == c.csr.tlbrehi)
    && (j == 4 ==> c.gpr[T0] == ShiftRight(c.csr.tlbrehi, 30))
    && (5 <= j <= 15 ==> c.gpr[T0] == Region(c.csr.tlbrehi))
    && (j == 6 ==> c.gpr[T1] == TLB_PS)
    && (j == 7 ==> c.gpr[T1] == e.hi)
    && (8 <= j ==> c.csr.tlbrehi == e.hi)
    && (j == 9 ==> c.gpr[T1] == c.csr.ks6)
    && (j == 10 ==> c.gpr[T1] == e.lo0)
    && (11 <= j ==> c.csr.tlbrelo0 == e.lo0)
    && (j == 12 ==> c.gpr[T1] == c.csr.ks7)
    && (j == 13 ==> c.gpr[T1] == e.lo1)
    && (14 <= j ==> c.csr.tlbrelo1 == e.lo1)
  }

  /** What `init_csr` and every step since have kept. */
  ghost predicate CoreOk(c: Cpu)
  {
    && c.csr.ks6 == RELO0_STANDARD_BITS
    && c.csr.ks7 == RELO1_STANDARD_BITS
    && c.csr.dmw1 == DMW1_INIT
    && IdentityTlb(c.tlb)
    && (c.loc.Stub? ==> c.loc.k < STUB_LENGTH)
    && (c.loc.Refill? ==> RefillProgress(c))
  }

  lemma MissLatched(c: Cpu, va: Word)
    requires IsUser(va)
    ensures Region(EnterRefill(c, va).csr.tlbrehi) == Region(va)
    ensures IsUser(Region(EnterRefill(c, va).csr.tlbrehi))
  {
    var hi := c.csr.tlbrehi;
    Quotient(0, ADDRESS_SPACE, va);
    var page, low := va / 0x2000, hi % 0x2000;
    var q, r := page / 0x2_0000, page % 0x2_0000;
    assert va == PAIR * q + (0x2000 * r + va % 0x2000);
    assert Latch(hi, va) == PAIR * q + (0x2000 * r + low);
    Quotient(q, PAIR, 0x2000 * r + va % 0x2000);
    Quotient(q, PAIR, 0x2000 * r + low);
  }

  lemma RefillEntryCore(c: Cpu, va: Word)
    requires CoreOk(c) && !c.loc.Refill? && IsUser(Region(EnterRefill(c, va).csr.tlbrehi))
    ensures CoreOk(EnterRefill(c, va)) && ViewOf(EnterRefill(c, va)) == ViewOf(c)
  {
  }

  /** A miss at any user address can be taken between any two instructions of user code or of the
      stub, and the interrupted code's view does not change. */
  lemma RefillEntry(c: Cpu, va: Word)
    requires CoreOk(c) && !c.loc.Refill? && IsUser(va)
    ensures CoreOk(EnterRefill(c, va)) && ViewOf(EnterRefill(c, va)) == ViewOf(c)
    ensures Region(EnterRefill(c, va).csr.tlbrehi) == Region(va)
  {
    MissLatched(c, va);
    RefillEntryCore(c, va);
  }

  /** Writing a scratch register does not show in a view that has its saved value. */
  lemma ScratchHidden(c: Cpu, d: Cpu, r: nat, x: Word)
    requires c.loc.Refill? && d.loc == Refill(c.loc.j + 1) && (r == T0 || r == T1)
    requires d.gpr == c.gpr[r := x]
    requires SavedT0(d) == SavedT0(c) && SavedT1(d) == SavedT1(c)
    requires d.csr.tlbrepc == c.csr.tlbrepc
    requires (d.csr.epc, d.csr.ks5, d.csr.dmw1, d.csr.ebase) == (c.csr.epc, c.csr.ks5, c.csr.dmw1, c.csr.ebase)
    requires d.pending == c.pending && d.ret == c.ret
    ensures ViewOf(d) == ViewOf(c)
  {
    assert ViewOf(d).gpr == ViewOf(c).gpr;
  }

  /** What one refill instruction is shown to do: it executes, touches no memory, keeps the core's
      invariant and the interrupted code's view, and stays on the region it was entered for. */
  ghost predicate RefillAdvances(c: Cpu, d: Cpu, mem: Mem, keep: set<TlbEntry>)
    requires c.loc.Refill? && c.loc.j < REFILL_LENGTH
  {
    && Exec(RefillCode(c.loc.j), c, mem, keep) == Done(d, mem)
    && CoreOk(d)
    && ViewOf(d) == ViewOf(c)
    && EntryFor(d.csr.tlbrehi) == EntryFor(c.csr.tlbrehi)
    && d.loc == (if c.loc.j == 17 then c.csr.tlbrepc else Refill(c.loc.j + 1))
    && d.tlb == (if c.loc.j == 14 then c.tlb * keep + {EntryFor(c.csr.tlbrehi)} else c.tlb)
  }

  lemma RefillSave(c: Cpu, mem: Mem, keep: set<TlbEntry>) returns (d: Cpu)
    requires CoreOk(c) && c.loc.Refill? && c.loc.j <= 1
    ensures RefillAdvances(c, d, mem, keep)
  {
    d := Exec(RefillCode(c.loc.j), c, mem, keep).cpu;
    ScratchHidden(c, d, if c.loc.j == 0 then T0 else T1, if c.loc.j == 0 then c.csr.tlbrsave else c.csr.ks0);
  }

  /** The shift pair clears exactly the bits below the pair of pages. */
  lemma MaskIsRegion(hi: Word)
    ensures ShiftLeft(ShiftRight(hi, 30), 30) == Region(hi)
  {
    Pow2Values();
  }

  lemma RefillMask(c: Cpu, mem: Mem, keep: set<TlbEntry>) returns (d: Cpu)
    requires CoreOk(c) && c.loc.Refill? && 2 <= c.loc.j <= 4
    ensures RefillAdvances(c, d, mem, keep)
  {
    MaskIsRegion(c.csr.tlbrehi);
    hide ShiftRight, ShiftLeft, Region;
    d := Exec(RefillCode(c.loc.j), c, mem, keep).cpu;
    ScratchHidden(c, d, T0, d.gpr[T0]);
  }

  lemma RefillHi(c: Cpu, mem: Mem, keep: set<TlbEntry>) returns (d: Cpu)
    requires CoreOk(c) && c.loc.Refill? && 5 <= c.loc.j <= 7
    ensures RefillAdvances(c, d, mem, keep)
  {
    EntryForSameRegion(c.csr.tlbrehi);
    d := Exec(RefillCode(c.loc.j), c, mem, keep).cpu;
    ScratchHidden(c, d, T1, d.gpr[T1]);
  }

  lemma RefillLo0(c: Cpu, mem: Mem, keep: set<TlbEntry>) returns (d: Cpu)
    requires CoreOk(c) && c.loc.Refill? && 8 <= c.loc.j <= 10
    ensures RefillAdvances(c, d, mem, keep)
  {
    d := Exec(RefillCode(c.loc.j), c, mem, keep).cpu;
    ScratchHidden(c, d, T1, d.gpr[T1]);
  }

  lemma RefillLo1(c: Cpu, mem: Mem, keep: set<TlbEntry>) returns (d: Cpu)
    requires CoreOk(c) && c.loc.Refill? && 11 <= c.loc.j <= 13
    ensures RefillAdvances(c, d, mem, keep)
  {
    d := Exec(RefillCode(c.loc.j), c, mem, keep).cpu;
    ScratchHidden(c, d, T1, d.gpr[T1]);
  }

  lemma RefillFill(c: Cpu, mem: Mem, keep: set<TlbEntry>) returns (d: Cpu)
    requires CoreOk(c) && c.loc.Refill? && c.loc.j == 14
    ensures RefillAdvances(c, d, mem, keep)
  {
    EntryForIsIdentity(c.csr.tlbrehi);
    d := Exec(RefillCode(c.loc.j), c, mem, keep).cpu;
  }

  lemma RefillRestore(c: Cpu, mem: Mem, keep: set<TlbEntry>) returns (d: Cpu)
    requires CoreOk(c) && c.loc.Refill? && 15 <= c.loc.j <= 16
    ensures RefillAdvances(c, d, mem, keep)
  {
    d := Exec(RefillCode(c.loc.j), c, mem, keep).cpu;
    ScratchHidden(c, d, if c.loc.j == 15 then T0 else T1, if c.loc.j == 15 then c.csr.tlbrsave else c.csr.ks0);
  }

  lemma RefillReturn(c: Cpu, mem: Mem, keep: set<TlbEntry>) returns (d: Cpu)
    requires CoreOk(c) && c.loc.Refill? && c.loc.j == 17
    ensures RefillAdvances(c, d, mem, keep)
  {
    d := Exec(RefillCode(c.loc.j), c, mem, keep).cpu;
  }

  /** Every instruction of the refill handler does what `RefillAdvances` says. */
  lemma RefillInstr(c: Cpu, mem: Mem, keep: set<TlbEntry>) returns (d: Cpu)
    requires CoreOk(c) && c.loc.Refill?
    ensures RefillAdvances(c, d, mem, keep)
  {
    var j := c.loc.j;
    if j <= 1 { d := RefillSave(c, mem, keep); }
    else if j <= 4 { d := RefillMask(c, mem, keep); }
    else if j <= 7 { d := RefillHi(c, mem, keep); }
    else if j <= 10 { d := RefillLo0(c, mem, keep); }
    else if j <= 13 { d := RefillLo1(c, mem, keep); }
    else if j == 14 { d := RefillFill(c, mem, keep); }
    else if j <= 16 { d := RefillRestore(c, mem, keep); }
    else { d := RefillReturn(c, mem, keep); }
  }

  // ---------- A whole refill ----------

  /** Runs `n` instructions of the refill handler. */
  function RunRefill(c: Cpu, mem: Mem, keep: set<TlbEntry>, n: nat): Outcome
    decreases n
  {
    if n == 0 then Done(c, mem)
    else if c.loc.Refill? && c.loc.j < REFILL_LENGTH then
      match Exec(RefillCode(c.loc.j), c, mem, keep)
      case Done(d, m) => RunRefill(d, m, keep, n - 1)
      case Stuck => Stuck
    else Stuck
  }

  lemma {:induction false} RefillRunsOn(c: Cpu, mem: Mem, keep: set<TlbEntry>) returns (d: Cpu)
    requires CoreOk(c) && c.loc.Refill?
    ensures RunRefill(c, mem, keep, REFILL_LENGTH - c.loc.j) == Done(d, mem)
    ensures CoreOk(d) && ViewOf(d) == ViewOf(c) && d.loc == c.csr.tlbrepc
    ensures d.tlb == (if c.loc.j <= 14 then c.tlb * keep + {EntryFor(c.csr.tlbrehi)} else c.tlb)
    decreases 17 - c.loc.j
  {
    var j := c.loc.j;
    var n := RefillInstr(c, mem, keep);
    if j == 17 {
      assert RunRefill(n, mem, keep, 0) == Done(n, mem);
      d := n;
    } else {
      assert n.csr.tlbrepc == c.csr.tlbrepc;
      d := RefillRunsOn(n, mem, keep);
    }
  }

  /** A complete refill for any missing user address, wherever it interrupts: memory and everything the
      interrupted code can see are as before, it continues where it was, and the TLB now covers the
      address while still holding nothing but identity entries. */
  lemma RefillTransparent(c: Cpu, va: Word, mem: Mem, keep: set<TlbEntry>) returns (d: Cpu, e: TlbEntry)
    requires CoreOk(c) && !c.loc.Refill? && IsUser(va)
    ensures RunRefill(EnterRefill(c, va), mem, keep, REFILL_LENGTH) == Done(d, mem)
    ensures d.loc == c.loc && d.gpr == c.gpr && ViewOf(d) == ViewOf(c) && CoreOk(d)
    ensures d.tlb == c.tlb * keep + {e}
    ensures Hits(e, va, Fetch) && Hits(e, va, Read) && Hits(e, va, Write)
    ensures Physical(e, va) == va
  {
    var s := EnterRefill(c, va);
    RefillEntry(c, va);
    d := RefillRunsOn(s, mem, keep);
    e := EntryFor(s.csr.tlbrehi);
    ViewIsPlain(c);
    ViewIsPlain(d);
    EntryForCovers(s.csr.tlbrehi, va);
    IdentityHit(e, va, Fetch);
    IdentityHit(e, va, Read);
    IdentityHit(e, va, Write);
  }

  lemma ViewIsPlain(c: Cpu)
    requires !c.loc.Refill?
    ensures ViewOf(c).gpr == c.gpr && ViewOf(c).loc == c.loc
  {
  }
}
