/** The part of a LoongArch core that dune's two handlers exercise: general registers, the CSRs they
    name, the TLB, and the instructions they are written in. */
module LoongArch {
  import opened Paging
  import opened Words

  /** The thirty-two general registers; $r0 reads as zero. */
  type Regs = g: seq<Word> | |g| == 32 witness seq(32, i => 0)

  type Mem = map<Word, Word>

  // The registers of dune/loongarch/internal.h that matter here.
  const TP := 2
  const SP := 3
  const A0 := 4
  const A7 := 11
  const T0 := 12
  const T1 := 13

  /** Where the core fetches from: user code, or an instruction of one of the two handlers. */
  datatype Loc = User(pc: Word) | Stub(k: nat) | Refill(j: nat)

  datatype CsrId = EPC | KS0 | KS5 | KS6 | KS7 | TLBRSAVE | TLBREHI | TLBRELO0 | TLBRELO1

  datatype Csrs = Csrs(
    epc: Word, ebase: Word, dmw1: Word,
    ks0: Word, ks5: Word, ks6: Word, ks7: Word,
    tlbrsave: Word, tlbrehi: Word, tlbrelo0: Word, tlbrelo1: Word,
    tlbrepc: Loc)

  /** One core as KVM holds it.  `pending` records that the last exit was a hypercall, in which case the
      next KVM_RUN first copies `ret`, the field `hypercall.ret` of the shared run page, into a0. */
  datatype Cpu = Cpu(gpr: Regs, csr: Csrs, tlb: set<TlbEntry>, loc: Loc, pending: bool, ret: Word)

  datatype Instr =
    | CsrRd(rd: nat, csr: CsrId)
    | CsrWr(rd: nat, csr: CsrId)
    | SrliD(rd: nat, rj: nat, amount: nat)
    | SlliD(rd: nat, rj: nat, amount: nat)
    | Li(rd: nat, imm: Word)
    | AddD(rd: nat, rj: nat, rk: nat)
    | AddiD(rd: nat, rj: nat, imm: Word)
    | Xor(rd: nat, rj: nat, rk: nat)
    | StD(rd: nat, rj: nat, offset: Word)
    | LdD(rd: nat, rj: nat, offset: Word)
    | TlbFill
    | Hypercall
    | Ertn

  function Get(g: Regs, r: nat): Word
  {
    if r < 32 then g[r] else 0
  }

  function Set(g: Regs, r: nat, v: Word): Regs
  {
    if 0 < r < 32 then g[r := v] else g
  }

  function ReadCsr(c: Csrs, id: CsrId): Word
  {
    match id
    case EPC => c.epc
    case KS0 => c.ks0
    case KS5 => c.ks5
    case KS6 => c.ks6
    case KS7 => c.ks7
    case TLBRSAVE => c.tlbrsave
    case TLBREHI => c.tlbrehi
    case TLBRELO0 => c.tlbrelo0
    case TLBRELO1 => c.tlbrelo1
  }

  function WriteCsr(c: Csrs, id: CsrId, v: Word): Csrs
  {
    match id
    case EPC => c.(epc := v)
    case KS0 => c.(ks0 := v)
    case KS5 => c.(ks5 := v)
    case KS6 => c.(ks6 := v)
    case KS7 => c.(ks7 := v)
    case TLBRSAVE => c.(tlbrsave := v)
    case TLBREHI => c.(tlbrehi := v)
    case TLBRELO0 => c.(tlbrelo0 := v)
    case TLBRELO1 => c.(tlbrelo1 := v)
  }

  /** The instruction after this one; only handler code is stepped this way. */
  function Following(loc: Loc): Loc
  {
    match loc
    case User(pc) => User(Add(pc, 4))
    case Stub(k) => Stub(k + 1)
    case Refill(j) => Refill(j + 1)
  }

  /** `ertn` leaves a refill through the refill return register and any other handler through EPC. */
  function ReturnLoc(c: Cpu): Loc
  {
    if c.loc.Refill? then c.csr.tlbrepc else User(c.csr.epc)
  }

  datatype Outcome = Done(cpu: Cpu, mem: Mem) | Stuck

  /** Executes one handler instruction.  Handler data accesses go through the direct-mapped window;
      an access it does not capture, or one to a cell that is not there, is `Stuck`.  `tlbfill` may
      drop any of the entries it finds: `keep` is the hardware's choice. */
  function Exec(i: Instr, c: Cpu, mem: Mem, keep: set<TlbEntry>): Outcome
  {
    var next := c.(loc := Following(c.loc));
    match i
    case CsrRd(rd, id) => Done(next.(gpr := Set(c.gpr, rd, ReadCsr(c.csr, id))), mem)
    case CsrWr(rd, id) =>
      Done(next.(gpr := Set(c.gpr, rd, ReadCsr(c.csr, id)), csr := WriteCsr(c.csr, id, Get(c.gpr, rd))), mem)
    case SrliD(rd, rj, n) => Done(next.(gpr := Set(c.gpr, rd, ShiftRight(Get(c.gpr, rj), n))), mem)
    case SlliD(rd, rj, n) => Done(next.(gpr := Set(c.gpr, rd, ShiftLeft(Get(c.gpr, rj), n))), mem)
    case Li(rd, imm) => Done(next.(gpr := Set(c.gpr, rd, imm)), mem)
    case AddD(rd, rj, rk) => Done(next.(gpr := Set(c.gpr, rd, Add(Get(c.gpr, rj), Get(c.gpr, rk)))), mem)
    case AddiD(rd, rj, imm) => Done(next.(gpr := Set(c.gpr, rd, Add(Get(c.gpr, rj), imm))), mem)
    case Xor(rd, rj, rk) => Done(next.(gpr := Set(c.gpr, rd, Words.Xor(Get(c.gpr, rj), Get(c.gpr, rk)))), mem)
    case StD(rd, rj, offset) =>
      (match WindowTarget(c.csr.dmw1, Add(Get(c.gpr, rj), offset))
       case Some(hva) => if hva in mem then Done(next, mem[hva := Get(c.gpr, rd)]) else Stuck
       case None => Stuck)
    case LdD(rd, rj, offset) =>
      (match WindowTarget(c.csr.dmw1, Add(Get(c.gpr, rj), offset))
       case Some(hva) => if hva in mem then Done(next.(gpr := Set(c.gpr, rd, mem[hva])), mem) else Stuck
       case None => Stuck)
    case TlbFill =>
      Done(next.(tlb := c.tlb * keep + {TlbEntry(c.csr.tlbrehi, c.csr.tlbrelo0, c.csr.tlbrelo1)}), mem)
    case Hypercall => Stuck  // leaves the guest: see TakeHypercall
    case Ertn => Done(c.(loc := ReturnLoc(c)), mem)
  }

  // ---------- Exceptions, and KVM's view of a core ----------

  /** A system-call exception at user address `pc`: the exception return register takes its address. */
  function EnterStub(c: Cpu, pc: Word): Cpu
  {
    c.(loc := Stub(0), csr := c.csr.(epc := pc))
  }

  /** The page number of the missing address replaces the one TLBREHI held; the low bits stay. */
  function Latch(hi: Word, va: Word): Word
  {
    va % ADDRESS_SPACE / 0x2000 * 0x2000 + hi % 0x2000
  }

  /** A TLB miss: the hardware latches the page number of the faulting address and where it happened. */
  function EnterRefill(c: Cpu, va: Word): Cpu
  {
    c.(loc := Refill(0),
       csr := c.csr.(tlbrepc := c.loc, tlbrehi := Latch(c.csr.tlbrehi, va)))
  }

  /** The HYPERCALL word leaves the guest with the core stopped behind it. */
  function TakeHypercall(c: Cpu): Cpu
  {
    c.(loc := Following(c.loc), pending := true)
  }

  /** What KVM does to a core on entry to KVM_RUN. */
  function Resume(c: Cpu): Cpu
  {
    if c.pending then c.(gpr := Set(c.gpr, A0, c.ret), pending := false) else c
  }
}
