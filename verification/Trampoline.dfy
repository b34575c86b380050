/** The syscall stub against the program it serves: what the stub's half-done work stands for while the
    parameter block, the scratch register and the exception return register are in motion. */
module Trampoline {
  import opened Words
  import opened Paging
  import opened LoongArch
  import opened Handlers
  import N = Native

  // ---------- The parameter block ----------

  const PARAMETERS := 8

  /** The host address of `syscall_parameter[i]` in the block at `b`. */
  function Cell(b: Word, i: nat): Word { Add(b, 8 * i % TWO_64) }

  /** A block the memory slot reaches from end to end. */
  predicate BlockInSlot(b: Word) { b + 64 <= SLOT_SIZE }

  predicate HasBlock(mem: Mem, b: Word)
  {
    forall i | 0 <= i < PARAMETERS :: Cell(b, i) in mem
  }

  function Params(mem: Mem, b: Word): (p: seq<Word>)
    requires HasBlock(mem, b)
    ensures |p| == PARAMETERS && forall i | 0 <= i < PARAMETERS :: p[i] == mem[Cell(b, i)]
  {
    seq(PARAMETERS, i requires 0 <= i < PARAMETERS => mem[Cell(b, i)])
  }

  lemma CellsDistinct(b: Word, i: nat, j: nat)
    requires i < PARAMETERS && j < PARAMETERS && Cell(b, i) == Cell(b, j)
    ensures i == j
  {
  }

  /** What `init_csr` puts into KS5: the block as the guest sees it through the window. */
  function WindowAddress(b: Word): Word { Add(b, DMW1_BASE) }

  /** Every access of the stub reaches the cell of the host object it is meant for. */
  lemma StubTarget(b: Word, i: nat)
    requires BlockInSlot(b) && i < PARAMETERS
    ensures WindowTarget(DMW1_INIT, Add(WindowAddress(b), 8 * i)) == Some(Cell(b, i))
    ensures Cell(b, i) == b + 8 * i
  {
    WindowRoundTrip(b + 8 * i);
  }

  // ---------- What a core in the stub stands for ----------

  ghost predicate SameBut(v: Regs, g: Regs)
  {
    forall i | 0 <= i < 32 && i != A0 && i != T0 :: v[i] == g[i]
  }

  ghost predicate Before(v: View, k: nat, pr: seq<Word>, n: N.Thread)
    requires |pr| == PARAMETERS
  {
    && n.calling && n.pc == v.epc
    && (k == 0 ==> v.gpr[T0] == n.gpr[T0])
    && (k >= 1 ==> v.gpr[T0] == v.ks5)
    && v.gpr[A0] == (if k <= 9 then n.gpr[A0] else 0)
    && forall i | 0 <= i < PARAMETERS && i + 1 < k :: pr[i] == n.gpr[A0 + i]
  }

  ghost predicate After(v: View, k: nat, pr: seq<Word>, n: N.Thread)
    requires |pr| == PARAMETERS
  {
    && !n.calling && n.pc == Add(n.gpr[T0], 4)
    && v.epc == (if k <= 14 then n.gpr[T0] else n.pc)
    && (k == 11 ==> v.gpr[T0] == v.ks5 && pr[0] == n.gpr[A0])
    && (k >= 12 ==> v.gpr[A0] == n.gpr[A0])
    && (k == 13 || k == 15 ==> v.gpr[T0] == n.gpr[T0])
    && (k == 14 ==> v.gpr[T0] == n.pc)
  }

  /** A core with view `v` whose block holds `pr` stands for the native thread `n`.  Up to the hypercall
      the native thread waits for the kernel; behind it, the system call is done. */
  ghost predicate StandsFor(v: View, pr: seq<Word>, n: N.Thread)
    requires |pr| == PARAMETERS
  {
    match v.loc
    case User(p) => v.gpr == n.gpr && n.pc == p && !n.calling
    case Refill(_) => false
    case Stub(k) => SameBut(v.gpr, n.gpr) && if k <= 10 then Before(v, k, pr, n) else After(v, k, pr, n)
  }

  /** The eight parameters are in place and the core waits behind its hypercall. */
  ghost predicate Asking(v: View, pr: seq<Word>, n: N.Thread)
    requires |pr| == PARAMETERS
  {
    && v.loc == Stub(11) && SameBut(v.gpr, n.gpr)
    && n.calling && n.pc == v.epc && v.gpr[T0] == v.ks5 && v.gpr[A0] == 0
    && forall i | 0 <= i < PARAMETERS :: pr[i] == n.gpr[A0 + i]
  }

  /** A core in the stub that serves the block at `b`. */
  ghost predicate Serves(c: Cpu, b: Word, mem: Mem)
  {
    && CoreOk(c) && BlockInSlot(b) && HasBlock(mem, b)
    && c.csr.ks5 == WindowAddress(b)
  }

  /** What one stub instruction is shown to do: it executes, changes memory at most in its own block,
      and still stands for the same thread. */
  ghost predicate StubAdvances(c: Cpu, d: Cpu, b: Word, mem: Mem, mem': Mem, keep: set<TlbEntry>, n: N.Thread)
    requires c.loc.Stub? && c.loc.k < STUB_LENGTH
  {
    && Exec(StubCode(c.loc.k), c, mem, keep) == Done(d, mem')
    && Serves(d, b, mem')
    && OnlyBlockChanges(mem, mem', b)
    && StandsFor(ViewOf(d), Params(mem', b), n)
    && d.csr.ebase == c.csr.ebase && d.pending == c.pending && d.ret == c.ret
  }

  ghost predicate OnlyBlockChanges(mem: Mem, mem': Mem, b: Word)
  {
    mem'.Keys == mem.Keys
    && forall a | a in mem && (forall i | 0 <= i < PARAMETERS :: a != Cell(b, i)) :: mem'[a] == mem[a]
  }

  ghost predicate InStub(c: Cpu, b: Word, mem: Mem, n: N.Thread)
  {
    Serves(c, b, mem) && c.loc.Stub? && StandsFor(ViewOf(c), Params(mem, b), n)
  }

  lemma StubLoadsBlock(c: Cpu, b: Word, mem: Mem, keep: set<TlbEntry>, n: N.Thread) returns (d: Cpu)
    requires InStub(c, b, mem, n) && c.loc.k == 0
    ensures StubAdvances(c, d, b, mem, mem, keep, n)
  {
    d := Exec(StubCode(0), c, mem, keep).cpu;
    ViewIsPlain(c);
    ViewIsPlain(d);
  }

  lemma StubStores(c: Cpu, b: Word, mem: Mem, keep: set<TlbEntry>, n: N.Thread) returns (d: Cpu, mem': Mem)
    requires InStub(c, b, mem, n) && 1 <= c.loc.k <= 8
    ensures StubAdvances(c, d, b, mem, mem', keep, n)
  {
    hide WindowTarget, WindowAddress;
    var i := c.loc.k - 1;
    ViewIsPlain(c);
    StubTarget(b, i);
    d := c.(loc := Following(c.loc));
    mem' := mem[Cell(b, i) := c.gpr[A0 + i]];
    StoreExecutes(c, mem, keep, b, i);
    ViewIsPlain(d);
    forall j | 0 <= j < PARAMETERS && j != i ensures mem'[Cell(b, j)] == mem[Cell(b, j)] {
      if Cell(b, i) == Cell(b, j) { CellsDistinct(b, i, j); }
    }
  }

  lemma StoreExecutes(c: Cpu, mem: Mem, keep: set<TlbEntry>, b: Word, i: nat)
    requires i < PARAMETERS && c.loc == Stub(i + 1) && HasBlock(mem, b)
    requires WindowTarget(c.csr.dmw1, Add(c.gpr[T0], 8 * i)) == Some(Cell(b, i))
    ensures Exec(StubCode(i + 1), c, mem, keep)
            == Done(c.(loc := Following(c.loc)), mem[Cell(b, i) := c.gpr[A0 + i]])
  {
    hide WindowTarget;
    StoreInstr(i);
  }

  lemma StoreInstr(i: nat)
    requires i < PARAMETERS
    ensures StubCode(i + 1) == StD(A0 + i, T0, 8 * i)
  {
  }

  lemma StubClearsA0(c: Cpu, b: Word, mem: Mem, keep: set<TlbEntry>, n: N.Thread) returns (d: Cpu)
    requires InStub(c, b, mem, n) && c.loc.k == 9
    ensures StubAdvances(c, d, b, mem, mem, keep, n)
    ensures d.gpr[A0] == 0
  {
    d := Exec(StubCode(9), c, mem, keep).cpu;
    XorSelf(c.gpr[A0]);
    ViewIsPlain(c);
    ViewIsPlain(d);
  }

  lemma StubLoadsResult(c: Cpu, b: Word, mem: Mem, keep: set<TlbEntry>, n: N.Thread) returns (d: Cpu)
    requires InStub(c, b, mem, n) && c.loc.k == 11
    ensures StubAdvances(c, d, b, mem, mem, keep, n)
  {
    ViewIsPlain(c);
    StubTarget(b, 0);
    d := Exec(StubCode(11), c, mem, keep).cpu;
    ViewIsPlain(d);
  }

  lemma StubMovesEpc(c: Cpu, b: Word, mem: Mem, keep: set<TlbEntry>, n: N.Thread) returns (d: Cpu)
    requires InStub(c, b, mem, n) && 12 <= c.loc.k <= 14
    ensures StubAdvances(c, d, b, mem, mem, keep, n)
  {
    d := Exec(StubCode(c.loc.k), c, mem, keep).cpu;
    ViewIsPlain(c);
    ViewIsPlain(d);
  }

  lemma StubReturns(c: Cpu, b: Word, mem: Mem, keep: set<TlbEntry>, n: N.Thread) returns (d: Cpu)
    requires InStub(c, b, mem, n) && c.loc.k == 15
    ensures StubAdvances(c, d, b, mem, mem, keep, n)
    ensures d.loc == User(n.pc) && d.gpr == n.gpr
  {
    d := Exec(StubCode(15), c, mem, keep).cpu;
    ViewIsPlain(c);
    ViewIsPlain(d);
    assert c.gpr == n.gpr;
  }

  /** Every instruction of the stub but the hypercall does what `StubAdvances` says; in particular none
      of its accesses can miss or go astray. */
  lemma StubInstr(c: Cpu, b: Word, mem: Mem, keep: set<TlbEntry>, n: N.Thread) returns (d: Cpu, mem': Mem)
    requires InStub(c, b, mem, n) && c.loc.k != 10
    ensures StubAdvances(c, d, b, mem, mem', keep, n)
  {
    var k := c.loc.k;
    mem' := mem;
    if k == 0 { d := StubLoadsBlock(c, b, mem, keep, n); }
    else if k <= 8 { d, mem' := StubStores(c, b, mem, keep, n); }
    else if k == 9 { d := StubClearsA0(c, b, mem, keep, n); }
    else if k == 11 { d := StubLoadsResult(c, b, mem, keep, n); }
    else if k <= 14 { d := StubMovesEpc(c, b, mem, keep, n); }
    else { d := StubReturns(c, b, mem, keep, n); }
  }

  /** At the hypercall all eight parameters are in the block. */
  lemma StubAsks(c: Cpu, b: Word, mem: Mem, n: N.Thread)
    requires InStub(c, b, mem, n) && c.loc.k == 10
    ensures Serves(TakeHypercall(c), b, mem)
    ensures Asking(ViewOf(TakeHypercall(c)), Params(mem, b), n)
  {
    ViewIsPlain(c);
    ViewIsPlain(TakeHypercall(c));
  }
}
