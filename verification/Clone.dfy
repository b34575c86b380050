/** How dune turns a guest's clone into a new core: the choice of strategy and the child's state. */
module Clone {
  import opened Words
  import opened Paging
  import opened LoongArch
  import opened Handlers
  import opened Trampoline
  import N = Native

  /** What `kvm_get_parent_thread_info` saves of the parent, with the vector image it runs on. */
  datatype ThreadInfo = ThreadInfo(regs: Regs, era: Word, ebase: Word)

  datatype CloneType = SameVm | DiffVmNewStack | DiffVmOldStack

  function CloneTypeOf(pr: seq<Word>): CloneType
    requires |pr| == PARAMETERS
  {
    if Bit(pr[0], N.CLONE_VM_BIT) then SameVm
    else if pr[1] != 0 then DiffVmNewStack
    else DiffVmOldStack
  }

  /** The child's general registers, from the parent's at its hypercall and its eight parameters. */
  function ChildRegs(regs: Regs, pr: seq<Word>): Regs
    requires |pr| == PARAMETERS
  {
    var zeroed := regs[A0 := 0];
    var threaded := if Bit(pr[0], N.CLONE_SETTLS_BIT) then zeroed[TP := pr[4]] else zeroed;
    if pr[1] != 0 then threaded[SP := pr[1]] else threaded
  }

  /** The CSRs that `init_csr` sets; the rest keep what the core's last user left in them. */
  function InitCsrs(c: Csrs, b: Word, ebase: Word): Csrs
  {
    c.(ebase := ebase, dmw1 := DMW1_INIT,
       ks5 := WindowAddress(b), ks6 := RELO0_STANDARD_BITS, ks7 := RELO1_STANDARD_BITS)
  }

  /** `init_child_thread_info` on a core that is new or was used before.  The hypercall result field is
      cleared along with a0, so it does not matter whether a hypercall is still pending. */
  function InitChild(left: Cpu, info: ThreadInfo, pr: seq<Word>, b: Word): Cpu
    requires |pr| == PARAMETERS
  {
    left.(gpr := ChildRegs(info.regs, pr), loc := User(Add(info.era, 4)), ret := 0,
          csr := InitCsrs(left.csr, b, info.ebase))
  }

  /** A core that KVM has just created. */
  function NewCpu(): Cpu
  {
    Cpu(seq(32, i => 0), Csrs(0, 0, 0, 0, 0, 0, 0, 0, 0, 0, 0, User(0)), {}, User(0), false, 0)
  }

  /** Whatever core the child is given, KVM's entry hands the guest the registers of `ChildRegs`. */
  lemma ChildStarts(left: Cpu, info: ThreadInfo, pr: seq<Word>, b: Word)
    requires |pr| == PARAMETERS && IdentityTlb(left.tlb)
    ensures var d := InitChild(left, info, pr, b);
            && Resume(d).gpr == ChildRegs(info.regs, pr)
            && d.loc == User(Add(info.era, 4))
            && CoreOk(d) && d.csr.ks5 == WindowAddress(b) && d.csr.ebase == info.ebase
  {
    assert ChildRegs(info.regs, pr)[A0 := 0] == ChildRegs(info.regs, pr);
  }

  /** A parent that waits behind its hypercall stands for a thread at its clone; then the child's
      registers are those of the native child, $t0 being whatever the parent's scratch register is. */
  lemma ChildIsNative(v: View, pr: seq<Word>, n: N.Thread)
    requires |pr| == PARAMETERS && Asking(v, pr, n)
    ensures ChildRegs(v.gpr, pr) == N.ChildAfterClone(n.gpr, n.gpr[4], n.gpr[5], n.gpr[8], v.gpr[T0])
  {
    var g := n.gpr;
    var c, d := ChildRegs(v.gpr, pr), N.ChildAfterClone(g, g[4], g[5], g[8], v.gpr[T0]);
    assert pr[0] == g[4] && pr[1] == g[5] && pr[4] == g[8];
    forall i | 0 <= i < 32 ensures c[i] == d[i] {
      if i != A0 && i != T0 { assert v.gpr[i] == g[i]; }
    }
  }
}
