/** What a guest may rely on across a system call, whatever the architecture. */
module CallContract {
  import opened Words
  import opened Paging
  import opened LoongArch
  import opened Trampoline
  import opened Harts
  import H = HostLoop
  import N = Native

  /** Execution goes on behind the trapping instruction, the result registers hold the results, and every
      other register that is not given up keeps its value. */
  ghost predicate Honors(before: Regs, after: Regs, pc: Word, pc': Word, results: map<nat, Word>, lost: set<nat>)
  {
    && pc' == Add(pc, 4)
    && (forall r | r in results :: r < 32 && after[r] == results[r])
    && forall r | 0 <= r < 32 && r !in results && r !in lost :: after[r] == before[r]
  }

  /** The native machine honors it, giving up no more than $t0. */
  lemma NativeHonors(th: N.Thread, r: Word, t0: Word)
    ensures Honors(th.gpr, N.Returned(th, r, t0).gpr, th.pc, N.Returned(th, r, t0).pc, map[A0 := r], {T0})
  {
  }

  /** A LoongArch core: into the call, the host's call with what is in the block and its answer there, and
      back.  The kernel is asked for exactly the guest's call: the number in a7, the arguments in a0 to a6. */
  method Serve(hart: Hart, pc: Word, b: Word, answer: Word, keep: set<TlbEntry>) returns (request: H.Request)
    requires Serves(hart.cpu, b, hart.mem) && hart.cpu.loc == User(pc)
    modifies hart
    ensures hart.cpu.loc.User? && Serves(hart.cpu, b, hart.mem)
    ensures Honors(old(hart.cpu.gpr), hart.cpu.gpr, pc, hart.cpu.loc.pc, map[A0 := answer], {T0})
    ensures OnlyBlockChanges(old(hart.mem), hart.mem, b)
    ensures var g := old(hart.cpu.gpr); request == H.Request(g[11], [g[4], g[5], g[6], g[7], g[8], g[9], g[10]])
  {
    hide Serves, Cell;
    ServesBlock(hart.cpu, b, hart.mem);
    hart.EnterCall(pc, b, keep);
    ServesBlock(hart.cpu, b, hart.mem);
    AnswerServes(hart.cpu, b, hart.mem, answer);
    request := H.Request(Params(hart.mem, b)[7], Params(hart.mem, b)[..7]);
    hart.mem := hart.mem[Cell(b, 0) := answer];
    hart.LeaveCall(b, keep);
  }

  lemma ServesBlock(c: Cpu, b: Word, mem: Mem)
    requires Serves(c, b, mem)
    ensures HasBlock(mem, b) && c.csr.ks5 == WindowAddress(b)
  {
  }

  lemma AnswerServes(c: Cpu, b: Word, mem: Mem, answer: Word)
    requires Serves(c, b, mem)
    ensures Serves(c, b, mem[Cell(b, 0) := answer])
    ensures HasBlock(mem[Cell(b, 0) := answer], b) && Params(mem[Cell(b, 0) := answer], b)[0] == answer
  {
  }
}
