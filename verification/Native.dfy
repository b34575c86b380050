/** The machine a process expects: threads over address spaces and a kernel that serves a trapped thread
    in one step.  This is the specification the emulation is measured against.

    What a guest instruction does is a parameter of the environment, and so is the kernel. */
module Native {
  import opened Words
  import opened LoongArch

  // ---------- System calls that are not just a number and arguments ----------

  const SYS_EXIT: Word := 93
  const SYS_CLONE: Word := 220

  const CLONE_VM_BIT := 8
  const CLONE_SETTLS_BIT := 19

  /** The arguments of `clone` other than the new stack pointer. */
  datatype CloneArgs = CloneArgs(flags: Word, ptid: Word, ctid: Word, tls: Word)

  // ---------- The environment ----------

  /** What the instruction at an address does, as far as it concerns other parts of the machine. */
  datatype Op =
    | Alu(f: (Regs, Word) -> (Regs, Word))
    | Load(rd: nat, addr: Regs -> Word)
    | Store(rs: nat, addr: Regs -> Word)
    | Syscall

  /** `op` decodes the instruction at a pc in a memory; `sys` is the kernel, on the calling thread, a number,
      seven arguments and the caller's memory; `clone` is what creating thread `child` does to the
      parent's and the child's memory; `exit` is what a thread's end does. */
  datatype Env<!K> = Env(
    op: (Word, Mem) -> Op,
    sys: (Word, Word, seq<Word>, Mem, K) -> (Word, Mem, K),
    clone: (Word, CloneArgs, Word, Mem, K) -> (Mem, Mem, K),
    exit: (Word, Word, Mem, K) -> (Mem, K))

  datatype Event =
    | Called(tid: Word, nr: Word, args: seq<Word>, result: Word)
    | Cloned(parent: Word, child: Word, request: CloneArgs)
    | Refused(tid: Word, request: CloneArgs, errno: Word)
    | Left(tid: Word, status: Word)

  /** A thread that is `calling` has executed its system-call instruction and waits for the kernel. */
  datatype Thread = Thread(space: nat, gpr: Regs, pc: Word, calling: bool)

  datatype System<K> = System(threads: map<Word, Thread>, mems: map<nat, Mem>, kernel: K, log: seq<Event>)

  // ---------- Steps ----------

  /** `t0` is what a system call leaves in $t0, a register the kernel does not keep. */
  datatype Label =
    | Ordinary(t: Word)
    | Call(t: Word, t0: Word)
    | Clone(t: Word, child: Word, space: nat, parentT0: Word, childT0: Word)
    | CloneFails(t: Word, errno: Word, t0: Word)
    | Exit(t: Word)

  predicate Live<K>(s: System<K>, t: Word) { t in s.threads && s.threads[t].space in s.mems }

  function MemOf<K>(s: System<K>, t: Word): Mem
    requires Live(s, t)
  {
    s.mems[s.threads[t].space]
  }

  function OpOf<K>(env: Env<K>, s: System<K>, t: Word): Op
    requires Live(s, t)
  {
    env.op(s.threads[t].pc, MemOf(s, t))
  }

  /** The caller's registers behind a system call: the result in a0, $t0 lost, the rest kept. */
  function AfterCall(g: Regs, result: Word, t0: Word): Regs
  {
    g[A0 := result][T0 := t0]
  }

  /** A new thread's registers: those of its parent but for the zero result, its stack if it was given
      one, its thread pointer if it was asked for, and $t0. */
  function ChildAfterClone(g: Regs, flags: Word, newsp: Word, tls: Word, t0: Word): Regs
  {
    g[A0 := 0]
    [TP := if Bit(flags, CLONE_SETTLS_BIT) then tls else g[TP]]
    [SP := if newsp != 0 then newsp else g[SP]]
    [T0 := t0]
  }

  function ArgsOf(g: Regs): CloneArgs { CloneArgs(g[4], g[6], g[7], g[8]) }

  function StepOrdinary<K>(env: Env<K>, s: System<K>, t: Word): Option<System<K>>
  {
    if !Live(s, t) || s.threads[t].calling then None else
      var th, m := s.threads[t], MemOf(s, t);
      match OpOf(env, s, t)
      case Alu(f) =>
        var (g, pc) := f(th.gpr, th.pc);
        Some(s.(threads := s.threads[t := th.(gpr := g, pc := pc)]))
      case Load(rd, addr) =>
        var a := addr(th.gpr);
        if a in m then
          Some(s.(threads := s.threads[t := th.(gpr := Set(th.gpr, rd, m[a]), pc := Add(th.pc, 4))]))
        else None
      case Store(rs, addr) =>
        var a := addr(th.gpr);
        if a in m then
          Some(s.(threads := s.threads[t := th.(pc := Add(th.pc, 4))],
                  mems := s.mems[th.space := m[a := Get(th.gpr, rs)]]))
        else None
      case Syscall => Some(s.(threads := s.threads[t := th.(calling := true)]))
  }

  /** What a thread stores it loads again, from the same address and with nothing in between; of its registers
      only the loaded one changes, and of memory only the stored cell. */
  lemma StoreThenLoad<K>(env: Env<K>, s: System<K>, s1: System<K>, s2: System<K>, t: Word)
    requires Live(s, t) && OpOf(env, s, t).Store? && StepOrdinary(env, s, t) == Some(s1)
    requires Live(s1, t) && OpOf(env, s1, t).Load? && StepOrdinary(env, s1, t) == Some(s2)
    requires OpOf(env, s1, t).addr(s1.threads[t].gpr) == OpOf(env, s, t).addr(s.threads[t].gpr)
    ensures Live(s2, t)
    ensures var g, rs, rd := s.threads[t].gpr, OpOf(env, s, t).rs, OpOf(env, s1, t).rd;
            && (0 < rd < 32 ==> s2.threads[t].gpr[rd] == Get(g, rs))
            && (forall r | 0 <= r < 32 && (r != rd || r == 0) :: s2.threads[t].gpr[r] == g[r])
            && (forall a | a in MemOf(s, t) && a != OpOf(env, s, t).addr(g) :: a in MemOf(s2, t) && MemOf(s2, t)[a] == MemOf(s, t)[a])
            && s2.threads[t].pc == Add(Add(s.threads[t].pc, 4), 4)
    ensures forall u | u in s.threads && u != t :: u in s2.threads && s2.threads[u] == s.threads[u]
    ensures forall x | x in s.mems && x != s.threads[t].space :: x in s2.mems && s2.mems[x] == s.mems[x]
  {
  }

  predicate Calls<K>(s: System<K>, t: Word)
  {
    Live(s, t) && s.threads[t].calling
  }

  /** A thread behind a system call. */
  function Returned(th: Thread, result: Word, t0: Word): Thread
  {
    th.(gpr := AfterCall(th.gpr, result, t0), pc := Add(th.pc, 4), calling := false)
  }

  function StepCall<K>(env: Env<K>, s: System<K>, t: Word, t0: Word): Option<System<K>>
  {
    if !Calls(s, t) || s.threads[t].gpr[A7] in {SYS_EXIT, SYS_CLONE} then None else
      var th := s.threads[t];
      var (r, m, k) := env.sys(t, th.gpr[A7], th.gpr[A0..A7], MemOf(s, t), s.kernel);
      Some(s.(threads := s.threads[t := Returned(th, r, t0)],
              mems := s.mems[th.space := m],
              kernel := k,
              log := s.log + [Called(t, th.gpr[A7], th.gpr[A0..A7], r)]))
  }

  /** A new thread shares its parent's address space or gets a copy of it under a fresh name. */
  function StepClone<K>(env: Env<K>, s: System<K>, l: Label): Option<System<K>>
    requires l.Clone?
  {
    var t := l.t;
    if !Calls(s, t) || s.threads[t].gpr[A7] != SYS_CLONE || l.child in s.threads then None else
      var th := s.threads[t];
      var shared := Bit(th.gpr[4], CLONE_VM_BIT);
      if shared != (l.space == th.space) || (!shared && l.space in s.mems) then None else
        var args := ArgsOf(th.gpr);
        var (pm, cm, k) := env.clone(t, args, l.child, MemOf(s, t), s.kernel);
        var parent := Returned(th, l.child, l.parentT0);
        var child := Thread(l.space, ChildAfterClone(th.gpr, args.flags, th.gpr[5], args.tls, l.childT0), Add(th.pc, 4), false);
        Some(s.(threads := s.threads[t := parent][l.child := child],
                mems := if shared then s.mems[th.space := pm] else s.mems[th.space := pm][l.space := cm],
                kernel := k,
                log := s.log + [Cloned(t, l.child, args)]))
  }

  predicate IsErrno(e: Word) { 1 <= e <= 4095 }

  /** A clone that the kernel refuses: no thread, and a negated error number as the result. */
  function StepCloneFails<K>(env: Env<K>, s: System<K>, t: Word, errno: Word, t0: Word): Option<System<K>>
  {
    if !Calls(s, t) || s.threads[t].gpr[A7] != SYS_CLONE || !IsErrno(errno) then None else
      Some(s.(threads := s.threads[t := Returned(s.threads[t], TWO_64 - errno, t0)],
              log := s.log + [Refused(t, ArgsOf(s.threads[t].gpr), errno)]))
  }

  function StepExit<K>(env: Env<K>, s: System<K>, t: Word): Option<System<K>>
  {
    if !Calls(s, t) || s.threads[t].gpr[A7] != SYS_EXIT then None else
      var th := s.threads[t];
      var (m, k) := env.exit(t, th.gpr[A0], MemOf(s, t), s.kernel);
      Some(s.(threads := s.threads - {t}, mems := s.mems[th.space := m], kernel := k,
              log := s.log + [Left(t, th.gpr[A0])]))
  }

  function Step<K>(env: Env<K>, s: System<K>, l: Label): Option<System<K>>
  {
    match l
    case Ordinary(t) => StepOrdinary(env, s, t)
    case Call(t, t0) => StepCall(env, s, t, t0)
    case Clone(_, _, _, _, _) => StepClone(env, s, l)
    case CloneFails(t, errno, t0) => StepCloneFails(env, s, t, errno, t0)
    case Exit(t) => StepExit(env, s, t)
  }

  /** The state a sequence of steps leads to, if every one of them can be taken. */
  function Run<K>(env: Env<K>, s: System<K>, ls: seq<Label>): Option<System<K>>
    decreases |ls|
  {
    if ls == [] then Some(s) else
      match Run(env, s, ls[..|ls| - 1])
      case None => None
      case Some(m) => Step(env, m, ls[|ls| - 1])
  }
}
