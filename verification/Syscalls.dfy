/** What a run of dune does to the system calls of its guest: each one reaches the kernel exactly once,
    and the guest goes on behind it exactly as behind a native one. */
module Syscalls {
  import opened Words
  import opened Paging
  import opened LoongArch
  import opened Handlers
  import opened Trampoline
  import opened Clone
  import opened Dune
  import opened Simulation
  import opened Refinement
  import opened Runs
  import N = Native

  // ---------- Exactly once, natively ----------

  predicate Acts(e: N.Event, t: Word)
  {
    match e
    case Called(tid, _, _, _) => tid == t
    case Cloned(parent, _, _) => parent == t
    case Refused(tid, _, _) => tid == t
    case Left(tid, _) => tid == t
  }

  /** How often the kernel was entered on behalf of thread `t`. */
  function Entries(log: seq<N.Event>, t: Word): nat
  {
    if log == [] then 0 else Entries(log[..|log| - 1], t) + if Acts(log[|log| - 1], t) then 1 else 0
  }

  predicate NativeTrap<K>(env: N.Env<K>, n: N.System<K>, l: N.Label, t: Word)
  {
    l == N.Ordinary(t) && N.Live(n, t) && N.OpOf(env, n, t).Syscall?
  }

  /** How often thread `t` executed a system-call instruction along a native run. */
  function NativeTraps<K>(env: N.Env<K>, n: N.System<K>, ls: seq<N.Label>, t: Word): nat
    decreases |ls|
  {
    if ls == [] then 0 else
      var front := ls[..|ls| - 1];
      match N.Run(env, n, front)
      case None => 0
      case Some(m) => NativeTraps(env, n, front, t) + if NativeTrap(env, m, ls[|ls| - 1], t) then 1 else 0
  }

  function Pending<K>(n: N.System<K>, t: Word): nat
  {
    if t in n.threads && n.threads[t].calling then 1 else 0
  }

  /** What each native step adds to the history: nothing, or one event of its own thread. */
  lemma NativeStepLogs<K>(env: N.Env<K>, n: N.System<K>, l: N.Label, n': N.System<K>)
    requires N.Step(env, n, l) == Some(n')
    ensures l.Ordinary? ==> n'.log == n.log
    ensures !l.Ordinary? ==> |n'.log| == |n.log| + 1 && n'.log[..|n.log|] == n.log
                             && forall t :: Acts(n'.log[|n.log|], t) <==> t == l.t
  {
    hide N.AfterCall, N.ChildAfterClone, Bit;
  }

  /** What it does to the calls in flight. */
  lemma NativeStepCalls<K>(env: N.Env<K>, n: N.System<K>, l: N.Label, n': N.System<K>, t: Word)
    requires N.Step(env, n, l) == Some(n')
    ensures l.Ordinary? ==> Pending(n', t) == Pending(n, t) + if NativeTrap(env, n, l, t) then 1 else 0
    ensures !l.Ordinary? ==> Pending(n', t) == Pending(n, t) - if l.t == t then 1 else 0
  {
    hide N.AfterCall, N.ChildAfterClone, Bit;
  }

  lemma NativeStepCounts<K>(env: N.Env<K>, n: N.System<K>, l: N.Label, n': N.System<K>, t: Word)
    requires N.Step(env, n, l) == Some(n')
    ensures (if NativeTrap(env, n, l, t) then 1 else 0) + Entries(n.log, t) + Pending(n, t)
            == Entries(n'.log, t) + Pending(n', t)
  {
    hide N.Step, Acts, Pending;
    NativeStepLogs(env, n, l, n');
    NativeStepCalls(env, n, l, n', t);
  }

  lemma {:induction false} NativeRunCounts<K>(env: N.Env<K>, n: N.System<K>, ls: seq<N.Label>, n': N.System<K>, t: Word)
    requires N.Run(env, n, ls) == Some(n')
    ensures NativeTraps(env, n, ls, t) + Entries(n.log, t) + Pending(n, t) == Entries(n'.log, t) + Pending(n', t)
    decreases |ls|
  {
    hide N.Step, NativeTrap, Entries, Pending;
    if ls != [] {
      var front := ls[..|ls| - 1];
      var mid := N.Run(env, n, front).value;
      NativeRunCounts(env, n, front, mid, t);
      NativeStepCounts(env, mid, ls[|ls| - 1], n', t);
    }
  }

  // ---------- Exactly once, in dune ----------

  /** Thread `t` executes a system-call instruction of the guest. */
  predicate Trap<K>(env: N.Env<K>, s: System<K>, l: Label, t: Word)
  {
    && l.GuestOp? && l.t == t && HasCore(s, t) && s.threads[t].space in s.spaces
    && CoreOf(s, t).loc.User? && env.op(CoreOf(s, t).loc.pc, UserOf(s, t)).Syscall?
  }

  function Traps<K>(env: N.Env<K>, s: System<K>, ls: seq<Label>, t: Word): nat
    decreases |ls|
  {
    if ls == [] then 0 else
      var front := ls[..|ls| - 1];
      match Run(env, s, front)
      case None => 0
      case Some(m) => Traps(env, s, front, t) + if Trap(env, m, ls[|ls| - 1], t) then 1 else 0
  }

  /** The thread is between its system-call instruction and the host's execution of the call. */
  predicate InFlight<K>(s: System<K>, t: Word)
  {
    HasCore(s, t) &&
    match s.threads[t].phase
    case Storing(_, _) => false
    case Exited(_, true) => true
    case CloneReady(_, _) => true
    case CloneArmed(_, _, _) => true
    case _ => ViewOf(CoreOf(s, t)).loc.Stub? && ViewOf(CoreOf(s, t)).loc.k <= 10
  }

  lemma TrapIsNative<K>(env: N.Env<K>, s: System<K>, l: Label, s': System<K>, n: N.System<K>, t: Word)
    requires Sim(s, n) && Apply(env, s, l) == Some(s')
    ensures Trap(env, s, l, t) <==> Answer(s, l).Some? && NativeTrap(env, n, Answer(s, l).value, t)
  {
    hide Sim, Apply, DoGuestOp, Reach, IdentityTlb, HasBlock;
    if l.GuestOp? {
      AppliesGuestOp(env, s, l);
      GuestDecodes(env, s, s', n, l.t, l.fetched, l.accessed);
    }
  }

  lemma AppliesGuestOp<K>(env: N.Env<K>, s: System<K>, l: Label)
    requires l.GuestOp?
    ensures Apply(env, s, l) == DoGuestOp(env, s, l.t, l.fetched, l.accessed)
  {
    hide DoGuestOp;
  }

  lemma {:induction false} TrapsAreNative<K>(env: N.Env<K>, s: System<K>, ls: seq<Label>, s': System<K>, n: N.System<K>, t: Word)
    requires Sim(s, n) && Run(env, s, ls) == Some(s')
    ensures Traps(env, s, ls, t) == NativeTraps(env, n, NativeRun(env, s, ls), t)
    decreases |ls|
  {
    hide Sim, Apply, Answer, N.Step, Trap, NativeTrap;
    if ls != [] {
      var front, last := ls[..|ls| - 1], ls[|ls| - 1];
      var mid := Run(env, s, front).value;
      TrapsAreNative(env, s, front, mid, n, t);
      var m := RunSim(env, s, front, mid, n);
      TrapIsNative(env, mid, last, s', m, t);
      var steps := NativeRun(env, s, ls);
      if Answer(mid, last).Some? {
        assert steps[..|steps| - 1] == NativeRun(env, s, front);
      }
    }
  }

  lemma InFlightIsCalling<K>(s: System<K>, n: N.System<K>, t: Word)
    requires Sim(s, n)
    ensures Pending(n, t) == if InFlight(s, t) then 1 else 0
  {
    hide Sim, Params, HasBlock, ThreadOk, CoreOk, Armed, InfoOf, CloneTypeOf, SameBut;
    SimAgrees(s, n);
    if t in s.threads {
      FactsOf(s, n, t);
      HasCoreUnlessNewborn(s, t);
      ResumeKeepsLoc(CoreOf(s, t));
    }
  }

  lemma HasCoreUnlessNewborn<K>(s: System<K>, t: Word)
    requires t in s.threads && ThreadOk(s, t)
    ensures HasCore(s, t) <==> !s.threads[t].phase.NeedsVm?
  {
  }

  lemma ResumeKeepsLoc(c: Cpu)
    ensures ViewOf(Resume(c)).loc == ViewOf(c).loc && ViewOf(Resume(c)).epc == ViewOf(c).epc
  {
  }

  /** Exactly once.  Along every run from the start, for every thread, the guest's system-call
      instructions and the host's entries into the kernel are equal in number, but for the one call
      that may be on its way. */
  lemma ExactlyOnce<K>(env: N.Env<K>, b: Boot<K>, ls: seq<Label>, s': System<K>, t: Word)
    requires BootOk(b) && Run(env, Start(b), ls) == Some(s')
    ensures Traps(env, Start(b), ls, t) == Entries(s'.log, t) + if InFlight(s', t) then 1 else 0
  {
    hide Run, Sim, NativeRun, Traps, NativeTraps, InFlight, N.Run;
    StartSim(b);
    var n' := Refines(env, b, ls, s');
    TrapsAreNative(env, Start(b), ls, s', NativeStart(b), t);
    NativeRunCounts(env, NativeStart(b), NativeRun(env, Start(b), ls), n', t);
    InFlightIsCalling(s', n', t);
  }

  // ---------- Where a thread goes on ----------

  predicate NoGuestOp(ls: seq<Label>, t: Word)
  {
    forall l | l in ls :: l.GuestOp? ==> l.t != t
  }

  lemma IdleStep<K>(env: N.Env<K>, n: N.System<K>, l: N.Label, n': N.System<K>, t: Word)
    requires N.Step(env, n, l) == Some(n') && l != N.Ordinary(t)
    requires t in n.threads && !n.threads[t].calling
    ensures t in n'.threads && n'.threads[t] == n.threads[t]
  {
    hide N.AfterCall, N.ChildAfterClone, Bit;
  }

  lemma {:induction false} IdleRun<K>(env: N.Env<K>, s: System<K>, ls: seq<Label>, s': System<K>, n: N.System<K>, t: Word)
    returns (n': N.System<K>)
    requires Sim(s, n) && Run(env, s, ls) == Some(s') && NoGuestOp(ls, t)
    requires t in n.threads && !n.threads[t].calling
    ensures Sim(s', n') && t in n'.threads && n'.threads[t] == n.threads[t]
    decreases |ls|
  {
    hide Sim, Apply, N.Step;
    if ls == [] {
      n' := n;
    } else {
      var front, last := ls[..|ls| - 1], ls[|ls| - 1];
      var mid := Run(env, s, front).value;
      assert forall l | l in front :: l in ls;
      var m := IdleRun(env, s, front, mid, n, t);
      n' := StepSim(env, mid, last, s', m);
      assert last in ls;
      if Answer(mid, last).Some? {
        IdleStep(env, m, Answer(mid, last).value, n', t);
      }
    }
  }

  /** However the run goes on, when thread `t` next executes guest code its core has the state of the
      native thread: no interrupt, refill, eviction or other thread can change it in between. */
  lemma GoesOnAsNative<K>(env: N.Env<K>, s: System<K>, ls: seq<Label>, s': System<K>, n: N.System<K>, t: Word)
    requires Sim(s, n) && Run(env, s, ls) == Some(s') && NoGuestOp(ls, t)
    requires t in n.threads && !n.threads[t].calling && InUser(s', t)
    ensures CoreOf(s', t).gpr == n.threads[t].gpr && CoreOf(s', t).loc == User(n.threads[t].pc)
  {
    hide Sim, Run, NoGuestOp, CoreOk;
    var n' := IdleRun(env, s, ls, s', n, t);
    CoreFacts(s', n', t, s'.threads[t].phase.v);
    ViewIsPlain(CoreOf(s', t));
  }

  // ---------- Behind a system call ----------

  /** After the host call, whatever happens on the way back through block, KVM entry and stub, the guest
      finds the kernel's result in a0, the next instruction at its pc and every register but $t0 as it
      was; `th` is the thread as it executed the call. */
  lemma CallReturns<K>(env: N.Env<K>, s: System<K>, t: Word, s1: System<K>, ls: seq<Label>, s': System<K>, n: N.System<K>)
    requires Sim(s, n) && Apply(env, s, HostCall(t)) == Some(s1)
    requires Run(env, s1, ls) == Some(s') && NoGuestOp(ls, t) && InUser(s', t)
    ensures t in n.threads && N.Live(n, t)
    ensures var th, c := n.threads[t], CoreOf(s', t);
            && c.loc == User(Add(th.pc, 4))
            && c.gpr[A0] == env.sys(t, th.gpr[A7], th.gpr[A0..A7], N.MemOf(n, t), n.kernel).0
            && SameBut(c.gpr, th.gpr)
  {
    hide Sim, Run, NoGuestOp, InUser, Apply;
    var n1 := StepSim(env, s, HostCall(t), s1, n);
    HostCallApplies(env, s, t, s1);
    NativeCallReturns(env, n, Answer(s, HostCall(t)).value, n1);
    GoesOnAsNative(env, s1, ls, s', n1, t);
  }

  lemma HostCallApplies<K>(env: N.Env<K>, s: System<K>, t: Word, s1: System<K>)
    requires Apply(env, s, HostCall(t)) == Some(s1)
    ensures HasCore(s, t)
  {
    HostCallHasCore(env, s, s1, t);
  }

  lemma NativeCallReturns<K>(env: N.Env<K>, n: N.System<K>, l: N.Label, n': N.System<K>)
    requires l.Call? && N.Step(env, n, l) == Some(n')
    ensures N.Live(n, l.t) && l.t in n'.threads && !n'.threads[l.t].calling
    ensures var th, back := n.threads[l.t], n'.threads[l.t];
            && back.pc == Add(th.pc, 4)
            && back.gpr[A0] == env.sys(l.t, th.gpr[A7], th.gpr[A0..A7], N.MemOf(n, l.t), n.kernel).0
            && SameBut(back.gpr, th.gpr)
  {
  }

  // ---------- Behind a clone ----------

  ghost predicate ChildSees(c: Cpu, th: N.Thread)
  {
    && c.loc == User(Add(th.pc, 4))
    && c.gpr[A0] == 0
    && c.gpr[SP] == (if th.gpr[5] != 0 then th.gpr[5] else th.gpr[SP])
    && c.gpr[TP] == (if Bit(th.gpr[4], N.CLONE_SETTLS_BIT) then th.gpr[8] else th.gpr[TP])
    && forall i | 0 <= i < 32 && i !in {A0, SP, TP, T0} :: c.gpr[i] == th.gpr[i]
  }

  ghost predicate ParentSees(c: Cpu, th: N.Thread, child: Word)
  {
    c.loc == User(Add(th.pc, 4)) && c.gpr[A0] == child && SameBut(c.gpr, th.gpr)
  }

  lemma NativeRefusalReturns<K>(env: N.Env<K>, n: N.System<K>, l: N.Label, n': N.System<K>)
    requires l.CloneFails? && N.Step(env, n, l) == Some(n')
    ensures l.t in n.threads && l.t in n'.threads && !n'.threads[l.t].calling
    ensures var th, back := n.threads[l.t], n'.threads[l.t];
            back.pc == Add(th.pc, 4) && back.gpr[A0] == TWO_64 - l.errno && SameBut(back.gpr, th.gpr)
  {
  }

  /** After a refused clone of the strategy that forwards the call, the guest finds the negated errno. */
  lemma RefusalReturns<K>(env: N.Env<K>, s: System<K>, t: Word, errno: Word, s1: System<K>, ls: seq<Label>, s': System<K>, n: N.System<K>)
    requires Sim(s, n) && Apply(env, s, ForkFails(t, errno)) == Some(s1) && N.IsErrno(errno)
    requires Run(env, s1, ls) == Some(s') && NoGuestOp(ls, t) && InUser(s', t)
    ensures t in n.threads
    ensures var th, c := n.threads[t], CoreOf(s', t);
            c.loc == User(Add(th.pc, 4)) && c.gpr[A0] == TWO_64 - errno && SameBut(c.gpr, th.gpr)
  {
    hide Sim, Run, NoGuestOp, InUser, Apply;
    var n1 := StepSim(env, s, ForkFails(t, errno), s1, n);
    RefusalApplies(env, s, t, errno, s1);
    NativeRefusalReturns(env, n, Answer(s, ForkFails(t, errno)).value, n1);
    GoesOnAsNative(env, s1, ls, s', n1, t);
  }

  lemma RefusalApplies<K>(env: N.Env<K>, s: System<K>, t: Word, errno: Word, s1: System<K>)
    requires Apply(env, s, ForkFails(t, errno)) == Some(s1)
    ensures HasCore(s, t)
  {
    hide DoForkFails;
    ForkFailsHasCore(s, s1, t, errno);
  }

  predicate Clones(l: Label)
  {
    l.CloneThread? || l.ForkProcess?
  }

  /** When child or parent is in user mode, it sees what it should. */
  ghost predicate ChildResumes<K>(s: System<K>, child: Word, th: N.Thread)
  {
    InUser(s, child) ==> ChildSees(CoreOf(s, child), th)
  }

  ghost predicate ParentResumes<K>(s: System<K>, t: Word, th: N.Thread, child: Word)
  {
    InUser(s, t) ==> ParentSees(CoreOf(s, t), th, child)
  }

  /** After a clone, whichever of parent and child runs first and whatever strategy was taken: the
      child's first guest instruction is executed with the state the arguments ask for, the parent's
      with the child's number.  `th` is the parent as it executed the call. */
  lemma CloneReturns<K>(env: N.Env<K>, s: System<K>, l: Label, s1: System<K>, ls: seq<Label>, s': System<K>, n: N.System<K>)
    requires Clones(l) && Sim(s, n) && Apply(env, s, l) == Some(s1) && Run(env, s1, ls) == Some(s')
    ensures l.t in n.threads
    ensures NoGuestOp(ls, l.child) ==> ChildResumes(s', l.child, n.threads[l.t])
    ensures NoGuestOp(ls, l.t) ==> ParentResumes(s', l.t, n.threads[l.t], l.child)
  {
    hide Sim, Run, NoGuestOp, InUser, Apply;
    var n1 := StepSim(env, s, l, s1, n);
    CloneApplies(env, s, l, s1);
    NativeCloneReturns(env, n, Answer(s, l).value, n1);
    if NoGuestOp(ls, l.child) && InUser(s', l.child) {
      GoesOnAsNative(env, s1, ls, s', n1, l.child);
    }
    if NoGuestOp(ls, l.t) && InUser(s', l.t) {
      GoesOnAsNative(env, s1, ls, s', n1, l.t);
    }
  }

  lemma CloneApplies<K>(env: N.Env<K>, s: System<K>, l: Label, s1: System<K>)
    requires Clones(l) && Apply(env, s, l) == Some(s1)
    ensures HasCore(s, l.t)
  {
    hide DoCloneThread, DoForkProcess;
    CloneHasCore(env, s, s1, l.t, l.child, if l.ForkProcess? then l.space else 0);
  }

  lemma NativeCloneReturns<K>(env: N.Env<K>, n: N.System<K>, l: N.Label, n': N.System<K>)
    requires l.Clone? && N.Step(env, n, l) == Some(n')
    ensures l.t in n.threads && l.t in n'.threads && l.child in n'.threads && l.child != l.t
    ensures !n'.threads[l.t].calling && !n'.threads[l.child].calling
    ensures var th, back, born := n.threads[l.t], n'.threads[l.t], n'.threads[l.child];
            && back.pc == Add(th.pc, 4) && back.gpr[A0] == l.child && SameBut(back.gpr, th.gpr)
            && forall c: Cpu :: c.gpr == born.gpr && c.loc == User(born.pc) ==> ChildSees(c, th)
  {
    hide Bit;
  }
}
