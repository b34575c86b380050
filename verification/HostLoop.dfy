/** The host side of dune as the code it is: the loop around KVM_RUN, the forwarding of a system call, and
    the functions that set up a child, on the objects of the pool.

    What KVM_RUN and the host's system calls do is not computed here: each KVM_RUN is given by how it
    returned and what the guest left in the parameters, together with the kernel's answer to the call
    that follows. */
module HostLoop {
  import opened Words
  import opened Trampoline
  import opened Dune
  import opened VcpuPool
  import N = Native

  /** A system call that the host thread issued. */
  datatype Request = Request(nr: Word, args: seq<Word>)

  class Host {
    var calls: seq<Request>

    constructor ()
      ensures calls == []
    {
      calls := [];
    }
  }

  // ---------- One system call ----------

  /** `arch_do_syscall`. */
  method DoSyscall(cpu: KvmCpu, isFork: bool, host: Host, answer: Word) returns (inChild: bool)
    requires cpu.parameters.Length == PARAMETERS
    modifies cpu.parameters, host
    ensures host.calls == old(host.calls) + [Request(old(cpu.parameters[7]), old(cpu.parameters[..7]))]
    ensures inChild <==> isFork && answer == 0
    ensures cpu.parameters[..] == if inChild then old(cpu.parameters[..]) else old(cpu.parameters[..])[0 := answer]
  {
    host.calls := host.calls + [Request(cpu.parameters[7], cpu.parameters[..7])];
    var a0 := answer;
    if isFork && a0 == 0 {
      return true;
    }
    cpu.parameters[0] := a0;
    return false;
  }

  // ---------- The loop ----------

  /** How KVM_RUN returned, the parameters as the guest left them, and what the kernel will answer. */
  datatype RunExit = RunExit(reason: Reason, parameters: seq<Word>, answer: Word)

  datatype Reason = ExitIntr | ExitHypercall | ExitOther

  datatype Ending =
    | OutOfRuns   // nothing more to look at
    | Died        // `die` was called
    | Finished    // the exit call does not return
    | Forking     // `emulate_fork` is next

  predicate WellFormed(runs: seq<RunExit>)
  {
    forall r | r in runs :: |r.parameters| == PARAMETERS
  }

  predicate Forwarded(nr: Word)
  {
    nr !in {SYS_KEXEC_LOAD, N.SYS_EXIT, N.SYS_CLONE, SYS_FORK}
  }

  /** The loop goes on behind this exit. */
  predicate Passes(r: RunExit)
    requires |r.parameters| == PARAMETERS
  {
    r.reason.ExitIntr? || (r.reason.ExitHypercall? && Forwarded(r.parameters[7]))
  }

  /** The run whose exit ends the loop, or their number. */
  function Last(runs: seq<RunExit>): (i: nat)
    requires WellFormed(runs)
    ensures i <= |runs|
  {
    if runs == [] || !Passes(runs[0]) then 0
    else 1 + Last(runs[1..])
  }

  /** What the parameter block holds when KVM_RUN is entered again. */
  function Replied(r: RunExit): seq<Word>
    requires |r.parameters| == PARAMETERS
  {
    if r.reason.ExitHypercall? then r.parameters[0 := r.answer] else r.parameters
  }

  /** The guest runs and leaves its parameters. */
  method KvmRun(vcpu: KvmCpu, r: RunExit)
    requires vcpu.parameters.Length == PARAMETERS == |r.parameters|
    modifies vcpu.parameters
    ensures vcpu.parameters[..] == r.parameters
  {
    forall k | 0 <= k < PARAMETERS {
      vcpu.parameters[k] := r.parameters[k];
    }
  }

  /** The core is in its slot of its VM's pool, and the slot is claimed. */
  ghost predicate InUse(vcpu: KvmCpu)
    reads vcpu`vm, vcpu`cpuId, vcpu.vm, if vcpu.vm == null then {} else {vcpu.vm.valid, vcpu.vm.vcpus}
    reads if vcpu.vm == null then {} else vcpu.vm.Cpus()
  {
    && vcpu.vm != null && vcpu.vm.Valid() && vcpu in vcpu.vm.vcpus[..]
    && vcpu.cpuId < vcpu.vm.valid.Length && vcpu.vm.valid[vcpu.cpuId]
  }

  /** The exit of a thread: its slot is given back first. */
  method Exit(vcpu: KvmCpu, host: Host)
    requires vcpu.parameters.Length == PARAMETERS
    requires InUse(vcpu)
    modifies vcpu.vm.valid, host
    ensures vcpu.vm.Valid() && vcpu.vm.valid[..] == old(vcpu.vm.valid[..])[vcpu.cpuId := false]
    ensures host.calls == old(host.calls) + [Request(vcpu.parameters[7], vcpu.parameters[..7])]
  {
    vcpu.vm.Free(vcpu);
    host.calls := host.calls + [Request(vcpu.parameters[7], vcpu.parameters[..7])];
  }

  /** How the loop ends at an exit that it does not pass. */
  function EndingOf(r: RunExit): (e: Ending)
    requires |r.parameters| == PARAMETERS
  {
    if !r.reason.ExitHypercall? || r.parameters[7] == SYS_KEXEC_LOAD then Died
    else if r.parameters[7] == N.SYS_EXIT then Finished
    else Forking
  }

  /** What one exit has the host ask for: nothing for an interrupt, a refusal or a clone. */
  function RequestOf(r: RunExit): seq<Request>
    requires |r.parameters| == PARAMETERS
  {
    if r.reason.ExitHypercall? && (Forwarded(r.parameters[7]) || r.parameters[7] == N.SYS_EXIT)
    then [Request(r.parameters[7], r.parameters[..7])] else []
  }

  /** What a whole sequence of exits has the host ask for. */
  function Requests(runs: seq<RunExit>): seq<Request>
    requires WellFormed(runs)
  {
    if runs == [] then [] else Requests(runs[..|runs| - 1]) + RequestOf(runs[|runs| - 1])
  }

  /** What the host is asked for up to and with the exit that ends the loop. */
  function Issued(runs: seq<RunExit>): seq<Request>
    requires WellFormed(runs)
  {
    var k := Last(runs);
    Requests(if k < |runs| then runs[..k + 1] else runs)
  }

  function Outcome(runs: seq<RunExit>): Ending
    requires WellFormed(runs)
  {
    var k := Last(runs);
    if k == |runs| then OutOfRuns else EndingOf(runs[k])
  }

  /** What the block holds in the end, `before` being what it held at first. */
  function LeftIn(runs: seq<RunExit>, before: seq<Word>): seq<Word>
    requires WellFormed(runs)
  {
    var k := Last(runs);
    if k < |runs| then runs[k].parameters
    else if k > 0 then Replied(runs[k - 1])
    else before
  }

  lemma {:induction false} NextLast(runs: seq<RunExit>, i: nat)
    requires WellFormed(runs) && i < |runs| && Last(runs[..i]) == i
    ensures if Passes(runs[i]) then Last(runs[..i + 1]) == i + 1 else Last(runs) == i
  {
    hide Passes;
    if i > 0 {
      assert runs[..i][1..] == runs[1..][..i - 1] && runs[..i + 1][1..] == runs[1..][..i];
      NextLast(runs[1..], i - 1);
    }
  }

  // ---------- What the functions above say of a sequence of exits ----------

  /** A hypercall that the host is asked to serve, an exit included; clone is left to `emulate_fork`. */
  predicate Asks(r: RunExit)
    requires |r.parameters| == PARAMETERS
  {
    r.reason.ExitHypercall? && r.parameters[7] !in {SYS_KEXEC_LOAD, N.SYS_CLONE, SYS_FORK}
  }

  /** The hypercalls among the exits, at `js`, and what was asked for at each. */
  ghost predicate AsksAt(runs: seq<RunExit>, js: seq<nat>, calls: seq<Request>)
    requires WellFormed(runs)
  {
    && |js| == |calls|
    && (forall i | 0 <= i < |js| ::
          && js[i] < |runs| && runs[js[i]].reason.ExitHypercall?
          && calls[i] == Request(runs[js[i]].parameters[7], runs[js[i]].parameters[..7]))
    && (forall i, j | 0 <= i < j < |js| :: js[i] < js[j])
    && (forall j: nat | j < |runs| :: j in js <==> Asks(runs[j]))
  }

  lemma AsksOneMore(runs: seq<RunExit>, js: seq<nat>, calls: seq<Request>)
    requires WellFormed(runs) && runs != [] && AsksAt(runs[..|runs| - 1], js, calls)
    ensures var k := |runs| - 1;
            if Asks(runs[k]) then AsksAt(runs, js + [k], calls + [Request(runs[k].parameters[7], runs[k].parameters[..7])])
            else AsksAt(runs, js, calls)
  {
    var front, k := runs[..|runs| - 1], |runs| - 1;
    hide Asks;
    assert forall j: nat | j < k :: front[j] == runs[j];
    assert forall i | 0 <= i < |js| :: js[i] in js && js[i] < k;
  }

  lemma RequestIfAsked(r: RunExit)
    requires |r.parameters| == PARAMETERS
    ensures RequestOf(r) == if Asks(r) then [Request(r.parameters[7], r.parameters[..7])] else []
  {
  }

  lemma NextRequest(runs: seq<RunExit>)
    requires WellFormed(runs) && runs != []
    ensures Requests(runs) == Requests(runs[..|runs| - 1]) + RequestOf(runs[|runs| - 1])
  {
    hide RequestOf;
  }

  lemma {:induction false} RequestsAsk(runs: seq<RunExit>) returns (js: seq<nat>)
    requires WellFormed(runs)
    ensures AsksAt(runs, js, Requests(runs))
  {
    js := [];
    if runs != [] {
      hide AsksAt, Asks, RequestOf, Requests;
      var k := |runs| - 1;
      js := RequestsAsk(runs[..k]);
      AsksOneMore(runs, js, Requests(runs[..k]));
      NextRequest(runs);
      RequestIfAsked(runs[k]);
      if Asks(runs[k]) {
        js := js + [k];
      }
    }
  }

  /** The loop passes interrupts and forwarded hypercalls, and stops at the first other exit: it dies at
      anything that is no hypercall and at kexec_load, ends at exit, and leaves clone to `emulate_fork`. */
  lemma {:induction false} StopsAtFirst(runs: seq<RunExit>, i: nat)
    requires WellFormed(runs)
    ensures i < Last(runs) ==>
              || runs[i].reason.ExitIntr?
              || (runs[i].reason.ExitHypercall? && runs[i].parameters[7] !in {SYS_KEXEC_LOAD, N.SYS_EXIT, N.SYS_CLONE, SYS_FORK})
    ensures i == Last(runs) < |runs| ==>
              match runs[i].reason
              case ExitIntr => false
              case ExitOther => Outcome(runs) == Died
              case ExitHypercall =>
                var nr := runs[i].parameters[7];
                Outcome(runs) == if nr == SYS_KEXEC_LOAD then Died else if nr == N.SYS_EXIT then Finished else Forking
    ensures Outcome(runs) == OutOfRuns <==> Last(runs) == |runs|
  {
    if runs != [] && Passes(runs[0]) && i > 0 {
      StopsAtFirst(runs[1..], i - 1);
    }
  }

  /** The requests of the loop are, in order and once each, those of the hypercalls up to its end; an
      interrupt has none, and what it leaves in the block is what it found there. */
  lemma LoopAsks(runs: seq<RunExit>, before: seq<Word>) returns (js: seq<nat>)
    requires WellFormed(runs)
    ensures var k := Last(runs);
            && AsksAt(if k < |runs| then runs[..k + 1] else runs, js, Issued(runs))
            && (k == |runs| > 0 ==>
                  LeftIn(runs, before)
                  == if runs[k - 1].reason.ExitIntr? then runs[k - 1].parameters
                     else runs[k - 1].parameters[0 := runs[k - 1].answer])
  {
    var k := Last(runs);
    js := RequestsAsk(if k < |runs| then runs[..k + 1] else runs);
    if k == |runs| > 0 {
      StopsAtFirst(runs, k - 1);
    }
  }

  /** One exit more. */
  lemma NextExit(runs: seq<RunExit>, i: nat, before: seq<Word>)
    requires WellFormed(runs) && i < |runs| && Last(runs[..i]) == i
    ensures Passes(runs[i]) ==>
              && Last(runs[..i + 1]) == i + 1 && LeftIn(runs[..i + 1], before) == Replied(runs[i])
              && Issued(runs[..i + 1]) == Issued(runs[..i]) + RequestOf(runs[i])
    ensures !Passes(runs[i]) ==>
              && Outcome(runs) == EndingOf(runs[i]) && LeftIn(runs, before) == runs[i].parameters
              && Issued(runs) == Issued(runs[..i]) + RequestOf(runs[i])
  {
    hide EndingOf, RequestOf, Replied, Passes, Last;
    NextLast(runs, i);
    assert runs[..i + 1][..i] == runs[..i];
  }

  /** One turn of the loop; None to go on. */
  method Turn(vcpu: KvmCpu, host: Host, r: RunExit) returns (ending: Option<Ending>)
    requires vcpu.parameters.Length == PARAMETERS == |r.parameters|
    requires InUse(vcpu)
    modifies vcpu.parameters, host, vcpu.vm.valid
    ensures vcpu.vm.Valid() && (ending == None ==> InUse(vcpu))
    ensures ending == if Passes(r) then None else Some(EndingOf(r))
    ensures vcpu.parameters[..] == if Passes(r) then Replied(r) else r.parameters
    ensures host.calls == old(host.calls) + RequestOf(r)
    ensures ending == Some(Finished) ==> vcpu.vm.valid[..] == old(vcpu.vm.valid[..])[vcpu.cpuId := false]
    ensures ending != Some(Finished) ==> vcpu.vm.valid[..] == old(vcpu.vm.valid[..])
    ensures r.reason.ExitOther? ==> ending == Some(Died) && host.calls == old(host.calls)
    ensures r.reason.ExitIntr? ==>
              ending == None && host.calls == old(host.calls) && vcpu.parameters[..] == r.parameters
    ensures r.reason.ExitHypercall? && r.parameters[7] !in {SYS_KEXEC_LOAD, N.SYS_EXIT, N.SYS_CLONE, SYS_FORK} ==>
              && ending == None && vcpu.parameters[..] == r.parameters[0 := r.answer]
              && host.calls == old(host.calls) + [Request(r.parameters[7], r.parameters[..7])]
    ensures r.reason.ExitHypercall? && r.parameters[7] == N.SYS_EXIT ==>
              ending == Some(Finished) && host.calls == old(host.calls) + [Request(N.SYS_EXIT, r.parameters[..7])]
    ensures r.reason.ExitHypercall? && r.parameters[7] in {SYS_KEXEC_LOAD, N.SYS_CLONE, SYS_FORK} ==>
              && ending == Some(if r.parameters[7] == SYS_KEXEC_LOAD then Died else Forking)
              && host.calls == old(host.calls) && vcpu.parameters[..] == r.parameters
  {
    KvmRun(vcpu, r);
    var sysno := vcpu.parameters[7];
    if r.reason.ExitIntr? {
      return None;
    }
    if !r.reason.ExitHypercall? || sysno == SYS_KEXEC_LOAD {
      return Some(Died);
    }
    if sysno == SYS_FORK || sysno == N.SYS_CLONE {
      return Some(Forking);
    }
    if sysno == N.SYS_EXIT {
      Exit(vcpu, host);
      return Some(Finished);
    }
    var inChild := DoSyscall(vcpu, false, host, r.answer);
    return None;
  }

  /** `host_loop`, over the exits of any number of KVM_RUNs.  Every hypercall is forwarded once, with the
      number and the arguments the guest left, and its answer is in the block before the guest runs
      again; interrupts forward nothing.  The loop ends at the first exit that it does not pass. */
  method Loop(vcpu: KvmCpu, host: Host, runs: seq<RunExit>) returns (ending: Ending)
    requires vcpu.parameters.Length == PARAMETERS && WellFormed(runs)
    requires InUse(vcpu)
    modifies vcpu.parameters, host, vcpu.vm.valid
    ensures vcpu.vm.Valid()
    ensures ending == Outcome(runs) && host.calls == old(host.calls) + Issued(runs)
    ensures vcpu.parameters[..] == LeftIn(runs, old(vcpu.parameters[..]))
    ensures ending.Finished? ==> vcpu.vm.valid[..] == old(vcpu.vm.valid[..])[vcpu.cpuId := false]
    ensures !ending.Finished? ==> vcpu.vm.valid[..] == old(vcpu.vm.valid[..])
  {
    hide EndingOf, RequestOf, Replied, Passes, KvmVm.Valid;
    ghost var block := vcpu.parameters[..];
    var i := 0;
    while i < |runs|
      invariant i <= |runs| && Last(runs[..i]) == i
      invariant host.calls == old(host.calls) + Issued(runs[..i])
      invariant vcpu.parameters[..] == LeftIn(runs[..i], block)
      invariant InUse(vcpu) && vcpu.vm.valid[..] == old(vcpu.vm.valid[..])
    {
      NextExit(runs, i, block);
      hide Last, LeftIn, Issued, Outcome, WellFormed;
      var e := Turn(vcpu, host, runs[i]);
      if e.Some? {
        return e.value;
      }
      i := i + 1;
    }
    assert runs[..i] == runs;
    return OutOfRuns;
  }
}
