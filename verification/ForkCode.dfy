/** The host code that emulates clone: the child's registers edited in a copy of its parent's, the record
    that sends a child into its host loop on a stack of its own, the three strategies, and what becomes of
    the kernel's answer. */
module ForkCode {
  import opened Words
  import opened Paging
  import opened LoongArch
  import opened Trampoline
  import opened Clone
  import opened Slots
  import opened VcpuPool
  import opened HostLoop
  import N = Native

  // ---------- The child's registers ----------

  /** `init_child_thread_info`: false where `init_csr` dies.  Whatever the child's core was used for
      before, it ends up as `InitChild` says, from the parent's registers as they were fetched and its
      parameters as they are now. */
  method InitChildThreadInfo(child: KvmCpu, parent: KvmCpu) returns (ok: bool)
    requires child != parent && parent.parameters.Length == PARAMETERS
    modifies child`info, child`kernel
    ensures ok <==> parent.info.ebase != 0
    ensures child.info.ebase == parent.info.ebase
    ensures ok ==> child.kernel == InitChild(old(child.kernel), parent.info, parent.parameters[..], child.block)
  {
    child.info := child.info.(ebase := parent.info.ebase);
    var regs := new Word[32](i requires 0 <= i < 32 reads parent => parent.info.regs[i]);
    regs[A0] := 0;
    child.kernel := child.kernel.(ret := regs[A0]);
    if Bit(parent.parameters[0], N.CLONE_SETTLS_BIT) {
      regs[TP] := parent.parameters[4];
    }
    if parent.parameters[1] != 0 {
      regs[SP] := parent.parameters[1];
    }
    var pc := Add(parent.info.era, 4);
    child.kernel := child.kernel.(gpr := regs[..], loc := User(pc));
    assert regs[..] == ChildRegs(parent.info.regs, parent.parameters[..]);
    if child.info.ebase == 0 {
      return false;
    }
    child.kernel := child.kernel.(csr := InitCsrs(child.kernel.csr, child.block, child.info.ebase));
    return true;
  }

  /** `kvm_get_parent_thread_info`. */
  method GetParentThreadInfo(cpu: KvmCpu)
    modifies cpu`info
    ensures cpu.info == ThreadInfo(cpu.kernel.gpr, cpu.kernel.csr.epc, old(cpu.info.ebase))
  {
    cpu.info := cpu.info.(regs := cpu.kernel.gpr);
    cpu.info := cpu.info.(era := cpu.kernel.csr.epc);
  }

  /** `arch_get_clone_type`. */
  method GetCloneType(cpu: KvmCpu) returns (k: CloneType)
    requires cpu.parameters.Length == PARAMETERS
    ensures k == CloneTypeOf(cpu.parameters[..])
  {
    if Bit(cpu.parameters[0], N.CLONE_VM_BIT) {
      return SameVm;
    }
    if cpu.parameters[1] != 0 {
      return DiffVmNewStack;
    }
    return DiffVmOldStack;
  }

  // ---------- The stack record ----------

  const RECORD: int := 24

  /** `struct child_stack_para`. */
  datatype Record = Record(entry: Word, para0: Word, para1: Word)

  /** The top of a child's stack, below which its first frame grows. */
  function RecordAddress(page: Word): Word { Add(Add(page, PAGESIZE), TWO_64 - RECORD) }

  /** Writes the record on a fresh page, given as its words.  `para1` is left as the page has it when the
      entry takes one argument. */
  method PushRecord(page: Word, words: array<Word>, entry: Word, para0: Word, para1: Option<Word>) returns (sp: Word)
    requires words.Length == PAGESIZE / 8 && page + PAGESIZE <= TWO_64
    modifies words
    ensures sp == RecordAddress(page)
    ensures ReadRecord(page, words[..], sp)
            == Some(Record(entry, para0, if para1.Some? then para1.value else old(words[words.Length - 1])))
    ensures var n := words.Length;
            && words[n - 3] == entry && words[n - 2] == para0
            && words[n - 1] == if para1.Some? then para1.value else old(words[n - 1])
    ensures forall i | 0 <= i < words.Length - 3 :: words[i] == old(words[i])
  {
    sp := Add(page, PAGESIZE);
    sp := Add(sp, TWO_64 - RECORD);
    var at := (sp - page) / 8;
    words[at] := entry;
    words[at + 1] := para0;
    if para1.Some? {
      words[at + 2] := para1.value;
    }
  }

  /** What the three loads of `__do_simulate_clone` in the child find; None if one leaves the page. */
  function ReadRecord(page: Word, words: seq<Word>, sp: Word): Option<Record>
    requires |words| == PAGESIZE / 8
  {
    var offset := sp - page;
    if offset >= 0 && offset % 8 == 0 && offset + RECORD <= PAGESIZE then
      Some(Record(words[offset / 8], words[offset / 8 + 1], words[offset / 8 + 2]))
    else None
  }

  /** The record fills exactly the last 24 bytes of the page. */
  lemma RecordFitsPage(page: Word)
    requires page + PAGESIZE <= TWO_64
    ensures page <= RecordAddress(page) && RecordAddress(page) + RECORD == page + PAGESIZE
  {
  }

  /** Where the assembly goes on after the clone, and with which arguments. */
  datatype Continuation = Returns(ra: Word, result: Word, sp: Word) | Enters(entry: Word, a0: Word, a1: Word, sp: Word)

  const RA := 1

  /** `__do_simulate_clone` behind its `syscall`, on the registers the kernel left. */
  function Continues(g: Regs, page: Word, words: seq<Word>): Option<Continuation>
    requires |words| == PAGESIZE / 8
  {
    if g[A0] != 0 then Some(Returns(g[RA], g[A0], g[SP])) else
      match ReadRecord(page, words, g[SP])
      case Some(r) => Some(Enters(r.entry, r.para0, r.para1, g[SP]))
      case None => None
  }

  /** The clone system call that `__do_simulate_clone` makes from registers `g`, whose a1 is the address of
      a record: the child enters the recorded function with the recorded arguments, on its own page; the
      parent returns to its caller with the child's number, on the stack it had. */
  lemma ChildEntersRecord(g: Regs, page: Word, words: seq<Word>, r: Record, child: Word, t0: Word, t0': Word)
    requires page + PAGESIZE <= TWO_64 && page > 0 && child != 0
    requires |words| == PAGESIZE / 8 && ReadRecord(page, words, RecordAddress(page)) == Some(r)
    requires g[5] == RecordAddress(page)
    ensures Continues(N.ChildAfterClone(g, g[4], g[5], g[8], t0), page, words)
            == Some(Enters(r.entry, r.para0, r.para1, RecordAddress(page)))
    ensures Continues(N.AfterCall(g, child, t0'), page, words) == Some(Returns(g[RA], child, g[SP]))
  {
    RecordFitsPage(page);
    hide Bit;
  }

  // ---------- The kernel's answer ----------

  /** `do_simulate_clone` in the parent: `answer` is the host's, a child number or a negated errno. */
  method SimulateClone(parent: KvmCpu, stack: Word, host: Host, answer: int)
    requires parent.parameters.Length == PARAMETERS && -4095 <= answer < TWO_64 / 2
    modifies parent.parameters, host
    ensures var p := old(parent.parameters[..]);
            && host.calls == old(host.calls) + [Request(N.SYS_CLONE, [p[0], stack, p[2], p[3], p[4]])]
            && parent.parameters[..] == p[0 := if answer >= 0 then answer else -answer]
  {
    var arg0, arg2 := parent.parameters[0], parent.parameters[2];
    var arg3, arg4 := parent.parameters[3], parent.parameters[4];
    host.calls := host.calls + [Request(N.SYS_CLONE, [arg0, stack, arg2, arg3, arg4])];
    if answer > 0 {
      parent.parameters[0] := answer;
    } else {
      parent.parameters[0] := -answer;
    }
  }

  /** The signed result of a system call as the word in a0. */
  function AsWord(r: int): Word
    requires -4095 <= r < TWO_64 / 2
  {
    r % TWO_64
  }

  /** What the guest finds in a0 behind its clone, in the two strategies that use `do_simulate_clone` and
      in the one that forwards the call as it is. */
  function CloneResult(k: CloneType, answer: int): Word
    requires -4095 <= answer < TWO_64 / 2
  {
    if k.DiffVmOldStack? then AsWord(answer) else if answer >= 0 then answer else -answer
  }

  /** The guest sees the native result exactly when the clone succeeded or its own stack was used: a
      failed clone otherwise shows up as a positive number. */
  lemma CloneResultIsNativeIff(k: CloneType, answer: int)
    requires -4095 <= answer < TWO_64 / 2
    ensures CloneResult(k, answer) == AsWord(answer) <==> answer >= 0 || k.DiffVmOldStack?
  {
    if answer < 0 {
      assert AsWord(answer) == TWO_64 + answer;
    }
  }

  /** EAGAIN, for example, reads as process number 11. */
  lemma FailedCloneLooksLikeAChild()
    ensures CloneResult(SameVm, -11) == 11 && AsWord(-11) == 0xffff_ffff_ffff_fff5
  {
    assert AsWord(-11) == TWO_64 - 11;
  }

  // ---------- The strategies ----------

  /** The address of an object or a function, as far as the record needs one. */
  datatype Addresses = Addresses(hostLoop: Word, forkChildEntry: Word, child: Word, parent: Word)

  /** `emulate_fork_same_vm`: None where it dies.  The child's core is armed from the arguments the guest
      passed, before the parent's first parameter is overwritten with the answer; the record on the page
      sends the new host thread into its host loop with that core. */
  method EmulateSameVm(parent: KvmCpu, vm: KvmVm, host: Host, at: Word, page: Word, words: array<Word>, where: Addresses, answer: int)
    returns (child: Option<KvmCpu>)
    requires vm.Valid() && parent in vm.vcpus[..] && vm.valid[parent.cpuId]
    requires parent.parameters.Length == PARAMETERS && parent.info.ebase != 0
    requires words.Length == PAGESIZE / 8 && page + PAGESIZE <= TWO_64 && words != parent.parameters
    requires -4095 <= answer < TWO_64 / 2
    modifies vm, vm.valid, vm.vcpus, vm.Cpus(), parent.parameters, host, words
    ensures child == None <==> FirstFree(old(vm.valid[..])) == KVM_MAX_VCPUS
    ensures child == None ==>
              host.calls == old(host.calls) && vm.valid[..] == old(vm.valid[..]) && parent.parameters[..] == old(parent.parameters[..])
    ensures vm.Valid() && parent.info == old(parent.info) && parent.kernel == old(parent.kernel)
    ensures child.Some? ==>
              var c, p, f := child.value, old(parent.parameters[..]), FirstFree(old(vm.valid[..]));
              var left := if old(vm.vcpus[..])[f] == null then NewCpu() else old(vm.vcpus[..][f].kernel);
              && vm.valid[..] == old(vm.valid[..])[f := true] && c != parent
              && vm.vcpus[..] == old(vm.vcpus[..])[f := c] && c.cpuId == f && c.vm == vm && InUse(c)
              && c.kernel == InitChild(left, parent.info, p, c.block)
              && ReadRecord(page, words[..], RecordAddress(page))
                 == Some(Record(where.hostLoop, where.child, old(words[words.Length - 1])))
              && host.calls == old(host.calls) + [Request(N.SYS_CLONE, [p[0], RecordAddress(page), p[2], p[3], p[4]])]
              && parent.parameters[..] == p[0 := CloneResult(SameVm, answer)]
  {
    hide InitChild, ReadRecord, RecordAddress, FirstFree;
    child := vm.Alloc(at);
    if child == None {
      return;
    }
    var c := child.value;
    assert c != parent && c.vm == vm;
    assert InUse(c) by { assert c in vm.vcpus[..]; }
    hide InUse, KvmVm.Valid;
    var ok := InitChildThreadInfo(c, parent);
    var sp := PushRecord(page, words, where.hostLoop, where.child, None);
    SimulateClone(parent, sp, host, answer);
  }

  /** `emulate_fork_diff_vm_new_stack`: the child builds its VM itself, from its copy of the parent. */
  method EmulateNewStack(parent: KvmCpu, host: Host, page: Word, words: array<Word>, where: Addresses, answer: int)
    requires parent.parameters.Length == PARAMETERS
    requires words.Length == PAGESIZE / 8 && page + PAGESIZE <= TWO_64 && words != parent.parameters
    requires -4095 <= answer < TWO_64 / 2
    modifies parent.parameters, host, words
    ensures var p := old(parent.parameters[..]);
            && ReadRecord(page, words[..], RecordAddress(page))
               == Some(Record(where.forkChildEntry, where.parent, N.SYS_CLONE))
            && host.calls == old(host.calls) + [Request(N.SYS_CLONE, [p[0], RecordAddress(page), p[2], p[3], p[4]])]
            && parent.parameters[..] == p[0 := CloneResult(DiffVmNewStack, answer)]
  {
    var sp := PushRecord(page, words, where.forkChildEntry, where.parent, Some(N.SYS_CLONE));
    SimulateClone(parent, sp, host, answer);
  }

  /** `dup_vm`, in the child of either of the two strategies without CLONE_VM: a pool of its own whose
      first core is armed from the copied parent; the parent's copy is only read. */
  method DupVm(parent: KvmCpu, at: Word) returns (child: KvmCpu)
    requires parent.parameters.Length == PARAMETERS && parent.info.ebase != 0
    ensures fresh(child) && child.vm != null && fresh(child.vm) && child.vm.Valid()
    ensures child.cpuId == 0 && child.vm.created == [0] && child.block == at && InUse(child)
    ensures child.vm.valid[..] == ([true] + seq(KVM_MAX_VCPUS - 1, i => false))
    ensures child.kernel == InitChild(NewCpu(), parent.info, parent.parameters[..], at)
    ensures child.info.ebase == parent.info.ebase
  {
    var vm := new KvmVm();
    FirstFreeIs(vm.valid[..], 0);
    var c := vm.Alloc(at);
    child := c.value;
    var ok := InitChildThreadInfo(child, parent);
  }

  /** `emulate_fork_diff_vm_old_stack`, in the process that gets `answer`: the parent goes on with its own
      core, the child with the one of a VM of its own, its parent's arguments being as they were. */
  method EmulateOldStack(parent: KvmCpu, host: Host, at: Word, answer: Word) returns (child: Option<KvmCpu>)
    requires parent.parameters.Length == PARAMETERS && parent.info.ebase != 0
    modifies parent.parameters, host
    ensures host.calls == old(host.calls) + [Request(old(parent.parameters[7]), old(parent.parameters[..7]))]
    ensures child.Some? <==> answer == 0
    ensures parent.parameters[..] == if answer == 0 then old(parent.parameters[..]) else old(parent.parameters[..])[0 := answer]
    ensures child.Some? ==>
              var c := child.value;
              && c.kernel == InitChild(NewCpu(), parent.info, old(parent.parameters[..]), at) && c.block == at
              && fresh(c) && InUse(c) && fresh(c.vm) && c.cpuId == 0
              && c.vm.valid[..] == [true] + seq(KVM_MAX_VCPUS - 1, i => false)
  {
    var inChild := DoSyscall(parent, true, host, answer);
    if inChild {
      var c := DupVm(parent, at);
      return Some(c);
    }
    return None;
  }

  datatype Outcome = OutOfSlots | Parent | Child(cpu: KvmCpu)

  /** `kvm_get_parent_thread_info` and `emulate_fork`, as the host loop calls them for a clone, in the process
      that gets `answer`.  Into the same VM: the first free slot's core is armed from the original arguments,
      the record on the fresh page sends the child into its host loop, and the host clone is given that page
      as its stack.  With a stack of its own: the record sends the child to build a VM.  Else the call is
      forwarded as it is. */
  method EmulateFork(parent: KvmCpu, vm: KvmVm, host: Host, at: Word, page: Word, words: array<Word>, where: Addresses, answer: int)
    returns (outcome: Outcome)
    requires vm.Valid() && parent in vm.vcpus[..] && vm.valid[parent.cpuId]
    requires parent.parameters.Length == PARAMETERS && parent.info.ebase != 0 && parent.parameters[7] == N.SYS_CLONE
    requires words.Length == PAGESIZE / 8 && page + PAGESIZE <= TWO_64 && words != parent.parameters
    requires -4095 <= answer < TWO_64 / 2
    modifies vm, vm.valid, vm.vcpus, vm.Cpus(), parent, parent.parameters, host, words
    ensures var p := old(parent.parameters[..]);
            var info := ThreadInfo(old(parent.kernel).gpr, old(parent.kernel).csr.epc, old(parent.info).ebase);
            var sameVm, ownStack := Bit(p[0], N.CLONE_VM_BIT), p[1] != 0;
            var handed := [p[0], RecordAddress(page), p[2], p[3], p[4]];
            var f := FirstFree(old(vm.valid[..]));
            && (outcome.OutOfSlots? <==> sameVm && f == KVM_MAX_VCPUS)
            && (outcome.Child? <==> !sameVm && !ownStack && answer == 0)
            && (outcome.OutOfSlots? ==> host.calls == old(host.calls) && vm.valid[..] == old(vm.valid[..]))
            && (sameVm && outcome.Parent? ==>
                  var left := if old(vm.vcpus[..])[f] == null then NewCpu() else old(vm.vcpus[..][f].kernel);
                  && vm.Valid() && vm.valid[..] == old(vm.valid[..])[f := true]
                  && vm.vcpus[f] != null && vm.vcpus[f] != parent && InUse(vm.vcpus[f])
                  && vm.vcpus[..] == old(vm.vcpus[..])[f := vm.vcpus[f]]
                  && vm.vcpus[f].kernel == InitChild(left, info, p, vm.vcpus[f].block)
                  && ReadRecord(page, words[..], RecordAddress(page))
                     == Some(Record(where.hostLoop, where.child, old(words[words.Length - 1])))
                  && host.calls == old(host.calls) + [Request(N.SYS_CLONE, handed)]
                  && parent.parameters[..] == p[0 := CloneResult(SameVm, answer)])
            && (!sameVm ==> vm.valid[..] == old(vm.valid[..]) && vm.vcpus[..] == old(vm.vcpus[..]))
            && (!sameVm && ownStack ==>
                  && ReadRecord(page, words[..], RecordAddress(page))
                     == Some(Record(where.forkChildEntry, where.parent, N.SYS_CLONE))
                  && host.calls == old(host.calls) + [Request(N.SYS_CLONE, handed)]
                  && parent.parameters[..] == p[0 := CloneResult(DiffVmNewStack, answer)])
            && (!sameVm && !ownStack ==>
                  && host.calls == old(host.calls) + [Request(N.SYS_CLONE, p[..7])]
                  && parent.parameters[..] == (if answer == 0 then p else p[0 := CloneResult(DiffVmOldStack, answer)])
                  && (outcome.Child? ==>
                        var c := outcome.cpu;
                        && c.kernel == InitChild(NewCpu(), info, p, at) && c.block == at
                        && fresh(c) && InUse(c) && fresh(c.vm) && c.cpuId == 0
                        && c.vm.valid[..] == [true] + seq(KVM_MAX_VCPUS - 1, i => false)))
  {
    hide InitChild, ReadRecord, RecordAddress, FirstFree, Bit;
    GetParentThreadInfo(parent);
    var k := GetCloneType(parent);
    match k {
      case SameVm =>
        var child := EmulateSameVm(parent, vm, host, at, page, words, where, answer);
        outcome := if child == None then OutOfSlots else Parent;
      case DiffVmOldStack =>
        var child := EmulateOldStack(parent, host, at, AsWord(answer));
        outcome := if child.Some? then Child(child.value) else Parent;
      case DiffVmNewStack =>
        EmulateNewStack(parent, host, page, words, where, answer);
        outcome := Parent;
    }
  }
}
