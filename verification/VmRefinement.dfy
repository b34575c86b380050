/** The steps that build cores and VMs for a clone: they change nothing the native machine can see, and
    they keep the simulation. */
module VmRefinement {
  import opened Words
  import opened Paging
  import opened LoongArch
  import opened Handlers
  import opened Trampoline
  import opened Clone
  import opened Slots
  import opened Dune
  import opened Simulation
  import opened Refinement
  import opened CloneRefinement
  import N = Native

  // ---------- SAME_VM: the child's core ----------

  /** The state with slot `child` claimed by `t`'s clone, its core being `vc`, in blocks `m`. */
  function Arming<K>(s: System<K>, t: Word, child: VcpuId, vc: Vcpu, m: Mem): System<K>
    requires t in s.threads && s.threads[t].phase.CloneReady? && s.threads[t].space in s.spaces
    requires child.vm in s.vms && child.slot < |s.vms[child.vm].valid|
  {
    var ph, vm, a := s.threads[t].phase, s.vms[child.vm], s.threads[t].space;
    s.(threads := s.threads[t := s.threads[t].(phase := CloneArmed(ph.v, ph.info, child))],
       vms := s.vms[child.vm := vm.(valid := vm.valid[child.slot := true])],
       vcpus := s.vcpus[child := vc],
       spaces := s.spaces[a := s.spaces[a].(blocks := m)])
  }

  /** A free slot of the VM that `t` runs on, and a core fit to serve it: the slot's old one in its old
      block, or a new one in a block that overlaps no other. */
  ghost predicate CanArm<K>(s: System<K>, t: Word, child: VcpuId, vc: Vcpu, m: Mem)
  {
    && Inv(s) && t in s.threads && s.threads[t].phase.CloneReady? && s.threads[t].space in s.spaces
    && s.threads[t].phase.v in s.vcpus && Seated(s, t, s.threads[t].phase.v)
    && child.vm == s.threads[t].phase.v.vm && child.vm in s.vms && child.slot < |s.vms[child.vm].valid|
    && !s.vms[child.vm].valid[child.slot]
    && Extends(BlocksOf(s, t), m)
    && Serves(vc.cpu, vc.block, m) && vc.cpu.csr.ebase != 0
    && (if child in s.vcpus then vc.block == s.vcpus[child].block
        else forall i | 0 <= i < PARAMETERS :: Cell(vc.block, i) !in BlocksOf(s, t))
  }

  lemma ArmingVcpus<K>(s: System<K>, t: Word, child: VcpuId, vc: Vcpu, m: Mem)
    requires CanArm(s, t, child, vc, m)
    ensures forall w | w in Arming(s, t, child, vc, m).vcpus :: VcpuOk(Arming(s, t, child, vc, m), w)
  {
    hide Serves, VcpusApart, HoldingsApart, NewbornsAlone, ThreadOk, Extends;
    var s' := Arming(s, t, child, vc, m);
    forall w | w in s'.vcpus ensures VcpuOk(s', w) {
      if w != child {
        assert VcpuOk(s, w);
        if s.vms[w.vm].creator == s.threads[t].space {
          ExtendedServes(CpuOf(s, w), s.vcpus[w].block, BlocksOf(s, t), m);
        }
      }
    }
  }

  lemma FreshBlockApart(m: Mem, b: Word, c: Word)
    requires HasBlock(m, b) && forall i | 0 <= i < PARAMETERS :: Cell(c, i) !in m
    ensures BlocksApart(b, c) && BlocksApart(c, b)
  {
  }

  lemma ArmingApart<K>(s: System<K>, t: Word, child: VcpuId, vc: Vcpu, m: Mem)
    requires CanArm(s, t, child, vc, m)
    ensures VcpusApart(Arming(s, t, child, vc, m))
  {
    hide HoldingsApart, NewbornsAlone, ThreadOk, BlocksApart, HasBlock, CoreOk, Extends;
    var s' := Arming(s, t, child, vc, m);
    forall w | w in s.vcpus && w != child && w.vm in s.vms && s.vms[w.vm].creator == s.vms[child.vm].creator
      ensures BlocksApart(s.vcpus[w].block, vc.block) && BlocksApart(vc.block, s.vcpus[w].block)
    {
      if child !in s.vcpus {
        assert VcpuOk(s, w);
        FreshBlockApart(BlocksOf(s, t), s.vcpus[w].block, vc.block);
      }
    }
    assert forall x | x in s.vms :: s'.vms[x].creator == s.vms[x].creator;
  }

  lemma FreeSlotUnheld<K>(s: System<K>, child: VcpuId, u: Word)
    requires Inv(s) && u in s.threads && child.vm in s.vms && child.slot < |s.vms[child.vm].valid|
    requires !s.vms[child.vm].valid[child.slot]
    ensures child !in Holds(s.threads[u].phase)
  {
    hide VcpuOk, VcpusApart, HoldingsApart, NewbornsAlone;
    assert ThreadOk(s, u);
  }

  lemma ArmingHoldings<K>(s: System<K>, t: Word, child: VcpuId, vc: Vcpu, m: Mem)
    requires CanArm(s, t, child, vc, m)
    ensures HoldingsApart(Arming(s, t, child, vc, m)) && NewbornsAlone(Arming(s, t, child, vc, m))
  {
    hide VcpuOk, ThreadOk, VcpusApart, Serves, Extends, BlocksOf;
    var s' := Arming(s, t, child, vc, m);
    forall u | u in s.threads ensures child !in Holds(s.threads[u].phase) {
      FreeSlotUnheld(s, child, u);
    }
    assert Holds(s'.threads[t].phase) == Holds(s.threads[t].phase) + {child};
    forall u | u in s'.threads && s'.threads[u].phase.NeedsVm? ensures Newborn(s', u) {
      assert Newborn(s, u);
    }
  }

  lemma ArmingKeepsSeat<K>(s: System<K>, t: Word, child: VcpuId, vc: Vcpu, m: Mem, u: Word, w: VcpuId)
    requires CanArm(s, t, child, vc, m) && u in s.threads
    requires w in s.vcpus && w != child && Seated(s, u, w)
    ensures w in Arming(s, t, child, vc, m).vcpus && Arming(s, t, child, vc, m).vcpus[w] == s.vcpus[w]
    ensures Seated(Arming(s, t, child, vc, m), u, w)
  {
    ArmingVcpus(s, t, child, vc, m);
    hide VcpuOk, Inv, Serves, Extends, BlocksOf;
    var s' := Arming(s, t, child, vc, m);
    assert VcpuOk(s', w);
    ArmingKeepsSlots(s, t, child, vc, m, w);
  }

  lemma ArmingKeepsSlots<K>(s: System<K>, t: Word, child: VcpuId, vc: Vcpu, m: Mem, w: VcpuId)
    requires CanArm(s, t, child, vc, m) && w.vm in s.vms && w.slot < |s.vms[w.vm].valid| && s.vms[w.vm].valid[w.slot]
    ensures w.vm in Arming(s, t, child, vc, m).vms && w.slot < |Arming(s, t, child, vc, m).vms[w.vm].valid|
    ensures Arming(s, t, child, vc, m).vms[w.vm].valid[w.slot]
    ensures Arming(s, t, child, vc, m).vms[w.vm].creator == s.vms[w.vm].creator
  {
    hide Inv, Serves, Extends, Seated;
  }

  lemma ArmingSeatsChild<K>(s: System<K>, t: Word, child: VcpuId, vc: Vcpu, m: Mem)
    requires CanArm(s, t, child, vc, m)
    ensures child in Arming(s, t, child, vc, m).vcpus && Seated(Arming(s, t, child, vc, m), t, child)
  {
    ArmingVcpus(s, t, child, vc, m);
    hide VcpuOk, Inv, Serves, Extends, BlocksOf;
  }

  lemma ArmingSeat<K>(s: System<K>, t: Word, child: VcpuId, vc: Vcpu, m: Mem)
    requires CanArm(s, t, child, vc, m)
    ensures ThreadOk(Arming(s, t, child, vc, m), t) && child != s.threads[t].phase.v
  {
    FreeSlotUnheld(s, child, t);
    assert s.threads[t].phase.v in Holds(s.threads[t].phase);
    ArmingKeepsSeat(s, t, child, vc, m, t, s.threads[t].phase.v);
    ArmingSeatsChild(s, t, child, vc, m);
    hide Inv, Serves, Extends, Seated;
  }

  lemma ArmingOthers<K>(s: System<K>, t: Word, child: VcpuId, vc: Vcpu, m: Mem, u: Word)
    requires CanArm(s, t, child, vc, m) && u in s.threads && u != t
    ensures ThreadOk(s, u) && Untouched(s, Arming(s, t, child, vc, m), u)
  {
    hide Inv, Serves, Extends, Seated;
    InvThread(s, u);
    forall w | w in Holds(s.threads[u].phase)
      ensures w in s.vcpus && w in Arming(s, t, child, vc, m).vcpus
      ensures Arming(s, t, child, vc, m).vcpus[w] == s.vcpus[w] && Seated(Arming(s, t, child, vc, m), u, w)
    {
      FreeSlotUnheld(s, child, u);
      ArmingKeepsSeat(s, t, child, vc, m, u, w);
    }
    ExtendsItself(BlocksOf(s, u));
  }

  lemma ArmingSeats<K>(s: System<K>, t: Word, child: VcpuId, vc: Vcpu, m: Mem, u: Word)
    requires CanArm(s, t, child, vc, m) && u in s.threads
    ensures ThreadOk(Arming(s, t, child, vc, m), u)
  {
    if u == t {
      ArmingSeat(s, t, child, vc, m);
    } else {
      ArmingOthers(s, t, child, vc, m, u);
      hide Seated, Inv, Extends;
    }
  }

  lemma ArmingInv<K>(s: System<K>, t: Word, child: VcpuId, vc: Vcpu, m: Mem)
    requires CanArm(s, t, child, vc, m)
    ensures Inv(Arming(s, t, child, vc, m))
  {
    ArmingVcpus(s, t, child, vc, m);
    ArmingApart(s, t, child, vc, m);
    ArmingHoldings(s, t, child, vc, m);
    hide VcpuOk, ThreadOk, VcpusApart, HoldingsApart, NewbornsAlone, Serves, Extends, Seated;
    var s' := Arming(s, t, child, vc, m);
    forall u | u in s'.threads ensures ThreadOk(s', u) {
      ArmingSeats(s, t, child, vc, m, u);
    }
  }

  lemma ArmingMatches<K>(s: System<K>, n: N.System<K>, t: Word, child: VcpuId, vc: Vcpu, m: Mem)
    requires Sim(s, n) && CanArm(s, t, child, vc, m) && Works(s, t, s.threads[t].phase.v)
    requires Armed(vc.cpu, s.threads[t].phase.info, ParamsOf(s, t, s.threads[t].phase.v))
    requires CloneTypeOf(ParamsOf(s, t, s.threads[t].phase.v)) == SameVm
    ensures t in n.threads && ThreadOk(Arming(s, t, child, vc, m), t)
    ensures Matches(Arming(s, t, child, vc, m), t, n.threads[t])
  {
    hide Sim, Serves, Asking, Armed, Inv, ThreadOk, Seated, Extends, Params, CloneTypeOf, HasBlock;
    var ph := s.threads[t].phase;
    FactsOf(s, n, t);
    ArmingSeat(s, t, child, vc, m);
    ExtendedParams(BlocksOf(s, t), m, s.vcpus[ph.v].block);
  }

  lemma ArmingPaired<K>(s: System<K>, n: N.System<K>, t: Word, child: VcpuId, vc: Vcpu, m: Mem)
    requires Sim(s, n) && CanArm(s, t, child, vc, m) && t in n.threads && n.threads[t].space == s.threads[t].space
    requires ThreadOk(Arming(s, t, child, vc, m), t) && Matches(Arming(s, t, child, vc, m), t, n.threads[t])
    ensures AllPaired(Arming(s, t, child, vc, m), n)
  {
    hide Sim, ThreadOk, Matches, Inv, Seated, Serves, Extends, Untouched;
    var s' := Arming(s, t, child, vc, m);
    forall u | u in s'.threads ensures ThreadOk(s', u) && u in n.threads && Paired(s', n, u) {
      if u != t {
        FactsOf(s, n, u);
        ArmingOthers(s, t, child, vc, m, u);
        UntouchedMatches(s, s', u, n.threads[u]);
        ArmingKeepsSpace(s, t, child, vc, m, u);
      }
    }
  }

  lemma ArmingKeepsSpace<K>(s: System<K>, t: Word, child: VcpuId, vc: Vcpu, m: Mem, u: Word)
    requires CanArm(s, t, child, vc, m) && u in s.threads
    ensures Arming(s, t, child, vc, m).threads[u].space == s.threads[u].space
  {
    hide Inv, Seated, Serves, Extends;
  }

  lemma ArmingAgrees<K>(s: System<K>, n: N.System<K>, t: Word, child: VcpuId, vc: Vcpu, m: Mem)
    requires Agrees(s, n) && CanArm(s, t, child, vc, m)
    ensures Agrees(Arming(s, t, child, vc, m), n)
  {
    hide Inv, Seated, Serves, Extends;
    var s' := Arming(s, t, child, vc, m);
    assert s'.threads.Keys == s.threads.Keys && s'.spaces.Keys == s.spaces.Keys;
  }

  lemma ArmingSim<K>(s: System<K>, n: N.System<K>, t: Word, child: VcpuId, vc: Vcpu, m: Mem)
    requires Sim(s, n) && CanArm(s, t, child, vc, m) && Works(s, t, s.threads[t].phase.v)
    requires Armed(vc.cpu, s.threads[t].phase.info, ParamsOf(s, t, s.threads[t].phase.v))
    requires CloneTypeOf(ParamsOf(s, t, s.threads[t].phase.v)) == SameVm
    ensures Sim(Arming(s, t, child, vc, m), n)
  {
    hide Armed, Works, CloneTypeOf, Matches, ThreadOk, Inv, Agrees, AllPaired, Seated, Serves, Extends, Arming;
    FactsOf(s, n, t);
    ArmingMatches(s, n, t, child, vc, m);
    ArmingPaired(s, n, t, child, vc, m);
    ArmingAgrees(s, n, t, child, vc, m);
    ArmingInv(s, t, child, vc, m);
  }

  // ---------- New blocks ----------

  lemma ZeroBlockServes(m: Mem, b: Word)
    requires Allocatable(m, b)
    ensures Extends(m, m + ZeroBlock(b)) && HasBlock(m + ZeroBlock(b), b)
  {
    forall i | 0 <= i < PARAMETERS ensures Cell(b, i) in ZeroBlock(b) {
      ZeroBlockCell(b, i);
    }
    forall a | a in ZeroBlock(b) ensures exists i :: 0 <= i < PARAMETERS && a == Cell(b, i) {
      ZeroBlockOnly(b, a);
    }
  }

  lemma ZeroBlockCell(b: Word, i: nat)
    requires i < PARAMETERS
    ensures Cell(b, i) in ZeroBlock(b)
  {
    hide Cell;
  }

  lemma ZeroBlockOnly(b: Word, a: Word)
    requires a in ZeroBlock(b)
    ensures exists i :: 0 <= i < PARAMETERS && a == Cell(b, i)
  {
    hide Cell;
    assert a == Cell(b, 0) || a == Cell(b, 1) || a == Cell(b, 2) || a == Cell(b, 3)
           || a == Cell(b, 4) || a == Cell(b, 5) || a == Cell(b, 6) || a == Cell(b, 7);
  }

  lemma ChildServes(left: Cpu, info: ThreadInfo, pr: seq<Word>, b: Word, m: Mem)
    requires |pr| == PARAMETERS && IdentityTlb(left.tlb) && BlockInSlot(b) && HasBlock(m, b)
    ensures Serves(InitChild(left, info, pr, b), b, m) && Armed(InitChild(left, info, pr, b), info, pr)
    ensures InitChild(left, info, pr, b).csr.ebase == info.ebase
  {
    hide HasBlock, ChildRegs, CoreOk, InitChild, IdentityTlb;
    ChildStarts(left, info, pr, b);
  }

  // ---------- `dup_vcpu` ----------

  /** The core that `dup_vcpu` prepares and the blocks it leaves. */
  function ArmedCore<K>(s: System<K>, t: Word, block: Word): (VcpuId, Vcpu, Mem)
    requires Cloning(s, t) && FirstFree(s.vms[s.threads[t].phase.v.vm].valid) < |s.vms[s.threads[t].phase.v.vm].valid|
  {
    var v, info := s.threads[t].phase.v, s.threads[t].phase.info;
    var child := VcpuId(v.vm, FirstFree(s.vms[v.vm].valid));
    var pr := ParamsOf(s, t, v);
    if child in s.vcpus then
      (child, Vcpu(s.vcpus[child].block, InitChild(CpuOf(s, child), info, pr, s.vcpus[child].block)), BlocksOf(s, t))
    else (child, Vcpu(block, InitChild(NewCpu(), info, pr, block)), BlocksOf(s, t) + ZeroBlock(block))
  }

  lemma ArmChildShape<K>(s: System<K>, s': System<K>, t: Word, block: Word)
    requires DoArmChild(s, t, block) == Some(s')
    ensures Cloning(s, t) && StrategyOf(s, t) == SameVm && s.threads[t].phase.info.ebase != 0
    ensures FirstFree(s.vms[s.threads[t].phase.v.vm].valid) < |s.vms[s.threads[t].phase.v.vm].valid|
    ensures var (child, vc, m) := ArmedCore(s, t, block);
            && s' == Arming(s, t, child, vc, m)
            && (child in s.vcpus || Allocatable(BlocksOf(s, t), block))
  {
    hide InitChild, Params, HasBlock, Allocatable, ZeroBlock, CloneTypeOf;
  }

  lemma ArmedCoreFits<K>(s: System<K>, t: Word, block: Word)
    requires Inv(s) && Cloning(s, t) && s.threads[t].phase.info.ebase != 0
    requires FirstFree(s.vms[s.threads[t].phase.v.vm].valid) < |s.vms[s.threads[t].phase.v.vm].valid|
    requires ArmedCore(s, t, block).0 in s.vcpus || Allocatable(BlocksOf(s, t), block)
    ensures var (child, vc, m) := ArmedCore(s, t, block);
            && CanArm(s, t, child, vc, m)
            && Armed(vc.cpu, s.threads[t].phase.info, ParamsOf(s, t, s.threads[t].phase.v))
  {
    hide Inv, ThreadOk, Params, HasBlock, InitChild, Serves, Armed;
    InvThread(s, t);
    var v, info := s.threads[t].phase.v, s.threads[t].phase.info;
    var (child, vc, m) := ArmedCore(s, t, block);
    assert v in Holds(s.threads[t].phase);
    if child in s.vcpus {
      ServingCore(s, t, child);
      ChildServes(CpuOf(s, child), info, ParamsOf(s, t, v), s.vcpus[child].block, m);
      ExtendsItself(m);
    } else {
      ZeroBlockServes(BlocksOf(s, t), block);
      ChildServes(NewCpu(), info, ParamsOf(s, t, v), block, m);
    }
  }

  lemma ServingCore<K>(s: System<K>, t: Word, child: VcpuId)
    requires Inv(s) && t in s.threads && child in s.vcpus && s.threads[t].space in s.spaces
    requires child.vm in s.vms && s.vms[child.vm].creator == s.threads[t].space
    ensures IdentityTlb(CpuOf(s, child).tlb) && BlockInSlot(s.vcpus[child].block)
    ensures HasBlock(BlocksOf(s, t), s.vcpus[child].block)
  {
    assert VcpuOk(s, child);
  }

  lemma ArmChildSim<K>(s: System<K>, s': System<K>, n: N.System<K>, t: Word, block: Word)
    requires Sim(s, n) && DoArmChild(s, t, block) == Some(s')
    ensures Sim(s', n)
  {
    hide Sim, Inv, DoArmChild, CanArm, Arming, Armed, ArmedCore, Works, CloneTypeOf, Params, Allocatable;
    SimParts(s, n);
    ArmChildShape(s, s', t, block);
    ArmedCoreFits(s, t, block);
    var (child, vc, m) := ArmedCore(s, t, block);
    ArmingSim(s, n, t, child, vc, m);
  }

  // ---------- `dup_vm` ----------

  /** The state in which `t`, so far without a VM, has its own one with core `vc` in slot 0. */
  function Building<K>(s: System<K>, t: Word, vm: nat, vc: Vcpu, m: Mem): System<K>
    requires t in s.threads && s.threads[t].space in s.spaces
  {
    var a := s.threads[t].space;
    s.(threads := s.threads[t := s.threads[t].(phase := Top(VcpuId(vm, 0)))],
       vms := s.vms[vm := Vm(a, [true] + seq(KVM_MAX_VCPUS - 1, i => false))],
       vcpus := s.vcpus[VcpuId(vm, 0) := vc],
       spaces := s.spaces[a := s.spaces[a].(blocks := m)])
  }

  ghost predicate CanBuild<K>(s: System<K>, t: Word, vm: nat, vc: Vcpu, m: Mem)
  {
    && Inv(s) && t in s.threads && s.threads[t].phase.NeedsVm? && s.threads[t].space in s.spaces
    && vm !in s.vms && VcpuId(vm, 0) !in s.vcpus
    && Extends(BlocksOf(s, t), m) && Serves(vc.cpu, vc.block, m) && vc.cpu.csr.ebase != 0
  }

  lemma BuildingVcpus<K>(s: System<K>, t: Word, vm: nat, vc: Vcpu, m: Mem)
    requires CanBuild(s, t, vm, vc, m)
    ensures forall w | w in Building(s, t, vm, vc, m).vcpus :: VcpuOk(Building(s, t, vm, vc, m), w)
  {
    hide Serves, VcpusApart, HoldingsApart, ThreadOk, Extends;
    var s' := Building(s, t, vm, vc, m);
    assert Newborn(s, t);
    forall w | w in s'.vcpus ensures VcpuOk(s', w) {
      if w != VcpuId(vm, 0) {
        assert VcpuOk(s, w);
      }
    }
  }

  lemma BuildingApart<K>(s: System<K>, t: Word, vm: nat, vc: Vcpu, m: Mem)
    requires CanBuild(s, t, vm, vc, m)
    ensures VcpusApart(Building(s, t, vm, vc, m))
  {
    hide Serves, HoldingsApart, ThreadOk, Extends, BlocksApart, BlocksOf;
    assert Newborn(s, t);
    forall w | w in s.vcpus ensures w.vm in s.vms && w.vm != vm {
      assert VcpuOk(s, w);
    }
  }

  lemma BuildingHoldings<K>(s: System<K>, t: Word, vm: nat, vc: Vcpu, m: Mem)
    requires CanBuild(s, t, vm, vc, m)
    ensures HoldingsApart(Building(s, t, vm, vc, m)) && NewbornsAlone(Building(s, t, vm, vc, m))
  {
    hide VcpuOk, ThreadOk, VcpusApart, Serves, Extends, BlocksOf;
    var s' := Building(s, t, vm, vc, m);
    forall u | u in s.threads ensures VcpuId(vm, 0) !in Holds(s.threads[u].phase) {
      InvThread(s, u);
    }
    assert Newborn(s, t);
    forall u | u in s'.threads && s'.threads[u].phase.NeedsVm? ensures Newborn(s', u) {
      assert Newborn(s, u);
    }
  }

  lemma BuildingSeat<K>(s: System<K>, t: Word, vm: nat, vc: Vcpu, m: Mem)
    requires CanBuild(s, t, vm, vc, m)
    ensures ThreadOk(Building(s, t, vm, vc, m), t)
  {
    BuildingVcpus(s, t, vm, vc, m);
    hide VcpuOk, Inv, Serves, Extends, BlocksOf;
  }

  lemma BuildingKeepsSeat<K>(s: System<K>, t: Word, vm: nat, vc: Vcpu, m: Mem, u: Word, w: VcpuId)
    requires CanBuild(s, t, vm, vc, m) && u in s.threads && u != t && w in s.vcpus && Seated(s, u, w)
    ensures var s' := Building(s, t, vm, vc, m); w in s'.vcpus && s'.vcpus[w] == s.vcpus[w] && Seated(s', u, w)
  {
    BuildingVcpus(s, t, vm, vc, m);
    hide VcpuOk, Inv, Serves, Extends;
  }

  lemma BuildingKeepsSpace<K>(s: System<K>, t: Word, vm: nat, vc: Vcpu, m: Mem, u: Word)
    requires CanBuild(s, t, vm, vc, m) && u in s.threads && u != t && s.threads[u].space in s.spaces
    ensures var s' := Building(s, t, vm, vc, m);
            && u in s'.threads && s'.threads[u] == s.threads[u] && s.threads[u].space in s'.spaces
            && s'.spaces[s.threads[u].space] == s.spaces[s.threads[u].space]
  {
    assert Newborn(s, t);
    hide VcpuOk, ThreadOk, VcpusApart, HoldingsApart, Serves, Extends;
  }

  lemma BuildingOthers<K>(s: System<K>, t: Word, vm: nat, vc: Vcpu, m: Mem, u: Word)
    requires CanBuild(s, t, vm, vc, m) && u in s.threads && u != t
    ensures ThreadOk(s, u) && Untouched(s, Building(s, t, vm, vc, m), u)
  {
    hide Inv, Serves, Extends, Seated, Building;
    InvThread(s, u);
    BuildingKeepsSpace(s, t, vm, vc, m, u);
    ExtendsItself(BlocksOf(s, u));
    forall w | w in Holds(s.threads[u].phase)
      ensures var s' := Building(s, t, vm, vc, m); w in s'.vcpus && s'.vcpus[w] == s.vcpus[w] && Seated(s', u, w)
    {
      BuildingKeepsSeat(s, t, vm, vc, m, u, w);
    }
  }

  lemma BuildingInv<K>(s: System<K>, t: Word, vm: nat, vc: Vcpu, m: Mem)
    requires CanBuild(s, t, vm, vc, m)
    ensures Inv(Building(s, t, vm, vc, m))
  {
    BuildingVcpus(s, t, vm, vc, m);
    BuildingApart(s, t, vm, vc, m);
    BuildingHoldings(s, t, vm, vc, m);
    hide VcpuOk, ThreadOk, VcpusApart, HoldingsApart, NewbornsAlone, Serves, Extends;
    var s' := Building(s, t, vm, vc, m);
    forall u | u in s'.threads ensures ThreadOk(s', u) {
      if u == t {
        BuildingSeat(s, t, vm, vc, m);
      } else {
        BuildingOthers(s, t, vm, vc, m, u);
        UntouchedOk(s, s', u);
      }
    }
  }

  /** What a forked child that has no VM yet stands for. */
  lemma NewbornFacts<K>(s: System<K>, n: N.System<K>, t: Word)
    requires Sim(s, n) && t in s.threads && s.threads[t].phase.NeedsVm?
    ensures s.threads[t].space in s.spaces && t in n.threads && n.threads[t].space == s.threads[t].space
    ensures var ph, th := s.threads[t].phase, n.threads[t];
            && HasBlock(BlocksOf(s, t), ph.parentBlock) && ph.info.ebase != 0 && !th.calling
            && th.gpr == ChildRegs(ph.info.regs, Params(BlocksOf(s, t), ph.parentBlock))
            && th.pc == Add(ph.info.era, 4)
  {
    hide Sim, HasBlock, ChildRegs, Params;
    FactsOf(s, n, t);
  }

  lemma BuildingMatches<K>(s: System<K>, n: N.System<K>, t: Word, vm: nat, vc: Vcpu, m: Mem)
    requires Sim(s, n) && CanBuild(s, t, vm, vc, m) && HasBlock(BlocksOf(s, t), s.threads[t].phase.parentBlock)
    requires Armed(vc.cpu, s.threads[t].phase.info, Params(BlocksOf(s, t), s.threads[t].phase.parentBlock))
    ensures t in n.threads && ThreadOk(Building(s, t, vm, vc, m), t)
    ensures Matches(Building(s, t, vm, vc, m), t, n.threads[t])
  {
    hide Sim, Armed, Inv, ThreadOk, Seated, Extends, Params, HasBlock, StandsFor, CoreOk, Resume;
    NewbornFacts(s, n, t);
    BuildingSeat(s, t, vm, vc, m);
    var ph := s.threads[t].phase;
    ArmedStandsForChild(vc.cpu, ph.info, Params(BlocksOf(s, t), ph.parentBlock), Params(m, vc.block), n.threads[t]);
    MatchesFrom(Building(s, t, vm, vc, m), t, VcpuId(vm, 0), vc.block, vc.cpu, m, n.threads[t]);
  }

  lemma BuildingPaired<K>(s: System<K>, n: N.System<K>, t: Word, vm: nat, vc: Vcpu, m: Mem)
    requires Sim(s, n) && CanBuild(s, t, vm, vc, m) && t in n.threads && n.threads[t].space == s.threads[t].space
    requires ThreadOk(Building(s, t, vm, vc, m), t) && Matches(Building(s, t, vm, vc, m), t, n.threads[t])
    ensures AllPaired(Building(s, t, vm, vc, m), n)
  {
    hide Sim, ThreadOk, Matches, Inv, Serves, Extends, Untouched;
    var s' := Building(s, t, vm, vc, m);
    forall u | u in s'.threads ensures ThreadOk(s', u) && u in n.threads && Paired(s', n, u) {
      if u != t {
        FactsOf(s, n, u);
        BuildingOthers(s, t, vm, vc, m, u);
        UntouchedMatches(s, s', u, n.threads[u]);
      }
    }
  }

  lemma BuildingAgrees<K>(s: System<K>, n: N.System<K>, t: Word, vm: nat, vc: Vcpu, m: Mem)
    requires Agrees(s, n) && CanBuild(s, t, vm, vc, m)
    ensures Agrees(Building(s, t, vm, vc, m), n)
  {
    hide Inv, Serves, Extends;
    var s' := Building(s, t, vm, vc, m);
    assert s'.threads.Keys == s.threads.Keys && s'.spaces.Keys == s.spaces.Keys;
  }

  lemma BuildVmShape<K>(s: System<K>, s': System<K>, t: Word, vm: nat, block: Word)
    requires DoBuildVm(s, t, vm, block) == Some(s')
    ensures t in s.threads && s.threads[t].phase.NeedsVm? && s.threads[t].space in s.spaces
    ensures var ph, blocks := s.threads[t].phase, BlocksOf(s, t);
            && vm !in s.vms && VcpuId(vm, 0) !in s.vcpus && ph.info.ebase != 0
            && Allocatable(blocks, block) && HasBlock(blocks, ph.parentBlock)
            && s' == Building(s, t, vm, Vcpu(block, InitChild(NewCpu(), ph.info, Params(blocks, ph.parentBlock), block)),
                              blocks + ZeroBlock(block))
  {
    hide InitChild, Params, HasBlock, Allocatable, ZeroBlock;
  }

  lemma BuildVmSim<K>(s: System<K>, s': System<K>, n: N.System<K>, t: Word, vm: nat, block: Word)
    requires Sim(s, n) && DoBuildVm(s, t, vm, block) == Some(s')
    ensures Sim(s', n)
  {
    hide Sim, Inv, Agrees, AllPaired, DoBuildVm, Building, Armed, Serves, Params, HasBlock, InitChild, Allocatable,
         ThreadOk, Matches, Extends;
    SimParts(s, n);
    BuildVmShape(s, s', t, vm, block);
    var ph, blocks := s.threads[t].phase, BlocksOf(s, t);
    var pr, m := Params(blocks, ph.parentBlock), blocks + ZeroBlock(block);
    var vc := Vcpu(block, InitChild(NewCpu(), ph.info, pr, block));
    ZeroBlockServes(blocks, block);
    AllocatableInSlot(blocks, block);
    ChildServes(NewCpu(), ph.info, pr, block, m);
    NewbornFacts(s, n, t);
    BuildingMatches(s, n, t, vm, vc, m);
    BuildingPaired(s, n, t, vm, vc, m);
    BuildingAgrees(s, n, t, vm, vc, m);
    BuildingInv(s, t, vm, vc, m);
    hide CanBuild;
    SimFromParts(s', n);
  }

  lemma AllocatableInSlot(m: Mem, b: Word)
    requires Allocatable(m, b)
    ensures BlockInSlot(b)
  {
  }
}
