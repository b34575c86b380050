/** The objects of dune's pool, and the two functions that hand cores out and take them back, as the code
    that runs under the lock and right behind it.  `PoolProtocol` has the same code cut into steps. */
module VcpuPool {
  import opened Words
  import opened LoongArch
  import opened Trampoline
  import opened Clone
  import opened Slots

  /** `struct kvm_cpu`, with `kernel` for the state that the ioctls on its file descriptor reach and
      `block` for the host address of its parameter array. */
  class KvmCpu {
    var vm: KvmVm?
    var cpuId: nat
    var info: ThreadInfo
    const parameters: array<Word>
    const block: Word
    var kernel: Cpu

    /** What calloc and KVM_CREATE_VCPU give. */
    constructor (at: Word)
      ensures vm == null && cpuId == 0 && block == at && kernel == NewCpu()
      ensures fresh(parameters) && parameters.Length == PARAMETERS
      ensures forall i | 0 <= i < PARAMETERS :: parameters[i] == 0
    {
      vm := null;
      cpuId := 0;
      info := ThreadInfo(seq(32, i => 0), 0, 0);
      parameters := new Word[PARAMETERS](i => 0);
      block := at;
      kernel := NewCpu();
    }
  }

  class KvmVm {
    const valid: array<bool>
    const vcpus: array<KvmCpu?>
    /** The ids of the KVM_CREATE_VCPU calls made for this VM. */
    var created: seq<nat>

    ghost function Cpus(): set<KvmCpu>
      reads vcpus
    {
      set c: KvmCpu | c in vcpus[..]
    }

    /** The pool is of full size; every core in it is in the slot it is numbered for, in this VM, and was
        created once; a claimed slot has a core. */
    ghost predicate Valid()
      reads this, valid, vcpus, Cpus()`cpuId, Cpus()`vm
    {
      && valid.Length == KVM_MAX_VCPUS && vcpus.Length == KVM_MAX_VCPUS
      && (forall i | 0 <= i < KVM_MAX_VCPUS && vcpus[i] != null ::
            vcpus[i] in vcpus[..] && vcpus[i].cpuId == i && vcpus[i].vm == this)
      && (forall i | 0 <= i < KVM_MAX_VCPUS :: valid[i] ==> vcpus[i] != null)
      && (forall i: nat :: i in created <==> i < KVM_MAX_VCPUS && vcpus[i] != null)
      && (forall j, k | 0 <= j < |created| && 0 <= k < |created| && created[j] == created[k] :: j == k)
    }

    constructor ()
      ensures Valid() && fresh(valid) && fresh(vcpus) && created == []
      ensures valid[..] == seq(KVM_MAX_VCPUS, i => false) && Cpus() == {}
    {
      valid := new bool[KVM_MAX_VCPUS](i => false);
      vcpus := new KvmCpu?[KVM_MAX_VCPUS](i => null);
      created := [];
    }

    /** The scan under the lock. */
    method FindFree() returns (i: nat)
      requires Valid()
      ensures i == FirstFree(valid[..])
    {
      i := 0;
      while i < KVM_MAX_VCPUS && valid[i]
        invariant i <= KVM_MAX_VCPUS
        invariant forall j | 0 <= j < i :: valid[j]
      {
        i := i + 1;
      }
      FirstFreeIs(valid[..], i);
    }

    /** `kvm_alloc_vcpu`: None where it dies.  The first free slot becomes valid, no other changes; its
        core is the one it had, or a new one that KVM is asked for with the slot's number. */
    method Alloc(at: Word) returns (vcpu: Option<KvmCpu>)
      requires Valid()
      modifies this, valid, vcpus
      ensures Valid()
      ensures vcpu.Some? <==> exists i :: 0 <= i < KVM_MAX_VCPUS && !old(valid[i])
      ensures var f := FirstFree(old(valid[..]));
              && vcpu.Some? == (f < KVM_MAX_VCPUS)
              && valid[..] == (if vcpu.Some? then old(valid[..])[f := true] else old(valid[..]))
              && vcpus[..] == (if vcpu.Some? then old(vcpus[..])[f := vcpu.value] else old(vcpus[..]))
              && (vcpu.Some? && old(vcpus[..])[f] != null ==> vcpu.value == old(vcpus[..])[f] && created == old(created))
              && (vcpu.Some? && old(vcpus[..])[f] == null ==>
                    && fresh(vcpu.value) && fresh(vcpu.value.parameters) && vcpu.value.block == at
                    && vcpu.value.kernel == NewCpu() && vcpu.value.parameters.Length == PARAMETERS
                    && created == old(created) + [f])
              && (vcpu.Some? ==> vcpu.value.cpuId == f && vcpu.value.vm == this)
              && (vcpu == None ==> created == old(created))
    {
      var i := FindFree();
      if i == KVM_MAX_VCPUS {
        return None;
      }
      valid[i] := true;
      if vcpus[i] != null {
        return Some(vcpus[i]);
      }
      var c := new KvmCpu(at);
      vcpus[i] := c;
      c.vm := this;
      c.cpuId := i;
      created := created + [c.cpuId];
      assert forall k | 0 <= k < KVM_MAX_VCPUS && vcpus[k] != null :: vcpus[..][k] == vcpus[k];
      vcpu := Some(c);
    }

    /** `kvm_free_vcpu`: the slot of a core that is in use becomes free and keeps its core. */
    method Free(vcpu: KvmCpu)
      requires Valid() && vcpu in vcpus[..] && valid[vcpu.cpuId]
      modifies valid
      ensures Valid()
      ensures valid[..] == old(valid[..])[vcpu.cpuId := false] && vcpus[..] == old(vcpus[..])
    {
      valid[vcpu.cpuId] := false;
    }
  }
}
