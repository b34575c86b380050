/** The allocator that a VM's pool is meant to be, with allocation and release as single steps. */
module Allocator {
  import opened Words
  import opened Slots

  /** Which slots are taken, and which have a kernel core for good. */
  datatype Allocator = Allocator(valid: seq<bool>, cored: set<nat>)

  datatype Op = Take | Give(i: nat)

  /** Taking yields the first free slot, with the core that it has or a new one; giving back keeps the core. */
  function Do(a: Allocator, op: Op): Option<Allocator>
  {
    match op
    case Take =>
      var f := FirstFree(a.valid);
      if f < |a.valid| then Some(Allocator(a.valid[f := true], a.cored + {f})) else None
    case Give(i) => if i < |a.valid| && a.valid[i] then Some(a.(valid := a.valid[i := false])) else None
  }

  function DoAll(a: Allocator, ops: seq<Op>): Option<Allocator>
    decreases |ops|
  {
    if ops == [] then Some(a) else
      match DoAll(a, ops[..|ops| - 1])
      case None => None
      case Some(b) => Do(b, ops[|ops| - 1])
  }

  function NoneTaken(): Allocator { Allocator(seq(KVM_MAX_VCPUS, i => false), {}) }
}
