/** The slot search of `kvm_alloc_vcpu`, as a function of the `valid` bits. */
module Slots {

  const KVM_MAX_VCPUS := 16

  /** The index the scan stops at: the first slot that is not valid, or the length when all are. */
  function FirstFree(valid: seq<bool>): (i: nat)
    ensures i <= |valid|
    ensures forall j | 0 <= j < i :: valid[j]
    ensures i < |valid| ==> !valid[i]
  {
    if valid == [] || !valid[0] then 0 else 1 + FirstFree(valid[1..])
  }

  /** Where the scan of the code stops. */
  lemma {:induction false} FirstFreeIs(valid: seq<bool>, i: nat)
    requires i <= |valid| && (forall j | 0 <= j < i :: valid[j]) && (i < |valid| ==> !valid[i])
    ensures FirstFree(valid) == i
  {
    if i > 0 {
      assert forall j | 0 <= j < i - 1 :: valid[1..][j] == valid[j + 1];
      FirstFreeIs(valid[1..], i - 1);
    }
  }

  /** A set of numbers below `k` has at most `k` members, and `k` only if it has all of them. */
  lemma {:induction false} Below(used: set<nat>, k: nat)
    requires forall x | x in used :: x < k
    ensures |used| <= k
    ensures |used| == k ==> forall x: nat | x < k :: x in used
    decreases k
  {
    if k == 0 {
      assert used == {};
    } else {
      var rest := used - {k - 1};
      Below(rest, k - 1);
      if k - 1 in used {
        assert used == rest + {k - 1};
        assert forall x: nat | x < k :: x in used <== x in rest;
      } else {
        assert used == rest;
      }
    }
  }
}
