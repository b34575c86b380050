/** Slots that are lost: exactly which events lose one, that each loses one for good, and what that does to
    the claim that threads can be created and released without bound. */
module PoolLosses {
  import opened Words
  import opened Slots
  import opened PoolProtocol
  import opened PoolSafety
  import opened PoolRuns

  /** A failed allocation of memory behind the claim, a host clone that fails after the core was allocated,
      and a thread that leaves without `kvm_free_vcpu`. */
  predicate Loses(l: Label) { l.CallocFails? || l.Abandon? || l.Vanish? }

  function Losses(ls: seq<Label>): nat
  {
    if ls == [] then 0 else Losses(ls[..|ls| - 1]) + if Loses(ls[|ls| - 1]) then 1 else 0
  }

  /** The slot that a step loses. */
  function LostSlot(s: Pool, l: Label): nat
  {
    match l
    case CallocFails(t) => if t in s.threads && s.threads[t].pc.Allocating? then s.threads[t].pc.i else 0
    case Abandon(_, p) => if p in s.heap then s.heap[p].cpuId else 0
    case Vanish(_, p) => if p in s.heap then s.heap[p].cpuId else 0
    case _ => 0
  }

  lemma LosingStep(s: Pool, l: Label, s': Pool)
    requires Inv(s) && Apply(s, l) == Some(s') && Loses(l)
    ensures LostSlot(s, l) !in Leaks(s) && Leaks(s') == Leaks(s) + {LostSlot(s, l)}
  {
    if l.CallocFails? {
      assert ThreadFine(s, l.t);
    } else {
      OwnedFacts(s, l.t, l.p);
    }
    hide Inv, ThreadFine;
  }

  lemma KeepingStep(s: Pool, l: Label, s': Pool)
    requires Inv(s) && Apply(s, l) == Some(s') && !Loses(l)
    ensures Leaks(s') == Leaks(s)
  {
    hide Inv, DoLock, DoTest, DoProbe, DoUnlock, DoFetch, DoCalloc, DoCallocFails, DoPublish, DoLink, DoNumber, DoCreate,
         DoAbandon, DoVanish, DoLockToFree, DoUnlockFreed, DoGone;
    if !Rehands(l) {
      HolderStays(s, l, s');
    } else if l.Mark? {
      MarkedSlotIsFree(s, l.t);
    } else if l.HandOver? {
      OwnedFacts(s, l.t, l.p);
    } else {
      ClearSucceeds(s, l.t);
    }
  }

  /** Every losing event loses one more slot, and no other event gives one back. */
  lemma {:induction false} LossesAddUp(t0: Tid, ls: seq<Label>, s: Pool)
    requires Run(Empty(t0), ls) == Some(s)
    ensures |Leaks(s)| == Losses(ls)
    decreases |ls|
  {
    if ls != [] {
      var front, l := ls[..|ls| - 1], ls[|ls| - 1];
      var mid := Run(Empty(t0), front).value;
      ReachableFine(t0, front, mid);
      hide Inv, Apply, Empty, Loses, Leaks;
      LossesAddUp(t0, front, mid);
      if Loses(l) {
        LosingStep(mid, l, s);
      } else {
        KeepingStep(mid, l, s);
      }
    }
  }

  lemma {:induction false} NoLosses(ls: seq<Label>)
    ensures Losses(ls) == 0 <==> forall l | l in ls :: !Loses(l)
  {
    hide Loses;
    if ls != [] {
      var front := ls[..|ls| - 1];
      NoLosses(front);
      assert forall l | l in ls :: l in front || l == ls[|ls| - 1];
    }
  }

  ghost predicate AllClaimed(s: Pool)
  {
    forall i: nat | i < |s.slots| && s.slots[i].valid :: exists t :: Claims(s, t, i)
  }

  /** Every valid slot has a thread that is answerable for it, if and only if no clone failed, no memory ran
      out and no thread left without freeing its core. */
  lemma AllClaimedIffNoneLost(t0: Tid, ls: seq<Label>, s: Pool)
    requires Run(Empty(t0), ls) == Some(s)
    ensures AllClaimed(s) <==> forall l | l in ls :: !Loses(l)
  {
    ReachableFine(t0, ls, s);
    LossesAddUp(t0, ls, s);
    NoLosses(ls);
    hide Inv, Run, Claims, Losses;
    if Leaks(s) == {} {
      forall i: nat | i < |s.slots| && s.slots[i].valid ensures exists t :: Claims(s, t, i) {
        ValidIffClaimed(t0, ls, s, i);
      }
    } else {
      var i :| i in Leaks(s);
      LeakIsUnclaimed(s, i);
    }
  }

  /** `without bound`, exactly: an allocation finds a slot if and only if the slots lost so far and those in
      use are not all there are; once as many as there are slots have been lost, none ever will. */
  lemma LossesBoundTheRest(t0: Tid, ls: seq<Label>, s: Pool)
    requires Run(Empty(t0), ls) == Some(s)
    ensures Losses(ls) <= KVM_MAX_VCPUS
    ensures Losses(ls) == KVM_MAX_VCPUS ==> FirstFree(Valids(s)) == KVM_MAX_VCPUS
    ensures FirstFree(Valids(s)) == KVM_MAX_VCPUS
            <==> forall i: nat | i < |s.slots| :: i in Leaks(s) || exists t :: Claims(s, t, i)
  {
    ReachableFine(t0, ls, s);
    LossesAddUp(t0, ls, s);
    assert |s.slots| == KVM_MAX_VCPUS;
    forall i | i in Leaks(s) ensures i < KVM_MAX_VCPUS && s.slots[i].valid {
      LeakIsUnclaimed(s, i);
    }
    hide Inv, Run, Claims, Losses;
    Below(Leaks(s), KVM_MAX_VCPUS);
    forall i: nat | i < |s.slots| ensures s.slots[i].valid <==> i in Leaks(s) || exists t :: Claims(s, t, i) {
      ValidIffClaimed(t0, ls, s, i);
    }
    hide Leaks;
    if forall i: nat | i < |s.slots| :: s.slots[i].valid {
      FirstFreeIs(Valids(s), KVM_MAX_VCPUS);
    }
  }

  /** A parent whose host clone fails, for one: the slot of the child's core stays valid, and nobody is
      answerable for it. */
  lemma LossIsReal(t0: Tid) returns (ls: seq<Label>, s: Pool, i: nat)
    ensures Run(Empty(t0), ls) == Some(s) && i < |s.slots| && s.slots[i].valid && !exists t :: Claims(s, t, i)
  {
    hide Inv, Run;
    var e := Empty(t0);
    EmptyIsFine(t0);
    FirstFreeIs(Valids(e), 0);
    var l1, s1, p1 := Allocation(e, t0, 0);
    RunKeeps(e, l1, s1);
    FirstFreeIs(Valids(s1), 1);
    var l2, s2, p2 := Allocation(s1, t0, 1);
    RunJoins(e, l1, s1, l2);
    assert 1 in s2.threads[t0].owned && s2.heap[1].cpuId == 1;
    s := DoAbandon(s2, t0, 1).value;
    ls := Then(e, l1 + l2, s2, Abandon(t0, 1));
    RunKeeps(e, ls, s);
    i := 1;
    LeakIsUnclaimed(s, i);
  }
}
