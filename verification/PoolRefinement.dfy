/** The interleaved pool implements the atomic allocator: every run of single memory accesses is a run of
    `Take` and `Give`, and each allocation hands out the core of the slot that its `Take` yielded. */
module PoolRefinement {
  import opened Words
  import opened Slots
  import opened Allocator
  import opened PoolProtocol
  import opened PoolSafety
  import opened PoolRuns

  /** A slot has a core, or an allocation that is about to give it one. */
  function AllocatorOf(s: Pool): Allocator
  {
    Allocator(Valids(s), set i: nat | i < |s.slots| && (s.slots[i].vcpu.Some? || i in s.holder))
  }

  /** Allocation takes effect when the valid bit is set, release when it is cleared. */
  function OpOf(s: Pool, l: Label): Option<Op>
  {
    match l
    case Mark(_) => Some(Take)
    case Clear(t) =>
      if t in s.threads && s.threads[t].pc.Freeing? && s.threads[t].pc.p in s.heap
      then Some(Give(s.heap[s.threads[t].pc.p].cpuId)) else None
    case _ => None
  }

  lemma MarkTakes(s: Pool, t: Tid, s': Pool)
    requires Inv(s) && DoMark(s, t) == Some(s')
    ensures Do(AllocatorOf(s), Take) == Some(AllocatorOf(s'))
  {
    MarkIsAtomic(s, t, s');
    assert ThreadFine(s, t);
    FirstFreeIs(Valids(s), s.threads[t].pc.i);
    hide Inv, ThreadFine;
    assert AllocatorOf(s').cored == AllocatorOf(s).cored + {FirstFree(Valids(s))};
  }

  lemma ClearGives(s: Pool, t: Tid, s': Pool)
    requires Inv(s) && DoClear(s, t) == Some(s')
    ensures OpOf(s, Clear(t)).Some? && Do(AllocatorOf(s), OpOf(s, Clear(t)).value) == Some(AllocatorOf(s'))
  {
    ClearSucceeds(s, t);
    hide Inv;
    assert AllocatorOf(s').cored == AllocatorOf(s).cored;
    assert Valids(s') == Valids(s)[s.heap[s.threads[t].pc.p].cpuId := false];
  }

  lemma HolderKeys(s: Pool, l: Label, s': Pool)
    requires Inv(s) && Apply(s, l) == Some(s') && !l.Mark? && !l.Clear?
    ensures s'.holder.Keys == s.holder.Keys
  {
    hide Inv, DoLock, DoTest, DoMark, DoProbe, DoUnlock, DoFetch, DoCalloc, DoPublish, DoLink, DoNumber, DoCreate,
         DoLockToFree, DoClear, DoUnlockFreed, DoGone;
    if l.CallocFails? {
      ClaimFine(s, l.t);
    } else if Rehands(l) {
      OwnedFacts(s, l.t, l.p);
    } else {
      HolderStays(s, l, s');
    }
  }

  lemma ClaimFine(s: Pool, t: Tid)
    requires Inv(s) && t in s.threads && ClaimOf(s.threads[t].pc).Some?
    ensures ClaimOf(s.threads[t].pc).value in s.holder
  {
    assert ThreadFine(s, t);
  }

  lemma PublishSlot(s: Pool, t: Tid, s': Pool)
    requires Inv(s) && DoPublish(s, t) == Some(s')
    ensures |s'.slots| == |s.slots|
    ensures forall i | 0 <= i < |s.slots| ::
              && s'.slots[i].valid == s.slots[i].valid
              && (s'.slots[i].vcpu == s.slots[i].vcpu || (i in s.holder && s'.slots[i].vcpu.Some?))
  {
    assert ThreadFine(s, t);
    hide Inv, ThreadFine;
  }

  lemma SlotsStay(s: Pool, l: Label, s': Pool)
    requires Apply(s, l) == Some(s') && !l.Mark? && !l.Clear? && !l.Publish?
    ensures s'.slots == s.slots
  {
  }

  /** What the other steps do to slots: at most a pointer appears in one that is taken. */
  lemma OtherSlots(s: Pool, l: Label, s': Pool)
    requires Inv(s) && Apply(s, l) == Some(s') && !l.Mark? && !l.Clear?
    ensures |s'.slots| == |s.slots| && s'.holder.Keys == s.holder.Keys
    ensures forall i | 0 <= i < |s.slots| ::
              && s'.slots[i].valid == s.slots[i].valid
              && (s'.slots[i].vcpu == s.slots[i].vcpu || (i in s.holder && s'.slots[i].vcpu.Some?))
  {
    hide Inv, DoPublish;
    HolderKeys(s, l, s');
    if l.Publish? {
      PublishSlot(s, l.t, s');
    } else {
      SlotsStay(s, l, s');
      hide Apply;
    }
  }

  /** Each step is one operation of the atomic allocator or none. */
  lemma StepRefines(s: Pool, l: Label, s': Pool)
    requires Inv(s) && Apply(s, l) == Some(s')
    ensures match OpOf(s, l)
            case None => AllocatorOf(s') == AllocatorOf(s)
            case Some(op) => Do(AllocatorOf(s), op) == Some(AllocatorOf(s'))
  {
    hide Inv, Do, DoMark, DoClear;
    match l {
      case Mark(t) => MarkTakes(s, t, s');
      case Clear(t) => ClearGives(s, t, s');
      case _ =>
        OtherSlots(s, l, s');
        hide Apply;
        assert AllocatorOf(s').cored == AllocatorOf(s).cored;
        assert Valids(s') == Valids(s);
    }
  }

  /** The operations that a run is. */
  function OpsOf(s: Pool, ls: seq<Label>): seq<Op>
    decreases |ls|
  {
    if ls == [] then [] else
      var front := OpsOf(s, ls[..|ls| - 1]);
      match Run(s, ls[..|ls| - 1])
      case None => front
      case Some(m) =>
        match OpOf(m, ls[|ls| - 1])
        case None => front
        case Some(op) => front + [op]
  }

  lemma {:induction false} RunRefines(s: Pool, ls: seq<Label>, s': Pool)
    requires Inv(s) && Run(s, ls) == Some(s')
    ensures DoAll(AllocatorOf(s), OpsOf(s, ls)) == Some(AllocatorOf(s'))
    decreases |ls|
  {
    hide Inv, Apply, AllocatorOf, OpOf, Do;
    if ls != [] {
      var front, l := ls[..|ls| - 1], ls[|ls| - 1];
      var mid := Run(s, front).value;
      RunRefines(s, front, mid);
      RunKeeps(s, front, mid);
      StepRefines(mid, l, s');
      if OpOf(mid, l).Some? {
        var ops := OpsOf(s, ls);
        assert ops[..|ops| - 1] == OpsOf(s, front);
      }
    }
  }

  /** Every interleaving from the empty pool is a run of the atomic allocator. */
  lemma PoolIsAllocator(t0: Tid, ls: seq<Label>, s: Pool)
    requires Run(Empty(t0), ls) == Some(s)
    ensures DoAll(NoneTaken(), OpsOf(Empty(t0), ls)) == Some(AllocatorOf(s))
  {
    EmptyIsFine(t0);
    hide Inv, Run;
    RunRefines(Empty(t0), ls, s);
    assert AllocatorOf(Empty(t0)).cored == {};
    assert Valids(Empty(t0)) == NoneTaken().valid;
  }

  // ---------- What an allocation returns ----------

  /** Thread `t` is in the same call of `kvm_alloc_vcpu` all along the run. */
  predicate StillAllocating(s: Pool, ls: seq<Label>, t: Tid)
    decreases |ls|
  {
    && (match Run(s, ls)
        case None => false
        case Some(m) => t in m.threads && ClaimOf(m.threads[t].pc).Some?)
    && (ls != [] ==> StillAllocating(s, ls[..|ls| - 1], t))
  }

  lemma StepKeepsClaim(s: Pool, l: Label, s': Pool, t: Tid)
    requires Apply(s, l) == Some(s') && t in s.threads && ClaimOf(s.threads[t].pc).Some?
    requires t in s'.threads && ClaimOf(s'.threads[t].pc).Some?
    ensures ClaimOf(s'.threads[t].pc) == ClaimOf(s.threads[t].pc) && s'.threads[t].owned == s.threads[t].owned
  {
  }

  lemma {:induction false} RunKeepsClaim(s: Pool, ls: seq<Label>, s': Pool, t: Tid)
    requires Run(s, ls) == Some(s') && StillAllocating(s, ls, t)
    ensures t in s.threads && t in s'.threads
    ensures ClaimOf(s'.threads[t].pc) == ClaimOf(s.threads[t].pc) && s'.threads[t].owned == s.threads[t].owned
    decreases |ls|
  {
    hide Apply, ClaimOf;
    if ls != [] {
      var mid := Run(s, ls[..|ls| - 1]).value;
      RunKeepsClaim(s, ls[..|ls| - 1], mid, t);
      StepKeepsClaim(mid, ls[|ls| - 1], s', t);
    }
  }

  /** A call ends by handing its thread the core of the claimed slot, complete. */
  lemma CallEnds(s: Pool, l: Label, s': Pool, t: Tid)
    requires Inv(s) && Apply(s, l) == Some(s') && t in s.threads && ClaimOf(s.threads[t].pc).Some?
    requires t in s'.threads && s'.threads[t].pc.Outside?
    ensures var i := ClaimOf(s.threads[t].pc).value;
            && i < |s'.slots| && s'.slots[i].vcpu.Some?
            && var p := s'.slots[i].vcpu.value;
               && s'.threads[t].owned == s.threads[t].owned + {p}
               && p in s'.heap && s'.heap[p] == KvmCpu(true, i, true)
  {
    EndsByReturn(s, l, s', t);
    if l == Fetch(t) {
      FetchSettles(s, t);
      CompleteCore(s, s.threads[t].pc.i);
    } else {
      CreateSucceeds(s, t);
    }
    hide Inv;
  }

  lemma EndsByReturn(s: Pool, l: Label, s': Pool, t: Tid)
    requires Apply(s, l) == Some(s') && t in s.threads && ClaimOf(s.threads[t].pc).Some?
    requires t in s'.threads && s'.threads[t].pc.Outside?
    ensures (l == Fetch(t) && s.threads[t].pc.Fetching?) || (l == Create(t) && s.threads[t].pc.Opening?)
  {
  }

  lemma CompleteCore(s: Pool, i: nat)
    requires Inv(s) && i < |s.slots| && s.slots[i].vcpu.Some? && s.slots[i].vcpu.value in s.heap
    requires s.heap[s.slots[i].vcpu.value].hasFd
    ensures s.heap[s.slots[i].vcpu.value] == KvmCpu(true, i, true)
  {
    assert SlotFine(s, i);
  }

  lemma OwnedElsewhere(s: Pool, ls: seq<Label>, s': Pool, t: Tid, f: nat, p: Ptr)
    requires Inv(s) && Run(s, ls) == Some(s') && t in s.threads && f !in s.holder
    requires f < |s'.slots| && s'.slots[f].vcpu == Some(p)
    ensures p !in s.threads[t].owned
  {
    hide Run, ThreadsFine, SlotsFine, LockOk;
    if p in s.threads[t].owned {
      OwnedFacts(s, t, p);
      PublishedForGood(s, ls, s', s.heap[p].cpuId, p);
      RunKeeps(s, ls, s');
    }
  }

  /** Whatever happens between the two, an allocation returns the core of the slot that was the first free
      one when its valid bit was set: the core that the slot had then, or, if it had none, a new one.  The
      thread did not own it before. */
  lemma AllocationReturns(s: Pool, t: Tid, s1: Pool, ls: seq<Label>, s2: Pool, l: Label, s3: Pool)
    requires Inv(s) && DoMark(s, t) == Some(s1) && Run(s1, ls) == Some(s2) && StillAllocating(s1, ls, t)
    requires Apply(s2, l) == Some(s3) && t in s3.threads && s3.threads[t].pc.Outside?
    ensures var f := FirstFree(Valids(s));
            && f < |s.slots| == |s3.slots| && s3.slots[f].vcpu.Some?
            && var p := s3.slots[f].vcpu.value;
               && p !in s.threads[t].owned && s3.threads[t].owned == s.threads[t].owned + {p}
               && p in s3.heap && s3.heap[p] == KvmCpu(true, f, true)
               && (s.slots[f].vcpu.Some? ==> p == s.slots[f].vcpu.value)
               && (s.slots[f].vcpu == None ==> f !in s.created)
  {
    hide Inv, Run, Apply, ClaimOf, DoMark, StillAllocating;
    var f := FirstFree(Valids(s));
    MarkClaims(s, t, s1);
    MarkKeeps(s, s1, t);
    RunKeeps(s1, ls, s2);
    RunKeepsClaim(s1, ls, s2, t);
    CallEnds(s2, l, s3, t);
    var p := s3.slots[f].vcpu.value;
    MarkRun(s, t, s1, ls, s2, l, s3);
    OwnedElsewhere(s, [Mark(t)] + ls + [l], s3, t, f, p);
    SlotCount(s);
    RunKeeps(s, [Mark(t)] + ls + [l], s3);
    SlotCount(s3);
    if s.slots[f].vcpu.Some? {
      PublishedForGood(s, [Mark(t)] + ls + [l], s3, f, s.slots[f].vcpu.value);
    }
  }

  lemma MarkClaims(s: Pool, t: Tid, s1: Pool)
    requires Inv(s) && DoMark(s, t) == Some(s1)
    ensures var f := FirstFree(Valids(s));
            && f < KVM_MAX_VCPUS == |s.slots| && t in s.threads && t in s1.threads
            && ClaimOf(s1.threads[t].pc) == Some(f) && s1.threads[t].owned == s.threads[t].owned
            && f !in s.holder && (s.slots[f].vcpu == None ==> f !in s.created)
  {
    MarkedIsFree(s, t);
    hide Inv;
  }

  lemma MarkedIsFree(s: Pool, t: Tid)
    requires Inv(s) && t in s.threads && s.threads[t].pc.Claiming?
    ensures var f := FirstFree(Valids(s));
            s.threads[t].pc.i == f < |s.slots| == KVM_MAX_VCPUS && f !in s.holder && (s.slots[f].vcpu == None ==> f !in s.created)
  {
    ScanFindsFirst(s, t);
    assert SlotFine(s, FirstFree(Valids(s)));
  }

  lemma MarkRun(s: Pool, t: Tid, s1: Pool, ls: seq<Label>, s2: Pool, l: Label, s3: Pool)
    requires DoMark(s, t) == Some(s1) && Run(s1, ls) == Some(s2) && Apply(s2, l) == Some(s3)
    ensures Run(s, [Mark(t)] + ls + [l]) == Some(s3)
  {
    assert Apply(s, Mark(t)) == Some(s1);
    hide Apply, DoMark;
    assert Run(s, []) == Some(s);
    var one := Then(s, [], s, Mark(t));
    RunJoins(s, [Mark(t)], s1, ls);
    var all := Then(s, [Mark(t)] + ls, s2, l);
  }
}
