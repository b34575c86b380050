/** What the interleavings of the pool protocol add up to: exclusive holders, pointers that never change,
    one creation per id, which slots are valid, and when a thread dies. */
module PoolSafety {
  import opened Words
  import opened Slots
  import opened PoolProtocol

  lemma ReachableFine(t0: Tid, ls: seq<Label>, s: Pool)
    requires Run(Empty(t0), ls) == Some(s)
    ensures Inv(s)
  {
    EmptyIsFine(t0);
    hide Inv, Empty;
    RunKeeps(Empty(t0), ls, s);
  }

  lemma SlotCount(s: Pool)
    requires Inv(s)
    ensures |s.slots| == KVM_MAX_VCPUS
  {
  }

  // ---------- Exclusive holders ----------

  /** The steps that change who is answerable for a slot. */
  predicate Rehands(l: Label)
  {
    l.Mark? || l.Clear? || l.HandOver? || l.CallocFails? || l.Abandon? || l.Vanish?
  }

  lemma HolderStays(s: Pool, l: Label, s': Pool)
    requires Apply(s, l) == Some(s') && !Rehands(l)
    ensures s'.holder == s.holder
  {
  }

  lemma LockIsExclusive(t0: Tid, ls: seq<Label>, s: Pool, t: Tid, u: Tid)
    requires Run(Empty(t0), ls) == Some(s)
    requires t in s.threads && Locked(s.threads[t].pc) && u in s.threads && Locked(s.threads[u].pc)
    ensures t == u && s.lock == Some(t)
  {
    ReachableFine(t0, ls, s);
    hide Run, ThreadsFine, SlotsFine;
  }

  lemma ClaimIsHeld(s: Pool, t: Tid, i: nat)
    requires Inv(s) && i < |s.slots| && Claims(s, t, i)
    ensures i in s.holder && s.holder[i] == Held(t) && s.slots[i].valid
  {
    assert ThreadFine(s, t) && SlotFine(s, i);
    if ClaimOf(s.threads[t].pc) != Some(i) {
      OwnedFacts(s, t, s.slots[i].vcpu.value);
    }
    hide Distinct, LockOk, ScanOk, CoreFine;
  }

  /** At most one thread has claimed a slot or was handed its core, and then the slot is valid. */
  lemma ClaimsAreExclusive(t0: Tid, ls: seq<Label>, s: Pool, i: nat, t: Tid, u: Tid)
    requires Run(Empty(t0), ls) == Some(s) && i < |s.slots| && Claims(s, t, i)
    ensures s.slots[i].valid
    ensures Claims(s, u, i) ==> u == t
  {
    ReachableFine(t0, ls, s);
    hide Inv, Run, Claims;
    ClaimIsHeld(s, t, i);
    if Claims(s, u, i) { ClaimIsHeld(s, u, i); }
  }

  /** No core is owned twice, and an owned core is complete, sits in its slot and has its number. */
  lemma OwnersAreExclusive(t0: Tid, ls: seq<Label>, s: Pool, t: Tid, u: Tid, p: Ptr)
    requires Run(Empty(t0), ls) == Some(s)
    requires t in s.threads && p in s.threads[t].owned && u in s.threads && p in s.threads[u].owned
    ensures t == u && Settled(s, p) && s.slots[s.heap[p].cpuId].valid
  {
    ReachableFine(t0, ls, s);
    hide Inv, Run;
    OwnedFacts(s, t, p);
    OwnedFacts(s, u, p);
  }

  /** Slots that nobody will ever give back. */
  function Leaks(s: Pool): set<nat>
  {
    set i | i in s.holder && s.holder[i].Leaked?
  }

  lemma LeakIsUnclaimed(s: Pool, i: nat)
    requires Inv(s) && i in Leaks(s)
    ensures i < |s.slots| && s.slots[i].valid && forall t :: !Claims(s, t, i)
  {
    assert SlotFine(s, i);
    hide Inv, Claims, SlotFine;
    forall t ensures !Claims(s, t, i) {
      if Claims(s, t, i) { ClaimIsHeld(s, t, i); }
    }
  }

  /** A slot is valid exactly when some thread, and by `ClaimsAreExclusive` only one, is answerable for it,
      or when it was lost; and never both. */
  lemma ValidIffClaimed(t0: Tid, ls: seq<Label>, s: Pool, i: nat)
    requires Run(Empty(t0), ls) == Some(s) && i < |s.slots|
    ensures s.slots[i].valid <==> (exists t :: Claims(s, t, i)) || i in Leaks(s)
    ensures i in Leaks(s) ==> !exists t :: Claims(s, t, i)
  {
    ReachableFine(t0, ls, s);
    hide Run;
    assert SlotFine(s, i);
    if i in Leaks(s) {
      LeakIsUnclaimed(s, i);
    } else if s.slots[i].valid {
      assert Claims(s, s.holder[i].t, i);
    }
    if t :| Claims(s, t, i) {
      ClaimIsHeld(s, t, i);
    }
  }

  lemma MarkedSlotIsFree(s: Pool, t: Tid)
    requires Inv(s) && t in s.threads && s.threads[t].pc.Claiming?
    ensures s.threads[t].pc.i !in s.holder
  {
    assert ThreadFine(s, t) && SlotFine(s, s.threads[t].pc.i);
  }

  // ---------- Publication and creation ----------

  predicate Quiet(l: Label)
  {
    !l.Mark? && !l.Calloc? && !l.Publish? && !l.Link? && !l.Number? && !l.Create? && !l.Clear?
  }

  lemma QuietStep(s: Pool, l: Label, s': Pool)
    requires Apply(s, l) == Some(s') && Quiet(l)
    ensures s'.slots == s.slots && s'.heap == s.heap
  {
  }

  lemma FineParts(s: Pool, t: Tid, i: nat)
    requires Inv(s) && t in s.threads && i < |s.slots|
    ensures CoreFine(s, s.threads[t].pc) && SlotFine(s, i)
  {
    assert ThreadFine(s, t);
  }

  lemma StepKeepsCores(s: Pool, l: Label, s': Pool, i: nat, p: Ptr)
    requires Inv(s) && Apply(s, l) == Some(s') && i < |s.slots| && s.slots[i].vcpu == Some(p)
    ensures |s'.slots| == |s.slots| && s'.slots[i].vcpu == Some(p)
    ensures p in s.heap && p in s'.heap && (s.heap[p].hasFd ==> s'.heap[p] == s.heap[p])
  {
    hide Inv;
    ActsOnThread(s, l);
    FineParts(s, l.t, i);
    if Quiet(l) {
      QuietStep(s, l, s');
      hide Apply;
    }
  }

  lemma ActsOnThread(s: Pool, l: Label)
    requires Apply(s, l).Some?
    ensures l.t in s.threads
  {
  }

  /** Once a pointer is published its slot never has another one, and once its core is complete it
      belongs to this VM and bears the slot's number for good, whoever owns it. */
  lemma {:induction false} PublishedForGood(s: Pool, ls: seq<Label>, s': Pool, i: nat, p: Ptr)
    requires Inv(s) && Run(s, ls) == Some(s') && i < |s.slots| && s.slots[i].vcpu == Some(p)
    ensures |s'.slots| == |s.slots| && s'.slots[i].vcpu == Some(p)
    ensures p in s.heap && p in s'.heap
    ensures s.heap[p].hasFd ==> s'.heap[p] == s.heap[p] && s'.heap[p].linked && s'.heap[p].cpuId == i
    decreases |ls|
  {
    assert SlotFine(s, i);
    hide Inv, Apply, SlotFine;
    if ls != [] {
      var front := ls[..|ls| - 1];
      var mid := Run(s, front).value;
      PublishedForGood(s, front, mid, i, p);
      RunKeeps(s, front, mid);
      StepKeepsCores(mid, ls[|ls| - 1], s', i, p);
    }
  }

  /** KVM_CREATE_VCPU is issued at most once for any id, and only for ids of this pool. */
  lemma CreatedOnce(t0: Tid, ls: seq<Label>, s: Pool, j: nat, k: nat)
    requires Run(Empty(t0), ls) == Some(s) && j < |s.created| && k < |s.created| && s.created[j] == s.created[k]
    ensures j == k && s.created[j] < KVM_MAX_VCPUS
  {
    ReachableFine(t0, ls, s);
    hide Run, ThreadsFine, LockOk;
  }

  // ---------- When the process dies ----------

  predicate MayDie(l: Label)
  {
    l.Unlock? || l.Fetch? || l.CallocFails? || l.Create? || l.Clear?
  }

  lemma OthersLiveOn(s: Pool, l: Label, s': Pool, t: Tid)
    requires Apply(s, l) == Some(s') && !(MayDie(l) && l.t == t)
    requires t in s.threads && !s.threads[t].pc.Dying? && t in s'.threads
    ensures !s'.threads[t].pc.Dying?
  {
  }

  lemma DiesOnlyFor(s: Pool, l: Label, s': Pool, t: Tid)
    requires Inv(s) && Apply(s, l) == Some(s')
    requires t in s.threads && !s.threads[t].pc.Dying? && t in s'.threads && s'.threads[t].pc.Dying?
    ensures l == CallocFails(t) || (l == Unlock(t) && s.threads[t].pc.FoundNone?)
  {
    if !(MayDie(l) && l.t == t) {
      OthersLiveOn(s, l, s', t);
    } else {
      match l {
        case Fetch(_) => FetchSettles(s, t);
        case Create(_) => CreateSucceeds(s, t);
        case Clear(_) => ClearSucceeds(s, t);
        case _ =>
      }
      hide Inv;
    }
  }

  /** A thread calls `die` only where all slots were valid when it looked, under the lock, or where calloc
      failed: the unlocked read never finds a null pointer, KVM never refuses the creation, and the
      assertion of `kvm_free_vcpu` never fails. */
  lemma DiesOnlyForLack(t0: Tid, ls: seq<Label>, s: Pool, l: Label, s': Pool, t: Tid)
    requires Run(Empty(t0), ls) == Some(s) && Apply(s, l) == Some(s')
    requires t in s.threads && !s.threads[t].pc.Dying? && t in s'.threads && s'.threads[t].pc.Dying?
    ensures l == CallocFails(t)
            || (l == Unlock(t) && s.lock == Some(t) && forall i | 0 <= i < |s.slots| :: s.slots[i].valid)
  {
    ReachableFine(t0, ls, s);
    DiesOnlyFor(s, l, s', t);
    hide Run, Inv, Apply;
    if s.threads[t].pc.FoundNone? { NoneIsFree(s, t); }
  }

  lemma NoneIsFree(s: Pool, t: Tid)
    requires Inv(s) && t in s.threads && s.threads[t].pc.FoundNone?
    ensures s.lock == Some(t) && forall i | 0 <= i < |s.slots| :: s.slots[i].valid
  {
    assert ThreadFine(s, t);
    hide SlotsFine, Distinct;
  }

  // ---------- The atomic allocator ----------

  /** The effect on the valid bits that each step is supposed to have: `Mark` allocates the first free
      slot, `Clear` frees the slot of a core, everything else is invisible. */
  function Atomic(s: Pool, l: Label): seq<bool>
  {
    match l
    case Mark(_) => if FirstFree(Valids(s)) < |s.slots| then Valids(s)[FirstFree(Valids(s)) := true] else Valids(s)
    case Clear(t) =>
      if t in s.threads && s.threads[t].pc.Freeing? && s.threads[t].pc.p in s.heap
         && s.heap[s.threads[t].pc.p].cpuId < |s.slots|
      then Valids(s)[s.heap[s.threads[t].pc.p].cpuId := false] else Valids(s)
    case _ => Valids(s)
  }

  lemma MarkIsAtomic(s: Pool, t: Tid, s': Pool)
    requires Inv(s) && DoMark(s, t) == Some(s')
    ensures FirstFree(Valids(s)) < |s.slots| && Valids(s') == Valids(s)[FirstFree(Valids(s)) := true]
    ensures s'.threads[t].pc == Probing(FirstFree(Valids(s))) && s.lock == Some(t)
  {
    assert ThreadFine(s, t);
    FirstFreeIs(Valids(s), s.threads[t].pc.i);
    hide SlotsFine, ThreadsFine, Distinct;
  }

  lemma ValidsStay(s: Pool, l: Label, s': Pool)
    requires Apply(s, l) == Some(s') && !l.Mark? && !l.Clear?
    ensures Valids(s') == Valids(s)
  {
  }

  lemma ClearIsAtomic(s: Pool, t: Tid, s': Pool)
    requires Inv(s) && DoClear(s, t) == Some(s')
    ensures Valids(s') == Atomic(s, Clear(t))
  {
    ClearSucceeds(s, t);
    hide Inv;
  }

  /** Fine-grained as they are, allocations take effect one by one: each step changes the valid bits as
      the sequential allocator does, at `Mark` and at `Clear`, or not at all. */
  lemma StepIsAtomic(s: Pool, l: Label, s': Pool)
    requires Inv(s) && Apply(s, l) == Some(s')
    ensures Valids(s') == Atomic(s, l)
  {
    hide Inv, DoMark, DoClear;
    match l {
      case Mark(t) => MarkIsAtomic(s, t, s');
      case Clear(t) => ClearIsAtomic(s, t, s');
      case _ => ValidsStay(s, l, s');
    }
    hide Apply;
  }

  /** The scan stops with a slot exactly when there is a free one, and it is the first. */
  lemma ScanFindsFirst(s: Pool, t: Tid)
    requires Inv(s) && t in s.threads
    ensures s.threads[t].pc.Claiming? ==> s.threads[t].pc.i == FirstFree(Valids(s)) < KVM_MAX_VCPUS
    ensures s.threads[t].pc.FoundNone? ==> FirstFree(Valids(s)) == KVM_MAX_VCPUS
  {
    assert ThreadFine(s, t);
    if s.threads[t].pc.Claiming? {
      FirstFreeIs(Valids(s), s.threads[t].pc.i);
    } else if s.threads[t].pc.FoundNone? {
      FirstFreeIs(Valids(s), KVM_MAX_VCPUS);
    }
    hide ThreadsFine, Distinct, LockOk;
  }
}
