/** No call of the pool's functions ever hangs on another thread but for the lock itself: its next step is
    always possible, it has a bounded number of them, and the lock always comes free. */
module PoolProgress {
  import opened Words
  import opened Slots
  import opened PoolProtocol
  import opened PoolRuns

  /** In a call of `kvm_alloc_vcpu`, or between `kvm_free_vcpu` and the end of the thread. */
  predicate Inside(pc: Pc) { !pc.Outside? && !pc.Dying? }

  /** The step a thread takes next; `p` is what calloc would return. */
  function NextStep(pc: Pc, t: Tid, p: Ptr): Label
  {
    match pc
    case Outside => Lock(t)
    case Scanning(_) => Test(t)
    case Claiming(_) => Mark(t)
    case Probing(_) => Probe(t)
    case Reusing(_) => Unlock(t)
    case Creating(_) => Unlock(t)
    case FoundNone => Unlock(t)
    case Fetching(_) => Fetch(t)
    case Allocating(_) => Calloc(t, p)
    case Publishing(_, _) => Publish(t)
    case Linking(_, _) => Link(t)
    case Numbering(_, _) => Number(t)
    case Opening(_, _) => Create(t)
    case Freeing(_) => Clear(t)
    case Freed(_) => UnlockFreed(t)
    case Exiting(_) => Gone(t)
    case Dying => Gone(t)
  }

  /** A bound on the steps that are left of a call. */
  function Rank(pc: Pc): nat
  {
    match pc
    case Scanning(i) => 11 + if i < KVM_MAX_VCPUS then KVM_MAX_VCPUS - i else 0
    case Claiming(_) => 10
    case Probing(_) => 9
    case Creating(_) => 8
    case Allocating(_) => 7
    case Publishing(_, _) => 6
    case Linking(_, _) => 5
    case Numbering(_, _) => 4
    case Opening(_, _) => 3
    case Reusing(_) => 2
    case Fetching(_) => 1
    case FoundNone => 1
    case Freeing(_) => 3
    case Freed(_) => 2
    case Exiting(_) => 1
    case _ => 0
  }

  lemma PlaceFine(s: Pool, t: Tid)
    requires Inv(s) && t in s.threads
    ensures |s.slots| == KVM_MAX_VCPUS && ScanOk(s, s.threads[t].pc) && CoreFine(s, s.threads[t].pc)
    ensures s.threads[t].pc.Probing? ==> s.threads[t].pc.i < |s.slots|
  {
    assert ThreadFine(s, t);
    if s.threads[t].pc.Probing? {
      assert s.threads[t].pc.i in s.holder;
    }
  }

  /** Whatever the other threads are doing, a thread inside a call can take its next step. */
  lemma CanGoOn(s: Pool, t: Tid, p: Ptr)
    requires Inv(s) && t in s.threads && Inside(s.threads[t].pc) && p !in s.heap
    ensures Apply(s, NextStep(s.threads[t].pc, t, p)).Some?
  {
    hide Inv;
    PlaceFine(s, t);
    if s.threads[t].pc.Freeing? { ClearSucceeds(s, t); }
  }

  predicate TakesLock(l: Label) { l.Lock? || l.LockToFree? || l.HandOver? || l.Abandon? || l.Vanish? }

  lemma StartsOutside(s: Pool, l: Label, s': Pool)
    requires Apply(s, l) == Some(s') && TakesLock(l)
    ensures l.t in s.threads && s.threads[l.t].pc.Outside?
  {
  }

  lemma OwnScanStep(s: Pool, l: Label, s': Pool, t: Tid)
    requires Inv(s) && Apply(s, l) == Some(s') && l.t == t && t in s.threads && (l.Test? || l.Mark? || l.Probe? || l.Unlock?)
    ensures t in s'.threads ==> Rank(s'.threads[t].pc) < Rank(s.threads[t].pc)
  {
    hide Inv;
    PlaceFine(s, t);
  }

  lemma OwnLateStep(s: Pool, l: Label, s': Pool, t: Tid)
    requires Apply(s, l) == Some(s') && l.t == t && t in s.threads
    requires !TakesLock(l) && !l.Test? && !l.Mark? && !l.Probe? && !l.Unlock?
    ensures t in s'.threads ==> Rank(s'.threads[t].pc) < Rank(s.threads[t].pc)
  {
  }

  /** Its own steps bring the call closer to its end. */
  lemma OwnStep(s: Pool, l: Label, s': Pool, t: Tid)
    requires Inv(s) && Apply(s, l) == Some(s') && l.t == t && t in s.threads && Inside(s.threads[t].pc)
    ensures t in s'.threads ==> Rank(s'.threads[t].pc) < Rank(s.threads[t].pc)
  {
    hide Inv, Apply, Rank;
    if TakesLock(l) {
      StartsOutside(s, l, s');
    } else if l.Test? || l.Mark? || l.Probe? || l.Unlock? {
      OwnScanStep(s, l, s', t);
    } else {
      OwnLateStep(s, l, s', t);
    }
  }

  /** No other thread moves it. */
  lemma OtherStep(s: Pool, l: Label, s': Pool, t: Tid)
    requires Apply(s, l) == Some(s') && l.t != t && t in s.threads
    ensures t in s'.threads && s'.threads[t] == s.threads[t]
  {
  }

  /** All along the run the thread is inside the same call. */
  predicate StaysInside(s: Pool, ls: seq<Label>, t: Tid)
    decreases |ls|
  {
    && (match Run(s, ls)
        case None => false
        case Some(m) => t in m.threads && Inside(m.threads[t].pc))
    && (ls != [] ==> StaysInside(s, ls[..|ls| - 1], t))
  }

  function StepsOf(ls: seq<Label>, t: Tid): nat
  {
    if ls == [] then 0 else StepsOf(ls[..|ls| - 1], t) + if ls[|ls| - 1].t == t then 1 else 0
  }

  /** A call takes at most 27 steps of its own, whatever the others do in between. */
  lemma {:induction false} CallIsBounded(s: Pool, ls: seq<Label>, s': Pool, t: Tid)
    requires Inv(s) && Run(s, ls) == Some(s') && StaysInside(s, ls, t)
    ensures t in s.threads && t in s'.threads
    ensures StepsOf(ls, t) + Rank(s'.threads[t].pc) <= Rank(s.threads[t].pc) <= 27
    decreases |ls|
  {
    hide Inv, Apply;
    if ls != [] {
      var front, l := ls[..|ls| - 1], ls[|ls| - 1];
      var mid := Run(s, front).value;
      CallIsBounded(s, front, mid, t);
      RunKeeps(s, front, mid);
      if l.t == t {
        OwnStep(mid, l, s', t);
      } else {
        OtherStep(mid, l, s', t);
      }
    }
  }

  /** What may become of a core that was handed out, and of an allocation: each of these can happen whenever
      its occasion is there. */
  lemma OccasionsAreFree(s: Pool, t: Tid, child: Tid, p: Ptr)
    requires Inv(s) && t in s.threads
    ensures s.threads[t].pc.Outside? && p in s.threads[t].owned ==>
              && (Apply(s, HandOver(t, child, p)).Some? <==> child !in s.threads)
              && Apply(s, Abandon(t, p)).Some?
              && (Apply(s, Vanish(t, p)).Some? <==> s.threads[t].owned == {p})
    ensures s.threads[t].pc.Allocating? ==> Apply(s, CallocFails(t)).Some?
  {
    if p in s.threads[t].owned { OwnedFacts(s, t, p); }
    hide Inv;
  }

  // ---------- The lock ----------

  /** A thread gets the lock if and only if nobody has it. */
  lemma LockIffFree(s: Pool, t: Tid, p: Ptr)
    requires t in s.threads && s.threads[t].pc.Outside?
    ensures Apply(s, Lock(t)).Some? <==> s.lock == None
    ensures Apply(s, LockToFree(t, p)).Some? <==> s.lock == None && s.threads[t].owned == {p}
  {
  }

  lemma StepInLock(s: Pool, t: Tid, p: Ptr) returns (l: Label, s': Pool)
    requires Inv(s) && s.lock == Some(t) && p !in s.heap
    ensures l.t == t && Apply(s, l) == Some(s') && Inv(s') && p !in s'.heap
    ensures s'.lock == None || s'.lock == Some(t)
    ensures t in s.threads && t in s'.threads && Rank(s'.threads[t].pc) < Rank(s.threads[t].pc)
  {
    hide Inv, Apply, Rank;
    LockHolder(s, t);
    l := NextStep(s.threads[t].pc, t, p);
    CanGoOn(s, t, p);
    s' := Apply(s, l).value;
    StepKeeps(s, l, s');
    OwnStep(s, l, s', t);
    StepInside(s, l, s', t, p);
  }

  lemma StepInside(s: Pool, l: Label, s': Pool, t: Tid, p: Ptr)
    requires s.lock == Some(t) && t in s.threads && Locked(s.threads[t].pc) && p !in s.heap
    requires Apply(s, l) == Some(s') && l == NextStep(s.threads[t].pc, t, p)
    ensures t in s'.threads && s'.heap == s.heap && (s'.lock == None || s'.lock == Some(t))
  {
  }

  lemma LockHolder(s: Pool, t: Tid)
    requires Inv(s) && s.lock == Some(t)
    ensures t in s.threads && Locked(s.threads[t].pc) && Inside(s.threads[t].pc)
  {
  }

  /** From every reachable state the thread that has the lock gives it back, by its own steps alone. */
  lemma {:induction false} LockComesFree(s: Pool, t: Tid, p: Ptr) returns (ls: seq<Label>, s': Pool)
    requires Inv(s) && s.lock == Some(t) && p !in s.heap
    ensures Run(s, ls) == Some(s') && By(ls, t) && s'.lock == None
    ensures t in s.threads && |ls| <= Rank(s.threads[t].pc)
    decreases if t in s.threads then Rank(s.threads[t].pc) else 0
  {
    hide Inv, Apply;
    var l, mid := StepInLock(s, t, p);
    assert Run(s, []) == Some(s);
    ls := Then(s, [], s, l);
    if mid.lock == None {
      s' := mid;
    } else {
      var rest;
      rest, s' := LockComesFree(mid, t, p);
      RunJoins(s, ls, mid, rest);
      ls := ls + rest;
    }
  }
}
