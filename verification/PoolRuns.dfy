/** One thread alone in the pool functions: what `kvm_alloc_vcpu` and `kvm_free_vcpu` compute from start to
    end. */
module PoolRuns {
  import opened Words
  import opened Slots
  import opened PoolProtocol

  lemma {:induction false} RunJoins(s: Pool, ls: seq<Label>, mid: Pool, ms: seq<Label>)
    requires Run(s, ls) == Some(mid)
    ensures Run(s, ls + ms) == Run(mid, ms)
    decreases |ms|
  {
    hide Apply;
    if ms == [] {
      assert ls + ms == ls;
    } else {
      var all := ls + ms;
      assert all[..|all| - 1] == ls + ms[..|ms| - 1] && all[|all| - 1] == ms[|ms| - 1];
      RunJoins(s, ls, mid, ms[..|ms| - 1]);
    }
  }

  /** One more step at the end of a run. */
  lemma Then(s: Pool, ls: seq<Label>, mid: Pool, l: Label) returns (ms: seq<Label>)
    requires Run(s, ls) == Some(mid)
    ensures ms == ls + [l] && Run(s, ms) == Apply(mid, l)
  {
    hide Apply;
    ms := ls + [l];
    assert ms[..|ms| - 1] == ls;
  }

  predicate By(ls: seq<Label>, t: Tid)
  {
    forall l | l in ls :: l.t == t
  }

  /** The scan, undisturbed. */
  lemma {:induction false} Scans(s: Pool, t: Tid) returns (ls: seq<Label>, s': Pool)
    requires t in s.threads && s.threads[t].pc.Scanning? && s.threads[t].pc.i <= FirstFree(Valids(s))
    ensures Run(s, ls) == Some(s') && By(ls, t)
    ensures var f := FirstFree(Valids(s));
            s' == To(s, t, if f < |s.slots| then Claiming(f) else FoundNone)
    decreases FirstFree(Valids(s)) - s.threads[t].pc.i
  {
    var mid := DoTest(s, t).value;
    assert Run(s, []) == Some(s);
    ls := Then(s, [], s, Test(t));
    if s.threads[t].pc.i < FirstFree(Valids(s)) {
      assert Valids(mid) == Valids(s);
      var rest;
      rest, s' := Scans(mid, t);
      RunJoins(s, ls, mid, rest);
      ls := ls + rest;
    } else {
      s' := mid;
    }
  }

  /** What an undisturbed allocation leaves: the first free slot is taken, with the core that it has had
      or with a new one that is complete and published. */
  ghost predicate Allocates(s: Pool, s': Pool, t: Tid, p: Ptr)
  {
    var f := FirstFree(Valids(s));
    && f < |s.slots| && t in s.threads
    && (s.slots[f].vcpu == Some(p) || (s.slots[f].vcpu == None && p !in s.heap))
    && s'.threads == s.threads[t := Thread(Outside, s.threads[t].owned + {p})]
    && s'.slots == s.slots[f := Slot(true, Some(p))]
    && s'.heap == s.heap[p := KvmCpu(true, f, true)]
    && s'.created == s.created + (if s.slots[f].vcpu.Some? then [] else [f])
    && s'.lock == None && s'.holder == s.holder[f := Held(t)]
  }

  /** From the lock to the mark. */
  lemma TakesSlot(s: Pool, t: Tid) returns (ls: seq<Label>, s': Pool)
    requires t in s.threads && s.threads[t].pc.Outside? && s.lock == None && FirstFree(Valids(s)) < |s.slots|
    ensures Run(s, ls) == Some(s') && By(ls, t)
    ensures var f := FirstFree(Valids(s));
            s' == s.(threads := s.threads[t := s.threads[t].(pc := Probing(f))],
                     slots := s.slots[f := s.slots[f].(valid := true)],
                     lock := Some(t), holder := s.holder[f := Held(t)])
  {
    var f := FirstFree(Valids(s));
    var locked := To(s, t, Scanning(0)).(lock := Some(t));
    assert Run(s, []) == Some(s);
    ls := Then(s, [], s, Lock(t));
    assert Valids(locked) == Valids(s);
    var rest, claiming := Scans(locked, t);
    RunJoins(s, ls, locked, rest);
    ls := ls + rest;
    s' := DoMark(claiming, t).value;
    ls := Then(s, ls, claiming, Mark(t));
    assert s'.threads == s.threads[t := s.threads[t].(pc := Probing(f))];
  }

  /** An old core, read outside the lock. */
  lemma TakesOldCore(s: Pool, t: Tid) returns (ls: seq<Label>, s': Pool)
    requires t in s.threads && s.threads[t].pc.Probing?
    requires s.threads[t].pc.i < |s.slots| && s.slots[s.threads[t].pc.i].vcpu.Some?
    ensures Run(s, ls) == Some(s') && By(ls, t)
    ensures s' == Own(s, t, s.slots[s.threads[t].pc.i].vcpu.value).(lock := None)
  {
    var i := s.threads[t].pc.i;
    var reusing := To(s, t, Reusing(i));
    var fetching := To(reusing, t, Fetching(i)).(lock := None);
    assert Run(s, []) == Some(s);
    ls := Then(s, [], s, Probe(t));
    ls := Then(s, ls, reusing, Unlock(t));
    ls := Then(s, ls, fetching, Fetch(t));
    s' := DoFetch(fetching, t).value;
    assert s'.threads == Own(s, t, s.slots[i].vcpu.value).threads;
  }

  /** A new core, up to the publication of its pointer. */
  lemma PublishesNewCore(s: Pool, t: Tid, p: Ptr) returns (ls: seq<Label>, s': Pool)
    requires t in s.threads && s.threads[t].pc.Probing? && s.threads[t].pc.i < |s.slots|
    requires s.slots[s.threads[t].pc.i].vcpu == None && p !in s.heap
    ensures Run(s, ls) == Some(s') && By(ls, t)
    ensures var i := s.threads[t].pc.i;
            s' == SetSlot(To(s, t, Linking(i, p)), i, s.slots[i].(vcpu := Some(p)))
                  .(lock := None, heap := s.heap[p := KvmCpu(false, 0, false)])
  {
    var i := s.threads[t].pc.i;
    var s1 := To(s, t, Creating(i));
    var s2 := To(s1, t, Allocating(i)).(lock := None);
    var s3 := To(s2, t, Publishing(i, p)).(heap := s.heap[p := KvmCpu(false, 0, false)]);
    assert Run(s, []) == Some(s);
    ls := Then(s, [], s, Probe(t));
    ls := Then(s, ls, s1, Unlock(t));
    ls := Then(s, ls, s2, Calloc(t, p));
    ls := Then(s, ls, s3, Publish(t));
    s' := DoPublish(s3, t).value;
    assert s'.threads == To(s, t, Linking(i, p)).threads;
  }

  /** Its fields, and its kernel core. */
  lemma CompletesNewCore(s: Pool, t: Tid) returns (ls: seq<Label>, s': Pool)
    requires t in s.threads && s.threads[t].pc.Linking? && s.threads[t].pc.i < |s.slots|
    requires s.threads[t].pc.i !in s.created && s.threads[t].pc.p in s.heap
    ensures Run(s, ls) == Some(s') && By(ls, t)
    ensures var i, p := s.threads[t].pc.i, s.threads[t].pc.p;
            s' == Own(s, t, p).(heap := s.heap[p := KvmCpu(true, i, true)], created := s.created + [i])
  {
    var i, p := s.threads[t].pc.i, s.threads[t].pc.p;
    var s1 := To(s, t, Numbering(i, p)).(heap := s.heap[p := s.heap[p].(linked := true)]);
    var s2 := To(s1, t, Opening(i, p)).(heap := s1.heap[p := s1.heap[p].(cpuId := i)]);
    assert Run(s, []) == Some(s);
    ls := Then(s, [], s, Link(t));
    ls := Then(s, ls, s1, Number(t));
    ls := Then(s, ls, s2, Create(t));
    s' := DoCreate(s2, t).value;
    assert s'.threads == Own(s, t, p).threads;
    assert s'.heap == s.heap[p := KvmCpu(true, i, true)];
  }

  /** A new core, published and completed outside the lock. */
  lemma TakesNewCore(s: Pool, t: Tid, p: Ptr) returns (ls: seq<Label>, s': Pool)
    requires t in s.threads && s.threads[t].pc.Probing? && s.threads[t].pc.i < |s.slots|
    requires var i := s.threads[t].pc.i; s.slots[i].vcpu == None && i !in s.created && p !in s.heap
    ensures Run(s, ls) == Some(s') && By(ls, t)
    ensures var i := s.threads[t].pc.i;
            s' == SetSlot(Own(s, t, p), i, s.slots[i].(vcpu := Some(p)))
                  .(lock := None, heap := s.heap[p := KvmCpu(true, i, true)], created := s.created + [i])
  {
    var i := s.threads[t].pc.i;
    var mid, rest;
    ls, mid := PublishesNewCore(s, t, p);
    rest, s' := CompletesNewCore(mid, t);
    hide Run;
    RunJoins(s, ls, mid, rest);
    ls := ls + rest;
    assert s'.threads == Own(s, t, p).threads;
    assert s'.heap == s.heap[p := KvmCpu(true, i, true)];
  }

  /** `kvm_alloc_vcpu`, undisturbed, from any reachable state with a free slot. */
  lemma Allocation(s: Pool, t: Tid, newPtr: Ptr) returns (ls: seq<Label>, s': Pool, p: Ptr)
    requires Inv(s) && t in s.threads && s.threads[t].pc.Outside? && s.lock == None && newPtr !in s.heap
    requires FirstFree(Valids(s)) < KVM_MAX_VCPUS
    ensures Run(s, ls) == Some(s') && By(ls, t) && Allocates(s, s', t, p)
    ensures s.slots[FirstFree(Valids(s))].vcpu == None ==> p == newPtr
  {
    var f := FirstFree(Valids(s));
    FreeSlotIsSettled(s, f);
    hide Inv;
    var mid;
    ls, mid := TakesSlot(s, t);
    var rest;
    if s.slots[f].vcpu.Some? {
      p := s.slots[f].vcpu.value;
      rest, s' := TakesOldCore(mid, t);
      assert s'.slots == s.slots[f := Slot(true, Some(p))];
    } else {
      p := newPtr;
      rest, s' := TakesNewCore(mid, t, p);
      assert s'.slots == s.slots[f := Slot(true, Some(p))];
    }
    RunJoins(s, ls, mid, rest);
    ls := ls + rest;
  }

  lemma FreeSlotIsSettled(s: Pool, f: nat)
    requires Inv(s) && f < |s.slots| && !s.slots[f].valid
    ensures s.slots[f].vcpu == None ==> f !in s.created
    ensures s.slots[f].vcpu.Some? ==>
              s.slots[f].vcpu.value in s.heap && s.heap[s.slots[f].vcpu.value] == KvmCpu(true, f, true)
  {
    assert SlotFine(s, f);
  }

  /** With all slots taken the same run ends in `die`. */
  lemma AllocationDies(s: Pool, t: Tid) returns (ls: seq<Label>, s': Pool)
    requires t in s.threads && s.threads[t].pc.Outside? && s.lock == None && FirstFree(Valids(s)) == |s.slots|
    ensures Run(s, ls) == Some(s') && By(ls, t) && t in s'.threads && s'.threads[t].pc.Dying?
  {
    var locked := To(s, t, Scanning(0)).(lock := Some(t));
    assert Run(s, []) == Some(s);
    ls := Then(s, [], s, Lock(t));
    assert Valids(locked) == Valids(s);
    var rest, none := Scans(locked, t);
    RunJoins(s, ls, locked, rest);
    ls := Then(s, ls + rest, none, Unlock(t));
    assert forall l | l in ls :: l in [Lock(t)] || l in rest || l == Unlock(t);
    s' := DoUnlock(none, t).value;
  }

  lemma ClearEffect(s: Pool, t: Tid, p: Ptr, i: nat)
    requires t in s.threads && s.threads[t] == Thread(Freeing(p), {p}) && p in s.heap && s.heap[p].cpuId == i
    requires i < |s.slots| && s.slots[i].valid
    ensures DoClear(s, t) == Some(SetSlot(s, i, s.slots[i].(valid := false))
                                  .(threads := s.threads[t := Thread(Freed(p), {})], holder := s.holder - {i}))
  {
    assert s.threads[t].owned - {p} == {};
  }

  /** The three steps of a release. */
  lemma FreesSlot(s: Pool, t: Tid, p: Ptr, i: nat) returns (ls: seq<Label>, s': Pool)
    requires t in s.threads && s.threads[t] == Thread(Outside, {p}) && s.lock == None
    requires p in s.heap && s.heap[p].cpuId == i && i < |s.slots| && s.slots[i].valid
    ensures Run(s, ls) == Some(s') && By(ls, t)
    ensures s' == SetSlot(s, i, s.slots[i].(valid := false))
                  .(threads := s.threads[t := Thread(Exiting(p), {})], holder := s.holder - {i})
  {
    var freeing := To(s, t, Freeing(p)).(lock := Some(t));
    ClearEffect(freeing, t, p, i);
    var freed := DoClear(freeing, t).value;
    hide DoClear;
    assert Run(s, []) == Some(s);
    ls := Then(s, [], s, LockToFree(t, p));
    ls := Then(s, ls, freeing, Clear(t));
    ls := Then(s, ls, freed, UnlockFreed(t));
    s' := To(freed, t, Exiting(p)).(lock := None);
    assert s'.threads == s.threads[t := Thread(Exiting(p), {})];
  }

  /** `kvm_free_vcpu`, undisturbed, up to the exit system call. */
  lemma Release(s: Pool, t: Tid, p: Ptr) returns (ls: seq<Label>, s': Pool)
    requires Inv(s) && t in s.threads && s.threads[t] == Thread(Outside, {p}) && s.lock == None
    ensures p in s.heap && s.heap[p].cpuId < |s.slots|
    ensures Run(s, ls) == Some(s') && By(ls, t)
    ensures var i := s.heap[p].cpuId;
            s' == s.(threads := s.threads[t := Thread(Exiting(p), {})],
                     slots := s.slots[i := s.slots[i].(valid := false)], holder := s.holder - {i})
  {
    OwnedFacts(s, t, p);
    hide Inv, Run;
    ls, s' := FreesSlot(s, t, p, s.heap[p].cpuId);
  }
}
