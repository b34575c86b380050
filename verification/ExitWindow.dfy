/** The window between `kvm_free_vcpu` and the exit system call, in which a thread still reads its core's
    parameters: exactly when a core comes to have two users, step by step and over whole runs. */
module ExitWindow {
  import opened Words
  import opened Slots
  import opened PoolProtocol
  import opened PoolSafety
  import opened PoolRuns

  /** The thread has freed the core and not exited yet. */
  predicate PastFree(s: Pool, t: Tid, p: Ptr)
  {
    t in s.threads && (s.threads[t].pc == Freed(p) || s.threads[t].pc == Exiting(p))
  }

  /** The thread may still read the core's memory. */
  predicate Uses(s: Pool, t: Tid, p: Ptr)
  {
    t in s.threads && (p in s.threads[t].owned || PastFree(s, t, p))
  }

  ghost predicate Shared(s: Pool, p: Ptr)
  {
    exists t, u :: t != u && Uses(s, t, p) && Uses(s, u, p)
  }

  /** Two threads use one core only when at least one of them is past its `kvm_free_vcpu`. */
  lemma SharedOnlyInWindow(t0: Tid, ls: seq<Label>, s: Pool, t: Tid, u: Tid, p: Ptr)
    requires Run(Empty(t0), ls) == Some(s) && t != u && Uses(s, t, p) && Uses(s, u, p)
    ensures PastFree(s, t, p) || PastFree(s, u, p)
  {
    hide Run;
    if !PastFree(s, t, p) && !PastFree(s, u, p) {
      OwnersAreExclusive(t0, ls, s, t, u, p);
    }
  }

  // ---------- How sharing begins ----------

  /** The core that a step reads from its slot and hands to its thread. */
  function Fetched(s: Pool, l: Label): Option<Ptr>
  {
    if l.Fetch? && l.t in s.threads && s.threads[l.t].pc.Fetching? && s.threads[l.t].pc.i < |s.slots|
    then s.slots[s.threads[l.t].pc.i].vcpu else None
  }

  /** The step hands a core to a thread while another one is in the window with it: the read of the old
      pointer, outside the lock. */
  ghost predicate TakesUsed(s: Pool, l: Label, p: Ptr)
  {
    Fetched(s, l) == Some(p) && exists t :: PastFree(s, t, p)
  }

  /** A core in the window is complete. */
  ghost predicate WindowOk(s: Pool)
  {
    forall t, p | PastFree(s, t, p) :: p in s.heap && s.heap[p].hasFd
  }

  lemma StepKeepsHeap(s: Pool, l: Label, s': Pool, p: Ptr)
    requires Inv(s) && Apply(s, l) == Some(s') && p in s.heap && s.heap[p].hasFd
    ensures p in s'.heap && s'.heap[p].hasFd
  {
    hide Inv;
    if Quiet(l) {
      QuietStep(s, l, s');
      hide Apply;
    } else {
      ActsOnThread(s, l);
      OwnCoreFine(s, l.t);
    }
  }

  lemma OwnCoreFine(s: Pool, t: Tid)
    requires Inv(s) && t in s.threads
    ensures CoreFine(s, s.threads[t].pc)
  {
    assert ThreadFine(s, t);
  }

  lemma StepKeepsWindow(s: Pool, l: Label, s': Pool)
    requires Inv(s) && WindowOk(s) && Apply(s, l) == Some(s')
    ensures WindowOk(s')
  {
    forall t, p | PastFree(s', t, p) ensures p in s'.heap && s'.heap[p].hasFd {
      WindowEntry(s, l, s', t, p);
      StepKeepsHeap(s, l, s', p);
    }
    hide Inv, Apply;
  }

  /** The window is entered from ownership. */
  lemma WindowEntry(s: Pool, l: Label, s': Pool, t: Tid, p: Ptr)
    requires Inv(s) && WindowOk(s) && Apply(s, l) == Some(s') && PastFree(s', t, p)
    ensures Uses(s, t, p) && p in s.heap && s.heap[p].hasFd
  {
    if !PastFree(s, t, p) {
      PastFreeByClear(s, l, s', t, p);
      ClearSucceeds(s, t);
    }
    hide Inv, Apply;
  }

  lemma PastFreeByClear(s: Pool, l: Label, s': Pool, t: Tid, p: Ptr)
    requires Apply(s, l) == Some(s') && PastFree(s', t, p) && !PastFree(s, t, p)
    ensures l == Clear(t) && t in s.threads && s.threads[t].pc == Freeing(p)
  {
  }

  predicate HandsOut(l: Label) { l.Fetch? || l.Create? || l.HandOver? }

  lemma OwnersKept(s: Pool, l: Label, s': Pool, t: Tid)
    requires Apply(s, l) == Some(s') && !HandsOut(l) && t in s'.threads
    ensures t in s.threads && s'.threads[t].owned <= s.threads[t].owned
  {
  }

  lemma NewOwner(s: Pool, l: Label, s': Pool, t: Tid, p: Ptr)
    requires Apply(s, l) == Some(s') && t in s'.threads && p in s'.threads[t].owned
    requires t in s.threads ==> p !in s.threads[t].owned
    ensures (l == Fetch(t) && Fetched(s, l) == Some(p))
            || (l == Create(t) && t in s.threads && s.threads[t].pc.Opening? && s.threads[t].pc.p == p)
            || (l.HandOver? && l.child == t && l.p == p && l.t in s.threads && p in s.threads[l.t].owned && !Uses(s', l.t, p))
  {
    hide DoLock, DoTest, DoMark, DoProbe, DoUnlock, DoCalloc, DoCallocFails, DoPublish, DoLink, DoNumber, DoAbandon,
         DoVanish, DoLockToFree, DoClear, DoUnlockFreed, DoGone;
    if !HandsOut(l) {
      OwnersKept(s, l, s', t);
    }
  }

  lemma CreatedIsNew(s: Pool, t: Tid, p: Ptr)
    requires Inv(s) && t in s.threads && s.threads[t].pc.Opening? && s.threads[t].pc.p == p
    ensures p in s.heap && !s.heap[p].hasFd
  {
    assert ThreadFine(s, t);
  }

  /** Who comes to use a core: a thread that reads its pointer, its creator, or the child it is given to. */
  lemma NewUser(s: Pool, l: Label, s': Pool, t: Tid, p: Ptr)
    requires Inv(s) && WindowOk(s) && Apply(s, l) == Some(s') && Uses(s', t, p) && !Uses(s, t, p)
    ensures (l == Fetch(t) && Fetched(s, l) == Some(p))
            || (l == Create(t) && p in s.heap && !s.heap[p].hasFd)
            || (l.HandOver? && l.child == t && l.p == p && Uses(s, l.t, p) && !Uses(s', l.t, p))
  {
    hide Inv, WindowOk, Apply, Fetched;
    if PastFree(s', t, p) {
      WindowEntry(s, l, s', t, p);
    } else {
      NewOwner(s, l, s', t, p);
      if l.Create? { CreatedIsNew(s, t, p); }
    }
  }

  lemma UsedIsComplete(s: Pool, t: Tid, p: Ptr)
    requires Inv(s) && WindowOk(s) && Uses(s, t, p)
    ensures p in s.heap && s.heap[p].hasFd
  {
    if !PastFree(s, t, p) { OwnedFacts(s, t, p); }
    hide Inv;
  }

  lemma FetchedIsUnowned(s: Pool, t: Tid, u: Tid, p: Ptr)
    requires Inv(s) && Fetched(s, Fetch(t)) == Some(p) && u in s.threads && u != t
    ensures p !in s.threads[u].owned
  {
    FetchSettles(s, t);
    if p in s.threads[u].owned { OwnedFacts(s, u, p); }
    hide Inv;
  }

  lemma SecondUser(s: Pool, l: Label, s': Pool, t: Tid, u: Tid, p: Ptr)
    requires Inv(s) && WindowOk(s) && Apply(s, l) == Some(s') && !Shared(s, p)
    requires t != u && Uses(s', t, p) && Uses(s', u, p) && Uses(s, t, p)
    ensures TakesUsed(s, l, p)
  {
    hide Inv, Apply, WindowOk, Fetched;
    assert !Uses(s, u, p);
    NewUser(s, l, s', u, p);
    UsedIsComplete(s, t, p);
    if l == Fetch(u) {
      FetchedIsUnowned(s, u, t, p);
    }
  }

  lemma TakingShares(s: Pool, l: Label, s': Pool, p: Ptr)
    requires Apply(s, l) == Some(s') && TakesUsed(s, l, p)
    ensures Shared(s', p)
  {
    var t :| PastFree(s, t, p);
    assert Uses(s', l.t, p) && Uses(s', t, p);
  }

  /** From a state in which a core has at most one user, a step gives it a second one if and only if it is
      a fetch that takes the core while its last user is between release and exit. */
  lemma SharingBeginsIff(s: Pool, l: Label, s': Pool, p: Ptr)
    requires Inv(s) && WindowOk(s) && Apply(s, l) == Some(s') && !Shared(s, p)
    ensures Shared(s', p) <==> TakesUsed(s, l, p)
  {
    hide Inv, Apply, WindowOk, Uses, PastFree, TakesUsed, Fetched;
    if TakesUsed(s, l, p) {
      TakingShares(s, l, s', p);
    }
    if t, u :| t != u && Uses(s', t, p) && Uses(s', u, p) {
      if Uses(s, t, p) {
        SecondUser(s, l, s', t, u, p);
      } else if Uses(s, u, p) {
        SecondUser(s, l, s', u, t, p);
      } else {
        NewUser(s, l, s', t, p);
        NewUser(s, l, s', u, p);
      }
    }
  }

  // ---------- Whole runs ----------

  ghost predicate EverShares(s: Pool, ls: seq<Label>)
    decreases |ls|
  {
    || (Run(s, ls).Some? && exists p :: Shared(Run(s, ls).value, p))
    || (ls != [] && EverShares(s, ls[..|ls| - 1]))
  }

  ghost predicate EverTakesUsed(s: Pool, ls: seq<Label>)
    decreases |ls|
  {
    ls != [] &&
    (EverTakesUsed(s, ls[..|ls| - 1])
     || match Run(s, ls[..|ls| - 1])
        case None => false
        case Some(m) =>
          var l := ls[|ls| - 1];
          Fetched(m, l).Some? && TakesUsed(m, l, Fetched(m, l).value))
  }

  lemma EmptySharesNothing(t0: Tid)
    ensures WindowOk(Empty(t0)) && forall p :: !Shared(Empty(t0), p)
  {
  }

  lemma TakesFetched(s: Pool, l: Label)
    ensures forall p: Ptr :: TakesUsed(s, l, p) ==> Fetched(s, l) == Some(p)
  {
  }

  /** Along a whole run no core is ever shared, if and only if no fetch in it takes a core whose last user
      is between release and exit. */
  lemma {:induction false} SharesIffTakesUsed(t0: Tid, ls: seq<Label>, s: Pool)
    requires Run(Empty(t0), ls) == Some(s)
    ensures WindowOk(s)
    ensures EverShares(Empty(t0), ls) <==> EverTakesUsed(Empty(t0), ls)
    decreases |ls|
  {
    hide Inv, Apply, Shared, TakesUsed, WindowOk, Empty, Fetched;
    if ls == [] {
      EmptySharesNothing(t0);
    } else {
      var front, l := ls[..|ls| - 1], ls[|ls| - 1];
      var mid := Run(Empty(t0), front).value;
      ReachableFine(t0, front, mid);
      SharesIffTakesUsed(t0, front, mid);
      StepKeepsWindow(mid, l, s);
      if !EverShares(Empty(t0), front) {
        assert forall p :: !Shared(mid, p);
        forall p ensures Shared(s, p) <==> TakesUsed(mid, l, p) {
          SharingBeginsIff(mid, l, s, p);
        }
        assert forall p: Ptr :: TakesUsed(mid, l, p) ==> Fetched(mid, l) == Some(p) by { TakesFetched(mid, l); }
      }
    }
  }

  lemma Reused(s: Pool, s': Pool, t: Tid, u: Tid, p: Ptr)
    requires Allocates(s, s', t, p) && t != u && PastFree(s, u, p)
    ensures Uses(s', t, p) && p in s'.threads[t].owned && PastFree(s', u, p) && Shared(s', p)
  {
    assert Uses(s', t, p) && Uses(s', u, p);
  }

  /** It does happen: thread `u` exits, and before it has read its exit status another thread is handed the
      core.  So the exit call of `u` reads parameters that are no longer its own. */
  lemma WindowIsReal(t0: Tid, u: Tid) returns (ls: seq<Label>, s: Pool, p: Ptr)
    requires t0 != u
    ensures Run(Empty(t0), ls) == Some(s)
    ensures Uses(s, t0, p) && p in s.threads[t0].owned && PastFree(s, u, p) && Shared(s, p)
  {
    hide Inv, Run, Shared, Uses;
    var e := Empty(t0);
    EmptyIsFine(t0);
    FirstFreeIs(Valids(e), 0);
    var l1, s1, p1 := Allocation(e, t0, 0);
    RunKeeps(e, l1, s1);
    FirstFreeIs(Valids(s1), 1);
    var l2, s2, p2 := Allocation(s1, t0, 1);
    RunJoins(e, l1, s1, l2);
    RunKeeps(e, l1 + l2, s2);
    assert 1 in s2.threads[t0].owned;
    var s3 := DoHandOver(s2, t0, u, 1).value;
    var l3 := Then(e, l1 + l2, s2, HandOver(t0, u, 1));
    RunKeeps(e, l3, s3);
    var l4, s4 := Release(s3, u, 1);
    RunJoins(e, l3, s3, l4);
    RunKeeps(e, l3 + l4, s4);
    FirstFreeIs(Valids(s4), 1);
    var l5;
    l5, s, p := Allocation(s4, t0, 2);
    Reused(s4, s, t0, u, p);
    RunJoins(e, l3 + l4, s4, l5);
    ls := l3 + l4 + l5;
  }
}
