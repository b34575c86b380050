/** Who answers for which slot: exactly how each step of the pool passes a claim on, takes one up or gives one
    up, how threads come and go, and when one dies. */
module PoolOwners {
  import opened Words
  import opened PoolProtocol
  import opened PoolSafety

  /** The child enters its host loop with the core, and its parent has it no longer: of what the two had
      together nothing is lost or doubled, and nothing else changes. */
  lemma HandOverPasses(s: Pool, t: Tid, child: Tid, p: Ptr, s': Pool)
    requires Inv(s) && Apply(s, HandOver(t, child, p)) == Some(s')
    ensures t in s.threads && t in s'.threads && child !in s.threads && child in s'.threads && p in s.threads[t].owned
    ensures s'.threads[child] == Thread(Outside, {p}) && s'.threads[t] == Thread(Outside, s.threads[t].owned - {p})
    ensures forall u | u in s.threads && u != t :: u in s'.threads && s'.threads[u] == s.threads[u]
    ensures s'.slots == s.slots && s'.heap == s.heap && s'.created == s.created && s'.lock == s.lock
    ensures p in s.heap && s.heap[p].cpuId < |s.slots|
    ensures var i := s.heap[p].cpuId; Claims(s, t, i) && Claims(s', child, i) && !Claims(s', t, i)
  {
    OwnedFacts(s, t, p);
    StepKeeps(s, HandOver(t, child, p), s');
    var i := s.heap[p].cpuId;
    assert p in s'.threads[child].owned;
    hide Inv;
    if Claims(s', t, i) { ClaimIsHeld(s', t, i); }
  }

  // ---------- Every step ----------

  predicate NumberedFor(s: Pool, p: Ptr, i: nat) { p in s.heap && s.heap[p].cpuId == i }

  /** The step makes `t` answerable for slot `i`. */
  predicate TakesUp(s: Pool, l: Label, t: Tid, i: nat)
  {
    || (l == Mark(t) && t in s.threads && s.threads[t].pc == Claiming(i))
    || (l.HandOver? && l.child == t && NumberedFor(s, l.p, i))
  }

  /** The step ends `t`'s claim on slot `i`: released, passed on, or lost. */
  predicate GivesUp(s: Pool, l: Label, t: Tid, i: nat)
  {
    l.t == t && t in s.threads &&
    match l
    case Clear(_) => s.threads[t].pc.Freeing? && NumberedFor(s, s.threads[t].pc.p, i)
    case HandOver(_, _, p) => NumberedFor(s, p, i)
    case Abandon(_, p) => NumberedFor(s, p, i)
    case Vanish(_, p) => NumberedFor(s, p, i)
    case CallocFails(_) => s.threads[t].pc == Allocating(i)
    case _ => false
  }

  predicate HeldBy(s: Pool, t: Tid, i: nat) { i in s.holder && s.holder[i] == Held(t) }

  lemma ClaimsIffHeld(s: Pool, t: Tid, i: nat)
    requires Inv(s) && i < |s.slots|
    ensures Claims(s, t, i) <==> HeldBy(s, t, i)
  {
    assert SlotFine(s, i);
    if Claims(s, t, i) { ClaimIsHeld(s, t, i); }
    hide Inv, Claims;
  }

  lemma HolderOf(s: Pool, l: Label, s': Pool)
    requires Inv(s) && Apply(s, l) == Some(s') && Rehands(l)
    ensures l.t in s.threads
    ensures match l
            case Mark(t) => s.threads[t].pc.Claiming? && s'.holder == s.holder[s.threads[t].pc.i := Held(t)]
            case Clear(t) =>
              s.threads[t].pc.Freeing? && s.threads[t].pc.p in s.heap && s'.holder == s.holder - {s.heap[s.threads[t].pc.p].cpuId}
            case HandOver(_, child, p) => p in s.heap && s'.holder == s.holder[s.heap[p].cpuId := Held(child)]
            case CallocFails(t) => s.threads[t].pc.Allocating? && s'.holder == s.holder[s.threads[t].pc.i := Leaked]
            case Abandon(_, p) => p in s.heap && s'.holder == s.holder[s.heap[p].cpuId := Leaked]
            case Vanish(_, p) => p in s.heap && s'.holder == s.holder[s.heap[p].cpuId := Leaked]
            case _ => false
  {
    if l.Clear? { ClearSucceeds(s, l.t); }
    hide Inv;
  }

  /** Only the thread that is answerable for a slot can give it up. */
  lemma OwnToGive(s: Pool, l: Label, s': Pool, i: nat)
    requires Inv(s) && Apply(s, l) == Some(s') && Rehands(l) && !l.Mark? && GivesUp(s, l, l.t, i)
    ensures HeldBy(s, l.t, i)
  {
    match l {
      case Clear(t) => ClearSucceeds(s, t);
      case CallocFails(t) => assert ThreadFine(s, t);
      case HandOver(t, _, p) => OwnedFacts(s, t, p);
      case Abandon(t, p) => OwnedFacts(s, t, p);
      case Vanish(t, p) => OwnedFacts(s, t, p);
    }
    hide Inv, ThreadFine;
  }

  lemma HolderMoves(s: Pool, l: Label, s': Pool, t: Tid, i: nat)
    requires Inv(s) && Apply(s, l) == Some(s') && i < |s.slots|
    ensures HeldBy(s', t, i) <==> (HeldBy(s, t, i) && !GivesUp(s, l, t, i)) || TakesUp(s, l, t, i)
  {
    hide Inv, Apply;
    if !Rehands(l) {
      HolderStays(s, l, s');
    } else {
      HolderOf(s, l, s');
      if l.Mark? { MarkedSlotIsFree(s, l.t); }
      else if GivesUp(s, l, l.t, i) { OwnToGive(s, l, s', i); }
    }
  }

  /** A thread answers for a slot behind a step if and only if it did before and the step does not end that,
      or the step is the write of the valid bit that claims the slot, or the host clone that starts the
      thread on the slot's core. */
  lemma ClaimsMove(s: Pool, l: Label, s': Pool, t: Tid, i: nat)
    requires Inv(s) && Apply(s, l) == Some(s') && i < |s.slots|
    ensures |s'.slots| == |s.slots|
    ensures Claims(s', t, i) <==> (Claims(s, t, i) && !GivesUp(s, l, t, i)) || TakesUp(s, l, t, i)
  {
    StepKeeps(s, l, s');
    ClaimsIffHeld(s, t, i);
    SlotCount(s);
    SlotCount(s');
    ClaimsIffHeld(s', t, i);
    HolderMoves(s, l, s', t, i);
  }

  /** Threads come by a host clone that succeeds, and go by their exit or by leaving without one. */
  lemma ThreadsComeAndGo(s: Pool, l: Label, s': Pool)
    requires Apply(s, l) == Some(s')
    ensures s'.threads.Keys == match l
                               case HandOver(_, child, _) => s.threads.Keys + {child}
                               case Gone(t) => s.threads.Keys - {t}
                               case Vanish(t, _) => s.threads.Keys - {t}
                               case _ => s.threads.Keys
  {
  }

  /** A thread dies where calloc fails, and behind a scan that found no slot; there, and only there. */
  lemma DiesIff(s: Pool, l: Label, s': Pool, t: Tid)
    requires Inv(s) && Apply(s, l) == Some(s')
    requires t in s.threads && !s.threads[t].pc.Dying? && t in s'.threads
    ensures s'.threads[t].pc.Dying? <==> l == CallocFails(t) || (l == Unlock(t) && s.threads[t].pc.FoundNone?)
  {
    if s'.threads[t].pc.Dying? { DiesOnlyFor(s, l, s', t); }
    hide Inv;
    if l != CallocFails(t) && l != Unlock(t) { hide Apply; }
  }
}
