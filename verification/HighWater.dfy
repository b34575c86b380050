/** How many kernel cores a VM ever needs: the slots claimed over any history are a prefix, exactly as
    long as the largest number of slots that were in use at the same time. */
module HighWater {
  import opened Words
  import opened Slots
  import opened PoolProtocol
  import opened PoolSafety

  // ---------- Counting ----------

  function Count(v: seq<bool>): nat
  {
    if v == [] then 0 else Count(v[..|v| - 1]) + if v[|v| - 1] then 1 else 0
  }

  lemma {:induction false} CountUpdate(v: seq<bool>, i: nat, x: bool)
    requires i < |v|
    ensures Count(v[i := x]) == Count(v) + (if x then 1 else 0) - (if v[i] then 1 else 0)
  {
    var n := |v| - 1;
    if i == n {
      assert v[i := x][..n] == v[..n];
    } else {
      assert v[i := x][..n] == v[..n][i := x];
      CountUpdate(v[..n], i, x);
    }
  }

  /** With no slot in use from `k` on, at most `k` are, and all of the first `k` if it is that many. */
  lemma {:induction false} CountBelow(v: seq<bool>, k: nat)
    requires forall j | k <= j < |v| :: !v[j]
    ensures Count(v) <= k
    ensures (k <= |v| && forall j | 0 <= j < k :: v[j]) ==> Count(v) == k
    decreases |v|
  {
    if v != [] {
      var n := |v| - 1;
      if v[n] {
        CountBelow(v[..n], n);
      } else {
        CountBelow(v[..n], k);
        if k <= n {
          assert forall j | 0 <= j < k :: v[..n][j] == v[j];
        }
      }
    }
  }

  function Max(a: nat, b: nat): nat { if a < b then b else a }

  // ---------- Histories ----------

  /** The largest number of slots valid at the same time along a run. */
  function Peak(s: Pool, ls: seq<Label>): nat
    decreases |ls|
  {
    var now := match Run(s, ls) { case Some(m) => Count(Valids(m)) case None => 0 };
    if ls == [] then now else Max(Peak(s, ls[..|ls| - 1]), now)
  }

  /** Slot `i` was valid at some point of a run. */
  predicate EverClaimed(s: Pool, ls: seq<Label>, i: nat)
    decreases |ls|
  {
    || (var m := Run(s, ls); m.Some? && i < |m.value.slots| && m.value.slots[i].valid)
    || (ls != [] && EverClaimed(s, ls[..|ls| - 1], i))
  }

  lemma AtomicOnPrefix(s: Pool, l: Label, s': Pool, k: nat)
    requires Inv(s) && Apply(s, l) == Some(s')
    requires forall j | k <= j < |s.slots| :: !s.slots[j].valid
    ensures |s'.slots| == |s.slots|
    ensures var n := Max(k, Count(Valids(s')));
            && (n == k || (n == k + 1 && k < |s'.slots| && s'.slots[k].valid))
            && forall j | n <= j < |s'.slots| :: !s'.slots[j].valid
  {
    hide Inv, Apply;
    StepIsAtomic(s, l, s');
    var v, w := Valids(s), Valids(s');
    assert |v| == |s.slots| && |w| == |s'.slots|;
    var f := FirstFree(v);
    if l.Mark? && f < |v| {
      if f < k {
        CountBelow(w, k);
      } else {
        CountBelow(v, k);
        CountUpdate(v, f, true);
        assert k < |v| ==> !v[k];
      }
    } else {
      CountBelow(w, k);
    }
  }

  /** The high-water mark. */
  lemma {:induction false} ClaimedArePrefix(t0: Tid, ls: seq<Label>, s: Pool, i: nat)
    requires Run(Empty(t0), ls) == Some(s)
    ensures EverClaimed(Empty(t0), ls, i) <==> i < Peak(Empty(t0), ls)
    ensures Peak(Empty(t0), ls) <= |s.slots| == KVM_MAX_VCPUS
    ensures i < |s.slots| && s.slots[i].valid ==> i < Peak(Empty(t0), ls)
    decreases |ls|
  {
    ReachableFine(t0, ls, s);
    if ls == [] {
      CountBelow(Valids(s), 0);
    } else {
      var front := ls[..|ls| - 1];
      var mid := Run(Empty(t0), front).value;
      ReachableFine(t0, front, mid);
      hide Inv, Apply, Empty;
      var k := Peak(Empty(t0), front);
      forall j: nat | k <= j < |mid.slots| ensures !mid.slots[j].valid {
        ClaimedArePrefix(t0, front, mid, j);
      }
      ClaimedArePrefix(t0, front, mid, i);
      AtomicOnPrefix(mid, ls[|ls| - 1], s, k);
    }
  }

  // ---------- Kernel cores ----------

  lemma PointersStay(s: Pool, l: Label, s': Pool, i: nat)
    requires Apply(s, l) == Some(s') && !l.Publish? && i < |s.slots|
    ensures |s'.slots| == |s.slots| && s'.slots[i].vcpu == s.slots[i].vcpu
  {
  }

  lemma PublishesClaimed(s: Pool, t: Tid, s': Pool, i: nat)
    requires Inv(s) && DoPublish(s, t) == Some(s') && i < |s.slots|
    ensures |s'.slots| == |s.slots|
    ensures s'.slots[i].vcpu.Some? ==> s.slots[i].vcpu.Some? || s'.slots[i].valid
  {
    assert ThreadFine(s, t) && SlotFine(s, i);
    hide Inv;
  }

  lemma StepPublishesClaimed(s: Pool, l: Label, s': Pool, i: nat)
    requires Inv(s) && Apply(s, l) == Some(s') && i < |s.slots|
    ensures |s'.slots| == |s.slots|
    ensures s'.slots[i].vcpu.Some? ==> s.slots[i].vcpu.Some? || s'.slots[i].valid
  {
    hide Inv, DoPublish;
    if l.Publish? {
      PublishesClaimed(s, l.t, s', i);
    } else {
      PointersStay(s, l, s', i);
    }
    hide Apply;
  }

  /** A slot that has a core was claimed. */
  lemma {:induction false} CoresWereClaimed(t0: Tid, ls: seq<Label>, s: Pool, i: nat)
    requires Run(Empty(t0), ls) == Some(s) && i < |s.slots| && s.slots[i].vcpu.Some?
    ensures i < Peak(Empty(t0), ls)
    decreases |ls|
  {
    if ls != [] {
      var front := ls[..|ls| - 1];
      var mid := Run(Empty(t0), front).value;
      ReachableFine(t0, front, mid);
      ClaimedArePrefix(t0, ls, s, i);
      ClaimedArePrefix(t0, front, mid, 0);
      hide Inv, Apply, Empty, EverClaimed;
      StepPublishesClaimed(mid, ls[|ls| - 1], s, i);
      if mid.slots[i].vcpu.Some? {
        CoresWereClaimed(t0, front, mid, i);
      }
    }
  }

  lemma {:induction false} Pigeonhole(ids: seq<nat>, k: nat)
    requires forall j | 0 <= j < |ids| :: ids[j] < k
    requires forall i, j | 0 <= i < |ids| && 0 <= j < |ids| && ids[i] == ids[j] :: i == j
    ensures |ids| <= k
  {
    var used := set j | 0 <= j < |ids| :: ids[j];
    DistinctCount(ids, used);
    Below(used, k);
  }

  lemma {:induction false} DistinctCount(ids: seq<nat>, used: set<nat>)
    requires used == set j | 0 <= j < |ids| :: ids[j]
    requires forall i, j | 0 <= i < |ids| && 0 <= j < |ids| && ids[i] == ids[j] :: i == j
    ensures |used| == |ids|
  {
    if ids != [] {
      var front := ids[..|ids| - 1];
      var rest := set j | 0 <= j < |front| :: front[j];
      DistinctCount(front, rest);
      assert ids[|ids| - 1] !in rest;
      assert used == rest + {ids[|ids| - 1]} by {
        forall x | x in used ensures x in rest + {ids[|ids| - 1]} {
          var j :| 0 <= j < |ids| && ids[j] == x;
          if j < |front| { assert front[j] == x; }
        }
        forall x | x in rest ensures x in used {
          var j :| 0 <= j < |front| && front[j] == x;
          assert ids[j] == x;
        }
        assert ids[|ids| - 1] in used;
      }
    }
  }

  /** Any number of threads can come and go: KVM is never asked for more cores than were in use at the
      same time. */
  lemma CoresAreReused(t0: Tid, ls: seq<Label>, s: Pool)
    requires Run(Empty(t0), ls) == Some(s)
    ensures |s.created| <= Peak(Empty(t0), ls)
  {
    ReachableFine(t0, ls, s);
    forall j | 0 <= j < |s.created| ensures s.created[j] < Peak(Empty(t0), ls) {
      assert SlotFine(s, s.created[j]);
      CoresWereClaimed(t0, ls, s, s.created[j]);
    }
    hide Run, Peak, ThreadsFine, LockOk, SlotsFine;
    Pigeonhole(s.created, Peak(Empty(t0), ls));
  }
}
