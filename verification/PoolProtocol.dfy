/** `kvm_alloc_vcpu` and `kvm_free_vcpu` of one VM under any interleaving of threads: every memory access
    of the two functions is a step of its own, including the two that happen outside the lock, the
    publication of a new core's pointer and the read of an old one. */
module PoolProtocol {
  import opened Words
  import opened Slots

  type Tid = nat
  type Ptr = nat

  datatype Slot = Slot(valid: bool, vcpu: Option<Ptr>)

  /** `struct kvm_cpu` as far as allocation writes it; zeroed by calloc. */
  datatype KvmCpu = KvmCpu(linked: bool, cpuId: nat, hasFd: bool)

  /** Where a thread is.  From Scanning to FoundNone and in the two Free phases it holds the lock. */
  datatype Pc =
    | Outside
    | Scanning(i: nat)          // about to test slot i
    | Claiming(i: nat)          // about to set its valid bit
    | Probing(i: nat)           // about to test its pointer
    | Reusing(i: nat)           // about to unlock, the slot has a core
    | Creating(i: nat)          // about to unlock, the slot has none
    | FoundNone                 // about to unlock, then die
    | Fetching(i: nat)          // unlocked, about to read the pointer and return it
    | Allocating(i: nat)        // unlocked, about to calloc
    | Publishing(i: nat, p: Ptr)
    | Linking(i: nat, p: Ptr)   // about to set vm
    | Numbering(i: nat, p: Ptr) // about to set cpu_id
    | Opening(i: nat, p: Ptr)   // about to issue KVM_CREATE_VCPU
    | Freeing(p: Ptr)           // about to clear the valid bit
    | Freed(p: Ptr)             // about to unlock
    | Exiting(p: Ptr)           // reads the parameters of p for its exit system call
    | Dying                     // `die` was called

  /** `owned` are the cores the thread was handed and has not given back. */
  datatype Thread = Thread(pc: Pc, owned: set<Ptr>)

  /** Who is answerable for a claimed slot.  An auxiliary record: no step ever reads it. */
  datatype Holder = Held(t: Tid) | Leaked

  datatype Pool = Pool(
    lock: Option<Tid>,
    slots: seq<Slot>,
    heap: map<Ptr, KvmCpu>,
    threads: map<Tid, Thread>,
    created: seq<nat>,          // ids of the KVM_CREATE_VCPU calls so far
    holder: map<nat, Holder>)

  datatype Label =
    | Lock(t: Tid)
    | Test(t: Tid)
    | Mark(t: Tid)
    | Probe(t: Tid)
    | Unlock(t: Tid)
    | Fetch(t: Tid)
    | Calloc(t: Tid, p: Ptr)
    | CallocFails(t: Tid)
    | Publish(t: Tid)
    | Link(t: Tid)
    | Number(t: Tid)
    | Create(t: Tid)
    | HandOver(t: Tid, child: Tid, p: Ptr)  // the host clone succeeded
    | Abandon(t: Tid, p: Ptr)               // the host clone failed
    | Vanish(t: Tid, p: Ptr)                // gone by exit_group or execve, without kvm_free_vcpu
    | LockToFree(t: Tid, p: Ptr)
    | Clear(t: Tid)
    | UnlockFreed(t: Tid)
    | Gone(t: Tid)

  function Valids(s: Pool): (v: seq<bool>)
    ensures |v| == |s.slots| && forall i | 0 <= i < |v| :: v[i] == s.slots[i].valid
  {
    seq(|s.slots|, i requires 0 <= i < |s.slots| => s.slots[i].valid)
  }

  function To(s: Pool, t: Tid, pc: Pc): Pool
    requires t in s.threads
  {
    s.(threads := s.threads[t := s.threads[t].(pc := pc)])
  }

  predicate At(s: Pool, t: Tid) { t in s.threads }

  function SetSlot(s: Pool, i: nat, x: Slot): Pool
    requires i < |s.slots|
  {
    s.(slots := s.slots[i := x])
  }

  function Own(s: Pool, t: Tid, p: Ptr): Pool
    requires t in s.threads
  {
    s.(threads := s.threads[t := Thread(Outside, s.threads[t].owned + {p})])
  }

  // ---------- kvm_alloc_vcpu under the lock ----------

  function DoLock(s: Pool, t: Tid): Option<Pool>
  {
    if At(s, t) && s.threads[t].pc.Outside? && s.lock == None then Some(To(s, t, Scanning(0)).(lock := Some(t)))
    else None
  }

  function DoTest(s: Pool, t: Tid): Option<Pool>
  {
    if !At(s, t) || !s.threads[t].pc.Scanning? then None else
      var i := s.threads[t].pc.i;
      if i >= |s.slots| then Some(To(s, t, FoundNone))
      else if s.slots[i].valid then Some(To(s, t, Scanning(i + 1)))
      else Some(To(s, t, Claiming(i)))
  }

  function DoMark(s: Pool, t: Tid): Option<Pool>
  {
    if !At(s, t) || !s.threads[t].pc.Claiming? then None else
      var i := s.threads[t].pc.i;
      if i >= |s.slots| then None
      else Some(SetSlot(To(s, t, Probing(i)), i, s.slots[i].(valid := true)).(holder := s.holder[i := Held(t)]))
  }

  function DoProbe(s: Pool, t: Tid): Option<Pool>
  {
    if !At(s, t) || !s.threads[t].pc.Probing? then None else
      var i := s.threads[t].pc.i;
      if i >= |s.slots| then None
      else Some(To(s, t, if s.slots[i].vcpu.Some? then Reusing(i) else Creating(i)))
  }

  function DoUnlock(s: Pool, t: Tid): Option<Pool>
  {
    if !At(s, t) then None else
      match s.threads[t].pc
      case Reusing(i) => Some(To(s, t, Fetching(i)).(lock := None))
      case Creating(i) => Some(To(s, t, Allocating(i)).(lock := None))
      case FoundNone => Some(To(s, t, Dying).(lock := None))
      case _ => None
  }

  // ---------- kvm_alloc_vcpu outside the lock ----------

  /** Without a pointer there the function would return NULL, and every caller would die. */
  function DoFetch(s: Pool, t: Tid): Option<Pool>
  {
    if !At(s, t) || !s.threads[t].pc.Fetching? || s.threads[t].pc.i >= |s.slots| then None else
      match s.slots[s.threads[t].pc.i].vcpu
      case Some(p) => Some(Own(s, t, p))
      case None => Some(To(s, t, Dying))
  }

  function DoCalloc(s: Pool, t: Tid, p: Ptr): Option<Pool>
  {
    if !At(s, t) || !s.threads[t].pc.Allocating? || p in s.heap then None
    else Some(To(s, t, Publishing(s.threads[t].pc.i, p)).(heap := s.heap[p := KvmCpu(false, 0, false)]))
  }

  function DoCallocFails(s: Pool, t: Tid): Option<Pool>
  {
    if !At(s, t) || !s.threads[t].pc.Allocating? then None
    else Some(To(s, t, Dying).(holder := s.holder[s.threads[t].pc.i := Leaked]))
  }

  function DoPublish(s: Pool, t: Tid): Option<Pool>
  {
    if !At(s, t) || !s.threads[t].pc.Publishing? || s.threads[t].pc.i >= |s.slots| then None else
      var i, p := s.threads[t].pc.i, s.threads[t].pc.p;
      Some(SetSlot(To(s, t, Linking(i, p)), i, s.slots[i].(vcpu := Some(p))))
  }

  function DoLink(s: Pool, t: Tid): Option<Pool>
  {
    if !At(s, t) || !s.threads[t].pc.Linking? || s.threads[t].pc.p !in s.heap then None else
      var i, p := s.threads[t].pc.i, s.threads[t].pc.p;
      Some(To(s, t, Numbering(i, p)).(heap := s.heap[p := s.heap[p].(linked := true)]))
  }

  function DoNumber(s: Pool, t: Tid): Option<Pool>
  {
    if !At(s, t) || !s.threads[t].pc.Numbering? || s.threads[t].pc.p !in s.heap then None else
      var i, p := s.threads[t].pc.i, s.threads[t].pc.p;
      Some(To(s, t, Opening(i, p)).(heap := s.heap[p := s.heap[p].(cpuId := i)]))
  }

  /** KVM refuses to create a second core with the same id. */
  function DoCreate(s: Pool, t: Tid): Option<Pool>
  {
    if !At(s, t) || !s.threads[t].pc.Opening? || s.threads[t].pc.p !in s.heap then None else
      var p := s.threads[t].pc.p;
      var id := s.heap[p].cpuId;
      if !s.heap[p].linked || id in s.created then Some(To(s, t, Dying))
      else Some(Own(s, t, p).(heap := s.heap[p := s.heap[p].(hasFd := true)], created := s.created + [id]))
  }

  // ---------- What happens to an allocated core ----------

  function DoHandOver(s: Pool, t: Tid, child: Tid, p: Ptr): Option<Pool>
  {
    if !At(s, t) || !s.threads[t].pc.Outside? || p !in s.threads[t].owned || child in s.threads || p !in s.heap then None
    else Some(s.(threads := s.threads[t := Thread(Outside, s.threads[t].owned - {p})][child := Thread(Outside, {p})],
                 holder := s.holder[s.heap[p].cpuId := Held(child)]))
  }

  function DoAbandon(s: Pool, t: Tid, p: Ptr): Option<Pool>
  {
    if !At(s, t) || !s.threads[t].pc.Outside? || p !in s.threads[t].owned || p !in s.heap then None
    else Some(s.(threads := s.threads[t := Thread(Outside, s.threads[t].owned - {p})],
                 holder := s.holder[s.heap[p].cpuId := Leaked]))
  }

  /** A child that shares the memory but not the thread group can leave alone without freeing its core. */
  function DoVanish(s: Pool, t: Tid, p: Ptr): Option<Pool>
  {
    if !At(s, t) || !s.threads[t].pc.Outside? || s.threads[t].owned != {p} || p !in s.heap then None
    else Some(s.(threads := s.threads - {t}, holder := s.holder[s.heap[p].cpuId := Leaked]))
  }

  function DoLockToFree(s: Pool, t: Tid, p: Ptr): Option<Pool>
  {
    if At(s, t) && s.threads[t].pc.Outside? && s.threads[t].owned == {p} && s.lock == None then
      Some(To(s, t, Freeing(p)).(lock := Some(t)))
    else None
  }

  /** The assertion that the slot is valid aborts the process when it fails. */
  function DoClear(s: Pool, t: Tid): Option<Pool>
  {
    if !At(s, t) || !s.threads[t].pc.Freeing? || s.threads[t].pc.p !in s.heap then None else
      var p := s.threads[t].pc.p;
      var i := s.heap[p].cpuId;
      if i >= |s.slots| || !s.slots[i].valid then Some(To(s, t, Dying))
      else
        Some(SetSlot(s, i, s.slots[i].(valid := false))
             .(threads := s.threads[t := Thread(Freed(p), s.threads[t].owned - {p})], holder := s.holder - {i}))
  }

  function DoUnlockFreed(s: Pool, t: Tid): Option<Pool>
  {
    if At(s, t) && s.threads[t].pc.Freed? then Some(To(s, t, Exiting(s.threads[t].pc.p)).(lock := None)) else None
  }

  function DoGone(s: Pool, t: Tid): Option<Pool>
  {
    if At(s, t) && s.threads[t].pc.Exiting? then Some(s.(threads := s.threads - {t})) else None
  }

  function Apply(s: Pool, l: Label): Option<Pool>
  {
    match l
    case Lock(t) => DoLock(s, t)
    case Test(t) => DoTest(s, t)
    case Mark(t) => DoMark(s, t)
    case Probe(t) => DoProbe(s, t)
    case Unlock(t) => DoUnlock(s, t)
    case Fetch(t) => DoFetch(s, t)
    case Calloc(t, p) => DoCalloc(s, t, p)
    case CallocFails(t) => DoCallocFails(s, t)
    case Publish(t) => DoPublish(s, t)
    case Link(t) => DoLink(s, t)
    case Number(t) => DoNumber(s, t)
    case Create(t) => DoCreate(s, t)
    case HandOver(t, c, p) => DoHandOver(s, t, c, p)
    case Abandon(t, p) => DoAbandon(s, t, p)
    case Vanish(t, p) => DoVanish(s, t, p)
    case LockToFree(t, p) => DoLockToFree(s, t, p)
    case Clear(t) => DoClear(s, t)
    case UnlockFreed(t) => DoUnlockFreed(s, t)
    case Gone(t) => DoGone(s, t)
  }

  function Run(s: Pool, ls: seq<Label>): Option<Pool>
    decreases |ls|
  {
    if ls == [] then Some(s) else
      match Run(s, ls[..|ls| - 1])
      case None => None
      case Some(m) => Apply(m, ls[|ls| - 1])
  }

  /** `kvm_init_vm_with_one_cpu` before it allocates the first core. */
  function Empty(t: Tid): Pool
  {
    Pool(None, seq(KVM_MAX_VCPUS, i => Slot(false, None)), map[], map[t := Thread(Outside, {})], [], map[])
  }

  // ---------- Invariant ----------

  predicate Locked(pc: Pc)
  {
    pc.Scanning? || pc.Claiming? || pc.Probing? || pc.Reusing? || pc.Creating? || pc.FoundNone? || pc.Freeing? || pc.Freed?
  }

  /** The slot that an allocation in progress has claimed. */
  function ClaimOf(pc: Pc): Option<nat>
  {
    match pc
    case Probing(i) => Some(i)
    case Reusing(i) => Some(i)
    case Creating(i) => Some(i)
    case Fetching(i) => Some(i)
    case Allocating(i) => Some(i)
    case Publishing(i, _) => Some(i)
    case Linking(i, _) => Some(i)
    case Numbering(i, _) => Some(i)
    case Opening(i, _) => Some(i)
    case _ => None
  }

  /** Thread `t` has claimed slot `i`, or was handed the core in it. */
  predicate Claims(s: Pool, t: Tid, i: nat)
    requires i < |s.slots|
  {
    && t in s.threads
    && (ClaimOf(s.threads[t].pc) == Some(i)
        || (s.slots[i].vcpu.Some? && s.slots[i].vcpu.value in s.threads[t].owned))
  }

  /** The core is complete, and it is the one of its slot. */
  predicate Settled(s: Pool, p: Ptr)
  {
    && p in s.heap && s.heap[p].linked && s.heap[p].hasFd
    && s.heap[p].cpuId < |s.slots| && s.slots[s.heap[p].cpuId].vcpu == Some(p)
  }

  predicate Unfinished(pc: Pc, i: nat, p: Ptr)
  {
    pc == Linking(i, p) || pc == Numbering(i, p) || pc == Opening(i, p)
  }

  ghost predicate LockOk(s: Pool)
  {
    && (forall t | t in s.threads :: Locked(s.threads[t].pc) ==> s.lock == Some(t))
    && (s.lock.Some? ==> s.lock.value in s.threads && Locked(s.threads[s.lock.value].pc))
  }

  /** What the scan has seen is still so. */
  ghost predicate ScanOk(s: Pool, pc: Pc)
  {
    match pc
    case Scanning(i) => i <= |s.slots| && forall j | 0 <= j < i :: s.slots[j].valid
    case Claiming(i) => i < |s.slots| && !s.slots[i].valid && forall j | 0 <= j < i :: s.slots[j].valid
    case FoundNone => forall j | 0 <= j < |s.slots| :: s.slots[j].valid
    case _ => true
  }

  /** An allocation in progress finds its slot and its core as it left them. */
  ghost predicate CoreFine(s: Pool, pc: Pc)
  {
    match pc
    case Reusing(i) => i < |s.slots| && s.slots[i].vcpu.Some?
    case Fetching(i) => i < |s.slots| && s.slots[i].vcpu.Some?
    case Creating(i) => i < |s.slots| && s.slots[i].vcpu == None
    case Allocating(i) => i < |s.slots| && s.slots[i].vcpu == None
    case Publishing(i, p) =>
      && i < |s.slots| && s.slots[i].vcpu == None
      && p in s.heap && s.heap[p] == KvmCpu(false, 0, false)
      && forall j | 0 <= j < |s.slots| :: s.slots[j].vcpu != Some(p)
    case Linking(i, p) => i < |s.slots| && s.slots[i].vcpu == Some(p) && p in s.heap && !s.heap[p].hasFd
    case Numbering(i, p) =>
      i < |s.slots| && s.slots[i].vcpu == Some(p) && p in s.heap && s.heap[p].linked && !s.heap[p].hasFd
    case Opening(i, p) =>
      && i < |s.slots| && s.slots[i].vcpu == Some(p)
      && p in s.heap && s.heap[p].linked && s.heap[p].cpuId == i && !s.heap[p].hasFd
    case _ => true
  }

  ghost predicate ThreadFine(s: Pool, t: Tid)
    requires t in s.threads
  {
    var th := s.threads[t];
    && ScanOk(s, th.pc) && CoreFine(s, th.pc)
    && (ClaimOf(th.pc).Some? ==>
          ClaimOf(th.pc).value in s.holder && s.holder[ClaimOf(th.pc).value] == Held(t))
    && (th.pc.Freeing? ==> th.owned == {th.pc.p})
    && (th.pc.Freed? || th.pc.Exiting? ==> th.owned == {})
    && (forall p | p in th.owned ::
          Settled(s, p) && s.heap[p].cpuId in s.holder && s.holder[s.heap[p].cpuId] == Held(t))
  }

  ghost predicate SlotFine(s: Pool, i: nat)
    requires i < |s.slots|
  {
    && (s.slots[i].valid <==> i in s.holder)
    && (i in s.holder && s.holder[i].Held? ==> Claims(s, s.holder[i].t, i))
    && (i in s.created ==> s.slots[i].vcpu.Some?)
    && (s.slots[i].vcpu.Some? ==>
          var p := s.slots[i].vcpu.value;
          && p in s.heap
          && (i in s.created <==> s.heap[p].hasFd)
          && (s.heap[p].hasFd ==> s.heap[p].linked && s.heap[p].cpuId == i)
          && (!s.heap[p].hasFd ==>
                i in s.holder && s.holder[i].Held? && s.holder[i].t in s.threads
                && Unfinished(s.threads[s.holder[i].t].pc, i, p)))
  }

  ghost predicate Distinct(s: Pool)
  {
    && (forall i, j | 0 <= i < |s.slots| && 0 <= j < |s.slots| && s.slots[i].vcpu.Some?
                      && s.slots[i].vcpu == s.slots[j].vcpu :: i == j)
    && (forall t, u | t in s.threads && u in s.threads && t != u
                      && s.threads[t].pc.Publishing? && s.threads[u].pc.Publishing? ::
          s.threads[t].pc.p != s.threads[u].pc.p)
    && (forall j, k | 0 <= j < |s.created| && 0 <= k < |s.created| && s.created[j] == s.created[k] :: j == k)
    && (forall j | 0 <= j < |s.created| :: s.created[j] < |s.slots|)
  }

  ghost predicate ThreadsFine(s: Pool)
  {
    forall t | t in s.threads :: ThreadFine(s, t)
  }

  ghost predicate SlotsFine(s: Pool)
  {
    && |s.slots| == KVM_MAX_VCPUS
    && (forall i | i in s.holder :: i < KVM_MAX_VCPUS)
    && forall i: nat | i < |s.slots| :: SlotFine(s, i)
  }

  ghost predicate Inv(s: Pool)
  {
    LockOk(s) && ThreadsFine(s) && SlotsFine(s) && Distinct(s)
  }

  // ---------- Every step keeps it ----------

  /** Only thread `t` moves, and it answers for the same slot as before. */
  ghost predicate Moves(s: Pool, s': Pool, t: Tid)
  {
    && t in s.threads && t in s'.threads && s'.threads == s.threads[t := s'.threads[t]]
    && s'.slots == s.slots && s'.heap == s.heap && s'.created == s.created && s'.holder == s.holder
    && s'.threads[t].owned == s.threads[t].owned
    && ClaimOf(s'.threads[t].pc) == ClaimOf(s.threads[t].pc)
    && !s'.threads[t].pc.Publishing?
    && !s.threads[t].pc.Linking? && !s.threads[t].pc.Numbering? && !s.threads[t].pc.Opening?
  }

  /** A thread keeps its facts when its slots and all cores stay as they are. */
  lemma KeepsThread(s: Pool, s': Pool, u: Tid)
    requires u in s.threads && ThreadFine(s, u) && u in s'.threads && s'.threads[u] == s.threads[u]
    requires s'.slots == s.slots && s'.heap == s.heap
    requires forall j | j in s.holder && s.holder[j] == Held(u) :: j in s'.holder && s'.holder[j] == Held(u)
    ensures ThreadFine(s', u)
  {
    MoveFrame(s, s', s.threads[u].pc);
    hide ScanOk, CoreFine;
  }

  lemma MoveKeeps(s: Pool, s': Pool, t: Tid)
    requires Inv(s) && Moves(s, s', t) && LockOk(s') && ThreadFine(s', t)
    ensures Inv(s')
  {
    hide LockOk, ThreadFine;
    forall u | u in s'.threads && u != t ensures ThreadFine(s', u) {
      KeepsThread(s, s', u);
    }
    forall i: nat | i < KVM_MAX_VCPUS ensures SlotFine(s', i) {
      assert SlotFine(s, i);
    }
  }

  lemma MoveFrame(s: Pool, s': Pool, pc: Pc)
    requires s'.slots == s.slots && s'.heap == s.heap && ScanOk(s, pc) && CoreFine(s, pc)
    ensures ScanOk(s', pc) && CoreFine(s', pc)
  {
  }

  lemma LockKeeps(s: Pool, s': Pool, t: Tid)
    requires Inv(s) && DoLock(s, t) == Some(s')
    ensures Inv(s')
  {
    hide SlotsFine, Distinct;
    assert ThreadFine(s, t);
    hide ThreadsFine;
    MoveKeeps(s, s', t);
  }

  lemma TestKeeps(s: Pool, s': Pool, t: Tid)
    requires Inv(s) && DoTest(s, t) == Some(s')
    ensures Inv(s')
  {
    hide SlotsFine, Distinct;
    assert ThreadFine(s, t);
    hide ThreadsFine;
    MoveKeeps(s, s', t);
  }

  lemma ProbeKeeps(s: Pool, s': Pool, t: Tid)
    requires Inv(s) && DoProbe(s, t) == Some(s')
    ensures Inv(s')
  {
    hide SlotsFine, Distinct;
    assert ThreadFine(s, t);
    hide ThreadsFine;
    MoveKeeps(s, s', t);
  }

  lemma UnlockKeeps(s: Pool, s': Pool, t: Tid)
    requires Inv(s) && DoUnlock(s, t) == Some(s')
    ensures Inv(s')
  {
    hide SlotsFine, Distinct;
    assert ThreadFine(s, t);
    hide ThreadsFine;
    MoveKeeps(s, s', t);
  }

  lemma LockToFreeKeeps(s: Pool, s': Pool, t: Tid, p: Ptr)
    requires Inv(s) && DoLockToFree(s, t, p) == Some(s')
    ensures Inv(s')
  {
    hide SlotsFine, Distinct;
    assert ThreadFine(s, t);
    hide ThreadsFine;
    MoveKeeps(s, s', t);
  }

  lemma UnlockFreedKeeps(s: Pool, s': Pool, t: Tid)
    requires Inv(s) && DoUnlockFreed(s, t) == Some(s')
    ensures Inv(s')
  {
    hide SlotsFine, Distinct;
    assert ThreadFine(s, t);
    hide ThreadsFine;
    MoveKeeps(s, s', t);
  }

  /** No other thread has anything to do with a slot that `t` answers for, or that nobody does. */
  lemma NotOthers(s: Pool, t: Tid, i: nat, u: Tid)
    requires Inv(s) && u in s.threads && u != t && (i !in s.holder || s.holder[i] != Held(u))
    ensures ClaimOf(s.threads[u].pc) != Some(i)
    ensures forall p | p in s.threads[u].owned :: p in s.heap && s.heap[p].cpuId != i
  {
    assert ThreadFine(s, u);
  }

  /** Nobody else scans while `t` holds the lock. */
  lemma LockExcludes(s: Pool, t: Tid, u: Tid)
    requires Inv(s) && t in s.threads && Locked(s.threads[t].pc) && u in s.threads && u != t
    ensures !Locked(s.threads[u].pc)
  {
  }

  lemma MarkKeeps(s: Pool, s': Pool, t: Tid)
    requires Inv(s) && DoMark(s, t) == Some(s')
    ensures Inv(s')
  {
    MarkThread(s, s', t);
    assert ThreadsFine(s') by {
      hide Inv, ThreadFine;
      forall u | u in s'.threads && u != t ensures ThreadFine(s', u) {
        MarkOthers(s, s', t, u);
      }
    }
    assert SlotsFine(s') by {
      hide ThreadsFine, SlotFine, LockOk, Distinct;
      forall j: nat | j < KVM_MAX_VCPUS ensures SlotFine(s', j) {
        MarkSlots(s, s', t, j);
      }
    }
    hide ThreadsFine, SlotsFine, ThreadFine;
  }

  lemma MarkThread(s: Pool, s': Pool, t: Tid)
    requires Inv(s) && DoMark(s, t) == Some(s')
    ensures t in s'.threads && ThreadFine(s', t)
  {
    assert ThreadFine(s, t) && SlotFine(s, s.threads[t].pc.i);
    hide Distinct, LockOk, ThreadsFine, SlotsFine;
  }

  lemma MarkOthers(s: Pool, s': Pool, t: Tid, u: Tid)
    requires Inv(s) && DoMark(s, t) == Some(s') && u in s.threads && u != t
    ensures ThreadFine(s', u)
  {
    hide Distinct, LockOk;
    assert ThreadFine(s, t) && ThreadFine(s, u) && SlotFine(s, s.threads[t].pc.i);
    NotOthers(s, t, s.threads[t].pc.i, u);
    LockExcludes(s, t, u);
    hide SlotFine;
  }

  lemma MarkSlots(s: Pool, s': Pool, t: Tid, j: nat)
    requires Inv(s) && DoMark(s, t) == Some(s') && j < KVM_MAX_VCPUS
    ensures SlotFine(s', j)
  {
    hide Distinct, LockOk;
    assert ThreadFine(s, t) && SlotFine(s, j) && SlotFine(s, s.threads[t].pc.i);
    hide ThreadFine;
  }

  lemma FetchSettles(s: Pool, t: Tid)
    requires Inv(s) && t in s.threads && s.threads[t].pc.Fetching?
    ensures var i := s.threads[t].pc.i;
            && i < |s.slots| && s.slots[i].vcpu.Some? && Settled(s, s.slots[i].vcpu.value)
            && s.heap[s.slots[i].vcpu.value].cpuId == i && i in s.holder && s.holder[i] == Held(t)
  {
    assert ThreadFine(s, t) && SlotFine(s, s.threads[t].pc.i);
  }

  lemma FetchThreads(s: Pool, s': Pool, t: Tid)
    requires Inv(s) && DoFetch(s, t) == Some(s')
    ensures ThreadsFine(s') && Distinct(s') && LockOk(s')
  {
    FetchSettles(s, t);
    assert ThreadFine(s', t) by {
      assert ThreadFine(s, t);
      hide SlotsFine, ThreadsFine, Distinct, LockOk;
    }
    hide SlotsFine, ThreadFine;
    forall u | u in s'.threads && u != t ensures ThreadFine(s', u) {
      KeepsThread(s, s', u);
    }
  }

  lemma FetchKeeps(s: Pool, s': Pool, t: Tid)
    requires Inv(s) && DoFetch(s, t) == Some(s')
    ensures Inv(s')
  {
    FetchThreads(s, s', t);
    FetchSettles(s, t);
    assert SlotsFine(s') by {
      hide ThreadsFine, Distinct, LockOk;
      forall j: nat | j < KVM_MAX_VCPUS ensures SlotFine(s', j) {
        assert SlotFine(s, j);
      }
    }
    hide ThreadsFine, SlotsFine, Distinct, LockOk;
  }

  lemma CallocThreads(s: Pool, s': Pool, t: Tid, p: Ptr)
    requires Inv(s) && DoCalloc(s, t, p) == Some(s')
    ensures ThreadsFine(s')
  {
    CallocThread(s, s', t, p);
    hide SlotsFine, Distinct, LockOk;
    forall u | u in s'.threads && u != t ensures ThreadFine(s', u) {
      assert ThreadFine(s, u);
      CallocFrame(s, s', t, p, s.threads[u].pc);
    }
  }

  lemma CallocDistinct(s: Pool, s': Pool, t: Tid, p: Ptr)
    requires Inv(s) && DoCalloc(s, t, p) == Some(s')
    ensures Distinct(s') && LockOk(s')
  {
    hide SlotsFine;
    assert ThreadFine(s, t);
    assert forall u | u in s.threads && s.threads[u].pc.Publishing? :: ThreadFine(s, u) && s.threads[u].pc.p in s.heap;
    hide ThreadFine;
  }

  lemma CallocKeeps(s: Pool, s': Pool, t: Tid, p: Ptr)
    requires Inv(s) && DoCalloc(s, t, p) == Some(s')
    ensures Inv(s')
  {
    CallocThreads(s, s', t, p);
    CallocDistinct(s, s', t, p);
    assert SlotsFine(s') by {
      hide ThreadsFine, Distinct, LockOk;
      forall j: nat | j < KVM_MAX_VCPUS ensures SlotFine(s', j) {
        assert SlotFine(s, j);
      }
    }
    hide ThreadsFine, SlotsFine, Distinct, LockOk;
  }

  lemma CallocThread(s: Pool, s': Pool, t: Tid, p: Ptr)
    requires Inv(s) && DoCalloc(s, t, p) == Some(s')
    ensures ThreadFine(s', t)
  {
    assert ThreadFine(s, t);
    forall j | 0 <= j < |s.slots| ensures s.slots[j].vcpu != Some(p) {
      assert SlotFine(s, j);
    }
  }

  lemma CallocFrame(s: Pool, s': Pool, t: Tid, p: Ptr, pc: Pc)
    requires DoCalloc(s, t, p) == Some(s') && ScanOk(s, pc) && CoreFine(s, pc)
    ensures ScanOk(s', pc) && CoreFine(s', pc)
  {
  }

  lemma CallocFailsThread(s: Pool, s': Pool, t: Tid)
    requires Inv(s) && DoCallocFails(s, t) == Some(s')
    ensures t in s.threads && t in s'.threads && ThreadFine(s, t) && ThreadFine(s', t)
  {
    assert ThreadFine(s, t);
    hide SlotsFine, ThreadsFine, LockOk, Distinct;
  }

  lemma CallocFailsThreads(s: Pool, s': Pool, t: Tid)
    requires Inv(s) && DoCallocFails(s, t) == Some(s')
    ensures ThreadsFine(s')
  {
    CallocFailsThread(s, s', t);
    assert ClaimOf(s.threads[t].pc) == Some(s.threads[t].pc.i);
    hide SlotsFine, Distinct, LockOk, ScanOk, CoreFine, Settled;
    forall u | u in s'.threads && u != t ensures ThreadFine(s', u) {
      KeepsThread(s, s', u);
    }
    hide ThreadFine;
  }

  lemma CallocFailsSlots(s: Pool, s': Pool, t: Tid)
    requires Inv(s) && DoCallocFails(s, t) == Some(s')
    ensures SlotsFine(s')
  {
    CallocFailsThread(s, s', t);
    hide ThreadsFine, Distinct, LockOk, ScanOk;
    forall j: nat | j < KVM_MAX_VCPUS ensures SlotFine(s', j) {
      assert SlotFine(s, j);
    }
  }

  lemma CallocFailsKeeps(s: Pool, s': Pool, t: Tid)
    requires Inv(s) && DoCallocFails(s, t) == Some(s')
    ensures Inv(s')
  {
    CallocFailsThreads(s, s', t);
    CallocFailsSlots(s, s', t);
    hide ThreadsFine, SlotsFine;
  }

  // The steps on a new core: only its creator can see it.

  lemma NewCoreHidden(s: Pool, t: Tid, i: nat, p: Ptr, u: Tid)
    requires Inv(s) && t in s.threads && Unfinished(s.threads[t].pc, i, p) && u in s.threads && u != t
    ensures !s.threads[u].pc.Publishing? || s.threads[u].pc.p != p
    ensures forall j, q | Unfinished(s.threads[u].pc, j, q) :: q != p
    ensures p !in s.threads[u].owned
  {
    assert ThreadFine(s, t) && ThreadFine(s, u);
    NotOthers(s, t, i, u);
    hide SlotsFine, LockOk;
  }

  lemma HeapKeepsThread(s: Pool, s': Pool, t: Tid, i: nat, p: Ptr, u: Tid)
    requires Inv(s) && t in s.threads && Unfinished(s.threads[t].pc, i, p) && u in s.threads && u != t
    requires u in s'.threads && s'.threads[u] == s.threads[u]
    requires s'.slots == s.slots && s'.holder == s.holder && p in s'.heap && s'.heap == s.heap[p := s'.heap[p]]
    ensures ThreadFine(s', u)
  {
    NewCoreHidden(s, t, i, p, u);
    assert ThreadFine(s, u);
    hide SlotsFine, ThreadsFine, Distinct, LockOk;
  }

  lemma LinkKeeps(s: Pool, s': Pool, t: Tid)
    requires Inv(s) && DoLink(s, t) == Some(s')
    ensures Inv(s')
  {
    assert ThreadFine(s, t);
    InitKeeps(s, s', t, s.threads[t].pc.i, s.threads[t].pc.p) by { hide ThreadsFine, SlotsFine, Distinct; }
  }

  lemma NumberKeeps(s: Pool, s': Pool, t: Tid)
    requires Inv(s) && DoNumber(s, t) == Some(s')
    ensures Inv(s')
  {
    assert ThreadFine(s, t);
    InitKeeps(s, s', t, s.threads[t].pc.i, s.threads[t].pc.p) by { hide ThreadsFine, SlotsFine, Distinct; }
  }

  /** Steps that fill in a field of a core that KVM does not know yet. */
  ghost predicate Inits(s: Pool, s': Pool, t: Tid, i: nat, p: Ptr)
  {
    && t in s.threads && Unfinished(s.threads[t].pc, i, p) && ThreadFine(s, t)
    && t in s'.threads && s'.threads == s.threads[t := s'.threads[t]] && s'.threads[t].owned == s.threads[t].owned
    && Unfinished(s'.threads[t].pc, i, p) && p in s.heap && !s.heap[p].hasFd
    && s'.slots == s.slots && s'.holder == s.holder && s'.created == s.created && s'.lock == s.lock
    && p in s'.heap && s'.heap == s.heap[p := s'.heap[p]] && !s'.heap[p].hasFd
  }

  lemma InitThreads(s: Pool, s': Pool, t: Tid, i: nat, p: Ptr)
    requires Inv(s) && Inits(s, s', t, i, p) && ThreadFine(s', t)
    ensures ThreadsFine(s')
  {
    hide SlotsFine, ThreadFine, Distinct, LockOk;
    forall u | u in s'.threads && u != t ensures ThreadFine(s', u) {
      HeapKeepsThread(s, s', t, i, p, u);
    }
  }

  lemma InitSlots(s: Pool, s': Pool, t: Tid, i: nat, p: Ptr)
    requires Inv(s) && Inits(s, s', t, i, p)
    ensures SlotsFine(s')
  {
    hide ThreadsFine, LockOk;
    forall j: nat | j < KVM_MAX_VCPUS ensures SlotFine(s', j) {
      InitSlot(s, s', t, i, p, j);
    }
    hide Distinct, Inits, SlotFine;
  }

  lemma InitSlot(s: Pool, s': Pool, t: Tid, i: nat, p: Ptr, j: nat)
    requires Inv(s) && Inits(s, s', t, i, p) && j < KVM_MAX_VCPUS
    ensures |s'.slots| == KVM_MAX_VCPUS && SlotFine(s', j)
  {
    assert SlotFine(s, j);
    hide ThreadsFine, SlotsFine, LockOk;
  }

  lemma InitKeeps(s: Pool, s': Pool, t: Tid, i: nat, p: Ptr)
    requires Inv(s) && Inits(s, s', t, i, p) && ThreadFine(s', t)
    ensures Inv(s')
  {
    InitThreads(s, s', t, i, p);
    InitSlots(s, s', t, i, p);
    hide ThreadFine, ThreadsFine, SlotsFine;
  }

  lemma PublishThreads(s: Pool, s': Pool, t: Tid)
    requires Inv(s) && DoPublish(s, t) == Some(s')
    ensures ThreadsFine(s')
  {
    assert ThreadFine(s, t);
    assert ThreadFine(s', t) by { hide SlotsFine, ThreadsFine, Distinct, LockOk; }
    forall u | u in s'.threads && u != t ensures ThreadFine(s', u) {
      PublishOthers(s, s', t, u);
    }
    hide ThreadFine, SlotsFine, Distinct, LockOk;
  }

  lemma PublishOthers(s: Pool, s': Pool, t: Tid, u: Tid)
    requires Inv(s) && DoPublish(s, t) == Some(s') && u in s.threads && u != t
    ensures ThreadFine(s', u)
  {
    assert ThreadFine(s, t) && ThreadFine(s, u);
    NotOthers(s, t, s.threads[t].pc.i, u);
    hide SlotsFine, ThreadsFine, LockOk;
  }

  lemma PublishSlots(s: Pool, s': Pool, t: Tid)
    requires Inv(s) && DoPublish(s, t) == Some(s')
    ensures SlotsFine(s')
  {
    assert ThreadFine(s, t) && SlotFine(s, s.threads[t].pc.i);
    hide ThreadsFine, Distinct, LockOk;
    forall j: nat | j < KVM_MAX_VCPUS ensures SlotFine(s', j) {
      assert SlotFine(s, j);
    }
  }

  lemma PublishKeeps(s: Pool, s': Pool, t: Tid)
    requires Inv(s) && DoPublish(s, t) == Some(s')
    ensures Inv(s')
  {
    PublishThreads(s, s', t);
    PublishSlots(s, s', t);
    assert ThreadFine(s, t);
    hide ThreadsFine, SlotsFine;
  }

  /** KVM never sees the same id twice. */
  lemma CreateSucceeds(s: Pool, t: Tid)
    requires Inv(s) && t in s.threads && s.threads[t].pc.Opening?
    ensures var i, p := s.threads[t].pc.i, s.threads[t].pc.p;
            && i < |s.slots| && p in s.heap && s.heap[p].linked && s.heap[p].cpuId == i && i !in s.created
            && s.slots[i].vcpu == Some(p) && i in s.holder && s.holder[i] == Held(t)
  {
    assert ThreadFine(s, t) && SlotFine(s, s.threads[t].pc.i);
  }

  lemma CreateThreads(s: Pool, s': Pool, t: Tid)
    requires Inv(s) && DoCreate(s, t) == Some(s')
    ensures ThreadsFine(s')
  {
    CreateSucceeds(s, t);
    assert ThreadFine(s, t);
    assert ThreadFine(s', t) by { hide SlotsFine, ThreadsFine, Distinct, LockOk; }
    forall u | u in s'.threads && u != t ensures ThreadFine(s', u) {
      HeapKeepsThread(s, s', t, s.threads[t].pc.i, s.threads[t].pc.p, u);
    }
    hide ThreadFine, SlotsFine, Distinct, LockOk;
  }

  lemma CreateSlots(s: Pool, s': Pool, t: Tid)
    requires Inv(s) && DoCreate(s, t) == Some(s')
    ensures SlotsFine(s')
  {
    CreateSucceeds(s, t);
    hide ThreadsFine, LockOk;
    forall j: nat | j < KVM_MAX_VCPUS ensures SlotFine(s', j) {
      assert SlotFine(s, j);
    }
  }

  lemma CreateKeeps(s: Pool, s': Pool, t: Tid)
    requires Inv(s) && DoCreate(s, t) == Some(s')
    ensures Inv(s')
  {
    CreateThreads(s, s', t);
    CreateSlots(s, s', t);
    CreateSucceeds(s, t);
    hide ThreadsFine, SlotsFine;
  }

  // Handing a core over, losing it, and giving it back.

  lemma OwnedFacts(s: Pool, t: Tid, p: Ptr)
    requires Inv(s) && t in s.threads && p in s.threads[t].owned
    ensures Settled(s, p) && s.heap[p].cpuId in s.holder && s.holder[s.heap[p].cpuId] == Held(t)
    ensures s.slots[s.heap[p].cpuId].valid
  {
    assert ThreadFine(s, t);
    assert SlotFine(s, s.heap[p].cpuId);
  }

  lemma HandOverThreads(s: Pool, s': Pool, t: Tid, child: Tid, p: Ptr)
    requires Inv(s) && DoHandOver(s, t, child, p) == Some(s')
    ensures ThreadsFine(s')
  {
    OwnedFacts(s, t, p);
    assert ThreadFine(s, t);
    assert ThreadFine(s', t) && ThreadFine(s', child) by { hide SlotsFine, ThreadsFine, LockOk; }
    hide SlotsFine, ThreadFine, Distinct, LockOk;
    forall u | u in s.threads && u != t ensures ThreadFine(s', u) {
      KeepsThread(s, s', u);
    }
  }

  lemma HandOverSlots(s: Pool, s': Pool, t: Tid, child: Tid, p: Ptr)
    requires Inv(s) && DoHandOver(s, t, child, p) == Some(s')
    ensures SlotsFine(s')
  {
    OwnedFacts(s, t, p);
    hide ThreadsFine, LockOk;
    forall j: nat | j < KVM_MAX_VCPUS ensures SlotFine(s', j) {
      assert SlotFine(s, j);
    }
  }

  lemma HandOverKeeps(s: Pool, s': Pool, t: Tid, child: Tid, p: Ptr)
    requires Inv(s) && DoHandOver(s, t, child, p) == Some(s')
    ensures Inv(s')
  {
    HandOverThreads(s, s', t, child, p);
    HandOverSlots(s, s', t, child, p);
    hide ThreadsFine, SlotsFine;
  }

  lemma AbandonThreads(s: Pool, s': Pool, t: Tid, p: Ptr)
    requires Inv(s) && DoAbandon(s, t, p) == Some(s')
    ensures ThreadsFine(s')
  {
    OwnedFacts(s, t, p);
    assert ThreadFine(s, t);
    assert ThreadFine(s', t) by { hide SlotsFine, ThreadsFine, LockOk; }
    hide SlotsFine, ThreadFine, Distinct, LockOk;
    forall u | u in s.threads && u != t ensures ThreadFine(s', u) {
      KeepsThread(s, s', u);
    }
  }

  lemma AbandonKeeps(s: Pool, s': Pool, t: Tid, p: Ptr)
    requires Inv(s) && DoAbandon(s, t, p) == Some(s')
    ensures Inv(s')
  {
    AbandonThreads(s, s', t, p);
    OwnedFacts(s, t, p);
    assert SlotsFine(s') by {
      hide ThreadsFine, LockOk;
      forall j: nat | j < KVM_MAX_VCPUS ensures SlotFine(s', j) {
        assert SlotFine(s, j);
      }
    }
    hide ThreadsFine, SlotsFine;
  }

  lemma VanishThreads(s: Pool, s': Pool, t: Tid, p: Ptr)
    requires Inv(s) && DoVanish(s, t, p) == Some(s')
    ensures ThreadsFine(s') && LockOk(s') && Distinct(s')
  {
    OwnedFacts(s, t, p);
    hide SlotsFine, ThreadFine;
    forall u | u in s.threads && u != t ensures ThreadFine(s', u) {
      KeepsThread(s, s', u);
    }
  }

  lemma VanishKeeps(s: Pool, s': Pool, t: Tid, p: Ptr)
    requires Inv(s) && DoVanish(s, t, p) == Some(s')
    ensures Inv(s')
  {
    VanishThreads(s, s', t, p);
    OwnedFacts(s, t, p);
    assert SlotsFine(s') by {
      hide ThreadsFine, LockOk, Distinct;
      forall j: nat | j < KVM_MAX_VCPUS ensures SlotFine(s', j) {
        VanishSlot(s, s', t, p, j);
      }
    }
    hide ThreadsFine, SlotsFine, LockOk, Distinct;
  }

  lemma VanishSlot(s: Pool, s': Pool, t: Tid, p: Ptr, j: nat)
    requires Inv(s) && DoVanish(s, t, p) == Some(s') && j < KVM_MAX_VCPUS
    ensures |s'.slots| == KVM_MAX_VCPUS && SlotFine(s', j)
  {
    OwnedFacts(s, t, p);
    assert SlotFine(s, j);
    if j in s.holder && s.holder[j] == Held(t) {
      assert Claims(s, t, j);
    }
    hide ThreadsFine, SlotsFine, LockOk;
  }

  /** The assertion in `kvm_free_vcpu` holds. */
  lemma ClearSucceeds(s: Pool, t: Tid)
    requires Inv(s) && t in s.threads && s.threads[t].pc.Freeing?
    ensures var p := s.threads[t].pc.p;
            && Settled(s, p) && s.slots[s.heap[p].cpuId].valid && s.threads[t].owned == {p}
            && s.heap[p].cpuId in s.holder && s.holder[s.heap[p].cpuId] == Held(t)
  {
    assert ThreadFine(s, t);
    OwnedFacts(s, t, s.threads[t].pc.p);
  }

  lemma ClearOthers(s: Pool, s': Pool, t: Tid, u: Tid)
    requires Inv(s) && DoClear(s, t) == Some(s') && u in s.threads && u != t
    ensures ThreadFine(s', u)
  {
    ClearSucceeds(s, t);
    assert ThreadFine(s, u);
    NotOthers(s, t, s.heap[s.threads[t].pc.p].cpuId, u);
    LockExcludes(s, t, u);
    hide SlotsFine, ThreadsFine, LockOk;
  }

  lemma ClearThreads(s: Pool, s': Pool, t: Tid)
    requires Inv(s) && DoClear(s, t) == Some(s')
    ensures ThreadsFine(s') && LockOk(s') && Distinct(s')
  {
    ClearSucceeds(s, t);
    assert ThreadFine(s, t);
    forall u | u in s.threads && u != t ensures ThreadFine(s', u) {
      ClearOthers(s, s', t, u);
    }
    hide SlotsFine, ThreadsFine;
    assert ThreadFine(s', t);
  }

  lemma ClearKeeps(s: Pool, s': Pool, t: Tid)
    requires Inv(s) && DoClear(s, t) == Some(s')
    ensures Inv(s')
  {
    ClearThreads(s, s', t);
    ClearSucceeds(s, t);
    assert SlotsFine(s') by {
      hide ThreadsFine, LockOk;
      forall j: nat | j < KVM_MAX_VCPUS ensures SlotFine(s', j) {
        assert SlotFine(s, j);
      }
    }
    hide ThreadsFine, SlotsFine, LockOk, Distinct;
  }

  lemma GoneKeeps(s: Pool, s': Pool, t: Tid)
    requires Inv(s) && DoGone(s, t) == Some(s')
    ensures Inv(s')
  {
    assert ThreadFine(s, t);
    assert ThreadsFine(s') by {
      hide SlotsFine, ThreadFine, LockOk, Distinct;
      forall u | u in s'.threads ensures ThreadFine(s', u) {
        KeepsThread(s, s', u);
      }
    }
    assert SlotsFine(s') by {
      hide ThreadsFine, LockOk, Distinct;
      forall j: nat | j < KVM_MAX_VCPUS ensures SlotFine(s', j) {
        assert SlotFine(s, j);
      }
    }
    hide ThreadsFine, SlotsFine;
  }

  // ---------- Whole runs ----------

  lemma StepKeeps(s: Pool, l: Label, s': Pool)
    requires Inv(s) && Apply(s, l) == Some(s')
    ensures Inv(s')
  {
    hide Inv, DoLock, DoTest, DoMark, DoProbe, DoUnlock, DoFetch, DoCalloc, DoCallocFails, DoPublish, DoLink, DoNumber,
         DoCreate, DoHandOver, DoAbandon, DoVanish, DoLockToFree, DoClear, DoUnlockFreed, DoGone;
    match l {
      case Lock(t) => LockKeeps(s, s', t);
      case Test(t) => TestKeeps(s, s', t);
      case Mark(t) => MarkKeeps(s, s', t);
      case Probe(t) => ProbeKeeps(s, s', t);
      case Unlock(t) => UnlockKeeps(s, s', t);
      case Fetch(t) => FetchKeeps(s, s', t);
      case Calloc(t, p) => CallocKeeps(s, s', t, p);
      case CallocFails(t) => CallocFailsKeeps(s, s', t);
      case Publish(t) => PublishKeeps(s, s', t);
      case Link(t) => LinkKeeps(s, s', t);
      case Number(t) => NumberKeeps(s, s', t);
      case Create(t) => CreateKeeps(s, s', t);
      case HandOver(t, c, p) => HandOverKeeps(s, s', t, c, p);
      case Abandon(t, p) => AbandonKeeps(s, s', t, p);
      case Vanish(t, p) => VanishKeeps(s, s', t, p);
      case LockToFree(t, p) => LockToFreeKeeps(s, s', t, p);
      case Clear(t) => ClearKeeps(s, s', t);
      case UnlockFreed(t) => UnlockFreedKeeps(s, s', t);
      case Gone(t) => GoneKeeps(s, s', t);
    }
  }

  lemma EmptyIsFine(t: Tid)
    ensures Inv(Empty(t))
  {
  }

  lemma {:induction false} RunKeeps(s: Pool, ls: seq<Label>, s': Pool)
    requires Inv(s) && Run(s, ls) == Some(s')
    ensures Inv(s')
    decreases |ls|
  {
    hide Inv, Apply;
    if ls != [] {
      var mid := Run(s, ls[..|ls| - 1]).value;
      RunKeeps(s, ls[..|ls| - 1], mid);
      StepKeeps(mid, ls[|ls| - 1], s');
    }
  }
}
