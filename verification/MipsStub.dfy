/** The MIPS system-call path: cause dispatch, the stub on both sides of the hypercall, and the host's part,
    which has one call with two results. */
module MipsStub {
  import opened Words
  import opened Paging
  import opened LoongArch
  import opened Trampoline
  import opened CallContract
  import H = HostLoop

  // Register numbers.
  const V0 := 2
  const V1 := 3
  const A3 := 7
  const K0 := 26
  const K1 := 27

  const EXCCODE_SYS: Word := 8
  const SYS_PIPE: Word := 5021
  const SLOTS := 7

  /** Unmapped addresses start with 10; below the cache attribute they name physical memory. */
  const XKPHYS_CACHED: Word := 0x9800_0000_0000_0000

  function XkphysTarget(va: Word): Option<Word>
  {
    if va / 0x4000_0000_0000_0000 == 2 then HostAddress(va % 0x0800_0000_0000_0000) else None
  }

  /** What `init_cp0` puts into KSCRATCH1. */
  function XkphysAddress(b: Word): Word { Add(b, XKPHYS_CACHED) }

  /** Each access of the stub reaches its own slot of the parameter block. */
  lemma SlotTarget(b: Word, i: nat)
    requires b + 8 * SLOTS <= SLOT_SIZE && i < SLOTS
    ensures XkphysTarget(Add(XkphysAddress(b), 8 * i)) == Some(Cell(b, i))
  {
  }

  function ExcCode(cause: Word): Word { cause / 4 % 32 }

  /** The exception code is the five bits above the lowest two, whatever the others are. */
  lemma ExcCodeIs(high: nat, code: nat, low: nat)
    requires code < 32 && low < 4 && 128 * high + 4 * code + low < TWO_64
    ensures ExcCode(128 * high + 4 * code + low) == code
  {
    Quotient(32 * high + code, 4, low);
    Quotient(high, 32, code);
  }

  ghost predicate HasSlots(mem: Mem, b: Word)
  {
    forall i | 0 <= i < SLOTS :: Cell(b, i) in mem
  }

  lemma {:induction false} XorBitsZero(a: int, b: int, n: nat)
    requires 0 <= a < Pow2(n) && 0 <= b < Pow2(n)
    ensures XorBits(a, b, n) == 0 <==> a == b
    decreases n
  {
    if n > 0 {
      XorBitsZero(a / 2, b / 2, n - 1);
    }
  }

  lemma CellsApart(b: Word)
    ensures forall i, j | 0 <= i < SLOTS && 0 <= j < SLOTS && i != j :: Cell(b, i) != Cell(b, j)
  {
  }

  /** The seven stores. */
  function Stored(m: Mem, b: Word, v: seq<Word>): Mem
    requires |v| == SLOTS
  {
    m[Cell(b, 0) := v[0]][Cell(b, 1) := v[1]][Cell(b, 2) := v[2]][Cell(b, 3) := v[3]]
    [Cell(b, 4) := v[4]][Cell(b, 5) := v[5]][Cell(b, 6) := v[6]]
  }

  lemma StoredSlots(m: Mem, b: Word, v: seq<Word>)
    requires HasSlots(m, b) && |v| == SLOTS
    ensures forall i | 0 <= i < SLOTS :: Stored(m, b, v)[Cell(b, i)] == v[i]
    ensures OnlyBlockChanges(m, Stored(m, b, v), b)
  {
    CellsApart(b);
    hide Cell;
    assert Stored(m, b, v).Keys == m.Keys;
  }

  lemma StoredIs(m: Mem, b: Word, v: seq<Word>)
    requires |v| == SLOTS
    ensures Stored(m, b, v)
            == m[Cell(b, 0) := v[0]][Cell(b, 1) := v[1]][Cell(b, 2) := v[2]][Cell(b, 3) := v[3]]
               [Cell(b, 4) := v[4]][Cell(b, 5) := v[5]][Cell(b, 6) := v[6]]
  {
  }

  class MipsHart {
    const gpr: array<Word>
    const kscratch1: Word
    var epc: Word
    var mem: Mem

    constructor (b: Word, m: Mem, pc: Word)
      ensures gpr.Length == 32 && fresh(gpr) && kscratch1 == XkphysAddress(b) && mem == m && epc == pc
    {
      gpr := new Word[32](i => 0);
      kscratch1 := XkphysAddress(b);
      mem := m;
      epc := pc;
    }

    /** Connected to the block at `b`, which the memory slot reaches. */
    ghost predicate Ready(b: Word)
      reads this
    {
      gpr.Length == 32 && b + 8 * SLOTS <= SLOT_SIZE && kscratch1 == XkphysAddress(b) && HasSlots(mem, b)
    }

    /** The general exception entry: on to the stub exactly for a system call. */
    method Dispatch(cause: Word) returns (syscall: bool)
      requires gpr.Length == 32
      modifies gpr
      ensures syscall <==> ExcCode(cause) == EXCCODE_SYS
      ensures forall r | 0 <= r < 32 && r != K0 && r != K1 :: gpr[r] == old(gpr[r])
    {
      gpr[K0] := cause;
      gpr[K0] := gpr[K0] / 4;
      gpr[K0] := gpr[K0] % 32;
      gpr[K1] := gpr[K0];
      Pow2At64();
      XorBitsZero(gpr[K1], EXCCODE_SYS, 64);
      gpr[K1] := Words.Xor(gpr[K1], EXCCODE_SYS);
      if gpr[K1] == 0 {
        return true;
      }
      gpr[K1] := 0xff3;
      return false;
    }

    method Sd(r: nat, b: Word, i: nat)
      requires Ready(b) && r < 32 && i < SLOTS && gpr[K0] == kscratch1
      modifies this`mem
      ensures mem == old(mem)[Cell(b, i) := gpr[r]] && Ready(b)
    {
      SlotTarget(b, i);
      var target := XkphysTarget(Add(gpr[K0], 8 * i)).value;
      mem := mem[target := gpr[r]];
    }

    method Ld(r: nat, b: Word, i: nat)
      requires Ready(b) && r < 32 && i < SLOTS && gpr[K0] == kscratch1
      modifies gpr
      ensures gpr[r] == mem[Cell(b, i)]
      ensures forall k | 0 <= k < 32 && k != r :: gpr[k] == old(gpr[k])
    {
      SlotTarget(b, i);
      var target := XkphysTarget(Add(gpr[K0], 8 * i)).value;
      gpr[r] := mem[target];
    }

    /** Up to the hypercall: number and six arguments are in the block, each in its place. */
    method Enter(b: Word)
      requires Ready(b)
      modifies gpr, this`mem
      ensures Ready(b)
      ensures mem[Cell(b, 0)] == old(gpr[2]) && mem[Cell(b, 1)] == old(gpr[4]) && mem[Cell(b, 2)] == old(gpr[5])
      ensures mem[Cell(b, 3)] == old(gpr[6]) && mem[Cell(b, 4)] == old(gpr[7]) && mem[Cell(b, 5)] == old(gpr[8])
      ensures mem[Cell(b, 6)] == old(gpr[9])
      ensures OnlyBlockChanges(old(mem), mem, b)
      ensures forall r | 0 <= r < 32 && r != K0 :: gpr[r] == old(gpr[r])
      ensures gpr[K0] == kscratch1
    {
      hide Cell, XkphysAddress, HasSlots, Stored, OnlyBlockChanges;
      ghost var v := [gpr[2], gpr[4], gpr[5], gpr[6], gpr[7], gpr[8], gpr[9]];
      StoredSlots(mem, b, v);
      StoredIs(mem, b, v);
      gpr[K0] := kscratch1;
      Sd(2, b, 0);
      Sd(4, b, 1);
      Sd(5, b, 2);
      Sd(6, b, 3);
      Sd(7, b, 4);
      Sd(8, b, 5);
      Sd(9, b, 6);
    }

    /** Behind the hypercall, for which KVM leaves `ret` in $2: the results are read back from the block,
        and the return address is moved on. */
    method Leave(b: Word, ret: Word)
      requires Ready(b) && gpr[K0] == kscratch1
      modifies gpr, this`epc
      ensures epc == Add(old(epc), 4) && Ready(b)
      ensures gpr[V0] == mem[Cell(b, 0)] && gpr[V1] == mem[Cell(b, 1)] && gpr[A3] == mem[Cell(b, 4)]
      ensures forall r | 0 <= r < 32 && r !in {V0, V1, A3, K0} :: gpr[r] == old(gpr[r])
    {
      gpr[V0] := ret;
      Ld(V0, b, 0);
      Ld(V1, b, 1);
      Ld(A3, b, 4);
      gpr[K0] := epc;
      gpr[K0] := Add(gpr[K0], 4);
      epc := gpr[K0];
    }

    /** `do_syscall`: one call with the number and six arguments of the block, and two results. */
    method DoSyscall(b: Word, r2: Word, r7: Word) returns (request: H.Request)
      requires Ready(b)
      modifies this`mem
      ensures request.nr == old(mem)[Cell(b, 0)] && |request.args| == 6
      ensures forall i | 0 <= i < 6 :: request.args[i] == old(mem)[Cell(b, i + 1)]
      ensures Ready(b) && mem == old(mem)[Cell(b, 0) := r2][Cell(b, 4) := r7]
    {
      var r4, r5, r6 := mem[Cell(b, 1)], mem[Cell(b, 2)], mem[Cell(b, 3)];
      var a7, r8, r9 := mem[Cell(b, 4)], mem[Cell(b, 5)], mem[Cell(b, 6)];
      request := H.Request(mem[Cell(b, 0)], [r4, r5, r6, a7, r8, r9]);
      mem := mem[Cell(b, 0) := r2];
      mem := mem[Cell(b, 4) := r7];
    }

    /** `arch_handle_special_syscall`: `pipe` on the guest's own array, and three results, or two when it
        failed. */
    method HandleSpecial(b: Word, ret: Word, fd0: Word, fd1: Word) returns (request: Option<H.Request>)
      requires Ready(b)
      modifies this`mem
      ensures request == if old(mem)[Cell(b, 0)] == SYS_PIPE then Some(H.Request(SYS_PIPE, [old(mem)[Cell(b, 1)]])) else None
      ensures Ready(b)
      ensures mem == if request == None then old(mem)
                     else if ret != 0 then old(mem)[Cell(b, 0) := ret][Cell(b, 4) := 1]
                     else old(mem)[Cell(b, 0) := fd0][Cell(b, 1) := fd1][Cell(b, 4) := 0]
    {
      var sysno := mem[Cell(b, 0)];
      if sysno == SYS_PIPE {
        var pipedes := mem[Cell(b, 1)];
        request := Some(H.Request(SYS_PIPE, [pipedes]));
        if ret != 0 {
          mem := mem[Cell(b, 0) := ret];
          mem := mem[Cell(b, 4) := 1];
        } else {
          mem := mem[Cell(b, 0) := fd0];
          mem := mem[Cell(b, 1) := fd1];
          mem := mem[Cell(b, 4) := 0];
        }
      } else {
        request := None;
      }
    }

    /** What the host loop asks for and leaves in the block for one call. */
    method Answer(b: Word, r2: Word, r7: Word, pipeRet: Word, fd0: Word, fd1: Word) returns (request: H.Request)
      requires Ready(b)
      modifies this`mem
      ensures Ready(b) && OnlyBlockChanges(old(mem), mem, b)
      ensures var pipe := old(mem)[Cell(b, 0)] == SYS_PIPE;
              && mem[Cell(b, 0)] == (if !pipe then r2 else if pipeRet != 0 then pipeRet else fd0)
              && mem[Cell(b, 1)] == (if pipe && pipeRet == 0 then fd1 else old(mem)[Cell(b, 1)])
              && mem[Cell(b, 4)] == (if !pipe then r7 else if pipeRet != 0 then 1 else 0)
              && request.nr == old(mem)[Cell(b, 0)] && |request.args| == (if pipe then 1 else 6)
              && forall i | 0 <= i < |request.args| :: request.args[i] == old(mem)[Cell(b, i + 1)]
    {
      CellsApart(b);
      hide Cell;
      var special := HandleSpecial(b, pipeRet, fd0, fd1);
      if special == None {
        request := DoSyscall(b, r2, r7);
      } else {
        request := special.value;
      }
      assert mem.Keys == old(mem).Keys;
    }

    /** A whole system call, with the kernel's two results, or those of `host_loop_pipe`.  The kernel is asked
        for exactly the guest's call, the number in $2 and the arguments in $4 to $9, or for `pipe` its array
        in $4.  Every call keeps the contract: `pipe` returns the second descriptor in $3, all others give $3
        up, because the stub reloads it for `pipe`'s sake; the two kernel registers are given up anyway. */
    method Serve(b: Word, cause: Word, r2: Word, r7: Word, pipeRet: Word, fd0: Word, fd1: Word, ret: Word)
      returns (request: H.Request)
      requires Ready(b) && ExcCode(cause) == EXCCODE_SYS
      modifies gpr, this`epc, this`mem
      ensures Ready(b) && OnlyBlockChanges(old(mem), mem, b)
      ensures old(gpr[2]) != SYS_PIPE ==>
                request == H.Request(old(gpr[2]), [old(gpr[4]), old(gpr[5]), old(gpr[6]), old(gpr[7]), old(gpr[8]), old(gpr[9])])
      ensures old(gpr[2]) == SYS_PIPE ==> request == H.Request(SYS_PIPE, [old(gpr[4])])
      ensures old(gpr[V0]) != SYS_PIPE ==>
                && Honors(old(gpr[..]), gpr[..], old(epc), epc, map[V0 := r2, A3 := r7], {V1, K0, K1})
                && gpr[V1] == old(gpr[4])
      ensures old(gpr[V0]) == SYS_PIPE && pipeRet == 0 ==>
                Honors(old(gpr[..]), gpr[..], old(epc), epc, map[V0 := fd0, V1 := fd1, A3 := 0], {K0, K1})
      ensures old(gpr[V0]) == SYS_PIPE && pipeRet != 0 ==>
                Honors(old(gpr[..]), gpr[..], old(epc), epc, map[V0 := pipeRet, A3 := 1], {V1, K0, K1})
    {
      hide Cell, HasSlots, XkphysAddress;
      var syscall := Dispatch(cause);
      Enter(b);
      request := Answer(b, r2, r7, pipeRet, fd0, fd1);
      Leave(b, ret);
    }
  }
}
