/** The page image that decides where every exception of a guest lands: filled with trap words, with the
    two handlers copied over it.  One image serves a whole process tree (`TreeSafety.ImageIsShared`).

    The vector of exception code `c` is at `c` vector sizes from EBASE; a TLB refill starts at TLBREBASE
    itself, which `init_csr` sets to the same address (section 6.2.1 of the LoongArch Reference Manual
    Volume 1 has the codes: interrupts are 64 and up). */
module VectorImage {
  import opened Paging
  import opened Handlers

  const INSTRUCTION_SIZE := 4
  /** 1 << (0x70000 >> 16) instructions. */
  const VEC_SIZE: int := 0x80 * INSTRUCTION_SIZE
  const EXCCODE_SYS := 11
  const EXCCODES := 128
  /** 0x002b8000 | INVALID_EBASE_POSITION. */
  const TRAP: int := 0x002b_8013

  /** Index of the first word of a vector. */
  function VectorAt(code: nat): nat { VEC_SIZE * code / INSTRUCTION_SIZE }

  /** Word `k` of the image: the handlers where they were copied to, traps everywhere else. */
  function ImageWord(refill: seq<int>, stub: seq<int>, k: nat): int
  {
    if VectorAt(EXCCODE_SYS) <= k < VectorAt(EXCCODE_SYS) + |stub| then stub[k - VectorAt(EXCCODE_SYS)]
    else if k < |refill| then refill[k]
    else TRAP
  }

  /** memcpy of whole instructions. */
  method Copy(words: array<int>, at: nat, code: seq<int>)
    requires at + |code| <= words.Length
    modifies words
    ensures words[..] == old(words[..at]) + code + old(words[at + |code|..])
  {
    var k := 0;
    while k < |code|
      invariant k <= |code|
      invariant forall j | 0 <= j < k :: words[at + j] == code[j]
      invariant forall j | 0 <= j < words.Length && !(at <= j < at + k) :: words[j] == old(words[j])
    {
      words[at + k] := code[k];
      k := k + 1;
    }
  }

  /** `init_ebase`, on four pages seen as words: the fill loop, whose bound is the number of bytes of one
      page and whose step is one word, writes exactly all of them. */
  method InitEbase(words: array<int>, refill: seq<int>, stub: seq<int>)
    requires words.Length * INSTRUCTION_SIZE == 4 * PAGESIZE
    requires |refill| <= VectorAt(EXCCODE_SYS) && |stub| <= VectorAt(1)
    modifies words
    ensures forall k | 0 <= k < words.Length :: words[k] == ImageWord(refill, stub, k)
  {
    var i := 0;
    while i < PAGESIZE
      invariant 0 <= i <= PAGESIZE == words.Length
      invariant forall j | 0 <= j < i :: words[j] == TRAP
    {
      words[i] := TRAP;
      i := i + 1;
    }
    Copy(words, 0, refill);
    assert forall j | |refill| <= j < words.Length :: words[..][j] == TRAP;
    assert forall j | 0 <= j < |refill| :: words[..][j] == refill[j];
    ghost var filled := words[..];
    Copy(words, VEC_SIZE * EXCCODE_SYS / INSTRUCTION_SIZE, stub);
    forall k | 0 <= k < words.Length ensures words[k] == ImageWord(refill, stub, k) {
      assert words[k] == words[..][k];
      if k < VectorAt(EXCCODE_SYS) || k >= VectorAt(EXCCODE_SYS) + |stub| { assert words[..][k] == filled[k]; }
    }
  }

  /** Every vector lies in the image, apart from every other. */
  lemma VectorsFit(c: nat, d: nat)
    requires c < d <= EXCCODES
    ensures VectorAt(c) + VectorAt(1) <= VectorAt(d) && VectorAt(EXCCODES) * INSTRUCTION_SIZE == 4 * PAGESIZE
  {
  }

  /** The handlers of the model fit: the refill before the first general vector, the stub in its own. */
  lemma HandlersFit()
    ensures REFILL_LENGTH <= VectorAt(1) && STUB_LENGTH <= VectorAt(1)
  {
  }

  /** A system call finds the stub at its vector, word for word, a refill the refill handler at the base,
      and every other exception or interrupt nothing but trap words in the whole of its vector. */
  lemma ExceptionsLand(refill: seq<int>, stub: seq<int>, code: nat, k: nat)
    requires |refill| <= VectorAt(1) && |stub| <= VectorAt(1) && code < EXCCODES && k < VectorAt(1)
    ensures k < |refill| ==> ImageWord(refill, stub, k) == refill[k]
    ensures k < |stub| ==> ImageWord(refill, stub, VectorAt(EXCCODE_SYS) + k) == stub[k]
    ensures k >= |refill| ==> ImageWord(refill, stub, k) == TRAP
    ensures code != 0 && code != EXCCODE_SYS ==> ImageWord(refill, stub, VectorAt(code) + k) == TRAP
    ensures code == EXCCODE_SYS && k >= |stub| ==> ImageWord(refill, stub, VectorAt(code) + k) == TRAP
  {
    VectorsFit(1, EXCCODE_SYS);
    if 0 < code {
      VectorsFit(0, code);
    }
    if code < EXCCODE_SYS {
      VectorsFit(code, EXCCODE_SYS);
    } else if code > EXCCODE_SYS {
      VectorsFit(EXCCODE_SYS, code);
    }
  }
}
