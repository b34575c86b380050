/** The MIPS refill handler: a pair of one-gigabyte pages computed with bit operations on whole words.

    An EntryLo word holds the page frame number from bit 6 on, in units of 4 KB, below it the cache
    attribute, dirty, valid and global bits; with the page mask used here the virtual address selects the
    pair by the bits from 31 on and the half by bit 30. */
module MipsPaging {

  // dune/mips/internal.h
  const PAGEMASK_1G_MASK: bv64 := 0x7fff_e000
  const PAGEMASK_1G_MASK_LOW_BITS: bv64 := 0x1fff
  /** C = 3, D, V and G. */
  const ENTRYLO_FLAGS: bv64 := 0x1f
  /** One gigabyte, where the frame number has it. */
  const ENTRYLO1_1G_OFFSET: bv64 := 0x100_0000

  /** User addresses have their two top bits clear. */
  predicate IsUser(va: bv64) { va >> 62 == 0 }

  predicate SamePair(a: bv64, b: bv64) { a >> 31 == b >> 31 }

  function Flags(lo: bv64): bv64 { lo & 0x3f }

  /** The page frame, as the byte address of its first byte. */
  function Frame(lo: bv64): bv64 { (lo >> 6) << 12 }

  predicate Inhibited(lo: bv64) { lo >> 62 != 0 }

  /** The translation through a pair with the one-gigabyte mask. */
  function Translate(lo0: bv64, lo1: bv64, va: bv64): bv64
  {
    var half := if (va >> 30) & 1 == 1 then lo1 else lo0;
    (Frame(half) & !0x3fff_ffff) | (va & 0x3fff_ffff)
  }

  function Nor(a: bv64, b: bv64): bv64 { !(a | b) }

  /** The even page: base shifted into place, flags below. */
  lemma EvenPage(bad: bv64, k: bv64)
    requires IsUser(bad) && k == ((0xffff_ffff_8000_0000 & bad) >> 6) | 0x1f
    ensures Flags(k) == 0x1f && !Inhibited(k)
    ensures Frame(k) == bad & !0x7fff_ffff
    ensures k & 0x100_0000 == 0
  {
  }

  /** The odd page: one bit more, which no field above or below had set. */
  lemma OddPage(k: bv64)
    requires Flags(k) == 0x1f && !Inhibited(k)
    ensures Flags(k | 0x100_0000) == 0x1f && !Inhibited(k | 0x100_0000)
    ensures Frame(k | 0x100_0000) == Frame(k) | 0x4000_0000
  {
  }

  lemma PairIsIdentity(lo0: bv64, lo1: bv64, bad: bv64, va: bv64)
    requires Frame(lo0) == bad & !0x7fff_ffff && Frame(lo1) == (bad & !0x7fff_ffff) | 0x4000_0000
    requires SamePair(bad, va)
    ensures Translate(lo0, lo1, va) == va
  {
  }

  lemma PairFields(bad: bv64, lo0: bv64, lo1: bv64)
    requires IsUser(bad) && lo1 == lo0 | 0x100_0000
    requires lo0 == ((0xffff_ffff_8000_0000 & bad) >> 6) | 0x1f
    ensures Flags(lo0) == 0x1f && Flags(lo1) == 0x1f && !Inhibited(lo0) && !Inhibited(lo1)
    ensures Frame(lo0) == bad & !0x7fff_ffff && Frame(lo1) == (bad & !0x7fff_ffff) | 0x4000_0000
  {
    hide Flags, Inhibited, Frame, IsUser;
    EvenPage(bad, lo0);
    OddPage(lo0);
  }

  /** Valid, dirty, global and not inhibited in both halves, and the identity on the two gigabytes around
      `bad`. */
  ghost predicate IdentityPair(lo0: bv64, lo1: bv64, bad: bv64)
  {
    && Flags(lo0) == 0x1f && Flags(lo1) == 0x1f && !Inhibited(lo0) && !Inhibited(lo1)
    && forall va | SamePair(bad, va) :: Translate(lo0, lo1, va) == va
  }

  lemma PairMapsItself(bad: bv64, lo0: bv64, lo1: bv64)
    requires IsUser(bad) && lo1 == lo0 | 0x100_0000
    requires lo0 == ((0xffff_ffff_8000_0000 & bad) >> 6) | 0x1f
    ensures IdentityPair(lo0, lo1, bad)
  {
    hide Flags, Inhibited, Frame, IsUser, SamePair, Translate;
    PairFields(bad, lo0, lo1);
    forall va | SamePair(bad, va) ensures Translate(lo0, lo1, va) == va {
      PairIsIdentity(lo0, lo1, bad, va);
    }
  }

  /** The first part of the handler: the page mask, and the mask of the bits above a pair. */
  method PairMask() returns (pagemask: bv64, k0: bv64)
    ensures pagemask == 0x7fff_e000 && k0 == 0xffff_ffff_8000_0000
  {
    k0 := PAGEMASK_1G_MASK;
    pagemask := k0;
    k0 := k0 | PAGEMASK_1G_MASK_LOW_BITS;
    k0 := Nor(k0, 0);
  }

  /** The second part: the even half of the pair. */
  method EvenWord(k0: bv64, badvaddr: bv64) returns (k1: bv64)
    requires k0 == 0xffff_ffff_8000_0000
    ensures k1 == ((0xffff_ffff_8000_0000 & badvaddr) >> 6) | 0x1f
  {
    k1 := badvaddr;
    k1 := k0 & k1;
    k1 := k1 >> 6;
    k1 := k1 | ENTRYLO_FLAGS;
  }

  /** `ebase_tlb_entry`: for every user address, the pair it writes maps the surrounding two gigabytes to
      themselves. */
  method Refill(badvaddr: bv64) returns (pagemask: bv64, entrylo0: bv64, entrylo1: bv64)
    requires IsUser(badvaddr)
    ensures pagemask == PAGEMASK_1G_MASK
    ensures IdentityPair(entrylo0, entrylo1, badvaddr)
  {
    hide IdentityPair, IsUser;
    var k0, k1;
    pagemask, k0 := PairMask();
    k1 := EvenWord(k0, badvaddr);
    entrylo0 := k1;
    k0 := ENTRYLO1_1G_OFFSET;
    k1 := k1 | k0;
    entrylo1 := k1;
    PairMapsItself(badvaddr, entrylo0, entrylo1);
  }
}
