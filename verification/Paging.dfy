/** Address translation as dune sets it up: software-filled TLB entries, the direct-mapped window and
    the single KVM memory slot.

    The TLB entry format and the paired-page lookup are those of section 5.4 of the LoongArch Reference
    Manual Volume 1, the window that of section 5.2.1. */
module Paging {
  import opened Words

  /** The host's page size, in bytes. */
  const PAGESIZE: int := 0x4000

  // ---------- TLB entries ----------

  /** The three words that `tlbfill` takes from TLBREHI, TLBRELO0 and TLBRELO1. */
  datatype TlbEntry = TlbEntry(hi: Word, lo0: Word, lo1: Word)

  datatype Access = Fetch | Read | Write

  const TLB_PS: Word := 29
  const PAGE: int := 0x2000_0000
  const PAIR: int := 0x4000_0000

  /** Virtual and physical addresses have 48 significant bits; user addresses are the lower half. */
  const ADDRESS_SPACE: int := 0x1_0000_0000_0000
  const USER_LIMIT: int := 0x8000_0000_0000

  // Bit numbers of dune/loongarch/internal.h.
  const RELO_V := 0
  const RELO_WE := 1
  const RELO_CCA := 4
  const RELO_GLOBAL := 6
  const RELO_RI := 61
  const RELO_XI := 62
  const RELO_RPLV := 63
  const FRAME: int := 0x1000

  /** V, WE, CCA and GLOBAL. */
  const RELO0_STANDARD_BITS: Word := 0x53
  /** The same, one 512 MB page further on. */
  const RELO1_STANDARD_BITS: Word := 0x2000_0053

  predicate IsUser(va: Word) { va < USER_LIMIT }

  /** The page-size field, a base-two logarithm. */
  function PageShift(e: TlbEntry): nat { e.hi % 64 }

  /** An entry covers a pair of adjacent pages, selected by the bits above the page-size bit. */
  predicate Covers(e: TlbEntry, va: Word)
  {
    va % ADDRESS_SPACE / Pow2(PageShift(e) + 1) == e.hi % ADDRESS_SPACE / Pow2(PageShift(e) + 1)
  }

  /** The half of the pair is selected by the page-size bit itself. */
  function Half(e: TlbEntry, va: Word): Word
  {
    if Bit(va, PageShift(e)) then e.lo1 else e.lo0
  }

  /** The page frame the selected half names, and the address's offset into that page. */
  function Physical(e: TlbEntry, va: Word): int
  {
    var size := Pow2(PageShift(e));
    var frame := Half(e, va) % ADDRESS_SPACE / FRAME * FRAME;
    frame / size * size + va % size
  }

  /** The ring-0 permission check on the selected half. */
  predicate Permits(half: Word, access: Access)
  {
    && Bit(half, RELO_V)
    && !Bit(half, RELO_RPLV)
    && (access == Fetch ==> !Bit(half, RELO_XI))
    && (access == Read ==> !Bit(half, RELO_RI))
    && (access == Write ==> Bit(half, RELO_WE))
  }

  /** A global entry matches whatever the address-space identifier is; both halves must say so. */
  predicate Global(e: TlbEntry)
  {
    Bit(e.lo0, RELO_GLOBAL) && Bit(e.lo1, RELO_GLOBAL)
  }

  predicate Hits(e: TlbEntry, va: Word, access: Access)
  {
    Covers(e, va) && Global(e) && Permits(Half(e, va), access)
  }

  // ---------- The KVM memory slot ----------

  const SLOT_SIZE: int := 0x100_0000_0000

  /** Slot 0 maps guest-physical 0 .. 2^40 to host-virtual 0 .. 2^40; anything else leaves the guest. */
  function HostAddress(gpa: int): Option<Word>
  {
    if 0 <= gpa < SLOT_SIZE then Some(gpa) else None
  }

  // ---------- The direct-mapped window ----------

  const DMW1_BASE: Word := 0x9000_0000_0000_0000
  const DMW1_INIT: Word := 0x9000_0000_0000_0011
  const SEGMENT: int := 0x1000_0000_0000_0000

  /** A window whose PLV0 bit is set captures the addresses with its segment number in bits 63..60. */
  predicate InWindow(dmw: Word, va: Word)
  {
    dmw % 2 == 1 && va / SEGMENT == dmw / SEGMENT
  }

  function WindowPhysical(va: Word): Word { va % ADDRESS_SPACE }

  /** Where a handler's load or store through the window lands in host memory. */
  function WindowTarget(dmw: Word, va: Word): Option<Word>
  {
    if InWindow(dmw, va) then HostAddress(WindowPhysical(va)) else None
  }

  // ---------- Identity entries ----------

  /** Base of the naturally aligned pair of 512 MB pages around an address. */
  function Region(va: Word): Word { va / PAIR * PAIR }

  /** The entry the refill handler is meant to build for the pair that starts at `r`. */
  function EntryOfRegion(r: Word): TlbEntry
  {
    TlbEntry(Add(TLB_PS, r), Add(RELO0_STANDARD_BITS, r), Add(RELO1_STANDARD_BITS, r))
  }

  function EntryFor(va: Word): TlbEntry { EntryOfRegion(Region(va)) }

  predicate IdentityEntry(e: TlbEntry)
  {
    e == EntryFor(e.hi) && IsUser(Region(e.hi))
  }

  predicate IdentityTlb(tlb: set<TlbEntry>)
  {
    forall e | e in tlb :: IdentityEntry(e)
  }

  lemma EntryForSameRegion(hi: Word)
    requires IsUser(Region(hi))
    ensures Region(EntryFor(hi).hi) == Region(hi)
    ensures EntryFor(EntryFor(hi).hi) == EntryFor(hi)
  {
    var q := hi / PAIR;
    NoCarry(q, TLB_PS);
    Quotient(q, PAIR, TLB_PS);
  }

  /** Adding flags to the base of a pair of user pages neither wraps nor carries. */
  lemma NoCarry(q: nat, x: nat)
    requires q * PAIR < USER_LIMIT && x < PAIR
    ensures (q * PAIR + x) % TWO_64 == q * PAIR + x
  {
    Quotient(0, TWO_64, q * PAIR + x);
  }

  lemma EntryForIsIdentity(hi: Word)
    requires IsUser(Region(hi))
    ensures IdentityEntry(EntryFor(hi))
  {
    EntryForSameRegion(hi);
  }

  lemma LowBits(q: nat, x: nat)
    requires x < 64
    ensures (q * PAIR + x) % 64 == x
  {
    Quotient(q * 0x100_0000, 64, x);
  }

  /** The fields of an identity entry, with no carry between base and flags. */
  lemma IdentityFields(e: TlbEntry)
    requires IdentityEntry(e)
    ensures var r := Region(e.hi);
            e == TlbEntry(r + TLB_PS, r + RELO0_STANDARD_BITS, r + RELO1_STANDARD_BITS)
    ensures PageShift(e) == 29
  {
    var q := e.hi / PAIR;
    NoCarry(q, TLB_PS);
    NoCarry(q, RELO0_STANDARD_BITS);
    NoCarry(q, RELO1_STANDARD_BITS);
    LowBits(q, 29);
  }

  lemma IdentityFlags(e: TlbEntry, access: Access)
    requires IdentityEntry(e)
    ensures Global(e) && Permits(e.lo0, access) && Permits(e.lo1, access)
    ensures Bit(e.lo0, RELO_CCA) && Bit(e.lo1, RELO_CCA)
  {
    IdentityFields(e);
    var r := Region(e.hi);
    StandardFlags(r, r + RELO0_STANDARD_BITS);
    StandardFlags(r, r + RELO1_STANDARD_BITS);
  }

  lemma StandardFlags(r: Word, half: Word)
    requires r % PAIR == 0 && IsUser(r)
    requires half == r + RELO0_STANDARD_BITS || half == r + RELO1_STANDARD_BITS
    ensures Bit(half, RELO_V) && Bit(half, RELO_WE) && Bit(half, RELO_CCA) && Bit(half, RELO_GLOBAL)
    ensures !Bit(half, RELO_RI) && !Bit(half, RELO_XI) && !Bit(half, RELO_RPLV)
  {
    LowFlags(r / PAIR, half - r, half);
    HighFlags(half);
  }

  /** What each flag is for: without V no access hits, without WE no store, without GLOBAL in both halves
      nothing; and the three bits that dune leaves clear would each shut something out. */
  lemma WithoutAFlag(e: TlbEntry, va: Word, access: Access)
    ensures var half := Half(e, va);
            && (half % 2 == 0 ==> !Hits(e, va, access))
            && (half / 2 % 2 == 0 ==> !Hits(e, va, Write))
            && (e.lo0 / 0x40 % 2 == 0 || e.lo1 / 0x40 % 2 == 0 ==> !Hits(e, va, access))
            && (half / 0x2000_0000_0000_0000 % 2 == 1 ==> !Hits(e, va, Read))
            && (half / 0x4000_0000_0000_0000 % 2 == 1 ==> !Hits(e, va, Fetch))
            && (half / 0x8000_0000_0000_0000 % 2 == 1 ==> !Hits(e, va, access))
  {
    hide Pow2, Half, Covers;
    Pow2Values();
    Pow2HighValues();
    assert Half(e, va) / 1 == Half(e, va);
  }

  lemma LowFlags(q: nat, low: int, half: Word)
    requires half == q * PAIR + low && (low == RELO0_STANDARD_BITS || low == RELO1_STANDARD_BITS)
    ensures Bit(half, RELO_V) && Bit(half, RELO_WE) && Bit(half, RELO_CCA) && Bit(half, RELO_GLOBAL)
  {
    hide Bit, Pow2;
    Pow2Values();
    BitAt(half, RELO_V, 1);
    BitAt(half, RELO_WE, 2);
    BitAt(half, RELO_CCA, 0x10);
    BitAt(half, RELO_GLOBAL, 0x40);
    FlagBits(q, low);
  }

  lemma FlagBits(q: nat, low: int)
    requires low == RELO0_STANDARD_BITS || low == RELO1_STANDARD_BITS
    ensures (q * PAIR + low) / 1 % 2 == 1 && (q * PAIR + low) / 2 % 2 == 1
    ensures (q * PAIR + low) / 0x10 % 2 == 1 && (q * PAIR + low) / 0x40 % 2 == 1
  {
    var n := q * 0x80_0000 + if low == RELO1_STANDARD_BITS then 0x40_0000 else 0;
    assert q * PAIR + low == 0x80 * n + 0x53;
    Quotient(0x40 * n + 0x29, 2, 1);
    Quotient(0x20 * n + 0x14, 2, 1);
    Quotient(8 * n + 5, 0x10, 3);
    Quotient(4 * n + 2, 2, 1);
    Quotient(2 * n + 1, 0x40, 0x13);
    Quotient(n, 2, 1);
  }

  lemma HighFlags(half: Word)
    requires half < ADDRESS_SPACE
    ensures !Bit(half, RELO_RI) && !Bit(half, RELO_XI) && !Bit(half, RELO_RPLV)
  {
    hide Bit, Pow2;
    Pow2HighValues();
    Quotient(0, 0x2000_0000_0000_0000, half);
    Quotient(0, 0x4000_0000_0000_0000, half);
    Quotient(0, 0x8000_0000_0000_0000, half);
    BitAt(half, RELO_RI, 0x2000_0000_0000_0000);
    BitAt(half, RELO_XI, 0x4000_0000_0000_0000);
    BitAt(half, RELO_RPLV, 0x8000_0000_0000_0000);
  }

  /** An identity entry covers exactly its own pair of pages. */
  lemma IdentityCovers(e: TlbEntry, va: Word)
    requires IdentityEntry(e) && IsUser(va)
    ensures Covers(e, va) <==> Region(va) == Region(e.hi)
  {
    hide Pow2;
    IdentityFields(e);
    Pow2Values();
    Quotient(0, ADDRESS_SPACE, va);
    Quotient(0, ADDRESS_SPACE, e.hi);
  }

  /** A hit in an identity entry never faults and translates the address to itself. */
  lemma IdentityHit(e: TlbEntry, va: Word, access: Access)
    requires IdentityEntry(e) && IsUser(va) && Covers(e, va)
    ensures Hits(e, va, access)
    ensures Physical(e, va) == va
  {
    IdentityFlags(e, access);
    IdentityCovers(e, va);
    IdentityFields(e);
    HalfTranslates(e, va, Region(e.hi));
  }

  lemma HalfTranslates(e: TlbEntry, va: Word, r: Word)
    requires IsUser(va) && r == va / PAIR * PAIR
    requires e == TlbEntry(r + TLB_PS, r + RELO0_STANDARD_BITS, r + RELO1_STANDARD_BITS)
    requires PageShift(e) == 29
    ensures Physical(e, va) == va
  {
    hide Bit, Pow2;
    Pow2Values();
    BitAt(va, 29, PAGE);
    var q, odd := va / PAIR, va / PAGE % 2;
    var low := if odd == 1 then RELO1_STANDARD_BITS else RELO0_STANDARD_BITS;
    assert Half(e, va) == q * PAIR + low;
    FrameOf(q, low);
    PageOf(va);
  }

  /** The frame field of a half, without the flags below it. */
  lemma FrameOf(q: nat, low: int)
    requires q * PAIR < USER_LIMIT && (low == RELO0_STANDARD_BITS || low == RELO1_STANDARD_BITS)
    ensures (q * PAIR + low) % ADDRESS_SPACE / FRAME * FRAME / PAGE * PAGE == q * PAIR + low / PAGE * PAGE
  {
    var half, odd := q * PAIR + low, if low == RELO1_STANDARD_BITS then 1 else 0;
    Quotient(0, ADDRESS_SPACE, half);
    Quotient((2 * q + odd) * 0x2_0000, FRAME, 0x53);
    assert half == FRAME * ((2 * q + odd) * 0x2_0000) + 0x53;
    Quotient(2 * q + odd, PAGE, 0);
    Quotient(odd, PAGE, 0x53);
  }

  lemma PageOf(va: Word)
    ensures va == va / PAIR * PAIR + va / PAGE % 2 * PAGE + va % PAGE
  {
    var p := va / PAGE;
    Quotient(p / 2, PAIR, p % 2 * PAGE + va % PAGE);
  }

  /** What the handler builds for a faulting user address is an identity entry that covers it. */
  lemma EntryForCovers(hi: Word, va: Word)
    requires IsUser(va) && Region(hi) == Region(va)
    ensures IdentityEntry(EntryFor(hi)) && Covers(EntryFor(hi), va)
  {
    EntryForIsIdentity(hi);
    EntryForSameRegion(hi);
    IdentityCovers(EntryFor(hi), va);
  }

  /** Two entries that cover the same user address are the same entry, so overlaps never disagree. */
  lemma OverlapsAgree(e: TlbEntry, f: TlbEntry, va: Word)
    requires IdentityEntry(e) && IdentityEntry(f) && IsUser(va)
    requires Covers(e, va) && Covers(f, va)
    ensures e == f
  {
    IdentityCovers(e, va);
    IdentityCovers(f, va);
  }

  /** Composed with the memory slot: guest virtual is host virtual exactly below 2^40. */
  lemma GuestIsHost(tlb: set<TlbEntry>, e: TlbEntry, va: Word, access: Access)
    requires IdentityTlb(tlb) && e in tlb && IsUser(va) && Hits(e, va, access)
    ensures HostAddress(Physical(e, va)) == if va < 0x100_0000_0000 then Some(va) else None
  {
    IdentityHit(e, va, access);
  }

  /** Adding the window base to a host pointer and translating it back is the identity. */
  lemma WindowRoundTrip(p: Word)
    requires p < ADDRESS_SPACE
    ensures InWindow(DMW1_INIT, Add(p, DMW1_BASE))
    ensures WindowPhysical(Add(p, DMW1_BASE)) == p
    ensures WindowTarget(DMW1_INIT, Add(p, DMW1_BASE)) == HostAddress(p)
  {
  }

  /** User addresses never fall into the window, so they always go through the TLB. */
  lemma UserNotInWindow(va: Word)
    requires IsUser(va)
    ensures !InWindow(DMW1_INIT, va)
  {
  }
}
