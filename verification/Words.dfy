/** Sixty-four-bit machine words as the integers below 2^64, with the wrap-around written out.  Shifts are
    multiplication and division by powers of two, masks of low bits are remainders. */
module Words {

  const TWO_64: int := 0x1_0000_0000_0000_0000

  type Word = x: int | 0 <= x < TWO_64

  datatype Option<+T> = None | Some(value: T)

  function Pow2(n: nat): (p: int)
    ensures p >= 1
  {
    if n == 0 then 1 else 2 * Pow2(n - 1)
  }

  function Add(a: Word, b: Word): Word { (a + b) % TWO_64 }

  function ShiftRight(a: Word, n: nat): Word
  {
    QuotientBelow(a, Pow2(n));
    a / Pow2(n)
  }

  function ShiftLeft(a: Word, n: nat): Word { (a * Pow2(n)) % TWO_64 }

  /** Bit `n` of a word. */
  predicate Bit(a: Word, n: nat) { (a / Pow2(n)) % 2 == 1 }

  /** Bitwise exclusive or of the `n` low bits. */
  function XorBits(a: int, b: int, n: nat): (r: int)
    ensures 0 <= r < Pow2(n)
    decreases n
  {
    if n == 0 then 0 else 2 * XorBits(a / 2, b / 2, n - 1) + (a % 2 + b % 2) % 2
  }

  function Xor(a: Word, b: Word): Word
  {
    Pow2At64();
    XorBits(a, b, 64)
  }

  lemma QuotientBelow(a: int, d: int)
    requires a >= 0 && d >= 1
    ensures 0 <= a / d <= a
  {
  }

  lemma {:induction false} AtLeastFactor(d: int, n: int)
    requires d >= 1 && n >= 1
    ensures d * n >= d
    decreases n
  {
    if n > 1 {
      AtLeastFactor(d, n - 1);
      assert d * n == d * (n - 1) + d;
    }
  }

  /** Quotient and remainder are what one can read off `d * k + x`. */
  lemma Quotient(k: int, d: int, x: int)
    requires 0 <= x < d
    ensures (d * k + x) / d == k && (d * k + x) % d == x
  {
    var a := d * k + x;
    var q, m := a / d, a % d;
    assert a == d * q + m && 0 <= m < d;
    assert d * (k - q) == m - x && d * (q - k) == x - m;
    if k > q {
      AtLeastFactor(d, k - q);
    } else if k < q {
      AtLeastFactor(d, q - k);
    }
  }

  lemma {:induction false} Pow2Sum(m: nat, n: nat)
    ensures Pow2(m + n) == Pow2(m) * Pow2(n)
    decreases m
  {
    if m > 0 {
      Pow2Sum(m - 1, n);
      assert Pow2(m + n) == 2 * Pow2(m - 1 + n);
    }
  }

  lemma Pow2At(m: nat, p: int, n: nat, q: int)
    requires Pow2(m) == p && Pow2(n) == q
    ensures Pow2(m + n) == p * q
  {
    Pow2Sum(m, n);
  }

  lemma Pow2Values()
    ensures Pow2(0) == 1 && Pow2(1) == 2 && Pow2(4) == 0x10 && Pow2(6) == 0x40 && Pow2(8) == 0x100 && Pow2(19) == 0x8_0000
    ensures Pow2(29) == 0x2000_0000 && Pow2(30) == 0x4000_0000
  {
    assert Pow2(5) == 0x20;
    assert Pow2(10) == 0x400;
    Pow2At(10, 0x400, 10, 0x400);
    Pow2At(10, 0x400, 9, 0x200);
    Pow2At(20, 0x10_0000, 10, 0x400);
    Pow2At(20, 0x10_0000, 9, 0x200);
  }

  lemma Pow2HighValues()
    ensures Pow2(61) == 0x2000_0000_0000_0000 && Pow2(62) == 0x4000_0000_0000_0000
    ensures Pow2(63) == 0x8000_0000_0000_0000 && Pow2(64) == TWO_64
  {
    Pow2Values();
    Pow2At(30, 0x4000_0000, 30, 0x4000_0000);
  }

  lemma Pow2At64()
    ensures Pow2(64) == TWO_64
  {
    Pow2HighValues();
  }

  /** A bit test with the power of two written as a number. */
  lemma BitAt(a: Word, n: nat, p: int)
    requires Pow2(n) == p
    ensures Bit(a, n) <==> (a / p) % 2 == 1
  {
  }

  lemma {:induction false} XorBitsSelf(a: int, n: nat)
    ensures XorBits(a, a, n) == 0
    decreases n
  {
    if n > 0 {
      XorBitsSelf(a / 2, n - 1);
    }
  }

  lemma XorSelf(a: Word)
    ensures Xor(a, a) == 0
  {
    XorBitsSelf(a, 64);
  }
}
