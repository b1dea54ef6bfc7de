/** Unsigned machine words and the bitwise operators of C on them. */
module Bits {

  /** A 64-bit unsigned word (`uint64_t`). */
  type Word = w: int | 0 <= w < 0x1_0000_0000_0000_0000

  /** `a & b`, bit by bit. */
  function And(a: nat, b: nat): nat {
    if a == 0 || b == 0 then 0
    else 2 * And(a / 2, b / 2) + (if a % 2 == 1 && b % 2 == 1 then 1 else 0)
  }

  /** `a | b`, bit by bit. */
  function Or(a: nat, b: nat): nat {
    if a == 0 then b else if b == 0 then a
    else 2 * Or(a / 2, b / 2) + (if a % 2 == 1 || b % 2 == 1 then 1 else 0)
  }

  function Pow2(n: nat): (p: nat)
    ensures p >= 1
  {
    if n == 0 then 1 else 2 * Pow2(n - 1)
  }

  /** A field of `k` ones starting at bit `s`. */
  function Ones(k: nat, s: nat): nat {
    if s > 0 then 2 * Ones(k, s - 1)
    else if k > 0 then 2 * Ones(k - 1, 0) + 1
    else 0
  }

  /** Bits `s` to `s + k - 1` of `x`, left in place. */
  function Field(x: nat, k: nat, s: nat): nat {
    if s > 0 then 2 * Field(x / 2, k, s - 1)
    else if k > 0 then 2 * Field(x / 2, k - 1, 0) + x % 2
    else 0
  }

  lemma {:induction false} AndOnes(x: nat, k: nat, s: nat)
    ensures And(x, Ones(k, s)) == Field(x, k, s)
    decreases s + k
  {
    if s > 0 {
      AndOnes(x / 2, k, s - 1);
    } else if k > 0 {
      AndOnes(x / 2, k - 1, 0);
      FieldZero(k - 1, 0);
    }
    FieldZero(k, s);
  }

  lemma {:induction false} FieldZero(k: nat, s: nat)
    ensures Field(0, k, s) == 0
    decreases s + k
  {
    if s > 0 {
      FieldZero(k, s - 1);
    } else if k > 0 {
      FieldZero(k - 1, 0);
    }
  }

  lemma DivUnique(x: nat, d: nat, q: nat, r: nat)
    requires r < d && x == q * d + r
    ensures x / d == q && x % d == r
  {
    MultipleBelow(x / d - q, d, r - x % d);
  }

  lemma MultipleBelow(k: int, d: int, e: int)
    requires k * d == e && -d < e < d
    ensures k == 0
  {}

  /** Dividing by twice `p` is halving first. */
  lemma HalveFirst(x: nat, p: nat)
    requires p > 0
    ensures x / (2 * p) == (x / 2) / p && x % (2 * p) == 2 * ((x / 2) % p) + x % 2
  {
    var q, r := (x / 2) / p, (x / 2) % p;
    assert x / 2 == q * p + r;
    DivUnique(x, 2 * p, q, 2 * r + x % 2);
  }

  /** A masked field is the usual quotient and remainder. */
  lemma {:induction false} FieldDivMod(x: nat, k: nat, s: nat)
    ensures Field(x, k, s) == (x / Pow2(s)) % Pow2(k) * Pow2(s)
    decreases s + k
  {
    if s > 0 {
      FieldDivMod(x / 2, k, s - 1);
      HalveFirst(x, Pow2(s - 1));
      MulTwice((x / 2) / Pow2(s - 1) % Pow2(k), Pow2(s - 1));
    } else if k > 0 {
      FieldDivMod(x / 2, k - 1, 0);
      HalveFirst(x, Pow2(k - 1));
    }
  }

  lemma MulTwice(a: nat, p: nat)
    ensures 2 * (a * p) == a * (2 * p)
  {}

  /** Or of words whose set bits do not meet is their sum. */
  lemma {:induction false} OrHighLow(h: nat, a: nat, b: nat, k: nat)
    requires a < Pow2(k) && b < Pow2(k)
    ensures Or(h * Pow2(k) + a, b) == h * Pow2(k) + Or(a, b)
    decreases k
  {
    hide Or;
    if k == 0 {
      OrNothing(h * Pow2(0));
      OrNothing(0);
    } else {
      OrHighLow(h, a / 2, b / 2, k - 1);
      MulTwice(h, Pow2(k - 1));
      OrStep(h * Pow2(k - 1), a, b);
    }
  }

  lemma OrNothing(a: nat)
    ensures Or(a, 0) == a
  {}

  /** Or of the lowest bits, and of the rest. */
  lemma OrStep(q: nat, a: nat, b: nat)
    requires Or(q + a / 2, b / 2) == q + Or(a / 2, b / 2)
    ensures Or(2 * q + a, b) == 2 * q + Or(a, b)
  {
    assert (2 * q + a) / 2 == q + a / 2;
  }

  /** Or of words with no bit in common is their sum. */
  lemma {:induction false} OrDisjoint(a: nat, b: nat)
    requires And(a, b) == 0
    ensures Or(a, b) == a + b
  {
    if a > 0 && b > 0 {
      OrDisjoint(a / 2, b / 2);
    }
  }

  lemma {:induction false} Pow2Add(a: nat, b: nat)
    ensures Pow2(a + b) == Pow2(a) * Pow2(b)
  {
    if b > 0 {
      Pow2Add(a, b - 1);
      MulTwice(Pow2(a), Pow2(b - 1));
    }
  }

  // ----- The bytes of a word, lowest address first -----

  function ByteOf(w: nat, b: nat): nat {
    if b == 0 then w % 256 else ByteOf(w / 256, b - 1)
  }

  /** `w` after zeros are stored to its bytes `lo` to `hi - 1`. */
  function ZeroBytes(w: Word, lo: nat, hi: nat): (r: Word)
    requires lo <= hi
    ensures r <= w
  {
    if hi == 0 then w
    else if lo == 0 then 256 * ZeroBytes(w / 256, 0, hi - 1)
    else 256 * ZeroBytes(w / 256, lo - 1, hi - 1) + w % 256
  }

  /** Those bytes are zero, and the others are as they were. */
  lemma {:induction false} ZeroBytesAt(w: Word, lo: nat, hi: nat, b: nat)
    requires lo <= hi
    ensures ByteOf(ZeroBytes(w, lo, hi), b) == if lo <= b < hi then 0 else ByteOf(w, b)
  {
    if hi > 0 && b > 0 {
      ZeroBytesAt(w / 256, if lo == 0 then 0 else lo - 1, hi - 1, b - 1);
    }
  }

  lemma ZeroBytesParts(w: Word, lo: nat, hi: nat)
    requires lo <= hi && hi > 0
    ensures ZeroBytes(w, lo, hi) / 256 == ZeroBytes(w / 256, if lo == 0 then 0 else lo - 1, hi - 1)
    ensures ZeroBytes(w, lo, hi) % 256 == if lo == 0 then 0 else w % 256
  {}

  /** Zeroing on where one left off. */
  lemma {:induction false} ZeroBytesThen(w: Word, a: nat, b: nat, c: nat)
    requires a <= b <= c
    ensures ZeroBytes(ZeroBytes(w, a, b), b, c) == ZeroBytes(w, a, c)
  {
    if b == 0 {
      ZeroNoBytes(w, 0);
    } else {
      hide ZeroBytes;
      var x := ZeroBytes(w, a, b);
      ZeroBytesParts(w, a, b);
      ZeroBytesParts(x, b, c);
      ZeroBytesParts(w, a, c);
      ZeroBytesThen(w / 256, if a == 0 then 0 else a - 1, b - 1, c - 1);
    }
  }

  lemma {:induction false} ZeroBytesTwice(w: Word, n: nat)
    ensures ZeroBytes(ZeroBytes(w, 0, n), 0, n) == ZeroBytes(w, 0, n)
  {
    if n > 0 {
      ZeroBytesTwice(w / 256, n - 1);
    }
  }

  /** Zeroing one byte leaves the first `n` bytes zero if they were. */
  lemma {:induction false} ZeroKeepsZero(w: Word, b: nat, n: nat)
    requires ZeroBytes(w, 0, n) == w
    ensures ZeroBytes(ZeroBytes(w, b, b + 1), 0, n) == ZeroBytes(w, b, b + 1)
  {
    var x := ZeroBytes(w, b, b + 1);
    if n > 0 {
      ZeroBytesParts(w, 0, n);
      ZeroBytesParts(w, b, b + 1);
      ZeroBytesParts(x, 0, n);
      if b == 0 {
        ZeroNoBytes(w / 256, 0);
      } else {
        ZeroKeepsZero(w / 256, b - 1, n - 1);
      }
    }
    hide ZeroBytes;
  }

  lemma {:induction false} ZeroNoBytes(w: Word, b: nat)
    ensures ZeroBytes(w, b, b) == w
  {
    if b > 0 {
      ZeroNoBytes(w / 256, b - 1);
    }
  }

  function Bytes(n: nat): nat {
    if n == 0 then 1 else 256 * Bytes(n - 1)
  }

  lemma {:induction false} ZeroLowBytes(w: Word, n: nat)
    requires w < Bytes(n)
    ensures ZeroBytes(w, 0, n) == 0
  {
    if n > 0 {
      ZeroLowBytes(w / 256, n - 1);
    }
  }

  /** All eight bytes. */
  lemma ZeroAllBytes(w: Word)
    ensures ZeroBytes(w, 0, 8) == 0
  {
    hide ZeroBytes;
    assert Bytes(4) == 0x1_0000_0000;
    ZeroLowBytes(w, 8);
  }
}
