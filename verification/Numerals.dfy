/** Numbers as text: ui2a, i2a, a2d and a2i of printf.c. */
module Numerals {
  import opened Bits

  const NUL: char := '\0'
  const INT_LIMIT: int := 0x8000_0000
  const UINT_LIMIT: int := 0x1_0000_0000

  /** The bases this library prints in. */
  type Base = b: nat | b == 10 || b == 16 witness 10

  /** The character ui2a writes for a digit: decimal digits, then letters of the case asked for. */
  function DigitChar(d: nat, uc: bool): char
    requires d < 16
  {
    if d < 10 then '0' + d as char else if uc then 'A' + (d - 10) as char else 'a' + (d - 10) as char
  }

  /** The numeral of `num`: no leading zero, but for 0 itself. */
  function Numeral(num: nat, base: Base, uc: bool): (s: string)
    ensures |s| > 0
  {
    if num < base then [DigitChar(num, uc)] else Numeral(num / base, base, uc) + [DigitChar(num % base, uc)]
  }

  function Power(base: nat, k: nat): (p: nat)
    requires base > 0
    ensures p > 0
  {
    if k == 0 then 1 else Power(base, k - 1) * base
  }

  /** The last `k` digits of `num`, first digit first. */
  function Digits(num: nat, base: Base, k: nat, uc: bool): (s: string)
    ensures |s| == k
    decreases k
  {
    if k == 0 then []
    else [DigitChar(num / Power(base, k - 1) % base, uc)] + Digits(num % Power(base, k - 1), base, k - 1, uc)
  }

  lemma DivMod(x: nat, b: nat)
    requires b > 0
    ensures x == x / b * b + x % b && x % b < b
  {}

  lemma Regroup(q: nat, p: nat, r: nat, b: nat, d: nat)
    ensures (q * p + r) * b + d == q * (p * b) + (r * b + d)
  {}

  lemma BelowProduct(r: nat, p: nat, d: nat, b: nat)
    requires r < p && d < b
    ensures p * b > 0 && r * b + d < p * b
  {
    MulGe(p, r + 1, b);
  }

  lemma DivMul(x: nat, p: nat, b: nat)
    requires p > 0 && b > 0
    ensures p * b > 0 && x / (p * b) == (x / b) / p && x % (p * b) == (x / b) % p * b + x % b
  {
    hide *;
    var y, d := x / b, x % b;
    DivMod(x, b);
    DivMod(y, p);
    Regroup(y / p, p, y % p, b, d);
    BelowProduct(y % p, p, d, b);
    DivUnique(x, p * b, y / p, y % p * b + d);
  }

  /** One digit from the front. */
  lemma DigitsFirst(num: nat, base: Base, k: nat, uc: bool)
    ensures Digits(num, base, k + 1, uc) ==
      [DigitChar(num / Power(base, k) % base, uc)] + Digits(num % Power(base, k), base, k, uc)
  {
    hide DigitChar, Power;
  }

  /** The forward digits end in the last digit. */
  lemma {:induction false} DigitsLast(num: nat, base: Base, k: nat, uc: bool)
    ensures Digits(num, base, k + 1, uc) == Digits(num / base, base, k, uc) + [DigitChar(num % base, uc)]
    decreases k
  {
    DigitsFirst(num, base, k, uc);
    if k > 0 {
      var p := Power(base, k - 1);
      assert Power(base, k) == p * base;
      DivMul(num, p, base);
      var x := num % (p * base);
      DivUnique(x, base, num / base % p, num % base);
      DigitsFirst(num / base, base, k - 1, uc);
      DigitsLast(x, base, k - 1, uc);
      hide Digits, DigitChar, Power;
    }
  }

  /** With as many digits as it needs, they are the numeral. */
  lemma {:induction false} DigitsNumeral(num: nat, base: Base, k: nat, uc: bool)
    requires num < Power(base, k + 1) && (k > 0 ==> Power(base, k) <= num)
    ensures Digits(num, base, k + 1, uc) == Numeral(num, base, uc)
    decreases k
  {
    DigitsLast(num, base, k, uc);
    if k > 0 {
      QuotientRange(num, base, k);
      DigitsNumeral(num / base, base, k - 1, uc);
    }
  }

  lemma QuotientRange(num: nat, base: Base, k: nat)
    requires k > 0 && Power(base, k) <= num < Power(base, k + 1)
    ensures num >= base && Power(base, k - 1) <= num / base < Power(base, k)
  {
    var q, r := num / base, num % base;
    assert num == q * base + r;
    if q < Power(base, k - 1) {
      MulGe(Power(base, k - 1), q + 1, base);
    }
    if q >= Power(base, k) {
      MulGe(q, Power(base, k), base);
    }
  }

  lemma MulGe(a: nat, b: nat, c: nat)
    requires a >= b
    ensures a * c >= b * c
  {}

  lemma QuotientBelow(num: nat, base: nat, p: nat)
    requires base > 0 && num < p * base
    ensures num / base < p
  {
    var q := num / base;
    if q >= p {
      MulGe(q, p, base);
    }
  }

  /** A numeral is as long as the power of the base it stays below. */
  lemma {:induction false} NumeralLength(num: nat, base: Base, k: nat, uc: bool)
    requires num < Power(base, k + 1)
    ensures |Numeral(num, base, uc)| <= k + 1
    decreases k
  {
    if num >= base {
      assert k > 0;
      QuotientBelow(num, base, Power(base, k));
      NumeralLength(num / base, base, k - 1, uc);
    }
  }

  // ----- ui2a -----

  /** The largest power of the base with a nonzero digit of `num`; its multiples fit in 32 bits. */
  method TopPower(num: nat, base: Base) returns (d: nat, ghost k: nat)
    requires num < UINT_LIMIT
    ensures d == Power(base, k) < UINT_LIMIT && num < Power(base, k + 1) && (k > 0 ==> d <= num)
  {
    d, k := 1, 0;
    while num / d >= base
      invariant d == Power(base, k) < UINT_LIMIT && (k > 0 ==> d <= num)
      decreases num - d
    {
      Multiples(num, d, base);
      d, k := d * base, k + 1;
    }
    QuotientUp(num, d, base);
  }

  lemma Multiples(num: nat, d: nat, base: nat)
    requires d > 0 && base > 1 && num / d >= base
    ensures d < d * base <= num
  {
    MulGe(num / d, base, d);
  }

  lemma QuotientUp(num: nat, d: nat, base: nat)
    requires d > 0 && num / d < base
    ensures num < d * base
  {
    MulGe(base, num / d + 1, d);
  }

  lemma PowerDown(base: Base, j: nat)
    ensures j > 0 ==> Power(base, j) / base == Power(base, j - 1)
    ensures j == 0 ==> Power(base, j) / base == 0
  {
    if j > 0 {
      DivUnique(Power(base, j), base, Power(base, j - 1), 0);
    }
  }

  /** The digit that `p`, the power for `j` more, divides off. */
  lemma DigitStep(num: nat, base: Base, p: nat, j: nat, uc: bool)
    requires p == Power(base, j) && num < p * base
    ensures num / p < base && num % p < p && (p <= num ==> num / p > 0)
    ensures Digits(num, base, j + 1, uc) == [DigitChar(num / p, uc)] + Digits(num % p, base, j, uc)
  {
    hide *;
    DivBelow(num, p, base);
    SmallMod(num / p, base);
    ModRange(num, p);
    DigitsFirst(num, base, j, uc);
  }

  lemma ModRange(x: nat, p: nat)
    requires p > 0
    ensures 0 <= x % p < p
  {}

  lemma SmallMod(q: nat, b: nat)
    requires q < b
    ensures q % b == q
  {}

  lemma DivBelow(x: nat, p: nat, b: nat)
    requires p > 0 && x < p * b
    ensures x / p < b && (p <= x ==> x / p > 0)
  {
    var q := x / p;
    if q >= b {
      MulGe(q, b, p);
    }
  }

  /** What the writing loop still has to do: the last `j` characters of `text`, which are the digits of `rest`. */
  ghost predicate ToWrite(text: string, base: Base, uc: bool, n: nat, j: nat, d: nat, rest: nat) {
    && |text| == n + j && d == (if j == 0 then 0 else Power(base, j - 1)) && rest < Power(base, j)
    && text[n..] == Digits(rest, base, j, uc) && (n == 0 && j > 1 ==> d <= rest)
  }

  /** Unsigned division and remainder, as C has them. */
  function Quotient(x: nat, d: nat): nat
    requires d > 0
  {
    x / d
  }

  function Remainder(x: nat, d: nat): nat
    requires d > 0
  {
    ModRange(x, d);
    x % d
  }

  /** The next digit, by C's division. */
  lemma NextDigit(base: Base, uc: bool, j: nat, d: nat, rest: nat)
    requires j > 0 && d == Power(base, j - 1) && rest < Power(base, j)
    ensures Quotient(rest, d) < 16 && Remainder(rest, d) < d && (d <= rest ==> Quotient(rest, d) > 0)
    ensures Digits(rest, base, j, uc)
         == [DigitChar(Quotient(rest, d), uc)] + Digits(Remainder(rest, d), base, j - 1, uc)
    ensures Quotient(d, base) == if j == 1 then 0 else Power(base, j - 2)
  {
    assert Power(base, j) == Power(base, j - 1) * base;
    DigitStep(rest, base, d, j - 1, uc);
    PowerDown(base, j - 1);
    hide Digits, DigitChar, Power;
  }

  /** One turn writes the next character of the text: no digit is left out. */
  lemma WriteTurn(text: string, base: Base, uc: bool, n: nat, j: nat, d: nat, rest: nat)
    requires ToWrite(text, base, uc, n, j, d, rest) && d != 0
    ensures j > 0 && Quotient(rest, d) < 16 && text[n] == DigitChar(Quotient(rest, d), uc)
    ensures n > 0 || Quotient(rest, d) > 0 || Quotient(d, base) == 0
    ensures Quotient(d, base) == 0 <==> j == 1
    ensures ToWrite(text, base, uc, n + 1, j - 1, Quotient(d, base), Remainder(rest, d))
  {
    hide Digits, DigitChar, Power, Quotient, Remainder;
    NextDigit(base, uc, j, d, rest);
    HeadTail(text, n, DigitChar(Quotient(rest, d), uc), Digits(Remainder(rest, d), base, j - 1, uc));
  }

  lemma HeadTail(text: string, n: nat, c: char, tail: string)
    requires n < |text| && text[n..] == [c] + tail
    ensures text[n] == c && text[n + 1..] == tail
  {
    assert text[n..][0] == c && text[n..][1..] == tail;
  }

  /** The buffer after the first `n` characters of `text` are written from `start` on. */
  ghost predicate Written(was: string, now: string, start: nat, text: string, n: nat) {
    && |now| == |was| && n <= |text| && start + n <= |was|
    && forall i :: 0 <= i < |was| ==> now[i] == if start <= i < start + n then text[i - start] else was[i]
  }

  lemma WriteNext(was: string, now: string, start: nat, text: string, n: nat)
    requires Written(was, now, start, text, n) && n < |text| && start + n < |was|
    ensures Written(was, now[start + n := text[n]], start, text, n + 1)
  {}

  /** What stands in the buffer, and what is still to be written. */
  ghost predicate Writing(was: string, now: string, start: nat, text: string, base: Base, uc: bool,
                          n: nat, j: nat, d: nat, rest: nat) {
    && ToWrite(text, base, uc, n, j, d, rest) && Written(was, now, start, text, n)
    && start + |text| < |was| == |now| && |text| == n + j && (d == 0 <==> j == 0)
  }

  lemma WritingTurn(was: string, now: string, start: nat, text: string, base: Base, uc: bool,
                    n: nat, j: nat, d: nat, rest: nat)
    requires Writing(was, now, start, text, base, uc, n, j, d, rest) && d != 0
    ensures var digit, d2 := Quotient(rest, d), Quotient(d, base);
      && j > 0 && digit < 16 && start + n < |now| && (n > 0 || digit > 0 || d2 == 0)
      && Writing(was, now[start + n := DigitChar(digit, uc)], start, text, base, uc,
                 n + 1, j - 1, d2, Remainder(rest, d))
  {
    WriteTurn(text, base, uc, n, j, d, rest);
    WriteNext(was, now, start, text, n);
    hide ToWrite, Written, Quotient, Remainder, DigitChar;
  }

  lemma WritingEnd(was: string, now: string, start: nat, text: string, base: Base, uc: bool, n: nat, j: nat, rest: nat)
    requires Writing(was, now, start, text, base, uc, n, j, 0, rest)
    ensures j == 0 && n == |text| && start + n < |now| == |was|
    ensures now[start + n := NUL] == was[..start] + text + [NUL] + was[start + n + 1..]
  {}

  /** Store one character. */
  method Put(bf: array<char>, at: nat, c: char)
    requires at < bf.Length
    modifies bf
    ensures bf[..] == old(bf[..])[at := c]
  {
    bf[at] := c;
  }

  /** The second loop: divide off and write the digits, from the power `top` of the base down. */
  method WriteDigits(num: nat, top: nat, base: Base, uc: bool, bf: array<char>, start: nat, ghost text: string)
    returns (end: nat)
    requires Writing(bf[..], bf[..], start, text, base, uc, 0, |text|, top, num)
    modifies bf
    ensures end == start + |text|
    ensures exists rest :: Writing(old(bf[..]), bf[..], start, text, base, uc, |text|, 0, 0, rest)
  {
    hide *;
    ghost var was, j: nat := bf[..], |text|;
    var d: nat, rest: nat, n: nat := top, num, 0;
    end := start;
    while d != 0
      invariant Writing(was, bf[..], start, text, base, uc, n, j, d, rest) && end == start + n
      decreases j
    {
      WritingTurn(was, bf[..], start, text, base, uc, n, j, d, rest);
      var digit := Quotient(rest, d);
      rest := Remainder(rest, d);
      d := Quotient(d, base);
      if n > 0 || digit > 0 || d == 0 {
        Put(bf, end, DigitChar(digit, uc));
        end := end + 1;
        n := n + 1;
      }
      j := j - 1;
    }
    WritingEnd(was, bf[..], start, text, base, uc, n, j, rest);
  }

  /** Write the numeral of `num` and a terminating NUL from `start` on; `end` is where the NUL stands. */
  method Ui2a(num: nat, base: Base, uc: bool, bf: array<char>, start: nat) returns (end: nat)
    requires num < UINT_LIMIT && start + |Numeral(num, base, uc)| < bf.Length
    modifies bf
    ensures end == start + |Numeral(num, base, uc)|
    ensures bf[..] == old(bf[..])[..start] + Numeral(num, base, uc) + [NUL] + old(bf[..])[end + 1..]
  {
    ghost var text, was := Numeral(num, base, uc), bf[..];
    var d: nat, k := TopPower(num, base);
    DigitsNumeral(num, base, k, uc);
    assert Writing(was, was, start, text, base, uc, 0, |text|, d, num);
    hide *;
    end := WriteDigits(num, d, base, uc, bf, start, text);
    ghost var rest :| Writing(was, bf[..], start, text, base, uc, |text|, 0, 0, rest);
    WritingEnd(was, bf[..], start, text, base, uc, |text|, 0, rest);
    Put(bf, end, NUL);
  }

  // ----- i2a -----

  /** A 32-bit signed value, wrapped around. */
  function ToInt(x: int): (r: int)
    ensures -INT_LIMIT <= r < INT_LIMIT
  {
    if x % UINT_LIMIT < INT_LIMIT then x % UINT_LIMIT else x % UINT_LIMIT - UINT_LIMIT
  }

  /** The decimal text of a signed number. */
  function SignedText(num: int): string {
    if num < 0 then "-" + Numeral(-num, 10, false) else Numeral(num, 10, false)
  }

  /** The sign, then the numeral of the magnitude, which wraps to itself for the smallest number. */
  method I2a(num: int, bf: array<char>)
    requires -INT_LIMIT <= num < INT_LIMIT && bf.Length > |SignedText(num)|
    modifies bf
    ensures bf[..] == SignedText(num) + [NUL] + old(bf[..])[|SignedText(num)| + 1..]
  {
    hide Numeral, ToInt;
    Magnitude(num);
    ghost var was := bf[..];
    var magnitude, start := num, 0;
    if num < 0 {
      magnitude := ToInt(-num);
      bf[0] := '-';
      start := 1;
    }
    ghost var end := Ui2a(magnitude % UINT_LIMIT, 10, false, bf, start);
    assert num < 0 ==> bf[..] == ['-'] + Numeral(-num, 10, false) + [NUL] + was[end + 1..];
  }

  lemma Magnitude(num: int)
    requires -INT_LIMIT <= num < INT_LIMIT
    ensures num < 0 ==> ToInt(-num) % UINT_LIMIT == -num
    ensures num >= 0 ==> num % UINT_LIMIT == num
  {}

  /** The length of a numeral tells its magnitude. */
  lemma NumeralLengthExact(num: nat, base: Base, k: nat, uc: bool)
    requires num < Power(base, k + 1) && (k > 0 ==> Power(base, k) <= num)
    ensures |Numeral(num, base, uc)| == k + 1
  {
    DigitsNumeral(num, base, k, uc);
  }

  lemma TenDigits()
    ensures Power(10, 9) == 1_000_000_000 && Power(10, 10) == 10_000_000_000
    ensures Power(16, 8) == UINT_LIMIT
  {
    assert Power(10, 5) == 100_000;
    assert Power(16, 4) == 0x1_0000;
  }

  /** Twelve bytes hold the text of any number with its NUL; signed numbers of ten digits use them all. */
  lemma TextFits(num: int)
    ensures -INT_LIMIT <= num < INT_LIMIT ==> |SignedText(num)| + 1 <= 12
    ensures -INT_LIMIT <= num < INT_LIMIT ==> (|SignedText(num)| + 1 == 12 <==> num <= -1_000_000_000)
    ensures 0 <= num < UINT_LIMIT ==> |Numeral(num, 10, false)| <= 10
    ensures 0 <= num < UINT_LIMIT ==> |Numeral(num, 16, false)| <= 8 && |Numeral(num, 16, true)| <= 8
  {
    TenDigits();
    hide Numeral, Power;
    if 0 <= num < UINT_LIMIT {
      NumeralLength(num, 10, 9, false);
      NumeralLength(num, 16, 7, false);
      NumeralLength(num, 16, 7, true);
    }
    if -INT_LIMIT <= num < 0 {
      NumeralLength(-num, 10, 9, false);
      if num <= -1_000_000_000 {
        NumeralLengthExact(-num, 10, 9, false);
      } else {
        NumeralLength(-num, 10, 8, false);
      }
    }
  }

  // ----- a2d and a2i -----

  /** The value of a digit in either case of hexadecimal, else -1. */
  function A2d(ch: char): int {
    if '0' <= ch <= '9' then ch as int - '0' as int
    else if 'a' <= ch <= 'f' then ch as int - 'a' as int + 10
    else if 'A' <= ch <= 'F' then ch as int - 'A' as int + 10
    else -1
  }

  /** Text in memory: it ends with a NUL. */
  predicate Terminated(s: string) {
    |s| > 0 && s[|s| - 1] == NUL
  }

  /** a2i from the text on whose first character is `ch`: the character it stops at, the text after it, and the
      number, which wraps around at 32 bits. The comparison with the base lets a digit equal to it pass. */
  function Scanned(s: string, base: Base, num: int): (r: (char, string, int))
    requires Terminated(s)
    ensures |r.1| < |s| && (r.0 != NUL ==> Terminated(r.1))
  {
    if 0 <= A2d(s[0]) <= base then Scanned(s[1..], base, ToInt(num * base + A2d(s[0]))) else (s[0], s[1..], num)
  }

  /** Read a number whose first character stands at `pos`; never reads past the terminating NUL. */
  method A2i(text: string, pos: nat, base: Base) returns (ch: char, end: nat, num: int)
    requires pos < |text| && Terminated(text)
    ensures pos < end <= |text| && (ch, text[end..], num) == Scanned(text[pos..], base, 0)
    ensures -INT_LIMIT <= num < INT_LIMIT
  {
    ch, end, num := text[pos], pos + 1, 0;
    while A2d(ch) >= 0
      invariant pos < end <= |text| && ch == text[end - 1] && -INT_LIMIT <= num < INT_LIMIT
      invariant Scanned(text[end - 1..], base, num) == Scanned(text[pos..], base, 0)
      decreases |text| - end
    {
      if A2d(ch) > base {
        break;
      }
      assert text[end - 1..][1..] == text[end..];
      num := ToInt(num * base + A2d(ch));
      ch, end := text[end], end + 1;
    }
    assert text[end - 1..][1..] == text[end..];
  }

  lemma NumeralEnd(num: nat, base: Base, uc: bool)
    ensures Numeral(num, base, uc) ==
      (if num < base then [] else Numeral(num / base, base, uc)) + [DigitChar(num % base, uc)]
  {}

  lemma {:induction false} NoNulInNumeral(num: nat, base: Base, uc: bool)
    ensures NUL !in Numeral(num, base, uc)
    decreases num
  {
    NumeralEnd(num, base, uc);
    assert DigitChar(num % base, uc) != NUL;
    hide Numeral, DigitChar;
    if num >= base {
      QuotientSmaller(num, base);
      NoNulInNumeral(num / base, base, uc);
    }
  }

  lemma QuotientSmaller(num: nat, base: Base)
    ensures num >= base ==> num / base < num
  {}

  lemma DigitRead(d: nat, uc: bool)
    requires d < 16
    ensures A2d(DigitChar(d, uc)) == d
  {}

  lemma Associate(a: string, b: string, c: string)
    ensures (a + b) + c == a + (b + c)
  {}

  /** Reading a numeral gives back its number, wrapped around at 32 bits. */
  lemma {:induction false} ReadNumeral(num: nat, base: Base, uc: bool, rest: string)
    requires num < UINT_LIMIT && Terminated(rest)
    ensures Scanned(Numeral(num, base, uc) + rest, base, 0) == Scanned(rest, base, ToInt(num))
    decreases num
  {
    var before := if num < base then [] else Numeral(num / base, base, uc);
    var d := num % base;
    NumeralEnd(num, base, uc);
    LastDigit(num, base);
    hide *;
    Associate(before, [DigitChar(d, uc)], rest);
    ScanDigit(d, uc, base, rest, ToInt(num / base));
    if num < base {
      assert before + ([DigitChar(d, uc)] + rest) == [DigitChar(d, uc)] + rest;
    } else {
      ReadNumeral(num / base, base, uc, [DigitChar(d, uc)] + rest);
    }
  }

  lemma ScanDigit(d: nat, uc: bool, base: Base, rest: string, num: int)
    requires d < base && Terminated(rest)
    ensures Terminated([DigitChar(d, uc)] + rest)
    ensures Scanned([DigitChar(d, uc)] + rest, base, num) == Scanned(rest, base, ToInt(num * base + d))
  {
    DigitRead(d, uc);
    assert ([DigitChar(d, uc)] + rest)[1..] == rest;
    hide DigitChar, A2d, ToInt;
  }

  lemma SmallInt(num: nat)
    requires num < UINT_LIMIT
    ensures ToInt(num) == num <==> num < INT_LIMIT
  {}

  lemma LastDigit(num: nat, base: Base)
    requires num < UINT_LIMIT
    ensures num < base ==> ToInt(num / base) == 0
    ensures num >= base ==> num / base < num
    ensures num / base < INT_LIMIT && ToInt(ToInt(num / base) * base + num % base) == ToInt(num)
  {
    Halved(num, base);
    SmallInt(num / base);
    DivMod(num, base);
    hide ToInt;
  }

  lemma Halved(num: nat, base: Base)
    requires num < UINT_LIMIT
    ensures num / base < INT_LIMIT && (num < base ==> num / base == 0) && (num >= base ==> num / base < num)
  {}

  /** Round trip: the scan stops at the character behind the numeral with the number it began with exactly when the
      number is below 2^31 and that character is no digit up to and including the base. */
  lemma NumeralRoundTrip(num: nat, base: Base, uc: bool, t: char, rest: string)
    requires num < UINT_LIMIT && Terminated([t] + rest)
    ensures Terminated(Numeral(num, base, uc) + [t] + rest)
    ensures Scanned(Numeral(num, base, uc) + [t] + rest, base, 0) == (t, rest, num)
      <==> num < INT_LIMIT && !(0 <= A2d(t) <= base)
  {
    Associate(Numeral(num, base, uc), [t], rest);
    ReadNumeral(num, base, uc, [t] + rest);
    hide ToInt;
    StopsAt(t, base, rest, ToInt(num));
    SmallInt(num);
    hide *;
  }

  /** A number ends at any character but a digit up to and including the base. */
  lemma StopsAt(t: char, base: Base, rest: string, num: int)
    requires Terminated([t] + rest)
    ensures 0 <= A2d(t) <= base ==> Scanned([t] + rest, base, num).1 != rest
    ensures !(0 <= A2d(t) <= base) ==> Scanned([t] + rest, base, num) == (t, rest, num)
  {
    assert ([t] + rest)[0] == t && ([t] + rest)[1..] == rest;
    hide A2d, ToInt;
  }
}
