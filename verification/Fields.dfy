/** What the fields of a format print, said of the characters alone. */
module Fields {
  import opened Numerals
  import opened Printf

  // ----- Digits and what they are worth -----

  /** The worth of a character as a digit, by its code. */
  function Worth(c: char): nat {
    var code := c as int;
    if 48 <= code <= 57 then code - 48
    else if 97 <= code <= 102 then code - 87
    else if 65 <= code <= 70 then code - 55
    else 0
  }

  /** The number that digits spell, most significant first. */
  function Value(s: string, base: nat): nat {
    if s == [] then 0 else Value(s[..|s| - 1], base) * base + Worth(s[|s| - 1])
  }

  predicate AllDecimal(s: string) {
    forall i :: 0 <= i < |s| ==> '0' <= s[i] <= '9'
  }

  predicate AllHex(s: string, upper: bool) {
    forall i :: 0 <= i < |s| ==>
      '0' <= s[i] <= '9' || (if upper then 'A' <= s[i] <= 'F' else 'a' <= s[i] <= 'f')
  }

  /** The digits of a number, without a zero too many. */
  predicate Spells(s: string, base: nat, num: nat) {
    |s| > 0 && Value(s, base) == num && (|s| > 1 ==> s[0] != '0')
  }

  lemma ValueEnd(s: string, base: nat, c: char)
    ensures Value(s + [c], base) == Value(s, base) * base + Worth(c)
  {
    assert (s + [c])[..|s|] == s;
  }

  lemma ValueOne(base: nat, c: char)
    ensures Value([c], base) == Worth(c)
  {
    assert [c][..0] == [] && Value([], base) == 0;
  }

  lemma OneDigit(d: nat, uc: bool)
    requires d < 16
    ensures Worth(DigitChar(d, uc)) == d && AllHex([DigitChar(d, uc)], uc) && (DigitChar(d, uc) == '0' <==> d == 0)
    ensures d < 10 ==> AllDecimal([DigitChar(d, uc)])
  {}

  /** One more digit behind a number that is not 0. */
  lemma OneMore(s: string, c: char, base: Base, num: nat, uc: bool)
    requires Spells(s, base, num / base) && s[0] != '0' && num == num / base * base + Worth(c)
    ensures Spells(s + [c], base, num) && (s + [c])[0] == s[0]
    ensures AllHex(s, uc) && AllHex([c], uc) ==> AllHex(s + [c], uc)
    ensures AllDecimal(s) && AllDecimal([c]) ==> AllDecimal(s + [c])
  {
    hide Worth, Value;
    ValueEnd(s, base, c);
    assert [c][0] == c;
  }

  /** What ui2a writes: digits of the base, in the case asked for, that spell the number. */
  lemma {:induction false} NumeralSpells(num: nat, base: Base, uc: bool)
    ensures Spells(Numeral(num, base, uc), base, num) && AllHex(Numeral(num, base, uc), uc)
    ensures base == 10 ==> AllDecimal(Numeral(num, base, uc))
    ensures Numeral(num, base, uc)[0] == '0' <==> num == 0
    decreases num
  {
    hide Numeral, DigitChar, Worth, Value;
    NumeralEnd(num, base, uc);
    OneDigit(num % base, uc);
    var c := DigitChar(num % base, uc);
    if num < base {
      assert [] + [c] == [c];
      ValueOne(base, c);
    } else {
      QuotientSmaller(num, base);
      NumeralSpells(num / base, base, uc);
      DivMod(num, base);
      OneMore(Numeral(num / base, base, uc), c, base, num, uc);
    }
  }

  /** A character is read as a digit exactly if ui2a writes it for that digit, in one case or the other. */
  lemma DigitsReadBack(c: char, d: int)
    ensures d >= 0 && A2d(c) == d <==> 0 <= d < 16 && (c == DigitChar(d, false) || c == DigitChar(d, true))
  {}

  // ----- Reading flag and width -----

  /** The number that digits spell behind a number read so far. */
  function ValueOn(acc: nat, s: string): nat
    decreases |s|
  {
    if s == [] then acc else ValueOn(acc * 10 + Worth(s[0]), s[1..])
  }

  lemma {:induction false} ValueOnEnd(acc: nat, s: string, c: char)
    ensures ValueOn(acc, s + [c]) == ValueOn(acc, s) * 10 + Worth(c)
    decreases |s|
  {
    if s == [] {
      assert ([c])[1..] == [] && [] + [c] == [c];
    } else {
      assert (s + [c])[1..] == s[1..] + [c];
      ValueOnEnd(acc * 10 + Worth(s[0]), s[1..], c);
    }
  }

  lemma {:induction false} ValueFromFront(s: string)
    ensures ValueOn(0, s) == Value(s, 10)
    decreases |s|
  {
    if s != [] {
      var n := |s| - 1;
      ValueFromFront(s[..n]);
      assert s == s[..n] + [s[n]];
      ValueOnEnd(0, s[..n], s[n]);
    }
  }

  lemma {:induction false} ValueOnGrows(acc: nat, s: string)
    ensures ValueOn(acc, s) >= acc
    decreases |s|
  {
    if s != [] {
      ValueOnGrows(acc * 10 + Worth(s[0]), s[1..]);
    }
  }

  lemma ScanStops(acc: nat, text: string)
    requires Terminated(text) && !(0 <= A2d(text[0]) <= 10)
    ensures Scanned(text, 10, acc) == (text[0], text[1..], acc)
  {}

  lemma ScanStep(acc: nat, text: string)
    requires Terminated(text) && '0' <= text[0] <= '9' && acc * 10 + Worth(text[0]) < INT_LIMIT
    ensures Terminated(text[1..]) && Scanned(text, 10, acc) == Scanned(text[1..], 10, acc * 10 + Worth(text[0]))
  {
    var d := A2d(text[0]);
    assert 0 <= d <= 9 && d == Worth(text[0]) && ToInt(acc * 10 + d) == acc * 10 + d;
    hide ToInt, A2d, Worth;
  }

  /** a2i on decimal digits, up to a character that it does not take for a digit. */
  lemma {:induction false} ScanDigits(acc: nat, s: string, t: char, rest: string)
    requires AllDecimal(s) && ValueOn(acc, s) < INT_LIMIT && Terminated([t] + rest) && !(0 <= A2d(t) <= 10)
    ensures Terminated(s + [t] + rest) && Scanned(s + [t] + rest, 10, acc) == (t, rest, ValueOn(acc, s))
    decreases |s|
  {
    hide Scanned, ToInt, A2d, Worth;
    var text := s + [t] + rest;
    assert text == s + ([t] + rest);
    if s == [] {
      assert text == [t] + rest && text[0] == t && text[1..] == rest;
      ScanStops(acc, text);
    } else {
      var acc2 := acc * 10 + Worth(s[0]);
      assert text[0] == s[0] && text[1..] == s[1..] + [t] + rest;
      ValueOnGrows(acc2, s[1..]);
      ScanDigits(acc2, s[1..], t, rest);
      ScanStep(acc, text);
    }
  }

  /** Flag, digits of a width, letter. */
  function Written(zero: bool, digits: string, letter: char): string {
    (if zero then "0" else "") + digits + [letter]
  }

  /** The width's digits are not taken for the flag, nor the letter for a digit. */
  predicate Legible(zero: bool, digits: string, letter: char) {
    && AllDecimal(digits) && Value(digits, 10) < INT_LIMIT && (!zero && digits != [] ==> digits[0] != '0')
    && !('0' <= letter <= '9') && (digits != [] ==> letter != 'a' && letter != 'A')
  }

  lemma StopsWidth(digits: string, letter: char)
    requires Legible(false, digits, letter) || Legible(true, digits, letter)
    ensures digits != [] ==> !(0 <= A2d(letter) <= 10)
  {}

  lemma WidthRead(digits: string, letter: char, rest: string)
    requires Legible(true, digits, letter) && Terminated([letter] + rest)
    ensures var s := digits + [letter] + rest;
      && Terminated(s) && ('0' <= s[0] <= '9' <==> digits != [])
      && if digits == [] then s[0] == letter && s[1..] == rest && Value(digits, 10) == 0
         else Scanned(s, 10, 0) == (letter, rest, Value(digits, 10))
  {
    hide Value, Scanned;
    var s := digits + [letter] + rest;
    if digits == [] {
      assert s == [letter] + rest;
      EmptyValue();
    } else {
      StopsWidth(digits, letter);
      ValueFromFront(digits);
      ScanDigits(0, digits, letter, rest);
    }
  }

  lemma EmptyValue()
    ensures Value([], 10) == 0
  {}

  /** A directive is read as it is written. */
  lemma DirectiveRead(zero: bool, digits: string, letter: char, rest: string)
    requires Legible(zero, digits, letter) && Terminated([letter] + rest)
    ensures Terminated(Written(zero, digits, letter) + rest)
    ensures Directive(Written(zero, digits, letter) + rest) == (zero, Value(digits, 10), letter, rest)
  {
    hide Scanned, Value;
    WidthRead(digits, letter, rest);
    var s, text := digits + [letter] + rest, Written(zero, digits, letter) + rest;
    if zero {
      assert text == "0" + s && text[1..] == s;
    } else {
      assert text == s;
    }
  }

  // ----- What is printed -----

  /** `out` is filled up on the left: `k` characters `fill`, as many as the width asks for, before the text. */
  predicate FilledTo(out: string, k: nat, width: int, fill: char) {
    && k <= |out| && (forall i :: 0 <= i < k ==> out[i] == fill)
    && |out| == if width > |out| - k then width else |out| - k
  }

  /** The text at a pointer: everything before the first NUL. */
  predicate StandsAt(text: string, memory: string) {
    && |text| < |memory| && memory[|text|] == '\0'
    && forall i :: 0 <= i < |text| ==> text[i] == memory[i] != '\0'
  }

  /** The text a letter makes of an argument. */
  predicate TextOf(letter: char, arg: Arg, text: string) {
    match arg
    case Word32(w) =>
      if letter == 'u' then AllDecimal(text) && Spells(text, 10, w)
      else if letter == 'x' then AllHex(text, false) && Spells(text, 16, w)
      else if letter == 'X' then AllHex(text, true) && Spells(text, 16, w)
      else if letter == 'c' then |text| == 1 && text[0] as int == w % 256
      else letter == 'd' && SignedSpells(text, if w < 0x8000_0000 then w else w - 0x1_0000_0000)
    case Text(memory) => letter == 's' && StandsAt(text, memory)
  }

  /** A number with a minus sign in front exactly if it is negative. */
  predicate SignedSpells(text: string, num: int) {
    if num >= 0 then AllDecimal(text) && Spells(text, 10, num)
    else |text| > 0 && text[0] == '-' && AllDecimal(text[1..]) && Spells(text[1..], 10, -num)
  }

  lemma {:induction false} FillAll(n: int, c: char)
    ensures forall i :: 0 <= i < |Fill(n, c)| ==> Fill(n, c)[i] == c
    decreases n
  {
    if n > 0 {
      FillAll(n - 1, c);
    }
  }

  lemma PaddedParts(n: int, z: bool, text: string) returns (k: nat)
    ensures FilledTo(Padded(n, z, text), k, n, if z then '0' else ' ') && Padded(n, z, text)[k..] == text
  {
    k := if n > |text| then n - |text| else 0;
    FillAll(n - |text|, if z then '0' else ' ');
  }

  lemma SignedShown(w: nat) returns (text: string)
    requires w < UINT_LIMIT
    ensures text == SignedText(ToInt(w)) && TextOf('d', Word32(w), text)
  {
    hide Numeral, Value, Spells, AllDecimal;
    var num := if w < INT_LIMIT then w else w - UINT_LIMIT;
    assert ToInt(w) == num;
    hide ToInt;
    text := SignedText(num);
    NumeralSpells(if num < 0 then -num else num, 10, false);
    if num < 0 {
      assert text[1..] == Numeral(-num, 10, false);
    }
  }

  /** What a conversion emits: the text of its argument, filled up to the width with zeros if the flag is there, but for
      characters, which are not filled up, and strings, which are with blanks. */
  lemma ConversionShown(letter: char, zero: bool, width: int, args: seq<Arg>) returns (out: string, k: nat)
    requires Readable(args) && args != [] && letter in ['u', 'd', 'x', 'X', 'c', 's']
    requires args[0].Text? <==> letter == 's'
    ensures Convert(letter, zero, width, args) == Done(out, args[1..])
    ensures FilledTo(out, k, if letter == 'c' then 0 else width, if zero && letter != 's' then '0' else ' ')
    ensures TextOf(letter, args[0], out[k..])
  {
    hide Padded, Numeral, SignedText, ToInt, Content, Value, FilledTo;
    out := Convert(letter, zero, width, args).out;
    k := 0;
    if letter == 'u' {
      NumeralSpells(args[0].word, 10, false);
      k := PaddedParts(width, zero, Numeral(args[0].word, 10, false));
    } else if letter == 'd' {
      var text := SignedShown(args[0].word);
      k := PaddedParts(width, zero, text);
    } else if letter == 'x' || letter == 'X' {
      NumeralSpells(args[0].word, 16, letter == 'X');
      k := PaddedParts(width, zero, Numeral(args[0].word, 16, letter == 'X'));
    } else if letter == 'c' {
      OneCharacter(args[0].word, zero);
    } else {
      k := PaddedParts(width, false, Content(args[0].memory));
    }
  }

  lemma OneCharacter(w: nat, zero: bool)
    ensures FilledTo([(w % 256) as char], 0, 0, if zero then '0' else ' ')
    ensures [(w % 256) as char][0..] == [(w % 256) as char]
  {}

  /** A field of a format, wherever it stands: the whole of what it prints, and where the rest goes on. */
  lemma FieldShown(zero: bool, digits: string, letter: char, rest: string, args: seq<Arg>) returns (out: string, k: nat)
    requires Readable(args) && Legible(zero, digits, letter) && Terminated(rest)
    requires letter in ['u', 'd', 'x', 'X', 'c', 's'] && args != [] && (args[0].Text? <==> letter == 's')
    ensures Terminated("%" + Written(zero, digits, letter) + rest)
    ensures Format("%" + Written(zero, digits, letter) + rest, args) == Emit(out, Format(rest, args[1..]))
    ensures FilledTo(out, k, if letter == 'c' then 0 else Value(digits, 10),
                     if zero && letter != 's' then '0' else ' ')
    ensures TextOf(letter, args[0], out[k..])
  {
    hide Format, Convert, Directive, Written, Value, TextOf, FilledTo;
    var text, s := Written(zero, digits, letter) + rest, "%" + Written(zero, digits, letter) + rest;
    assert s == "%" + text && s[1..] == text;
    DirectiveRead(zero, digits, letter, rest);
    FormatDirective(s, args);
    out, k := ConversionShown(letter, zero, Value(digits, 10), args);
  }

  /** Everything else: a character that is no '%' stands for itself, "%%" prints one '%', any other letter nothing, and
      the format ends at its NUL, even within a directive. */
  lemma OtherShown(zero: bool, digits: string, letter: char, rest: string, args: seq<Arg>)
    requires Readable(args) && Terminated([letter] + rest)
    ensures letter != '%' && letter != '\0' ==>
      Terminated(rest) && Format([letter] + rest, args) == Emit([letter], Format(rest, args))
    ensures letter == '\0' ==> Format([letter] + rest, args) == Done("", args)
    ensures Legible(zero, digits, letter) && letter !in ['u', 'd', 'x', 'X', 'c', 's'] ==>
      Terminated("%" + Written(zero, digits, letter) + rest)
    ensures Legible(zero, digits, letter) && letter !in ['u', 'd', 'x', 'X', 'c', 's', '\0'] ==>
      Terminated(rest) && Format("%" + Written(zero, digits, letter) + rest, args)
      == Emit(if letter == '%' then "%" else "", Format(rest, args))
    ensures Legible(zero, digits, letter) && letter == '\0' ==>
      Format("%" + Written(zero, digits, letter) + rest, args) == Done("", args)
  {
    hide Format, Directive, Written, Value, Padded, Numeral, SignedText, Content;
    assert ([letter] + rest)[1..] == rest;
    if letter == '\0' {
      FormatEnd([letter] + rest, args);
    } else if letter != '%' {
      FormatLiteral([letter] + rest, args);
    }
    if Legible(zero, digits, letter) && letter !in ['u', 'd', 'x', 'X', 'c', 's'] {
      var text, s := Written(zero, digits, letter) + rest, "%" + Written(zero, digits, letter) + rest;
      assert s == "%" + text && s[1..] == text;
      DirectiveRead(zero, digits, letter, rest);
      FormatDirective(s, args);
    }
  }
}
