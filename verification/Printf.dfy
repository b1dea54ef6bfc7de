/** The formatter of printf.c: padding, and the interpreter of format strings. */
module Printf {
  import opened Numerals

  /** A variadic argument: a 32-bit word, or a pointer to text in memory. */
  datatype Arg = Word32(word: nat) | Text(memory: string)

  predicate Readable(args: seq<Arg>) {
    forall i :: 0 <= i < |args| ==>
      match args[i] case Word32(w) => w < UINT_LIMIT case Text(s) => NUL in s
  }

  /** The text that stands at a pointer: all up to the first NUL. */
  function Content(memory: string): (s: string)
    requires NUL in memory
    ensures |s| < |memory| && s == memory[..|s|] && memory[|s|] == NUL && NUL !in s
  {
    if memory[0] == NUL then [] else [memory[0]] + Content(memory[1..])
  }

  lemma ContentOf(s: string, rest: string)
    requires NUL !in s
    ensures NUL in s + [NUL] + rest && Content(s + [NUL] + rest) == s
  {
    var m := s + [NUL] + rest;
    assert m[|s|] == NUL;
    var c := Content(m);
    assert forall i :: 0 <= i < |s| ==> m[i] == s[i];
    assert forall i :: 0 <= i < |c| ==> m[i] == c[i];
  }

  function Fill(n: int, c: char): (s: string)
    ensures |s| == if n < 0 then 0 else n
  {
    if n <= 0 then [] else [c] + Fill(n - 1, c)
  }

  /** `text`, filled up on the left to width `n`; zeros go before the sign. */
  function Padded(n: int, z: bool, text: string): string {
    Fill(n - |text|, if z then '0' else ' ') + text
  }

  lemma {:induction false} FillEnd(n: nat, c: char)
    ensures Fill(n + 1, c) == Fill(n, c) + [c]
  {
    if n > 0 {
      FillEnd(n - 1, c);
    }
  }

  /** Emit the text at `bf`, padded; the text is read up to its NUL and no further. */
  method Putchw(n: int, z: bool, bf: string) returns (out: string)
    requires NUL in bf
    ensures out == Padded(n, z, Content(bf))
  {
    hide Content;
    var fc := if z then '0' else ' ';
    ghost var text := Content(bf);
    var left, p := n, 0;
    while bf[p] != NUL && left > 0
      invariant 0 <= p <= |text| && (n > 0 ==> left == n - p >= 0) && (n <= 0 ==> left == n && p == 0)
      decreases |text| - p
    {
      left, p := left - 1, p + 1;
    }
    out := "";
    ghost var fill := if left > 0 then left else 0;
    assert fill == if n > |text| then n - |text| else 0;
    while left > 0
      invariant left <= fill && (fill > 0 ==> left >= 0)
      invariant out == Fill(if fill > 0 then fill - left else 0, fc)
      decreases left
    {
      FillEnd(fill - left, fc);
      out := out + [fc];
      left := left - 1;
    }
    ghost var pad := out;
    p := 0;
    while bf[p] != NUL
      invariant 0 <= p <= |text| && out == pad + text[..p]
      decreases |text| - p
    {
      out := out + [bf[p]];
      p := p + 1;
    }
  }

  // ----- The interpreter -----

  /** What a format does with its arguments: text and the arguments left, unless it reads one that is not there. */
  datatype Result = Done(out: string, rest: seq<Arg>) | Undefined

  function Emit(s: string, r: Result): Result {
    if r.Done? then Done(s + r.out, r.rest) else Undefined
  }

  /** What one conversion emits. */
  function Convert(ch: char, zero: bool, width: int, args: seq<Arg>): Result
    requires Readable(args)
  {
    if ch == 'u' || ch == 'd' || ch == 'x' || ch == 'X' || ch == 'c' then
      if args == [] || args[0].Text? then Undefined
      else
        var w := args[0].word;
        Done(if ch == 'u' then Padded(width, zero, Numeral(w, 10, false))
             else if ch == 'd' then Padded(width, zero, SignedText(ToInt(w)))
             else if ch == 'c' then [(w % 256) as char]
             else Padded(width, zero, Numeral(w, 16, ch == 'X')), args[1..])
    else if ch == 's' then
      if args == [] || args[0].Word32? then Undefined
      else Done(Padded(width, false, Content(args[0].memory)), args[1..])
    else Done(if ch == '%' then "%" else "", args)
  }

  /** The directive that follows a '%': its zero flag, its width, its letter, and the text after it. */
  function Directive(s: string): (r: (bool, int, char, string))
    requires Terminated(s)
    ensures |r.3| < |s| && (r.2 != NUL ==> Terminated(r.3))
  {
    var zero := s[0] == '0';
    var s1 := if zero then s[1..] else s;
    if '0' <= s1[0] <= '9' then
      var (ch, rest, width) := Scanned(s1, 10, 0);
      (zero, width, ch, rest)
    else (zero, 0, s1[0], s1[1..])
  }

  /** The meaning of a format string, up to its NUL. */
  function Format(s: string, args: seq<Arg>): Result
    requires Terminated(s) && Readable(args)
    decreases |s|
  {
    if s[0] == NUL then Done("", args)
    else if s[0] != '%' then Emit([s[0]], Format(s[1..], args))
    else
      var (zero, width, ch, rest) := Directive(s[1..]);
      if ch == NUL then Done("", args)
      else
        var r := Convert(ch, zero, width, args);
        if r.Done? then Emit(r.out, Format(rest, r.rest)) else Undefined
  }

  /** ui2a into the buffer, then putchw from it. */
  method PutUnsigned(word: nat, base: Base, uc: bool, zero: bool, width: int, bf: array<char>) returns (out: string)
    requires word < UINT_LIMIT && bf.Length == 12
    modifies bf
    ensures out == Padded(width, zero, Numeral(word, base, uc))
  {
    hide Numeral, Content, Padded;
    TextFits(word);
    SameLength(word, base, uc);
    NoNulInNumeral(word, base, uc);
    ghost var was := bf[..];
    ghost var end := Ui2a(word, base, uc, bf, 0);
    assert bf[..] == Numeral(word, base, uc) + [NUL] + was[end + 1..];
    ContentOf(Numeral(word, base, uc), was[end + 1..]);
    out := Putchw(width, zero, bf[..]);
  }

  lemma SameLength(word: nat, base: Base, uc: bool)
    requires word < UINT_LIMIT
    ensures |Numeral(word, base, uc)| <= 11
  {
    TenDigits();
    NumeralLength(word, base, 9, uc) by {
      assert Power(16, 10) > UINT_LIMIT by {
        assert Power(16, 10) == Power(16, 8) * 256;
      }
    }
  }

  /** i2a into the buffer, then putchw from it. */
  method PutSigned(num: int, zero: bool, width: int, bf: array<char>) returns (out: string)
    requires -INT_LIMIT <= num < INT_LIMIT && bf.Length == 12
    modifies bf
    ensures out == Padded(width, zero, SignedText(num))
  {
    hide Numeral, Content, Padded;
    TextFits(num);
    NoNulInNumeral(if num < 0 then -num else num, 10, false);
    ghost var was := bf[..];
    I2a(num, bf);
    ContentOf(SignedText(num), was[|SignedText(num)| + 1..]);
    out := Putchw(width, zero, bf[..]);
  }

  /** One conversion, by the functions of this library over a twelve-byte buffer. */
  method Conversion(ch: char, zero: bool, width: int, args: seq<Arg>, used: nat, bf: array<char>)
    returns (out: string, after: nat)
    requires Readable(args) && used <= |args| && bf.Length == 12 && Convert(ch, zero, width, args[used..]).Done?
    modifies bf
    ensures used <= after <= |args|
    ensures Convert(ch, zero, width, args[used..]) == Done(out, args[after..])
  {
    hide Numeral, Padded, Content, SignedText, ToInt;
    out, after := "", used;
    if ch == 'u' {
      out := PutUnsigned(args[used].word, 10, false, zero, width, bf);
      after := used + 1;
    } else if ch == 'd' {
      out := PutSigned(ToInt(args[used].word), zero, width, bf);
      after := used + 1;
    } else if ch == 'x' || ch == 'X' {
      out := PutUnsigned(args[used].word, 16, ch == 'X', zero, width, bf);
      after := used + 1;
    } else if ch == 'c' {
      out := [(args[used].word % 256) as char];
      after := used + 1;
    } else if ch == 's' {
      out := Putchw(width, false, args[used].memory);
      after := used + 1;
    } else if ch == '%' {
      out := "%";
    }
  }

  lemma EmitTwice(a: string, b: string, r: Result)
    ensures Emit(a, Emit(b, r)) == Emit(a + b, r)
  {}

  /** Read a directive from `i` on, just behind its '%'. */
  method ReadDirective(fmt: string, i: nat) returns (zero: bool, width: int, ch: char, next: nat)
    requires i < |fmt| && Terminated(fmt)
    ensures i < next <= |fmt| && (zero, width, ch, fmt[next..]) == Directive(fmt[i..])
  {
    hide Scanned;
    zero, width := false, 0;
    ch, next := fmt[i], i + 1;
    if ch == '0' {
      assert fmt[i..][1..] == fmt[i + 1..];
      ch, next := fmt[next], next + 1;
      zero := true;
    }
    assert fmt[next - 1..][1..] == fmt[next..];
    if '0' <= ch <= '9' {
      ch, next, width := A2i(fmt, next - 1, 10);
    }
  }

  lemma FormatLiteral(s: string, args: seq<Arg>)
    requires Terminated(s) && Readable(args) && s[0] != NUL && s[0] != '%'
    ensures Format(s, args) == Emit([s[0]], Format(s[1..], args))
  {}

  lemma FormatDirective(s: string, args: seq<Arg>)
    requires Terminated(s) && Readable(args) && s[0] == '%'
    ensures var d := Directive(s[1..]);
      Format(s, args) ==
        if d.2 == NUL then Done("", args)
        else
          var r := Convert(d.2, d.0, d.1, args);
          if r.Done? then Emit(r.out, Format(d.3, r.rest)) else Undefined
  {
    hide Directive, Convert;
  }

  /** Interpret the format: every character read lies before the NUL or is the NUL itself, the output is what the
      format means, and exactly the arguments it asks for are consumed. */
  method TfpFormat(fmt: string, args: seq<Arg>) returns (out: string, used: nat)
    requires Terminated(fmt) && Readable(args) && Format(fmt, args).Done?
    ensures used <= |args| && Format(fmt, args) == Done(out, args[used..])
  {
    hide Format, Convert, Directive;
    var bf := new char[12];
    var i := 0;
    out, used := "", 0;
    assert fmt[0..] == fmt && args[0..] == args;
    assert Format(fmt, args) == Emit("", Format(fmt, args));
    while fmt[i] != NUL
      invariant i < |fmt| && used <= |args|
      invariant Format(fmt, args) == Emit(out, Format(fmt[i..], args[used..]))
      decreases |fmt| - i
    {
      if fmt[i] != '%' {
        FormatLiteral(fmt[i..], args[used..]);
        assert fmt[i..][1..] == fmt[i + 1..];
        EmitTwice(out, [fmt[i]], Format(fmt[i + 1..], args[used..]));
        out := out + [fmt[i]];
        i := i + 1;
      } else {
        FormatDirective(fmt[i..], args[used..]);
        assert fmt[i..][1..] == fmt[i + 1..];
        var zero, width, ch, next := ReadDirective(fmt, i + 1);
        if ch == NUL {
          return;
        }
        var text, after := Conversion(ch, zero, width, args, used, bf);
        EmitTwice(out, text, Format(fmt[next..], args[after..]));
        out, used, i := out + text, after, next;
      }
    }
    FormatEnd(fmt[i..], args[used..]);
  }

  lemma FormatEnd(s: string, args: seq<Arg>)
    requires Terminated(s) && Readable(args) && s[0] == NUL
    ensures Format(s, args) == Done("", args)
  {}

  // ----- What well-formed format strings mean -----

  /** A format as the caller thinks of it. */
  datatype Item = Literal(c: char) | Percent | Field(zero: bool, width: nat, letter: char)

  predicate WellFormed(item: Item) {
    match item
    case Literal(c) => c != '%' && c != NUL
    case Percent => true
    case Field(_, width, letter) => width < INT_LIMIT && letter in ['u', 'd', 'x', 'X', 'c', 's']
  }

  /** Flag, width and letter of a field; no width is written for 0. */
  function Spelling(item: Item): string
    requires item.Field?
  {
    (if item.zero then "0" else "") + (if item.width > 0 then Numeral(item.width, 10, false) else "") + [item.letter]
  }

  function Rendered(item: Item): string {
    match item
    case Literal(c) => [c]
    case Percent => "%%"
    case Field(_, _, _) => "%" + Spelling(item)
  }

  function Render(items: seq<Item>): string {
    if items == [] then [] else Rendered(items[0]) + Render(items[1..])
  }

  /** What one item means: literals stand for themselves, a field takes one argument. */
  function Effect(item: Item, args: seq<Arg>): (r: Result)
    requires Readable(args)
    ensures r.Done? ==> Readable(r.rest)
  {
    match item
    case Literal(c) => Done([c], args)
    case Percent => Done("%", args)
    case Field(zero, width, letter) => Convert(letter, zero, width, args)
  }

  /** What the items mean, one after the other. */
  function Meaning(items: seq<Item>, args: seq<Arg>): Result
    requires Readable(args)
  {
    if items == [] then Done("", args)
    else
      var r := Effect(items[0], args);
      if r.Done? then Emit(r.out, Meaning(items[1..], r.rest)) else Undefined
  }

  lemma {:induction false} FirstDigit(num: nat)
    requires num > 0
    ensures '1' <= Numeral(num, 10, false)[0] <= '9'
    decreases num
  {
    if num >= 10 {
      FirstDigit(num / 10);
    }
  }

  /** A field spelled out is read back as written. */
  lemma FieldRoundTrip(item: Item, rest: string)
    requires item.Field? && WellFormed(item) && Terminated(rest)
    ensures Terminated(Spelling(item) + rest)
    ensures Directive(Spelling(item) + rest) == (item.zero, item.width, item.letter, rest)
  {
    hide Directive, Spelling, Numeral;
    var s := Unflagged(item.width, item.letter) + rest;
    UnflaggedRead(item.width, item.letter, rest);
    SpellingParts(item, rest);
    FlagRead(item.zero, s);
  }

  /** A field's width and letter. */
  function Unflagged(width: nat, letter: char): string {
    (if width > 0 then Numeral(width, 10, false) else "") + [letter]
  }

  lemma SpellingParts(item: Item, rest: string)
    requires item.Field?
    ensures Spelling(item) + rest == (if item.zero then "0" else "") + (Unflagged(item.width, item.letter) + rest)
  {
    hide Numeral;
    assert Spelling(item) == (if item.zero then "0" else "") + Unflagged(item.width, item.letter);
  }

  /** Reading on behind the flag. */
  lemma UnflaggedRead(width: nat, letter: char, rest: string)
    requires width < INT_LIMIT && letter in ['u', 'd', 'x', 'X', 'c', 's'] && Terminated(rest)
    ensures var s := Unflagged(width, letter) + rest;
      && Terminated(s) && s[0] != '0'
      && (if '0' <= s[0] <= '9' then Scanned(s, 10, 0) == (letter, rest, width)
          else width == 0 && s[0] == letter && s[1..] == rest)
  {
    hide Numeral, Scanned;
    if width > 0 {
      FirstDigit(width);
      NumeralRoundTrip(width, 10, false, letter, rest);
    } else {
      assert ("" + [letter]) + rest == [letter] + rest;
    }
  }

  lemma FlagRead(zero: bool, s: string)
    requires Terminated(s) && s[0] != '0'
    ensures var text := (if zero then "0" else "") + s;
      && Terminated(text)
      && Directive(text) ==
         if '0' <= s[0] <= '9' then (zero, Scanned(s, 10, 0).2, Scanned(s, 10, 0).0, Scanned(s, 10, 0).1)
         else (zero, 0, s[0], s[1..])
  {
    hide Scanned;
    assert ("0" + s)[1..] == s && "" + s == s;
  }

  /** The interpreter gives one item its meaning and goes on behind it. */
  lemma FormatItem(item: Item, rest: string, args: seq<Arg>)
    requires Readable(args) && WellFormed(item) && Terminated(rest)
    ensures Terminated(Rendered(item) + rest)
    ensures var r := Effect(item, args);
      Format(Rendered(item) + rest, args) == if r.Done? then Emit(r.out, Format(rest, r.rest)) else Undefined
  {
    hide Format, Spelling, Directive, Padded, Numeral, SignedText, Content;
    var s := Rendered(item) + rest;
    match item
    case Literal(c) =>
      assert s[1..] == rest;
      FormatLiteral(s, args);
    case Percent =>
      PercentDirective(rest);
      assert s[1..] == "%" + rest;
      FormatDirective(s, args);
    case Field(zero, width, letter) =>
      FieldRoundTrip(item, rest);
      assert s[1..] == Spelling(item) + rest;
      FormatDirective(s, args);
  }

  lemma PercentDirective(rest: string)
    requires Terminated(rest)
    ensures Terminated("%" + rest) && Directive("%" + rest) == (false, 0, '%', rest)
  {
    assert ("%" + rest)[1..] == rest;
  }

  /** The interpreter gives every list of well-formed items its meaning. */
  lemma {:induction false} FormatRefinesItems(items: seq<Item>, args: seq<Arg>)
    requires Readable(args) && forall i :: 0 <= i < |items| ==> WellFormed(items[i])
    ensures Format(Render(items) + [NUL], args) == Meaning(items, args)
    decreases |items|
  {
    if items != [] {
      hide Format, Rendered, Effect, Convert;
      var rest := Render(items[1..]) + [NUL];
      var r := Effect(items[0], args);
      FormatItem(items[0], rest, args);
      assert Render(items) + [NUL] == Rendered(items[0]) + rest;
      if r.Done? {
        FormatRefinesItems(items[1..], r.rest);
      }
    }
  }

  /** The arguments fit: a string for each `%s`, a word for every other field. */
  predicate Matching(items: seq<Item>, args: seq<Arg>) {
    if items == [] then true
    else if items[0].Field? then
      args != [] && (args[0].Text? <==> items[0].letter == 's') && Matching(items[1..], args[1..])
    else Matching(items[1..], args)
  }

  function Fields(items: seq<Item>): nat {
    if items == [] then 0 else (if items[0].Field? then 1 else 0) + Fields(items[1..])
  }

  /** Formatting is defined exactly for arguments that fit, and consumes one for each field. */
  lemma {:induction false} ConsumesOnePerField(items: seq<Item>, args: seq<Arg>)
    requires Readable(args) && forall i :: 0 <= i < |items| ==> WellFormed(items[i])
    ensures Meaning(items, args).Done? <==> Matching(items, args)
    ensures Matching(items, args) ==> Fields(items) <= |args| && Meaning(items, args).rest == args[Fields(items)..]
    decreases |items|
  {
    if items != [] {
      if items[0].Field? {
        if args != [] {
          ConsumesOnePerField(items[1..], args[1..]);
        }
      } else {
        ConsumesOnePerField(items[1..], args);
      }
    }
    hide Padded, Numeral, SignedText, ToInt, Content;
  }
}
