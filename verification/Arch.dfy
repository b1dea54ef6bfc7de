/** The macros of vm.h, and the translation table format of VMSAv8-64 with a 4KB granule. */
module Arch {
  import opened Bits

  const PAGE_SIZE: nat := 0x1000
  const VA_LIMIT: nat := 0x1_0000_0000_0000
  const FRAME_LIMIT: nat := 0x10_0000_0000
  const ADDRESS_LIMIT: nat := 0x1_0000_0000_0000_0000
  const ADDRESS_PAGES: nat := 0x10_0000_0000_0000

  // mair_ind
  const DEVICE: Word := 0
  const NORMAL_TRANSIENT: Word := 8
  const NORMAL_NON_TRANSIENT: Word := 12

  // sharability_flag
  const NON_SHAREABLE: Word := 0
  const INNER_SHAREABLE: Word := 0x300

  const VALID_DESCRIPTOR: Word := 1
  const TABLE_DESCRIPTOR: Word := 2
  const VALID_PAGE: Word := 3
  const ACCESS_FLAG: Word := 0x400

  /** 2^(39 - 9 * level): the bytes one descriptor of a level spans. */
  function Span(level: nat): (n: nat)
    requires level <= 3
    ensures n > 0
  {
    if level == 0 then 0x80_0000_0000 else if level == 1 then 0x4000_0000
    else if level == 2 then 0x20_0000 else 0x1000
  }

  lemma {:induction false} OnesValue(k: nat, s: nat)
    ensures Ones(k, s) == (Pow2(k) - 1) * Pow2(s)
    decreases s + k
  {
    if s > 0 {
      OnesValue(k, s - 1);
      MulTwice(Pow2(k) - 1, Pow2(s - 1));
    } else if k > 0 {
      OnesValue(k - 1, 0);
    }
  }

  /** Masking `k` bits from bit `s` on. */
  lemma MaskField(x: nat, k: nat, s: nat)
    ensures And(x, (Pow2(k) - 1) * Pow2(s)) == x / Pow2(s) % Pow2(k) * Pow2(s)
  {
    OnesValue(k, s);
    AndOnes(x, k, s);
    FieldDivMod(x, k, s);
  }

  /** VA_PTBL_IND: the index a table of this level is read at. */
  function VaPtblInd(va: Word, level: nat): (i: nat)
    requires level <= 3
    ensures i < 512 && i == va / Span(level) % 512
  {
    IndexField(va, level);
    And(va, 0x1ff * Pow2(39 - level * 9)) / Pow2(39 - level * 9)
  }

  lemma PowersUsed()
    ensures Pow2(2) == 4 && Pow2(8) == 256 && Pow2(9) == 512 && Pow2(10) == 0x400 && Pow2(12) == 0x1000
    ensures Pow2(21) == 0x20_0000 && Pow2(30) == 0x4000_0000
    ensures Pow2(39) == 0x80_0000_0000 && Pow2(48) == VA_LIMIT && Pow2(52) == 0x10_0000_0000_0000
  {}

  lemma IndexField(va: Word, level: nat)
    requires level <= 3
    ensures And(va, 0x1ff * Pow2(39 - level * 9)) / Pow2(39 - level * 9) == va / Span(level) % 512
  {
    PowersUsed();
    var s := 39 - level * 9;
    assert Pow2(s) == Span(level);
    MaskField(va, 9, s);
    DivUnique(va / Span(level) % 512 * Span(level), Span(level), va / Span(level) % 512, 0);
  }

  lemma LowMask(w: Word)
    ensures And(w, 0xffff_ffff_ffff) == w % VA_LIMIT
  {
    PowersUsed();
    MaskField(w, 48, 0);
  }

  lemma PageMask(w: Word)
    ensures And(w, 0xffff_ffff_ffff_f000) == w / PAGE_SIZE * PAGE_SIZE
  {
    PowersUsed();
    MaskField(w, 52, 12);
  }

  /** DAADDR: bits 47 to 12 of a descriptor. */
  function DaAddr(w: Word): (a: Word)
    ensures a == w % VA_LIMIT / PAGE_SIZE * PAGE_SIZE
  {
    LowMask(w);
    PageMask(w % VA_LIMIT);
    And(And(w, 0xffff_ffff_ffff), 0xffff_ffff_ffff_f000)
  }

  /** PGROUNDDOWN: the start of the page. */
  function PgRoundDown(a: Word): (r: Word)
    ensures r == a / PAGE_SIZE * PAGE_SIZE
  {
    PageMask(a);
    And(a, 0xffff_ffff_ffff_f000)
  }

  lemma MaskPowers()
    ensures Pow2(3) == 8 && Pow2(61) == 0x2000_0000_0000_0000
  {
    PowersUsed();
    Pow2Add(52, 9);
  }

  lemma WordMask(w: Word)
    ensures And(w, 0xffff_ffff_ffff_fff8) == w / 8 * 8
  {
    hide And;
    PowersUsed();
    MaskPowers();
    hide Pow2;
    MaskField(w, 61, 3);
  }

  /** PGHEADER: the last eight-byte word of the page that starts at `a`, modulo 2^64. */
  function PgHeader(a: Word): (r: Word)
    ensures r == (a + 0xff8) % 0x1_0000_0000_0000_0000 / 8 * 8
  {
    var w: Word := (a + 0xff8) % 0x1_0000_0000_0000_0000;
    WordMask(w);
    And(w, 0xffff_ffff_ffff_fff8)
  }

  /** An or with less than a page leaves the page bits of `a` alone. */
  lemma OrLow(a: nat, b: nat)
    requires b < PAGE_SIZE
    ensures Or(a, b) == a / PAGE_SIZE * PAGE_SIZE + Or(a % PAGE_SIZE, b)
  {
    PowersUsed();
    OrHighLow(a / PAGE_SIZE, a % PAGE_SIZE, b, 12);
  }

  lemma {:induction false} OrBound(a: nat, b: nat, k: nat)
    requires a < Pow2(k) && b < Pow2(k)
    ensures Or(a, b) < Pow2(k)
  {
    if k > 0 {
      OrBound(a / 2, b / 2, k - 1);
    }
  }

  lemma WordPower()
    ensures Pow2(64) == 0x1_0000_0000_0000_0000
  {
    Pow2Add(48, 16);
    PowersUsed();
    assert Pow2(16) == 0x1_0000;
  }

  lemma OrWord(a: Word, b: Word)
    ensures Or(a, b) < 0x1_0000_0000_0000_0000
  {
    WordPower();
    OrBound(a, b, 64);
  }

  /** The word `walk` links a new table with. */
  function TableEntry(page: Word): (w: Word)
    ensures page % PAGE_SIZE == 0 ==> w == page + 3
  {
    OrWord(page, TABLE_DESCRIPTOR);
    OrLow(page, TABLE_DESCRIPTOR);
    OrWord(Or(page, TABLE_DESCRIPTOR), VALID_DESCRIPTOR);
    OrLow(Or(page, TABLE_DESCRIPTOR), VALID_DESCRIPTOR);
    assert Or(2, 1) == 3;
    Or(Or(page, TABLE_DESCRIPTOR), VALID_DESCRIPTOR)
  }

  /** The page descriptor `mapva` stores; ACCESS_PERMISSION is 0 and sets no bit. */
  function LeafWord(pa: Word, flags: Word, ind: Word, sflag: Word): (w: Word)
  {
    OrWord(pa, flags);
    OrWord(Or(pa, flags), ind);
    OrWord(Or(Or(pa, flags), ind), ACCESS_FLAG);
    OrWord(Or(Or(Or(pa, flags), ind), ACCESS_FLAG), sflag);
    Or(Or(Or(Or(pa, flags), ind), ACCESS_FLAG), sflag)
  }

  /** Setting a field that is clear adds it. */
  lemma OrField(x: Word, mask: Word, k: nat, s: nat)
    requires mask == (Pow2(k) - 1) * Pow2(s) && x / Pow2(s) % Pow2(k) == 0
    ensures Or(x, mask) == x + mask
  {
    MaskField(x, k, s);
    OrDisjoint(x, mask);
  }

  /** The low attribute fields of a page descriptor: bits 1:0, 4:2, 10 and 9:8. */
  lemma LowFields()
    ensures 3 == (Pow2(2) - 1) * Pow2(0) && Pow2(0) == 1 && Pow2(2) == 4
    ensures 4 == (Pow2(1) - 1) * Pow2(2) && 8 == (Pow2(1) - 1) * Pow2(3) && 12 == (Pow2(2) - 1) * Pow2(2)
    ensures Pow2(1) == 2 && Pow2(3) == 8
    ensures 0x400 == (Pow2(1) - 1) * Pow2(10) && Pow2(10) == 0x400
    ensures 0x200 == (Pow2(1) - 1) * Pow2(9) && 0x300 == (Pow2(2) - 1) * Pow2(8)
    ensures Pow2(8) == 0x100 && Pow2(9) == 0x200
  {}

  lemma OrZero(x: nat)
    ensures Or(x, 0) == x
  {}

  lemma OrFlags(pa: Word, flags: Word)
    requires pa % PAGE_SIZE == 0 && flags == VALID_PAGE
    ensures Or(pa, flags) == pa + flags
  {
    hide And, Or;
    LowFields();
    OrField(pa, flags, 2, 0);
  }

  lemma IndexClear(x: Word)
    requires x % 16 < 4
    ensures x / 4 % 4 == 0 && x / 4 % 2 == 0 && x / 8 % 2 == 0
  {
    var q, r := x / 16, x % 16;
    DivUnique(x, 4, 4 * q, r);
    DivUnique(4 * q, 4, q, 0);
    DivUnique(4 * q, 2, 2 * q, 0);
    DivUnique(x, 8, 2 * q, r);
    DivUnique(2 * q, 2, q, 0);
  }

  lemma OrIndex(x: Word, ind: Word)
    requires x % 16 < 4 && ind in {0, 4, 8, 12}
    ensures Or(x, ind) == x + ind
  {
    hide And, Or, Pow2;
    LowFields();
    OrZero(x);
    IndexClear(x);
    if ind == 4 {
      OrField(x, ind, 1, 2);
    } else if ind == 8 {
      OrField(x, ind, 1, 3);
    } else if ind == 12 {
      OrField(x, ind, 2, 2);
    }
  }

  lemma OrAccess(x: Word, access: Word)
    requires x % PAGE_SIZE < 0x400 && access == ACCESS_FLAG
    ensures Or(x, access) == x + access
  {
    hide And, Or;
    LowFields();
    OrField(x, access, 1, 10);
  }

  lemma OrShare(x: Word, sflag: Word)
    requires x % 0x400 < 0x100 && sflag in {0, 0x200, 0x300}
    ensures Or(x, sflag) == x + sflag
  {
    hide And, Or, Pow2;
    LowFields();
    OrZero(x);
    if sflag == 0x200 {
      OrField(x, sflag, 1, 9);
    } else if sflag == 0x300 {
      OrField(x, sflag, 2, 8);
    }
  }

  /** For the attributes this kernel uses the fields do not meet, so they can all be read back. */
  lemma LeafFields(pa: Word, flags: Word, ind: Word, sflag: Word)
    requires pa % PAGE_SIZE == 0 && flags == VALID_PAGE
    requires ind in {0, 4, 8, 12} && sflag in {0, 0x200, 0x300}
    ensures LeafWord(pa, flags, ind, sflag) == pa + flags + ind + ACCESS_FLAG + sflag
  {
    hide And, Or;
    FieldsClear(pa, ind);
    var x1: Word, x2: Word, x3: Word := pa + 3, pa + 3 + ind, pa + 3 + ind + 0x400;
    OrFlags(pa, flags);
    OrIndex(x1, ind);
    OrAccess(x2, ACCESS_FLAG);
    OrShare(x3, sflag);
  }

  /** Where a field goes the word so far is clear. */
  lemma FieldsClear(pa: Word, ind: Word)
    requires pa % PAGE_SIZE == 0 && ind in {0, 4, 8, 12}
    ensures pa + 3 + ind + 0x400 < 0x1_0000_0000_0000_0000
    ensures (pa + 3) % 16 < 4 && (pa + 3 + ind) % PAGE_SIZE < 0x400 && (pa + 3 + ind + 0x400) % 0x400 < 0x100
  {
    var p := pa / PAGE_SIZE;
    DivUnique(pa + 3, 16, 256 * p, 3);
    DivUnique(pa + 3 + ind, PAGE_SIZE, p, 3 + ind);
    DivUnique(pa + 3 + ind + 0x400, 0x400, 4 * p + 1, 3 + ind);
  }

  // ----- The hardware table walk: section D8.2 of the Arm Architecture Reference Manual -----

  /** A virtual page number has 36 bits; its first 9 * level bits choose the table of that level. */
  function Prefix(v: nat, level: nat): nat
    requires level <= 4
  {
    if level == 0 then v / 0x10_0000_0000 else if level == 1 then v / 0x800_0000
    else if level == 2 then v / 0x4_0000 else if level == 3 then v / 0x200 else v
  }

  function Index(v: nat, level: nat): (i: nat)
    requires level <= 3
    ensures i < 512
    ensures Prefix(v, level + 1) == Prefix(v, level) * 512 + i
  {
    Prefix(v, level + 1) % 512
  }

  /** The page number of a virtual address; the bits above 47 take no part in the walk. */
  function Vpn(va: Word): (v: nat)
    ensures v < FRAME_LIMIT
  {
    va % VA_LIMIT / PAGE_SIZE
  }

  /** Dropping whole multiples of 512 * s before dividing by s does not change the low nine bits. */
  lemma DropHigh(x: nat, g: nat, r: nat, s: nat)
    requires s > 0 && x == g * s + r && g % 512 == 0
    ensures x / s % 512 == r / s % 512
  {
    assert (g + r / s) * s == g * s + r / s * s;
    DivUnique(x, s, g + r / s, r % s);
  }

  lemma IndexAtTop(va: Word, h: nat, r: nat)
    requires va == h * 0x1_0000_0000_0000 + r
    ensures va / 0x80_0000_0000 % 512 == r / 0x1000 / 0x800_0000 % 512
  {
    assert h * 0x200 == 512 * (h * 0x1);
    DropHigh(va, h * 0x200, r, 0x80_0000_0000);
    assert r / 0x80_0000_0000 == r / 0x1000 / 0x800_0000;
  }

  lemma IndexAtOne(va: Word, h: nat, r: nat)
    requires va == h * 0x1_0000_0000_0000 + r
    ensures va / 0x4000_0000 % 512 == r / 0x1000 / 0x4_0000 % 512
  {
    assert h * 0x4_0000 == 512 * (h * 0x200);
    DropHigh(va, h * 0x4_0000, r, 0x4000_0000);
    assert r / 0x4000_0000 == r / 0x1000 / 0x4_0000;
  }

  lemma IndexAtTwo(va: Word, h: nat, r: nat)
    requires va == h * 0x1_0000_0000_0000 + r
    ensures va / 0x20_0000 % 512 == r / 0x1000 / 0x200 % 512
  {
    assert h * 0x800_0000 == 512 * (h * 0x40000);
    DropHigh(va, h * 0x800_0000, r, 0x20_0000);
    assert r / 0x20_0000 == r / 0x1000 / 0x200;
  }

  lemma IndexAtThree(va: Word, h: nat, r: nat)
    requires va == h * 0x1_0000_0000_0000 + r
    ensures va / 0x1000 % 512 == r / 0x1000 % 512
  {
    assert h * 0x10_0000_0000 == 512 * (h * 0x8000000);
    DropHigh(va, h * 0x10_0000_0000, r, 0x1000);
  }

  lemma IndexOfAddress(va: Word, level: nat)
    requires level <= 3
    ensures VaPtblInd(va, level) == Index(Vpn(va), level)
  {
    hide And, Pow2;
    var h, r := va / VA_LIMIT, va % VA_LIMIT;
    assert va == h * 0x1_0000_0000_0000 + r;
    if level == 0 {
      IndexAtTop(va, h, r);
    } else if level == 1 {
      IndexAtOne(va, h, r);
    } else if level == 2 {
      IndexAtTwo(va, h, r);
    } else {
      IndexAtThree(va, h, r);
    }
  }

  /** The frame a table or page descriptor points to. */
  function FrameOf(descriptor: Word): nat {
    descriptor % VA_LIMIT / PAGE_SIZE
  }

  /** What a descriptor that links frame `p` reads back as. */
  lemma LinkReadBack(p: nat)
    requires p < FRAME_LIMIT
    ensures var e := p * PAGE_SIZE + 3; e % 2 == 1 && e % 4 == 3 && FrameOf(e) == p && DaAddr(e) == p * PAGE_SIZE
  {
    hide And;
    var e := p * PAGE_SIZE + 3;
    DivUnique(e, 2, p * 2048 + 1, 1);
    DivUnique(e, 4, p * 1024, 3);
    DivUnique(e, VA_LIMIT, 0, e);
    DivUnique(e, PAGE_SIZE, p, 3);
  }

  /** Frame `p` lies in physical memory `m`, a sequence of 64-bit words. */
  predicate InMemory(m: seq<Word>, p: nat) {
    p * 512 + 512 <= |m|
  }

  /** Descriptor `i` of the table in frame `p`. */
  function Slot(m: seq<Word>, p: nat, i: nat): Word
    requires InMemory(m, p) && i < 512
  {
    m[p * 512 + i]
  }

  datatype Outcome = Fault | Output(level: nat, descriptor: Word)

  /** What the translation table walk makes of page `v`, from the table of `level` in frame `p` on. */
  function Descend(m: seq<Word>, p: nat, level: nat, v: nat): Outcome
    requires level <= 3
    decreases 3 - level, 1
  {
    if !InMemory(m, p) then Fault
    else Resolve(m, Slot(m, p, Index(v, level)), level, v)
  }

  function Resolve(m: seq<Word>, e: Word, level: nat, v: nat): Outcome
    requires level <= 3
    decreases 3 - level, 0
  {
    if e % 2 == 0 then Fault
    else if level == 3 then LeafOutcome(e)
    else if e % 4 == 3 then Descend(m, FrameOf(e), level + 1, v)
    else if level > 0 then Output(level, e)
    else Fault
  }

  /** A level 3 descriptor maps a page when both its low bits are set. */
  function LeafOutcome(e: Word): Outcome {
    if e % 4 == 3 then Output(3, e) else Fault
  }

  /** The translation of page `v` by the table rooted in frame `root`. */
  function Translate(m: seq<Word>, root: nat, v: nat): Outcome {
    Descend(m, root, 0, v)
  }

  /** Translation of a 64-bit address: the top sixteen bits select the base register. */
  function TranslateAddress(m: seq<Word>, ttbr0: nat, ttbr1: nat, va: Word): Outcome {
    if va < VA_LIMIT then Translate(m, ttbr0, Vpn(va))
    else if va >= 0xffff_0000_0000_0000 then Translate(m, ttbr1, Vpn(va))
    else Fault
  }
}
