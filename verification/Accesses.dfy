/** walk and mapva as the memory accesses they make, with the MMU off and with it on. */
module Accesses {
  import opened Bits
  import opened Arch

  /** Whether an address is used as it is, or goes through the tables rooted in frame `kernel`. */
  datatype Mmu = Off | On(kernel: nat)

  /** What an access gives; one whose address is not mapped, or lies outside memory, ends in a data abort. */
  datatype Access<T> = Abort | Done(value: T)

  /** The constant that ends the free list, and where the head of the list and its lock lie in the kernel's data. */
  datatype Globals = Globals(terminal: Word, headAt: Word, lockAt: Word)

  /** What the code works on: memory, and the head of the free list. */
  datatype Ram = Ram(words: seq<Word>, head: Word)

  /** Pointer arithmetic, modulo 2^64. */
  function Plus(a: Word, b: nat): (r: Word)
    ensures a + b < 0x1_0000_0000_0000_0000 ==> r == a + b
  {
    (a + b) % 0x1_0000_0000_0000_0000
  }

  /** Where `a` lies in the page, or the block of level 2 or 1, that a descriptor maps. */
  function OutputAddress(level: nat, d: Word, a: Word): nat {
    if level == 3 then d % VA_LIMIT / 0x1000 * 0x1000 + a % 0x1000
    else if level == 2 then d % VA_LIMIT / 0x20_0000 * 0x20_0000 + a % 0x20_0000
    else d % VA_LIMIT / 0x4000_0000 * 0x4000_0000 + a % 0x4000_0000
  }

  /** The physical address an access to `a` reaches. */
  function Physical(m: seq<Word>, mmu: Mmu, a: Word): Access<nat> {
    match mmu
    case Off => Done(a)
    case On(kernel) =>
      match TranslateAddress(m, kernel, kernel, a)
      case Fault => Abort
      case Output(level, d) => Done(OutputAddress(level, d, a))
  }

  function Load(m: seq<Word>, mmu: Mmu, a: Word): Access<Word> {
    match Physical(m, mmu, a)
    case Abort => Abort
    case Done(p) => if p / 8 < |m| then Done(m[p / 8]) else Abort
  }

  function Store(m: seq<Word>, mmu: Mmu, a: Word, w: Word): Access<seq<Word>> {
    match Physical(m, mmu, a)
    case Abort => Abort
    case Done(p) => if p / 8 < |m| then Done(m[p / 8 := w]) else Abort
  }

  /** Memory with the byte at `a` zeroed. */
  function ZeroByte(m: seq<Word>, a: nat): seq<Word>
    requires a / 8 < |m|
  {
    m[a / 8 := ZeroBytes(m[a / 8], a % 8, a % 8 + 1)]
  }

  /** A zero stored to one byte. */
  function StoreZero(m: seq<Word>, mmu: Mmu, a: Word): Access<seq<Word>> {
    match Physical(m, mmu, a)
    case Abort => Abort
    case Done(p) => if p / 8 < |m| then Done(ZeroByte(m, p)) else Abort
  }

  /** The stores that zero a page, from byte `i` on. */
  function ZeroFrom(m: seq<Word>, mmu: Mmu, page: Word, i: nat): Access<seq<Word>>
    requires i <= 0x1000
    decreases 0x1000 - i
  {
    if i == 0x1000 then Done(m)
    else match StoreZero(m, mmu, Plus(page, i))
      case Abort => Abort
      case Done(m2) => ZeroFrom(m2, mmu, page, i + 1)
  }

  /** An access to a variable of the kernel reaches that variable. */
  predicate Reaches(m: seq<Word>, mmu: Mmu, a: Word) {
    Physical(m, mmu, a) == Done(a)
  }

  predicate ReachesList(m: seq<Word>, mmu: Mmu, g: Globals) {
    Reaches(m, mmu, g.headAt) && Reaches(m, mmu, g.lockAt)
  }

  /** get_page: the page, or 0. */
  function TakeOn(mmu: Mmu, s: Ram, g: Globals): Access<(Ram, Word)> {
    if !ReachesList(s.words, mmu, g) then Abort
    else if s.head == g.terminal then Done((s, 0))
    else match Load(s.words, mmu, s.head)
      case Abort => Abort
      case Done(next) => Done((s.(head := next), s.head))
  }

  /** free_page: whether there was a page to free. */
  function FreeOn(mmu: Mmu, s: Ram, g: Globals, page: Word): Access<(Ram, bool)> {
    if page == 0 then Done((s, false))
    else if !ReachesList(s.words, mmu, g) then Abort
    else match Store(s.words, mmu, page, s.head)
      case Abort => Abort
      case Done(m2) => if ReachesList(m2, mmu, g) then Done((Ram(m2, page), true)) else Abort
  }

  /** One turn of the loop of walk: on to the table below, or return. */
  datatype Turn = Down(ram: Ram, table: Word) | Return(ram: Ram, pte: Word)

  /** The branch that makes a new table. */
  function GrowOn(mmu: Mmu, s: Ram, g: Globals, pte: Word): Access<Turn> {
    match TakeOn(mmu, s, g)
    case Abort => Abort
    case Done((s1, page)) =>
      if page == 0 || page % PAGE_SIZE != 0 then Done(Return(s1, 1))
      else match ZeroFrom(s1.words, mmu, page, 0)
        case Abort => Abort
        case Done(m1) =>
          match Store(m1, mmu, pte, TableEntry(page))
          case Abort => Abort
          case Done(m2) => Done(Down(Ram(m2, s1.head), page))
  }

  function TurnOn(mmu: Mmu, s: Ram, g: Globals, table: Word, va: Word, level: nat, alloc: bool): Access<Turn>
    requires level < 3
  {
    var pte := Plus(table, 8 * VaPtblInd(va, level));
    match Load(s.words, mmu, pte)
    case Abort => Abort
    case Done(e) =>
      if e % 2 == 1 then Done(Down(s, DaAddr(e)))
      else if !alloc then Done(Return(s, 0))
      else GrowOn(mmu, s, g, pte)
  }

  /** walk, from the table of `level` on. */
  function WalkOn(mmu: Mmu, s: Ram, g: Globals, table: Word, va: Word, level: nat, alloc: bool): Access<(Ram, Word)>
    requires level <= 3
    decreases 3 - level
  {
    if level == 3 then Done((s, Plus(table, 8 * VaPtblInd(va, 3))))
    else match TurnOn(mmu, s, g, table, va, level, alloc)
      case Abort => Abort
      case Done(Return(s2, pte)) => Done((s2, pte))
      case Done(Down(s2, next)) => WalkOn(mmu, s2, g, next, va, level + 1, alloc)
  }

  /** mapva: 0, or -1 when walk gives no entry; rounded addresses are aligned. */
  function MapOn(mmu: Mmu, s: Ram, g: Globals, pgtbl: Word, va: Word, pa: Word,
                 ind: Word, sflag: Word, flags: Word): Access<(Ram, int)>
  {
    if PgRoundDown(va) % PAGE_SIZE != 0 || PgRoundDown(pa) % PAGE_SIZE != 0 then Done((s, -3))
    else match WalkOn(mmu, s, g, pgtbl, PgRoundDown(va), 0, true)
    case Abort => Abort
    case Done((s2, pte)) =>
      if pte == 0 || pte == 1 then Done((s2, -1))
      else match Store(s2.words, mmu, pte, LeafWord(PgRoundDown(pa), flags, ind, sflag))
        case Abort => Abort
        case Done(m3) => Done((Ram(m3, s2.head), 0))
  }

  /** A loop of mapva over the pages from `va` to `end`, up to the first failure. */
  function MapRangeOn(mmu: Mmu, s: Ram, g: Globals, pgtbl: Word, va: nat, end: Word, pa: Word,
                      ind: Word, sflag: Word): Access<(Ram, int)>
    decreases end - va
  {
    if va >= end then Done((s, 0))
    else match MapOn(mmu, s, g, pgtbl, va, pa, ind, sflag, VALID_PAGE)
      case Abort => Abort
      case Done((s2, res)) =>
        if res < 0 then Done((s2, res))
        else MapRangeOn(mmu, s2, g, pgtbl, va + 0x1000, end, Plus(pa, 0x1000), ind, sflag)
  }

  /** get_page, and the stores that zero what it returned. */
  function DrawOn(mmu: Mmu, s: Ram, g: Globals): Access<(Ram, Word)> {
    match TakeOn(mmu, s, g)
    case Abort => Abort
    case Done((s1, page)) =>
      match ZeroFrom(s1.words, mmu, page, 0)
      case Abort => Abort
      case Done(m2) => Done((Ram(m2, s1.head), page))
  }

  // ----- With the MMU off -----

  /** With the MMU on an access goes where the descriptor of its page, or of its 2MB or 1GB block, leads, at the same
      place within it; and one whose address is not mapped aborts. */
  lemma AccessesTranslated(m: seq<Word>, kernel: nat, a: Word, w: Word)
    ensures match TranslateAddress(m, kernel, kernel, a)
      case Fault =>
        Load(m, On(kernel), a) == Abort && Store(m, On(kernel), a, w) == Abort && StoreZero(m, On(kernel), a) == Abort
      case Output(level, d) =>
        var span := if level == 3 then 0x1000 else if level == 2 then 0x20_0000 else 0x4000_0000;
        var p := OutputAddress(level, d, a);
        && p % span == a % span && p / span == d % 0x1_0000_0000_0000 / span
        && Load(m, On(kernel), a) == (if p / 8 < |m| then Done(m[p / 8]) else Abort)
        && Store(m, On(kernel), a, w) == (if p / 8 < |m| then Done(m[p / 8 := w]) else Abort)
  {
    hide ZeroByte;
  }

  /** get_page and free_page touch the head of the list and the lock, so they abort where these are not mapped. */
  lemma ListUnmapped(m: seq<Word>, kernel: nat, head: Word, g: Globals, page: Word)
    requires TranslateAddress(m, kernel, kernel, g.headAt) == Fault
          || TranslateAddress(m, kernel, kernel, g.lockAt) == Fault
    ensures TakeOn(On(kernel), Ram(m, head), g) == Abort
    ensures page != 0 ==> FreeOn(On(kernel), Ram(m, head), g, page) == Abort
  {}

  /** How many of the eight bytes of a word lie before a place `n` bytes from its start. */
  function Cut(n: int): (k: nat)
    ensures k <= 8
  {
    if n < 0 then 0 else if n > 8 then 8 else n
  }

  /** Memory after zeros are stored to the bytes from `start` to `end - 1`. */
  predicate RangeZeroed(m: seq<Word>, m2: seq<Word>, start: nat, end: nat)
    requires start <= end
  {
    |m2| == |m| && forall j :: 0 <= j < |m| ==> m2[j] == ZeroBytes(m[j], Cut(start - 8 * j), Cut(end - 8 * j))
  }

  lemma NothingZeroed(m: seq<Word>, start: nat)
    ensures RangeZeroed(m, m, start, start)
  {
    forall j | 0 <= j < |m|
      ensures m[j] == ZeroBytes(m[j], Cut(start - 8 * j), Cut(start - 8 * j))
    {
      ZeroNoBytes(m[j], Cut(start - 8 * j));
    }
  }

  lemma EmptyRange(m: seq<Word>, m2: seq<Word>, start: nat)
    requires RangeZeroed(m, m2, start, start)
    ensures m2 == m
  {
    NothingZeroed(m, start);
  }

  /** Zeroing up to one place and from there to another. */
  lemma RangeThen(m: seq<Word>, m2: seq<Word>, m3: seq<Word>, start: nat, mid: nat, end: nat)
    requires start <= mid <= end && RangeZeroed(m, m2, start, mid)
    ensures RangeZeroed(m2, m3, mid, end) <==> RangeZeroed(m, m3, start, end)
  {
    forall j | 0 <= j < |m|
      ensures ZeroBytes(m2[j], Cut(mid - 8 * j), Cut(end - 8 * j)) ==
        ZeroBytes(m[j], Cut(start - 8 * j), Cut(end - 8 * j))
    {
      ZeroBytesThen(m[j], Cut(start - 8 * j), Cut(mid - 8 * j), Cut(end - 8 * j));
    }
  }

  /** One byte. */
  lemma ByteZeroed(m: seq<Word>, a: nat)
    requires a / 8 < |m|
    ensures RangeZeroed(m, ZeroByte(m, a), a, a + 1)
  {
    forall j | 0 <= j < |m| && j != a / 8
      ensures m[j] == ZeroBytes(m[j], Cut(a - 8 * j), Cut(a + 1 - 8 * j))
    {
      ZeroNoBytes(m[j], Cut(a - 8 * j));
    }
  }

  /** Whole words become 0. */
  lemma WordsZeroed(m: seq<Word>, m2: seq<Word>, start: nat, end: nat)
    requires start <= end && start % 8 == 0 && end % 8 == 0
    ensures RangeZeroed(m, m2, start, end) <==>
      |m2| == |m| && forall j :: 0 <= j < |m| ==> m2[j] == if start / 8 <= j < end / 8 then 0 else m[j]
  {
    forall j | 0 <= j < |m|
      ensures ZeroBytes(m[j], Cut(start - 8 * j), Cut(end - 8 * j)) == if start / 8 <= j < end / 8 then 0 else m[j]
    {
      ZeroAllBytes(m[j]);
      ZeroNoBytes(m[j], 0);
      ZeroNoBytes(m[j], 8);
    }
  }

  lemma ZeroStep(m: seq<Word>, mmu: Mmu, page: Word, i: nat, m2: seq<Word>)
    requires i < 0x1000 && StoreZero(m, mmu, Plus(page, i)) == Done(m2)
    ensures ZeroFrom(m, mmu, page, i) == ZeroFrom(m2, mmu, page, i + 1)
  {
    hide StoreZero;
  }

  lemma ZeroEnd(m: seq<Word>, mmu: Mmu, page: Word)
    ensures ZeroFrom(m, mmu, page, 0x1000) == Done(m)
  {}

  /** The first of the stores, and what the others still have to do. */
  lemma FirstStore(m: seq<Word>, m2: seq<Word>, page: Word, i: nat) returns (m1: seq<Word>)
    requires i < 0x1000 && page % PAGE_SIZE == 0 && (page + 0x1000) / 8 <= |m|
    requires RangeZeroed(m, m2, page + i, page + 0x1000)
    ensures StoreZero(m, Off, Plus(page, i)) == Done(m1) && |m1| == |m|
    ensures RangeZeroed(m1, m2, page + (i + 1), page + 0x1000)
  {
    hide RangeZeroed, StoreZero, Plus;
    var a := page + i;
    StoredByte(m, page, i);
    m1 := ZeroByte(m, a);
    hide ZeroByte;
    ByteZeroed(m, a);
    RangeThen(m, m1, m2, a, a + 1, page + 0x1000);
  }

  lemma StoredByte(m: seq<Word>, page: Word, i: nat)
    requires i < 0x1000 && page % PAGE_SIZE == 0 && (page + 0x1000) / 8 <= |m|
    ensures (page + i) / 8 < |m| && StoreZero(m, Off, Plus(page, i)) == Done(ZeroByte(m, page + i))
  {
    hide ZeroByte;
    PageByteInside(m, page, i);
    hide Plus;
  }

  lemma PageByteInside(m: seq<Word>, page: Word, i: nat)
    requires i < 0x1000 && page % PAGE_SIZE == 0 && (page + 0x1000) / 8 <= |m|
    ensures (page + i) / 8 < |m| && Plus(page, i) == page + i
  {
    var p := page / PAGE_SIZE;
    assert page == p * 0x1000;
    DivUnique(page + 0x1000, 8, p * 512 + 512, 0);
    DivUnique(page + i, 8, p * 512 + i / 8, i % 8);
    PageEnd(page, p);
  }

  lemma PageEnd(page: Word, p: nat)
    requires page == p * 0x1000
    ensures page + 0x1000 <= 0x1_0000_0000_0000_0000
  {}

  /** The stores zero the rest of the page and nothing else. */
  lemma {:induction false} ZeroOff(m: seq<Word>, m2: seq<Word>, page: Word, i: nat)
    requires i <= 0x1000 && page % PAGE_SIZE == 0 && (page + 0x1000) / 8 <= |m|
    requires RangeZeroed(m, m2, page + i, page + 0x1000)
    ensures ZeroFrom(m, Off, page, i) == Done(m2)
    decreases 0x1000 - i
  {
    hide *;
    if i == 0x1000 {
      EmptyRange(m, m2, page + 0x1000);
      ZeroEnd(m, Off, page);
    } else {
      var m1 := FirstStore(m, m2, page, i);
      ZeroStep(m, Off, page, i, m1);
      ZeroOff(m1, m2, page, i + 1);
    }
  }
}
