/** What the descriptors in force mean to the hardware: memory type, shareability and access, page by page, and what
    state a new task starts in; all of it in numbers. */
module MemoryTypes {
  import opened Bits
  import opened Arch
  import opened PageTables
  import opened PaAlloc
  import opened Vm
  import opened AddressSpaces
  import opened KernelSpace
  import opened Tasks

  /** MAIR_VALUE, which configure_el3 writes to MAIR_EL1: byte 0 device memory, 1 not cached, 2 and 3 write-back. */
  const MAIR_VALUE: Word := 0xff77_4400

  /** A page descriptor as the hardware reads it: the frame, the byte of MAIR_EL1 that the index selects, shareability
      in bits 9:8, access permission in bits 7:6, the access flag in bit 10, and the bits above the address. */
  datatype Page = Page(frame: nat, memory: nat, share: nat, access: nat, flag: nat, upper: nat)

  function PageOfWord(d: Word): Page {
    Page(d / 0x1000 % 0x10_0000_0000, ByteOf(MAIR_VALUE, d / 4 % 8), d / 0x100 % 4, d / 0x40 % 4, d / 0x400 % 2,
         d / 0x1_0000_0000_0000)
  }

  /** The page that a translation leads to. */
  predicate LeadsTo(outcome: Outcome, p: Page) {
    outcome.Output? && outcome.level == 3 && PageOfWord(outcome.descriptor) == p
  }

  lemma TypeBytes()
    ensures ByteOf(MAIR_VALUE, 0) == 0 && ByteOf(MAIR_VALUE, 2) == 0x77 && ByteOf(MAIR_VALUE, 3) == 0xff
  {
    assert ByteOf(MAIR_VALUE / 256, 1) == 0x77;
    assert ByteOf(MAIR_VALUE / 256, 2) == ByteOf(0xff77, 1);
  }

  lemma FrameBits(d: Word)
    ensures FrameOf(d) == d / 0x1000 % 0x10_0000_0000
  {
    var h, r := d / VA_LIMIT, d % VA_LIMIT;
    DivUnique(d, 0x1000, h * 0x10_0000_0000 + r / 0x1000, r % 0x1000);
    DivUnique(d / 0x1000, 0x10_0000_0000, h, r / 0x1000);
  }

  /** The hardware's reading of a descriptor that mapva stores. */
  lemma PageRead(frame: nat, ind: Word, sflag: Word)
    requires frame < ADDRESS_PAGES && Attributes(ind, sflag)
    ensures LeadsTo(PageOf(frame, ind, sflag),
                    Page(frame % 0x10_0000_0000, ByteOf(MAIR_VALUE, ind / 4), sflag / 0x100, 0, 1,
                         frame / 0x10_0000_0000))
  {
    var d := PageOf(frame, ind, sflag).descriptor;
    PageReadsBack(frame, ind, sflag);
    FrameBits(d);
    hide ByteOf, Attributes, PageOf;
    DivUnique(d / 0x400, 2, d / 0x400 / 4 * 2, 1);
  }

  /** The three kinds of pages there are. */
  lemma PagesRead(frame: nat)
    requires frame < ADDRESS_PAGES
    ensures Attributes(0, 0) && Attributes(8, 0) && Attributes(12, 0x300)
    ensures LeadsTo(PageOf(frame, 0, 0), Page(frame % 0x10_0000_0000, 0x00, 0, 0, 1, frame / 0x10_0000_0000))
    ensures LeadsTo(PageOf(frame, 8, 0), Page(frame % 0x10_0000_0000, 0x77, 0, 0, 1, frame / 0x10_0000_0000))
    ensures LeadsTo(PageOf(frame, 12, 0x300), Page(frame % 0x10_0000_0000, 0xff, 3, 0, 1, frame / 0x10_0000_0000))
  {
    hide ByteOf, PageOf, PageOfWord, LeadsTo;
    TypeBytes();
    PageRead(frame, 0, 0);
    PageRead(frame, 8, 0);
    PageRead(frame, 12, 0x300);
  }

  // ----- The kernel's address space -----

  /** A page of the shared data, of low memory, of the devices. */
  predicate SharedPage(l: Layout, v: nat) {
    l.sharedBegin <= v * 0x1000 < l.sharedEnd
  }

  predicate LowPage(v: nat) {
    v * 0x1000 < 0x3000_0000
  }

  predicate DevicePage(v: nat) {
    0xfc00_0000 <= v * 0x1000 < 0x1_0000_0000
  }

  /** A stack, or the data of a core, at the top of the address space. */
  predicate CorePage(v: nat) {
    v * 0x1000 in {0xffff_ffff_0000, 0xffff_ffff_2000, 0xffff_ffff_4000, 0xffff_ffff_6000,
                   0xffff_ffff_b000, 0xffff_ffff_c000, 0xffff_ffff_d000, 0xffff_ffff_e000}
  }

  lemma KernelFrames(l: Layout)
    requires LaidOut(l)
    ensures l.kstack1 / 0x1000 + 4 <= 0x30000 && l.cpus / 0x1000 + 4 <= 0x30000
    ensures l.sharedBegin % 0x1000 == l.sharedEnd % 0x1000 == 0 && l.sharedEnd <= 0x3000_0000
  {}

  lemma KernelWords(l: Layout, v: nat)
    requires LaidOut(l) && v < 0x10_0000_0000
    ensures SharedPage(l, v) ==> KernelMap(l, v) == PageOf(v, 12, 0x300)
    ensures LowPage(v) && !SharedPage(l, v) ==> KernelMap(l, v) == PageOf(v, 8, 0)
    ensures DevicePage(v) ==> KernelMap(l, v) == PageOf(v, 0, 0)
    ensures !LowPage(v) && !DevicePage(v) && !CorePage(v) ==> KernelMap(l, v) == Fault
  {
    hide PageOf;
    KernelFrames(l);
  }

  /** With the kernel's map in force low memory is write-back memory at its own address and not shareable, except the
      shared data, which is inner shareable; the peripherals are device memory; and but for the pages of the cores at
      the top nothing else is mapped. */
  lemma KernelPages(m: seq<Word>, l: Layout, v: nat)
    requires LaidOut(l) && KernelMapped(m, l) && v < 0x10_0000_0000
    ensures var t := Translate(m, l.kpgtbl / 0x1000, v);
      && (SharedPage(l, v) ==> LeadsTo(t, Page(v, 0xff, 3, 0, 1, 0)))
      && (LowPage(v) && !SharedPage(l, v) ==> LeadsTo(t, Page(v, 0x77, 0, 0, 1, 0)))
      && (DevicePage(v) ==> LeadsTo(t, Page(v, 0x00, 0, 0, 1, 0)))
      && (!LowPage(v) && !DevicePage(v) && !CorePage(v) ==> t == Fault)
  {
    hide LaidOut, KernelMapped, KernelMap, Translate, PageOf, LeadsTo, CorePage, SharedPage, LowPage, DevicePage,
      Attributes;
    KernelOf(m, l, v);
    KernelWords(l, v);
    PagesRead(v);
  }

  lemma KernelOf(m: seq<Word>, l: Layout, v: nat)
    requires LaidOut(l) && KernelMapped(m, l) && v < 0x10_0000_0000
    ensures Translate(m, l.kpgtbl / 0x1000, v) == KernelMap(l, v)
  {
    hide LaidOut, KernelMap, Translate;
    assert Translate(m, l.kpgtbl / PAGE_SIZE, v) == KernelMap(l, v);
  }

  lemma CoreWords(l: Layout, c: nat)
    requires LaidOut(l) && c < 4
    ensures l.kstack1 / 0x1000 + c < ADDRESS_PAGES && l.cpus / 0x1000 + c < ADDRESS_PAGES
    ensures KernelMap(l, 0xf_ffff_fff0 + 2 * c) == PageOf(l.kstack1 / 0x1000 + c, 8, 0)
    ensures KernelMap(l, 0xf_ffff_fffb + c) == PageOf(l.cpus / 0x1000 + c, 8, 0)
  {
    hide PageOf;
    KernelFrames(l);
  }

  lemma CoreAddresses(c: nat)
    requires c < 4
    ensures (0xffff_ffff_0000 + 0x2000 * c) / 0x1000 == 0xf_ffff_fff0 + 2 * c
    ensures (0xffff_ffff_b000 + 0x1000 * c) / 0x1000 == 0xf_ffff_fffb + c
    ensures PgHeader(0xffff_ffff_0000 + 0x2000 * c) == 0xffff_ffff_0000 + 0x2000 * c + 0xff8
    ensures (0xffff_ffff_0000 + 0x2000 * c + 0xff8) / 0x1000 == 0xf_ffff_fff0 + 2 * c
  {
    hide PgHeader;
    HeaderOfPage(0xf_ffff_fff0 + 2 * c);
  }

  /** Each of four cores has a stack page and a page of data of its own, and its initial stack pointer lies at the last
      word of that stack page. */
  lemma CorePages(m: seq<Word>, l: Layout, c: nat)
    requires LaidOut(l) && KernelMapped(m, l) && c < 4
    ensures var root, stack, data := l.kpgtbl / 0x1000, 0xffff_ffff_0000 + 0x2000 * c, 0xffff_ffff_b000 + 0x1000 * c;
      && LeadsTo(Translate(m, root, stack / 0x1000), Page(l.kstack1 / 0x1000 + c, 0x77, 0, 0, 1, 0))
      && LeadsTo(Translate(m, root, data / 0x1000), Page(l.cpus / 0x1000 + c, 0x77, 0, 0, 1, 0))
      && PgHeader(stack) / 0x1000 == stack / 0x1000 && PgHeader(stack) % 0x1000 == 0xff8
  {
    hide LaidOut, KernelMapped, KernelMap, Translate, ByteOf, PageOf, PageOfWord, LeadsTo, PgHeader;
    CoreAddresses(c);
    KernelOf(m, l, 0xf_ffff_fff0 + 2 * c);
    KernelOf(m, l, 0xf_ffff_fffb + c);
    KernelFrames(l);
    CoreWords(l, c);
    PagesRead(l.kstack1 / 0x1000 + c);
    PagesRead(l.cpus / 0x1000 + c);
  }

  // ----- The address space of a task -----

  /** A task sees its trapframe and its stack, the trampoline at its own addresses, and behind it five pages from where
      its code is, all of them write-back memory that EL0 has no data access to; and nothing else. */
  lemma TaskSees(m: seq<Word>, l: Layout, a: Alive, v: nat)
    requires LaidOut(l) && Shows(m, l, a) && v < 0x10_0000_0000
    ensures var t, first, last := Translate(m, a.root, v), l.vecStart, l.vecEnd;
      && (v * 0x1000 == 0x7999_9000 ==> LeadsTo(t, Page(a.trapframe, 0x77, 0, 0, 1, 0)))
      && (v * 0x1000 == 0x7999_5000 ==> LeadsTo(t, Page(a.stack, 0x77, 0, 0, 1, 0)))
      && (first <= v * 0x1000 < last ==> LeadsTo(t, Page(v, 0x77, 0, 0, 1, 0)))
      && (last <= v * 0x1000 < last + 0x5000 ==>
            LeadsTo(t, CodePage(a.code + (v - last / 0x1000))))
      && (!(v * 0x1000 in {0x7999_9000, 0x7999_5000} || first <= v * 0x1000 < last + 0x5000) ==> t == Fault)
  {
    hide LaidOut, UserMap, Translate, PageOf, LeadsTo, Attributes;
    UserWords(l, a, v);
    assert Translate(m, a.root, v) == UserMap(l, a.code, a.trapframe, a.stack, v);
    PagesRead(a.trapframe);
    PagesRead(a.stack);
    PagesRead(v);
    if l.vecEnd <= v * 0x1000 < l.vecEnd + 0x5000 {
      PagesRead(a.code + (v - l.vecEnd / 0x1000));
    }
  }

  /** A page of code; the top sixteen bits of its address are taken for attributes. */
  function CodePage(frame: nat): Page {
    Page(frame % 0x10_0000_0000, 0x77, 0, 0, 1, frame / 0x10_0000_0000)
  }

  lemma UserWords(l: Layout, a: Alive, v: nat)
    requires LaidOut(l) && a.code + 5 <= ADDRESS_PAGES && a.trapframe < FRAME_LIMIT && a.stack < FRAME_LIMIT
    requires v < 0x10_0000_0000
    ensures var u, first, last := UserMap(l, a.code, a.trapframe, a.stack, v), l.vecStart, l.vecEnd;
      && (v * 0x1000 == 0x7999_9000 ==> u == PageOf(a.trapframe, 8, 0))
      && (v * 0x1000 == 0x7999_5000 ==> u == PageOf(a.stack, 8, 0))
      && (first <= v * 0x1000 < last ==> u == PageOf(v, 8, 0))
      && (last <= v * 0x1000 < last + 0x5000 ==>
            && v >= last / 0x1000 && a.code + (v - last / 0x1000) < ADDRESS_PAGES
            && u == PageOf(a.code + (v - last / 0x1000), 8, 0))
      && (!(v * 0x1000 in {0x7999_9000, 0x7999_5000} || first <= v * 0x1000 < last + 0x5000) ==> u == Fault)
  {
    hide PageOf;
    UserBounds(l);
  }

  lemma UserBounds(l: Layout)
    requires LaidOut(l)
    ensures l.vecStart % 0x1000 == l.vecEnd % 0x1000 == 0 && l.vecStart < l.vecEnd < 0x3000_0000
  {}

  lemma CreatedTask(m: seq<Word>, o: Ownership, m2: seq<Word>, o2: Ownership, l: Layout, main: Word)
    requires LaidOut(l) && Creation(m, o, m2, o2, l, main, true)
    ensures NewTask(m2, o, o2, l, TaskPages(o, main))
  {
    hide LaidOut, NewTask, Created, PagesOfTask, TaskPages;
  }

  /** What the three words are. */
  lemma FirstWords(m: seq<Word>, l: Layout, p: nat)
    requires TrapframeSet(m, l, p)
    ensures InMemory(m, p) && Slot(m, p, 31) == 0x7999_5ff8 && Slot(m, p, 32) == l.vecEnd
    ensures Slot(m, p, 33) % 0x20 == 0 && Slot(m, p, 33) / 0x40 % 0x10 == 0
  {
    hide PgHeader;
    HeaderOfPage(0x79995);
    StatusBits();
  }

  lemma StatusBits()
    ensures EL0T_INTR_ON % 0x20 == 0 && EL0T_INTR_ON / 0x40 % 0x10 == 0
  {}

  lemma HeaderOfPage(p: nat)
    requires p < 0x10_0000_0000
    ensures PgHeader(p * 0x1000) == p * 0x1000 + 0xff8
  {
    hide And;
    DivUnique(p * 0x1000 + 0xff8, 8, p * 0x200 + 0x1ff, 0);
  }

  /** The state a task starts in, as its trapframe page holds it after a successful creation, in words 31, 32 and 33:
      the stack pointer is the last word of the page that is its stack; the first instruction is the first of its code,
      and the four pages behind it are mapped too; and it starts at EL0 with its own stack pointer and no interrupt
      masked. */
  lemma TaskStarts(m: seq<Word>, o: Ownership, m2: seq<Word>, o2: Ownership, l: Layout, main: Word)
    requires LaidOut(l) && Creation(m, o, m2, o2, l, main, true)
    ensures var a := TaskPages(o, main);
      && InMemory(m2, a.trapframe) && a.trapframe in o2.held && a.stack in o2.held && a.trapframe != a.stack
      && Starts(m2, a, Slot(m2, a.trapframe, 31), Slot(m2, a.trapframe, 32), Slot(m2, a.trapframe, 33))
  {
    var a := TaskPages(o, main);
    hide LaidOut, Shows, TaskPages, Translate, Creation, LeadsTo, TrapframeSet, CodePage;
    CreatedTask(m, o, m2, o2, l, main);
    FirstWords(m2, l, a.trapframe);
    TaskSees(m2, l, a, 0x79995);
    UserBounds(l);
    forall i: nat | i < 5
      ensures CodeAt(m2, a, l.vecEnd, i)
    {
      TaskSees(m2, l, a, l.vecEnd / 0x1000 + i);
      assert (l.vecEnd + i * 0x1000) / 0x1000 == l.vecEnd / 0x1000 + i;
    }
  }

  /** Page `i` of the code, counted from where the task starts. */
  predicate CodeAt(m: seq<Word>, a: Alive, pc: Word, i: nat) {
    && pc + i * 0x1000 < 0x1_0000_0000_0000
    && LeadsTo(Translate(m, a.root, (pc + i * 0x1000) / 0x1000), CodePage(a.code + i))
  }

  ghost predicate Starts(m: seq<Word>, a: Alive, sp: Word, pc: Word, status: Word) {
    && status % 0x20 == 0 && status / 0x40 % 0x10 == 0
    && pc % 0x1000 == 0 && (forall i: nat :: i < 5 ==> CodeAt(m, a, pc, i))
    && sp % 0x1000 == 0xff8 && sp < 0x1_0000_0000_0000
    && LeadsTo(Translate(m, a.root, sp / 0x1000), Page(a.stack, 0x77, 0, 0, 1, 0))
  }

  // ----- Both halves of the address space -----

  /** While a task runs its root is in the lower base register and the kernel's in the upper: addresses below 2^48 are
      the task's, those whose top sixteen bits are all set are the kernel's without these bits, and no others are
      mapped. So the kernel finds its own map there whichever task was interrupted. */
  lemma BothHalves(m: seq<Word>, l: Layout, a: Alive, va: Word)
    requires LaidOut(l) && KernelMapped(m, l) && Shows(m, l, a)
    ensures var outcome := TranslateAddress(m, a.root, l.kpgtbl / 0x1000, va);
      if va < 0x1_0000_0000_0000 then outcome == UserMap(l, a.code, a.trapframe, a.stack, va / 0x1000)
      else if va >= 0xffff_0000_0000_0000 then outcome == KernelMap(l, (va - 0xffff_0000_0000_0000) / 0x1000)
      else outcome == Fault
  {
    hide LaidOut, Translate, UserMap, KernelMap;
    HalfOf(va);
    if va < 0x1_0000_0000_0000 {
      assert Translate(m, a.root, Vpn(va)) == UserMap(l, a.code, a.trapframe, a.stack, Vpn(va));
    } else if va >= 0xffff_0000_0000_0000 {
      KernelOf(m, l, Vpn(va));
    }
  }

  lemma HalfOf(va: Word)
    ensures va < 0x1_0000_0000_0000 ==> Vpn(va) == va / 0x1000
    ensures va >= 0xffff_0000_0000_0000 ==> Vpn(va) == (va - 0xffff_0000_0000_0000) / 0x1000
  {
    if va >= 0xffff_0000_0000_0000 {
      DivUnique(va, 0x1_0000_0000_0000, 0xffff, va - 0xffff_0000_0000_0000);
    }
  }
}
