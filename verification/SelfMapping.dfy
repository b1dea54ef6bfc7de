/** The kernel runs on its own tables: what the kernel map means for the code that builds tables. */
module SelfMapping {
  import opened Bits
  import opened Accesses
  import opened Arch
  import opened PageTables
  import opened PaAlloc
  import opened Vm
  import opened KernelSpace

  /** Below the video memory the kernel map is the identity, wherever the linker put the kernel. */
  lemma IdentityBelow(l: Layout, v: nat)
    requires LaidOut(l) && v < 0x30000
    ensures KernelMap(l, v).Output? && KernelMap(l, v).level == 3 && FrameOf(KernelMap(l, v).descriptor) == v
  {
    DivUnique(v * PAGE_SIZE + 0x70f, PAGE_SIZE, v, 0x70f);
    DivUnique(v * PAGE_SIZE + 0x40b, PAGE_SIZE, v, 0x40b);
  }

  // ----- The code that builds tables, run through them -----

  /** Every page the kernel has for tables lies below the video memory. */
  ghost predicate BelowVideo(o: Ownership) {
    (forall p :: p in o.pool ==> p < 0x30000) && forall n :: n in o.tables ==> o.tables[n] < 0x30000
  }

  predicate LowGlobals(g: Globals) {
    g.headAt < MEM_TMP_END && g.lockAt < MEM_TMP_END
  }

  /** The state the kernel keeps once its own map is in force. */
  ghost predicate Ready(m: seq<Word>, head: Word, g: Globals, o: Ownership, l: Layout)
    requires LaidOut(l)
  {
    && State(m, head, g.terminal, o) && KernelMapped(m, l) && Root(l.kpgtbl / PAGE_SIZE) in o.tables && BelowVideo(o)
    && LowGlobals(g)
  }

  /** The MMU as configure_el3 sets it: both base registers hold the kernel's root. */
  function KernelMmu(l: Layout): Mmu {
    On(l.kpgtbl / PAGE_SIZE)
  }

  lemma OwnAddress(d: Word, a: Word)
    requires FrameOf(d) == a / PAGE_SIZE
    ensures OutputAddress(3, d, a) == a
  {}

  /** The kernel map takes low addresses to themselves. */
  lemma SameAddress(m: seq<Word>, l: Layout, a: Word)
    requires LaidOut(l) && KernelMapped(m, l) && a < MEM_TMP_END
    ensures Physical(m, KernelMmu(l), a) == Done(a)
  {
    var v: nat := a / PAGE_SIZE;
    LowVpn(a);
    IdentityBelow(l, v);
    hide LaidOut, KernelMap, Translate, OutputAddress, FrameOf, Vpn;
    assert Translate(m, l.kpgtbl / PAGE_SIZE, v) == KernelMap(l, v);
    OwnAddress(KernelMap(l, v).descriptor, a);
  }

  lemma LowVpn(a: Word)
    requires a < MEM_TMP_END
    ensures a / PAGE_SIZE < 0x30000 && Vpn(a) == a / PAGE_SIZE
  {}

  lemma SameAccess(m: seq<Word>, l: Layout, a: Word, w: Word)
    requires LaidOut(l) && KernelMapped(m, l) && a < MEM_TMP_END
    ensures Load(m, KernelMmu(l), a) == Load(m, Off, a) && Store(m, KernelMmu(l), a, w) == Store(m, Off, a, w)
  {
    SameAddress(m, l, a);
    hide LaidOut, KernelMapped;
  }

  lemma StillMapped(m: seq<Word>, m2: seq<Word>, t: Tables, l: Layout)
    requires LaidOut(l) && KernelMapped(m, l) && SameTranslation(m, m2, t) && Root(l.kpgtbl / PAGE_SIZE) in t
    ensures KernelMapped(m2, l)
  {
    hide LaidOut, KernelMap, Translate;
  }

  lemma PageByte(m: seq<Word>, page: Word, i: nat)
    requires page % PAGE_SIZE == 0 && page < MEM_TMP_END && i < 0x1000 && InMemory(m, page / PAGE_SIZE)
    ensures page + i < MEM_TMP_END && (page + i) / 8 < |m| && Plus(page, i) == page + i
  {}

  lemma OffAddress(m: seq<Word>, a: Word)
    ensures Physical(m, Off, a) == Done(a)
  {}

  lemma PageByteZeroed(m: seq<Word>, page: Word, i: nat)
    requires page % PAGE_SIZE == 0 && i < 0x1000 && InMemory(m, page / PAGE_SIZE)
    ensures (page + i) / 8 < |m| && Elsewhere(m, ZeroByte(m, page + i), page / PAGE_SIZE)
    ensures |ZeroByte(m, page + i)| == |m|
  {
    hide ZeroBytes;
  }

  /** A low page of memory that is no table. */
  predicate SparePage(m: seq<Word>, t: Tables, page: Word) {
    page % PAGE_SIZE == 0 && page < MEM_TMP_END && page / PAGE_SIZE !in t.Values && InMemory(m, page / PAGE_SIZE)
  }

  /** One of the stores. */
  lemma StoreThroughMmu(m: seq<Word>, l: Layout, t: Tables, page: Word, i: nat) returns (m2: seq<Word>)
    requires LaidOut(l) && KernelMapped(m, l) && Forest(m, t) && Root(l.kpgtbl / PAGE_SIZE) in t
    requires SparePage(m, t, page) && i < 0x1000
    ensures StoreZero(m, KernelMmu(l), Plus(page, i)) == Done(m2) && StoreZero(m, Off, Plus(page, i)) == Done(m2)
    ensures Forest(m2, t) && KernelMapped(m2, l) && SparePage(m2, t, page)
  {
    hide LaidOut, KernelMapped, Forest, SameTranslation, Elsewhere, StoreZero, SparePage, ZeroByte, Plus;
    var p := page / PAGE_SIZE;
    SpareByte(m, l, t, page, i);
    m2 := ZeroByte(m, page + i);
    WriteOutside(m, m2, t, p);
    StillMapped(m, m2, t, l);
  }

  lemma InMemoryKept(m: seq<Word>, m2: seq<Word>, p: nat)
    requires InMemory(m, p) && |m2| == |m|
    ensures InMemory(m2, p)
  {}

  lemma SpareByte(m: seq<Word>, l: Layout, t: Tables, page: Word, i: nat)
    requires LaidOut(l) && KernelMapped(m, l) && SparePage(m, t, page) && i < 0x1000
    ensures (page + i) / 8 < |m| && page / PAGE_SIZE !in t.Values
    ensures StoreZero(m, KernelMmu(l), Plus(page, i)) == Done(ZeroByte(m, page + i))
    ensures StoreZero(m, Off, Plus(page, i)) == Done(ZeroByte(m, page + i))
    ensures Elsewhere(m, ZeroByte(m, page + i), page / PAGE_SIZE) && SparePage(ZeroByte(m, page + i), t, page)
  {
    hide LaidOut, KernelMapped, Elsewhere, KernelMmu, Physical, ZeroByte, Plus;
    PageByte(m, page, i);
    PageByteZeroed(m, page, i);
    hide InMemory;
    var a: Word := page + i;
    SameAddress(m, l, a);
    OffAddress(m, a);
    InMemoryKept(m, ZeroByte(m, a), page / PAGE_SIZE);
  }

  /** Zeroing a page that is no table: none of the stores changes where the next one goes. */
  lemma {:induction false} ZeroThroughMmu(m: seq<Word>, l: Layout, t: Tables, page: Word, i: nat)
    requires LaidOut(l) && KernelMapped(m, l) && Forest(m, t) && Root(l.kpgtbl / PAGE_SIZE) in t
    requires SparePage(m, t, page) && i <= 0x1000
    ensures ZeroFrom(m, KernelMmu(l), page, i) == ZeroFrom(m, Off, page, i)
    decreases 0x1000 - i
  {
    hide LaidOut, KernelMapped, Forest, ZeroFrom, StoreZero, SparePage, Plus, KernelMmu;
    if i == 0x1000 {
      ZeroEnd(m, Off, page);
      ZeroEnd(m, KernelMmu(l), page);
    } else {
      var m2 := StoreThroughMmu(m, l, t, page, i);
      ZeroStep(m, Off, page, i, m2);
      ZeroStep(m, KernelMmu(l), page, i, m2);
      ZeroThroughMmu(m2, l, t, page, i + 1);
    }
  }

  /** What the stores leave: the page zeroed, all else as it was. */
  lemma ZeroedThroughMmu(m: seq<Word>, l: Layout, t: Tables, page: Word) returns (m2: seq<Word>)
    requires LaidOut(l) && KernelMapped(m, l) && Forest(m, t) && Root(l.kpgtbl / PAGE_SIZE) in t
    requires SparePage(m, t, page)
    ensures ZeroFrom(m, KernelMmu(l), page, 0) == ZeroFrom(m, Off, page, 0) == Done(m2)
    ensures Zeroed(m2, page / PAGE_SIZE) && Elsewhere(m, m2, page / PAGE_SIZE)
  {
    hide LaidOut, KernelMapped, Forest, ZeroFrom, RangeZeroed, Zeroed, Elsewhere, KernelMmu;
    ZeroThroughMmu(m, l, t, page, 0);
    m2 := PageImage(m, page);
    ZeroOff(m, m2, page, 0);
    WholePage(m, m2, page);
  }

  /** Memory with some of its words zeroed. */
  function WithZeros(m: seq<Word>, first: nat, last: nat): (r: seq<Word>)
    ensures |r| == |m| && forall j :: 0 <= j < |m| ==> r[j] == if first <= j < last then 0 else m[j]
  {
    seq(|m|, j requires 0 <= j < |m| => if first <= j < last then 0 else m[j])
  }

  lemma PageImage(m: seq<Word>, page: Word) returns (m2: seq<Word>)
    requires page % PAGE_SIZE == 0
    ensures RangeZeroed(m, m2, page, page + 0x1000)
  {
    PageOfWords(page);
    hide *;
    var end: nat := page + 0x1000;
    m2 := WithZeros(m, page / 8, end / 8);
    WordsZeroed(m, m2, page, end);
  }

  lemma PageOfWords(page: Word)
    requires page % PAGE_SIZE == 0
    ensures page % 8 == 0 && (page + 0x1000) % 8 == 0
  {
    var p := page / PAGE_SIZE;
    DivUnique(page, 8, p * 512, 0);
    DivUnique(page + 0x1000, 8, p * 512 + 512, 0);
  }

  /** The head of the list as an address. */
  lemma HeadAddress(m: seq<Word>, head: Word, g: Globals, o: Ownership, l: Layout)
    requires LaidOut(l) && Ready(m, head, g, o, l)
    ensures o.free == [] ==> head == g.terminal
    ensures o.free != [] ==>
      && head != g.terminal && head == o.free[0] * PAGE_SIZE && 0 < head < MEM_TMP_END && head / 8 < |m|
      && InMemory(m, o.free[0]) && m[head / 8] == Slot(m, o.free[0], 0) && SparePage(m, o.tables, head)
  {
    hide LaidOut, KernelMapped, Forest;
    if o.free != [] {
      assert Entry(m, o.free, 0, g.terminal) && o.free[0] in o.free && o.free[0] in o.pool;
    }
  }

  lemma TakeThroughMmu(m: seq<Word>, head: Word, g: Globals, o: Ownership, l: Layout)
    requires LaidOut(l) && Ready(m, head, g, o, l)
    ensures TakeOn(KernelMmu(l), Ram(m, head), g) == TakeOn(Off, Ram(m, head), g)
    ensures o.free == [] ==> TakeOn(Off, Ram(m, head), g) == Done((Ram(m, head), 0))
    ensures o.free != [] ==> head / 8 < |m| && TakeOn(Off, Ram(m, head), g) == Done((Ram(m, m[head / 8]), head))
  {
    hide LaidOut, Ready, SparePage, KernelMapped, KernelMmu, State, ReachesList;
    HeadAddress(m, head, g, o, l);
    ReadyParts(m, head, g, o, l);
    ListReached(m, l, g);
    if o.free != [] {
      SameAccess(m, l, head, 0);
    }
    hide LowGlobals, BelowVideo;
  }

  /** The head of the list and its lock are where the kernel map leaves them. */
  lemma ListReached(m: seq<Word>, l: Layout, g: Globals)
    requires LaidOut(l) && KernelMapped(m, l) && LowGlobals(g)
    ensures ReachesList(m, KernelMmu(l), g) && ReachesList(m, Off, g)
  {
    SameAddress(m, l, g.headAt);
    SameAddress(m, l, g.lockAt);
    hide LaidOut, KernelMapped, KernelMmu;
  }

  lemma ReadyParts(m: seq<Word>, head: Word, g: Globals, o: Ownership, l: Layout)
    requires LaidOut(l) && Ready(m, head, g, o, l)
    ensures State(m, head, g.terminal, o) && KernelMapped(m, l)
    ensures Root(l.kpgtbl / PAGE_SIZE) in o.tables && BelowVideo(o)
    ensures Forest(m, o.tables) && LowGlobals(g)
  {}

  /** With the page popped and zeroed. */
  lemma PoppedAndZeroed(m: seq<Word>, head: Word, g: Globals, o: Ownership, l: Layout, m1: seq<Word>)
    requires LaidOut(l) && Ready(m, head, g, o, l) && o.free != [] && head / 8 < |m|
    requires Elsewhere(m, m1, o.free[0])
    ensures State(m1, m[head / 8], g.terminal, Popped(o)) && KernelMapped(m1, l) && o.free[0] !in o.tables.Values
  {
    HeadAddress(m, head, g, o, l);
    ReadyParts(m, head, g, o, l);
    hide LaidOut, KernelMapped, State, Ready, SparePage;
    PopState(m, head, g.terminal, o);
    SpareAfterPop(m, head, g, o);
    OutsideState(m, m1, m[head / 8], g.terminal, Popped(o), o.free[0]);
    StillMapped(m, m1, o.tables, l);
  }

  lemma SpareAfterPop(m: seq<Word>, head: Word, g: Globals, o: Ownership)
    requires State(m, head, g.terminal, o) && o.free != []
    ensures o.free[0] !in Popped(o).free && o.free[0] !in o.tables.Values && o.free[0] in Popped(o).held
  {
    FreeListTail(m, head, o.free, g.terminal);
    assert o.free[0] in o.free;
  }

  /** A store that does the same with the MMU on and off. */
  predicate StoresTo(m: seq<Word>, l: Layout, a: Word, e: Word, m2: seq<Word>) {
    Store(m, KernelMmu(l), a, e) == Done(m2) && Store(m, Off, a, e) == Done(m2)
  }

  /** A store to a slot of a low frame. */
  lemma SlotThroughMmu(m: seq<Word>, l: Layout, q: nat, i: nat, a: Word, e: Word) returns (m2: seq<Word>)
    requires LaidOut(l) && KernelMapped(m, l) && InMemory(m, q) && q < 0x30000 && i < 512
    requires a == q * PAGE_SIZE + 8 * i
    ensures StoresTo(m, l, a, e, m2) && Stored(m, m2, q, i, e)
  {
    hide LaidOut, KernelMapped;
    assert a / 8 == q * 512 + i && a < MEM_TMP_END;
    SameAccess(m, l, a, e);
    StoreSlot(m, q, i, e);
    m2 := m[q * 512 + i := e];
    hide Stored;
  }

  lemma BelowAfterGraft(o: Ownership, n: Node, i: nat, p: nat)
    requires BelowVideo(o) && p in o.held && Partition(o)
    ensures BelowVideo(Grafted(o, n, i, p)) && p < FRAME_LIMIT
  {}

  lemma GraftThroughMmu(m: seq<Word>, m2: seq<Word>, head: Word, g: Globals, o: Ownership, l: Layout,
                        n: Node, i: nat, p: nat)
    requires LaidOut(l) && State(m, head, g.terminal, o) && KernelMapped(m, l) && BelowVideo(Grafted(o, n, i, p))
    requires LowGlobals(g)
    requires Root(l.kpgtbl / PAGE_SIZE) in o.tables && p in o.held && p !in o.tables.Values && p < FRAME_LIMIT
    requires n in o.tables && n.level < 3 && i < 512 && Child(n, i) !in o.tables && Zeroed(m, p)
    requires Stored(m, m2, o.tables[n], i, p * PAGE_SIZE + 3)
    ensures Ready(m2, head, g, Grafted(o, n, i, p), l)
  {
    StateShape(m, head, g.terminal, o);
    hide LaidOut, KernelMapped, SameTranslation, Forest, State, BelowVideo, Stored, Zeroed;
    GraftState(m, m2, head, g.terminal, o, n, i, p);
    StillMapped(m, m2, o.tables, l);
  }

  lemma BelowNode(o: Ownership, n: Node)
    requires BelowVideo(o) && n in o.tables
    ensures o.tables[n] < 0x30000
  {}

  lemma LinkWord(page: Word)
    requires page % PAGE_SIZE == 0 && page / PAGE_SIZE < 0x30000
    ensures TableEntry(page) == page / PAGE_SIZE * PAGE_SIZE + 3
  {}

  lemma HeldBelow(o: Ownership, p: nat)
    requires BelowVideo(o) && Partition(o) && p in o.held
    ensures p < 0x30000
  {}

  lemma StatePartition(m: seq<Word>, head: Word, terminal: Word, o: Ownership)
    requires State(m, head, terminal, o)
    ensures Partition(o)
  {}

  lemma BelowAfterPop(o: Ownership)
    requires BelowVideo(o) && o.free != []
    ensures BelowVideo(Popped(o))
  {}

  /** Linking the zeroed page: the store goes to the table's own frame, and the new state is the kernel's again. */
  lemma LinkThroughMmu(m: seq<Word>, head: Word, g: Globals, o: Ownership, l: Layout, n: Node, i: nat,
                       pte: Word, page: Word) returns (m2: seq<Word>)
    requires LaidOut(l) && State(m, head, g.terminal, o) && KernelMapped(m, l) && BelowVideo(o) && LowGlobals(g)
    requires Root(l.kpgtbl / PAGE_SIZE) in o.tables && page % PAGE_SIZE == 0
    requires var p := page / PAGE_SIZE; Zeroed(m, p) && p in o.held && p !in o.tables.Values
    requires n in o.tables && n.level < 3 && i < 512 && Child(n, i) !in o.tables
    requires pte == o.tables[n] * PAGE_SIZE + 8 * i
    ensures StoresTo(m, l, pte, TableEntry(page), m2)
    ensures Ready(m2, head, g, Grafted(o, n, i, page / PAGE_SIZE), l)
  {
    var p := page / PAGE_SIZE;
    hide LaidOut, KernelMapped, State, BelowVideo, Stored, Zeroed, StoresTo, Ready, Grafted, Partition, Forest, Shape,
      TableEntry, LowGlobals;
    StateShape(m, head, g.terminal, o);
    StatePartition(m, head, g.terminal, o);
    TableInMemory(m, o.tables, n);
    BelowNode(o, n);
    HeldBelow(o, p);
    LinkWord(page);
    BelowAfterGraft(o, n, i, p);
    m2 := SlotThroughMmu(m, l, o.tables[n], i, pte, TableEntry(page));
    GraftThroughMmu(m, m2, head, g, o, l, n, i, p);
  }

  /** A page taken, zeroed and linked through the MMU. */
  lemma PageThroughMmu(m: seq<Word>, head: Word, g: Globals, o: Ownership, l: Layout, n: Node, i: nat, pte: Word)
    returns (m1: seq<Word>, m2: seq<Word>)
    requires LaidOut(l) && Ready(m, head, g, o, l) && o.free != []
    requires n in o.tables && n.level < 3 && i < 512 && Child(n, i) !in o.tables
    requires pte == o.tables[n] * PAGE_SIZE + 8 * i
    ensures 0 < head == o.free[0] * PAGE_SIZE && head / 8 < |m|
    ensures ZeroFrom(m, KernelMmu(l), head, 0) == Done(m1) && ZeroFrom(m, Off, head, 0) == Done(m1)
    ensures StoresTo(m1, l, pte, TableEntry(head), m2)
    ensures Ready(m2, m[head / 8], g, Grew(o, n, i), l)
  {
    hide LaidOut, KernelMapped, State, Forest, ZeroFrom, Ready, Zeroed, Elsewhere, SparePage, Grew, Grafted, StoresTo,
      TableEntry, BelowVideo;
    HeadAddress(m, head, g, o, l);
    ReadyParts(m, head, g, o, l);
    m1 := ZeroedThroughMmu(m, l, o.tables, head);
    PoppedAndZeroed(m, head, g, o, l, m1);
    SpareAfterPop(m, head, g, o);
    BelowAfterPop(o);
    GrewIsGrown(m, head, g.terminal, o, n, i);
    m2 := LinkThroughMmu(m1, m[head / 8], g, Popped(o), l, n, i, pte, head);
  }

  /** What making a new table comes to. */
  function AfterGrowth(m: seq<Word>, m2: seq<Word>, head: Word, o: Ownership): Turn {
    if o.free == [] || head / 8 >= |m| then Return(Ram(m, head), 1) else Down(Ram(m2, m[head / 8]), head)
  }

  /** Making a new table through the MMU. */
  lemma GrowThroughMmu(m: seq<Word>, head: Word, g: Globals, o: Ownership, l: Layout, n: Node, i: nat, pte: Word)
    returns (m2: seq<Word>)
    requires LaidOut(l) && Ready(m, head, g, o, l)
    requires n in o.tables && n.level < 3 && i < 512 && Child(n, i) !in o.tables
    requires pte == o.tables[n] * PAGE_SIZE + 8 * i
    ensures GrowOn(KernelMmu(l), Ram(m, head), g, pte) == Done(AfterGrowth(m, m2, head, o))
    ensures GrowOn(Off, Ram(m, head), g, pte) == Done(AfterGrowth(m, m2, head, o))
    ensures o.free != [] ==> 0 < head == o.free[0] * PAGE_SIZE && head / 8 < |m|
    ensures o.free != [] ==> Ready(m2, m[head / 8], g, Grew(o, n, i), l)
  {
    hide LaidOut, TakeOn, ZeroFrom, TableEntry, Ready, Grew, Child, KernelMmu;
    TakeThroughMmu(m, head, g, o, l);
    m2 := m;
    if o.free != [] {
      var m1;
      m1, m2 := PageThroughMmu(m, head, g, o, l, n, i, pte);
    }
    hide Store;
  }

  lemma ChildTable(o: Ownership, root: nat, v: nat, level: nat, head: Word)
    requires level < 3 && (o.free != [] ==> head == o.free[0] * PAGE_SIZE)
    ensures Child(NodeOf(root, v, level), Index(v, level)) == NodeOf(root, v, level + 1)
    ensures o.free != [] ==>
      IsTable(Grew(o, NodeOf(root, v, level), Index(v, level)).tables, root, v, level + 1, head)
  {}

  /** The entry `walk` looks at. */
  lemma EntryThroughMmu(m: seq<Word>, head: Word, g: Globals, o: Ownership, l: Layout,
                        root: nat, table: Word, va: Word, level: nat) returns (pte: Word)
    requires LaidOut(l) && Ready(m, head, g, o, l) && level <= 3
    requires IsTable(o.tables, root, Vpn(va), level, table)
    ensures pte == Plus(table, 8 * VaPtblInd(va, level)) == table + 8 * Index(Vpn(va), level)
    ensures pte < MEM_TMP_END && pte / 8 < |m|
    ensures InMemory(m, o.tables[NodeOf(root, Vpn(va), level)])
    ensures m[pte / 8] == Slot(m, o.tables[NodeOf(root, Vpn(va), level)], Index(Vpn(va), level))
    ensures Load(m, KernelMmu(l), pte) == Load(m, Off, pte) == Done(m[pte / 8])
  {
    hide LaidOut, KernelMapped, State, Ready, Index, VaPtblInd, Forest, Vpn;
    ReadyParts(m, head, g, o, l);
    IndexOfAddress(va, level);
    TableInMemory(m, o.tables, NodeOf(root, Vpn(va), level));
    pte := Plus(table, 8 * VaPtblInd(va, level));
    assert pte < MEM_TMP_END;
    SameAccess(m, l, pte, 0);
  }

  /** What is left of memory and list after a turn. */
  function RamOf(r: Turn): Ram {
    match r
    case Down(s, _) => s
    case Return(s, _) => s
  }

  /** One turn of the loop of `walk` through the MMU. */
  lemma TurnThroughMmu(m: seq<Word>, head: Word, g: Globals, o: Ownership, l: Layout,
                       root: nat, table: Word, va: Word, level: nat, alloc: bool) returns (r: Turn, o2: Ownership)
    requires LaidOut(l) && Ready(m, head, g, o, l) && level < 3
    requires IsTable(o.tables, root, Vpn(va), level, table)
    ensures TurnOn(KernelMmu(l), Ram(m, head), g, table, va, level, alloc) == Done(r)
    ensures TurnOn(Off, Ram(m, head), g, table, va, level, alloc) == Done(r)
    ensures Ready(RamOf(r).words, RamOf(r).head, g, o2, l) && Grown(o, o2)
    ensures !alloc || r.Return? ==> o2 == o && RamOf(r) == Ram(m, head)
    ensures r.Down? ==> IsTable(o2.tables, root, Vpn(va), level + 1, r.table)
    ensures r.Return? ==> NodeOf(root, Vpn(va), level + 1) !in o.tables
    ensures r.Return? ==> if alloc then r.pte == 1 && o.free == [] else r.pte == 0
  {
    hide LaidOut, State, Ready, Index, VaPtblInd, GrowOn, Load, DaAddr, Grew, Vpn, KernelMmu, Grown;
    var n, i := NodeOf(root, Vpn(va), level), Index(Vpn(va), level);
    var pte := EntryThroughMmu(m, head, g, o, l, root, table, va, level);
    ReadyParts(m, head, g, o, l);
    ReadLink(m, head, g.terminal, o, n, i);
    HeadAddress(m, head, g, o, l);
    ChildTable(o, root, Vpn(va), level, head);
    o2 := o;
    GrownNot(o);
    if m[pte / 8] % 2 == 1 {
      r := Down(Ram(m, head), DaAddr(m[pte / 8]));
    } else if !alloc {
      r := Return(Ram(m, head), 0);
    } else {
      var m2 := GrowThroughMmu(m, head, g, o, l, n, i, pte);
      r := AfterGrowth(m, m2, head, o);
      if o.free != [] {
        GrewIsGrown(m, head, g.terminal, o, n, i);
        o2 := Grew(o, n, i);
      }
    }
  }

  lemma GrownNot(o: Ownership)
    ensures Grown(o, o)
  {}

  /** A table below a root lies in the pool, so it is not frame 0. */
  lemma LeafTable(m: seq<Word>, head: Word, terminal: Word, o: Ownership, n: Node)
    requires State(m, head, terminal, o) && n in o.tables && n.level > 0
    ensures o.tables[n] > 0
  {
    hide FreeList, Forest;
  }

  lemma StuckBelow(o: Ownership, root: nat, v: nat, level: nat)
    requires Shape(o.tables) && level < 3 && NodeOf(root, v, level + 1) !in o.tables
    ensures NodeOf(root, v, 3) !in o.tables
  {
    NoDescendant(o.tables, root, v, level + 1);
  }

  /** `walk` run through the kernel's own map does what it does on physical memory: it ends with the same memory, list
      and result, whichever tables it makes on the way. */
  lemma {:induction false} WalkThroughMmu(m: seq<Word>, head: Word, g: Globals, o: Ownership, l: Layout,
                                          root: nat, table: Word, va: Word, level: nat, alloc: bool)
    returns (r: (Ram, Word), o2: Ownership)
    requires LaidOut(l) && Ready(m, head, g, o, l) && level <= 3
    requires IsTable(o.tables, root, Vpn(va), level, table)
    ensures WalkOn(KernelMmu(l), Ram(m, head), g, table, va, level, alloc) == Done(r)
    ensures WalkOn(Off, Ram(m, head), g, table, va, level, alloc) == Done(r)
    ensures Ready(r.0.words, r.0.head, g, o2, l) && Grown(o, o2)
    ensures !alloc ==> o2 == o && r.0 == Ram(m, head) && r.1 != 1
    ensures r.1 > 1 ==> NodeOf(root, Vpn(va), 3) in o2.tables
    ensures r.1 > 1 ==> r.1 == o2.tables[NodeOf(root, Vpn(va), 3)] * PAGE_SIZE + 8 * Index(Vpn(va), 3)
    ensures r.1 <= 1 ==> NodeOf(root, Vpn(va), 3) !in o2.tables && (alloc ==> r.1 == 1 && o2.free == [])
    decreases 3 - level
  {
    hide LaidOut, Ready, Index, VaPtblInd, TurnOn, Vpn, KernelMmu, Load, State, Grown;
    ReadyParts(m, head, g, o, l);
    if level == 3 {
      var pte := EntryThroughMmu(m, head, g, o, l, root, table, va, 3);
      LeafTable(m, head, g.terminal, o, NodeOf(root, Vpn(va), 3));
      GrownNot(o);
      r, o2 := (Ram(m, head), pte), o;
    } else {
      var turn, o1 := TurnThroughMmu(m, head, g, o, l, root, table, va, level, alloc);
      match turn
      case Return(s, pte) =>
        StateShape(m, head, g.terminal, o);
        StuckBelow(o, root, Vpn(va), level);
        r, o2 := (s, pte), o1;
      case Down(s, next) =>
        r, o2 := WalkThroughMmu(s.words, s.head, g, o1, l, root, next, va, level + 1, alloc);
        GrownStep(o, o1, o2);
    }
  }

  /** A walk gave the address of an entry, or 0, and the page translates accordingly. */
  predicate Found(entry: Access<Word>, pte: Word, outcome: Outcome) {
    if pte == 0 then outcome == Fault else entry.Done? && outcome == LeafOutcome(entry.value)
  }

  /** A lookup through the kernel's own map, in any address space: it changes nothing, and the entry it comes to, read
      through the same map, is what the hardware translates the page to. */
  lemma LookupThroughMmu(m: seq<Word>, head: Word, g: Globals, o: Ownership, l: Layout, pgtbl: Word, va: Word)
    requires LaidOut(l) && Ready(m, head, g, o, l)
    requires pgtbl % PAGE_SIZE == 0 && Root(pgtbl / PAGE_SIZE) in o.tables
    ensures var found := WalkOn(KernelMmu(l), Ram(m, head), g, pgtbl, va, 0, false);
      && found.Done? && found.value.0 == Ram(m, head)
      && Found(Load(m, KernelMmu(l), found.value.1), found.value.1, Translate(m, pgtbl / PAGE_SIZE, Vpn(va)))
  {
    hide LaidOut, Ready, Index, WalkOn, Vpn, KernelMmu, Load, State, Translate, KernelMapped, Forest, Grown,
      LeafOutcome;
    var root, v := pgtbl / PAGE_SIZE, Vpn(va);
    ReadyParts(m, head, g, o, l);
    RootTable(m, head, g.terminal, o, root, v);
    var r, o2 := WalkThroughMmu(m, head, g, o, l, root, pgtbl, va, 0, false);
    TranslateIsLookup(m, o.tables, root, v);
    if r.1 > 1 {
      LoadEntry(m, l, o, root, v, r.1);
    }
  }

  lemma LoadEntry(m: seq<Word>, l: Layout, o: Ownership, root: nat, v: nat, pte: Word)
    requires LaidOut(l) && KernelMapped(m, l) && BelowVideo(o) && Forest(m, o.tables) && NodeOf(root, v, 3) in o.tables
    requires pte == o.tables[NodeOf(root, v, 3)] * PAGE_SIZE + 8 * Index(v, 3)
    ensures InMemory(m, o.tables[NodeOf(root, v, 3)])
    ensures Load(m, KernelMmu(l), pte) == Done(Slot(m, o.tables[NodeOf(root, v, 3)], Index(v, 3)))
  {
    hide LaidOut, KernelMapped, Forest, KernelMmu, Index;
    TableInMemory(m, o.tables, NodeOf(root, v, 3));
    assert pte < MEM_TMP_END && pte / 8 == o.tables[NodeOf(root, v, 3)] * 512 + Index(v, 3);
    SameAccess(m, l, pte, 0);
  }

  /** `mapva` run through the kernel's own map, on any root, ends in no abort and does the same as without the MMU; on
      a root that is not the kernel's it leaves the kernel ready for more. */
  lemma MapThroughMmu(m: seq<Word>, head: Word, g: Globals, o: Ownership, l: Layout,
                      pgtbl: Word, va: Word, pa: Word, ind: Word, sflag: Word, flags: Word)
    returns (r: (Ram, int), o2: Ownership)
    requires LaidOut(l) && Ready(m, head, g, o, l)
    requires pgtbl % PAGE_SIZE == 0 && Root(pgtbl / PAGE_SIZE) in o.tables
    ensures MapOn(KernelMmu(l), Ram(m, head), g, pgtbl, va, pa, ind, sflag, flags) == Done(r)
    ensures MapOn(Off, Ram(m, head), g, pgtbl, va, pa, ind, sflag, flags) == Done(r)
    ensures Grown(o, o2) && (r.1 == 0 || r.1 == -1)
    ensures pgtbl / PAGE_SIZE != l.kpgtbl / PAGE_SIZE ==> Ready(r.0.words, r.0.head, g, o2, l)
    ensures r.1 == 0 ==> NodeOf(pgtbl / PAGE_SIZE, Vpn(va), 3) in o2.tables
  {
    hide LaidOut, Ready, Index, WalkOn, Vpn, KernelMmu, Store, PgRoundDown, LeafWord, KernelMapped, State, Grown,
      Stored;
    var root, page, v := pgtbl / PAGE_SIZE, PgRoundDown(va), Vpn(PgRoundDown(va));
    VpnOfPage(va);
    VpnOfPage(pa);
    ReadyParts(m, head, g, o, l);
    RootTable(m, head, g.terminal, o, root, v);
    var walked;
    walked, o2 := WalkThroughMmu(m, head, g, o, l, root, pgtbl, page, 0, true);
    var s2 := walked.0;
    if walked.1 > 1 {
      ReadyParts(s2.words, s2.head, g, o2, l);
      TableInMemory(s2.words, o2.tables, NodeOf(root, v, 3));
      var e := LeafWord(PgRoundDown(pa), flags, ind, sflag);
      var m3 := SlotThroughMmu(s2.words, l, o2.tables[NodeOf(root, v, 3)], Index(v, 3), walked.1, e);
      if root != l.kpgtbl / PAGE_SIZE {
        LeafThroughMmu(s2.words, m3, s2.head, g, o2, l, root, v, e);
      }
      r := (Ram(m3, s2.head), 0);
    } else {
      r := (s2, -1);
    }
  }

  /** A leaf store under a root of a user leaves the kernel's map alone. */
  lemma LeafThroughMmu(m: seq<Word>, m2: seq<Word>, head: Word, g: Globals, o: Ownership, l: Layout,
                       root: nat, v: nat, e: Word)
    requires LaidOut(l) && Ready(m, head, g, o, l) && root != l.kpgtbl / PAGE_SIZE
    requires NodeOf(root, v, 3) in o.tables && v < FRAME_LIMIT
    requires Stored(m, m2, o.tables[NodeOf(root, v, 3)], Index(v, 3), e)
    ensures Ready(m2, head, g, o, l)
  {
    hide LaidOut, State, Index, KernelMap, Translate, Stored;
    StoreState(m, m2, head, g.terminal, o, root, v, e);
  }

  /** `free_page` through the kernel's map, for a page that was handed out. */
  lemma FreeThroughMmu(m: seq<Word>, head: Word, g: Globals, o: Ownership, l: Layout, page: Word)
    returns (r: (Ram, bool))
    requires LaidOut(l) && Ready(m, head, g, o, l)
    requires page != 0 ==> page % PAGE_SIZE == 0 && page / PAGE_SIZE in o.held
    ensures FreeOn(KernelMmu(l), Ram(m, head), g, page) == Done(r)
    ensures FreeOn(Off, Ram(m, head), g, page) == Done(r)
    ensures r.1 == (page != 0)
    ensures Ready(r.0.words, r.0.head, g, if r.1 then Pushed(o, page / PAGE_SIZE) else o, l)
  {
    hide LaidOut, Ready, KernelMapped, State, KernelMmu, ReachesList, BelowVideo, Stored;
    ReadyParts(m, head, g, o, l);
    if page == 0 {
      r := (Ram(m, head), false);
    } else {
      var p := page / PAGE_SIZE;
      HeldPage(m, head, g, o, l, p);
      ListReached(m, l, g);
      var m2 := SlotThroughMmu(m, l, p, 0, page, head);
      PushState(m, m2, head, g.terminal, o, p);
      StillMapped(m, m2, o.tables, l);
      ListReached(m2, l, g);
      FreedReady(m2, page, g, o, l, p);
      r := (Ram(m2, page), true);
    }
  }

  lemma HeldPage(m: seq<Word>, head: Word, g: Globals, o: Ownership, l: Layout, p: nat)
    requires LaidOut(l) && Ready(m, head, g, o, l) && p in o.held
    ensures 0 < p < 0x30000 && InMemory(m, p) && p * PAGE_SIZE != g.terminal && p !in o.tables.Values && p !in o.free
  {
    hide LaidOut, KernelMapped, FreeList, Forest;
  }

  lemma FreedReady(m2: seq<Word>, page: Word, g: Globals, o: Ownership, l: Layout, p: nat)
    requires LaidOut(l) && State(m2, page, g.terminal, Pushed(o, p)) && KernelMapped(m2, l) && LowGlobals(g)
    requires BelowVideo(o) && p < 0x30000 && Root(l.kpgtbl / PAGE_SIZE) in o.tables
    ensures Ready(m2, page, g, Pushed(o, p), l)
  {
    hide LaidOut, KernelMapped, State;
  }

  /** Above VAKERNBASE every address means the same page as without those bits. */
  lemma HighAlias(m: seq<Word>, kernel: nat, a: Word)
    requires a < VA_LIMIT
    ensures Or(a, VAKERNBASE) < 0x1_0000_0000_0000_0000
    ensures TranslateAddress(m, kernel, kernel, Or(a, VAKERNBASE)) == TranslateAddress(m, kernel, kernel, a)
  {
    hide Translate, Or;
    HighOr(a);
    HighVpn(a);
  }

  lemma HighVpn(a: Word)
    requires a < VA_LIMIT
    ensures Vpn(a + VAKERNBASE) == Vpn(a)
  {
    DivUnique(a + VAKERNBASE, VA_LIMIT, 0xffff, a);
  }

  lemma HighOr(a: Word)
    requires a < VA_LIMIT
    ensures Or(a, VAKERNBASE) == a + VAKERNBASE
  {
    hide Or;
    PowersUsed();
    assert Pow2(16) == 0x1_0000;
    OrField(a, VAKERNBASE, 16, 48);
  }

  /** Core 0 before the MMU is enabled: the pool is listed, then the kernel tables are built from it. */
  method PrepareMemory(mem: array<Word>, l: Layout) returns (k: Machine, pages: Word, res: int)
    requires LaidOut(l) && MEM_TMP_END / 8 <= mem.Length && Zeroed(mem[..], l.kpgtbl / PAGE_SIZE)
    modifies mem
    ensures fresh(k) && k.mem == mem && k.Valid() && !k.locked
    ensures pages == (MEM_TMP_END - l.kernEnd) / PAGE_SIZE
    ensures res == 0 <==> pages >= 422
    ensures res == 0 ==> Ready(mem[..], k.freepages, k.Globals(), k.own, l) && |k.own.free| == pages - 422
    ensures k.own.held == {} && 0 !in k.own.tables.Values
    ensures Acquired(k.log) == 0
  {
    hide Held, Unlocked, LaidOut, KernelMapped, State, Descending, Ready, SameOutside;
    ghost var before := mem[..];
    LayoutBounds(l);
    k := new Machine(mem, Globals(l.bootEnd, l.freepages, l.listLock));
    pages := InitPaAlloc(k, l.kernEnd, MEM_TMP_END);
    FirstRoot(before, mem[..], k.freepages, k.terminal, k.own, l);
    k.own := Rooted(k.own, l.kpgtbl / PAGE_SIZE);
    res := KpgtblInit(k, l);
    FirstReady(mem[..], k.freepages, k.Globals(), k.own, l);
  }

  lemma LayoutBounds(l: Layout)
    requires LaidOut(l)
    ensures 0 < l.bootEnd < l.kernEnd <= MEM_TMP_END && l.kernEnd % PAGE_SIZE == 0
    ensures l.kpgtbl + 0x1000 <= l.kernEnd && l.kpgtbl % PAGE_SIZE == 0
    ensures l.freepages < MEM_TMP_END && l.listLock < MEM_TMP_END
  {}

  /** Listing the pool leaves kpgtbl zeroed, so it can be the first root. */
  lemma FirstRoot(before: seq<Word>, m: seq<Word>, head: Word, terminal: Word, o: Ownership, l: Layout)
    requires LaidOut(l) && State(m, head, terminal, o) && o.held == {} && o.tables == map[]
    requires Zeroed(before, l.kpgtbl / PAGE_SIZE)
    requires SameOutside(before, m, l.kernEnd / 8, MEM_TMP_END / 8)
    requires forall p :: p in o.pool <==> l.kernEnd <= p * PAGE_SIZE < MEM_TMP_END
    ensures State(m, head, terminal, Rooted(o, l.kpgtbl / PAGE_SIZE))
    ensures Rooted(o, l.kpgtbl / PAGE_SIZE) == o.(tables := map[Root(l.kpgtbl / PAGE_SIZE) := l.kpgtbl / PAGE_SIZE])
  {
    var root := l.kpgtbl / PAGE_SIZE;
    LayoutBounds(l);
    hide LaidOut;
    assert Zeroed(m, root) by {
      assert forall j :: 0 <= j < 512 ==> Slot(m, root, j) == Slot(before, root, j);
    }
    RootState(m, head, terminal, o, root);
  }

  lemma FirstReady(m: seq<Word>, head: Word, g: Globals, o: Ownership, l: Layout)
    requires LaidOut(l) && State(m, head, g.terminal, o) && Root(l.kpgtbl / PAGE_SIZE) in o.tables
    requires g.headAt == l.freepages && g.lockAt == l.listLock
    requires forall p :: p in o.pool ==> p * PAGE_SIZE < MEM_TMP_END
    requires forall n :: n in o.tables ==> n.root == l.kpgtbl / PAGE_SIZE
    ensures KernelMapped(m, l) ==> Ready(m, head, g, o, l)
    ensures 0 !in o.tables.Values
  {
    LayoutBounds(l);
    hide LaidOut, KernelMapped, FreeList, Holds;
    forall n | n in o.tables
      ensures 0 < o.tables[n] < 0x30000
    {}
  }
}
