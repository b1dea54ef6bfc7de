/** user_task_create with the MMU on: every load and store goes through the kernel's own tables. */
module TaskMapping {
  import opened Bits
  import opened Accesses
  import opened Arch
  import opened PageTables
  import opened PaAlloc
  import opened Vm
  import opened AddressSpaces
  import opened KernelSpace
  import opened SelfMapping
  import opened Tasks

  /** The page a draw returns can be zeroed: it is handed out, or it is page 0. */
  lemma DrawnPage(m: seq<Word>, head: Word, g: Globals, o: Ownership, l: Layout, page: Word)
    requires LaidOut(l) && Ready(m, head, g, o, l) && 0 !in o.tables.Values && |m| >= 512
    requires page == if o.free == [] then 0 else head
    ensures page == NextFrame(o) * PAGE_SIZE && SparePage(m, o.tables, page)
  {
    HeadAddress(m, head, g, o, l);
    hide LaidOut, Ready, KernelMapped, State;
  }

  lemma AskedReady(m: seq<Word>, head: Word, g: Globals, o: Ownership, l: Layout)
    requires LaidOut(l) && Ready(m, head, g, o, l)
    ensures o.free != [] ==> head / 8 < |m|
    ensures Ready(m, if o.free == [] then head else m[head / 8], g, Asked(o), l)
    ensures if o.free == [] then NextFrame(o) == 0 else NextFrame(o) in Asked(o).held
  {
    HeadAddress(m, head, g, o, l);
    ReadyParts(m, head, g, o, l);
    hide LaidOut, KernelMapped, State;
    if o.free != [] {
      PopState(m, head, g.terminal, o);
      BelowAfterPop(o);
    } else {
      ZeroNotFree(m, head, g.terminal, o);
    }
  }

  lemma ZeroNotFree(m: seq<Word>, head: Word, terminal: Word, o: Ownership)
    requires State(m, head, terminal, o)
    ensures 0 !in o.pool && 0 !in o.free
  {}

  /** A page that is no table and not free is zeroed: the kernel stays ready. */
  lemma ZeroedReady(m: seq<Word>, m2: seq<Word>, head: Word, g: Globals, o: Ownership, l: Layout, p: nat)
    requires LaidOut(l) && Ready(m, head, g, o, l) && Elsewhere(m, m2, p)
    requires p !in o.free && p !in o.tables.Values
    ensures Ready(m2, head, g, o, l)
  {
    ReadyParts(m, head, g, o, l);
    hide LaidOut, KernelMapped, State, Elsewhere;
    OutsideState(m, m2, head, g.terminal, o, p);
    StillMapped(m, m2, o.tables, l);
  }

  lemma NotFree(m: seq<Word>, head: Word, terminal: Word, o: Ownership, p: nat)
    requires State(m, head, terminal, o) && (p in o.held || p == 0)
    ensures p !in o.free && (p in o.held ==> p !in o.tables.Values && p in o.pool)
  {}

  /** get_page, and zeroing what it returned. */
  lemma DrawThroughMmu(m: seq<Word>, head: Word, g: Globals, o: Ownership, l: Layout) returns (r: (Ram, Word))
    requires LaidOut(l) && Ready(m, head, g, o, l) && 0 !in o.tables.Values && |m| >= 512
    ensures DrawOn(KernelMmu(l), Ram(m, head), g) == Done(r) && DrawOn(Off, Ram(m, head), g) == Done(r)
    ensures Ready(r.0.words, r.0.head, g, Asked(o), l) && r.1 == NextFrame(o) * PAGE_SIZE && r.1 < MEM_TMP_END
    ensures |r.0.words| == |m| && Zeroed(r.0.words, NextFrame(o))
    ensures forall p :: Zeroed(m, p) ==> Zeroed(r.0.words, p)
  {
    hide LaidOut, Ready, KernelMapped, State, KernelMmu, TakeOn, ZeroFrom, Forest, Zeroed, Elsewhere;
    var page: Word := if o.free == [] then 0 else head;
    ReadyParts(m, head, g, o, l);
    TakeThroughMmu(m, head, g, o, l);
    DrawnPage(m, head, g, o, l, page);
    AskedReady(m, head, g, o, l);
    var head2 := if o.free == [] then head else m[head / 8];
    var m2 := ZeroedThroughMmu(m, l, o.tables, page);
    ReadyParts(m, head2, g, Asked(o), l);
    NotFree(m, head2, g.terminal, Asked(o), NextFrame(o));
    ZeroedReady(m, m2, head2, g, Asked(o), l, NextFrame(o));
    ZerosStay(m, m2, NextFrame(o));
    SameLength(m, m2, NextFrame(o));
    r := (Ram(m2, head2), page);
  }

  lemma SameLength(m: seq<Word>, m2: seq<Word>, p: nat)
    requires Elsewhere(m, m2, p)
    ensures |m2| == |m|
  {}

  // ----- The zeroed root -----

  /** A zeroed page becomes the root of an address space: the kernel stays ready. */
  lemma RootedReady(m: seq<Word>, head: Word, g: Globals, o: Ownership, l: Layout, root: nat)
    requires LaidOut(l) && Ready(m, head, g, o, l) && Zeroed(m, root) && root < 0x30000
    requires root in o.held || (root !in o.pool && root !in o.tables.Values)
    ensures Ready(m, head, g, Rooted(o, root), l)
  {
    ReadyParts(m, head, g, o, l);
    hide LaidOut, KernelMapped, State, Zeroed;
    RootState(m, head, g.terminal, o, root);
  }

  lemma GrownKeeps(o: Ownership, o2: Ownership, n: Node)
    requires Grown(o, o2)
    ensures n in o.tables ==> n in o2.tables
    ensures o.free == [] ==> o2.free == [] && (n in o2.tables ==> n in o.tables)
    ensures o2.held == o.held && o2.pool == o.pool
  {
    if o.free == [] {
      DryTables(o, o2);
    }
  }

  // ----- The calls of mapva -----

  /** The first two mappings. */
  lemma FramesThroughMmu(m: seq<Word>, head: Word, g: Globals, o: Ownership, l: Layout,
                         pgtbl: Word, trapframe: Word, stack: Word) returns (r: Ram, o2: Ownership)
    requires LaidOut(l) && Ready(m, head, g, o, l) && pgtbl % PAGE_SIZE == 0
    requires Root(pgtbl / PAGE_SIZE) in o.tables && pgtbl / PAGE_SIZE != l.kpgtbl / PAGE_SIZE
    ensures MapFramesOn(KernelMmu(l), Ram(m, head), g, pgtbl, trapframe, stack) == Done(r)
    ensures MapFramesOn(Off, Ram(m, head), g, pgtbl, trapframe, stack) == Done(r)
    ensures Ready(r.words, r.head, g, o2, l) && Grown(o, o2)
  {
    hide LaidOut, Ready, KernelMmu, MapOn, Grown;
    var r1, o1 := MapThroughMmu(m, head, g, o, l, pgtbl, MEM_USER_TRAPFRAME, trapframe,
                                NORMAL_TRANSIENT, NON_SHAREABLE, VALID_PAGE);
    GrownKeeps(o, o1, Root(pgtbl / PAGE_SIZE));
    var r2;
    r2, o2 := MapThroughMmu(r1.0.words, r1.0.head, g, o1, l, pgtbl, MEM_USER_STACK, stack,
                            NORMAL_TRANSIENT, NON_SHAREABLE, VALID_PAGE);
    GrownStep(o, o1, o2);
    r := r2.0;
  }

  lemma RangeStep(mmu: Mmu, s: Ram, s2: Ram, res: int, g: Globals, pgtbl: Word, va: Word, end: Word, pa: Word,
                  ind: Word, sflag: Word)
    requires va < end && MapOn(mmu, s, g, pgtbl, va, pa, ind, sflag, VALID_PAGE) == Done((s2, res))
    ensures res < 0 ==> MapRangeOn(mmu, s, g, pgtbl, va, end, pa, ind, sflag) == Done((s2, res))
    ensures res >= 0 ==>
      MapRangeOn(mmu, s, g, pgtbl, va, end, pa, ind, sflag) ==
      MapRangeOn(mmu, s2, g, pgtbl, va + 0x1000, end, Plus(pa, 0x1000), ind, sflag)
  {
    hide MapOn;
  }

  lemma RangeEnd(mmu: Mmu, s: Ram, g: Globals, pgtbl: Word, va: nat, end: Word, pa: Word, ind: Word, sflag: Word)
    requires va >= end
    ensures MapRangeOn(mmu, s, g, pgtbl, va, end, pa, ind, sflag) == Done((s, 0))
  {}

  /** A page whose level 3 table is missing cannot be mapped out of an empty pool. */
  predicate CannotMap(o: Ownership, root: nat, va: Word) {
    o.free == [] && NodeOf(root, Vpn(va), 3) !in o.tables
  }

  /** A loop of mapva. */
  lemma {:induction false} RangeThroughMmu(m: seq<Word>, head: Word, g: Globals, o: Ownership, l: Layout, pgtbl: Word,
                                           va: nat, end: Word, pa: Word, ind: Word, sflag: Word)
    returns (r: (Ram, int), o2: Ownership)
    requires LaidOut(l) && Ready(m, head, g, o, l) && pgtbl % PAGE_SIZE == 0
    requires Root(pgtbl / PAGE_SIZE) in o.tables && pgtbl / PAGE_SIZE != l.kpgtbl / PAGE_SIZE
    ensures MapRangeOn(KernelMmu(l), Ram(m, head), g, pgtbl, va, end, pa, ind, sflag) == Done(r)
    ensures MapRangeOn(Off, Ram(m, head), g, pgtbl, va, end, pa, ind, sflag) == Done(r)
    ensures Ready(r.0.words, r.0.head, g, o2, l) && Grown(o, o2)
    ensures va < end && CannotMap(o, pgtbl / PAGE_SIZE, va) ==> r.1 < 0
    decreases end - va
  {
    hide LaidOut, Ready, KernelMmu, MapOn, MapRangeOn, Grown, Vpn, NodeOf, Plus;
    var s := Ram(m, head);
    if va >= end {
      RangeEnd(KernelMmu(l), s, g, pgtbl, va, end, pa, ind, sflag);
      RangeEnd(Off, s, g, pgtbl, va, end, pa, ind, sflag);
      GrownNot(o);
      r, o2 := (s, 0), o;
    } else {
      var root := pgtbl / PAGE_SIZE;
      var r1, o1 := MapThroughMmu(m, head, g, o, l, pgtbl, va, pa, ind, sflag, VALID_PAGE);
      RangeStep(KernelMmu(l), s, r1.0, r1.1, g, pgtbl, va, end, pa, ind, sflag);
      RangeStep(Off, s, r1.0, r1.1, g, pgtbl, va, end, pa, ind, sflag);
      GrownKeeps(o, o1, Root(root));
      GrownKeeps(o, o1, NodeOf(root, Vpn(va), 3));
      if r1.1 < 0 {
        r, o2 := r1, o1;
      } else {
        r, o2 := RangeThroughMmu(r1.0.words, r1.0.head, g, o1, l, pgtbl,
                                 va + 0x1000, end, Plus(pa, 0x1000), ind, sflag);
        GrownStep(o, o1, o2);
      }
    }
  }

  /** The four parts of a task's space. */
  lemma UserThroughMmu(m: seq<Word>, head: Word, g: Globals, o: Ownership, l: Layout, main: Word,
                       pgtbl: Word, trapframe: Word, stack: Word) returns (r: (Ram, bool), o2: Ownership)
    requires LaidOut(l) && Ready(m, head, g, o, l) && pgtbl % PAGE_SIZE == 0
    requires Root(pgtbl / PAGE_SIZE) in o.tables && pgtbl / PAGE_SIZE != l.kpgtbl / PAGE_SIZE
    ensures MapUserOn(KernelMmu(l), Ram(m, head), g, l, main, pgtbl, trapframe, stack) == Done(r)
    ensures MapUserOn(Off, Ram(m, head), g, l, main, pgtbl, trapframe, stack) == Done(r)
    ensures Ready(r.0.words, r.0.head, g, o2, l) && Grown(o, o2)
    ensures Bare(o, pgtbl / PAGE_SIZE) ==> !r.1
  {
    hide LaidOut, Ready, KernelMmu, MapFramesOn, MapRangeOn, Grown, Vpn, Plus, Bare, CannotMap, Attributes;
    UserVpns(l, main);
    var root := pgtbl / PAGE_SIZE;
    var s1, o1 := FramesThroughMmu(m, head, g, o, l, pgtbl, trapframe, stack);
    GrownKeeps(o, o1, Root(root));
    if Bare(o, root) {
      BareBlocks(o, o1, root, l.vecStart);
    }
    var r2;
    r2, o2 := RangeThroughMmu(s1.words, s1.head, g, o1, l, pgtbl, l.vecStart, l.vecEnd, l.vecStart,
                              NORMAL_TRANSIENT, NON_SHAREABLE);
    GrownStep(o, o1, o2);
    GrownKeeps(o1, o2, Root(root));
    if r2.1 < 0 {
      r := (r2.0, false);
    } else {
      var r3, o3 := RangeThroughMmu(r2.0.words, r2.0.head, g, o2, l, pgtbl, l.vecEnd, Plus(l.vecEnd, 0x5000), main,
                                    NORMAL_TRANSIENT, NON_SHAREABLE);
      GrownStep(o, o2, o3);
      r, o2 := (r3.0, r3.1 >= 0), o3;
    }
  }

  lemma BareBlocks(o: Ownership, o2: Ownership, root: nat, va: Word)
    requires Bare(o, root) && Grown(o, o2)
    ensures CannotMap(o2, root, va)
  {
    GrownKeeps(o, o2, NodeOf(root, Vpn(va), 3));
    hide Grown, Vpn;
  }

  // ----- The trapframe, and the whole -----

  /** One word of a page that was handed out. */
  lemma WordThroughMmu(m: seq<Word>, head: Word, g: Globals, o: Ownership, l: Layout, page: Word, i: nat, w: Word)
    returns (m2: seq<Word>)
    requires LaidOut(l) && Ready(m, head, g, o, l) && page % PAGE_SIZE == 0 && page / PAGE_SIZE in o.held && i < 512
    ensures StoresTo(m, l, Plus(page, 8 * i), w, m2) && Ready(m2, head, g, o, l)
  {
    hide LaidOut, Ready, State, KernelMapped, StoresTo, Stored;
    var p := page / PAGE_SIZE;
    ReadyParts(m, head, g, o, l);
    HeldPage(m, head, g, o, l, p);
    m2 := SlotThroughMmu(m, l, p, i, Plus(page, 8 * i), w);
    StoredElsewhere(m, m2, p, i, w);
    ZeroedReady(m, m2, head, g, o, l, p);
  }

  lemma TrapframeThroughMmu(m: seq<Word>, head: Word, g: Globals, o: Ownership, l: Layout, page: Word)
    returns (m2: seq<Word>)
    requires LaidOut(l) && Ready(m, head, g, o, l) && page % PAGE_SIZE == 0 && page / PAGE_SIZE in o.held
    ensures TrapframeOn(m, KernelMmu(l), l, page) == Done(m2) && TrapframeOn(m, Off, l, page) == Done(m2)
    ensures Ready(m2, head, g, o, l)
  {
    hide LaidOut, Ready, Store, PgHeader, KernelMmu, Plus;
    m2 := WordThroughMmu(m, head, g, o, l, page, 31, PgHeader(MEM_USER_STACK));
    m2 := WordThroughMmu(m2, head, g, o, l, page, 33, EL0T_INTR_ON);
    m2 := WordThroughMmu(m2, head, g, o, l, page, 32, l.vecEnd);
  }

  /** The three pages. */
  lemma ThreeThroughMmu(m: seq<Word>, head: Word, g: Globals, o: Ownership, l: Layout)
    returns (r: (Ram, Word, Word, Word))
    requires LaidOut(l) && Ready(m, head, g, o, l) && 0 !in o.tables.Values && |m| >= 512
    ensures DrawThreeOn(KernelMmu(l), Ram(m, head), g) == Done(r) && DrawThreeOn(Off, Ram(m, head), g) == Done(r)
    ensures Ready(r.0.words, r.0.head, g, Drawn(o), l) && Zeroed(r.0.words, NextFrame(o))
    ensures r.1 == NextFrame(o) * PAGE_SIZE && r.1 < MEM_TMP_END && r.2 == NextFrame(Asked(o)) * PAGE_SIZE
  {
    hide LaidOut, Ready, DrawOn, KernelMmu, Zeroed, NextFrame;
    AskedTables(o);
    AskedTables(Asked(o));
    hide Asked;
    var r1 := DrawThroughMmu(m, head, g, o, l);
    var r2 := DrawThroughMmu(r1.0.words, r1.0.head, g, Asked(o), l);
    var r3 := DrawThroughMmu(r2.0.words, r2.0.head, g, Asked(Asked(o)), l);
    r := (r3.0, r1.1, r2.1, r3.1);
  }

  lemma AskedTables(o: Ownership)
    ensures Asked(o).tables == o.tables
  {}

  /** The first page drawn can be the root: it is no table, and not the kernel's. */
  lemma DrawnRoot(m: seq<Word>, head: Word, g: Globals, o: Ownership, l: Layout)
    requires LaidOut(l) && Ready(m, head, g, o, l) && 0 !in o.tables.Values
    ensures var root := NextFrame(o);
      && (root in Drawn(o).held || (root !in Drawn(o).pool && root !in Drawn(o).tables.Values))
      && root != l.kpgtbl / PAGE_SIZE && (o.free == [] ==> root !in Drawn(o).held)
    ensures |o.free| >= 3 ==> NextFrame(Asked(o)) in Drawn(o).held - {NextFrame(o)}
    ensures |o.free| < 3 ==> Drawn(o).free == []
    ensures Bare(Rooted(Drawn(o), NextFrame(o)), NextFrame(o)) <==> Drawn(o).free == []
  {
    ReadyParts(m, head, g, o, l);
    hide LaidOut, KernelMapped;
    BooksOfState(m, head, g.terminal, o);
    DrawnFrames(o);
    DrawnSize(o);
    StateShape(m, head, g.terminal, o);
    KernelFrame(o, l.kpgtbl / PAGE_SIZE);
    ZeroNotFree(m, head, g.terminal, o);
    hide State, Forest, Drawn, Asked, NextFrame;
    NoNodeOf(o.tables, NextFrame(o));
  }

  lemma KernelFrame(o: Ownership, kernel: nat)
    requires Shape(o.tables) && Root(kernel) in o.tables
    ensures kernel in o.tables.Values
  {
    assert o.tables[Root(kernel)] == kernel;
  }

  /** user_task_create with the MMU on: from any state the kernel keeps, it makes the loads and stores it makes on
      physical memory, ends in no abort, and returns the same task. */
  lemma CreateThroughMmu(m: seq<Word>, head: Word, g: Globals, o: Ownership, l: Layout, main: Word)
    returns (r: (Ram, Task))
    requires LaidOut(l) && Ready(m, head, g, o, l) && 0 !in o.tables.Values && |m| >= 512
    ensures CreateOn(KernelMmu(l), Ram(m, head), g, l, main) == Done(r)
    ensures CreateOn(Off, Ram(m, head), g, l, main) == Done(r)
  {
    hide LaidOut, Ready, DrawThreeOn, MapUserOn, TrapframeOn, KernelMmu, Zeroed, NextFrame, Bare, Drawn, Asked, Grown,
      Rooted;
    var root := NextFrame(o);
    var d := ThreeThroughMmu(m, head, g, o, l);
    DrawnRoot(m, head, g, o, l);
    RootedReady(d.0.words, d.0.head, g, Drawn(o), l, root);
    RootThere(Drawn(o), root);
    var u, o2 := UserThroughMmu(d.0.words, d.0.head, g, Rooted(Drawn(o), root), l, main, d.1, d.2, d.3);
    if u.1 {
      GrownKeeps(Rooted(Drawn(o), root), o2, Root(root));
      var m2 := TrapframeThroughMmu(u.0.words, u.0.head, g, o2, l, d.2);
      r := (Ram(m2, u.0.head), Task(d.2, d.1, true));
    } else {
      r := (u.0, NO_TASK);
    }
  }

  lemma RootThere(o: Ownership, root: nat)
    ensures Root(root) in Rooted(o, root).tables && Rooted(o, root).held == o.held - {root}
  {}
}
