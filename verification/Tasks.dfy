/** User address spaces: user_task_create of scheduler.c. */
module Tasks {
  import opened Bits
  import opened Accesses
  import opened Arch
  import opened PageTables
  import opened PaAlloc
  import opened Vm
  import opened AddressSpaces
  import opened KernelSpace

  const MEM_USER_TRAPFRAME: Word := 0x7999_9000
  const MEM_USER_STACK: Word := 0x7999_5000
  const EL0T_INTR_ON: Word := 0xffff_ffff_ffff_fc00

  /** `struct task`; its other two fields stay zero. */
  datatype Task = Task(trapframe: Word, ttbr0: Word, pure: bool)

  const NO_TASK: Task := Task(0, 0, false)

  /** What a task's address space shows: trapframe, stack, the trampoline at its own addresses, and the code. */
  function UserMap(l: Layout, code: nat, trapframe: nat, stack: nat, v: nat): Outcome
    requires LaidOut(l) && code + 5 <= ADDRESS_PAGES && trapframe < FRAME_LIMIT && stack < FRAME_LIMIT
  {
    if v == 0x79999 then PageOf(trapframe, NORMAL_TRANSIENT, NON_SHAREABLE)
    else if v == 0x79995 then PageOf(stack, NORMAL_TRANSIENT, NON_SHAREABLE)
    else if l.vecStart / PAGE_SIZE <= v < l.vecEnd / PAGE_SIZE then PageOf(v, NORMAL_TRANSIENT, NON_SHAREABLE)
    else if l.vecEnd / PAGE_SIZE <= v < l.vecEnd / PAGE_SIZE + 5 then
      PageOf(code + (v - l.vecEnd / PAGE_SIZE), NORMAL_TRANSIENT, NON_SHAREABLE)
    else Fault
  }

  /** The four mappings, in their order. */
  function Frames(trapframe: nat, stack: nat): Space
    requires trapframe < FRAME_LIMIT && stack < FRAME_LIMIT
  {
    map[0x79999 := PageOf(trapframe, NORMAL_TRANSIENT, NON_SHAREABLE)]
      + map[0x79995 := PageOf(stack, NORMAL_TRANSIENT, NON_SHAREABLE)]
  }

  function Trampoline(l: Layout): Space
    requires LaidOut(l)
  {
    Range(l.vecStart / PAGE_SIZE, l.vecEnd / PAGE_SIZE, l.vecStart / PAGE_SIZE, NORMAL_TRANSIENT, NON_SHAREABLE)
  }

  function Code(l: Layout, code: nat): Space
    requires LaidOut(l) && code + 5 <= ADDRESS_PAGES
  {
    Range(l.vecEnd / PAGE_SIZE, l.vecEnd / PAGE_SIZE + 5, code, NORMAL_TRANSIENT, NON_SHAREABLE)
  }

  function UserSpace(l: Layout, code: nat, trapframe: nat, stack: nat): Space
    requires LaidOut(l) && code + 5 <= ADDRESS_PAGES && trapframe < FRAME_LIMIT && stack < FRAME_LIMIT
  {
    Frames(trapframe, stack) + Trampoline(l) + Code(l, code)
  }

  lemma UserSpaceIsUserMap(l: Layout, code: nat, trapframe: nat, stack: nat, v: nat)
    requires LaidOut(l) && code + 5 <= ADDRESS_PAGES && trapframe < FRAME_LIMIT && stack < FRAME_LIMIT
    ensures Through(UserSpace(l, code, trapframe, stack), v) == UserMap(l, code, trapframe, stack, v)
  {
    hide PageOf, Range;
    var first, last := l.vecStart / PAGE_SIZE, l.vecEnd / PAGE_SIZE;
    RangeAt(first, last, first, NORMAL_TRANSIENT, NON_SHAREABLE, v);
    RangeAt(last, last + 5, code, NORMAL_TRANSIENT, NON_SHAREABLE, v);
    ThroughLater(Frames(trapframe, stack) + Trampoline(l), Code(l, code), v);
    ThroughLater(Frames(trapframe, stack), Trampoline(l), v);
  }

  // ----- The tables a task needs -----

  /** The 2MB regions the trampoline and the code window touch. */
  function FirstRegion(l: Layout): nat {
    l.vecStart / PAGE_SIZE / 512
  }

  function EndRegion(l: Layout): nat {
    (l.vecEnd / PAGE_SIZE + 4) / 512 + 1
  }

  /** Three pages of its own, four tables, and one more table for each region: at most nine for two regions. */
  function PagesOfTask(l: Layout): int {
    7 + (EndRegion(l) - FirstRegion(l))
  }

  predicate UserPage(l: Layout, v: nat) {
    v == 0x79999 || v == 0x79995 || l.vecStart / PAGE_SIZE <= v < l.vecEnd / PAGE_SIZE + 5
  }

  lemma UserKeys(l: Layout, code: nat, trapframe: nat, stack: nat, v: nat)
    requires LaidOut(l) && code + 5 <= ADDRESS_PAGES && trapframe < FRAME_LIMIT && stack < FRAME_LIMIT
    ensures v in UserSpace(l, code, trapframe, stack) <==> UserPage(l, v)
  {
    hide PageOf, Range;
    var first, last := l.vecStart / PAGE_SIZE, l.vecEnd / PAGE_SIZE;
    RangeAt(first, last, first, NORMAL_TRANSIENT, NON_SHAREABLE, v);
    RangeAt(last, last + 5, code, NORMAL_TRANSIENT, NON_SHAREABLE, v);
  }

  function TopNodes(root: nat): (s: set<Node>)
    ensures |s| == 5
    ensures forall n :: n in s <==>
      n == Root(root) || n == Node(root, 1, 0) || n == Node(root, 2, 0) || n == Node(root, 2, 1)
      || n == Node(root, 3, 0x3cc)
  {
    {Root(root), Node(root, 1, 0), Node(root, 2, 0), Node(root, 2, 1), Node(root, 3, 0x3cc)}
  }

  predicate UserNode(l: Layout, root: nat, n: Node) {
    n in TopNodes(root) + Level3(root, FirstRegion(l), EndRegion(l))
  }

  lemma NodeOfUserPage(l: Layout, root: nat, v: nat, level: nat)
    requires LaidOut(l) && UserPage(l, v) && level <= 3
    ensures UserNode(l, root, NodeOf(root, v, level))
  {
    hide TopNodes, Level3;
    LowPages(l);
    hide LaidOut;
  }

  lemma LowPages(l: Layout)
    requires LaidOut(l)
    ensures l.vecStart / PAGE_SIZE < l.vecEnd / PAGE_SIZE < 0x30000
  {}

  lemma PageOfUserNode(l: Layout, root: nat, n: Node) returns (v: nat)
    requires LaidOut(l) && UserNode(l, root, n)
    ensures UserPage(l, v) && n.level <= 3 && n == NodeOf(root, v, n.level)
  {
    var first := l.vecStart / PAGE_SIZE;
    LowPages(l);
    hide LaidOut, TopNodes, Level3;
    if n == Node(root, 2, 1) || n == Node(root, 3, 0x3cc) {
      v := 0x79999;
    } else if n in TopNodes(root) {
      v := first;
    } else {
      v := PageInRegion(first, l.vecEnd / PAGE_SIZE + 5, n.prefix);
    }
  }

  /** A page of the range in a region that it touches. */
  lemma PageInRegion(first: nat, last: nat, region: nat) returns (v: nat)
    requires first < last && first / 512 <= region < (last - 1) / 512 + 1
    ensures first <= v < last && v / 512 == region
  {
    v := if region * 512 < first then first else region * 512;
  }

  lemma UserNodes(l: Layout, root: nat, code: nat, trapframe: nat, stack: nat, n: Node)
    requires LaidOut(l) && code + 5 <= ADDRESS_PAGES && trapframe < FRAME_LIMIT && stack < FRAME_LIMIT
    ensures n in Nodes(root, UserSpace(l, code, trapframe, stack).Keys) <==> UserNode(l, root, n)
  {
    hide UserSpace, Level3, TopNodes;
    var s := UserSpace(l, code, trapframe, stack).Keys;
    if n in Nodes(root, s) {
      var v, level :| v in s && 0 <= level <= 3 && n == NodeOf(root, v, level);
      UserKeys(l, code, trapframe, stack, v);
      NodeOfUserPage(l, root, v, level);
    }
    if UserNode(l, root, n) {
      var v := PageOfUserNode(l, root, n);
      UserKeys(l, code, trapframe, stack, v);
    }
  }

  /** The tables below the root: everything a task takes but its root, trapframe and stack. */
  lemma TablesOfTask(l: Layout, root: nat, code: nat, trapframe: nat, stack: nat, t: Tables)
    requires LaidOut(l) && code + 5 <= ADDRESS_PAGES && trapframe < FRAME_LIMIT && stack < FRAME_LIMIT
    requires Root(root) in t && forall n :: n in t && n.root == root ==> n == Root(root)
    ensures |Nodes(root, UserSpace(l, code, trapframe, stack).Keys) - t.Keys| == PagesOfTask(l) - 3
  {
    hide UserSpace, Level3, TopNodes;
    var all := Nodes(root, UserSpace(l, code, trapframe, stack).Keys);
    var expected := TopNodes(root) + Level3(root, FirstRegion(l), EndRegion(l));
    forall n
      ensures n in all <==> n in expected
    {
      UserNodes(l, root, code, trapframe, stack, n);
    }
    LowPages(l);
    hide Nodes, LaidOut;
    assert all == expected;
    DisjointSize(TopNodes(root), Level3(root, FirstRegion(l), EndRegion(l)));
    assert all - t.Keys == all - {Root(root)};
  }

  // ----- user_task_create as the accesses it makes -----

  /** The calls of mapva; the results of the first two are not looked at. */
  function MapUserOn(mmu: Mmu, s: Ram, g: Globals, l: Layout, main: Word, pgtbl: Word, trapframe: Word, stack: Word):
    Access<(Ram, bool)>
  {
    match MapFramesOn(mmu, s, g, pgtbl, trapframe, stack)
    case Abort => Abort
    case Done(s2) =>
      match MapRangeOn(mmu, s2, g, pgtbl, l.vecStart, l.vecEnd, l.vecStart, NORMAL_TRANSIENT, NON_SHAREABLE)
      case Abort => Abort
      case Done((s3, res3)) =>
        if res3 < 0 then Done((s3, false))
        else match MapRangeOn(mmu, s3, g, pgtbl, l.vecEnd, Plus(l.vecEnd, 0x5000), main,
                              NORMAL_TRANSIENT, NON_SHAREABLE)
          case Abort => Abort
          case Done((s4, res4)) => Done((s4, res4 >= 0))
  }

  function MapFramesOn(mmu: Mmu, s: Ram, g: Globals, pgtbl: Word, trapframe: Word, stack: Word): Access<Ram> {
    match MapOn(mmu, s, g, pgtbl, MEM_USER_TRAPFRAME, trapframe, NORMAL_TRANSIENT, NON_SHAREABLE, VALID_PAGE)
    case Abort => Abort
    case Done((s1, _)) =>
      match MapOn(mmu, s1, g, pgtbl, MEM_USER_STACK, stack, NORMAL_TRANSIENT, NON_SHAREABLE, VALID_PAGE)
      case Abort => Abort
      case Done((s2, _)) => Done(s2)
  }

  /** The stores that fill in the trapframe. */
  function TrapframeOn(m: seq<Word>, mmu: Mmu, l: Layout, page: Word): Access<seq<Word>> {
    match Store(m, mmu, Plus(page, 8 * 31), PgHeader(MEM_USER_STACK))
    case Abort => Abort
    case Done(m1) =>
      match Store(m1, mmu, Plus(page, 8 * 33), EL0T_INTR_ON)
      case Abort => Abort
      case Done(m2) => Store(m2, mmu, Plus(page, 8 * 32), l.vecEnd)
  }

  /** The three pages of a task. */
  function DrawThreeOn(mmu: Mmu, s: Ram, g: Globals): Access<(Ram, Word, Word, Word)> {
    match DrawOn(mmu, s, g)
    case Abort => Abort
    case Done((s1, pgtbl)) =>
      match DrawOn(mmu, s1, g)
      case Abort => Abort
      case Done((s2, trapframe)) =>
        match DrawOn(mmu, s2, g)
        case Abort => Abort
        case Done((s3, stack)) => Done((s3, pgtbl, trapframe, stack))
  }

  function SpaceOn(mmu: Mmu, s: Ram, g: Globals, l: Layout, main: Word): Access<(Ram, bool, Word, Word)> {
    match DrawThreeOn(mmu, s, g)
    case Abort => Abort
    case Done((s3, pgtbl, trapframe, stack)) =>
      match MapUserOn(mmu, s3, g, l, main, pgtbl, trapframe, stack)
      case Abort => Abort
      case Done((s4, ok)) => Done((s4, ok, pgtbl, trapframe))
  }

  function CreateOn(mmu: Mmu, s: Ram, g: Globals, l: Layout, main: Word): Access<(Ram, Task)> {
    match SpaceOn(mmu, s, g, l, main)
    case Abort => Abort
    case Done((s4, ok, pgtbl, trapframe)) =>
      if !ok then Done((s4, NO_TASK))
      else match TrapframeOn(s4.words, mmu, l, trapframe)
        case Abort => Abort
        case Done(m5) => Done((Ram(m5, s4.head), Task(trapframe, pgtbl, true)))
  }

  // ----- Mapping the pages of a task -----

  /** A pool that ran dry stays dry, and what was missing stays missing. */
  lemma OutStays(m: seq<Word>, o: Ownership, m2: seq<Word>, o2: Ownership, m3: seq<Word>, o3: Ownership,
                 root: nat, f: Space, g: Space)
    requires OutOfPages(m, o, m2, o2, root, f)
    requires (Mapped(m2, o2, m3, o3, root, g) || OutOfPages(m2, o2, m3, o3, root, g))
    ensures OutOfPages(m, o, m3, o3, root, f) && o3.tables.Keys == o2.tables.Keys
  {
    hide Nodes;
    DryTables(o2, o3);
    GrownStep(o, o2, o3);
    OnlyTablesStep(m, m2, m3, o2.tables, o3.tables);
    hide Grown, OnlyTables;
  }

  /** The trampoline cannot be mapped out of an empty pool when its level 2 table is not there yet. */
  lemma NoRoom(m: seq<Word>, o: Ownership, m2: seq<Word>, o2: Ownership, root: nat, l: Layout)
    requires LaidOut(l) && o.free == [] && Node(root, 2, 0) !in o.tables
    ensures !Mapped(m, o, m2, o2, root, Trampoline(l))
  {
    var v := l.vecStart / PAGE_SIZE;
    LowPages(l);
    hide LaidOut;
    assert v in Trampoline(l).Keys;
    assert NodeOf(root, v, 2) == Node(root, 2, 0);
    assert Node(root, 2, 0) in Nodes(root, Trampoline(l).Keys);
    hide Nodes, Trampoline;
    if Mapped(m, o, m2, o2, root, Trampoline(l)) {
      DryTables(o, o2);
    }
  }

  /** The trapframe and the stack lie in the second gigabyte: their tables are not the trampoline's. */
  lemma UpperGigabyte(root: nat, v: nat)
    requires v == 0x79999 || v == 0x79995
    ensures Node(root, 2, 0) !in Nodes(root, {v})
  {}

  /** The results of the first two mappings are not looked at; the trampoline shows whether they succeeded. */
  lemma FirstTwo(m: seq<Word>, o: Ownership, m1: seq<Word>, o1: Ownership, m2: seq<Word>, o2: Ownership,
                 root: nat, trapframe: nat, stack: nat)
    requires trapframe < FRAME_LIMIT && stack < FRAME_LIMIT && Node(root, 2, 0) !in o.tables
    requires var f := map[0x79999 := PageOf(trapframe, NORMAL_TRANSIENT, NON_SHAREABLE)];
      Mapped(m, o, m1, o1, root, f) || OutOfPages(m, o, m1, o1, root, f)
    requires var g := map[0x79995 := PageOf(stack, NORMAL_TRANSIENT, NON_SHAREABLE)];
      Mapped(m1, o1, m2, o2, root, g) || OutOfPages(m1, o1, m2, o2, root, g)
    ensures Mapped(m, o, m2, o2, root, Frames(trapframe, stack))
         || (OutOfPages(m, o, m2, o2, root, Frames(trapframe, stack)) && o2.free == [])
    ensures Node(root, 2, 0) !in o2.tables
  {
    hide PageOf, Nodes, Mapped, OutOfPages;
    var f := map[0x79999 := PageOf(trapframe, NORMAL_TRANSIENT, NON_SHAREABLE)];
    var g := map[0x79995 := PageOf(stack, NORMAL_TRANSIENT, NON_SHAREABLE)];
    assert f.Keys == {0x79999} && g.Keys == {0x79995};
    UpperGigabyte(root, 0x79999);
    UpperGigabyte(root, 0x79995);
    TwoSpaces(m, o, m1, o1, m2, o2, root, f, g);
    NoNewNode(m, o, m1, o1, root, f, Node(root, 2, 0));
    NoNewNode(m1, o1, m2, o2, root, g, Node(root, 2, 0));
  }

  /** Two mappings in turn, whatever comes of the first: both are there, or the pool has run dry. */
  lemma TwoSpaces(m: seq<Word>, o: Ownership, m1: seq<Word>, o1: Ownership, m2: seq<Word>, o2: Ownership,
                  root: nat, f: Space, g: Space)
    requires Mapped(m, o, m1, o1, root, f) || OutOfPages(m, o, m1, o1, root, f)
    requires Mapped(m1, o1, m2, o2, root, g) || OutOfPages(m1, o1, m2, o2, root, g)
    ensures Mapped(m, o, m2, o2, root, f + g) || (OutOfPages(m, o, m2, o2, root, f + g) && o2.free == [])
  {
    hide Mapped, OutOfPages;
    if Mapped(m, o, m1, o1, root, f) {
      MappedThen(m, o, m1, o1, m2, o2, root, f, g);
    } else {
      OutStays(m, o, m1, o1, m2, o2, root, f, g);
      OutOfMore(m, o, m2, o2, root, f, f + g);
    }
    OutIsDry(m, o, m2, o2, root, f + g);
  }

  lemma OutIsDry(m: seq<Word>, o: Ownership, m2: seq<Word>, o2: Ownership, root: nat, f: Space)
    ensures OutOfPages(m, o, m2, o2, root, f) ==> o2.free == []
  {
    hide Nodes, OthersKept, OnlyTables;
  }

  lemma NoNewNode(m: seq<Word>, o: Ownership, m2: seq<Word>, o2: Ownership, root: nat, f: Space, n: Node)
    requires Mapped(m, o, m2, o2, root, f) || OutOfPages(m, o, m2, o2, root, f)
    requires n !in o.tables && n !in Nodes(root, f.Keys)
    ensures n !in o2.tables
  {
    hide Nodes, Remapped, OthersKept, OnlyTables, Extends;
  }

  /** With no pages left after the first two mappings, the trampoline fails. */
  lemma ThirdFails(m: seq<Word>, o: Ownership, m2: seq<Word>, o2: Ownership, m3: seq<Word>, o3: Ownership,
                   root: nat, l: Layout, f: Space, all: Space)
    requires LaidOut(l) && OutOfPages(m, o, m2, o2, root, f) && o2.free == [] && Node(root, 2, 0) !in o2.tables
    requires f.Keys <= all.Keys
    ensures !Mapped(m2, o2, m3, o3, root, Trampoline(l))
    ensures OutOfPages(m2, o2, m3, o3, root, Trampoline(l)) ==> OutOfPages(m, o, m3, o3, root, all)
  {
    NoRoom(m2, o2, m3, o3, root, l);
    if OutOfPages(m2, o2, m3, o3, root, Trampoline(l)) {
      OutStays(m, o, m2, o2, m3, o3, root, f, Trampoline(l));
      OutOfMore(m, o, m3, o3, root, f, all);
    }
    hide Nodes, Remapped, OthersKept, Trampoline, LaidOut;
  }

  lemma UserVpns(l: Layout, main: Word)
    requires LaidOut(l)
    ensures Vpn(MEM_USER_TRAPFRAME) == 0x79999 && Vpn(MEM_USER_STACK) == 0x79995
    ensures l.vecStart % PAGE_SIZE == 0 && l.vecEnd % PAGE_SIZE == 0 && l.vecStart < l.vecEnd < MEM_TMP_END
    ensures (l.vecEnd + 0x5000) / PAGE_SIZE == l.vecEnd / PAGE_SIZE + 5
    ensures (l.vecEnd + 0x5000) % PAGE_SIZE == 0 && l.vecEnd + 0x5000 <= VA_LIMIT
    ensures Attributes(NORMAL_TRANSIENT, NON_SHAREABLE)
    ensures main + 0x5000 < ADDRESS_LIMIT ==> main / PAGE_SIZE + 5 <= ADDRESS_PAGES
  {}

  lemma RangesOfUser(l: Layout, main: Word)
    requires LaidOut(l) && main + 0x5000 < ADDRESS_LIMIT
    ensures main / PAGE_SIZE + 5 <= ADDRESS_PAGES
    ensures Trampoline(l) ==
      Range(l.vecStart / PAGE_SIZE, l.vecEnd / PAGE_SIZE, l.vecStart / PAGE_SIZE, NORMAL_TRANSIENT, NON_SHAREABLE)
    ensures Code(l, main / PAGE_SIZE) ==
      Range(l.vecEnd / PAGE_SIZE, (l.vecEnd + 0x5000) / PAGE_SIZE, main / PAGE_SIZE, NORMAL_TRANSIENT, NON_SHAREABLE)
  {
    UserVpns(l, main);
    hide Range;
  }

  /** A root without tables below it, and no page to make one. */
  ghost predicate Bare(o: Ownership, root: nat) {
    o.free == [] && forall n :: n in o.tables && n.root == root ==> n == Root(root)
  }

  /** Out of a bare state nothing is mapped, so nothing is written. */
  lemma BareStays(m: seq<Word>, o: Ownership, m2: seq<Word>, o2: Ownership, root: nat, v: nat, f: Space)
    requires Bare(o, root) && v in f && (Mapped(m, o, m2, o2, root, f) || OutOfPages(m, o, m2, o2, root, f))
    ensures !Mapped(m, o, m2, o2, root, f) && o2 == o && NodeOf(root, v, 3) !in o.tables
  {
    DryPage(m, o, m2, o2, root, v, f);
    DryTables(o, o2);
    hide Nodes, Remapped, OthersKept, OnlyTables;
  }

  lemma BareDry(o: Ownership, root: nat)
    requires Bare(o, root)
    ensures o.free == []
  {}

  /** Map the trapframe and the stack; the source ignores both results. */
  method MapFrames(k: Machine, pgtbl: Word, trapframe: Word, stack: Word)
    requires k.Valid() && !k.locked && pgtbl % PAGE_SIZE == 0 && Root(pgtbl / PAGE_SIZE) in k.own.tables
    requires trapframe < VA_LIMIT && stack < VA_LIMIT && Node(pgtbl / PAGE_SIZE, 2, 0) !in k.own.tables
    modifies k, k.mem
    ensures k.Valid() && !k.locked && Root(pgtbl / PAGE_SIZE) in k.own.tables
    ensures Node(pgtbl / PAGE_SIZE, 2, 0) !in k.own.tables
    ensures var root, f := pgtbl / PAGE_SIZE, Frames(trapframe / PAGE_SIZE, stack / PAGE_SIZE);
      Mapped(old(k.mem[..]), old(k.own), k.mem[..], k.own, root, f)
      || (OutOfPages(old(k.mem[..]), old(k.own), k.mem[..], k.own, root, f) && k.own.free == [])
    ensures Bare(old(k.own), pgtbl / PAGE_SIZE) ==> k.own == old(k.own) && k.mem[..] == old(k.mem[..])
    ensures MapFramesOn(Off, old(k.Ram()), k.Globals(), pgtbl, trapframe, stack) == Done(k.Ram())
    ensures Unlocked(k.log) == Unlocked(old(k.log))
  {
    hide Held, Acquired, Unlocked, MapOn, State, Mapped, OutOfPages, PageOf, Frames, Grown, OthersKept, Bare;
    ghost var root, m, o := pgtbl / PAGE_SIZE, k.mem[..], k.own;
    ghost var tf, st := trapframe / PAGE_SIZE, stack / PAGE_SIZE;
    var mapped := MapPage(k, MEM_USER_TRAPFRAME, trapframe, pgtbl, NORMAL_TRANSIENT, NON_SHAREABLE, false);
    ghost var m1, o1 := k.mem[..], k.own;
    RootStays(m, o, m1, o1, root, map[0x79999 := PageOf(tf, NORMAL_TRANSIENT, NON_SHAREABLE)]);
    if Bare(o, root) {
      BareDry(o, root);
      BareStays(m, o, m1, o1, root, 0x79999, map[0x79999 := PageOf(tf, NORMAL_TRANSIENT, NON_SHAREABLE)]);
    }
    mapped := MapPage(k, MEM_USER_STACK, stack, pgtbl, NORMAL_TRANSIENT, NON_SHAREABLE, false);
    RootStays(m1, o1, k.mem[..], k.own, root, map[0x79995 := PageOf(st, NORMAL_TRANSIENT, NON_SHAREABLE)]);
    if Bare(o, root) {
      BareStays(m1, o1, k.mem[..], k.own, root, 0x79995, map[0x79995 := PageOf(st, NORMAL_TRANSIENT, NON_SHAREABLE)]);
    }
    FirstTwo(m, o, m1, o1, k.mem[..], k.own, root, tf, st);
  }

  /** Where the trampoline leaves the whole: on the way, or short of pages for good. */
  lemma ThirdTurn(m: seq<Word>, o: Ownership, m2: seq<Word>, o2: Ownership, m3: seq<Word>, o3: Ownership,
                  root: nat, l: Layout, f: Space, all: Space)
    requires LaidOut(l) && Node(root, 2, 0) !in o2.tables && Root(root) in o2.tables
    requires Mapped(m, o, m2, o2, root, f) || (OutOfPages(m, o, m2, o2, root, f) && o2.free == [])
    requires f.Keys <= all.Keys && (f + Trampoline(l)).Keys <= all.Keys
    ensures Mapped(m2, o2, m3, o3, root, Trampoline(l)) ==>
      Mapped(m, o, m3, o3, root, f + Trampoline(l)) && Root(root) in o3.tables
    ensures OutOfPages(m2, o2, m3, o3, root, Trampoline(l)) ==> OutOfPages(m, o, m3, o3, root, all)
  {
    hide Trampoline, LaidOut, Mapped, OutOfPages;
    if Mapped(m, o, m2, o2, root, f) {
      MappedThen(m, o, m2, o2, m3, o3, root, f, Trampoline(l));
      if OutOfPages(m2, o2, m3, o3, root, Trampoline(l)) {
        OutOfMore(m, o, m3, o3, root, f + Trampoline(l), all);
      }
    } else {
      ThirdFails(m, o, m2, o2, m3, o3, root, l, f, all);
    }
    if Mapped(m2, o2, m3, o3, root, Trampoline(l)) {
      RootStays(m2, o2, m3, o3, root, Trampoline(l));
    }
  }

  lemma TrampolineStart(l: Layout)
    requires LaidOut(l)
    ensures l.vecStart / PAGE_SIZE in Trampoline(l)
  {
    LowPages(l);
    hide LaidOut;
  }

  /** MapRange, for the trampoline. */
  method MapTrampoline(k: Machine, l: Layout, pgtbl: Word) returns (res: int)
    requires LaidOut(l) && k.Valid() && !k.locked && pgtbl % PAGE_SIZE == 0 && Root(pgtbl / PAGE_SIZE) in k.own.tables
    modifies k, k.mem
    ensures k.Valid() && !k.locked && (res == 0 || res == -1)
    ensures if res == 0 then Mapped(old(k.mem[..]), old(k.own), k.mem[..], k.own, pgtbl / PAGE_SIZE, Trampoline(l))
            else OutOfPages(old(k.mem[..]), old(k.own), k.mem[..], k.own, pgtbl / PAGE_SIZE, Trampoline(l))
    ensures Bare(old(k.own), pgtbl / PAGE_SIZE) ==> res != 0 && k.own == old(k.own) && k.mem[..] == old(k.mem[..])
    ensures MapRangeOn(Off, old(k.Ram()), k.Globals(), pgtbl, l.vecStart, l.vecEnd, l.vecStart,
                       NORMAL_TRANSIENT, NON_SHAREABLE) == Done((k.Ram(), res))
    ensures Unlocked(k.log) == Unlocked(old(k.log))
  {
    UserVpns(l, 0);
    RangesOfUser(l, 0);
    TrampolineStart(l);
    hide Held, Acquired, Unlocked, State, Mapped, OutOfPages, Range, LaidOut, Trampoline, Bare, NodeOf;
    ghost var root, m, o := pgtbl / PAGE_SIZE, k.mem[..], k.own;
    res := MapRange(k, l.vecStart, l.vecEnd, l.vecStart, pgtbl, NORMAL_TRANSIENT, NON_SHAREABLE, false);
    if Bare(o, root) {
      BareStays(m, o, k.mem[..], k.own, root, l.vecStart / PAGE_SIZE, Trampoline(l));
      BareDry(o, root);
    }
  }

  /** MapRange, for the five pages of code. */
  method MapCode(k: Machine, l: Layout, main: Word, pgtbl: Word) returns (res: int)
    requires LaidOut(l) && k.Valid() && !k.locked && pgtbl % PAGE_SIZE == 0 && Root(pgtbl / PAGE_SIZE) in k.own.tables
    requires main + 0x5000 < ADDRESS_LIMIT && main / PAGE_SIZE + 5 <= ADDRESS_PAGES
    modifies k, k.mem
    ensures k.Valid() && !k.locked && (res == 0 || res == -1)
    ensures var root, f := pgtbl / PAGE_SIZE, Code(l, main / PAGE_SIZE);
      if res == 0 then Mapped(old(k.mem[..]), old(k.own), k.mem[..], k.own, root, f)
      else OutOfPages(old(k.mem[..]), old(k.own), k.mem[..], k.own, root, f)
    ensures MapRangeOn(Off, old(k.Ram()), k.Globals(), pgtbl, l.vecEnd, Plus(l.vecEnd, 0x5000), main,
                       NORMAL_TRANSIENT, NON_SHAREABLE) == Done((k.Ram(), res))
    ensures Unlocked(k.log) == Unlocked(old(k.log))
  {
    UserVpns(l, main);
    RangesOfUser(l, main);
    var end: Word := l.vecEnd + 0x5000;
    assert end == Plus(l.vecEnd, 0x5000);
    hide Held, Acquired, Unlocked, State, Mapped, OutOfPages, Range, LaidOut, Code, MapRangeOn, Plus;
    res := MapRange(k, l.vecEnd, end, main, pgtbl, NORMAL_TRANSIENT, NON_SHAREABLE, false);
  }

  lemma SpaceParts(f: Space, g: Space, h: Space)
    ensures f.Keys <= (f + g + h).Keys && (f + g).Keys <= (f + g + h).Keys
  {}

  /** The accesses of the parts, put together. */
  lemma UserSteps(s: Ram, s2: Ram, s3: Ram, s4: Ram, g: Globals, l: Layout, main: Word,
                  pgtbl: Word, trapframe: Word, stack: Word, res3: int, res4: int)
    requires MapFramesOn(Off, s, g, pgtbl, trapframe, stack) == Done(s2)
    requires MapRangeOn(Off, s2, g, pgtbl, l.vecStart, l.vecEnd, l.vecStart, NORMAL_TRANSIENT, NON_SHAREABLE)
          == Done((s3, res3))
    ensures res3 < 0 ==> MapUserOn(Off, s, g, l, main, pgtbl, trapframe, stack) == Done((s3, false))
    ensures res3 >= 0 ==>
      MapRangeOn(Off, s3, g, pgtbl, l.vecEnd, Plus(l.vecEnd, 0x5000), main, NORMAL_TRANSIENT, NON_SHAREABLE)
      == Done((s4, res4)) ==>
      MapUserOn(Off, s, g, l, main, pgtbl, trapframe, stack) == Done((s4, res4 >= 0))
  {
    hide MapFramesOn, MapRangeOn;
  }

  /** Map the four parts of a task's address space under a root that has no tables yet. */
  method MapUser(k: Machine, l: Layout, main: Word, pgtbl: Word, trapframe: Word, stack: Word) returns (ok: bool)
    requires LaidOut(l) && k.Valid() && !k.locked && pgtbl % PAGE_SIZE == 0 && Root(pgtbl / PAGE_SIZE) in k.own.tables
    requires trapframe < VA_LIMIT && stack < VA_LIMIT && main + 0x5000 < ADDRESS_LIMIT
    requires main / PAGE_SIZE + 5 <= ADDRESS_PAGES
    requires Node(pgtbl / PAGE_SIZE, 2, 0) !in k.own.tables
    modifies k, k.mem
    ensures k.Valid() && !k.locked
    ensures var root, f := pgtbl / PAGE_SIZE, UserSpace(l, main / PAGE_SIZE, trapframe / PAGE_SIZE, stack / PAGE_SIZE);
      if ok then Mapped(old(k.mem[..]), old(k.own), k.mem[..], k.own, root, f)
      else OutOfPages(old(k.mem[..]), old(k.own), k.mem[..], k.own, root, f)
    ensures Bare(old(k.own), pgtbl / PAGE_SIZE) ==> !ok && k.own == old(k.own) && k.mem[..] == old(k.mem[..])
    ensures MapUserOn(Off, old(k.Ram()), k.Globals(), l, main, pgtbl, trapframe, stack) == Done((k.Ram(), ok))
    ensures Unlocked(k.log) == Unlocked(old(k.log))
  {
    ghost var root, m, o := pgtbl / PAGE_SIZE, k.mem[..], k.own;
    ghost var f := Frames(trapframe / PAGE_SIZE, stack / PAGE_SIZE);
    ghost var third, fourth := Trampoline(l), Code(l, main / PAGE_SIZE);
    ghost var all := UserSpace(l, main / PAGE_SIZE, trapframe / PAGE_SIZE, stack / PAGE_SIZE);
    SpaceParts(f, third, fourth);
    assert all == f + third + fourth;
    hide *;

    MapFrames(k, pgtbl, trapframe, stack);
    ghost var m2, o2, s2 := k.mem[..], k.own, k.Ram();
    var mapped := MapTrampoline(k, l, pgtbl);
    ghost var m3, o3 := k.mem[..], k.own;
    ThirdTurn(m, o, m2, o2, m3, o3, root, l, f, all);
    UserSteps(old(k.Ram()), s2, k.Ram(), k.Ram(), k.Globals(), l, main, pgtbl, trapframe, stack, mapped, mapped);
    if mapped < 0 {
      return false;
    }
    ghost var s3, res3 := k.Ram(), mapped;
    mapped := MapCode(k, l, main, pgtbl);
    UserSteps(old(k.Ram()), s2, s3, k.Ram(), k.Globals(), l, main, pgtbl, trapframe, stack, res3, mapped);
    MappedThen(m, o, m3, o3, k.mem[..], k.own, root, f + third, fourth);
    if mapped < 0 {
      return false;
    }
    return true;
  }

  lemma RootStays(m: seq<Word>, o: Ownership, m2: seq<Word>, o2: Ownership, root: nat, f: Space)
    requires Mapped(m, o, m2, o2, root, f) || OutOfPages(m, o, m2, o2, root, f)
    ensures Grown(o, o2) && (Root(root) in o.tables ==> Root(root) in o2.tables) && OthersKept(m, m2, o.tables, root)
  {}

  // ----- user_task_create -----

  /** A task that has been created: the frames of its root table, trapframe and stack, and of its code. */
  datatype Alive = Alive(root: nat, trapframe: nat, stack: nat, code: nat)

  /** The task's address space is its user map, on every page. */
  ghost predicate Shows(m: seq<Word>, l: Layout, a: Alive)
    requires LaidOut(l)
  {
    && a.code + 5 <= ADDRESS_PAGES && a.trapframe < FRAME_LIMIT && a.stack < FRAME_LIMIT
    && forall v :: 0 <= v < FRAME_LIMIT ==> Translate(m, a.root, v) == UserMap(l, a.code, a.trapframe, a.stack, v)
  }

  ghost predicate Owns(o: Ownership, a: Alive) {
    Root(a.root) in o.tables && a.trapframe in o.held && a.stack in o.held && a.trapframe != a.stack
  }

  /** Two tasks share neither table tree, nor trapframe, nor stack. */
  predicate Apart(a: Alive, b: Alive) {
    && a.root != b.root && a.trapframe != b.trapframe && a.stack != b.stack
    && a.trapframe != b.stack && a.stack != b.trapframe
  }

  /** Every task created so far has its pages to itself and still sees exactly its own address space. */
  ghost predicate Live(m: seq<Word>, o: Ownership, l: Layout, tasks: seq<Alive>)
    requires LaidOut(l)
  {
    && (forall i :: 0 <= i < |tasks| ==> Owns(o, tasks[i]) && Shows(m, l, tasks[i]))
    && (forall i, j :: 0 <= i < j < |tasks| ==> Apart(tasks[i], tasks[j]))
  }

  /** The trees of two roots have no frame in common, and no data page is a table. */
  lemma TreesApart(m: seq<Word>, head: Word, terminal: Word, o: Ownership, a: Alive, b: Alive, n: Node, n2: Node)
    requires State(m, head, terminal, o) && Owns(o, a) && Owns(o, b) && Apart(a, b)
    requires n in o.tables && n.root == a.root && n2 in o.tables && n2.root == b.root
    ensures o.tables[n] != o.tables[n2]
    ensures o.tables[n] != a.trapframe && o.tables[n] != a.stack && o.tables[n] != b.trapframe && o.tables[n] != b.stack
  {
    assert o.tables[n] in o.tables.Values;
  }

  lemma {:induction false} RootOfNode(t: Tables, n: Node)
    requires Shape(t) && n in t
    ensures Root(n.root) in t
    decreases n.level
  {
    if n.level > 0 {
      RootOfNode(t, Node(n.root, n.level - 1, n.prefix / 512));
    }
  }

  lemma NoNodeOf(t: Tables, root: nat)
    requires Shape(t) && root !in t.Values
    ensures forall n :: n in t ==> n.root != root
  {
    forall n | n in t
      ensures n.root != root
    {
      RootOfNode(t, n);
      assert t[Root(n.root)] in t.Values;
    }
  }

  /** get_page, and zero what it returned, be it page 0 for want of pages. */
  method ZeroedPage(k: Machine) returns (page: Word)
    requires k.Valid() && !k.locked && k.mem.Length >= 512 && 0 !in k.own.tables.Values
    modifies k, k.mem
    ensures k.Valid() && !k.locked && page % PAGE_SIZE == 0 && page < VA_LIMIT
    ensures if old(k.own).free == [] then page == 0 && k.own == old(k.own)
            else page / PAGE_SIZE == old(k.own).free[0] && k.own == Popped(old(k.own))
    ensures SameTranslation(old(k.mem[..]), k.mem[..], k.own.tables)
    ensures Zeroed(k.mem[..], page / PAGE_SIZE)
    ensures forall p :: Zeroed(old(k.mem[..]), p) ==> Zeroed(k.mem[..], p)
    ensures Elsewhere(old(k.mem[..]), k.mem[..], page / PAGE_SIZE)
    ensures DrawOn(Off, old(k.Ram()), k.Globals()) == Done((k.Ram(), page))
    ensures Unlocked(k.log) == Unlocked(old(k.log))
  {
    hide Held, Acquired, Unlocked, TakeOn, ZeroFrom, State, Zeroed, Elsewhere, SameTranslation;
    HeadOfList(k.mem[..], k.freepages, k.terminal, k.own);
    page := GetPage(k);
    PageIsSpare(k.mem[..], k.freepages, k.terminal, k.own, page / PAGE_SIZE);
    ZeroPage(k, page);
  }

  lemma PageIsSpare(m: seq<Word>, head: Word, terminal: Word, o: Ownership, p: nat)
    requires State(m, head, terminal, o) && (p in o.held || (p == 0 && |m| >= 512 && 0 !in o.tables.Values))
    ensures p !in o.free && p !in o.tables.Values && InMemory(m, p)
  {}

  lemma UnrootHolds(m: seq<Word>, t: Tables, root: nat)
    requires Holds(m, t[Root(root) := root]) && Shape(t) && root !in t.Values
    ensures Holds(m, t)
  {
    var t2 := t[Root(root) := root];
    OldEntries(t, root);
    forall n, i | n in t && n.level < 3 && 0 <= i < 512
      ensures Links(Slot(m, t[n], i), t, Child(n, i))
    {
      assert Links(Slot(m, t2[n], i), t2, Child(n, i));
    }
    hide Shape, Links;
  }

  lemma OldEntries(t: Tables, root: nat)
    requires Shape(t) && root !in t.Values
    ensures forall n :: n in t ==> n != Root(root) && n in t[Root(root) := root] && t[Root(root) := root][n] == t[n]
  {
    forall n | n in t
      ensures n != Root(root)
    {
      assert t[n] in t.Values;
    }
  }

  /** A root without tables below it can be forgotten again. */
  lemma UnrootState(m: seq<Word>, head: Word, terminal: Word, o: Ownership, root: nat)
    requires State(m, head, terminal, Rooted(o, root)) && Shape(o.tables) && Partition(o)
    requires root !in o.tables.Values && root !in o.held
    ensures State(m, head, terminal, o)
  {
    UnrootHolds(m, o.tables, root);
    hide FreeList, Partition, Holds, Shape;
  }

  /** task.trapframe->sp_el0, elr_el1 and spsr_el1: words 31, 32 and 33 of the page. */
  ghost predicate TrapframeSet(m: seq<Word>, l: Layout, p: nat) {
    && InMemory(m, p)
    && Slot(m, p, 31) == PgHeader(MEM_USER_STACK)
    && Slot(m, p, 32) == l.vecEnd
    && Slot(m, p, 33) == EL0T_INTR_ON
    && forall j :: 0 <= j < 512 && !(31 <= j <= 33) ==> Slot(m, p, j) == 0
  }

  /** Fill in the trapframe page, which the task holds. */
  method SetTrapframe(k: Machine, l: Layout, page: Word)
    requires k.Valid() && page % PAGE_SIZE == 0 && page / PAGE_SIZE in k.own.held && Zeroed(k.mem[..], page / PAGE_SIZE)
    modifies k.mem
    ensures k.Valid() && TrapframeSet(k.mem[..], l, page / PAGE_SIZE)
    ensures SameTranslation(old(k.mem[..]), k.mem[..], k.own.tables)
    ensures Elsewhere(old(k.mem[..]), k.mem[..], page / PAGE_SIZE)
    ensures TrapframeOn(old(k.mem[..]), Off, l, page) == Done(k.mem[..])
  {
    hide PgHeader;
    ghost var m, p := k.mem[..], page / PAGE_SIZE;
    PageIsSpare(m, k.freepages, k.terminal, k.own, p);
    var sp: Word := PgHeader(MEM_USER_STACK);
    k.mem[page / 8 + 31] := sp;
    k.mem[page / 8 + 33] := EL0T_INTR_ON;
    k.mem[page / 8 + 32] := l.vecEnd;
    assert Elsewhere(m, k.mem[..], p);
    assert forall j :: 0 <= j < 512 && !(31 <= j <= 33) ==> Slot(k.mem[..], p, j) == Slot(m, p, j);
    OutsideState(m, k.mem[..], k.freepages, k.terminal, k.own, p);
  }

  /** The state after one page more was asked for, and that page: 0 when there is none. */
  function Asked(o: Ownership): Ownership {
    if o.free == [] then o else Popped(o)
  }

  function NextFrame(o: Ownership): nat {
    if o.free == [] then 0 else o.free[0]
  }

  /** The state after a task asked for its root table, its trapframe and its stack. */
  function Drawn(o: Ownership): Ownership {
    Asked(Asked(Asked(o)))
  }

  /** The books: who owns what, with no page listed twice. */
  ghost predicate Books(o: Ownership) {
    Partition(o) && forall j, k :: 0 <= j < k < |o.free| ==> o.free[j] != o.free[k]
  }

  /** A page that was asked for belongs to the caller, if it is a page. */
  lemma AskedPage(o: Ownership)
    requires Books(o)
    ensures Books(Asked(o)) && Asked(o).pool == o.pool && Asked(o).tables == o.tables && o.held <= Asked(o).held
    ensures |Asked(o).free| == if o.free == [] then 0 else |o.free| - 1
    ensures forall p :: p in Asked(o).free ==> p in o.free
    ensures NextFrame(o) !in o.held && NextFrame(o) !in Asked(o).free
    ensures o.free == [] ==> NextFrame(o) == 0 && NextFrame(o) !in o.pool && Asked(o) == o
    ensures o.free != [] ==> NextFrame(o) in Asked(o).held && NextFrame(o) !in o.tables.Values && NextFrame(o) in o.free
  {
    if o.free != [] {
      assert o.free[0] in o.free;
      assert forall p :: p in o.free ==> p == o.free[0] || p in o.free[1..];
    }
  }

  /** The root, trapframe and stack a task is given. */
  lemma DrawnFrames(o: Ownership)
    requires Books(o)
    ensures var o3, r, t, s := Drawn(o), NextFrame(o), NextFrame(Asked(o)), NextFrame(Asked(Asked(o)));
      && o3.tables == o.tables && o3.pool == o.pool && o.held <= o3.held
      && |o3.free| == (if |o.free| < 3 then 0 else |o.free| - 3)
      && r !in o.held && t !in o.held && s !in o.held && r !in o3.free
      && (o.free == [] ==> r == 0 && o3 == o)
      && (o.free != [] ==> r in o3.held && r !in o.tables.Values)
      && (|o.free| >= 3 ==> t in o3.held && s in o3.held && r != t && r != s && t != s)
  {
    hide Partition;
    AskedPage(o);
    AskedPage(Asked(o));
    AskedPage(Asked(Asked(o)));
  }

  /** The frames the three first calls hand out; frame 0 stands for a page that was not there. */
  function TaskFrames(o: Ownership): set<nat> {
    {NextFrame(o), NextFrame(Asked(o)), NextFrame(Asked(Asked(o)))}
  }

  lemma DrawnSize(o: Ownership)
    requires Books(o)
    ensures |Drawn(o).free| == (if |o.free| < 3 then 0 else |o.free| - 3) && (o.free == [] ==> Drawn(o).free == [])
  {
    DrawnFrames(o);
    hide Drawn, NextFrame, Asked, Books;
  }

  lemma ThreeFrames(m: seq<Word>, m1: seq<Word>, m2: seq<Word>, m3: seq<Word>, p: nat, q: nat, r: nat)
    requires Elsewhere(m, m1, p) && Elsewhere(m1, m2, q) && Elsewhere(m2, m3, r)
    ensures OnlyFrames(m, m3, {p, q, r})
  {}

  /** The first three calls of user_task_create. */
  method DrawPages(k: Machine) returns (pgtbl: Word, trapframe: Word, stack: Word)
    requires k.Valid() && !k.locked && k.mem.Length >= 512 && 0 !in k.own.tables.Values
    modifies k, k.mem
    ensures k.Valid() && !k.locked && k.own == Drawn(old(k.own))
    ensures pgtbl % PAGE_SIZE == trapframe % PAGE_SIZE == stack % PAGE_SIZE == 0
    ensures pgtbl < VA_LIMIT && trapframe < VA_LIMIT && stack < VA_LIMIT
    ensures pgtbl / PAGE_SIZE == NextFrame(old(k.own)) && trapframe / PAGE_SIZE == NextFrame(Asked(old(k.own)))
    ensures stack / PAGE_SIZE == NextFrame(Asked(Asked(old(k.own))))
    ensures forall p :: p in TaskFrames(old(k.own)) ==> Zeroed(k.mem[..], p)
    ensures SameTranslation(old(k.mem[..]), k.mem[..], old(k.own).tables)
    ensures OnlyFrames(old(k.mem[..]), k.mem[..], TaskFrames(old(k.own)))
    ensures DrawThreeOn(Off, old(k.Ram()), k.Globals()) == Done((k.Ram(), pgtbl, trapframe, stack))
    ensures Unlocked(k.log) == Unlocked(old(k.log))
  {
    hide Held, Acquired, Unlocked, DrawOn, State, Zeroed, Elsewhere, SameTranslation, OnlyFrames;
    ghost var m, o := k.mem[..], k.own;
    pgtbl := ZeroedPage(k);
    ghost var m1, o1 := k.mem[..], k.own;
    trapframe := ZeroedPage(k);
    ghost var m2 := k.mem[..];
    stack := ZeroedPage(k);
    SameThrice(m, m1, m2, k.mem[..], o.tables);
    ThreeFrames(m, m1, m2, k.mem[..], pgtbl / PAGE_SIZE, trapframe / PAGE_SIZE, stack / PAGE_SIZE);
  }

  lemma SameThrice(m: seq<Word>, m1: seq<Word>, m2: seq<Word>, m3: seq<Word>, t: Tables)
    requires SameTranslation(m, m1, t) && SameTranslation(m1, m2, t) && SameTranslation(m2, m3, t)
    ensures SameTranslation(m, m3, t)
  {}

  // ----- The whole of user_task_create -----

  /** The root is fresh: it has no tables, and it owns none of the pages already spoken for. */
  ghost predicate FreshRoot(o: Ownership, root: nat) {
    root !in o.tables.Values && root !in o.free && (root in o.held || root == 0)
  }

  lemma RootReady(m: seq<Word>, head: Word, terminal: Word, o: Ownership, root: nat)
    requires State(m, head, terminal, o) && FreshRoot(o, root) && Zeroed(m, root) && root < FRAME_LIMIT
    ensures State(m, head, terminal, Rooted(o, root)) && Root(root) in Rooted(o, root).tables
    ensures forall n :: n in Rooted(o, root).tables && n.root == root ==> n == Root(root)
    ensures forall v :: 0 <= v < FRAME_LIMIT ==> Translate(m, root, v) == Fault
    ensures forall r :: Root(r) in o.tables ==> r != root
  {
    NoNodeOf(o.tables, root);
    RootState(m, head, terminal, o, root);
    hide State;
  }

  /** With its space mapped under the fresh root, the task shows its user map, and the pool paid for the tables. */
  lemma SpaceShown(m: seq<Word>, o: Ownership, m2: seq<Word>, o2: Ownership, l: Layout, a: Alive)
    requires LaidOut(l) && a.code + 5 <= ADDRESS_PAGES && a.trapframe < FRAME_LIMIT && a.stack < FRAME_LIMIT
    requires Root(a.root) in o.tables && forall n :: n in o.tables && n.root == a.root ==> n == Root(a.root)
    requires forall v :: 0 <= v < FRAME_LIMIT ==> Translate(m, a.root, v) == Fault
    requires Mapped(m, o, m2, o2, a.root, UserSpace(l, a.code, a.trapframe, a.stack))
    ensures Shows(m2, l, a) && |o.free| == |o2.free| + (PagesOfTask(l) - 3)
  {
    hide UserSpace, Nodes, UserMap, Translate, LaidOut, PagesOfTask, Built, OnlyTables;
    BuiltTook(o, o2, Nodes(a.root, UserSpace(l, a.code, a.trapframe, a.stack).Keys));
    TablesOfTask(l, a.root, a.code, a.trapframe, a.stack, o.tables);
    forall v | 0 <= v < FRAME_LIMIT
      ensures Translate(m2, a.root, v) == UserMap(l, a.code, a.trapframe, a.stack, v)
    {
      UserSpaceIsUserMap(l, a.code, a.trapframe, a.stack, v);
    }
  }

  lemma SpaceShort(m: seq<Word>, o: Ownership, m2: seq<Word>, o2: Ownership, l: Layout, a: Alive)
    requires LaidOut(l) && a.code + 5 <= ADDRESS_PAGES && a.trapframe < FRAME_LIMIT && a.stack < FRAME_LIMIT
    requires Root(a.root) in o.tables && forall n :: n in o.tables && n.root == a.root ==> n == Root(a.root)
    requires OutOfPages(m, o, m2, o2, a.root, UserSpace(l, a.code, a.trapframe, a.stack))
    ensures |o.free| < PagesOfTask(l) - 3 && o2.free == []
  {
    hide UserSpace, Nodes, PagesOfTask;
    ShortTook(o, o2, Nodes(a.root, UserSpace(l, a.code, a.trapframe, a.stack).Keys));
    TablesOfTask(l, a.root, a.code, a.trapframe, a.stack, o.tables);
  }

  /** Every table that is new lies in the pool. */
  ghost predicate NewFromPool(o: Ownership, o2: Ownership) {
    forall n :: n in o2.tables ==> n in o.tables || o2.tables[n] in o.pool
  }

  /** What building a task's space leaves behind, whether it succeeded or not. */
  ghost predicate SpaceKept(m: seq<Word>, o: Ownership, m2: seq<Word>, o2: Ownership, root: nat) {
    && SameTranslation(m, m2, o.tables) && OnlyFrames(m, m2, o2.tables.Values + {root})
    && Extends(o.tables, o2.tables) && o2.pool == o.pool && o2.held == o.held - {root} && 0 !in o2.tables.Values
    && NewFromPool(o, o2)
  }

  /** The translation of the other roots, seen from before the new root was there. */
  lemma OldRootsKept(m: seq<Word>, o: Ownership, m2: seq<Word>, o2: Ownership, root: nat, f: Space)
    requires Mapped(m, Rooted(o, root), m2, o2, root, f) || OutOfPages(m, Rooted(o, root), m2, o2, root, f)
    requires forall r :: Root(r) in o.tables ==> r != root
    ensures SameTranslation(m, m2, o.tables) && OnlyTables(m, m2, o2.tables)
    ensures Extends(o.tables, o2.tables) && o2.pool == o.pool && o2.held == o.held - {root}
    ensures Root(root) in o2.tables
  {
    RootStays(m, Rooted(o, root), m2, o2, root, f);
  }

  /** Page 0 was no page: nothing could be built, and the root is forgotten again. */
  lemma NothingBuilt(m: seq<Word>, head: Word, terminal: Word, o: Ownership, o2: Ownership, root: nat)
    requires State(m, head, terminal, o2) && Grown(Rooted(o, root), o2) && o.free == []
    requires Shape(o.tables) && Partition(o) && root !in o.tables.Values && root !in o.held
    ensures State(m, head, terminal, o) && o2.tables == Rooted(o, root).tables
  {
    hide State, Partition, Shape;
    DryTables(Rooted(o, root), o2);
    assert o2.tables == Rooted(o, root).tables;
    assert o2 == Rooted(o, root);
    UnrootState(m, head, terminal, o, root);
  }

  lemma BackToOld(m: seq<Word>, m2: seq<Word>, o: Ownership, o2: Ownership, root: nat)
    requires OnlyTables(m, m2, o2.tables) && o2.tables == Rooted(o, root).tables && root !in o.held
    requires SameTranslation(m, m2, o.tables) && 0 !in o.tables.Values
    ensures SpaceKept(m, o, m2, o, root)
  {
    hide SameTranslation;
    var t2 := o.tables[Root(root) := root];
    assert forall x :: x in t2.Values ==> x == root || x in o.tables.Values;
    assert o.held - {root} == o.held;
  }

  /** Frame 0 becomes no table: pool pages are not 0, and neither is a root that is a page. */
  lemma ZeroIsNoTable(m: seq<Word>, m2: seq<Word>, head: Word, terminal: Word, o: Ownership, o2: Ownership,
                      root: nat, f: Space)
    requires State(m2, head, terminal, o2) && 0 !in o.tables.Values && root != 0
    requires Mapped(m, Rooted(o, root), m2, o2, root, f) || OutOfPages(m, Rooted(o, root), m2, o2, root, f)
    requires root in o.pool && o2.pool == o.pool
    ensures 0 !in o2.tables.Values && NewFromPool(o, o2)
  {
    assert o2.tables.Keys <= Rooted(o, root).tables.Keys + Nodes(root, f.Keys);
    hide FreeList, Holds, Remapped, OthersKept, OnlyTables;
    forall n | n in o2.tables
      ensures o2.tables[n] != 0 && (n in o.tables || o2.tables[n] in o.pool)
    {
      if n.level == 0 && n != Root(root) {
        assert n in o.tables && o2.tables[n] == o.tables[n];
        assert o.tables[n] in o.tables.Values;
      }
    }
  }

  /** Everything known before a task's pages are mapped under its zeroed root. */
  ghost predicate SpaceReady(m: seq<Word>, head: Word, terminal: Word, o: Ownership, l: Layout, a: Alive)
    requires LaidOut(l)
  {
    && State(m, head, terminal, o) && FreshRoot(o, a.root) && Zeroed(m, a.root) && a.root < FRAME_LIMIT
    && a.code + 5 <= ADDRESS_PAGES && a.trapframe < FRAME_LIMIT && a.stack < FRAME_LIMIT
    && 0 !in o.tables.Values && (a.root == 0 ==> o.free == [] && 0 !in o.held)
  }

  /** The mapping succeeded exactly if the pool had the pages for it. */
  lemma SpaceResult(m: seq<Word>, head: Word, terminal: Word, o: Ownership, m2: seq<Word>, o2: Ownership,
                    l: Layout, a: Alive, ok: bool)
    requires LaidOut(l) && SpaceReady(m, head, terminal, o, l, a)
    requires var f := UserSpace(l, a.code, a.trapframe, a.stack);
      if ok then Mapped(m, Rooted(o, a.root), m2, o2, a.root, f)
      else OutOfPages(m, Rooted(o, a.root), m2, o2, a.root, f)
    ensures ok <==> |o.free| >= PagesOfTask(l) - 3
    ensures !ok ==> o2.free == []
    ensures ok ==> Shows(m2, l, a) && |o.free| == |o2.free| + (PagesOfTask(l) - 3)
  {
    RootReady(m, head, terminal, o, a.root);
    hide State, Mapped, OutOfPages, LaidOut, UserSpace, Shows, PagesOfTask;
    if ok {
      SpaceShown(m, Rooted(o, a.root), m2, o2, l, a);
    } else {
      SpaceShort(m, Rooted(o, a.root), m2, o2, l, a);
    }
  }

  /** A root that was no page is forgotten; any other stays. */
  function Settled(o: Ownership, o2: Ownership, root: nat): Ownership {
    if root == 0 then o else o2
  }

  lemma SpaceSettled(m: seq<Word>, head: Word, terminal: Word, o: Ownership, m2: seq<Word>, head2: Word, o2: Ownership,
                     l: Layout, a: Alive)
    requires LaidOut(l) && SpaceReady(m, head, terminal, o, l, a) && State(m2, head2, terminal, o2)
    requires var f := UserSpace(l, a.code, a.trapframe, a.stack);
      Mapped(m, Rooted(o, a.root), m2, o2, a.root, f) || OutOfPages(m, Rooted(o, a.root), m2, o2, a.root, f)
    ensures State(m2, head2, terminal, Settled(o, o2, a.root))
    ensures SpaceKept(m, o, m2, Settled(o, o2, a.root), a.root)
    ensures a.root != 0 ==> Root(a.root) in Settled(o, o2, a.root).tables
    ensures o2.free == [] ==> Settled(o, o2, a.root).free == []
  {
    var f := UserSpace(l, a.code, a.trapframe, a.stack);
    PartsOfState(m, head, terminal, o);
    RootReady(m, head, terminal, o, a.root);
    hide State, Mapped, OutOfPages, LaidOut, UserSpace, Shape, Partition, Zeroed, SameTranslation;
    OldRootsKept(m, o, m2, o2, a.root, f);
    if a.root == 0 {
      RootStays(m, Rooted(o, a.root), m2, o2, a.root, f);
      NothingBuilt(m2, head2, terminal, o, o2, a.root);
      BackToOld(m, m2, o, o2, a.root);
    } else {
      ZeroIsNoTable(m, m2, head2, terminal, o, o2, a.root, f);
    }
  }

  lemma EnoughForTask(l: Layout)
    requires LaidOut(l)
    ensures PagesOfTask(l) - 3 >= 5
  {
    LowPages(l);
    hide LaidOut;
  }

  lemma PartsOfState(m: seq<Word>, head: Word, terminal: Word, o: Ownership)
    requires State(m, head, terminal, o)
    ensures Shape(o.tables) && Partition(o)
  {}

  /** Map the task's pages under its zeroed root. */
  method BuildSpace(k: Machine, l: Layout, main: Word, pgtbl: Word, trapframe: Word, stack: Word) returns (ok: bool)
    requires LaidOut(l) && k.Valid() && !k.locked && pgtbl % PAGE_SIZE == 0
    requires trapframe < VA_LIMIT && stack < VA_LIMIT && main + 0x5000 < ADDRESS_LIMIT
    requires SpaceReady(k.mem[..], k.freepages, k.terminal, k.own, l,
                        Alive(pgtbl / PAGE_SIZE, trapframe / PAGE_SIZE, stack / PAGE_SIZE, main / PAGE_SIZE))
    modifies k, k.mem
    ensures k.Valid() && !k.locked
    ensures ok <==> |old(k.own).free| >= PagesOfTask(l) - 3
    ensures !ok ==> k.own.free == []
    ensures SpaceKept(old(k.mem[..]), old(k.own), k.mem[..], k.own, pgtbl / PAGE_SIZE)
    ensures old(k.own).free == [] ==> k.mem[..] == old(k.mem[..])
    ensures ok ==> |k.own.free| == |old(k.own).free| - (PagesOfTask(l) - 3) && Root(pgtbl / PAGE_SIZE) in k.own.tables
    ensures ok ==>
      Shows(k.mem[..], l, Alive(pgtbl / PAGE_SIZE, trapframe / PAGE_SIZE, stack / PAGE_SIZE, main / PAGE_SIZE))
    ensures MapUserOn(Off, old(k.Ram()), k.Globals(), l, main, pgtbl, trapframe, stack) == Done((k.Ram(), ok))
    ensures Unlocked(k.log) == Unlocked(old(k.log))
  {
    hide Held, Acquired, Unlocked, MapUserOn;
    ghost var m, head, o := k.mem[..], k.freepages, k.own;
    ghost var a := Alive(pgtbl / PAGE_SIZE, trapframe / PAGE_SIZE, stack / PAGE_SIZE, main / PAGE_SIZE);
    RootReady(m, head, k.terminal, o, a.root);
    EnoughForTask(l);
    assert Node(a.root, 2, 0) !in Rooted(o, a.root).tables;
    assert a.root == 0 ==> |o.free| == 0;
    assert o.free == [] ==> Bare(Rooted(o, a.root), a.root);
    hide State, Mapped, OutOfPages, LaidOut, UserSpace, Shows, PagesOfTask, Rooted, SpaceReady, SpaceKept, Bare;
    k.own := Rooted(o, a.root);
    ok := MapUser(k, l, main, pgtbl, trapframe, stack);
    SpaceResult(m, head, k.terminal, o, k.mem[..], k.own, l, a, ok);
    SpaceSettled(m, head, k.terminal, o, k.mem[..], k.freepages, k.own, l, a);
    k.own := Settled(o, k.own, a.root);
  }

  lemma DrawnReady(m: seq<Word>, head: Word, terminal: Word, o: Ownership, l: Layout, a: Alive)
    requires LaidOut(l) && Books(o) && State(m, head, terminal, Drawn(o)) && 0 !in o.tables.Values
    requires a.root == NextFrame(o) && Zeroed(m, a.root) && a.root < FRAME_LIMIT
    requires a.code + 5 <= ADDRESS_PAGES && a.trapframe < FRAME_LIMIT && a.stack < FRAME_LIMIT
    ensures SpaceReady(m, head, terminal, Drawn(o), l, a)
  {
    DrawnFrames(o);
    PartsOfState(m, head, terminal, Drawn(o));
    hide FreeList, Forest, Drawn, NextFrame, LaidOut, Books;
  }

  lemma BooksOfState(m: seq<Word>, head: Word, terminal: Word, o: Ownership)
    requires State(m, head, terminal, o)
    ensures Books(o)
  {}

  /** The tasks that lived before live on, and the new one with them. */
  lemma LiveExtended(m: seq<Word>, o: Ownership, m2: seq<Word>, o2: Ownership, l: Layout, tasks: seq<Alive>, a: Alive)
    requires LaidOut(l) && Live(m, o, l, tasks) && SameTranslation(m, m2, o.tables)
    requires Extends(o.tables, o2.tables) && o.held <= o2.held
    ensures Live(m2, o2, l, tasks)
    ensures Root(a.root) !in o.tables && a.trapframe !in o.held && a.stack !in o.held && Owns(o2, a) && Shows(m2, l, a)
      ==> Live(m2, o2, l, tasks + [a])
  {
    hide UserMap, Translate, LaidOut;
    forall i | 0 <= i < |tasks|
      ensures Owns(o2, tasks[i]) && Shows(m2, l, tasks[i])
    {
      assert Owns(o, tasks[i]) && Shows(m, l, tasks[i]);
    }
    if Root(a.root) !in o.tables && a.trapframe !in o.held && a.stack !in o.held && Owns(o2, a) && Shows(m2, l, a) {
      forall i | 0 <= i < |tasks|
        ensures Apart(tasks[i], a)
      {
        assert Owns(o, tasks[i]);
      }
    }
  }

  /** The pages of a task created from the pool of `o`. */
  function TaskPages(o: Ownership, main: Word): Alive {
    Alive(NextFrame(o), NextFrame(Asked(o)), NextFrame(Asked(Asked(o))), main / PAGE_SIZE)
  }

  /** From the three pages drawn to the finished space: what a successful creation owns. */
  lemma TaskOwned(m: seq<Word>, o: Ownership, m2: seq<Word>, head2: Word, terminal: Word, o2: Ownership,
                  l: Layout, a: Alive, main: Word)
    requires LaidOut(l) && Books(o) && a == TaskPages(o, main) && |Drawn(o).free| >= 1
    requires SpaceKept(m, Drawn(o), m2, o2, a.root) && State(m2, head2, terminal, o2) && Root(a.root) in o2.tables
    requires Zeroed(m, a.trapframe)
    ensures Owns(o2, a) && a.trapframe !in o.held && a.stack !in o.held && Root(a.root) !in o.tables
    ensures Zeroed(m2, a.trapframe)
  {
    DrawnFrames(o);
    PartsOfState(m2, head2, terminal, o2);
    hide Drawn, NextFrame, Asked, LaidOut, Shape, State, Books;
    assert Root(a.root) !in o.tables by {
      RootsAreFrames(m2, head2, terminal, o, o2, a.root);
    }
    assert a.trapframe in o2.held && a.trapframe !in o2.tables.Values;
    assert forall j :: 0 <= j < 512 ==> Slot(m2, a.trapframe, j) == Slot(m, a.trapframe, j);
  }

  lemma RootsAreFrames(m2: seq<Word>, head2: Word, terminal: Word, o: Ownership, o2: Ownership, root: nat)
    requires State(m2, head2, terminal, o2) && Extends(o.tables, o2.tables) && root !in o.tables.Values
    ensures Root(root) !in o.tables
  {
    forall n | n in o.tables
      ensures n != Root(root)
    {
      assert o.tables[n] in o.tables.Values && o2.tables[n] == o.tables[n];
    }
  }

  lemma HeldGrows(m: seq<Word>, o: Ownership, m2: seq<Word>, o2: Ownership, root: nat)
    requires Books(o) && SpaceKept(m, Drawn(o), m2, o2, root) && root == NextFrame(o)
    ensures o.held <= o2.held && Extends(o.tables, o2.tables) && 0 !in o2.tables.Values
    ensures SameTranslation(m, m2, o.tables) && OnlyFrames(m, m2, o2.tables.Values + {root})
    ensures o2.pool == o.pool && NewFromPool(o, o2)
  {
    DrawnFrames(o);
    hide Drawn, NextFrame, Asked, SameTranslation, Books;
  }

  /** Nothing is written but the new tables and the pages drawn. */
  lemma OnlyTaskFrames(m: seq<Word>, m1: seq<Word>, m2: seq<Word>, m3: seq<Word>, o: Ownership, o2: Ownership)
    requires OnlyFrames(m, m1, TaskFrames(o)) && OnlyFrames(m1, m2, o2.tables.Values + {NextFrame(o)})
    requires m3 == m2 || Elsewhere(m2, m3, NextFrame(Asked(o)))
    ensures OnlyFrames(m, m3, o2.tables.Values + TaskFrames(o))
  {
    hide Asked, NextFrame;
  }

  /** So whoever holds a page finds in it what he left there. */
  lemma HeldPagesKept(m: seq<Word>, m2: seq<Word>, head2: Word, terminal: Word, o: Ownership, o2: Ownership)
    requires Books(o) && State(m2, head2, terminal, o2) && o.held <= o2.held
    requires OnlyFrames(m, m2, o2.tables.Values + TaskFrames(o))
    ensures HeldKept(m, m2, o.held)
  {
    DrawnFrames(o);
    PartsOfState(m2, head2, terminal, o2);
    hide Asked, NextFrame, State, Shape, Books, Drawn;
  }

  ghost predicate HeldKept(m: seq<Word>, m2: seq<Word>, held: set<nat>) {
    forall p :: p in held ==> SameFrame(m, m2, p)
  }

  /** Frame 0 is zeroed when the pool has fewer than three pages, and left alone otherwise. */
  ghost predicate FrameZero(m: seq<Word>, m2: seq<Word>, o: Ownership) {
    if |o.free| >= 3 then SameFrame(m, m2, 0) else Zeroed(m2, 0)
  }

  lemma FrameZeroFate(m: seq<Word>, m1: seq<Word>, m2: seq<Word>, m3: seq<Word>, o: Ownership, o2: Ownership)
    requires Books(o) && OnlyFrames(m, m3, o2.tables.Values + TaskFrames(o)) && 0 !in o2.tables.Values
    requires OnlyFrames(m1, m2, o2.tables.Values + {NextFrame(o)})
    requires forall p :: p in TaskFrames(o) ==> Zeroed(m1, p)
    requires (o.free == [] ==> m2 == m1) && (|o.free| < 3 ==> m3 == m2)
    ensures FrameZero(m, m3, o)
  {
    assert |o.free| < 3 ==> 0 in TaskFrames(o);
    assert o.free != [] ==> o.free[0] in o.free && NextFrame(o) != 0;
    if |o.free| >= 3 {
      assert o.free[1] in o.free && o.free[2] in o.free;
      assert 0 !in TaskFrames(o);
    }
    hide TaskFrames, Books;
  }

  /** What a creation leaves alone. */
  ghost predicate MemoryKept(m: seq<Word>, m2: seq<Word>, o: Ownership, o2: Ownership) {
    && OnlyFrames(m, m2, o2.tables.Values + TaskFrames(o)) && HeldKept(m, m2, o.held) && FrameZero(m, m2, o)
  }

  lemma MemoryStays(m: seq<Word>, m1: seq<Word>, m2: seq<Word>, m3: seq<Word>, head3: Word, terminal: Word,
                    o: Ownership, o2: Ownership)
    requires Books(o) && OnlyFrames(m, m1, TaskFrames(o)) && OnlyFrames(m1, m2, o2.tables.Values + {NextFrame(o)})
    requires m3 == m2 || (|o.free| >= 3 && Elsewhere(m2, m3, NextFrame(Asked(o))))
    requires forall p :: p in TaskFrames(o) ==> Zeroed(m1, p)
    requires State(m3, head3, terminal, o2) && o.held <= o2.held && 0 !in o2.tables.Values
    requires o.free == [] ==> m2 == m1
    ensures MemoryKept(m, m3, o, o2)
  {
    hide Books, State, Asked, NextFrame, Elsewhere, Zeroed, HeldKept, FrameZero, OnlyFrames, TaskFrames;
    OnlyTaskFrames(m, m1, m2, m3, o, o2);
    HeldPagesKept(m, m3, head3, terminal, o, o2);
    FrameZeroFate(m, m1, m2, m3, o, o2);
  }

  /** What a creation does to everything that was there before, whether it succeeds or not: translations, tables and
      pages handed out stay, new tables come from the pool, and only they and the pages drawn are written. */
  ghost predicate Created(m: seq<Word>, o: Ownership, m2: seq<Word>, o2: Ownership) {
    && SameTranslation(m, m2, o.tables) && Extends(o.tables, o2.tables) && o.held <= o2.held && o2.pool == o.pool
    && NewFromPool(o, o2) && 0 !in o2.tables.Values && MemoryKept(m, m2, o, o2)
  }

  lemma CreationKeeps(m: seq<Word>, m1: seq<Word>, m2: seq<Word>, m3: seq<Word>, head3: Word, terminal: Word,
                      o: Ownership, o2: Ownership)
    requires Books(o) && SameTranslation(m, m1, o.tables) && OnlyFrames(m, m1, TaskFrames(o))
    requires SpaceKept(m1, Drawn(o), m2, o2, NextFrame(o)) && State(m3, head3, terminal, o2)
    requires forall p :: p in TaskFrames(o) ==> Zeroed(m1, p)
    requires m3 == m2
          || (|o.free| >= 3 && Elsewhere(m2, m3, NextFrame(Asked(o))) && SameTranslation(m2, m3, o2.tables))
    requires o.free == [] ==> m2 == m1
    ensures Created(m, o, m3, o2)
  {
    hide *;
    HeldGrows(m1, o, m2, o2, NextFrame(o));
    MemoryStays(m, m1, m2, m3, head3, terminal, o, o2);
    SameNow(m2, o2.tables);
    SameStep(m1, m2, m3, o.tables, o2.tables);
    SameNow(m3, o.tables);
    SameThrice(m, m1, m3, m3, o.tables);
    CreatedParts(m, o, m3, o2);
  }

  lemma CreatedParts(m: seq<Word>, o: Ownership, m2: seq<Word>, o2: Ownership)
    requires SameTranslation(m, m2, o.tables) && Extends(o.tables, o2.tables) && o.held <= o2.held && o2.pool == o.pool
    requires NewFromPool(o, o2) && 0 !in o2.tables.Values && MemoryKept(m, m2, o, o2)
    ensures Created(m, o, m2, o2)
  {}

  /** One creation, as the state before and after it shows: it succeeds exactly when the pool holds the pages it takes,
      takes exactly those, and then the new task has its own pages, address space and trapframe; when it fails, it has
      used up the pool. */
  ghost predicate Creation(m: seq<Word>, o: Ownership, m2: seq<Word>, o2: Ownership, l: Layout, main: Word, pure: bool)
    requires LaidOut(l)
  {
    && Created(m, o, m2, o2) && (pure <==> |o.free| >= PagesOfTask(l))
    && (if pure then
          && |o2.free| == |o.free| - PagesOfTask(l) && NewTask(m2, o, o2, l, TaskPages(o, main))
        else o2.free == [])
  }

  ghost predicate NewTask(m2: seq<Word>, o: Ownership, o2: Ownership, l: Layout, a: Alive)
    requires LaidOut(l)
  {
    && Owns(o2, a) && Shows(m2, l, a) && TrapframeSet(m2, l, a.trapframe)
    && Root(a.root) !in o.tables && a.trapframe !in o.held && a.stack !in o.held
  }

  /** Tasks that lived before a creation live on, and the new one joins them. */
  lemma LiveAfter(m: seq<Word>, o: Ownership, m2: seq<Word>, o2: Ownership, l: Layout, main: Word, pure: bool,
                  tasks: seq<Alive>)
    requires LaidOut(l) && Live(m, o, l, tasks) && Creation(m, o, m2, o2, l, main, pure)
    ensures Live(m2, o2, l, if pure then tasks + [TaskPages(o, main)] else tasks)
  {
    hide LaidOut, Live, SameTranslation, Extends, MemoryKept, NewFromPool, PagesOfTask, TaskPages, Owns, Shows,
      TrapframeSet;
    LiveExtended(m, o, m2, o2, l, tasks, if pure then TaskPages(o, main) else Alive(0, 0, 0, 0));
  }

  lemma TrapframeDrawn(o: Ownership)
    ensures NextFrame(o) in TaskFrames(o) && NextFrame(Asked(o)) in TaskFrames(o)
  {}

  lemma CreationDone(m: seq<Word>, o: Ownership, m2: seq<Word>, m3: seq<Word>, o2: Ownership, l: Layout, main: Word)
    requires LaidOut(l) && Created(m, o, m3, o2) && |o.free| >= PagesOfTask(l)
    requires |o2.free| == |o.free| - PagesOfTask(l)
    requires var a := TaskPages(o, main);
      && Owns(o2, a) && a.trapframe !in o.held && a.stack !in o.held && Root(a.root) !in o.tables
      && Shows(m2, l, a) && SameTranslation(m2, m3, o2.tables) && TrapframeSet(m3, l, a.trapframe)
    ensures Creation(m, o, m3, o2, l, main, true)
  {
    hide LaidOut, UserMap, Translate, MemoryKept, NewFromPool, PagesOfTask, TaskPages, TrapframeSet;
  }

  /** The pages of a task, and its space: all of user_task_create before the trapframe. */
  method SpaceForTask(k: Machine, l: Layout, main: Word)
    returns (ok: bool, pgtbl: Word, trapframe: Word, ghost m1: seq<Word>)
    requires LaidOut(l) && k.Valid() && !k.locked && k.mem.Length >= 512 && 0 !in k.own.tables.Values
    requires main + 0x5000 < ADDRESS_LIMIT
    modifies k, k.mem
    ensures k.Valid() && !k.locked && (ok <==> |old(k.own).free| >= PagesOfTask(l))
    ensures pgtbl % PAGE_SIZE == trapframe % PAGE_SIZE == 0
    ensures pgtbl / PAGE_SIZE == TaskPages(old(k.own), main).root
    ensures trapframe / PAGE_SIZE == TaskPages(old(k.own), main).trapframe
    ensures SameTranslation(old(k.mem[..]), m1, old(k.own).tables)
    ensures OnlyFrames(old(k.mem[..]), m1, TaskFrames(old(k.own)))
    ensures forall p :: p in TaskFrames(old(k.own)) ==> Zeroed(m1, p)
    ensures SpaceKept(m1, Drawn(old(k.own)), k.mem[..], k.own, NextFrame(old(k.own)))
    ensures old(k.own).free == [] ==> k.mem[..] == m1
    ensures !ok ==> k.own.free == []
    ensures ok ==> |k.own.free| == |old(k.own).free| - PagesOfTask(l) && Root(NextFrame(old(k.own))) in k.own.tables
    ensures ok ==> Shows(k.mem[..], l, TaskPages(old(k.own), main))
    ensures SpaceOn(Off, old(k.Ram()), k.Globals(), l, main) == Done((k.Ram(), ok, pgtbl, trapframe))
    ensures Unlocked(k.log) == Unlocked(old(k.log))
  {
    ghost var o := k.own;
    ghost var a := TaskPages(o, main);
    hide Held, Acquired, Unlocked, DrawThreeOn, MapUserOn, State, LaidOut, Shows, PagesOfTask, SpaceReady, SpaceKept,
      Books, Drawn, NextFrame, Asked, Zeroed, SameTranslation, OnlyFrames, TaskFrames;
    BooksOfState(k.mem[..], k.freepages, k.terminal, o);
    DrawnSize(o);
    EnoughForTask(l);
    TrapframeDrawn(o);
    var stack;
    pgtbl, trapframe, stack := DrawPages(k);
    m1 := k.mem[..];
    DrawnReady(m1, k.freepages, k.terminal, o, l, a);
    ok := BuildSpace(k, l, main, pgtbl, trapframe, stack);
  }

  /** Create a task running the code at `main`. It succeeds exactly when the pool holds the pages it takes; every
      task created before keeps its address space and its pages, and so does the kernel. */
  method UserTaskCreate(k: Machine, l: Layout, main: Word, ghost tasks: seq<Alive>) returns (task: Task)
    requires LaidOut(l) && k.Valid() && !k.locked && k.mem.Length >= 512 && 0 !in k.own.tables.Values
    requires main + 0x5000 < ADDRESS_LIMIT && Live(k.mem[..], k.own, l, tasks)
    modifies k, k.mem
    ensures k.Valid() && !k.locked
    ensures Creation(old(k.mem[..]), old(k.own), k.mem[..], k.own, l, main, task.pure)
    ensures !task.pure ==> task == Task(0, 0, false) && Live(k.mem[..], k.own, l, tasks)
    ensures task.pure ==> Live(k.mem[..], k.own, l, tasks + [TaskPages(old(k.own), main)])
    ensures task.pure ==> task.ttbr0 / PAGE_SIZE == TaskPages(old(k.own), main).root && task.ttbr0 % PAGE_SIZE == 0
    ensures task.pure ==> task.trapframe / PAGE_SIZE == TaskPages(old(k.own), main).trapframe
    ensures task.pure ==> task.trapframe % PAGE_SIZE == 0
    ensures CreateOn(Off, old(k.Ram()), k.Globals(), l, main) == Done((k.Ram(), task))
    ensures Unlocked(k.log) == Unlocked(old(k.log))
  {
    hide Held, Acquired, Unlocked, SpaceOn, TrapframeOn, State, LaidOut, Shows, PagesOfTask, SpaceKept, Books, Drawn,
      NextFrame, Asked, Live, TrapframeSet, Zeroed, SameTranslation, Elsewhere, OnlyFrames, Created, TaskFrames,
      Extends;
    ghost var m, o := k.mem[..], k.own;
    ghost var a := TaskPages(o, main);
    BooksOfState(m, k.freepages, k.terminal, o);
    EnoughForTask(l);
    DrawnSize(o);
    TrapframeDrawn(o);
    var ok, pgtbl, trapframe, m1 := SpaceForTask(k, l, main);
    ghost var m2 := k.mem[..];
    if !ok {
      CreationKeeps(m, m1, m2, m2, k.freepages, k.terminal, o, k.own);
      LiveAfter(m, o, m2, k.own, l, main, false, tasks);
      return NO_TASK;
    }
    TaskOwned(m1, o, m2, k.freepages, k.terminal, k.own, l, a, main);
    SetTrapframe(k, l, trapframe);
    CreationKeeps(m, m1, m2, k.mem[..], k.freepages, k.terminal, o, k.own);
    CreationDone(m, o, m2, k.mem[..], k.own, l, main);
    LiveAfter(m, o, k.mem[..], k.own, l, main, true, tasks);
    return Task(trapframe, pgtbl, true);
  }
}
