/** Runs of the kernel with the MMU on: what every call on pages and tables keeps, from start-up on. */
module KernelRuns {
  import opened Bits
  import opened Accesses
  import opened Arch
  import opened PageTables
  import opened PaAlloc
  import opened Vm
  import opened AddressSpaces
  import opened KernelSpace
  import opened SelfMapping
  import opened Tasks
  import opened TaskMapping

  /** Memory, the head of the free list, and who owns which page, between two calls. */
  datatype Snapshot = Snapshot(m: seq<Word>, head: Word, o: Ownership)

  /** What the kernel does with pages and tables after start-up: get_page, free_page, a store to a page it was given,
      mapva, user_task_create. */
  datatype Call =
    | Take
    | Free(page: Word)
    | Write(a: Word, w: Word)
    | Map(pgtbl: Word, va: Word, pa: Word, ind: Word, sflag: Word, flags: Word)
    | Create(main: Word)

  function Seen(x: Snapshot): Ram {
    Ram(x.m, x.head)
  }

  /** The accesses of a call. */
  function CallOn(mmu: Mmu, s: Ram, g: Globals, l: Layout, c: Call): Access<Ram> {
    match c
    case Take => RamAfter(TakeOn(mmu, s, g))
    case Free(page) => RamAfter(FreeOn(mmu, s, g, page))
    case Write(a, w) => (match Store(s.words, mmu, a, w) case Abort => Abort case Done(m2) => Done(Ram(m2, s.head)))
    case Map(pgtbl, va, pa, ind, sflag, flags) => RamAfter(MapOn(mmu, s, g, pgtbl, va, pa, ind, sflag, flags))
    case Create(main) => RamAfter(CreateOn(mmu, s, g, l, main))
  }

  function RamAfter<T>(r: Access<(Ram, T)>): Access<Ram> {
    match r
    case Abort => Abort
    case Done((s, _)) => Done(s)
  }

  /** What the caller owes: it frees and writes pages it was given and no task depends on, and maps under roots that are
      neither the kernel's nor a finished task's. */
  ghost predicate Allowed(o: Ownership, l: Layout, tasks: seq<Alive>, c: Call) {
    match c
    case Take => true
    case Free(page) => page != 0 ==>
      page % PAGE_SIZE == 0 && page / PAGE_SIZE in o.held && NoPageOf(tasks, page / PAGE_SIZE)
    case Write(a, _) => a % 8 == 0 && a / PAGE_SIZE in o.held && NoTrapframe(tasks, a / PAGE_SIZE)
    case Map(pgtbl, _, _, _, _, _) =>
      && pgtbl % PAGE_SIZE == 0 && Root(pgtbl / PAGE_SIZE) in o.tables && pgtbl / PAGE_SIZE != l.kpgtbl / PAGE_SIZE
      && NoRootOf(tasks, pgtbl / PAGE_SIZE)
    case Create(main) => main + 0x5000 < ADDRESS_LIMIT
  }

  predicate NoPageOf(tasks: seq<Alive>, p: nat) {
    forall i :: 0 <= i < |tasks| ==> tasks[i].trapframe != p && tasks[i].stack != p
  }

  predicate NoTrapframe(tasks: seq<Alive>, p: nat) {
    forall i :: 0 <= i < |tasks| ==> tasks[i].trapframe != p
  }

  predicate NoRootOf(tasks: seq<Alive>, root: nat) {
    forall i :: 0 <= i < |tasks| ==> tasks[i].root != root
  }

  /** The one page a call of mapva maps. */
  function PageMapped(va: Word, pa: Word, ind: Word, sflag: Word, flags: Word): Space {
    map[Vpn(va) := LeafOutcome(LeafWord(PgRoundDown(pa), flags, ind, sflag))]
  }

  /** Who owns which page after a call. */
  ghost predicate Settles(x: Snapshot, y: Snapshot, g: Globals, l: Layout, c: Call)
    requires LaidOut(l)
  {
    match c
    case Take => y.o == Asked(x.o)
    case Free(page) => y.o == if page == 0 then x.o else Pushed(x.o, page / PAGE_SIZE)
    case Write(_, _) => y.o == x.o
    case Map(pgtbl, va, pa, ind, sflag, flags) =>
      MapSettles(x, y, pgtbl / PAGE_SIZE, PageMapped(va, pa, ind, sflag, flags))
    case Create(main) => Creation(x.m, x.o, y.m, y.o, l, main, TaskOf(x, g, l, main).pure)
  }

  ghost predicate MapSettles(x: Snapshot, y: Snapshot, root: nat, f: Space) {
    Mapped(x.m, x.o, y.m, y.o, root, f) || OutOfPages(x.m, x.o, y.m, y.o, root, f)
  }

  /** What user_task_create returns. */
  function TaskOf(x: Snapshot, g: Globals, l: Layout, main: Word): Task {
    match CreateOn(Off, Seen(x), g, l, main)
    case Abort => NO_TASK
    case Done((_, task)) => task
  }

  /** One call: its accesses on physical memory, and the books after it. */
  ghost predicate Step(x: Snapshot, y: Snapshot, g: Globals, l: Layout, tasks: seq<Alive>, c: Call)
    requires LaidOut(l)
  {
    && Allowed(x.o, l, tasks, c) && CallOn(Off, Seen(x), g, l, c) == Done(Seen(y))
    && State(y.m, y.head, g.terminal, y.o) && Settles(x, y, g, l, c)
  }

  /** The task a call makes, if any. */
  function MadeBy(x: Snapshot, g: Globals, l: Layout, c: Call): seq<Alive> {
    if c.Create? && TaskOf(x, g, l, c.main).pure then [TaskPages(x.o, c.main)] else []
  }

  ghost predicate TrapframesSet(m: seq<Word>, l: Layout, tasks: seq<Alive>) {
    forall i :: 0 <= i < |tasks| ==> TrapframeSet(m, l, tasks[i].trapframe)
  }

  /** What holds between any two calls: the kernel's own map is in force, and all tasks made so far have their pages to
      themselves, see their own address spaces, and find their trapframes as set up. */
  ghost predicate Good(x: Snapshot, g: Globals, l: Layout, tasks: seq<Alive>)
    requires LaidOut(l)
  {
    && Ready(x.m, x.head, g, x.o, l) && 0 !in x.o.tables.Values && |x.m| >= 512
    && Live(x.m, x.o, l, tasks) && TrapframesSet(x.m, l, tasks)
  }

  lemma GoodParts(x: Snapshot, g: Globals, l: Layout, tasks: seq<Alive>)
    requires LaidOut(l) && Good(x, g, l, tasks)
    ensures Ready(x.m, x.head, g, x.o, l) && 0 !in x.o.tables.Values && |x.m| >= 512
    ensures Live(x.m, x.o, l, tasks) && TrapframesSet(x.m, l, tasks)
    ensures State(x.m, x.head, g.terminal, x.o)
  {
    hide Live, LaidOut, KernelMapped;
  }

  /** The calls of the model take these steps. */
  method Perform(k: Machine, l: Layout, c: Call, ghost tasks: seq<Alive>)
    requires LaidOut(l) && k.Valid() && !k.locked && Allowed(k.own, l, tasks, c)
    requires Good(Snapshot(k.mem[..], k.freepages, k.own), k.Globals(), l, tasks)
    modifies k, k.mem
    ensures k.Valid() && !k.locked
    ensures Step(old(Snapshot(k.mem[..], k.freepages, k.own)), Snapshot(k.mem[..], k.freepages, k.own),
                 k.Globals(), l, tasks, c)
    ensures Unlocked(k.log) == Unlocked(old(k.log))
  {
    ghost var x, g := Snapshot(k.mem[..], k.freepages, k.own), k.Globals();
    GoodParts(x, g, l, tasks);
    hide *;
    match c
    case Take =>
      var page := GetPage(k);
      TakeIsStep(x, Snapshot(k.mem[..], k.freepages, k.own), g, l, tasks, page);
    case Free(page) =>
      FreeAllowed(x, l, tasks, page);
      var ok := FreePage(k, page);
      FreeIsStep(x, Snapshot(k.mem[..], k.freepages, k.own), g, l, tasks, page, ok);
    case Write(a, w) =>
      WriteAllowed(x, l, tasks, a, w);
      WriteState(x, k.terminal, a, w);
      k.mem[a / 8] := w;
      WriteIsStep(x, Snapshot(k.mem[..], k.freepages, k.own), g, l, tasks, a, w);
    case Map(pgtbl, va, pa, ind, sflag, flags) =>
      MapAllowed(x, l, tasks, pgtbl, va, pa, ind, sflag, flags);
      var res := MapVa(k, va, pa, pgtbl, ind, sflag, flags, false);
      MapIsMapped(x, Snapshot(k.mem[..], k.freepages, k.own), pgtbl / PAGE_SIZE, Vpn(va),
                  LeafOutcome(LeafWord(PgRoundDown(pa), flags, ind, sflag)), res == 0);
      MapIsStep(x, Snapshot(k.mem[..], k.freepages, k.own), g, l, tasks, pgtbl, va, pa, ind, sflag, flags, res);
    case Create(main) =>
      CreateAllowed(x, l, tasks, main);
      var task := UserTaskCreate(k, l, main, tasks);
      CreateIsStep(x, Snapshot(k.mem[..], k.freepages, k.own), g, l, tasks, main, task);
  }

  lemma FreeAllowed(x: Snapshot, l: Layout, tasks: seq<Alive>, page: Word)
    requires Allowed(x.o, l, tasks, Free(page))
    ensures page != 0 ==> page % PAGE_SIZE == 0 && page / PAGE_SIZE in x.o.held
  {}

  lemma WriteAllowed(x: Snapshot, l: Layout, tasks: seq<Alive>, a: Word, w: Word)
    requires Allowed(x.o, l, tasks, Write(a, w))
    ensures a % 8 == 0 && a / PAGE_SIZE in x.o.held
  {}

  lemma MapAllowed(x: Snapshot, l: Layout, tasks: seq<Alive>,
                   pgtbl: Word, va: Word, pa: Word, ind: Word, sflag: Word, flags: Word)
    requires Allowed(x.o, l, tasks, Map(pgtbl, va, pa, ind, sflag, flags))
    ensures pgtbl % PAGE_SIZE == 0 && Root(pgtbl / PAGE_SIZE) in x.o.tables
  {}

  lemma CreateAllowed(x: Snapshot, l: Layout, tasks: seq<Alive>, main: Word)
    requires Allowed(x.o, l, tasks, Create(main))
    ensures main + 0x5000 < ADDRESS_LIMIT
  {}

  lemma TakeIsStep(x: Snapshot, y: Snapshot, g: Globals, l: Layout, tasks: seq<Alive>, page: Word)
    requires LaidOut(l) && State(y.m, y.head, g.terminal, y.o)
    requires TakeOn(Off, Ram(x.m, x.head), g) == Done((Ram(y.m, y.head), page))
    requires y.o == if x.o.free == [] then x.o else Popped(x.o)
    ensures Step(x, y, g, l, tasks, Take)
  {
    hide LaidOut, State, TakeOn;
  }

  lemma FreeIsStep(x: Snapshot, y: Snapshot, g: Globals, l: Layout, tasks: seq<Alive>, page: Word, ok: bool)
    requires LaidOut(l) && State(y.m, y.head, g.terminal, y.o) && Allowed(x.o, l, tasks, Free(page))
    requires FreeOn(Off, Ram(x.m, x.head), g, page) == Done((Ram(y.m, y.head), ok))
    requires y.o == if page != 0 then Pushed(x.o, page / PAGE_SIZE) else x.o
    ensures Step(x, y, g, l, tasks, Free(page))
  {
    hide LaidOut, State, FreeOn, Allowed, Pushed;
  }

  lemma WriteIsStep(x: Snapshot, y: Snapshot, g: Globals, l: Layout, tasks: seq<Alive>, a: Word, w: Word)
    requires LaidOut(l) && State(y.m, y.head, g.terminal, y.o) && Allowed(x.o, l, tasks, Write(a, w))
    requires a / 8 < |x.m| && y.m == x.m[a / 8 := w] && y.head == x.head && y.o == x.o
    ensures Step(x, y, g, l, tasks, Write(a, w))
  {
    hide LaidOut, State, Allowed;
  }

  lemma MapIsStep(x: Snapshot, y: Snapshot, g: Globals, l: Layout, tasks: seq<Alive>,
                  pgtbl: Word, va: Word, pa: Word, ind: Word, sflag: Word, flags: Word, res: int)
    requires LaidOut(l) && State(y.m, y.head, g.terminal, y.o)
    requires Allowed(x.o, l, tasks, Map(pgtbl, va, pa, ind, sflag, flags))
    requires MapOn(Off, Ram(x.m, x.head), g, pgtbl, va, pa, ind, sflag, flags) == Done((Ram(y.m, y.head), res))
    requires MapSettles(x, y, pgtbl / PAGE_SIZE,
                        map[Vpn(va) := LeafOutcome(LeafWord(PgRoundDown(pa), flags, ind, sflag))])
    ensures Step(x, y, g, l, tasks, Map(pgtbl, va, pa, ind, sflag, flags))
  {
    hide LaidOut, State, MapOn, Allowed, MapSettles, LeafOutcome, LeafWord, PgRoundDown, Vpn;
  }

  lemma CreateIsStep(x: Snapshot, y: Snapshot, g: Globals, l: Layout, tasks: seq<Alive>, main: Word, task: Task)
    requires LaidOut(l) && State(y.m, y.head, g.terminal, y.o) && Allowed(x.o, l, tasks, Create(main))
    requires CreateOn(Off, Ram(x.m, x.head), g, l, main) == Done((Ram(y.m, y.head), task))
    requires Creation(x.m, x.o, y.m, y.o, l, main, task.pure)
    ensures Step(x, y, g, l, tasks, Create(main))
  {
    hide LaidOut, State, CreateOn, Allowed, Creation;
  }

  lemma WriteState(x: Snapshot, terminal: Word, a: Word, w: Word)
    requires State(x.m, x.head, terminal, x.o) && a % 8 == 0 && a / PAGE_SIZE in x.o.held
    ensures a / 8 < |x.m| && State(x.m[a / 8 := w], x.head, terminal, x.o)
    ensures Elsewhere(x.m, x.m[a / 8 := w], a / PAGE_SIZE) && SameTranslation(x.m, x.m[a / 8 := w], x.o.tables)
  {
    var p, i := a / PAGE_SIZE, a % PAGE_SIZE / 8;
    assert a / 8 == p * 512 + i;
    NotFree(x.m, x.head, terminal, x.o, p);
    PageIsSpare(x.m, x.head, terminal, x.o, p);
    StoreSlot(x.m, p, i, w);
    StoredElsewhere(x.m, x.m[a / 8 := w], p, i, w);
    hide State;
    OutsideState(x.m, x.m[a / 8 := w], x.head, terminal, x.o, p);
  }

  lemma MapIsMapped(x: Snapshot, y: Snapshot, root: nat, v: nat, leaf: Outcome, ok: bool)
    requires OnlyTables(x.m, y.m, y.o.tables)
    requires ok ==> Built(x.o, y.o, Path(root, v, 3)) && Remapped(x.m, y.m, x.o.tables, root, map[v := leaf])
    requires !ok ==> Short(x.o, y.o, Path(root, v, 3)) && SameTranslation(x.m, y.m, x.o.tables)
    ensures MapSettles(x, y, root, map[v := leaf])
  {
    NodesOfPage(root, v);
    hide Built, Short, Nodes, Path, OnlyTables;
    assert map[v := leaf].Keys == {v};
  }

  /** get_page is always allowed; free_page of nothing, or of a page that was handed out and is no task's; a store to a
      page that was handed out and is no trapframe; mapva on a root that is neither the kernel's nor a task's; and
      creations. */
  lemma CallsAllowed(o: Ownership, l: Layout, tasks: seq<Alive>, root: nat, a: Word, page: Word, p: nat, job: Call)
    requires page == p * 0x1000 && p in o.held && a % 8 == 0 && a / 0x1000 == p
    ensures Allowed(o, l, tasks, Take) && Allowed(o, l, tasks, Free(0))
    ensures NoPageOf(tasks, p) ==> Allowed(o, l, tasks, Free(page))
    ensures NoTrapframe(tasks, p) ==> forall w: Word :: Allowed(o, l, tasks, Write(a, w))
    ensures job.Map? && job.pgtbl == root * 0x1000 && Root(root) in o.tables ==>
      root != l.kpgtbl / 0x1000 && NoRootOf(tasks, root) ==> Allowed(o, l, tasks, job)
    ensures job.Create? && job.main + 0x5000 < 0x1_0000_0000_0000_0000 ==> Allowed(o, l, tasks, job)
  {}

  // ----- What every call keeps -----

  /** A call that leaves the kernel's translation, and takes new tables from the pool, keeps the kernel ready. */
  lemma KernelRootStays(x: Snapshot, y: Snapshot, g: Globals, l: Layout)
    requires LaidOut(l) && Ready(x.m, x.head, g, x.o, l) && State(y.m, y.head, g.terminal, y.o)
    requires forall u :: 0 <= u < FRAME_LIMIT ==>
      Translate(y.m, l.kpgtbl / PAGE_SIZE, u) == Translate(x.m, l.kpgtbl / PAGE_SIZE, u)
    requires Extends(x.o.tables, y.o.tables) && y.o.pool == x.o.pool && NewFromPool(x.o, y.o)
    ensures Ready(y.m, y.head, g, y.o, l)
  {
    hide LaidOut, State, Translate, KernelMap;
  }

  /** A call that leaves a task its pages, its translation and its trapframe. */
  ghost predicate Spared(x: Snapshot, y: Snapshot, a: Alive) {
    && Root(a.root) in y.o.tables && a.trapframe in y.o.held && a.stack in y.o.held
    && SameFrame(x.m, y.m, a.trapframe)
    && forall v :: 0 <= v < FRAME_LIMIT ==> Translate(y.m, a.root, v) == Translate(x.m, a.root, v)
  }

  lemma SparedStays(x: Snapshot, y: Snapshot, l: Layout, a: Alive)
    requires LaidOut(l) && Owns(x.o, a) && Shows(x.m, l, a) && TrapframeSet(x.m, l, a.trapframe) && Spared(x, y, a)
    ensures Owns(y.o, a) && Shows(y.m, l, a) && TrapframeSet(y.m, l, a.trapframe)
  {
    hide LaidOut, Translate, UserMap;
  }

  lemma TasksStay(x: Snapshot, y: Snapshot, l: Layout, tasks: seq<Alive>)
    requires LaidOut(l) && Live(x.m, x.o, l, tasks) && TrapframesSet(x.m, l, tasks)
    requires forall i :: 0 <= i < |tasks| ==> Spared(x, y, tasks[i])
    ensures Live(y.m, y.o, l, tasks) && TrapframesSet(y.m, l, tasks)
  {
    hide LaidOut, Owns, Shows, TrapframeSet, Spared, Apart;
    forall i | 0 <= i < |tasks|
      ensures Owns(y.o, tasks[i]) && Shows(y.m, l, tasks[i]) && TrapframeSet(y.m, l, tasks[i].trapframe)
    {
      SparedStays(x, y, l, tasks[i]);
    }
  }

  /** A call that changes no translation, and writes no page in use: all tasks are spared. */
  lemma AllSpared(x: Snapshot, y: Snapshot, l: Layout, tasks: seq<Alive>)
    requires LaidOut(l) && Live(x.m, x.o, l, tasks) && SameTranslation(x.m, y.m, x.o.tables)
    requires Extends(x.o.tables, y.o.tables)
    requires forall i :: 0 <= i < |tasks| ==>
      tasks[i].trapframe in y.o.held && tasks[i].stack in y.o.held && SameFrame(x.m, y.m, tasks[i].trapframe)
    ensures forall i :: 0 <= i < |tasks| ==> Spared(x, y, tasks[i])
  {
    hide LaidOut, Shows, Translate, SameFrame, Apart;
    forall i | 0 <= i < |tasks|
      ensures Spared(x, y, tasks[i])
    {
      assert Owns(x.o, tasks[i]);
    }
  }

  lemma TakeGood(x: Snapshot, y: Snapshot, g: Globals, l: Layout, tasks: seq<Alive>)
    requires LaidOut(l) && Good(x, g, l, tasks) && Step(x, y, g, l, tasks, Take)
    ensures Good(y, g, l, tasks)
  {
    GoodParts(x, g, l, tasks);
    TakeThroughMmu(x.m, x.head, g, x.o, l);
    AskedReady(x.m, x.head, g, x.o, l);
    AskedTables(x.o);
    SameNow(x.m, x.o.tables);
    OwnPages(x.o, l, tasks, x.m);
    hide LaidOut, Ready, State, Live, TakeOn, TrapframesSet, SameTranslation;
    AllSpared(x, y, l, tasks);
    TasksStay(x, y, l, tasks);
  }

  lemma OwnPages(o: Ownership, l: Layout, tasks: seq<Alive>, m: seq<Word>)
    requires LaidOut(l) && Live(m, o, l, tasks)
    ensures forall i :: 0 <= i < |tasks| ==>
      Root(tasks[i].root) in o.tables && tasks[i].trapframe in o.held && tasks[i].stack in o.held
  {
    hide LaidOut, Shows;
    assert forall i :: 0 <= i < |tasks| ==> Owns(o, tasks[i]);
  }

  lemma FreedWord(x: Snapshot, y: Snapshot, g: Globals, page: Word)
    requires page != 0 && page / 8 < |x.m| && RamAfter(FreeOn(Off, Seen(x), g, page)) == Done(Seen(y))
    ensures y.m == x.m[page / 8 := x.head]
  {}

  /** A write to one page, which is no task's trapframe. */
  lemma WriteSpares(x: Snapshot, y: Snapshot, l: Layout, tasks: seq<Alive>, p: nat)
    requires LaidOut(l) && Live(x.m, x.o, l, tasks) && SameTranslation(x.m, y.m, x.o.tables)
    requires Elsewhere(x.m, y.m, p) && NoTrapframe(tasks, p) && y.o.tables == x.o.tables
    requires forall q :: q in x.o.held ==> q in y.o.held || (q == p && NoPageOf(tasks, p))
    ensures forall i :: 0 <= i < |tasks| ==> Spared(x, y, tasks[i])
  {
    OwnPages(x.o, l, tasks, x.m);
    hide LaidOut, SameTranslation, Live;
    forall i | 0 <= i < |tasks|
      ensures tasks[i].trapframe in y.o.held && tasks[i].stack in y.o.held
      ensures SameFrame(x.m, y.m, tasks[i].trapframe)
    {
      assert tasks[i].trapframe != p;
    }
    hide Elsewhere, SameFrame;
    AllSpared(x, y, l, tasks);
  }

  lemma FreeGood(x: Snapshot, y: Snapshot, g: Globals, l: Layout, tasks: seq<Alive>, page: Word)
    requires LaidOut(l) && Good(x, g, l, tasks) && RamAfter(FreeOn(Off, Seen(x), g, page)) == Done(Seen(y))
    requires page != 0 && page % PAGE_SIZE == 0 && page / PAGE_SIZE in x.o.held && NoPageOf(tasks, page / PAGE_SIZE)
    requires y.o == Pushed(x.o, page / PAGE_SIZE)
    ensures Good(y, g, l, tasks)
  {
    hide LaidOut, Good, Ready, State, Live, FreeOn, RamAfter, Pushed, NoPageOf, SameTranslation, Elsewhere,
      TrapframesSet;
    GoodParts(x, g, l, tasks);
    FreeReady(x, y, g, l, page);
    FreedMemory(x, y, g, page);
    FreedSpares(x, y, g, l, tasks, page / PAGE_SIZE);
    PushedHolds(x.o, page / PAGE_SIZE);
    TasksStay(x, y, l, tasks);
    GoodWhole(y, g, l, tasks);
  }

  lemma FreedMemory(x: Snapshot, y: Snapshot, g: Globals, page: Word)
    requires State(x.m, x.head, g.terminal, x.o) && RamAfter(FreeOn(Off, Seen(x), g, page)) == Done(Seen(y))
    requires page != 0 && page % PAGE_SIZE == 0 && page / PAGE_SIZE in x.o.held
    ensures |y.m| == |x.m| && Elsewhere(x.m, y.m, page / PAGE_SIZE) && SameTranslation(x.m, y.m, x.o.tables)
  {
    hide State, FreeOn, RamAfter, Elsewhere, SameTranslation;
    WriteState(x, g.terminal, page, x.head);
    FreedWord(x, y, g, page);
  }

  lemma FreedSpares(x: Snapshot, y: Snapshot, g: Globals, l: Layout, tasks: seq<Alive>, p: nat)
    requires LaidOut(l) && Live(x.m, x.o, l, tasks) && Elsewhere(x.m, y.m, p) && SameTranslation(x.m, y.m, x.o.tables)
    requires NoPageOf(tasks, p) && y.o == Pushed(x.o, p)
    ensures forall i :: 0 <= i < |tasks| ==> Spared(x, y, tasks[i])
  {
    hide *;
    PushedHolds(x.o, p);
    NoPage(tasks, p);
    WriteSpares(x, y, l, tasks, p);
  }

  lemma FreeReady(x: Snapshot, y: Snapshot, g: Globals, l: Layout, page: Word)
    requires LaidOut(l) && Ready(x.m, x.head, g, x.o, l) && RamAfter(FreeOn(Off, Seen(x), g, page)) == Done(Seen(y))
    requires page != 0 && page % PAGE_SIZE == 0 && page / PAGE_SIZE in x.o.held && y.o == Pushed(x.o, page / PAGE_SIZE)
    ensures Ready(y.m, y.head, g, y.o, l)
  {
    hide LaidOut, Ready, FreeOn, Pushed;
    var r := FreeThroughMmu(x.m, x.head, g, x.o, l, page);
  }

  lemma PushedHolds(o: Ownership, p: nat)
    ensures Pushed(o, p).tables == o.tables && forall q :: q in o.held ==> q in Pushed(o, p).held || q == p
  {}

  lemma NoPage(tasks: seq<Alive>, p: nat)
    requires NoPageOf(tasks, p)
    ensures NoTrapframe(tasks, p)
  {}

  lemma FreeNothing(x: Snapshot, y: Snapshot, g: Globals)
    requires RamAfter(FreeOn(Off, Seen(x), g, 0)) == Done(Seen(y)) && y.o == x.o
    ensures y == x
  {}

  lemma WriteGood(x: Snapshot, y: Snapshot, g: Globals, l: Layout, tasks: seq<Alive>, a: Word, w: Word)
    requires LaidOut(l) && Good(x, g, l, tasks) && Step(x, y, g, l, tasks, Write(a, w))
    ensures Good(y, g, l, tasks)
  {
    GoodParts(x, g, l, tasks);
    WriteState(x, g.terminal, a, w);
    hide LaidOut, Ready, State, Live, SameTranslation, TrapframesSet, Elsewhere;
    KernelUntouched(x, y, g, l);
    WriteSpares(x, y, l, tasks, a / PAGE_SIZE);
    TasksStay(x, y, l, tasks);
  }

  lemma KernelUntouched(x: Snapshot, y: Snapshot, g: Globals, l: Layout)
    requires LaidOut(l) && Ready(x.m, x.head, g, x.o, l) && State(y.m, y.head, g.terminal, y.o)
    requires SameTranslation(x.m, y.m, x.o.tables) && Extends(x.o.tables, y.o.tables) && y.o.pool == x.o.pool
    requires NewFromPool(x.o, y.o)
    ensures Ready(y.m, y.head, g, y.o, l)
  {
    ReadyParts(x.m, x.head, g, x.o, l);
    hide LaidOut, State, Translate, Ready, KernelMapped;
    KernelRootStays(x, y, g, l);
  }

  /** Mapping makes no new root, so its new tables come from the pool. */
  lemma MappingFromPool(x: Snapshot, y: Snapshot, terminal: Word, root: nat, f: Space)
    requires State(y.m, y.head, terminal, y.o) && Root(root) in x.o.tables && MapSettles(x, y, root, f)
    ensures NewFromPool(x.o, y.o) && Grown(x.o, y.o) && OnlyTables(x.m, y.m, y.o.tables) && 0 !in y.o.pool
  {
    assert y.o.tables.Keys <= x.o.tables.Keys + Nodes(root, f.Keys);
    hide FreeList, Holds, Remapped, OthersKept, OnlyTables;
  }

  lemma MappingKeepsOthers(x: Snapshot, y: Snapshot, root: nat, f: Space, r: nat)
    requires MapSettles(x, y, root, f) && Root(r) in x.o.tables && r != root
    ensures forall u :: 0 <= u < FRAME_LIMIT ==> Translate(y.m, r, u) == Translate(x.m, r, u)
  {
    hide Translate, Built, Short, OnlyTables;
  }

  lemma NoZeroTable(o: Ownership, o2: Ownership)
    requires 0 !in o.tables.Values && NewFromPool(o, o2) && Extends(o.tables, o2.tables) && 0 !in o.pool
    ensures 0 !in o2.tables.Values
  {
    forall n | n in o2.tables
      ensures o2.tables[n] != 0
    {
      assert n in o.tables ==> o.tables[n] in o.tables.Values;
    }
  }

  /** No frame of a page that is held is written by a mapping. */
  lemma HeldNotMapped(x: Snapshot, y: Snapshot, terminal: Word, p: nat)
    requires State(y.m, y.head, terminal, y.o) && OnlyTables(x.m, y.m, y.o.tables) && p in y.o.held
    ensures SameFrame(x.m, y.m, p)
  {}

  lemma MapGood(x: Snapshot, y: Snapshot, g: Globals, l: Layout, tasks: seq<Alive>, root: nat, f: Space)
    requires LaidOut(l) && Good(x, g, l, tasks) && State(y.m, y.head, g.terminal, y.o)
    requires Root(root) in x.o.tables && root != l.kpgtbl / PAGE_SIZE && NoRootOf(tasks, root)
    requires MapSettles(x, y, root, f)
    ensures Good(y, g, l, tasks)
  {
    GoodParts(x, g, l, tasks);
    ReadyParts(x.m, x.head, g, x.o, l);
    MappingFromPool(x, y, g.terminal, root, f);
    OwnPages(x.o, l, tasks, x.m);
    hide LaidOut, Ready, State, Live, Translate, TrapframesSet, MapSettles, SameFrame, KernelMapped;
    MappingKeepsOthers(x, y, root, f, l.kpgtbl / PAGE_SIZE);
    KernelRootStays(x, y, g, l);
    NoZeroTable(x.o, y.o);
    forall i | 0 <= i < |tasks|
      ensures Spared(x, y, tasks[i])
    {
      MappingKeepsOthers(x, y, root, f, tasks[i].root);
      HeldNotMapped(x, y, g.terminal, tasks[i].trapframe);
    }
    TasksStay(x, y, l, tasks);
    hide Grown, OnlyTables;
  }

  /** A creation leaves the trapframes of the tasks before it as they were set up. */
  lemma TrapframesStay(m: seq<Word>, o: Ownership, m2: seq<Word>, o2: Ownership, l: Layout, tasks: seq<Alive>)
    requires LaidOut(l) && Live(m, o, l, tasks) && TrapframesSet(m, l, tasks) && HeldKept(m, m2, o.held)
    ensures TrapframesSet(m2, l, tasks)
  {
    hide LaidOut, Shows;
    forall i | 0 <= i < |tasks|
      ensures TrapframeSet(m2, l, tasks[i].trapframe)
    {
      assert Owns(o, tasks[i]) && TrapframeSet(m, l, tasks[i].trapframe);
      assert SameFrame(m, m2, tasks[i].trapframe);
    }
  }

  lemma CreateGood(x: Snapshot, y: Snapshot, g: Globals, l: Layout, tasks: seq<Alive>, main: Word, pure: bool)
    requires LaidOut(l) && Good(x, g, l, tasks) && State(y.m, y.head, g.terminal, y.o)
    requires Creation(x.m, x.o, y.m, y.o, l, main, pure)
    ensures Good(y, g, l, tasks + if pure then [TaskPages(x.o, main)] else [])
  {
    hide *;
    GoodParts(x, g, l, tasks);
    CreationParts(x, y, l, main, pure);
    KernelUntouched(x, y, g, l);
    LiveAfter(x.m, x.o, y.m, y.o, l, main, pure, tasks);
    TrapframesStay(x.m, x.o, y.m, y.o, l, tasks);
    SameSize(x.m, y.m, x.o, y.o);
    var more := tasks + if pure then [TaskPages(x.o, main)] else [];
    assert more == if pure then tasks + [TaskPages(x.o, main)] else tasks;
    if pure {
      TrapframesMore(y.m, l, tasks, TaskPages(x.o, main));
    }
    GoodWhole(y, g, l, more);
  }

  lemma CreationParts(x: Snapshot, y: Snapshot, l: Layout, main: Word, pure: bool)
    requires LaidOut(l) && Creation(x.m, x.o, y.m, y.o, l, main, pure)
    ensures SameTranslation(x.m, y.m, x.o.tables) && Extends(x.o.tables, y.o.tables) && y.o.pool == x.o.pool
    ensures NewFromPool(x.o, y.o) && 0 !in y.o.tables.Values && HeldKept(x.m, y.m, x.o.held)
    ensures MemoryKept(x.m, y.m, x.o, y.o)
    ensures pure ==> TrapframeSet(y.m, l, TaskPages(x.o, main).trapframe)
  {
    hide LaidOut, SameTranslation, Extends, NewFromPool, OnlyFrames, HeldKept, Owns, Shows, TrapframeSet, TaskPages,
      PagesOfTask, FrameZero;
  }

  lemma TrapframesMore(m2: seq<Word>, l: Layout, tasks: seq<Alive>, a: Alive)
    requires TrapframesSet(m2, l, tasks) && TrapframeSet(m2, l, a.trapframe)
    ensures TrapframesSet(m2, l, tasks + [a])
  {
    hide TrapframeSet;
  }

  lemma GoodWhole(x: Snapshot, g: Globals, l: Layout, tasks: seq<Alive>)
    requires LaidOut(l) && Ready(x.m, x.head, g, x.o, l) && 0 !in x.o.tables.Values && |x.m| >= 512
    requires Live(x.m, x.o, l, tasks) && TrapframesSet(x.m, l, tasks)
    ensures Good(x, g, l, tasks)
  {
    hide LaidOut, Ready, Live, TrapframesSet;
  }

  lemma SameSize(m: seq<Word>, m2: seq<Word>, o: Ownership, o2: Ownership)
    requires MemoryKept(m, m2, o, o2)
    ensures |m2| == |m|
  {}

  lemma CallOfFree(x: Snapshot, y: Snapshot, g: Globals, l: Layout, page: Word)
    requires CallOn(Off, Seen(x), g, l, Free(page)) == Done(Seen(y))
    ensures RamAfter(FreeOn(Off, Seen(x), g, page)) == Done(Seen(y))
  {
    hide FreeOn;
  }

  /** Every call keeps all of it, and a task it makes joins the others. */
  lemma StepGood(x: Snapshot, y: Snapshot, g: Globals, l: Layout, tasks: seq<Alive>, c: Call)
    requires LaidOut(l) && Good(x, g, l, tasks) && Step(x, y, g, l, tasks, c)
    ensures Good(y, g, l, tasks + MadeBy(x, g, l, c))
  {
    hide LaidOut, Good, CallOn, CreateOn, State, Creation, MapSettles, TaskPages;
    assert tasks + [] == tasks;
    match c
    case Take => TakeGood(x, y, g, l, tasks);
    case Free(page) =>
      CallOfFree(x, y, g, l, page);
      if page == 0 {
        FreeNothing(x, y, g);
      } else {
        FreeGood(x, y, g, l, tasks, page);
      }
    case Write(a, w) => WriteGood(x, y, g, l, tasks, a, w);
    case Map(pgtbl, va, pa, ind, sflag, flags) =>
      MapGood(x, y, g, l, tasks, pgtbl / PAGE_SIZE, PageMapped(va, pa, ind, sflag, flags));
    case Create(main) => CreateGood(x, y, g, l, tasks, main, TaskOf(x, g, l, main).pure);
  }

  // ----- Whole runs -----

  /** The tasks made by the first `n` calls, in order. */
  function TasksMade(run: seq<Snapshot>, calls: seq<Call>, g: Globals, l: Layout, n: nat): seq<Alive>
    requires n <= |calls| < |run|
  {
    if n == 0 then [] else TasksMade(run, calls, g, l, n - 1) + MadeBy(run[n - 1], g, l, calls[n - 1])
  }

  ghost predicate StepAt(run: seq<Snapshot>, calls: seq<Call>, g: Globals, l: Layout, i: nat)
    requires LaidOut(l) && i < |calls| < |run|
  {
    Step(run[i], run[i + 1], g, l, TasksMade(run, calls, g, l, i), calls[i])
  }

  /** A run from a state the kernel keeps, with no task made yet. */
  ghost predicate Run(run: seq<Snapshot>, calls: seq<Call>, g: Globals, l: Layout)
    requires LaidOut(l)
  {
    && |calls| < |run| && Good(run[0], g, l, [])
    && forall i :: 0 <= i < |calls| ==> StepAt(run, calls, g, l, i)
  }

  /** After start-up a run can begin. */
  lemma FirstGood(x: Snapshot, g: Globals, l: Layout)
    requires LaidOut(l) && Ready(x.m, x.head, g, x.o, l) && 0 !in x.o.tables.Values && |x.m| >= 512
    ensures Good(x, g, l, [])
  {
    hide LaidOut, Ready;
  }

  /** At every point of every run the kernel's map is in force, every table lies where that map is the identity, and all
      tasks made so far share nothing, see exactly their own address spaces, and find their trapframes as set up. */
  lemma {:induction false} TasksLive(run: seq<Snapshot>, calls: seq<Call>, g: Globals, l: Layout, n: nat)
    requires LaidOut(l) && Run(run, calls, g, l) && n <= |calls|
    ensures Good(run[n], g, l, TasksMade(run, calls, g, l, n))
  {
    hide LaidOut, Good, Step, MadeBy;
    if n > 0 {
      TasksLive(run, calls, g, l, n - 1);
      assert StepAt(run, calls, g, l, n - 1);
      StepGood(run[n - 1], run[n], g, l, TasksMade(run, calls, g, l, n - 1), calls[n - 1]);
    }
  }

  lemma SameCall<T>(x: Snapshot, g: Globals, l: Layout, c: Call, on: Access<(Ram, T)>, off: Access<(Ram, T)>)
    requires on == off && off.Done?
    requires CallOn(KernelMmu(l), Seen(x), g, l, c) == RamAfter(on) && CallOn(Off, Seen(x), g, l, c) == RamAfter(off)
    ensures SameCalls(x, g, l, c)
  {
    hide CallOn, KernelMmu;
  }

  /** A call that does with the MMU on what it does without, and ends in no abort. */
  predicate SameCalls(x: Snapshot, g: Globals, l: Layout, c: Call) {
    CallOn(KernelMmu(l), Seen(x), g, l, c) == CallOn(Off, Seen(x), g, l, c) != Abort
  }

  lemma TakeCall(x: Snapshot, g: Globals, l: Layout)
    requires LaidOut(l) && Ready(x.m, x.head, g, x.o, l)
    ensures SameCalls(x, g, l, Take)
  {
    hide LaidOut, Ready, TakeOn, KernelMmu, SameCalls, RamAfter;
    TakeThroughMmu(x.m, x.head, g, x.o, l);
    SameCall(x, g, l, Take, TakeOn(KernelMmu(l), Seen(x), g), TakeOn(Off, Seen(x), g));
  }

  lemma FreeCall(x: Snapshot, g: Globals, l: Layout, page: Word)
    requires LaidOut(l) && Ready(x.m, x.head, g, x.o, l)
    requires page != 0 ==> page % PAGE_SIZE == 0 && page / PAGE_SIZE in x.o.held
    ensures SameCalls(x, g, l, Free(page))
  {
    hide LaidOut, Ready, FreeOn, KernelMmu, SameCalls, RamAfter;
    var r := FreeThroughMmu(x.m, x.head, g, x.o, l, page);
    SameCall(x, g, l, Free(page), FreeOn(KernelMmu(l), Seen(x), g, page), FreeOn(Off, Seen(x), g, page));
  }

  lemma WriteCall(x: Snapshot, g: Globals, l: Layout, a: Word, w: Word)
    requires LaidOut(l) && Ready(x.m, x.head, g, x.o, l) && a % 8 == 0 && a / PAGE_SIZE in x.o.held
    ensures SameCalls(x, g, l, Write(a, w))
  {
    hide LaidOut, Ready, Store, KernelMmu;
    WriteThroughMmu(x.m, x.head, g, x.o, l, a, w);
  }

  lemma MapCall(x: Snapshot, g: Globals, l: Layout,
                pgtbl: Word, va: Word, pa: Word, ind: Word, sflag: Word, flags: Word)
    requires LaidOut(l) && Ready(x.m, x.head, g, x.o, l)
    requires pgtbl % PAGE_SIZE == 0 && Root(pgtbl / PAGE_SIZE) in x.o.tables
    ensures SameCalls(x, g, l, Map(pgtbl, va, pa, ind, sflag, flags))
  {
    hide LaidOut, Ready, MapOn, KernelMmu, SameCalls, RamAfter;
    var r, o2 := MapThroughMmu(x.m, x.head, g, x.o, l, pgtbl, va, pa, ind, sflag, flags);
    SameCall(x, g, l, Map(pgtbl, va, pa, ind, sflag, flags),
             MapOn(KernelMmu(l), Seen(x), g, pgtbl, va, pa, ind, sflag, flags),
             MapOn(Off, Seen(x), g, pgtbl, va, pa, ind, sflag, flags));
  }

  lemma CreateCall(x: Snapshot, g: Globals, l: Layout, main: Word)
    requires LaidOut(l) && Ready(x.m, x.head, g, x.o, l) && 0 !in x.o.tables.Values && |x.m| >= 512
    ensures SameCalls(x, g, l, Create(main))
  {
    hide LaidOut, Ready, CreateOn, KernelMmu, SameCalls, RamAfter;
    var r := CreateThroughMmu(x.m, x.head, g, x.o, l, main);
    SameCall(x, g, l, Create(main), CreateOn(KernelMmu(l), Seen(x), g, l, main), CreateOn(Off, Seen(x), g, l, main));
  }

  /** Any call, through the kernel's own map: it ends in no abort and does what it does on physical memory. */
  lemma CallThroughMmu(x: Snapshot, g: Globals, l: Layout, tasks: seq<Alive>, c: Call)
    requires LaidOut(l) && Good(x, g, l, tasks) && Allowed(x.o, l, tasks, c)
    ensures CallOn(KernelMmu(l), Seen(x), g, l, c) == CallOn(Off, Seen(x), g, l, c) != Abort
  {
    hide LaidOut, Good, Ready, Live, State, KernelMmu, CallOn, TrapframesSet;
    GoodParts(x, g, l, tasks);
    match c
    case Take => TakeCall(x, g, l);
    case Free(page) => FreeCall(x, g, l, page);
    case Write(a, w) => WriteCall(x, g, l, a, w);
    case Map(pgtbl, va, pa, ind, sflag, flags) => MapCall(x, g, l, pgtbl, va, pa, ind, sflag, flags);
    case Create(main) => CreateCall(x, g, l, main);
  }

  lemma WriteThroughMmu(m: seq<Word>, head: Word, g: Globals, o: Ownership, l: Layout, a: Word, w: Word)
    requires LaidOut(l) && Ready(m, head, g, o, l) && a % 8 == 0 && a / PAGE_SIZE in o.held
    ensures Store(m, KernelMmu(l), a, w) == Store(m, Off, a, w) != Abort
  {
    hide LaidOut, Ready, Store, KernelMmu;
    var page: Word, i := a / PAGE_SIZE * PAGE_SIZE, a % PAGE_SIZE / 8;
    assert page + 8 * i == a;
    var m2 := WordThroughMmu(m, head, g, o, l, page, i, w);
  }

  /** So a run on physical memory is a run through the kernel's own map: every call of it makes the same of memory and
      list, and so would any other call at any point of it. */
  lemma RunThroughMmu(run: seq<Snapshot>, calls: seq<Call>, g: Globals, l: Layout, n: nat, next: Call)
    requires LaidOut(l) && Run(run, calls, g, l) && n <= |calls|
    ensures n < |calls| ==> CallOn(KernelMmu(l), Seen(run[n]), g, l, calls[n]) == Done(Seen(run[n + 1]))
    ensures Allowed(run[n].o, l, TasksMade(run, calls, g, l, n), next) ==>
      CallOn(KernelMmu(l), Seen(run[n]), g, l, next) == CallOn(Off, Seen(run[n]), g, l, next) != Abort
  {
    TasksLive(run, calls, g, l, n);
    hide LaidOut, Good, CallOn, TasksMade, Allowed, KernelMmu;
    var tasks := TasksMade(run, calls, g, l, n);
    if n < |calls| {
      assert StepAt(run, calls, g, l, n);
      CallThroughMmu(run[n], g, l, tasks, calls[n]);
    }
    if Allowed(run[n].o, l, tasks, next) {
      CallThroughMmu(run[n], g, l, tasks, next);
    }
  }

  /** A pool makes tasks as long as it lasts: in a run of creations the n-th call makes a task exactly if the pool held
      the pages of n tasks, and the tasks made take exactly their pages. */
  lemma {:induction false} TasksCounted(run: seq<Snapshot>, calls: seq<Call>, g: Globals, l: Layout, n: nat)
    requires LaidOut(l) && Run(run, calls, g, l) && n <= |calls| && forall i :: 0 <= i < n ==> calls[i].Create?
    ensures n > 0 ==>
      (TaskOf(run[n - 1], g, l, calls[n - 1].main).pure <==> n * PagesOfTask(l) <= |run[0].o.free|)
    ensures |run[n].o.free| == if n * PagesOfTask(l) <= |run[0].o.free| then |run[0].o.free| - n * PagesOfTask(l) else 0
  {
    hide LaidOut, Good, Allowed, CallOn, State, Creation, TaskOf, TasksMade, PagesOfTask;
    if n > 0 {
      TasksCounted(run, calls, g, l, n - 1);
      assert StepAt(run, calls, g, l, n - 1);
      var main := calls[n - 1].main;
      NextCount(run[n - 1], run[n], l, main, TaskOf(run[n - 1], g, l, main).pure, n - 1, |run[0].o.free|);
    }
  }

  lemma NextCount(x: Snapshot, y: Snapshot, l: Layout, main: Word, pure: bool, n: nat, all: nat)
    requires LaidOut(l) && Creation(x.m, x.o, y.m, y.o, l, main, pure)
    requires |x.o.free| == if n * PagesOfTask(l) <= all then all - n * PagesOfTask(l) else 0
    ensures pure <==> (n + 1) * PagesOfTask(l) <= all
    ensures |y.o.free| == if (n + 1) * PagesOfTask(l) <= all then all - (n + 1) * PagesOfTask(l) else 0
  {
    EnoughForTask(l);
    assert (n + 1) * PagesOfTask(l) == n * PagesOfTask(l) + PagesOfTask(l);
    hide LaidOut, Created, NewTask, PagesOfTask;
  }
}
