/** Several cores building address spaces at once, one access at a time and with the MMU on: the calls of
    user_task_create when fork runs on every core. */
module MappingSteps {
  import opened Bits
  import opened Accesses
  import opened Arch
  import opened PageTables
  import opened PaAlloc
  import opened Vm
  import opened AddressSpaces
  import opened SelfMapping
  import opened Tasks
  import opened TaskMapping
  import opened KernelSpace

  type Upper = level: nat | level < 3

  /** A call of mapva: an address of the page, and the descriptor for it. */
  datatype Job = Job(va: Word, e: Word)

  /** What a zeroed page is for. */
  datatype Use = Keep | Top | Under(job: Job, table: Word, level: Upper)

  /** Where a core stands. get_page is one step here: its lock makes it one. */
  datatype Phase =
    | Idle
    | Reading(job: Job, table: Word, level: Upper)              // walk: about to read the entry
    | Asking(job: Job, table: Word, level: Upper)               // it was invalid: about to call get_page
    | Zeroing(page: Word, i: nat, use: Use)                     // about to zero byte i
    | Linking(job: Job, table: Word, level: Upper, page: Word)  // about to store the link
    | Storing(job: Job, table: Word)                            // mapva: about to store the descriptor

  /** A core with the root it maps under (0 for none), the pages it was handed for itself, and what its finished calls
      have mapped under each root it made. */
  datatype Core = Core(root: nat, phase: Phase, kept: set<nat>, spaces: map<nat, Space>)

  /** What an idle core is to do next. */
  datatype Order = DrawRoot | DrawPage | Fill(a: Word, w: Word) | Give(page: Word) | MapIn(job: Job)

  datatype World = World(m: seq<Word>, head: Word, o: Ownership, cores: seq<Core>)

  function Seen(w: World): Ram {
    Ram(w.m, w.head)
  }

  // ----- The steps -----

  function EntryAt(table: Word, va: Word, level: nat): Word
    requires level <= 3
  {
    Plus(table, 8 * VaPtblInd(va, level))
  }

  /** With the table below found, or made. */
  function Lower(job: Job, table: Word, level: Upper): Phase {
    if level == 2 then Storing(job, table) else Reading(job, table, level + 1)
  }

  /** get_page has returned; a draw goes on with page 0 when there is none, walk gives up. */
  function Given(core: Core, page: Word, use: Use): Core {
    core.(phase := if page == 0 && use.Under? then Idle else Zeroing(page, 0, use))
  }

  /** The page is zeroed. */
  function Used(core: Core, page: Word, use: Use): Core {
    match use
    case Keep => core.(phase := Idle, kept := if page == 0 then core.kept else core.kept + {page / PAGE_SIZE})
    case Top =>
      if page == 0 then core.(phase := Idle, root := 0)
      else core.(phase := Idle, root := page / PAGE_SIZE, spaces := core.spaces[page / PAGE_SIZE := map[]])
    case Under(job, table, level) => core.(phase := Linking(job, table, level, page))
  }

  function Finished(core: Core, job: Job): Core {
    var f := if core.root in core.spaces then core.spaces[core.root] else map[];
    core.(phase := Idle, spaces := core.spaces[core.root := f[Vpn(job.va) := LeafOutcome(job.e)]])
  }

  function Begin(mmu: Mmu, s: Ram, g: Globals, core: Core, order: Order): Access<(Ram, Core)> {
    match order
    case DrawRoot => TakeFor(mmu, s, g, core, Top)
    case DrawPage => TakeFor(mmu, s, g, core, Keep)
    case Fill(a, w) => With(Store(s.words, mmu, a, w), s.head, core)
    case Give(page) =>
      (match FreeOn(mmu, s, g, page)
      case Abort => Abort
      case Done((s2, _)) => Done((s2, core.(kept := core.kept - {page / PAGE_SIZE}))))
    case MapIn(job) => Done((s, core.(phase := Reading(job, core.root * PAGE_SIZE % VA_LIMIT, 0))))
  }

  function With(r: Access<seq<Word>>, head: Word, core: Core): Access<(Ram, Core)> {
    match r
    case Abort => Abort
    case Done(m2) => Done((Ram(m2, head), core))
  }

  function TakeFor(mmu: Mmu, s: Ram, g: Globals, core: Core, use: Use): Access<(Ram, Core)> {
    match TakeOn(mmu, s, g)
    case Abort => Abort
    case Done((s2, page)) => Done((s2, Given(core, page, use)))
  }

  /** One step of a core. */
  function Move(mmu: Mmu, s: Ram, g: Globals, core: Core, order: Order): Access<(Ram, Core)> {
    match core.phase
    case Idle => Begin(mmu, s, g, core, order)
    case Reading(job, table, level) =>
      (match Load(s.words, mmu, EntryAt(table, job.va, level))
      case Abort => Abort
      case Done(e) =>
        Done((s, core.(phase := if e % 2 == 1 then Lower(job, DaAddr(e), level) else Asking(job, table, level)))))
    case Asking(job, table, level) => TakeFor(mmu, s, g, core, Under(job, table, level))
    case Zeroing(page, i, use) =>
      With(StoreZero(s.words, mmu, Plus(page, i)), s.head,
           if i < 0xfff then core.(phase := Zeroing(page, i + 1, use)) else Used(core, page, use))
    case Linking(job, table, level, page) =>
      With(Store(s.words, mmu, EntryAt(table, job.va, level), TableEntry(page)), s.head,
           core.(phase := Lower(job, page, level)))
    case Storing(job, table) => With(Store(s.words, mmu, EntryAt(table, job.va, 3), job.e), s.head, Finished(core, job))
  }

  /** Who owns which page after it. */
  function Owned(o: Ownership, core: Core, order: Order): Ownership {
    match core.phase
    case Idle =>
      (match order
      case Give(page) => if page == 0 then o else Pushed(o, page / PAGE_SIZE)
      case Fill(_, _) => o
      case MapIn(_) => o
      case _ => Asked(o))
    case Asking(_, _, _) => Asked(o)
    case Zeroing(page, i, use) => if i >= 0xfff && use.Top? && page != 0 then Rooted(o, page / PAGE_SIZE) else o
    case Linking(job, _, level, page) =>
      Grafted(o, NodeOf(core.root, Vpn(job.va), level), Index(Vpn(job.va), level), page / PAGE_SIZE)
    case _ => o
  }

  /** An idle core writes and frees pages it was handed for itself, and maps under a root it has. */
  predicate Obeys(core: Core, order: Order) {
    core.phase.Idle? ==>
      match order
      case Fill(a, _) => a % 8 == 0 && a / PAGE_SIZE in core.kept
      case Give(page) => page != 0 ==> page % PAGE_SIZE == 0 && page / PAGE_SIZE in core.kept
      case MapIn(_) => core.root != 0
      case _ => true
  }

  ghost predicate Step(w: World, w2: World, g: Globals, c: nat, order: Order) {
    && c < |w.cores| && |w2.cores| == |w.cores| && Obeys(w.cores[c], order)
    && Move(Off, Seen(w), g, w.cores[c], order) == Done((Seen(w2), w2.cores[c]))
    && w2.cores == w.cores[c := w2.cores[c]] && w2.o == Owned(w.o, w.cores[c], order)
  }

  // ----- What every step keeps -----

  /** The page a core is at work on. */
  function AtWork(phase: Phase): set<nat> {
    match phase
    case Zeroing(page, _, _) => if page == 0 then {} else {page / PAGE_SIZE}
    case Linking(_, _, _, page) => {page / PAGE_SIZE}
    case _ => {}
  }

  function Own(core: Core): set<nat> {
    core.kept + AtWork(core.phase)
  }

  ghost predicate Sees(m: seq<Word>, root: nat, f: Space) {
    forall v :: 0 <= v < FRAME_LIMIT ==> Translate(m, root, v) == Through(f, v)
  }

  /** The table a walk has come to is the right one, and the next one is missing. */
  ghost predicate Above(o: Ownership, root: nat, job: Job, table: Word, level: Upper) {
    && root != 0 && IsTable(o.tables, root, Vpn(job.va), level, table)
    && NodeOf(root, Vpn(job.va), level + 1) !in o.tables
  }

  /** The first `i` bytes of a page are zero. */
  ghost predicate Cleared(m: seq<Word>, p: nat, i: nat) {
    InMemory(m, p) && forall j :: 0 <= j < 512 ==> ZeroBytes(Slot(m, p, j), 0, Cut(i - 8 * j)) == Slot(m, p, j)
  }

  ghost predicate PhaseOk(m: seq<Word>, o: Ownership, root: nat, phase: Phase) {
    match phase
    case Idle => true
    case Reading(job, table, level) => root != 0 && IsTable(o.tables, root, Vpn(job.va), level, table)
    case Asking(job, table, level) => Above(o, root, job, table, level)
    case Zeroing(page, i, use) =>
      && page % PAGE_SIZE == 0 && i < 0x1000 && Cleared(m, page / PAGE_SIZE, i)
      && (use.Under? ==> page != 0 && Above(o, root, use.job, use.table, use.level))
    case Linking(job, table, level, page) =>
      page % PAGE_SIZE == 0 && Zeroed(m, page / PAGE_SIZE) && Above(o, root, job, table, level)
    case Storing(job, table) => root != 0 && IsTable(o.tables, root, Vpn(job.va), 3, table)
  }

  /** A core's pages are handed out, its roots are tables, and each of its address spaces shows what its finished calls
      of mapva put there. */
  ghost predicate CoreOk(m: seq<Word>, o: Ownership, l: Layout, core: Core) {
    && (core.root == 0 || core.root in core.spaces) && Own(core) <= o.held && core.kept !! AtWork(core.phase)
    && (forall r :: r in core.spaces ==> RootOk(m, o, l, r, core.spaces[r]))
    && PhaseOk(m, o, core.root, core.phase)
  }

  ghost predicate RootOk(m: seq<Word>, o: Ownership, l: Layout, r: nat, f: Space) {
    Root(r) in o.tables && r != l.kpgtbl / PAGE_SIZE && Sees(m, r, f)
  }

  /** No two cores share a page or a root. */
  ghost predicate Separate(a: Core, b: Core) {
    Own(a) !! Own(b) && a.spaces.Keys !! b.spaces.Keys
  }

  /** The invariant: the kernel's own map is in force, every core is where it should be, and every page handed out since
      the pages of `base` is some core's. */
  ghost predicate Inv(w: World, g: Globals, l: Layout, base: set<nat>)
    requires LaidOut(l)
  {
    && Calm(w.m, w.head, g, w.o, l)
    && (forall c :: 0 <= c < |w.cores| ==> CoreOk(w.m, w.o, l, w.cores[c]))
    && (forall c, d :: 0 <= c < d < |w.cores| ==> Separate(w.cores[c], w.cores[d]))
    && (forall p :: p in w.o.held ==> p in base || exists c :: 0 <= c < |w.cores| && p in Own(w.cores[c]))
  }

  ghost predicate Calm(m: seq<Word>, head: Word, g: Globals, o: Ownership, l: Layout)
    requires LaidOut(l)
  {
    Ready(m, head, g, o, l) && 0 !in o.tables.Values && |m| >= 512
  }

  /** Frame 0, which a draw from the empty list stands for, is at most zeroed further. */
  ghost predicate ZeroFrame(m: seq<Word>, m2: seq<Word>) {
    forall i: nat :: i <= 0x1000 && Cleared(m, 0, i) ==> Cleared(m2, 0, i)
  }

  /** What a step of one core does to everything that is not its own. */
  ghost predicate Effect(m: seq<Word>, o: Ownership, m2: seq<Word>, o2: Ownership, own: set<nat>, root: nat) {
    && |m2| == |m| && Extends(o.tables, o2.tables) && ZeroFrame(m, m2)
    && (forall n :: n in o2.tables && n !in o.tables ==> n.level == 0 || n.root == root)
    && (forall p :: p in o.held && p !in own ==> p in o2.held && SameFrame(m, m2, p))
    && (forall r, v :: Root(r) in o.tables && r != root && 0 <= v < FRAME_LIMIT ==>
         Translate(m2, r, v) == Translate(m, r, v))
  }

  /** How a core's own pages and roots change: pages come from the free list, roots from its own pages. */
  ghost predicate Turnover(o: Ownership, o2: Ownership, core: Core, core2: Core) {
    && (forall p :: p in Own(core2) ==> p in Own(core) || p !in o.held)
    && (forall p :: p in o2.held ==> p in Own(core2) || (p in o.held && p !in Own(core)))
    && (forall r :: r in core2.spaces ==> r in core.spaces || r in Own(core))
  }

  // ----- The cores that stand still -----

  /** Another core is where it was. */
  lemma OtherStays(m: seq<Word>, o: Ownership, m2: seq<Word>, o2: Ownership, l: Layout, core: Core, d: Core)
    requires CoreOk(m, o, l, d) && Effect(m, o, m2, o2, Own(core), core.root) && Separate(core, d)
    requires core.root == 0 || core.root in core.spaces
    requires 0 !in o.tables.Values && Shape(o.tables)
    ensures CoreOk(m2, o2, l, d)
  {
    assert core.root !in d.spaces by {
      assert d.root != 0 ==> d.root in d.spaces;
      if 0 in d.spaces {
        assert RootOk(m, o, l, 0, d.spaces[0]);
        RootFrame(o.tables, 0);
      }
    }
    hide Shape, Separate;
    forall r | r in d.spaces
      ensures RootOk(m2, o2, l, r, d.spaces[r])
    {
      assert RootOk(m, o, l, r, d.spaces[r]);
      RootKept(m, o, m2, o2, Own(core), core.root, l, r, d.spaces[r]);
    }
    OtherPhase(m, o, m2, o2, core, d);
  }

  lemma RootFrame(t: Tables, p: nat)
    requires Shape(t)
    ensures Root(p) in t ==> p in t.Values
  {
    if Root(p) in t {
      assert t[Root(p)] == p;
    }
  }

  lemma RootKept(m: seq<Word>, o: Ownership, m2: seq<Word>, o2: Ownership, own: set<nat>, root: nat,
                 l: Layout, r: nat, f: Space)
    requires RootOk(m, o, l, r, f) && Effect(m, o, m2, o2, own, root) && r != root
    ensures RootOk(m2, o2, l, r, f)
  {
    hide Translate, SameFrame;
  }

  lemma AboveKept(m: seq<Word>, o: Ownership, m2: seq<Word>, o2: Ownership, own: set<nat>, root: nat,
                  r: nat, job: Job, table: Word, level: Upper)
    requires Above(o, r, job, table, level) && Effect(m, o, m2, o2, own, root) && (r == 0 || r != root)
    ensures Above(o2, r, job, table, level)
  {
    hide Translate, SameFrame, Vpn;
  }

  lemma TableKept(m: seq<Word>, o: Ownership, m2: seq<Word>, o2: Ownership, own: set<nat>, root: nat,
                  r: nat, va: Word, table: Word, level: nat)
    requires level <= 3 && IsTable(o.tables, r, Vpn(va), level, table) && Effect(m, o, m2, o2, own, root)
    ensures IsTable(o2.tables, r, Vpn(va), level, table)
  {
    hide Translate, SameFrame, Vpn;
  }

  lemma FrameKept(m: seq<Word>, o: Ownership, m2: seq<Word>, o2: Ownership, own: set<nat>, root: nat, p: nat)
    requires Effect(m, o, m2, o2, own, root) && p in o.held && p !in own
    ensures p in o2.held && SameFrame(m, m2, p)
  {
    hide Translate, SameFrame;
  }

  lemma ZeroKept(m: seq<Word>, o: Ownership, m2: seq<Word>, o2: Ownership, own: set<nat>, root: nat)
    requires Effect(m, o, m2, o2, own, root)
    ensures ZeroFrame(m, m2)
  {
    hide Translate, SameFrame, ZeroFrame;
  }

  lemma ClearedKept(m: seq<Word>, m2: seq<Word>, p: nat, i: nat)
    requires Cleared(m, p, i) && i <= 0x1000 && (SameFrame(m, m2, p) || (p == 0 && ZeroFrame(m, m2)))
    ensures Cleared(m2, p, i)
  {
    hide ZeroBytes;
  }

  /** A frame 0 that stays as it was stays as zero as it was. */
  lemma SameZero(m: seq<Word>, m2: seq<Word>)
    requires SameFrame(m, m2, 0)
    ensures ZeroFrame(m, m2)
  {
    hide ZeroBytes, SameFrame;
    forall i: nat | i <= 0x1000 && Cleared(m, 0, i)
      ensures Cleared(m2, 0, i)
    {
      ClearedKept(m, m2, 0, i);
    }
    hide Cleared;
  }

  lemma OtherPhase(m: seq<Word>, o: Ownership, m2: seq<Word>, o2: Ownership, core: Core, d: Core)
    requires PhaseOk(m, o, d.root, d.phase) && Effect(m, o, m2, o2, Own(core), core.root)
    requires Own(d) <= o.held && Own(core) !! Own(d) && (d.root == 0 || d.root != core.root)
    ensures PhaseOk(m2, o2, d.root, d.phase) && Own(d) <= o2.held
  {
    forall p | p in Own(d)
      ensures p in o2.held && SameFrame(m, m2, p)
    {
      FrameKept(m, o, m2, o2, Own(core), core.root, p);
    }
    var own, root := Own(core), core.root;
    ZeroKept(m, o, m2, o2, own, root);
    hide Effect, Above, Vpn, ZeroBytes;
    match d.phase
    case Idle =>
    case Reading(job, table, level) => TableKept(m, o, m2, o2, own, root, d.root, job.va, table, level);
    case Asking(job, table, level) => AboveKept(m, o, m2, o2, own, root, d.root, job, table, level);
    case Zeroing(page, i, use) =>
      if use.Under? {
        AboveKept(m, o, m2, o2, own, root, d.root, use.job, use.table, use.level);
      }
      ClearedKept(m, m2, page / PAGE_SIZE, i);
    case Linking(job, table, level, page) => AboveKept(m, o, m2, o2, own, root, d.root, job, table, level);
    case Storing(job, table) => TableKept(m, o, m2, o2, own, root, d.root, job.va, table, 3);
  }

  // ----- The core that moves -----

  /** What a step leaves: calm, the core where it should be, and everything else as it was. */
  ghost predicate Kept(m: seq<Word>, o: Ownership, g: Globals, l: Layout, core: Core,
                       s2: Ram, o2: Ownership, core2: Core)
    requires LaidOut(l)
  {
    && Calm(s2.words, s2.head, g, o2, l) && CoreOk(s2.words, o2, l, core2)
    && Effect(m, o, s2.words, o2, Own(core), core.root) && Turnover(o, o2, core, core2)
  }

  /** A step that does the same with the MMU on and off. */
  predicate Moves(s: Ram, g: Globals, l: Layout, core: Core, order: Order, s2: Ram, core2: Core) {
    && Move(KernelMmu(l), s, g, core, order) == Done((s2, core2))
    && Move(Off, s, g, core, order) == Done((s2, core2))
  }

  /** Everything known of the core that is about to move. */
  ghost predicate Before(s: Ram, g: Globals, o: Ownership, l: Layout, core: Core)
    requires LaidOut(l)
  {
    Calm(s.words, s.head, g, o, l) && CoreOk(s.words, o, l, core)
  }

  lemma BeforeParts(s: Ram, g: Globals, o: Ownership, l: Layout, core: Core)
    requires LaidOut(l) && Before(s, g, o, l, core)
    ensures Calm(s.words, s.head, g, o, l) && CoreOk(s.words, o, l, core)
  {
    hide LaidOut, Calm, CoreOk;
  }

  lemma CalmParts(m: seq<Word>, head: Word, g: Globals, o: Ownership, l: Layout)
    requires LaidOut(l) && Calm(m, head, g, o, l)
    ensures Ready(m, head, g, o, l) && State(m, head, g.terminal, o) && KernelMapped(m, l) && Forest(m, o.tables)
    ensures Root(l.kpgtbl / PAGE_SIZE) in o.tables && BelowVideo(o) && LowGlobals(g) && Shape(o.tables)
    ensures 0 !in o.tables.Values && 0 !in o.pool && 0 !in o.held && 0 !in o.free && |m| >= 512
  {
    hide LaidOut, KernelMapped, FreeList, Holds;
  }

  lemma Together(m: seq<Word>, o: Ownership, g: Globals, l: Layout, core: Core, s2: Ram, o2: Ownership, core2: Core)
    requires LaidOut(l) && Calm(s2.words, s2.head, g, o2, l) && CoreOk(s2.words, o2, l, core2)
    requires Effect(m, o, s2.words, o2, Own(core), core.root) && Turnover(o, o2, core, core2)
    ensures Kept(m, o, g, l, core, s2, o2, core2)
  {
    hide LaidOut, Calm, CoreOk, Effect, Turnover;
  }

  lemma EffectNone(m: seq<Word>, o: Ownership, own: set<nat>, root: nat)
    ensures Effect(m, o, m, o, own, root)
  {}

  /** Neither memory nor ownership changes. */
  lemma QuietMove(s: Ram, g: Globals, o: Ownership, l: Layout, core: Core, core2: Core)
    requires LaidOut(l) && Before(s, g, o, l, core)
    requires core2 == core.(phase := core2.phase) && AtWork(core.phase) == AtWork(core2.phase) == {}
    requires PhaseOk(s.words, o, core.root, core2.phase)
    ensures Kept(s.words, o, g, l, core, s, o, core2)
  {
    EffectNone(s.words, o, Own(core), core.root);
    hide LaidOut, Calm, PhaseOk, RootOk, Effect;
  }

  lemma RootNotZero(s: Ram, g: Globals, o: Ownership, l: Layout, core: Core)
    requires LaidOut(l) && Before(s, g, o, l, core) && core.root != 0
    ensures Root(core.root) in o.tables && core.root != l.kpgtbl / PAGE_SIZE && o.tables[Root(core.root)] == core.root
    ensures core.root * PAGE_SIZE < MEM_TMP_END && core.root in core.spaces
  {
    CalmParts(s.words, s.head, g, o, l);
    hide LaidOut, Calm, PhaseOk, State, KernelMapped, Forest, Sees;
    assert RootOk(s.words, o, l, core.root, core.spaces[core.root]);
  }

  /** mapva begins. */
  lemma MapBegins(s: Ram, g: Globals, o: Ownership, l: Layout, core: Core, job: Job)
    requires LaidOut(l) && Before(s, g, o, l, core) && core.phase.Idle? && core.root != 0
    ensures var core2 := core.(phase := Reading(job, core.root * PAGE_SIZE % VA_LIMIT, 0));
      Moves(s, g, l, core, MapIn(job), s, core2) && Kept(s.words, o, g, l, core, s, o, core2)
  {
    hide LaidOut, Calm, CoreOk, State, KernelMapped, Forest, KernelMmu, Kept, Ready, BelowVideo, Shape, LowGlobals;
    RootNotZero(s, g, o, l, core);
    CalmParts(s.words, s.head, g, o, l);
    RootTable(s.words, s.head, g.terminal, o, core.root, Vpn(job.va));
    hide Vpn;
    QuietMove(s, g, o, l, core, core.(phase := Reading(job, core.root * PAGE_SIZE % VA_LIMIT, 0)));
  }

  lemma ChildOf(root: nat, v: nat, level: Upper)
    ensures Child(NodeOf(root, v, level), Index(v, level)) == NodeOf(root, v, level + 1)
  {
    ChildTable(Ownership({}, [], {}, map[]), root, v, level, 0);
  }

  lemma ReadingParts(m: seq<Word>, o: Ownership, l: Layout, core: Core, job: Job, table: Word, level: Upper)
    requires CoreOk(m, o, l, core) && core.phase == Reading(job, table, level)
    ensures core.root != 0 && AtWork(core.phase) == {} && IsTable(o.tables, core.root, Vpn(job.va), level, table)
  {
    hide RootOk, Vpn;
  }

  /** The phase after the entry `e` was read. */
  function AfterRead(phase: Phase, e: Word): Phase
    requires phase.Reading?
  {
    if e % 2 == 1 then Lower(phase.job, DaAddr(e), phase.level) else Asking(phase.job, phase.table, phase.level)
  }

  lemma ReadingMove(s: Ram, g: Globals, l: Layout, core: Core, order: Order, pte: Word, e: Word)
    requires core.phase.Reading? && pte == Plus(core.phase.table, 8 * VaPtblInd(core.phase.job.va, core.phase.level))
    requires Load(s.words, KernelMmu(l), pte) == Load(s.words, Off, pte) == Done(e)
    ensures Moves(s, g, l, core, order, s, core.(phase := AfterRead(core.phase, e)))
  {
    hide Load, KernelMmu, Plus, VaPtblInd, DaAddr, Lower;
  }

  lemma ReadPhase(m: seq<Word>, o: Ownership, root: nat, job: Job, table: Word, level: Upper, e: Word)
    requires root != 0 && IsTable(o.tables, root, Vpn(job.va), level, table)
    requires var c := NodeOf(root, Vpn(job.va), level + 1);
      if c in o.tables then e % 2 == 1 && DaAddr(e) == o.tables[c] * PAGE_SIZE else e % 2 == 0
    ensures var next := AfterRead(Reading(job, table, level), e); PhaseOk(m, o, root, next) && AtWork(next) == {}
  {
    hide DaAddr, Vpn;
  }

  /** walk reads an entry: it goes on below, or finds the next table missing. */
  lemma ReadMoves(s: Ram, g: Globals, o: Ownership, l: Layout, core: Core, order: Order) returns (core2: Core)
    requires LaidOut(l) && Before(s, g, o, l, core) && core.phase.Reading?
    ensures Moves(s, g, l, core, order, s, core2) && Kept(s.words, o, g, l, core, s, o, core2)
  {
    var job, table, level := core.phase.job, core.phase.table, core.phase.level;
    hide *;
    BeforeParts(s, g, o, l, core);
    assert core.phase == Reading(job, table, level);
    CalmParts(s.words, s.head, g, o, l);
    ReadingParts(s.words, o, l, core, job, table, level);
    var v := Vpn(job.va);
    var n, i := NodeOf(core.root, v, level), Index(v, level);
    var pte := EntryThroughMmu(s.words, s.head, g, o, l, core.root, table, job.va, level);
    ReadLink(s.words, s.head, g.terminal, o, n, i);
    ChildOf(core.root, v, level);
    var e := s.words[pte / 8];
    ReadPhase(s.words, o, core.root, job, table, level, e);
    ReadingMove(s, g, l, core, order, pte, e);
    core2 := core.(phase := AfterRead(core.phase, e));
    QuietMove(s, g, o, l, core, core2);
  }

  // ----- get_page -----

  /** get_page for a draw or for walk. */
  lemma TakeMoves(s: Ram, g: Globals, o: Ownership, l: Layout, core: Core, use: Use) returns (s2: Ram, core2: Core)
    requires LaidOut(l) && Before(s, g, o, l, core) && AtWork(core.phase) == {}
    requires use.Under? ==> Above(o, core.root, use.job, use.table, use.level)
    ensures TakeFor(KernelMmu(l), s, g, core, use) == Done((s2, core2))
    ensures TakeFor(Off, s, g, core, use) == Done((s2, core2))
    ensures Kept(s.words, o, g, l, core, s2, Asked(o), core2)
  {
    CalmParts(s.words, s.head, g, o, l);
    TakeThroughMmu(s.words, s.head, g, o, l);
    AskedReady(s.words, s.head, g, o, l);
    HeadAddress(s.words, s.head, g, o, l);
    BooksOfState(s.words, s.head, g.terminal, o);
    AskedPage(o);
    hide LaidOut, Ready, State, KernelMapped, Forest, KernelMmu, TakeOn, SparePage, BelowVideo, Books, Kept, Above;
    var page: Word := if o.free == [] then 0 else s.head;
    s2 := if o.free == [] then s else Ram(s.words, s.words[s.head / 8]);
    core2 := Given(core, page, use);
    TakenKept(s, s2, g, o, l, core, page, use);
  }

  lemma TakenKept(s: Ram, s2: Ram, g: Globals, o: Ownership, l: Layout, core: Core, page: Word, use: Use)
    requires LaidOut(l) && Before(s, g, o, l, core) && AtWork(core.phase) == {} && s2.words == s.words
    requires Ready(s.words, s2.head, g, Asked(o), l) && o.held <= Asked(o).held && NextFrame(o) !in o.held
    requires Asked(o).tables == o.tables && page == NextFrame(o) * PAGE_SIZE
    requires o.free == [] ==> Asked(o) == o && page == 0
    requires o.free != [] ==> page > 0 && InMemory(s.words, NextFrame(o)) && Asked(o).held == o.held + {NextFrame(o)}
    requires use.Under? ==> Above(o, core.root, use.job, use.table, use.level)
    ensures Kept(s.words, o, g, l, core, s2, Asked(o), Given(core, page, use))
  {
    var core2 := Given(core, page, use);
    hide LaidOut, Ready, Asked, NextFrame, Above, Effect, CoreOk, Turnover, Given;
    EffectAsked(s.words, o, Own(core), core.root);
    ZeroInMemory(s, g, o, l, core);
    GivenPages(s.words, o, l, core, page, use);
    GivenPhase(s.words, o, core, page, use);
    RootsAsked(s.words, o, l, core);
    GivenCore(s.words, o, l, core, page, use);
    hide Own;
    Together(s.words, o, g, l, core, s2, Asked(o), core2);
  }

  lemma ZeroInMemory(s: Ram, g: Globals, o: Ownership, l: Layout, core: Core)
    requires LaidOut(l) && Before(s, g, o, l, core)
    ensures InMemory(s.words, 0) && (o.free == [] ==> NextFrame(o) == 0)
  {
    hide LaidOut, Ready, CoreOk;
  }

  /** The page is new to the core, and its only one at work. */
  lemma GivenPages(m: seq<Word>, o: Ownership, l: Layout, core: Core, page: Word, use: Use)
    requires CoreOk(m, o, l, core) && AtWork(core.phase) == {} && NextFrame(o) !in o.held
    requires page == NextFrame(o) * PAGE_SIZE
    requires if page == 0 then Asked(o).held == o.held else Asked(o).held == o.held + {NextFrame(o)}
    ensures var core2 := Given(core, page, use);
      && Own(core2) == Own(core) + (Asked(o).held - o.held) && core2.kept !! AtWork(core2.phase)
      && Turnover(o, Asked(o), core, core2) && Own(core) <= o.held
  {
    hide Asked, NextFrame, RootOk, PhaseOk;
    assert page / PAGE_SIZE == NextFrame(o);
    assert Own(core) == core.kept;
    assert Own(Given(core, page, use)) == core.kept + if page == 0 then {} else {NextFrame(o)};
  }

  lemma GivenPhase(m: seq<Word>, o: Ownership, core: Core, page: Word, use: Use)
    requires page == NextFrame(o) * PAGE_SIZE && InMemory(m, NextFrame(o))
    requires use.Under? ==> Above(o, core.root, use.job, use.table, use.level)
    ensures PhaseOk(m, Asked(o), core.root, Given(core, page, use).phase)
  {
    assert page / PAGE_SIZE == NextFrame(o);
    AboveAsked(o, core.root, use);
    hide Asked, NextFrame, Above;
  }

  lemma GivenCore(m: seq<Word>, o: Ownership, l: Layout, core: Core, page: Word, use: Use)
    requires CoreOk(m, o, l, core) && o.held <= Asked(o).held
    requires forall r :: r in core.spaces ==> RootOk(m, Asked(o), l, r, core.spaces[r])
    requires var core2 := Given(core, page, use);
      && Own(core2) == Own(core) + (Asked(o).held - o.held) && core2.kept !! AtWork(core2.phase)
      && PhaseOk(m, Asked(o), core.root, core2.phase)
    ensures CoreOk(m, Asked(o), l, Given(core, page, use))
  {
    hide RootOk, PhaseOk, Asked, Own, AtWork;
  }

  lemma AboveAsked(o: Ownership, root: nat, use: Use)
    ensures use.Under? && Above(o, root, use.job, use.table, use.level) ==>
      Above(Asked(o), root, use.job, use.table, use.level)
  {
    hide Vpn;
  }

  lemma RootsAsked(m: seq<Word>, o: Ownership, l: Layout, core: Core)
    requires CoreOk(m, o, l, core) && Asked(o).tables == o.tables
    ensures forall r :: r in core.spaces ==> RootOk(m, Asked(o), l, r, core.spaces[r])
  {
    hide Sees, Asked;
    forall r | r in core.spaces
      ensures RootOk(m, Asked(o), l, r, core.spaces[r])
    {
      assert RootOk(m, o, l, r, core.spaces[r]);
    }
  }

  lemma EffectAsked(m: seq<Word>, o: Ownership, own: set<nat>, root: nat)
    requires o.held <= Asked(o).held && Asked(o).tables == o.tables
    ensures Effect(m, o, m, Asked(o), own, root)
  {
    hide Asked;
  }

  // ----- Stores to pages of its own -----

  /** A write to one frame that is no table: everything but that frame stays. */
  lemma WriteEffect(m: seq<Word>, m2: seq<Word>, o: Ownership, own: set<nat>, root: nat, p: nat)
    requires Elsewhere(m, m2, p) && SameTranslation(m, m2, o.tables) && (p in own || p !in o.held)
    requires p == 0 ==> ZeroFrame(m, m2)
    ensures Effect(m, o, m2, o, own, root)
  {
    hide Translate, ZeroFrame;
    if p != 0 {
      assert SameFrame(m, m2, 0);
      SameZero(m, m2);
    }
    forall q | q in o.held && q !in own
      ensures SameFrame(m, m2, q)
    {}
  }

  /** The frame a core may write: a page of its own, or frame 0. */
  lemma Writable(s: Ram, g: Globals, o: Ownership, l: Layout, core: Core, p: nat)
    requires LaidOut(l) && Before(s, g, o, l, core) && (p in Own(core) || p == 0)
    ensures InMemory(s.words, p) && p < 0x30000 && p !in o.free && p !in o.tables.Values
    ensures p in Own(core) || p !in o.held
  {
    CalmParts(s.words, s.head, g, o, l);
    hide LaidOut, Ready, KernelMapped, Forest, PhaseOk, RootOk;
    if p in Own(core) {
      HeldPage(s.words, s.head, g, o, l, p);
    }
    hide State, BelowVideo;
  }

  lemma OwnNotZero(s: Ram, g: Globals, o: Ownership, l: Layout, core: Core, p: nat)
    requires LaidOut(l) && Before(s, g, o, l, core) && p in Own(core)
    ensures p != 0
  {
    CalmParts(s.words, s.head, g, o, l);
    hide LaidOut, Ready, KernelMapped, Forest, PhaseOk, RootOk, State, Own;
  }

  /** What a store there leaves. */
  lemma StoredKeeps(s: Ram, g: Globals, o: Ownership, l: Layout, core: Core, p: nat, i: nat, w: Word, m2: seq<Word>)
    requires LaidOut(l) && Before(s, g, o, l, core) && (p in Own(core) || p == 0) && Stored(s.words, m2, p, i, w)
    requires p == 0 ==> ZeroFrame(s.words, m2)
    ensures Calm(m2, s.head, g, o, l) && Effect(s.words, o, m2, o, Own(core), core.root)
    ensures SameTranslation(s.words, m2, o.tables)
  {
    hide LaidOut, Ready, KernelMapped, Forest, State, Stored, BelowVideo, CoreOk, Own, Elsewhere, SameTranslation,
      Effect, Shape, ZeroFrame;
    CalmParts(s.words, s.head, g, o, l);
    Writable(s, g, o, l, core, p);
    StoredElsewhere(s.words, m2, p, i, w);
    OutsideState(s.words, m2, s.head, g.terminal, o, p);
    ZeroedReady(s.words, m2, s.head, g, o, l, p);
    WriteEffect(s.words, m2, o, Own(core), core.root, p);
    SameLength(s.words, m2, p);
  }

  /** A store there. */
  lemma StoreMoves(s: Ram, g: Globals, o: Ownership, l: Layout, core: Core, p: nat, i: nat, a: Word, w: Word)
    returns (m2: seq<Word>)
    requires LaidOut(l) && Before(s, g, o, l, core) && p in Own(core)
    requires i < 512 && a == p * PAGE_SIZE + 8 * i
    ensures StoresTo(s.words, l, a, w, m2) && Stored(s.words, m2, p, i, w)
    ensures Calm(m2, s.head, g, o, l) && Effect(s.words, o, m2, o, Own(core), core.root)
    ensures SameTranslation(s.words, m2, o.tables)
  {
    hide LaidOut, Ready, KernelMapped, Forest, State, Stored, StoresTo, BelowVideo, CoreOk, Own, SameTranslation,
      Effect, Shape;
    CalmParts(s.words, s.head, g, o, l);
    Writable(s, g, o, l, core, p);
    OwnNotZero(s, g, o, l, core, p);
    m2 := SlotThroughMmu(s.words, l, p, i, a, w);
    StoredKeeps(s, g, o, l, core, p, i, w, m2);
  }

  /** A byte of a low frame is zeroed. */
  lemma ByteThroughMmu(m: seq<Word>, l: Layout, q: nat, i: nat, a: Word) returns (m2: seq<Word>)
    requires LaidOut(l) && KernelMapped(m, l) && InMemory(m, q) && q < 0x30000 && i < 0x1000 && a == q * PAGE_SIZE + i
    ensures StoreZero(m, KernelMmu(l), a) == Done(m2) && StoreZero(m, Off, a) == Done(m2)
    ensures Stored(m, m2, q, i / 8, ZeroBytes(Slot(m, q, i / 8), i % 8, i % 8 + 1))
  {
    hide LaidOut, KernelMapped, KernelMmu, Physical, ZeroBytes;
    assert a < MEM_TMP_END && a / 8 == q * 512 + i / 8 && a % 8 == i % 8;
    SameAddress(m, l, a);
    OffAddress(m, a);
    StoreSlot(m, q, i / 8, ZeroBytes(Slot(m, q, i / 8), i % 8, i % 8 + 1));
    m2 := ZeroByte(m, a);
    hide Stored;
  }

  /** The next byte of the page at work is zeroed. */
  lemma ZeroStoreMoves(s: Ram, g: Globals, o: Ownership, l: Layout, core: Core, page: Word, i: nat)
    returns (m2: seq<Word>)
    requires LaidOut(l) && Before(s, g, o, l, core) && (page == 0 || page / PAGE_SIZE in Own(core))
    requires i < 0x1000 && page % PAGE_SIZE == 0
    ensures StoreZero(s.words, KernelMmu(l), Plus(page, i)) == Done(m2)
    ensures StoreZero(s.words, Off, Plus(page, i)) == Done(m2)
    ensures InMemory(s.words, page / PAGE_SIZE) && ByteStored(s.words, m2, page / PAGE_SIZE, i)
    ensures Calm(m2, s.head, g, o, l) && Effect(s.words, o, m2, o, Own(core), core.root)
    ensures SameTranslation(s.words, m2, o.tables)
  {
    var p := page / PAGE_SIZE;
    hide LaidOut, Ready, KernelMapped, Forest, State, Stored, StoreZero, BelowVideo, CoreOk, Own, SameTranslation,
      Effect, Shape, ZeroBytes, KernelMmu, Plus;
    CalmParts(s.words, s.head, g, o, l);
    Writable(s, g, o, l, core, p);
    ByteAddress(page, i);
    hide ZeroFrame;
    m2 := ByteThroughMmu(s.words, l, p, i, Plus(page, i));
    if p == 0 {
      ByteKeepsZero(s.words, m2, i);
    }
    StoredKeeps(s, g, o, l, core, p, i / 8, ZeroBytes(Slot(s.words, p, i / 8), i % 8, i % 8 + 1), m2);
  }

  /** A byte of frame 0 zeroed leaves the bytes that were zero zero. */
  lemma ByteKeepsZero(m: seq<Word>, m2: seq<Word>, i: nat)
    requires InMemory(m, 0) && i < 0x1000 && ByteStored(m, m2, 0, i)
    ensures ZeroFrame(m, m2)
  {
    hide ZeroBytes;
    forall n: nat | n <= 0x1000 && Cleared(m, 0, n)
      ensures Cleared(m2, 0, n)
    {
      forall j | 0 <= j < 512
        ensures ZeroBytes(Slot(m2, 0, j), 0, Cut(n - 8 * j)) == Slot(m2, 0, j)
      {
        if j == i / 8 {
          ZeroKeepsZero(Slot(m, 0, j), i % 8, Cut(n - 8 * j));
        } else {
          assert Slot(m2, 0, j) == Slot(m, 0, j);
        }
      }
    }
  }

  lemma ByteAddress(page: Word, i: nat)
    requires page % PAGE_SIZE == 0 && i < 0x1000
    ensures Plus(page, i) == page / PAGE_SIZE * PAGE_SIZE + i
  {}

  /** Byte `i` of frame `p` is now zero. */
  ghost predicate ByteStored(m: seq<Word>, m2: seq<Word>, p: nat, i: nat)
    requires InMemory(m, p) && i < 0x1000
  {
    Stored(m, m2, p, i / 8, ZeroBytes(Slot(m, p, i / 8), i % 8, i % 8 + 1))
  }

  /** With translations as they were, and the core's pages and roots too, the core is still where it should be. */
  lemma CoreStays(m: seq<Word>, m2: seq<Word>, o: Ownership, l: Layout, core: Core, core2: Core)
    requires CoreOk(m, o, l, core) && SameTranslation(m, m2, o.tables)
    requires core2 == core.(phase := core2.phase, kept := core2.kept) && Own(core2) == Own(core)
    requires core2.kept !! AtWork(core2.phase) && PhaseOk(m2, o, core.root, core2.phase)
    ensures CoreOk(m2, o, l, core2) && Turnover(o, o, core, core2)
  {
    hide Translate, PhaseOk, Own, AtWork;
    forall r | r in core.spaces
      ensures RootOk(m2, o, l, r, core.spaces[r])
    {
      assert RootOk(m, o, l, r, core.spaces[r]);
    }
  }

  lemma KeptApart(m: seq<Word>, o: Ownership, l: Layout, core: Core)
    requires CoreOk(m, o, l, core)
    ensures core.kept !! AtWork(core.phase) && core.kept <= Own(core) <= o.held && PhaseOk(m, o, core.root, core.phase)
    ensures core.root == 0 || core.root in core.spaces
  {
    hide PhaseOk, RootOk;
  }

  lemma IdleOk(m: seq<Word>, o: Ownership, root: nat)
    ensures PhaseOk(m, o, root, Idle)
  {}

  lemma FillMove(s: Ram, g: Globals, l: Layout, core: Core, a: Word, w: Word, m2: seq<Word>)
    requires core.phase.Idle? && StoresTo(s.words, l, a, w, m2)
    ensures Moves(s, g, l, core, Fill(a, w), Ram(m2, s.head), core)
  {
    hide Store, KernelMmu;
  }

  /** A core fills in a page it keeps. */
  lemma FillMoves(s: Ram, g: Globals, o: Ownership, l: Layout, core: Core, a: Word, w: Word) returns (s2: Ram)
    requires LaidOut(l) && Before(s, g, o, l, core) && core.phase.Idle? && a % 8 == 0 && a / PAGE_SIZE in core.kept
    ensures Moves(s, g, l, core, Fill(a, w), s2, core) && Kept(s.words, o, g, l, core, s2, o, core)
  {
    hide LaidOut, Before, Calm, CoreOk, StoresTo, Stored, Effect, SameTranslation, Kept, PhaseOk, Turnover, Moves,
      Own, AtWork;
    var p, i := a / PAGE_SIZE, a % PAGE_SIZE / 8;
    assert a == p * PAGE_SIZE + 8 * i;
    BeforeParts(s, g, o, l, core);
    KeptApart(s.words, o, l, core);
    var m2 := StoreMoves(s, g, o, l, core, p, i, a, w);
    FillMove(s, g, l, core, a, w, m2);
    IdleOk(m2, o, core.root);
    CoreStays(s.words, m2, o, l, core, core);
    s2 := Ram(m2, s.head);
    Together(s.words, o, g, l, core, s2, o, core);
  }

  /** One more byte is zero. */
  lemma PrefixZero(m: seq<Word>, m2: seq<Word>, p: nat, i: nat)
    requires Cleared(m, p, i) && i < 0x1000 && ByteStored(m, m2, p, i)
    ensures Cleared(m2, p, i + 1)
  {
    hide ZeroBytes;
    forall j | 0 <= j < 512
      ensures ZeroBytes(Slot(m2, p, j), 0, Cut(i + 1 - 8 * j)) == Slot(m2, p, j)
    {
      var w, b := Slot(m, p, j), i % 8;
      if j == i / 8 {
        ZeroBytesThen(w, 0, b, b + 1);
        ZeroBytesTwice(w, b + 1);
      } else {
        assert Slot(m2, p, j) == w && Cut(i + 1 - 8 * j) == Cut(i - 8 * j);
      }
    }
  }

  lemma WholeCleared(m: seq<Word>, p: nat)
    requires Cleared(m, p, 0x1000)
    ensures Zeroed(m, p)
  {
    hide ZeroBytes;
    forall j | 0 <= j < 512
      ensures Slot(m, p, j) == 0
    {
      assert Cut(0x1000 - 8 * j) == 8;
      ZeroAllBytes(Slot(m, p, j));
    }
  }

  lemma ZeroingParts(m: seq<Word>, o: Ownership, l: Layout, core: Core)
    requires CoreOk(m, o, l, core) && core.phase.Zeroing?
    ensures var page, i := core.phase.page, core.phase.i;
      && i < 0x1000 && page % PAGE_SIZE == 0 && (page == 0 || page / PAGE_SIZE in Own(core))
      && Cleared(m, page / PAGE_SIZE, i)
    ensures AtWork(core.phase) == if core.phase.page == 0 then {} else {core.phase.page / PAGE_SIZE}
    ensures var page, use := core.phase.page, core.phase.use;
      use.Under? ==> page != 0 && Above(o, core.root, use.job, use.table, use.level)
  {
    hide RootOk, Above;
  }

  /** What a core at zeroing becomes. */
  function AfterZero(core: Core): Core
    requires core.phase.Zeroing?
  {
    if core.phase.i < 0xfff then core.(phase := Zeroing(core.phase.page, core.phase.i + 1, core.phase.use))
    else Used(core, core.phase.page, core.phase.use)
  }

  lemma ZeroOwn(m: seq<Word>, o: Ownership, l: Layout, core: Core)
    requires CoreOk(m, o, l, core) && core.phase.Zeroing? && (core.phase.i < 0xfff || !core.phase.use.Top?)
    ensures var core2 := AfterZero(core);
      && core2 == core.(phase := core2.phase, kept := core2.kept) && Own(core2) == Own(core)
      && core2.kept !! AtWork(core2.phase)
  {
    hide RootOk, Above;
  }

  lemma ZeroPhase(m: seq<Word>, m2: seq<Word>, o: Ownership, l: Layout, core: Core)
    requires CoreOk(m, o, l, core) && core.phase.Zeroing? && (core.phase.i < 0xfff || !core.phase.use.Top?)
    requires core.phase.i < 0x1000 && InMemory(m, core.phase.page / PAGE_SIZE)
    requires ByteStored(m, m2, core.phase.page / PAGE_SIZE, core.phase.i)
    ensures PhaseOk(m2, o, core.root, AfterZero(core).phase)
  {
    var page, i := core.phase.page, core.phase.i;
    hide RootOk, Above, ByteStored, Zeroed, Cleared;
    PrefixZero(m, m2, page / PAGE_SIZE, i);
    if i == 0xfff {
      WholeCleared(m2, page / PAGE_SIZE);
    }
  }

  lemma ZeroingMove(s: Ram, g: Globals, l: Layout, core: Core, order: Order, m2: seq<Word>)
    requires core.phase.Zeroing?
    requires StoreZero(s.words, KernelMmu(l), Plus(core.phase.page, core.phase.i)) == Done(m2)
    requires StoreZero(s.words, Off, Plus(core.phase.page, core.phase.i)) == Done(m2)
    ensures Moves(s, g, l, core, order, Ram(m2, s.head), AfterZero(core))
  {
    hide StoreZero, KernelMmu, Used, Plus;
  }

  /** Zeroing goes on, or the zeroed page is kept, or is about to be linked. */
  lemma ZeroMoves(s: Ram, g: Globals, o: Ownership, l: Layout, core: Core, order: Order) returns (s2: Ram)
    requires LaidOut(l) && Before(s, g, o, l, core) && core.phase.Zeroing?
    requires core.phase.i < 0xfff || !core.phase.use.Top?
    ensures Moves(s, g, l, core, order, s2, AfterZero(core))
    ensures Kept(s.words, o, g, l, core, s2, o, AfterZero(core))
  {
    var page, i := core.phase.page, core.phase.i;
    hide LaidOut, Calm, CoreOk, Stored, Effect, SameTranslation, Kept, Zeroed, Above, Turnover, AfterZero, Own, Moves,
      StoreZero, Cleared, ByteStored, KernelMmu, PhaseOk, Plus;
    ZeroingParts(s.words, o, l, core);
    var m2 := ZeroStoreMoves(s, g, o, l, core, page, i);
    ZeroingMove(s, g, l, core, order, m2);
    ZeroOwn(s.words, o, l, core);
    ZeroPhase(s.words, m2, o, l, core);
    CoreStays(s.words, m2, o, l, core, AfterZero(core));
    s2 := Ram(m2, s.head);
    Together(s.words, o, g, l, core, s2, o, AfterZero(core));
  }

  // ----- A new root -----

  /** Held pages are no roots. */
  lemma HeldNoRoot(m: seq<Word>, head: Word, terminal: Word, o: Ownership, p: nat)
    requires State(m, head, terminal, o) && p in o.held
    ensures Root(p) !in o.tables && p !in o.tables.Values
  {
    hide FreeList, Holds;
    RootFrame(o.tables, p);
  }

  lemma RootedEffect(m: seq<Word>, m2: seq<Word>, o: Ownership, own: set<nat>, root: nat, p: nat)
    requires Effect(m, o, m2, o, own, root) && p in own && Root(p) !in o.tables
    ensures Effect(m, o, m2, Rooted(o, p), own, root)
  {
    hide Translate, SameFrame, ZeroFrame;
  }

  lemma RootedValues(o: Ownership, p: nat)
    requires 0 !in o.tables.Values && p != 0
    ensures 0 !in Rooted(o, p).tables.Values && Root(p) in Rooted(o, p).tables && Rooted(o, p).held == o.held - {p}
    ensures forall r :: Root(r) in o.tables ==> Root(r) in Rooted(o, p).tables
  {}

  /** The core with its new root, where nothing is mapped. */
  lemma RootedCore(m: seq<Word>, m2: seq<Word>, o: Ownership, l: Layout, core: Core, p: nat)
    requires CoreOk(m, o, l, core) && SameTranslation(m, m2, o.tables) && AtWork(core.phase) == {p} && p != 0
    requires p != l.kpgtbl / PAGE_SIZE && 0 !in o.tables.Values
    requires forall v :: 0 <= v < FRAME_LIMIT ==> Translate(m2, p, v) == Fault
    ensures var core2 := core.(phase := Idle, root := p, spaces := core.spaces[p := map[]]);
      CoreOk(m2, Rooted(o, p), l, core2) && Turnover(o, Rooted(o, p), core, core2)
  {
    RootedValues(o, p);
    hide Translate, PhaseOk, Rooted;
    var core2 := core.(phase := Idle, root := p, spaces := core.spaces[p := map[]]);
    forall r | r in core2.spaces
      ensures RootOk(m2, Rooted(o, p), l, r, core2.spaces[r])
    {
      assert r != p ==> RootOk(m, o, l, r, core.spaces[r]);
    }
    IdleOk(m2, Rooted(o, p), p);
  }

  lemma HeldNotKernel(m: seq<Word>, head: Word, g: Globals, o: Ownership, l: Layout, p: nat)
    requires LaidOut(l) && Calm(m, head, g, o, l) && p in o.held
    ensures p != l.kpgtbl / PAGE_SIZE && p < 0x30000 && p != 0
  {
    CalmParts(m, head, g, o, l);
    HeldNoRoot(m, head, g.terminal, o, p);
    HeldPage(m, head, g, o, l, p);
    hide LaidOut, State, KernelMapped, Forest;
  }

  lemma OwnHeld(m: seq<Word>, o: Ownership, l: Layout, core: Core, p: nat)
    requires CoreOk(m, o, l, core) && p in AtWork(core.phase)
    ensures p in Own(core) && p in o.held
  {
    hide RootOk, PhaseOk, AtWork;
  }

  /** A draw that found no page leaves the core without a root. */
  lemma NoRootCore(m: seq<Word>, m2: seq<Word>, o: Ownership, l: Layout, core: Core)
    requires CoreOk(m, o, l, core) && SameTranslation(m, m2, o.tables) && AtWork(core.phase) == {}
    ensures var core2 := core.(phase := Idle, root := 0); CoreOk(m2, o, l, core2) && Turnover(o, o, core, core2)
  {
    IdleOk(m2, o, 0);
    hide Translate, PhaseOk;
    forall r | r in core.spaces
      ensures RootOk(m2, o, l, r, core.spaces[r])
    {
      assert RootOk(m, o, l, r, core.spaces[r]);
    }
  }

  lemma RootMade(s: Ram, m2: seq<Word>, g: Globals, o: Ownership, l: Layout, core: Core, p: nat)
    requires LaidOut(l) && Before(s, g, o, l, core) && AtWork(core.phase) == {p} && p != 0 && Zeroed(m2, p)
    requires Calm(m2, s.head, g, o, l) && Effect(s.words, o, m2, o, Own(core), core.root)
    requires SameTranslation(s.words, m2, o.tables)
    ensures var core2 := core.(phase := Idle, root := p, spaces := core.spaces[p := map[]]);
      Kept(s.words, o, g, l, core, Ram(m2, s.head), Rooted(o, p), core2)
  {
    OwnHeld(s.words, o, l, core, p);
    hide LaidOut, CoreOk, Effect, SameTranslation, Kept, Zeroed, Turnover, Own, Rooted, Ready, State, KernelMapped,
      Forest, Shape, BelowVideo, Translate;
    HeldNotKernel(m2, s.head, g, o, l, p);
    CalmParts(m2, s.head, g, o, l);
    HeldNoRoot(m2, s.head, g.terminal, o, p);
    RootState(m2, s.head, g.terminal, o, p);
    RootedReady(m2, s.head, g, o, l, p);
    RootedValues(o, p);
    RootedEffect(s.words, m2, o, Own(core), core.root, p);
    RootedCore(s.words, m2, o, l, core, p);
    Together(s.words, o, g, l, core, Ram(m2, s.head), Rooted(o, p),
             core.(phase := Idle, root := p, spaces := core.spaces[p := map[]]));
  }

  lemma RootAfter(o: Ownership, core: Core, order: Order, page: Word)
    requires core.phase == Zeroing(page, 0xfff, Top)
    ensures page == 0 ==> AfterZero(core) == core.(phase := Idle, root := 0) && Owned(o, core, order) == o
    ensures page != 0 ==> Owned(o, core, order) == Rooted(o, page / PAGE_SIZE)
    ensures var p := page / PAGE_SIZE;
      p != 0 ==> AfterZero(core) == core.(phase := Idle, root := p, spaces := core.spaces[p := map[]])
  {
    hide Rooted;
  }

  lemma TopParts(m: seq<Word>, o: Ownership, l: Layout, core: Core, page: Word)
    requires CoreOk(m, o, l, core) && core.phase == Zeroing(page, 0xfff, Top)
    ensures page % PAGE_SIZE == 0 && (page == 0 || page / PAGE_SIZE in Own(core))
    ensures Cleared(m, page / PAGE_SIZE, 0xfff)
    ensures AtWork(core.phase) == if page == 0 then {} else {page / PAGE_SIZE}
  {
    hide CoreOk, Cleared, Own, AtWork;
    ZeroingParts(m, o, l, core);
  }

  /** The last byte of a page that becomes a root. */
  lemma RootMoves(s: Ram, g: Globals, o: Ownership, l: Layout, core: Core, order: Order) returns (s2: Ram)
    requires LaidOut(l) && Before(s, g, o, l, core)
    requires core.phase.Zeroing? && core.phase.i == 0xfff && core.phase.use.Top?
    ensures Moves(s, g, l, core, order, s2, AfterZero(core))
    ensures Kept(s.words, o, g, l, core, s2, Owned(o, core, order), AfterZero(core))
  {
    var page := core.phase.page;
    assert core.phase == Zeroing(page, 0xfff, Top);
    hide LaidOut, Before, CoreOk, Kept, Moves, StoreZero, KernelMmu, Plus, AfterZero, Owned;
    var m2 := RootStore(s, g, o, l, core, order, page, page / PAGE_SIZE);
    ZeroingMove(s, g, l, core, order, m2);
    s2 := Ram(m2, s.head);
  }

  lemma RootStore(s: Ram, g: Globals, o: Ownership, l: Layout, core: Core, order: Order, page: Word, p: nat)
    returns (m2: seq<Word>)
    requires LaidOut(l) && Before(s, g, o, l, core) && core.phase == Zeroing(page, 0xfff, Top)
    requires p == page / PAGE_SIZE
    ensures StoreZero(s.words, KernelMmu(l), Plus(page, 0xfff)) == Done(m2)
    ensures StoreZero(s.words, Off, Plus(page, 0xfff)) == Done(m2)
    ensures Kept(s.words, o, g, l, core, Ram(m2, s.head), Owned(o, core, order), AfterZero(core))
  {
    ZeroPageZero(page);
    hide *;
    BeforeParts(s, g, o, l, core);
    TopParts(s.words, o, l, core, page);
    RootAfter(o, core, order, page);
    m2 := ZeroStoreMoves(s, g, o, l, core, page, 0xfff);
    if page == 0 {
      NoRootCore(s.words, m2, o, l, core);
      Together(s.words, o, g, l, core, Ram(m2, s.head), o, AfterZero(core));
    } else {
      PrefixZero(s.words, m2, p, 0xfff);
      WholeCleared(m2, p);
      RootMade(s, m2, g, o, l, core, p);
    }
  }

  lemma ZeroPageZero(page: Word)
    ensures page == 0 ==> page / PAGE_SIZE == 0
    ensures page % PAGE_SIZE == 0 && page != 0 ==> page / PAGE_SIZE != 0
  {}

  // ----- A new table -----

  lemma LinkingParts(m: seq<Word>, o: Ownership, l: Layout, core: Core)
    requires CoreOk(m, o, l, core) && core.phase.Linking?
    ensures var page := core.phase.page;
      && page % PAGE_SIZE == 0 && Zeroed(m, page / PAGE_SIZE) && AtWork(core.phase) == {page / PAGE_SIZE}
      && Above(o, core.root, core.phase.job, core.phase.table, core.phase.level)
  {
    hide RootOk, Above, Zeroed;
  }

  lemma GraftedEffect(m: seq<Word>, m2: seq<Word>, o: Ownership, own: set<nat>, n: Node, i: nat, p: nat)
    requires n in o.tables && Partition(o) && p in own && Child(n, i) !in o.tables && p < FRAME_LIMIT
    requires 0 !in o.tables.Values
    requires Stored(m, m2, o.tables[n], i, p * PAGE_SIZE + 3) && SameTranslation(m, m2, o.tables)
    ensures Effect(m, o, m2, Grafted(o, n, i, p), own, n.root)
  {
    hide Translate;
    assert o.tables[n] in o.tables.Values;
    assert SameFrame(m, m2, 0);
    SameZero(m, m2);
    forall q | q in o.held && q !in own
      ensures SameFrame(m, m2, q)
    {}
    hide SameFrame, Stored, Partition, ZeroFrame;
  }

  lemma GraftedValues(o: Ownership, n: Node, i: nat, p: nat)
    requires 0 !in o.tables.Values && p != 0
    ensures 0 !in Grafted(o, n, i, p).tables.Values && Grafted(o, n, i, p).held == o.held - {p}
  {}

  /** The core has its table and goes on below it. */
  lemma GraftedCore(m: seq<Word>, m2: seq<Word>, o: Ownership, l: Layout, core: Core)
    requires CoreOk(m, o, l, core) && core.phase.Linking? && SameTranslation(m, m2, o.tables)
    requires Child(NodeOf(core.root, Vpn(core.phase.job.va), core.phase.level),
                   Index(Vpn(core.phase.job.va), core.phase.level)) !in o.tables
    ensures var job, table, level, page := core.phase.job, core.phase.table, core.phase.level, core.phase.page;
      var o2 := Grafted(o, NodeOf(core.root, Vpn(job.va), level), Index(Vpn(job.va), level), page / PAGE_SIZE);
      var core2 := core.(phase := Lower(job, page, level));
      CoreOk(m2, o2, l, core2) && Turnover(o, o2, core, core2)
  {
    var job, table, level, page := core.phase.job, core.phase.table, core.phase.level, core.phase.page;
    ChildOf(core.root, Vpn(job.va), level);
    hide Translate, Vpn, Index, Zeroed;
    var n, i := NodeOf(core.root, Vpn(job.va), level), Index(Vpn(job.va), level);
    var o2 := Grafted(o, n, i, page / PAGE_SIZE);
    forall r | r in core.spaces
      ensures RootOk(m2, o2, l, r, core.spaces[r])
    {
      assert RootOk(m, o, l, r, core.spaces[r]);
    }
    hide RootOk;
  }

  lemma LinkingMove(s: Ram, g: Globals, o: Ownership, l: Layout, core: Core, order: Order, m2: seq<Word>,
                    job: Job, table: Word, level: Upper, page: Word)
    requires core.phase == Linking(job, table, level, page)
    requires StoresTo(s.words, l, EntryAt(table, job.va, level), TableEntry(page), m2)
    ensures Moves(s, g, l, core, order, Ram(m2, s.head), core.(phase := Lower(job, page, level)))
    ensures Owned(o, core, order) ==
      Grafted(o, NodeOf(core.root, Vpn(job.va), level), Index(Vpn(job.va), level), page / PAGE_SIZE)
  {
    hide Store, KernelMmu, EntryAt, TableEntry, Lower, Grafted, Vpn, Index, NodeOf;
  }

  /** walk links the page it zeroed. */
  lemma LinkMoves(s: Ram, g: Globals, o: Ownership, l: Layout, core: Core, order: Order) returns (s2: Ram, core2: Core)
    requires LaidOut(l) && Before(s, g, o, l, core) && core.phase.Linking?
    ensures Moves(s, g, l, core, order, s2, core2) && Kept(s.words, o, g, l, core, s2, Owned(o, core, order), core2)
  {
    var job, table, level, page := core.phase.job, core.phase.table, core.phase.level, core.phase.page;
    assert core.phase == Linking(job, table, level, page);
    hide LaidOut, Before, CoreOk, Kept, Zeroed, Above, Moves, StoresTo, Index, Vpn, TableEntry, Grafted, Lower,
      EntryAt, Owned, NodeOf;
    BeforeParts(s, g, o, l, core);
    LinkingParts(s.words, o, l, core);
    var m2 := LinkStore(s, g, o, l, core, job, table, level, page);
    LinkingMove(s, g, o, l, core, order, m2, job, table, level, page);
    s2, core2 := Ram(m2, s.head), core.(phase := Lower(job, page, level));
  }

  /** Its store, and what it leaves. */
  lemma LinkStore(s: Ram, g: Globals, o: Ownership, l: Layout, core: Core,
                  job: Job, table: Word, level: Upper, page: Word)
    returns (m2: seq<Word>)
    requires LaidOut(l) && Before(s, g, o, l, core) && core.phase == Linking(job, table, level, page)
    requires page % PAGE_SIZE == 0 && Zeroed(s.words, page / PAGE_SIZE) && AtWork(core.phase) == {page / PAGE_SIZE}
    requires Above(o, core.root, job, table, level)
    ensures StoresTo(s.words, l, EntryAt(table, job.va, level), TableEntry(page), m2)
    ensures Kept(s.words, o, g, l, core, Ram(m2, s.head),
                 Grafted(o, NodeOf(core.root, Vpn(job.va), level), Index(Vpn(job.va), level), page / PAGE_SIZE),
                 core.(phase := Lower(job, page, level)))
  {
    var p, n, i := page / PAGE_SIZE, NodeOf(core.root, Vpn(job.va), level), Index(Vpn(job.va), level);
    hide LaidOut, CoreOk, Store, Load, Stored, Effect, SameTranslation, Kept, Zeroed, Turnover, Own, StoresTo, Ready,
      KernelMmu, PhaseOk, VaPtblInd, Index, Vpn, Grafted, Lower, State, KernelMapped, Forest, BelowVideo, LowGlobals,
      Partition;
    OwnHeld(s.words, o, l, core, p);
    CalmParts(s.words, s.head, g, o, l);
    HeldNoRoot(s.words, s.head, g.terminal, o, p);
    HeldNotKernel(s.words, s.head, g, o, l, p);
    PartsOfState(s.words, s.head, g.terminal, o);
    ChildOf(core.root, Vpn(job.va), level);
    var pte := EntryThroughMmu(s.words, s.head, g, o, l, core.root, table, job.va, level);
    TableInMemory(s.words, o.tables, n);
    BelowNode(o, n);
    m2 := SlotThroughMmu(s.words, l, o.tables[n], i, pte, TableEntry(page));
    LinkWord(page);
    BelowAfterGraft(o, n, i, p);
    GraftThroughMmu(s.words, m2, s.head, g, o, l, n, i, p);
    hide Shape;
    GraftState(s.words, m2, s.head, g.terminal, o, n, i, p);
    GraftedEffect(s.words, m2, o, Own(core), n, i, p);
    GraftedValues(o, n, i, p);
    GraftedCore(s.words, m2, o, l, core);
    StoredLength(s.words, m2, o.tables[n], i, TableEntry(page));
    Together(s.words, o, g, l, core, Ram(m2, s.head), Grafted(o, n, i, p), core.(phase := Lower(job, page, level)));
  }

  lemma StoredLength(m: seq<Word>, m2: seq<Word>, p: nat, i: nat, e: Word)
    requires Stored(m, m2, p, i, e)
    ensures |m2| == |m|
  {}

  // ----- The descriptor, and pages given back -----

  lemma StoringParts(m: seq<Word>, o: Ownership, l: Layout, core: Core)
    requires CoreOk(m, o, l, core) && core.phase.Storing?
    ensures core.root != 0 && core.root in core.spaces && AtWork(core.phase) == {}
    ensures IsTable(o.tables, core.root, Vpn(core.phase.job.va), 3, core.phase.table)
  {
    hide RootOk, Vpn;
  }

  lemma LeafEffect(m: seq<Word>, m2: seq<Word>, o: Ownership, own: set<nat>, root: nat, n: Node, i: nat, e: Word,
                   f: Space)
    requires Partition(o) && n in o.tables && Stored(m, m2, o.tables[n], i, e) && Remapped(m, m2, o.tables, root, f)
    requires 0 !in o.tables.Values
    ensures Effect(m, o, m2, o, own, root)
  {
    hide Translate;
    assert o.tables[n] in o.tables.Values;
    assert SameFrame(m, m2, 0);
    SameZero(m, m2);
    forall q | q in o.held && q !in own
      ensures SameFrame(m, m2, q)
    {}
    hide SameFrame, Stored, Partition, ZeroFrame;
  }

  /** The address space of the core's root gained the page. */
  lemma FinishedCore(m: seq<Word>, m2: seq<Word>, o: Ownership, l: Layout, core: Core)
    requires CoreOk(m, o, l, core) && core.phase.Storing?
    requires Remapped(m, m2, o.tables, core.root, map[Vpn(core.phase.job.va) := LeafOutcome(core.phase.job.e)])
    ensures CoreOk(m2, o, l, Finished(core, core.phase.job)) && Turnover(o, o, core, Finished(core, core.phase.job))
  {
    var job, core2 := core.phase.job, Finished(core, core.phase.job);
    IdleOk(m2, o, core.root);
    StoringParts(m, o, l, core);
    hide Translate, Vpn, LeafOutcome, PhaseOk;
    forall r | r in core2.spaces
      ensures RootOk(m2, o, l, r, core2.spaces[r])
    {
      assert RootOk(m, o, l, r, core.spaces[r]);
    }
    hide RootOk, Remapped;
  }

  /** mapva stores the descriptor and is done. */
  lemma LeafMoves(s: Ram, g: Globals, o: Ownership, l: Layout, core: Core, order: Order) returns (s2: Ram)
    requires LaidOut(l) && Before(s, g, o, l, core) && core.phase.Storing?
    ensures Moves(s, g, l, core, order, s2, Finished(core, core.phase.job))
    ensures Kept(s.words, o, g, l, core, s2, o, Finished(core, core.phase.job))
  {
    var job, table := core.phase.job, core.phase.table;
    hide LaidOut, Before, Calm, CoreOk, Kept, Moves, StoresTo, Index, Vpn, EntryAt, Finished, State, KernelMapped,
      Forest, BelowVideo, LowGlobals, Ready, Stored, Remapped, Effect, Turnover, Partition, Shape, Own, LeafOutcome,
      VaPtblInd;
    BeforeParts(s, g, o, l, core);
    CalmParts(s.words, s.head, g, o, l);
    StoringParts(s.words, o, l, core);
    PartsOfState(s.words, s.head, g.terminal, o);
    RootNotKernel(s.words, o, l, core);
    var v := Vpn(job.va);
    var n, i := NodeOf(core.root, v, 3), Index(v, 3);
    var pte := EntryThroughMmu(s.words, s.head, g, o, l, core.root, table, job.va, 3);
    TableInMemory(s.words, o.tables, n);
    BelowNode(o, n);
    var m2 := SlotThroughMmu(s.words, l, o.tables[n], i, pte, job.e);
    StoringMove(s, g, l, core, order, pte, m2);
    LeafThroughMmu(s.words, m2, s.head, g, o, l, core.root, v, job.e);
    StoreState(s.words, m2, s.head, g.terminal, o, core.root, v, job.e);
    LeafEffect(s.words, m2, o, Own(core), core.root, n, i, job.e, map[v := LeafOutcome(job.e)]);
    FinishedCore(s.words, m2, o, l, core);
    StoredLength(s.words, m2, o.tables[n], i, job.e);
    s2 := Ram(m2, s.head);
    StillCalm(s.words, m2, s.head, g, o, l);
    Together(s.words, o, g, l, core, s2, o, Finished(core, job));
  }

  lemma StillCalm(m: seq<Word>, m2: seq<Word>, head: Word, g: Globals, o: Ownership, l: Layout)
    requires LaidOut(l) && Calm(m, head, g, o, l) && Ready(m2, head, g, o, l) && |m2| == |m|
    ensures Calm(m2, head, g, o, l)
  {
    hide LaidOut, Ready;
  }

  lemma RootNotKernel(m: seq<Word>, o: Ownership, l: Layout, core: Core)
    requires CoreOk(m, o, l, core) && core.root in core.spaces
    ensures core.root != l.kpgtbl / PAGE_SIZE
  {
    hide PhaseOk, Sees;
    assert RootOk(m, o, l, core.root, core.spaces[core.root]);
  }

  lemma StoringMove(s: Ram, g: Globals, l: Layout, core: Core, order: Order, pte: Word, m2: seq<Word>)
    requires core.phase.Storing? && pte == Plus(core.phase.table, 8 * VaPtblInd(core.phase.job.va, 3))
    requires StoresTo(s.words, l, pte, core.phase.job.e, m2)
    ensures Moves(s, g, l, core, order, Ram(m2, s.head), Finished(core, core.phase.job))
  {
    hide Store, KernelMmu, Finished, Plus, VaPtblInd;
  }

  lemma GiveMove(s: Ram, g: Globals, l: Layout, core: Core, page: Word, r: (Ram, bool))
    requires core.phase.Idle? && FreeOn(KernelMmu(l), s, g, page) == Done(r) && FreeOn(Off, s, g, page) == Done(r)
    ensures Moves(s, g, l, core, Give(page), r.0, core.(kept := core.kept - {page / PAGE_SIZE}))
  {
    hide FreeOn, KernelMmu;
  }

  /** free_page for a page the core kept. */
  lemma GiveMoves(s: Ram, g: Globals, o: Ownership, l: Layout, core: Core, page: Word) returns (s2: Ram, core2: Core)
    requires LaidOut(l) && Before(s, g, o, l, core) && core.phase.Idle? && Obeys(core, Give(page))
    ensures Moves(s, g, l, core, Give(page), s2, core2)
    ensures Kept(s.words, o, g, l, core, s2, Owned(o, core, Give(page)), core2)
  {
    hide LaidOut, Before, Calm, CoreOk, Kept, FreeOn, State, KernelMapped, Forest, BelowVideo, LowGlobals, Ready,
      Shape, KernelMmu, Pushed, Moves, PhaseOk;
    BeforeParts(s, g, o, l, core);
    CalmParts(s.words, s.head, g, o, l);
    KeptApart(s.words, o, l, core);
    var r := FreeThroughMmu(s.words, s.head, g, o, l, page);
    GiveMove(s, g, l, core, page, r);
    s2, core2 := r.0, core.(kept := core.kept - {page / PAGE_SIZE});
    if page == 0 {
      NothingGiven(s, g, r);
      assert core2 == core;
      QuietMove(s, g, o, l, core, core);
    } else {
      GivenBack(s, s2, g, o, l, core, page);
    }
  }

  lemma NothingGiven(s: Ram, g: Globals, r: (Ram, bool))
    requires FreeOn(Off, s, g, 0) == Done(r)
    ensures r == (s, false)
  {}

  lemma GivenBack(s: Ram, s2: Ram, g: Globals, o: Ownership, l: Layout, core: Core, page: Word)
    requires LaidOut(l) && Before(s, g, o, l, core) && core.phase.Idle? && FreeOn(Off, s, g, page) == Done((s2, true))
    requires page != 0 && page % PAGE_SIZE == 0 && page / PAGE_SIZE in core.kept
    requires Ready(s2.words, s2.head, g, Pushed(o, page / PAGE_SIZE), l)
    ensures Kept(s.words, o, g, l, core, s2, Pushed(o, page / PAGE_SIZE), core.(kept := core.kept - {page / PAGE_SIZE}))
  {
    var p := page / PAGE_SIZE;
    hide LaidOut, Calm, CoreOk, Kept, FreeOn, State, KernelMapped, Forest, BelowVideo, LowGlobals, Ready, Shape,
      Pushed, Stored, SameTranslation, Effect, Turnover, Own, Elsewhere;
    CalmParts(s.words, s.head, g, o, l);
    KeptApart(s.words, o, l, core);
    HeldPage(s.words, s.head, g, o, l, p);
    GivenWord(s, s2, g, page);
    StoredElsewhere(s.words, s2.words, p, 0, s.head);
    OutsideState(s.words, s2.words, s.head, g.terminal, o, p);
    WriteEffect(s.words, s2.words, o, Own(core), core.root, p);
    PushedEffect(s.words, s2.words, o, Own(core), core.root, p);
    SameLength(s.words, s2.words, p);
    GivenCalm(s.words, s2.words, s.head, s2.head, g, o, l, p);
    GivenBackCore(s.words, s2.words, o, l, core, p);
    Together(s.words, o, g, l, core, s2, Pushed(o, p), core.(kept := core.kept - {p}));
  }

  lemma GivenWord(s: Ram, s2: Ram, g: Globals, page: Word)
    requires page != 0 && page % PAGE_SIZE == 0 && InMemory(s.words, page / PAGE_SIZE)
    requires FreeOn(Off, s, g, page) == Done((s2, true))
    ensures Stored(s.words, s2.words, page / PAGE_SIZE, 0, s.head)
  {
    assert page / 8 == page / PAGE_SIZE * 512;
    StoreSlot(s.words, page / PAGE_SIZE, 0, s.head);
    hide Stored;
  }

  lemma PushedEffect(m: seq<Word>, m2: seq<Word>, o: Ownership, own: set<nat>, root: nat, p: nat)
    requires Effect(m, o, m2, o, own, root) && p in own
    ensures Effect(m, o, m2, Pushed(o, p), own, root)
  {
    hide Translate, SameFrame, ZeroFrame;
  }

  lemma GivenCalm(m: seq<Word>, m2: seq<Word>, head: Word, head2: Word, g: Globals, o: Ownership, l: Layout, p: nat)
    requires LaidOut(l) && Calm(m, head, g, o, l) && Ready(m2, head2, g, Pushed(o, p), l) && |m2| == |m|
    ensures Calm(m2, head2, g, Pushed(o, p), l)
  {
    hide LaidOut, Ready;
  }

  lemma GivenBackCore(m: seq<Word>, m2: seq<Word>, o: Ownership, l: Layout, core: Core, p: nat)
    requires CoreOk(m, o, l, core) && SameTranslation(m, m2, o.tables) && core.phase.Idle? && p in core.kept
    ensures CoreOk(m2, Pushed(o, p), l, core.(kept := core.kept - {p}))
    ensures Turnover(o, Pushed(o, p), core, core.(kept := core.kept - {p}))
  {
    hide Translate;
    var o2 := Pushed(o, p);
    IdleOk(m2, o2, core.root);
    hide PhaseOk;
    forall r | r in core.spaces
      ensures RootOk(m2, o2, l, r, core.spaces[r])
    {
      assert RootOk(m, o, l, r, core.spaces[r]);
    }
  }

  // ----- Any step, and whole runs -----

  lemma TakeStep(s: Ram, g: Globals, l: Layout, core: Core, order: Order, use: Use, s2: Ram, core2: Core)
    requires (core.phase.Idle? && ((order == DrawRoot && use == Top) || (order == DrawPage && use == Keep)))
          || (core.phase.Asking? && use == Under(core.phase.job, core.phase.table, core.phase.level))
    requires TakeFor(KernelMmu(l), s, g, core, use) == Done((s2, core2))
    requires TakeFor(Off, s, g, core, use) == Done((s2, core2))
    ensures Moves(s, g, l, core, order, s2, core2)
  {
    hide TakeFor, KernelMmu;
  }

  lemma AskingParts(m: seq<Word>, o: Ownership, l: Layout, core: Core)
    requires CoreOk(m, o, l, core) && core.phase.Asking?
    ensures Above(o, core.root, core.phase.job, core.phase.table, core.phase.level)
  {
    hide RootOk, Above;
  }

  lemma IdleMoves(s: Ram, g: Globals, o: Ownership, l: Layout, core: Core, order: Order) returns (s2: Ram, core2: Core)
    requires LaidOut(l) && Before(s, g, o, l, core) && Obeys(core, order) && core.phase.Idle?
    ensures Moves(s, g, l, core, order, s2, core2)
    ensures Kept(s.words, o, g, l, core, s2, Owned(o, core, order), core2)
  {
    hide LaidOut, Before, CoreOk, Kept, Moves, TakeFor, KernelMmu, Asked, Pushed, Vpn;
    match order
    case DrawRoot =>
      s2, core2 := TakeMoves(s, g, o, l, core, Top);
      TakeStep(s, g, l, core, order, Top, s2, core2);
    case DrawPage =>
      s2, core2 := TakeMoves(s, g, o, l, core, Keep);
      TakeStep(s, g, l, core, order, Keep, s2, core2);
    case Fill(a, w) =>
      core2 := core;
      s2 := FillMoves(s, g, o, l, core, a, w);
    case Give(page) =>
      s2, core2 := GiveMoves(s, g, o, l, core, page);
    case MapIn(job) =>
      s2, core2 := s, core.(phase := Reading(job, core.root * PAGE_SIZE % VA_LIMIT, 0));
      MapBegins(s, g, o, l, core, job);
  }

  /** Every step of a core goes through the kernel's own map as on physical memory, ends in no abort, and leaves
      everything that is not the core's own as it was. */
  lemma CoreMoves(s: Ram, g: Globals, o: Ownership, l: Layout, core: Core, order: Order) returns (s2: Ram, core2: Core)
    requires LaidOut(l) && Before(s, g, o, l, core) && Obeys(core, order)
    ensures Moves(s, g, l, core, order, s2, core2)
    ensures Kept(s.words, o, g, l, core, s2, Owned(o, core, order), core2)
  {
    hide LaidOut, Before, CoreOk, Kept, Moves, TakeFor, KernelMmu, Asked, Rooted, Grafted, Above, Used, Vpn, Index;
    BeforeParts(s, g, o, l, core);
    match core.phase
    case Idle => s2, core2 := IdleMoves(s, g, o, l, core, order);
    case Reading(_, _, _) =>
      s2 := s;
      core2 := ReadMoves(s, g, o, l, core, order);
    case Asking(job, table, level) =>
      AskingParts(s.words, o, l, core);
      s2, core2 := TakeMoves(s, g, o, l, core, Under(job, table, level));
      TakeStep(s, g, l, core, order, Under(job, table, level), s2, core2);
    case Zeroing(_, i, use) =>
      core2 := AfterZero(core);
      ZeroingParts(s.words, o, l, core);
      if i < 0xfff || !use.Top? {
        s2 := ZeroMoves(s, g, o, l, core, order);
      } else {
        s2 := RootMoves(s, g, o, l, core, order);
      }
    case Linking(_, _, _, _) => s2, core2 := LinkMoves(s, g, o, l, core, order);
    case Storing(job, _) =>
      core2 := Finished(core, job);
      s2 := LeafMoves(s, g, o, l, core, order);
  }

  /** What the step did leaves the cores apart. */
  lemma SeparateStays(m: seq<Word>, head: Word, terminal: Word, o: Ownership, o2: Ownership, l: Layout,
                      core: Core, core2: Core, d: Core)
    requires State(m, head, terminal, o) && CoreOk(m, o, l, core) && CoreOk(m, o, l, d) && Turnover(o, o2, core, core2)
    requires Separate(core, d)
    ensures Separate(core2, d)
  {
    hide State, PhaseOk, Sees;
    forall r | r in d.spaces
      ensures r !in core2.spaces
    {
      assert RootOk(m, o, l, r, d.spaces[r]);
      if r in Own(core) {
        HeldNoRoot(m, head, terminal, o, r);
      }
    }
  }

  lemma SeparateTurned(a: Core, b: Core)
    ensures Separate(a, b) <==> Separate(b, a)
  {}

  lemma InvCore(w: World, g: Globals, l: Layout, base: set<nat>, c: nat)
    requires LaidOut(l) && Inv(w, g, l, base) && c < |w.cores|
    ensures Before(Seen(w), g, w.o, l, w.cores[c])
  {
    hide LaidOut, Calm, CoreOk, Separate;
  }

  lemma InvApart(w: World, g: Globals, l: Layout, base: set<nat>, c: nat, d: nat)
    requires LaidOut(l) && Inv(w, g, l, base) && c < |w.cores| && d < |w.cores| && c != d
    ensures Separate(w.cores[c], w.cores[d])
  {
    hide LaidOut, Calm, CoreOk, Separate;
    SeparateTurned(w.cores[c], w.cores[d]);
  }

  lemma KeptParts(m: seq<Word>, o: Ownership, g: Globals, l: Layout, core: Core, s2: Ram, o2: Ownership, core2: Core)
    requires LaidOut(l) && Kept(m, o, g, l, core, s2, o2, core2)
    ensures Calm(s2.words, s2.head, g, o2, l) && CoreOk(s2.words, o2, l, core2)
    ensures Effect(m, o, s2.words, o2, Own(core), core.root) && Turnover(o, o2, core, core2)
  {
    hide LaidOut, Calm, CoreOk, Effect, Turnover;
  }

  /** What a step of core `c` is, through the MMU and off it. */
  lemma StepKept(w: World, w2: World, g: Globals, l: Layout, base: set<nat>, c: nat, order: Order)
    requires LaidOut(l) && Inv(w, g, l, base) && Step(w, w2, g, c, order)
    ensures Kept(w.m, w.o, g, l, w.cores[c], Seen(w2), w2.o, w2.cores[c])
    ensures Move(KernelMmu(l), Seen(w), g, w.cores[c], order) == Done((Seen(w2), w2.cores[c]))
  {
    InvCore(w, g, l, base, c);
    hide LaidOut, Inv, Before, Obeys, Owned, Kept, Move, KernelMmu;
    var s2, core2 := CoreMoves(Seen(w), g, w.o, l, w.cores[c], order);
  }

  lemma OthersStay(w: World, w2: World, g: Globals, l: Layout, base: set<nat>, c: nat, d: nat)
    requires LaidOut(l) && Inv(w, g, l, base) && c < |w.cores| && d < |w.cores| && c != d
    requires |w2.cores| == |w.cores| && w2.cores == w.cores[c := w2.cores[c]]
    requires Kept(w.m, w.o, g, l, w.cores[c], Seen(w2), w2.o, w2.cores[c])
    ensures CoreOk(w2.m, w2.o, l, w2.cores[d]) && Separate(w2.cores[c], w2.cores[d])
  {
    InvCore(w, g, l, base, c);
    InvCore(w, g, l, base, d);
    InvApart(w, g, l, base, c, d);
    hide LaidOut, Inv, Calm, CoreOk, Kept, Separate, State, Ready, Shape, KernelMapped, Forest, BelowVideo, Effect,
      Turnover;
    CalmParts(w.m, w.head, g, w.o, l);
    KeptParts(w.m, w.o, g, l, w.cores[c], Seen(w2), w2.o, w2.cores[c]);
    RootInSpaces(w.m, w.o, l, w.cores[c]);
    OtherStays(w.m, w.o, w2.m, w2.o, l, w.cores[c], w.cores[d]);
    SeparateStays(w.m, w.head, g.terminal, w.o, w2.o, l, w.cores[c], w2.cores[c], w.cores[d]);
  }

  lemma RootInSpaces(m: seq<Word>, o: Ownership, l: Layout, core: Core)
    requires CoreOk(m, o, l, core)
    ensures core.root == 0 || core.root in core.spaces
  {}

  /** A page handed out is some core's after the step too. */
  lemma NoneLost(w: World, w2: World, g: Globals, l: Layout, base: set<nat>, c: nat, p: nat)
    requires LaidOut(l) && Inv(w, g, l, base) && c < |w.cores| == |w2.cores| && w2.cores == w.cores[c := w2.cores[c]]
    requires Turnover(w.o, w2.o, w.cores[c], w2.cores[c]) && p in w2.o.held
    ensures p in base || exists d :: 0 <= d < |w2.cores| && p in Own(w2.cores[d])
  {
    hide LaidOut, Calm, CoreOk, Separate, Own;
    if p !in Own(w2.cores[c]) && p !in base {
      var d :| 0 <= d < |w.cores| && p in Own(w.cores[d]);
      assert w2.cores[d] == w.cores[d];
    }
  }

  lemma StepShape(w: World, w2: World, g: Globals, c: nat, order: Order)
    requires Step(w, w2, g, c, order)
    ensures c < |w.cores| == |w2.cores| && w2.cores == w.cores[c := w2.cores[c]]
  {
    hide Obeys, Move, Owned;
  }

  lemma InvWhole(w: World, g: Globals, l: Layout, base: set<nat>)
    requires LaidOut(l) && Calm(w.m, w.head, g, w.o, l)
    requires forall c :: 0 <= c < |w.cores| ==> CoreOk(w.m, w.o, l, w.cores[c])
    requires forall c, d :: 0 <= c < d < |w.cores| ==> Separate(w.cores[c], w.cores[d])
    requires forall p :: p in w.o.held ==> p in base || exists c :: 0 <= c < |w.cores| && p in Own(w.cores[c])
    ensures Inv(w, g, l, base)
  {
    hide LaidOut, Calm, CoreOk, Separate, Own;
  }

  /** Every step of every core keeps the invariant. */
  lemma StepInv(w: World, w2: World, g: Globals, l: Layout, base: set<nat>, c: nat, order: Order)
    requires LaidOut(l) && Inv(w, g, l, base) && Step(w, w2, g, c, order)
    ensures Inv(w2, g, l, base)
  {
    hide LaidOut, Inv, Calm, CoreOk, Kept, Separate, Effect, Turnover, Step, Own;
    StepShape(w, w2, g, c, order);
    StepKept(w, w2, g, l, base, c, order);
    KeptParts(w.m, w.o, g, l, w.cores[c], Seen(w2), w2.o, w2.cores[c]);
    forall d | 0 <= d < |w.cores| && d != c
      ensures CoreOk(w2.m, w2.o, l, w2.cores[d])
      ensures Separate(w2.cores[c], w2.cores[d]) && Separate(w2.cores[d], w2.cores[c])
    {
      OthersStay(w, w2, g, l, base, c, d);
      SeparateTurned(w2.cores[c], w2.cores[d]);
    }
    forall a, b | 0 <= a < b < |w2.cores|
      ensures Separate(w2.cores[a], w2.cores[b])
    {
      if a != c && b != c {
        InvApart(w, g, l, base, a, b);
      }
    }
    forall p | p in w2.o.held
      ensures p in base || exists d :: 0 <= d < |w2.cores| && p in Own(w2.cores[d])
    {
      NoneLost(w, w2, g, l, base, c, p);
    }
    InvWhole(w2, g, l, base);
  }

  /** A move of a run: the core, and its order if it is idle. */
  datatype Turn = Turn(core: nat, order: Order)

  ghost predicate StepAt(run: seq<World>, turns: seq<Turn>, g: Globals, i: nat)
    requires i < |turns| < |run|
  {
    Step(run[i], run[i + 1], g, turns[i].core, turns[i].order)
  }

  /** Any interleaving of the cores' steps, from a state that has the invariant. */
  ghost predicate Run(run: seq<World>, turns: seq<Turn>, g: Globals, l: Layout, base: set<nat>)
    requires LaidOut(l)
  {
    && |turns| < |run| && Inv(run[0], g, l, base) && forall i :: 0 <= i < |turns| ==> StepAt(run, turns, g, i)
  }

  /** Idle cores that have nothing yet can begin whenever the kernel's map is in force. */
  lemma StartInv(w: World, g: Globals, l: Layout)
    requires LaidOut(l) && Ready(w.m, w.head, g, w.o, l) && 0 !in w.o.tables.Values && |w.m| >= 512
    requires forall c :: 0 <= c < |w.cores| ==> w.cores[c] == Core(0, Idle, {}, map[])
    ensures Inv(w, g, l, w.o.held)
  {
    hide LaidOut, Ready;
    IdleOk(w.m, w.o, 0);
    hide PhaseOk;
  }

  /** Every interleaving keeps the invariant. */
  lemma {:induction false} RunInv(run: seq<World>, turns: seq<Turn>, g: Globals, l: Layout, base: set<nat>, n: nat)
    requires LaidOut(l) && Run(run, turns, g, l, base) && n <= |turns|
    ensures Inv(run[n], g, l, base)
  {
    hide LaidOut, Inv, Step;
    if n > 0 {
      RunInv(run, turns, g, l, base, n - 1);
      assert StepAt(run, turns, g, n - 1);
      StepInv(run[n - 1], run[n], g, l, base, turns[n - 1].core, turns[n - 1].order);
    }
  }

  /** A run on physical memory is a run through the kernel's own map, and no core, whatever it does next, ends in an
      abort. */
  lemma RunThroughMmu(run: seq<World>, turns: seq<Turn>, g: Globals, l: Layout, base: set<nat>, n: nat,
                      c: nat, order: Order)
    requires LaidOut(l) && Run(run, turns, g, l, base) && n <= |turns|
    ensures n < |turns| ==> var i := turns[n].core;
      && i < |run[n].cores| == |run[n + 1].cores|
      && Move(KernelMmu(l), Seen(run[n]), g, run[n].cores[i], turns[n].order)
        == Done((Seen(run[n + 1]), run[n + 1].cores[i]))
    ensures c < |run[n].cores| && Obeys(run[n].cores[c], order) ==>
      Move(KernelMmu(l), Seen(run[n]), g, run[n].cores[c], order)
      == Move(Off, Seen(run[n]), g, run[n].cores[c], order) != Abort
  {
    RunInv(run, turns, g, l, base, n);
    hide LaidOut, Inv, Move, KernelMmu, Obeys, Before, Kept, Owned;
    if n < |turns| {
      assert StepAt(run, turns, g, n);
      StepKept(run[n], run[n + 1], g, l, base, turns[n].core, turns[n].order);
    }
    if c < |run[n].cores| && Obeys(run[n].cores[c], order) {
      InvCore(run[n], g, l, base, c);
      var s2, core2 := CoreMoves(Seen(run[n]), g, run[n].o, l, run[n].cores[c], order);
    }
  }

  /** At every point of every interleaving each address space a core has made shows exactly what that core's finished
      calls of mapva put there. */
  lemma SpacesShown(run: seq<World>, turns: seq<Turn>, g: Globals, l: Layout, base: set<nat>, n: nat, c: nat,
                    r: nat, v: nat)
    requires LaidOut(l) && Run(run, turns, g, l, base) && n <= |turns| && c < |run[n].cores|
    requires r in run[n].cores[c].spaces && v < FRAME_LIMIT
    ensures Translate(run[n].m, r, v) == Through(run[n].cores[c].spaces[r], v)
  {
    RunInv(run, turns, g, l, base, n);
    hide LaidOut, Run, Calm, PhaseOk, Own, Separate, Translate;
    assert RootOk(run[n].m, run[n].o, l, r, run[n].cores[c].spaces[r]);
  }

  /** The tables below the roots a core has made. */
  function TablesOf(w: World, c: nat): (s: set<Node>)
    requires c < |w.cores|
    ensures forall n :: n in s ==> n in w.o.tables
  {
    set n | n in w.o.tables && n.root in w.cores[c].spaces
  }

  /** No two cores have a table in common, and a page a core was handed is neither free, nor a table, nor another
      core's. */
  lemma PagesApart(run: seq<World>, turns: seq<Turn>, g: Globals, l: Layout, base: set<nat>, n: nat, c: nat, d: nat)
    requires LaidOut(l) && Run(run, turns, g, l, base) && n <= |turns|
    requires c < |run[n].cores| && d < |run[n].cores| && c != d
    ensures Own(run[n].cores[c]) !! Own(run[n].cores[d])
    ensures forall p :: p in Own(run[n].cores[c]) ==> p !in run[n].o.free && p !in run[n].o.tables.Values
    ensures forall a, b :: a in TablesOf(run[n], c) && b in TablesOf(run[n], d) ==>
      run[n].o.tables[a] != run[n].o.tables[b]
  {
    RunInv(run, turns, g, l, base, n);
    hide LaidOut, Run, Inv, CoreOk, State, Ready, KernelMapped, Forest, Calm, Own;
    InvCore(run[n], g, l, base, c);
    InvApart(run[n], g, l, base, c, d);
    KeptApart(run[n].m, run[n].o, l, run[n].cores[c]);
    HeldApart(run[n], g, l);
  }

  lemma HeldApart(w: World, g: Globals, l: Layout)
    requires LaidOut(l) && Calm(w.m, w.head, g, w.o, l)
    ensures Shape(w.o.tables) && forall p :: p in w.o.held ==> p !in w.o.free && p !in w.o.tables.Values
  {
    CalmParts(w.m, w.head, g, w.o, l);
    PartsOfState(w.m, w.head, g.terminal, w.o);
    hide LaidOut, State, Ready, KernelMapped, Forest, Shape;
  }

  /** A root that is no core's. */
  ghost predicate Foreign(w: World, r: nat) {
    Root(r) in w.o.tables && forall c :: 0 <= c < |w.cores| ==> r !in w.cores[c].spaces
  }

  /** A page in use that is no core's. */
  ghost predicate Elsewhose(w: World, p: nat) {
    p in w.o.held && forall c :: 0 <= c < |w.cores| ==> p !in Own(w.cores[c])
  }

  lemma StepForeign(w: World, w2: World, g: Globals, l: Layout, base: set<nat>, c: nat, order: Order, r: nat)
    requires LaidOut(l) && Inv(w, g, l, base) && Step(w, w2, g, c, order) && Foreign(w, r)
    ensures Foreign(w2, r) && forall v :: 0 <= v < FRAME_LIMIT ==> Translate(w2.m, r, v) == Translate(w.m, r, v)
  {
    hide LaidOut, Inv, Step, Before, Calm, CoreOk, Kept, State, KernelMapped, Forest, Ready, Own, PhaseOk, BelowVideo,
      SameFrame, Translate, Shape;
    StepShape(w, w2, g, c, order);
    StepKept(w, w2, g, l, base, c, order);
    InvCore(w, g, l, base, c);
    BeforeParts(Seen(w), g, w.o, l, w.cores[c]);
    KeptParts(w.m, w.o, g, l, w.cores[c], Seen(w2), w2.o, w2.cores[c]);
    KeptApart(w.m, w.o, l, w.cores[c]);
    CalmParts(w.m, w.head, g, w.o, l);
    if r in Own(w.cores[c]) {
      HeldNoRoot(w.m, w.head, g.terminal, w.o, r);
    }
    ZeroNoRoot(w.o, r);
  }

  lemma ZeroNoRoot(o: Ownership, r: nat)
    requires Shape(o.tables) && 0 !in o.tables.Values && Root(r) in o.tables
    ensures r != 0
  {
    RootFrame(o.tables, r);
  }

  lemma StepElsewhose(w: World, w2: World, g: Globals, l: Layout, base: set<nat>, c: nat, order: Order, p: nat)
    requires LaidOut(l) && Inv(w, g, l, base) && Step(w, w2, g, c, order) && Elsewhose(w, p)
    ensures Elsewhose(w2, p) && SameFrame(w.m, w2.m, p)
  {
    hide LaidOut, Inv, Step, Calm, CoreOk, Kept, Own, SameFrame, Translate;
    StepShape(w, w2, g, c, order);
    StepKept(w, w2, g, l, base, c, order);
    KeptParts(w.m, w.o, g, l, w.cores[c], Seen(w2), w2.o, w2.cores[c]);
  }

  /** The address spaces that were there before, the kernel's among them, keep every translation through every
      interleaving. */
  lemma {:induction false} RunForeign(run: seq<World>, turns: seq<Turn>, g: Globals, l: Layout, base: set<nat>, n: nat,
                                      r: nat)
    requires LaidOut(l) && Run(run, turns, g, l, base) && n <= |turns| && Foreign(run[0], r)
    ensures Foreign(run[n], r)
    ensures forall v :: 0 <= v < FRAME_LIMIT ==> Translate(run[n].m, r, v) == Translate(run[0].m, r, v)
  {
    hide LaidOut, Inv, Step, Foreign, Translate;
    if n > 0 {
      RunForeign(run, turns, g, l, base, n - 1, r);
      RunInv(run, turns, g, l, base, n - 1);
      assert StepAt(run, turns, g, n - 1);
      StepForeign(run[n - 1], run[n], g, l, base, turns[n - 1].core, turns[n - 1].order, r);
    }
  }

  /** And the pages handed out before keep every word. */
  lemma {:induction false} RunElsewhose(run: seq<World>, turns: seq<Turn>, g: Globals, l: Layout, base: set<nat>,
                                        n: nat, p: nat)
    requires LaidOut(l) && Run(run, turns, g, l, base) && n <= |turns| && Elsewhose(run[0], p)
    ensures Elsewhose(run[n], p) && SameFrame(run[0].m, run[n].m, p)
  {
    hide LaidOut, Inv, Step, Elsewhose;
    if n > 0 {
      RunElsewhose(run, turns, g, l, base, n - 1, p);
      RunInv(run, turns, g, l, base, n - 1);
      assert StepAt(run, turns, g, n - 1);
      StepElsewhose(run[n - 1], run[n], g, l, base, turns[n - 1].core, turns[n - 1].order, p);
    }
  }

  // ----- Calls end -----

  /** The most steps a core still takes after its page is zeroed. */
  function LeftAfter(use: Use): int {
    match use
    case Under(_, _, level) => (2 - level) * 4099 + 2
    case _ => 0
  }

  /** The most steps a core still takes before it is idle. */
  function Left(phase: Phase): int {
    match phase
    case Idle => 0
    case Reading(_, _, level) => (3 - level) * 4099 + 1
    case Asking(job, table, level) => 0x1001 + LeftAfter(Under(job, table, level))
    case Zeroing(_, i, use) => 0x1000 - i + LeftAfter(use)
    case Linking(_, _, level, _) => (2 - level) * 4099 + 2
    case Storing(_, _) => 1
  }

  lemma LowerLeft(job: Job, table: Word, level: Upper)
    ensures Left(Lower(job, table, level)) == (2 - level) * 4099 + 1
  {}

  lemma GivenLeft(core: Core, page: Word, use: Use)
    ensures Left(Given(core, page, use).phase) <= 0x1000 + LeftAfter(use)
  {}

  lemma UsedLeft(core: Core, page: Word, use: Use)
    ensures Left(Used(core, page, use).phase) == LeftAfter(use)
  {}

  lemma ReadEnds(s: Ram, g: Globals, core: Core, order: Order, s2: Ram, core2: Core)
    requires core.phase.Reading? && Move(Off, s, g, core, order) == Done((s2, core2))
    ensures Left(core2.phase) < Left(core.phase)
  {
    hide Load, Lower, DaAddr, EntryAt;
    var job, table, level := core.phase.job, core.phase.table, core.phase.level;
    var e := Load(s.words, Off, EntryAt(table, job.va, level)).value;
    LowerLeft(job, DaAddr(e), level);
  }

  lemma AskEnds(s: Ram, g: Globals, core: Core, order: Order, s2: Ram, core2: Core)
    requires core.phase.Asking? && Move(Off, s, g, core, order) == Done((s2, core2))
    ensures Left(core2.phase) < Left(core.phase)
  {
    hide TakeOn, Given, LeftAfter;
    var page := TakeOn(Off, s, g).value.1;
    GivenLeft(core, page, Under(core.phase.job, core.phase.table, core.phase.level));
  }

  lemma ZeroEnds(s: Ram, g: Globals, core: Core, order: Order, s2: Ram, core2: Core)
    requires core.phase.Zeroing? && core.phase.i < 0x1000 && Move(Off, s, g, core, order) == Done((s2, core2))
    ensures Left(core2.phase) < Left(core.phase)
  {
    hide StoreZero, Used, LeftAfter, Plus;
    UsedLeft(core, core.phase.page, core.phase.use);
  }

  lemma LinkEnds(s: Ram, g: Globals, core: Core, order: Order, s2: Ram, core2: Core)
    requires (core.phase.Linking? || core.phase.Storing?) && Move(Off, s, g, core, order) == Done((s2, core2))
    ensures Left(core2.phase) < Left(core.phase)
  {
    hide Store, Lower, TableEntry, EntryAt, LeafOutcome, Vpn;
    if core.phase.Linking? {
      LowerLeft(core.phase.job, core.phase.page, core.phase.level);
    }
  }

  /** Every step of a core brings its call nearer to its end, whatever the other cores do: mapva takes no more than
      12298 steps of its own. */
  lemma StepEnds(w: World, w2: World, g: Globals, l: Layout, base: set<nat>, c: nat, order: Order)
    requires LaidOut(l) && Inv(w, g, l, base) && Step(w, w2, g, c, order)
    ensures 0 <= Left(w.cores[c].phase) <= 12298
    ensures !w.cores[c].phase.Idle? ==> Left(w2.cores[c].phase) < Left(w.cores[c].phase)
  {
    InvCore(w, g, l, base, c);
    BeforeParts(Seen(w), g, w.o, l, w.cores[c]);
    LeftBounds(w.m, w.o, l, w.cores[c]);
    hide LaidOut, Inv, Before, Calm, Obeys, Owned, Move, CoreOk, Left;
    var core, core2 := w.cores[c], w2.cores[c];
    match core.phase
    case Idle =>
    case Reading(_, _, _) => ReadEnds(Seen(w), g, core, order, Seen(w2), core2);
    case Asking(_, _, _) => AskEnds(Seen(w), g, core, order, Seen(w2), core2);
    case Zeroing(_, _, _) => ZeroEnds(Seen(w), g, core, order, Seen(w2), core2);
    case Linking(_, _, _, _) => LinkEnds(Seen(w), g, core, order, Seen(w2), core2);
    case Storing(_, _) => LinkEnds(Seen(w), g, core, order, Seen(w2), core2);
  }

  lemma LeftBounds(m: seq<Word>, o: Ownership, l: Layout, core: Core)
    requires CoreOk(m, o, l, core)
    ensures 0 <= Left(core.phase) <= 12298 && (core.phase.Zeroing? ==> core.phase.i < 0x1000)
  {
    hide RootOk, Above;
  }

  // ----- Draws from the empty list -----

  /** With the list empty a draw goes on with page 0, and walk gives up; neither changes memory, list, or anything the
      core has. */
  lemma EmptyDraws(w: World, w2: World, g: Globals, l: Layout, base: set<nat>, c: nat, order: Order)
    requires LaidOut(l) && Inv(w, g, l, base) && Step(w, w2, g, c, order) && w.o.free == []
    ensures var k, k2 := w.cores[c], w2.cores[c];
      (k.phase.Asking? || (k.phase.Idle? && (order.DrawRoot? || order.DrawPage?))) ==>
        && w2.m == w.m && w2.head == w.head && w2.o == w.o && k2.kept == k.kept && k2.spaces == k.spaces
        && k2.root == k.root
        && k2.phase == if k.phase.Asking? then Idle else Zeroing(0, 0, if order.DrawRoot? then Top else Keep)
  {
    InvCore(w, g, l, base, c);
    BeforeParts(Seen(w), g, w.o, l, w.cores[c]);
    hide LaidOut, Inv, Before, CoreOk, TakeOn;
    CalmReady(w, g, l);
    TakeThroughMmu(w.m, w.head, g, w.o, l);
    hide Ready, Calm, KernelMmu;
  }

  lemma CalmReady(w: World, g: Globals, l: Layout)
    requires LaidOut(l) && Calm(w.m, w.head, g, w.o, l)
    ensures Ready(w.m, w.head, g, w.o, l)
  {
    hide LaidOut, Ready;
  }

  /** When such a draw ends, whatever the other cores did meanwhile, frame 0 is zeroed, the core has no page more, and
      after a draw for a root it has none. */
  lemma EmptyDrawEnds(w: World, w2: World, g: Globals, l: Layout, base: set<nat>, c: nat, order: Order)
    requires LaidOut(l) && Inv(w, g, l, base) && Step(w, w2, g, c, order)
    requires w.cores[c].phase.Zeroing? && w.cores[c].phase.page == 0 && w.cores[c].phase.i == 0xfff
    ensures var k, k2 := w.cores[c], w2.cores[c];
      && Zeroed(w2.m, 0) && k2.phase == Idle && k2.kept == k.kept && k2.spaces == k.spaces && w2.o == w.o
      && k2.root == if k.phase.use.Top? then 0 else k.root
  {
    var use := w.cores[c].phase.use;
    assert w.cores[c].phase == Zeroing(0, 0xfff, use);
    hide LaidOut, Inv, Before, CoreOk, StoreZero, Cleared, Zeroed, Step, Moves, AfterZero, ByteStored, Calm, Effect,
      SameTranslation;
    StepShape(w, w2, g, c, order);
    InvCore(w, g, l, base, c);
    BeforeParts(Seen(w), g, w.o, l, w.cores[c]);
    ZeroAtEnd(w.m, w.o, l, w.cores[c], use);
    var m2 := ZeroStoreMoves(Seen(w), g, w.o, l, w.cores[c], 0, 0xfff);
    ZeroingMove(Seen(w), g, l, w.cores[c], order, m2);
    StepIs(w, w2, g, l, c, order, Ram(m2, w.head), AfterZero(w.cores[c]));
    PrefixZero(w.m, m2, 0, 0xfff);
    WholeCleared(m2, 0);
    EmptyAfter(w.cores[c], w.o, order, use);
  }

  lemma ZeroAtEnd(m: seq<Word>, o: Ownership, l: Layout, core: Core, use: Use)
    requires CoreOk(m, o, l, core) && core.phase == Zeroing(0, 0xfff, use)
    ensures !use.Under? && Cleared(m, 0, 0xfff)
  {
    hide RootOk, Cleared, Above;
  }

  lemma StepIs(w: World, w2: World, g: Globals, l: Layout, c: nat, order: Order, s2: Ram, core2: Core)
    requires Step(w, w2, g, c, order) && Moves(Seen(w), g, l, w.cores[c], order, s2, core2)
    ensures Seen(w2) == s2 && w2.cores[c] == core2 && w2.o == Owned(w.o, w.cores[c], order)
  {
    hide Move, Owned, Obeys, KernelMmu;
  }

  lemma EmptyAfter(core: Core, o: Ownership, order: Order, use: Use)
    requires core.phase == Zeroing(0, 0xfff, use) && !use.Under?
    ensures var k2 := AfterZero(core);
      && k2.phase == Idle && k2.kept == core.kept && k2.spaces == core.spaces && Owned(o, core, order) == o
      && k2.root == if use.Top? then 0 else core.root
  {}

  /** An idle core can always draw a page, map under a root it has, and fill and give back a page it keeps; a busy one
      can always go on. */
  lemma CoreCanMove(w: World, g: Globals, l: Layout, base: set<nat>, c: nat, order: Order) returns (w2: World)
    requires LaidOut(l) && Inv(w, g, l, base) && c < |w.cores|
    requires w.cores[c].phase.Idle? ==>
      && (order.Fill? ==> order.a % 8 == 0 && order.a / 0x1000 in w.cores[c].kept)
      && (order.Give? ==> order.page == 0 || (order.page % 0x1000 == 0 && order.page / 0x1000 in w.cores[c].kept))
      && (order.MapIn? ==> w.cores[c].root != 0)
    ensures Step(w, w2, g, c, order) && Inv(w2, g, l, base)
  {
    InvCore(w, g, l, base, c);
    assert Obeys(w.cores[c], order);
    hide LaidOut, Inv, Before, Obeys, Kept, Move, Owned, KernelMmu;
    var s2, core2 := CoreMoves(Seen(w), g, w.o, l, w.cores[c], order);
    w2 := World(s2.words, s2.head, Owned(w.o, w.cores[c], order), w.cores[c := core2]);
    StepInv(w, w2, g, l, base, c, order);
  }
}
