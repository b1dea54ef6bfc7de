/** Building and reading translation tables: walk and mapva of vm.c. */
module Vm {
  import opened Bits
  import opened Accesses
  import opened Arch
  import opened PageTables
  import opened PaAlloc

  /** The tables on the way to page `v`, down to `level`. */
  function Path(root: nat, v: nat, level: nat): set<Node>
    requires level <= 3
  {
    if level == 0 then {NodeOf(root, v, 0)} else Path(root, v, level - 1) + {NodeOf(root, v, level)}
  }

  /** All old tables are still where they were. */
  ghost predicate Extends(t: Tables, t2: Tables) {
    forall n :: n in t ==> n in t2 && t2[n] == t[n]
  }

  /** Pages have moved from the free list to the tables, and no other page has changed hands. */
  ghost predicate Grown(o: Ownership, o2: Ownership) {
    && o2.pool == o.pool && o2.held == o.held && Extends(o.tables, o2.tables)
    && |o2.free| + |o2.tables| == |o.free| + |o.tables|
  }

  lemma GrownStep(o: Ownership, o2: Ownership, o3: Ownership)
    requires Grown(o, o2) && Grown(o2, o3)
    ensures Grown(o, o3)
  {}

  lemma OnlyTablesStep(m: seq<Word>, m2: seq<Word>, m3: seq<Word>, t2: Tables, t3: Tables)
    requires OnlyTables(m, m2, t2) && OnlyTables(m2, m3, t3) && Extends(t2, t3)
    ensures OnlyTables(m, m3, t3)
  {
    forall x | x in t2.Values
      ensures x in t3.Values
    {
      var n :| n in t2 && t2[n] == x;
      assert t3[n] == x;
    }
  }

  lemma SameStep(m: seq<Word>, m2: seq<Word>, m3: seq<Word>, t: Tables, t2: Tables)
    requires SameTranslation(m, m2, t) && SameTranslation(m2, m3, t2) && Extends(t, t2)
    ensures SameTranslation(m, m3, t)
  {}

  /** memset to zero of the `size` bytes from `astart` on. */
  method ZeroRange(k: Machine, astart: Word, size: Word) returns (ok: bool)
    requires astart + size <= 8 * k.mem.Length
    modifies k.mem
    ensures ok == (size != 0)
    ensures RangeZeroed(old(k.mem[..]), k.mem[..], astart, astart + size)
  {
    hide ZeroBytes, RangeZeroed;
    ghost var m := k.mem[..];
    NothingZeroed(m, astart);
    if size == 0 {
      return false;
    }
    var i := 0;
    while i < size
      invariant i <= size && RangeZeroed(m, k.mem[..], astart, astart + i)
    {
      var a: nat := astart + i;
      ghost var before := k.mem[..];
      ByteZeroed(before, a);
      k.mem[a / 8] := ZeroBytes(k.mem[a / 8], a % 8, a % 8 + 1);
      assert k.mem[..] == ZeroByte(before, a);
      RangeThen(m, before, k.mem[..], astart, a, a + 1);
      i := i + 1;
    }
    return true;
  }

  /** Zero a page that is neither free nor a table. */
  method ZeroPage(k: Machine, page: Word)
    requires k.Valid() && page % PAGE_SIZE == 0 && InMemory(k.mem[..], page / PAGE_SIZE)
    requires page / PAGE_SIZE !in k.own.free && page / PAGE_SIZE !in k.own.tables.Values
    modifies k.mem
    ensures k.Valid() && Zeroed(k.mem[..], page / PAGE_SIZE)
    ensures SameTranslation(old(k.mem[..]), k.mem[..], k.own.tables)
    ensures forall p :: Zeroed(old(k.mem[..]), p) ==> Zeroed(k.mem[..], p)
    ensures Elsewhere(old(k.mem[..]), k.mem[..], page / PAGE_SIZE)
    ensures ZeroFrom(old(k.mem[..]), Off, page, 0) == Done(k.mem[..])
  {
    hide State, SameTranslation, Zeroed, Elsewhere, ZeroFrom, Slot, Entry, RangeZeroed;
    ghost var m := k.mem[..];
    var ok := ZeroRange(k, page, 0x1000);
    WholePage(m, k.mem[..], page);
    ZeroOff(m, k.mem[..], page, 0);
    OutsideState(m, k.mem[..], k.freepages, k.terminal, k.own, page / PAGE_SIZE);
    ZerosStay(m, k.mem[..], page / PAGE_SIZE);
  }

  /** What zeroing a page comes to, seen slot by slot. */
  lemma WholePage(m: seq<Word>, m2: seq<Word>, page: Word)
    requires page % PAGE_SIZE == 0 && InMemory(m, page / PAGE_SIZE) && RangeZeroed(m, m2, page, page + 0x1000)
    ensures Elsewhere(m, m2, page / PAGE_SIZE) && Zeroed(m2, page / PAGE_SIZE)
  {
    var p := page / PAGE_SIZE;
    WordsZeroed(m, m2, page, page + 0x1000);
    hide RangeZeroed;
    assert page / 8 == p * 512 && (page + 0x1000) / 8 == p * 512 + 512;
  }

  lemma ZerosStay(m: seq<Word>, m2: seq<Word>, z: nat)
    requires Elsewhere(m, m2, z) && Zeroed(m2, z)
    ensures forall p :: Zeroed(m, p) ==> Zeroed(m2, p)
  {
    forall p | Zeroed(m, p)
      ensures Zeroed(m2, p)
    {
      assert p != z ==> forall j :: 0 <= j < 512 ==> Slot(m2, p, j) == Slot(m, p, j);
    }
  }

  /** Slot `i` of table `n` now links the page `p`, which was handed out. */
  function Grafted(o: Ownership, n: Node, i: nat, p: nat): Ownership {
    o.(held := o.held - {p}, tables := o.tables[Child(n, i) := p])
  }

  lemma GraftState(m: seq<Word>, m2: seq<Word>, head: Word, terminal: Word, o: Ownership, n: Node, i: nat, p: nat)
    requires State(m, head, terminal, o) && p in o.held && p !in o.tables.Values
    requires Linked(m, m2, o.tables, n, i, p)
    ensures State(m2, head, terminal, Grafted(o, n, i, p)) && SameTranslation(m, m2, o.tables)
  {
    hide Forest, SameTranslation;
    LinkForest(m, m2, o.tables, n, i, p);
    LinkTranslation(m, m2, o.tables, n, i, p);
    StoredElsewhere(m, m2, o.tables[n], i, p * PAGE_SIZE + 3);
    assert o.tables[n] in o.tables.Values;
    FreeListKept(m, m2, head, o.free, terminal, o.tables[n]);
    GraftPartition(o, n, i, p);
  }

  lemma GraftPartition(o: Ownership, n: Node, i: nat, p: nat)
    requires Partition(o) && p in o.held && Child(n, i) !in o.tables
    ensures Partition(Grafted(o, n, i, p))
  {
    var t2 := o.tables[Child(n, i) := p];
    assert t2[Child(n, i)] == p;
    forall q
      ensures q in t2.Values <==> q == p || q in o.tables.Values
    {
      if q in o.tables.Values {
        var a :| a in o.tables && o.tables[a] == q;
        assert t2[a] == q;
      }
    }
  }

  /** The state after the first free page became the table under slot `i` of `n`. */
  function Grew(o: Ownership, n: Node, i: nat): Ownership
    requires o.free != []
  {
    o.(free := o.free[1..], tables := o.tables[Child(n, i) := o.free[0]])
  }

  lemma GrewIsGrown(m: seq<Word>, head: Word, terminal: Word, o: Ownership, n: Node, i: nat)
    requires State(m, head, terminal, o) && o.free != [] && Child(n, i) !in o.tables
    ensures Grown(o, Grew(o, n, i))
    ensures o.free[0] !in o.held && o.free[0] !in o.tables.Values
    ensures Grafted(Popped(o), n, i, o.free[0]) == Grew(o, n, i)
  {
    assert o.free[0] in o.free;
    assert (o.held + {o.free[0]}) - {o.free[0]} == o.held;
  }

  /** Zero the page just handed out and link it: *pte = page | TABLE_DESCRIPTOR | VALID_DESCRIPTOR. */
  method LinkTable(k: Machine, pte: Word, page: Word, ghost n: Node, ghost i: nat)
    requires k.Valid() && page % PAGE_SIZE == 0 && page / PAGE_SIZE in k.own.held
    requires n in k.own.tables && n.level < 3 && i < 512 && Child(n, i) !in k.own.tables
    requires pte == k.own.tables[n] * PAGE_SIZE + 8 * i
    modifies k`own, k.mem
    ensures k.Valid() && k.own == Grafted(old(k.own), n, i, page / PAGE_SIZE)
    ensures SameTranslation(old(k.mem[..]), k.mem[..], old(k.own.tables))
    ensures OnlyTables(old(k.mem[..]), k.mem[..], k.own.tables)
    ensures var zeroed := ZeroFrom(old(k.mem[..]), Off, page, 0);
      zeroed.Done? && Store(zeroed.value, Off, pte, TableEntry(page)) == Done(k.mem[..])
  {
    hide ZeroFrom, TableEntry, State, Forest, Partition, SameTranslation, OnlyTables, Elsewhere, Zeroed, Stored,
      Grafted;
    ghost var p, before := page / PAGE_SIZE, k.mem[..];
    LinkPlace(before, k.freepages, k.terminal, k.own, n, i, pte, page);
    ZeroPage(k, page);
    ghost var m := k.mem[..];
    StoreSlot(m, k.own.tables[n], i, TableEntry(page));
    k.mem[pte / 8] := TableEntry(page);
    assert k.mem[..] == m[k.own.tables[n] * 512 + i := TableEntry(page)];
    LinkState(m, k.mem[..], k.freepages, k.terminal, k.own, n, i, p);
    GraftWrites(before, m, k.mem[..], k.own, n, i, p);
    SameStep(before, m, k.mem[..], k.own.tables, k.own.tables);
    k.own := Grafted(k.own, n, i, p);
  }

  /** Where page and entry lie, and what is stored. */
  lemma LinkPlace(m: seq<Word>, head: Word, terminal: Word, o: Ownership, n: Node, i: nat, pte: Word, page: Word)
    requires State(m, head, terminal, o) && page % PAGE_SIZE == 0 && page / PAGE_SIZE in o.held
    requires n in o.tables && n.level < 3 && i < 512 && pte == o.tables[n] * PAGE_SIZE + 8 * i
    ensures var p := page / PAGE_SIZE;
      && p !in o.free && p !in o.tables.Values && InMemory(m, p) && p < FRAME_LIMIT
      && TableEntry(page) == p * PAGE_SIZE + 3
    ensures InMemory(m, o.tables[n]) && pte / 8 == o.tables[n] * 512 + i && o.tables[n] < FRAME_LIMIT
  {
    hide FreeList, Forest;
    TableInMemory(m, o.tables, n);
  }

  lemma LinkState(m: seq<Word>, m2: seq<Word>, head: Word, terminal: Word, o: Ownership, n: Node, i: nat, p: nat)
    requires State(m, head, terminal, o) && p in o.held && p !in o.tables.Values && p < FRAME_LIMIT && Zeroed(m, p)
    requires n in o.tables && n.level < 3 && i < 512 && Child(n, i) !in o.tables
    requires Stored(m, m2, o.tables[n], i, p * PAGE_SIZE + 3)
    ensures State(m2, head, terminal, Grafted(o, n, i, p)) && SameTranslation(m, m2, o.tables)
  {
    hide FreeList, Forest, Partition, SameTranslation, Grafted, Zeroed, Stored;
    GraftState(m, m2, head, terminal, o, n, i, p);
  }

  lemma GraftWrites(m: seq<Word>, m2: seq<Word>, m3: seq<Word>, o: Ownership, n: Node, i: nat, p: nat)
    requires n in o.tables && i < 512 && Child(n, i) !in o.tables && p < FRAME_LIMIT
    requires Elsewhere(m, m2, p) && Stored(m2, m3, o.tables[n], i, p * PAGE_SIZE + 3)
    ensures OnlyTables(m, m3, Grafted(o, n, i, p).tables)
  {
    var t3 := Grafted(o, n, i, p).tables;
    assert t3[Child(n, i)] == p && t3[n] == o.tables[n];
  }

  /** Frame `address / 4096` holds the table for page `v` at `level`. */
  ghost predicate IsTable(t: Tables, root: nat, v: nat, level: nat, address: Word)
    requires level <= 3
  {
    NodeOf(root, v, level) in t && address == t[NodeOf(root, v, level)] * PAGE_SIZE
  }

  /** Take a page and make it the table under slot `i` of `n`; 1 when the pool ran dry. */
  method NewTable(k: Machine, pte: Word, unsafe: bool, ghost n: Node, ghost i: nat) returns (page: Word)
    requires k.Valid() && !k.locked
    requires n in k.own.tables && n.level < 3 && i < 512 && Child(n, i) !in k.own.tables
    requires pte == k.own.tables[n] * PAGE_SIZE + 8 * i
    modifies k, k.mem
    ensures k.Valid() && !k.locked
    ensures old(k.own).free == [] ==> page == 1 && k.own == old(k.own) && k.mem[..] == old(k.mem[..])
    ensures old(k.own).free != [] ==>
      page > 1 && page == old(k.own).free[0] * PAGE_SIZE && k.own == Grew(old(k.own), n, i)
    ensures SameTranslation(old(k.mem[..]), k.mem[..], old(k.own).tables)
    ensures OnlyTables(old(k.mem[..]), k.mem[..], k.own.tables)
    ensures GrowOn(Off, old(k.Ram()), k.Globals(), pte)
         == Done(if page == 1 then Return(k.Ram(), 1) else Down(k.Ram(), page))
    ensures if unsafe then Acquired(k.log) == Acquired(old(k.log)) else Unlocked(k.log) == Unlocked(old(k.log))
  {
    hide Held, Acquired, Unlocked, SameTranslation, OnlyTables, State, Entry, Grew, Grafted, TakeOn, ZeroFrom, Store,
      TableEntry;
    HeadOfList(k.mem[..], k.freepages, k.terminal, k.own);
    if unsafe {
      page := GetPageUnsafe(k);
    } else {
      page := GetPage(k);
    }
    if page == 0 || page % PAGE_SIZE != 0 {
      SameNow(k.mem[..], k.own.tables);
      return 1;
    }
    GrewIsGrown(k.mem[..], old(k.freepages), k.terminal, old(k.own), n, i);
    LinkTable(k, pte, page, n, i);
  }

  lemma HeadOfList(m: seq<Word>, head: Word, terminal: Word, o: Ownership)
    requires State(m, head, terminal, o)
    ensures o.free != [] ==> 0 < o.free[0] < FRAME_LIMIT
  {
    assert o.free != [] ==> Entry(m, o.free, 0, terminal);
  }

  /** What `walk` reads in an upper table: the address of the next one, or an invalid descriptor. */
  lemma ReadLink(m: seq<Word>, head: Word, terminal: Word, o: Ownership, n: Node, i: nat)
    requires State(m, head, terminal, o) && n in o.tables && n.level < 3 && i < 512
    ensures InMemory(m, o.tables[n]) && o.tables[n] < FRAME_LIMIT
    ensures Child(n, i) !in o.tables ==> Slot(m, o.tables[n], i) % 2 == 0
    ensures Child(n, i) in o.tables ==>
      Slot(m, o.tables[n], i) % 2 == 1 && DaAddr(Slot(m, o.tables[n], i)) == o.tables[Child(n, i)] * PAGE_SIZE > 1
  {
    assert Child(n, i) in o.tables ==> o.tables[Child(n, i)] in o.pool;
    hide Forest, FreeList, DaAddr;
    TableInMemory(m, o.tables, n);
    LinkedSlot(m, o.tables, n, i);
  }

  /** One turn of the loop of `walk`: the table below `table`, 0 when it is missing and none may be made,
      1 when the pool ran dry. */
  method Descent(k: Machine, table: Word, va: Word, level: nat, alloc: bool, unsafe: bool, ghost root: nat)
    returns (next: Word)
    requires k.Valid() && !k.locked && level < 3 && IsTable(k.own.tables, root, Vpn(va), level, table)
    modifies k, k.mem
    ensures k.Valid() && !k.locked
    ensures var c := NodeOf(root, Vpn(va), level + 1);
      if c in old(k.own).tables then next > 1 && k.own == old(k.own)
      else if !alloc then next == 0 && k.own == old(k.own)
      else if old(k.own).free == [] then next == 1 && k.own == old(k.own)
      else next > 1 && k.own == Grew(old(k.own), NodeOf(root, Vpn(va), level), Index(Vpn(va), level))
    ensures next > 1 ==> IsTable(k.own.tables, root, Vpn(va), level + 1, next)
    ensures k.own == old(k.own) ==> k.mem[..] == old(k.mem[..])
    ensures SameTranslation(old(k.mem[..]), k.mem[..], old(k.own).tables)
    ensures OnlyTables(old(k.mem[..]), k.mem[..], k.own.tables)
    ensures TurnOn(Off, old(k.Ram()), k.Globals(), table, va, level, alloc)
         == Done(if next <= 1 then Return(k.Ram(), next) else Down(k.Ram(), next))
    ensures if unsafe then Acquired(k.log) == Acquired(old(k.log)) else Unlocked(k.log) == Unlocked(old(k.log))
  {
    hide Held, Acquired, Unlocked, SameTranslation, OnlyTables, VaPtblInd, DaAddr, State, Index, GrowOn;
    ghost var n := NodeOf(root, Vpn(va), level);
    ghost var i := Index(Vpn(va), level);
    IndexOfAddress(va, level);
    assert Child(n, i) == NodeOf(root, Vpn(va), level + 1);
    ReadLink(k.mem[..], k.freepages, k.terminal, k.own, n, i);
    SameNow(k.mem[..], k.own.tables);
    var pte := table + 8 * VaPtblInd(va, level);
    if k.mem[pte / 8] % 2 == 1 {
      return DaAddr(k.mem[pte / 8]);
    }
    if !alloc {
      return 0;
    }
    next := NewTable(k, pte, unsafe, n, i);
  }

  lemma SameNow(m: seq<Word>, t: Tables)
    ensures SameTranslation(m, m, t) && OnlyTables(m, m, t)
  {}

  /** The tables of `nodes` are there now, and no others are new. */
  ghost predicate Built(o: Ownership, o2: Ownership, nodes: set<Node>) {
    Grown(o, o2) && o2.tables.Keys == o.tables.Keys + nodes
  }

  /** The pool ran dry while building `nodes`: all that was taken is linked, but some table is missing. */
  ghost predicate Short(o: Ownership, o2: Ownership, nodes: set<Node>) {
    Grown(o, o2) && o2.free == [] && o2.tables.Keys < o.tables.Keys + nodes
  }

  /** What `walk` has done when it stands at `level`. */
  ghost predicate Walked(o: Ownership, o2: Ownership, root: nat, v: nat, level: nat)
    requires level <= 3
  {
    Built(o, o2, Path(root, v, level))
  }

  /** The tables for page `v` that do not exist yet. */
  function Missing(t: Tables, root: nat, v: nat): set<Node> {
    Path(root, v, 3) - t.Keys
  }

  /** One call takes at most three pages, for the root is there. */
  lemma AtMostThree(t: Tables, root: nat, v: nat)
    requires Root(root) in t && v < FRAME_LIMIT
    ensures |Missing(t, root, v)| <= 3
  {
    var below := {NodeOf(root, v, 1), NodeOf(root, v, 2), NodeOf(root, v, 3)};
    PathStep(root, v, 0);
    PathStep(root, v, 1);
    PathStep(root, v, 2);
    assert Path(root, v, 0) == {Root(root)};
    hide Path;
    assert Missing(t, root, v) <= below;
    if Missing(t, root, v) != below {
      SubsetSize(Missing(t, root, v), below);
    }
  }

  lemma WalkedStart(o: Ownership, root: nat, v: nat)
    requires Root(root) in o.tables && v < FRAME_LIMIT
    ensures Walked(o, o, root, v, 0)
  {}

  lemma WalkedStay(o: Ownership, o2: Ownership, root: nat, v: nat, level: nat)
    requires level < 3 && Walked(o, o2, root, v, level) && NodeOf(root, v, level + 1) in o2.tables
    ensures Walked(o, o2, root, v, level + 1)
  {}

  lemma PathStep(root: nat, v: nat, level: nat)
    requires level < 3
    ensures Path(root, v, level + 1) == Path(root, v, level) + {NodeOf(root, v, level + 1)}
  {}

  lemma GrewKeys(o: Ownership, root: nat, v: nat, level: nat)
    requires level < 3 && o.free != []
    ensures Grew(o, NodeOf(root, v, level), Index(v, level)).tables.Keys == o.tables.Keys + {NodeOf(root, v, level + 1)}
  {
    assert Child(NodeOf(root, v, level), Index(v, level)) == NodeOf(root, v, level + 1);
  }

  lemma WalkedGrow(o: Ownership, o2: Ownership, o3: Ownership, root: nat, v: nat, level: nat)
    requires level < 3 && Walked(o, o2, root, v, level) && Grown(o2, o3)
    requires o3.tables.Keys == o2.tables.Keys + {NodeOf(root, v, level + 1)}
    ensures Walked(o, o3, root, v, level + 1)
  {
    GrownStep(o, o2, o3);
    PathStep(root, v, level);
    hide Prefix, Grown, Path;
  }

  lemma KeysSize(t: Tables, t2: Tables, added: set<Node>)
    requires t2.Keys == t.Keys + added && t.Keys !! added
    ensures |t2| == |t| + |added|
  {
    assert |t2| == |t2.Keys| && |t| == |t.Keys|;
  }

  /** Building took exactly the missing tables from the pool. */
  lemma BuiltTook(o: Ownership, o2: Ownership, nodes: set<Node>)
    requires Built(o, o2, nodes)
    ensures |o.free| == |o2.free| + |nodes - o.tables.Keys|
    ensures o2 == o ==> nodes - o.tables.Keys == {}
  {
    var missing := nodes - o.tables.Keys;
    assert o2.tables.Keys == o.tables.Keys + missing;
    KeysSize(o.tables, o2.tables, missing);
  }

  /** A pool that ran dry had fewer pages than tables were missing. */
  lemma ShortTook(o: Ownership, o2: Ownership, nodes: set<Node>)
    requires Short(o, o2, nodes)
    ensures |o.free| < |nodes - o.tables.Keys|
  {
    var missing, found := nodes - o.tables.Keys, o2.tables.Keys - o.tables.Keys;
    assert o2.tables.Keys == o.tables.Keys + found;
    KeysSize(o.tables, o2.tables, found);
    assert found < missing by {
      var n :| n in o.tables.Keys + nodes && n !in o2.tables.Keys;
      assert n in missing && n !in found;
    }
    SubsetSize(found, missing);
  }

  /** Stuck on the way down: some table is missing. */
  lemma WalkedStuck(o2: Ownership, root: nat, v: nat, level: nat)
    requires level < 3 && Shape(o2.tables) && NodeOf(root, v, level + 1) !in o2.tables
    ensures NodeOf(root, v, 3) !in o2.tables && NodeOf(root, v, 3) in Missing(o2.tables, root, v)
  {
    NoDescendant(o2.tables, root, v, level + 1);
    assert NodeOf(root, v, 3) in Path(root, v, 3);
  }

  /** Out of pages on the way down. */
  lemma WalkedOut(o: Ownership, o2: Ownership, root: nat, v: nat, level: nat)
    requires level < 3 && Walked(o, o2, root, v, level) && o2.free == []
    requires NodeOf(root, v, 3) !in o2.tables
    ensures Short(o, o2, Path(root, v, 3)) && |o.free| < |Missing(o.tables, root, v)|
  {
    PathUp(root, v, level);
    assert NodeOf(root, v, 3) in Path(root, v, 3);
    ShortTook(o, o2, Path(root, v, 3));
  }

  lemma {:induction false} PathUp(root: nat, v: nat, level: nat)
    requires level <= 3
    ensures Path(root, v, level) <= Path(root, v, 3)
    decreases 3 - level
  {
    if level < 3 {
      PathUp(root, v, level + 1);
    }
  }

  lemma SubsetSize<T>(a: set<T>, b: set<T>)
    requires a < b
    ensures |a| < |b|
  {
    assert b == a + (b - a);
    assert |b - a| > 0;
  }

  lemma StateShape(m: seq<Word>, head: Word, terminal: Word, o: Ownership)
    requires State(m, head, terminal, o)
    ensures Shape(o.tables) && Forest(m, o.tables)
  {}

  /** The address of the level 3 descriptor for `va`; 0 when a table is missing and none may be made;
      1 when the pool ran dry, which it does exactly when it has fewer pages than tables are missing. */
  method Walk(k: Machine, pagetable: Word, va: Word, alloc: bool, unsafe: bool) returns (pte: Word)
    requires k.Valid() && !k.locked
    requires pagetable % PAGE_SIZE == 0 && Root(pagetable / PAGE_SIZE) in k.own.tables
    modifies k, k.mem
    ensures k.Valid() && !k.locked
    ensures SameTranslation(old(k.mem[..]), k.mem[..], old(k.own).tables)
    ensures OnlyTables(old(k.mem[..]), k.mem[..], k.own.tables)
    ensures !alloc ==> k.own == old(k.own) && k.mem[..] == old(k.mem[..])
    ensures pte == 0 <==> !alloc && Missing(old(k.own).tables, pagetable / PAGE_SIZE, Vpn(va)) != {}
    ensures pte == 1 <==> alloc && |old(k.own).free| < |Missing(old(k.own).tables, pagetable / PAGE_SIZE, Vpn(va))|
    ensures pte == 1 ==> Short(old(k.own), k.own, Path(pagetable / PAGE_SIZE, Vpn(va), 3))
    ensures pte > 1 ==> Walked(old(k.own), k.own, pagetable / PAGE_SIZE, Vpn(va), 3)
    ensures pte > 1 ==> NodeOf(pagetable / PAGE_SIZE, Vpn(va), 3) in k.own.tables
    ensures pte > 1 ==>
      pte == k.own.tables[NodeOf(pagetable / PAGE_SIZE, Vpn(va), 3)] * PAGE_SIZE + 8 * Index(Vpn(va), 3)
    ensures old(k.own).free == [] ==> k.own == old(k.own) && k.mem[..] == old(k.mem[..])
    ensures WalkOn(Off, old(k.Ram()), k.Globals(), pagetable, va, 0, alloc) == Done((k.Ram(), pte))
    ensures if unsafe then Acquired(k.log) == Acquired(old(k.log)) else Unlocked(k.log) == Unlocked(old(k.log))
  {
    hide Held, Acquired, Unlocked, SameTranslation, OnlyTables, State, Path, Missing, Walked, Short, Index, Prefix,
      VaPtblInd, Grew, Grown, Extends, TurnOn;
    ghost var root, v, o, m0 := pagetable / PAGE_SIZE, Vpn(va), k.own, k.mem[..];
    var table: Word := pagetable;
    var level := 0;
    SameNow(m0, o.tables);
    WalkedStart(o, root, v);
    RootTable(m0, k.freepages, k.terminal, o, root, v);
    while level <= 2
      invariant 0 <= level <= 3
      invariant k.Valid() && !k.locked
      invariant Walked(o, k.own, root, v, level)
      invariant SameTranslation(m0, k.mem[..], o.tables) && OnlyTables(m0, k.mem[..], k.own.tables)
      invariant IsTable(k.own.tables, root, v, level, table) && (level > 0 ==> table > 1)
      invariant !alloc || o.free == [] ==> k.own == o && k.mem[..] == m0
      invariant WalkOn(Off, old(k.Ram()), k.Globals(), pagetable, va, 0, alloc)
             == WalkOn(Off, k.Ram(), k.Globals(), table, va, level, alloc)
      invariant if unsafe then Acquired(k.log) == Acquired(old(k.log)) else Unlocked(k.log) == Unlocked(old(k.log))
    {
      ghost var m, o2, h := k.mem[..], k.own, k.freepages;
      table := Descent(k, table, va, level, alloc, unsafe, root);
      WalkedTurn(m, h, k.terminal, o, o2, root, v, level);
      if table <= 1 {
        return table;
      }
      SameWalk(m0, m, k.mem[..], o, o2, root, v, level);
      OnlyTablesStep(m0, m, k.mem[..], o2.tables, k.own.tables);
      level := level + 1;
    }
    IndexOfAddress(va, 3);
    WalkedAll(o, k.own, root, v);
    pte := table + 8 * VaPtblInd(va, 3);
  }

  lemma WalkedAll(o: Ownership, o2: Ownership, root: nat, v: nat)
    requires Walked(o, o2, root, v, 3)
    ensures |o.free| == |o2.free| + |Missing(o.tables, root, v)|
    ensures o2 == o ==> Missing(o.tables, root, v) == {}
  {
    BuiltTook(o, o2, Path(root, v, 3));
  }

  lemma SameWalk(m: seq<Word>, m2: seq<Word>, m3: seq<Word>, o: Ownership, o2: Ownership, root: nat, v: nat, level: nat)
    requires level <= 3 && Walked(o, o2, root, v, level)
    requires SameTranslation(m, m2, o.tables) && SameTranslation(m2, m3, o2.tables)
    ensures SameTranslation(m, m3, o.tables)
  {
    SameStep(m, m2, m3, o.tables, o2.tables);
  }

  lemma RootTable(m: seq<Word>, head: Word, terminal: Word, o: Ownership, root: nat, v: nat)
    requires State(m, head, terminal, o) && Root(root) in o.tables && v < FRAME_LIMIT
    ensures NodeOf(root, v, 0) == Root(root) && o.tables[Root(root)] == root
  {}

  /** Where one turn of the loop leads, in each of its cases. */
  lemma WalkedTurn(m: seq<Word>, head: Word, terminal: Word, o: Ownership, o2: Ownership, root: nat, v: nat, level: nat)
    requires State(m, head, terminal, o2) && level < 3 && Walked(o, o2, root, v, level)
    ensures NodeOf(root, v, level + 1) in o2.tables ==> Walked(o, o2, root, v, level + 1)
    ensures NodeOf(root, v, level + 1) !in o2.tables && o2.free == [] ==>
      Short(o, o2, Path(root, v, 3)) && |o.free| < |Missing(o.tables, root, v)|
    ensures NodeOf(root, v, level + 1) !in o2.tables && o2 == o ==> Missing(o.tables, root, v) != {}
    ensures NodeOf(root, v, level + 1) !in o2.tables && o2.free != [] ==>
      Walked(o, Grew(o2, NodeOf(root, v, level), Index(v, level)), root, v, level + 1)
      && Extends(o2.tables, Grew(o2, NodeOf(root, v, level), Index(v, level)).tables)
    ensures Extends(o2.tables, o2.tables)
  {
    hide State, Shape, Forest, Holds, Walked, Missing, Path, Short, Grew, Grown, Index, Prefix;
    StateShape(m, head, terminal, o2);
    if NodeOf(root, v, level + 1) in o2.tables {
      WalkedStay(o, o2, root, v, level);
    } else {
      WalkedStuck(o2, root, v, level);
      if o2.free == [] {
        WalkedOut(o, o2, root, v, level);
      } else {
        GrewIsGrown(m, head, terminal, o2, NodeOf(root, v, level), Index(v, level));
        GrewKeys(o2, root, v, level);
        WalkedGrow(o, o2, Grew(o2, NodeOf(root, v, level), Index(v, level)), root, v, level);
      }
    }
  }

  /** Storing a page descriptor in a level 3 table keeps the state. */
  lemma StoreState(m: seq<Word>, m2: seq<Word>, head: Word, terminal: Word, o: Ownership, root: nat, v: nat, e: Word)
    requires State(m, head, terminal, o) && NodeOf(root, v, 3) in o.tables && v < FRAME_LIMIT
    requires Stored(m, m2, o.tables[NodeOf(root, v, 3)], Index(v, 3), e)
    ensures State(m2, head, terminal, o) && Remapped(m, m2, o.tables, root, map[v := LeafOutcome(e)])
  {
    hide Forest, Remapped, Index;
    var p := o.tables[NodeOf(root, v, 3)];
    LeafStored(m, m2, o.tables, root, v, e);
    StoredElsewhere(m, m2, p, Index(v, 3), e);
    assert p in o.tables.Values;
    FreeListKept(m, m2, head, o.free, terminal, p);
  }

  lemma RemapAfterSame(m: seq<Word>, m2: seq<Word>, m3: seq<Word>, o: Ownership, o2: Ownership,
                       root: nat, f: map<nat, Outcome>)
    requires SameTranslation(m, m2, o.tables) && Grown(o, o2) && Remapped(m2, m3, o2.tables, root, f)
    ensures Remapped(m, m3, o.tables, root, f)
  {}

  lemma VpnOfPage(va: Word)
    ensures Vpn(PgRoundDown(va)) == Vpn(va) && PgRoundDown(va) % PAGE_SIZE == 0
  {
    hide And;
    var h, q := va / VA_LIMIT, va % VA_LIMIT / PAGE_SIZE;
    DivUnique(va, PAGE_SIZE, h * FRAME_LIMIT + q, va % PAGE_SIZE);
    DivUnique(PgRoundDown(va), VA_LIMIT, h, q * PAGE_SIZE);
  }

  /** *pte = e for the descriptor of page `v` under `root`. */
  method StoreLeaf(k: Machine, pte: Word, e: Word, ghost root: nat, ghost v: nat)
    requires k.Valid() && NodeOf(root, v, 3) in k.own.tables && v < FRAME_LIMIT
    requires pte == k.own.tables[NodeOf(root, v, 3)] * PAGE_SIZE + 8 * Index(v, 3)
    modifies k.mem
    ensures k.Valid() && Remapped(old(k.mem[..]), k.mem[..], k.own.tables, root, map[v := LeafOutcome(e)])
    ensures OnlyTables(old(k.mem[..]), k.mem[..], k.own.tables)
    ensures Store(old(k.mem[..]), Off, pte, e) == Done(k.mem[..])
  {
    hide Index, Prefix, Remapped;
    ghost var m, p := k.mem[..], k.own.tables[NodeOf(root, v, 3)];
    TableInMemory(m, k.own.tables, NodeOf(root, v, 3));
    StoreSlot(m, p, Index(v, 3), e);
    k.mem[pte / 8] := e;
    assert k.mem[..] == m[p * 512 + Index(v, 3) := e];
    StoreState(m, k.mem[..], k.freepages, k.terminal, k.own, root, v, e);
    assert p in k.own.tables.Values;
  }

  /** Map the page of `va` to the page of `pa`: 0 on success, -1 when the pool has too few pages for the
      tables that are missing. Translation changes for that page alone, and not at all on failure. */
  method MapVa(k: Machine, va: Word, pa: Word, pgtbl: Word, ind: Word, sflag: Word, flags: Word, unsafe: bool)
    returns (res: int)
    requires k.Valid() && !k.locked && pgtbl % PAGE_SIZE == 0 && Root(pgtbl / PAGE_SIZE) in k.own.tables
    modifies k, k.mem
    ensures k.Valid() && !k.locked && (res == 0 || res == -1)
    ensures res == 0 <==> |old(k.own).free| >= |Missing(old(k.own).tables, pgtbl / PAGE_SIZE, Vpn(va))|
    ensures res == 0 ==> Built(old(k.own), k.own, Path(pgtbl / PAGE_SIZE, Vpn(va), 3))
    ensures res == 0 ==> Remapped(old(k.mem[..]), k.mem[..], old(k.own).tables, pgtbl / PAGE_SIZE,
                                  map[Vpn(va) := LeafOutcome(LeafWord(PgRoundDown(pa), flags, ind, sflag))])
    ensures res != 0 ==> Short(old(k.own), k.own, Path(pgtbl / PAGE_SIZE, Vpn(va), 3))
    ensures res != 0 ==> SameTranslation(old(k.mem[..]), k.mem[..], old(k.own).tables)
    ensures OnlyTables(old(k.mem[..]), k.mem[..], k.own.tables)
    ensures old(k.own).free == [] && res != 0 ==> k.mem[..] == old(k.mem[..])
    ensures MapOn(Off, old(k.Ram()), k.Globals(), pgtbl, va, pa, ind, sflag, flags) == Done((k.Ram(), res))
    ensures if unsafe then Acquired(k.log) == Acquired(old(k.log)) else Unlocked(k.log) == Unlocked(old(k.log))
  {
    hide Held, Acquired, Unlocked, SameTranslation, OnlyTables, State, Path, Missing, Built, Short, Index, Prefix,
      PgRoundDown, LeafWord, Remapped, WalkOn;
    ghost var root, v, m, o := pgtbl / PAGE_SIZE, Vpn(va), k.mem[..], k.own;
    VpnOfPage(va);
    VpnOfPage(pa);
    var vpage, ppage := PgRoundDown(va), PgRoundDown(pa);
    if vpage % PAGE_SIZE != 0 || ppage % PAGE_SIZE != 0 {
      return -3;
    }
    var pte := Walk(k, pgtbl, vpage, true, unsafe);
    if pte == 0 || pte == 1 {
      return -1;
    }
    ghost var m2 := k.mem[..];
    var e := LeafWord(ppage, flags, ind, sflag);
    StoreLeaf(k, pte, e, root, v);
    BuiltGrown(o, k.own, Path(root, v, 3));
    RemapAfterSame(m, m2, k.mem[..], o, k.own, root, map[v := LeafOutcome(e)]);
    OnlyTablesStep(m, m2, k.mem[..], k.own.tables, k.own.tables);
    return 0;
  }

  lemma BuiltGrown(o: Ownership, o2: Ownership, nodes: set<Node>)
    requires Built(o, o2, nodes)
    ensures Grown(o, o2)
  {}

  /** A zeroed frame that is nobody's table yet can serve as a root: it maps nothing. */
  function Rooted(o: Ownership, root: nat): Ownership {
    o.(held := o.held - {root}, tables := o.tables[Root(root) := root])
  }

  lemma RootState(m: seq<Word>, head: Word, terminal: Word, o: Ownership, root: nat)
    requires State(m, head, terminal, o) && Zeroed(m, root) && root < FRAME_LIMIT
    requires root in o.held || (root !in o.pool && root !in o.tables.Values)
    ensures State(m, head, terminal, Rooted(o, root))
    ensures forall v :: 0 <= v < FRAME_LIMIT ==> Translate(m, root, v) == Fault
  {
    var t2 := o.tables[Root(root) := root];
    assert Root(root) !in o.tables;
    RootShape(o.tables, root);
    RootHolds(m, o.tables, root);
    RootPartition(o, root);
    forall v | 0 <= v < FRAME_LIMIT
      ensures Translate(m, root, v) == Fault
    {
      assert Slot(m, root, Index(v, 0)) == 0;
    }
  }

  lemma RootShape(t: Tables, root: nat)
    requires Shape(t) && root !in t.Values && root < FRAME_LIMIT
    ensures Shape(t[Root(root) := root])
  {
    var t2 := t[Root(root) := root];
    forall a, b | a in t2 && b in t2 && t2[a] == t2[b]
      ensures a == b
    {
      assert a != Root(root) ==> t2[a] in t.Values;
      assert b != Root(root) ==> t2[b] in t.Values;
    }
  }

  lemma RootHolds(m: seq<Word>, t: Tables, root: nat)
    requires Forest(m, t) && root !in t.Values && Zeroed(m, root)
    ensures Holds(m, t[Root(root) := root])
  {
    var t2 := t[Root(root) := root];
    assert Root(root) !in t;
    forall n, i | n in t2 && n.level < 3 && 0 <= i < 512
      ensures InMemory(m, t2[n]) && Links(Slot(m, t2[n], i), t2, Child(n, i))
    {
      if n == Root(root) {
        FirstLevel(t, root, i);
      } else {
        assert Links(Slot(m, t[n], i), t, Child(n, i));
      }
    }
  }

  lemma FirstLevel(t: Tables, root: nat, i: nat)
    requires Shape(t) && Root(root) !in t && i < 512
    ensures Child(Root(root), i) !in t
  {
    assert Child(Root(root), i).prefix / 512 == 0;
  }

  lemma RootPartition(o: Ownership, root: nat)
    requires Partition(o) && Root(root) !in o.tables && root !in o.free
    requires root in o.held || root !in o.pool
    ensures Partition(Rooted(o, root))
  {
    var t2 := o.tables[Root(root) := root];
    assert t2[Root(root)] == root;
    forall q
      ensures q in t2.Values <==> q == root || q in o.tables.Values
    {
      if q in o.tables.Values {
        var a :| a in o.tables && o.tables[a] == q;
        assert t2[a] == q;
      }
    }
  }
}
