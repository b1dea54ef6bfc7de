/** Whole ranges of pages: what a run of mapva calls adds to an address space. */
module AddressSpaces {
  import opened Bits
  import opened Accesses
  import opened Arch
  import opened PageTables
  import opened PaAlloc
  import opened Vm

  /** An address space: what its mapped pages translate to. */
  type Space = map<nat, Outcome>

  /** All tables needed to translate the pages of `s`. */
  function Nodes(root: nat, s: set<nat>): set<Node> {
    set v, l | v in s && 0 <= l <= 3 :: NodeOf(root, v, l)
  }

  lemma NodesOfPage(root: nat, v: nat)
    ensures Path(root, v, 3) == Nodes(root, {v})
  {
    PathMembers(root, v, 3);
  }

  lemma {:induction false} PathMembers(root: nat, v: nat, level: nat)
    requires level <= 3
    ensures forall n :: n in Path(root, v, level) <==> exists l :: 0 <= l <= level && n == NodeOf(root, v, l)
  {
    if level > 0 {
      PathMembers(root, v, level - 1);
    }
  }

  lemma NodesUnion(root: nat, s: set<nat>, s2: set<nat>)
    ensures Nodes(root, s + s2) == Nodes(root, s) + Nodes(root, s2)
  {}

  /** Exactly the pages of `f` were mapped under `root`, with exactly the tables that takes. */
  ghost predicate Mapped(m: seq<Word>, o: Ownership, m2: seq<Word>, o2: Ownership, root: nat, f: Space) {
    Remapped(m, m2, o.tables, root, f) && Built(o, o2, Nodes(root, f.Keys)) && OnlyTables(m, m2, o2.tables)
  }

  /** Mapping `f` failed for want of pages; no other address space has changed. */
  ghost predicate OutOfPages(m: seq<Word>, o: Ownership, m2: seq<Word>, o2: Ownership, root: nat, f: Space) {
    Short(o, o2, Nodes(root, f.Keys)) && OthersKept(m, m2, o.tables, root) && OnlyTables(m, m2, o2.tables)
  }

  /** Mapping nothing. */
  lemma MappedNothing(m: seq<Word>, o: Ownership, root: nat)
    ensures Mapped(m, o, m, o, root, map[])
  {}

  lemma BuiltThen(o: Ownership, o2: Ownership, o3: Ownership, a: set<Node>, b: set<Node>)
    requires Built(o, o2, a) && Built(o2, o3, b)
    ensures Built(o, o3, a + b)
  {
    GrownStep(o, o2, o3);
    hide Grown;
    assert (o.tables.Keys + a) + b == o.tables.Keys + (a + b);
  }

  lemma BuiltThenShort(o: Ownership, o2: Ownership, o3: Ownership, a: set<Node>, b: set<Node>)
    requires Built(o, o2, a) && Short(o2, o3, b)
    ensures Short(o, o3, a + b)
  {
    hide Grown;
    GrownStep(o, o2, o3);
    UnionTwice(o.tables.Keys, a, b);
  }

  lemma UnionTwice<T>(s: set<T>, a: set<T>, b: set<T>)
    ensures (s + a) + b == s + (a + b)
  {}

  lemma RemappedThen(m: seq<Word>, m2: seq<Word>, m3: seq<Word>, o: Ownership, o2: Ownership,
                     root: nat, f: Space, g: Space)
    requires Remapped(m, m2, o.tables, root, f) && Grown(o, o2) && Remapped(m2, m3, o2.tables, root, g)
    ensures Remapped(m, m3, o.tables, root, f + g)
  {}

  /** The address spaces of all other roots are as they were. */
  ghost predicate OthersKept(m: seq<Word>, m2: seq<Word>, t: Tables, root: nat) {
    forall r, u :: Root(r) in t && r != root && 0 <= u < FRAME_LIMIT ==> Translate(m2, r, u) == Translate(m, r, u)
  }

  lemma KeptThen(m: seq<Word>, m2: seq<Word>, m3: seq<Word>, o: Ownership, o2: Ownership, root: nat, f: Space)
    requires Remapped(m, m2, o.tables, root, f) && Grown(o, o2) && OthersKept(m2, m3, o2.tables, root)
    ensures OthersKept(m, m3, o.tables, root)
  {}

  /** Mapping `f` and then `g`: where both map a page, the later one wins. */
  lemma MappedThen(m: seq<Word>, o: Ownership, m2: seq<Word>, o2: Ownership, m3: seq<Word>, o3: Ownership,
                   root: nat, f: Space, g: Space)
    requires Mapped(m, o, m2, o2, root, f)
    ensures Mapped(m2, o2, m3, o3, root, g) ==> Mapped(m, o, m3, o3, root, f + g)
    ensures OutOfPages(m2, o2, m3, o3, root, g) ==> OutOfPages(m, o, m3, o3, root, f + g)
  {
    hide Remapped, OthersKept, Nodes;
    assert (f + g).Keys == f.Keys + g.Keys;
    NodesUnion(root, f.Keys, g.Keys);
    BuiltGrown(o, o2, Nodes(root, f.Keys));
    if Mapped(m2, o2, m3, o3, root, g) {
      OnlyTablesStep(m, m2, m3, o2.tables, o3.tables);
      BuiltThen(o, o2, o3, Nodes(root, f.Keys), Nodes(root, g.Keys));
      RemappedThen(m, m2, m3, o, o2, root, f, g);
    }
    if OutOfPages(m2, o2, m3, o3, root, g) {
      OnlyTablesStep(m, m2, m3, o2.tables, o3.tables);
      BuiltThenShort(o, o2, o3, Nodes(root, f.Keys), Nodes(root, g.Keys));
      KeptThen(m, m2, m3, o, o2, root, f);
    }
  }

  /** What does not fit is not helped by mapping more afterwards. */
  lemma OutOfMore(m: seq<Word>, o: Ownership, m2: seq<Word>, o2: Ownership, root: nat, f: Space, g: Space)
    requires OutOfPages(m, o, m2, o2, root, f) && f.Keys <= g.Keys
    ensures OutOfPages(m, o, m2, o2, root, g)
  {
    assert g.Keys == f.Keys + g.Keys;
    NodesUnion(root, f.Keys, g.Keys);
    hide Nodes;
  }

  /** The attributes vm.h declares: four kinds of memory, three of shareability. */
  predicate Attributes(ind: Word, sflag: Word) {
    ind in {0, 4, 8, 12} && sflag in {0, 0x200, 0x300}
  }

  /** A valid page descriptor for `frame` with the given attributes. */
  function PageOf(frame: nat, ind: Word, sflag: Word): Outcome
    requires frame < ADDRESS_PAGES && Attributes(ind, sflag)
  {
    Output(3, frame * PAGE_SIZE + 3 + ind + ACCESS_FLAG + sflag)
  }

  /** What the hardware reads out of such a descriptor: the frame in bits 47:12, the memory attribute index in bits
      4:2, access permission 0 in bits 7:6, the shareability in bits 9:8, and the access flag in bit 10. Of a physical
      address the top sixteen bits end up in the upper attributes. */
  lemma PageReadsBack(frame: nat, ind: Word, sflag: Word)
    requires frame < ADDRESS_PAGES && Attributes(ind, sflag)
    ensures var d := PageOf(frame, ind, sflag).descriptor;
      && FrameOf(d) == frame % FRAME_LIMIT && d / VA_LIMIT == frame / FRAME_LIMIT
      && d % 4 == 3 && d / 4 % 8 == ind / 4 && d / 64 % 4 == 0
      && d / 256 % 4 == sflag / 256 && d / 1024 % 4 == 1
  {
    var d, a, b := PageOf(frame, ind, sflag).descriptor, ind / 4, sflag / 256;
    assert ind == 4 * a && sflag == 256 * b && a < 8 && b < 4;
    hide Attributes, PageOf;
    assert d == frame * 4096 + 1024 + 256 * b + 4 * a + 3;
    FrameReadsBack(frame, 1024 + 256 * b + 4 * a + 3);
    DivUnique(d, 4, frame * 1024 + 256 + 64 * b + a, 3);
    DivUnique(frame * 1024 + 256 + 64 * b + a, 8, frame * 128 + 32 + 8 * b, a);
    DivUnique(d, 64, frame * 64 + 16 + 4 * b, 4 * a + 3);
    DivUnique(frame * 64 + 16 + 4 * b, 4, frame * 16 + 4 + b, 0);
    DivUnique(d, 256, frame * 16 + 4 + b, 4 * a + 3);
    DivUnique(frame * 16 + 4 + b, 4, frame * 4 + 1, b);
    DivUnique(d, 1024, frame * 4 + 1, 256 * b + 4 * a + 3);
    DivUnique(frame * 4 + 1, 4, frame, 1);
  }

  lemma FrameReadsBack(frame: nat, low: nat)
    requires frame < ADDRESS_PAGES && low < 4096
    ensures FrameOf(frame * 4096 + low) == frame % FRAME_LIMIT
    ensures (frame * 4096 + low) / VA_LIMIT == frame / FRAME_LIMIT
  {
    var h, q := frame / FRAME_LIMIT, frame % FRAME_LIMIT;
    DivUnique(frame * 4096 + low, VA_LIMIT, h, q * 4096 + low);
    DivUnique(q * 4096 + low, PAGE_SIZE, q, low);
  }

  lemma LeafIsPage(pa: Word, ind: Word, sflag: Word)
    requires Attributes(ind, sflag)
    ensures LeafOutcome(LeafWord(PgRoundDown(pa), VALID_PAGE, ind, sflag)) == PageOf(pa / PAGE_SIZE, ind, sflag)
  {
    hide And, LeafWord;
    var p := PgRoundDown(pa);
    assert p % PAGE_SIZE == 0;
    LeafFields(p, VALID_PAGE, ind, sflag);
    LowBits(pa / PAGE_SIZE, ind, sflag);
    hide Attributes;
  }

  lemma LowBits(frame: nat, ind: Word, sflag: Word)
    requires Attributes(ind, sflag)
    ensures (frame * PAGE_SIZE + VALID_PAGE + ind + ACCESS_FLAG + sflag) % 4 == 3
  {
    var a, b := ind / 4, sflag / 4;
    assert ind == 4 * a && sflag == 4 * b;
    DivUnique(frame * PAGE_SIZE + 3 + 4 * a + 0x400 + 4 * b, 4, frame * 1024 + a + 0x100 + b, 3);
  }

  function Pages(first: nat, last: nat): (s: set<nat>)
    ensures forall v: nat :: v in s <==> first <= v < last
    ensures |s| == if first <= last then last - first else 0
  {
    if first >= last then {} else Pages(first, last - 1) + {last - 1}
  }

  /** Pages `first` to `last - 1` mapped to the frames from `frame` on. */
  function Range(first: nat, last: nat, frame: nat, ind: Word, sflag: Word): Space
    requires Attributes(ind, sflag) && (first < last ==> frame + (last - first) <= ADDRESS_PAGES)
  {
    map v | v in Pages(first, last) :: PageOf(frame + (v - first), ind, sflag)
  }

  lemma RangeAt(first: nat, last: nat, frame: nat, ind: Word, sflag: Word, v: nat)
    requires Attributes(ind, sflag) && (first < last ==> frame + (last - first) <= ADDRESS_PAGES)
    ensures v in Range(first, last, frame, ind, sflag) <==> first <= v < last
    ensures first <= v < last ==> Range(first, last, frame, ind, sflag)[v] == PageOf(frame + (v - first), ind, sflag)
  {}

  lemma RangeStep(first: nat, v: nat, frame: nat, ind: Word, sflag: Word)
    requires Attributes(ind, sflag) && first <= v && frame + (v + 1 - first) <= ADDRESS_PAGES
    ensures Range(first, v + 1, frame, ind, sflag) ==
      Range(first, v, frame, ind, sflag) + map[v := PageOf(frame + (v - first), ind, sflag)]
  {}

  lemma RangeEmpty(first: nat, last: nat, frame: nat, ind: Word, sflag: Word)
    requires Attributes(ind, sflag)
    ensures Range(first, first, frame, ind, sflag) == map[]
    ensures first >= last ==> Range(first, last, frame, ind, sflag) == map[]
  {}

  lemma RangePointers(start: Word, end: Word, pa: Word, pointer: Word)
    requires start % PAGE_SIZE == 0 && end % PAGE_SIZE == 0 && pointer % PAGE_SIZE == 0
    requires start <= pointer < end <= VA_LIMIT && pa + (end - start) < ADDRESS_LIMIT
    ensures Vpn(pointer) == pointer / PAGE_SIZE && (pointer + 0x1000) / PAGE_SIZE == pointer / PAGE_SIZE + 1
    ensures start / PAGE_SIZE <= pointer / PAGE_SIZE < end / PAGE_SIZE
    ensures (pa + (pointer - start)) / PAGE_SIZE == pa / PAGE_SIZE + (pointer / PAGE_SIZE - start / PAGE_SIZE)
    ensures pa / PAGE_SIZE + (end / PAGE_SIZE - start / PAGE_SIZE) <= ADDRESS_PAGES
  {}

  /** With an empty pool nothing can grow. */
  lemma DryTables(o2: Ownership, o3: Ownership)
    requires Grown(o2, o3) && o2.free == []
    ensures o3.free == [] && o3.tables.Keys == o2.tables.Keys && o3 == o2
  {
    var added := o3.tables.Keys - o2.tables.Keys;
    assert o3.tables.Keys == o2.tables.Keys + added;
    KeysSize(o2.tables, o3.tables, added);
    assert o3.tables == o2.tables;
  }

  /** An empty pool maps no page whose level 3 table is not there yet. */
  lemma DryPage(m: seq<Word>, o: Ownership, m2: seq<Word>, o2: Ownership, root: nat, v: nat, f: Space)
    requires o.free == [] && NodeOf(root, v, 3) !in o.tables && v in f
    ensures !Mapped(m, o, m2, o2, root, f)
  {
    assert NodeOf(root, v, 3) in Nodes(root, f.Keys);
    if Mapped(m, o, m2, o2, root, f) {
      DryTables(o, o2);
    }
    hide Nodes, Remapped, OnlyTables;
  }

  /** One mapva call with the flags this kernel passes. */
  method MapPage(k: Machine, va: Word, pa: Word, pgtbl: Word, ind: Word, sflag: Word, unsafe: bool) returns (res: int)
    requires k.Valid() && !k.locked && pgtbl % PAGE_SIZE == 0 && Root(pgtbl / PAGE_SIZE) in k.own.tables
    requires Attributes(ind, sflag)
    modifies k, k.mem
    ensures k.Valid() && !k.locked && (res == 0 || res == -1)
    ensures var root, f := pgtbl / PAGE_SIZE, map[Vpn(va) := PageOf(pa / PAGE_SIZE, ind, sflag)];
      if res == 0 then Mapped(old(k.mem[..]), old(k.own), k.mem[..], k.own, root, f)
      else OutOfPages(old(k.mem[..]), old(k.own), k.mem[..], k.own, root, f)
    ensures old(k.own).free == [] && res != 0 ==> k.mem[..] == old(k.mem[..])
    ensures MapOn(Off, old(k.Ram()), k.Globals(), pgtbl, va, pa, ind, sflag, VALID_PAGE) == Done((k.Ram(), res))
    ensures if unsafe then Acquired(k.log) == Acquired(old(k.log)) else Unlocked(k.log) == Unlocked(old(k.log))
  {
    hide Held, Acquired, Unlocked, State, Path, Missing, MapOn, Built, Short, Index, Prefix, PgRoundDown, LeafWord,
      LeafOutcome;
    res := MapVa(k, va, pa, pgtbl, ind, sflag, VALID_PAGE, unsafe);
    LeafIsPage(pa, ind, sflag);
    NodesOfPage(pgtbl / PAGE_SIZE, Vpn(va));
    assert map[Vpn(va) := PageOf(pa / PAGE_SIZE, ind, sflag)].Keys == {Vpn(va)};
  }

  /** for (pointer = start; pointer < end; pointer += 0x1000, pa += 0x1000) mapva(pointer, pa, ...) */
  method MapRange(k: Machine, start: Word, end: Word, pa: Word, pgtbl: Word, ind: Word, sflag: Word, unsafe: bool)
    returns (res: int)
    requires k.Valid() && !k.locked && pgtbl % PAGE_SIZE == 0 && Root(pgtbl / PAGE_SIZE) in k.own.tables
    requires start % PAGE_SIZE == 0 && end % PAGE_SIZE == 0 && Attributes(ind, sflag)
    requires start < end ==> end <= VA_LIMIT && pa + (end - start) < ADDRESS_LIMIT
    modifies k, k.mem
    ensures k.Valid() && !k.locked && (res == 0 || res == -1)
    ensures var root, f := pgtbl / PAGE_SIZE, Range(start / PAGE_SIZE, end / PAGE_SIZE, pa / PAGE_SIZE, ind, sflag);
      if res == 0 then Mapped(old(k.mem[..]), old(k.own), k.mem[..], k.own, root, f)
      else OutOfPages(old(k.mem[..]), old(k.own), k.mem[..], k.own, root, f)
    ensures old(k.own).free == [] && start < end ==>
      NodeOf(pgtbl / PAGE_SIZE, start / PAGE_SIZE, 3) in old(k.own).tables || k.mem[..] == old(k.mem[..])
    ensures MapRangeOn(Off, old(k.Ram()), k.Globals(), pgtbl, start, end, pa, ind, sflag) == Done((k.Ram(), res))
    ensures if unsafe then Acquired(k.log) == Acquired(old(k.log)) else Unlocked(k.log) == Unlocked(old(k.log))
  {
    hide Held, Acquired, Unlocked, State, MapOn, Mapped, OutOfPages, PageOf, Range, Vpn, Attributes, NodeOf;
    ghost var root, m, o := pgtbl / PAGE_SIZE, k.mem[..], k.own;
    ghost var first, last, frame := start / PAGE_SIZE, end / PAGE_SIZE, pa / PAGE_SIZE;
    ghost var dry := o.free == [] && start < end && NodeOf(root, first, 3) !in o.tables;
    var pointer: Word, target: Word := start, pa;
    MappedNothing(m, o, root);
    RangeEmpty(first, last, frame, ind, sflag);
    while pointer < end
      invariant start <= pointer && (pointer > start ==> pointer <= end)
      invariant pointer % PAGE_SIZE == 0 && target == pa + (pointer - start)
      invariant k.Valid() && !k.locked && Root(root) in k.own.tables
      invariant Mapped(m, o, k.mem[..], k.own, root, Range(first, pointer / PAGE_SIZE, frame, ind, sflag))
      invariant dry ==> pointer == start && k.own == o && k.mem[..] == m
      invariant MapRangeOn(Off, old(k.Ram()), k.Globals(), pgtbl, start, end, pa, ind, sflag)
             == MapRangeOn(Off, k.Ram(), k.Globals(), pgtbl, pointer, end, target, ind, sflag)
      invariant if unsafe then Acquired(k.log) == Acquired(old(k.log)) else Unlocked(k.log) == Unlocked(old(k.log))
    {
      ghost var m2, o2, v := k.mem[..], k.own, pointer / PAGE_SIZE;
      RangePointers(start, end, pa, pointer);
      res := MapPage(k, pointer, target, pgtbl, ind, sflag, unsafe);
      RangeTurn(m, o, m2, o2, k.mem[..], k.own, root, first, v, last, frame, ind, sflag);
      if res < 0 {
        return res;
      }
      pointer, target := pointer + 0x1000, target + 0x1000;
    }
    return 0;
  }

  lemma RangeTurn(m: seq<Word>, o: Ownership, m2: seq<Word>, o2: Ownership, m3: seq<Word>, o3: Ownership,
                  root: nat, first: nat, v: nat, last: nat, frame: nat, ind: Word, sflag: Word)
    requires Attributes(ind, sflag) && first <= v < last && frame + (last - first) <= ADDRESS_PAGES
    requires Mapped(m, o, m2, o2, root, Range(first, v, frame, ind, sflag)) && Root(root) in o.tables
    ensures Root(root) in o2.tables
    ensures Mapped(m2, o2, m3, o3, root, map[v := PageOf(frame + (v - first), ind, sflag)]) ==>
      Root(root) in o3.tables && Mapped(m, o, m3, o3, root, Range(first, v + 1, frame, ind, sflag))
    ensures OutOfPages(m2, o2, m3, o3, root, map[v := PageOf(frame + (v - first), ind, sflag)]) ==>
      OutOfPages(m, o, m3, o3, root, Range(first, last, frame, ind, sflag))
    ensures o2.free == [] && NodeOf(root, v, 3) !in o2.tables ==>
      !Mapped(m2, o2, m3, o3, root, map[v := PageOf(frame + (v - first), ind, sflag)])
  {
    var f, g := Range(first, v, frame, ind, sflag), map[v := PageOf(frame + (v - first), ind, sflag)];
    RangeStep(first, v, frame, ind, sflag);
    MappedThen(m, o, m2, o2, m3, o3, root, f, g);
    if OutOfPages(m2, o2, m3, o3, root, g) {
      OutOfMore(m, o, m3, o3, root, f + g, Range(first, last, frame, ind, sflag));
    }
    if o2.free == [] && NodeOf(root, v, 3) !in o2.tables {
      DryPage(m2, o2, m3, o3, root, v, g);
    }
    hide Nodes, Remapped, PageOf, OutOfPages;
  }

  /** `n` pages, `stride` apart from page `first` on, mapped to the frames from `frame` on. */
  function Spaced(first: nat, stride: nat, frame: nat, n: nat, ind: Word, sflag: Word): Space
    requires Attributes(ind, sflag) && frame + n <= ADDRESS_PAGES
  {
    if n == 0 then map[]
    else Spaced(first, stride, frame, n - 1, ind, sflag)[first + stride * (n - 1) := PageOf(frame + n - 1, ind, sflag)]
  }

  lemma SpacedFour(first: nat, stride: nat, frame: nat, ind: Word, sflag: Word)
    requires Attributes(ind, sflag) && frame + 4 <= ADDRESS_PAGES && stride > 0
    ensures Spaced(first, stride, frame, 4, ind, sflag) == map[
      first := PageOf(frame, ind, sflag), first + stride := PageOf(frame + 1, ind, sflag),
      first + stride * 2 := PageOf(frame + 2, ind, sflag), first + stride * 3 := PageOf(frame + 3, ind, sflag)]
  {
    hide PageOf;
    assert Spaced(first, stride, frame, 1, ind, sflag) == map[first := PageOf(frame, ind, sflag)];
    assert Spaced(first, stride, frame, 2, ind, sflag) ==
      map[first := PageOf(frame, ind, sflag), first + stride := PageOf(frame + 1, ind, sflag)];
  }

  lemma SpacedVpn(base: Word, n: nat)
    requires base % PAGE_SIZE == 0 && base + PAGE_SIZE * n < VA_LIMIT
    ensures Vpn(base + PAGE_SIZE * n) == base / PAGE_SIZE + n
  {}

  lemma SpacedPage(base: Word, stride: nat, pa: Word, i: nat)
    requires base % PAGE_SIZE == 0 && base + 4 * PAGE_SIZE * stride < VA_LIMIT
    requires pa % PAGE_SIZE == 0 && pa + 4 * PAGE_SIZE <= VA_LIMIT && i <= 3
    ensures base + PAGE_SIZE * (stride * i) < VA_LIMIT && pa + PAGE_SIZE * i < VA_LIMIT
    ensures Vpn(base + PAGE_SIZE * (stride * i)) == base / PAGE_SIZE + stride * i
    ensures (pa + PAGE_SIZE * i) / PAGE_SIZE == pa / PAGE_SIZE + i && pa / PAGE_SIZE + 4 <= ADDRESS_PAGES
  {
    hide Vpn;
    assert stride * i <= stride * 3;
    SpacedVpn(base, stride * i);
  }

  lemma SpacedNothing(first: nat, stride: nat, frame: nat, ind: Word, sflag: Word)
    requires Attributes(ind, sflag) && frame <= ADDRESS_PAGES
    ensures Spaced(first, stride, frame, 0, ind, sflag) == map[]
  {}

  lemma {:induction false} SpacedKeys(first: nat, stride: nat, frame: nat, n: nat, n2: nat, ind: Word, sflag: Word)
    requires Attributes(ind, sflag) && n <= n2 && frame + n2 <= ADDRESS_PAGES
    ensures Spaced(first, stride, frame, n, ind, sflag).Keys <= Spaced(first, stride, frame, n2, ind, sflag).Keys
  {
    if n < n2 {
      SpacedKeys(first, stride, frame, n, n2 - 1, ind, sflag);
    }
  }

  /** for (i = 0; i <= 3; ++i) mapva(base + stride * i, &frames[i << 12], ...) */
  method MapFour(k: Machine, base: Word, stride: nat, pa: Word, pgtbl: Word, ind: Word, sflag: Word) returns (res: int)
    requires k.Valid() && !k.locked && pgtbl % PAGE_SIZE == 0 && Root(pgtbl / PAGE_SIZE) in k.own.tables
    requires base % PAGE_SIZE == 0 && base + 4 * PAGE_SIZE * stride < VA_LIMIT
    requires pa % PAGE_SIZE == 0 && pa + 4 * PAGE_SIZE <= VA_LIMIT && Attributes(ind, sflag)
    modifies k, k.mem
    ensures k.Valid() && !k.locked && (res == 0 || res == -1)
    ensures var root, f := pgtbl / PAGE_SIZE, Spaced(base / PAGE_SIZE, stride, pa / PAGE_SIZE, 4, ind, sflag);
      if res == 0 then Mapped(old(k.mem[..]), old(k.own), k.mem[..], k.own, root, f)
      else OutOfPages(old(k.mem[..]), old(k.own), k.mem[..], k.own, root, f)
    ensures Acquired(k.log) == Acquired(old(k.log))
  {
    hide Held, Acquired, Unlocked, State, Mapped, OutOfPages, PageOf, Vpn, Attributes, MapOn, Spaced;
    ghost var root, m, o := pgtbl / PAGE_SIZE, k.mem[..], k.own;
    ghost var first, frame := base / PAGE_SIZE, pa / PAGE_SIZE;
    MappedNothing(m, o, root);
    SpacedNothing(first, stride, frame, ind, sflag);
    var i := 0;
    while i <= 3
      invariant 0 <= i <= 4
      invariant k.Valid() && !k.locked && Root(root) in k.own.tables
      invariant Mapped(m, o, k.mem[..], k.own, root, Spaced(first, stride, frame, i, ind, sflag))
      invariant Acquired(k.log) == Acquired(old(k.log))
    {
      ghost var m2, o2 := k.mem[..], k.own;
      SpacedPage(base, stride, pa, i);
      var va: Word, target: Word := base + PAGE_SIZE * (stride * i), pa + PAGE_SIZE * i;
      res := MapPage(k, va, target, pgtbl, ind, sflag, true);
      SpacedTurn(m, o, m2, o2, k.mem[..], k.own, root, first, stride, frame, i, ind, sflag);
      if res < 0 {
        return res;
      }
      i := i + 1;
    }
    return 0;
  }

  lemma SpacedTurn(m: seq<Word>, o: Ownership, m2: seq<Word>, o2: Ownership, m3: seq<Word>, o3: Ownership,
                   root: nat, first: nat, stride: nat, frame: nat, i: nat, ind: Word, sflag: Word)
    requires Attributes(ind, sflag) && i < 4 && frame + 4 <= ADDRESS_PAGES
    requires Mapped(m, o, m2, o2, root, Spaced(first, stride, frame, i, ind, sflag)) && Root(root) in o.tables
    ensures Mapped(m2, o2, m3, o3, root, map[first + stride * i := PageOf(frame + i, ind, sflag)]) ==>
      Root(root) in o3.tables && Mapped(m, o, m3, o3, root, Spaced(first, stride, frame, i + 1, ind, sflag))
    ensures OutOfPages(m2, o2, m3, o3, root, map[first + stride * i := PageOf(frame + i, ind, sflag)]) ==>
      OutOfPages(m, o, m3, o3, root, Spaced(first, stride, frame, 4, ind, sflag))
  {
    var f, g := Spaced(first, stride, frame, i, ind, sflag), map[first + stride * i := PageOf(frame + i, ind, sflag)];
    assert Spaced(first, stride, frame, i + 1, ind, sflag) == f + g;
    MappedThen(m, o, m2, o2, m3, o3, root, f, g);
    if OutOfPages(m2, o2, m3, o3, root, g) {
      SpacedKeys(first, stride, frame, i + 1, 4, ind, sflag);
      OutOfMore(m, o, m3, o3, root, f + g, Spaced(first, stride, frame, 4, ind, sflag));
    }
    hide Nodes, Remapped, PageOf, OutOfPages, Spaced;
  }

  // ----- Sequences of calls, and the pages they take -----

  /** All the spaces of a sequence of calls, later ones winning. */
  function Together(fs: seq<Space>): Space {
    if fs == [] then map[] else Together(fs[..|fs| - 1]) + fs[|fs| - 1]
  }

  /** Any sequence of successful calls amounts to mapping all of it at once. */
  lemma {:induction false} MappedSequence(ms: seq<seq<Word>>, os: seq<Ownership>, fs: seq<Space>, root: nat)
    requires |ms| == |os| == |fs| + 1
    requires forall i :: 0 <= i < |fs| ==> Mapped(ms[i], os[i], ms[i + 1], os[i + 1], root, fs[i])
    ensures Mapped(ms[0], os[0], ms[|fs|], os[|fs|], root, Together(fs))
    decreases |fs|
  {
    hide Mapped;
    if fs == [] {
      MappedNothing(ms[0], os[0], root);
    } else {
      var n := |fs| - 1;
      MappedSequence(ms[..n + 1], os[..n + 1], fs[..n], root);
      MappedThen(ms[0], os[0], ms[n], os[n], ms[n + 1], os[n + 1], root, Together(fs[..n]), fs[n]);
    }
  }

  /** The distinct index prefixes of a set of pages, down to a level. */
  function Prefixes(s: set<nat>, level: nat): set<nat>
    requires level <= 3
  {
    set v | v in s :: Prefix(v, level)
  }

  function LevelNodes(root: nat, s: set<nat>, level: nat): set<Node>
    requires level <= 3
  {
    set v | v in s :: NodeOf(root, v, level)
  }

  lemma {:induction false} LevelCount(root: nat, s: set<nat>, level: nat, p: set<nat>)
    requires level <= 3 && p == Prefixes(s, level)
    ensures |LevelNodes(root, s, level)| == |p|
  {
    var image := set q | q in p :: Node(root, level, q);
    assert LevelNodes(root, s, level) == image by {
      forall n | n in image
        ensures n in LevelNodes(root, s, level)
      {
        var v :| v in s && Prefix(v, level) == n.prefix;
        assert NodeOf(root, v, level) == n;
      }
    }
    ImageCount(root, level, p);
  }

  lemma {:induction false} ImageCount(root: nat, level: nat, p: set<nat>)
    ensures |set q | q in p :: Node(root, level, q)| == |p|
    decreases |p|
  {
    var image := set q | q in p :: Node(root, level, q);
    if p != {} {
      var x :| x in p;
      ImageCount(root, level, p - {x});
      assert image == (set q | q in p - {x} :: Node(root, level, q)) + {Node(root, level, x)};
    } else {
      assert image == {};
    }
  }

  /** Mapping any pages from an empty root takes one page for each distinct prefix of each length, and no more. */
  lemma ExactAccounting(m: seq<Word>, o: Ownership, m2: seq<Word>, o2: Ownership, root: nat, f: Space)
    requires Mapped(m, o, m2, o2, root, f) && forall v :: v in f ==> v < FRAME_LIMIT
    requires Root(root) in o.tables && forall n :: n in o.tables && n.root == root ==> n == Root(root)
    ensures |o.free| - |o2.free| == |Prefixes(f.Keys, 1)| + |Prefixes(f.Keys, 2)| + |Prefixes(f.Keys, 3)|
  {
    var s := f.Keys;
    BuiltTook(o, o2, Nodes(root, s));
    LevelCount(root, s, 1, Prefixes(s, 1));
    LevelCount(root, s, 2, Prefixes(s, 2));
    LevelCount(root, s, 3, Prefixes(s, 3));
    BelowRoot(o.tables, root, s);
    hide *;
  }

  lemma BelowRoot(t: Tables, root: nat, s: set<nat>)
    requires forall v :: v in s ==> v < FRAME_LIMIT
    requires Root(root) in t && forall n :: n in t && n.root == root ==> n == Root(root)
    ensures |Nodes(root, s) - t.Keys| == |LevelNodes(root, s, 1)| + |LevelNodes(root, s, 2)| + |LevelNodes(root, s, 3)|
  {
    var a, b, c := LevelNodes(root, s, 1), LevelNodes(root, s, 2), LevelNodes(root, s, 3);
    forall n
      ensures n in Nodes(root, s) - t.Keys <==> n in a + b + c
    {
      if n in Nodes(root, s) {
        var v, l :| v in s && 0 <= l <= 3 && n == NodeOf(root, v, l);
        if l == 0 {
          assert Prefix(v, 0) == 0;
        }
      }
    }
    assert a !! b && a !! c && b !! c;
    hide *;
    ThreeParts(Nodes(root, s) - t.Keys, a, b, c);
  }

  lemma ThreeParts(s: set<Node>, a: set<Node>, b: set<Node>, c: set<Node>)
    requires a !! b && a !! c && b !! c && forall n :: n in s <==> n in a + b + c
    ensures |s| == |a| + |b| + |c|
  {
    assert s == a + b + c;
    assert |a + b| == |a| + |b| && |a + b + c| == |a + b| + |c|;
  }

  /** Neighbouring pages have one table per region they touch: the prefixes of `first` to `last - 1` are consecutive. */
  lemma ContiguousPrefixes(first: nat, last: nat, level: nat)
    requires first < last && level <= 3
    ensures Prefixes(Pages(first, last), level) == Pages(Prefix(first, level), Prefix(last - 1, level) + 1)
    ensures |Prefixes(Pages(first, last), level)| == Prefix(last - 1, level) - Prefix(first, level) + 1
  {
    hide *;
    ConsecutivePrefixes(first, last, level);
  }

  lemma {:induction false} ConsecutivePrefixes(first: nat, last: nat, level: nat)
    requires first < last && level <= 3
    ensures Prefix(first, level) <= Prefix(last - 1, level)
    ensures Prefixes(Pages(first, last), level) == Pages(Prefix(first, level), Prefix(last - 1, level) + 1)
    decreases last
  {
    hide *;
    PagesFrom(first, last);
    if first + 1 < last {
      PrefixesMore(Pages(first, last - 1), last - 1, level);
      ConsecutivePrefixes(first, last - 1, level);
      NextPrefix(last - 2, level);
      GrowPages(Prefix(first, level), Prefix(last - 2, level), Prefix(last - 1, level));
    } else {
      OnePrefix(first, level);
    }
  }

  lemma OnePrefix(v: nat, level: nat)
    requires level <= 3
    ensures Prefixes({v}, level) == Pages(Prefix(v, level), Prefix(v, level) + 1)
  {
    PagesFrom(Prefix(v, level), Prefix(v, level) + 1);
    hide Prefix;
  }

  lemma PagesFrom(first: nat, last: nat)
    requires first < last
    ensures Pages(first, last) == if first + 1 < last then Pages(first, last - 1) + {last - 1} else {first}
  {
    assert first + 1 == last ==> Pages(first, first) == {};
  }

  lemma PrefixesMore(s: set<nat>, v: nat, level: nat)
    requires level <= 3
    ensures Prefixes(s + {v}, level) == Prefixes(s, level) + {Prefix(v, level)}
  {
    hide Prefix;
  }

  /** One more page, in the last region or in the next. */
  lemma GrowPages(first: nat, last: nat, v: nat)
    requires first <= last <= v <= last + 1
    ensures Pages(first, last + 1) + {v} == Pages(first, v + 1)
  {}

  lemma NextPrefix(v: nat, level: nat)
    requires level <= 3
    ensures Prefix(v, level) <= Prefix(v + 1, level) <= Prefix(v, level) + 1
  {}

  /** What a range of neighbouring pages costs from an empty root: the 512GB, 1GB and 2MB regions it touches. */
  lemma RangeCost(m: seq<Word>, o: Ownership, m2: seq<Word>, o2: Ownership, root: nat, first: nat, last: nat,
                  frame: nat, ind: Word, sflag: Word)
    requires Attributes(ind, sflag) && first < last <= FRAME_LIMIT && frame + (last - first) <= ADDRESS_PAGES
    requires Mapped(m, o, m2, o2, root, Range(first, last, frame, ind, sflag))
    requires Root(root) in o.tables && forall n :: n in o.tables && n.root == root ==> n == Root(root)
    ensures |o.free| - |o2.free| ==
      (Prefix(last - 1, 1) - Prefix(first, 1)) + (Prefix(last - 1, 2) - Prefix(first, 2))
      + (Prefix(last - 1, 3) - Prefix(first, 3)) + 3
  {
    var f := Range(first, last, frame, ind, sflag);
    assert f.Keys == Pages(first, last);
    ContiguousPrefixes(first, last, 1);
    ContiguousPrefixes(first, last, 2);
    ContiguousPrefixes(first, last, 3);
    hide Mapped, Range, Prefix, Prefixes, Attributes;
    ExactAccounting(m, o, m2, o2, root, f);
  }
}
