/** Printing a table tree: ppgtbl of vm.c, and the lines it reports. */
module Listing {
  import opened Bits
  import opened Arch
  import opened PageTables
  import opened PaAlloc
  import opened Vm

  /** A line: its level, what the loop counters down to that level make of the address, and the descriptor. */
  datatype Line = Line(level: nat, prefix: nat, entry: Word)

  /** The lines for the slots of table `n` from `i` on. */
  function Lines(m: seq<Word>, t: Tables, n: Node, i: nat): seq<Line>
    requires Forest(m, t) && n in t && i <= 512
    decreases 3 - n.level, 512 - i
  {
    if i == 512 then [] else LinesOfSlot(m, t, n, i) + Lines(m, t, n, i + 1)
  }

  /** A valid descriptor has its line, and in an upper table the lines of the table below follow. */
  function LinesOfSlot(m: seq<Word>, t: Tables, n: Node, i: nat): seq<Line>
    requires Forest(m, t) && n in t && i < 512
    decreases 3 - n.level, 512 - i, 0
  {
    TableInMemory(m, t, n);
    if Slot(m, t[n], i) % 2 == 0 then []
    else
      [Line(n.level, n.prefix * 512 + i, Slot(m, t[n], i))]
      + if n.level < 3 && Child(n, i) in t then Lines(m, t, Child(n, i), 0) else []
  }

  /** The first page that slot `q` of a level translates, counting slots over all tables of the level. */
  function FirstPage(level: nat, q: nat): nat {
    if level == 0 then q * 0x800_0000 else if level == 1 then q * 0x4_0000 else if level == 2 then q * 0x200 else q
  }

  lemma FirstPages(level: nat, q: nat, q2: nat)
    requires q <= q2
    ensures FirstPage(level, q) <= FirstPage(level, q2)
    ensures level < 3 ==> FirstPage(level + 1, q * 512) == FirstPage(level, q)
    ensures level < 3 ==> FirstPage(level + 1, (q + 1) * 512) == FirstPage(level, q + 1)
    ensures FirstPage(level, q) < FirstPage(level, q + 1)
  {}

  function PageOfLine(x: Line): nat {
    FirstPage(x.level, x.prefix)
  }

  predicate Within(s: seq<Line>, low: nat, high: nat) {
    forall x :: 0 <= x < |s| ==> low <= PageOfLine(s[x]) < high
  }

  /** In the order of the pages, and a table before what it holds. */
  predicate Before(x: Line, y: Line) {
    PageOfLine(x) < PageOfLine(y) || (PageOfLine(x) == PageOfLine(y) && x.level < y.level)
  }

  predicate Increasing(s: seq<Line>) {
    forall x, y :: 0 <= x < y < |s| ==> Before(s[x], s[y])
  }

  predicate Deeper(s: seq<Line>, level: nat) {
    forall x :: 0 <= x < |s| ==> s[x].level >= level
  }

  lemma IncreasingConcat(s: seq<Line>, s2: seq<Line>, low: nat, mid: nat, high: nat, level: nat)
    requires Increasing(s) && Increasing(s2) && Within(s, low, mid) && Within(s2, mid, high) && low <= mid <= high
    requires Deeper(s, level) && Deeper(s2, level)
    ensures Increasing(s + s2) && Within(s + s2, low, high) && Deeper(s + s2, level)
  {
    hide PageOfLine;
  }

  lemma IncreasingBelow(x: Line, s: seq<Line>, low: nat, high: nat)
    requires Increasing(s) && Within(s, low, high) && Deeper(s, x.level + 1) && PageOfLine(x) == low < high
    ensures Increasing([x] + s) && Within([x] + s, low, high) && Deeper([x] + s, x.level)
  {
    hide PageOfLine;
  }

  lemma LinesFrom(m: seq<Word>, t: Tables, n: Node, i: nat)
    requires Forest(m, t) && n in t && i <= 512
    ensures Lines(m, t, n, i) == if i == 512 then [] else LinesOfSlot(m, t, n, i) + Lines(m, t, n, i + 1)
  {}

  /** The lines of a table come in order, and from its own part of the address space. */
  lemma {:induction false} LinesIncrease(m: seq<Word>, t: Tables, n: Node, i: nat)
    requires Forest(m, t) && n in t && i <= 512
    ensures Increasing(Lines(m, t, n, i)) && Deeper(Lines(m, t, n, i), n.level)
    ensures Within(Lines(m, t, n, i), FirstPage(n.level, n.prefix * 512 + i), FirstPage(n.level, (n.prefix + 1) * 512))
    decreases 3 - n.level, 512 - i
  {
    hide *;
    LinesFrom(m, t, n, i);
    if i == 512 {
      NoLine(FirstPage(n.level, n.prefix * 512 + i), FirstPage(n.level, (n.prefix + 1) * 512), n.level);
    } else {
      SlotIncreases(m, t, n, i);
      LinesIncrease(m, t, n, i + 1);
      var low: nat, mid: nat, high: nat := n.prefix * 512 + i, n.prefix * 512 + i + 1, (n.prefix + 1) * 512;
      FirstPages(n.level, low, mid);
      FirstPages(n.level, mid, high);
      IncreasingConcat(LinesOfSlot(m, t, n, i), Lines(m, t, n, i + 1),
                       FirstPage(n.level, low), FirstPage(n.level, mid), FirstPage(n.level, high), n.level);
    }
  }

  lemma {:induction false} SlotIncreases(m: seq<Word>, t: Tables, n: Node, i: nat)
    requires Forest(m, t) && n in t && i < 512
    ensures Increasing(LinesOfSlot(m, t, n, i)) && Deeper(LinesOfSlot(m, t, n, i), n.level)
    ensures Within(LinesOfSlot(m, t, n, i), FirstPage(n.level, n.prefix * 512 + i),
                   FirstPage(n.level, n.prefix * 512 + i + 1))
    decreases 3 - n.level, 512 - i, 0
  {
    var q := n.prefix * 512 + i;
    var low, high := FirstPage(n.level, q), FirstPage(n.level, q + 1);
    var lines := LinesOfSlot(m, t, n, i);
    LinesAtSlot(m, t, n, i);
    FirstPages(n.level, q, q + 1);
    NoLine(low, high, n.level);
    if lines != [] {
      var x := LineOf(m, t, n, i);
      assert PageOfLine(x) == low && x.level == n.level;
      if n.level < 3 {
        ChildIncreases(m, t, n, i);
        var below := Lines(m, t, Child(n, i), 0);
        assert lines == [x] + below;
        hide *;
        IncreasingBelow(x, below, low, high);
      } else {
        hide *;
        OneLine(x, high);
      }
    }
    hide *;
  }

  lemma NoLine(low: nat, high: nat, level: nat)
    ensures Increasing([]) && Within([], low, high) && Deeper([], level)
  {}

  lemma OneLine(x: Line, high: nat)
    requires PageOfLine(x) < high
    ensures Increasing([x]) && Within([x], PageOfLine(x), high) && Deeper([x], x.level)
  {}

  lemma {:induction false} ChildIncreases(m: seq<Word>, t: Tables, n: Node, i: nat)
    requires Forest(m, t) && n in t && i < 512 && n.level < 3 && Child(n, i) in t
    ensures Increasing(Lines(m, t, Child(n, i), 0)) && Deeper(Lines(m, t, Child(n, i), 0), n.level + 1)
    ensures Within(Lines(m, t, Child(n, i), 0), FirstPage(n.level, n.prefix * 512 + i),
                   FirstPage(n.level, n.prefix * 512 + i + 1))
    decreases 3 - n.level, 0, 1
  {
    var q := n.prefix * 512 + i;
    FirstPages(n.level, q, q + 1);
    LinesIncrease(m, t, Child(n, i), 0);
    hide Forest, Lines, FirstPage, Increasing, Deeper, Within;
  }

  lemma SlotWord(m: seq<Word>, p: nat, i: nat)
    requires InMemory(m, p) && i < 512
    ensures p * PAGE_SIZE / 8 + i < |m| && Slot(m, p, i) == m[p * PAGE_SIZE / 8 + i]
  {}

  lemma SlotOfTable(m: seq<Word>, t: Tables, n: Node, i: nat)
    requires Forest(m, t) && n in t && i < 512
    ensures InMemory(m, t[n]) && t[n] * PAGE_SIZE / 8 + i < |m| && Slot(m, t[n], i) == m[t[n] * PAGE_SIZE / 8 + i]
    ensures n.level <= 3 && (n.level < 3 ==> (Slot(m, t[n], i) % 2 == 1 <==> Child(n, i) in t))
    ensures n.level < 3 && Child(n, i) in t ==> DaAddr(Slot(m, t[n], i)) == t[Child(n, i)] * PAGE_SIZE
  {
    hide Forest, DaAddr;
    TableInMemory(m, t, n);
    ForestShape(m, t);
    SlotWord(m, t[n], i);
    hide Slot, InMemory;
    if n.level < 3 {
      LinkedSlot(m, t, n, i);
    }
  }

  function LineOf(m: seq<Word>, t: Tables, n: Node, i: nat): Line
    requires n in t && InMemory(m, t[n]) && i < 512
  {
    Line(n.level, n.prefix * 512 + i, Slot(m, t[n], i))
  }

  lemma LinesAtSlot(m: seq<Word>, t: Tables, n: Node, i: nat)
    requires Forest(m, t) && n in t && i < 512
    ensures InMemory(m, t[n]) && n.level <= 3
    ensures Slot(m, t[n], i) % 2 == 0 ==> LinesOfSlot(m, t, n, i) == []
    ensures Slot(m, t[n], i) % 2 == 1 ==> if n.level < 3 then
        Child(n, i) in t && LinesOfSlot(m, t, n, i) == [LineOf(m, t, n, i)] + Lines(m, t, Child(n, i), 0)
      else LinesOfSlot(m, t, n, i) == [LineOf(m, t, n, i)]
  {
    SlotOfTable(m, t, n, i);
    hide Forest, Lines, Slot;
    assert [LineOf(m, t, n, i)] + [] == [LineOf(m, t, n, i)];
  }

  // ----- Which lines there are -----

  /** The descriptor of a level for a prefix, where there is a table for it. */
  function EntryAt(m: seq<Word>, t: Tables, root: nat, level: nat, q: nat): Word
    requires Node(root, level, q / 512) in t && InMemory(m, t[Node(root, level, q / 512)])
  {
    Slot(m, t[Node(root, level, q / 512)], q % 512)
  }

  /** A descriptor has its line exactly when a walk that comes to its level finds it valid. */
  ghost predicate Listed(m: seq<Word>, t: Tables, root: nat, level: nat, q: nat) {
    && Node(root, level, q / 512) in t && InMemory(m, t[Node(root, level, q / 512)])
    && EntryAt(m, t, root, level, q) % 2 == 1
  }

  /** The prefix `k` levels further up. */
  function Up(q: nat, k: nat): nat {
    if k == 0 then q else Up(q / 512, k - 1)
  }

  lemma {:induction false} UpOnce(q: nat, k: nat)
    ensures Up(q, k + 1) == Up(q, k) / 512
    decreases k
  {
    if k > 0 {
      UpOnce(q / 512, k - 1);
    }
  }

  /** The descriptor lies below slot `i` or a later slot of table `n`, or is one of these. */
  predicate Under(n: Node, i: nat, level: nat, q: nat) {
    n.level <= level && Up(q, level - n.level) / 512 == n.prefix && Up(q, level - n.level) % 512 >= i
  }

  lemma UnderChild(n: Node, i: nat, level: nat, q: nat)
    requires i < 512
    ensures Under(Child(n, i), 0, level, q) <==> n.level < level && Up(q, level - n.level) == n.prefix * 512 + i
  {
    if n.level < level {
      UpOnce(q, level - n.level - 1);
    }
  }

  lemma SplitPrefix(q: nat, p: nat, i: nat)
    requires i < 512
    ensures q == p * 512 + i <==> q / 512 == p && q % 512 == i
  {}

  lemma LinesBelow(m: seq<Word>, t: Tables, n: Node, i: nat, x: Line)
    requires Forest(m, t) && n in t && i < 512 && n.level < 3 && Child(n, i) in t
    ensures x in Lines(m, t, Child(n, i), 0) ==> x in LinesOfSlot(m, t, n, i)
    ensures x in LinesOfSlot(m, t, n, i) ==>
      InMemory(m, t[n]) && (x in Lines(m, t, Child(n, i), 0) || (x == LineOf(m, t, n, i) && x.entry % 2 == 1))
  {
    LinesAtSlot(m, t, n, i);
    SlotOfTable(m, t, n, i);
    hide Forest, Lines, LinesOfSlot, Slot;
  }

  lemma LineListed(m: seq<Word>, t: Tables, n: Node, i: nat)
    requires n in t && InMemory(m, t[n]) && i < 512 && n.level <= 3
    ensures var x := LineOf(m, t, n, i);
      && Under(n, i, x.level, x.prefix)
      && (x.entry % 2 == 1 ==>
            Listed(m, t, n.root, x.level, x.prefix) && x.entry == EntryAt(m, t, n.root, x.level, x.prefix))
  {
    var q := n.prefix * 512 + i;
    SplitPrefix(q, n.prefix, i);
    assert n == Node(n.root, n.level, q / 512);
  }

  lemma UnderLater(n: Node, i: nat, level: nat, q: nat)
    requires i < 512
    ensures Under(n, i + 1, level, q) || Under(Child(n, i), 0, level, q) ==> Under(n, i, level, q)
  {
    UnderChild(n, i, level, q);
    if n.level < level {
      SplitPrefix(Up(q, level - n.level), n.prefix, i);
    }
  }

  lemma LeafLine(m: seq<Word>, t: Tables, n: Node, i: nat, x: Line)
    requires Forest(m, t) && n in t && i < 512 && n.level == 3 && x in LinesOfSlot(m, t, n, i)
    ensures InMemory(m, t[n]) && x == LineOf(m, t, n, i) && x.entry % 2 == 1
  {
    LinesAtSlot(m, t, n, i);
    hide Forest, Lines, LinesOfSlot;
  }

  /** Every line is a valid descriptor found there. */
  lemma {:induction false} LinesSound(m: seq<Word>, t: Tables, n: Node, i: nat, x: Line)
    requires Forest(m, t) && n in t && i <= 512 && x in Lines(m, t, n, i)
    ensures x.level <= 3 && Under(n, i, x.level, x.prefix)
    ensures Listed(m, t, n.root, x.level, x.prefix) && x.entry == EntryAt(m, t, n.root, x.level, x.prefix)
    decreases 3 - n.level, 512 - i
  {
    LinesFrom(m, t, n, i);
    assert i < 512;
    LinesAtSlot(m, t, n, i);
    UnderLater(n, i, x.level, x.prefix);
    hide Forest, Lines, LinesOfSlot, Under, Listed, EntryAt, Slot, LineOf;
    if x !in LinesOfSlot(m, t, n, i) {
      LinesSound(m, t, n, i + 1, x);
    } else if n.level < 3 {
      LinesBelow(m, t, n, i, x);
      LineListed(m, t, n, i);
      if x in Lines(m, t, Child(n, i), 0) {
        LinesSound(m, t, Child(n, i), 0, x);
      }
    } else {
      LineListed(m, t, n, i);
      LeafLine(m, t, n, i, x);
    }
  }

  /** The tables above a table are there. */
  lemma {:induction false} Ancestor(t: Tables, root: nat, level: nat, q: nat, k: nat)
    requires Shape(t) && Node(root, level, q) in t && k <= level
    ensures Node(root, level - k, Up(q, k)) in t
    decreases k
  {
    if k > 0 {
      Ancestor(t, root, level - 1, q / 512, k - 1);
    }
  }

  /** Every valid descriptor that is there has its line. */
  lemma {:induction false} LinesComplete(m: seq<Word>, t: Tables, n: Node, i: nat, level: nat, q: nat)
    requires Forest(m, t) && n in t && i <= 512 && level <= 3
    requires Under(n, i, level, q) && Listed(m, t, n.root, level, q)
    ensures Line(level, q, EntryAt(m, t, n.root, level, q)) in Lines(m, t, n, i)
    decreases 3 - n.level, 512 - i
  {
    LinesFrom(m, t, n, i);
    Place(n, i, level, q);
    hide Forest, Lines, LinesOfSlot, Under, Up, Listed, EntryAt;
    if Under(n, i + 1, level, q) {
      LinesComplete(m, t, n, i + 1, level, q);
    } else if level == n.level {
      OwnLine(m, t, n, i, q);
    } else {
      ChildOfEntry(m, t, n, i, level, q);
      LinesComplete(m, t, Child(n, i), 0, level, q);
      LinesBelow(m, t, n, i, Line(level, q, EntryAt(m, t, n.root, level, q)));
    }
  }

  /** Below slot `i` or a later one means: below a later one, or slot `i` itself, or below that. */
  lemma Place(n: Node, i: nat, level: nat, q: nat)
    requires Under(n, i, level, q) && i <= 512
    ensures i < 512 && n.level <= level
    ensures !Under(n, i + 1, level, q) ==> Up(q, level - n.level) == n.prefix * 512 + i
    ensures !Under(n, i + 1, level, q) && level == n.level ==> q == n.prefix * 512 + i
  {
    SplitPrefix(Up(q, level - n.level), n.prefix, i);
  }

  lemma OwnLine(m: seq<Word>, t: Tables, n: Node, i: nat, q: nat)
    requires Forest(m, t) && n in t && i < 512 && q == n.prefix * 512 + i && Listed(m, t, n.root, n.level, q)
    ensures Line(n.level, q, EntryAt(m, t, n.root, n.level, q)) in LinesOfSlot(m, t, n, i)
  {
    hide Forest, Lines, LinesOfSlot, Slot;
    SplitPrefix(q, n.prefix, i);
    assert n == Node(n.root, n.level, q / 512);
    LinesAtSlot(m, t, n, i);
  }

  lemma ChildOfEntry(m: seq<Word>, t: Tables, n: Node, i: nat, level: nat, q: nat)
    requires Forest(m, t) && n in t && i < 512 && n.level < level <= 3
    requires Up(q, level - n.level) == n.prefix * 512 + i && Listed(m, t, n.root, level, q)
    ensures Child(n, i) in t && Under(Child(n, i), 0, level, q)
  {
    hide Forest, Shape;
    ForestShape(m, t);
    UnderChild(n, i, level, q);
    Ancestor(t, n.root, level, q / 512, level - (n.level + 1));
  }

  /** The loop over one table; the source nests it four deep, one loop a level. */
  method PrintTable(k: Machine, table: Word, level: nat, prefix: nat, ghost n: Node) returns (lines: seq<Line>)
    requires k.Valid() && level <= 3 && n in k.own.tables && n.level == level && n.prefix == prefix
    requires table == k.own.tables[n] * PAGE_SIZE
    ensures Forest(k.mem[..], k.own.tables) && lines == Lines(k.mem[..], k.own.tables, n, 0)
    decreases 3 - level, 1
  {
    ghost var m, t := k.mem[..], k.own.tables;
    StateShape(m, k.freepages, k.terminal, k.own);
    assert Lines(m, t, n, 512) == [];
    hide *;
    lines := [];
    var i := 0;
    while i < 512
      invariant i <= 512
      invariant lines + Lines(m, t, n, i) == Lines(m, t, n, 0)
    {
      LinesFrom(m, t, n, i);
      Regroup(lines, LinesOfSlot(m, t, n, i), Lines(m, t, n, i + 1));
      var below := PrintSlot(k, table, level, prefix, i, n);
      lines := lines + below;
      i := i + 1;
    }
  }

  lemma SlotInMachine(k: Machine, table: Word, n: Node, i: nat)
    requires k.Valid() && n in k.own.tables && i < 512 && table == k.own.tables[n] * PAGE_SIZE
    ensures Forest(k.mem[..], k.own.tables) && table / 8 + i < k.mem.Length
    ensures var lines, val := LinesOfSlot(k.mem[..], k.own.tables, n, i), k.mem[table / 8 + i];
      var line := Line(n.level, n.prefix * 512 + i, val);
      if val % 2 == 0 then lines == []
      else if n.level == 3 then lines == [line]
      else
        var c := Child(n, i);
        && c in k.own.tables && c.level == n.level + 1 && c.prefix == n.prefix * 512 + i
        && DaAddr(val) == k.own.tables[c] * PAGE_SIZE && lines == [line] + Lines(k.mem[..], k.own.tables, c, 0)
  {
    hide State, Forest, DaAddr, Lines, LinesOfSlot, Shape;
    StateShape(k.mem[..], k.freepages, k.terminal, k.own);
    SlotOfTable(k.mem[..], k.own.tables, n, i);
    LinesAtSlot(k.mem[..], k.own.tables, n, i);
  }

  /** One turn of that loop: nothing for an invalid descriptor, else its line, and the lines of the table below. */
  method PrintSlot(k: Machine, table: Word, level: nat, prefix: nat, i: nat, ghost n: Node) returns (lines: seq<Line>)
    requires k.Valid() && level <= 3 && n in k.own.tables && n.level == level && n.prefix == prefix && i < 512
    requires table == k.own.tables[n] * PAGE_SIZE
    ensures Forest(k.mem[..], k.own.tables) && lines == LinesOfSlot(k.mem[..], k.own.tables, n, i)
    decreases 3 - level, 0
  {
    SlotInMachine(k, table, n, i);
    hide *;
    var val := k.mem[table / 8 + i];
    if val % 2 == 0 {
      return [];
    }
    lines := [Line(level, prefix * 512 + i, val)];
    if level < 3 {
      var below := PrintTable(k, DaAddr(val), level + 1, prefix * 512 + i, Child(n, i));
      lines := lines + below;
    }
  }

  lemma Regroup(a: seq<Line>, b: seq<Line>, c: seq<Line>)
    ensures a + (b + c) == (a + b) + c && a + [] == a
  {}

  /** print_pgtbl lists the valid descriptors of all levels, in ascending order and each once, and nothing else; the
      pages among them are the ones the hardware translates. */
  method PrintPgtbl(k: Machine, pgtbl: Word) returns (lines: seq<Line>)
    requires k.Valid() && pgtbl % PAGE_SIZE == 0 && Root(pgtbl / PAGE_SIZE) in k.own.tables
    ensures Increasing(lines)
    ensures forall level, q :: 0 <= level <= 3 && 0 <= q && Up(q, level) < 512 ==>
      ((exists e :: Line(level, q, e) in lines) <==> Listed(k.mem[..], k.own.tables, pgtbl / PAGE_SIZE, level, q))
    ensures forall x :: x in lines ==> x.level <= 3 && Up(x.prefix, x.level) < 512
    ensures forall x :: x in lines && x.level == 3 ==> x.prefix < FRAME_LIMIT && (x.entry % 4 == 3 ==>
      Translate(k.mem[..], pgtbl / PAGE_SIZE, x.prefix) == Output(3, x.entry))
  {
    ghost var m, t, root := k.mem[..], k.own.tables, pgtbl / PAGE_SIZE;
    RootTable(m, k.freepages, k.terminal, k.own, root, 0);
    lines := PrintTable(k, pgtbl, 0, 0, Root(root));
    hide State, Lines, Listed, Up, Translate;
    LinesIncrease(m, t, Root(root), 0);
    forall level, q | 0 <= level <= 3 && 0 <= q && Up(q, level) < 512
      ensures (exists e :: Line(level, q, e) in lines) <==> Listed(m, t, root, level, q)
    {
      LineOfEntry(m, t, root, level, q);
    }
    forall x | x in lines
      ensures x.level <= 3 && Up(x.prefix, x.level) < 512
      ensures x.level == 3 ==> x.prefix < FRAME_LIMIT && (x.entry % 4 == 3 ==>
        Translate(m, root, x.prefix) == Output(3, x.entry))
    {
      LineTranslates(m, t, root, x);
    }
  }

  lemma LineOfEntry(m: seq<Word>, t: Tables, root: nat, level: nat, q: nat)
    requires Forest(m, t) && Root(root) in t && level <= 3 && Up(q, level) < 512
    ensures (exists e :: Line(level, q, e) in Lines(m, t, Root(root), 0)) <==> Listed(m, t, root, level, q)
  {
    hide Forest, Listed, Lines, Up;
    if e :| Line(level, q, e) in Lines(m, t, Root(root), 0) {
      LinesSound(m, t, Root(root), 0, Line(level, q, e));
    }
    if Listed(m, t, root, level, q) {
      LinesComplete(m, t, Root(root), 0, level, q);
    }
  }

  lemma LineTranslates(m: seq<Word>, t: Tables, root: nat, x: Line)
    requires Forest(m, t) && Root(root) in t && x in Lines(m, t, Root(root), 0)
    ensures x.level <= 3 && Up(x.prefix, x.level) < 512
    ensures x.level == 3 ==> x.prefix < FRAME_LIMIT
    ensures x.level == 3 && x.entry % 4 == 3 ==> Translate(m, root, x.prefix) == Output(3, x.entry)
  {
    hide Forest, Lines, Translate;
    LinesSound(m, t, Root(root), 0, x);
    if x.level == 3 {
      UpThree(x.prefix);
      TranslateIsLookup(m, t, root, x.prefix);
    }
  }

  lemma UpThree(q: nat)
    ensures Up(q, 3) == q / 512 / 512 / 512 && (Up(q, 3) < 512 ==> q < FRAME_LIMIT)
  {
    assert Up(q, 3) == Up(q / 512, 2) == Up(q / 512 / 512, 1) == Up(q / 512 / 512 / 512, 0);
  }

  lemma {:induction false} TableOnPath(t: Tables, root: nat, v: nat, level: nat, n: Node)
    requires Shape(t) && level <= 3 && NodeOf(root, v, 3) in t && n in Path(root, v, level)
    ensures n in t
    decreases level
  {
    if n == NodeOf(root, v, level) {
      if n !in t {
        NoDescendant(t, root, v, level);
      }
    } else {
      TableOnPath(t, root, v, level - 1, n);
    }
  }

  /** A page whose tables are all there has its level 3 table, and conversely. */
  lemma PathToLeaf(t: Tables, root: nat, v: nat)
    requires Shape(t)
    ensures Missing(t, root, v) == {} <==> NodeOf(root, v, 3) in t
  {
    assert NodeOf(root, v, 3) in Path(root, v, 3);
    if NodeOf(root, v, 3) in t {
      forall n | n in Path(root, v, 3)
        ensures n in t
      {
        TableOnPath(t, root, v, 3, n);
      }
      assert Missing(t, root, v) == {};
    } else {
      assert NodeOf(root, v, 3) in Missing(t, root, v);
    }
  }

  lemma LeafListed(m: seq<Word>, t: Tables, root: nat, v: nat)
    requires Forest(m, t)
    ensures NodeOf(root, v, 3) !in t ==> !Listed(m, t, root, 3, v)
    ensures NodeOf(root, v, 3) in t ==>
      && (t[NodeOf(root, v, 3)] * PAGE_SIZE + 8 * Index(v, 3)) / 8 < |m|
      && (Listed(m, t, root, 3, v) <==> m[(t[NodeOf(root, v, 3)] * PAGE_SIZE + 8 * Index(v, 3)) / 8] % 2 == 1)
  {
    if NodeOf(root, v, 3) in t {
      SlotOfTable(m, t, NodeOf(root, v, 3), Index(v, 3));
    }
    hide Forest;
  }

  /** A walk that may not allocate finds a valid level 3 descriptor exactly for the pages that are listed. */
  method WalkFinds(k: Machine, pgtbl: Word, va: Word) returns (found: bool)
    requires k.Valid() && !k.locked && pgtbl % PAGE_SIZE == 0 && Root(pgtbl / PAGE_SIZE) in k.own.tables
    modifies k, k.mem
    ensures k.Valid() && !k.locked && k.own == old(k.own) && k.mem[..] == old(k.mem[..])
    ensures found <==> Listed(k.mem[..], k.own.tables, pgtbl / PAGE_SIZE, 3, Vpn(va))
  {
    ghost var m, t, root, v := k.mem[..], k.own.tables, pgtbl / PAGE_SIZE, Vpn(va);
    StateShape(m, k.freepages, k.terminal, k.own);
    PathToLeaf(t, root, v);
    LeafListed(m, t, root, v);
    hide *;
    var pte := Walk(k, pgtbl, va, false, true);
    if pte == 0 {
      return false;
    }
    return k.mem[pte / 8] % 2 == 1;
  }
}
