/** Translation tables as a forest: which frame holds which table, and what the walk makes of it. */
module PageTables {
  import opened Bits
  import opened Arch

  /** The table of one level for one virtual prefix, in the tree rooted in frame `root`. */
  datatype Node = Node(root: nat, level: nat, prefix: nat)

  type Tables = map<Node, nat>

  /** The table that translates page `v` at `level`. */
  function NodeOf(root: nat, v: nat, level: nat): Node
    requires level <= 3
  {
    Node(root, level, Prefix(v, level))
  }

  function Root(root: nat): Node {
    Node(root, 0, 0)
  }

  function Child(n: Node, i: nat): Node {
    Node(n.root, n.level + 1, n.prefix * 512 + i)
  }

  /** Every table has a frame of its own and hangs from the table above it. */
  ghost predicate Shape(t: Tables) {
    && (forall n :: n in t ==> n.level <= 3 && t[n] < FRAME_LIMIT)
    && (forall a, b :: a in t && b in t && t[a] == t[b] ==> a == b)
    && (forall n :: n in t && n.level == 0 ==> n.prefix == 0 && t[n] == n.root)
    && (forall n :: n in t && n.level > 0 ==> Node(n.root, n.level - 1, n.prefix / 512) in t)
  }

  /** A descriptor of an upper table agrees with the tree: it links the child there is, or is not valid. */
  predicate Links(e: Word, t: Tables, c: Node) {
    if c in t then e == t[c] * PAGE_SIZE + 3 else e % 2 == 0
  }

  /** Memory `m` holds the tables of `t` and the links between them, and no other link. */
  ghost predicate Holds(m: seq<Word>, t: Tables) {
    && (forall n :: n in t ==> InMemory(m, t[n]))
    && (forall n, i :: n in t && n.level < 3 && 0 <= i < 512 ==> Links(Slot(m, t[n], i), t, Child(n, i)))
  }

  ghost predicate Forest(m: seq<Word>, t: Tables) {
    Shape(t) && Holds(m, t)
  }

  // ----- The walk of the hardware, and the tree -----

  /** Page `v` as the tree sees it. */
  function Lookup(m: seq<Word>, t: Tables, root: nat, v: nat): Outcome {
    var n := NodeOf(root, v, 3);
    if n in t && InMemory(m, t[n]) then LeafOutcome(Slot(m, t[n], Index(v, 3))) else Fault
  }

  lemma TableInMemory(m: seq<Word>, t: Tables, n: Node)
    requires Forest(m, t) && n in t
    ensures InMemory(m, t[n]) && t[n] < FRAME_LIMIT
  {}

  /** A slot of an upper table points to its child's frame, or is not valid. */
  lemma LinkedSlot(m: seq<Word>, t: Tables, n: Node, i: nat)
    requires Forest(m, t) && n in t && n.level < 3 && i < 512
    ensures InMemory(m, t[n])
    ensures Child(n, i) in t ==> Slot(m, t[n], i) % 4 == 3 && FrameOf(Slot(m, t[n], i)) == t[Child(n, i)]
    ensures Child(n, i) in t ==> Slot(m, t[n], i) % 2 == 1 && DaAddr(Slot(m, t[n], i)) == t[Child(n, i)] * PAGE_SIZE
    ensures Child(n, i) !in t ==> Slot(m, t[n], i) % 2 == 0
  {
    assert Links(Slot(m, t[n], i), t, Child(n, i));
    hide DaAddr, FrameOf;
    if Child(n, i) in t {
      LinkReadBack(t[Child(n, i)]);
    }
  }

  lemma ForestShape(m: seq<Word>, t: Tables)
    requires Forest(m, t)
    ensures Shape(t)
  {}

  /** The hardware walk and the tree agree, from every level. */
  lemma {:induction false} DescendIsLookup(m: seq<Word>, t: Tables, root: nat, v: nat, level: nat)
    requires Forest(m, t) && level <= 3 && NodeOf(root, v, level) in t
    ensures Descend(m, t[NodeOf(root, v, level)], level, v) == Lookup(m, t, root, v)
    decreases 3 - level
  {
    hide Forest;
    var n := NodeOf(root, v, level);
    TableInMemory(m, t, n);
    if level < 3 {
      var i := Index(v, level);
      var c := NodeOf(root, v, level + 1);
      assert c == Child(n, i);
      LinkedSlot(m, t, n, i);
      if c in t {
        DescendIsLookup(m, t, root, v, level + 1);
      } else {
        ForestShape(m, t);
        NoDescendant(t, root, v, level + 1);
      }
    }
  }

  lemma {:induction false} NoDescendant(t: Tables, root: nat, v: nat, level: nat)
    requires Shape(t) && level <= 3 && NodeOf(root, v, level) !in t
    ensures NodeOf(root, v, 3) !in t
    decreases 3 - level
  {
    if level < 3 {
      var c := NodeOf(root, v, level + 1);
      assert c.prefix == NodeOf(root, v, level).prefix * 512 + Index(v, level);
      assert c.prefix / 512 == NodeOf(root, v, level).prefix;
      NoDescendant(t, root, v, level + 1);
    }
  }

  /** A registered root translates every page as its tree looks it up. */
  lemma TranslateIsLookup(m: seq<Word>, t: Tables, root: nat, v: nat)
    requires Forest(m, t) && Root(root) in t && v < FRAME_LIMIT
    ensures Translate(m, root, v) == Lookup(m, t, root, v)
  {
    assert NodeOf(root, v, 0) == Root(root) && t[Root(root)] == root;
    DescendIsLookup(m, t, root, v, 0);
  }

  /** Each table has one parent entry: valid entries of upper tables that point to the same frame are one entry. */
  lemma OneParent(m: seq<Word>, t: Tables, a: Node, i: nat, b: Node, j: nat)
    requires Forest(m, t) && a in t && b in t && a.level < 3 && b.level < 3 && i < 512 && j < 512
    ensures InMemory(m, t[a]) && InMemory(m, t[b])
    ensures Slot(m, t[a], i) % 2 == 1 && Slot(m, t[b], j) % 2 == 1 ==>
      DaAddr(Slot(m, t[a], i)) == DaAddr(Slot(m, t[b], j)) ==> a == b && i == j
  {
    LinkedSlot(m, t, a, i);
    LinkedSlot(m, t, b, j);
    ForestShape(m, t);
    hide Forest, DaAddr, Slot;
  }

  // ----- Writes to memory -----

  /** Only frame `p` differs. */
  ghost predicate Elsewhere(m: seq<Word>, m2: seq<Word>, p: nat) {
    && |m2| == |m|
    && forall x, j :: InMemory(m, x) && 0 <= j < 512 && x != p ==> Slot(m2, x, j) == Slot(m, x, j)
  }

  /** Only slot `i` of frame `p` differs, and now holds `e`. */
  ghost predicate Stored(m: seq<Word>, m2: seq<Word>, p: nat, i: nat, e: Word) {
    && |m2| == |m| && InMemory(m, p) && i < 512 && Slot(m2, p, i) == e
    && forall x, j :: InMemory(m, x) && 0 <= j < 512 && !(x == p && j == i) ==> Slot(m2, x, j) == Slot(m, x, j)
  }

  ghost predicate Zeroed(m: seq<Word>, p: nat) {
    InMemory(m, p) && forall j :: 0 <= j < 512 ==> Slot(m, p, j) == 0
  }

  /** Every root keeps its translation of every page. */
  ghost predicate SameTranslation(m: seq<Word>, m2: seq<Word>, t: Tables) {
    forall r, v :: Root(r) in t && 0 <= v < FRAME_LIMIT ==> Translate(m2, r, v) == Translate(m, r, v)
  }

  /** No frame but those of `s` has been written. */
  ghost predicate OnlyFrames(m: seq<Word>, m2: seq<Word>, s: set<nat>) {
    && |m2| == |m|
    && forall x, j :: InMemory(m, x) && 0 <= j < 512 && x !in s ==> Slot(m2, x, j) == Slot(m, x, j)
  }

  /** Frame `p`, if there is such a frame, holds what it held. */
  ghost predicate SameFrame(m: seq<Word>, m2: seq<Word>, p: nat) {
    |m2| == |m| && (InMemory(m, p) ==> forall j :: 0 <= j < 512 ==> Slot(m2, p, j) == Slot(m, p, j))
  }

  /** No frame but those of tables has been written. */
  ghost predicate OnlyTables(m: seq<Word>, m2: seq<Word>, t2: Tables) {
    && |m2| == |m|
    && forall x, j :: InMemory(m, x) && 0 <= j < 512 && x !in t2.Values ==> Slot(m2, x, j) == Slot(m, x, j)
  }

  /** The pages of `f` under `root` now translate as it says; every other page of every root as before. */
  ghost predicate Remapped(m: seq<Word>, m2: seq<Word>, t: Tables, root: nat, f: map<nat, Outcome>) {
    forall r, u :: Root(r) in t && 0 <= u < FRAME_LIMIT ==>
      Translate(m2, r, u) == if r == root && u in f then f[u] else Translate(m, r, u)
  }

  /** A write outside the tables changes no link and no translation. */
  lemma WriteOutside(m: seq<Word>, m2: seq<Word>, t: Tables, p: nat)
    requires Forest(m, t) && Elsewhere(m, m2, p) && p !in t.Values
    ensures Forest(m2, t) && SameTranslation(m, m2, t)
  {
    forall n, i | n in t && n.level < 3 && 0 <= i < 512
      ensures InMemory(m2, t[n]) && Links(Slot(m2, t[n], i), t, Child(n, i))
    {
      assert Links(Slot(m, t[n], i), t, Child(n, i)) && t[n] != p;
    }
    forall r, v | Root(r) in t && 0 <= v < FRAME_LIMIT
      ensures Translate(m2, r, v) == Translate(m, r, v)
    {
      TranslateIsLookup(m, t, r, v);
      TranslateIsLookup(m2, t, r, v);
      assert NodeOf(r, v, 3) in t ==> t[NodeOf(r, v, 3)] != p;
    }
  }

  /** The zeroed frame `p`, no table so far, is linked under slot `i` of table `n`. */
  ghost predicate Linked(m: seq<Word>, m2: seq<Word>, t: Tables, n: Node, i: nat, p: nat) {
    && Forest(m, t) && n in t && n.level < 3 && i < 512
    && Child(n, i) !in t && p !in t.Values && p < FRAME_LIMIT
    && Zeroed(m, p) && Stored(m, m2, t[n], i, p * PAGE_SIZE + 3)
  }

  lemma LinkSlots(m: seq<Word>, m2: seq<Word>, t: Tables, n: Node, i: nat, p: nat, a: Node, j: nat)
    requires Linked(m, m2, t, n, i, p) && j < 512
    requires a in t[Child(n, i) := p] && a.level < 3
    ensures InMemory(m2, t[Child(n, i) := p][a])
    ensures Links(Slot(m2, t[Child(n, i) := p][a], j), t[Child(n, i) := p], Child(a, j))
  {
    var c := Child(n, i);
    if a == c {
      assert Slot(m2, p, j) == Slot(m, p, j) == 0;
      assert Child(c, j) !in t by {
        assert Node(c.root, c.level, Child(c, j).prefix / 512) == c;
      }
    } else if !(a == n && j == i) {
      assert Child(a, j) != c;
      assert !(t[a] == t[n] && j == i);
      assert Links(Slot(m, t[a], j), t, Child(a, j));
    }
  }

  lemma LinkShape(t: Tables, n: Node, i: nat, p: nat)
    requires Shape(t) && n in t && n.level < 3 && i < 512 && p !in t.Values && p < FRAME_LIMIT
    requires Child(n, i) !in t
    ensures Shape(t[Child(n, i) := p])
  {
    var c := Child(n, i);
    var t2 := t[c := p];
    forall a, b | a in t2 && b in t2 && t2[a] == t2[b]
      ensures a == b
    {
      assert a != c ==> t2[a] in t.Values;
      assert b != c ==> t2[b] in t.Values;
    }
    assert Node(c.root, c.level - 1, c.prefix / 512) == n;
  }

  /** That slot's child is then the frame `p`. */
  lemma LinkForest(m: seq<Word>, m2: seq<Word>, t: Tables, n: Node, i: nat, p: nat)
    requires Linked(m, m2, t, n, i, p)
    ensures Forest(m2, t[Child(n, i) := p])
  {
    hide Links;
    var t2 := t[Child(n, i) := p];
    LinkShape(t, n, i, p);
    forall a, j | a in t2 && a.level < 3 && 0 <= j < 512
      ensures InMemory(m2, t2[a]) && Links(Slot(m2, t2[a], j), t2, Child(a, j))
    {
      LinkSlots(m, m2, t, n, i, p, a, j);
    }
  }

  /** The new table maps nothing, so no translation changes. */
  lemma LinkLookup(m: seq<Word>, m2: seq<Word>, t: Tables, n: Node, i: nat, p: nat, root: nat, v: nat)
    requires Linked(m, m2, t, n, i, p)
    ensures Lookup(m2, t[Child(n, i) := p], root, v) == Lookup(m, t, root, v)
  {
    var d := NodeOf(root, v, 3);
    if d in t {
      assert InMemory(m, t[d]) && t[d] != t[n];
    }
  }

  lemma LinkTranslation(m: seq<Word>, m2: seq<Word>, t: Tables, n: Node, i: nat, p: nat)
    requires Linked(m, m2, t, n, i, p)
    ensures SameTranslation(m, m2, t)
  {
    LinkForest(m, m2, t, n, i, p);
    hide Shape, Holds, Translate;
    forall r, v | Root(r) in t && 0 <= v < FRAME_LIMIT
      ensures Translate(m2, r, v) == Translate(m, r, v)
    {
      TranslateIsLookup(m, t, r, v);
      TranslateIsLookup(m2, t[Child(n, i) := p], r, v);
      LinkLookup(m, m2, t, n, i, p, r, v);
    }
  }

  /** Two pages share a level 3 slot of the forest only when they are one page of one tree. */
  lemma SlotOfPage(t: Tables, r1: nat, v1: nat, r2: nat, v2: nat)
    requires Shape(t) && NodeOf(r1, v1, 3) in t && NodeOf(r2, v2, 3) in t
    requires t[NodeOf(r1, v1, 3)] == t[NodeOf(r2, v2, 3)] && Index(v1, 3) == Index(v2, 3)
    ensures r1 == r2 && v1 == v2
  {}

  /** Storing a page descriptor changes the translation of its own page only. */
  lemma LeafStored(m: seq<Word>, m2: seq<Word>, t: Tables, root: nat, v: nat, e: Word)
    requires Forest(m, t) && NodeOf(root, v, 3) in t && v < FRAME_LIMIT
    requires Stored(m, m2, t[NodeOf(root, v, 3)], Index(v, 3), e)
    ensures Forest(m2, t) && Remapped(m, m2, t, root, map[v := LeafOutcome(e)])
  {
    forall n, i | n in t && n.level < 3 && 0 <= i < 512
      ensures InMemory(m2, t[n]) && Links(Slot(m2, t[n], i), t, Child(n, i))
    {
      assert Links(Slot(m, t[n], i), t, Child(n, i)) && t[n] != t[NodeOf(root, v, 3)];
    }
    forall r, u | Root(r) in t && 0 <= u < FRAME_LIMIT
      ensures Translate(m2, r, u) == if r == root && u == v then LeafOutcome(e) else Translate(m, r, u)
    {
      TranslateIsLookup(m, t, r, u);
      TranslateIsLookup(m2, t, r, u);
      LeafLookup(m, m2, t, root, v, e, r, u);
    }
  }

  lemma LeafLookup(m: seq<Word>, m2: seq<Word>, t: Tables, root: nat, v: nat, e: Word, r: nat, u: nat)
    requires Forest(m, t) && NodeOf(root, v, 3) in t
    requires Stored(m, m2, t[NodeOf(root, v, 3)], Index(v, 3), e)
    ensures Lookup(m2, t, r, u) == if r == root && u == v then LeafOutcome(e) else Lookup(m, t, r, u)
  {
    var d := NodeOf(r, u, 3);
    if d in t && !(r == root && u == v) {
      assert InMemory(m, t[d]);
      if t[d] == t[NodeOf(root, v, 3)] && Index(u, 3) == Index(v, 3) {
        SlotOfPage(t, root, v, r, u);
      }
    }
  }
}
