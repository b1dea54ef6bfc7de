/** The kernel's own address space: kpgtbl_init of vm.c under the layout of memlayout.h and linker.ld. */
module KernelSpace {
  import opened Bits
  import opened Arch
  import opened PageTables
  import opened PaAlloc
  import opened Vm
  import opened AddressSpaces

  // base.h and memlayout.h
  const MAIN_PERIPHERAL_BOT: Word := 0xfc00_0000
  const ARM_LOCAL_PERIPHERAL_TOP: Word := 0x1_0000_0000
  const MEM_TMP_END: Word := 0x3000_0000
  const MEM_KERN_START: Word := 0
  const VAKERNBASE: Word := 0xffff_0000_0000_0000
  const KSTACK_BASE: Word := 0xffff_ffff_0000
  const MY_CPU_BASE: Word := 0xffff_ffff_b000

  /** The addresses linker.ld chooses. */
  datatype Layout = Layout(bootEnd: Word, vecStart: Word, vecEnd: Word, sharedBegin: Word, sharedEnd: Word,
                           kpgtbl: Word, kstack1: Word, cpus: Word, kernEnd: Word,
                           freepages: Word, listLock: Word)

  /** Sections come in this order, on page boundaries, below the video memory. */
  predicate LaidOut(l: Layout) {
    && l.bootEnd % 0x1000 == l.vecStart % 0x1000 == l.vecEnd % 0x1000 == 0
    && l.sharedBegin % 0x1000 == l.sharedEnd % 0x1000 == l.kpgtbl % 0x1000 == 0
    && l.kstack1 % 0x1000 == l.cpus % 0x1000 == l.kernEnd % 0x1000 == 0
    && 0 < l.bootEnd < l.vecStart < l.vecEnd < l.sharedBegin < l.sharedEnd < l.kernEnd <= MEM_TMP_END
    && l.sharedEnd < l.kpgtbl <= l.kernEnd - 0x1000
    && l.sharedEnd < l.kstack1 <= l.kernEnd - 0x4000
    && l.sharedEnd < l.cpus <= l.kernEnd - 0x4000
    && l.sharedEnd <= l.freepages < l.kernEnd && l.sharedBegin <= l.listLock < l.sharedEnd
  }

  /** What each of the seven loops maps. */
  function Loop(l: Layout, loop: nat): Space
    requires LaidOut(l)
  {
    if loop == 1 then
      Range(l.kernEnd / PAGE_SIZE, MEM_TMP_END / PAGE_SIZE, l.kernEnd / PAGE_SIZE, NORMAL_TRANSIENT, NON_SHAREABLE)
    else if loop == 2 then Range(0, l.kernEnd / PAGE_SIZE, 0, NORMAL_TRANSIENT, NON_SHAREABLE)
    else if loop == 3 then
      Range(VAKERNBASE / PAGE_SIZE, l.kernEnd / PAGE_SIZE, VAKERNBASE / PAGE_SIZE, NORMAL_TRANSIENT, NON_SHAREABLE)
    else if loop == 4 then
      Range(l.sharedBegin / PAGE_SIZE, l.sharedEnd / PAGE_SIZE, l.sharedBegin / PAGE_SIZE,
            NORMAL_NON_TRANSIENT, INNER_SHAREABLE)
    else if loop == 5 then Range(0xfc000, 0x100000, 0xfc000, DEVICE, NON_SHAREABLE)
    else if loop == 6 then Spaced(KSTACK_BASE / PAGE_SIZE, 2, l.kstack1 / PAGE_SIZE, 4, NORMAL_TRANSIENT, NON_SHAREABLE)
    else if loop == 7 then Spaced(MY_CPU_BASE / PAGE_SIZE, 1, l.cpus / PAGE_SIZE, 4, NORMAL_TRANSIENT, NON_SHAREABLE)
    else map[]
  }

  /** The kernel's address space as a map: every 48-bit page has the translation given here. */
  function KernelMap(l: Layout, v: nat): Outcome
    requires LaidOut(l)
  {
    if 0xf_ffff_fff0 <= v < 0xf_ffff_fff8 && v % 2 == 0 then
      PageOf(l.kstack1 / PAGE_SIZE + (v - 0xf_ffff_fff0) / 2, NORMAL_TRANSIENT, NON_SHAREABLE)
    else if 0xf_ffff_fffb <= v < 0xf_ffff_ffff then
      PageOf(l.cpus / PAGE_SIZE + (v - 0xf_ffff_fffb), NORMAL_TRANSIENT, NON_SHAREABLE)
    else if 0xfc000 <= v < 0x100000 then PageOf(v, DEVICE, NON_SHAREABLE)
    else if l.sharedBegin / PAGE_SIZE <= v < l.sharedEnd / PAGE_SIZE then
      PageOf(v, NORMAL_NON_TRANSIENT, INNER_SHAREABLE)
    else if v < 0x30000 then PageOf(v, NORMAL_TRANSIENT, NON_SHAREABLE)
    else Fault
  }

  /** The first `n` loops, one after the other. */
  function LoopsTo(l: Layout, n: nat): Space
    requires LaidOut(l)
  {
    if n == 0 then map[] else LoopsTo(l, n - 1) + Loop(l, n)
  }

  /** All seven loops, one after the other. */
  function AllLoops(l: Layout): Space
    requires LaidOut(l)
  {
    LoopsTo(l, 7)
  }

  lemma LoopsUnfold(l: Layout)
    requires LaidOut(l)
    ensures AllLoops(l)
         == map[] + Loop(l, 1) + Loop(l, 2) + Loop(l, 3) + Loop(l, 4) + Loop(l, 5) + Loop(l, 6) + Loop(l, 7)
  {
    hide Loop;
    assert LoopsTo(l, 1) == LoopsTo(l, 0) + Loop(l, 1);
    assert LoopsTo(l, 3) == LoopsTo(l, 2) + Loop(l, 3) == LoopsTo(l, 1) + Loop(l, 2) + Loop(l, 3);
    assert LoopsTo(l, 5) == LoopsTo(l, 4) + Loop(l, 5) == LoopsTo(l, 3) + Loop(l, 4) + Loop(l, 5);
    assert LoopsTo(l, 7) == LoopsTo(l, 6) + Loop(l, 7) == LoopsTo(l, 5) + Loop(l, 6) + Loop(l, 7);
  }

  lemma {:induction false} LoopsKeys(l: Layout, n: nat, n2: nat)
    requires LaidOut(l) && n <= n2
    ensures LoopsTo(l, n).Keys <= LoopsTo(l, n2).Keys
  {
    if n < n2 {
      LoopsKeys(l, n, n2 - 1);
    }
  }

  function Through(f: Space, v: nat): Outcome {
    if v in f then f[v] else Fault
  }

  /** A later loop wins over the earlier ones. */
  lemma ThroughLater(f: Space, g: Space, v: nat)
    ensures Through(f + g, v) == if v in g then g[v] else Through(f, v)
  {}

  lemma StackLoop(l: Layout, v: nat)
    requires LaidOut(l)
    ensures v in Loop(l, 6) <==> 0xf_ffff_fff0 <= v < 0xf_ffff_fff8 && v % 2 == 0
    ensures v in Loop(l, 6) ==> Loop(l, 6)[v] == KernelMap(l, v)
  {
    hide PageOf;
    SpacedFour(0xf_ffff_fff0, 2, l.kstack1 / PAGE_SIZE, NORMAL_TRANSIENT, NON_SHAREABLE);
  }

  lemma CpuLoop(l: Layout, v: nat)
    requires LaidOut(l)
    ensures v in Loop(l, 7) <==> 0xf_ffff_fffb <= v < 0xf_ffff_ffff
    ensures v in Loop(l, 7) ==> Loop(l, 7)[v] == KernelMap(l, v)
  {
    hide PageOf;
    SpacedFour(0xf_ffff_fffb, 1, l.cpus / PAGE_SIZE, NORMAL_TRANSIENT, NON_SHAREABLE);
  }

  /** The loops before the stacks: the two halves of low memory, the shared data and the devices. */
  lemma LowLoops(l: Layout, v: nat)
    requires LaidOut(l)
    ensures var f := map[] + Loop(l, 1) + Loop(l, 2) + Loop(l, 3) + Loop(l, 4) + Loop(l, 5);
      Through(f, v) ==
        if 0xfc000 <= v < 0x100000 then PageOf(v, DEVICE, NON_SHAREABLE)
        else if l.sharedBegin / PAGE_SIZE <= v < l.sharedEnd / PAGE_SIZE then
          PageOf(v, NORMAL_NON_TRANSIENT, INNER_SHAREABLE)
        else if v < 0x30000 then PageOf(v, NORMAL_TRANSIENT, NON_SHAREABLE)
        else Fault
  {
    var f := map[] + Loop(l, 1) + Loop(l, 2) + Loop(l, 3);
    LowMemory(l, v);
    ThroughLater(f + Loop(l, 4), Loop(l, 5), v);
    ThroughLater(f, Loop(l, 4), v);
    LoopPages(l, v);
    hide PageOf, Through, Loop, Range;
  }

  lemma LoopPages(l: Layout, v: nat)
    requires LaidOut(l)
    ensures v in Loop(l, 4) <==> l.sharedBegin / PAGE_SIZE <= v < l.sharedEnd / PAGE_SIZE
    ensures v in Loop(l, 4) ==> Loop(l, 4)[v] == PageOf(v, NORMAL_NON_TRANSIENT, INNER_SHAREABLE)
    ensures v in Loop(l, 5) <==> 0xfc000 <= v < 0x100000
    ensures v in Loop(l, 5) ==> Loop(l, 5)[v] == PageOf(v, DEVICE, NON_SHAREABLE)
  {
    hide PageOf, Range;
    var first, last := l.sharedBegin / PAGE_SIZE, l.sharedEnd / PAGE_SIZE;
    RangeAt(first, last, first, NORMAL_NON_TRANSIENT, INNER_SHAREABLE, v);
    RangeAt(0xfc000, 0x100000, 0xfc000, DEVICE, NON_SHAREABLE, v);
  }

  lemma LowLoopPages(l: Layout, v: nat)
    requires LaidOut(l)
    ensures v in Loop(l, 1) <==> l.kernEnd / PAGE_SIZE <= v < 0x30000
    ensures v in Loop(l, 1) ==> Loop(l, 1)[v] == PageOf(v, NORMAL_TRANSIENT, NON_SHAREABLE)
    ensures v in Loop(l, 2) <==> v < l.kernEnd / PAGE_SIZE
    ensures v in Loop(l, 2) ==> Loop(l, 2)[v] == PageOf(v, NORMAL_TRANSIENT, NON_SHAREABLE)
    ensures v !in Loop(l, 3)
  {
    hide PageOf, Range;
    var kern := l.kernEnd / PAGE_SIZE;
    RangeAt(kern, 0x30000, kern, NORMAL_TRANSIENT, NON_SHAREABLE, v);
    RangeAt(0, kern, 0, NORMAL_TRANSIENT, NON_SHAREABLE, v);
    RangeAt(VAKERNBASE / PAGE_SIZE, kern, VAKERNBASE / PAGE_SIZE, NORMAL_TRANSIENT, NON_SHAREABLE, v);
  }

  lemma LowMemory(l: Layout, v: nat)
    requires LaidOut(l)
    ensures Through(map[] + Loop(l, 1) + Loop(l, 2) + Loop(l, 3), v) ==
      if v < 0x30000 then PageOf(v, NORMAL_TRANSIENT, NON_SHAREABLE) else Fault
  {
    hide PageOf;
    assert Through(map[], v) == Fault;
    ThroughLater(map[] + Loop(l, 1) + Loop(l, 2), Loop(l, 3), v);
    ThroughLater(map[] + Loop(l, 1), Loop(l, 2), v);
    ThroughLater(map[], Loop(l, 1), v);
    LowLoopPages(l, v);
    hide Through, Loop, Range;
  }

  /** The address space the loops build is the kernel map. */
  lemma LoopsAreKernelMap(l: Layout, v: nat)
    requires LaidOut(l)
    ensures Through(AllLoops(l), v) == KernelMap(l, v)
  {
    LoopsUnfold(l);
    hide AllLoops, LoopsTo;
    var f := map[] + Loop(l, 1) + Loop(l, 2) + Loop(l, 3) + Loop(l, 4) + Loop(l, 5);
    LowLoops(l, v);
    StackLoop(l, v);
    CpuLoop(l, v);
    hide Loop, PageOf;
    ThroughLater(f, Loop(l, 6), v);
    ThroughLater(f + Loop(l, 6), Loop(l, 7), v);
  }

  // ----- How many tables it takes -----

  /** The level 3 tables for the prefixes `first` to `last - 1`. */
  function Level3(root: nat, first: nat, last: nat): (s: set<Node>)
    ensures forall n :: n in s <==> n.root == root && n.level == 3 && first <= n.prefix < last
    ensures |s| == if first <= last then last - first else 0
  {
    if first >= last then {} else Level3(root, first, last - 1) + {Node(root, 3, last - 1)}
  }

  /** Prefixes grow with the page. */
  lemma NodeIn(root: nat, v: nat, level: nat, low: nat, high: nat)
    requires low <= v < high && level <= 3
    ensures NodeOf(root, v, level) == Node(root, level, Prefix(v, level))
    ensures Prefix(low, level) <= Prefix(v, level) <= Prefix(high - 1, level)
  {}

  lemma DisjointSize<T>(a: set<T>, b: set<T>)
    requires a !! b
    ensures |a + b| == |a| + |b|
  {}

  // ----- How many tables the first loops take -----

  /** The pages the first `n` loops map. */
  predicate LoopPage(l: Layout, n: nat, v: nat) {
    || (n >= 1 && l.kernEnd / PAGE_SIZE <= v < 0x30000) || (n >= 2 && v < 0x30000)
    || (n >= 5 && 0xfc000 <= v < 0x100000)
    || (n >= 6 && 0xf_ffff_fff0 <= v < 0xf_ffff_fff8 && v % 2 == 0) || (n >= 7 && 0xf_ffff_fffb <= v < 0xf_ffff_ffff)
  }

  lemma LoopAdds(l: Layout, n: nat, v: nat)
    requires LaidOut(l) && 0 < n <= 7
    ensures LoopPage(l, n, v) <==> LoopPage(l, n - 1, v) || v in Loop(l, n)
  {
    hide PageOf, Loop, KernelMap;
    LowLoopPages(l, v);
    LoopPages(l, v);
    StackLoop(l, v);
    CpuLoop(l, v);
    assert l.sharedEnd / PAGE_SIZE <= 0x30000 && l.kernEnd / PAGE_SIZE <= 0x30000;
  }

  lemma {:induction false} LoopsToPages(l: Layout, n: nat, v: nat)
    requires LaidOut(l) && n <= 7
    ensures v in LoopsTo(l, n) <==> LoopPage(l, n, v)
  {
    hide LoopsTo, Loop, LoopPage, LaidOut;
    if n == 0 {
      NoLoopPage(l, v);
    } else {
      LoopsToPages(l, n - 1, v);
      LoopAdds(l, n, v);
      LoopsNext(l, n - 1);
    }
  }

  lemma NoLoopPage(l: Layout, v: nat)
    requires LaidOut(l)
    ensures LoopsTo(l, 0) == map[] && !LoopPage(l, 0, v)
  {}

  /** The tables of low memory from page `first` on, of the devices besides those, and of the top of the space. */
  function LowNodes(root: nat, first: nat): (s: set<Node>)
    requires first < 0x30000
    ensures forall n :: n in s <==>
      n == Root(root) || n == Node(root, 1, 0) || n == Node(root, 2, 0)
      || (n.root == root && n.level == 3 && first / 512 <= n.prefix < 384)
    ensures |s| == 3 + (384 - first / 512)
  {
    var upper, lower := {Root(root), Node(root, 1, 0), Node(root, 2, 0)}, Level3(root, first / 512, 384);
    DisjointSize(upper, lower);
    upper + lower
  }

  function DeviceNodes(root: nat): (s: set<Node>)
    ensures forall n :: n in s <==> n == Node(root, 2, 3) || (n.root == root && n.level == 3 && 2016 <= n.prefix < 2048)
    ensures |s| == 33
  {
    DisjointSize({Node(root, 2, 3)}, Level3(root, 2016, 2048));
    {Node(root, 2, 3)} + Level3(root, 2016, 2048)
  }

  function HighNodes(root: nat): (s: set<Node>)
    ensures forall n :: n in s <==>
      n == Node(root, 1, 511) || n == Node(root, 2, 0x3_ffff) || n == Node(root, 3, 0x7ff_ffff)
    ensures |s| == 3
  {
    {Node(root, 1, 511), Node(root, 2, 0x3_ffff), Node(root, 3, 0x7ff_ffff)}
  }

  /** The tables the first `n` loops need, with the root. */
  function LoopNodes(l: Layout, root: nat, n: nat): set<Node>
    requires LaidOut(l)
  {
    var first := if n >= 2 then 0 else l.kernEnd / PAGE_SIZE;
    (if n == 0 || first >= 0x30000 then {} else LowNodes(root, first))
    + (if n >= 5 then DeviceNodes(root) else {}) + (if n >= 6 then HighNodes(root) else {})
  }

  lemma LowNodeOf(root: nat, first: nat, v: nat, level: nat)
    requires first <= v < 0x30000 && level <= 3
    ensures NodeOf(root, v, level) in LowNodes(root, first)
  {
    hide LowNodes, NodeOf;
    NodeIn(root, v, level, first, 0x30000);
  }

  lemma HighNodeOf(root: nat, v: nat, level: nat)
    requires 0xfc000 <= v < 0x100000 || 0xf_ffff_fff0 <= v < 0xf_ffff_ffff
    requires level <= 3
    ensures 0xfc000 <= v < 0x100000 ==>
      NodeOf(root, v, level) == Root(root) || NodeOf(root, v, level) == Node(root, 1, 0)
      || NodeOf(root, v, level) in DeviceNodes(root)
    ensures 0xf_ffff_fff0 <= v ==>
      NodeOf(root, v, level) == Root(root) || NodeOf(root, v, level) in HighNodes(root)
  {
    hide DeviceNodes, HighNodes, NodeOf;
    if v < 0x100000 {
      NodeIn(root, v, level, 0xfc000, 0x100000);
    } else {
      NodeIn(root, v, level, 0xf_ffff_fff0, 0xf_ffff_ffff);
    }
  }

  lemma PageOfLowNode(root: nat, first: nat, n: Node) returns (v: nat)
    requires first < 0x30000 && n in LowNodes(root, first)
    ensures first <= v < 0x30000 && n.level <= 3 && n == NodeOf(root, v, n.level)
  {
    hide LowNodes;
    v := if n.level == 3 && n.prefix * 512 > first then n.prefix * 512 else first;
  }

  lemma PageOfOtherNode(root: nat, n: Node) returns (v: nat)
    requires n in DeviceNodes(root) || n in HighNodes(root)
    ensures n.level <= 3 && n == NodeOf(root, v, n.level)
    ensures if n in DeviceNodes(root) then 0xfc000 <= v < 0x100000 else v == 0xf_ffff_fff0
  {
    hide DeviceNodes, HighNodes;
    v := if n in DeviceNodes(root) then (if n.level == 3 then n.prefix * 512 else 0xfc000) else 0xf_ffff_fff0;
  }

  lemma NodesAreLoopNodes(l: Layout, root: nat, n: nat, x: Node)
    requires LaidOut(l) && n <= 7
    ensures x in Nodes(root, LoopsTo(l, n).Keys) <==> x in LoopNodes(l, root, n)
  {
    hide LoopsTo, LowNodes, DeviceNodes, HighNodes, LaidOut, NodeOf;
    var first := if n >= 2 then 0 else l.kernEnd / PAGE_SIZE;
    if x in Nodes(root, LoopsTo(l, n).Keys) {
      var v, level :| v in LoopsTo(l, n).Keys && 0 <= level <= 3 && x == NodeOf(root, v, level);
      LoopsToPages(l, n, v);
      if v < 0x30000 {
        LowNodeOf(root, first, v, level);
      } else {
        HighNodeOf(root, v, level);
      }
    }
    if x in LoopNodes(l, root, n) {
      var v: nat;
      if n > 0 && first < 0x30000 && x in LowNodes(root, first) {
        v := PageOfLowNode(root, first, x);
      } else {
        v := PageOfOtherNode(root, x);
      }
      LoopsToPages(l, n, v);
    }
  }

  /** How many tables that is, besides the root. */
  function LoopCost(l: Layout, n: nat): nat
    requires LaidOut(l)
  {
    if n == 0 then 0
    else if n == 1 then (if l.kernEnd == 0x3000_0000 then 0 else 386 - l.kernEnd / 0x20_0000)
    else if n <= 4 then 386 else if n == 5 then 419 else 422
  }

  lemma LoopNodeCount(l: Layout, root: nat, n: nat)
    requires LaidOut(l) && n <= 7
    ensures |LoopNodes(l, root, n) - {Root(root)}| == LoopCost(l, n)
  {
    FirstTable(l);
    hide LowNodes, DeviceNodes, HighNodes, LaidOut;
    var first := if n >= 2 then 0 else l.kernEnd / PAGE_SIZE;
    if n > 0 && first < 0x30000 {
      LoopNodeParts(l, root, n, first);
    } else {
      assert LoopNodes(l, root, n) == {};
      assert LoopNodes(l, root, n) - {Root(root)} == {};
    }
  }

  lemma LoopNodeParts(l: Layout, root: nat, n: nat, first: nat)
    requires LaidOut(l) && 0 < n <= 7 && first < 0x30000 && first == if n >= 2 then 0 else l.kernEnd / PAGE_SIZE
    ensures |LoopNodes(l, root, n) - {Root(root)}| ==
      2 + (384 - first / 512) + (if n >= 5 then 33 else 0) + (if n >= 6 then 3 else 0)
  {
    hide LowNodes, DeviceNodes, HighNodes, LaidOut;
    var low := LowNodes(root, first);
    var dev := if n >= 5 then DeviceNodes(root) else {};
    var high := if n >= 6 then HighNodes(root) else {};
    assert LoopNodes(l, root, n) == low + dev + high;
    hide LoopNodes;
    PartsApart(root, first);
    assert low !! dev && low + dev !! high;
    CountParts(low, dev, high, Root(root));
  }

  lemma PartsApart(root: nat, first: nat)
    requires first < 0x30000
    ensures LowNodes(root, first) !! DeviceNodes(root) && LowNodes(root, first) !! HighNodes(root)
    ensures DeviceNodes(root) !! HighNodes(root) && Root(root) in LowNodes(root, first)
  {
    hide LowNodes, DeviceNodes, HighNodes;
  }

  lemma FirstTable(l: Layout)
    requires LaidOut(l)
    ensures l.kernEnd / PAGE_SIZE / 512 == l.kernEnd / 0x20_0000
    ensures l.kernEnd / PAGE_SIZE >= 0x30000 <==> l.kernEnd == 0x3000_0000
  {}

  lemma CountParts<T>(a: set<T>, b: set<T>, c: set<T>, x: T)
    requires a !! b && a + b !! c && x in a
    ensures |a + b + c - {x}| == |a| + |b| + |c| - 1
  {
    DisjointSize(a, b);
    DisjointSize(a + b, c);
    RemoveOne(a + b + c, x);
  }

  function UpperNodes(root: nat): (s: set<Node>)
    ensures |s| == 7
  {
    {Root(root), Node(root, 1, 0), Node(root, 1, 511), Node(root, 2, 0), Node(root, 2, 3), Node(root, 2, 0x3_ffff),
     Node(root, 3, 0x7ff_ffff)}
  }

  /** 384 level 3 tables for low memory, 32 for the devices, one at the top, and five above them. */
  lemma KernelNodes(l: Layout, root: nat)
    requires LaidOut(l)
    ensures Nodes(root, AllLoops(l).Keys) == UpperNodes(root) + Level3(root, 0, 384) + Level3(root, 2016, 2048)
    ensures |Nodes(root, AllLoops(l).Keys)| == 1 + 422
  {
    hide Nodes, LoopsTo, LaidOut, LoopNodes, UpperNodes, Level3;
    assert AllLoops(l) == LoopsTo(l, 7);
    hide AllLoops;
    forall x
      ensures x in Nodes(root, LoopsTo(l, 7).Keys) <==> x in LoopNodes(l, root, 7)
    {
      NodesAreLoopNodes(l, root, 7, x);
    }
    AllNodes(l, root);
    hide *;
    assert Nodes(root, LoopsTo(l, 7).Keys) == LoopNodes(l, root, 7);
  }

  lemma AllNodes(l: Layout, root: nat)
    requires LaidOut(l)
    ensures LoopNodes(l, root, 7) == UpperNodes(root) + Level3(root, 0, 384) + Level3(root, 2016, 2048)
    ensures |LoopNodes(l, root, 7)| == 1 + 422
  {
    hide *;
    AllThree(l, root);
    ThreeSize(root);
    ThreeUpper(root);
  }

  lemma ThreeSize(root: nat)
    ensures |LowNodes(root, 0) + DeviceNodes(root) + HighNodes(root)| == 1 + 422
  {
    hide LowNodes, DeviceNodes, HighNodes;
    PartsApart(root, 0);
    DisjointSize(LowNodes(root, 0), DeviceNodes(root));
    DisjointSize(LowNodes(root, 0) + DeviceNodes(root), HighNodes(root));
  }

  lemma ThreeUpper(root: nat)
    ensures LowNodes(root, 0) + DeviceNodes(root) + HighNodes(root)
         == UpperNodes(root) + Level3(root, 0, 384) + Level3(root, 2016, 2048)
  {
    hide Level3;
    UpperSplit(root);
    hide UpperNodes;
    var low, high := {Root(root), Node(root, 1, 0), Node(root, 2, 0)},
      {Node(root, 1, 511), Node(root, 2, 0x3_ffff), Node(root, 3, 0x7ff_ffff)};
    Regroup(low, {Node(root, 2, 3)}, high, Level3(root, 0, 384), Level3(root, 2016, 2048));
  }

  lemma UpperSplit(root: nat)
    ensures UpperNodes(root) == {Root(root), Node(root, 1, 0), Node(root, 2, 0)} + {Node(root, 2, 3)}
                                + {Node(root, 1, 511), Node(root, 2, 0x3_ffff), Node(root, 3, 0x7ff_ffff)}
  {}

  lemma Regroup<T>(a: set<T>, b: set<T>, c: set<T>, l: set<T>, m: set<T>)
    ensures (a + l) + (b + m) + c == (a + b + c) + l + m
  {}

  lemma AllThree(l: Layout, root: nat)
    requires LaidOut(l)
    ensures LoopNodes(l, root, 7) == LowNodes(root, 0) + DeviceNodes(root) + HighNodes(root)
  {
    hide LowNodes, DeviceNodes, HighNodes, LaidOut;
  }

  /** The pages the first `n` loops take when `t` is all there is. */
  function Needs(l: Layout, root: nat, t: Tables, n: nat): nat
    requires LaidOut(l)
  {
    |Nodes(root, LoopsTo(l, n).Keys) - t.Keys|
  }

  /** From an empty root: none or up to 386 for the free memory, 386 with the kernel's own, 419 with the devices, and
      422 with the stacks; the per-cpu pages take no more. */
  lemma NeedsFromRoot(l: Layout, root: nat, t: Tables, n: nat)
    requires LaidOut(l) && t == map[Root(root) := root] && n <= 7
    ensures Needs(l, root, t, n) == LoopCost(l, n)
  {
    hide LoopsTo, Nodes, LaidOut, LoopNodes, LoopCost;
    forall x
      ensures x in Nodes(root, LoopsTo(l, n).Keys) <==> x in LoopNodes(l, root, n)
    {
      NodesAreLoopNodes(l, root, n, x);
    }
    assert Nodes(root, LoopsTo(l, n).Keys) == LoopNodes(l, root, n);
    RootKey(t, root, LoopNodes(l, root, n));
    LoopNodeCount(l, root, n);
  }

  // ----- kpgtbl_init -----

  /** One more loop done, or stuck in it. */
  lemma LoopTurn(m: seq<Word>, o: Ownership, m2: seq<Word>, o2: Ownership, m3: seq<Word>, o3: Ownership,
                 root: nat, l: Layout, n: nat)
    requires LaidOut(l) && n < 7 && Mapped(m, o, m2, o2, root, LoopsTo(l, n)) && Root(root) in o.tables
    ensures Root(root) in o2.tables
    ensures Mapped(m2, o2, m3, o3, root, Loop(l, n + 1)) ==>
      Root(root) in o3.tables && Mapped(m, o, m3, o3, root, LoopsTo(l, n + 1))
    ensures OutOfPages(m2, o2, m3, o3, root, Loop(l, n + 1)) ==> OutOfPages(m, o, m3, o3, root, LoopsTo(l, 7))
    ensures Mapped(m2, o2, m3, o3, root, Loop(l, n + 1)) ==> Needs(l, root, o.tables, n + 1) <= |o.free|
    ensures OutOfPages(m2, o2, m3, o3, root, Loop(l, n + 1)) ==> |o.free| < Needs(l, root, o.tables, n + 1)
  {
    hide *;
    KeepsRoot(m, o, m2, o2, root, LoopsTo(l, n));
    LoopsNext(l, n);
    MappedThen(m, o, m2, o2, m3, o3, root, LoopsTo(l, n), Loop(l, n + 1));
    if OutOfPages(m2, o2, m3, o3, root, Loop(l, n + 1)) {
      OutTook(m, o, m3, o3, root, l, n + 1);
      LoopsKeys(l, n + 1, 7);
      OutOfMore(m, o, m3, o3, root, LoopsTo(l, n + 1), LoopsTo(l, 7));
    }
    if Mapped(m2, o2, m3, o3, root, Loop(l, n + 1)) {
      KeepsRoot(m2, o2, m3, o3, root, Loop(l, n + 1));
      LoopsTook(m, o, m3, o3, root, l, n + 1);
    }
  }

  lemma LoopsTook(m: seq<Word>, o: Ownership, m2: seq<Word>, o2: Ownership, root: nat, l: Layout, n: nat)
    requires LaidOut(l) && Mapped(m, o, m2, o2, root, LoopsTo(l, n))
    ensures Needs(l, root, o.tables, n) <= |o.free|
  {
    hide LaidOut, LoopsTo, Nodes, Remapped, OnlyTables, Built;
    BuiltTook(o, o2, Nodes(root, LoopsTo(l, n).Keys));
  }

  lemma OutTook(m: seq<Word>, o: Ownership, m2: seq<Word>, o2: Ownership, root: nat, l: Layout, n: nat)
    requires LaidOut(l) && OutOfPages(m, o, m2, o2, root, LoopsTo(l, n))
    ensures |o.free| < Needs(l, root, o.tables, n)
  {
    hide LaidOut, LoopsTo, Nodes, OthersKept, OnlyTables, Short;
    ShortTook(o, o2, Nodes(root, LoopsTo(l, n).Keys));
  }

  lemma LoopsNext(l: Layout, n: nat)
    requires LaidOut(l)
    ensures LoopsTo(l, n + 1) == LoopsTo(l, n) + Loop(l, n + 1)
  {}

  lemma KeepsRoot(m: seq<Word>, o: Ownership, m2: seq<Word>, o2: Ownership, root: nat, f: Space)
    requires Mapped(m, o, m2, o2, root, f) && Root(root) in o.tables
    ensures Root(root) in o2.tables
  {
    hide Remapped, OnlyTables, Nodes;
  }

  /** The kernel's address space is the kernel map, on every page. */
  ghost predicate KernelMapped(m: seq<Word>, l: Layout)
    requires LaidOut(l)
  {
    forall v :: 0 <= v < FRAME_LIMIT ==> Translate(m, l.kpgtbl / PAGE_SIZE, v) == KernelMap(l, v)
  }

  lemma KernelPageMapped(m: seq<Word>, o: Ownership, m2: seq<Word>, o2: Ownership, l: Layout, v: nat)
    requires LaidOut(l) && Forest(m, o.tables) && o.tables == map[Root(l.kpgtbl / PAGE_SIZE) := l.kpgtbl / PAGE_SIZE]
    requires Mapped(m, o, m2, o2, l.kpgtbl / PAGE_SIZE, LoopsTo(l, 7)) && v < FRAME_LIMIT
    ensures Translate(m2, l.kpgtbl / PAGE_SIZE, v) == KernelMap(l, v)
  {
    hide Forest, Built, OnlyTables, KernelMap, Translate, LoopsTo, LaidOut;
    EmptyRoot(m, o.tables, l.kpgtbl / PAGE_SIZE, v);
    LoopsAreKernelMap(l, v);
    hide Lookup;
  }

  lemma EmptyRoot(m: seq<Word>, t: Tables, root: nat, v: nat)
    requires Forest(m, t) && t == map[Root(root) := root] && v < FRAME_LIMIT
    ensures Translate(m, root, v) == Fault
  {
    TranslateIsLookup(m, t, root, v);
    hide Forest, Translate;
  }

  lemma KernelTook(l: Layout, t: Tables)
    requires LaidOut(l) && t == map[Root(l.kpgtbl / PAGE_SIZE) := l.kpgtbl / PAGE_SIZE]
    ensures |Nodes(l.kpgtbl / PAGE_SIZE, LoopsTo(l, 7).Keys) - t.Keys| == 422
  {
    hide Nodes, LoopsTo, LaidOut;
    NeedsFromRoot(l, l.kpgtbl / PAGE_SIZE, t, 7);
  }

  lemma RootKey(t: Tables, root: nat, all: set<Node>)
    requires t == map[Root(root) := root]
    ensures all - t.Keys == all - {Root(root)}
  {}

  lemma RemoveOne<T>(s: set<T>, x: T)
    requires x in s
    ensures |s - {x}| == |s| - 1
  {}

  /** From an empty root the loops build the kernel map, and take 422 pages for it. */
  lemma KernelBuilt(m: seq<Word>, o: Ownership, m2: seq<Word>, o2: Ownership, l: Layout)
    requires LaidOut(l) && Forest(m, o.tables) && o.tables == map[Root(l.kpgtbl / PAGE_SIZE) := l.kpgtbl / PAGE_SIZE]
    requires Mapped(m, o, m2, o2, l.kpgtbl / PAGE_SIZE, LoopsTo(l, 7))
    ensures KernelMapped(m2, l) && |o.free| == |o2.free| + 422
  {
    hide LaidOut, Forest, LoopsTo, Translate, KernelMap, Remapped, Built, OnlyTables;
    forall v | 0 <= v < FRAME_LIMIT
      ensures Translate(m2, l.kpgtbl / PAGE_SIZE, v) == KernelMap(l, v)
    {
      KernelPageMapped(m, o, m2, o2, l, v);
    }
    BuiltTook(o, o2, Nodes(l.kpgtbl / PAGE_SIZE, LoopsTo(l, 7).Keys));
    hide Nodes;
    KernelTook(l, o.tables);
  }

  lemma KernelShort(m: seq<Word>, o: Ownership, m2: seq<Word>, o2: Ownership, l: Layout)
    requires LaidOut(l) && o.tables == map[Root(l.kpgtbl / PAGE_SIZE) := l.kpgtbl / PAGE_SIZE]
    requires OutOfPages(m, o, m2, o2, l.kpgtbl / PAGE_SIZE, LoopsTo(l, 7))
    ensures |o.free| < 422
  {
    ShortTook(o, o2, Nodes(l.kpgtbl / PAGE_SIZE, LoopsTo(l, 7).Keys));
    KernelTook(l, o.tables);
  }

  /** Build the kernel's translation tables under the zeroed root kpgtbl. It succeeds exactly when the pool
      holds 422 pages, and the address space is then the kernel map, whatever the layout. */
  method KpgtblInit(k: Machine, l: Layout) returns (res: int)
    requires LaidOut(l) && k.Valid() && !k.locked
    requires k.own.tables == map[Root(l.kpgtbl / PAGE_SIZE) := l.kpgtbl / PAGE_SIZE]
    modifies k, k.mem
    ensures k.Valid() && !k.locked && res in {0, -1, -4, -5, -6}
    ensures res == 0 <==> |old(k.own).free| >= 422
    ensures res == -6 <==> 419 <= |old(k.own).free| < 422
    ensures res == -5 <==> 386 <= |old(k.own).free| < 419
    ensures var first := if l.kernEnd == 0x3000_0000 then 0 else 386 - l.kernEnd / 0x20_0000;
      && (res == -4 <==> first <= |old(k.own).free| < 386) && (res == -1 <==> |old(k.own).free| < first)
    ensures res == 0 ==> KernelMapped(k.mem[..], l)
    ensures res == 0 ==> |k.own.free| == |old(k.own).free| - 422
    ensures k.own.pool == old(k.own).pool && k.own.held == old(k.own).held
    ensures Root(l.kpgtbl / PAGE_SIZE) in k.own.tables
    ensures forall n :: n in k.own.tables ==> n.root == l.kpgtbl / PAGE_SIZE
    ensures Acquired(k.log) == Acquired(old(k.log))
  {
    hide Held, Acquired, Unlocked, KernelMapped, LoopsTo, Mapped, OutOfPages, LaidOut, Stopped;
    ghost var m, o := k.mem[..], k.own;
    res := Loops(k, l);
    if res == 0 {
      KernelBuilt(m, o, k.mem[..], k.own, l);
    } else {
      KernelShort(m, o, k.mem[..], k.own, l);
    }
    StoppedAt(l, o, res);
    KernelGrown(m, o, k.mem[..], k.own, l);
  }

  /** Which pool stops which loop, in numbers. */
  lemma StoppedAt(l: Layout, o: Ownership, res: int)
    requires LaidOut(l) && o.tables == map[Root(l.kpgtbl / PAGE_SIZE) := l.kpgtbl / PAGE_SIZE]
    requires Stopped(l, o, res) && res in {0, -1, -4, -5, -6, -7}
    ensures res == 0 ==> |o.free| >= 422
    ensures res == -6 ==> 419 <= |o.free| < 422
    ensures res == -5 ==> 386 <= |o.free| < 419
    ensures res == -4 ==> LoopCost(l, 1) <= |o.free| < 386
    ensures res == -1 ==> |o.free| < LoopCost(l, 1)
    ensures res != -7
    ensures LoopCost(l, 1) == (if l.kernEnd == 0x3000_0000 then 0 else 386 - l.kernEnd / 0x20_0000) <= 386
  {
    var root := l.kpgtbl / PAGE_SIZE;
    Costs(l);
    hide LaidOut, Needs, LoopCost;
    NeedsFromRoot(l, root, o.tables, 1);
    NeedsFromRoot(l, root, o.tables, 2);
    NeedsFromRoot(l, root, o.tables, 3);
    NeedsFromRoot(l, root, o.tables, 4);
    NeedsFromRoot(l, root, o.tables, 5);
    NeedsFromRoot(l, root, o.tables, 6);
    NeedsFromRoot(l, root, o.tables, 7);
  }

  lemma Costs(l: Layout)
    requires LaidOut(l)
    ensures LoopCost(l, 2) == LoopCost(l, 3) == LoopCost(l, 4) == 386
    ensures LoopCost(l, 5) == 419 && LoopCost(l, 6) == LoopCost(l, 7) == 422
    ensures LoopCost(l, 1) == (if l.kernEnd == 0x3000_0000 then 0 else 386 - l.kernEnd / 0x20_0000) <= 386
  {}

  lemma KernelGrown(m: seq<Word>, o: Ownership, m2: seq<Word>, o2: Ownership, l: Layout)
    requires LaidOut(l) && o.tables == map[Root(l.kpgtbl / PAGE_SIZE) := l.kpgtbl / PAGE_SIZE]
    requires Mapped(m, o, m2, o2, l.kpgtbl / PAGE_SIZE, LoopsTo(l, 7))
          || OutOfPages(m, o, m2, o2, l.kpgtbl / PAGE_SIZE, LoopsTo(l, 7))
    ensures o2.pool == o.pool && o2.held == o.held && Root(l.kpgtbl / PAGE_SIZE) in o2.tables
    ensures forall n :: n in o2.tables ==> n.root == l.kpgtbl / PAGE_SIZE
  {
    hide LoopsTo, Remapped, OthersKept;
    var root := l.kpgtbl / PAGE_SIZE;
    assert forall n :: n in o2.tables ==> n in o.tables.Keys + Nodes(root, LoopsTo(l, 7).Keys);
  }

  /** What an identity loop needs: its range, as the loop with that number. */
  predicate RangeLoop(l: Layout, n: nat, start: Word, end: Word, ind: Word, sflag: Word)
    requires LaidOut(l)
  {
    && start % PAGE_SIZE == 0 && end % PAGE_SIZE == 0 && end <= VA_LIMIT && Attributes(ind, sflag)
    && Loop(l, n) == Range(start / PAGE_SIZE, end / PAGE_SIZE, start / PAGE_SIZE, ind, sflag)
  }

  predicate FourLoop(l: Layout, n: nat, base: Word, stride: nat, pa: Word)
    requires LaidOut(l)
  {
    && base % PAGE_SIZE == 0 && base + 4 * PAGE_SIZE * stride < VA_LIMIT
    && pa % PAGE_SIZE == 0 && pa + 4 * PAGE_SIZE <= VA_LIMIT
    && Loop(l, n) == Spaced(base / PAGE_SIZE, stride, pa / PAGE_SIZE, 4, NORMAL_TRANSIENT, NON_SHAREABLE)
  }

  lemma LoopRanges(l: Layout)
    requires LaidOut(l)
    ensures l.kpgtbl % PAGE_SIZE == 0
    ensures RangeLoop(l, 1, l.kernEnd, MEM_TMP_END, NORMAL_TRANSIENT, NON_SHAREABLE)
    ensures RangeLoop(l, 2, MEM_KERN_START, l.kernEnd, NORMAL_TRANSIENT, NON_SHAREABLE)
    ensures RangeLoop(l, 3, VAKERNBASE, l.kernEnd, NORMAL_TRANSIENT, NON_SHAREABLE)
    ensures RangeLoop(l, 4, l.sharedBegin, l.sharedEnd, NORMAL_NON_TRANSIENT, INNER_SHAREABLE)
    ensures RangeLoop(l, 5, MAIN_PERIPHERAL_BOT, ARM_LOCAL_PERIPHERAL_TOP, DEVICE, NON_SHAREABLE)
    ensures FourLoop(l, 6, KSTACK_BASE, 2, l.kstack1) && FourLoop(l, 7, MY_CPU_BASE, 1, l.cpus)
  {
    hide Range, Spaced;
  }

  /** One identity loop, after the loops before it. */
  method MapLoop(k: Machine, l: Layout, start: Word, end: Word, ind: Word, sflag: Word,
                 ghost n: nat, ghost m: seq<Word>, ghost o: Ownership) returns (res: int)
    requires LaidOut(l) && k.Valid() && !k.locked && Root(l.kpgtbl / PAGE_SIZE) in o.tables && l.kpgtbl % PAGE_SIZE == 0
    requires n < 7 && RangeLoop(l, n + 1, start, end, ind, sflag)
    requires Mapped(m, o, k.mem[..], k.own, l.kpgtbl / PAGE_SIZE, LoopsTo(l, n))
    modifies k, k.mem
    ensures k.Valid() && !k.locked && (res == 0 || res == -1)
    ensures if res == 0 then Mapped(m, o, k.mem[..], k.own, l.kpgtbl / PAGE_SIZE, LoopsTo(l, n + 1))
            else OutOfPages(m, o, k.mem[..], k.own, l.kpgtbl / PAGE_SIZE, LoopsTo(l, 7))
    ensures if res == 0 then Needs(l, l.kpgtbl / PAGE_SIZE, o.tables, n + 1) <= |o.free|
            else |o.free| < Needs(l, l.kpgtbl / PAGE_SIZE, o.tables, n + 1)
    ensures Acquired(k.log) == Acquired(old(k.log))
  {
    hide Held, Acquired, Unlocked, LaidOut, State, Mapped, OutOfPages, Range, Loop, LoopsTo, Attributes, NodeOf,
      Needs;
    ghost var root, m2, o2 := l.kpgtbl / PAGE_SIZE, k.mem[..], k.own;
    LoopTurn(m, o, m2, o2, m2, o2, root, l, n);
    res := MapRange(k, start, end, start, l.kpgtbl, ind, sflag, true);
    LoopTurn(m, o, m2, o2, k.mem[..], k.own, root, l, n);
  }

  /** One loop over the cores, after the loops before it. */
  method MapCores(k: Machine, l: Layout, base: Word, stride: nat, pa: Word,
                  ghost n: nat, ghost m: seq<Word>, ghost o: Ownership) returns (res: int)
    requires LaidOut(l) && k.Valid() && !k.locked && Root(l.kpgtbl / PAGE_SIZE) in o.tables && l.kpgtbl % PAGE_SIZE == 0
    requires n < 7 && FourLoop(l, n + 1, base, stride, pa)
    requires Mapped(m, o, k.mem[..], k.own, l.kpgtbl / PAGE_SIZE, LoopsTo(l, n))
    modifies k, k.mem
    ensures k.Valid() && !k.locked && (res == 0 || res == -1)
    ensures if res == 0 then Mapped(m, o, k.mem[..], k.own, l.kpgtbl / PAGE_SIZE, LoopsTo(l, n + 1))
            else OutOfPages(m, o, k.mem[..], k.own, l.kpgtbl / PAGE_SIZE, LoopsTo(l, 7))
    ensures if res == 0 then Needs(l, l.kpgtbl / PAGE_SIZE, o.tables, n + 1) <= |o.free|
            else |o.free| < Needs(l, l.kpgtbl / PAGE_SIZE, o.tables, n + 1)
    ensures Acquired(k.log) == Acquired(old(k.log))
  {
    hide Held, Acquired, Unlocked, LaidOut, State, Mapped, OutOfPages, Spaced, Loop, LoopsTo, Needs;
    ghost var root, m2, o2 := l.kpgtbl / PAGE_SIZE, k.mem[..], k.own;
    LoopTurn(m, o, m2, o2, m2, o2, root, l, n);
    res := MapFour(k, base, stride, pa, l.kpgtbl, NORMAL_TRANSIENT, NON_SHAREABLE);
    LoopTurn(m, o, m2, o2, k.mem[..], k.own, root, l, n);
  }

  lemma NoLoops(m: seq<Word>, o: Ownership, root: nat, l: Layout)
    requires LaidOut(l)
    ensures Mapped(m, o, m, o, root, LoopsTo(l, 0))
  {
    MappedNothing(m, o, root);
  }

  /** The result names the loop the pool did not last for. */
  ghost predicate Stopped(l: Layout, o: Ownership, res: int)
    requires LaidOut(l)
  {
    var root, free := l.kpgtbl / PAGE_SIZE, |o.free|;
    && (res == 0 ==> Needs(l, root, o.tables, 7) <= free)
    && (res == -1 ==> free < Needs(l, root, o.tables, 1))
    && (res == -4 ==> Needs(l, root, o.tables, 1) <= free)
    && (res == -4 ==> free < Needs(l, root, o.tables, 2) || free < Needs(l, root, o.tables, 3)
                      || free < Needs(l, root, o.tables, 4))
    && (res == -5 ==> Needs(l, root, o.tables, 4) <= free < Needs(l, root, o.tables, 5))
    && (res == -6 ==> Needs(l, root, o.tables, 5) <= free < Needs(l, root, o.tables, 6))
    && (res == -7 ==> Needs(l, root, o.tables, 6) <= free < Needs(l, root, o.tables, 7))
  }

  /** The loops of kpgtbl_init, in order; the result tells which of them ran out of pages. */
  method Loops(k: Machine, l: Layout) returns (res: int)
    requires LaidOut(l) && k.Valid() && !k.locked && Root(l.kpgtbl / PAGE_SIZE) in k.own.tables
    modifies k, k.mem
    ensures k.Valid() && !k.locked && res in {0, -1, -4, -5, -6, -7}
    ensures if res == 0 then Mapped(old(k.mem[..]), old(k.own), k.mem[..], k.own, l.kpgtbl / PAGE_SIZE, LoopsTo(l, 7))
            else OutOfPages(old(k.mem[..]), old(k.own), k.mem[..], k.own, l.kpgtbl / PAGE_SIZE, LoopsTo(l, 7))
    ensures Stopped(l, old(k.own), res)
    ensures Acquired(k.log) == Acquired(old(k.log))
  {
    hide Held, Acquired, Unlocked, LaidOut, State, Mapped, OutOfPages, LoopsTo, RangeLoop, FourLoop, Needs;
    ghost var m, o := k.mem[..], k.own;
    LoopRanges(l);
    NoLoops(m, o, l.kpgtbl / PAGE_SIZE, l);
    res := MapLoop(k, l, l.kernEnd, MEM_TMP_END, NORMAL_TRANSIENT, NON_SHAREABLE, 0, m, o);
    if res < 0 {
      return -1;
    }
    res := MapLoop(k, l, MEM_KERN_START, l.kernEnd, NORMAL_TRANSIENT, NON_SHAREABLE, 1, m, o);
    if res < 0 {
      return -4;
    }
    res := MapLoop(k, l, VAKERNBASE, l.kernEnd, NORMAL_TRANSIENT, NON_SHAREABLE, 2, m, o);
    if res < 0 {
      return -4;
    }
    res := MapLoop(k, l, l.sharedBegin, l.sharedEnd, NORMAL_NON_TRANSIENT, INNER_SHAREABLE, 3, m, o);
    if res < 0 {
      return -4;
    }
    res := MapLoop(k, l, MAIN_PERIPHERAL_BOT, ARM_LOCAL_PERIPHERAL_TOP, DEVICE, NON_SHAREABLE, 4, m, o);
    if res < 0 {
      return -5;
    }
    res := MapCores(k, l, KSTACK_BASE, 2, l.kstack1, 5, m, o);
    if res < 0 {
      return -6;
    }
    res := MapCores(k, l, MY_CPU_BASE, 1, l.cpus, 6, m, o);
    if res < 0 {
      return -7;
    }
    return 0;
  }
}
