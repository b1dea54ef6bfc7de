/** get_page and free_page on many cores, one memory access a step. */
module AllocatorSteps {
  import PaAlloc

  /** Where a core stands in a call; the comments give the step it takes next. */
  datatype Pc =
    | Idle
    | GetSpin                             // test and set the lock
    | GetRead                             // page = freepages
    | GetNext(page: nat)                  // read page->next
    | GetStore(page: nat, link: nat)      // freepages = page->next
    | GetDone(result: nat)                // release, return result
    | FreeSpin(page: nat)                 // test and set the lock, or, as written, release it
    | FreeRead(page: nat)                 // read freepages
    | FreeLink(page: nat, link: nat)      // page->next = freepages
    | FreeStore(page: nat)                // freepages = page
    | FreeDone                            // release, return

  /** A core: its place in the code, and the pages its callers hold. */
  datatype Core = Core(pc: Pc, pages: set<nat>)

  /** Shared memory and cores. `stack` is auxiliary: it records what the list stands for. */
  datatype State = State(locked: bool, head: nat, next: map<nat, nat>, terminal: nat, cores: seq<Core>, stack: seq<nat>)

  datatype Action = CallGet | CallFree(page: nat) | Step | Scribble(page: nat, word: nat)

  /** A caller frees, or writes to, only pages it holds. */
  predicate Enabled(s: State, c: nat, a: Action) {
    && c < |s.cores|
    && match a
       case CallGet => s.cores[c].pc.Idle?
       case CallFree(p) => s.cores[c].pc.Idle? && p in s.cores[c].pages
       case Step => !s.cores[c].pc.Idle?
       case Scribble(p, _) => p in s.cores[c].pages
  }

  function At(s: State, c: nat, pc: Pc): State
    requires c < |s.cores|
  {
    s.(cores := s.cores[c := s.cores[c].(pc := pc)])
  }

  function LinkAt(s: State, p: nat): nat {
    if p in s.next then s.next[p] else s.terminal
  }

  /** The effect of an action; `intended` tells whether free_page takes the lock. */
  function Do(intended: bool, s: State, c: nat, a: Action): State
    requires Enabled(s, c, a)
  {
    match a
    case CallGet => At(s, c, GetSpin)
    case CallFree(p) => s.(cores := s.cores[c := Core(FreeSpin(p), s.cores[c].pages - {p})])
    case Scribble(p, w) => s.(next := s.next[p := w])
    case Step =>
      match s.cores[c].pc
      case Idle => s
      case GetSpin => if s.locked then s else At(s, c, GetRead).(locked := true)
      case GetRead => At(s, c, if s.head == s.terminal then GetDone(0) else GetNext(s.head))
      case GetNext(p) => At(s, c, GetStore(p, LinkAt(s, p)))
      case GetStore(p, n) => At(s, c, GetDone(p)).(head := n, stack := if s.stack == [] then [] else s.stack[1..])
      case GetDone(r) =>
        s.(cores := s.cores[c := Core(Idle, s.cores[c].pages + if r == 0 then {} else {r})], locked := false)
      case FreeSpin(p) =>
        if intended then (if s.locked then s else At(s, c, FreeRead(p)).(locked := true))
        else At(s, c, FreeRead(p)).(locked := false)
      case FreeRead(p) => At(s, c, FreeLink(p, s.head))
      case FreeLink(p, h) => At(s, c, FreeStore(p)).(next := s.next[p := h])
      case FreeStore(p) => At(s, c, FreeDone).(head := p, stack := [p] + s.stack)
      case FreeDone => At(s, c, Idle).(locked := false)
  }

  // ----- The invariant -----

  predicate InSection(pc: Pc) {
    !pc.Idle? && !pc.GetSpin? && !pc.FreeSpin?
  }

  /** The pages a core answers for: those its callers hold, and one on its way. */
  function InHand(k: Core): set<nat> {
    k.pages + match k.pc
              case GetDone(r) => if r == 0 then {} else {r}
              case FreeSpin(p) => {p}
              case FreeRead(p) => {p}
              case FreeLink(p, _) => {p}
              case FreeStore(p) => {p}
              case _ => {}
  }

  function LinkTo(s: State, k: nat): nat {
    if k < |s.stack| then s.stack[k] else s.terminal
  }

  /** The list in memory is the stack. */
  ghost predicate ListIsStack(s: State) {
    && s.head == LinkTo(s, 0)
    && (forall k :: 0 <= k < |s.stack| ==> LinkAt(s, s.stack[k]) == LinkTo(s, k + 1))
    && (forall j, k :: 0 <= j < k < |s.stack| ==> s.stack[j] != s.stack[k])
  }

  /** Every page of the pool is on the stack or in the hand of exactly one core. */
  ghost predicate Conserved(s: State, pool: set<nat>) {
    && 0 !in pool && s.terminal !in pool
    && (forall p :: p in s.stack ==> p in pool)
    && (forall c :: 0 <= c < |s.cores| ==> InHand(s.cores[c]) <= pool)
    && (forall c, p :: 0 <= c < |s.cores| && p in InHand(s.cores[c]) ==> p !in s.stack)
    && (forall c, d :: 0 <= c < d < |s.cores| ==> InHand(s.cores[c]) !! InHand(s.cores[d]))
    && (forall p :: p in pool ==> p in s.stack || exists c :: 0 <= c < |s.cores| && p in InHand(s.cores[c]))
    && (forall c :: 0 <= c < |s.cores| ==> OneInHand(s.cores[c]))
  }

  /** The page on its way is not also held. */
  predicate OneInHand(k: Core) {
    match k.pc
    case GetDone(r) => r == 0 || r !in k.pages
    case FreeSpin(p) => p !in k.pages
    case FreeRead(p) => p !in k.pages
    case FreeLink(p, _) => p !in k.pages
    case FreeStore(p) => p !in k.pages
    case _ => true
  }

  /** What a core inside a critical section has read is still so. */
  predicate Current(s: State, pc: Pc) {
    match pc
    case GetNext(p) => s.stack != [] && p == s.stack[0]
    case GetStore(p, n) => s.stack != [] && p == s.stack[0] && n == LinkTo(s, 1)
    case FreeLink(_, h) => h == s.head
    case FreeStore(p) => LinkAt(s, p) == s.head
    case _ => true
  }

  ghost predicate Exclusive(s: State) {
    forall c, d :: 0 <= c < d < |s.cores| ==> !InSection(s.cores[c].pc) || !InSection(s.cores[d].pc)
  }

  ghost predicate Sound(s: State, pool: set<nat>) {
    && ListIsStack(s) && Conserved(s, pool) && Exclusive(s)
    && forall c :: 0 <= c < |s.cores| ==> Current(s, s.cores[c].pc)
  }

  /** The lock is taken exactly while some core is in a critical section. */
  ghost predicate LockIsHeld(s: State) {
    && (forall c :: 0 <= c < |s.cores| && InSection(s.cores[c].pc) ==> s.locked)
    && (s.locked ==> exists c :: 0 <= c < |s.cores| && InSection(s.cores[c].pc))
  }

  // ----- One step keeps it -----

  /** Core `c` moves on; no page changes hands. */
  lemma SameHands(s: State, s2: State, c: nat, k: Core, pool: set<nat>)
    requires Conserved(s, pool) && c < |s.cores| && s2.cores == s.cores[c := k]
    requires InHand(k) == InHand(s.cores[c]) && OneInHand(k) && s2.stack == s.stack && s2.terminal == s.terminal
    ensures Conserved(s2, pool)
  {
    hide InHand, OneInHand;
    assert forall d :: 0 <= d < |s.cores| ==> InHand(s2.cores[d]) == InHand(s.cores[d]);
    assert forall d :: 0 <= d < |s.cores| ==> OneInHand(s2.cores[d]);
    forall p | p in pool
      ensures p in s2.stack || exists d :: 0 <= d < |s2.cores| && p in InHand(s2.cores[d])
    {
      if p !in s.stack {
        var d :| 0 <= d < |s.cores| && p in InHand(s.cores[d]);
        assert p in InHand(s2.cores[d]);
      }
    }
  }

  /** The first page of the stack comes into the hand of core `c`. */
  lemma PoppedHands(s: State, s2: State, c: nat, k: Core, pool: set<nat>)
    requires Conserved(s, pool) && ListIsStack(s) && c < |s.cores| && s2.cores == s.cores[c := k]
    requires s.stack != [] && s2.stack == s.stack[1..] && s2.terminal == s.terminal
    requires InHand(k) == InHand(s.cores[c]) + {s.stack[0]} && OneInHand(k)
    ensures Conserved(s2, pool)
  {
    hide InHand, OneInHand, ListIsStack;
    var top := s.stack[0];
    TopOff(s, s2);
    assert forall d :: 0 <= d < |s.cores| && d != c ==> InHand(s2.cores[d]) == InHand(s.cores[d]);
    assert forall d :: 0 <= d < |s.cores| ==> OneInHand(s2.cores[d]);
    forall p | p in pool
      ensures p in s2.stack || exists d :: 0 <= d < |s2.cores| && p in InHand(s2.cores[d])
    {
      if p == top {
        assert p in InHand(s2.cores[c]);
      } else if p !in s.stack {
        var d :| 0 <= d < |s.cores| && p in InHand(s.cores[d]);
        assert p in InHand(s2.cores[d]);
      }
    }
  }

  lemma TopOff(s: State, s2: State)
    requires ListIsStack(s) && s.stack != [] && s2.stack == s.stack[1..]
    ensures s.stack[0] in s.stack && s.stack[0] !in s2.stack
    ensures forall p :: p in s.stack <==> p == s.stack[0] || p in s2.stack
  {}

  /** A page in the hand of core `c` goes to the top of the stack. */
  lemma PushedHands(s: State, s2: State, c: nat, k: Core, pool: set<nat>, page: nat)
    requires Conserved(s, pool) && c < |s.cores| && s2.cores == s.cores[c := k]
    requires s2.stack == [page] + s.stack && s2.terminal == s.terminal
    requires page in InHand(s.cores[c]) && InHand(k) == InHand(s.cores[c]) - {page} && OneInHand(k)
    ensures Conserved(s2, pool)
  {
    hide InHand, OneInHand;
    assert forall d :: 0 <= d < |s.cores| && d != c ==> InHand(s2.cores[d]) == InHand(s.cores[d]);
    assert forall d :: 0 <= d < |s.cores| ==> OneInHand(s2.cores[d]);
    assert forall p :: p in s2.stack <==> p == page || p in s.stack;
    forall p | p in pool
      ensures p in s2.stack || exists d :: 0 <= d < |s2.cores| && p in InHand(s2.cores[d])
    {
      if p != page && p !in s.stack {
        var d :| 0 <= d < |s.cores| && p in InHand(s.cores[d]);
        assert p in InHand(s2.cores[d]);
      }
    }
  }

  /** A core may enter a critical section only when no core is in one. */
  ghost predicate Guarded(intended: bool, s: State) {
    (intended && LockIsHeld(s)) || |s.cores| <= 1
  }

  /** Core `c` moves on, memory and stack stay. */
  lemma MovedOn(s: State, s2: State, c: nat, k: Core, pool: set<nat>)
    requires Sound(s, pool) && c < |s.cores| && s2.cores == s.cores[c := k]
    requires InHand(k) == InHand(s.cores[c]) && OneInHand(k)
    requires s2.stack == s.stack && s2.terminal == s.terminal && s2.next == s.next && s2.head == s.head
    requires Current(s2, k.pc)
    requires InSection(k.pc) ==> forall d :: 0 <= d < |s.cores| && d != c ==> !InSection(s.cores[d].pc)
    ensures Sound(s2, pool)
  {
    hide InHand, OneInHand, Conserved, ListIsStack, InSection, Current;
    SameHands(s, s2, c, k, pool);
    SameList(s, s2);
    forall d | 0 <= d < |s2.cores|
      ensures Current(s2, s2.cores[d].pc)
    {
      if d != c {
        SameCurrent(s, s2, s.cores[d].pc);
      }
    }
  }

  /** A step inside a section, as long as what the core itself has read is still so. */
  lemma MovedAlone(s: State, s2: State, c: nat)
    requires c < |s.cores| == |s2.cores| && s2.cores == s.cores[c := s2.cores[c]]
    requires forall d :: 0 <= d < |s.cores| && d != c ==> !InSection(s.cores[d].pc)
    requires Current(s2, s2.cores[c].pc)
    ensures Exclusive(s2) && forall d :: 0 <= d < |s2.cores| ==> Current(s2, s2.cores[d].pc)
  {
    forall d | 0 <= d < |s2.cores|
      ensures Current(s2, s2.cores[d].pc)
    {
      if d != c {
        OutsideCurrent(s2, s.cores[d].pc);
      }
    }
    hide Current, InSection;
  }

  lemma OutsideCurrent(s: State, pc: Pc)
    requires !InSection(pc)
    ensures Current(s, pc)
  {}

  lemma SameList(s: State, s2: State)
    requires s2.stack == s.stack && s2.terminal == s.terminal && s2.next == s.next && s2.head == s.head
    ensures ListIsStack(s) ==> ListIsStack(s2)
  {
    assert forall p :: LinkAt(s2, p) == LinkAt(s, p);
    assert forall k :: LinkTo(s2, k) == LinkTo(s, k);
    hide LinkAt, LinkTo;
  }

  lemma SameCurrent(s: State, s2: State, pc: Pc)
    requires s2.stack == s.stack && s2.terminal == s.terminal && s2.next == s.next && s2.head == s.head
    ensures Current(s, pc) ==> Current(s2, pc)
  {}

  /** While core `c` is in its section the others are outside theirs, where nothing they have read matters. */
  lemma Alone(s: State, c: nat)
    requires Exclusive(s) && c < |s.cores| && InSection(s.cores[c].pc)
    ensures forall d :: 0 <= d < |s.cores| && d != c ==> !InSection(s.cores[d].pc)
  {}

  lemma ScribbleSound(s: State, c: nat, page: nat, word: nat, pool: set<nat>)
    requires Sound(s, pool) && c < |s.cores| && page in s.cores[c].pages
    ensures Sound(s.(next := s.next[page := word]), pool)
  {
    hide InHand, OneInHand, Current, ListIsStack, Conserved, Exclusive;
    var s2 := s.(next := s.next[page := word]);
    ScribbledHands(s, s2, c, page, pool);
    ScribbledList(s, s2, page, word);
    forall d | 0 <= d < |s.cores|
      ensures Current(s2, s2.cores[d].pc)
    {
      ScribbledCore(s, s2, c, d, page, word, pool);
    }
  }

  lemma ScribbledHands(s: State, s2: State, c: nat, page: nat, pool: set<nat>)
    requires Conserved(s, pool) && Exclusive(s) && s2 == s.(next := s2.next)
    requires c < |s.cores| && page in s.cores[c].pages
    ensures Conserved(s2, pool) && Exclusive(s2) && page !in s.stack
  {
    assert page in InHand(s.cores[c]);
    hide InHand, OneInHand;
  }

  lemma ScribbledList(s: State, s2: State, page: nat, word: nat)
    requires ListIsStack(s) && page !in s.stack && s2 == s.(next := s.next[page := word])
    ensures ListIsStack(s2)
  {
    assert forall j :: 0 <= j < |s.stack| ==> s.stack[j] != page && LinkAt(s2, s.stack[j]) == LinkAt(s, s.stack[j]);
  }

  lemma ScribbledCore(s: State, s2: State, c: nat, d: nat, page: nat, word: nat, pool: set<nat>)
    requires Conserved(s, pool) && c < |s.cores| && d < |s.cores| && page in s.cores[c].pages
    requires s2 == s.(next := s.next[page := word]) && Current(s, s.cores[d].pc)
    ensures Current(s2, s.cores[d].pc)
  {
    assert OneInHand(s.cores[d]);
    var pc := s.cores[d].pc;
    if pc.FreeStore? {
      assert pc.page in InHand(s.cores[d]) && page in InHand(s.cores[c]);
      hide InHand, OneInHand;
      assert pc.page != page;
    }
    hide Conserved;
  }

  /** The step that takes the first page off the list. */
  lemma PopSound(s: State, c: nat, pool: set<nat>)
    requires Sound(s, pool) && c < |s.cores| && s.cores[c].pc.GetStore?
    ensures s.stack != [] && s.cores[c].pc.page == s.stack[0]
    ensures Sound(Do(true, s, c, Step), pool)
  {
    var s2 := Do(true, s, c, Step);
    assert Current(s, s.cores[c].pc);
    assert s.stack[0] in s.stack && s.stack[0] != 0;
    Alone(s, c);
    assert InHand(s2.cores[c]) == InHand(s.cores[c]) + {s.stack[0]} && OneInHand(s2.cores[c]);
    MovedAlone(s, s2, c);
    hide InHand, OneInHand, Conserved, ListIsStack, Exclusive, Current;
    PoppedHands(s, s2, c, s2.cores[c], pool);
    PoppedList(s, s2);
  }

  lemma PoppedList(s: State, s2: State)
    requires ListIsStack(s) && s.stack != [] && s2.stack == s.stack[1..] && s2.head == LinkTo(s, 1)
    requires s2.next == s.next && s2.terminal == s.terminal
    ensures ListIsStack(s2)
  {
    assert forall p :: LinkAt(s2, p) == LinkAt(s, p);
    assert forall k :: 0 <= k ==> LinkTo(s2, k) == LinkTo(s, k + 1);
    assert forall k :: 0 <= k < |s2.stack| ==> s2.stack[k] == s.stack[k + 1];
    hide LinkAt, LinkTo;
  }

  /** The step that puts a page in front of the list. */
  lemma PushSound(s: State, c: nat, pool: set<nat>)
    requires Sound(s, pool) && c < |s.cores| && s.cores[c].pc.FreeStore?
    ensures Sound(Do(true, s, c, Step), pool)
  {
    var s2 := Do(true, s, c, Step);
    var p := s.cores[c].pc.page;
    assert Current(s, s.cores[c].pc) && p in InHand(s.cores[c]) && OneInHand(s.cores[c]);
    Alone(s, c);
    assert InHand(s2.cores[c]) == InHand(s.cores[c]) - {p} && OneInHand(s2.cores[c]);
    MovedAlone(s, s2, c);
    hide InHand, OneInHand, ListIsStack, Exclusive, Current;
    assert p !in s.stack;
    hide Conserved;
    PushedHands(s, s2, c, s2.cores[c], pool, p);
    PushedList(s, s2, p);
  }

  lemma PushedList(s: State, s2: State, p: nat)
    requires ListIsStack(s) && p !in s.stack && LinkAt(s, p) == s.head
    requires s2.stack == [p] + s.stack && s2.head == p && s2.next == s.next && s2.terminal == s.terminal
    ensures ListIsStack(s2)
  {
    assert forall q :: LinkAt(s2, q) == LinkAt(s, q);
    assert forall k :: 0 <= k ==> LinkTo(s2, k + 1) == LinkTo(s, k);
    assert forall j :: 0 < j < |s2.stack| ==> s2.stack[j] == s.stack[j - 1];
    hide LinkAt, LinkTo;
  }

  /** The step that links a page to the rest of the list. */
  lemma LinkSound(s: State, c: nat, pool: set<nat>)
    requires Sound(s, pool) && c < |s.cores| && s.cores[c].pc.FreeLink?
    ensures Sound(Do(true, s, c, Step), pool)
  {
    var s2 := Do(true, s, c, Step);
    var p := s.cores[c].pc.page;
    assert Current(s, s.cores[c].pc) && p in InHand(s.cores[c]) && OneInHand(s.cores[c]);
    Alone(s, c);
    assert InHand(s2.cores[c]) == InHand(s.cores[c]) && OneInHand(s2.cores[c]);
    MovedAlone(s, s2, c);
    hide InHand, OneInHand, Exclusive, Current;
    assert p !in s.stack;
    SameHands(s, s2, c, s2.cores[c], pool);
    hide Conserved;
    assert forall j :: 0 <= j < |s.stack| ==> s.stack[j] != p && LinkAt(s2, s.stack[j]) == LinkAt(s, s.stack[j]);
  }

  lemma NobodyInside(intended: bool, s: State, c: nat)
    requires Guarded(intended, s) && c < |s.cores| && (intended ==> !s.locked)
    ensures forall d :: 0 <= d < |s.cores| && d != c ==> !InSection(s.cores[d].pc)
  {}

  /** Every step, of every core, keeps the invariant. */
  lemma StepSound(intended: bool, s: State, c: nat, a: Action, pool: set<nat>)
    requires Sound(s, pool) && Guarded(intended, s) && Enabled(s, c, a)
    ensures Sound(Do(intended, s, c, a), pool)
  {
    var s2 := Do(intended, s, c, a);
    var core := s.cores[c];
    assert Current(s, core.pc) && OneInHand(core);
    if a.Scribble? {
      ScribbleSound(s, c, a.page, a.word, pool);
    } else if a.Step? && core.pc.GetStore? {
      PopSound(s, c, pool);
    } else if a.Step? && core.pc.FreeStore? {
      PushSound(s, c, pool);
    } else if a.Step? && core.pc.FreeLink? {
      LinkSound(s, c, pool);
    } else {
      QuietStep(intended, s, c, a, pool);
    }
    hide Sound;
  }

  /** The steps that do not write to the list. */
  lemma QuietStep(intended: bool, s: State, c: nat, a: Action, pool: set<nat>)
    requires Sound(s, pool) && Guarded(intended, s) && Enabled(s, c, a) && !a.Scribble?
    requires a.Step? ==> !s.cores[c].pc.GetStore? && !s.cores[c].pc.FreeStore? && !s.cores[c].pc.FreeLink?
    ensures Sound(Do(intended, s, c, a), pool)
  {
    var s2 := Do(intended, s, c, a);
    QuietHand(intended, s, c, a);
    ListTop(s, pool);
    assert Current(s, s.cores[c].pc);
    QuietCurrent(intended, s, c, a);
    if s2 != s {
      QuietEntry(intended, s, c, a);
      hide Guarded, Enabled, InHand, OneInHand, Current, Sound, Do;
      MovedOn(s, s2, c, s2.cores[c], pool);
    }
    hide *;
  }

  lemma QuietHand(intended: bool, s: State, c: nat, a: Action)
    requires Enabled(s, c, a) && OneInHand(s.cores[c]) && !a.Scribble?
    requires a.Step? ==> !s.cores[c].pc.GetStore? && !s.cores[c].pc.FreeStore?
    ensures InHand(Do(intended, s, c, a).cores[c]) == InHand(s.cores[c]) && OneInHand(Do(intended, s, c, a).cores[c])
  {
    var pages := s.cores[c].pages;
    if a.CallFree? {
      assert (pages - {a.page}) + {a.page} == pages;
    } else if a.Step? && s.cores[c].pc.GetDone? {
      var r := s.cores[c].pc.result;
      assert (pages + if r == 0 then {} else {r}) + {} == pages + if r == 0 then {} else {r};
    }
  }

  lemma QuietEntry(intended: bool, s: State, c: nat, a: Action)
    requires Exclusive(s) && Guarded(intended, s) && Enabled(s, c, a) && !a.Scribble? && Do(intended, s, c, a) != s
    ensures InSection(Do(intended, s, c, a).cores[c].pc) ==>
      forall d :: 0 <= d < |s.cores| && d != c ==> !InSection(s.cores[d].pc)
  {
    if InSection(s.cores[c].pc) {
      Alone(s, c);
    } else if InSection(Do(intended, s, c, a).cores[c].pc) {
      NobodyInside(intended, s, c);
    }
  }

  /** What the list says about the head: it ends there or leads to the second page. */
  lemma ListTop(s: State, pool: set<nat>)
    requires Sound(s, pool)
    ensures s.stack == [] <==> s.head == s.terminal
    ensures s.head == LinkTo(s, 0) && (s.stack != [] ==> LinkAt(s, s.stack[0]) == LinkTo(s, 1))
  {
    assert s.stack != [] ==> s.stack[0] in s.stack;
  }

  lemma QuietCurrent(intended: bool, s: State, c: nat, a: Action)
    requires Enabled(s, c, a) && !a.Scribble? && Current(s, s.cores[c].pc)
    requires s.stack == [] <==> s.head == s.terminal
    requires s.head == LinkTo(s, 0) && (s.stack != [] ==> LinkAt(s, s.stack[0]) == LinkTo(s, 1))
    requires a.Step? ==> !s.cores[c].pc.GetStore? && !s.cores[c].pc.FreeStore? && !s.cores[c].pc.FreeLink?
    ensures var s2 := Do(intended, s, c, a);
      && s2.cores == s.cores[c := s2.cores[c]] && s2.stack == s.stack && s2.terminal == s.terminal
      && s2.next == s.next && s2.head == s.head && Current(s2, s2.cores[c].pc)
  {
    hide LinkAt;
  }

  // ----- Runs, with free_page taking the lock -----

  lemma LockStep(s: State, c: nat, a: Action)
    requires Exclusive(s) && LockIsHeld(s) && Enabled(s, c, a)
    ensures LockIsHeld(Do(true, s, c, a))
  {
    var s2 := Do(true, s, c, a);
    if InSection(s2.cores[c].pc) {
      assert s2.locked;
    } else if InSection(s.cores[c].pc) {
      Alone(s, c);
    } else if s2.locked {
      var d :| 0 <= d < |s.cores| && InSection(s.cores[d].pc);
      assert InSection(s2.cores[d].pc);
    }
  }

  /** Which core does what, in order. */
  type Run = seq<(nat, Action)>

  /** Every action of the run is possible when its turn comes. */
  predicate Possible(intended: bool, s: State, run: Run)
    decreases |run|
  {
    run == [] || (Enabled(s, run[0].0, run[0].1) && Possible(intended, Do(intended, s, run[0].0, run[0].1), run[1..]))
  }

  function After(intended: bool, s: State, run: Run): State
    requires Possible(intended, s, run)
    decreases |run|
  {
    if run == [] then s else After(intended, Do(intended, s, run[0].0, run[0].1), run[1..])
  }

  /** All cores outside, no page handed out, and the list of the pool in memory. */
  ghost predicate Initial(s: State, pool: set<nat>) {
    && !s.locked && ListIsStack(s) && 0 !in pool && s.terminal !in pool
    && (forall p :: p in pool <==> p in s.stack)
    && forall c :: 0 <= c < |s.cores| ==> s.cores[c] == Core(Idle, {})
  }

  lemma InitialSound(s: State, pool: set<nat>)
    requires Initial(s, pool)
    ensures Sound(s, pool) && LockIsHeld(s)
  {}

  /** In every state of every run no page is held twice or lost, and the list is the stack. */
  lemma {:induction false} RunSound(s: State, run: Run, pool: set<nat>)
    requires Sound(s, pool) && LockIsHeld(s) && Possible(true, s, run)
    ensures Sound(After(true, s, run), pool) && LockIsHeld(After(true, s, run))
    decreases |run|
  {
    hide Sound, LockIsHeld, Do;
    if run != [] {
      Stepped(s, run[0].0, run[0].1, pool);
      RunSound(Do(true, s, run[0].0, run[0].1), run[1..], pool);
    }
  }

  lemma Stepped(s: State, c: nat, a: Action, pool: set<nat>)
    requires Sound(s, pool) && LockIsHeld(s) && Enabled(s, c, a)
    ensures Sound(Do(true, s, c, a), pool) && LockIsHeld(Do(true, s, c, a))
  {
    StepSound(true, s, c, a, pool);
    LockStep(s, c, a);
  }

  // ----- Linearizability: each call takes effect in one step between its invocation and its return -----

  /** A core as the specification sees it: outside, waiting for its effect, or with its result. */
  datatype Client =
    | Outside(pages: set<nat>)
    | WantsPage(pages: set<nat>)
    | GivesPage(pages: set<nat>, page: nat)
    | GotPage(pages: set<nat>, result: nat)
    | GavePage(pages: set<nat>)

  /** The specification: a stack of pages with atomic push and pop. */
  datatype Spec = Spec(stack: seq<nat>, clients: seq<Client>)

  /** What one atomic step does to a client and the stack. */
  ghost predicate ClientStep(stack: seq<nat>, x: Client, stack2: seq<nat>, y: Client) {
    match x
    case Outside(pages) =>
      stack2 == stack && (y == WantsPage(pages) || exists p :: p in pages && y == GivesPage(pages - {p}, p))
    case WantsPage(pages) =>
      if stack == [] then stack2 == [] && y == GotPage(pages, 0)
      else stack2 == stack[1..] && y == GotPage(pages, stack[0])
    case GivesPage(pages, p) => stack2 == [p] + stack && y == GavePage(pages)
    case GotPage(pages, r) => stack2 == stack && y == Outside(if r == 0 then pages else pages + {r})
    case GavePage(pages) => stack2 == stack && y == Outside(pages)
  }

  /** One atomic step of the specification, of client `c`. */
  ghost predicate SpecStep(x: Spec, y: Spec, c: nat) {
    && c < |x.clients| && |y.clients| == |x.clients| && y.clients == x.clients[c := y.clients[c]]
    && ClientStep(x.stack, x.clients[c], y.stack, y.clients[c])
  }

  function ClientOf(k: Core): Client {
    match k.pc
    case Idle => Outside(k.pages)
    case GetSpin => WantsPage(k.pages)
    case GetRead => WantsPage(k.pages)
    case GetNext(_) => WantsPage(k.pages)
    case GetStore(_, _) => WantsPage(k.pages)
    case GetDone(r) => GotPage(k.pages, r)
    case FreeSpin(p) => GivesPage(k.pages, p)
    case FreeRead(p) => GivesPage(k.pages, p)
    case FreeLink(p, _) => GivesPage(k.pages, p)
    case FreeStore(p) => GivesPage(k.pages, p)
    case FreeDone => GavePage(k.pages)
  }

  function SpecOf(s: State): Spec {
    Spec(s.stack, seq(|s.cores|, c requires 0 <= c < |s.cores| => ClientOf(s.cores[c])))
  }

  lemma CoreStep(s: State, c: nat, a: Action)
    requires Enabled(s, c, a) && Current(s, s.cores[c].pc) && (s.stack == [] <==> s.head == s.terminal)
    ensures var s2 := Do(true, s, c, a);
      && s2.cores == s.cores[c := s2.cores[c]]
      && ((s2.stack == s.stack && ClientOf(s2.cores[c]) == ClientOf(s.cores[c]))
          || ClientStep(s.stack, ClientOf(s.cores[c]), s2.stack, ClientOf(s2.cores[c])))
  {
    if a.CallFree? {
      assert a.page in s.cores[c].pages;
    } else if a.Step? && s.cores[c].pc.GetDone? {
      assert s.cores[c].pages + {} == s.cores[c].pages;
    }
  }

  /** Every step of the code is one step of the specification, or none. */
  lemma StepRefines(s: State, c: nat, a: Action, pool: set<nat>)
    requires Sound(s, pool) && Enabled(s, c, a)
    ensures SpecOf(Do(true, s, c, a)) == SpecOf(s) || SpecStep(SpecOf(s), SpecOf(Do(true, s, c, a)), c)
  {
    var s2 := Do(true, s, c, a);
    ListTop(s, pool);
    assert Current(s, s.cores[c].pc);
    CoreStep(s, c, a);
    hide Do, ClientOf, ClientStep, Enabled, Sound;
    assert SpecOf(s2).clients == SpecOf(s).clients[c := ClientOf(s2.cores[c])];
  }

  /** So every run of the code is a run of the specification, with pauses. */
  lemma {:induction false} RunRefines(s: State, run: Run, pool: set<nat>) returns (trace: seq<Spec>)
    requires Sound(s, pool) && LockIsHeld(s) && Possible(true, s, run)
    ensures |trace| == |run| + 1 && trace[0] == SpecOf(s) && trace[|run|] == SpecOf(After(true, s, run))
    ensures forall i :: 0 <= i < |run| ==> trace[i + 1] == trace[i] || SpecStep(trace[i], trace[i + 1], run[i].0)
    decreases |run|
  {
    trace := [SpecOf(s)];
    hide SpecOf, Do, SpecStep, Sound, LockIsHeld;
    if run != [] {
      var s2 := Do(true, s, run[0].0, run[0].1);
      StepRefines(s, run[0].0, run[0].1, pool);
      Stepped(s, run[0].0, run[0].1, pool);
      var rest := RunRefines(s2, run[1..], pool);
      trace := trace + rest;
      forall i | 0 <= i < |run|
        ensures trace[i + 1] == trace[i] || SpecStep(trace[i], trace[i + 1], run[i].0)
      {
        assert trace[i + 1] == rest[i] && (i > 0 ==> trace[i] == rest[i - 1] && run[i] == run[1..][i - 1]);
      }
    }
  }

  // ----- free_page as written: its first call releases the lock -----

  lemma {:induction false} OneMore(intended: bool, s: State, run: Run, c: nat, a: Action)
    requires Possible(intended, s, run) && Enabled(After(intended, s, run), c, a)
    ensures Possible(intended, s, run + [(c, a)])
    ensures After(intended, s, run + [(c, a)]) == Do(intended, After(intended, s, run), c, a)
    decreases |run|
  {
    hide Do, Enabled;
    if run == [] {
      assert run + [(c, a)] == [(c, a)];
    } else {
      assert (run + [(c, a)])[1..] == run[1..] + [(c, a)];
      OneMore(intended, Do(intended, s, run[0].0, run[0].1), run[1..], c, a);
    }
  }

  /** Core `c` takes `n` steps on. */
  lemma {:induction false} GoOn(s: State, run: Run, c: nat, n: nat) returns (run2: Run)
    requires Possible(false, s, run) && CanStep(After(false, s, run), c, n)
    ensures Possible(false, s, run2) && After(false, s, run2) == Stepping(After(false, s, run), c, n)
    decreases n
  {
    run2 := run;
    if n > 0 {
      OneMore(false, s, run, c, Step);
      run2 := GoOn(s, run + [(c, Step)], c, n - 1);
    }
  }

  predicate CanStep(s: State, c: nat, n: nat)
    decreases n
  {
    n == 0 || (Enabled(s, c, Step) && CanStep(Do(false, s, c, Step), c, n - 1))
  }

  function Stepping(s: State, c: nat, n: nat): State
    requires CanStep(s, c, n)
    decreases n
  {
    if n == 0 then s else Stepping(Do(false, s, c, Step), c, n - 1)
  }

  /** A whole get_page of core `c`, alone. */
  lemma WholeGet(s: State, c: nat)
    requires c < |s.cores| && s.cores[c].pc.GetSpin? && !s.locked && s.head != s.terminal && s.head != 0
    ensures CanStep(s, c, 5)
    ensures var t := Stepping(s, c, 5);
      && !t.locked && t.head == LinkAt(s, s.head) && t.next == s.next && t.terminal == s.terminal
      && t.cores == s.cores[c := Core(Idle, s.cores[c].pages + {s.head})]
  {
    var s1 := Do(false, s, c, Step);
    var s2 := Do(false, s1, c, Step);
    var s3 := Do(false, s2, c, Step);
    var s4 := Do(false, s3, c, Step);
    var s5 := Do(false, s4, c, Step);
    assert s4.cores[c] == Core(GetDone(s.head), s.cores[c].pages);
    assert CanStep(s4, c, 1) && Stepping(s4, c, 1) == s5;
    assert CanStep(s3, c, 2) && Stepping(s3, c, 2) == s5;
    assert CanStep(s2, c, 3) && Stepping(s2, c, 3) == s5;
    assert CanStep(s1, c, 4) && Stepping(s1, c, 4) == s5;
  }

  /** The free_page of core `c` as written, up to its last release: it takes no lock. */
  lemma WrittenFree(s: State, c: nat)
    requires c < |s.cores| && s.cores[c].pc.FreeSpin?
    ensures CanStep(s, c, 4)
    ensures var t, p := Stepping(s, c, 4), s.cores[c].pc.page;
      && !t.locked && t.head == p && t.next == s.next[p := s.head] && t.terminal == s.terminal
      && t.cores == s.cores[c := Core(FreeDone, s.cores[c].pages)]
  {
    var s1 := Do(false, s, c, Step);
    var s2 := Do(false, s1, c, Step);
    var s3 := Do(false, s2, c, Step);
    var s4 := Do(false, s3, c, Step);
    assert s3.cores[c] == Core(FreeStore(s.cores[c].pc.page), s.cores[c].pages);
    assert CanStep(s3, c, 1) && Stepping(s3, c, 1) == s4;
    assert CanStep(s2, c, 2) && Stepping(s2, c, 2) == s4;
    assert CanStep(s1, c, 3) && Stepping(s1, c, 3) == s4;
  }

  /** A get_page of core `c` up to the point where it has read the head of the list. */
  lemma HalfGet(s: State, c: nat)
    requires c < |s.cores| && s.cores[c].pc.GetSpin? && !s.locked && s.head != s.terminal
    ensures CanStep(s, c, 2)
    ensures var t := Stepping(s, c, 2);
      && t.head == s.head && t.next == s.next && t.terminal == s.terminal
      && t.cores == s.cores[c := Core(GetNext(s.head), s.cores[c].pages)]
  {
    var s1 := Do(false, s, c, Step);
    var s2 := Do(false, s1, c, Step);
    assert CanStep(s1, c, 1) && Stepping(s1, c, 1) == s2;
  }

  /** The rest of that get_page, whatever happened in between. */
  lemma RestOfGet(s: State, c: nat)
    requires c < |s.cores| && s.cores[c].pc.GetNext? && s.cores[c].pc.page != 0
    ensures CanStep(s, c, 3)
    ensures Stepping(s, c, 3).cores == s.cores[c := Core(Idle, s.cores[c].pages + {s.cores[c].pc.page})]
  {
    var s1 := Do(false, s, c, Step);
    var s2 := Do(false, s1, c, Step);
    var s3 := Do(false, s2, c, Step);
    assert CanStep(s2, c, 1) && Stepping(s2, c, 1) == s3;
    assert CanStep(s1, c, 2) && Stepping(s1, c, 2) == s3;
  }

  /** The last release of a free_page. */
  lemma FinishFree(s: State, c: nat)
    requires c < |s.cores| && s.cores[c].pc.FreeDone?
    ensures CanStep(s, c, 1)
    ensures var t := Stepping(s, c, 1);
      && !t.locked && t.head == s.head && t.next == s.next && t.terminal == s.terminal
      && t.cores == s.cores[c := Core(Idle, s.cores[c].pages)]
  {
    var s1 := Do(false, s, c, Step);
    assert CanStep(s1, c, 0) && Stepping(s1, c, 0) == s1;
  }

  lemma BeginGet(s: State, run: Run, c: nat) returns (run2: Run)
    requires Possible(false, s, run) && c < |After(false, s, run).cores| && After(false, s, run).cores[c].pc.Idle?
    ensures Possible(false, s, run2) && After(false, s, run2) == At(After(false, s, run), c, GetSpin)
  {
    OneMore(false, s, run, c, CallGet);
    run2 := run + [(c, CallGet)];
  }

  lemma BeginFree(s: State, run: Run, c: nat, page: nat) returns (run2: Run)
    requires Possible(false, s, run) && c < |After(false, s, run).cores|
    requires After(false, s, run).cores[c].pc.Idle? && page in After(false, s, run).cores[c].pages
    ensures Possible(false, s, run2)
    ensures var t := After(false, s, run);
      After(false, s, run2) == t.(cores := t.cores[c := Core(FreeSpin(page), t.cores[c].pages - {page})])
  {
    OneMore(false, s, run, c, CallFree(page));
    run2 := run + [(c, CallFree(page))];
  }

  /** Core 0 has got the first page and is freeing it: it has put it back, but not yet released the lock it never
      took. */
  lemma FreedTooEarly(s: State, pool: set<nat>) returns (run: Run)
    requires Initial(s, pool) && |s.cores| >= 2 && s.stack != []
    ensures Possible(false, s, run)
    ensures var t, page := After(false, s, run), s.stack[0];
      && !t.locked && t.head == page && page != 0 && page != t.terminal
      && t.cores == s.cores[0 := Core(FreeDone, {})] && s.cores[1] == Core(Idle, {})
  {
    var page := s.stack[0];
    assert page in s.stack && page in pool && s.head == page && 0 < |s.cores| && s.cores[0] == Core(Idle, {});
    run := [];
    hide Do, CanStep, Stepping, Possible, After, Initial, LinkAt;
    run := BeginGet(s, run, 0);
    WholeGet(After(false, s, run), 0);
    run := GoOn(s, run, 0, 5);
    run := BeginFree(s, run, 0, page);
    WrittenFree(After(false, s, run), 0);
    run := GoOn(s, run, 0, 4);
  }

  /** Two cores and one page are enough: core 0 frees while core 1 is inside get_page, gets the same page again,
      and then core 1 returns it too. */
  lemma DoubleHold(s: State, pool: set<nat>) returns (run: Run)
    requires Initial(s, pool) && |s.cores| >= 2 && s.stack != []
    ensures Possible(false, s, run) && |After(false, s, run).cores| == |s.cores|
    ensures s.stack[0] in After(false, s, run).cores[0].pages && s.stack[0] in After(false, s, run).cores[1].pages
  {
    hide Do, CanStep, Stepping, Possible, After, Initial, LinkAt;
    run := FreedTooEarly(s, pool);
    run := BeginGet(s, run, 1);
    HalfGet(After(false, s, run), 1);
    run := GoOn(s, run, 1, 2);
    FinishFree(After(false, s, run), 0);
    run := GoOn(s, run, 0, 1);
    run := BeginGet(s, run, 0);
    WholeGet(After(false, s, run), 0);
    run := GoOn(s, run, 0, 5);
    RestOfGet(After(false, s, run), 1);
    run := GoOn(s, run, 1, 3);
  }

  lemma {:induction false} AloneSound(s: State, run: Run, pool: set<nat>)
    requires Sound(s, pool) && |s.cores| <= 1 && Possible(false, s, run)
    ensures Sound(After(false, s, run), pool)
    decreases |run|
  {
    if run != [] {
      StepSound(false, s, run[0].0, run[0].1, pool);
      CoresStay(false, s, run[0].0, run[0].1);
      hide Do, Sound;
      AloneSound(Do(false, s, run[0].0, run[0].1), run[1..], pool);
    }
  }

  lemma CoresStay(intended: bool, s: State, c: nat, a: Action)
    requires Enabled(s, c, a)
    ensures |Do(intended, s, c, a).cores| == |s.cores|
  {}

  lemma FreeingHolds(k: Core)
    ensures InHand(k) == {} ==> !k.pc.FreeSpin?
  {
    if k.pc.FreeSpin? {
      assert k.pc.page in InHand(k);
    }
  }

  /** With no pages there is nothing to free, and without free_page nothing is amiss. */
  lemma {:induction false} EmptySound(s: State, run: Run)
    requires Sound(s, {}) && LockIsHeld(s) && Possible(false, s, run)
    ensures Sound(After(false, s, run), {})
    decreases |run|
  {
    if run != [] {
      var c, a := run[0].0, run[0].1;
      assert InHand(s.cores[c]) <= {};
      FreeingHolds(s.cores[c]);
      assert Do(false, s, c, a) == Do(true, s, c, a);
      hide Do, Sound, LockIsHeld;
      Stepped(s, c, a, {});
      EmptySound(Do(false, s, c, a), run[1..]);
    }
  }

  lemma HeldTwice(t: State, pool: set<nat>, page: nat)
    requires |t.cores| >= 2 && page in t.cores[0].pages && page in t.cores[1].pages
    ensures !Sound(t, pool)
  {
    assert page in InHand(t.cores[0]) && page in InHand(t.cores[1]);
  }

  /** With free_page as written, all runs are sound exactly when there is one core, or no page at all. */
  lemma WrittenFreePageSound(s: State, pool: set<nat>)
    requires Initial(s, pool)
    ensures (forall run :: Possible(false, s, run) ==> Sound(After(false, s, run), pool))
       <==> |s.cores| <= 1 || s.stack == []
  {
    InitialSound(s, pool);
    if |s.cores| >= 2 && s.stack != [] {
      var run := DoubleHold(s, pool);
      HeldTwice(After(false, s, run), pool, s.stack[0]);
    } else {
      assert s.stack == [] ==> pool == {};
      hide Sound, LockIsHeld, Possible, After;
      forall run | Possible(false, s, run)
        ensures Sound(After(false, s, run), pool)
      {
        if |s.cores| <= 1 {
          AloneSound(s, run, pool);
        } else {
          EmptySound(s, run);
        }
      }
    }
  }

  // ----- The steps are those of the code -----

  /** What a step does to the lock and the list. */
  function EventOf(pc: Pc): seq<PaAlloc.Event> {
    match pc
    case Idle => []
    case GetSpin => [PaAlloc.LockTaken]
    case GetRead => [PaAlloc.HeadRead]
    case GetNext(_) => [PaAlloc.LinkRead]
    case GetStore(_, _) => [PaAlloc.HeadWritten]
    case GetDone(_) => [PaAlloc.LockFreed]
    case FreeSpin(_) => [PaAlloc.LockTaken]
    case FreeRead(_) => [PaAlloc.HeadRead]
    case FreeLink(_, _) => [PaAlloc.LinkWritten]
    case FreeStore(_) => [PaAlloc.HeadWritten]
    case FreeDone => [PaAlloc.LockFreed]
  }

  /** What a core does from here until its call is over, if no other core comes in between. */
  function Events(s: State, c: nat, n: nat): seq<PaAlloc.Event>
    decreases n
  {
    if n == 0 || !Enabled(s, c, Step) then []
    else EventOf(s.cores[c].pc) + Events(Do(true, s, c, Step), c, n - 1)
  }

  lemma EventFirst(s: State, c: nat, n: nat)
    requires n > 0 && Enabled(s, c, Step)
    ensures Events(s, c, n) == EventOf(s.cores[c].pc) + Events(Do(true, s, c, Step), c, n - 1)
  {}

  lemma EventsOver(s: State, c: nat, n: nat)
    requires c < |s.cores| && s.cores[c].pc.Idle?
    ensures Events(s, c, n) == []
  {}

  /** A core that finds the lock free takes it, reads the head, unlinks the first page if there is one, and frees the
      lock: the events of `PaAlloc.GetPage`, in their order. */
  lemma GetEvents(s: State, c: nat)
    requires c < |s.cores| && s.cores[c].pc.GetSpin? && !s.locked
    ensures Events(s, c, 6) == if s.head == s.terminal then [PaAlloc.LockTaken, PaAlloc.HeadRead, PaAlloc.LockFreed]
      else [PaAlloc.LockTaken, PaAlloc.HeadRead, PaAlloc.LinkRead, PaAlloc.HeadWritten, PaAlloc.LockFreed]
  {
    hide Events;
    var s1 := Do(true, s, c, Step);
    var s2 := Do(true, s1, c, Step);
    var s3 := Do(true, s2, c, Step);
    EventFirst(s, c, 6);
    EventFirst(s1, c, 5);
    EventFirst(s2, c, 4);
    if s.head == s.terminal {
      EventsOver(s3, c, 3);
    } else {
      var s4 := Do(true, s3, c, Step);
      EventFirst(s3, c, 3);
      EventFirst(s4, c, 2);
      EventsOver(Do(true, s4, c, Step), c, 1);
    }
  }

  /** The events of `PaAlloc.FreePage`. */
  lemma FreeEvents(s: State, c: nat)
    requires c < |s.cores| && s.cores[c].pc.FreeSpin? && !s.locked
    ensures Events(s, c, 6) ==
      [PaAlloc.LockTaken, PaAlloc.HeadRead, PaAlloc.LinkWritten, PaAlloc.HeadWritten, PaAlloc.LockFreed]
  {
    hide Events;
    var s1 := Do(true, s, c, Step);
    var s2 := Do(true, s1, c, Step);
    var s3 := Do(true, s2, c, Step);
    var s4 := Do(true, s3, c, Step);
    EventFirst(s, c, 6);
    EventFirst(s1, c, 5);
    EventFirst(s2, c, 4);
    EventFirst(s3, c, 3);
    EventFirst(s4, c, 2);
    EventsOver(Do(true, s4, c, Step), c, 1);
  }

  /** An idle core can call get_page, and free_page for any page it holds; a busy one can go on; and a core can write to
      any page it holds. */
  lemma CoreCanAct(s: State, c: nat, page: nat, word: nat)
    requires c < |s.cores|
    ensures if s.cores[c].pc.Idle? then Enabled(s, c, CallGet) else Enabled(s, c, Step)
    ensures page in s.cores[c].pages ==> Enabled(s, c, Scribble(page, word))
    ensures page in s.cores[c].pages && s.cores[c].pc.Idle? ==> Enabled(s, c, CallFree(page))
  {}
}
