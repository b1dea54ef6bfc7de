/** The spin locks of speenlock.c on many cores, with interrupts: test and set coupled to the interrupt mask. */
module Locks {

  /** Data that cores share: the list of free pages, the two arrays of tasks with their counters, the output. */
  datatype Datum = FreeList | RunQueue | Output

  /** The instructions of acquire and release, and what stands between them. */
  datatype Op =
    | Disable                // disable_irq
    | TestAndSet(lock: nat)  // repeated until it finds the lock clear
    | Note(lock: nat)        // cpu_num and name
    | Work(on: Datum)        // one instruction of the section itself, on the data the lock is for
    | Unname(lock: nat)      // name again
    | Clear(lock: nat)       // atomic clear
    | Enable                 // enable_irq

  /** The critical sections of the kernel. */
  datatype Section = GetPage | FreePage | GetLast | Refill | SwitchTo | Fork | Printf

  /** pa_alloc_lock, tasks_lock and the lock of printf. */
  function LockOfSection(section: Section): nat {
    match section
    case GetPage => 0
    case FreePage => 0
    case Printf => 2
    case _ => 1
  }

  const LOCKS: nat := 3

  /** What a section reads and writes. */
  function Uses(section: Section): Datum {
    match section
    case GetPage => FreeList
    case FreePage => FreeList
    case GetLast => RunQueue
    case Refill => RunQueue
    case SwitchTo => RunQueue
    case Fork => RunQueue
    case Printf => Output
  }

  /** The lock that guards it. */
  function Guard(x: Datum): nat {
    match x
    case FreeList => 0
    case RunQueue => 1
    case Output => 2
  }

  function Works(x: Datum, n: nat): seq<Op> {
    if n == 0 then [] else [Work(x)] + Works(x, n - 1)
  }

  /** A section with `n` instructions of its own; free_page with the acquire it is meant to begin with. */
  function Code(section: Section, n: nat): seq<Op> {
    var l := LockOfSection(section);
    [Disable, TestAndSet(l), Note(l)] + Works(Uses(section), n) + [Unname(l), Clear(l), Enable]
  }

  /** A core: its interrupt mask, and what is left of its calls, innermost last; an interrupt handler is a call on
      top. */
  datatype Core = Core(masked: bool, frames: seq<seq<Op>>)

  datatype State = State(locked: seq<bool>, cpuNum: seq<int>, cores: seq<Core>)

  /** Besides running a section, code sets and clears the mask at will outside of them. */
  datatype Action = Call(section: Section, n: nat) | Step | SetMask(masked: bool) | Interrupt | Return

  function Top(k: Core): seq<Op>
    requires k.frames != []
  {
    k.frames[|k.frames| - 1]
  }

  function WithTop(k: Core, code: seq<Op>): Core
    requires k.frames != []
  {
    k.(frames := k.frames[|k.frames| - 1 := code])
  }

  predicate Formed(s: State) {
    && |s.cpuNum| == |s.locked| == LOCKS
    && forall c :: 0 <= c < |s.cores| ==> s.cores[c].frames != [] && Legal(Top(s.cores[c]))
  }

  /** An interrupt needs the mask to be off; a handler returns when it is outside its own sections. */
  predicate Enabled(s: State, c: nat, a: Action) {
    && Formed(s) && c < |s.cores|
    && match a
       case Call(_, _) => Top(s.cores[c]) == []
       case Step => Top(s.cores[c]) != []
       case SetMask(_) => Top(s.cores[c]) == []
       case Interrupt => !s.cores[c].masked
       case Return => |s.cores[c].frames| > 1 && Top(s.cores[c]) == []
  }

  function Put(s: State, c: nat, k: Core): State
    requires c < |s.cores|
  {
    s.(cores := s.cores[c := k])
  }

  function Do(s: State, c: nat, a: Action): State
    requires Enabled(s, c, a)
  {
    var k := s.cores[c];
    match a
    case Call(section, n) => Put(s, c, WithTop(k, Code(section, n)))
    case SetMask(masked) => Put(s, c, k.(masked := masked))
    case Interrupt => Put(s, c, Core(true, k.frames + [[]]))
    case Return => Put(s, c, Core(false, k.frames[..|k.frames| - 1]))
    case Step =>
      var k2 := WithTop(k, Top(k)[1..]);
      LegalLock(Top(k));
      match Top(k)[0]
      case Disable => Put(s, c, k2.(masked := true))
      case TestAndSet(l) => if s.locked[l] then s else Put(s, c, k2).(locked := s.locked[l := true])
      case Note(l) => Put(s, c, k2).(cpuNum := s.cpuNum[l := c])
      case Work(_) => Put(s, c, k2)
      case Unname(_) => Put(s, c, k2)
      case Clear(l) => Put(s, c, k2).(locked := s.locked[l := false])
      case Enable => Put(s, c, k2.(masked := false))
  }

  // ----- What the code of a section looks like on its way -----

  /** The lock the rest of a section is about. */
  function LockOf(code: seq<Op>): nat {
    if code == [] then 0
    else match code[0]
      case Disable => LockOf(code[1..])
      case Work(_) => LockOf(code[1..])
      case TestAndSet(l) => l
      case Note(l) => l
      case Unname(l) => l
      case Clear(l) => l
      case Enable => 0
  }

  /** The rest of a section on one lock: acquired once, released once, no other lock touched. */
  predicate InOrder(code: seq<Op>, l: nat) {
    |code| > 1 && match code[0]
      case Disable => code[1] == TestAndSet(l) && InOrder(code[1..], l)
      case TestAndSet(m) => m == l && code[1] == Note(l) && InOrder(code[1..], l)
      case Note(m) => m == l && (code[1].Work? || code[1].Unname?) && InOrder(code[1..], l)
      case Work(x) => Guard(x) == l && (code[1].Work? || code[1].Unname?) && InOrder(code[1..], l)
      case Unname(m) => m == l && code[1..] == [Clear(l), Enable]
      case Clear(m) => m == l && code[1..] == [Enable]
      case Enable => false
  }

  predicate Legal(code: seq<Op>) {
    code == [] || code == [Enable] || (LockOf(code) < LOCKS && InOrder(code, LockOf(code)))
  }

  lemma LegalLock(code: seq<Op>)
    requires Legal(code) && code != []
    ensures match code[0]
      case TestAndSet(l) => l < LOCKS
      case Note(l) => l < LOCKS
      case Clear(l) => l < LOCKS
      case _ => true
  {}

  /** Code that holds the lock `l`: past the test and set, before the clear. */
  predicate Holds(code: seq<Op>, l: nat) {
    code != [] && LockOf(code) == l && !code[0].Disable? && !code[0].TestAndSet? && !code[0].Enable?
  }

  /** Code that has also left its name in the lock. */
  predicate Noted(code: seq<Op>, l: nat) {
    Holds(code, l) && !code[0].Note?
  }

  lemma {:induction false} WorksInOrder(x: Datum, n: nat)
    ensures InOrder(Works(x, n) + [Unname(Guard(x)), Clear(Guard(x)), Enable], Guard(x))
    ensures LockOf(Works(x, n) + [Unname(Guard(x)), Clear(Guard(x)), Enable]) == Guard(x)
    ensures var code := Works(x, n) + [Unname(Guard(x)), Clear(Guard(x)), Enable]; code[0].Work? || code[0].Unname?
    decreases n
  {
    var code := Works(x, n) + [Unname(Guard(x)), Clear(Guard(x)), Enable];
    if n == 0 {
      assert code == [Unname(Guard(x)), Clear(Guard(x)), Enable];
    } else {
      WorksInOrder(x, n - 1);
      assert code[1..] == Works(x, n - 1) + [Unname(Guard(x)), Clear(Guard(x)), Enable];
    }
  }

  /** Each of the seven sections acquires its lock once and nothing else before it releases it. */
  lemma SectionLegal(section: Section, n: nat)
    ensures Legal(Code(section, n)) && Code(section, n)[0] == Disable
    ensures forall l :: !Holds(Code(section, n), l)
  {
    var l := LockOfSection(section);
    var rest := Works(Uses(section), n) + [Unname(l), Clear(l), Enable];
    WorksInOrder(Uses(section), n);
    var code := Code(section, n);
    assert code == [Disable, TestAndSet(l), Note(l)] + rest;
    assert code[1..] == [TestAndSet(l), Note(l)] + rest && code[1..][1..] == [Note(l)] + rest;
    assert ([Note(l)] + rest)[1..] == rest;
    assert InOrder([Note(l)] + rest, l);
    assert InOrder(code[1..], l);
    assert InOrder(code, l) && LockOf(code) == l;
  }

  lemma {:induction false} WorksAt(x: Datum, n: nat)
    ensures |Works(x, n)| == n && forall i :: 0 <= i < n ==> Works(x, n)[i] == Work(x)
  {
    if n > 0 {
      WorksAt(x, n - 1);
    }
  }

  /** The code of a section, instruction by instruction: the mask, the lock of its data, the lock's name, its work on
      that data, and back. */
  lemma SectionCode(section: Section, n: nat, i: nat)
    requires i < n + 6
    ensures var g := if section in {GetPage, FreePage} then 0 else if section == Printf then 2 else 1;
      |Code(section, n)| == n + 6 && Code(section, n)[i] ==
        if i == 0 then Disable else if i == 1 then TestAndSet(g) else if i == 2 then Note(g)
        else if i < n + 3 then Work(if g == 0 then FreeList else if g == 1 then RunQueue else Output)
        else if i == n + 3 then Unname(g) else if i == n + 4 then Clear(g) else Enable
  {
    WorksAt(Uses(section), n);
    hide Works;
  }

  lemma {:induction false} OneLock(code: seq<Op>, l: nat)
    requires InOrder(code, l)
    ensures LockOf(code) == l
    decreases |code|
  {
    if code[0].Disable? || code[0].Work? {
      OneLock(code[1..], l);
    }
  }

  /** One instruction on: the rest is legal again, and about the same lock until that is cleared. */
  lemma StepLegal(code: seq<Op>)
    requires Legal(code) && code != []
    ensures Legal(code[1..])
    ensures code[1..] != [] ==> !code[1].Disable?
    ensures code[0].Disable? ==> forall l :: !Holds(code[1..], l)
    ensures code[0].TestAndSet? ==> forall l :: Holds(code[1..], l) <==> l == code[0].lock
    ensures code[0].Note? || code[0].Work? || code[0].Unname? ==> forall l :: Holds(code[1..], l) <==> Holds(code, l)
    ensures code[0].Note? || code[0].Work? || code[0].Unname? ==> code[1..] != [] && !code[1].Note?
    ensures code[0].Clear? || code[0].Enable? ==> forall l :: !Holds(code[1..], l)
  {
    if code != [Enable] {
      var l := LockOf(code);
      if InOrder(code[1..], l) {
        OneLock(code[1..], l);
      }
      if code[0].Unname? {
        assert code[1..][1..] == [Enable] && code[1..][0] == Clear(l);
        assert InOrder(code[1..], l) && LockOf(code[1..]) == l;
      }
    }
  }

  // ----- The invariant -----

  /** Only the innermost call can be in a critical section, and from its disable_irq on interrupts are masked. */
  ghost predicate CoreOk(k: Core) {
    && k.frames != []
    && (forall i :: 0 <= i < |k.frames| ==> Legal(k.frames[i]))
    && (forall i :: 0 <= i < |k.frames| - 1 ==> k.frames[i] == [] || k.frames[i][0].Disable?)
    && (Top(k) != [] && !Top(k)[0].Disable? ==> k.masked)
  }

  /** No lock has two holders. */
  ghost predicate Exclusive(s: State)
    requires Formed(s)
  {
    forall c: nat, d: nat, l: nat :: c < |s.cores| && d < |s.cores| ==>
      !Holds(Top(s.cores[c]), l) || !Holds(Top(s.cores[d]), l) || c == d
  }

  /** A lock is taken exactly while it has a holder. */
  ghost predicate TakenIsHeld(s: State)
    requires Formed(s)
  {
    && (forall c: nat, l: nat :: c < |s.cores| && l < LOCKS && Holds(Top(s.cores[c]), l) ==> s.locked[l])
    && (forall l: nat :: l < LOCKS && s.locked[l] ==> exists c :: 0 <= c < |s.cores| && Holds(Top(s.cores[c]), l))
  }

  /** The lock names its holder. */
  ghost predicate HolderNoted(s: State)
    requires Formed(s)
  {
    forall c: nat, l: nat :: c < |s.cores| && l < LOCKS && Noted(Top(s.cores[c]), l) ==> s.cpuNum[l] == c
  }

  ghost predicate Inv(s: State) {
    && Formed(s) && (forall c :: 0 <= c < |s.cores| ==> CoreOk(s.cores[c]))
    && Exclusive(s) && TakenIsHeld(s) && HolderNoted(s)
  }

  // ----- Every step keeps it -----

  /** A core moves on without touching a lock: what it holds is all that matters to the rest. */
  lemma CoreMoves(s: State, s2: State, c: nat, k: Core)
    requires Inv(s) && c < |s.cores| && s2.cores == s.cores[c := k] && CoreOk(k)
    requires s2.locked == s.locked && s2.cpuNum == s.cpuNum
    requires forall l: nat :: Holds(Top(k), l) <==> Holds(Top(s.cores[c]), l)
    requires forall l: nat :: Noted(Top(k), l) ==> Noted(Top(s.cores[c]), l)
    ensures Inv(s2)
  {
    assert forall d :: 0 <= d < |s.cores| ==> CoreOk(s2.cores[d]);
    assert Formed(s2);
    hide CoreOk, Holds, Noted, Legal;
    forall l: nat | l < LOCKS && s2.locked[l]
      ensures exists d :: 0 <= d < |s2.cores| && Holds(Top(s2.cores[d]), l)
    {
      var d :| 0 <= d < |s.cores| && Holds(Top(s.cores[d]), l);
      assert Holds(Top(s2.cores[d]), l);
    }
  }

  /** The rest of the innermost call, on its core. */
  lemma CoreSteps(k: Core, masked: bool)
    requires CoreOk(k) && Top(k) != []
    requires !Top(k)[0].Enable? ==> masked
    ensures CoreOk(WithTop(k, Top(k)[1..]).(masked := masked)) && Top(WithTop(k, Top(k)[1..])) == Top(k)[1..]
  {
    StepLegal(Top(k));
    if Top(k)[0].Enable? {
      assert Top(k) == [Enable];
    }
    hide LockOf, InOrder;
  }

  /** What a step of a core with code to run leaves on that core. */
  lemma StepCore(s: State, c: nat, k2: Core)
    requires Inv(s) && c < |s.cores| && Top(s.cores[c]) != []
    requires k2 == WithTop(s.cores[c], Top(s.cores[c])[1..]).(masked := k2.masked)
    requires !Top(s.cores[c])[0].Enable? ==> k2.masked
    ensures CoreOk(k2) && Top(k2) == Top(s.cores[c])[1..]
    ensures forall s2: State :: s2.cores == s.cores[c := k2] && |s2.locked| == |s2.cpuNum| == LOCKS ==>
      Formed(s2) && forall d :: 0 <= d < |s2.cores| ==> CoreOk(s2.cores[d])
  {
    CoreSteps(s.cores[c], k2.masked);
    hide LockOf, InOrder;
  }

  /** A core takes a free lock. */
  lemma TakeLock(s: State, s2: State, c: nat, k2: Core, l: nat)
    requires Inv(s) && c < |s.cores| && l < LOCKS && !s.locked[l]
    requires s2.cores == s.cores[c := k2] && s2.locked == s.locked[l := true] && s2.cpuNum == s.cpuNum
    requires Formed(s2) && forall d :: 0 <= d < |s2.cores| ==> CoreOk(s2.cores[d])
    requires k2.frames != [] && forall i: nat :: Holds(Top(k2), i) <==> i == l
    requires forall i: nat :: !Holds(Top(s.cores[c]), i)
    requires forall i: nat :: !Noted(Top(k2), i)
    ensures Inv(s2)
  {
    hide CoreOk, Holds, Noted, Legal;
    forall i: nat | i < LOCKS && s2.locked[i]
      ensures exists d :: 0 <= d < |s2.cores| && Holds(Top(s2.cores[d]), i)
    {
      if i != l {
        var d :| 0 <= d < |s.cores| && Holds(Top(s.cores[d]), i);
        assert Holds(Top(s2.cores[d]), i);
      } else {
        assert Holds(Top(s2.cores[c]), i);
      }
    }
  }

  /** The holder leaves its number. */
  lemma NoteHolder(s: State, s2: State, c: nat, k2: Core, l: nat)
    requires Inv(s) && c < |s.cores| && l < LOCKS && Holds(Top(s.cores[c]), l)
    requires s2.cores == s.cores[c := k2] && s2.locked == s.locked && s2.cpuNum == s.cpuNum[l := c]
    requires Formed(s2) && forall d :: 0 <= d < |s2.cores| ==> CoreOk(s2.cores[d])
    requires k2.frames != [] && forall i: nat :: Holds(Top(k2), i) <==> Holds(Top(s.cores[c]), i)
    requires forall i: nat :: Holds(Top(k2), i) ==> i == l
    ensures Inv(s2)
  {
    assert forall d: nat, i: nat :: d < |s2.cores| && Noted(Top(s2.cores[d]), i) ==> Holds(Top(s2.cores[d]), i);
    hide CoreOk, Holds, Noted, Legal;
    forall i: nat | i < LOCKS && s2.locked[i]
      ensures exists d :: 0 <= d < |s2.cores| && Holds(Top(s2.cores[d]), i)
    {
      var d :| 0 <= d < |s.cores| && Holds(Top(s.cores[d]), i);
      assert Holds(Top(s2.cores[d]), i);
    }
  }

  /** The holder clears the lock. */
  lemma DropLock(s: State, s2: State, c: nat, k2: Core, l: nat)
    requires Inv(s) && c < |s.cores| && l < LOCKS && Holds(Top(s.cores[c]), l)
    requires s2.cores == s.cores[c := k2] && s2.locked == s.locked[l := false] && s2.cpuNum == s.cpuNum
    requires Formed(s2) && forall d :: 0 <= d < |s2.cores| ==> CoreOk(s2.cores[d])
    requires k2.frames != [] && forall i: nat :: !Holds(Top(k2), i)
    requires forall i: nat :: !Noted(Top(k2), i)
    requires forall i: nat :: Holds(Top(s.cores[c]), i) ==> i == l
    ensures Inv(s2)
  {
    hide CoreOk, Holds, Noted, Legal;
    forall i: nat | i < LOCKS && s2.locked[i]
      ensures exists d :: 0 <= d < |s2.cores| && Holds(Top(s2.cores[d]), i)
    {
      var d :| 0 <= d < |s.cores| && Holds(Top(s.cores[d]), i);
      assert Holds(Top(s2.cores[d]), i);
    }
  }

  lemma StepInv(s: State, c: nat, a: Action)
    requires Inv(s) && Enabled(s, c, a)
    ensures Inv(Do(s, c, a))
  {
    var k := s.cores[c];
    assert CoreOk(k);
    match a
    case Step =>
      InstructionInv(s, c);
    case Call(section, n) =>
      SectionLegal(section, n);
      hide Code, LockOf, InOrder;
      CoreMoves(s, Do(s, c, a), c, WithTop(k, Code(section, n)));
    case SetMask(masked) =>
      CoreMoves(s, Do(s, c, a), c, k.(masked := masked));
    case Interrupt =>
      CoreMoves(s, Do(s, c, a), c, Core(true, k.frames + [[]]));
    case Return =>
      CoreMoves(s, Do(s, c, a), c, Core(false, k.frames[..|k.frames| - 1]));
  }

  lemma InstructionInv(s: State, c: nat)
    requires Inv(s) && Enabled(s, c, Step)
    ensures Inv(Do(s, c, Step))
  {
    var k, s2 := s.cores[c], Do(s, c, Step);
    var code, k2 := Top(k), s2.cores[c];
    assert CoreOk(k);
    LegalLock(code);
    StepLegal(code);
    hide LockOf, InOrder;
    match code[0]
    case TestAndSet(l) =>
      if !s.locked[l] {
        StepCore(s, c, k2);
        hide Do;
        TakeLock(s, s2, c, k2, l);
      }
    case Note(l) =>
      StepCore(s, c, k2);
      hide Do;
      NoteHolder(s, s2, c, k2, l);
    case Clear(l) =>
      StepCore(s, c, k2);
      hide Do;
      DropLock(s, s2, c, k2, l);
    case _ =>
      StepCore(s, c, k2);
      CoreMoves(s, s2, c, k2);
  }

  // ----- Runs -----

  type Run = seq<(nat, Action)>

  predicate Possible(s: State, run: Run)
    decreases |run|
  {
    run == [] || (Enabled(s, run[0].0, run[0].1) && Possible(Do(s, run[0].0, run[0].1), run[1..]))
  }

  function After(s: State, run: Run): State
    requires Possible(s, run)
    decreases |run|
  {
    if run == [] then s else After(Do(s, run[0].0, run[0].1), run[1..])
  }

  ghost predicate Initial(s: State) {
    && |s.cpuNum| == |s.locked| == LOCKS && (forall l :: 0 <= l < LOCKS ==> !s.locked[l])
    && forall c :: 0 <= c < |s.cores| ==> s.cores[c].frames == [[]]
  }

  lemma {:induction false} RunInv(s: State, run: Run)
    requires Inv(s) && Possible(s, run)
    ensures Inv(After(s, run))
    decreases |run|
  {
    hide Inv, Do, Enabled;
    if run != [] {
      StepInv(s, run[0].0, run[0].1);
      RunInv(Do(s, run[0].0, run[0].1), run[1..]);
    }
  }

  /** A call that holds a lock is the innermost of its core. */
  lemma HolderOnTop(s: State, c: nat, i: nat, l: nat)
    requires Inv(s) && c < |s.cores| && i < |s.cores[c].frames| && Holds(s.cores[c].frames[i], l)
    ensures i == |s.cores[c].frames| - 1 && Holds(Top(s.cores[c]), l) && s.cores[c].masked && l < LOCKS && s.locked[l]
    ensures Noted(Top(s.cores[c]), l) ==> s.cpuNum[l] == c
  {
    assert CoreOk(s.cores[c]) && Legal(s.cores[c].frames[i]);
    hide LockOf, InOrder;
  }

  /** In every reachable state, whatever sections the cores run, interrupt and nest: a lock that some call holds is
      taken, interrupts are masked on its core, and once noted its cpu_num names that core. */
  lemma LockDiscipline(s: State, run: Run, c: nat, i: nat, l: nat)
    requires Initial(s) && Possible(s, run)
    requires c < |After(s, run).cores| && i < |After(s, run).cores[c].frames|
    requires Holds(After(s, run).cores[c].frames[i], l)
    ensures var t := After(s, run);
      && l < |t.locked| == |t.cpuNum| && t.cores[c].masked && t.locked[l]
      && (Noted(t.cores[c].frames[i], l) ==> t.cpuNum[l] == c)
  {
    assert Inv(s);
    RunInv(s, run);
    hide After, Possible, Initial;
    HolderOnTop(After(s, run), c, i, l);
  }

  /** And it has no other holder, nor does its core hold any other lock, in this call or in any it interrupts. */
  lemma OneHolderOneLock(s: State, run: Run, c: nat, i: nat, l: nat, d: nat, j: nat, l2: nat)
    requires Initial(s) && Possible(s, run)
    requires c < |After(s, run).cores| && i < |After(s, run).cores[c].frames|
    requires d < |After(s, run).cores| && j < |After(s, run).cores[d].frames|
    requires Holds(After(s, run).cores[c].frames[i], l) && Holds(After(s, run).cores[d].frames[j], l2)
    ensures l == l2 <==> c == d
    ensures c == d ==> i == j
  {
    assert Inv(s);
    RunInv(s, run);
    hide After, Possible, Initial;
    HolderOnTop(After(s, run), c, i, l);
    HolderOnTop(After(s, run), d, j, l2);
  }

  /** A call about to read or write shared data. */
  predicate At(code: seq<Op>, x: Datum) {
    code != [] && code[0] == Work(x)
  }

  lemma AtHolds(code: seq<Op>, x: Datum)
    requires Legal(code) && At(code, x)
    ensures Holds(code, Guard(x))
  {
    assert InOrder(code, LockOf(code));
    hide InOrder;
  }

  /** So the data itself is never touched by two calls at once: not the list of free pages by get_page and free_page,
      nor the arrays of tasks by any two of the four sections of the scheduler, nor the output. */
  lemma DataGuarded(s: State, run: Run, c: nat, i: nat, d: nat, j: nat, x: Datum)
    requires Initial(s) && Possible(s, run)
    requires c < |After(s, run).cores| && i < |After(s, run).cores[c].frames|
    requires d < |After(s, run).cores| && j < |After(s, run).cores[d].frames|
    requires At(After(s, run).cores[c].frames[i], x) && At(After(s, run).cores[d].frames[j], x)
    ensures c == d && i == j && After(s, run).cores[c].masked
  {
    assert Inv(s);
    RunInv(s, run);
    hide After, Possible, Initial;
    var t := After(s, run);
    assert CoreOk(t.cores[c]) && CoreOk(t.cores[d]);
    assert Legal(t.cores[c].frames[i]) && Legal(t.cores[d].frames[j]);
    hide Legal, CoreOk, Inv, At;
    AtHolds(t.cores[c].frames[i], x);
    AtHolds(t.cores[d].frames[j], x);
    OneHolderOneLock(s, run, c, i, Guard(x), d, j, Guard(x));
    HolderOnTop(t, c, i, Guard(x));
  }

  /** A call starts its section from the first instruction, an interrupt masks further ones, and when its handler
      returns at once the core is as it was. */
  lemma CallsAndInterrupts(s: State, c: nat, section: Section, n: nat)
    requires Inv(s) && c < |s.cores|
    ensures Top(s.cores[c]) == [] ==> Enabled(s, c, Call(section, n)) && Enabled(s, c, SetMask(n == 0))
    ensures Top(s.cores[c]) == [] ==> Top(Do(s, c, Call(section, n)).cores[c]) == Code(section, n)
    ensures Top(s.cores[c]) != [] ==> Enabled(s, c, Step)
    ensures !s.cores[c].masked ==>
      Enabled(s, c, Interrupt) && Do(s, c, Interrupt).cores[c].masked && Enabled(Do(s, c, Interrupt), c, Return)
      && Do(Do(s, c, Interrupt), c, Return) == s
  {
    hide Code, InOrder, LockOf;
    assert CoreOk(s.cores[c]);
    if !s.cores[c].masked {
      var k := s.cores[c];
      assert (k.frames + [[]])[..|k.frames|] == k.frames;
    }
  }

  /** A section that has run to its end leaves interrupts on, and every lock its core had is clear. */
  lemma SectionEnds(s: State, c: nat)
    requires Inv(s) && Enabled(s, c, Step) && Top(s.cores[c])[1..] == []
    ensures var k := Do(s, c, Step).cores[c];
      k.frames != [] && Top(k) == [] && !k.masked && forall l :: !Holds(Top(k), l)
  {
    assert CoreOk(s.cores[c]);
    assert Top(s.cores[c]) == [Enable] by {
      LastIsEnable(Top(s.cores[c]));
    }
  }

  lemma LastIsEnable(code: seq<Op>)
    requires Legal(code) && code != [] && code[1..] == []
    ensures code == [Enable]
  {}

  /** Core `d` holds the lock, undisturbed, and its next step brings it closer to the clear. */
  ghost predicate Releasing(s: State, d: nat, l: nat)
    requires Formed(s) && d < |s.cores|
  {
    && Holds(Top(s.cores[d]), l) && s.cores[d].masked && Enabled(s, d, Step) && Do(s, d, Step).cores[d].frames != []
    && |Top(Do(s, d, Step).cores[d])| < |Top(s.cores[d])|
  }

  /** No deadlock: a core whose test and set fails waits for another core, which is inside its section with
      interrupts masked, and whose next step brings it closer to the end of the section. */
  lemma NoDeadlock(s: State, c: nat)
    requires Inv(s) && Enabled(s, c, Step) && Do(s, c, Step) == s
    ensures Top(s.cores[c])[0].TestAndSet?
    ensures exists d :: 0 <= d < |s.cores| && d != c && Releasing(s, d, Top(s.cores[c])[0].lock)
  {
    var k := s.cores[c];
    LegalLock(Top(k));
    StepShortens(s, c);
    var l := Top(k)[0].lock;
    var d :| 0 <= d < |s.cores| && Holds(Top(s.cores[d]), l);
    assert CoreOk(s.cores[d]);
    StepShortens(s, d);
    assert Releasing(s, d, l);
  }

  /** Any step but that of a failing test and set leaves less to do. */
  lemma StepShortens(s: State, c: nat)
    requires Inv(s) && Enabled(s, c, Step)
    ensures Do(s, c, Step).cores[c].frames != []
    ensures !Top(s.cores[c])[0].TestAndSet? || !s.locked[Top(s.cores[c])[0].lock] ==>
      |Top(Do(s, c, Step).cores[c])| < |Top(s.cores[c])|
  {
    LegalLock(Top(s.cores[c]));
    hide LockOf, InOrder;
  }
}
