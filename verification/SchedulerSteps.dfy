/** The run queue on many cores: each critical section of scheduler.c is one step. */
module SchedulerSteps {
  import opened Tasks
  import opened Scheduler

  /** A core between the sections of `schedule`: idle, holding the task it popped, or about to refill. */
  datatype Place = Idle | Holding(task: Task) | Refilling

  /** The two stacks and the cores. `forked` and `lost` are auxiliary: every task ever queued by `fork`, and every
      one that was popped although its creation had failed. */
  datatype State = State(stacks: Stacks, cores: seq<Place>, forked: multiset<Task>, lost: multiset<Task>)

  datatype Action = Pop | Push | Refill | Fork(task: Task)

  predicate Enabled(s: State, c: nat, a: Action) {
    && c < |s.cores|
    && match a
       case Pop => s.cores[c].Idle?
       case Push => s.cores[c].Holding?
       case Refill => s.cores[c].Refilling?
       case Fork(_) => s.cores[c].Idle?
  }

  function Do(s: State, c: nat, a: Action): State
    requires Enabled(s, c, a)
  {
    match a
    case Pop =>
      var n := |s.stacks.tasks|;
      if n == 0 then s.(cores := s.cores[c := Refilling])
      else
        var top := s.stacks.tasks[n - 1];
        var popped := s.stacks.(tasks := s.stacks.tasks[..n - 1]);
        if top.pure then s.(stacks := popped, cores := s.cores[c := Holding(top)])
        else s.(stacks := popped, cores := s.cores[c := Refilling], lost := s.lost + multiset{top})
    case Push => s.(stacks := Forked(s.stacks, s.cores[c].task), cores := s.cores[c := Idle])
    case Refill => s.(stacks := Refilled(s.stacks), cores := s.cores[c := Idle])
    case Fork(t) => s.(stacks := Forked(s.stacks, t), forked := s.forked + multiset{t})
  }

  function Carried(p: Place): multiset<Task> {
    if p.Holding? then multiset{p.task} else multiset{}
  }

  /** The tasks the cores hold between two sections. */
  function InFlight(cores: seq<Place>): multiset<Task> {
    if cores == [] then multiset{} else Carried(cores[0]) + InFlight(cores[1..])
  }

  /** How often a task is in the stacks, held by a core, or lost. */
  function Present(s: State, t: Task): nat {
    multiset(s.stacks.tasks)[t] + multiset(s.stacks.buffer)[t] + InFlight(s.cores)[t] + s.lost[t]
  }

  /** Every task forked is in a stack, held by a core, or lost because its creation had failed. */
  ghost predicate Conserved(s: State) {
    (forall t :: Present(s, t) == s.forked[t]) && forall t :: t in s.lost ==> !t.pure
  }

  lemma {:induction false} FlightAt(cores: seq<Place>, c: nat, p: Place, t: Task)
    requires c < |cores|
    ensures InFlight(cores[c := p])[t] + Carried(cores[c])[t] == InFlight(cores)[t] + Carried(p)[t]
    decreases |cores|
  {
    if c == 0 {
      assert cores[0 := p][1..] == cores[1..];
    } else {
      assert cores[c := p][1..] == cores[1..][c - 1 := p];
      FlightAt(cores[1..], c - 1, p, t);
    }
    hide Carried;
  }

  lemma {:induction false} ReversedBag<T>(s: seq<T>)
    ensures multiset(Reversed(s)) == multiset(s)
  {
    if s != [] {
      ReversedBag(s[1..]);
      assert s == [s[0]] + s[1..];
    }
  }

  lemma LastOut(q: seq<Task>, t: Task)
    requires q != []
    ensures multiset(q)[t] == multiset(q[..|q| - 1])[t] + multiset{q[|q| - 1]}[t]
  {
    assert q == q[..|q| - 1] + [q[|q| - 1]];
  }

  /** What a step puts on one side it takes from another. */
  lemma StepPresent(s: State, c: nat, a: Action, t: Task)
    requires Enabled(s, c, a)
    ensures Present(Do(s, c, a), t) - Do(s, c, a).forked[t] == Present(s, t) - s.forked[t]
  {
    match a
    case Pop => PopPresent(s, c, t);
    case Push => FlightAt(s.cores, c, Idle, t);
      hide InFlight;
    case Refill => RefillPresent(s, c, t);
    case Fork(_) =>
  }

  lemma PopPresent(s: State, c: nat, t: Task)
    requires Enabled(s, c, Pop)
    ensures Present(Do(s, c, Pop), t) - Do(s, c, Pop).forked[t] == Present(s, t) - s.forked[t]
  {
    var s2 := Do(s, c, Pop);
    FlightAt(s.cores, c, s2.cores[c], t);
    if s.stacks.tasks == [] {
      hide InFlight;
    } else {
      LastOut(s.stacks.tasks, t);
      PopMoves(s, c, t);
      hide InFlight, Do, Carried;
    }
  }

  /** The task popped is held by the core, or lost. */
  lemma PopMoves(s: State, c: nat, t: Task)
    requires Enabled(s, c, Pop) && s.stacks.tasks != []
    ensures var s2, top := Do(s, c, Pop), s.stacks.tasks[|s.stacks.tasks| - 1];
      && s2.cores == s.cores[c := s2.cores[c]] && s2.forked == s.forked && s2.stacks.buffer == s.stacks.buffer
      && s2.stacks.tasks == s.stacks.tasks[..|s.stacks.tasks| - 1]
      && Carried(s2.cores[c])[t] + s2.lost[t] == Carried(s.cores[c])[t] + s.lost[t] + multiset{top}[t]
  {}

  lemma RefillPresent(s: State, c: nat, t: Task)
    requires Enabled(s, c, Refill)
    ensures Present(Do(s, c, Refill), t) - Do(s, c, Refill).forked[t] == Present(s, t) - s.forked[t]
  {
    FlightAt(s.cores, c, Idle, t);
    ReversedBag(s.stacks.buffer);
    hide InFlight, Reversed;
  }

  lemma StepConserves(s: State, c: nat, a: Action)
    requires Conserved(s) && Enabled(s, c, a)
    ensures Conserved(Do(s, c, a))
  {
    forall t
      ensures Present(Do(s, c, a), t) == Do(s, c, a).forked[t]
    {
      StepPresent(s, c, a, t);
    }
    hide Present;
  }

  type Run = seq<(nat, Action)>

  predicate Possible(s: State, run: Run)
    decreases |run|
  {
    run == [] || (Enabled(s, run[0].0, run[0].1) && Possible(Do(s, run[0].0, run[0].1), run[1..]))
  }

  function After(s: State, run: Run): State
    requires Possible(s, run)
    decreases |run|
  {
    if run == [] then s else After(Do(s, run[0].0, run[0].1), run[1..])
  }

  predicate Initial(s: State) {
    && s.stacks == Stacks([], []) && s.forked == s.lost == multiset{}
    && forall c :: 0 <= c < |s.cores| ==> s.cores[c].Idle?
  }

  lemma {:induction false} IdleFlight(cores: seq<Place>)
    requires forall c :: 0 <= c < |cores| ==> cores[c].Idle?
    ensures InFlight(cores) == multiset{}
    decreases |cores|
  {
    if cores != [] {
      IdleFlight(cores[1..]);
    }
  }

  lemma {:induction false} RunConserves(s: State, run: Run)
    requires Conserved(s) && Possible(s, run)
    ensures Conserved(After(s, run))
    decreases |run|
  {
    if run != [] {
      StepConserves(s, run[0].0, run[0].1);
      RunConserves(Do(s, run[0].0, run[0].1), run[1..]);
    }
    hide Do, Conserved;
  }

  /** In every interleaving the tasks whose creation succeeded are all still there, once each; and as long as no
      more than 64 tasks were forked, neither array overflows. */
  lemma TasksConserved(s: State, run: Run, t: Task)
    requires Initial(s) && Possible(s, run)
    ensures var e := After(s, run);
      && (t.pure ==> multiset(e.stacks.tasks)[t] + multiset(e.stacks.buffer)[t] + InFlight(e.cores)[t] == e.forked[t])
      && (|e.forked| <= 64 ==> |e.stacks.tasks| + |e.stacks.buffer| + |InFlight(e.cores)| <= 64)
  {
    IdleFlight(s.cores);
    RunConserves(s, run);
    var e := After(s, run);
    assert Present(e, t) == e.forked[t];
    hide After, InFlight;
    Sizes(e);
  }

  lemma Sizes(s: State)
    requires Conserved(s)
    ensures |s.stacks.tasks| + |s.stacks.buffer| + |InFlight(s.cores)| + |s.lost| == |s.forked|
  {
    hide InFlight;
    var all := multiset(s.stacks.tasks) + multiset(s.stacks.buffer) + InFlight(s.cores) + s.lost;
    forall t
      ensures all[t] == s.forked[t]
    {
      assert Present(s, t) == s.forked[t];
    }
    assert all == s.forked;
    assert |multiset(s.stacks.tasks)| == |s.stacks.tasks| && |multiset(s.stacks.buffer)| == |s.stacks.buffer|;
  }

  // ----- In which order the tasks come -----

  /** How many tasks wait, and which is the k-th to come: the tasks from the top down, then the buffer. */
  function Size(s: Stacks): nat {
    |s.tasks| + |s.buffer|
  }

  function Nth(s: Stacks, k: nat): Task
    requires k < Size(s)
  {
    if k < |s.tasks| then s.tasks[|s.tasks| - 1 - k] else s.buffer[k - |s.tasks|]
  }

  lemma NthOfQueue(s: Stacks)
    ensures |Queue(s)| == Size(s) && forall k :: 0 <= k < Size(s) ==> Queue(s)[k] == Nth(s, k)
  {}

  /** A pop takes the first task, if any, and all others move up by one; the core holds it, unless its creation
      failed. */
  lemma PopTakesHead(s: State, c: nat)
    requires Enabled(s, c, Pop)
    ensures var e := Do(s, c, Pop);
      if s.stacks.tasks == [] then e.stacks == s.stacks && e.cores[c] == Refilling
      else
        && Size(e.stacks) == Size(s.stacks) - 1
        && (forall k :: 0 <= k < Size(e.stacks) ==> Nth(e.stacks, k) == Nth(s.stacks, k + 1))
        && e.cores[c] == if Nth(s.stacks, 0).pure then Holding(Nth(s.stacks, 0)) else Refilling
  {}

  /** A push puts the task the core held behind all others, and so does a fork with its own. */
  lemma PushAndForkAppend(s: State, c: nat, a: Action)
    requires Enabled(s, c, a) && (a.Push? || a.Fork?)
    ensures var e, task := Do(s, c, a), if a.Push? then s.cores[c].task else a.task;
      && Size(e.stacks) == Size(s.stacks) + 1 && Nth(e.stacks, Size(s.stacks)) == task
      && (forall k :: 0 <= k < Size(s.stacks) ==> Nth(e.stacks, k) == Nth(s.stacks, k))
      && e.cores[c].Idle?
  {}

  /** A refill brings the buffer before the tasks, both in their order: with no tasks left the order stays. */
  lemma RefillBringsBuffer(s: State, c: nat)
    requires Enabled(s, c, Refill)
    ensures var e, n := Do(s, c, Refill), |s.stacks.buffer|;
      && Size(e.stacks) == Size(s.stacks) && e.stacks.buffer == [] && e.cores[c].Idle?
      && (forall k :: 0 <= k < n ==> Nth(e.stacks, k) == s.stacks.buffer[k])
      && (forall k :: n <= k < Size(s.stacks) ==> Nth(e.stacks, k) == Nth(s.stacks, k - n))
      && (s.stacks.tasks == [] ==> forall k :: 0 <= k < n ==> Nth(e.stacks, k) == Nth(s.stacks, k))
  {
    hide Reversed;
  }

  /** A core that goes through its sections undisturbed makes the call of `schedule` that one core makes. */
  lemma SectionsMakeSchedule(s: State, c: nat)
    requires Enabled(s, c, Pop)
    ensures var p := Do(s, c, Pop);
      match p.cores[c]
      case Holding(task) => Do(p, c, Push).stacks == Scheduled(s.stacks).0 && Scheduled(s.stacks).1 == Some(task)
      case Refilling => Do(p, c, Refill).stacks == Scheduled(s.stacks).0 && Scheduled(s.stacks).1 == None
      case Idle => false
  {
    hide Reversed;
  }

  /** What a run queues, and what it pops, in order. */
  function Arrived(s: State, run: Run): seq<Task>
    requires Possible(s, run)
    decreases |run|
  {
    if run == [] then []
    else
      var (c, a) := run[0];
      (if a.Push? then [s.cores[c].task] else if a.Fork? then [a.task] else []) + Arrived(Do(s, c, a), run[1..])
  }

  function Departed(s: State, run: Run): seq<Task>
    requires Possible(s, run)
    decreases |run|
  {
    if run == [] then []
    else
      var (c, a) := run[0];
      (if a.Pop? && s.stacks.tasks != [] then [s.stacks.tasks[|s.stacks.tasks| - 1]] else [])
      + Departed(Do(s, c, a), run[1..])
  }

  /** Every refill of the run finds the tasks or the buffer empty. */
  predicate Orderly(s: State, run: Run)
    requires Possible(s, run)
    decreases |run|
  {
    run == [] ||
    var (c, a) := run[0];
    && (a.Refill? ==> s.stacks.tasks == [] || s.stacks.buffer == [])
    && Orderly(Do(s, c, a), run[1..])
  }

  lemma StepOrder(s: State, c: nat, a: Action)
    requires Enabled(s, c, a) && (a.Refill? ==> s.stacks.tasks == [] || s.stacks.buffer == [])
    ensures var arrived := if a.Push? then [s.cores[c].task] else if a.Fork? then [a.task] else [];
      var departed := if a.Pop? && s.stacks.tasks != [] then [s.stacks.tasks[|s.stacks.tasks| - 1]] else [];
      Queue(s.stacks) + arrived == departed + Queue(Do(s, c, a).stacks)
  {
    hide Queue;
    NthOfQueue(s.stacks);
    NthOfQueue(Do(s, c, a).stacks);
    match a
    case Pop => PopTakesHead(s, c);
      hide Do, Nth;
    case Push => PushAndForkAppend(s, c, a);
      hide Do, Nth;
    case Refill => RefillBringsBuffer(s, c);
      hide Do;
    case Fork(_) => PushAndForkAppend(s, c, a);
      hide Do, Nth;
  }

  lemma QueueSteps(q: seq<Task>, q2: seq<Task>, q3: seq<Task>,
                   a: seq<Task>, b: seq<Task>, d: seq<Task>, e: seq<Task>)
    requires q + a == d + q2 && q2 + b == e + q3
    ensures q + (a + b) == (d + e) + q3
  {
    calc {
      q + (a + b);
      (q + a) + b;
      d + (q2 + b);
      (d + e) + q3;
    }
  }

  /** However many cores there are, the tasks leave in the order in which they were queued, as long as no refill finds
      both tasks and buffer. */
  lemma {:induction false} FirstInFirstOut(s: State, run: Run)
    requires Possible(s, run) && Orderly(s, run)
    ensures Queue(s.stacks) + Arrived(s, run) == Departed(s, run) + Queue(After(s, run).stacks)
    decreases |run|
  {
    hide Queue;
    if run != [] {
      var (c, a) := run[0];
      var s2 := Do(s, c, a);
      StepOrder(s, c, a);
      FirstInFirstOut(s2, run[1..]);
      hide Do;
      QueueSteps(Queue(s.stacks), Queue(s2.stacks), Queue(After(s2, run[1..]).stacks),
                 if a.Push? then [s.cores[c].task] else if a.Fork? then [a.task] else [], Arrived(s2, run[1..]),
                 if a.Pop? && s.stacks.tasks != [] then [s.stacks.tasks[|s.stacks.tasks| - 1]] else [],
                 Departed(s2, run[1..]));
    }
  }

  /** Every task that waits was set up. */
  predicate AllPure(s: State) {
    && (forall i :: 0 <= i < |s.stacks.tasks| ==> s.stacks.tasks[i].pure)
    && (forall i :: 0 <= i < |s.stacks.buffer| ==> s.stacks.buffer[i].pure)
    && forall c :: 0 <= c < |s.cores| && s.cores[c].Holding? ==> s.cores[c].task.pure
  }

  /** That is always so on one core whose tasks were all set up. */
  lemma {:induction false} OneCoreOrderly(s: State, run: Run)
    requires Possible(s, run) && |s.cores| == 1 && AllPure(s) && (s.cores[0].Refilling? ==> s.stacks.tasks == [])
    requires forall i :: 0 <= i < |run| && run[i].1.Fork? ==> run[i].1.task.pure
    ensures Orderly(s, run)
    decreases |run|
  {
    if run != [] {
      OneCoreOrderly(Do(s, run[0].0, run[0].1), run[1..]);
    }
  }

  /** Where two cores stand in the race below, with `forked` recorded. */
  function Race(tasks: seq<Task>, buffer: seq<Task>, one: Place, two: Place, forked: multiset<Task>): State {
    State(Stacks(tasks, buffer), [one, two], forked, multiset{})
  }

  lemma RaceForks(a: Task, b: Task)
    ensures var s1 := Race([], [a], Idle, Idle, multiset{a});
      && Do(Race([], [], Idle, Idle, multiset{}), 0, Fork(a)) == s1
      && Do(s1, 0, Fork(b)) == Race([], [a, b], Idle, Idle, multiset{a, b})
  {
    assert [] + [a] == [a] && [a] + [b] == [a, b];
  }

  lemma RacePops(buffer: seq<Task>, all: multiset<Task>)
    ensures Do(Race([], buffer, Idle, Idle, all), 0, Pop) == Race([], buffer, Refilling, Idle, all)
    ensures Do(Race([], buffer, Refilling, Idle, all), 1, Pop) == Race([], buffer, Refilling, Refilling, all)
  {}

  lemma RaceRefills(a: Task, b: Task, f: Task)
    ensures var all := multiset{a, b};
      && Do(Race([], [a, b], Refilling, Refilling, all), 0, Refill) == Race([b, a], [], Idle, Refilling, all)
      && Do(Race([b, a], [], Idle, Refilling, all), 0, Fork(f)) == Race([b, a], [f], Idle, Refilling, all + multiset{f})
      && Do(Race([b, a], [f], Idle, Refilling, all + multiset{f}), 1, Refill)
         == Race([b, a, f], [], Idle, Idle, all + multiset{f})
  {
    hide Reversed;
    ReversedOne(f);
    ReversedTwo(a, b);
    assert [] + [b, a] == [b, a] && [] + [f] == [f] && [b, a] + [f] == [b, a, f];
  }

  lemma RaceQueue(a: Task, b: Task, f: Task)
    ensures Queue(Stacks([b, a, f], [])) == [f, a, b]
  {
    hide Reversed;
    ReversedTwo(b, a);
    QueueWithTop([b, a], f, []);
    assert [b, a] + [f] == [b, a, f];
  }

  lemma ReversedTwo(a: Task, b: Task)
    ensures Reversed([a, b]) == [b, a]
  {
    ReversedOne(a);
    ReversedOne(b);
    ReversedConcat([a], [b]);
    assert [a] + [b] == [a, b];
  }

  /** Two cores that both found the tasks empty refill one after the other; what was forked in between comes first. */
  lemma RefillRace(a: Task, b: Task, f: Task) returns (s: State, run: Run)
    ensures s == Race([], [], Idle, Idle, multiset{}) && Initial(s) && Possible(s, run)
    ensures run == [(0, Fork(a)), (0, Fork(b)), (0, Pop), (1, Pop), (0, Refill), (0, Fork(f)), (1, Refill)]
    ensures Queue(After(s, run).stacks) == [f, a, b]
  {
    hide Do, Queue, Reversed, Race, Enabled, Possible, After, Initial;
    RaceParts(a, b, f);
    var two, three := multiset{a, b}, multiset{a, b} + multiset{f};
    RaceForks(a, b);
    RacePops([a, b], two);
    RaceRefills(a, b, f);
    RaceQueue(a, b, f);
    RaceMoves(a, b, f);
    s := Race([], [], Idle, Idle, multiset{});
    var s6, s5, s4 := Race([b, a], [f], Idle, Refilling, three), Race([b, a], [], Idle, Refilling, two),
      Race([], [a, b], Refilling, Refilling, two);
    var s3, s2, s1 := Race([], [a, b], Refilling, Idle, two), Race([], [a, b], Idle, Idle, two),
      Race([], [a], Idle, Idle, multiset{a});
    NoMoves(Race([b, a, f], [], Idle, Idle, three));
    StepFirst(s6, 1, Refill, []);
    StepFirst(s5, 0, Fork(f), [(1, Refill)] + []);
    StepFirst(s4, 0, Refill, [(0, Fork(f))] + ([(1, Refill)] + []));
    StepFirst(s3, 1, Pop, [(0, Refill)] + ([(0, Fork(f))] + ([(1, Refill)] + [])));
    StepFirst(s2, 0, Pop, [(1, Pop)] + ([(0, Refill)] + ([(0, Fork(f))] + ([(1, Refill)] + []))));
    var r1: Run := [(0, Pop)] + ([(1, Pop)] + ([(0, Refill)] + ([(0, Fork(f))] + ([(1, Refill)] + []))));
    StepFirst(s1, 0, Fork(b), r1);
    StepFirst(s, 0, Fork(a), [(0, Fork(b))] + r1);
    run := [(0, Fork(a))] + ([(0, Fork(b))] + r1);
    assert r1 == [(0, Pop), (1, Pop), (0, Refill), (0, Fork(f)), (1, Refill)];
  }

  lemma NoMoves(s: State)
    ensures Possible(s, []) && After(s, []) == s
  {}

  lemma RaceParts(a: Task, b: Task, f: Task)
    ensures Initial(Race([], [], Idle, Idle, multiset{}))
    ensures forall all :: Race([b, a, f], [], Idle, Idle, all).stacks == Stacks([b, a, f], [])
  {}

  /** Each of the seven moves is open to its core. */
  lemma RaceMoves(a: Task, b: Task, f: Task)
    ensures var two, three := multiset{a, b}, multiset{a, b} + multiset{f};
      && Enabled(Race([], [], Idle, Idle, multiset{}), 0, Fork(a))
      && Enabled(Race([], [a], Idle, Idle, multiset{a}), 0, Fork(b))
      && Enabled(Race([], [a, b], Idle, Idle, two), 0, Pop) && Enabled(Race([], [a, b], Refilling, Idle, two), 1, Pop)
      && Enabled(Race([], [a, b], Refilling, Refilling, two), 0, Refill)
      && Enabled(Race([b, a], [], Idle, Refilling, two), 0, Fork(f))
      && Enabled(Race([b, a], [f], Idle, Refilling, three), 1, Refill)
  {}

  lemma StepFirst(s: State, c: nat, a: Action, rest: Run)
    requires Enabled(s, c, a) && Possible(Do(s, c, a), rest)
    ensures var run: Run := [(c, a)] + rest; Possible(s, run) && After(s, run) == After(Do(s, c, a), rest)
  {
    var run: Run := [(c, a)] + rest;
    assert run[0] == (c, a) && run[1..] == rest;
  }

  /** A core can always enter its next section, and an idle one fork. */
  lemma CoreCanAct(s: State, c: nat, task: Task)
    requires c < |s.cores|
    ensures match s.cores[c]
      case Idle => Enabled(s, c, Pop) && Enabled(s, c, Fork(task))
      case Holding(_) => Enabled(s, c, Push)
      case Refilling => Enabled(s, c, Refill)
  {}
}
