/** The run queue of scheduler.c: two stacks that together behave as one queue. */
module Scheduler {
  import opened Bits
  import opened Arch
  import opened PaAlloc
  import opened KernelSpace
  import opened Tasks

  datatype Option<T> = None | Some(value: T)

  const CAPACITY: nat := 64

  /** The two stacks, bottom first: tasks[0..tasks_count] and task_buffer[0..tasks_buffer_count]. */
  datatype Stacks = Stacks(tasks: seq<Task>, buffer: seq<Task>)

  function Reversed<T>(s: seq<T>): (r: seq<T>)
    ensures |r| == |s|
    ensures forall i :: 0 <= i < |s| ==> r[i] == s[|s| - 1 - i]
  {
    if s == [] then [] else Reversed(s[1..]) + [s[0]]
  }

  /** The queue they stand for, next task first. */
  function Queue(s: Stacks): seq<Task> {
    Reversed(s.tasks) + s.buffer
  }

  /** The buffer emptied onto the tasks, top first. */
  function Refilled(s: Stacks): Stacks {
    Stacks(s.tasks + Reversed(s.buffer), [])
  }

  /** One call of `schedule`: the stacks after it, and the task it passed to `switch_to`. */
  function Scheduled(s: Stacks): (Stacks, Option<Task>) {
    if s.tasks == [] then (Refilled(s), None)
    else
      var top, rest := s.tasks[|s.tasks| - 1], s.tasks[..|s.tasks| - 1];
      if top.pure then (Stacks(rest, s.buffer + [top]), Some(top))
      else (Refilled(Stacks(rest, s.buffer)), None)
  }

  /** One call of `fork`, whatever became of the task it created. */
  function Forked(s: Stacks, t: Task): Stacks {
    s.(buffer := s.buffer + [t])
  }

  class RunQueue {
    const tasks: array<Task>
    const buffer: array<Task>
    var tasksCount: int
    var bufferCount: int
    var locked: bool

    ghost predicate Valid()
      reads this
    {
      && tasks != buffer && tasks.Length == CAPACITY && buffer.Length == CAPACITY
      && -1 <= tasksCount && -1 <= bufferCount && tasksCount + 1 + bufferCount + 1 <= CAPACITY
    }

    ghost function Contents(): Stacks
      requires Valid()
      reads this, tasks, buffer
    {
      Stacks(tasks[..tasksCount + 1], buffer[..bufferCount + 1])
    }

    constructor ()
      ensures Valid() && !locked && Contents() == Stacks([], [])
      ensures fresh(tasks) && fresh(buffer) && tasks.Length == buffer.Length == 64
    {
      tasks := new Task[CAPACITY](_ => NO_TASK);
      buffer := new Task[CAPACITY](_ => NO_TASK);
      tasksCount, bufferCount, locked := -1, -1, false;
    }

    method Acquire()
      requires !locked
      modifies this`locked
      ensures locked
    {
      locked := true;
    }

    method Release()
      modifies this`locked
      ensures !locked
    {
      locked := false;
    }

    /** Pop the top of `tasks`; an all-zero task when there is none. */
    method GetLast() returns (ret: Task)
      requires Valid() && !locked
      modifies this
      ensures Valid() && !locked
      ensures var s := old(Contents());
        if s.tasks == [] then ret == Task(0, 0, false) && Contents() == s
        else ret == s.tasks[|s.tasks| - 1] && Contents() == s.(tasks := s.tasks[..|s.tasks| - 1])
    {
      ret := NO_TASK;
      Acquire();
      if tasksCount >= 0 {
        ret := tasks[tasksCount];
        tasksCount := tasksCount - 1;
      }
      Release();
    }

    /** Under the lock, pop the buffer onto the tasks until it is empty. */
    method Refill()
      requires Valid() && !locked
      modifies this, tasks
      ensures Valid() && !locked && Contents() == Refilled(old(Contents()))
    {
      hide Reversed;
      ghost var s := Contents();
      ghost var popped := Reversed(s.buffer);
      Acquire();
      while bufferCount >= 0
        invariant Valid() && locked && bufferCount + 1 <= |s.buffer|
        invariant tasksCount + 1 == |s.tasks| + |s.buffer| - (bufferCount + 1)
        invariant tasks[..tasksCount + 1] == s.tasks + popped[..|s.buffer| - (bufferCount + 1)]
        decreases bufferCount
      {
        ghost var k := |s.buffer| - (bufferCount + 1);
        assert popped[k] == s.buffer[bufferCount] == buffer[bufferCount];
        tasksCount := tasksCount + 1;
        tasks[tasksCount] := buffer[bufferCount];
        bufferCount := bufferCount - 1;
        assert tasks[..tasksCount + 1] == tasks[..tasksCount] + [popped[k]];
        assert popped[..k + 1] == popped[..k] + [popped[k]];
      }
      Release();
    }

    /** Queue the task behind all others. The current task of the cpu is assigned to itself, so nothing else changes. */
    method SwitchTo(task: Task)
      requires Valid() && !locked && |Queue(Contents())| < CAPACITY
      modifies this, buffer
      ensures Valid() && !locked && Contents() == Forked(old(Contents()), task)
    {
      Acquire();
      bufferCount := bufferCount + 1;
      buffer[bufferCount] := task;
      Release();
    }

    /** The timer's call: pick the next task, or refill when the one popped is empty or was never set up. */
    method Schedule() returns (picked: Option<Task>)
      requires Valid() && !locked
      modifies this, tasks, buffer
      ensures Valid() && !locked && (Contents(), picked) == Scheduled(old(Contents()))
    {
      ghost var s := Contents();
      var task := GetLast();
      if !task.pure {
        Refill();
        return None;
      }
      SwitchTo(task);
      return Some(task);
    }

    /** Create a task and queue it, even if its creation failed; the caller leaves room for it. */
    method Fork(k: Machine, l: Layout, main: Word, ghost live: seq<Alive>) returns (id: nat, task: Task)
      requires Valid() && !locked && |Queue(Contents())| < CAPACITY
      requires LaidOut(l) && k.Valid() && !k.locked && k.mem.Length >= 512 && 0 !in k.own.tables.Values
      requires main + 0x5000 < ADDRESS_LIMIT && Live(k.mem[..], k.own, l, live)
      modifies this, buffer, k, k.mem
      ensures Valid() && !locked && Contents() == Forked(old(Contents()), task)
      ensures id == |Contents().buffer| - 1
      ensures k.Valid() && !k.locked
      ensures Creation(old(k.mem[..]), old(k.own), k.mem[..], k.own, l, main, task.pure)
      ensures Live(k.mem[..], k.own, l, if task.pure then live + [TaskPages(old(k.own), main)] else live)
      ensures Unlocked(k.log) == Unlocked(old(k.log))
    {
      hide Held, Unlocked, Acquired, Live, Creation, LaidOut, Queue, State, CreateOn, TaskPages;
      ghost var s := Contents();
      RoomInBuffer(s);
      task := UserTaskCreate(k, l, main, live);
      Acquire();
      bufferCount := bufferCount + 1;
      id := bufferCount;
      buffer[id] := task;
      Release();
    }
  }

  lemma RoomInBuffer(s: Stacks)
    ensures |Queue(s)| == |s.tasks| + |s.buffer|
  {}

  // ----- Runs on one core -----

  /** What the kernel does with its run queue, one call after the other. */
  datatype Call = ScheduleCall | ForkCall(task: Task)

  function After(calls: seq<Call>, s: Stacks): Stacks
  {
    if calls == [] then s
    else match calls[0]
      case ScheduleCall => After(calls[1..], Scheduled(s).0)
      case ForkCall(t) => After(calls[1..], Forked(s, t))
  }

  /** What each of the `schedule` calls picked, in order. */
  function Picks(calls: seq<Call>, s: Stacks): seq<Option<Task>>
  {
    if calls == [] then []
    else match calls[0]
      case ScheduleCall => [Scheduled(s).1] + Picks(calls[1..], Scheduled(s).0)
      case ForkCall(t) => Picks(calls[1..], Forked(s, t))
  }

  lemma ReversedConcat<T>(a: seq<T>, b: seq<T>)
    ensures Reversed(a + b) == Reversed(b) + Reversed(a)
  {}

  lemma ReversedTwice<T>(a: seq<T>)
    ensures Reversed(Reversed(a)) == a
  {}

  /** No task stands in the queue twice. */
  predicate Distinct(q: seq<Task>) {
    forall i, j :: 0 <= i < j < |q| ==> q[i] != q[j]
  }

  /** Swapping two parts of a queue of distinct tasks changes it, unless one of them is empty. */
  lemma SwapChanges(a: seq<Task>, b: seq<Task>)
    ensures a == [] || b == [] ==> a + b == b + a
    ensures Distinct(a + b) && a + b == b + a ==> a == [] || b == []
  {
    if a != [] && b != [] && a + b == b + a {
      assert (a + b)[0] == a[0] && (b + a)[0] == b[0] && (a + b)[|a|] == b[0];
    }
  }

  /** A refill moves every task, the buffer in front of what was left. */
  lemma RefilledQueue(s: Stacks)
    ensures Queue(Refilled(s)) == s.buffer + Reversed(s.tasks)
  {
    ReversedConcat(s.tasks, Reversed(s.buffer));
    ReversedTwice(s.buffer);
  }

  /** So it keeps the order of the queue exactly when the two parts commute: always when the tasks have run out or the
      buffer is empty, and with distinct tasks only then. */
  lemma RefillKeepsQueue(s: Stacks)
    ensures Queue(Refilled(s)) == Queue(s) <==> s.buffer + Reversed(s.tasks) == Reversed(s.tasks) + s.buffer
    ensures s.tasks == [] || s.buffer == [] ==> Queue(Refilled(s)) == Queue(s)
    ensures Distinct(Queue(s)) && Queue(Refilled(s)) == Queue(s) ==> s.tasks == [] || s.buffer == []
  {
    RefilledQueue(s);
    SwapChanges(Reversed(s.tasks), s.buffer);
  }

  /** A pick takes the head of the queue and puts it at the end. */
  lemma PickRotates(s: Stacks)
    requires s.tasks != [] && s.tasks[|s.tasks| - 1].pure
    ensures Queue(s) != [] && Scheduled(s).1 == Some(Queue(s)[0])
    ensures Queue(Scheduled(s).0) == Queue(s)[1..] + [Queue(s)[0]]
  {
    var top, rest := s.tasks[|s.tasks| - 1], s.tasks[..|s.tasks| - 1];
    assert s.tasks == rest + [top];
    ReversedConcat(rest, [top]);
    assert Reversed([top]) == [top];
  }

  /** A new task goes to the end of the queue. */
  lemma ForkAppends(s: Stacks, t: Task)
    ensures Queue(Forked(s, t)) == Queue(s) + [t]
  {}

  lemma ScheduleDrops(rest: seq<Task>, top: Task, b: seq<Task>)
    requires !top.pure
    ensures Scheduled(Stacks(rest + [top], b)) == (Refilled(Stacks(rest, b)), None)
  {
    assert (rest + [top])[..|rest|] == rest;
    hide Refilled;
  }

  lemma ReversedOne(top: Task)
    ensures Reversed([top]) == [top]
  {}

  lemma QueueWithTop(rest: seq<Task>, top: Task, b: seq<Task>)
    ensures Queue(Stacks(rest + [top], b)) == [top] + (Reversed(rest) + b)
  {
    hide Reversed;
    ReversedConcat(rest, [top]);
    ReversedOne(top);
    assert ([top] + Reversed(rest)) + b == [top] + (Reversed(rest) + b);
  }

  /** A head whose creation failed drops out of the queue, and the refill on top of the tasks that are left puts the
      buffer before them. The rest of the queue keeps its order exactly when these two parts commute: always when the
      failed task was the last of the tasks or the buffer is empty, and with distinct tasks only then. */
  lemma FailedHeadDrops(s: Stacks)
    requires s.tasks != [] && !s.tasks[|s.tasks| - 1].pure
    ensures var left := Reversed(s.tasks[..|s.tasks| - 1]);
      && Queue(s)[1..] == left + s.buffer && Queue(Scheduled(s).0) == s.buffer + left
      && (Queue(Scheduled(s).0) == Queue(s)[1..] <==> s.buffer + left == left + s.buffer)
    ensures |s.tasks| == 1 || s.buffer == [] ==> Queue(Scheduled(s).0) == Queue(s)[1..]
    ensures Distinct(Queue(s)[1..]) && Queue(Scheduled(s).0) == Queue(s)[1..] ==> |s.tasks| == 1 || s.buffer == []
  {
    var rest, top := s.tasks[..|s.tasks| - 1], s.tasks[|s.tasks| - 1];
    assert s == Stacks(rest + [top], s.buffer) && (|s.tasks| == 1 <==> Reversed(rest) == []);
    hide *;
    ScheduleDrops(rest, top, s.buffer);
    RefilledQueue(Stacks(rest, s.buffer));
    QueueWithTop(rest, top, s.buffer);
    assert ([top] + (Reversed(rest) + s.buffer))[1..] == Reversed(rest) + s.buffer;
    SwapChanges(Reversed(rest), s.buffer);
  }

  lemma QueueHead(s: Stacks)
    requires s.tasks != []
    ensures Queue(s) != [] && Queue(s)[0] == s.tasks[|s.tasks| - 1]
  {}

  lemma RotationKeeps(q: seq<Task>)
    requires q != []
    ensures multiset(q[1..] + [q[0]]) == multiset(q)
  {
    assert q == [q[0]] + q[1..];
  }

  /** `schedule` keeps all tasks, unless the head is one whose creation failed: then that one is lost. */
  lemma ScheduleConserves(s: Stacks)
    ensures multiset(Queue(Scheduled(s).0)) == multiset(Queue(s)) <==> s.tasks == [] || Queue(s)[0].pure
  {
    var q, after := Queue(s), Queue(Scheduled(s).0);
    if s.tasks == [] {
      RefillKeepsQueue(s);
    } else {
      QueueHead(s);
      if s.tasks[|s.tasks| - 1].pure {
        PickRotates(s);
        hide Queue, Scheduled;
        RotationKeeps(q);
      } else {
        FailedHeadDrops(s);
        hide Queue, Scheduled;
        assert |multiset(after)| == |after| && |multiset(q)| == |q|;
      }
    }
  }

  /** Where the pick of the task at position `p` falls among the next `schedule` calls. */
  function Turn(s: Stacks, p: nat): nat {
    if p < |s.tasks| then p else p + 1
  }

  /** One call brings the task at position `p` one turn nearer, or picks it. */
  lemma TurnComes(s: Stacks, p: nat)
    requires p < |Queue(s)| && forall x :: 0 <= x <= p ==> Queue(s)[x].pure
    ensures var s2 := Scheduled(s).0;
      if Turn(s, p) == 0 then Scheduled(s).1 == Some(Queue(s)[p])
      else
        var p2 := if s.tasks == [] then p else p - 1;
        && p2 < |Queue(s2)| && Queue(s2)[p2] == Queue(s)[p] && Turn(s2, p2) == Turn(s, p) - 1
        && forall x :: 0 <= x <= p2 ==> Queue(s2)[x].pure
  {
    if s.tasks == [] {
      RefillKeepsQueue(s);
      RoomInBuffer(s);
      RoomInBuffer(Refilled(s));
    } else {
      QueueHead(s);
      var s2 := Scheduled(s).0;
      assert s.tasks[|s.tasks| - 1].pure;
      PickRotates(s);
      assert |s2.tasks| == |s.tasks| - 1;
      hide Queue, Scheduled;
      forall x | 0 <= x <= p - 1
        ensures Queue(s2)[x] == Queue(s)[x + 1]
      {}
    }
  }

  /** With no failed task up to position `p`, the task there is picked at its turn, whatever is forked in between. */
  lemma {:induction false} PickedAtTurn(calls: seq<Call>, s: Stacks, p: nat)
    requires p < |Queue(s)| && forall x :: 0 <= x <= p ==> Queue(s)[x].pure
    requires Turn(s, p) < |Picks(calls, s)|
    ensures Picks(calls, s)[Turn(s, p)] == Some(Queue(s)[p])
  {
    match calls[0]
    case ForkCall(t) =>
      ForkAppends(s, t);
      hide Queue;
      PickedAtTurn(calls[1..], Forked(s, t), p);
    case ScheduleCall =>
      TurnComes(s, p);
      hide Queue, Scheduled;
      if Turn(s, p) > 0 {
        PickedAtTurn(calls[1..], Scheduled(s).0, if s.tasks == [] then p else p - 1);
      }
  }

  /** Only tasks that were set up are ever picked. */
  lemma {:induction false} PicksPure(calls: seq<Call>, s: Stacks)
    ensures forall i :: 0 <= i < |Picks(calls, s)| && Picks(calls, s)[i].Some? ==> Picks(calls, s)[i].value.pure
  {
    if calls != [] {
      match calls[0]
      case ScheduleCall => PicksPure(calls[1..], Scheduled(s).0);
      case ForkCall(t) => PicksPure(calls[1..], Forked(s, t));
    }
  }

  /** Bounded waiting: each task up to position `p` is picked by the (p+1)-th next `schedule` call when it is in
      `tasks`, and by the (p+2)-th when it is in the buffer, whatever is forked in between, exactly when none of
      them failed. */
  lemma BoundedWaiting(calls: seq<Call>, s: Stacks, p: nat)
    requires p < |Queue(s)| && Turn(s, p) < |Picks(calls, s)|
    ensures (forall x :: 0 <= x <= p ==> Picks(calls, s)[Turn(s, x)] == Some(Queue(s)[x]))
       <==> (forall x :: 0 <= x <= p ==> Queue(s)[x].pure)
  {
    PicksPure(calls, s);
    hide Queue, Picks;
    if forall x :: 0 <= x <= p ==> Queue(s)[x].pure {
      forall x | 0 <= x <= p
        ensures Picks(calls, s)[Turn(s, x)] == Some(Queue(s)[x])
      {
        PickedAtTurn(calls, s, x);
      }
    } else {
      var x :| 0 <= x <= p && !Queue(s)[x].pure;
      assert Picks(calls, s)[Turn(s, x)] != Some(Queue(s)[x]);
    }
  }

  lemma RunSchedule(calls: seq<Call>, s: Stacks)
    ensures After([ScheduleCall] + calls, s) == After(calls, Scheduled(s).0)
    ensures Picks([ScheduleCall] + calls, s) == [Scheduled(s).1] + Picks(calls, Scheduled(s).0)
  {
    assert ([ScheduleCall] + calls)[1..] == calls;
    hide Scheduled;
  }

  lemma RunFork(t: Task, calls: seq<Call>, s: Stacks)
    ensures After([ForkCall(t)] + calls, s) == After(calls, Stacks(s.tasks, s.buffer + [t]))
    ensures Picks([ForkCall(t)] + calls, s) == Picks(calls, Stacks(s.tasks, s.buffer + [t]))
  {
    assert ([ForkCall(t)] + calls)[1..] == calls;
  }

  lemma ScheduleRefills(b: seq<Task>)
    ensures Scheduled(Stacks([], b)) == (Stacks(Reversed(b), []), None)
  {
    assert [] + Reversed(b) == Reversed(b);
  }

  lemma SchedulePicks(rest: seq<Task>, top: Task, b: seq<Task>)
    requires top.pure
    ensures Scheduled(Stacks(rest + [top], b)) == (Stacks(rest, b + [top]), Some(top))
  {
    assert (rest + [top])[..|rest|] == rest;
  }

  /** Two tasks that take turns, and one that failed: how they come to stand in each other's way. */
  lemma FailedBetween(first: Task, second: Task, failed: Task, calls: seq<Call>)
    requires first.pure && second.pure
    ensures var s, c := Stacks([second, failed], [first]), [ScheduleCall] + ([ScheduleCall] + ([ScheduleCall] + calls));
      && After(c, Stacks([second], [first, failed])) == After(calls, s)
      && Picks(c, Stacks([second], [first, failed])) == [Some(second)] + ([None] + ([Some(first)] + Picks(calls, s)))
  {
    var c2 := [ScheduleCall] + calls;
    RunSchedule([ScheduleCall] + c2, Stacks([second], [first, failed]));
    SchedulePicks([], second, [first, failed]);
    assert [] + [second] == [second] && [first, failed] + [second] == [first, failed, second];
    RunSchedule(c2, Stacks([], [first, failed, second]));
    ScheduleRefills([first, failed, second]);
    assert Reversed([first, failed, second]) == [second, failed] + [first];
    RunSchedule(calls, Stacks([second, failed] + [first], []));
    SchedulePicks([second, failed], first, []);
    assert [] + [first] == [first];
    hide *;
  }

  lemma TwoForked(first: Task, second: Task, failed: Task, calls: seq<Call>)
    requires first.pure
    ensures var c := [ForkCall(first)] + ([ForkCall(second)] + ([ScheduleCall] + ([ScheduleCall]
                     + ([ForkCall(failed)] + calls))));
      && After(c, Stacks([], [])) == After(calls, Stacks([second], [first, failed]))
      && Picks(c, Stacks([], [])) == [None] + ([Some(first)] + Picks(calls, Stacks([second], [first, failed])))
  {
    var c5 := [ForkCall(failed)] + calls;
    var c3 := [ScheduleCall] + ([ScheduleCall] + c5);
    RunFork(first, [ForkCall(second)] + c3, Stacks([], []));
    assert [] + [first] == [first];
    RunFork(second, c3, Stacks([], [first]));
    assert [first] + [second] == [first, second];
    RunSchedule([ScheduleCall] + c5, Stacks([], [first, second]));
    ScheduleRefills([first, second]);
    assert Reversed([first, second]) == [second] + [first];
    RunSchedule(c5, Stacks([second] + [first], []));
    SchedulePicks([second], first, []);
    RunFork(failed, calls, Stacks([second], [first]));
    assert [first] + [failed] == [first, failed];
    hide *;
  }

  lemma FiveInOrder<T>(a: T, b: T, c: T, d: T, e: T, rest: seq<T>)
    ensures [a] + ([b] + ([c] + ([d] + ([e] + rest)))) == [a, b, c, d, e] + rest
  {}

  lemma ThreeInOrder<T>(a: T, b: T, c: T)
    ensures [a] + ([b] + ([c] + [])) == [a, b, c]
  {}

  /** Its queue, before and after the failed task is dropped. */
  lemma QueueSwapped(first: Task, second: Task, failed: Task)
    requires !failed.pure
    ensures Queue(Stacks([second, failed], [first])) == [failed, second, first]
    ensures Queue(Scheduled(Stacks([second, failed], [first])).0) == [first, second]
  {
    ReversedFew(second, failed);
    ScheduleDrops([second], failed, [first]);
    RefilledQueue(Stacks([second], [first]));
    hide Reversed, Scheduled, Refilled;
    assert [second] + [failed] == [second, failed];
  }

  lemma ReversedFew<T>(x: T, y: T)
    ensures Reversed([x]) == [x] && Reversed([x, y]) == [y, x]
  {}

  /** A failed task can cost others their place: of two tasks that take turns, the first comes twice in a row. */
  lemma OrderLost(first: Task, second: Task, failed: Task)
    requires first.pure && second.pure && !failed.pure
    ensures var calls := [ForkCall(first), ForkCall(second), ScheduleCall, ScheduleCall, ForkCall(failed)]
                         + [ScheduleCall, ScheduleCall, ScheduleCall];
      && After(calls, Stacks([], [])) == Stacks([second, failed], [first])
      && Picks(calls, Stacks([], [])) == [None, Some(first), Some(second), None, Some(first)]
    ensures Queue(Stacks([second, failed], [first])) == [failed, second, first]
    ensures Queue(Scheduled(Stacks([second, failed], [first])).0) == [first, second]
  {
    var s := Stacks([second, failed], [first]);
    var three := [ScheduleCall] + ([ScheduleCall] + ([ScheduleCall] + []));
    assert After([], s) == s && Picks([], s) == [];
    hide *;
    TwoForked(first, second, failed, three);
    FailedBetween(first, second, failed, []);
    FiveInOrder(ForkCall(first), ForkCall(second), ScheduleCall, ScheduleCall, ForkCall(failed), three);
    ThreeInOrder(ScheduleCall, ScheduleCall, ScheduleCall);
    FiveInOrder(None, Some(first), Some(second), None, Some(first), []);
    QueueSwapped(first, second, failed);
  }

  function PickOf(o: Option<Task>): seq<Task> {
    if o.Some? then [o.value] else []
  }

  /** The tasks a sequence of calls picked. */
  function Picked(picks: seq<Option<Task>>): seq<Task> {
    if picks == [] then [] else PickOf(picks[0]) + Picked(picks[1..])
  }

  function Calls(n: nat): seq<Call> {
    if n == 0 then [] else [ScheduleCall] + Calls(n - 1)
  }

  lemma {:induction false} CallsSplit(a: nat, b: nat)
    ensures Calls(a + b) == Calls(a) + Calls(b)
  {
    if a > 0 {
      CallsSplit(a - 1, b);
    }
  }

  lemma {:induction false} PicksSplit(a: seq<Call>, b: seq<Call>, s: Stacks)
    ensures After(a + b, s) == After(b, After(a, s))
    ensures Picks(a + b, s) == Picks(a, s) + Picks(b, After(a, s))
  {
    if a == [] {
      assert a + b == b;
    } else {
      assert (a + b)[1..] == a[1..] + b;
      match a[0]
      case ScheduleCall => PicksSplit(a[1..], b, Scheduled(s).0);
      case ForkCall(t) => PicksSplit(a[1..], b, Forked(s, t));
    }
  }

  lemma Front<T>(a: seq<T>, b: seq<T>)
    requires a != []
    ensures (a + b)[0] == a[0] && (a + b)[1..] == a[1..] + b
  {}

  lemma Associate<T>(a: seq<T>, b: seq<T>, c: seq<T>)
    ensures (a + b) + c == a + (b + c)
  {}

  lemma {:induction false} PickedSplit(a: seq<Option<Task>>, b: seq<Option<Task>>)
    ensures Picked(a + b) == Picked(a) + Picked(b)
  {
    if a == [] {
      assert a + b == b;
    } else {
      hide *;
      PickedFirst(a);
      PickedFirst(a + b);
      Front(a, b);
      PickedSplit(a[1..], b);
      Associate(PickOf(a[0]), Picked(a[1..]), Picked(b));
    }
  }

  lemma PickedFirst(a: seq<Option<Task>>)
    requires a != []
    ensures Picked(a) == PickOf(a[0]) + Picked(a[1..])
  {}

  predicate AllPure(q: seq<Task>) {
    forall x :: 0 <= x < |q| ==> q[x].pure
  }

  lemma {:induction false} PickedMembers(picks: seq<Option<Task>>)
    requires forall i :: 0 <= i < |picks| && picks[i].Some? ==> picks[i].value.pure
    ensures AllPure(Picked(picks))
  {
    if picks != [] {
      PickedMembers(picks[1..]);
    }
  }

  /** `n` calls while the tasks last: they pick the first `n` of the queue, and leave them at its end, exactly when
      all of these were set up. */
  lemma {:induction false} PicksFromTasks(s: Stacks, n: nat)
    requires n <= |s.tasks|
    ensures n <= |Queue(s)| && (AllPure(Queue(s)[..n]) <==> Picked(Picks(Calls(n), s)) == Queue(s)[..n])
    ensures AllPure(Queue(s)[..n]) ==>
      && |After(Calls(n), s).tasks| == |s.tasks| - n
      && Queue(After(Calls(n), s)) == Queue(s)[n..] + Queue(s)[..n]
    decreases n
  {
    RoomInBuffer(s);
    PicksPure(Calls(n), s);
    PickedMembers(Picks(Calls(n), s));
    if AllPure(Queue(s)[..n]) {
      FirstPicked(s, n);
    }
    hide *;
  }

  lemma {:induction false} FirstPicked(s: Stacks, n: nat)
    requires n <= |s.tasks| && n <= |Queue(s)| && AllPure(Queue(s)[..n])
    ensures |After(Calls(n), s).tasks| == |s.tasks| - n
    ensures Queue(After(Calls(n), s)) == Queue(s)[n..] + Queue(s)[..n]
    ensures Picked(Picks(Calls(n), s)) == Queue(s)[..n]
    decreases n
  {
    if n > 0 {
      var q, s2, q2 := Queue(s), Scheduled(s).0, Queue(Scheduled(s).0);
      assert q[..n][0] == q[0];
      QueueHead(s);
      PickRotates(s);
      RoomInBuffer(s2);
      Rotated(q, q2, n);
      FirstPicked(s2, n - 1);
      assert Calls(n)[1..] == Calls(n - 1);
      assert Picks(Calls(n), s) == [Some(q[0])] + Picks(Calls(n - 1), s2);
      hide Queue, Calls, Picks, After;
      PickedSplit([Some(q[0])], Picks(Calls(n - 1), s2));
      assert Picked([Some(q[0])]) == [q[0]];
    }
  }

  lemma Rotated(q: seq<Task>, q2: seq<Task>, n: nat)
    requires 0 < n <= |q| && q2 == q[1..] + [q[0]]
    ensures [q[0]] + q2[..n - 1] == q[..n]
    ensures q2[n - 1..] + q2[..n - 1] == q[n..] + q[..n]
    ensures AllPure(q[..n]) ==> AllPure(q2[..n - 1])
  {
    assert q2[..n - 1] == q[..n][1..];
  }

  /** With no task left, the first call only refills. */
  lemma Emptied(s: Stacks, n: nat)
    requires s.tasks == []
    ensures Queue(Refilled(s)) == Queue(s) && |Refilled(s).tasks| == |Queue(s)|
    ensures After(Calls(n + 1), s) == After(Calls(n), Refilled(s))
    ensures Picked(Picks(Calls(n + 1), s)) == Picked(Picks(Calls(n), Refilled(s)))
  {
    RefillKeepsQueue(s);
    RoomInBuffer(s);
    assert |Refilled(s).tasks| == |s.buffer|;
    hide Queue, Refilled;
    assert Calls(n + 1)[1..] == Calls(n);
    var rest := Picks(Calls(n), Refilled(s));
    assert Picks(Calls(n + 1), s) == [None] + rest;
    assert ([None] + rest)[1..] == rest;
  }

  /** A run of calls, cut in two. */
  lemma RunSplit(a: nat, b: nat, s: Stacks)
    ensures After(Calls(a + b), s) == After(Calls(b), After(Calls(a), s))
    ensures Picked(Picks(Calls(a + b), s)) == Picked(Picks(Calls(a), s)) + Picked(Picks(Calls(b), After(Calls(a), s)))
  {
    CallsSplit(a, b);
    PicksSplit(Calls(a), Calls(b), s);
    PickedSplit(Picks(Calls(a), s), Picks(Calls(b), After(Calls(a), s)));
    hide *;
  }

  lemma BackAgain(q: seq<Task>, k: nat)
    requires k <= |q|
    ensures q[..k] + (q[k..] + q[..k])[..|q| - k] == q
    ensures (q[k..] + q[..k])[|q| - k..] + (q[k..] + q[..k])[..|q| - k] == q
    ensures AllPure(q) ==> AllPure(q[..k]) && AllPure((q[k..] + q[..k])[..|q| - k])
  {}

  /** Out of tasks: a refill, and `n` picks. */
  lemma SecondHalf(s: Stacks, n: nat)
    requires s.tasks == [] && n <= |Queue(s)| && AllPure(Queue(s)[..n])
    ensures Picked(Picks(Calls(n + 1), s)) == Queue(s)[..n]
    ensures Queue(After(Calls(n + 1), s)) == Queue(s)[n..] + Queue(s)[..n]
  {
    hide *;
    Emptied(s, n);
    PicksFromTasks(Refilled(s), n);
  }

  /** From any state, a window of n + 1 `schedule` calls picks the n tasks once each, in the order of the queue, exactly
      when all of them were set up; it then leaves the queue as it found it. */
  lemma RoundRobin(s: Stacks)
    ensures Picked(Picks(Calls(|Queue(s)| + 1), s)) == Queue(s) <==> AllPure(Queue(s))
    ensures AllPure(Queue(s)) ==> Queue(After(Calls(|Queue(s)| + 1), s)) == Queue(s)
  {
    PicksPure(Calls(|Queue(s)| + 1), s);
    PickedMembers(Picks(Calls(|Queue(s)| + 1), s));
    if AllPure(Queue(s)) {
      FullRound(s);
    }
    hide *;
  }

  lemma FullRound(s: Stacks)
    requires AllPure(Queue(s))
    ensures Picked(Picks(Calls(|Queue(s)| + 1), s)) == Queue(s)
    ensures Queue(After(Calls(|Queue(s)| + 1), s)) == Queue(s)
  {
    var q, k := Queue(s), |s.tasks|;
    RoomInBuffer(s);
    hide *;
    BackAgain(q, k);
    PicksFromTasks(s, k);
    SecondHalf(After(Calls(k), s), |q| - k);
    RunSplit(k, |q| - k + 1, s);
  }
}
