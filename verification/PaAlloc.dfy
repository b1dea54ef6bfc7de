/** The page allocator of pa_alloc.c: a free list threaded through the free pages themselves. */
module PaAlloc {
  import opened Bits
  import opened Arch
  import opened Accesses
  import opened PageTables

  // ----- The free list -----

  /** The address the link before entry `k` of the list holds. */
  function LinkTo(free: seq<nat>, k: nat, terminal: Word): int {
    if k < |free| then free[k] * PAGE_SIZE else terminal
  }

  /** Entry `k` is a page whose first word is the link to the next entry. */
  predicate Entry(m: seq<Word>, free: seq<nat>, k: nat, terminal: Word)
    requires k < |free|
  {
    && 0 < free[k] < FRAME_LIMIT && InMemory(m, free[k]) && free[k] * PAGE_SIZE != terminal
    && Slot(m, free[k], 0) == LinkTo(free, k + 1, terminal)
  }

  /** From `head` on, the links run through the pages of `free`, once each, to `terminal`. */
  ghost predicate FreeList(m: seq<Word>, head: Word, free: seq<nat>, terminal: Word) {
    && head == LinkTo(free, 0, terminal)
    && (forall k :: 0 <= k < |free| ==> Entry(m, free, k, terminal))
    && (forall j, k :: 0 <= j < k < |free| ==> free[j] != free[k])
  }

  lemma FreeListTail(m: seq<Word>, head: Word, free: seq<nat>, terminal: Word)
    requires FreeList(m, head, free, terminal) && free != []
    ensures InMemory(m, free[0]) && FreeList(m, Slot(m, free[0], 0), free[1..], terminal)
    ensures free[0] !in free[1..]
  {
    assert Entry(m, free, 0, terminal);
    forall k | 0 <= k < |free| - 1
      ensures Entry(m, free[1..], k, terminal)
    {
      assert Entry(m, free, k + 1, terminal);
    }
  }

  lemma FreeListPush(m: seq<Word>, m2: seq<Word>, head: Word, free: seq<nat>, terminal: Word, p: nat)
    requires FreeList(m, head, free, terminal) && p !in free
    requires 0 < p < FRAME_LIMIT && p * PAGE_SIZE != terminal && Stored(m, m2, p, 0, head)
    ensures FreeList(m2, p * PAGE_SIZE, [p] + free, terminal)
  {
    var free2 := [p] + free;
    forall k | 0 <= k < |free2|
      ensures Entry(m2, free2, k, terminal)
    {
      if k > 0 {
        assert Entry(m, free, k - 1, terminal) && free2[k] == free[k - 1] != p;
      }
    }
  }

  lemma FreeListKept(m: seq<Word>, m2: seq<Word>, head: Word, free: seq<nat>, terminal: Word, p: nat)
    requires FreeList(m, head, free, terminal) && p !in free && Elsewhere(m, m2, p)
    ensures FreeList(m2, head, free, terminal)
  {
    forall k | 0 <= k < |free|
      ensures Entry(m2, free, k, terminal)
    {
      assert Entry(m, free, k, terminal) && free[k] != p;
    }
  }

  // ----- Who owns which page -----

  /** The pages of the pool are free, tables, or handed out; other tables live outside the pool. */
  datatype Ownership = Ownership(pool: set<nat>, free: seq<nat>, held: set<nat>, tables: Tables)

  ghost predicate Partition(o: Ownership) {
    && 0 !in o.pool && o.held <= o.pool
    && (forall p :: p in o.free ==> p in o.pool && p !in o.held && p !in o.tables.Values)
    && (forall p :: p in o.held ==> p !in o.tables.Values)
    && (forall p :: p in o.pool ==> p in o.free || p in o.held || p in o.tables.Values)
    && (forall n :: n in o.tables && n.level > 0 ==> o.tables[n] in o.pool)
  }

  /** The invariant of every run of the allocator and of the page table code. */
  ghost predicate State(m: seq<Word>, head: Word, terminal: Word, o: Ownership) {
    && FreeList(m, head, o.free, terminal)
    && Forest(m, o.tables)
    && Partition(o)
    && (forall p :: p in o.pool ==> p < FRAME_LIMIT && InMemory(m, p) && p * PAGE_SIZE != terminal)
  }

  function Members(free: seq<nat>): set<nat> {
    set p | p in free
  }

  lemma {:induction false} DistinctCount(free: seq<nat>)
    requires forall j, k :: 0 <= j < k < |free| ==> free[j] != free[k]
    ensures |Members(free)| == |free|
  {
    if free != [] {
      DistinctCount(free[1..]);
      assert Members(free) == Members(free[1..]) + {free[0]};
    }
  }

  /** Free pages, pages handed out and tables of the pool are disjoint and make up the pool: none is lost. */
  lemma PoolAccounted(m: seq<Word>, head: Word, terminal: Word, o: Ownership)
    requires State(m, head, terminal, o)
    ensures var tables := o.pool * o.tables.Values;
      && Members(o.free) !! o.held !! tables && Members(o.free) + o.held + tables == o.pool
      && |o.free| + |o.held| + |tables| == |o.pool|
  {
    DistinctCount(o.free);
    Disjoint(o);
    var free, tables := Members(o.free), o.pool * o.tables.Values;
    hide *;
    assert |free + o.held| == |free| + |o.held| && |free + o.held + tables| == |free + o.held| + |tables|;
  }

  lemma Disjoint(o: Ownership)
    requires Partition(o)
    ensures Members(o.free) !! o.held !! o.pool * o.tables.Values
    ensures Members(o.free) + o.held + o.pool * o.tables.Values == o.pool
  {}

  /** The state after the first free page is handed out. */
  function Popped(o: Ownership): Ownership
    requires o.free != []
  {
    o.(free := o.free[1..], held := o.held + {o.free[0]})
  }

  lemma PopState(m: seq<Word>, head: Word, terminal: Word, o: Ownership)
    requires State(m, head, terminal, o) && o.free != []
    ensures InMemory(m, o.free[0]) && State(m, Slot(m, o.free[0], 0), terminal, Popped(o))
  {
    FreeListTail(m, head, o.free, terminal);
    assert forall p :: p in o.free <==> p == o.free[0] || p in o.free[1..];
  }

  /** The state after page `p` is put in front of the list; it may be new to the pool. */
  function Pushed(o: Ownership, p: nat): Ownership {
    o.(pool := o.pool + {p}, free := [p] + o.free, held := o.held - {p})
  }

  lemma PushState(m: seq<Word>, m2: seq<Word>, head: Word, terminal: Word, o: Ownership, p: nat)
    requires State(m, head, terminal, o) && Stored(m, m2, p, 0, head)
    requires p in o.held || (p !in o.pool && p !in o.tables.Values)
    requires 0 < p < FRAME_LIMIT && p * PAGE_SIZE != terminal
    ensures State(m2, p * PAGE_SIZE, terminal, Pushed(o, p)) && SameTranslation(m, m2, o.tables)
  {
    hide Forest, SameTranslation;
    StoredElsewhere(m, m2, p, 0, head);
    WriteOutside(m, m2, o.tables, p);
    FreeListPush(m, m2, head, o.free, terminal, p);
    assert forall q :: q in [p] + o.free <==> q == p || q in o.free;
  }

  lemma StoredElsewhere(m: seq<Word>, m2: seq<Word>, p: nat, i: nat, e: Word)
    requires Stored(m, m2, p, i, e)
    ensures Elsewhere(m, m2, p)
  {}

  /** Writing to a page that is neither free nor a table keeps the state. */
  lemma OutsideState(m: seq<Word>, m2: seq<Word>, head: Word, terminal: Word, o: Ownership, p: nat)
    requires State(m, head, terminal, o) && Elsewhere(m, m2, p)
    requires p !in o.free && p !in o.tables.Values
    ensures State(m2, head, terminal, o) && SameTranslation(m, m2, o.tables)
  {
    hide Forest, SameTranslation;
    WriteOutside(m, m2, o.tables, p);
    FreeListKept(m, m2, head, o.free, terminal, p);
  }

  /** A word store, seen slot by slot. */
  lemma StoreSlot(m: seq<Word>, p: nat, i: nat, e: Word)
    requires InMemory(m, p) && i < 512
    ensures Stored(m, m[p * 512 + i := e], p, i, e)
  {}

  // ----- The lock -----

  /** What code does with the lock, the head of the list, and the link in the first word of a page. */
  datatype Event = LockTaken | LockFreed | HeadRead | HeadWritten | LinkRead | LinkWritten

  /** Whether the lock is held after these events. */
  predicate Held(log: seq<Event>) {
    log != [] && (var last := log[|log| - 1]; last.LockTaken? || (!last.LockFreed? && Held(log[..|log| - 1])))
  }

  /** How often the list was read or written while the lock was not held. */
  function Unlocked(log: seq<Event>): nat {
    if log == [] then 0
    else
      var before, last := log[..|log| - 1], log[|log| - 1];
      Unlocked(before) + if last.LockTaken? || last.LockFreed? || Held(before) then 0 else 1
  }

  /** How often the lock was taken. */
  function Acquired(log: seq<Event>): nat {
    if log == [] then 0 else Acquired(log[..|log| - 1]) + if log[|log| - 1].LockTaken? then 1 else 0
  }

  lemma LogEnd(log: seq<Event>, e: Event)
    ensures Held(log + [e]) <==> e.LockTaken? || (!e.LockFreed? && Held(log))
    ensures Unlocked(log + [e]) == Unlocked(log) + if e.LockTaken? || e.LockFreed? || Held(log) then 0 else 1
    ensures Acquired(log + [e]) == Acquired(log) + if e.LockTaken? then 1 else 0
  {
    assert (log + [e])[..|log|] == log;
  }

  /** A section reads and writes the list under the lock alone. */
  lemma SectionLog(log: seq<Event>, section: seq<Event>)
    requires !Held(log)
    requires section in {[LockTaken, HeadRead, LockFreed], [LockTaken, HeadRead, LinkRead, HeadWritten, LockFreed],
                         [LockTaken, HeadRead, LinkWritten, HeadWritten, LockFreed]}
    ensures !Held(log + section) && Unlocked(log + section) == Unlocked(log)
    ensures Acquired(log + section) == Acquired(log) + 1
  {
    hide Held, Unlocked, Acquired;
    LogEnd(log, section[0]);
    LogEnd(log + section[..1], section[1]);
    LogEnd(log + section[..2], section[2]);
    assert log + section[..1] == log + [section[0]] && log + section[..2] == log + section[..1] + [section[1]];
    assert log + section[..3] == log + section[..2] + [section[2]];
    if |section| == 5 {
      LogEnd(log + section[..3], section[3]);
      LogEnd(log + section[..4], section[4]);
      assert log + section[..4] == log + section[..3] + [section[3]];
      assert log + section == log + section[..4] + [section[4]];
    } else {
      assert section[..3] == section;
    }
  }

  /** Code without the lock leaves it alone, and each of its accesses counts. */
  lemma {:induction false} BareLog(log: seq<Event>, more: seq<Event>)
    requires forall i :: 0 <= i < |more| ==> !more[i].LockTaken? && !more[i].LockFreed?
    ensures Held(log + more) == Held(log) && Acquired(log + more) == Acquired(log)
    ensures Unlocked(log + more) == Unlocked(log) + if Held(log) then 0 else |more|
    decreases |more|
  {
    hide Held, Unlocked, Acquired;
    if more == [] {
      assert log + more == log;
    } else {
      var n := |more| - 1;
      BareLog(log, more[..n]);
      LogEnd(log + more[..n], more[n]);
      assert log + more == log + more[..n] + [more[n]];
    }
  }

  /** Physical memory with the allocator's list head and lock, and the record of who owns each page. */
  class Machine {
    const mem: array<Word>
    const terminal: Word
    const headAt: Word
    const lockAt: Word
    var freepages: Word
    var locked: bool
    ghost var own: Ownership
    ghost var log: seq<Event>

    ghost predicate Valid()
      reads this, mem
    {
      State(mem[..], freepages, terminal, own) && locked == Held(log)
    }

    /** What the code can see of the state. */
    ghost function Ram(): Ram
      reads this, mem
    {
      Accesses.Ram(mem[..], freepages)
    }

    function Globals(): Globals {
      Accesses.Globals(terminal, headAt, lockAt)
    }

    /** TERMINAL_PAGE ends the list, which is empty until `InitPaAlloc`. */
    constructor (mem: array<Word>, globals: Globals)
      ensures Valid() && !locked && this.mem == mem && Globals() == globals
      ensures own == Ownership({}, [], {}, map[]) && log == []
    {
      this.mem := mem;
      terminal, headAt, lockAt := globals.terminal, globals.headAt, globals.lockAt;
      freepages := globals.terminal;
      locked := false;
      own := Ownership({}, [], {}, map[]);
      log := [];
    }

    /** A caller that finds the lock taken spins; one core alone never does. */
    method Acquire()
      requires !locked
      modifies this`locked, this`log
      ensures locked && log == old(log) + [LockTaken]
    {
      locked, log := true, log + [LockTaken];
    }

    method Release()
      modifies this`locked, this`log
      ensures !locked && log == old(log) + [LockFreed]
    {
      locked, log := false, log + [LockFreed];
    }

    method ReadHead() returns (head: Word)
      modifies this`log
      ensures head == freepages && log == old(log) + [HeadRead]
    {
      head, log := freepages, log + [HeadRead];
    }

    method WriteHead(head: Word)
      modifies this`freepages, this`log
      ensures freepages == head && log == old(log) + [HeadWritten]
    {
      freepages, log := head, log + [HeadWritten];
    }

    method ReadLink(page: Word) returns (next: Word)
      requires page / 8 < mem.Length
      modifies this`log
      ensures next == mem[page / 8] && log == old(log) + [LinkRead]
    {
      next, log := mem[page / 8], log + [LinkRead];
    }

    method WriteLink(page: Word, next: Word)
      requires page / 8 < mem.Length
      modifies this`log, mem
      ensures mem[..] == old(mem[..])[page / 8 := next] && log == old(log) + [LinkWritten]
    {
      mem[page / 8] := next;
      log := log + [LinkWritten];
    }
  }

  /** Hand out the first page of the list, or 0 when there is none. */
  method GetPageUnsafe(k: Machine) returns (page: Word)
    requires k.Valid()
    modifies k`freepages, k`own, k`log
    ensures k.Valid()
    ensures old(k.own).free == [] ==> page == 0 && k.own == old(k.own)
    ensures old(k.own).free != [] ==> page == old(k.own).free[0] * PAGE_SIZE && k.own == Popped(old(k.own))
    ensures TakeOn(Off, old(k.Ram()), k.Globals()) == Done((k.Ram(), page))
    ensures k.log == old(k.log) + if old(k.own).free == [] then [HeadRead] else [HeadRead, LinkRead, HeadWritten]
    ensures Acquired(k.log) == Acquired(old(k.log))
  {
    hide State, Held, Acquired, Unlocked;
    ghost var log := k.log;
    FirstEntry(k.mem[..], k.freepages, k.terminal, k.own);
    page := k.ReadHead();
    BareLog(log, [HeadRead]);
    if page == k.terminal {
      return 0;
    }
    PopState(k.mem[..], k.freepages, k.terminal, k.own);
    Unlink(k, page);
    k.own := Popped(k.own);
    assert k.log == log + [HeadRead, LinkRead, HeadWritten];
    BareLog(log, [HeadRead, LinkRead, HeadWritten]);
  }

  /** freepages = page->next. */
  method Unlink(k: Machine, page: Word)
    requires page / 8 < k.mem.Length
    modifies k`freepages, k`log
    ensures k.freepages == k.mem[page / 8] && k.log == old(k.log) + [LinkRead, HeadWritten]
  {
    hide *;
    var next := k.ReadLink(page);
    k.WriteHead(next);
  }

  /** What the head says: the list is empty, or where its first page is. */
  lemma FirstEntry(m: seq<Word>, head: Word, terminal: Word, o: Ownership)
    requires State(m, head, terminal, o)
    ensures o.free == [] <==> head == terminal
    ensures o.free != [] ==>
      && head == o.free[0] * PAGE_SIZE && InMemory(m, o.free[0]) && head / 8 < |m|
      && m[head / 8] == Slot(m, o.free[0], 0)
  {
    if o.free != [] {
      assert Entry(m, o.free, 0, terminal);
    }
  }

  /** The same under the lock, which is released on both ways out. */
  method GetPage(k: Machine) returns (page: Word)
    requires k.Valid() && !k.locked
    modifies k
    ensures k.Valid() && !k.locked
    ensures old(k.own).free == [] ==> page == 0 && k.own == old(k.own)
    ensures old(k.own).free != [] ==> page == old(k.own).free[0] * PAGE_SIZE && k.own == Popped(old(k.own))
    ensures TakeOn(Off, old(k.Ram()), k.Globals()) == Done((k.Ram(), page))
    ensures k.log == old(k.log) + if old(k.own).free == [] then [LockTaken, HeadRead, LockFreed]
                                  else [LockTaken, HeadRead, LinkRead, HeadWritten, LockFreed]
    ensures Unlocked(k.log) == Unlocked(old(k.log))
  {
    hide State, Held, Acquired, Unlocked;
    ghost var log := k.log;
    FirstEntry(k.mem[..], k.freepages, k.terminal, k.own);
    k.Acquire();
    page := k.ReadHead();
    if page == k.terminal {
      k.Release();
      assert k.log == log + [LockTaken, HeadRead, LockFreed];
      SectionLog(log, [LockTaken, HeadRead, LockFreed]);
      return 0;
    }
    PopState(k.mem[..], k.freepages, k.terminal, k.own);
    Unlink(k, page);
    k.own := Popped(k.own);
    k.Release();
    assert k.log == log + [LockTaken, HeadRead, LinkRead, HeadWritten, LockFreed];
    SectionLog(log, [LockTaken, HeadRead, LinkRead, HeadWritten, LockFreed]);
  }

  /** Take back a page that was handed out; the first `Acquire` is the one the source intends. */
  method FreePage(k: Machine, paddr: Word) returns (ok: bool)
    requires k.Valid() && !k.locked
    requires paddr != 0 ==> paddr % PAGE_SIZE == 0 && paddr / PAGE_SIZE in k.own.held
    modifies k, k.mem
    ensures k.Valid() && !k.locked && ok == (paddr != 0)
    ensures k.own == if ok then Pushed(old(k.own), paddr / PAGE_SIZE) else old(k.own)
    ensures SameTranslation(old(k.mem[..]), k.mem[..], k.own.tables)
    ensures !ok ==> k.mem[..] == old(k.mem[..]) && k.freepages == old(k.freepages)
    ensures ok ==> paddr / 8 < k.mem.Length && k.mem[..] == old(k.mem[..])[paddr / 8 := old(k.freepages)]
    ensures FreeOn(Off, old(k.Ram()), k.Globals(), paddr) == Done((k.Ram(), ok))
    ensures k.log == old(k.log) + if ok then [LockTaken, HeadRead, LinkWritten, HeadWritten, LockFreed] else []
    ensures Unlocked(k.log) == Unlocked(old(k.log))
  {
    hide Held, Acquired, Unlocked;
    ghost var log := k.log;
    if paddr == 0 {
      return false;
    }
    k.Acquire();
    LogEnd(log, LockTaken);
    Push(k, paddr);
    k.Release();
    assert k.log == log + [LockTaken, HeadRead, LinkWritten, HeadWritten, LockFreed];
    SectionLog(log, [LockTaken, HeadRead, LinkWritten, HeadWritten, LockFreed]);
    return true;
  }

  /** page->next = freepages; freepages = page. */
  method Push(k: Machine, page: Word)
    requires k.Valid() && page % PAGE_SIZE == 0
    requires var p := page / PAGE_SIZE;
      && (p in k.own.held || (p !in k.own.pool && p !in k.own.tables.Values))
      && 0 < p < FRAME_LIMIT && InMemory(k.mem[..], p) && page != k.terminal
    modifies k`freepages, k`own, k`log, k.mem
    ensures k.Valid() && k.own == Pushed(old(k.own), page / PAGE_SIZE)
    ensures SameTranslation(old(k.mem[..]), k.mem[..], k.own.tables)
    ensures k.mem[..] == old(k.mem[..])[page / 8 := old(k.freepages)] && k.freepages == page
    ensures k.log == old(k.log) + [HeadRead, LinkWritten, HeadWritten] && Acquired(k.log) == Acquired(old(k.log))
  {
    hide Held, Acquired, Unlocked;
    ghost var p := page / PAGE_SIZE;
    ghost var m, log := k.mem[..], k.log;
    StoreSlot(m, p, 0, k.freepages);
    var head := k.ReadHead();
    k.WriteLink(page, head);
    assert k.mem[..] == m[p * 512 := head];
    PushState(m, k.mem[..], k.freepages, k.terminal, k.own, p);
    k.WriteHead(page);
    k.own := Pushed(k.own, p);
    assert k.log == log + [HeadRead, LinkWritten, HeadWritten];
    BareLog(log, [HeadRead, LinkWritten, HeadWritten]);
  }

  /** The frames `first` to `last - 1`, highest first. */
  function Descending(first: nat, last: nat): (r: seq<nat>)
    requires first <= last
    ensures |r| == last - first
    ensures forall i :: 0 <= i < |r| ==> r[i] == last - 1 - i
  {
    seq(last - first, i requires 0 <= i < last - first => last - 1 - i)
  }

  /** The pages from `start` up to `pointer` are listed, and counted. */
  ghost predicate ListedTo(o: Ownership, start: Word, pointer: Word, pages: nat) {
    && start <= pointer && start % PAGE_SIZE == 0 && pointer % PAGE_SIZE == 0 && pages * PAGE_SIZE == pointer - start
    && o.held == {} && o.tables == map[]
    && o.free == Descending(start / PAGE_SIZE, pointer / PAGE_SIZE)
    && forall p :: p in o.pool <==> start <= p * PAGE_SIZE < pointer
  }

  /** Words outside `first` to `last - 1` are as they were. */
  ghost predicate SameOutside(m: seq<Word>, m2: seq<Word>, first: nat, last: nat) {
    |m2| == |m| && forall i :: 0 <= i < |m| && !(first <= i < last) ==> m2[i] == m[i]
  }

  lemma NothingListed(m: seq<Word>, start: Word, end: Word)
    requires start % PAGE_SIZE == 0
    ensures ListedTo(Ownership({}, [], {}, map[]), start, start, 0) && SameOutside(m, m, start / 8, end / 8)
  {}

  lemma ListTurn(o: Ownership, start: Word, pointer: Word, pages: nat)
    requires ListedTo(o, start, pointer, pages) && pointer + 0x1000 < 0x1_0000_0000_0000_0000
    ensures pointer / PAGE_SIZE !in o.pool && o.tables.Values == {}
    ensures ListedTo(Pushed(o, pointer / PAGE_SIZE), start, pointer + 0x1000, pages + 1)
  {
    var last := pointer / PAGE_SIZE;
    assert pointer == last * PAGE_SIZE && (pointer + 0x1000) / PAGE_SIZE == last + 1;
  }

  lemma ListBounds(m: seq<Word>, start: Word, end: Word, pointer: Word, head: Word)
    requires 0 < start <= pointer < end < VA_LIMIT && pointer % PAGE_SIZE == 0 && end % PAGE_SIZE == 0 && end / 8 <= |m|
    ensures 0 < pointer / PAGE_SIZE < FRAME_LIMIT && InMemory(m, pointer / PAGE_SIZE) && pointer + 0x1000 <= end
    ensures pointer / 8 < |m| && SameOutside(m, m[pointer / 8 := head], start / 8, end / 8)
  {}

  lemma OutsideTwice(m: seq<Word>, m2: seq<Word>, m3: seq<Word>, first: nat, last: nat)
    requires SameOutside(m, m2, first, last) && SameOutside(m2, m3, first, last)
    ensures SameOutside(m, m3, first, last)
  {}

  /** Thread every page from `start` to `end` onto the list; returns how many there are. */
  method InitPaAlloc(k: Machine, start: Word, end: Word) returns (pages: Word)
    requires k.Valid() && k.own == Ownership({}, [], {}, map[])
    requires 0 < start <= end < VA_LIMIT && start % PAGE_SIZE == 0 && end % PAGE_SIZE == 0
    requires end / 8 <= k.mem.Length && !(start <= k.terminal < end)
    modifies k`freepages, k`own, k`log, k.mem
    ensures k.Valid() && k.own.held == {} && k.own.tables == map[] && Acquired(k.log) == Acquired(old(k.log))
    ensures k.own.free == Descending(start / PAGE_SIZE, end / PAGE_SIZE)
    ensures forall p :: p in k.own.pool <==> start <= p * PAGE_SIZE < end
    ensures pages == (end - start) / PAGE_SIZE == |k.own.free|
    ensures SameOutside(old(k.mem[..]), k.mem[..], start / 8, end / 8)
  {
    hide State, Descending, SameOutside;
    ghost var m := k.mem[..];
    pages := 0;
    var pointer: Word := start;
    NothingListed(m, start, end);
    assert ListedTo(k.own, start, pointer, pages);
    while pointer < end
      invariant ListedTo(k.own, start, pointer, pages) && start <= pointer <= end && pointer % PAGE_SIZE == 0
      invariant pages * PAGE_SIZE == pointer - start
      invariant k.Valid() && SameOutside(m, k.mem[..], start / 8, end / 8)
      invariant Acquired(k.log) == Acquired(old(k.log))
    {
      hide *;
      ghost var m2 := k.mem[..];
      ListBounds(m2, start, end, pointer, k.freepages);
      ListTurn(k.own, start, pointer, pages);
      Push(k, pointer);
      OutsideTwice(m, m2, k.mem[..], start / 8, end / 8);
      pointer := pointer + 0x1000;
      pages := pages + 1;
    }
  }

  /** The list `InitPaAlloc` builds is handed out from the top of the range down, and then it is empty. */
  lemma {:induction false} DrainsDownwards(o: Ownership, first: nat, last: nat, n: nat)
    requires first <= last && o.free == Descending(first, last) && n <= last - first
    ensures AfterPops(o, n).free == Descending(first, last - n)
    ensures n < last - first ==> AfterPops(o, n).free[0] == last - 1 - n
  {
    if n > 0 {
      DrainsDownwards(o, first, last, n - 1);
    }
  }

  function AfterPops(o: Ownership, n: nat): Ownership {
    if n == 0 then o
    else if AfterPops(o, n - 1).free == [] then AfterPops(o, n - 1)
    else Popped(AfterPops(o, n - 1))
  }
}
