/** Bringing up the cores: boot.S and start.c, one memory access a step. */
module Boot {

  /** Where a core stands; the comments give the step it takes next. */
  datatype Pc =
    | ZeroBss(at: nat)       // core 0: clear word `at` of bss, or leave the loop
    | StoreClear             // core 0: set _bss_is_clear
    | WaitClear              // others: load _bss_is_clear
    | Configure              // set up the system registers
    | ListPages              // core 0: init_pa_alloc
    | BuildTables(left: nat, free: nat) // core 0: one unlocked get_page_unsafe of kpgtbl_init, or return from it
    | StoreEl3               // core 0: set the EL3 completion flag
    | WaitEl3                // others: load it
    | SetBases               // both base registers get the kernel's root
    | EnableMmu              // turn on the MMU, and go to EL1
    | SetUpDevices           // core 0: uart, printf, interrupt controller, timer
    | StoreEl1               // core 0: set the EL1 completion flag
    | WaitEl1                // others: load it
    | Kernel                 // kernel_main, which may call get_page
    | LockedGet              // inside get_page

  /** What a core has in its own system registers: translation control and memory types, the kernel's root in both base
      registers, the MMU enable bit. */
  datatype Registers = Registers(configured: bool, based: bool, mmu: bool)

  /** Shared memory and cores. The EL3 flag is word `flag` of bss, whose words are arbitrary at power-on. The last
      four fields are auxiliary: they record what core 0 has done. `built` says that kpgtbl_init has returned, and
      `complete` that it returned 0; the code does not look at that result. */
  datatype State = State(bss: seq<nat>, flag: nat, bssIsClear: bool, el1Done: bool, cores: seq<Pc>,
                         registers: seq<Registers>, listed: bool, built: bool, complete: bool, devices: bool)

  predicate Formed(s: State) {
    |s.cores| == |s.registers| > 0 && s.flag < |s.bss|
  }

  /** Where core `c` goes next; `tables` is the number of pages kpgtbl_init needs, `pool` the number
      that init_pa_alloc lists. */
  function NextPc(s: State, c: nat, tables: nat, pool: nat): Pc
    requires Formed(s) && c < |s.cores|
  {
    match s.cores[c]
    case ZeroBss(i) => if i < |s.bss| then ZeroBss(i + 1) else StoreClear
    case StoreClear => Configure
    case WaitClear => if s.bssIsClear then Configure else WaitClear
    case Configure => if c == 0 then ListPages else WaitEl3
    case ListPages => BuildTables(tables, pool)
    case BuildTables(n, f) => if n > 0 && f > 0 then BuildTables(n - 1, f - 1) else StoreEl3
    case StoreEl3 => SetBases
    case WaitEl3 => if s.bss[s.flag] != 0 then SetBases else WaitEl3
    case SetBases => EnableMmu
    case EnableMmu => if c == 0 then SetUpDevices else WaitEl1
    case SetUpDevices => StoreEl1
    case StoreEl1 => Kernel
    case WaitEl1 => if s.el1Done then Kernel else WaitEl1
    case Kernel => LockedGet
    case LockedGet => Kernel
  }

  /** What the step stores in bss. */
  function NextBss(s: State, pc: Pc): seq<nat>
    requires Formed(s)
  {
    if pc.ZeroBss? && pc.at < |s.bss| then s.bss[pc.at := 0]
    else if pc.StoreEl3? then s.bss[s.flag := 1]
    else s.bss
  }

  /** What the step writes to the core's registers. */
  function NextRegisters(r: Registers, pc: Pc): Registers {
    match pc
    case Configure => r.(configured := true)
    case SetBases => r.(based := true)
    case EnableMmu => r.(mmu := true)
    case _ => r
  }

  /** One step of core `c`. */
  function Do(s: State, c: nat, tables: nat, pool: nat): State
    requires Formed(s) && c < |s.cores|
  {
    var pc := s.cores[c];
    State(NextBss(s, pc), s.flag, s.bssIsClear || pc.StoreClear?, s.el1Done || pc.StoreEl1?,
          s.cores[c := NextPc(s, c, tables, pool)], s.registers[c := NextRegisters(s.registers[c], pc)],
          s.listed || pc.ListPages?, s.built || (pc.BuildTables? && (pc.left == 0 || pc.free == 0)),
          s.complete || (pc.BuildTables? && pc.left == 0), s.devices || pc.SetUpDevices?)
  }

  /** How far a core has come; the order of the stages is the order of the code. */
  function Stage(pc: Pc): nat {
    match pc
    case ZeroBss(_) => 0
    case StoreClear => 1
    case WaitClear => 1
    case Configure => 2
    case ListPages => 3
    case BuildTables(_, _) => 4
    case StoreEl3 => 5
    case WaitEl3 => 5
    case SetBases => 6
    case EnableMmu => 7
    case SetUpDevices => 8
    case StoreEl1 => 9
    case WaitEl1 => 9
    case Kernel => 10
    case LockedGet => 10
  }

  predicate OnlyCore0(pc: Pc) {
    pc.ZeroBss? || pc.StoreClear? || pc.ListPages? || pc.BuildTables? || pc.StoreEl3? || pc.SetUpDevices?
    || pc.StoreEl1?
  }

  predicate OnlyOthers(pc: Pc) {
    pc.WaitClear? || pc.WaitEl3? || pc.WaitEl1?
  }

  /** The flags say how far core 0 has come, and the cleared words of bss stay clear until the EL3 flag is set. */
  ghost predicate Flags(s: State, tables: nat, pool: nat)
    requires Formed(s)
  {
    var leader := Stage(s.cores[0]);
    && (s.bssIsClear <==> leader >= 2)
    && (leader == 0 ==> s.cores[0].at <= |s.bss| && forall i :: 0 <= i < s.cores[0].at ==> s.bss[i] == 0)
    && (leader >= 1 ==> forall i :: 0 <= i < |s.bss| && i != s.flag ==> s.bss[i] == 0)
    && (leader >= 1 ==> (s.bss[s.flag] != 0 <==> leader >= 6))
    && (s.listed <==> leader >= 4) && (s.built <==> leader >= 5)
    && (leader == 4 ==> s.cores[0].free + tables == pool + s.cores[0].left && s.cores[0].left <= tables)
    && (s.complete <==> leader >= 5 && pool >= tables)
    && (s.devices <==> leader >= 9) && (s.el1Done <==> leader >= 10)
  }

  /** What a core past each barrier can rely on. */
  predicate Passed(s: State, pc: Pc) {
    && (Stage(pc) >= 2 ==> s.bssIsClear)
    && (Stage(pc) >= 6 ==> s.built)
    && (Stage(pc) >= 10 ==> s.devices)
  }

  /** A core's registers say how far it has come. */
  predicate SetUp(r: Registers, pc: Pc) {
    && (r.configured <==> Stage(pc) >= 3) && (r.based <==> Stage(pc) >= 7) && (r.mmu <==> Stage(pc) >= 8)
  }

  ghost predicate Inv(s: State, tables: nat, pool: nat) {
    && Formed(s) && Flags(s, tables, pool)
    && !OnlyOthers(s.cores[0]) && (forall c :: 0 < c < |s.cores| ==> !OnlyCore0(s.cores[c]))
    && (forall c :: 0 <= c < |s.cores| ==> Passed(s, s.cores[c]) && SetUp(s.registers[c], s.cores[c]))
  }

  /** Power-on: core 0 at the start of the clearing loop, the others at the first barrier. */
  ghost predicate Initial(s: State) {
    && Formed(s) && !s.bssIsClear && !s.el1Done && !s.listed && !s.built && !s.complete && !s.devices
    && (forall c :: 0 <= c < |s.cores| ==> s.registers[c] == Registers(false, false, false))
    && s.cores[0] == ZeroBss(0) && forall c :: 0 < c < |s.cores| ==> s.cores[c] == WaitClear
  }

  lemma InitialInv(s: State, tables: nat, pool: nat)
    requires Initial(s)
    ensures Inv(s, tables, pool)
  {}

  lemma StepInv(s: State, c: nat, tables: nat, pool: nat)
    requires Inv(s, tables, pool) && c < |s.cores|
    ensures Inv(Do(s, c, tables, pool), tables, pool)
  {
    var s2 := Do(s, c, tables, pool);
    if c == 0 {
      LeaderStep(s, tables, pool);
      hide Flags;
    } else {
      assert Passed(s, s.cores[c]) && !OnlyCore0(s.cores[c]);
    }
    assert SetUp(s.registers[c], s.cores[c]);
    assert SetUp(s2.registers[c], s2.cores[c]);
    assert forall d :: 0 <= d < |s.cores| && d != c ==>
      s2.cores[d] == s.cores[d] && Passed(s, s.cores[d]) && SetUp(s.registers[d], s.cores[d]);
  }

  lemma LeaderStep(s: State, tables: nat, pool: nat)
    requires Inv(s, tables, pool)
    ensures Formed(Do(s, 0, tables, pool)) && Flags(Do(s, 0, tables, pool), tables, pool)
    ensures !OnlyOthers(Do(s, 0, tables, pool).cores[0])
    ensures Passed(Do(s, 0, tables, pool), Do(s, 0, tables, pool).cores[0])
  {}

  function Run(s: State, schedule: seq<nat>, tables: nat, pool: nat): State
    requires Formed(s) && forall i :: 0 <= i < |schedule| ==> schedule[i] < |s.cores|
    decreases |schedule|
  {
    if schedule == [] then s
    else
      Run(Do(s, schedule[0], tables, pool), schedule[1..], tables, pool)
  }

  lemma {:induction false} RunInv(s: State, schedule: seq<nat>, tables: nat, pool: nat)
    requires Inv(s, tables, pool) && forall i :: 0 <= i < |schedule| ==> schedule[i] < |s.cores|
    ensures Inv(Run(s, schedule, tables, pool), tables, pool)
    decreases |schedule|
  {
    if schedule != [] {
      StepInv(s, schedule[0], tables, pool);
      RunInv(Do(s, schedule[0], tables, pool), schedule[1..], tables, pool);
    }
  }

  // ----- What the barriers are for -----

  /** Where a core runs with its MMU on: at EL1, in the kernel or on the way to it. */
  predicate Translated(pc: Pc) {
    pc.SetUpDevices? || pc.StoreEl1? || pc.WaitEl1? || pc.Kernel? || pc.LockedGet?
  }

  /** In every reachable state: a core about to read the EL3 flag finds bss cleared; a core has its MMU on exactly from
      EL1 on, and then its registers are configured, its base registers hold the kernel's root, the pool is listed and
      kpgtbl_init done, though with complete tables only if the pool was large enough; and the unlocked page allocation
      overlaps no get_page. */
  lemma BarriersHold(s: State, schedule: seq<nat>, tables: nat, pool: nat)
    requires Initial(s) && forall i :: 0 <= i < |schedule| ==> schedule[i] < |s.cores|
    ensures var t := Run(s, schedule, tables, pool);
      && Inv(t, tables, pool)
      && (forall c :: 0 <= c < |t.cores| && t.cores[c].WaitEl3? ==>
            forall i :: 0 <= i < |t.bss| && i != t.flag ==> t.bss[i] == 0)
      && (forall c :: 0 <= c < |t.cores| && t.cores[c].WaitEl3? && !t.built ==> t.bss[t.flag] == 0)
      && (forall c :: 0 <= c < |t.cores| && (t.cores[c].EnableMmu? || t.registers[c].mmu) ==>
            && t.registers[c].configured && t.registers[c].based && t.listed && t.built
            && (t.complete <==> pool >= tables))
      && (forall c :: 0 <= c < |t.cores| ==> (t.registers[c].mmu <==> Translated(t.cores[c])))
      && (forall c, d :: 0 <= c < |t.cores| && 0 <= d < |t.cores| && t.cores[c].BuildTables? ==> !t.cores[d].LockedGet?)
      && (forall c :: 0 <= c < |t.cores| && (t.cores[c].Kernel? || t.cores[c].LockedGet?) ==> t.devices)
  {
    hide Run, Initial;
    InitialInv(s, tables, pool);
    RunInv(s, schedule, tables, pool);
    Barriers(Run(s, schedule, tables, pool), tables, pool);
  }

  lemma Barriers(t: State, tables: nat, pool: nat)
    requires Inv(t, tables, pool)
    ensures forall c :: 0 <= c < |t.cores| && t.cores[c].WaitEl3? ==>
      forall i :: 0 <= i < |t.bss| && i != t.flag ==> t.bss[i] == 0
    ensures forall c :: 0 <= c < |t.cores| && t.cores[c].WaitEl3? && !t.built ==> t.bss[t.flag] == 0
    ensures forall c :: 0 <= c < |t.cores| && (t.cores[c].EnableMmu? || t.registers[c].mmu) ==>
      t.registers[c].configured && t.registers[c].based && t.listed && t.built && (t.complete <==> pool >= tables)
    ensures forall c :: 0 <= c < |t.cores| ==> (t.registers[c].mmu <==> Translated(t.cores[c]))
    ensures forall c, d :: 0 <= c < |t.cores| && 0 <= d < |t.cores| && t.cores[c].BuildTables? ==>
      !t.cores[d].LockedGet?
    ensures forall c :: 0 <= c < |t.cores| && (t.cores[c].Kernel? || t.cores[c].LockedGet?) ==> t.devices
  {
    assert forall c :: 0 <= c < |t.cores| ==> Passed(t, t.cores[c]) && SetUp(t.registers[c], t.cores[c]);
  }

  /** A core that spins waits for something core 0 has still to do, and core 0 itself never spins. */
  lemma NoDeadlock(s: State, c: nat, tables: nat, pool: nat)
    requires Inv(s, tables, pool) && c < |s.cores|
    ensures Do(s, c, tables, pool) == s ==> c != 0 && Stage(s.cores[0]) < 10 && Do(s, 0, tables, pool) != s
  {
    assert Passed(s, s.cores[c]) && SetUp(s.registers[c], s.cores[c]);
    assert SetUp(s.registers[0], s.cores[0]);
  }

  /** How much a core has still to do before it is in the kernel. */
  function Ahead(s: State, pc: Pc, tables: nat): int {
    var turn := |s.bss| + tables + 2;
    match pc
    case ZeroBss(i) => 10 * turn + |s.bss| - i
    case BuildTables(n, _) => 6 * turn + n
    case _ => (10 - Stage(pc)) * turn
  }

  /** No core spins for ever: each step that is not a turn of a spinning loop, with everything such a core waits for to
      be done by core 0, brings its core nearer to the kernel. */
  lemma ComesNearer(s: State, c: nat, tables: nat, pool: nat)
    requires Inv(s, tables, pool) && c < |s.cores| && Stage(s.cores[c]) < 10 && Do(s, c, tables, pool) != s
    ensures var t := Do(s, c, tables, pool);
      0 <= Ahead(t, t.cores[c], tables) < Ahead(s, s.cores[c], tables)
  {
    assert SetUp(s.registers[c], s.cores[c]);
  }
}
