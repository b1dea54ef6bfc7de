# A verified model of the kernel's memory, boot, scheduling and formatting code

This project models the parts of a small Raspberry Pi 4 kernel that keep its state consistent, and proves what they
promise, in Dafny. `dafny verify dfyconfig.toml` checks everything.

**Memory** (`Bits`, `Arch`, `Accesses`, `PageTables`, `PaAlloc`, `Vm`, `AddressSpaces`, `KernelSpace`, `SelfMapping`,
`Tasks`, `MemoryTypes`, `TaskMapping`, `KernelRuns`, `Listing`). `PaAlloc.Machine` is one array of 64-bit words with
the allocator's list head and lock; the free list, the translation tables and the data pages all live in that array.
`Arch` holds the macros of `vm.h` as bitwise expressions and, as the reference, the hardware table walk of VMSAv8-64
with a 4KB granule (section D8.2 of the Arm Architecture Reference Manual). `Machine.own` is the ghost record of who
owns which page, and `PaAlloc.State` the invariant that ties it to memory: the links run through exactly the free
pages, the tables form disjoint trees that memory holds link for link (`PageTables.Forest`), and free pages, pages
handed out and tables partition the pool. Every method keeps it, on success and on exhaustion, and says what it does
to the translation of every page of every root. An address space is specified as a plain map from pages to
descriptors: `AddressSpaces.Mapped` says that memory has gained exactly that map, with exactly the tables it needs.
`KernelSpace.KernelMap` and `Tasks.UserMap` are such maps in closed form, and `kpgtbl_init` and `user_task_create` are
proved to produce them, with the exact number of pages they take; `MemoryTypes` says in plain numbers what the
hardware reads out of them, page by page, and out of the trapframe a task starts from. `Machine.log` is a ghost record
of what is done with the allocator's lock and list.

`Accesses` states the same code once more as the loads and stores it makes, at addresses that are used as they are or
translated by the kernel's own tables. The methods that get and free pages, walk, map and create tasks are proved to
end with the memory, the list head and the result that those of the first kind give; `Push` and `InitPaAlloc`, which
run before there are tables, and the loops of `kpgtbl_init` have no such clause. `SelfMapping` and `TaskMapping` prove
that the second kind gives the same, although the code writes to the very tables its addresses go through.
`KernelRuns` proves it for every call at every point of every run of such calls from start-up on, together with what
all tasks keep.

**Cores** (`AllocatorSteps`, `Boot`, `Locks`, `SchedulerSteps`, `MappingSteps`). Any number of cores take atomic,
sequentially consistent steps in any order. Each module has a state, an action, the effect of an action, an invariant
that every action keeps, and theorems about all runs. `Locks` runs the seven critical sections as lists of
instructions, with nested interrupts. In `MappingSteps` the cores build address spaces at once, as `fork` makes them
do: every load and store of walk, mapva and the zeroing of pages is a step of its own, made through the tables that
all of them are changing.

**Queue** (`Scheduler`). `RunQueue` holds the two arrays and their counters; its methods are proved against functions
on the two stacks, and those are proved to be a first-in first-out queue.

**Text** (`Numerals`, `Printf`, `Fields`). The digit generator, the parser and the format interpreter are loops over
buffers, proved against a recursive numeral, a recursive reader and a recursive meaning of format strings; then
formats that a caller would write are proved to mean what they say, and `Fields` says of the characters alone what
each of them prints.

## Where the code departs from its documentation or evident intent

- A comment in `src/pa_alloc.c:49` says `init_pa_alloc` returns one page too many. It does not: `PaAlloc.InitPaAlloc`.
- `src/pa_alloc.c:139` releases the lock where it should acquire it. `PaAlloc.FreePage` and `AllocatorSteps.RunSound`
  model the acquiring form; `AllocatorSteps.WrittenFreePageSound` proves that the written form is sound on exactly
  those machines that have one core, or no page at all, and `AllocatorSteps.DoubleHold` gives the run in which two
  cores hold one page.
- `src/scheduler.c:71-72` assigns the current task to itself. The queue does not depend on it; "picked" means passed
  to `switch_to`.
- `src/scheduler.c:79-86` queues a task whose creation failed. The model does so too. `schedule` then loses that task
  and takes it for an empty queue: `Scheduler.ScheduleConserves` says exactly when, and `SchedulerSteps` counts the
  lost ones. It also refills on top of the tasks that are left, which breaks the order of the queue:
  `Scheduler.FailedHeadDrops` gives the exact condition, and `Scheduler.OrderLost` a run after which one of two tasks
  comes twice in a row. Round robin and bounded waiting hold exactly for tasks that were set up.
- `src/scheduler.c:55-64` looks at the tasks in one critical section and refills in another. Two cores that both found
  them empty refill one after the other, and what was forked in between comes first: `SchedulerSteps.RefillRace`. As
  long as no refill finds both tasks and buffer the queue is first in first out on any number of cores:
  `SchedulerSteps.FirstInFirstOut`.
- `src/vm.c:94` leaves the access permission bits clear, also in the pages of a task, so that EL0 has no data access
  to them: `MemoryTypes.TaskSees`.
- `src/vm.c:182` returns -7 when the per-cpu pages cannot be mapped. That never happens, as the stacks have made their
  tables: `KernelSpace.KpgtblInit`.
- `src/start.c:88` does not look at the result of `kpgtbl_init`. With fewer than 422 pages all cores enable the MMU
  over incomplete tables: `Boot.BarriersHold` says when, `SelfMapping.PrepareMemory` ties it to the number of pages.
- `src/scheduler.c:92-110` zeroes page 0 when the pool is empty and ignores the results of the first two `mapva`
  calls. The model does so too; `Tasks.UserTaskCreate` proves that no task is made then, that the trampoline loop
  always notices, and that frame 0 is zeroed exactly when the pool has fewer than three pages. A failed creation has
  used up the pool, and nothing gives the pages back.
- `src/printf.c:112` lets a digit equal to the base pass, so that 'a' counts as ten in base 10:
  `Numerals.NumeralRoundTrip` gives the exact condition for reading a numeral back.
- `src/scheduler.c:126-135` maps whatever address it is given as the code. Of one from 2^48 on, such as one that
  VAKERNBASE was or-ed into, the top sixteen bits end up in the upper attributes of the descriptor, execute-never
  among them: `AddressSpaces.PageReadsBack`.
- The "top kernel" loop at `src/vm.c:141` starts above its own end and maps nothing: `KernelSpace.LoopsAreKernelMap`.

## Model

| member | source | states |
|---|---|---|
| Bits.FieldDivMod | include/vm.h:178-186 | masking a field of a word is the usual quotient and remainder, for every word, width and position |
| Bits.OrHighLow | include/vm.h:189-212 | or-ing in bits below position k leaves everything above k alone |
| Bits.OrDisjoint | include/vm.h:189-212 | or of words that share no bit is their sum |
| Arch.VaPtblInd | include/vm.h:178-178 | the mask-and-shift index is the 9-bit field of the address for its level, and below 512 |
| Arch.DaAddr | include/vm.h:183-183 | bits 47 to 12 of a descriptor: the frame address it holds |
| Arch.PgRoundDown | include/vm.h:184-184 | the start of the page |
| Arch.PgHeader | include/vm.h:186-186 | the last eight-byte word of the page, with the sum modulo 2^64: the initial stack pointer |
| Arch.TableEntry | src/vm.c:66-66 | for an aligned page the stored link is its address plus the two descriptor bits |
| Arch.LeafFields | src/vm.c:94-94 | for each attribute of the two enums the fields of the descriptor do not meet, so the word is their sum |
| Arch.IndexOfAddress | include/vm.h:178-178 | the macro picks the same slot the hardware reads, for any 64-bit address and level |
| Arch.LinkReadBack | src/vm.c:51-67 | a stored link is valid, is a table descriptor, and reads back to the frame it was made from |
| Bits.ZeroBytesAt | src/pa_alloc.c:21-29 | zeros stored to some bytes of a word are read there, and the other bytes are as they were |
| Bits.ZeroBytesThen | src/pa_alloc.c:21-29 | zeroing on from where one left off is zeroing all of it |
| Accesses.RangeThen | src/pa_alloc.c:21-46 | the same for memory, at any two places |
| Accesses.ZeroOff | src/pa_alloc.c:21-46 | the byte stores one after the other zero the rest of the page and nothing else |
| Accesses.AccessesTranslated | src/start.c:97-100 | with the MMU on an access goes to the same place in the page, or the block, that its address is mapped to, and one that is not mapped aborts |
| Accesses.ListUnmapped | src/pa_alloc.c:116-147 | get_page and free_page abort where the head of the list or the lock is not mapped |
| PageTables.LinkedSlot | src/vm.c:49-67 | in a forest a slot of an upper table is valid exactly when the child table exists, and then points to its frame |
| PageTables.DescendIsLookup | src/vm.c:45-73 | the hardware walk from any table of a tree gives what the tree holds for the page |
| PageTables.TranslateIsLookup | src/vm.c:42-74 | the hardware translation of every page of every root is the lookup in its tree |
| PageTables.OneParent | src/vm.c:61-67 | every table has one parent entry: valid entries pointing to one frame are one entry |
| PageTables.WriteOutside | src/pa_alloc.c:141-142 | a write to a frame that is no table changes no link and no translation of any root |
| PageTables.LinkForest | src/vm.c:63-67 | linking a zeroed page under an invalid slot gives the forest with that one table more |
| PageTables.LinkTranslation | src/vm.c:63-67 | linking a zeroed table changes no translation |
| PageTables.SlotOfPage | src/vm.c:72-73 | two pages with the same level 3 slot are one page of one tree |
| PageTables.LeafStored | src/vm.c:94-96 | storing a page descriptor changes the translation of its own page only, in its own tree only |
| PaAlloc.FreeListTail | src/pa_alloc.c:107-114 | after following the first link the rest of the list is a list of the remaining pages, without the first |
| PaAlloc.FreeListPush | src/pa_alloc.c:140-142 | storing the old head in a page not on the list puts that page in front; the list stays acyclic |
| PaAlloc.PoolAccounted | src/pa_alloc.c:107-147 | free pages, pages handed out and tables of the pool are disjoint, make up the pool, and their numbers add up |
| PaAlloc.PopState | src/pa_alloc.c:107-114 | popping keeps the ownership invariant and moves the first page from the list to the caller |
| PaAlloc.PushState | src/pa_alloc.c:140-142 | pushing a page that is held keeps the invariant and every translation |
| PaAlloc.OutsideState | src/pa_alloc.c:42-46 | writing to a page that is neither free nor a table keeps the invariant and every translation |
| PaAlloc.Machine.constructor | src/pa_alloc.c:8-17 | the list is empty and unlocked before initialisation |
| PaAlloc.GetPageUnsafe | src/pa_alloc.c:107-114 | returns the first page of the list and no other change of ownership, or 0 exactly when the list is empty; it leaves the lock alone |
| PaAlloc.GetPage | src/pa_alloc.c:116-130 | the same under the lock, which is free again on both ways out; the loads are those of the source, and the list is read and written between taking the lock and freeing it |
| PaAlloc.FreePage | src/pa_alloc.c:133-147 | a held page returns to the front of the list, address 0 is refused, one word of memory changes and no translation; with the intended acquire, between which and the release the list is read and written; memory and list end as the loads and stores leave them |
| PaAlloc.Push | src/pa_alloc.c:61-63 | the page becomes the head, exactly one word of memory changes, and no translation does |
| PaAlloc.SectionLog | src/pa_alloc.c:116-147 | code that takes the lock, works on the list and frees the lock never touches the list without it |
| PaAlloc.BareLog | src/pa_alloc.c:107-114 | code without the lock leaves it as it is, and every access of its own counts as one without it |
| PaAlloc.InitPaAlloc | src/pa_alloc.c:48-91 | the list holds every aligned page of the range once, highest first; the result is exactly their number; nothing outside the range is written |
| PaAlloc.DrainsDownwards | src/pa_alloc.c:107-114 | pops then hand the range out from the top down, and leave the empty list after the last |
| Vm.ZeroRange | src/pa_alloc.c:21-46 | the bytes of the range become 0 and all others stay, wherever in a word it begins and ends; false exactly for size 0 |
| Vm.ZeroPage | src/vm.c:63-63 | zeroing a page that is neither free nor a table keeps the invariant, every translation and every other page, and is the sequence of stores of the source |
| Vm.GraftState | src/vm.c:63-67 | a zeroed held page linked under an empty slot becomes that table; invariant and translations are kept |
| Vm.LinkTable | src/vm.c:63-67 | the page changes from held to table, and only table frames are written |
| Vm.NewTable | src/vm.c:56-67 | takes the first free page for the table, or fails with nothing changed exactly when there is none; the misaligned exit is never taken; the list is touched under the lock alone unless the caller asked for the unlocked form, and that form never takes it |
| Vm.Descent | src/vm.c:45-70 | one turn of the loop, in its four cases: found, not allowed to allocate, out of pages, built |
| Vm.BuiltTook | src/vm.c:56-67 | building a set of tables takes from the pool exactly as many pages as tables were missing |
| Vm.ShortTook | src/vm.c:61-61 | a pool that ran dry on the way had fewer pages than tables were missing |
| Vm.AtMostThree | src/vm.c:45-70 | one call takes at most three pages |
| Vm.Walk | src/vm.c:42-74 | returns the address of the page's level 3 entry; 0 exactly if tables are missing and none may be made; 1 exactly if the pool has fewer pages than tables are missing, and then every page popped is linked; never changes a translation; locks as asked; memory and list end as the loads and stores of the source leave them |
| Vm.StoreState | src/vm.c:94-96 | storing a leaf keeps the ownership invariant and remaps one page |
| Vm.StoreLeaf | src/vm.c:96-96 | the same for the store through the returned pointer |
| Vm.MapVa | src/vm.c:78-98 | succeeds exactly if the pool has the missing tables; then the page translates to the stored descriptor and every other page of every root as before; on failure no translation has changed; locks as asked; memory ends as the loads and stores of the source leave it |
| Vm.RootState | src/vm.c:102-107 | a zeroed frame that is no table yet can be made a root, and it maps nothing |
| AddressSpaces.MappedThen | src/vm.c:104-183 | mapping f and then g is mapping f overridden by g, in translation, tables and pages; likewise when the second runs out |
| AddressSpaces.PageReadsBack | src/vm.c:94-94 | attribute index, access permission, shareability and access flag can all be read out of the stored descriptor, and bits 47 to 12 of the address; its top sixteen bits stand in the upper attributes |
| AddressSpaces.LeafIsPage | src/vm.c:82-96 | for every address and valid page flags the stored word translates to that page with the given attributes |
| AddressSpaces.MapPage | src/vm.c:78-98 | one call adds exactly one page to the address space, or fails for want of pages and leaves all other spaces alone |
| AddressSpaces.MapRange | src/vm.c:104-110 | a loop over pages adds exactly the range, or fails for want of pages for it |
| AddressSpaces.MapFour | src/vm.c:171-183 | a loop over the cores adds exactly four pages at their stride |
| AddressSpaces.MappedSequence | src/vm.c:102-185 | any sequence of successful calls amounts to mapping all of it at once, later calls winning |
| AddressSpaces.ExactAccounting | src/vm.c:53-72 | any pages mapped from an empty root take exactly as many pool pages as they have distinct level 1, 2 and 3 prefixes |
| AddressSpaces.ContiguousPrefixes | src/vm.c:45-49 | neighbouring pages have consecutive prefixes, one table for each region touched |
| AddressSpaces.RangeCost | src/vm.c:53-72 | the exact number of pages for n neighbouring pages from an empty root |
| KernelSpace.LoopsAreKernelMap | src/vm.c:102-185 | the seven loops together give the closed-form kernel map on every page: identity on low memory and devices, shared data with its own attributes, stacks and per-cpu pages at their frames, and nothing else |
| KernelSpace.KernelNodes | src/vm.c:102-185 | the tables of the kernel map are 384 and 32 at level 3 for low memory and devices and 7 others with the root: 422 besides the root, wherever the linker puts the kernel |
| KernelSpace.KernelBuilt | src/vm.c:102-185 | from an empty root the loops make every page of the 48-bit space translate as the kernel map says, and take 422 pages |
| KernelSpace.KernelShort | src/vm.c:109-182 | a loop that fails shows that the pool held fewer than 422 pages |
| KernelSpace.NeedsFromRoot | src/vm.c:102-185 | how many pages the first loops take from an empty root: for the free memory two tables and one for each 2MB of it, with the kernel 386, with the devices 419, with the stacks 422, and no more for the per-cpu pages |
| KernelSpace.Loops | src/vm.c:102-185 | the loops in order, each with its error code exactly for a pool that lasts for the loops before it and not for it |
| KernelSpace.KpgtblInit | src/vm.c:102-185 | returns 0 exactly when the pool holds 422 pages; then the kernel map is in force on every page and 422 pages are gone; -6 exactly from 419 on, -5 from 386 on, -4 from what the free memory takes on, -1 below that, never -7; without the lock |
| SelfMapping.IdentityBelow | src/vm.c:103-138 | every page below the video memory is identity-mapped |
| SelfMapping.LookupThroughMmu | src/vm.c:42-74 | a lookup through the kernel's own map, in any address space, changes nothing, and the entry it comes to, read through the same map, is what the hardware translates the page to |
| SelfMapping.ZeroThroughMmu | src/vm.c:63-63 | zeroing a page that is no table makes the same stores through the kernel's map as on physical memory |
| SelfMapping.WalkThroughMmu | src/vm.c:42-74 | walk with every load and store at its kernel-translated address, popping, zeroing and linking pages on the way, has the result, memory and list of walk on physical memory, and ends in a state where that holds again |
| SelfMapping.MapThroughMmu | src/vm.c:78-98 | the same for mapva with its leaf store, on any root, the kernel's included; no access aborts; on any other root the kernel stays ready |
| SelfMapping.FreeThroughMmu | src/pa_alloc.c:133-147 | the same for free_page of a page that was handed out, and the kernel stays ready |
| SelfMapping.HighAlias | src/scheduler.c:225-225 | or-ing VAKERNBASE into any 48-bit address leaves its translation the same |
| SelfMapping.PrepareMemory | src/start.c:83-88 | listing the pool and building the tables: the number of pages, success exactly from 422 pages on, and then the state in which the code that builds tables runs through its own map |
| MemoryTypes.PageRead | include/vm.h:133-164 | what the hardware reads out of a stored descriptor: frame, the byte of MAIR_EL1 for its index, shareability, access permission, access flag |
| MemoryTypes.KernelPages | src/vm.c:102-185 | in numbers: low memory is write-back memory (0x77) at its own address and not shareable, shared data 0xff and inner shareable, devices 0x00, and but for the pages of the cores nothing else is mapped |
| MemoryTypes.CorePages | src/vm.c:171-183 | each core has its own stack page and its own per-cpu page, write-back memory, and its initial stack pointer is the last word of the stack page |
| MemoryTypes.BothHalves | src/start.c:97-98 | with a task's root in the lower base register and the kernel's in the upper, low addresses are the task's, those with the top sixteen bits set the kernel's, and no others are mapped |
| Tasks.UserSpaceIsUserMap | src/scheduler.c:104-135 | the four groups of calls give the closed-form user map: trapframe, stack, trampoline, five code pages, nothing else |
| Tasks.TablesOfTask | src/scheduler.c:104-135 | a task takes four tables and one for each 2MB region of trampoline and code, below its root |
| Tasks.NoRoom | src/scheduler.c:112-119 | with an empty pool the trampoline cannot be mapped, so the results ignored before it are noticed here |
| Tasks.FirstTwo | src/scheduler.c:104-110 | the two calls whose results are ignored either both mapped their page or left the pool empty |
| Tasks.MapFrames | src/scheduler.c:104-110 | the same for the two calls as they run |
| Tasks.MapUser | src/scheduler.c:104-135 | success means exactly the user space was added; failure means the pool was short, and other spaces are untouched |
| Tasks.TreesApart | src/scheduler.c:89-148 | two tasks have no table frame in common, and no trapframe or stack page is a table |
| Tasks.ZeroedPage | src/scheduler.c:92-99 | the page handed out, or page 0, is zeroed and nothing else is |
| Tasks.SetTrapframe | src/scheduler.c:138-144 | stack pointer, entry address and status stand in words 31, 32 and 33, all else is 0 |
| Tasks.DrawPages | src/scheduler.c:92-99 | the root, trapframe and stack are the first three pages of the list, or page 0; they are zeroed and nothing else is written |
| Tasks.BuildSpace | src/scheduler.c:104-135 | the space is built exactly if the pool pays for its tables; every other root keeps its translation, new tables come from the pool, and failure leaves the pool empty |
| Tasks.SpaceForTask | src/scheduler.c:90-135 | both together, with the exact number of pages |
| Tasks.HeldPagesKept | src/scheduler.c:89-148 | whatever is written is a new table or a page just drawn, so a page that was handed out keeps its contents |
| Tasks.FrameZeroFate | src/scheduler.c:92-99 | frame 0 is left alone when the pool has three pages, and zeroed otherwise |
| Tasks.LiveAfter | src/scheduler.c:89-148 | a creation leaves all tasks alive, and adds the new one when it succeeds |
| Tasks.LiveExtended | src/scheduler.c:89-148 | tasks that lived before keep their pages and their address space, and the new one joins them |
| Tasks.UserTaskCreate | src/scheduler.c:89-148 | succeeds exactly when the pool holds 7 pages and one for each region, and takes exactly these; the task then has its own pages, its space and its trapframe; the pool, all translations, all pages handed out and all tasks before it stay; a failure has used up the pool; the list is touched under the lock alone; memory and list end as the loads and stores leave them |
| MemoryTypes.TaskSees | src/scheduler.c:104-135 | in numbers: a task sees its trapframe, its stack, the trampoline and five pages of code, all write-back memory, and nothing else |
| MemoryTypes.TaskStarts | src/scheduler.c:138-144 | after a successful creation the trapframe page holds a stack pointer to the last word of the task's stack page, the address of the first of its five code pages, and a status that names EL0 with no interrupt masked |
| TaskMapping.DrawThroughMmu | src/scheduler.c:92-99 | get_page and the zeroing of what it returned, page 0 included, go through the kernel's own map as on physical memory |
| TaskMapping.RootedReady | src/scheduler.c:92-93 | with a zeroed page as root of a new address space the kernel's own map is still in force and every table where it is the identity |
| TaskMapping.RangeThroughMmu | src/scheduler.c:112-135 | a loop of mapva goes through the kernel's own map as on physical memory, and fails there too when the pool is empty |
| TaskMapping.UserThroughMmu | src/scheduler.c:104-135 | so do the four groups of calls, which fail under a bare root and an empty pool |
| TaskMapping.TrapframeThroughMmu | src/scheduler.c:138-144 | so do the stores to the trapframe |
| TaskMapping.CreateThroughMmu | src/scheduler.c:89-148 | so does all of user_task_create: no access aborts, and memory, list and task are the same |
| KernelRuns.Perform | src/start.c:97-100 | get_page, free_page, a store to a page, mapva and user_task_create take the steps of a run |
| KernelRuns.CallsAllowed | src/pa_alloc.c:107-147 | which calls the kernel may make: get_page and creations always, free_page, stores and mapva for anything that is neither the kernel's nor a task's |
| KernelRuns.MapGood | src/vm.c:78-98 | mapva on a root that is neither the kernel's nor a finished task's, successful or not, keeps the kernel's map and every task's pages, space and trapframe |
| KernelRuns.FirstGood | src/start.c:83-88 | a run can begin from the state that start-up leaves when it has built the tables |
| KernelRuns.StepGood | src/start.c:97-100 | so does every call, and a task it makes joins the others |
| KernelRuns.TasksLive | src/scheduler.c:79-148 | at every point of every run of these calls, in any order, all tasks made so far share no page, see exactly their own spaces and find their trapframes as set up, and the kernel's map is in force |
| KernelRuns.CallThroughMmu | src/vm.c:42-98 | any of these calls through the kernel's own map does what it does on physical memory, and does not abort |
| KernelRuns.RunThroughMmu | src/start.c:97-100 | so a run on physical memory is a run through the kernel's own map, and any other call could come next |
| KernelRuns.TasksCounted | src/scheduler.c:79-148 | the n-th creation of a sequence succeeds exactly if the pool held the pages of n tasks |
| Listing.LinesIncrease | src/vm.c:231-268 | the lines of all levels come in strictly increasing order of pages, a table before what it holds, so each once |
| Listing.LinesSound | src/vm.c:232-260 | every line is the valid descriptor that stands there, at its level and place |
| Listing.LinesComplete | src/vm.c:231-268 | every valid descriptor of every table of the tree has its line |
| Listing.PrintTable | src/vm.c:231-268 | the loop over one table reports exactly the lines of its subtree |
| Listing.PrintSlot | src/vm.c:232-263 | one turn of it: nothing, or the descriptor's line and those of the table below |
| Listing.PrintPgtbl | src/vm.c:271-276 | the listing is strictly increasing, and a descriptor of any level is in it exactly when it stands valid in the tree; page entries are what the hardware translates to |
| Listing.WalkFinds | src/vm.c:42-74 | a walk that may not allocate finds a valid entry exactly for the listed pages, and changes nothing |
| AllocatorSteps.StepSound | src/pa_alloc.c:116-147 | every memory access of every core, and every write of a caller to its own page, keeps the list acyclic and each page in one place |
| AllocatorSteps.LockStep | src/speenlock.c:14-40 | the lock is taken exactly while a core is in a section |
| AllocatorSteps.RunSound | src/pa_alloc.c:116-147 | in every interleaving no page is held twice or lost and memory holds the stack as a list |
| AllocatorSteps.StepRefines | src/pa_alloc.c:116-147 | every step is one atomic push or pop, or a call or return, or invisible |
| AllocatorSteps.RunRefines | src/pa_alloc.c:116-147 | so every run linearises to runs of an abstract stack |
| AllocatorSteps.DoubleHold | src/pa_alloc.c:133-147 | with the written release two cores come to hold one page |
| AllocatorSteps.WrittenFreePageSound | src/pa_alloc.c:133-147 | the written form is sound in all runs exactly with at most one core or an empty pool |
| AllocatorSteps.GetEvents | src/pa_alloc.c:116-130 | an undisturbed get_page makes the steps that PaAlloc.GetPage logs, in their order |
| AllocatorSteps.FreeEvents | src/pa_alloc.c:133-147 | likewise free_page |
| Boot.StepInv | src/boot.S:20-48 | every step of every core keeps the meaning of the flags |
| Boot.RunInv | src/start.c:65-106 | so does every run |
| Boot.BarriersHold | src/start.c:83-100 | no core reads the EL3 flag before bss is clear, or has its MMU on before its registers are configured, both base registers hold the kernel's root, the pool is listed and kpgtbl_init has returned, with complete tables exactly if the pool was large enough; a core has its MMU on exactly from EL1 on; the unlocked allocation overlaps no get_page; the kernel starts after the devices |
| Boot.NoDeadlock | src/boot.S:43-48 | a spinning core waits for core 0, which is before its last store and not spinning |
| Boot.ComesNearer | src/boot.S:20-48 | every step that is no turn of a spinning loop brings its core nearer to the kernel |
| Locks.SectionLegal | src/speenlock.c:14-40 | each of the seven sections, however long, acquires one lock once and touches no other before it releases it |
| Locks.SectionCode | src/speenlock.c:14-40 | the code of each section instruction by instruction: mask, the lock of its data, cpu_num, the work, and back |
| Locks.CallsAndInterrupts | src/speenlock.c:14-40 | a call starts its section from the first instruction; an interrupt is taken only unmasked, masks further ones, and returns the core as it was |
| Locks.StepLegal | src/speenlock.c:14-40 | along such code the lock is held from the test-and-set to the clear, and no other ever is |
| Locks.StepInv | src/speenlock.c:14-40 | every instruction of every section, interrupt, return and change of the mask outside a section keeps exclusion and the coupling to the interrupt mask |
| Locks.RunInv | src/speenlock.c:14-40 | so does every run |
| Locks.LockDiscipline | src/speenlock.c:14-40 | in every run a lock that a call holds is taken, interrupts are masked on its core, and once noted its cpu_num names that core |
| Locks.OneHolderOneLock | src/speenlock.c:14-40 | in every run two calls that hold locks hold different locks on different cores, or are one call |
| Locks.DataGuarded | src/scheduler.c:34-86 | in every run no two calls are about to touch the same shared data: not the free list by get_page and free_page, nor the task arrays by any two sections of the scheduler, nor the output |
| Locks.SectionEnds | src/speenlock.c:33-40 | a section that has run to its end leaves interrupts on and holds no lock |
| Locks.NoDeadlock | src/speenlock.c:19-21 | a failing test-and-set waits for another core, masked inside its section, whose next step leads towards the release |
| Scheduler.RunQueue.constructor | src/scheduler.c:24-29 | both stacks are empty |
| Scheduler.RunQueue.GetLast | src/scheduler.c:34-45 | pops the top task, or returns the zero task and changes nothing |
| Scheduler.RunQueue.Refill | src/scheduler.c:57-63 | moves the whole buffer onto the tasks, in reverse |
| Scheduler.RunQueue.SwitchTo | src/scheduler.c:70-77 | the task goes to the end of the buffer |
| Scheduler.RunQueue.Schedule | src/scheduler.c:54-67 | the two stacks and the pick are those of the specification |
| Scheduler.RunQueue.Fork | src/scheduler.c:79-86 | the new task is queued, whether or not its creation succeeded, and the creation is that of user_task_create |
| Scheduler.RefillKeepsQueue | src/scheduler.c:57-63 | a refill leaves the queue unchanged exactly when tasks and buffer commute: always if either is empty, for distinct tasks only then |
| Scheduler.PickRotates | src/scheduler.c:54-77 | a pick takes the head of the queue and puts it at the end |
| Scheduler.ForkAppends | src/scheduler.c:79-86 | a fork appends |
| Scheduler.ScheduleConserves | src/scheduler.c:54-67 | a call keeps all tasks exactly unless the task popped is one whose creation failed |
| Scheduler.FailedHeadDrops | src/scheduler.c:54-65 | a failed head drops out and the buffer comes before the tasks left; the rest keeps its order exactly when these commute: always if either is empty, for distinct tasks only then |
| Scheduler.OrderLost | src/scheduler.c:54-86 | a run from the empty queue after which the first of two tasks comes twice in a row |
| Scheduler.BoundedWaiting | src/scheduler.c:54-86 | every task up to position p is picked by the (p+1)-th next call, or the (p+2)-th from the buffer, whatever is forked in between, exactly when none of them failed |
| Scheduler.PicksFromTasks | src/scheduler.c:54-77 | n calls while the tasks last pick the first n of the queue exactly when all of these were set up |
| Scheduler.RoundRobin | src/scheduler.c:54-77 | from any state n+1 calls pick each of the n tasks once, in queue order, exactly when all were set up, and then restore the queue |
| SchedulerSteps.StepConserves | src/scheduler.c:34-86 | what a section puts on one side it takes from another |
| SchedulerSteps.TasksConserved | src/scheduler.c:34-86 | in every interleaving each task created is in a stack or held by a core, once; with at most 64 forks neither array overflows |
| SchedulerSteps.PopTakesHead | src/scheduler.c:34-45 | a pop takes the first task and moves all others up by one; the core holds it exactly if it was set up |
| SchedulerSteps.PushAndForkAppend | src/scheduler.c:70-86 | a push and a fork put their task behind all others |
| SchedulerSteps.RefillBringsBuffer | src/scheduler.c:57-63 | a refill brings the buffer, in its order, before the tasks; with no tasks left the order stays element for element |
| SchedulerSteps.SectionsMakeSchedule | src/scheduler.c:54-67 | a core that runs its sections undisturbed makes the call of schedule of one core |
| SchedulerSteps.FirstInFirstOut | src/scheduler.c:54-86 | on any number of cores tasks leave in the order in which they were queued, as long as no refill finds both tasks and buffer |
| SchedulerSteps.OneCoreOrderly | src/scheduler.c:54-86 | that is always so on one core whose tasks were all set up |
| SchedulerSteps.RefillRace | src/scheduler.c:54-86 | a run of two cores after which the last task forked comes first |
| MappingSteps.CoreMoves | src/vm.c:42-98 | every load, store and get_page of a core, made through the kernel's own map while others change tables, does what it does on physical memory, does not abort, and leaves everything that is not the core's own |
| MappingSteps.OtherStays | src/scheduler.c:79-86 | after it every other core is where it was: its pages its own, its walk at the right table, its zeroed bytes zero, its address spaces unchanged |
| MappingSteps.StartInv | src/start.c:97-100 | idle cores can begin from any state the kernel keeps |
| MappingSteps.StepInv | src/scheduler.c:79-148 | every step of every core keeps the trees, the list and the pages of all cores apart, and no page is lost |
| MappingSteps.CoreCanMove | src/scheduler.c:79-148 | no core is ever stuck: an idle one can draw a page, map under its root, fill and give back its pages, a busy one can go on |
| MappingSteps.RunInv | src/scheduler.c:79-148 | so does every interleaving |
| MappingSteps.RunThroughMmu | src/vm.c:42-98 | every interleaving on physical memory is one through the kernel's own map, and whatever a core does next does not abort |
| MappingSteps.SpacesShown | src/scheduler.c:89-135 | at every point of every interleaving each address space shows exactly what the finished mapva calls of its core put there |
| MappingSteps.PagesApart | src/scheduler.c:89-148 | no two cores have a table or a page in common, and a page a core was handed is neither free nor a table |
| MappingSteps.RunForeign | src/scheduler.c:89-148 | the address spaces that were there before, the kernel's among them, keep every translation |
| MappingSteps.RunElsewhose | src/scheduler.c:89-148 | the pages handed out before keep every word |
| MappingSteps.EmptyDraws | src/scheduler.c:92-99 | with the list empty a draw goes on with page 0 and walk gives up, and nothing else changes |
| MappingSteps.EmptyDrawEnds | src/scheduler.c:92-99 | when such a draw ends, whatever other cores did meanwhile, frame 0 is zeroed, and after a draw for a root the core has none |
| MappingSteps.StepEnds | src/vm.c:42-98 | every step of a core brings its call nearer to its end, whatever the others do: mapva ends within 12298 of them |
| Numerals.DigitsNumeral | src/printf.c:71-82 | the digits written from the front are the numeral defined from the back, without leading zero |
| Numerals.TopPower | src/printf.c:71-73 | the divisor is the power of the base at the number's first digit, and stays below 2^32 |
| Numerals.WriteTurn | src/printf.c:74-82 | each turn writes the next digit of the numeral and skips none |
| Numerals.Ui2a | src/printf.c:68-84 | writes exactly the canonical numeral and a NUL, and nothing else of the buffer |
| Numerals.I2a | src/printf.c:86-93 | writes the sign and the numeral of the magnitude, for the smallest number too |
| Numerals.TextFits | src/printf.c:138-138 | twelve bytes hold every number with its NUL, and all twelve are used exactly from -1000000000 down |
| Numerals.A2i | src/printf.c:106-119 | returns the number, the stopping character and the position behind it, never past the NUL |
| Numerals.ReadNumeral | src/printf.c:106-119 | reading a numeral gives its number wrapped at 32 bits and goes on behind it |
| Numerals.NumeralRoundTrip | src/printf.c:68-119 | a numeral is read back exactly when it is below 2^31 and what follows is no digit up to and including the base |
| Printf.Putchw | src/printf.c:121-132 | emits the text up to its NUL, filled on the left to the width |
| Printf.PutUnsigned | src/printf.c:173-174 | emits the padded numeral through the twelve-byte buffer, in bounds |
| Printf.PutSigned | src/printf.c:183-184 | emits the padded signed numeral through the twelve-byte buffer, in bounds |
| Printf.ReadDirective | src/printf.c:145-157 | zero flag, width and letter of the directive, never past the NUL |
| Printf.Conversion | src/printf.c:164-206 | one conversion emits its text and takes its argument |
| Printf.TfpFormat | src/printf.c:136-210 | on any terminated format the output and the arguments consumed are its meaning, no read passes the NUL, and it ends |
| Printf.FieldRoundTrip | src/printf.c:145-157 | every well-formed field spelled out is read back as written |
| Printf.FormatRefinesItems | src/printf.c:136-210 | every list of literals, %% and fields, rendered to a string, has the list's own meaning |
| Printf.ConsumesOnePerField | src/printf.c:164-206 | formatting is defined exactly for arguments that match the fields, and consumes one for each |
| Fields.NumeralSpells | src/printf.c:68-84 | the digits written are digits of the base in the case asked for, read back they give the number, and there is no zero too many |
| Fields.DigitsReadBack | src/printf.c:95-104 | a character is read as a digit exactly if it is written for that digit in one case or the other |
| Fields.FieldShown | src/printf.c:136-210 | a field, wherever it stands: %u prints decimal digits that read as the word, %d with a minus sign exactly for negative ints, %x and %X hexadecimal ones in their case, %c the low byte, %s the text up to its NUL, filled up on the left to the width with zeros or blanks, %s with blanks always, %c not at all |
| Fields.OtherShown | src/printf.c:140-208 | any other character stands for itself, %% prints a percent sign, any other letter nothing, and the format ends at its NUL even within a directive |

## Left out

- PaAlloc.FreePage: models the acquire that the source intends at its first line; the written release is the subject of AllocatorSteps.WrittenFreePageSound.
- PaAlloc.GetPage: one call runs without interference; a core that finds the lock taken spins, and the interleavings of calls are in AllocatorSteps.
- Listing.PrintTable: recurses over the levels where the source nests four loops; a line is its level, place and descriptor, not its text.
- Listing.PrintSlot: a line is its level, place and descriptor, not its text.
- Listing.PrintPgtbl: leaves out the rules and the address printed around the listing.
- Numerals.I2a: the negation of the smallest number wraps around; in C it is undefined.
- Numerals.A2i: a number beyond 2^31 wraps around; in C it is undefined.
- Locks.SectionLegal: what a section does between acquire and release is a number of instructions without effect on locks and mask, as its code shows; free_page begins with the acquire the source intends.
- SelfMapping.WalkThroughMmu: the head of the list and its lock are reached at their own addresses, which the map must lead to themselves; their values are kept beside the memory array.
- MappingSteps.CoreMoves: get_page and free_page are one step each, as their lock makes them (AllocatorSteps.RunRefines); a core whose draw for a root found no page does not go on to map under page 0, as a single core does in Tasks.
- MappingSteps.StepEnds: counts a core's own steps; how long it waits for the lock is left to Locks.NoDeadlock.
- SchedulerSteps.TasksConserved: a critical section is one step; that sections do not overlap is Locks.LockDiscipline.
- Scheduler.RunQueue.Fork: the caller leaves room for the task, as the source checks no bound, and the identifier is not cut to eight bits.
- Scheduler.RunQueue.SwitchTo: the caller leaves room for the task; on a full queue the source writes past its array.
- Tables are never freed by the source, nor the pages of a task whose creation failed; so the model has no operation for it.
- Caches, the translation lookaside buffer, weak memory order, system registers and inline assembly: steps are sequentially consistent and the hardware walk is the specification.
- The drivers (uart, interrupt controller, timer), exception entry and return, and system calls: register moves and device accesses without state of their own.
- `get_num_of_free_pages` and `kpgtbl_debug_print`: the first tests the alignment of its own local variable, the second changes the level inside its loop; ppgtbl is modelled as the enumerator.
- `user_task_create2`, `init_task`, `memcpy`, `tfp_sprintf`, `uli2a` and `li2a`: copies of what is modelled, or not compiled.
- The `state` and `preempt_count` fields of a task: always zero.
- Virtual addresses above 48 bits are translated by `Arch.TranslateAddress` for the kernel's two base registers; other register settings are not part of this model.
