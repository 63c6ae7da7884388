# Verified models for MutekH

Dafny models of the parts of MutekH whose correctness is hardest to see from the
code: the garbage collector, expression compiler, tables and precompiled chunks of
its Lua, the work sharing of its OpenMP runtime, and two classical library
routines. `dafny verify dfyconfig.toml` checks all of it.

## Components

**Lua garbage collector** (`LuaHeap`, `Gc*`). A state holds all objects with their
kind, colour and references, the lists `rootgc`, `gray`, `grayagain`, `weak`,
`tmudata` and `uvhead`, the string table, the current white and the phase of the
collector. Each function is one operation of `lgc.c`, `lfunc.c` or `lstring.c`;
weak tables, userdata finalizers, open upvalues and interned strings are included.
A run interleaves collector steps with everything a program can do: stores with
their barriers, allocation, interning, capturing and closing upvalues, switching
threads, fixing strings. The invariant `GcState.Inv` is proved for the state that
`lua_newstate` builds and for every step; safety follows (section 2.10 of the Lua
5.1 Reference Manual). `GcReach` says exactly what an uninterrupted cycle keeps, with
weak tables and finalizers; `GcWeak` which entries of weak tables stay; `GcFinal`,
`GcLife` and `GcFinalizer` follow every userdata from its creation to its finalizer
and its end; `GcView` says what a program sees of every step, its own or the
collector's; `GcStrings` is about the string table. `GcCollector.Collector` runs the
collector in place, with finalizers that may do anything a program can, and its
`FullGc` is shown to end and to leave exactly the fixed and the accessible objects.

**Lua expression compiler** (`LuaMachine`, `LuaPatch`, `LuaMeaning`, `LuaFinish`,
`LuaCode`). `LuaMachine.Run` executes the instructions involved. `FuncState` builds
code in place, with the jump lists threaded through the jump offsets and the tests
rewritten afterwards. `LuaMeaning.Eval` is section 2.5.3 of the manual; the methods
`Assign`, `Init` and `Block` promise that the code emitted for expressions puts
exactly those values into the target registers. `LuaCode.Need` says how many
registers an expression takes, and compiling succeeds if and only if there are that
many.

**Lua tables** (`TableHash`, `TableSizes`, `LuaTable`). The array part and the
chained scatter table with Brent's variation, updated in place, refine a finite map.
That holds for array parts of every size, and in a table that refuses to grow any
more; what may be lost then is stated exactly.

**Precompiled chunks** (`ChunkFormat`, `ChunkTrip`, `ChunkStream`). Function trees as
bytes, the loader over a stream that arrives in arbitrary pieces, and the dumper
over a writer that may fail.

**OpenMP runtime** (`LoopChunks`, `LoopWords`, `Ordered`, `Tasks`, `WorkShares`).
Threads are interleaved step by step; what the source does under a lock or with one
atomic access is one step. `LoopWords` runs the fetch-and-add path on machine words
and relates it to the runs on integers.

**Quicksort and square root** (`QuickSort`, `SquareRoot`). In-place quicksort with
its four-zone partition, and the bit-by-bit root on two 32-bit words.

## Where the code does less than it promises

- `libc/qsort.c:82` keeps each comparison with the pivot in an `int_fast8_t`, which
  `hexo/include/hexo/types.h:84-86` and the eight-bit processors make narrower than
  `int`. A comparator that returns 256 then counts as equal. `QuickSort.QSort`
  sorts every array between whose elements no comparison loses its sign. For every
  pair whose comparison does lose it, it also says which seven of these elements it
  leaves unsorted; `QuickSort.EightBits` is an example. So a comparator sorts all
  arrays if and only if none of its results loses its sign.
- `libm/e_sqrt.c:128-131` shifts a 32-bit word by 32 for some subnormal numbers,
  which section 6.5.7 of ISO C99 leaves undefined. `SquareRoot.ShiftsByWord` is
  exactly when; for all other positive numbers `SquareRoot.Sqrt` is correct. The same
  section does not define the shift of the exponent in `libm/e_sqrt.c:192` when it is
  negative, for roots below one; it is taken as a multiplication.
- `libgomp/iter.c:36-39` promises a negative return to a thread that has done the
  last iteration. With one thread an empty loop gets one, too:
  `LoopStatic.EmptyLoopAlone`. `LoopStatic.NegativeReturn` shows that this is the
  only case.
- The test in `libgomp/loop.c:61-78` is to keep the counter of a dynamic loop within
  its word. It counts the threads of the current team, and
  `gomp_parallel_loop_start` (`libgomp/loop.c:446-458`) makes it before the new team
  is the current one (`libgomp/team.c:271`). It compares with `LONG_MAX`, while the
  counter has the width of a pointer (`libgomp/include/omp.h:36`), which on the
  eight-bit processors is half of that
  (`cpu/common/include/cpu/hexo/types_cpu8.h:42-43`). `LoopWords.CombinedLoop` and
  `LoopWords.NarrowWord` are loops in which a thread is handed a block at the other
  end of the word. `LoopWords.WithinWord` and `LoopWords.WordOrder` say for every
  loop exactly when that happens, and `LoopWords.TestWorth` for which teams and words
  the test is enough.
- An array part of more than 2^26 elements, which `liblua/ltable.c:358` and
  `liblua/ltable.c:327` allow, is counted only in part when the table is rehashed.
  `LuaTable.Table.Set` is still right, since the rehashes that follow do not change
  the array part. But if the keys do not fit into the largest hash part, entries are
  lost with the error: `LuaTable.Loses` is exactly when, `LuaTable.LargeLoses` an
  example.
- A guided block is to be a share of the iterations left. `libgomp/iter.c:317` counts
  them with a division that drops the last one if the increment does not divide what is
  left. `LoopChunks.BlockLengths` gives the length of every block, and
  `LoopChunks.GuidedShare` says exactly when it is one less than the share.
- `liblua/lgc.c:136-139` counts unreachable userdata without a finalizer as finalized,
  although another finalizer may bring them back. Those that get a `__gc` afterwards
  are freed without a call: `GcFinalizer.RunFinalizer` is the exact condition.
- The assertion in `liblua/lgc.c:665` that no cycle has ended fails when a finalizer
  changes userdata that still wait for their own: `GcTheorem.BarrierAfterCycle`.
  `GcStore.StoreObjKeeps` shows that there is no other case, and that the invariant
  holds nevertheless.

## Model

| member | source | states |
|---|---|---|
| `GcState.AccessibleIsLive` | liblua/lgc.h:69-70 | while live objects refer to live objects only, whatever the program can reach is allocated and not dead |
| `GcMark.ReallyMarkInv` | liblua/lgc.c:69-112 | marking an object keeps the mark invariant: no black object refers to a white one, the gray objects are exactly those listed, and nothing outside the bound is marked |
| `GcPropagate.PropagateMarkInv` | liblua/lgc.c:277-320 | so does traversing the first gray object, whatever its kind and weakness |
| `GcPropagate.PropagateMeasure` | liblua/lgc.c:323-327 | each propagation lowers the number of white objects, or keeps it and shortens the gray list |
| `GcAtomic.MarkRootInv` | liblua/lgc.c:501-512 | with everything white, markroot starts the mark phase with its invariant |
| `GcClear.ClearedKids` | liblua/lgc.c:337-372 | what a cleared weak table still shows was there before, and is marked; what it still shows exactly is in `GcWeak.WeakEntries` |
| `GcClear.ClearTablesInv` | liblua/lgc.c:351-372 | clearing the weak list keeps the mark invariant and leaves its tables with marked references only |
| `GcFinish.FinishMarksInv` | liblua/lgc.c:525-545 | after the marking of the atomic step no object is excused from the invariant; what it queues for finalizers is in `GcFinal.AtomicQueues` |
| `GcFinish.ClearedClosed` | liblua/lgc.c:525-546 | then the marked objects hold the roots, are closed under references and stay within what may be marked |
| `GcCycle.MarkRootKeeps` | liblua/lgc.c:560-563 | the step that starts a cycle keeps the invariant of the state |
| `GcCycle.FlipKeeps` | liblua/lgc.c:547-551 | flipping the white turns the unmarked objects, and no others, into dead ones and keeps the invariant |
| `GcCycle.AtomicKeeps` | liblua/lgc.c:525-553 | the atomic step keeps the invariant from every state of the mark phase |
| `GcWeak.WeakListed` | liblua/lgc.c:525-546 | the tables that the atomic step clears are exactly the live weak ones, but for those traversed before they were weak |
| `GcWeak.WeakEntries` | liblua/lgc.c:329-372 | an entry is the same after the atomic step exactly if its table is not cleared, or its key and its value are primitive or live, and the value is no userdata that counts as finalized; in the array part only weak values are looked at; all other entries are gone |
| `GcReach.CycleQueue` | liblua/lgc.c:128-152 | a cycle that is not interrupted adds exactly those userdata to the queue that have a finalizer not yet called and that no strong reference from the roots leads to |
| `GcReach.CycleLive` | liblua/lgc.c:525-553 | of all objects but strings it keeps exactly what strong references reach from the roots and from the queue; weak references keep nothing |
| `GcFinal.SeparateQueues` | liblua/lgc.c:128-152 | separating moves the unmarked userdata that have a finalizer not yet called behind those that wait, in the order of rootgc, and leaves the order of the others; every unmarked userdata counts as finalized |
| `GcFinal.AtomicQueues` | liblua/lgc.c:525-553 | from every state of the mark phase in which userdata stand behind the main thread, as in all runs: the atomic step queues exactly the userdata that become finalized in it and have a finalizer, behind those that wait and in the order of rootgc; userdata that are dead after it had no finalizer or were finalized before |
| `GcSweep.SweepStringsKeeps` | liblua/lgc.c:572-580 | sweeping a bucket of the string table keeps the invariant and frees dead strings only |
| `GcSweepStep.SparedIsLive` | liblua/lgc.c:407-428 | the test of sweeplist spares live objects only |
| `GcSweepStep.SweepOneKeeps` | liblua/lgc.c:407-428 | each round of sweeplist on rootgc, with the open upvalues of a thread, keeps the invariant, frees dead objects only and has fewer left to visit |
| `GcStep.ResizeKeeps` | liblua/lstring.c:22-47 | rehashing the string table keeps the invariant |
| `GcStep.SweepEnd` | liblua/lgc.c:581-587 | when the sweep ends everything has the current white |
| `GcUpval.CloseOneKeeps` | liblua/lfunc.c:96-112 | closing or freeing the innermost open upvalue keeps the invariant in every phase, with the barrier of luaC_linkupval |
| `GcStore.BarrierBackKeeps` | liblua/lgc.c:675-683 | the backward barrier keeps the invariant, and its assertion on the phase holds |
| `GcStore.StoreTableKeeps` | liblua/lgc.h:89-90 | a store into a table with its barrier keeps the invariant |
| `GcStore.StoreObjKeeps` | liblua/lgc.c:662-672 | a store into any other object with the forward barrier keeps the invariant, in the mark phase and outside it; the assertion of the barrier on the phase holds unless the object is userdata waiting for its finalizer |
| `GcTheorem.BarrierAfterCycle` | liblua/lgc.c:662-666 | a state in which it is, reached by the finalizer of other userdata: the assertion fails |
| `GcAlloc.NewObjectKeeps` | liblua/lgc.c:686-692 | a new object is live and everything live stays so, in every phase |
| `GcAlloc.NewUdataKeeps` | liblua/lstring.c:96-110 | a new userdata, linked behind the main thread, likewise |
| `GcLife.UdataCreates` | liblua/lstring.c:96-110 | a new userdata is not finalized and stands in front of all others, whose order does not change |
| `GcAlloc.InternKeeps` | liblua/lstring.c:75-93 | interning gives the only string with that text, live even if it was dead when found |
| `GcStrings.ResizeChains` | liblua/lstring.c:22-47 | resizing the string table gives the size asked for, unless the table is being swept, and neither loses nor doubles a string |
| `GcStrings.NewStringSize` | liblua/lstring.c:50-72 | a new string doubles the table exactly if there are more strings than chains then, but not while it is swept |
| `GcStrings.CheckSizesSize` | liblua/lgc.c:431-436 | the end of a sweep halves the table exactly if it is larger than twice the least size and has fewer strings than a quarter of its chains |
| `GcStrings.RunTable` | liblua/lstring.c:22-72 | in every run the chains hold every string exactly once, the count is their number, and the size is a power of two |
| `GcAlloc.FindUpvalKeeps` | liblua/lfunc.c:53-79 | capturing a stack slot gives its one open upvalue, live even if it was dead when found |
| `GcRun.SingleStepSafe` | liblua/lgc.c:556-607 | every collector step keeps the invariant and frees nothing the program can reach |
| `GcRun.CallGCTMKeeps` | liblua/lgc.c:445-474 | taking a userdata from tmudata for its finalizer keeps the invariant |
| `GcLife.CallCalls` | liblua/lgc.c:445-474 | the first of the queue goes back behind the main thread, and onto the stack of the running thread exactly if it has a finalizer |
| `GcSafety.SetFlagsSafe` | liblua/lstring.h:24-24 | fixing a string, or changing the mode of a table or the need for a finalizer, keeps the invariant |
| `GcSafety.StepKeeps` | liblua/lgc.c:556-710 | every operation of a program or of the collector keeps the invariant |
| `GcSafety.ProgramCycle` | liblua/lgc.c:662-710 | nothing a program does brings the collector back in its cycle |
| `GcSafety.StepSafe` | liblua/lgc.c:407-428 | no operation frees an object the program can reach |
| `GcView.CollectorEffect` | liblua/lgc.c:556-607 | a step of the collector changes nothing a program can see, but for the tables that the atomic step clears and the userdata put on the stack for its finalizer |
| `GcView.CloseUpvalsQuiet` | liblua/lfunc.c:96-112 | exactly the open upvalues at the level and above are closed, each with the value of its slot, and nothing else changes |
| `GcView.CaptureEffect` | liblua/lfunc.c:53-79 | a closure that captures a slot gets the one open upvalue of that slot, and nothing else changes |
| `GcView.StepEffect` | liblua/lgc.c:556-710 | every operation of a program stores, makes or links what it says and leaves all other objects as they were, whatever its barrier does; the collector as above |
| `GcView.CanStore` | liblua/lgc.h:89-90 | a program can store whatever it can reach into any table it can reach |
| `GcView.CanGoOn` | liblua/lgc.c:556-607 | in every state the collector can take a step, and objects can be made |
| `GcLife.StepLives` | liblua/lgc.c:128-152 | every operation lets userdata age, makes one, queues some or calls the first of the queue; in all states userdata stand behind the main thread, and those that wait or are dead count as finalized |
| `GcSafety.AbandonSafe` | liblua/lgc.c:638-647 | giving up a mark phase keeps the invariant and makes nothing dead |
| `GcTheorem.InitialInv` | liblua/lstate.c:143-190 | the state after lua_newstate, before the first strings are made and fixed, satisfies the invariant |
| `GcTheorem.RunInv` | liblua/lgc.c:556-607 | so does every state of every run |
| `GcTheorem.RunSafe` | liblua/lgc.c:407-428 | in every run, what the program can reach is allocated and the next step does not free it |
| `GcTheorem.RunTriColor` | liblua/lgc.c:69-320 | in the mark phase of every run no black object refers to a white one, unless it waits for its finalizer, and the gray tables, functions, prototypes and threads are exactly those on the three lists |
| `GcTheorem.RunInterned` | liblua/lstring.c:75-93 | two strings of a run with the same text are one object |
| `GcFinalizer.StageStep` | liblua/lgc.c:128-152 | a userdata becomes finalized at most once, then waits if it has a finalizer, leaves the queue at most once and is freed only then |
| `GcFinalizer.RunFinalizer` | liblua/lgc.c:445-474 | in every run, a userdata that is freed became finalized in exactly one step; if it had a finalizer then, it left the queue in exactly one later step before it was freed, and was put on the stack in this step, and no other, exactly if it still had one; otherwise it never was |
| `GcFinalizer.RunFinalizedOnce` | liblua/lgc.c:445-474 | so a userdata that has a finalizer all the time is given to it exactly once before it is freed |
| `GcFinalizer.RunReverse` | liblua/lgc.c:128-152 | finalizers are called in the order in which cycles find userdata unreachable, and within one cycle in reverse order of creation |
| `GcExact.AtomicExact` | liblua/lgc.c:525-553 | after the atomic step of an uninterrupted cycle exactly the reachable objects of its start are live |
| `GcExact.AccessibleBefore` | liblua/lgc.c:407-428 | a sweep lets the program reach nothing new |
| `GcExact.AccessibleAfter` | liblua/lgc.c:407-428 | and takes nothing reachable away |
| `GcCollector.FirstSweepFreesNothing` | liblua/lgc.c:638-653 | the sweep with which a full collection gives up a mark phase frees nothing |
| `GcCollector.StepProgress` | liblua/lgc.c:556-607 | every step outside the pause brings the cycle nearer to its end |
| `GcCollector.CollectedBefore` | liblua/lgc.c:649-654 | a sweep before a collection does not change what the collection keeps |
| `GcCollector.Collector.PropagateGrays` | liblua/lgc.c:323-327 | the loop ends with an empty gray list and the state that PropagateAll defines |
| `GcCollector.Collector.SweepWholeList` | liblua/lgc.c:407-428 | the loop over a chain frees its dead objects, whitens the others and relinks the survivors in order |
| `GcCollector.Collector.RunFinalizer` | liblua/lgc.c:445-474 | whatever the code of a finalizer does, the invariant holds and the collector is where it was in its cycle |
| `GcCollector.Collector.FinishSweep` | liblua/lgc.c:638-653 | giving up a mark phase and sweeping keep the invariant; then nothing at all is freed, and what a later collection keeps is what it would have kept before |
| `GcCollector.Collector.RunToPause` | liblua/lgc.c:655-657 | single steps up to the pause terminate, with the code of finalizers run between them |
| `GcCollector.Collector.FullGc` | liblua/lgc.c:636-659 | from every state it ends in the pause with the invariant, whatever finalizers do; given up from a pause or a mark phase its first sweep frees nothing; without weak tables and finalizers exactly the fixed and the reachable objects are left |
| `LuaMachine.RunMore` | liblua/lvm.c:485-581 | code run inside longer code in which open jumps got targets behaves as before, up to where those jumps now lead |
| `LuaPatch.ListAppend` | liblua/lcode.c:180-191 | linking the last jump of a list to the first of another gives the concatenated list |
| `LuaPatch.ListPatched` | liblua/lcode.c:147-155 | patching other jumps leaves a list as it was |
| `LuaMeaning.ChoiceMeans` | liblua/lcode.c:729-742 | code of the second operand behind the test of the first computes `and` and `or` |
| `LuaMeaning.TestedCond` | liblua/lcode.c:534-560 | testing a value and patching the agreeing jumps gives code that falls through exactly when the value is as wanted |
| `LuaMeaning.NegatedMeans` | liblua/lcode.c:589-621 | with exchanged lists that carry no values, code computes the negation |
| `LuaFinish.FinishLoads` | liblua/lcode.c:385-406 | when all jumps of an expression have their targets, running it leaves its value in the register, whether a jump carries it or stands for a boolean |
| `LuaCode.FuncState.PatchTestReg` | liblua/lcode.c:126-136 | rewrites the test before a jump, or reports that it carries no value |
| `LuaCode.FuncState.PatchListAux` | liblua/lcode.c:147-155 | leads every jump of a list to its value or default target and changes nothing else |
| `LuaCode.FuncState.Concat` | liblua/lcode.c:180-191 | appends a list to another |
| `LuaCode.FuncState.NeedValue` | liblua/lcode.c:117-123 | tells exactly whether some jump of a list carries no value |
| `LuaCode.FuncState.RemoveValues` | liblua/lcode.c:139-142 | makes every test before a jump of a list carry no value |
| `LuaCode.FuncState.Emit` | liblua/lcode.c:781-793 | appends an instruction after sending the pending jumps to it |
| `LuaCode.FuncState.Jump` | liblua/lcode.c:54-61 | the new jump is followed in its list by the pending jumps |
| `LuaCode.FuncState.PatchToHere` | liblua/lcode.c:174-177 | a list joins the pending jumps |
| `LuaCode.FuncState.JumpOnCond` | liblua/lcode.c:519-531 | emits a test that jumps exactly when the value is not as wanted, reusing a `not` |
| `LuaCode.FuncState.GoIf` | liblua/lcode.c:534-586 | code that falls through exactly when the expression is as wanted and leaves by the returned list otherwise |
| `LuaCode.FuncState.CodeNot` | liblua/lcode.c:589-621 | code and descriptor of the negated expression; fails exactly if it needs a register and there is none |
| `LuaCode.FuncState.EndExpr` | liblua/lcode.c:388-403 | closes both lists, with instructions that load booleans only if a jump needs them |
| `LuaCode.FuncState.Exp2Reg` | liblua/lcode.c:385-406 | code that puts the value of the expression into any given register |
| `LuaCode.FuncState.Exp2NextReg` | liblua/lcode.c:409-414 | the same for a new register, if and only if there is one |
| `LuaCode.FuncState.Exp2AnyReg` | liblua/lcode.c:417-428 | the value is in a register, its own if it is a local and a new one otherwise; fails exactly if there is none |
| `LuaCode.FuncState.CodeComp` | liblua/lcode.c:670-683 | the comparison and its jump, with exchanged operands for `>` and `>=` |
| `LuaCode.FuncState.Comparison` | liblua/lcode.c:753-773 | a compiled comparison means the comparison of its operands, and is compiled if and only if the registers suffice |
| `LuaCode.FuncState.FirstOperand` | liblua/lcode.c:707-726 | after the first operand of `and` or `or` the code goes on exactly when the second is needed; compiled if and only if the registers suffice |
| `LuaCode.FuncState.Merge` | liblua/lcode.c:729-742 | joining the lists of both operands keeps the meaning of the whole |
| `LuaCode.FuncState.Subexpr` | liblua/lcode.c:686-773 | every expression is compiled if and only if the registers suffice, and the emitted code computes it: with the value where the descriptor says or by the lists |
| `LuaCode.FuncState.Assign` | liblua/lcode.c:467-474 | for every expression for which the registers suffice, running its code leaves its value in the local assigned to, which may occur in it, and the other locals alone; earlier code stays as it was |
| `LuaCode.FuncState.Init` | liblua/lcode.c:409-414 | the same for a new local |
| `LuaCode.FuncState.Block` | liblua/lparser.c:1323-1335 | a sequence of assignments is compiled if and only if the registers suffice for each, and its code does them one after the other |
| `LuaMeaning.PerformsMore` | liblua/lvm.c:485-581 | code that does assignments, followed by code that does one more, does them all |
| `TableHash.PlaceHere` | liblua/ltable.c:399-401 | a key put at its free main position keeps every chain and every key findable |
| `TableHash.PlaceBehind` | liblua/ltable.c:418-423 | so does a key put into a free node behind the one that owns the main position |
| `TableHash.PlaceInstead` | liblua/ltable.c:409-417 | so does moving a colliding node that is out of its main position |
| `TableSizes.SliceOf` | liblua/ltable.c:211-219 | the slice of a key is the least whose power of two reaches it |
| `TableSizes.ComputeSizes` | liblua/ltable.c:189-208 | finds the largest power of two more than half of whose indices are keys, and how many they are |
| `TableSizes.CountInt` | liblua/ltable.c:211-219 | counts an integer key in its slice if the array part could hold it |
| `LuaTable.Table.constructor` | liblua/ltable.c:358-367 | a new table is empty |
| `LuaTable.Table.Init` | liblua/ltable.c:368-371 | it gets the parts asked for, with less than twice as many nodes, unless the hash part would be larger than 2^26 nodes |
| `LuaTable.Table.Find` | liblua/ltable.c:481-489 | following the chain from the main position finds the key if it is anywhere |
| `LuaTable.Table.Get` | liblua/ltable.c:469-491 | returns what the map holds, nil otherwise |
| `LuaTable.Table.GetFreePos` | liblua/ltable.c:382-388 | finds the last node never used, if there is one |
| `LuaTable.Table.Previous` | liblua/ltable.c:412-412 | finds the node before a colliding one in its chain |
| `LuaTable.Table.Place` | liblua/ltable.c:399-429 | places a new key without a value and keeps all entries, or, exactly if its main position is taken and no node is free, leaves the table as it is |
| `LuaTable.Table.NewKey` | liblua/ltable.c:399-429 | gives a place to a new key with at most one rehash, since a table with room does not rehash, or two if the array part was too large to be counted; fails exactly if there is no free node and the other keys are too many for a hash part |
| `LuaTable.Table.SetNodeVector` | liblua/ltable.c:272-294 | an empty hash part, a power of two of nodes, at least the wanted size and less than twice that, or none if none is wanted; or an error and no change exactly if that is more than 2^26 |
| `LuaTable.Table.Resize` | liblua/ltable.c:297-324 | with enough nodes every entry is moved to the new parts without another rehash; with too few every entry is moved exactly if they fit into the largest hash part; if the hash part asked for is too large, no entry is lost although the array part has grown, provided at most one new key was asked for |
| `LuaTable.StillBest` | liblua/ltable.c:307-312 | a rehash while entries are moved finds the same size for the array part, so that the slice still to be moved stays where it is |
| `LuaTable.NoneShadowed` | liblua/ltable.c:302-305 | then every node is needed for a key outside the grown array part, so that it hides none of them |
| `LuaTable.Table.ResizeArray` | liblua/ltable.c:327-330 | growing the array part to any size never overflows and keeps all entries |
| `LuaTable.Table.MoveSlice` | liblua/ltable.c:306-315 | re-inserts the slice that vanishes from the array part |
| `LuaTable.Table.MoveNodes` | liblua/ltable.c:316-321 | re-inserts the old hash part |
| `LuaTable.Table.NumUseArray` | liblua/ltable.c:222-244 | counts the entries of the array part slice by slice, those at indices up to 2^26 |
| `LuaTable.Table.NumUseHash` | liblua/ltable.c:247-260 | counts the entries of the hash part, and the integer keys among them slice by slice |
| `LuaTable.Table.Rehash` | liblua/ltable.c:333-349 | makes the array part the largest that is more than half used counting the new key; if all entries were counted it keeps them and leaves room for that key, or fails, exactly if the other keys are more than 2^26, and then changes no entry; if not, it loses entries exactly if Loses says so |
| `LuaTable.Table.SetSlot` | liblua/ltable.c:494-505 | the place of a key, found or made, without changing what the table holds |
| `LuaTable.Table.Set` | liblua/ltable.c:494-505 | afterwards the map holds the stored value under that key and is otherwise unchanged; nil and NaN are refused as keys, and a new key exactly if the table is full and would overflow, which takes 2^26 entries; then nothing changes, unless an array part above 2^26 makes it lose entries, which is stated exactly |
| `LuaTable.LargeLoses` | liblua/ltable.c:222-244 | an array part that loses entries when a key is added |
| `LuaTable.Table.RemoveEntry` | liblua/lgc.c:62-66 | a key given up by the collector leaves all entries findable |
| `LuaTable.RoomLeft` | liblua/ltable.c:382-388 | a freshly resized hash part has a free node while it holds fewer keys than nodes |
| `LuaTable.SplitSizes` | liblua/ltable.c:343-348 | the keys that do not go to the array part, and the new one, fit into the new hash part |
| `ChunkTrip.FunctionLoads` | liblua/lundump.c:160-177 | a dumped function followed by anything is rebuilt from exactly its own bytes, or refused if it holds a negative integer |
| `ChunkTrip.ChunkLoads` | liblua/lundump.c:191-205 | the same for a whole chunk, stripped or not: missing sources become those of the parent |
| `ChunkTrip.RoundTrip` | liblua/ldump.c:129-164 | without stripping the same tree comes back if and only if no line or position is negative and every function has a source |
| `ChunkTrip.FunctionParsed` | liblua/lundump.c:160-177 | whatever bytes it is given, the loader returns only functions whose numbers and sizes fit the machine, that have a source and that the checker accepts |
| `ChunkTrip.SoundSurvives` | liblua/ldump.c:153-164 | every such function survives dump and load |
| `ChunkTrip.LoadedSurvives` | liblua/lundump.c:191-205 | so whatever was loaded, from any bytes, comes back unchanged from a further dump and load |
| `ChunkTrip.OtherMachine` | liblua/lundump.c:179-186 | a chunk from a machine with other sizes or byte order is refused |
| `ChunkTrip.SampleChunk` | liblua/ldump.c:29-164 | the bytes of a chunk with one constant of each kind, code and debug information, on a 32-bit machine with little-endian order, one by one |
| `ChunkTrip.ConstLoads` | liblua/lundump.c:99-131 | every constant is read back, a missing string apart from an empty one |
| `ChunkFormat.WordBack` | liblua/lundump.c:42-45 | words are read back in either byte order |
| `ChunkStream.Zio.Fill` | liblua/lzio.c:21-32 | the next piece, or the end at an empty one |
| `ChunkStream.Zio.Read` | liblua/lzio.c:58-71 | however the reader cuts the stream, the next bytes of it, or how many are missing |
| `ChunkStream.LoadState.LoadBlock` | liblua/lundump.c:47-51 | a block or the error of a stream that ends too early |
| `ChunkStream.LoadState.LoadInt` | liblua/lundump.c:60-66 | an integer, refused if negative |
| `ChunkStream.LoadState.LoadString` | liblua/lundump.c:75-87 | a string without its final zero, or none |
| `ChunkStream.LoadState.LoadConstants` | liblua/lundump.c:99-131 | the loop reads what ParseCounted says of any stream |
| `ChunkStream.LoadState.LoadDebug` | liblua/lundump.c:136-158 | lines, local variables and upvalue names of any stream |
| `ChunkStream.LoadState.LoadFunction` | liblua/lundump.c:160-177 | for every stream, well-formed or not, in any pieces, the result of ParseFunction and the rest of the stream |
| `ChunkStream.LoadState.Undump` | liblua/lundump.c:191-205 | the same for a chunk |
| `ChunkStream.DumpState.DumpBlock` | liblua/ldump.c:29-37 | after a failure the writer gets nothing more |
| `ChunkStream.DumpState.DumpString` | liblua/ldump.c:61-74 | writes the bytes of a string, or a beginning of them |
| `ChunkStream.DumpState.DumpConsts` | liblua/ldump.c:80-106 | writes the bytes of the constants, or a beginning of them |
| `ChunkStream.DumpState.DumpDebug` | liblua/ldump.c:111-127 | writes the debug information unless stripping |
| `ChunkStream.DumpState.DumpFunction` | liblua/ldump.c:129-141 | writes the bytes of a function tree, or a beginning of them |
| `ChunkStream.DumpState.Dump` | liblua/ldump.c:153-164 | the writer gets exactly the bytes of the chunk if the status is zero, a beginning of them otherwise |
| `ChunkStream.DumpAndLoad` | liblua/lundump.c:191-205 | a function dumped without an error, its bytes cut into pieces in any way, is loaded again as it was |
| `OrderedProtocol.StepInv` | libgomp/ordered.c:38-221 | every step of every thread keeps the invariant of the queue, the semaphores and the owner |
| `OrderedProtocol.RunInv` | libgomp/ordered.c:38-221 | so it holds throughout every run |
| `OrderedProtocol.OnePermit` | libgomp/ordered.c:38-146 | posted permits, permits just taken and the owner add up to one exactly while the queue is not empty |
| `OrderedProtocol.OneSection` | libgomp/ordered.c:194-221 | at most one thread is in its ordered section, and all earlier blocks have been given up |
| `OrderedProtocol.SectionsInOrder` | libgomp/ordered.c:194-221 | sections are entered in the order in which blocks were handed out |
| `OrderedProtocol.OwnerIsMine` | libgomp/ordered.c:206-214 | whether the unlocked read finds the reader itself cannot be changed by another thread |
| `OrderedProtocol.BlocksBehindAnother` | libgomp/ordered.c:215-221 | a thread that found another owner waits exactly until it is the head of the queue |
| `OrderedProtocol.HeadCanMove` | libgomp/ordered.c:194-221 | the head of the queue can always move |
| `OrderedProtocol.HeadEnters` | libgomp/ordered.c:194-221 | and enters its section with at most three steps of its own, whatever the others do |
| `OrderedProtocol.CanMove` | libgomp/ordered.c:38-221 | nothing stops a thread but waiting for its turn |
| `OrderedProtocol.Accounts` | libgomp/ordered.c:38-146 | each start and continuation hands out the next block, each continuation and end retires one, and the queue holds the threads of the blocks in between, in order |
| `OrderedProtocol.SyncAtOnce` | libgomp/ordered.c:206-214 | gomp_ordered_sync returns at once exactly if the thread has had its turn in this block before |
| `OrderedQueue.WorkShare.First` | libgomp/ordered.c:38-63 | on the circular array, the step of the protocol that appends a thread |
| `OrderedQueue.WorkShare.Last` | libgomp/ordered.c:69-96 | the step that drops the head and wakes the next |
| `OrderedQueue.WorkShare.Next` | libgomp/ordered.c:104-146 | the step that moves the head to the end, also when the array is full |
| `TaskProtocol.StepInv` | libgomp/task.c:141-356 | every step under the task lock keeps the invariant of rings, queue and waiting tasks |
| `TaskProtocol.RunInv` | libgomp/task.c:141-356 | so it holds throughout every run |
| `TaskProtocol.OldestIsLast` | libgomp/task.c:206-216 | the task at the head of the queue is the last waiting one of its parent's ring |
| `TaskProtocol.WaitingFirst` | libgomp/task.c:297-318 | every ring lists its waiting children before the running ones |
| `TaskProtocol.BlocksOnlyBehindOthers` | libgomp/task.c:315-337 | when GOMP_taskwait blocks, all its unfinished children are being run, none of them by this taskwait |
| `TaskProtocol.NextInWait` | libgomp/task.c:285-337 | in a taskwait a child is taken if and only if one is waiting, it blocks if and only if there are unfinished children and none waits, and returns if and only if there are none |
| `TaskProtocol.TakesYoungest` | libgomp/task.c:297-314 | the child taken is the youngest that waits, and this taskwait runs it |
| `TaskProtocol.FetchesOldest` | libgomp/task.c:200-220 | at a barrier a task can be taken if and only if one waits, and the oldest is |
| `TaskProtocol.CanFinish` | libgomp/task.c:236-258 | a task that is about its own work can end at any time, by the thread that runs it |
| `TaskProtocol.OwnWork` | libgomp/task.c:141-168 | and can make tasks and wait for them at any time |
| `TaskProtocol.CreatesChild` | libgomp/task.c:141-168 | a new task is one more unfinished child, and waits |
| `TaskProtocol.FinishedGone` | libgomp/task.c:236-258 | the end of a task removes it, and its children, from among the unfinished children, and no other |
| `TaskProtocol.WaitMoves` | libgomp/task.c:273-357 | the stages of a taskwait, which no other task changes |
| `TaskProtocol.NoDeadlock` | libgomp/task.c:273-357 | while some task is in a taskwait, something can be done about it: no taskwait blocks for good |
| `TaskProtocol.ReturnsWhenDone` | libgomp/task.c:285-337 | it returns only when no child is unfinished |
| `TaskProtocol.WakesWhenDone` | libgomp/task.c:239-255 | a blocked one can go on if and only if no child is unfinished |
| `TaskRings.Ring.Insert` | libgomp/task.c:142-167 | links a task between the last and the first of a circular list |
| `TaskRings.Ring.PushFront` | libgomp/task.c:142-154 | a new child goes to the head of its ring |
| `TaskRings.Ring.PushBack` | libgomp/task.c:155-167 | and to the tail of the queue |
| `TaskRings.Ring.Advance` | libgomp/task.c:206-209 | the first becomes the last |
| `TaskRings.Ring.Remove` | libgomp/task.c:239-255 | unlinks any task and keeps the order of the others |
| `LoopChunks.DynamicAdvances` | libgomp/iter.c:154-175 | a dynamic block goes forward and ends on the grid or at the end of the loop; how far: `LoopChunks.BlockLengths` |
| `LoopChunks.GuidedAdvances` | libgomp/iter.c:260-292 | so does a guided one; how far: `LoopChunks.BlockLengths` |
| `LoopChunks.InitScheduled` | libgomp/loop.c:38-51 | gomp_loop_init prepares a loop that meets what the schedules need, for either sign and also when it is empty |
| `LoopChunks.InitEnd` | libgomp/loop.c:44-46 | moving the end of an empty loop to its start changes none of its iterations |
| `LoopChunks.ClippedAgain` | libgomp/iter.c:222-247 | a chunk that was clipped before a failed compare-and-swap makes no difference, since the loop only goes forward |
| `LoopChunks.RunInv` | libgomp/iter.c:221-252 | in every interleaving of compare-and-swap loops the blocks handed out form one chain from the start |
| `LoopChunks.EachIterationOnce` | libgomp/iter.c:294-337 | once a thread is told that nothing is left, every iteration is in exactly one block, for either sign of the increment |
| `LoopChunks.BlockLengths` | libgomp/iter.c:143-337 | in every run every dynamic block has the chunk size or ends the loop, and every guided one has the larger of the chunk size and the share of one thread, rounded up, of the whole steps left, or ends the loop |
| `LoopChunks.GuidedShare` | libgomp/iter.c:294-337 | this differs from its share of all iterations left exactly if the increment does not divide what is left, the last iteration would give it one more, and that is more than the chunk size |
| `LoopChunks.PortionIs` | libgomp/iter.c:274-275 | the share is the least number with which all threads together get all |
| `LoopChunks.IterationsAre` | libgomp/iter.c:274-274 | the number of iterations is that of the values before the end |
| `LoopChunks.CallAnswered` | libgomp/iter.c:221-252 | a call that is not disturbed gets the next block with its first compare-and-swap, or the answer that nothing is left |
| `LoopChunks.SwapAnswers` | libgomp/iter.c:221-252 | a compare-and-swap fails only if another thread has been given a block since this one read the counter |
| `LoopChunks.CanGoOn` | libgomp/iter.c:221-252 | a thread can go on until it is told that nothing is left |
| `LoopChunks.NeverTwice` | libgomp/iter.c:221-252 | at no time is an iteration in two blocks |
| `LoopFetchAdd.RunInv` | libgomp/iter.c:194-219 | the same chain for the fetch-and-add path, where each refused thread has moved the counter one chunk too far |
| `LoopFetchAdd.EachIterationOnce` | libgomp/iter.c:194-219 | with an unbounded counter every iteration is handed out exactly once |
| `LoopFetchAdd.BlockLengths` | libgomp/iter.c:194-219 | every block has the chunk size or ends the loop |
| `LoopWords.WithinWord` | libgomp/iter.c:196-196 | in all runs of so many threads the counter stays within the word if and only if the last chunk boundary they can reach does |
| `LoopWords.WordOrder` | libgomp/iter.c:194-219 | with a counter that wraps around, the blocks form one chain in all runs if and only if no boundary that a refused thread reads looks like an iteration |
| `LoopWords.EachIterationOnce` | libgomp/iter.c:194-219 | and then every iteration is handed out exactly once |
| `LoopWords.TestFits` | libgomp/loop.c:61-78 | if neither the number of threads nor the chunk has a bit in the upper half of a word, the product that the test forms does not overflow |
| `LoopWords.NoOverflow` | libgomp/loop.c:49-80 | in a loop that the test marks for so many threads, where `long` is not wider than the counter, that many keep it within the word and one more still get the right blocks |
| `LoopWords.TestWorth` | libgomp/loop.c:49-80 | for words of six bits or more and a `long` not narrower, exactly for these teams, and only if `long` is as wide as the counter |
| `LoopWords.CombinedLoop` | libgomp/loop.c:446-458 | a loop marked for one thread in which the fifth is handed a block outside of it |
| `LoopWords.NarrowWord` | libgomp/loop.c:61-78 | with 16-bit pointers and a 32-bit `long`, a loop marked for two threads in which the second is |
| `LoopFetchAdd.FactorNeeded` | libgomp/loop.c:61-78 | for every increment and chunk size some run moves the counter by one chunk more than there are threads |
| `LoopStatic.CountIs` | libgomp/iter.c:73-75 | the computed number of iterations is the right one for either sign |
| `LoopStatic.Partition` | libgomp/iter.c:41-141 | for every team and chunk size, also none, each iteration is given to exactly one thread, in exactly one of its calls |
| `LoopStatic.StaticLengths` | libgomp/iter.c:60-141 | every block has the chunk size, or an equal share of all iterations rounded up, or ends the loop, and blocks are dealt out in turn |
| `LoopStatic.ValuesPartition` | libgomp/iter.c:41-141 | the same for the values of the loop variable, for either sign of the increment |
| `LoopStatic.StopsInTime` | libgomp/iter.c:36-39 | a thread gets no block after as many calls as there are iterations |
| `LoopStatic.LastBlockKnown` | libgomp/iter.c:49-50 | the call after a block is negative exactly if the block ended the loop |
| `LoopStatic.NegativeReturn` | libgomp/iter.c:36-59 | a negative return means that an earlier block of the thread ended the loop, if and only if there is another thread or an iteration |
| `LoopStatic.EmptyLoopAlone` | libgomp/iter.c:52-59 | with one thread and no iteration the second call is negative although there was no block |
| `WorkShares.InitialInv` | libgomp/team.c:139-151 | a new team has one work share in use and seven on the allocation list |
| `WorkShares.StepInv` | libgomp/work.c:41-268 | every step of an allocating, working or freeing thread keeps the invariant |
| `WorkShares.RunInv` | libgomp/work.c:41-268 | so it holds throughout every run |
| `WorkShares.SwapInv` | libgomp/work.c:149-155 | a successful compare-and-swap prepends to the list as it is then, whatever happened since the head was read |
| `WorkShares.CutInv` | libgomp/work.c:55-67 | cutting all but the first entry off the free list, while others push, loses and doubles none |
| `WorkShares.ExactlyOnePlace` | libgomp/work.c:41-164 | every work share is on the allocation list, on the free list, cut off, being freed by one thread, or that of one construct, and in one place only |
| `WorkShares.InUseIsLive` | libgomp/work.c:238-268 | no work share that a thread may still touch is on a list or being freed |
| `WorkShares.LooksAtHead` | libgomp/work.c:48-59 | with an empty allocation list the head of the free list is looked at |
| `WorkShares.GrowsWhenEmpty` | libgomp/work.c:55-90 | new work shares are made exactly if nothing follows it there, and twice as many as before |
| `WorkShares.StartsNext` | libgomp/work.c:171-203 | every step of a starting or allocating thread brings it nearer to the next construct, whatever others do |
| `WorkShares.EndsAndFrees` | libgomp/work.c:138-268 | exactly the last thread to leave a construct frees the work share of the one before, and a push is repeated only if another thread changed the list |
| `WorkShares.SomeoneMoves` | libgomp/work.c:41-268 | some thread can always move, and whoever cannot waits for it to open the next work share |
| `QuickSort.InsertionSort` | libc/qsort.c:87-94 | sorts and permutes |
| `QuickSort.Med3` | libc/qsort.c:70-76 | the middle one of three |
| `QuickSort.Partition` | libc/qsort.c:107-134 | leaves the elements in the zones equal, less, greater, equal; without a swap nothing has moved |
| `QuickSort.VecSwap` | libc/qsort.c:68-68 | exchanges two blocks |
| `QuickSort.Gather` | libc/qsort.c:144-148 | brings the zones into the order less, equal, greater |
| `QuickSort.QSort` | libc/qsort.c:78-157 | permutes the elements, and sorts them if no comparison between two of them loses its sign; if a comparison does, the seven elements built from that pair come out unsorted |
| `QuickSort.FitsKept` | libc/qsort.c:82-82 | no sign is lost when the type holds every result |
| `QuickSort.EightBits` | libc/qsort.c:82-82 | comparing by subtraction in eight bits, seven given numbers 0 and 256 come out in a given order, which is not sorted |
| `QuickSort.Trapped` | libc/qsort.c:112-134 | for every comparison that loses its sign there are seven elements, arranged from that pair, that no run leaves sorted |
| `SquareRoot.BitTest` | libm/e_sqrt.c:147-157 | the test of the algorithm decides whether the next bit belongs to the root |
| `SquareRoot.UpperBits` | libm/e_sqrt.c:142-157 | the first loop computes the upper part of the root with an exact remainder, without leaving the range of its words |
| `SquareRoot.LowerBits` | libm/e_sqrt.c:159-174 | the second loop computes the rest of the 54-bit floor root, carries and borrows included, without leaving the range of its words |
| `SquareRoot.HighFits` | libm/e_sqrt.c:142-157 | the words of the first loop stay far from the sign bit |
| `SquareRoot.LowFits` | libm/e_sqrt.c:159-174 | those of the second loop, and the sum it tests, fit into their words |
| `SquareRoot.Rounded` | libm/e_sqrt.c:176-188 | dropping the last bit rounds to nearest, and there is never a tie |
| `SquareRoot.EmptyWord` | libm/e_sqrt.c:124-127 | shifting until the upper word is not zero keeps significand and exponent together; its hidden bit is set at once exactly if the next shift is by 32 |
| `SquareRoot.Subnormal` | libm/e_sqrt.c:123-132 | a subnormal number gets the significand and exponent it would have if it were normal, or a shift is undefined |
| `SquareRoot.Normalize` | libm/e_sqrt.c:122-139 | makes the exponent even and halves it |
| `SquareRoot.RootBits` | libm/e_sqrt.c:141-188 | the correctly rounded root of the scaled significand |
| `SquareRoot.Packed` | libm/e_sqrt.c:189-195 | the words and the exponent make up the number |
| `SquareRoot.Sqrt` | libm/e_sqrt.c:97-196 | for all positive numbers, normal or not, the correctly rounded root, as section 5.2 of IEEE 754-1985 asks for, exactly unless a shift is undefined; the special cases as the source treats them |

## Left out

- The memory of the collector as linked cells: its lists are sequences, `sweepgc` is an index, and a freed object leaves the map of objects.
- `luaC_step` pacing, size estimates, stack shrinking and `luaC_freeall`: they do not decide what is freed in a run.
- GcCollector.Collector.RunFinalizer: the code of a finalizer does not itself start a collection; in `GcTheorem` steps of the collector may come anywhere.
- GcStrings.NewStringSize: a string table of 2^30 chains or more, which `liblua/lstring.c:69` does not let grow, is not modelled.
- GcFinalizer.RunFinalizer: a finalizer is called with its userdata on the stack; the function itself, and what the call does to the stack afterwards, are operations of the program.
- GcTheorem.InitialInv: the strings that `luaT_init` and `luaX_init` create and fix are operations of the run that follows.
- Constants and literals as operands of `and`, `or` and `not`, calls, indexing and arithmetic in the expression compiler.
- The widths of instruction fields: jump offsets, registers and code size are unbounded, except that running out of registers is an error.
- Comparisons that fall back on metamethods: a comparison is any function of the two values.
- `luaH_next` and `luaH_getn`; number and string keys are compared as values.
- LuaTable.Table.Resize: either the new hash part has room for the keys that do not go to the array part, or the array part gets the size that `rehash` computes, which both of its callers see to; `luaH_resizearray` is modelled for growing, its only use (`liblua/lvm.c:706-707`).
- The width of an `int` in `ltable.c:41-45` is the constant `TableSizes.BITSINT`, here 32, so that the limit is 2^26.
- LuaTable.Table.Get: dead keys, which no program can hold, are excluded.
- The bytecode checker: loading takes its verdict as a parameter; lemmas about a round trip assume that it accepts.
- Memory errors while loading, and the buffer in which strings are assembled.
- Undeferred tasks, the barrier's own counters and thread wake-ups in `task.c`.
- Statically scheduled ordered loops, and in the ordered protocol a team of one thread, for which the source does nothing.
- `gomp_work_share_end` with its barrier, whose interleavings are among those of `gomp_work_share_end_nowait`; orphaned constructs; the variants with locks instead of atomic accesses.
- The `unsigned long long` loops of `iter_ull.c` and `loop_ull.c`.
- LoopChunks.InitScheduled: the chunk times the increment, and outside the fetch-and-add path the length of a loop, are exact; loops for which they leave the word are not modelled.
- LoopWords.WordOrder: the end of a block wraps around like the counter, where the language leaves it undefined.
- Element sizes and word-wise copying in `qsort.c`: arrays hold elements, and the jump back to the beginning is a call.
- Other rounding modes and the inexact flag in `e_sqrt.c`.
