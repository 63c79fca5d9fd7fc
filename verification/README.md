# Verification of the bundled libraries

Models of the hard parts of the libraries bundled with the engine, with proofs for Dafny 4.11: the Lua 5.4 core
(`dependencies/lua`), moodycamel's concurrent queue (`dependencies/concurrentqueue`) and hiredis
(`dependencies/hiredis`). The project file is `dfyconfig.toml`.

## What is modelled

**Lua's incremental collector** (`LuaHeap`, `LuaMark`, `LuaVisit`, `LuaAtomic`, `LuaReach`, `LuaExact`,
`LuaCollector`, `LuaInvariant`, `LuaSweep`, `LuaStep`, `LuaCycle`, `LuaMutator`, `LuaAlloc`, `LuaFinal`,
`LuaMachine`). The heap is
a map from objects to bodies with references; `Global` holds colours, the gray lists, the lists of objects, the phase
and the sweep position. The collector is a class that changes this state in place, function by function. The mutator's
operations come with the barriers that their call sites use. `LuaMachine.Run` interleaves all of them in any order; of
each operation it is told, on the heap before and after, what it writes, and of each step of the collector what it
leaves alone. A cycle that the program does not interrupt leaves exactly what could be reached when it began
(`LuaCycle.FullCycle`). The
atomic phase does not visit the tables of the list `allweak` again, and a metatable that one of them got since may be
missed (`LuaHole`). What the phase will mark is told beforehand as a least closed set (`LuaReach`), so that the
condition under which no surviving object is left with a dead metatable is one on the state before the step. Tables of
the list that only survive, but that the program can no longer reach, count for that condition and not for what the
program can see; `LuaStep.AtomicEnd` states both equivalences.

**Lua's code generator for logical expressions** (`LuaVm`, `LuaExp`, `LuaPatch`, `LuaPlace`, `LuaLogic`, `LuaCode`,
`LuaCompile`). The few instructions have a small semantics in which an unpatched jump is a way for a run to end. An
expression descriptor denotes a value if runs fall through, or end at the jumps of its two lists, with that value where
it belongs. `FuncState` emits and patches code in place; each method is proved to keep or change what is denoted. The
walk over an expression is that of the parser. The flag for float operands is set by `isSCnumber` even when it finds no
usable number, so that one comparison passes a float instead of an integer; the exact condition is proved.

**Jump threading and the line table** (`LuaFinish`, `LuaLines`), and **open upvalues** (`LuaUpvalues`), the last
against the meaning of variables as cells.

**The concurrent queue** under sequential consistency: the free list (`FreeList`), the counters of the explicit
producer (`Dequeue`), its block ring and index as a sequential class that refines a sequence (`BlockRing`), the table of
implicit producers (`ImplicitHash`), and the semaphore with the blocking queue on top (`Semaphore`). Each of the
protocols is a function from a state and a thread to the next state, one atomic access at a time; what holds in every
run is an invariant kept by every access. What a call that runs alone does, from any state the others may have left it
in, is told in full beside that.

**hiredis**: the resumable reader (`RespNumbers`, `RespReader`, `RespClient`) of the Redis serialization protocol, the
command printers (`RespPrinter`), quoting and splitting (`SdsQuote`, `SdsSplit`), the hash table (`DictTable`), and the
queue of asynchronous callbacks (`AsyncQueue`). Replies are written from the protocol by an encoder of their own
(`RespValues`), and command lines by a syntax of their own (`SdsSplit`), so that what the reader and the splitter
return is stated apart from how they work.

## Properties that turned out false

- A metatable stored into an all-weak table during marking can be dead while in use: `LuaHole.MetatableLost`, a run from
  the first state; exactly when the atomic step leaves no reference to a dead object, and exactly when the program can
  reach none: `LuaStep.AtomicEnd`; runs go on otherwise: `LuaMachine.Run`.
- `5 < (a or 1000.0)` compares 5.0: `LuaCompile.QuirkShown`; exactly when code is right: `LuaCompile.QuirkExact`.
- A line emitted after two removals in a row, which the code generator never makes, can be recorded wrong:
  `LuaLines.TwoRemovals`; exactly when an emission is recorded right: `LuaLines.LineTable.Emit`.
- `redisFormatSdsCommandArgv` announces a wrong length for an argument of 2 to the 32nd bytes or more:
  `RespPrinter.LongestFails`, unnoticed by its assertion in `RespPrinter.WrongUnnoticed`; and it writes outside the
  place where it belongs when it announces an argument behind 2 to the 31st bytes: `RespPrinter.SecondStrays`. Exactly
  when output, assertion and position are right: `RespPrinter.FormatSdsCommandArgv`.
- How the input of the reader is cut makes a difference when too much of it is unread, since line ends are sought at
  positions in an int: `RespClient.CutMatters`; and what is left of a buffer longer than an int counts is thrown away
  with the bytes consumed: `RespClient.RestLost`. Exactly what is seen and kept: `RespReader.SeekExact`,
  `RespReader.WidthExact`, `RespClient.RangeExact`, `RespClient.Reader.GetReply`. For the same reason a command with a
  long argument is not parsed back: `RespPrinter.LongNotParsed`; exactly when it is: `RespPrinter.ParsePrinted`.
- An aggregate announced with more elements than an int holds makes the reader's assertion fail:
  `RespPrinter.HugeCount`; exactly when it cannot: `RespPrinter.AssertionsExact`.
- `waitMany(0)` fails its assertion: `Semaphore.WaitManyZero`; exactly when it holds: `Semaphore.WaitManyAsserts`.
- A spontaneous reply that is no error fails the assertion of `redisProcessCallbacks`: `AsyncQueue.UnaskedFails`;
  exactly when, for one read and for whole runs: `AsyncQueue.AsyncContext.ProcessCallbacks`, `AsyncQueue.Serve`. A free
  asked for during a timeout is forgotten if automatic freeing is off: `AsyncQueue.FreeForgotten`; exactly when the
  context is freed: `AsyncQueue.AsyncContext.HandleTimeout`.

## Model

| member | source | states |
|---|---|---|
| LuaMachine.Run | dependencies/lua/lgc.c:1476-1524 | Safety over whole runs: from the first state, under any script of collector steps and program operations (allocation, barriered stores, stack writes, upvalues, roots, finalizers, giving up a cycle), whatever the program can reach is always allocated and never about to be freed; each operation writes the one place it is to write and nothing else, no step of the collector makes a finalizer due for an object that is reached, and none changes what a thread, an upvalue or a strong entry holds. A run ends early exactly at an atomic step that does not reach the metatable of a table already in `allweak`; after that step a surviving object refers to a dead one. |
| LuaMachine.Do | dependencies/lua/lgc.c:193-248 | One step of a run, of any kind, keeps the collector's invariant and the live objects, unless it is such an atomic step: an equivalence on the state before it. What it writes is told as facts about the heap before and after; in the cases named the new state is given in full. |
| LuaMachine.InvSafe | dependencies/lua/lgc.c:755-776 | The invariant means memory safety: every accessible object is allocated and not dead. |
| LuaMachine.StoreUpvalue | dependencies/lua/lapi.c:1353-1369 | A store through an upvalue changes exactly the stack slot of an open one or the value of a closed one, and keeps the invariant. |
| LuaMachine.DoStore | dependencies/lua/lgc.c:193-222 | Every store into a table, closure or userdata, also a metatable given to a table already in `allweak`, changes exactly the one place of the one object if its operands are there and nothing at all otherwise; with the barrier its call site uses it keeps the invariant and all live objects. |
| LuaMachine.DoThread | dependencies/lua/lgc.c:565-589 | Setting a slot of a thread's stack, and shrinking a stack with no open upvalue above, change exactly that stack, without any barrier, and keep the invariant. |
| LuaMachine.DoUpvalue | dependencies/lua/lfunc.c:65-100 | Capturing a slot gives the upvalue that it has or adds a new one to the thread; storing through an upvalue, and closing one, change exactly the slot, or the upvalue and its thread's list. A closed upvalue keeps the value of its slot. |
| LuaInvariant.PathLive | dependencies/lua/lgc.h:19-20 | Along any path of references from a root, weak ones included, no object is dead: by induction over the path. |
| LuaInvariant.AccessibleLive | dependencies/lua/lgc.c:762-772 | An accessible object is allocated and will not be freed by the sweep. |
| LuaMarkSteps.OneChanged | dependencies/lua/lgc.c:596-614 | The colour rules are local: after a change at one object only that object has to be shown right for the whole marking invariant to hold. |
| LuaCollector.Collector.ReallyMark | dependencies/lua/lgc.c:268-299 | Marking an object keeps the marking invariant, stays below the upper bound and turns only white objects. |
| LuaCollector.Collector.TraverseEphemeron | dependencies/lua/lgc.c:416-458 | Visiting an ephemeron table marks exactly the values whose keys are marked, and puts the table into the list that its remaining entries call for. |
| LuaCollector.Collector.TraverseTable | dependencies/lua/lgc.c:483-502 | Visiting a table, whatever its weak mode, keeps the marking invariant; the metatable is always marked. |
| LuaCollector.Collector.PropagateMark | dependencies/lua/lgc.c:596-614 | One visit of the first gray object keeps the marking invariant and makes progress. |
| LuaCollector.Collector.ConvergeEphemerons | dependencies/lua/lgc.c:632-649 | Terminates, and marks exactly the least set that contains the marks, is closed under strong references and under the rule that a marked table and key mark the value; the alternating direction of traversal makes no difference. |
| LuaVisit.LeastBounded | dependencies/lua/lgc.c:632-649 | The least set so defined is itself closed. |
| LuaVisit.ConvergedAt | dependencies/lua/lgc.c:416-458 | Where convergence ends, every marked object has its strong references and settled entries marked. |
| LuaVisit.LeastReached | dependencies/lua/lgc.c:632-649 | Upper and lower bound together: convergence marks the least set, all of it and nothing else. |
| LuaCollector.Collector.AtomicPhase | dependencies/lua/lgc.c:1416-1456 | After the atomic phase nothing gray is left, the marking invariant holds, only weak entries of unmarked objects were lost, and all strongly reachable objects are marked; the marks are closed over the heap as it was when the phase began. |
| LuaReach.BoundedThrough | dependencies/lua/lgc.c:1437-1452 | The final marks, after clearing, resurrection and second convergence, are closed over the heap as it was before the phase, although weak entries were emptied in between. |
| LuaReach.FirstExactly | dependencies/lua/lgc.c:1433-1436 | When the first convergence ends, an object that is no string is marked if and only if it is in the least set that no marking from the roots and the running thread can leave; this decides which finalizers are due. |
| LuaCollector.Collector.SeparateToBeFnz | dependencies/lua/lgc.c:903-920 | The white objects with finalizers, and no other, move behind those waiting for theirs, in their order. |
| LuaAtomicSteps.AtomicClosed | dependencies/lua/lgc.c:1437-1452 | When the last clearing ends, the marks are closed under every reference, weak ones included, if and only if the metatables of the all-weak tables are marked. |
| LuaAtomicSteps.StrongClosure | dependencies/lua/lgc.c:1433-1436 | The marks at the end of marking are closed under strong references and the ephemeron rule of the heap as it was when the phase began. |
| LuaSweep.SweepOne | dependencies/lua/lgc.c:762-772 | One step of the sweep frees the object at the position if and only if it is dead, or turns it to the current white; the other lists, and what other objects hold, stay, and so does the invariant. |
| LuaSweep.SweepList | dependencies/lua/lgc.c:755-776 | Sweeping a number of objects advances the position by that number or to the end, frees dead objects only, keeps what the others hold and the invariant; behind the position everything has the current white. |
| LuaStep.SingleStep | dependencies/lua/lgc.c:1476-1524 | Every phase's step keeps the invariant, the atomic one exactly under the condition on metatables; outside the atomic step no live object is lost, and in it exactly the objects stay live, strings aside, that are in the set told beforehand. Objects come to wait for their finalizer in the atomic step only, and then exactly those with one that are not reached. What objects hold is kept, weak entries cleared by the atomic step aside. Every step makes progress: fewer white or gray objects while marking, objects swept or the next list in a sweep. |
| LuaStep.AtomicEnd | dependencies/lua/lgc.c:1416-1456 | When the atomic phase ends, an object that is no string is marked if and only if it is in the set told beforehand, the least one that no marking from the roots, the running thread and the objects with finalizers can leave; exactly the objects with finalizers that cannot be reached without them come to wait for theirs, in their order; no surviving object refers to a dead one if and only if the metatable of every table that was in `allweak` before is in that set; and the program can reach no dead object if and only if this holds for the tables of that list that it can reach. |
| LuaStep.LeftSafe | dependencies/lua/lgc.c:496-497 | The second of these equivalences, by induction over the paths of the program. |
| LuaStep.AtomicStep | dependencies/lua/lgc.c:1492-1497 | It goes on exactly if all those metatables are reached, and then what is strongly reachable when it begins is alive when it ends, with the finalizers settled as above. |
| LuaCycle.FinishSweep | dependencies/lua/lgc.c:1459-1473 | A sweep left alone ends, and leaves exactly the objects that were not dead, with what they held. |
| LuaCycle.MarkAll | dependencies/lua/lgc.c:358-366 | Marking left alone ends, and stays within every set that holds the roots and that no strong reference leads out of. |
| LuaCycle.SameReached | dependencies/lua/lgc.c:1416-1456 | What the atomic step of such a cycle will mark is exactly what could be reached when the cycle began, and no metatable is missed: both inclusions. |
| LuaCycle.SamePlainly | dependencies/lua/lgc.c:1433-1440 | The set that decides on finalizers is, too, exactly what could be reached when the cycle began, objects with finalizers not counted as reached by themselves. |
| LuaCycle.FullCycle | dependencies/lua/lgc.c:1476-1524 | A cycle that the program does not interrupt never fails, and an object that is no string survives it if and only if it could be reached when the cycle began: strongly, through an ephemeron entry whose key is reached, or from an object with a finalizer. Of the objects with finalizers exactly those that could be reached in no other way come to wait for theirs. Whatever survives holds what it held, cleared entries of weak tables aside. |
| LuaMutator.StoreForward | dependencies/lua/lgc.c:193-207 | A store with the forward barrier keeps the invariant in every phase; where no barrier is due, nothing but the object changes. |
| LuaMutator.StoreBack | dependencies/lua/lgc.c:214-222 | A store with the backward barrier keeps the invariant in every phase. |
| LuaMutator.SetStack | dependencies/lua/lgc.c:565-589 | A store into a thread's stack needs no barrier. |
| LuaAlloc.NewObject | dependencies/lua/lgc.c:240-248 | A new object, also one made after the flip of whites during a sweep, is live and keeps the invariant. |
| LuaAlloc.FindUpval | dependencies/lua/lfunc.c:65-100 | Finds the upvalue of the slot if there is one, and then changes nothing; otherwise makes the new one given and enters it, and the thread into `twups`. The invariant holds. |
| LuaAlloc.CloseUpval | dependencies/lua/lfunc.c:223-242 | Closing an upvalue with its barrier keeps the invariant. |
| LuaFinal.CheckFinalizer | dependencies/lua/lgc.c:927-954 | Moves an object of the ordinary list to the head of those with finalizers, in every phase, also in the middle of a sweep, where it is made current white; an object that is not in the ordinary list is left alone. The invariant holds. |
| LuaFinal.RunFinalizer | dependencies/lua/lgc.c:817-861 | Taking the next object to be finalized back into the ordinary list keeps the invariant. |
| LuaFinal.AbandonCycle | dependencies/lua/lgc.c:1585-1595 | Giving up marking in the middle and sweeping instead loses no live object. |
| LuaHole.NextStage | dependencies/lua/lapi.c:893-930 | The run in which a metatable is lost, operation by operation from the first state: each operation applies, none fails before the last, and each leads to the state given. |
| LuaHole.MetatableLost | dependencies/lua/lgc.c:496-497 | Counterexample: the script of that run, executed from the first state, fails at its atomic step, and then the program can reach a dead object. |
| LuaHole.NotCovered | dependencies/lua/lgc.c:483-502 | In that run the new metatable is not in the set that the atomic phase will mark. |
| LuaVm.RunPatched | dependencies/lua/lcode.c:287-297 | Patching one pending jump changes exactly the runs that waited at it; they go on at the target. |
| LuaVm.RunExtends | dependencies/lua/lcode.c:390-398 | Code appended to code only continues its runs. |
| LuaVm.RunNegated | dependencies/lua/lcode.c:1085-1090 | Inverting the test before the last jump swaps falling through and jumping, for every state of the registers. |
| LuaVm.RunUnset | dependencies/lua/lcode.c:258-270 | A pending TESTSET turned into TEST jumps as before but holds no value. |
| LuaVm.RunNil | dependencies/lua/lcode.c:130-146 | Merging a LOADNIL into the one before it gives the same runs. |
| LuaPatch.PatchRun | dependencies/lua/lcode.c:287-297 | Patching a list jump by jump: after each, the runs that ended at that jump go on, all others are unchanged. |
| LuaLogic.ValuePatched | dependencies/lua/lcode.c:901-923 | With one list patched, an expression still denotes its value, now delivered in the target register. |
| LuaLogic.Joined | dependencies/lua/lcode.c:1643-1658 | Joining the jump lists of two operands gives code that denotes `and` or `or` of their values. |
| LuaLogic.NotDone | dependencies/lua/lcode.c:1170-1198 | With the lists swapped and their values dropped the code denotes the negation. |
| LuaLogic.Compared | dependencies/lua/lcode.c:1493-1548 | The emitted test jumps exactly when the comparison of the operands' values is true. |
| LuaCode.FuncState.Concat | dependencies/lua/lcode.c:180-191 | The first list, its links otherwise untouched, is followed by the second. |
| LuaCode.FuncState.PatchListAux | dependencies/lua/lcode.c:287-297 | All jumps of the list are patched, each to the target its test calls for. |
| LuaCode.FuncState.Discharge2Reg | dependencies/lua/lcode.c:813-860 | The code then leaves the jump-free value in the register, for every kind of expression. |
| LuaCode.FuncState.ExpToReg | dependencies/lua/lcode.c:901-923 | The expression's value ends up in the register on every path; no jump of it stays pending, and jumps outside it are untouched. |
| LuaCode.FuncState.JumpOnCond | dependencies/lua/lcode.c:1099-1111 | The code jumps exactly if the value's truth is `cond`, keeping the value where the jump must carry it. |
| LuaCode.FuncState.GoIfTrue | dependencies/lua/lcode.c:1117-1138 | Runs with a true value go on, the others leave through the false list with their value. |
| LuaCode.FuncState.GoIfFalse | dependencies/lua/lcode.c:1144-1164 | The same for false values and the true list. |
| LuaCode.FuncState.CodeNot | dependencies/lua/lcode.c:1170-1198 | The expression then denotes the negation of what it denoted. |
| LuaCompile.CodeOrder | dependencies/lua/lcode.c:1493-1516 | The comparison emitted is that of the operands, immediate or not, exchanged or not; the one case in which an integer is passed on as a float, that of a second operand that may be a float with a 64-bit integer value, is stated. |
| LuaCompile.CodeEq | dependencies/lua/lcode.c:1523-1548 | The same for equality, with a constant, an immediate or a register. |
| LuaCompile.Compile | dependencies/lua/lcode.c:1575-1720 | For every expression over constants, locals, `not`, `and`, `or` and comparisons, the walk gives a descriptor that denotes the expression's value; by induction on the expression. |
| LuaCompile.Translate | dependencies/lua/lparser.c:1240-1267 | For every expression and all contents of the registers: the code runs to its end, leaves exactly the expression's value in the next register, keeps the locals, and leaves no jump pending. Translation fails only if registers, the reach of jumps or the constant table are used up. |
| LuaCompile.CodedRight | dependencies/lua/lcode.c:1493-1516 | Without a comparison of a small integer with an operand that may be an integral float, what the code computes is the expression's value. |
| LuaCompile.QuirkExact | dependencies/lua/lcode.c:1239-1253 | Exact condition: the code computes the value of every expression if and only if the order cannot tell a small integer from the float of the same value. |
| LuaCompile.QuirkShown | dependencies/lua/lcode.c:1493-1516 | Counterexample: `5 < (a or 1000.0)` passes 5.0 instead of 5 to the comparison with `a`. |
| LuaFinish.ThreadedLands | dependencies/lua/lcode.c:1775-1785 | Redirecting one jump along its chain keeps, for every place in the code, the instruction where control ends up. |
| LuaFinish.Finish | dependencies/lua/lcode.c:1792-1820 | Threading in place, although earlier jumps are already rewritten when later chains are followed, keeps for every place the final instruction that is no jump, and leads through no place that control did not get to before; so an endless cycle of jumps stays that cycle or a shorter one within it. |
| LuaFinish.ThreadedVisits | dependencies/lua/lcode.c:1775-1785 | After one redirection every place visited from anywhere was visited from there before. |
| LuaLines.LineTable.Emit | dependencies/lua/lcode.c:337-352 | From any table, the new one encodes all old lines; it encodes the new line if and only if absolute information is recorded or `previousline` is the line that really comes last, and so always after emissions and single removals. |
| LuaLines.LineTable.RemoveLast | dependencies/lua/lcode.c:361-383 | Removing the last instruction, from any table, leaves one that encodes the remaining lines, settled, or forcing the next line to be absolute. |
| LuaLines.LineTable.GetFuncLine | dependencies/lua/ldebug.c:89-101 | The line read back, through binary search and relative steps, is the one recorded. |
| LuaLines.LineTable.ChangedLine | dependencies/lua/ldebug.c:787-793 | True if and only if the lines of the two instructions differ. |
| LuaLines.Generate | dependencies/lua/lcode.c:1727-1730 | Any run of emissions, replacements and line corrections records the intended line of every instruction. |
| LuaLines.TwoRemovals | dependencies/lua/lcode.c:361-373 | Emissions for lines 1 and 300, two removals and an emission for line 290 record line -9. The code generator never removes twice in a row. |
| LuaUpvalues.State.FindUpval | dependencies/lua/lfunc.c:65-100 | The upvalue of a slot is the one it has, or a new one linked in its sorted place. |
| LuaUpvalues.State.Close | dependencies/lua/lfunc.c:223-242 | All upvalues from the level on are closed with the values they had; the others keep their places. |
| LuaUpvalues.LeaveStands | dependencies/lua/lfunc.c:223-242 | Leaving a block: closed upvalues go on reading what their variables held. |
| LuaUpvalues.CaptureStands | dependencies/lua/lfunc.c:88-100 | Captures of one live variable share its upvalue, captures of different ones do not. |
| LuaUpvalues.CapReads | dependencies/lua/lfunc.c:65-100 | Every capture reads what the cell of its variable holds, in scope or not. |
| LuaUpvalues.Run | dependencies/lua/lfunc.c:65-100 | For every program of declarations, assignments, captures and block exits, stack and upvalues stand for the cells of section 3.5 of the Lua 5.4 manual. |
| FreeList.StepInv | dependencies/concurrentqueue/concurrentqueue.h:1438-1517 | Every atomic access of every thread keeps the invariant that ties reference counts, flags, roles and the list together. |
| FreeList.RunInv | dependencies/concurrentqueue/concurrentqueue.h:1438-1517 | So every state of every run satisfies it. |
| FreeList.FreeListSafe | dependencies/concurrentqueue/concurrentqueue.h:1452-1489 | In every run the list is sound, holds a node at most once, a successful exchange of the head installs the node's current successor (no ABA), and the assertion on the flag holds. |
| FreeList.TakenOnce | dependencies/concurrentqueue/concurrentqueue.h:1466-1477 | What `try_get` returns was on the list and is there no more; nobody else has it. |
| FreeList.NullMeansEmpty | dependencies/concurrentqueue/concurrentqueue.h:1452-1489 | In every run, a `try_get` that returns null loaded the head, in one of its own accesses, when the list was empty. |
| FreeList.GetAlone | dependencies/concurrentqueue/concurrentqueue.h:1452-1489 | Wherever the other threads stopped, a `try_get` running alone takes the first node of the list and owns it, or returns null if the list is empty and leaves everything as it was. |
| FreeList.AddAlone | dependencies/concurrentqueue/concurrentqueue.h:1438-1450 | Wherever the other threads stopped, an `add` running alone puts the node at the head of the list if nobody looks at it, and otherwise leaves it flagged to those who do. |
| FreeList.AddReturns | dependencies/concurrentqueue/concurrentqueue.h:1494-1517 | However it interleaves, putting a node back ends with the node at the head of the list, or flagged while another thread still looks at it. |
| FreeList.LastAdds | dependencies/concurrentqueue/concurrentqueue.h:1480-1487 | A flagged node is put on the list by the last thread that looked at it. |
| Dequeue.StepInv | dependencies/concurrentqueue/concurrentqueue.h:1940-2037 | Every access of any number of consumers, single or bulk, keeps the invariant on the four counters. |
| Dequeue.DequeueSafe | dependencies/concurrentqueue/concurrentqueue.h:2233-2323 | In every run the head never passes the tail, overcommit never passes the optimistic count, and the indices handed out are consecutive pieces ending at the head. |
| Dequeue.NeverTwice | dependencies/concurrentqueue/concurrentqueue.h:1978-1988 | No index is handed out twice, and none at or above the tail. |
| Dequeue.QuietCounts | dependencies/concurrentqueue/concurrentqueue.h:2029-2033 | With no consumer at work, optimistic count less overcommit is the head again, whatever interleaving came before. |
| Dequeue.Alone | dependencies/concurrentqueue/concurrentqueue.h:2233-2256 | A consumer running alone gets exactly the next elements, as many as asked for or as there are. |
| Dequeue.CircularIsLess | dependencies/concurrentqueue/concurrentqueue.h:469-480 | `circular_less_than` on wrapped counters is `<` while they are less than half the range apart, and false at exactly half. |
| Dequeue.AskedWraps | dependencies/concurrentqueue/concurrentqueue.h:2237-2239 | The bulk request computed on wrapped counters is the unbounded one. |
| BlockRing.PublishedIndex | dependencies/concurrentqueue/concurrentqueue.h:1919-1925 | Putting a block on the index, over the oldest entry if need be, keeps every entry in use where lookups find it. |
| BlockRing.ReuseKeeps | dependencies/concurrentqueue/concurrentqueue.h:1838-1851 | Reusing the oldest block, empty by then, overwrites no element that is still to be dequeued. |
| BlockRing.InsertKeeps | dependencies/concurrentqueue/concurrentqueue.h:1880-1899 | Linking in a new block keeps the circular list, the index and all elements. |
| BlockRing.RoomLeft | dependencies/concurrentqueue/concurrentqueue.h:1857-1865 | The size check before a new block leaves room for the whole block under the limit. |
| BlockRing.Lookup | dependencies/concurrentqueue/concurrentqueue.h:1999-2002 | The offset of bases leads from the front of the index to the block that holds the element. |
| BlockRing.ExplicitProducer.NewBlockIndex | dependencies/concurrentqueue/concurrentqueue.h:2341-2378 | Growing the index preserves every lookup. |
| BlockRing.ExplicitProducer.Enqueue | dependencies/concurrentqueue/concurrentqueue.h:1834-1937 | Appends the element, or refuses and changes nothing; it refuses only if an allocation fails or the size limit is reached. |
| BlockRing.ExplicitProducer.Dequeue | dependencies/concurrentqueue/concurrentqueue.h:1988-2028 | Takes the first element of the sequence, if there is one. |
| ImplicitHash.StepInv | dependencies/concurrentqueue/concurrentqueue.h:3374-3524 | Every access of every thread in lookups, inserts, resizes and lazy migration keeps the invariant. |
| ImplicitHash.Fits | dependencies/concurrentqueue/concurrentqueue.h:3478-3481 | A table with ids holds fewer than half plus a quarter of its capacity. |
| ImplicitHash.ProbesEnd | dependencies/concurrentqueue/concurrentqueue.h:3395-3449 | In every run each table has free slots and no probe goes once round its table: every probe loop ends. |
| ImplicitHash.SameProducer | dependencies/concurrentqueue/concurrentqueue.h:3410-3438 | In every run a thread is always given the same producer, and two threads never share one. |
| ImplicitHash.AloneReturns | dependencies/concurrentqueue/concurrentqueue.h:3374-3524 | From every state of every run in which no other thread holds the resize lock, a call running alone ends with its thread's producer, growing the table where it has to. |
| Semaphore.StepInv | dependencies/concurrentqueue/lightweightsemaphore.h:262-332 | Every access of every waiter and signaller keeps three accounts: waiters against tokens, permits against signals, elements against permits. |
| Semaphore.Accounts | dependencies/concurrentqueue/lightweightsemaphore.h:341-402 | In every run permits granted are initial plus signalled less the positive count and the tokens under way, and the waiters without a token number max(0, -count). |
| Semaphore.NoLostWakeup | dependencies/concurrentqueue/lightweightsemaphore.h:393-402 | With no token under way a thread sleeps only if every permit there ever was has been granted. |
| Semaphore.CancelOrConsume | dependencies/concurrentqueue/lightweightsemaphore.h:288-295 | A waiter that timed out takes its decrement back exactly if the count is negative, and otherwise consumes the token that is there for it. |
| Semaphore.WaitManyAsserts | dependencies/concurrentqueue/lightweightsemaphore.h:386-391 | Exact condition: a `waitMany` without time limit gets something, as it asserts, if and only if `max` is positive. |
| Semaphore.WaitManyZero | dependencies/concurrentqueue/lightweightsemaphore.h:386-391 | Counterexample: `waitMany(0)` returns 0 and fails its own assertion. |
| Semaphore.PermitHasElement | dependencies/concurrentqueue/blockingconcurrentqueue.h:359-370 | In the blocking queue there are always at least as many elements as permits are held. |
| Semaphore.SpinEnds | dependencies/concurrentqueue/blockingconcurrentqueue.h:359-370 | The spinning dequeue ends, whatever the others do: at the latest when it has tried as many times as it holds permits without the inner queue missing what is there. |
| Semaphore.TryFails | dependencies/concurrentqueue/lightweightsemaphore.h:322-331 | The last access of a try that got nothing saw no positive count, unless nothing was asked for. |
| Semaphore.TryAlone | dependencies/concurrentqueue/lightweightsemaphore.h:364-376 | `tryWaitMany(max)` running alone takes the smaller of `max` and the count. |
| Semaphore.AtRest | dependencies/concurrentqueue/blockingconcurrentqueue.h:120-130 | When all calls have returned, the count is the length of the queue. |
| RespNumbers.String2ll | dependencies/hiredis/read.c:159-220 | Accepts exactly the printed forms of 64-bit numbers, and gives that number, though it accumulates in unsigned arithmetic with overflow checks. |
| RespNumbers.CountDigits | dependencies/hiredis/hiredis.c:266-276 | Counts the digits that will be printed. |
| RespReader.ItemMore | dependencies/hiredis/read.c:489-556 | As the protocol means it: an item parsed with more bytes at hand has the same outcome, or goes on where it was blocked. |
| RespReader.DrainSplit | dependencies/hiredis/read.c:618-669 | As the protocol means it, with line ends found at any distance: cutting the input anywhere and taking replies in between gives the same replies and the same final state or error. |
| RespReader.SeekExact | dependencies/hiredis/read.c:121-145 | With the length less one kept in an int, the line end found is the first one if and only if there is none or it lies below the truncated length; otherwise none is found. |
| RespReader.ProcessWide | dependencies/hiredis/read.c:489-556 | While no more bytes are at hand than an int counts, the parser of the source reads what the protocol means. |
| RespReader.WidthExact | dependencies/hiredis/read.c:121-235 | The bound is exact: for every size, all items with up to so many bytes at hand are read as the protocol means if and only if the size fits an int. |
| RespValues.ReplyBack | dependencies/hiredis/read.c:264-556 | Round trip: every reply, of any type and nested up to the depth of eight that the reader allows, written as the protocol says, is read back as that reply, and what follows it is left; by induction on the reply. As the protocol means it, and in the source while an int counts the bytes at hand. |
| RespValues.StreamBack | dependencies/hiredis/read.c:618-669 | Any sequence of replies, written one after the other, is read back as that sequence. |
| RespValues.IntegerRefused | dependencies/hiredis/read.c:267-282 | An integer is refused if and only if its line is not the printed form of a 64-bit number. |
| RespValues.BulkRefused | dependencies/hiredis/read.c:346-408 | The length of a string is refused as no number, or as out of range, exactly if it is so; -1 is the null reply. |
| RespValues.DoubleRefused | dependencies/hiredis/read.c:283-312 | A double is refused if and only if it has 326 bytes or more or `strtod` does not take it. |
| RespValues.LooseLines | dependencies/hiredis/read.c:313-323 | A null takes any line; a boolean takes any, and is true if and only if it begins with `t` or `T`. |
| RespValues.AggregateRefused | dependencies/hiredis/read.c:411-487 | The count of an array, map or set: when it is refused, and how; -1 is the null reply, and a map counts double. |
| RespValues.TypeRefused | dependencies/hiredis/read.c:489-534 | The type bytes refused are exactly those that are not among the ten known ones. |
| RespValues.TooDeepRefused | dependencies/hiredis/read.c:411-422 | An aggregate inside eight others is refused. |
| RespReader.MoveOk | dependencies/hiredis/read.c:237-262 | No assertion of `moveToNextTask` fails where the elements fit. |
| RespReader.DrainSafe | dependencies/hiredis/read.c:411-487 | On every input, with no more elements in an aggregate than an int holds, no assertion fails and the task index stays within 0 to 8. |
| RespClient.SeekNewline | dependencies/hiredis/read.c:121-145 | The two loops find what is to be found with a length that went through an int, for every input. |
| RespClient.Reader.ProcessItem | dependencies/hiredis/read.c:489-556 | The in-place item handler computes the item of the specification, with the positions of the source in an int; what that item is for each reply is stated in `RespValues`. |
| RespClient.Reader.Feed | dependencies/hiredis/read.c:586-616 | Appends the bytes; dropping an idle buffer changes nothing unread. |
| RespClient.Reader.GetReply | dependencies/hiredis/read.c:618-669 | For every buffer: the next reply that the parser of the source finds, and what the truncating `sdsrange` then leaves. While the buffer's length fits an int, the next reply as the protocol means it, and discarding 1024 consumed bytes is invisible. |
| RespClient.RangeExact | dependencies/hiredis/sds.c:723-748 | What is discarded is what was consumed, for every buffer of a length, if and only if the length fits an int or everything was consumed. |
| RespClient.FeedAll | dependencies/hiredis/read.c:586-669 | For every byte string, however long, and every cutting into feeds, the replies, the parser state and the error are those that the protocol means for the whole string, while before each feed what is unread and the new bytes stay 1023 below the range of an int. |
| RespClient.ShortModest | dependencies/hiredis/read.c:586-616 | That holds for every cutting if the whole input is that short. |
| RespValues.FeedReplies | dependencies/hiredis/read.c:586-669 | A reader fed the encoding of any replies, cut in any modest way, gives exactly these replies and is then idle. |
| RespClient.CutMatters | dependencies/hiredis/read.c:121-145 | Counterexample, run on two readers: a status with 2 to the 31st bytes behind it gives nothing when fed at once, and the status followed by an error when cut behind its line end. |
| RespClient.RestLost | dependencies/hiredis/sds.c:723-748 | Counterexample, run on a reader: a status of 1024 bytes at the head of 2 to the 31st is given out, and all bytes behind it are lost. |
| RespPrinter.FormatCommandArgv | dependencies/hiredis/hiredis.c:599-635 | The bytes written fill exactly the space computed in advance, as asserted, and are the command on the wire. |
| RespPrinter.FormatSdsCommandArgv | dependencies/hiredis/hiredis.c:546-588 | What the second printer writes, with lengths passed to `%u` and positions kept in an int, is the command on the wire if and only if every announcement ends at a position that an int holds and every argument is shorter than 2 to the 32nd bytes. It writes outside the place where it belongs exactly if an announcement ends beyond; otherwise its assertion holds if and only if every length prints as many digits after truncation as before, for which the exact numbers are given. |
| RespPrinter.CatFmt | dependencies/hiredis/sds.c:582-665 | Appending byte by byte at a position in an int appends the text if and only if the result's length fits an int. |
| RespPrinter.ShortBulksExact | dependencies/hiredis/sds.c:634-652 | Both equivalences for the list of arguments, by induction; truncation never lengthens the output. |
| RespPrinter.LongestFails | dependencies/hiredis/sds.c:634-652 | Counterexample: an argument of 2 to the 32nd bytes is announced as empty, and the assertion fails. |
| RespPrinter.WrongUnnoticed | dependencies/hiredis/sds.c:634-652 | Counterexample: with a billion bytes more the assertion holds and what was printed is not the command. |
| RespPrinter.SecondStrays | dependencies/hiredis/sds.c:582-588 | Counterexample: the announcement of an argument behind one of 2 to the 31st bytes is not written where it belongs. |
| RespPrinter.ParsePrinted | dependencies/hiredis/hiredis.c:599-635 | Round trip: whatever follows on the wire, parsing a printed command gives the array of exactly its arguments if and only if the end of each announcement is seen with the bytes at hand, a condition on lengths alone. |
| RespPrinter.ParseBack | dependencies/hiredis/hiredis.c:599-635 | So it is for every command as the protocol means it, and in the source while an int counts the bytes at hand. |
| RespPrinter.LongNotParsed | dependencies/hiredis/read.c:121-145 | Counterexample: a command with one argument of 3 billion bytes is not parsed back. |
| RespPrinter.AssertionsExact | dependencies/hiredis/read.c:454-472 | Exact condition: the parser's assertions hold on every input if and only if memory never allows more elements in one aggregate than an int holds. |
| RespPrinter.HugeCount | dependencies/hiredis/read.c:454-472 | Counterexample for every count beyond the range of int up to 2 to the 32nd. |
| SdsQuote.CatRepr | dependencies/hiredis/sds.c:867-890 | The quoting loop appends the quoted form. |
| SdsQuote.SplitArgs | dependencies/hiredis/sds.c:942-1058 | The loops over the cursor compute the recursive specification, unbalanced quotes included; more words than an int counts give nothing. What the specification gives is stated in `SdsSplit`. |
| SdsQuote.SplitLine | dependencies/hiredis/sds.c:942-1058 | Splitting quoted arguments with any blanks between them gives the arguments, whatever bytes they hold. |
| SdsSplit.SplitParts | dependencies/hiredis/sds.c:942-1058 | Splitting a line written as blanks and arguments, each a mix of bare bytes and text in double or single quotes with their escapes, gives what the arguments mean. |
| SdsSplit.FindParts | dependencies/hiredis/sds.c:942-1058 | Every line is written so, up to an end that may be in trouble: inside a quote, or behind one with no blank. |
| SdsSplit.SplitExactly | dependencies/hiredis/sds.c:1028-1049 | So, for every line without a terminator, splitting fails if and only if a quote is left open or a closing quote is followed by something other than a blank, and otherwise gives exactly the words that the line means. |
| SdsSplit.PlainWords | dependencies/hiredis/sds.c:1024-1026 | Bare words with a space between them are split into these words. |
| SdsQuote.RoundTrip | dependencies/hiredis/sds.c:867-890 | Quoting each argument, joining with spaces and splitting gives the list back; `SdsQuote.SplitArgs` delivers it when an int counts the arguments. |
| SdsQuote.QuotedPrints | dependencies/hiredis/sds.c:879-886 | A quoted string is printable text, whatever went in. |
| DictTable.Dict.Expand | dependencies/hiredis/dict.c:89-133 | Expansion keeps the map, to a power of two; the assertion that every entry was moved holds. |
| DictTable.Dict.Add | dependencies/hiredis/dict.c:136-155 | Adds the pair exactly if the key is new. |
| DictTable.Dict.Replace | dependencies/hiredis/dict.c:161-180 | The map is updated at the key; the result tells whether it was new. |
| DictTable.Dict.Delete | dependencies/hiredis/dict.c:183-211 | Removes the key exactly if it is there, from its chain only. |
| DictTable.Dict.Find | dependencies/hiredis/dict.c:244-257 | Finds the key's entry exactly if the map has the key. |
| DictTable.MoveOne | dependencies/hiredis/dict.c:113-126 | Moving one entry keeps old and new table together equal to the map. |
| DictTable.AllKeys | dependencies/hiredis/dict.c:269-287 | The chains list every key of the map, each once. |
| DictTable.Next | dependencies/hiredis/dict.c:269-287 | The iterator gives the first of the keys still to come. |
| DictTable.DeleteBehind | dependencies/hiredis/dict.c:269-287 | Deleting the entry just returned changes nothing of what is to come. |
| DictTable.IterateAll | dependencies/hiredis/dict.c:269-287 | An iteration with deletions of returned entries returns every key exactly once. |
| AsyncQueue.AsyncContext.AsyncCommand | dependencies/hiredis/async.c:635-713 | A command is accepted exactly if the connection is not about to close, and its callback joins the end of the queue. |
| AsyncQueue.AsyncContext.RunCallback | dependencies/hiredis/async.c:252-259 | The callback taken off last runs with its reply, once, and what it does to the queue and the flags is exactly what its acts say; it may issue commands, disconnect and free, and nothing is freed while it runs. |
| AsyncQueue.AsyncContext.FreeNow | dependencies/hiredis/async.c:262-304 | Every pending callback is taken off and run once without a reply, in order, before the context is freed. |
| AsyncQueue.AsyncContext.DoDisconnect | dependencies/hiredis/async.c:318-343 | Its assertion, no pending callbacks on a clean disconnect, is its precondition, shown at every call. |
| AsyncQueue.AsyncContext.ProcessCallbacks | dependencies/hiredis/async.c:421-499 | The replies go to the next callbacks in order, which run with them; its own assertion fails exactly if a reply that is no error comes while none is pending, told beforehand from the pending callbacks, what they will do and the replies. |
| AsyncQueue.AsyncContext.HandleRead | dependencies/hiredis/async.c:523-533 | A read after an error reads nothing and gives up the connection again; otherwise as above. |
| AsyncQueue.UnaskedExactly | dependencies/hiredis/async.c:421-499 | Where callbacks issue and free nothing, that is: more replies come than callbacks are pending, and the first too many is no error. |
| AsyncQueue.ReadEnds | dependencies/hiredis/async.c:421-499 | Where callbacks do no more than ask for the disconnect, how a read ends is told without running it: the context is freed if and only if, automatic freeing being on or a disconnect asked for, the read broke off, or exactly the pending replies came with a disconnect asked for and the output flushed, or one reply too many came that is an error. It fails if and only if one too many came that is none. Otherwise the callbacks that got no reply stay pending. |
| AsyncQueue.ActsMean | dependencies/hiredis/async.c:351-359 | What the acts of one callback come to, without running them: its commands up to its first other act are accepted, unless the context was closing before; a wish to disconnect or to free is heard wherever it stands. |
| AsyncQueue.FreeHeard | dependencies/hiredis/async.c:482-487 | A callback that frees the context with its reply ends the connection at once; no further reply is looked at. |
| AsyncQueue.TimeoutEnds | dependencies/hiredis/async.c:588-614 | Where callbacks do no more than ask for the disconnect: a timeout frees the context if and only if automatic freeing is on or one of the callbacks that run asks. |
| AsyncQueue.CleanEnd | dependencies/hiredis/async.c:428-435 | Once a disconnect is asked for, reads that bring all pending replies, the last with the output flushed, end with the context freed, however the replies are spread over the reads and whatever the callbacks do. |
| AsyncQueue.Closes | dependencies/hiredis/async.c:351-359 | So it does, run on any valid context: asked to disconnect and given the pending replies it ends freed and finished. |
| AsyncQueue.ClosedAfterOne | dependencies/hiredis/async.c:428-435 | A command, a disconnect and the reply with the output flushed: the context is freed. |
| AsyncQueue.AsyncContext.HandleTimeout | dependencies/hiredis/async.c:588-614 | All pending callbacks run without a reply, also those of commands issued meanwhile; the context is freed exactly if automatic freeing is on once they have run, told beforehand from what they will do. |
| AsyncQueue.Serve | dependencies/hiredis/async.c:421-499 | Any run of events ends as told beforehand: with a failed assertion exactly if a reply comes that nobody waits for and that is no error, or freed, or live in the state told. The replies received are those of all reads that went to callbacks; each accepted callback with a function that has left the queue has run exactly once, in order, the k-th with the k-th reply; a freed context has run all it accepted. |
| AsyncQueue.RanOnce | dependencies/hiredis/async.c:236-259 | What the history of shifts and runs means: each callback once, in the order of acceptance, with its reply, and no other. |
| AsyncQueue.UnaskedFails | dependencies/hiredis/async.c:421-499 | Counterexample: a first reply that nobody asked for and that is no error fails the assertion, whatever the callbacks would do. |
| AsyncQueue.FreeForgotten | dependencies/hiredis/async.c:588-614 | Counterexample: with automatic freeing off, a free asked for by a callback during a timeout is never carried out. |

## Left out

- LuaMachine.Run: generational mode, memory accounting (debt, pause, step sizes), shrinking of the string table, fixed objects and userdata of the host are not modelled; finalizers are not executed, but what they may do is any script of operations.
- LuaMachine.DoStore: a table's hash part only grows by entries, its mode, which the source looks up in the metatable, is given with the metatable and changes only for tables that have one, and rehashing is not modelled.
- LuaCollector.Collector.TraverseTable: strings are the only objects treated as values in weak tables, as in the source; light values are all the same non-reference.
- LuaStep.AtomicStep: a step that goes wrong is not followed into the sweep that frees the dead metatable.
- LuaCycle.FullCycle: up to the end of the sweep; the finalizers that are then due are called by the program, as operations of `LuaMachine`.
- LuaCompile.Translate: calls, indexing, upvalues, arithmetic and constant folding, concatenation and varargs are not modelled; floats are reals, and the order of values other than numbers is arbitrary, metamethods included; failure by too many registers, constants or jumps out of range is a failed status.
- LuaCompile.CodedRight: one direction; the exact condition is stated for the order in `LuaCompile.QuirkExact`, since an expression with such a comparison may still never reach it.
- LuaFinish.Finish: for code whose jump offsets all fit; the bound of 100 hops is modelled.
- LuaLines.Generate: line tables loaded from binary chunks or stripped are not modelled.
- LuaUpvalues.Run: to-be-closed variables and errors while closing are not modelled; the list is a sequence, so the back pointers of the source are not.
- FreeList.FreeListSafe: C++ memory orders are not modelled here or in the other protocols; every access is one step in one order. Reference counts do not overflow.
- Dequeue.DequeueSafe: counters are unbounded; `Dequeue.CircularIsLess` and `Dequeue.AskedWraps` say when wrapped ones behave alike. Enqueueing is one step that moves the tail.
- BlockRing.ExplicitProducer.Enqueue: throwing element constructors, bulk operations and concurrent consumers of the ring are not modelled; blocks and index are values inside the class, so sharing of blocks between producers is not.
- ImplicitHash.SameProducer: failing allocations and ids given back by threads that exit are not modelled; masking by the capacity less one is the remainder.
- Semaphore.Accounts: the kernel semaphore never fails and its posts fit an int.
- Semaphore.SpinEnds: the inner queue is its length; how often an inner dequeue misses elements that are there is up to the run, and that it does not do so forever is assumed.
- RespReader.DrainSplit: which texts are doubles is a parameter, and so is the number of elements that memory allows; failing allocations of other sizes are not modelled.
- RespClient.Reader.GetReply: what happens after the position has left the buffer, which takes a line end exactly 2 to the 31st less 2 bytes away, is not described; a reply is a value, not linked objects; the reader is one without a custom function table.
- RespClient.FeedAll: one direction; the exact bounds are those of the single calls, `RespReader.WidthExact` and `RespClient.RangeExact`.
- RespPrinter.ParsePrinted: for arguments within the limits of the integer types.
- RespPrinter.FormatSdsCommandArgv: the whole command fits the address space; where a stray write goes and what it leaves is not described.
- SdsSplit.SplitExactly: a line is told up to its terminator, where a C string ends.
- SdsQuote.SplitLine: failing allocations are not modelled; the locale is C.
- DictTable.Dict.Expand: chains are sequences; overflow of sizes and failing allocations are not modelled.
- AsyncQueue.Serve: subscribed and monitor mode, connect and disconnect callbacks and the event library hooks are not modelled; what callbacks do is a finite script.
- Sockets, TLS, platform code, printf-style formatting, producer scoring and token rotation, the Lua API and libraries: plumbing or heuristics without strong contracts.
