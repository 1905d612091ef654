# Verified models of the signal generator firmware

A Dafny model of the software parts of the firmware: the scheduler and
inter-task communication kernel it ships, and its own streaming JSON queries,
pulse-sequence compiler and pulse timing. Every module verifies with
`dafny verify dfyconfig.toml`.

Each part is given twice: as functions on values, about which the theorems are
proved, and in the program's own form - classes whose methods update fields in
place, with the program's loops - proved equal to the functions.

| part | modules |
|---|---|
| JSON queries | `JsonAutomaton`, `JsonDocument`, `JsonCorrect`, `JsonQuery`, `JsonAddressing`, `JsonParser` |
| Pulse sequences | `Waveform`, `SequenceCompiler`, `FitTime` |
| Lists | `Rings`, `Lists`, `ListRuns` |
| Time and scheduling | `KernelTime`, `KernelState`, `KernelLists`, `KernelRuns`, `KernelScheduling`, `KernelPreemption`, `Kernel`, `TimeOuts` |
| Queues and mutexes | `QueueProtocol`, `QueueRing`, `Mutexes`, `OwnMutex`, `PriorityInversion`, `TaskPriorities` |
| Software timers | `TimerService`, `TimerRuns`, `Timers` |
| Stream and message buffers | `MessageBuffer`, `StreamBuffers` |
| Event groups | `EventBits`, `EventWords`, `EventGroups`, `RendezvousRuns` |

Concurrency is modelled as state machines over atomic sections: what runs in a
critical section, or with the scheduler suspended, is one step, and a theorem
about runs quantifies over every sequence of enabled steps. Wrapping counters
are modelled at their width, and their meaning is given by unbounded ghost
clocks.

Three facts about the code that a caller should know came out of the proofs.

- `lower_logic_sequence` finds the coarsest quantum that divides every duration.
  Its slot count is the least possible exactly when every run of neighbouring
  states with equal levels needs, state by state, no more slots than the run
  joined into one state would with the quantum of the joined list
  (`SequenceCompiler.MinimalIff`). A list without equal neighbours always meets
  this; a pulse of 900 us followed by the terminator does not, it takes three
  slots where two would do. The terminator's comment says that its second state
  is there on purpose.
- The assertion in `vTaskPriorityDisinheritAfterTimeout` that the holder is not
  the running task, with the comment that such a task cannot have inherited its
  own priority, can fail. A wait for a mutex the task already holds can end in
  the failure if and only if, when it begins, the task holds no other mutex and
  runs above its base priority (`OwnMutex.AssertionExact`).
- The lock counts of a queue, which the code caps at the number of tasks, stay
  clear of their own assertion only with at most 127 tasks.

## Model

| member | source | states |
|---|---|---|
| JsonCorrect.RunDocument | json.c:84-300 | Reading any document tree printed with any whitespace trips no assertion, ends in the root scope with empty path and counters, enters exactly the tree's locations in pre-order and closes its containers with their child counts |
| JsonCorrect.RunRoot | json.c:167-179 | A root object or array is read as a whole from the root scope |
| JsonCorrect.RunValue | json.c:222-258 | Any value below a container, whatever its kind and depth, is read as a whole: locations and closings are those of its subtree and the stacks are as before |
| JsonCorrect.RunElems | json.c:137-165 | The elements of an array get the indices that follow the count so far, and the array closes with the final count |
| JsonCorrect.RunElem | json.c:241-253 | One array element and the comma or bracket behind it: its location carries its index, the next element is entered at once |
| JsonCorrect.RunMembers | json.c:185-200 | The members of an object are read in order, each with its key on the path, and the object closes with their number |
| JsonCorrect.RunMember | json.c:185-258 | One member from its key to the comma or brace behind its value |
| JsonCorrect.RunKey | json.c:202-213 | A quoted key leaves exactly its text as the span used for the path, up to the colon |
| JsonCorrect.RunText | json.c:271-281 | An escape-free string is skipped to its closing quote and counts as one child |
| JsonCorrect.RunPrim | json.c:260-267 | A primitive ends at the first character that cannot belong to it, and that character is handled by the value scope |
| JsonCorrect.RunEmptyObject | json.c:185-200 | An empty object closes with count 0 |
| JsonCorrect.RunBlanks | json.c:167-179 | Whitespace changes nothing but the read position |
| JsonAutomaton.RunSplit | json.c:303-318 | Reading a text is reading its parts one after the other |
| JsonQuery.FirstLocationAfter | json.c:387-397 | Locations that do not match do not affect which location a query finds first |
| JsonQuery.FirstCountAfter | json.c:414-454 | Closings that do not match do not affect the count a query reports |
| JsonParser.RunGrows | json.c:84-119 | Over any text, the locations entered and containers closed so far are never revised |
| JsonParser.RunPaths | json.c:84-165 | Over any text, the path of every open location is that of one entered before |
| JsonParser.NothingNewAtEnd | json.c:384-392 | Comparing the path once more at the end of the text finds nothing that no location has matched |
| JsonParser.Json.constructor | json.c:367-378 | A fresh context is the initial one: root scope, everything empty |
| JsonParser.Json.Enter | json.c:84-119 | Scope entry in place equals the automaton's, and says false exactly where an assertion would trip |
| JsonParser.Json.Leave | json.c:137-165 | Scope exit in place equals the automaton's; when counting, the status is the count of the last matching container |
| JsonParser.Json.MatchPath | json.c:328-352 | The backward comparison is true exactly when the denoted path matches the query step by step |
| JsonParser.Json.Tick | json.c:181-183 | Adds one child to the innermost container |
| JsonParser.Json.HandleRoot | json.c:167-179 | The root handler equals its step of the automaton |
| JsonParser.Json.HandleObject | json.c:185-200 | The object handler equals its step of the automaton |
| JsonParser.Json.HandleKey | json.c:202-213 | The key handler equals its step of the automaton |
| JsonParser.Json.HandleValue | json.c:222-258 | The value handler equals its step of the automaton |
| JsonParser.Json.HandlePrimitive | json.c:260-267 | The primitive handler equals its step of the automaton |
| JsonParser.Json.HandleStr | json.c:271-281 | The string handler equals its step of the automaton |
| JsonParser.Json.Step | json.c:285-300 | One dispatch equals one step of the automaton; for any text all spans stay inside the text |
| JsonParser.Json.StepUntilNewLocation | json.c:308-318 | Stops at the first new location or at the end of the text |
| JsonParser.QueryLocation | json.c:367-405 | Over any text the automaton accepts, wherever it ends, the answer is the offset of the first entered location whose path matches, or -1; the empty query answers the length of a text that ends outside every value, else -1 |
| JsonParser.QueryCount | json.c:414-467 | Over any text the automaton accepts, the answer is the child count of the first container to close at a matching path, or -1 |
| JsonParser.QueryDocument | json.c:328-470 | On every printed document, layout and query the location is that of the first match in pre-order and the count that of the first match to close; if no object has two members of the same key, they are the place and the number of children of the value that following the query through the tree finds, or -1 when there is none |
| JsonAddressing.LocationIsValue | json.c:328-405 | With distinct keys, the location found is just behind the ':', '[' or ',' before the printed form of exactly the value reached by following the query, by key into objects and by number into arrays; -1 if there is none |
| JsonAddressing.CountIsChildren | json.c:414-470 | With distinct keys, the count found is the number of children of the container reached that way; -1 if there is none |
| SequenceCompiler.ExactUnlessWrapped | uart_cli.c:84-94 | A duration that passes the divisibility assertion is represented exactly if and only if its 64-bit product did not wrap |
| SequenceCompiler.DecodeEncode | uart_cli.c:155-179 | The pin levels are recovered from the register words |
| SequenceCompiler.PinModes | uart_cli.c:152-175 | The mode byte of every pin: 0x10 when its state bit is set, 0x20 when it is not |
| SequenceCompiler.RepresentableMeans | uart_cli.c:84-100 | The first pass accepts a list if and only if it is not empty and every product of duration and frequency is a positive multiple of 1000 |
| SequenceCompiler.SlotsForPlays | uart_cli.c:160-186 | Splitting every segment into slots of at most 0xFFFF quanta plays the same waveform, in exactly the slots pass 2 counts |
| SequenceCompiler.NoFewerSlots | uart_cli.c:104-139 | When neighbouring states differ, no exact encoding with a common divider of at most 65536 and holds of at most 0xFFFF uses fewer slots, nor a coarser divider |
| SequenceCompiler.FewestStateByState | uart_cli.c:104-139 | For every list: however each state is given slots of its own with any common divider of at most 65536, they are at least as many |
| SequenceCompiler.MinimalIff | uart_cli.c:100-139 | The program's slot count is the least of all slots that play the waveform with any quantum of at most 65536 timer units if and only if every run of equal neighbours needs, state by state, as few slots as the joined run |
| SequenceCompiler.CostOfMerge | uart_cli.c:129-139 | The count is never below that of the list with equal neighbours joined, and equal to it exactly when every run is tight |
| SequenceCompiler.WaveformOptimum | uart_cli.c:104-139 | The fewest slots that play a waveform at all are those of the list with equal neighbours joined, and that number is attained |
| SequenceCompiler.EqualNeighboursCostMore | uart_cli.c:52-57 | At 216 MHz, a pulse of 900 us and the terminator take three slots where two slots play the same waveform |
| SequenceCompiler.EqualNeighboursMayBeFree | uart_cli.c:129-139 | Equal neighbours that fill their slots at the coarsest quantum cost nothing |
| SequenceCompiler.CountWraps | uart_cli.c:129-142 | A list that passes every assertion and needs 2^32 + 1 slots, counted as 1 |
| Waveform.FewestSlots | uart_cli.c:125-139 | Slots that play a waveform whose neighbouring segments differ respect the segment boundaries, so their quantum divides every segment |
| Waveform.CoarserNeedsNoMore | uart_cli.c:100-127 | A coarser common quantum never needs more slots |
| Waveform.MergeSameWave | uart_cli.c:77-82 | Joining equal neighbours plays the same waveform |
| Waveform.MergeOfDistinct | uart_cli.c:77-82 | A list without equal neighbours is its own joined form |
| Waveform.RunsMerge | uart_cli.c:77-82 | The maximal runs of equal neighbours make up the list, and joining neighbours joins each of them |
| SequenceCompiler.FirstPass | uart_cli.c:84-100 | Succeeds exactly on non-empty lists of representable durations, and finds the least duration |
| SequenceCompiler.FindDivider | uart_cli.c:104-127 | The downward search returns the greatest number up to 65536 that divides every duration |
| SequenceCompiler.CountSlots | uart_cli.c:129-139 | The slot count of the whole list, modulo the 32-bit counter |
| SequenceCompiler.WriteSlot | uart_cli.c:183-189 | One slot of the streams holds the state and hold time; the others are unchanged |
| SequenceCompiler.FillState | uart_cli.c:180-190 | Fills exactly the slots of one state, or stops when the streams are full |
| SequenceCompiler.Emit | uart_cli.c:159-191 | Pass 3 fills exactly the slots pass 2 counted with the wanted slots, and overruns exactly when the 32-bit count had wrapped |
| SequenceCompiler.Lower | uart_cli.c:77-194 | Refuses exactly when an assertion fails, overruns its streams exactly when the 32-bit count has wrapped; a compiled program, decoded from its register words, plays exactly the input waveform with holds in 1..0xFFFF and the counted slots, the fewest exactly when the runs are tight |
| FitTime.AcceptedIffExact | algos.c:160-161 | The loop test on a positive duration is exact representability by that many elements of some 16-bit rate |
| FitTime.FitTime | algos.c:153-175 | Zero exactly when no element count up to 1023 represents the duration; otherwise the rate of the least such count |
| FitTime.PulseElements | uart_cli.c:348-380 | A nonzero rate gives 4 * rate * elements equal to the duration with the least possible count, and at most 1024 RAM words |
| Rings.StepsServeInTurn | FreeRTOS-Kernel/tasks.c:187-191 | k steps of the walking pointer over an unchanged list serve its items in turn |
| Rings.EverybodyOnce | FreeRTOS-Kernel/tasks.c:187-191 | One round serves every item of the list exactly once |
| Rings.FullCircle | FreeRTOS-Kernel/tasks.c:187-191 | After as many steps as items the pointer is where it was |
| Rings.InsertedLast | FreeRTOS-Kernel/list.c:105-136 | An item inserted at the end waits until every other item but the one being served has had its turn |
| Rings.RemovedKeepsTurns | FreeRTOS-Kernel/list.c:215-245 | Removing an item, also the one the pointer is at, changes nobody else's turn |
| Rings.SortedAndStable | FreeRTOS-Kernel/list.c:139-211 | Lists built by sorted insertion alone are sorted, and first-in first-out among equal values |
| Lists.Splice | FreeRTOS-Kernel/list.c:199-206 | The pointer writes of an insertion keep one ring through the end marker |
| Lists.Unsplice | FreeRTOS-Kernel/list.c:220-222 | The pointer writes of a removal keep one ring through the end marker |
| Lists.List.constructor | FreeRTOS-Kernel/list.c:49-85 | A new list is the empty ring |
| Lists.List.InsertEnd | FreeRTOS-Kernel/list.c:105-136 | Inserts the item just behind the walking pointer; links, count and container are right |
| Lists.List.FindSlot | FreeRTOS-Kernel/list.c:154-195 | Whatever the order of the list, the insertion loop terminates before the first later item; the greatest value takes the short way to the same place |
| Lists.List.Insert | FreeRTOS-Kernel/list.c:139-211 | The item goes before the first later item of any list, sorted or not; the walking pointer stays at its item |
| Lists.List.Remove | FreeRTOS-Kernel/list.c:215-245 | Removes the item, moves the pointer back if it was there, and answers the number left |
| Lists.List.NextEntry | FreeRTOS-Kernel/tasks.c:187-191 | The pointer moves to the next item, past the end marker, and its owner is served |
| ListRuns.ServeRequests | FreeRTOS-Kernel/list.c:49-245 | Over any run of insertions in order and at the end, removals, walks and values rewritten in place, forward and backward links form one ring through the end marker with the right count and containers, and the list holds and walks what the sequence says |
| ListRuns.RunInOrder | FreeRTOS-Kernel/list.c:139-245 | A sorted list stays sorted over any run of sorted insertions, removals and walks |
| KernelTime.AddTells | FreeRTOS-Kernel/tasks.c:8415-8491 | A task that goes to sleep for d ticks is due exactly d ticks later on an unbounded clock, in the list of the epoch of that time |
| KernelTime.EmptyAtSwap | FreeRTOS-Kernel/tasks.c:248-260 | The assertion that the current delayed list is empty at a swap holds |
| KernelTime.CountTells | FreeRTOS-Kernel/tasks.c:4670-4700 | Moving the tick count on, swapping the lists at a wrap, keeps "current list = this epoch, overflow list = next epoch" and the unblock cache not late |
| KernelTime.ExpiredAreDue | FreeRTOS-Kernel/tasks.c:4701-4770 | What leaves the current list at a tick is exactly what is due at that tick |
| KernelTime.TickTells | FreeRTOS-Kernel/tasks.c:4670-4805 | One processed tick wakes exactly the tasks due then, and keeps both lists, their order and the cache right |
| KernelTime.RemoveTells | FreeRTOS-Kernel/tasks.c:5341-5390 | Taking a sleeper out early changes nobody else's wake time |
| KernelRuns.ExactWakeUp | FreeRTOS-Kernel/tasks.c:8415-8491 | A task that blocks for d ticks is in a delayed list before that much time has been processed and in a ready list from then on, through any run of ticks, events of either kind, creations, deletions, priority changes (its own included), suspensions with pended ticks and counter wraps that does not unblock, suspend or delete it |
| KernelRuns.TicksAccounted | FreeRTOS-Kernel/tasks.c:3956-4103 | Every tick interrupt is processed or still pended, below 2^32 of them |
| KernelRuns.StepNumbers | FreeRTOS-Kernel/tasks.c:4670-4720 | Overflow count and tick count together number the ticks processed, wraps included |
| KernelRuns.StepKeeps | FreeRTOS-Kernel/tasks.c:3956-4103 | Every operation keeps the conservation of state items, the count, the ready hint and the wake times |
| KernelRuns.Conservation | FreeRTOS-Kernel/tasks.c:2019-2081 | In every run from the start each live task is in exactly one state list, the task count is the sum of the list lengths (terminated ones included), and nothing is ready above the hint |
| KernelRuns.CountIsSum | FreeRTOS-Kernel/tasks.c:2199-2306 | The task count is the sum of the list lengths |
| KernelRuns.BlockKeeps | FreeRTOS-Kernel/tasks.c:8415-8491 | Blocking, for a time or for ever, keeps the invariant |
| KernelRuns.UnblockKeeps | FreeRTOS-Kernel/tasks.c:5341-5431 | An event, also with the scheduler suspended, keeps the invariant |
| KernelRuns.UnblockNowKeeps | FreeRTOS-Kernel/tasks.c:5434-5500 | A waiter readied at once while the scheduler is suspended, as event groups do, keeps the invariant |
| KernelRuns.SetPriorityKeeps | FreeRTOS-Kernel/tasks.c:2765-2950 | A change of priority, with the move of a ready task to its new list, keeps the invariant |
| KernelRuns.TickKeeps | FreeRTOS-Kernel/tasks.c:4670-4805 | A tick, processed or pended, keeps the invariant |
| KernelRuns.ResumeKeeps | FreeRTOS-Kernel/tasks.c:3956-4103 | Resuming drains the pending-ready list before the pended ticks and keeps the invariant |
| KernelRuns.SuspendKeeps | FreeRTOS-Kernel/tasks.c:3121-3275 | Suspending a task keeps the invariant, also before the scheduler has started, when another task or none becomes current |
| KernelRuns.ResumeTaskKeeps | FreeRTOS-Kernel/tasks.c:3353-3406 | Resuming a task keeps the invariant |
| KernelRuns.DeleteKeeps | FreeRTOS-Kernel/tasks.c:2191-2306 | Deleting a task, oneself included, keeps the invariant |
| KernelRuns.FreeKeeps | FreeRTOS-Kernel/tasks.c:6043-6072 | Freeing a terminated task keeps the invariant |
| KernelRuns.CreateKeeps | FreeRTOS-Kernel/tasks.c:2019-2081 | Creating a task, before or after the scheduler has started, keeps the invariant |
| KernelRuns.FreshInv | FreeRTOS-Kernel/tasks.c:6011-6040 | The initial lists satisfy the invariant, at any initial tick count |
| KernelScheduling.SwitchPicksHighest | FreeRTOS-Kernel/tasks.c:173-193 | A context switch runs the first in turn of the highest ready priority |
| KernelScheduling.StartsWithHighest | FreeRTOS-Kernel/tasks.c:2028-2066 | Whatever tasks are created before the scheduler starts, the one it starts with is the last created of the highest priority |
| KernelScheduling.TasksShareTime | FreeRTOS-Kernel/tasks.c:173-193 | k switches over an unchanged list of the highest priority run its tasks in turn, each once per round |
| KernelScheduling.ReadiedServedLast | FreeRTOS-Kernel/tasks.c:268-274 | A task that becomes ready is served after every other of its priority but the one served at the moment |
| KernelPreemption.HighestAlwaysRuns | FreeRTOS-Kernel/tasks.c:5056-5139 | In every run from the start in which requests to switch are followed at once: when no switch is pending, no ready task has a higher priority than the running one |
| KernelPreemption.StepTop | FreeRTOS-Kernel/tasks.c:5390-5415 | Every operation that does not end with a request to switch leaves a switch pending or the running task with the highest priority |
| KernelPreemption.EventYields | FreeRTOS-Kernel/tasks.c:5390-5415 | An event leaves a switch pending exactly when one was, or the unblocked task has the higher priority |
| KernelPreemption.TickAsks | FreeRTOS-Kernel/tasks.c:4770-4820 | A tick asks for a switch exactly when one is pending, a ready task has a higher priority, or two ready tasks have the running task's priority |
| KernelPreemption.ResumeTop | FreeRTOS-Kernel/tasks.c:3956-4103 | After resuming the scheduler a switch is pending or the running task has the highest priority, whatever was parked or pended |
| KernelPreemption.ResumeYields | FreeRTOS-Kernel/tasks.c:3990-4021 | With no tick to catch up, resuming leaves a switch pending exactly when one was, or a parked task has a higher priority |
| KernelPreemption.WhereTasksGo | FreeRTOS-Kernel/tasks.c:2191-3406 | Where every operation leaves its task: readied, parked, suspended, terminated or forgotten; resuming the scheduler readies all that were parked |
| KernelPreemption.DepthCounts | FreeRTOS-Kernel/tasks.c:3811-3880 | Suspensions of the scheduler nest, and while it is suspended the running task stays |
| KernelPreemption.SuspendChooses | FreeRTOS-Kernel/tasks.c:3216-3270 | Before the start, suspending the current task makes one of the highest ready priority current, or nobody when all are suspended |
| KernelScheduling.SearchNeverFails | FreeRTOS-Kernel/tasks.c:179-183 | As long as nothing blocks, suspends or deletes the idle task, the search for a ready priority never runs off the end |
| Kernel.Scheduler.constructor | FreeRTOS-Kernel/tasks.c:6011-6040 | The initial state |
| Kernel.Scheduler.AddTaskToReadyList | FreeRTOS-Kernel/tasks.c:268-274 | The task joins the end of its priority's ready list and the hint is raised to it |
| Kernel.Scheduler.ResetNextTaskUnblockTime | FreeRTOS-Kernel/tasks.c:6456-6474 | The cache becomes the head of the current delayed list |
| Kernel.Scheduler.RemoveStateItem | FreeRTOS-Kernel/tasks.c:2199-2207 | The state item leaves the one list it is in |
| Kernel.Scheduler.AddCurrentTaskToDelayedList | FreeRTOS-Kernel/tasks.c:8415-8491 | Blocks the current task; the whole new state and the ghost wake times |
| Kernel.Scheduler.RemoveFromEventList | FreeRTOS-Kernel/tasks.c:5341-5431 | Readies a task or parks it in the pending-ready list; answers whether its priority is higher than the running task's, and only then leaves a new yield pending |
| Kernel.Scheduler.RemoveFromUnorderedEventList | FreeRTOS-Kernel/tasks.c:5434-5500 | Readies a waiter at once under a suspended scheduler, and remembers to yield to a higher priority |
| Kernel.Scheduler.ChangePriority | FreeRTOS-Kernel/tasks.c:2900-2920 | A task gets another priority; a ready one moves to the end of the list of that priority, any other stays where it is |
| Kernel.Scheduler.SwitchDelayedLists | FreeRTOS-Kernel/tasks.c:248-260 | The delayed lists swap and the cache is reset |
| Kernel.Scheduler.UnblockExpired | FreeRTOS-Kernel/tasks.c:4701-4770 | The loop over the delayed list readies exactly the expired tasks in order and caches the next unblock time |
| Kernel.Scheduler.IncrementTick | FreeRTOS-Kernel/tasks.c:4670-4850 | One tick, and whether a context switch is required: a woken task of higher priority, a shared priority, or a pending yield |
| Kernel.Scheduler.Tick | FreeRTOS-Kernel/tasks.c:4670-4850 | The tick interrupt keeps the invariant, and asks for a switch exactly when a woken task has a higher priority, another task shares the running one's, or a yield is pending |
| Kernel.Scheduler.DrainPendingReady | FreeRTOS-Kernel/tasks.c:3986-4030 | The pending-ready loop |
| Kernel.Scheduler.ProcessPendedTicks | FreeRTOS-Kernel/tasks.c:4050-4075 | The pended ticks are processed one by one |
| Kernel.Scheduler.ResumeAll | FreeRTOS-Kernel/tasks.c:3956-4103 | Resuming the scheduler, and whether it yielded |
| Kernel.Scheduler.SuspendAll | FreeRTOS-Kernel/tasks.c:3811-3880 | Suspensions nest |
| Kernel.Scheduler.SwitchContext | FreeRTOS-Kernel/tasks.c:5056-5128 | Runs the next task of the highest ready priority, or remembers to |
| Kernel.Scheduler.AddNewTaskToReadyList | FreeRTOS-Kernel/tasks.c:2019-2081 | A created task is counted and ready; before the scheduler starts it becomes the current one unless that has a higher priority |
| Kernel.Scheduler.StartScheduler | FreeRTOS-Kernel/tasks.c:3720-3722 | The next unblock time and the tick count are set, and the current task is the running one; as nobody sleeps yet, all wake times stay right |
| Kernel.Scheduler.SuspendTask | FreeRTOS-Kernel/tasks.c:3121-3275 | Suspends a task wherever it is; before the scheduler starts, suspending the current task makes another one current, or none when all are suspended |
| Kernel.Scheduler.ResumeTask | FreeRTOS-Kernel/tasks.c:3353-3406 | A suspended task becomes ready; asks for a switch exactly when its priority is higher than the running task's |
| Kernel.Scheduler.DeleteTask | FreeRTOS-Kernel/tasks.c:2191-2306 | Deletes a task, or leaves it to the idle task when it deletes itself |
| Kernel.Scheduler.CheckTasksWaitingTermination | FreeRTOS-Kernel/tasks.c:6043-6072 | The idle task frees every terminated task |
| TimeOuts.CheckExact | FreeRTOS-Kernel/tasks.c:5534-5600 | A finite wait is answered "expired" if and only if the true elapsed time has reached it, exactly when at most one overflow lies between the checks, or the remainders still tell |
| TimeOuts.TwoOverflowsMissed | FreeRTOS-Kernel/tasks.c:5560-5580 | A concrete expiry hidden by two overflows between checks |
| TimeOuts.BudgetConserved | FreeRTOS-Kernel/tasks.c:5534-5600 | With at most one overflow between checks, elapsed plus remaining stays the original wait, and the first check from the deadline on is the first to report expiry |
| TimeOuts.NeverExpires | FreeRTOS-Kernel/tasks.c:5550-5558 | A wait of the greatest block time never expires |
| TimeOuts.TimeOut.SetInternal | FreeRTOS-Kernel/tasks.c:5522-5527 | Remembers the tick and overflow counts |
| TimeOuts.TimeOut.SetState | FreeRTOS-Kernel/tasks.c:5506-5520 | Begins a block time: nothing elapsed, all of it remaining |
| TimeOuts.TimeOut.CheckForTimeOut | FreeRTOS-Kernel/tasks.c:5534-5600 | The check in place equals its function; with at most one overflow since the last check it reports expiry exactly when the block time is used up, and otherwise keeps elapsed plus remaining equal to it |
| QueueProtocol.NoLostWakeup | FreeRTOS-Kernel/queue.c:258-300 | In every interleaving of task send, receive, peek, overwrite, interrupt send and receive, time-outs and lock/unlock: with the queue unlocked and a receiver (sender) blocked, there are at least as many woken receivers (senders) as items (free slots); with it locked, an unmatched item is counted in the lock |
| QueueProtocol.NobodySleepsForNothing | FreeRTOS-Kernel/queue.c:1526-1648 | When no task can run, nobody is blocked for an item that is there or for a slot that is free |
| QueueProtocol.StepKeeps | FreeRTOS-Kernel/queue.c:939-1150 | Every atomic section of every task and interrupt keeps the protocol invariant |
| QueueProtocol.TryPostsKeeps | FreeRTOS-Kernel/queue.c:1960-1985 | Peeking, like sending, passes the wake-up on |
| QueueProtocol.InterruptKeeps | FreeRTOS-Kernel/queue.c:1196-1320 | Interrupts post and remove, directly or by counting in the lock, capped at the number of tasks |
| QueueProtocol.UnlockTransmitKeeps | FreeRTOS-Kernel/queue.c:2494-2570 | Replaying the counted posts wakes enough receivers, the cap notwithstanding |
| QueueProtocol.UnlockReceiveKeeps | FreeRTOS-Kernel/queue.c:2572-2608 | Replaying the counted removals wakes enough senders |
| QueueProtocol.PlaceKeeps | FreeRTOS-Kernel/queue.c:1106-1141 | Joining an event list after the re-check under lock keeps the invariant |
| QueueProtocol.WakesInTurn | FreeRTOS-Kernel/queue.c:2494-2611 | One post or removal wakes at most the first of a list, and unlocking no more of the first than were counted |
| QueueProtocol.LockAssertionExact | FreeRTOS-Kernel/queue.c:278-300 | The assertion that a lock count is below 127 never fails if and only if there are at most 127 tasks |
| QueueProtocol.Trips | FreeRTOS-Kernel/queue.c:278-300 | With more tasks, a concrete run after which it fails |
| QueueRing.FirstInFirstOut | FreeRTOS-Kernel/queue.c:2390-2491 | Over any requests without sends to the front, resets and overwrites included, items leave in the order in which they were accepted, and never more than fit are held |
| QueueRing.NothingLost | FreeRTOS-Kernel/queue.c:2390-2491 | Over any requests, what was accepted is exactly what was received, overwritten, dropped by a reset or is held |
| QueueRing.FillsUp | FreeRTOS-Kernel/queue.c:967-1000 | Sends to the back are all accepted, in order, as long as there are free places |
| QueueRing.RefusedWhenFull | FreeRTOS-Kernel/queue.c:967-1060 | A send is refused exactly when all places are taken; to overwrite is never refused |
| QueueRing.DrainsDown | FreeRTOS-Kernel/queue.c:1526-1580 | What is held is received item by item, and then nothing |
| QueueRing.FrontIsNext | FreeRTOS-Kernel/queue.c:2432-2475 | What is sent to the front is received next, and what overwrites is received next and last |
| QueueRing.PeekShowsNext | FreeRTOS-Kernel/queue.c:1910-1960 | Peeking shows what would be received and leaves it there; a reset leaves nothing to receive |
| QueueRing.SameFullness | FreeRTOS-Kernel/queue.c:967 | The ring and the blocking protocol agree on when a queue is full and when it is empty |
| QueueRing.Queue.ServeOne | FreeRTOS-Kernel/queue.c:303-358 | One request to the ring, a reset among them, changes its items and is answered as the double-ended queue would |
| QueueRing.Queue.ServeRequests | FreeRTOS-Kernel/queue.c:303-358 | Over any sequence of requests the ring gives the replies, delivers the items and holds what the double-ended queue would |
| QueueRing.AppendRing | FreeRTOS-Kernel/queue.c:2418-2430 | Storing at the write position appends to the ring |
| QueueRing.PrependRing | FreeRTOS-Kernel/queue.c:2432-2445 | Storing at the read position prepends to the ring |
| QueueRing.DropRing | FreeRTOS-Kernel/queue.c:2473-2491 | Advancing the read position drops the oldest item |
| QueueRing.Queue.constructor | FreeRTOS-Kernel/queue.c:566-607 | A new queue is empty and unlocked |
| QueueRing.Queue.CopyDataToQueue | FreeRTOS-Kernel/queue.c:2390-2470 | The items become the old ones with the new one behind, in front, or instead |
| QueueRing.Queue.CopyDataFromQueue | FreeRTOS-Kernel/queue.c:2473-2491 | The oldest item is copied and the rest follow the new read position |
| QueueRing.Queue.TrySend | FreeRTOS-Kernel/queue.c:970-1050 | The critical section of a send: sent exactly when there is room or on overwrite; items and event lists |
| QueueRing.Queue.SendFromISR | FreeRTOS-Kernel/queue.c:1157-1326 | A send from an interrupt: items, and either a wake-up or a capped count |
| QueueRing.Queue.TryReceive | FreeRTOS-Kernel/queue.c:1526-1560 | The critical section of a receive: the oldest item, and a wake-up for a sender |
| QueueRing.Queue.ReceiveFromISR | FreeRTOS-Kernel/queue.c:2035-2131 | A receive from an interrupt |
| QueueRing.Queue.TryPeek | FreeRTOS-Kernel/queue.c:1900-1940 | A peek leaves the items unchanged and wakes another receiver |
| QueueRing.Queue.LockQueue | FreeRTOS-Kernel/queue.c:258-270 | Locking leaves existing counts alone |
| QueueRing.Queue.UnlockTransmit | FreeRTOS-Kernel/queue.c:2494-2570 | The loop wakes as many receivers as posts were counted, or all |
| QueueRing.Queue.UnlockReceive | FreeRTOS-Kernel/queue.c:2572-2608 | The loop wakes as many senders as removals were counted, or all |
| QueueRing.Queue.Reset | FreeRTOS-Kernel/queue.c:303-360 | Reset empties the queue and wakes one sender, or starts fresh |
| PriorityInversion.BoundedInversion | FreeRTOS-Kernel/queue.c:1679-1873 | As long as a task that takes a mutex is of the highest ready priority, nobody blocks on a mutex while holding one and no priority is set: a holder's priority is at least that of every task blocked on its mutex, after gives, steals and time-outs alike; a free mutex somebody is blocked on has a ready task of at least their priority trying it |
| PriorityInversion.StepKeeps | FreeRTOS-Kernel/tasks.c:6580-6890 | Every such step keeps the inheritance invariant |
| PriorityInversion.TakeKeeps | FreeRTOS-Kernel/queue.c:1679-1720 | A take, also one that steals the mutex from a woken task, keeps it |
| PriorityInversion.BlockKeeps | FreeRTOS-Kernel/queue.c:1780-1800 | Blocking raises the holder enough |
| PriorityInversion.GiveKeeps | FreeRTOS-Kernel/tasks.c:6683-6770 | A give drops the priority only with the last mutex, and the woken waiter is the highest |
| PriorityInversion.FinishKeeps | FreeRTOS-Kernel/tasks.c:6777-6890 | After a time-out the holder falls no lower than those still waiting |
| PriorityInversion.TimeOutLowers | FreeRTOS-Kernel/tasks.c:6777-6890 | After any such run, the end of a timed-out wait leaves a holder of that mutex alone, if it had been lent the priority, with exactly the highest among its base and those of the tasks still blocked; a holder of more mutexes and everybody else stay |
| Mutexes.PriorityBookkeeping | FreeRTOS-Kernel/tasks.c:6580-6890 | In every run of take, block, give, time-out and priority-set steps: priority at least base, equal with no mutex held, and the held count is the number of mutexes naming the task |
| Mutexes.BooksStep | FreeRTOS-Kernel/tasks.c:2765-2885 | Every step keeps the books, and the assertion that a giving task holds a mutex never fails |
| Mutexes.StepChanges | FreeRTOS-Kernel/tasks.c:6580-6770 | What each step does to everybody's priority, base and held count: blocking raises the holder to the blocking task's priority, a give restores the base with the last mutex, setting a lower base keeps a higher inherited priority |
| Mutexes.PlacedInOrder | FreeRTOS-Kernel/tasks.c:5255-5275 | A task joins a waiting list by sorted insertion, first come first served among equals |
| OwnMutex.AssertionExact | FreeRTOS-Kernel/tasks.c:6814-6817 | After any run without a dangerous wait, a task's wait for a mutex it holds can be followed, without a further one, by the failure of the assertion for anybody if and only if the task holds only that mutex and runs above its base priority |
| OwnMutex.AssertionHolds | FreeRTOS-Kernel/tasks.c:6814-6817 | In every run in which no task waits for the only mutex it holds while above its base priority, the assertion never fails |
| OwnMutex.DangerFails | FreeRTOS-Kernel/queue.c:1826-1862 | In whatever run such a wait is begun, there is a continuation in which the assertion fails for that task |
| OwnMutex.DangerArises | FreeRTOS-Kernel/queue.c:1697-1800 | Two tasks and one mutex get there in five steps: taken, lent a priority by a waiting task, tried again |
| TaskPriorities.MutexTasks.constructor | FreeRTOS-Kernel/queue.c:1697-1710 | With no mutex held the books are right |
| TaskPriorities.MutexTasks.PriorityInherit | FreeRTOS-Kernel/tasks.c:6580-6675 | The holder inherits in place and, if ready, moves to the ready list of its new priority; tells whether inheritance occurred |
| TaskPriorities.MutexTasks.PriorityDisinherit | FreeRTOS-Kernel/tasks.c:6683-6770 | The running holder disinherits in place with its last mutex and moves back to its base ready list; a switch is due exactly when its priority fell |
| TaskPriorities.MutexTasks.PriorityDisinheritAfterTimeout | FreeRTOS-Kernel/tasks.c:6777-6890 | The holder falls back after a time-out, with its ready list; says false, and changes nothing, exactly when the assertion that the running task does not lower itself fails |
| TaskPriorities.MutexTasks.PrioritySet | FreeRTOS-Kernel/tasks.c:2765-2950 | Setting a base priority keeps a higher inherited one, moves a ready task, tells whether to yield, and keeps the books |
| TaskPriorities.MutexTasks.IncrementMutexHeldCount | FreeRTOS-Kernel/tasks.c:7589-7604 | One more mutex held |
| TaskPriorities.MutexTasks.TakeMutex | FreeRTOS-Kernel/queue.c:1697-1710 | Taking in place is the step of the mutex system and keeps the books: the held count is the number of mutexes naming the task, the priority is at least the base, equal with none held |
| TaskPriorities.MutexTasks.WaitForMutex | FreeRTOS-Kernel/queue.c:1780-1800 | Blocking in place lends the priority, joins the waiting list in key order, and keeps the books |
| TaskPriorities.MutexTasks.GiveMutex | FreeRTOS-Kernel/queue.c:2401-2416 | Giving in place disinherits, frees the mutex, lets the first waiter try again, and keeps the books; a switch is due exactly when the giver's priority changed; the assertion that the giver holds a mutex never fails |
| TaskPriorities.MutexTasks.RecheckMutex | FreeRTOS-Kernel/queue.c:1826-1836 | After a time-out the task tries again exactly when the mutex has become free |
| TaskPriorities.MutexTasks.FinishWait | FreeRTOS-Kernel/queue.c:1836-1862 | The end of a timed-out wait in place, whoever holds the mutex by then, lowers the holder no further than those still waiting, and keeps the books; says false exactly when the assertion fails |
| TimerService.DecideExact | FreeRTOS-Kernel/timers.c:894-935 | With less than a wrap of latency, "process now" exactly when the absolute expiry is not after now, else the list of the epoch of the expiry |
| TimerService.DecideRightIff | FreeRTOS-Kernel/timers.c:894-935 | In general the decision is right if and only if the latency is below a wrap or its remainder covers the period |
| TimerRuns.NoExpiryLostOrInvented | FreeRTOS-Kernel/timers.c:699-745 | Once the daemon has caught up to absolute time N, an undisturbed auto-reload timer started at C has had floor((N-C)/P) callbacks, a one-shot timer one exactly when C+P has passed; never early |
| TimerRuns.StepKeeps | FreeRTOS-Kernel/timers.c:782-1083 | Over any round or command, the lists stay filed by epoch and active bits in step with them; no timer but the commanded one loses or gains an expiry |
| TimerRuns.ReloadKeeps | FreeRTOS-Kernel/timers.c:699-715 | Replaying a backlog makes one callback per missed period and files the next expiry after now |
| TimerRuns.ExpireKeeps | FreeRTOS-Kernel/timers.c:718-745 | Processing an expired head |
| TimerRuns.SwitchKeeps | FreeRTOS-Kernel/timers.c:1086-1108 | At a wrap everything left of the old epoch is processed up to its end, then the lists switch |
| TimerRuns.SampleKeeps | FreeRTOS-Kernel/timers.c:871-891 | Sampling at least once per wrap detects every wrap |
| TimerRuns.StartKeeps | FreeRTOS-Kernel/timers.c:999-1028 | A start command makes the timer due one period after it was issued |
| TimerRuns.ChangeKeeps | FreeRTOS-Kernel/timers.c:1036-1049 | A period change counts from now and is never processed at once |
| TimerRuns.StopKeeps | FreeRTOS-Kernel/timers.c:1030-1075 | Stop and delete leave the timer in no list |
| TimerRuns.ListedIffActive | FreeRTOS-Kernel/timers.c:938-1083 | Between commands a timer is in a list exactly when its active bit is set |
| TimerRuns.RoundsCatchUp | FreeRTOS-Kernel/timers.c:782-841 | Each round at one sampled time leaves one expired timer fewer |
| TimerRuns.NeverOversleeps | FreeRTOS-Kernel/timers.c:808-822 | When the daemon blocks with a timer active it waits at least a tick, no timer falls due before it wakes, and one does then if the current list is not empty |
| TimerRuns.BlocksWhenNothingIsDue | FreeRTOS-Kernel/timers.c:797-822 | The daemon blocks exactly when the count has not wrapped since its last look and no timer's time has come, and for ever exactly when no timer is active |
| TimerRuns.Initially | FreeRTOS-Kernel/timers.c:1111-1150 | The invariant holds with empty lists and inactive timers |
| Timers.TimerDaemon.InsertTimerInActiveList | FreeRTOS-Kernel/timers.c:894-935 | Files the timer where the comparison says |
| Timers.TimerDaemon.ReloadTimer | FreeRTOS-Kernel/timers.c:699-715 | The reload loop terminates and equals its function |
| Timers.TimerDaemon.ProcessExpiredTimer | FreeRTOS-Kernel/timers.c:718-745 | The expired head in place |
| Timers.TimerDaemon.SwitchTimerLists | FreeRTOS-Kernel/timers.c:1086-1108 | The switch loop terminates and equals its function |
| Timers.TimerDaemon.SampleTimeNow | FreeRTOS-Kernel/timers.c:871-891 | Switches exactly when the count is below the last one |
| Timers.TimerDaemon.ProcessTimerOrBlockTask | FreeRTOS-Kernel/timers.c:782-841 | Processes the head if expired, else blocks until the head's expiry (or the wrap), for ever exactly when both lists are empty |
| Timers.TimerDaemon.ProcessReceivedCommand | FreeRTOS-Kernel/timers.c:938-1083 | One command in place |
| MessageBuffer.MessagesArriveWhole | FreeRTOS-Kernel/stream_buffer.c:1000-1050 | With one writer and one reader interleaved at single-byte copies and single reads of the tail, received messages are a prefix of the accepted ones, whole and in order; unread bytes are intact; occupied plus free is length - 1 |
| MessageBuffer.CountingKeeps | FreeRTOS-Kernel/stream_buffer.c:767-773 | The free space counted by the re-reading loop never exceeds what is free, however often the reader moves the tail meanwhile |
| MessageBuffer.StepKeeps | FreeRTOS-Kernel/stream_buffer.c:1276-1328 | Every copy and publication step keeps the ring invariant |
| MessageBuffer.WriteByteKeeps | FreeRTOS-Kernel/stream_buffer.c:1476-1519 | A byte copied behind the head never overwrites an unread one |
| MessageBuffer.PublishHeadKeeps | FreeRTOS-Kernel/stream_buffer.c:1040-1050 | The head is published after the whole frame; an empty message is not published |
| MessageBuffer.PublishTailKeeps | FreeRTOS-Kernel/stream_buffer.c:1318-1328 | The tail is published after the whole message, which is then the next one accepted |
| MessageBuffer.TooLongStays | FreeRTOS-Kernel/stream_buffer.c:1300-1312 | A message too long for the reader's buffer stays where it is |
| MessageBuffer.FitsIsAccepted | FreeRTOS-Kernel/stream_buffer.c:1000-1050 | A message that fits the free space with its length is accepted by the writer's own steps |
| MessageBuffer.RoomIsEnough | FreeRTOS-Kernel/stream_buffer.c:1276-1328 | The next unread message is received, whole, by the reader's own steps when there is room for it |
| MessageBuffer.LengthRoundTrip | FreeRTOS-Kernel/stream_buffer.c:1021-1024 | The four length bytes give the length back |
| MessageBuffer.OccupiedPlusFree | FreeRTOS-Kernel/stream_buffer.c:754-788 | For buffers of at most 2^31 bytes the computed counts are the distances, and add up to length - 1 |
| MessageBuffer.BytesExact | FreeRTOS-Kernel/stream_buffer.c:1566-1584 | The computed count is right exactly while the sum does not overflow |
| StreamBuffers.WriteAllAppends | FreeRTOS-Kernel/stream_buffer.c:1476-1519 | Bytes written behind the occupied ones append to the contents |
| StreamBuffers.StreamBuffer.constructor | FreeRTOS-Kernel/stream_buffer.c:1587-1630 | A new buffer is empty |
| StreamBuffers.StreamBuffer.BytesInBuffer | FreeRTOS-Kernel/stream_buffer.c:1566-1584 | The number of occupied bytes |
| StreamBuffers.StreamBuffer.SpacesAvailable | FreeRTOS-Kernel/stream_buffer.c:754-788 | The number of free bytes |
| StreamBuffers.StreamBuffer.WriteBytes | FreeRTOS-Kernel/stream_buffer.c:1476-1519 | Two runs write what one byte at a time around the end would |
| StreamBuffers.StreamBuffer.ReadBytes | FreeRTOS-Kernel/stream_buffer.c:1522-1563 | Two runs read the ring |
| StreamBuffers.StreamBuffer.WriteMessageToBuffer | FreeRTOS-Kernel/stream_buffer.c:1000-1050 | A message goes in whole with its length, or not at all; of a stream, as much as fits |
| StreamBuffers.StreamBuffer.Send | FreeRTOS-Kernel/stream_buffer.c:943-997 | A send without waiting: whole message or nothing, or the bytes that fit |
| StreamBuffers.StreamBuffer.ReceiveMessage | FreeRTOS-Kernel/stream_buffer.c:1213-1328 | The next message if there is room for it, else nothing changes |
| StreamBuffers.StreamBuffer.ReceiveBytes | FreeRTOS-Kernel/stream_buffer.c:1213-1328 | Up to the asked bytes off the front |
| EventBits.SetBitsSpec | FreeRTOS-Kernel/event_groups.c:547-644 | One set call releases exactly the waiters its snapshot satisfies, keeps the rest, and clears exactly the union of the bits of released clear-on-exit waiters |
| EventBits.AlwaysQuiet | FreeRTOS-Kernel/event_groups.c:185-644 | Over any run of set, wait, rendezvous, clear and time-out calls no blocked waiter's condition is met between calls |
| EventBits.StepQuiet | FreeRTOS-Kernel/event_groups.c:312-501 | Every call keeps that |
| EventBits.ClearsExactly | FreeRTOS-Kernel/event_groups.c:608-620 | The bits to clear, bit by bit |
| EventBits.BitsAfter | FreeRTOS-Kernel/event_groups.c:185-644 | For every call and every bit: it is set afterwards if and only if it was set before or by the call and was not cleared for a waiter let go, for the caller's own met condition, or by name |
| EventBits.CallReturns | FreeRTOS-Kernel/event_groups.c:312-450 | A wait returns at once exactly when its condition is met or it may not block, with the bits before its own clearing; otherwise the caller waits behind the others for what it asked |
| EventBits.RendezvousReturns | FreeRTOS-Kernel/event_groups.c:185-309 | A rendezvous returns the bits as they were once the caller's were set, if that completes them, and blocks or gives up otherwise |
| EventBits.TimedOutReturns | FreeRTOS-Kernel/event_groups.c:405-440 | A caller whose time is up returns the bits before its own clearing |
| EventBits.WaitersAfter | FreeRTOS-Kernel/event_groups.c:547-644 | Of those who waited, exactly the ones whose condition the set bits meet are let go |
| EventBits.LeavesOnce | FreeRTOS-Kernel/event_groups.c:395-410 | A time-out takes one waiter of the task away, if there is one |
| RendezvousRuns.NobodyLeavesEarly | FreeRTOS-Kernel/event_groups.c:185-309 | The rendezvous is a barrier: in every interleaving and for any number of rounds, no task returns from its k-th call before every task has made its k-th call |
| RendezvousRuns.LastArrivalReleasesAll | FreeRTOS-Kernel/event_groups.c:205-222 | The last arrival returns at once and releases all the others |
| EventWords.TestAny | FreeRTOS-Kernel/event_groups.c:783-795 | A masked word is nonzero exactly when the bit sets meet |
| EventWords.TestAll | FreeRTOS-Kernel/event_groups.c:796-806 | A masked word equals the mask exactly when the bit set is contained |
| EventWords.BitsWithout | FreeRTOS-Kernel/event_groups.c:635-638 | Masking off bits is set difference |
| EventWords.ItemDecodes | FreeRTOS-Kernel/event_groups.c:386-412 | A waiter's item value gives back the wanted bits and both control bits |
| EventGroups.SnapshotBits | FreeRTOS-Kernel/event_groups.c:622-630 | A released task finds the bits of the moment and the mark that it was released |
| EventGroups.TestIsMet | FreeRTOS-Kernel/event_groups.c:775-809 | The word test is the condition on bit sets |
| EventGroups.EventGroup.Examine | FreeRTOS-Kernel/event_groups.c:577-616 | One waiter: is it released, and what does it want cleared |
| EventGroups.EventGroup.SetBits | FreeRTOS-Kernel/event_groups.c:547-644 | The loop over the waiters releases and keeps exactly those it should, all released ones with the same snapshot |
| EventGroups.EventGroup.WaitBits | FreeRTOS-Kernel/event_groups.c:312-420 | Returns at once with the bits before clearing, or blocks |
| EventGroups.EventGroup.Sync | FreeRTOS-Kernel/event_groups.c:185-245 | Sets, then returns at once or blocks for all the bits |
| EventGroups.EventGroup.ClearBits | FreeRTOS-Kernel/event_groups.c:472-501 | Returns the bits before they are cleared |
| EventGroups.EventGroup.FinishTimeOut | FreeRTOS-Kernel/event_groups.c:421-455 | A timed-out waiter returns the bits of the moment and clears its own if they are met by now |

## Left out

- Configuration: one core, preemption with time slicing, generic task selection, `INCLUDE_vTaskSuspend` = 1, 32-bit ticks; no MPU, queue sets, tickless idle, trace, statistics or static allocation. Allocation is assumed to succeed.
- `FreeRTOSConfig.h`, `list.h`, `vec.h` and the port layer are not part of this model; the list macros and the vectors are modelled by direct definitions.
- Hardware and I/O (`dma.c`, `isr.c`, `spi.c`, `uart.c`, `ethernet.c`, `init.c`, `server.c`, HAL calls), floating-point sweeps and units, the command-line parser and the `ad9910` byte packing.
- `json_query_i32`, diagnostics printed by the queries, and JSON outside the document grammar (empty keys, empty arrays, escapes): the automaton's assertions are modelled as failure, and any text it accepts is covered by `QueryLocation` and `QueryCount`.
- JsonCorrect.RunDocument: a character is one byte of the program's text. Texts with a byte 0, which end a C string, are covered by the theorem but cannot be given to the program.
- JsonParser.QueryLocation: the number `strtoul` reads from a query string is given with the query segment; string parsing and its conversion to `int` are not modelled, nor 32-bit counters (texts are shorter than 2^31 characters).
- SequenceCompiler.Lower: the 64-bit product of duration and timer frequency is modelled with its wrap-around; a list whose products wrap is compiled as what they wrapped to (`ExactUnlessWrapped`). Pin masks are one bit each in the order of the pin comments.
- SequenceCompiler.NoFewerSlots: stated for lists whose neighbouring states differ; `MinimalIff` covers every list.
- KernelTime.AddTells: a block time of 0 ticks is excluded. Delays and blocking calls check for it (a time-out check that has not expired leaves at least one tick), and the timer daemon never asks for it (`TimerRuns.NeverOversleeps`).
- KernelRuns.ExactWakeUp: time is counted in processed ticks, which begin with the start of the scheduler; how long a scheduler suspension lasts is up to the run.
- Kernel.Scheduler.SuspendTask: event lists only as far as the pending-ready list; task notification states, the yield that follows in the caller (a separate step) and `xTaskAbortDelay` are not modelled. That a task remains to be chosen before the scheduler has started is what the program asserts.
- Kernel.Scheduler.DeleteTask: event lists only as far as the pending-ready list; freeing memory and the hooks are not modelled. Deleting the current task before the scheduler starts, after which the program goes on with a freed task, is excluded.
- TaskPriorities.MutexTasks.WaitForMutex: the move of the blocking task to a delayed list is the call of `Kernel.Scheduler`; tasks are those there are when the mutexes are set up.
- TaskPriorities.MutexTasks.GiveMutex: the move of the woken task to its ready list is the call of `Kernel.Scheduler`.
- QueueProtocol.NoLostWakeup: an event wakes the head of an event list, and a task joins it at any place, which covers the priority order; queue reset, task deletion, suspension and aborted delays are excluded steps, and the number of tasks is constant. Semaphores follow the same sections with an item size of zero.
- PriorityInversion.BoundedInversion: nested blocking, priority setting, and taking a mutex below a ready task of higher priority are excluded steps; the bookkeeping result has none of these exclusions.
- TimerRuns.NoExpiryLostOrInvented: commands are processed, and the time is sampled, less than a whole wrap apart; `DecideRightIff` says exactly what happens otherwise. Changing the reload mode of a timer, pended function calls and the command queue itself are not modelled.
- StreamBuffers.StreamBuffer.Send: waiting for space or data, trigger levels and notifications are not modelled; batching buffers are left out. The message length is 32 bits, least significant byte first.
- EventGroups.EventGroup.Sync: deferring calls from interrupts to the timer daemon, and deleting a group, are left out.
- RendezvousRuns.NobodyLeavesEarly: time-outs and other setters of the same bits are excluded steps.
- `FreeRTOS-Kernel/croutine.c`, recursive mutexes, task notifications and the queue registry: they repeat what is modelled in a weaker or easier form.
