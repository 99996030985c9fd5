# The kernel of an internet radio, modelled in Dafny

The radio runs FreeRTOS V7.1.0 and two buffers of its own. This project models the kernel's lists,
scheduler, queues, mutexes and software timers, and the radio's audio buffer and stream
demultiplexer, in the configuration of `TCPv3/src/FreeRTOSConfig.h`: mutexes, timers and task
suspension on, preemption, 32-bit ticks, 8 priorities. M is 2^32 throughout.

`dafny verify dfyconfig.toml` checks everything.

| files | model |
|---|---|
| `KernelList`, `Rings` | `list.c`: the linked nodes, proved to be a sequence with a cursor, and the sequence |
| `Ticks` | time-outs and `vTaskDelayUntil` in 32-bit time, against unbounded time |
| `Filing`, `TaskTables` | the task lists as values, and the invariants of the scheduler |
| `TaskStates` | what the scheduler is for: tasks with a state and a due time, and steps on them |
| `ReadyLists` | the order of turns in the ready lists, and what keeps it |
| `EventLists` | the order of the event lists, by event value and by priority, and what disturbs it |
| `KernelRuns` | sequences of kernel calls: the steps they take, ticks, and waking on time |
| `Scheduler` | `tasks.c`: a class with the file's variables, each operation proved to be its step |
| `QueueStorage` | the bytes of a queue, proved to be a bounded deque |
| `QueueProtocol`, `QueueRuns`, `QueueCalls` | how queue calls block and wake: steps in any order, and a queue on the storage and the scheduler that takes them |
| `Mutexes`, `MutexCalls` | holders and priority inheritance, over whole runs, and the code on top of the scheduler |
| `TimerPlacement`, `TimerTables`, `TimerService`, `TimerTask` | `timers.c`: the placement of a timer, the tables, the service, and the service on the scheduler |
| `IcyStream`, `IcyDemux` | the stream format, and the demultiplexer of `shoutcast.c` |
| `AudioRing` | the ring over two memory chips of `external_RAM.c` |
| `Arithmetic`, `Octets`, `Wrappers` | shared helpers |

How the parts are modelled:

- A critical section, an interrupt and a stretch with the scheduler suspended in between are one step
  each; a blocking call is several steps with anything else in between.
- Unbounded time, due times, who has been woken, and what a callback stands for are kept beside the
  program's own variables, as ghost fields or as fields marked as records. No decision uses them.
- An assertion that fails halts the machine, as `configASSERT` in `TCPv3/src/FreeRTOSConfig.h` has it: the
  method reports that, and claims what follows only if it does not.
- Time, interrupts, the scheduler's choices, the wait found to be over, the result of a search for a
  title and the first byte of a transfer are parameters.

Where the code and what it is meant to do differ, the code is modelled, and the difference is a lemma:

- A time-out can be hidden when the tick count wraps twice between two checks
  (`Ticks.TwoWrapsCanHideATimeOut`, and exactly when in `Ticks.TimeOutIsExact`).
- `vTaskDelayUntil` can delay, or not delay, wrongly when it is called M ticks or more after the previous wake,
  or before it (`Ticks.DelayUntilIsExact`, `Ticks.LateCallIsDelayed`, `Ticks.EarlyCallIsNotDelayed`).
- `vTaskPrioritySet` can leave a holder below the tasks that wait for it, or at an inherited priority below
  its new one (`Mutexes.SettingPriorityUnderClaims`, `Mutexes.PrioritySetBelowAClaim`,
  `Mutexes.PrioritySetAboveAClaim`).
- A new event value for a waiting task can put its event list out of order (`EventLists.NewValueInRank`, and for
  the operations that set one `EventLists.PrioritySetOrder` and `EventLists.InheritOrder`), so that the wrong
  task is woken first (`EventLists.PrioritySetDisturbs`, `EventLists.InheritingDisturbs`).
- A start command that is M ticks old or more, or stamped after the time sampled, can be misjudged
  (`TimerPlacement.WhenProcessingAtOnceIsRight`, `TimerPlacement.OldCommandIsMisjudged`,
  `TimerPlacement.FutureCommandIsMisjudged`).
- With more timers than the command queue is long, a restart can be refused, and the assertion on the result
  halts the machine (exactly when in `TimerService.Service.SwitchTimerLists` and
  `TimerService.Service.ProcessExpiredTimer`; a state in `TimerService.Service.SixthTimerHalts`; never with
  fewer in `TimerTables.FewTimersNeverHalt`).
- The radio puts the start of the HTTP header, and not the data behind it, into the buffer first
  (`IcyDemux.FirstPacketIsMisplaced`).
- A new connection starts in the mode that the one before ended in (`IcyDemux.ConnectionsMustStartInMode1`,
  `IcyDemux.ReconnectInsideMetadata`).
- A packet that holds two length bytes, or ends within metadata cut before, is not handled
  (`IcyDemux.PayloadIsExact`, `IcyDemux.TwoLengthBytesSpoilThePacket`,
  `IcyDemux.ShortPacketIsWaitedForInVain`).
- A put of more than 8190 bytes repeats old bytes (`AudioRing.PutsAreRightUpToTwoTransfers`), and a get
  from both chips overwrites its first part, as the source itself notes
  (`AudioRing.GetsAreRightUnlessSplit`); the calls the radio makes avoid the latter
  (`AudioRing.AlignedGetsAreNotSplit`).

One thing looks like such a difference and is none: a wait of zero ticks placed at the last tick before a wrap
would leave a task in a list that must be empty (`TaskTables.RolloverAfterWait`), but nobody places one.
`vTaskDelay` and `vTaskDelayUntil` do not (`Scheduler.Kernel.TaskDelay`, `Scheduler.Kernel.TaskDelayUntil`), a
call on a queue or a mutex has time left when it blocks (`QueueCalls.BlockingQueue.GoIn`,
`MutexCalls.MutexQueue.WaitAgain`), and the timer service waits zero ticks at tick count 0 only
(`TimerTask.ProcessTimerOrBlock`).

## Model

| member | source | states |
|---|---|---|
| KernelList.List.constructor | TCPv3/FreeRTOS/list.c:63-80 | A new list is empty, with its index on the end marker, and its links form a circle |
| KernelList.List.InsertEnd | TCPv3/FreeRTOS/list.c:90-110 | On the linked nodes: the circle stays whole, the container pointer is set, and the list seen as a sequence with a cursor changes as Rings.InsertEnd says |
| KernelList.List.FindPredecessor | TCPv3/FreeRTOS/list.c:142-154 | The search loop ends, at the end marker at the latest, in front of the first larger value |
| KernelList.List.Insert | TCPv3/FreeRTOS/list.c:113-167 | On the linked nodes: the item goes to its place in the order, behind all equal values; values of portMAX_DELAY go last |
| KernelList.List.RemoveNode | TCPv3/FreeRTOS/list.c:170-189 | The item is taken out of the circle, the index steps back if it was on it, the container pointer is cleared, and all other nodes keep their order |
| KernelList.List.Remove | TCPv3/FreeRTOS/list.c:170-189 | The same through the container pointer of the item |
| KernelList.List.NextOwner | TCPv3/FreeRTOS/include/list.h:190-201 | Walks the index over the end marker and returns the owner that Rings.Advance names |
| KernelList.List.HeadValue | TCPv3/FreeRTOS/include/list.h:155 | The value of the first item of the sequence |
| KernelList.List.HeadOwner | TCPv3/FreeRTOS/include/list.h:220 | The owner of the first item of the sequence |
| KernelList.List.IsEmpty | TCPv3/FreeRTOS/include/list.h:164 | True exactly for the empty sequence |
| KernelList.InsertedIsCircular | TCPv3/FreeRTOS/list.c:90-110 | Rewiring four pointers around a new node gives a circle of the nodes with the new one in place |
| KernelList.DroppedIsCircular | TCPv3/FreeRTOS/list.c:170-189 | Rewiring two pointers around a node gives a circle of the others |
| KernelList.SearchStopsAt | TCPv3/FreeRTOS/list.c:142-154 | The place at which the search stops is the one that the sorted order calls for |
| Rings.SortedInsertIsStable | TCPv3/FreeRTOS/list.c:113-167 | Sorted insertion keeps the list sorted and puts an item behind all equal ones and before all larger ones |
| Rings.RemoveUndoesInsertAt | TCPv3/FreeRTOS/list.c:170-189 | Removal after a sorted insertion restores items and index |
| Rings.RemoveUndoesInsertEnd | TCPv3/FreeRTOS/list.c:170-189 | Removal after vListInsertEnd restores items and index, although the insertion moved the index |
| Rings.AdvanceRotates | TCPv3/FreeRTOS/include/list.h:190-201 | One step of the next-entry macro returns the head of the rotation and moves it to the back |
| Rings.TurnsFollowRotation | TCPv3/FreeRTOS/include/list.h:190-201 | Turn i, for any number of turns, goes to entry i modulo n of the rotation |
| Rings.FullRoundServesEachOnce | TCPv3/FreeRTOS/include/list.h:190-201 | n turns on an unchanged list of n items return each owner exactly once |
| Rings.InsertEndIsServedLast | TCPv3/FreeRTOS/list.c:90-110 | An item added at the end gets the last turn of the next round and moves nobody else |
| Rings.RemoveKeepsTurnOrder | TCPv3/FreeRTOS/list.c:170-189 | A removal leaves the order of the turns of all others as it was |
| Filing.Census | TCPv3/FreeRTOS/tasks.c:466-519 | The lengths of all lists add up to the number of tasks that are filed |
| Filing.ExactlyOneList | TCPv3/FreeRTOS/include/list.h:232 | A filed item is in the list its container pointer names, once, and in no other |
| Ticks.TimeOutIsExact | TCPv3/FreeRTOS/tasks.c:1773-1816 | A check reports a time-out exactly when the wait is over, if and only if the clock has not hidden it by running over twice; what remains is exact |
| Ticks.AtMostOneWrapIsNotAliased | TCPv3/FreeRTOS/tasks.c:1773-1816 | With at most one wrap, or less than M ticks, nothing is hidden |
| Ticks.TwoWrapsCanHideATimeOut | TCPv3/FreeRTOS/tasks.c:1773-1816 | A concrete wait that is over and is reported as not over, after two wraps |
| Ticks.RetryLoopConservesTime | TCPv3/FreeRTOS/queue.c:509-613 | Over any number of retries in one blocking call, time used and time left add up to the wait asked for, and something is left whenever the task blocks again |
| Ticks.EndlessWaitNeverExpires | TCPv3/FreeRTOS/tasks.c:1780-1790 | portMAX_DELAY never times out |
| Ticks.ShouldDelayMeaning | TCPv3/FreeRTOS/tasks.c:612-670 | The decision of vTaskDelayUntil, for all times, compares the increment with the ticks since the previous wake modulo M |
| Ticks.DelayUntilIsExact | TCPv3/FreeRTOS/tasks.c:612-670 | The decision is right if and only if less than M ticks have passed since the previous wake, or the part above whole clock rounds is long enough |
| Ticks.LateCallIsDelayed | TCPv3/FreeRTOS/tasks.c:612-670 | A concrete call a clock round late, which delays although its wake time has passed |
| Ticks.EarlyCallIsNotDelayed | TCPv3/FreeRTOS/tasks.c:612-670 | A concrete call before the previous wake time, which does not delay although its wake time is ahead |
| Ticks.DelayUntilWakesOnTime | TCPv3/FreeRTOS/tasks.c:612-670 | When it delays, the wake time is ahead by less than M ticks and is the previous one plus the increment, modulo M |
| TaskStates.TicksAreConserved | TCPv3/FreeRTOS/tasks.c:1419-1468 | In every run of the abstract system, ticks processed and ticks held back are the ticks delivered |
| KernelRuns.EveryTickIsSeen | TCPv3/FreeRTOS/tasks.c:1419-1468 | Over every sequence of calls, xNumOfOverflows * M + xTickCount + uxMissedTicks grows by exactly the ticks delivered |
| KernelRuns.WokenOnTime | TCPv3/FreeRTOS/tasks.c:1419-1465 | Over every sequence of calls that neither suspends nor deletes the task, nor signals its event: it waits while the clock is before its due time, and is ready in the first state in which it is not |
| KernelRuns.RanTo | TCPv3/FreeRTOS/tasks.c:1419-1465 | The calls of a sequence take exactly the steps that each of them says, one after the other |
| KernelRuns.StepsSpare | TCPv3/FreeRTOS/tasks.c:1632-1762 | A call by the running task, a signal to another event and the freeing of a deleted task never touch a task that waits |
| KernelRuns.CallsDoThat | TCPv3/FreeRTOS/tasks.c:1118-1762 | Every call, in plain words: who is ready, blocked, suspended, deleted or pending after it, until when, and for which event |
| KernelRuns.DelayedForItsTicks | TCPv3/FreeRTOS/tasks.c:677-717 | After vTaskDelay the task waits until exactly so many ticks have passed |
| KernelRuns.BlockedForItsTicks | TCPv3/FreeRTOS/tasks.c:1632-1678 | After vTaskPlaceOnEventList it waits for the event, until exactly so many ticks have passed or without limit |
| KernelRuns.OthersKeepTurns | TCPv3/FreeRTOS/tasks.c:200-212 | No call but a switch moves a ready task in front of another: who leaves is dropped from the turns, who becomes ready has the last one |
| KernelRuns.SwitchOnTop | TCPv3/FreeRTOS/tasks.c:1581-1628 | A switch runs the first in the rotation of the ready list of highest priority, and moves it to the back |
| KernelRuns.EqualsTakeTurns | TCPv3/FreeRTOS/tasks.c:1581-1628 | Over any calls that leave the tasks of the highest ready priority the same, ticks included, their turns move on by one with each switch and not otherwise |
| KernelRuns.SwitchRunsTheNext | TCPv3/FreeRTOS/tasks.c:1581-1628 | So the k-th switch runs task k of the turns, modulo their number, whatever is called in between |
| KernelRuns.TurnComes | TCPv3/FreeRTOS/tasks.c:1581-1628 | Nobody starves: a task that stays ready in the highest list runs at the latest at the switch that its place in the turns says, whoever joins or leaves |
| KernelRuns.StaysByPriority | TCPv3/FreeRTOS/tasks.c:1632-1678 | Over any calls that give no waiting task of a list a new event value, let nobody enter it at its index and do not part event value and priority, the list stays in order of priority |
| ReadyLists.UnlinkLeaves | TCPv3/FreeRTOS/list.c:170-189 | vListRemove takes one task out of the turns of its list, and moves no other |
| ReadyLists.LinkEndEntersTurns | TCPv3/FreeRTOS/tasks.c:207-212 | prvAddTaskToReadyQueue gives the task the last turn in its list |
| TaskStates.TicksInOneJump | TCPv3/FreeRTOS/tasks.c:1168-1177 | k single ticks and one jump by k ticks ready the same tasks |
| TaskStates.SuspendedTicksAreMadeUpFor | TCPv3/FreeRTOS/tasks.c:1126-1200 | k ticks while suspended and then a resume give the same system, task by task, as a resume and then k ticks |
| TaskStates.OneStepKeepsTime | TCPv3/FreeRTOS/tasks.c:1419-1465 | No single step of the system wakes another task early or late |
| TaskStates.WokenExactlyWhenDue | TCPv3/FreeRTOS/tasks.c:1419-1465 | In every run that leaves the task alone, it is blocked until the tick of its due time is processed and ready from then on |
| TaskTables.NobodyLeftAtRollover | TCPv3/FreeRTOS/tasks.c:1426-1441 | When the tick count wraps the current delayed list is empty: the assertion there never fires |
| TaskTables.RolloverIsSound | TCPv3/FreeRTOS/tasks.c:1426-1460 | After the lists are swapped the old overflow list holds exactly the times of the new epoch, and the cached unblock time is that of its head |
| TaskTables.RolloverAfterWait | TCPv3/FreeRTOS/tasks.c:2089-2112 | A wait placed at the last tick of an epoch leaves the current list empty for the swap if and only if it is not one of zero ticks, which no caller places there |
| TaskTables.NobodyDueBeforeCache | TCPv3/FreeRTOS/tasks.c:223-273 | While the tick count is below the cached unblock time no task in the delayed list is due, whatever was removed since |
| TaskTables.DelayedListsAreSplit | TCPv3/FreeRTOS/tasks.c:2089-2112 | The current delayed list is sorted, with no value that has passed and none before the cached time; the overflow list is sorted, with only values that have passed |
| TaskTables.TasksArePartitioned | TCPv3/FreeRTOS/tasks.c:466-519 | Each task is in exactly one state list and at most one event list, a ready one in the list of its priority, and the list lengths add up to the number of tasks |
| TaskTables.HighestReady | TCPv3/FreeRTOS/tasks.c:1581-1628 | All ready lists above the one found are empty, so no ready task has a higher priority |
| TaskTables.SomeoneReady | TCPv3/FreeRTOS/tasks.c:1581-1628 | The search for a ready list stays in range while some task is ready |
| TaskTables.NextInTurn | TCPv3/FreeRTOS/tasks.c:1623-1625 | The task chosen is the next in turn of its ready list |
| TaskTables.InitialTableIsSound | TCPv3/FreeRTOS/tasks.c:2022-2050 | The lists as initialised, with the idle task ready |
| TaskTables.DelayUntilMeaning | TCPv3/FreeRTOS/tasks.c:612-670 | For all times, decision and wait of vTaskDelayUntil follow the ticks since the previous wake modulo M |
| TaskStates.DelayUntilThePlannedTime | TCPv3/FreeRTOS/tasks.c:612-670 | Less than M ticks after the previous wake, that is a delay until the previous wake plus the increment, or none if that has passed |
| EventLists.NewValueInRank | TCPv3/FreeRTOS/tasks.c:824 | A waiting task gets a new event value: the list stays in order if and only if it fits between the values of the neighbours |
| EventLists.InsertionKeepsRank | TCPv3/FreeRTOS/list.c:113-167 | vListInsert of an event item keeps the order |
| EventLists.LeavingOutKeepsRank | TCPv3/FreeRTOS/list.c:170-189 | Removals keep the order |
| EventLists.EntryKeepsOrder | TCPv3/FreeRTOS/tasks.c:1632-1678 | vTaskPlaceOnEventList keeps every event list in order |
| EventLists.PrioritySetOrder | TCPv3/FreeRTOS/tasks.c:806-826 | vTaskPrioritySet keeps exactly those lists in order in which the new value fits |
| EventLists.InheritOrder | TCPv3/FreeRTOS/tasks.c:2371-2374 | vTaskPriorityInherit likewise |
| EventLists.PrioritySetDisturbs | TCPv3/FreeRTOS/tasks.c:824 | Two concrete tasks, the first of which is set below the second and is still woken before it |
| EventLists.InheritingDisturbs | TCPv3/FreeRTOS/tasks.c:2371-2374 | Two concrete tasks, the second of which inherits a priority above the first and is still woken after it |
| EventLists.DisinheritOrder | TCPv3/FreeRTOS/tasks.c:2401-2421 | vTaskPriorityDisinherit keeps all of them in order, as its task waits in none |
| EventLists.HeadHasRank | TCPv3/FreeRTOS/tasks.c:1714-1740 | The head of a list in order has the smallest event value |
| EventLists.HigherPrioritiesGoFirst | TCPv3/FreeRTOS/tasks.c:1969 | A higher priority has a smaller event value |
| EventLists.RankIsPriority | TCPv3/FreeRTOS/tasks.c:1632-1678 | As long as event values are those of the priorities, a list is in order of event values exactly if it is in order of priority |
| Scheduler.Kernel.constructor | TCPv3/FreeRTOS/tasks.c:2022-2050 | The kernel starts valid, with the idle task |
| Scheduler.Kernel.IncrementTick | TCPv3/FreeRTOS/tasks.c:1419-1468 | One tick readies exactly the tasks that are due, behind all that are ready, or is counted as missed; nobody loses a turn |
| Scheduler.Kernel.RollOver | TCPv3/FreeRTOS/tasks.c:1426-1460 | The swap of the delayed lists keeps every task in its state |
| Scheduler.Kernel.CheckDelayedTasks | TCPv3/FreeRTOS/tasks.c:223-273 | The scan, or skipping it, readies all tasks that are due and no other |
| Scheduler.Kernel.WakeHead | TCPv3/FreeRTOS/tasks.c:240-268 | One round of the scan takes the head off its event list and gives it the last turn in the ready list of its priority |
| Scheduler.Kernel.AddToDelayedList | TCPv3/FreeRTOS/tasks.c:2089-2112 | The task wakes at the first time at which the tick count has the given value, in the list for that epoch; zero ticks at tick count 0xFFFFFFFF are not asked for by any caller |
| Scheduler.Kernel.DelayCurrent | TCPv3/FreeRTOS/tasks.c:660-664 | The current task is blocked until its wake time |
| Scheduler.Kernel.TaskDelay | TCPv3/FreeRTOS/tasks.c:677-717 | Suspend, block for the given ticks, resume |
| Scheduler.Kernel.TaskDelayUntil | TCPv3/FreeRTOS/tasks.c:612-670 | For any previous wake: delays by what is left of the increment after the ticks since then, taken modulo M, and returns the planned wake time modulo M |
| Scheduler.Kernel.Create | TCPv3/FreeRTOS/tasks.c:466-519 | A new task is ready, in the list of its priority, with the last turn |
| Scheduler.Kernel.Delete | TCPv3/FreeRTOS/tasks.c:546-597 | The task leaves its lists and waits in the termination list; nobody else moves |
| Scheduler.Kernel.CheckTasksWaitingTermination | TCPv3/FreeRTOS/tasks.c:2054-2086 | The idle task frees one deleted task, if there is any |
| Scheduler.Kernel.Reap | TCPv3/FreeRTOS/tasks.c:2054-2086 | A deleted task is forgotten, and both counters stay right |
| Scheduler.Kernel.Suspend | TCPv3/FreeRTOS/tasks.c:853-915 | The task leaves its lists, event lists included, and is in the suspended list; nobody else moves |
| Scheduler.Kernel.IsTaskSuspended | TCPv3/FreeRTOS/tasks.c:917-943 | True exactly for tasks suspended outright, and not for those that wait for an event without limit |
| Scheduler.Kernel.Resume | TCPv3/FreeRTOS/tasks.c:951-988 | A suspended task enters the ready list of its priority as the last, and a yield follows exactly if it has at least the priority of the running one; for any other task nothing happens |
| Scheduler.Kernel.ResumeFromISR | TCPv3/FreeRTOS/tasks.c:996-1032 | The same from an interrupt, with the task kept pending and no yield while the scheduler is suspended |
| Scheduler.Kernel.PrioritySet | TCPv3/FreeRTOS/tasks.c:745-850 | A priority of 8 or more halts; otherwise the base priority changes, the running priority unless it is inherited, and a ready task moves to the list of its priority; the event value is the new one, and a list it waits in stays in order exactly if that fits between the neighbours |
| Scheduler.Kernel.PriorityInherit | TCPv3/FreeRTOS/tasks.c:2365-2396 | The holder gets the priority of the current task if that is higher, and moves to the list of that priority if it is ready; its event value follows, and a list it waits in stays in order exactly if that fits between the neighbours |
| Scheduler.Kernel.PriorityDisinherit | TCPv3/FreeRTOS/tasks.c:2401-2421 | The holder gets its own priority and event value back and moves to the list of that priority; no event list is disturbed |
| Scheduler.Kernel.PlaceOnEventList | TCPv3/FreeRTOS/tasks.c:1632-1678 | The current task leaves its ready list and waits for the event, for the given ticks or without limit, behind all waiting tasks of its event value or a smaller one |
| Scheduler.Kernel.PlaceOnEventListRestricted | TCPv3/FreeRTOS/tasks.c:1682-1708 | The same at the index of the list instead of by event value, and always with a limit |
| Scheduler.Kernel.RemoveFromEventList | TCPv3/FreeRTOS/tasks.c:1714-1762 | The head of the event list leaves it and enters the ready list of its priority as the last, or is pending while the scheduler is suspended; in a list in order of priority nobody waiting has a higher one |
| Scheduler.Kernel.SuspendAllTasks | TCPv3/FreeRTOS/tasks.c:1118-1124 | The nesting depth grows by one |
| Scheduler.Kernel.DrainPending | TCPv3/FreeRTOS/tasks.c:1142-1164 | All pending tasks enter the ready lists of their priorities, in order and as the last, and a yield is due exactly if one of them has at least the priority of the running one |
| Scheduler.Kernel.TakeMissedTicks | TCPv3/FreeRTOS/tasks.c:1168-1177 | The ticks held back are processed in a loop, with the effect of one jump |
| Scheduler.Kernel.ResumeAllTasks | TCPv3/FreeRTOS/tasks.c:1126-1200 | At the last resume pending tasks become ready and missed ticks are made up for; it yields exactly for missed ticks, a missed yield, or a released task of at least the same priority, and then no yield is noted any more; at a nested one nothing else changes |
| Scheduler.Kernel.FindTopReady | TCPv3/FreeRTOS/tasks.c:1616-1621 | The search comes down to the highest list that has a task |
| Scheduler.Kernel.SwitchContext | TCPv3/FreeRTOS/tasks.c:1581-1628 | The next task in turn among those of the highest ready priority runs; while suspended a switch is only noted |
| Scheduler.Kernel.SetTimeOutState | TCPv3/FreeRTOS/tasks.c:1765-1771 | The stamp of the present time |
| Scheduler.Kernel.CheckTimeOut | TCPv3/FreeRTOS/tasks.c:1773-1816 | In unbounded time: expired exactly if the wait is over, unless hidden by wraps; otherwise what is left, and a new stamp; portMAX_DELAY never expires |
| Scheduler.Kernel.RunOp | TCPv3/FreeRTOS/tasks.c:1419-1465 | A call takes exactly the step that it is for, in the abstract system, or none if its caller may not make it; a switch runs the next in turn; all calls but vTaskPrioritySet, vTaskPriorityInherit and the restricted wait leave event lists that are in order so |
| Scheduler.Kernel.RunAll | TCPv3/FreeRTOS/tasks.c:1419-1465 | Any sequence of calls takes the steps of those calls, keeps all invariants and the order of turns, runs the next in turn at every switch, shows every tick delivered in the clock, its overflow counter and the missed ticks, wakes every task that is spared on time, and keeps every event list that is not disturbed in order of priority |
| QueueStorage.Queue.constructor | TCPv3/FreeRTOS/queue.c:264-305 | A new queue is empty, its read slot the last one |
| QueueStorage.Queue.CopyDataToQueue | TCPv3/FreeRTOS/queue.c:1152-1186 | Appends to, or puts in front of, the items; on bytes in the ring |
| QueueStorage.Queue.CopyDataFromQueue | TCPv3/FreeRTOS/queue.c:1190-1201 | Copies out the first item and moves the read slot onto it |
| QueueStorage.Queue.Send | TCPv3/FreeRTOS/queue.c:511-523 | Full queues refuse, others append or prepend; the number of items stays within the length |
| QueueStorage.Queue.Receive | TCPv3/FreeRTOS/queue.c:893-939 | Takes the first item, or with peeking leaves everything as it was |
| QueueStorage.SlotBehindIsModular | TCPv3/FreeRTOS/queue.c:1165-1201 | The pointer comparisons at the ends of the storage are arithmetic modulo the length |
| QueueStorage.ItemsAppended | TCPv3/FreeRTOS/queue.c:1167-1175 | Filling the slot behind the last item appends to the items and changes no other |
| QueueStorage.ItemsPrepended | TCPv3/FreeRTOS/queue.c:1176-1184 | Filling the read slot and stepping back puts an item in front of the others |
| QueueStorage.ItemsDropped | TCPv3/FreeRTOS/queue.c:1190-1201 | Stepping the read slot forward drops the first item only |
| QueueProtocol.NoLostWakeUps | TCPv3/FreeRTOS/queue.c:498-614 | In every interleaving of sends, receives, peeks and interrupts: while receivers wait, the items are no more than the receivers woken and not yet back plus max(xTxLock, 0), and likewise for senders and free slots |
| QueueProtocol.NobodySleepsBesideAnItem | TCPv3/FreeRTOS/queue.c:880-1025 | When every task is blocked or gone, a blocked receiver means an empty queue and a blocked sender a full one |
| QueueProtocol.ItemsAreConserved | TCPv3/FreeRTOS/queue.c:880-1025 | In every run the items sent are those received and those in the queue, and these are never more than the length |
| QueueProtocol.FirstInFirstOut | TCPv3/FreeRTOS/queue.c:1152-1201 | In every run without sends to the front, items are received in the order in which they were sent |
| QueueProtocol.CallEnds | TCPv3/FreeRTOS/queue.c:498-614 | A call ends exactly at its first critical section, with its item moved or because it may not block, or at the end of a round in which its time was up |
| QueueProtocol.ItemMoves | TCPv3/FreeRTOS/queue.c:511-536 | What that section does to the items: in at the back or in front, out from the front, or nothing |
| QueueProtocol.RoundEnds | TCPv3/FreeRTOS/queue.c:567-609 | A round ends the call if its time is up; otherwise the task tries again if there is room, or an item, and else is blocked unless already woken |
| QueueProtocol.RunKeepsInv | TCPv3/FreeRTOS/queue.c:498-614 | Every run keeps who waits, who is woken, who has the scheduler, and both lock counts consistent |
| QueueProtocol.StepKeepsFlow | TCPv3/FreeRTOS/queue.c:498-614 | Every single step does |
| QueueProtocol.TrySending | TCPv3/FreeRTOS/queue.c:511-536 | A send that succeeds wakes a receiver for its item, if one waits |
| QueueProtocol.TryReceiving | TCPv3/FreeRTOS/queue.c:893-931 | A receive that succeeds wakes a sender for its slot |
| QueueProtocol.TryPeeking | TCPv3/FreeRTOS/queue.c:932-953 | A peek that was woken passes the wake-up on to the next receiver |
| QueueProtocol.PlaceKeeps | TCPv3/FreeRTOS/queue.c:567-586 | A task that places itself on the event list is covered by the lock count for whatever came in meanwhile |
| QueueProtocol.UnlockTxKeeps | TCPv3/FreeRTOS/queue.c:1211-1237 | The unlock wakes a receiver for each item counted, so nobody who still waits has anything to wait for |
| QueueProtocol.UnlockRxKeeps | TCPv3/FreeRTOS/queue.c:1241-1264 | The same for senders |
| QueueProtocol.SendFromISRKeeps | TCPv3/FreeRTOS/queue.c:823-872 | A send from an interrupt wakes a receiver or is counted by the lock |
| QueueProtocol.ReceiveFromISRKeeps | TCPv3/FreeRTOS/queue.c:1030-1082 | A receive from an interrupt wakes a sender or is counted by the lock |
| QueueCalls.BlockingQueue.constructor | TCPv3/FreeRTOS/queue.c:264-305 | A new queue, on the storage and on two empty event lists of the scheduler, is in the first state of the protocol |
| QueueCalls.BlockingQueue.TrySend | TCPv3/FreeRTOS/queue.c:511-536 | The first critical section: it succeeds exactly if there is room, and then the item is behind the others, or in front; bytes, event lists, lock counts and scheduler change as the step of the protocol says, and a receiver woken is ready or pending |
| QueueCalls.BlockingQueue.TryReceive | TCPv3/FreeRTOS/queue.c:893-955 | The same for a receive, which takes the oldest item, and a peek, which leaves it |
| QueueCalls.BlockingQueue.SendFromISR | TCPv3/FreeRTOS/queue.c:823-872 | The same from an interrupt: store, and wake a receiver in the scheduler or count |
| QueueCalls.BlockingQueue.ReceiveFromISR | TCPv3/FreeRTOS/queue.c:1030-1082 | The same for a receive from an interrupt |
| QueueCalls.BlockingQueue.SuspendAll | TCPv3/FreeRTOS/queue.c:567 | The scheduler is suspended by the one user that goes on |
| QueueCalls.BlockingQueue.LockQueue | TCPv3/FreeRTOS/queue.c:244-256 | A lock that is already counting is left as it is |
| QueueCalls.BlockingQueue.CheckAgain | TCPv3/FreeRTOS/queue.c:570-574 | On the clock of the scheduler: the task blocks exactly if its time is not up, in unbounded time, and the storage is full, or empty, still; and then with what is left |
| QueueCalls.BlockingQueue.PlaceOnEventList | TCPv3/FreeRTOS/queue.c:577 | The task enters the event list of the scheduler behind all of its event value or a smaller one, and is blocked there for what is left |
| QueueCalls.BlockingQueue.UnlockAfterSends | TCPv3/FreeRTOS/queue.c:1211-1237 | The loop wakes min(max(xTxLock, 0), number of waiting receivers) receivers in the scheduler, from the head of their event list on, notes a yield exactly if one of them has at least the running priority, and unlocks |
| QueueCalls.BlockingQueue.UnlockAfterReceives | TCPv3/FreeRTOS/queue.c:1241-1264 | The same for senders |
| QueueCalls.BlockingQueue.ResumeAll | TCPv3/FreeRTOS/queue.c:591-594 | The scheduler resumes, and yields exactly for missed ticks, a yield noted, or a pending task of at least the running priority; a call whose time was up has ended, and otherwise the task is blocked exactly if it is on the event list still; tasks that the ticks held back time out leave the event lists one by one |
| QueueCalls.BlockingQueue.UnlockQueue | TCPv3/FreeRTOS/queue.c:1204-1266 | prvUnlockQueue: receivers and senders for what was counted become pending in the scheduler, and a yield is noted exactly if one of them has at least the running priority |
| QueueRuns.PendingAfterwards | TCPv3/FreeRTOS/queue.c:1211-1264 | The pending list then holds a task of at least the running priority exactly if it did before or one of those woken is |
| QueueCalls.BlockingQueue.Tick | TCPv3/FreeRTOS/tasks.c:1419-1468 | A tick times out the tasks that are due and takes them off the event lists, but none while the scheduler is suspended |
| QueueCalls.BlockingQueue.GoIn | TCPv3/FreeRTOS/queue.c:567-577 | The whole way from the failed attempt to the event list: the check of the time is exact, the task blocks exactly if time is left and the storage is full, or empty, still, and the scheduler takes the steps for that |
| QueueCalls.BlockingQueue.GoOut | TCPv3/FreeRTOS/queue.c:583-594 | The whole way from there through prvUnlockQueue to xTaskResumeAll: who is woken, and that it yields exactly for what asked for a yield before or for one of those woken |
| QueueCalls.BlockingQueue.GoRound | TCPv3/FreeRTOS/queue.c:567-609 | A whole round, on the clock and lists of the scheduler: time up ends the call, room or an item makes it try again, and otherwise the task is blocked unless woken on the way |
| QueueCalls.BlockingQueue.NobodyIsForgotten | TCPv3/FreeRTOS/queue.c:498-614 | At all times, on the event lists of the scheduler and the bytes of the storage: no lost wake-up, and no lost item |
| QueueCalls.BlockingQueue.EverybodyIsAccountedFor | TCPv3/FreeRTOS/queue.c:498-614 | Whoever is in the middle of a call is in the ready list of its priority, or pending, or on an event list of the queue; and a woken task is on none of these |
| QueueCalls.BlockingQueue.Switch | TCPv3/FreeRTOS/tasks.c:1581-1628 | A switch runs the next in turn, or is noted while the scheduler is suspended, and the queue does not notice |
| QueueCalls.BlockingQueue.GoOn | TCPv3/FreeRTOS/queue.c:498-614 | Whoever runs makes the next step of its call, and queue and scheduler change by just that step |
| QueueCalls.BlockingQueue.RunAll | TCPv3/FreeRTOS/queue.c:498-614 | Any sequence of interrupts, ticks, switches and steps of whoever runs takes the steps of those; at every moment of it no wake-up and no item is lost, every user is ready, pending or on an event list, and without sends to the front items come out in the order in which they went in |
| QueueRuns.RunKeepsOrder | TCPv3/FreeRTOS/queue.c:1152-1201 | First in, first out over every such sequence |
| QueueRuns.NobodyIsForgottenEver | TCPv3/FreeRTOS/queue.c:498-614 | No lost wake-up at any moment of such a sequence |
| QueueRuns.GoingOnMovesOn | TCPv3/FreeRTOS/queue.c:498-614 | The next step of the running task, in plain words: where in its call it is after it |
| QueueProtocol.TimingOut | TCPv3/FreeRTOS/tasks.c:240-268 | Tasks that leave the event lists by time-out are single steps of the protocol, read off the lists that remain |
| QueueProtocol.PhasesAfterTimeOuts | TCPv3/FreeRTOS/tasks.c:240-268 | Exactly the blocked tasks that are on no event list any more try again |
| Mutexes.EveryRun | TCPv3/FreeRTOS/queue.c:899-931 | In every run a mutex is empty exactly while it has a holder, every task has the higher of its own priority and the claims on it, and only holders of a mutex are above their own priority |
| Mutexes.InheritanceLasts | TCPv3/FreeRTOS/queue.c:988-1010 | A task that blocks on a mutex finds a holder, and until that one gives a mutex, whatever happens, it keeps this one and runs at the priority of the blocked task or above |
| Mutexes.HeldMutexIsNotTaken | TCPv3/FreeRTOS/queue.c:899-931 | While the holder gives none, nobody can take the mutex |
| Mutexes.GivingRestoresPriority | TCPv3/FreeRTOS/queue.c:1154-1166 | Giving a mutex brings the holder back to its own priority, changes no other priority and frees the mutex |
| Mutexes.GivingWakes | TCPv3/FreeRTOS/queue.c:522-524 | Giving a mutex makes the waiting task ready, or pending, and takes it off the event list; nobody is put to sleep |
| Mutexes.BlockingSleeps | TCPv3/FreeRTOS/queue.c:988-1018 | Whoever blocks is on the event list of the mutex, asleep for the given ticks or without limit |
| Mutexes.NobodyWaitsForAFreeMutex | TCPv3/FreeRTOS/queue.c:511-536 | In every run in which nobody stops a task just woken: beside a free mutex that somebody waits for, a task that has been woken for it is ready or pending |
| Mutexes.SettingPriorityUnderClaims | TCPv3/FreeRTOS/tasks.c:806-820 | vTaskPrioritySet leaves the priority right if and only if, on a task that is not inheriting, the new one meets the claims on it, and on one that is, it does not exceed the priority inherited |
| Mutexes.PrioritySetBelowAClaim | TCPv3/FreeRTOS/tasks.c:806-820 | A concrete holder that falls below the task that waits for it |
| Mutexes.PrioritySetAboveAClaim | TCPv3/FreeRTOS/tasks.c:806-820 | A concrete holder that is given a higher priority and goes on at the inherited one |
| Mutexes.RunKeepsInv | TCPv3/FreeRTOS/queue.c:899-931 | Every run keeps holders, claims and priorities consistent |
| Mutexes.BlockKeeps | TCPv3/FreeRTOS/queue.c:988-1010 | Blocking raises the holder, and nobody else, to the claim |
| Mutexes.GiveKeeps | TCPv3/FreeRTOS/queue.c:1154-1166 | Giving settles all claims on the holder |
| MutexCalls.MutexQueue.constructor | TCPv3/FreeRTOS/queue.c:326-372 | A new mutex is available and held by nobody |
| MutexCalls.MutexQueue.TryTake | TCPv3/FreeRTOS/queue.c:899-923 | The token is taken exactly if it is there, and the current task recorded |
| MutexCalls.MutexQueue.Block | TCPv3/FreeRTOS/queue.c:988-1018 | On the kernel: the holder inherits, then the current task leaves its ready list and is on the event list, by its event value, for the given ticks or without limit |
| MutexCalls.MutexQueue.WaitAgain | TCPv3/FreeRTOS/queue.c:970-1018 | The check for a time-out is exact in unbounded time, and the task blocks exactly if the wait is not over and the mutex is empty still, for what is left, which is some |
| MutexCalls.MutexQueue.Give | TCPv3/FreeRTOS/queue.c:511-536 | On the kernel: the holder gets its own priority back, and if anybody waits the first one leaves the event list and is in the ready list of its priority, or pending |
| TimerPlacement.ProcessedAtOnce | TCPv3/FreeRTOS/timers.c:452-490 | For all times, a timer is processed at once exactly if its period fits into the time since the command, modulo M |
| TimerPlacement.PlacementIsExact | TCPv3/FreeRTOS/timers.c:452-490 | For a command less than M ticks old: at once if and only if the expiry time has come, otherwise in the list of the epoch in which it will come |
| TimerPlacement.OldCommandIsMisjudged | TCPv3/FreeRTOS/timers.c:456-462 | A concrete command older than M ticks that is filed although its timer has expired |
| TimerPlacement.FutureCommandIsMisjudged | TCPv3/FreeRTOS/timers.c:475-481 | A concrete command from after the time sampled that is processed at once although its timer has not expired |
| TimerPlacement.WhenProcessingAtOnceIsRight | TCPv3/FreeRTOS/timers.c:452-490 | Without that assumption: exactly when the decision is right, for older commands and for commands from the future |
| TimerTables.ChainClosedForm | TCPv3/FreeRTOS/timers.c:294-328 | Expiry times that follow each other by a period are start + k * period |
| TimerTables.StepsThatFit | TCPv3/FreeRTOS/timers.c:294-328 | A timer called for every expiry time up to now has been called (now - start) / period times |
| TimerTables.StepsToTheEnd | TCPv3/FreeRTOS/timers.c:574-612 | Up to the end of an epoch that is ceil((M - value) / period) times |
| TimerTables.SwitchingDone | TCPv3/FreeRTOS/timers.c:566-621 | After the loop of the switch: the count for each auto-reload timer, with a command, once for each one-shot timer, and nothing for all others |
| TimerTables.EverybodyIsOnSchedule | TCPv3/FreeRTOS/timers.c:354-400 | When the service has nothing to do, every timer started has been called as often as its period fits into the time since its start, a one-shot timer if its time has come |
| TimerTables.WaitIsShortEnough | TCPv3/FreeRTOS/timers.c:354-400 | No timer is due before the wait that the service asks for is over |
| TimerTables.WaitMeans | TCPv3/FreeRTOS/timers.c:370-386 | The wait reaches to the first expiry time or to the end of the epoch, and is zero only when the tick count is |
| TimerTables.WaitIsExact | TCPv3/FreeRTOS/timers.c:370-386 | The wait ends at the first time for which a timer started is to be called in this epoch, and without any when the tick count is 0 |
| TimerTables.TimersAreEnough | TCPv3/FreeRTOS/timers.c:305-318 | Commands and timers in the current list together are no more than there are timers |
| TimerTables.FewTimersNeverHalt | TCPv3/FreeRTOS/timers.c:294-328 | With no more timers than the queue is long, no command is ever refused, and so no assertion halts |
| TimerTables.SixTimersAreSound | TCPv3/FreeRTOS/timers.c:574-612 | A state with six timers that all expire before the clock runs over, and a queue of five places |
| TimerTables.InTouchIsPrompt | TCPv3/FreeRTOS/timers.c:429-448 | Before the deadline no command is M ticks old and no wrap is missed |
| TimerTables.InTouchLater | TCPv3/FreeRTOS/timers.c:330-350 | The rounds of the service do not bring that deadline nearer |
| TimerTables.OnScheduleIsInTouch | TCPv3/FreeRTOS/timers.c:354-400 | Whenever every timer is on schedule the deadline is M ticks less the longest period away |
| TimerTables.LagGoesDown | TCPv3/FreeRTOS/timers.c:294-328 | Every callback brings the lag of all timers together down, and nothing the service does brings it up |
| TimerTables.SampledAgain | TCPv3/FreeRTOS/timers.c:429-448 | Sampled within M ticks, the tick count is smaller than before exactly if the next epoch has begun |
| TimerTables.SwitchedAllYoung | TCPv3/FreeRTOS/timers.c:566-621 | If no expiry time is left for M ticks, no restart command is M ticks old when it is processed |
| TimerService.Service.InsertTimerInActiveList | TCPv3/FreeRTOS/timers.c:452-490 | Files the timer one period after its last expiry time, or reports exactly if that has passed |
| TimerService.Service.ProcessExpiredTimer | TCPv3/FreeRTOS/timers.c:294-328 | Calls the first timer once, for its expiry time, and keeps the auto-reload timer running from that time, not from now; halts in front of the callback exactly if the timer has expired twice and the queue is full |
| TimerService.Service.SwitchTimerLists | TCPv3/FreeRTOS/timers.c:566-621 | Ends; empties the old list; calls each timer as often as it expired in the old epoch, all in the order of the expiry times, and sends one command for each auto-reload timer; halts, behind the callback of the first timer refused, exactly if the commands queued already and these auto-reload timers are more than the queue is long |
| TimerService.Service.CatchUpHead | TCPv3/FreeRTOS/timers.c:574-612 | One round: one callback, and the timer is nearer to the end of the epoch or out of the list, with a command; halts exactly if that command finds the queue full |
| TimerService.Service.SampleTimeNow | TCPv3/FreeRTOS/timers.c:429-448 | Switches the lists exactly when a new epoch has begun, and halts exactly when the switch does |
| TimerService.Service.ProcessCommand | TCPv3/FreeRTOS/timers.c:509-541 | A start command files its timer, or calls it and sends the command for the next time, so that the backlog shrinks |
| TimerService.Service.DrainCommands | TCPv3/FreeRTOS/timers.c:504-563 | The loop ends with an empty queue, and every timer that had a command has been called for all that has expired, and no more |
| TimerService.Service.ProcessReceivedCommands | TCPv3/FreeRTOS/timers.c:493-564 | With the lists switched first if a new epoch has begun, or halted there: the queue is emptied, and exactly the timers that had a command, or were in the list switched, are brought up to date |
| TimerService.Service.GetNextExpireTime | TCPv3/FreeRTOS/timers.c:403-426 | The value of the head, or 0 |
| TimerService.Service.ProcessTimerOrBlockTask | TCPv3/FreeRTOS/timers.c:354-400 | Halts exactly if a command is refused; switches the lists exactly in a new epoch, calls the first timer exactly if it has expired, and otherwise changes nothing but the time sampled; blocks exactly if there is no command then, with every timer started on schedule, for exactly as long as there is to the next expiry time of this epoch or to its end |
| TimerService.Service.Create | TCPv3/FreeRTOS/timers.c:199-240 | A period of 0 halts; a new timer is not active |
| TimerService.Service.Start | TCPv3/FreeRTOS/timers.c:244-279 | The command is accepted exactly if there is room, and carries the start time; refused, it changes nothing |
| TimerService.Service.CallLate | TCPv3/FreeRTOS/timers.c:530-541 | A timer that expired before its command was processed is called, and its next command is always accepted |
| TimerService.Service.SendStart | TCPv3/FreeRTOS/timers.c:244-279 | A command without waiting is accepted exactly if there is room |
| TimerService.Service.SixthTimerHalts | TCPv3/FreeRTOS/timers.c:605-612 | From six timers in the current list and a clock that has run over, the switch halts with five commands in the queue |
| TimerService.Service.Serve | TCPv3/FreeRTOS/timers.c:330-350 | The next of the two calls in the loop, at any reading of the clock before the deadline: the same as that call, and the deadline stays |
| TimerService.Service.RunUntilBlocked | TCPv3/FreeRTOS/timers.c:330-350 | The loop, with starts by users in between, over any readings of the clock before the deadline: act by act what each call says, up to where it blocks or halts; it halts exactly at a refused command and never with five timers or fewer; when it blocks every timer started is on schedule; no timer is lost, and callbacks are those recorded |
| TimerService.Service.CatchUp | TCPv3/FreeRTOS/timers.c:330-350 | However late the service is, its loop comes to block, with every timer started on schedule, or halts at a refused command, which it does not with five timers or fewer |
| TimerTables.RanFollows | TCPv3/FreeRTOS/timers.c:330-350 | Over every such run timers keep period and kind, none that was started is lost, and the callbacks of a timer not started anew are those recorded for it |
| TimerTables.RanAmongFew | TCPv3/FreeRTOS/timers.c:330-350 | No run among five timers or fewer comes to a refused command |
| TimerTables.BeginStarts | TCPv3/FreeRTOS/timers.c:244-279 | A start that is accepted counts from its time and puts one command into the queue |
| TimerTables.WorkGoesDown | TCPv3/FreeRTOS/timers.c:330-350 | While the clock stands every call brings the lag of all timers, or the work left, down |
| TimerTables.EmptiedInAll | TCPv3/FreeRTOS/timers.c:493-564 | The switch of the lists and the loop over the commands together bring exactly those timers up to date |
| TimerTask.ProcessTimerOrBlock | TCPv3/FreeRTOS/timers.c:354-400 | On the scheduler: suspend, decide on its tick count, wait on the event list until exactly then or not, resume; halts exactly if a command is refused, and never with five timers or fewer; a wait of zero ticks is asked for at tick count 0 only |
| TimerService.Service.CallbacksStandForMultiples | TCPv3/FreeRTOS/timers.c:294-328 | In every state, the k-th callback since the start stands for start + k * period, and that time has come |
| IcyStream.CleanInPieces | TCPv3/src/shoutcast.c:258-281 | Cleaning a stream in pieces, from where the piece before left it, is cleaning it as a whole |
| IcyStream.CleanUndoesInterleaving | TCPv3/src/shoutcast.c:525-604 | Round trip: cleaning a stream of audio interleaved with metadata gives the audio |
| IcyDemux.PayloadIsExact | TCPv3/src/shoutcast.c:516-692 | The bytes put for a packet are its audio if and only if no second length byte lies in it and it completes the metadata block it continues |
| IcyDemux.AfterAPacket | TCPv3/src/shoutcast.c:525-604 | Where a packet that fits leaves the stream |
| IcyDemux.DeliveredIsClean | TCPv3/src/shoutcast.c:258-281 | For every way to cut a stream into packets that fit, the bytes put are the clean stream |
| IcyDemux.PacketisationDoesNotMatter | TCPv3/src/shoutcast.c:258-281 | Two such ways put the same bytes |
| IcyDemux.FittingInPieces | TCPv3/src/shoutcast.c:258-281 | Packets fit one after the other exactly if the first ones do, and the others from where those leave the stream |
| IcyDemux.ShortPacketsFit | TCPv3/src/shoutcast.c:258-281 | Packets of at most one metadata interval that complete a cut block fit |
| IcyDemux.ConnectionsMustStartInMode1 | TCPv3/src/shoutcast.c:518-520 | A connection that starts with the mode and the count of the one before puts the clean stream, for every stream in packets that fit, if and only if that mode is MODE1 |
| IcyDemux.ReconnectInsideMetadata | TCPv3/src/shoutcast.c:302-313 | A concrete connection that ends inside metadata, after which the next one waits for ever at its second packet |
| IcyDemux.FollowsThrough | TCPv3/src/shoutcast.c:230-281 | In MODE1 the program is where the stream is, over all packets that fit |
| IcyDemux.TwoLengthBytesSpoilThePacket | TCPv3/src/shoutcast.c:525-604 | A concrete packet with two length bytes, the second of which is put as audio |
| IcyDemux.ShortPacketIsWaitedForInVain | TCPv3/src/shoutcast.c:640-648 | A concrete packet shorter than the rest of a metadata block |
| IcyDemux.Demultiplexer.constructor | TCPv3/src/shoutcast.c:193-200 | The first packet of a connection, entered with the variables that the connection before left |
| IcyDemux.FirstPacketIsMisplaced | TCPv3/src/shoutcast.c:193-200 | The data behind the HTTP header is put rightly, whatever it is, only if there is none: the code takes it from the start of the packet |
| IcyDemux.Demultiplexer.GetMetadata | TCPv3/src/shoutcast.c:516-692 | The four modes: the audio put, the position kept, and the wait that never ends for a packet shorter than the rest of a metadata block |
| IcyDemux.Demultiplexer.Receive | TCPv3/src/shoutcast.c:258-281 | Bytes put and variables afterwards, in whatever mode; where the output was the clean stream, a packet that fits keeps it so, and one that does not fit spoils it or the wait never ends |
| IcyDemux.Demultiplexer.ReceiveAll | TCPv3/src/shoutcast.c:230-281 | Over all packets up to the first that does not fit: the output is the clean stream if and only if all fit; otherwise what that packet put in, or that the wait for it never ends |
| AudioRing.Ring.constructor | TCPv3/src/external_RAM.c:531-534 | The ring starts empty |
| AudioRing.Ring.BufLen | TCPv3/src/external_RAM.c:503-516 | The distance from tail to head around the ring |
| AudioRing.Ring.BufFree | TCPv3/src/external_RAM.c:523-527 | One less than what is left |
| AudioRing.Ring.PutChunk | TCPv3/src/external_RAM.c:222-368 | All four placements write the bytes from the head on, around the ring, and nothing else |
| AudioRing.Ring.BufPut | TCPv3/src/external_RAM.c:206-374 | Appends the image of the data to the contents, which is the data itself up to 8190 bytes |
| AudioRing.Ring.BufGet | TCPv3/src/external_RAM.c:382-496 | All four placements, the split ones included, leave in the buffer what Got says and move the tail |
| AudioRing.Ring.GetAligned | TCPv3/VS1053/vs1053.c:1315-1316 | A get of 32 bytes at a multiple of 32 takes the oldest bytes, in order |
| AudioRing.Ring.Feed | TCPv3/VS1053/vs1053.c:1299-1325 | Bytes come out in the order in which they went in, 32 at a time, as often as wanted or until no more than 32 are left, which are not sent |
| AudioRing.Ring.Reset | TCPv3/src/external_RAM.c:531-534 | The ring is empty again |
| AudioRing.PutsAreRightUpToTwoTransfers | TCPv3/src/external_RAM.c:206-220 | Puts of a given length are right for all data if and only if it is at most 8190: from the third chunk on the source is wrong |
| AudioRing.GetsAreRightUnlessSplit | TCPv3/src/external_RAM.c:405-440 | Gets are right for all memory contents if and only if the bytes lie on one chip |
| AudioRing.AlignedGetsAreNotSplit | TCPv3/VS1053/vs1053.c:1299-1325 | Gets of 32 bytes from multiples of 32 never are on two chips |
| AudioRing.WrittenBehind | TCPv3/src/external_RAM.c:222-368 | Bytes written behind the contents are appended to them |

## Left out

- Scheduler.Kernel.AddToDelayedList: requires that a wait of zero ticks is not placed at tick count 0xFFFFFFFF, and so does Scheduler.Kernel.DelayCurrent; the callers named above meet that.
- Scheduler.Kernel.PriorityDisinherit: requires a holder that is ready, because the code takes it out of a ready list without asking; so mutexes are given by their holders only.
- Scheduler.Kernel.Delete: does not model deleting a task twice or a task that waits for termination, which the code does not guard against.
- Scheduler.Kernel.RemoveFromEventList: claims that nobody waiting has a higher priority only where the list is in order of priority; KernelRuns.StaysByPriority says how long that lasts, and EventLists what disturbs it.
- Mutexes.EveryRun: assumes that mutexes are given by their holders, that no holder is freed, that nobody sets the priority of a task with claims, and that interrupts stay away from mutexes.
- Mutexes.NobodyWaitsForAFreeMutex: assumes, further, that nobody suspends, deletes or delays a task that has been woken for a mutex and has not tried again; such a task takes its wake-up with it.
- QueueProtocol.NoLostWakeUps: assumes that no task is deleted or suspended on its way through a call; a woken task that never comes back takes its wake-up with it.
- QueueCalls.BlockingQueue.RunAll: between the steps of the queue there are interrupts, ticks and switches, and not other calls on the scheduler that would move its users; a step that its caller may not make is left out.
- TimerService.Service.Start: starts timers that are not active only; restarting a running timer, which takes another place in the queue, is not modelled.
- TimerService.Service.ProcessCommand: processes start commands only, and those to stop, change and delete timers are not modelled, nor is the removal from a list that they need.
- TimerService.Service.CallLate: a command is processed in one piece; a user's command that comes in just then could take the place in the queue that it frees.
- TimerTask.ProcessTimerOrBlock: calls an expired timer before the scheduler is resumed, and the code after that, with the same effect on both; the command queue is the one of the service, and is neither locked nor unlocked around the wait.
- TimerService.Service.ProcessReceivedCommands: requires that no command is M ticks old when it is processed, and none stamped after the time sampled; TimerService.Service.RunUntilBlocked meets that.
- IcyDemux.Demultiplexer.Receive: once the counter has run past a length byte nothing more is claimed; the code then reads in front of its packet buffer. Characters of the buffer count as unsigned, as the compiler for this processor takes them.
- AudioRing.Ring.BufPut: requires room, for which the callers wait; a time-out of the mutex or of a DMA transfer drops data, and is not modelled.
- AudioRing.Ring.BufGet: reads up to the length asked for, whether or not so much is there, as the code does; the result is claimed for the bytes that are.
- The number of clock wraps is unbounded in the model, and 32 bits wide in the code; so are the counters of tasks and of nested suspensions.
- The sizes of queue lengths and items in bytes do not overflow, and allocation succeeds.
- Creating tasks before the scheduler starts, starting it, and suspending a task before that.
- The port layer, interrupt masking, context switches and stacks: a switch is a choice of the current task.
- Co-routines, the alternative queue calls, recursive mutexes and counting semaphores made from queues: off here, or the same code again.
- Trace, statistics, registry, names, and hooks: they only observe.
- Title and URL parsing, connecting, the display, and the decoder's registers.
- The reset of the audio buffer when it runs empty, which drops less than 32 bytes, is modelled as a reset only.
