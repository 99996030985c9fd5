/**
  The scheduler of TCPv3/FreeRTOS/tasks.c. The lists are the sequence views of KernelList;
  the fields are the file's own variables, and the ghost fields record unbounded time.
  View() is the abstract state of the system, and every operation is proved to change it
  as the step of TaskStates with the same name does.
 */
module Scheduler {
  import opened Rings
  import opened Ticks
  import opened Filing
  import opened TaskStates
  import opened TaskTables
  import opened EventLists
  import opened ReadyLists
  import opened KernelRuns

  // ----- the kernel

  /** Some tasks have stopped waiting for events, and that is all. */
  ghost predicate EventsOnlyLeft(before: map<TaskId, int>, after: map<TaskId, int>) {
    forall t :: t in after ==> (t in before && after[t] == before[t]) || after[t] == NOWHERE
  }

  /** A list operation on one list leaves the other lists as they were. */
  ghost predicate OthersKept(f: Files, g: Files, list: int, growth: int) {
    && |f.rings| == |g.rings| == LISTS
    && forall i :: 0 <= i < LISTS ==>
      if i == list then |g.rings[i].items| == |f.rings[i].items| + growth else g.rings[i] == f.rings[i]
  }

  /** In the suspended list, and in no event list, not even the pending one. */
  ghost predicate IsOutright(k: Table, t: TaskId) {
    t in k.lists.home && t in k.events.home && k.lists.home[t] == SUSPENDED && k.events.home[t] == NOWHERE
  }

  class Kernel {
    var tcbs: map<TaskId, Tcb>
    var lists: Files
    var events: Files
    var current: TaskId
    var delayed: int
    var overflow: int
    var tickCount: Tick
    var overflows: int
    var nextUnblock: int
    var topReady: nat
    var suspended: nat
    var missedTicks: nat
    var missedYield: bool
    var numberOfTasks: nat
    var tasksDeleted: nat

    ghost var now: nat                 // ticks processed since the start
    ghost var due: map<TaskId, nat>    // for a delayed task, when it is to wake

    ghost function Tab(): Table
      reads `tcbs, `lists, `events, `due, `delayed, `overflow, `tickCount, `overflows, `nextUnblock, `topReady, `now
    {
      Table(tcbs, lists, events, due, delayed, overflow, tickCount, overflows, nextUnblock, topReady, now)
    }

    ghost predicate Tables(exempt: set<TaskId>, earliest: int)
      reads `tcbs, `lists, `events, `due, `delayed, `overflow, `tickCount, `overflows, `nextUnblock, `topReady, `now, `current
    {
      Shape(Tab()) && Sound(Tab(), exempt, earliest) && current in tcbs
    }

    /** No due time of this epoch is earlier, and at the last tick of an epoch none is now either. */
    ghost function Earliest(): int
      reads `tickCount, `now
    {
      if tickCount == MAX_DELAY then now + 1 else now
    }

    /** What holds in every critical section, and while the scheduler is being resumed. */
    ghost predicate Base()
      reads this
    {
      Tables({}, Earliest()) && Counted()
    }

    ghost predicate Counted()
      reads this
    {
      && |lists.rings| == LISTS
      && numberOfTasks == |tcbs| && tasksDeleted == |lists.rings[TERMINATION].items|
    }

    ghost predicate NobodyPending()
      reads this
    {
      forall t :: t in events.home ==> events.home[t] != PENDING
    }

    /** What holds between critical sections. */
    ghost predicate Valid()
      reads this
    {
      Base() && (suspended == 0 ==> missedTicks == 0 && NobodyPending())
    }

    ghost function View(): System
      reads this
      requires Shape(Tab())
    {
      System(now, missedTicks, suspended, States(Tab()))
    }

    lemma TablesMean(exempt: set<TaskId>, earliest: int)
      requires Tables(exempt, earliest)
      ensures Shape(Tab()) && Sound(Tab(), exempt, earliest) && current in tcbs
      ensures |lists.rings| == LISTS && |events.rings| > PENDING
    {
      hide Consistent, Sound;
    }

    lemma TablesFrom(exempt: set<TaskId>, earliest: int)
      requires Shape(Tab()) && Sound(Tab(), exempt, earliest) && current in tcbs
      ensures Tables(exempt, earliest)
    {
      hide Shape, Sound;
    }

    lemma ReadyListsAreThere(k: Table)
      requires Shape(k)
      ensures |k.lists.rings| == LISTS >= MAX_PRIORITIES && Consistent(k.lists)
    {
      hide Consistent;
    }

    // ----- list operations on the items of a task

    /** vListRemove on the generic item. */
    method RemoveGeneric(t: TaskId, ghost exempt: set<TaskId>, ghost earliest: int)
      requires Tables(exempt, earliest) && exempt <= {t} && t in tcbs && lists.home[t] != NOWHERE
      modifies `lists
      ensures lists == Unlink(old(lists), t) && lists.home == old(lists.home)[t := NOWHERE]
      ensures LeftTurns(old(lists), lists, t)
      ensures OthersKept(old(lists), lists, old(lists.home[t]), -1)
      ensures Tables({t}, earliest)
      ensures States(Tab()) == old(States(Tab()))[t := StateIn(Tab(), t)]
    {
      hide Consistent, Sound, Unlink, States, LeftTurns;
      UnlinkIsSound(Tab(), t, exempt, earliest);
      ReadyListsAreThere(Tab());
      UnlinkLeaves(lists, t);
      lists := Unlink(lists, t);
    }

    /** vListRemove on the event item, if it is in a list. */
    method RemoveEvent(t: TaskId, ghost exempt: set<TaskId>, ghost earliest: int)
      requires Tables(exempt, earliest) && exempt <= {t} && t in tcbs
      modifies `events
      ensures events == if old(events.home[t]) == NOWHERE then old(events) else Unlink(old(events), t)
      ensures events.home == old(events.home)[t := NOWHERE]
      ensures Thinned(old(events), events) && SameBut(old(events), events, old(events.home[t]))
      ensures Tables(exempt, earliest)
      ensures States(Tab()) == old(States(Tab()))[t := StateIn(Tab(), t)]
    {
      hide Consistent, Sound, Unlink, Thinned;
      SameIsThinned(events, events);
      if events.home[t] != NOWHERE {
        UnlinkThins(events, t);
        UnlinkEventIsSound(Tab(), t, exempt, earliest);
        events := Unlink(events, t);
      }
    }

    /** prvAddTaskToReadyQueue */
    method AddTaskToReadyQueue(t: TaskId, ghost earliest: int)
      requires Tables({t}, earliest) && t in tcbs && lists.home[t] == NOWHERE && events.home[t] == NOWHERE
      modifies `lists, `topReady
      ensures tcbs[t].priority < LISTS && lists == LinkEnd(old(lists), tcbs[t].priority, t)
      ensures lists.home == old(lists.home)[t := tcbs[t].priority] && OthersKept(old(lists), lists, tcbs[t].priority, 1)
      ensures EnteredTurns(old(lists), lists, t, tcbs[t].priority)
      ensures Tables({}, earliest)
      ensures States(Tab()) == old(States(Tab()))[t := StateIn(Tab(), t)] && StateIn(Tab(), t).place == Ready
    {
      hide Consistent, Sound, LinkEnd, States, EnteredTurns;
      TaskFacts(Tab(), {t}, earliest, t);
      var p := tcbs[t].priority;
      LinkEndIsSound(Tab(), p, t, if p > topReady then p else topReady, earliest);
      ReadyListsAreThere(Tab());
      LinkEndEntersTurns(lists, p, t);
      if p > topReady {
        topReady := p;
      }
      lists := LinkEnd(lists, p, t);
    }

    /** vListInsertEnd into the suspended or the termination list. */
    method PutAway(t: TaskId, list: int, ghost earliest: int)
      requires list == SUSPENDED || list == TERMINATION
      requires Tables({t}, earliest) && t in tcbs && lists.home[t] == NOWHERE
      requires list == TERMINATION ==> events.home[t] == NOWHERE
      modifies `lists
      ensures lists == LinkEnd(old(lists), list, t)
      ensures lists.home == old(lists.home)[t := list] && OthersKept(old(lists), lists, list, 1)
      ensures SameTurns(old(lists), lists)
      ensures Tables({}, earliest)
      ensures States(Tab()) == old(States(Tab()))[t := StateIn(Tab(), t)]
      ensures StateIn(Tab(), t).place == if list == SUSPENDED then Suspended else Deleted
    {
      hide Consistent, Sound, LinkEnd, States, SameTurns, EnteredTurns;
      TaskFacts(Tab(), {t}, earliest, t);
      LinkEndIsSound(Tab(), list, t, topReady, earliest);
      ReadyListsAreThere(Tab());
      LinkEndEntersTurns(lists, list, t);
      lists := LinkEnd(lists, list, t);
    }

    // ----- the tick

    /**
      prvCheckDelayedTasks: readies every task that is due. The cached unblock time decides
      whether the delayed list is looked at at all.
     */
    method CheckDelayedTasks()
      requires Tables({}, now - 1)
      modifies `lists, `events, `topReady, `nextUnblock
      ensures Tables({}, now + 1)
      ensures States(Tab()) == WakeDue(old(States(Tab())), now)
      ensures |lists.rings| == LISTS && lists.rings[TERMINATION] == old(lists.rings[TERMINATION])
      ensures EventsOnlyLeft(old(events.home), events.home) && Thinned(old(events), events) && LongerTurns(old(lists), lists)
    {
      hide Consistent, Tables, Shape, Sound, States, WakeDue, Thinned, LongerTurns, SameTurns;
      SameIsThinned(events, events);
      SameRingsSameTurns(lists, lists);
      TablesMean({}, now - 1);
      if tickCount >= nextUnblock {
        ScanDelayedTasks();
      } else {
        NobodyDueBeforeCache(Tab());
        TablesFrom({}, now + 1);
      }
      TablesMean({}, now + 1);
      NobodyIsDue(Tab());
    }

    /** The loop of prvCheckDelayedTasks, up to the first task that is not due. */
    method ScanDelayedTasks()
      requires Tables({}, now - 1)
      modifies `lists, `events, `topReady, `nextUnblock
      ensures Tables({}, now + 1)
      ensures WakeDue(States(Tab()), now) == WakeDue(old(States(Tab())), now)
      ensures |lists.rings| == LISTS && lists.rings[TERMINATION] == old(lists.rings[TERMINATION])
      ensures EventsOnlyLeft(old(events.home), events.home) && Thinned(old(events), events) && LongerTurns(old(lists), lists)
    {
      hide Consistent, Tables, Shape, Sound, States, WakeDue, Woken, Thinned, LongerTurns, SameTurns, EnteredTurns;
      SameIsThinned(events, events);
      SameRingsSameTurns(lists, lists);
      TablesMean({}, now - 1);
      while true
        invariant Tables({}, now - 1) && Shape(Tab())
        invariant WakeDue(States(Tab()), now) == WakeDue(old(States(Tab())), now)
        invariant |lists.rings| == LISTS && lists.rings[TERMINATION] == old(lists.rings[TERMINATION])
        invariant EventsOnlyLeft(old(events.home), events.home) && Thinned(old(events), events) && LongerTurns(old(lists), lists)
        decreases DelayedCount()
      {
        TablesMean({}, now - 1);
        TaskFacts(Tab(), {}, now - 1, current);
        HeadIsKnown(Tab(), delayed);
        if lists.rings[delayed].items == [] {
          NobodyDueBeforeHead(Tab(), MAX_DELAY);
          nextUnblock := MAX_DELAY;
          break;
        }
        var t := lists.rings[delayed].items[0];
        if tickCount < tcbs[t].wake {
          NobodyDueBeforeHead(Tab(), tcbs[t].wake);
          nextUnblock := tcbs[t].wake;
          break;
        }
        ghost var waiting, turns := events, lists;
        WakeHead(t);
        ThinnedFurther(old(events), waiting, events);
        ReadyIsLonger(turns, waiting, lists, events, tcbs, t);
        LongerFurther(old(lists), turns, lists);
        TablesMean({}, now - 1);
      }
      TablesFrom({}, now + 1);
    }

    ghost function DelayedCount(): nat
      reads this
    {
      if 0 <= delayed < |lists.rings| then |lists.rings[delayed].items| else 0
    }

    /** The body of that loop: the head of the delayed list goes to its ready list. */
    method WakeHead(t: TaskId)
      requires Tables({}, now - 1) && t in tcbs && lists.home[t] == delayed && tickCount >= tcbs[t].wake
      modifies `lists, `events, `topReady
      ensures Tables({}, now - 1)
      ensures WakeDue(States(Tab()), now) == WakeDue(old(States(Tab())), now)
      ensures |lists.rings| == LISTS && lists.rings[TERMINATION] == old(lists.rings[TERMINATION])
      ensures events.home == old(events.home)[t := NOWHERE] && Thinned(old(events), events)
      ensures DelayedCount() < old(DelayedCount())
      ensures MadeReady(old(lists), old(events), lists, events, tcbs, t)
    {
      hide Consistent, Tables, Shape, Sound, States, WakeDue, Unlink, LinkEnd, Thinned, SameBut, EnteredTurns, MovedTurns, LeftTurns;
      TablesMean({}, now - 1);
      ghost var before, turns := States(Tab()), lists;
      ReadyListsAreThere(Tab());
      HeadIsDue(Tab(), t);
      TaskFacts(Tab(), {}, now - 1, t);
      StatesAt(Tab(), t);
      WakeOneFirst(before, t, now);
      RemoveGeneric(t, {}, now - 1);
      ghost var left := lists;
      ghost var s1 := StateIn(Tab(), t);
      RemoveEvent(t, {t}, now - 1);
      ghost var s2 := StateIn(Tab(), t);
      LastUpdateWins(before, t, s1, s2);
      AddTaskToReadyQueue(t, now - 1);
      LeftThenEntered(turns, left, lists, t, tcbs[t].priority);
      MovedFromElsewhere(turns, lists, t, tcbs[t].priority);
      LastUpdateWins(before, t, s2, StateIn(Tab(), t));
    }

    /** The clock runs over and the delayed lists trade places. */
    method RollOver()
      requires Base() && tickCount == MAX_DELAY
      modifies `tickCount, `now, `overflows, `delayed, `overflow, `nextUnblock
      ensures now == old(now) + 1
      ensures Tables({}, now - 1) && States(Tab()) == old(States(Tab()))
    {
      hide Shape, Sound, States;
      RolloverIsSound(Tab());
      // the assertion in the source: the delayed list is empty when the lists trade places
      assert lists.rings[delayed].items == [];
      var head := lists.rings[overflow].items;
      nextUnblock := if head == [] then MAX_DELAY else tcbs[head[0]].wake;
      delayed, overflow := overflow, delayed;
      overflows := overflows + 1;
      tickCount, now := 0, now + 1;
    }

    /** The first half of vTaskIncrementTick: the clock, and the delayed lists when it runs over. */
    method AdvanceClock()
      requires Base()
      modifies `tickCount, `now, `overflows, `delayed, `overflow, `nextUnblock
      ensures now == old(now) + 1
      ensures Tables({}, now - 1) && States(Tab()) == old(States(Tab()))
    {
      hide Shape, Sound, States, HeadWake;
      if tickCount == MAX_DELAY {
        RollOver();
      } else {
        LaterBoundIsSound(Tab(), {}, Earliest(), now);
        TickIsSound(Tab());
        tickCount, now := Wrap(tickCount + 1), now + 1;
      }
    }

    /** vTaskIncrementTick */
    method IncrementTick()
      requires Base()
      modifies `tickCount, `now, `overflows, `delayed, `overflow, `nextUnblock, `lists, `events, `topReady, `missedTicks
      ensures Base()
      ensures View() == TakeTick(old(View()))
      ensures LongerTurns(old(lists), lists)
      ensures EventsOnlyLeft(old(events.home), events.home) && Thinned(old(events), events)
      ensures suspended > 0 ==> events == old(events)
    {
      hide Shape, Sound, States, WakeDue, Thinned, LongerTurns, SameTurns;
      SameIsThinned(events, events);
      SameRingsSameTurns(lists, lists);
      if suspended == 0 {
        AdvanceClock();
        CheckDelayedTasks();
        LaterBoundIsSound(Tab(), {}, now + 1, Earliest());
      } else {
        missedTicks := missedTicks + 1;
      }
    }

    /** The tick interrupt between two critical sections. */
    method Tick()
      requires Valid()
      modifies `tickCount, `now, `overflows, `delayed, `overflow, `nextUnblock, `lists, `events, `topReady, `missedTicks
      ensures Valid() && View() == TakeTick(old(View()))
      ensures LongerTurns(old(lists), lists)
      ensures Thinned(old(events), events) && (suspended > 0 ==> events == old(events))
    {
      hide Consistent, Tables, Shape, Sound, States, WakeDue, Thinned, LongerTurns;
      TablesMean({}, Earliest());
      IncrementTick();
      TablesMean({}, Earliest());
    }

    // ----- taking tasks out of their lists

    /** vListRemove on the generic item, and on the event item if it is in a list too. */
    method TakeOut(t: TaskId)
      requires Tables({}, Earliest()) && t in tcbs && lists.home[t] != NOWHERE
      modifies `lists, `events
      ensures lists.home == old(lists.home)[t := NOWHERE] && events.home == old(events.home)[t := NOWHERE]
      ensures Thinned(old(events), events) && LeftTurns(old(lists), lists, t)
      ensures OthersKept(old(lists), lists, old(lists.home[t]), -1)
      ensures Tables({t}, Earliest())
      ensures t in due && States(Tab()) == old(States(Tab()))[t := StateIn(Tab(), t)]
    {
      hide Consistent, Tables, Shape, Sound, States, Unlink, Thinned, SameBut, LeftTurns;
      TablesMean({}, Earliest());
      TaskFacts(Tab(), {}, Earliest(), t);
      ghost var before := States(Tab());
      RemoveGeneric(t, {}, Earliest());
      ghost var moving := StateIn(Tab(), t);
      RemoveEvent(t, {t}, Earliest());
      LastUpdateWins(before, t, moving, StateIn(Tab(), t));
    }

    // ----- vTaskSuspend, vTaskResume, vTaskDelete

    /** vTaskSuspend */
    method Suspend(t: TaskId)
      requires Valid() && t in tcbs && lists.home[t] != TERMINATION
      modifies `lists, `events
      ensures Valid()
      ensures View() == Perform(old(View()), SuspendStep(t))
      ensures lists.home == old(lists.home)[t := SUSPENDED] && events.home == old(events.home)[t := NOWHERE]
      ensures LeftTurns(old(lists), lists, t)
      ensures Thinned(old(events), events)
    {
      hide Consistent, Tables, Shape, Sound, States, LinkEnd, Thinned, LeftTurns, SameTurns;
      TablesMean({}, Earliest());
      TaskFacts(Tab(), {}, Earliest(), t);
      StatesAt(Tab(), t);
      ghost var before, turns := States(Tab()), lists;
      TakeOut(t);
      ghost var moving, left := StateIn(Tab(), t), lists;
      PutAway(t, SUSPENDED, Earliest());
      LeftThenSame(turns, left, lists, t);
      LastUpdateWins(before, t, moving, StateIn(Tab(), t));
    }

    /** vTaskDelete: the idle task frees the memory later. */
    method Delete(t: TaskId)
      requires Valid() && t in tcbs && lists.home[t] != TERMINATION
      modifies `lists, `events, `tasksDeleted
      ensures Valid()
      ensures View() == Perform(old(View()), DeleteStep(t))
      ensures lists.home == old(lists.home)[t := TERMINATION] && events.home == old(events.home)[t := NOWHERE]
      ensures LeftTurns(old(lists), lists, t)
      ensures Thinned(old(events), events)
    {
      hide Consistent, Tables, Shape, Sound, States, LinkEnd, Thinned, LeftTurns, SameTurns;
      TablesMean({}, Earliest());
      TaskFacts(Tab(), {}, Earliest(), t);
      StatesAt(Tab(), t);
      ghost var before, turns := States(Tab()), lists;
      TakeOut(t);
      ghost var moving, left := StateIn(Tab(), t), lists;
      PutAway(t, TERMINATION, Earliest());
      LeftThenSame(turns, left, lists, t);
      tasksDeleted := tasksDeleted + 1;
      LastUpdateWins(before, t, moving, StateIn(Tab(), t));
    }

    /** xTaskIsTaskSuspended */
    method IsTaskSuspended(t: TaskId) returns (yes: bool)
      requires Valid() && t in tcbs
      ensures t in View().tasks && (yes <==> IsSuspended(View().tasks[t]))
      ensures yes <==> IsOutright(Tab(), t)
    {
      hide Sound, States;
      TaskFacts(Tab(), {}, Earliest(), t);
      StatesAt(Tab(), t);
      yes := false;
      if lists.home[t] == SUSPENDED {
        if events.home[t] != PENDING {
          if events.home[t] == NOWHERE {
            yes := true;
          }
        }
      }
    }

    /** vListRemove and prvAddTaskToReadyQueue for a task that is in no event list. */
    method MoveToReady(t: TaskId)
      requires Tables({}, Earliest()) && t in tcbs && lists.home[t] != NOWHERE && events.home[t] == NOWHERE
      modifies `lists, `topReady
      ensures Tables({}, Earliest())
      ensures lists.home == old(lists.home)[t := tcbs[t].priority] && tcbs[t].priority < MAX_PRIORITIES
      ensures |lists.rings| == |old(lists.rings)| == LISTS
      ensures old(lists.home[t]) >= MAX_PRIORITIES ==> EnteredTurns(old(lists), lists, t, tcbs[t].priority)
      ensures old(lists.home[t]) != TERMINATION ==> lists.rings[TERMINATION] == old(lists.rings[TERMINATION])
      ensures t in due && States(Tab()) == old(States(Tab()))[t := StateIn(Tab(), t)] && StateIn(Tab(), t).place == Ready
    {
      hide Consistent, Tables, Shape, Sound, States, Unlink, LinkEnd, EnteredTurns, MovedTurns, LeftTurns;
      TablesMean({}, Earliest());
      TaskFacts(Tab(), {}, Earliest(), t);
      ghost var before, turns := States(Tab()), lists;
      ReadyListsAreThere(Tab());
      RemoveGeneric(t, {}, Earliest());
      ghost var moving, left := StateIn(Tab(), t), lists;
      AddTaskToReadyQueue(t, Earliest());
      LeftThenEntered(turns, left, lists, t, tcbs[t].priority);
      if turns.home[t] >= MAX_PRIORITIES {
        MovedFromElsewhere(turns, lists, t, tcbs[t].priority);
      }
      LastUpdateWins(before, t, moving, StateIn(Tab(), t));
    }

    /** vTaskResume: nothing happens to the running task, nor to one that is not suspended. */
    method Resume(t: TaskId) returns (yieldRequired: bool)
      requires Valid() && t in tcbs
      modifies `lists, `topReady
      ensures Valid()
      ensures View() == if t == current then old(View()) else Perform(old(View()), ResumeStep(t))
      ensures t in old(View()).tasks
      ensures if t != current && IsOutright(old(Tab()), t) then MadeReady(old(lists), events, lists, events, tcbs, t)
              else lists == old(lists)
      ensures yieldRequired <==> t != current && IsSuspended(old(View()).tasks[t]) && tcbs[t].priority >= tcbs[current].priority
    {
      hide Consistent, Tables, Shape, Sound, States, EnteredTurns;
      TablesMean({}, Earliest());
      TaskFacts(Tab(), {}, Earliest(), t);
      StatesAt(Tab(), t);
      yieldRequired := false;
      if t != current {
        var asleep := IsTaskSuspended(t);
        if asleep {
          yieldRequired := tcbs[t].priority >= tcbs[current].priority;
          MoveToReady(t);
        }
      }
    }

    /** xTaskResumeFromISR: while the scheduler is suspended the task is kept pending. */
    method ResumeFromISR(t: TaskId) returns (yieldRequired: bool)
      requires Valid() && t in tcbs
      modifies `lists, `events, `topReady
      ensures Valid()
      ensures View() == Perform(old(View()), ResumeFromISRStep(t))
      ensures t in old(View()).tasks
      ensures yieldRequired <==>
        suspended == 0 && IsSuspended(old(View()).tasks[t]) && tcbs[t].priority >= tcbs[current].priority
      ensures if IsOutright(old(Tab()), t) && suspended == 0 then MadeReady(old(lists), events, lists, events, tcbs, t)
              else lists == old(lists)
      ensures events.home == if IsOutright(old(Tab()), t) && suspended > 0 then old(events.home)[t := PENDING] else old(events.home)
      ensures SameBut(old(events), events, PENDING)
    {
      hide Consistent, Tables, Shape, Sound, States, LinkEnd, EnteredTurns;
      TablesMean({}, Earliest());
      TaskFacts(Tab(), {}, Earliest(), t);
      StatesAt(Tab(), t);
      yieldRequired := false;
      var asleep := IsTaskSuspended(t);
      if asleep {
        if suspended == 0 {
          yieldRequired := tcbs[t].priority >= tcbs[current].priority;
          MoveToReady(t);
        } else {
          KeepPending(t);
        }
      }
    }

    /** vListInsertEnd of the event item into the pending list. */
    method KeepPending(t: TaskId)
      requires Tables({}, Earliest()) && t in tcbs && events.home[t] == NOWHERE
      requires lists.home[t] >= MAX_PRIORITIES && lists.home[t] != TERMINATION
      modifies `events
      ensures Tables({}, Earliest())
      ensures events.home == old(events.home)[t := PENDING] && SameBut(old(events), events, PENDING)
      ensures t in due && States(Tab()) == old(States(Tab()))[t := StateIn(Tab(), t)]
    {
      hide Consistent, Sound, States, LinkEnd;
      TaskFacts(Tab(), {}, Earliest(), t);
      LinkEventEndIsSound(Tab(), PENDING, t, {}, Earliest());
      events := LinkEnd(events, PENDING, t);
    }

    // ----- creation, and the idle task's clearing up

    /** The record of a new task, in no list yet. */
    method Register(t: TaskId, tcb: Tcb)
      requires Tables({}, Earliest()) && t !in tcbs && tcb.priority < MAX_PRIORITIES && tcb.basePriority < MAX_PRIORITIES
      modifies `tcbs, `lists, `events, `due
      ensures Tables({t}, Earliest())
      ensures tcbs == old(tcbs)[t := tcb] && |tcbs| == |old(tcbs)| + 1 && due == old(due)[t := 0]
      ensures lists.rings == old(lists.rings) && lists.home == old(lists.home)[t := NOWHERE] && |lists.rings| == LISTS
      ensures events.home == old(events.home)[t := NOWHERE] && events.rings == old(events.rings)
      ensures t !in old(States(Tab())) && States(Tab()) == old(States(Tab()))[t := StateIn(Tab(), t)]
    {
      hide Shape, Sound, States;
      EnrollIsSound(Tab(), t, tcb, Earliest());
      tcbs := tcbs[t := tcb];
      lists := Enroll(lists, t);
      events := Enroll(events, t);
      due := due[t := 0];
    }

    /** The critical section of xTaskGenericCreate. */
    method Create(t: TaskId, priority: nat)
      requires Valid() && t !in tcbs && priority < MAX_PRIORITIES
      modifies `tcbs, `lists, `events, `due, `topReady, `numberOfTasks
      ensures Valid()
      ensures View() == Perform(old(View()), CreateStep(t, priority))
      ensures lists.home == old(lists.home)[t := priority] && events.home == old(events.home)[t := NOWHERE]
      ensures EnteredTurns(old(lists), lists, t, priority)
      ensures tcbs == old(tcbs)[t := NewTcb(priority)] && events.rings == old(events.rings)
    {
      hide Consistent, Tables, Shape, Sound, States, LinkEnd, LocatedTask, Consistent, WakeDue, ReleasePending, PerformOn,
           ResumeAll, TakeTick, EnteredTurns;
      TablesMean({}, Earliest());
      ghost var before, turns := States(Tab()), lists;
      numberOfTasks := numberOfTasks + 1;
      Register(t, NewTcb(priority));
      ghost var entering, registered := StateIn(Tab(), t), lists;
      AddTaskToReadyQueue(t, Earliest());
      LastUpdateWins(before, t, entering, StateIn(Tab(), t));
      EnteredFromSameRings(turns, registered, lists, t, priority);
    }

    /** prvCheckTasksWaitingTermination, which only the idle task calls. */
    method CheckTasksWaitingTermination() returns (ghost reaped: seq<TaskId>)
      requires Valid() && lists.home[current] < MAX_PRIORITIES
      modifies `tcbs, `lists, `events, `due, `numberOfTasks, `tasksDeleted
      ensures Valid() && old(tasksDeleted) == |old(InList(lists, TERMINATION))| && events.rings == old(events.rings)
      ensures reaped == if old(tasksDeleted) == 0 then [] else [old(InList(lists, TERMINATION))[0]]
      ensures SameTurns(old(lists), lists)
      ensures if reaped == [] then View() == old(View()) && tcbs == old(tcbs)
              else View() == Perform(old(View()), ReapStep(reaped[0])) && tcbs == old(tcbs) - {reaped[0]}
                   && IsIn(old(events), NOWHERE, reaped[0])
    {
      hide Consistent, Sound, States, Unlink, SameTurns, LongerTurns;
      SameRingsSameTurns(lists, lists);
      reaped := [];
      if tasksDeleted > 0 {
        if lists.rings[TERMINATION].items != [] {
          var t := lists.rings[TERMINATION].items[0];
          RingInHome(lists, TERMINATION);
          reaped := [t];
          Reap(t);
        }
      }
    }

    /** The record of a task is freed. */
    method Free(t: TaskId)
      requires Tables({t}, Earliest()) && t in tcbs && lists.home[t] == NOWHERE && events.home[t] == NOWHERE && current != t
      modifies `tcbs, `lists, `events, `due
      ensures Tables({}, Earliest())
      ensures |tcbs| == |old(tcbs)| - 1 && lists.rings == old(lists.rings)
      ensures States(Tab()) == old(States(Tab())) - {t}
      ensures events.home == old(events.home) - {t} && events.rings == old(events.rings) && tcbs == old(tcbs) - {t}
    {
      hide Shape, Sound, States, StateIn;
      TaskFacts(Tab(), {t}, Earliest(), t);
      DischargeIsSound(Tab(), t, Earliest());
      lists := Discharge(lists, t);
      events := Discharge(events, t);
      tcbs := tcbs - {t};
      due := due - {t};
    }

    method Reap(t: TaskId)
      requires Valid() && lists.home[current] < MAX_PRIORITIES
      requires t in tcbs && lists.home[t] == TERMINATION && tasksDeleted > 0
      modifies `tcbs, `lists, `events, `due, `numberOfTasks, `tasksDeleted
      ensures Valid()
      ensures View() == Perform(old(View()), ReapStep(t))
      ensures SameTurns(old(lists), lists)
      ensures tcbs == old(tcbs) - {t} && events.rings == old(events.rings) && IsIn(old(events), NOWHERE, t)
    {
      hide Consistent, Tables, Shape, Sound, States, Unlink, LocatedTask, PlaceOf, WakeDue, TakeTick, ResumeAll, LeftTurns, SameTurns;
      TablesMean({}, Earliest());
      NoEventWhenDeleted(Tab(), Earliest(), t);
      StatesAt(Tab(), t);
      ghost var before, turns := States(Tab()), lists;
      ReadyListsAreThere(Tab());
      RemoveGeneric(t, {}, Earliest());
      LeftFromElsewhere(turns, lists, t);
      ghost var left := lists;
      numberOfTasks := numberOfTasks - 1;
      tasksDeleted := tasksDeleted - 1;
      UpdateThenRemove(before, t, StateIn(Tab(), t));
      Free(t);
      SameThroughSameRings(turns, left, lists);
    }

    // ----- blocking

    /** listSET_LIST_ITEM_VALUE on the generic item of a task on the move. */
    method SetWakeTime(t: TaskId, timeToWake: Tick)
      requires Tables({t}, Earliest()) && t in tcbs && lists.home[t] == NOWHERE
      modifies `tcbs, `due
      ensures Tables({t}, Earliest())
      ensures tcbs == old(tcbs)[t := old(tcbs[t]).(wake := timeToWake)]
      ensures due == old(due)[t := now + TicksUntil(tickCount, timeToWake)]
      ensures t in lists.home && t in events.home && States(Tab()) == old(States(Tab()))[t := StateIn(Tab(), t)]
    {
      hide Shape, Sound, States, TicksUntil;
      TaskFacts(Tab(), {t}, Earliest(), t);
      AsleepIsSound(Tab(), t, TicksUntil(tickCount, timeToWake), Earliest());
      due := due[t := now + TicksUntil(tickCount, timeToWake)];
      tcbs := tcbs[t := tcbs[t].(wake := timeToWake)];
    }

    /** vListInsert into the delayed list of the epoch in which the task wakes. */
    method InsertAsleep(t: TaskId, ghost ticks: Tick)
      requires Tables({t}, Earliest()) && t in tcbs && lists.home[t] == NOWHERE
      requires t in due && tcbs[t].wake == Wrap(tickCount + ticks) && due[t] == now + ticks >= Earliest()
      modifies `lists, `nextUnblock
      ensures Tables({}, Earliest())
      ensures |lists.rings| == LISTS && lists.rings[TERMINATION] == old(lists.rings[TERMINATION])
      ensures SameTurns(old(lists), lists)
      ensures lists.home == old(lists.home)[t := if tcbs[t].wake < tickCount then overflow else delayed]
      ensures t in events.home && States(Tab()) == old(States(Tab()))[t := StateIn(Tab(), t)]
      ensures StateIn(Tab(), t).place == Blocked(now + ticks)
    {
      hide Shape, Sound, States, LinkAt, Wrap, Wakes, InsertPosition, StateIn, SameTurns;
      var wake := tcbs[t].wake;
      TaskFacts(Tab(), {t}, Earliest(), t);
      SleepFacts(Tab(), t, wake, {t}, Earliest());
      var list := if wake < tickCount then overflow else delayed;
      var cache := if list == delayed && wake < nextUnblock then wake else nextUnblock;
      InsertAsleepIsSound(Tab(), t, ticks, cache, Earliest());
      var items := lists.rings[list].items;
      ReadyListsAreThere(Tab());
      LinkAtKeepsTurns(lists, list, InsertPosition(Wakes(items, tcbs), wake), t);
      lists := LinkAt(lists, list, InsertPosition(Wakes(items, tcbs), wake), t);
      nextUnblock := cache;
    }

    /** prvAddCurrentTaskToDelayedList */
    method AddToDelayedList(t: TaskId, timeToWake: Tick)
      requires Tables({t}, Earliest()) && t in tcbs && lists.home[t] == NOWHERE
      requires timeToWake != tickCount || tickCount != MAX_DELAY
      modifies `lists, `tcbs, `due, `nextUnblock
      ensures Tables({}, Earliest())
      ensures tcbs == old(tcbs)[t := old(tcbs[t]).(wake := timeToWake)]
      ensures |lists.rings| == LISTS && lists.rings[TERMINATION] == old(lists.rings[TERMINATION])
      ensures SameTurns(old(lists), lists) && lists.home == old(lists.home)[t := ListFor(Tab(), timeToWake)]
      ensures t in lists.home && t in events.home && t in due
      ensures States(Tab()) == old(States(Tab()))[t := StateIn(Tab(), t)]
      ensures StateIn(Tab(), t).place == Blocked(now + TicksUntil(tickCount, timeToWake))
    {
      hide Consistent, Tables, Shape, Sound, States, TicksUntil, StateIn, Wrap, SameTurns;
      TablesMean({t}, Earliest());
      TaskFacts(Tab(), {t}, Earliest(), t);
      ghost var before, ticks := States(Tab()), TicksUntil(tickCount, timeToWake);
      LaterTodayTakesTicks(tickCount, timeToWake);
      SetWakeTime(t, timeToWake);
      ghost var moving := StateIn(Tab(), t);
      InsertAsleep(t, ticks);
      LastUpdateWins(before, t, moving, StateIn(Tab(), t));
    }

    /** What vTaskDelay and vTaskDelayUntil do while the scheduler is suspended. */
    method DelayCurrent(timeToWake: Tick)
      requires Valid() && lists.home[current] < MAX_PRIORITIES
      requires timeToWake != tickCount || tickCount != MAX_DELAY
      modifies `lists, `tcbs, `due, `nextUnblock
      ensures Valid()
      ensures current in old(tcbs) && tcbs == old(tcbs)[current := old(tcbs[current]).(wake := timeToWake)]
      ensures LeftTurns(old(lists), lists, current) && lists.home == old(lists.home)[current := ListFor(Tab(), timeToWake)]
      ensures View() == Perform(old(View()), DelayStep(current, TicksUntil(tickCount, timeToWake)))
    {
      hide Consistent, Tables, Shape, Sound, States, Unlink, TicksUntil, LeftTurns, SameTurns;
      TablesMean({}, Earliest());
      ReadyMeans(Tab(), Earliest(), current);
      StatesAt(Tab(), current);
      ghost var before, turns := States(Tab()), lists;
      RemoveGeneric(current, {}, Earliest());
      ghost var moving, left := StateIn(Tab(), current), lists;
      AddToDelayedList(current, timeToWake);
      LeftThenSame(turns, left, lists, current);
      LastUpdateWins(before, current, moving, StateIn(Tab(), current));
    }

    /** vListInsert of the event item of the current task into an event list. */
    method EnterEventList(e: nat)
      requires Tables({}, Earliest()) && lists.home[current] < MAX_PRIORITIES && 0 < e < |events.rings|
      modifies `events
      ensures Tables({current}, Earliest())
      ensures current in tcbs && events.home == old(events.home)[current := e]
      ensures EntersInRank(old(events), events, e, current, tcbs)
      ensures current in lists.home && current in due && lists.home[current] >= 0
      ensures States(Tab()) == old(States(Tab()))[current := StateIn(Tab(), current)]
    {
      hide Consistent, Tables, Shape, Sound, States, LinkAt, EventValues, InsertPosition;
      TablesMean({}, Earliest());
      ReadyMeans(Tab(), Earliest(), current);
      EventListFacts(Tab(), e, current);
      ExemptIsSound(Tab(), current, Earliest());
      var items := events.rings[e].items;
      var pos := InsertPosition(EventValues(items, tcbs), tcbs[current].eventValue);
      LinkEventIsSound(Tab(), e, pos, current, Earliest());
      LinkAtEnters(events, e, pos, current);
      events := LinkAt(events, e, pos, current);
      TablesFrom({current}, Earliest());
    }

    /** The second half of vTaskPlaceOnEventList: the generic item moves to where the wait is timed. */
    method SleepForEvent(ticksToWait: Tick, endless: bool)
      requires Tables({current}, Earliest()) && current in tcbs
      requires current in lists.home && 0 <= lists.home[current] < MAX_PRIORITIES && current in events.home && current in due
      requires ticksToWait > 0 || tickCount != MAX_DELAY
      modifies `lists, `tcbs, `due, `nextUnblock
      ensures Tables({}, Earliest())
      ensures current in tcbs && tcbs == old(tcbs)[current := tcbs[current]]
      ensures tcbs[current].eventValue == old(tcbs[current].eventValue)
      ensures |lists.rings| == |old(lists.rings)| == LISTS && lists.rings[TERMINATION] == old(lists.rings[TERMINATION])
      ensures LeftTurns(old(lists), lists, current)
      ensures lists.home == old(lists.home)[current := if endless then SUSPENDED else ListFor(Tab(), Wrap(tickCount + ticksToWait))]
      ensures !endless ==> tcbs[current].wake == Wrap(tickCount + ticksToWait)
      ensures current in lists.home && current in events.home && current in due
      ensures States(Tab()) == old(States(Tab()))[current := StateIn(Tab(), current)]
      ensures StateIn(Tab(), current) ==
        old(StateIn(Tab(), current)).(place := if endless then Suspended else Blocked(now + ticksToWait))
    {
      hide Consistent, Tables, Shape, Sound, States, Unlink, LinkEnd, TicksUntil, Wrap, LeftTurns, SameTurns;
      TablesMean({current}, Earliest());
      ghost var before, turns := States(Tab()), lists;
      RemoveGeneric(current, {current}, Earliest());
      ghost var moving, left := StateIn(Tab(), current), lists;
      if endless {
        PutAway(current, SUSPENDED, Earliest());
      } else {
        UntilAfter(tickCount, ticksToWait);
        SameTimeTakesNoTicks(tickCount, ticksToWait);
        AddToDelayedList(current, Wrap(tickCount + ticksToWait));
      }
      LeftThenSame(turns, left, lists, current);
      LastUpdateWins(before, current, moving, StateIn(Tab(), current));
    }

    /** vTaskPlaceOnEventList */
    method PlaceOnEventList(e: nat, ticksToWait: Tick)
      requires Valid() && lists.home[current] < MAX_PRIORITIES && 0 < e < |events.rings|
      requires ticksToWait > 0 || tickCount != MAX_DELAY
      modifies `lists, `events, `tcbs, `due, `nextUnblock
      ensures Valid()
      ensures EntersInRank(old(events), events, e, current, old(tcbs))
      ensures LeftTurns(old(lists), lists, current) && events.home == old(events.home)[current := e]
      ensures lists.home ==
        old(lists.home)[current := if ticksToWait == MAX_DELAY then SUSPENDED else ListFor(Tab(), Wrap(tickCount + ticksToWait))]
      ensures current in tcbs && (ticksToWait != MAX_DELAY ==> tcbs[current].wake == Wrap(tickCount + ticksToWait))
      ensures ChangedAt(old(tcbs), tcbs, current)
      ensures View() == Perform(old(View()), BlockStep(current, e, ticksToWait, ticksToWait == MAX_DELAY))
    {
      hide Consistent, Tables, Shape, Sound, States, EntersInRank, LeftTurns, Wrap;
      TablesMean({}, Earliest());
      StatesAt(Tab(), current);
      ReadyMeans(Tab(), Earliest(), current);
      ghost var before := States(Tab());
      EnterEventList(e);
      ghost var waiting := StateIn(Tab(), current);
      SleepForEvent(ticksToWait, ticksToWait == MAX_DELAY);
      LastUpdateWins(before, current, waiting, StateIn(Tab(), current));
    }

    /** vTaskPlaceOnEventListRestricted: the one waiting task goes to the end, and always waits with a time limit. */
    method PlaceOnEventListRestricted(e: nat, ticksToWait: Tick)
      requires Valid() && lists.home[current] < MAX_PRIORITIES && 0 < e < |events.rings|
      requires ticksToWait > 0 || tickCount != MAX_DELAY
      modifies `lists, `events, `tcbs, `due, `nextUnblock
      ensures Valid()
      ensures EntersAtIndex(old(events), events, e, current)
      ensures LeftTurns(old(lists), lists, current) && events.home == old(events.home)[current := e]
      ensures lists.home == old(lists.home)[current := ListFor(Tab(), Wrap(tickCount + ticksToWait))]
      ensures current in tcbs && tcbs[current].wake == Wrap(tickCount + ticksToWait)
      ensures ChangedAt(old(tcbs), tcbs, current)
      ensures View() == Perform(old(View()), BlockStep(current, e, ticksToWait, false))
    {
      hide Consistent, Tables, Shape, Sound, States, EntersAtIndex, LeftTurns, Wrap;
      TablesMean({}, Earliest());
      StatesAt(Tab(), current);
      ReadyMeans(Tab(), Earliest(), current);
      ghost var before := States(Tab());
      EnterEventListEnd(e);
      ghost var waiting := StateIn(Tab(), current);
      SleepForEvent(ticksToWait, false);
      LastUpdateWins(before, current, waiting, StateIn(Tab(), current));
    }

    /** vListInsertEnd of the event item of the current task. */
    method EnterEventListEnd(e: nat)
      requires Tables({}, Earliest()) && lists.home[current] < MAX_PRIORITIES && 0 < e < |events.rings|
      modifies `events
      ensures Tables({current}, Earliest())
      ensures current in tcbs && events.home == old(events.home)[current := e]
      ensures EntersAtIndex(old(events), events, e, current)
      ensures current in lists.home && current in due && lists.home[current] >= 0
      ensures States(Tab()) == old(States(Tab()))[current := StateIn(Tab(), current)]
    {
      hide Consistent, Tables, Shape, Sound, States, LinkEnd, EntersAtIndex;
      TablesMean({}, Earliest());
      ReadyMeans(Tab(), Earliest(), current);
      EventListFacts(Tab(), e, current);
      ExemptIsSound(Tab(), current, Earliest());
      LinkEventEndIsSound(Tab(), e, current, {current}, Earliest());
      LinkEndEnters(events, e, current);
      events := LinkEnd(events, e, current);
      TablesFrom({current}, Earliest());
    }

    /** The tasks in an event list, in order. */
    function WaitingFor(e: nat): seq<TaskId>
      reads `events
    {
      InList(events, e)
    }

    /**
      xTaskRemoveFromEventList: the head of the list, which must exist, becomes ready, or is kept
      pending while the scheduler is suspended. The result tells whether it should run instead.
     */
    method RemoveFromEventList(e: nat) returns (higher: bool, ghost t: TaskId)
      requires Valid() && e > PENDING && WaitingFor(e) != []
      modifies `lists, `events, `topReady
      ensures Valid()
      ensures t == old(WaitingFor(e)[0])
      ensures View() == Perform(old(View()), NotifyStep(t))
      ensures if suspended == 0 then MadeReady(old(lists), old(events), lists, events, tcbs, t)
              else lists == old(lists) && events.home == old(events.home)[t := PENDING]
      ensures HeadHasLeft(old(events), events, e)
      ensures Thinned(old(events), events)
      ensures old(Ranked(events, tcbs, e)) ==> HasBestRank(t, old(WaitingFor(e)), tcbs)
      ensures old(PriorityOrder(events, tcbs, e)) ==> forall u :: u in old(WaitingFor(e)) ==> u in tcbs && tcbs[u].priority <= tcbs[t].priority
      ensures higher <==> t in tcbs && current in tcbs && tcbs[t].priority >= tcbs[current].priority
    {
      hide Consistent, Tables, Shape, Sound, States, Unlink, LinkEnd, Thinned, HasLeft, HeadHasLeft, Ranked, HasBestRank,
           EnteredTurns, PriorityOrder;
      var head := events.rings[e].items[0];
      t := head;
      TablesMean({}, Earliest());
      HeadOfEventList(Tab(), e);
      EventFileIsConsistent(Tab());
      UnlinkHead(events, e);
      ghost var waiting := events;
      HeadHasRank(events, tcbs, e);
      HeadIsOfHighestPriority(events, tcbs, e);
      Notify(head);
      HeadThatLeft(waiting, events, e);
      higher := tcbs[head].priority >= tcbs[current].priority;
    }

    /** The unblocking of one waiting task. */
    method Notify(t: TaskId)
      requires Valid() && t in tcbs && t in events.home && events.home[t] > PENDING
      modifies `lists, `events, `topReady
      ensures Valid()
      ensures View() == Perform(old(View()), NotifyStep(t))
      ensures if suspended == 0 then MadeReady(old(lists), old(events), lists, events, tcbs, t)
              else lists == old(lists) && events.home == old(events.home)[t := PENDING]
      ensures HasLeft(old(events), events, t)
    {
      hide Consistent, Tables, Shape, Sound, States, Unlink, LinkEnd, Thinned, HasLeft, SameBut, EnteredTurns;
      TablesMean({}, Earliest());
      WaitingMeans(Tab(), Earliest(), t);
      StatesAt(Tab(), t);
      ghost var before := States(Tab());
      ghost var waiting := events;
      EventFileIsConsistent(Tab());
      RemoveEvent(t, {}, Earliest());
      ghost var removed := events;
      NothingChanges(events);
      ghost var leaving := StateIn(Tab(), t);
      if suspended == 0 {
        MoveToReady(t);
      } else {
        KeepPending(t);
      }
      LeftThenPending(waiting, removed, events, t);
      LastUpdateWins(before, t, leaving, StateIn(Tab(), t));
    }

    // ----- vTaskSuspendAll and xTaskResumeAll

    /** vTaskSuspendAll */
    method SuspendAllTasks()
      requires Valid()
      modifies `suspended
      ensures Valid()
      ensures View() == Perform(old(View()), SuspendAllStep) && suspended == old(suspended) + 1
    {
      hide Consistent, Tables, Shape, Sound, States;
      TablesMean({}, Earliest());
      suspended := suspended + 1;
    }

    /** vTaskMissedYield */
    method MissYield()
      requires Valid()
      modifies `missedYield
      ensures Valid() && View() == old(View()) && missedYield
    {
      hide Consistent, Tables, Shape, Sound, States;
      TablesMean({}, Earliest());
      missedYield := true;
    }

    /** The first loop of xTaskResumeAll: every pending task goes to its ready list. */
    method DrainPending() returns (yieldRequired: bool)
      requires Base()
      modifies `lists, `events, `topReady
      ensures Base() && NobodyPending()
      ensures States(Tab()) == ReleasePending(old(States(Tab())))
      ensures AllEntered(old(lists), lists, old(WaitingFor(PENDING)), tcbs)
      ensures AllReady(old(WaitingFor(PENDING)), tcbs, lists, events)
      ensures SameBut(old(events), events, PENDING) && |old(events.rings)| > PENDING
      ensures yieldRequired <==> SomeoneOutranks(old(WaitingFor(PENDING)), tcbs, current)
    {
      hide Consistent, Tables, Shape, Sound, States, ReleasePending, Unlink, LinkEnd, AllEntered, EnteredTurns, AllReady;
      TablesMean({}, Earliest());
      yieldRequired := false;
      PendingListFacts(Tab());
      ghost var pending := events.rings[PENDING].items;
      ghost var n := 0;
      NobodyEntered(lists, tcbs);
      NobodyReady(tcbs, lists, events);
      while events.rings[PENDING].items != []
        invariant Base() && Shape(Tab()) && |events.rings| > PENDING
        invariant n <= |pending| && events.rings[PENDING].items == pending[n..]
        invariant yieldRequired <==> SomeoneOutranks(pending[..n], tcbs, current)
        invariant AllEntered(old(lists), lists, pending[..n], tcbs) && AllReady(pending[..n], tcbs, lists, events)
        invariant SameBut(old(events), events, PENDING)
        invariant ReleasePending(States(Tab())) == ReleasePending(old(States(Tab())))
        decreases PendingCount()
      {
        var t := events.rings[PENDING].items[0];
        TablesMean({}, Earliest());
        PendingListFacts(Tab());
        OneMoreOutranks(pending, n, tcbs, current);
        ghost var turns, waiting := lists, events;
        ReleaseHead(t);
        OneMoreEntered(old(lists), turns, lists, pending, n, tcbs);
        OneMoreReady(pending, n, tcbs, turns, waiting, lists, events);
        TablesMean({}, Earliest());
        PendingListFacts(Tab());
        if tcbs[t].priority >= tcbs[current].priority {
          yieldRequired := true;
        }
        n := n + 1;
      }
      assert pending[..n] == pending;
      TablesMean({}, Earliest());
      PendingListFacts(Tab());
      NobodyToRelease(Tab());
    }

    lemma SomeTaskExists()
      requires Base()
      ensures numberOfTasks > 0
    {
      assert tcbs != map[];
    }

    ghost function PendingCount(): nat
      reads `events
    {
      if |events.rings| > PENDING then |events.rings[PENDING].items| else 0
    }

    method ReleaseHead(t: TaskId)
      requires Base() && WaitingFor(PENDING) != [] && t == WaitingFor(PENDING)[0]
      requires t in tcbs && t in events.home && events.home[t] == PENDING
      modifies `lists, `events, `topReady
      ensures Base() && PendingCount() < old(PendingCount())
      ensures SameBut(old(events), events, PENDING) && WaitingFor(PENDING) == old(WaitingFor(PENDING))[1..]
      ensures MadeReady(old(lists), old(events), lists, events, tcbs, t)
      ensures ReleasePending(States(Tab())) == ReleasePending(old(States(Tab())))
    {
      hide Consistent, Tables, Shape, Sound, States, ReleasePending, Unlink, LinkEnd, Thinned, EnteredTurns;
      TablesMean({}, Earliest());
      WaitingMeans(Tab(), Earliest(), t);
      StatesAt(Tab(), t);
      EventFileIsConsistent(Tab());
      UnlinkShrinks(events, t);
      UnlinkHead(events, PENDING);
      ghost var before := States(Tab());
      ReleaseOneFirst(before, t);
      RemoveEvent(t, {}, Earliest());
      ghost var leaving := StateIn(Tab(), t);
      MoveToReady(t);
      LastUpdateWins(before, t, leaving, StateIn(Tab(), t));
    }

    /** The second loop of xTaskResumeAll: the ticks that were held back are processed one by one. */
    method TakeMissedTicks()
      requires Base() && NobodyPending() && suspended == 0
      modifies `tickCount, `now, `overflows, `delayed, `overflow, `nextUnblock, `lists, `events, `topReady, `missedTicks
      ensures Base() && NobodyPending() && missedTicks == 0
      ensures Thinned(old(events), events) && LongerTurns(old(lists), lists)
      ensures View() == TakeTicks(old(View()).(missed := 0), old(missedTicks))
    {
      hide Consistent, Tables, Shape, Sound, States, WakeDue, Woken, Thinned, LongerTurns, SameTurns;
      SameIsThinned(events, events);
      SameRingsSameTurns(lists, lists);
      TablesMean({}, Earliest());
      ghost var start, k := View().(missed := 0), 0;
      while missedTicks > 0
        invariant Base() && NobodyPending() && Shape(Tab()) && suspended == 0
        invariant k + missedTicks == old(missedTicks) && Thinned(old(events), events) && LongerTurns(old(lists), lists)
        invariant View().(missed := 0) == TakeTicks(start, k)
      {
        TakenOneMore(start, k);
        ghost var before, waiting, turns := View(), events, lists;
        TickIgnoresMissed(before);
        IncrementTick();
        ThinnedFurther(old(events), waiting, events);
        LongerFurther(old(lists), turns, lists);
        missedTicks := missedTicks - 1;
        k := k + 1;
        TablesMean({}, Earliest());
      }
    }

    /** xTaskResumeAll; the result tells whether it has requested a context switch itself. */
    method ResumeAllTasks() returns (alreadyYielded: bool)
      requires Valid() && suspended > 0
      modifies `suspended, `missedYield, `tickCount, `now, `overflows, `delayed, `overflow, `nextUnblock,
               `lists, `events, `topReady, `missedTicks
      ensures Valid()
      ensures View() == Perform(old(View()), ResumeAllStep)
      ensures Thinned(old(events), events) && suspended == old(suspended) - 1
      ensures alreadyYielded <==>
        suspended == 0 && (old(missedTicks) > 0 || old(missedYield) || SomeoneOutranks(old(WaitingFor(PENDING)), tcbs, current))
      ensures missedYield == (suspended > 0 && old(missedYield))
      ensures if suspended == 0 then EnteredAndMore(old(lists), lists, old(WaitingFor(PENDING)), tcbs)
              else lists == old(lists) && events == old(events)
    {
      hide Consistent, Tables, Shape, Sound, States, WakeDue, ReleasePending, Thinned, SameBut, SomeoneOutranks, PerformOn,
           InList, LongerTurns, SameTurns, AllEntered, AllReady, EnteredAndMore;
      SameIsThinned(events, events);
      ghost var waiting, turns := events, lists;
      TablesMean({}, Earliest());
      alreadyYielded := false;
      suspended := suspended - 1;
      if suspended == 0 {
        SomeTaskExists();
        if numberOfTasks > 0 {
          var yieldRequired := DrainPending();
          SameIsThinned(waiting, events);
          ghost var drained, released := events, lists;
          SameRingsSameTurns(lists, lists);
          TablesMean({}, Earliest());
          if missedTicks > 0 {
            TakeMissedTicks();
            ThinnedFurther(waiting, drained, events);
            yieldRequired := true;
          }
          AndMore(turns, released, lists, InList(waiting, PENDING), tcbs);
          if yieldRequired || missedYield {
            alreadyYielded := true;
            missedYield := false;
          }
        }
      }
    }

    // ----- priorities

    /** New priorities for a task; the task then is on the move, unless it may stay where it is. */
    method SetPriorities(t: TaskId, priority: nat, basePriority: nat, eventValue: nat,
                         ghost exempt: set<TaskId>, ghost exempt': set<TaskId>)
      requires Tables(exempt, Earliest()) && exempt <= {t} && t in tcbs
      requires priority < MAX_PRIORITIES && basePriority < MAX_PRIORITIES
      requires t in lists.home && t in events.home && t in due
      requires t in exempt' || lists.home[t] == NOWHERE || priority == tcbs[t].priority || lists.home[t] >= MAX_PRIORITIES
      requires exempt <= exempt'
      modifies `tcbs
      ensures Tables(exempt', Earliest())
      ensures tcbs == old(tcbs)[t := Tcb(priority, basePriority, old(tcbs[t]).wake, eventValue)] && |tcbs| == |old(tcbs)|
      ensures States(Tab()) == old(States(Tab()))[t := StateIn(Tab(), t)]
    {
      hide Consistent, Tables, Shape, Sound, States;
      TablesMean(exempt, Earliest());
      TaskFacts(Tab(), exempt, Earliest(), t);
      var tcb := Tcb(priority, basePriority, tcbs[t].wake, eventValue);
      RetcbIsSound(Tab(), t, tcb, exempt, exempt', Earliest());
      tcbs := tcbs[t := tcb];
      TablesFrom(exempt', Earliest());
    }

    /** vListRemove, new priorities, prvAddTaskToReadyQueue: for a task that is ready. */
    method Refile(t: TaskId, priority: nat, basePriority: nat, eventValue: nat)
      requires Tables({}, Earliest()) && t in tcbs && lists.home[t] < MAX_PRIORITIES
      requires priority < MAX_PRIORITIES && basePriority < MAX_PRIORITIES
      modifies `tcbs, `lists, `topReady
      ensures Tables({}, Earliest()) && |tcbs| == |old(tcbs)| && t in tcbs && t in lists.home && t in events.home && t in due
      ensures |lists.rings| == |old(lists.rings)| == LISTS && lists.rings[TERMINATION] == old(lists.rings[TERMINATION])
      ensures States(Tab()) == old(States(Tab()))[t := StateIn(Tab(), t)]
      ensures StateIn(Tab(), t) == TaskState(priority, basePriority, Ready, NOWHERE)
      ensures lists.home == old(lists.home)[t := priority] && priority == tcbs[t].priority
      ensures MovedTurns(old(lists), lists, t, priority)
      ensures tcbs == old(tcbs)[t := Tcb(priority, basePriority, old(tcbs[t]).wake, eventValue)]
    {
      hide Consistent, Tables, Shape, Sound, States, Unlink, LinkEnd, LeftTurns, EnteredTurns, MovedTurns;
      TablesMean({}, Earliest());
      ReadyMeans(Tab(), Earliest(), t);
      ghost var before, turns := States(Tab()), lists;
      RemoveGeneric(t, {}, Earliest());
      ghost var s1, left := StateIn(Tab(), t), lists;
      SetPriorities(t, priority, basePriority, eventValue, {t}, {t});
      ghost var s2 := StateIn(Tab(), t);
      LastUpdateWins(before, t, s1, s2);
      AddTaskToReadyQueue(t, Earliest());
      LeftThenEntered(turns, left, lists, t, priority);
      LastUpdateWins(before, t, s2, StateIn(Tab(), t));
    }

    /** vTaskPrioritySet; the assertion on the new priority halts the machine. */
    method PrioritySet(t: TaskId, newPriority: nat) returns (halted: bool, yieldRequired: bool)
      requires Valid() && t in tcbs
      modifies `tcbs, `lists, `topReady
      ensures Valid()
      ensures halted <==> newPriority >= MAX_PRIORITIES
      ensures halted ==> tcbs == old(tcbs) && lists == old(lists) && topReady == old(topReady)
      ensures !halted ==> View() == Perform(old(View()), SetPriorityStep(t, newPriority))
      ensures !halted ==> tcbs == AfterPrioritySet(old(tcbs), t, newPriority) && Revalued(old(events), old(tcbs), tcbs, t)
      ensures !halted ==>
        var was := old(tcbs[t]);
        && t in tcbs && tcbs[t].basePriority == newPriority
        && tcbs[t].priority == (if was.priority == was.basePriority then newPriority else was.priority)
        && (newPriority != was.basePriority ==> tcbs[t].eventValue == MAX_PRIORITIES - newPriority)
        && if old(lists.home[t]) == was.basePriority != newPriority then
             lists.home == old(lists.home)[t := newPriority] && MovedTurns(old(lists), lists, t, newPriority)
           else lists == old(lists)
      ensures !halted ==>
        var base := old(tcbs[t].basePriority);
        yieldRequired <==> base != newPriority && if newPriority > base then t != current else t == current
    {
      hide Consistent, Tables, Shape, Sound, States, Revalued, MovedTurns;
      TablesMean({}, Earliest());
      EventFileIsConsistent(Tab());
      PrioritySetOrder(events, tcbs, t, newPriority);
      TaskFacts(Tab(), {}, Earliest(), t);
      StatesAt(Tab(), t);
      halted, yieldRequired := newPriority >= MAX_PRIORITIES, false;
      if halted {
        return;
      }
      var base := tcbs[t].basePriority;
      if base != newPriority {
        yieldRequired := if newPriority > base then t != current else t == current;
        var priority := if base == tcbs[t].priority then newPriority else tcbs[t].priority;
        if lists.home[t] == base {
          Refile(t, priority, newPriority, ValueOf(newPriority));
        } else {
          SetPriorities(t, priority, newPriority, ValueOf(newPriority), {}, {});
        }
      } else {
        SameState(States(Tab()), t);
      }
    }

    /** vTaskPriorityInherit: the holder of a mutex gets at least the priority of the current task. */
    method PriorityInherit(holder: TaskId)
      requires Valid() && holder in tcbs
      modifies `tcbs, `lists, `topReady
      ensures Valid()
      ensures current in tcbs && tcbs == AfterInherit(old(tcbs), holder, current)
      ensures var was, p := old(tcbs[holder]), old(tcbs[current].priority);
        && holder in tcbs && tcbs[holder].basePriority == was.basePriority
        && tcbs[holder].priority == (if was.priority < p then p else was.priority)
        && (was.priority < p ==> tcbs[holder].eventValue == MAX_PRIORITIES - p)
        && if old(lists.home[holder]) == was.priority < p then
             lists.home == old(lists.home)[holder := p] && MovedTurns(old(lists), lists, holder, p)
           else lists == old(lists)
      ensures Revalued(old(events), old(tcbs), tcbs, holder)
      ensures View() == Perform(old(View()), InheritStep(holder, current))
    {
      hide Consistent, Tables, Shape, Sound, States, Revalued, MovedTurns;
      TablesMean({}, Earliest());
      EventFileIsConsistent(Tab());
      InheritOrder(events, tcbs, holder, current);
      TaskFacts(Tab(), {}, Earliest(), holder);
      TaskFacts(Tab(), {}, Earliest(), current);
      StatesAt(Tab(), holder);
      StatesAt(Tab(), current);
      var p := tcbs[current].priority;
      if tcbs[holder].priority < p {
        if lists.home[holder] == tcbs[holder].priority {
          Refile(holder, p, tcbs[holder].basePriority, ValueOf(p));
        } else {
          SetPriorities(holder, p, tcbs[holder].basePriority, ValueOf(p), {}, {});
        }
      }
    }

    /** vTaskPriorityDisinherit: the holder gives its mutex back, so it is running. */
    method PriorityDisinherit(holder: TaskId)
      requires Valid() && holder in tcbs && lists.home[holder] < MAX_PRIORITIES
      modifies `tcbs, `lists, `topReady
      ensures Valid()
      ensures tcbs == AfterDisinherit(old(tcbs), holder) && OrderKept(events, old(tcbs), events, tcbs)
      ensures var was := old(tcbs[holder]);
        && holder in tcbs && tcbs[holder].priority == tcbs[holder].basePriority == was.basePriority
        && (was.priority != was.basePriority ==> tcbs[holder].eventValue == MAX_PRIORITIES - was.basePriority)
        && if was.priority != was.basePriority then
             lists.home == old(lists.home)[holder := was.basePriority] && MovedTurns(old(lists), lists, holder, was.basePriority)
           else lists == old(lists)
      ensures View() == Perform(old(View()), DisinheritStep(holder))
    {
      hide Consistent, Tables, Shape, Sound, States, OrderKept, MovedTurns;
      TablesMean({}, Earliest());
      ReadyMeans(Tab(), Earliest(), holder);
      TaskFacts(Tab(), {}, Earliest(), holder);
      StatesAt(Tab(), holder);
      EventFileIsConsistent(Tab());
      DisinheritOrder(events, tcbs, holder);
      if tcbs[holder].priority != tcbs[holder].basePriority {
        var p := tcbs[holder].basePriority;
        Refile(holder, p, p, ValueOf(p));
      } else {
        SameState(States(Tab()), holder);
      }
    }

    // ----- vTaskSwitchContext

    /** The search of vTaskSwitchContext: the top ready priority comes down to a list that has a task. */
    method FindTopReady()
      requires Tables({}, Earliest()) && exists t :: t in lists.home && 0 <= lists.home[t] < MAX_PRIORITIES
      modifies `topReady
      ensures Tables({}, Earliest()) && States(Tab()) == old(States(Tab()))
      ensures topReady < MAX_PRIORITIES < |lists.rings| && lists.rings[topReady].items != []
    {
      hide Consistent, Tables, Shape, Sound, States;
      TablesMean({}, Earliest());
      TaskFacts(Tab(), {}, Earliest(), current);
      TableKeys(Tab());
      while lists.rings[topReady].items == []
        invariant Tables({}, Earliest()) && Shape(Tab()) && States(Tab()) == old(States(Tab()))
        invariant topReady < MAX_PRIORITIES < |lists.rings|
        decreases topReady
      {
        TablesMean({}, Earliest());
        // the assertion in the source: somebody, the idle task at least, is ready
        assert topReady > 0 by {
          SomeoneReady(Tab(), Earliest());
        }
        LowerTop(Tab(), {}, Earliest());
        topReady := topReady - 1;
        TablesFrom({}, Earliest());
      }
    }

    /** vTaskSwitchContext: the next task of the highest priority that is ready, in turn. */
    method SwitchContext()
      requires Valid() && (suspended == 0 ==> exists t :: t in lists.home && 0 <= lists.home[t] < MAX_PRIORITIES)
      modifies `topReady, `lists, `current, `missedYield
      ensures Valid() && View() == old(View())
      ensures suspended > 0 ==> missedYield && current == old(current) && lists == old(lists)
      ensures suspended == 0 ==> RunsInTurn(old(lists), lists, tcbs, current)
    {
      hide Consistent, Tables, Shape, Sound, States;
      TablesMean({}, Earliest());
      if suspended != 0 {
        missedYield := true;
      } else {
        FindTopReady();
        RunNext();
      }
    }

    /** listGET_OWNER_OF_NEXT_ENTRY on the top ready list. */
    method RunNext()
      requires Base() && topReady < MAX_PRIORITIES < |lists.rings| && lists.rings[topReady].items != []
      modifies `lists, `current
      ensures Base() && States(Tab()) == old(States(Tab()))
      ensures lists.home == old(lists.home) && RunsInTurn(old(lists), lists, tcbs, current)
    {
      hide Consistent, Tables, Shape, Sound, States;
      TablesMean({}, Earliest());
      NextInTurn(Tab(), Earliest());
      AdvanceIsSound(Tab(), topReady, {}, Earliest());
      var ring := Advance(lists.rings[topReady]);
      lists := lists.(rings := lists.rings[topReady := ring]);
      current := ring.items[ring.index - 1];
      TablesFrom({}, Earliest());
    }

    // ----- starting

    /** The scheduler starts with the idle task, and with n event lists. */
    constructor (idle: TaskId, n: nat)
      ensures Valid() && View() == System(0, 0, 0, map[idle := TaskState(0, 0, Ready, NOWHERE)])
      ensures current == idle && |events.rings| == n + 1 && forall e :: Ranked(events, tcbs, e) && PriorityOrder(events, tcbs, e)
    {
      var k := InitialTable(idle, n);
      tcbs, lists, events, due := k.tcbs, k.lists, k.events, k.due;
      delayed, overflow := k.delayed, k.overflow;
      tickCount, overflows, nextUnblock, topReady, now := k.tickCount, k.overflows, k.nextUnblock, k.topReady, k.now;
      current := idle;
      suspended, missedTicks, missedYield := 0, 0, false;
      numberOfTasks, tasksDeleted := 1, 0;
      InitialTableIsSound(idle, n);
      new;
      assert Tab() == k;
      assert lists.rings[TERMINATION] == EmptyRing<TaskId>();
      assert |tcbs| == 1;
      assert States(Tab()) == map[idle := TaskState(0, 0, Ready, NOWHERE)];
    }

    // ----- vTaskDelay and vTaskDelayUntil, whole

    /** vTaskDelay; without an interrupt in between, no tick is held back by it. */
    method TaskDelay(ticksToDelay: Tick) returns (alreadyYielded: bool)
      requires Valid() && lists.home[current] < MAX_PRIORITIES
      modifies `suspended, `missedYield, `tickCount, `now, `overflows, `delayed, `overflow, `nextUnblock,
               `lists, `events, `topReady, `missedTicks, `tcbs, `due
      ensures Valid()
      ensures View() == if ticksToDelay == 0 then old(View())
                        else Run(old(View()), [SuspendAllStep, DelayStep(current, ticksToDelay), ResumeAllStep])
    {
      hide Consistent, Tables, Shape, Sound, States, Perform, TicksUntil, Wrap;
      TablesMean({}, Earliest());
      alreadyYielded := false;
      if ticksToDelay > 0 {
        ghost var start := View();
        UntilAfter(tickCount, ticksToDelay);
        SameTimeTakesNoTicks(tickCount, ticksToDelay);
        RunThree(start, SuspendAllStep, DelayStep(current, ticksToDelay), ResumeAllStep);
        SuspendAllTasks();
        DelayCurrent(Wrap(tickCount + ticksToDelay));
        alreadyYielded := ResumeAllTasks();
      }
    }

    /** vTaskDelayUntil; the result is what it stores through its pointer for the next call. */
    method TaskDelayUntil(previousWake: Tick, increment: Tick, ghost previous: int) returns (nextWake: Tick, alreadyYielded: bool)
      requires Valid() && lists.home[current] < MAX_PRIORITIES
      requires increment > 0
      requires previousWake == previous % M
      modifies `suspended, `missedYield, `tickCount, `now, `overflows, `delayed, `overflow, `nextUnblock,
               `lists, `events, `topReady, `missedTicks, `tcbs, `due
      ensures Valid() && nextWake == (previous + increment) % M
      ensures View() == Run(old(View()), DelayUntilSteps(current, old(now), previous, increment))
    {
      hide Consistent, Tables, Shape, Sound, States, Perform, TicksUntil, Wrap, ShouldDelay;
      TablesMean({}, Earliest());
      TaskFacts(Tab(), {}, Earliest(), current);
      ghost var start := View();
      DelayUntilMeaning(now, previous, increment);
      SuspendAllTasks();
      nextWake := Wrap(previousWake + increment);
      if ShouldDelay(tickCount, previousWake, increment) {
        DelayUntilLiesAhead(tickCount, previousWake, increment);
        RunThree(start, SuspendAllStep, DelayStep(current, increment - Wrap(now - previous)), ResumeAllStep);
        DelayCurrent(nextWake);
      } else {
        RunTwo(start, SuspendAllStep, ResumeAllStep);
      }
      alreadyYielded := ResumeAllTasks();
    }

    // ----- timeouts

    /** vTaskSetTimeOutState */
    method SetTimeOutState() returns (timeOut: TimeOut)
      requires Valid()
      ensures timeOut == Stamp(now)
    {
      TaskFacts(Tab(), {}, Earliest(), current);
      timeOut := TimeOut(overflows, tickCount);
    }

    /** xTaskCheckForTimeOut; entered is when the time out structure was set, or renewed. */
    method CheckTimeOut(timeOut: TimeOut, ticksToWait: Tick, ghost entered: nat)
        returns (expired: bool, left: Tick, renewed: TimeOut)
      requires Valid()
      ensures expired <==> CheckForTimeOut(overflows, tickCount, timeOut, ticksToWait).Expired?
      ensures !expired ==> left > 0
      ensures timeOut == Stamp(entered) && entered <= now ==> Reports(entered, now, timeOut, ticksToWait, expired, left, renewed)
    {
      hide Located, Timed, Cached, Topped, Ordered, Shape;
      left, renewed := ticksToWait, timeOut;
      if ticksToWait == MAX_DELAY {
        expired := false;
      } else {
        if timeOut == Stamp(entered) && entered <= now {
          TimeOutIsExact(entered, now, ticksToWait);
        }
        if overflows != timeOut.overflowCount && tickCount >= timeOut.timeOnEntering {
          expired := true;
        } else if Wrap(tickCount - timeOut.timeOnEntering) < ticksToWait {
          left := Wrap(ticksToWait - Wrap(tickCount - timeOut.timeOnEntering));
          renewed := SetTimeOutState();
          expired := false;
        } else {
          expired := true;
        }
      }
    }

    // ----- whole runs

    ghost function Snap(): Snapshot
      reads this
    {
      Snapshot(Tab(), current, suspended, missedTicks)
    }

    lemma SnapMeans()
      requires Valid()
      ensures Known(Snap()) && Shape(Tab()) && View() == SystemOf(Snap())
    {
      hide Shape, Sound, States;
    }

    /** Where vTaskPlaceOnEventList will put the running task. */
    ghost function RankOfCurrent(e: nat): (position: nat)
      reads this
      ensures position <= |WaitingFor(e)|
    {
      RankOf(WaitingFor(e), tcbs, current)
    }

    lemma RankMeans(e: nat)
      requires Valid()
      ensures RankInsert(WaitingFor(e), tcbs, current) == SeqInsert(WaitingFor(e), RankOfCurrent(e), current)
    {
      hide Sound, Consistent;
      ListedAreKnown(Tab(), e);
    }

    /** The head of an event list is a known task, and so is the running one. */
    lemma NotifyMeans(e: nat)
      requires Valid() && WaitingFor(e) != []
      ensures WaitingFor(e)[0] in tcbs && current in tcbs
    {
      hide Sound;
      HeadOfEventList(Tab(), e);
    }

    lemma NothingHeldBack()
      requires Valid() && suspended == 0
      ensures missedTicks == 0
    {
      hide Sound, Consistent;
    }

    lemma SystemMeans()
      requires Valid()
      ensures var s := SystemOf(Snap());
        s.now == now && s.missed == missedTicks && s.depth == suspended && current in s.tasks
    {
      hide Sound;
      StatesAt(Tab(), current);
    }

    lemma ClockMeans()
      requires Valid()
      ensures tickCount == now % M
    {
      TaskFacts(Tab(), {}, Earliest(), current);
      hide Consistent, Sound;
    }

    /**
      A sequence of calls; each is made if its caller may make it, and left out otherwise. The kernel takes
      the steps that the calls say, loses no tick, wakes every task that is spared on time, and keeps
      event lists in order.
     */
    method RunAll(ops: seq<Op>) returns (ghost trace: seq<Snapshot>)
      requires Valid()
      modifies this
      ensures Valid() && Ran(trace, ops) && trace[0] == old(Snap()) && trace[|ops|] == Snap()
      ensures View() == Run(old(View()), AllSteps(trace, ops)) && TicksIn(AllSteps(trace, ops)) == TickOps(ops)
      ensures overflows * M + tickCount + missedTicks == old(overflows * M + tickCount + missedTicks) + TickOps(ops)
      ensures forall t, due, event, n :: 0 <= n <= |ops| ==> OnTime(trace, ops, t, due, event, n)
      ensures forall e :: (forall i :: 0 <= i < |ops| ==> Undisturbed(trace[i], ops[i], e)) ==>
        OrderKeptIn(old(events), old(tcbs), events, tcbs, e)
      ensures (forall i :: 0 <= i < |ops| ==> KeepsOrder(ops[i])) ==> OrderKept(old(events), old(tcbs), events, tcbs)
    {
      hide Consistent, Tables, Shape, Sound, States, Done, OrderKept, WaitsUntil, IsAwake, Spares, Known, SystemOf, KeepsOrder,
           AllSteps, Undisturbed, OrderKeptIn;
      SnapMeans();
      SameOrder(events, tcbs);
      trace := [Snap()];
      for i := 0 to |ops|
        invariant Valid() && Ran(trace, ops[..i]) && trace[0] == old(Snap()) && trace[i] == Snap()
        invariant (forall j :: 0 <= j < i ==> KeepsOrder(ops[j])) ==> OrderKept(old(events), old(tcbs), events, tcbs)
      {
        ghost var f, m := events, tcbs;
        RunOp(ops[i]);
        if OrderKept(old(events), old(tcbs), f, m) && OrderKept(f, m, events, tcbs) {
          OrderKeptFurther(old(events), old(tcbs), f, m, events, tcbs);
        }
        trace := trace + [Snap()];
        assert ops[..i + 1][..i] == ops[..i];
      }
      assert ops[..|ops|] == ops;
      SnapMeans();
      RanTo(trace, ops);
      EveryTickIsSeen(trace, ops);
      TicksOfAllSteps(trace, ops);
      forall e | forall i :: 0 <= i < |ops| ==> Undisturbed(trace[i], ops[i], e)
        ensures OrderKeptIn(old(events), old(tcbs), events, tcbs, e)
      {
        StaysByPriority(trace, ops, e, |ops|);
      }
      forall t, due, event, n | 0 <= n <= |ops| ensures OnTime(trace, ops, t, due, event, n) {
        RunIsOnTime(trace, ops, t, due, event, n);
      }
    }

    method RunOp(op: Op)
      requires Valid()
      modifies this
      ensures Valid() && Done(old(Snap()), op, Snap())
      ensures KeepsOrder(op) ==> OrderKept(old(events), old(tcbs), events, tcbs)
    {
      hide Consistent, Tables, Shape, Sound, States, Perform, OrderKept, StepsFor, SystemOf, Known, RunsInTurn, TurnsKept,
           OrderKeptIn, Undisturbed;
      SnapMeans();
      if op.TickOp? || op.SuspendAllOp? || op.ResumeAllOp? || op.SwitchOp? {
        RunSystemOp(op);
      } else if op.DelayOp? || op.BlockOp? || op.BlockRestrictedOp? || op.ReapOp? {
        RunOwnOp(op);
      } else {
        RunTaskOp(op);
      }
      SnapMeans();
    }

    /** Calls about the system. */
    method RunSystemOp(op: Op)
      requires Valid() && (op.TickOp? || op.SuspendAllOp? || op.ResumeAllOp? || op.SwitchOp?)
      modifies this
      ensures Valid() && View() == Run(old(View()), StepsFor(old(Snap()), op))
      ensures if op.SwitchOp? then Switches(old(Snap()), Snap()) else current == old(current) && TurnsKept(old(lists), lists)
      ensures OrderKept(old(events), old(tcbs), events, tcbs) && OrdersKept(old(Snap()), op, Snap())
    {
      hide Consistent, Tables, Shape, Sound, States, Perform, Located, Thinned, OrderKept, RunsInTurn, TurnsKept, LongerTurns,
           SameTurns, EnteredAndMore, OrderKeptIn, Tied;
      TablesMean({}, Earliest());
      ghost var start, waiting, turns := View(), events, lists;
      SameIsThinned(events, events);
      SameRingsSameTurns(lists, lists);
      if op.TickOp? {
        TickIsAStep(start);
        IncrementTick();
      } else if op.SuspendAllOp? {
        RunOne(start, SuspendAllStep);
        SuspendAllTasks();
      } else if op.ResumeAllOp? && suspended > 0 {
        RunOne(start, ResumeAllStep);
        ghost var pending := WaitingFor(PENDING);
        var yielded := ResumeAllTasks();
        if suspended == 0 {
          AndMoreIsLonger(turns, lists, pending, tcbs);
        }
      } else if op.SwitchOp? && (suspended > 0 || exists t :: t in lists.home && 0 <= lists.home[t] < MAX_PRIORITIES) {
        SwitchContext();
      }
      if !op.SwitchOp? {
        LongerIsKept(turns, lists);
      }
      ThinningKeepsOrder(waiting, events, tcbs);
      ThinnedRings(waiting, events);
      OrderAndTiesEverywhere(waiting, tcbs, events, tcbs);
    }

    /** Calls that the running task makes about itself. */
    method RunOwnOp(op: Op)
      requires Valid() && (op.DelayOp? || op.BlockOp? || op.BlockRestrictedOp? || op.ReapOp?)
      modifies this
      ensures Valid() && View() == Run(old(View()), StepsFor(old(Snap()), op)) && current == old(current)
      ensures KeepsOrder(op) ==> OrderKept(old(events), old(tcbs), events, tcbs)
      ensures TurnsKept(old(lists), lists) && OrdersKept(old(Snap()), op, Snap())
    {
      hide Consistent, Tables, Shape, Sound, States, Perform, TicksUntil, Wrap, OrderKept, OrderKeptIn, TurnsKept, SameTurns,
           StepsFor, Tied;
      TablesMean({}, Earliest());
      TaskFacts(Tab(), {}, Earliest(), current);
      ghost var start := View();
      SameOrder(events, tcbs);
      OrderAndTiesEverywhere(events, tcbs, events, tcbs);
      SameRingsSameTurns(lists, lists);
      SameIsKept(lists, lists);
      if op.ReapOp? {
        if lists.home[current] < MAX_PRIORITIES {
          RunReap();
        } else {
          NoStepFor(Snap(), op);
        }
      } else if lists.home[current] < MAX_PRIORITIES && Waits(op) {
        RunWaitOp(op);
      } else {
        NoStepFor(Snap(), op);
      }
    }

    /** The wait is one that may be asked for. */
    predicate Waits(op: Op)
      reads this
    {
      match op
      case DelayOp(ticks) => ticks > 0
      case BlockOp(e, ticks) => 0 < e < |events.rings| && (ticks > 0 || tickCount != MAX_DELAY)
      case BlockRestrictedOp(e, ticks) => 0 < e < |events.rings| && (ticks > 0 || tickCount != MAX_DELAY)
      case _ => false
    }

    method RunWaitOp(op: Op)
      requires Valid() && lists.home[current] < MAX_PRIORITIES && Waits(op)
      modifies this
      ensures Valid() && View() == Run(old(View()), StepsFor(old(Snap()), op)) && current == old(current)
      ensures KeepsOrder(op) ==> OrderKept(old(events), old(tcbs), events, tcbs)
      ensures TurnsKept(old(lists), lists) && OrdersKept(old(Snap()), op, Snap())
    {
      hide Consistent, Tables, Shape, Sound, States, Perform, TicksUntil, Wrap, OrderKept, OrderKeptIn, TurnsKept, LeftTurns,
           Tied, Ranked;
      TablesMean({}, Earliest());
      TaskFacts(Tab(), {}, Earliest(), current);
      ghost var start, f, m, turns := View(), events, tcbs, lists;
      match op {
        case DelayOp(ticks) =>
          UntilAfter(tickCount, ticks);
          SameTimeTakesNoTicks(tickCount, ticks);
          RunOne(start, DelayStep(current, ticks));
          SameValueKeepsOrder(events, tcbs, current, tcbs[current].(wake := Wrap(tickCount + ticks)));
          DelayCurrent(Wrap(tickCount + ticks));
        case BlockOp(e, ticks) =>
          RunOne(start, BlockStep(current, e, ticks, ticks == MAX_DELAY));
          PlaceOnEventList(e, ticks);
          EntryKeepsOrder(f, m, e, current, events, tcbs);
        case BlockRestrictedOp(e, ticks) =>
          RunOne(start, BlockStep(current, e, ticks, false));
          PlaceOnEventListRestricted(e, ticks);
          forall i | i != e ensures Ranked(f, m, i) ==> Ranked(events, tcbs, i) {
            EntryElsewhere(f, m, events, tcbs, current, e, i);
          }
      }
      LeftIsKept(turns, lists, current);
      if Tied(m) {
        ChangedStaysTied(m, tcbs, current);
      }
      forall i | op.BlockRestrictedOp? ==> i != op.event ensures OrderKeptIn(f, m, events, tcbs, i) {
        RankedFromOrder(f, m, events, tcbs, i);
        OrderAndTies(f, m, events, tcbs, i);
      }
    }

    method RunReap()
      requires Valid() && current in lists.home && lists.home[current] < MAX_PRIORITIES
      modifies this
      ensures Valid() && View() == Run(old(View()), StepsFor(old(Snap()), ReapOp)) && current == old(current)
      ensures OrderKept(old(events), old(tcbs), events, tcbs)
      ensures TurnsKept(old(lists), lists) && OrdersKept(old(Snap()), ReapOp, Snap())
    {
      hide Consistent, Tables, Shape, Sound, States, Perform, OrderKept, OrderKeptIn, TurnsKept, SameTurns, Tied;
      TablesMean({}, Earliest());
      ghost var start, f, m, turns := View(), events, tcbs, lists;
      EventFileIsConsistent(Tab());
      SameOrder(f, m);
      ghost var reaped := CheckTasksWaitingTermination();
      if reaped != [] {
        RunOne(start, ReapStep(reaped[0]));
        ForgottenKeepsOrder(f, m, reaped[0]);
        FewerAreTied(m, reaped[0]);
      }
      SameListsSameOrder(f, events, tcbs);
      OrderKeptFurther(f, m, f, tcbs, events, tcbs);
      OrderAndTiesEverywhere(f, m, events, tcbs);
      SameIsKept(turns, lists);
    }

    /** Calls about some task. */
    method RunTaskOp(op: Op)
      requires Valid() && !op.TickOp? && !op.SuspendAllOp? && !op.ResumeAllOp? && !op.SwitchOp?
      requires !op.DelayOp? && !op.BlockOp? && !op.BlockRestrictedOp? && !op.ReapOp?
      modifies this
      ensures Valid() && View() == Run(old(View()), StepsFor(old(Snap()), op)) && current == old(current)
      ensures KeepsOrder(op) ==> OrderKept(old(events), old(tcbs), events, tcbs)
      ensures TurnsKept(old(lists), lists) && OrdersKept(old(Snap()), op, Snap())
    {
      hide Consistent, Tables, Shape, Sound, States, Perform, OrderKept, Thinned, SameBut, OrderKeptIn, TurnsKept, LeftTurns,
           SameTurns, Undisturbed, Tied;
      TablesMean({}, Earliest());
      TableKeys(Tab());
      EventFileIsConsistent(Tab());
      ghost var start, f, m, turns := View(), events, tcbs, lists;
      SameOrder(f, m);
      OrderAndTiesEverywhere(f, m, f, m);
      SameRingsSameTurns(lists, lists);
      SameIsKept(lists, lists);
      if op.DeleteOp? || op.SuspendOp? {
        if op.task in tcbs && lists.home[op.task] < TERMINATION {
          if op.DeleteOp? {
            RunOne(start, DeleteStep(op.task));
            Delete(op.task);
          } else {
            RunOne(start, SuspendStep(op.task));
            Suspend(op.task);
          }
          ThinningKeepsOrder(f, events, m);
          ThinnedRings(f, events);
          OrderAndTiesEverywhere(f, m, events, m);
          LeftIsKept(turns, lists, op.task);
        }
      } else if op.NotifyOp? || op.CreateOp? {
        RunListOp(op);
      } else if op.ResumeOp? || op.ResumeFromISROp? {
        RunResumeOp(op);
      } else if op.PrioritySetOp? {
        RunPrioritySet(op);
      } else if op.InheritOp? {
        RunInherit(op);
      } else {
        RunDisinherit(op);
      }
    }

    method RunListOp(op: Op)
      requires Valid() && (op.NotifyOp? || op.CreateOp?)
      modifies this
      ensures Valid() && View() == Run(old(View()), StepsFor(old(Snap()), op)) && current == old(current)
      ensures OrderKept(old(events), old(tcbs), events, tcbs)
      ensures TurnsKept(old(lists), lists) && OrdersKept(old(Snap()), op, Snap())
    {
      hide Consistent, Tables, Shape, Sound, States, Perform, OrderKept, Thinned, SameBut, OrderKeptIn, TurnsKept, LongerTurns,
           SameTurns, MadeReady, EnteredTurns, Tied, PriorityOrder;
      TablesMean({}, Earliest());
      EventFileIsConsistent(Tab());
      ghost var start, f, m, turns := View(), events, tcbs, lists;
      SameOrder(f, m);
      SameRingsSameTurns(lists, lists);
      match op {
        case NotifyOp(e) =>
          if e > 0 && WaitingFor(e) != [] {
            RunOne(start, NotifyStep(WaitingFor(e)[0]));
            var higher;
            ghost var t;
            higher, t := RemoveFromEventList(e);
            ThinningKeepsOrder(f, events, m);
            ThinnedRings(f, events);
            if suspended == 0 {
              ReadyIsLonger(turns, f, lists, events, tcbs, t);
            }
          }
        case CreateOp(t, p) =>
          if t !in tcbs && p < MAX_PRIORITIES {
            RunOne(start, CreateStep(t, p));
            StrangersAreNowhere(Tab(), t);
            NewValueElsewhere(f, m, t, NewTcb(p));
            Create(t, p);
            SameListsSameOrder(f, events, tcbs);
            OrderKeptFurther(f, m, f, tcbs, events, tcbs);
            EnteredIsLonger(turns, lists, t, p);
            OneMoreIsTied(m, t, p);
          }
      }
      LongerIsKept(turns, lists);
      OrderAndTiesEverywhere(f, m, events, tcbs);
    }

    method RunResumeOp(op: Op)
      requires Valid() && (op.ResumeOp? || op.ResumeFromISROp?)
      modifies this
      ensures Valid() && View() == Run(old(View()), StepsFor(old(Snap()), op)) && current == old(current)
      ensures OrderKept(old(events), old(tcbs), events, tcbs)
      ensures TurnsKept(old(lists), lists) && OrdersKept(old(Snap()), op, Snap())
    {
      hide Consistent, Tables, Shape, Sound, States, Perform, OrderKept, Thinned, SameBut, OrderKeptIn, TurnsKept, LongerTurns,
           SameTurns, MadeReady, Tied;
      TablesMean({}, Earliest());
      ghost var start, f, m, turns := View(), events, tcbs, lists;
      var t := op.task;
      NothingChanges(f);
      SameRingsSameTurns(lists, lists);
      if t in tcbs && op.ResumeOp? && t != current {
        RunOne(start, ResumeStep(t));
        var higher := Resume(t);
      } else if t in tcbs && op.ResumeFromISROp? {
        RunOne(start, ResumeFromISRStep(t));
        var higher := ResumeFromISR(t);
      }
      SameIsThinned(f, events);
      ThinningKeepsOrder(f, events, m);
      ThinnedRings(f, events);
      if MadeReady(turns, f, lists, events, tcbs, t) {
        ReadyIsLonger(turns, f, lists, events, tcbs, t);
      } else if MadeReady(turns, events, lists, events, tcbs, t) {
        ReadyIsLonger(turns, events, lists, events, tcbs, t);
      }
      LongerIsKept(turns, lists);
      OrderAndTiesEverywhere(f, m, events, tcbs);
    }

    method RunPrioritySet(op: Op)
      requires Valid() && op.PrioritySetOp?
      modifies this
      ensures Valid() && View() == Run(old(View()), StepsFor(old(Snap()), op)) && current == old(current)
      ensures TurnsKept(old(lists), lists) && OrdersKept(old(Snap()), op, Snap())
    {
      hide Consistent, Tables, Shape, Sound, States, Perform, Revalued, OrderKeptIn, TurnsKept, SameTurns, LongerTurns,
           MovedTurns, Tied, Ranked, AfterPrioritySet;
      TablesMean({}, Earliest());
      TableKeys(Tab());
      EventFileIsConsistent(Tab());
      ReadyListsAreThere(Tab());
      ghost var start, f, m, turns := View(), events, tcbs, lists;
      var t, p := op.task, op.priority;
      SameRingsSameTurns(lists, lists);
      SameIsKept(lists, lists);
      OrderAndTiesEverywhere(f, m, f, m);
      if t in tcbs && p < MAX_PRIORITIES {
        RunOne(start, SetPriorityStep(t, p));
        var halted, higher := PrioritySet(t, p);
        if lists != turns {
          MovedIsKept(turns, lists, t, p);
        }
        forall e | f.home[t] != e && m[t].priority == m[t].basePriority ensures OrderKeptIn(f, m, events, tcbs, e) {
          SetStaysTied(m, t, p);
          RevaluedElsewhere(f, m, tcbs, t, e);
          OrderAndTies(f, m, events, tcbs, e);
        }
      }
    }

    method RunInherit(op: Op)
      requires Valid() && op.InheritOp?
      modifies this
      ensures Valid() && View() == Run(old(View()), StepsFor(old(Snap()), op)) && current == old(current)
      ensures TurnsKept(old(lists), lists) && OrdersKept(old(Snap()), op, Snap())
    {
      hide Consistent, Tables, Shape, Sound, States, Perform, Revalued, OrderKeptIn, TurnsKept, SameTurns, LongerTurns,
           MovedTurns, Tied, Ranked, AfterInherit;
      TablesMean({}, Earliest());
      TableKeys(Tab());
      EventFileIsConsistent(Tab());
      ReadyListsAreThere(Tab());
      ghost var start, f, m, turns := View(), events, tcbs, lists;
      var t := op.holder;
      SameRingsSameTurns(lists, lists);
      SameIsKept(lists, lists);
      OrderAndTiesEverywhere(f, m, f, m);
      if t in tcbs {
        RunOne(start, InheritStep(t, current));
        PriorityInherit(t);
        if lists != turns {
          MovedIsKept(turns, lists, t, m[current].priority);
        }
        forall e | f.home[t] != e ensures OrderKeptIn(f, m, events, tcbs, e) {
          InheritStaysTied(m, t, current);
          RevaluedElsewhere(f, m, tcbs, t, e);
          OrderAndTies(f, m, events, tcbs, e);
        }
      }
    }

    method RunDisinherit(op: Op)
      requires Valid() && op.DisinheritOp?
      modifies this
      ensures Valid() && View() == Run(old(View()), StepsFor(old(Snap()), op)) && current == old(current)
      ensures OrderKept(old(events), old(tcbs), events, tcbs)
      ensures TurnsKept(old(lists), lists) && OrdersKept(old(Snap()), op, Snap())
    {
      hide Consistent, Tables, Shape, Sound, States, Perform, OrderKept, OrderKeptIn, TurnsKept, SameTurns, LongerTurns,
           MovedTurns, Tied, AfterDisinherit;
      TablesMean({}, Earliest());
      TableKeys(Tab());
      ReadyListsAreThere(Tab());
      ghost var start, f, m, turns := View(), events, tcbs, lists;
      var t := op.holder;
      SameOrder(f, m);
      SameRingsSameTurns(lists, lists);
      SameIsKept(lists, lists);
      if t in tcbs && lists.home[t] < MAX_PRIORITIES {
        ReadyMeans(Tab(), Earliest(), t);
        TaskFacts(Tab(), {}, Earliest(), t);
        RunOne(start, DisinheritStep(t));
        PriorityDisinherit(t);
        DisinheritStaysTied(m, t);
        if lists != turns {
          MovedIsKept(turns, lists, t, m[t].basePriority);
        }
      }
      OrderAndTiesEverywhere(f, m, events, tcbs);
    }
  }
}
