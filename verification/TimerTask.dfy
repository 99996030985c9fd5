/**
  The timer service task of TCPv3/FreeRTOS/timers.c at work on the scheduler of TCPv3/FreeRTOS/tasks.c:
  where it gets the time from, and how it goes to sleep.
 */
module TimerTask {
  import opened Ticks
  import opened Filing
  import opened TaskStates
  import opened TaskTables
  import opened KernelRuns
  import opened EventLists
  import opened ReadyLists
  import opened Scheduler
  import opened TimerTables
  import opened TimerService

  /** The steps on the scheduler: the service keeps it suspended while it decides, and blocks if it is to wait. */
  function RoundOf(t: TaskId, event: nat, blocks: bool, wait: Tick): seq<Step> {
    if blocks then [SuspendAllStep, BlockStep(t, event, wait, false), ResumeAllStep] else [SuspendAllStep, ResumeAllStep]
  }

  /** With nothing held back, whoever goes to sleep in between is asleep after the round. */
  lemma RoundSleeps(s: System, t: TaskId, event: nat, wait: Tick)
    requires s.depth == 1 && s.missed == 0 && t in s.tasks && event > PENDING
    ensures IsAt(Perform(Perform(s, BlockStep(t, event, wait, false)), ResumeAllStep), t, Place.Blocked(s.now + wait), event)
  {
  }

  /** vQueueWaitForMessageRestricted and xTaskResumeAll: nothing has been held back, so the task sleeps. */
  method Sleep(kernel: Kernel, event: nat, wait: Tick, ghost now: nat)
    requires kernel.Valid() && kernel.suspended == 1 && kernel.missedTicks == 0 && kernel.lists.home[kernel.current] < MAX_PRIORITIES
    requires PENDING < event < |kernel.events.rings| && (wait > 0 || kernel.tickCount != MAX_DELAY) && now == kernel.now
    modifies kernel
    ensures kernel.Valid() && kernel.current == old(kernel.current)
    ensures SystemOf(kernel.Snap()) ==
      Perform(Perform(SystemOf(old(kernel.Snap())), BlockStep(kernel.current, event, wait, false)), ResumeAllStep)
    ensures IsAt(SystemOf(kernel.Snap()), kernel.current, Place.Blocked(now + wait), event)
  {
    hide Kernel.Valid, Shape, Perform, SystemOf, IsAt;
    ghost var start := SystemOf(kernel.Snap());
    kernel.SystemMeans();
    RoundSleeps(start, kernel.current, event, wait);
    WaitRestricted(kernel, event, wait);
    Resume(kernel);
  }

  method WaitRestricted(kernel: Kernel, event: nat, wait: Tick)
    requires kernel.Valid() && kernel.lists.home[kernel.current] < MAX_PRIORITIES
    requires PENDING < event < |kernel.events.rings| && (wait > 0 || kernel.tickCount != MAX_DELAY)
    modifies kernel`lists, kernel`events, kernel`tcbs, kernel`due, kernel`nextUnblock
    ensures kernel.Valid()
    ensures SystemOf(kernel.Snap()) == Perform(SystemOf(old(kernel.Snap())), BlockStep(kernel.current, event, wait, false))
  {
    hide Kernel.Valid, Shape, Perform, SystemOf, EntersAtIndex, ChangedAt, LeftTurns, Wrap, ListFor;
    kernel.SnapMeans();
    kernel.PlaceOnEventListRestricted(event, wait);
    kernel.SnapMeans();
  }

  method Resume(kernel: Kernel)
    requires kernel.Valid() && kernel.suspended > 0
    modifies kernel
    ensures kernel.Valid() && kernel.current == old(kernel.current)
    ensures SystemOf(kernel.Snap()) == Perform(SystemOf(old(kernel.Snap())), ResumeAllStep)
  {
    hide Kernel.Valid, Shape, Perform, SystemOf, Thinned, SomeoneOutranks, EnteredAndMore, InList;
    kernel.SnapMeans();
    var yielded := kernel.ResumeAllTasks();
    kernel.SnapMeans();
  }

  /**
    prvProcessTimerOrBlockTask, with xTaskGetTickCount for the time, and vQueueWaitForMessageRestricted. The
    wait may be zero ticks, but only at tick count 0, so vTaskPlaceOnEventListRestricted is never asked
    for what would break the delayed lists.
   */
  method ProcessTimerOrBlock(kernel: Kernel, service: Service, event: nat) returns (outcome: Outcome)
    requires kernel.Valid() && kernel.suspended == 0 && kernel.lists.home[kernel.current] < MAX_PRIORITIES
    requires PENDING < event < |kernel.events.rings|
    requires service.Valid() && service.now <= kernel.now < service.sampled + M
    modifies kernel, service
    ensures outcome.Halted? <==> Refuses(old(service.View()), false, old(kernel.now))
    ensures |old(service.timers)| <= QUEUE_LENGTH ==> !outcome.Halted?
    ensures !outcome.Halted? ==> kernel.Valid() && service.Valid() && Checked(old(service.Now()), old(kernel.now), service.Now())
    ensures outcome.Blocked? <==> old(IsIdle(service.View(), kernel.now))
    ensures outcome.Blocked? ==> service.AllOnSchedule(outcome.wait)
    ensures outcome.Blocked? ==> IsAt(SystemOf(kernel.Snap()), old(kernel.current), Place.Blocked(old(kernel.now) + outcome.wait), event)
    ensures !outcome.Halted? ==>
      SystemOf(kernel.Snap()) ==
        Run(SystemOf(old(kernel.Snap())), RoundOf(old(kernel.current), event, outcome.Blocked?, if outcome.Blocked? then outcome.wait else 0))
  {
    hide Kernel.Valid, Service.Valid, Service.AllOnSchedule, Shape, Perform, SystemOf, Checked, Refuses, IsIdle, EntersAtIndex,
         ChangedAt, Thinned, SomeoneOutranks;
    ghost var start := SystemOf(kernel.Snap());
    kernel.SnapMeans();
    kernel.ClockMeans();
    kernel.NothingHeldBack();
    service.FewNeverHalt(kernel.now);
    kernel.SuspendAllTasks();
    kernel.SnapMeans();
    outcome := service.ProcessTimerOrBlockTask(kernel.tickCount, kernel.now);
    if outcome.Halted? {
      return;
    }
    RunTwo(start, SuspendAllStep, ResumeAllStep);
    if outcome.Blocked? {
      RunThree(start, SuspendAllStep, BlockStep(kernel.current, event, outcome.wait, false), ResumeAllStep);
      Sleep(kernel, event, outcome.wait, kernel.now);
    } else {
      Resume(kernel);
    }
  }
}
