/**
  Sequences of steps of a queue of TCPv3/FreeRTOS/queue.c and of the scheduler below it: what each step does
  to both, and what holds of every sequence. QueueCalls proves that its queue runs like this.
 */
module QueueRuns {
  import opened Octets
  import opened Wrappers
  import opened Ticks
  import opened Rings
  import opened Filing
  import opened TaskStates
  import opened TaskTables
  import opened EventLists
  import opened ReadyLists
  import opened KernelRuns
  import P = QueueProtocol

  /** The steps by which tasks are notified one after the other. */
  ghost function Notifications(ts: seq<TaskId>): seq<Step> {
    seq(|ts|, i requires 0 <= i < |ts| => NotifyStep(ts[i]))
  }

  lemma OneMoreNotified(s: System, ts: seq<TaskId>, n: nat)
    requires n < |ts|
    ensures Run(s, Notifications(ts[..n + 1])) == Perform(Run(s, Notifications(ts[..n])), NotifyStep(ts[n]))
    ensures ts[n..][0] == ts[n]
  {
    hide Perform;
    assert Notifications(ts[..n + 1]) == Notifications(ts[..n]) + [NotifyStep(ts[n])];
    RunAppends(s, Notifications(ts[..n]), [NotifyStep(ts[n])]);
    RunOne(Run(s, Notifications(ts[..n])), NotifyStep(ts[n]));
  }

  lemma ElementsOfOne(t: TaskId)
    ensures Elements([t]) == {t}
  {
  }

  /** The first of the tasks, if there was one, has been notified, and so is ready or pending. */
  ghost predicate WokeFirst(before: Snapshot, tasks: seq<TaskId>, after: Snapshot) {
    && SystemOf(after) == (if tasks == [] then SystemOf(before) else Perform(SystemOf(before), NotifyStep(tasks[0])))
    && (tasks != [] ==> IsUp(after.table, after.depth, tasks[0]))
  }

  /** And the result tells whether it has at least the priority of the running task. */
  ghost predicate Woke(before: Snapshot, tasks: seq<TaskId>, higher: bool, after: Snapshot) {
    && WokeFirst(before, tasks, after)
    && (higher <==> tasks != [] && SomeoneOutranks([tasks[0]], before.table.tcbs, before.current))
  }

  /** The first n tasks, or all if there are fewer. */
  function UpTo(tasks: seq<TaskId>, n: nat): seq<TaskId> {
    if n <= |tasks| then tasks[..n] else tasks
  }

  /** They have been notified in turn. */
  ghost predicate WokeUpTo(before: Snapshot, tasks: seq<TaskId>, n: nat, after: Snapshot) {
    SystemOf(after) == Run(SystemOf(before), Notifications(UpTo(tasks, n)))
  }

  /** The scheduler has taken the step. */
  ghost predicate Took(before: Snapshot, step: Step, after: Snapshot) {
    SystemOf(after) == Perform(SystemOf(before), step)
  }

  lemma TickTakes(s: System)
    ensures Perform(s, TickStep) == TakeTick(s)
  {
  }

  lemma WokeNobody(before: Snapshot, tasks: seq<TaskId>)
    ensures WokeUpTo(before, tasks, 0, before)
  {
    hide SystemOf;
  }

  lemma WokeOneMore(before: Snapshot, tasks: seq<TaskId>, n: nat, middle: Snapshot, higher: bool, after: Snapshot)
    requires n < |tasks| && WokeUpTo(before, tasks, n, middle) && Woke(middle, tasks[n..], higher, after)
    ensures WokeUpTo(before, tasks, n + 1, after)
  {
    hide SystemOf, Perform, Run, Notifications;
    OneMoreNotified(SystemOf(before), tasks, n);
  }

  lemma OutrankedOnceMore(tasks: seq<TaskId>, n: nat, middle: Snapshot, higher: bool, after: Snapshot)
    requires n < |tasks| && Woke(middle, tasks[n..], higher, after)
    ensures SomeoneOutranks(tasks[..n + 1], middle.table.tcbs, middle.current) <==>
      SomeoneOutranks(tasks[..n], middle.table.tcbs, middle.current) || higher
  {
    hide SystemOf, Perform, SomeoneOutranks;
    OneMoreOutranks(tasks, n, middle.table.tcbs, middle.current);
    OneOutranks(tasks[n], middle.table.tcbs, middle.current);
    assert tasks[n..][0] == tasks[n];
  }

  lemma WokeAll(before: Snapshot, tasks: seq<TaskId>, n: nat, after: Snapshot)
    requires WokeUpTo(before, tasks, |tasks|, after) && n >= |tasks|
    ensures WokeUpTo(before, tasks, n, after)
  {
    assert tasks[..|tasks|] == tasks;
  }

  // ----- yields

  /** Some pending task has at least the priority of the given one. */
  ghost predicate PendingOutranks(s: System, t: TaskId) {
    t in s.tasks && exists u :: u in s.tasks && s.tasks[u].event == PENDING && s.tasks[u].priority >= s.tasks[t].priority
  }

  /** Some task of a list has. */
  ghost predicate ListOutranks(s: System, ts: seq<TaskId>, t: TaskId) {
    t in s.tasks && exists i :: 0 <= i < |ts| && ts[i] in s.tasks && s.tasks[ts[i]].priority >= s.tasks[t].priority
  }

  lemma {:induction false} NotifiedArePending(s: System, ts: seq<TaskId>, t: TaskId)
    requires s.depth > 0 && t in s.tasks
    ensures var s' := Run(s, Notifications(ts));
      && s'.depth == s.depth && (forall u :: u in s'.tasks <==> u in s.tasks)
      && (forall u :: u in s.tasks ==> s'.tasks[u].priority == s.tasks[u].priority)
      && (PendingOutranks(s', t) <==> PendingOutranks(s, t) || ListOutranks(s, ts, t))
    decreases |ts|
  {
    hide PerformOn, PendingOutranks, ListOutranks, Perform;
    if ts == [] {
      NoneOutranks(s, t);
    } else {
      var n := |ts| - 1;
      NotifiedArePending(s, ts[..n], t);
      OneMoreNotified(s, ts, n);
      assert ts[..n + 1] == ts;
      OneMoreIsPending(Run(s, Notifications(ts[..n])), ts[n], t);
      OneMoreInList(s, ts, t);
    }
  }

  lemma NoneOutranks(s: System, t: TaskId)
    ensures !ListOutranks(s, [], t)
  {
  }

  lemma OneMoreIsPending(s: System, u: TaskId, t: TaskId)
    requires s.depth > 0 && t in s.tasks
    ensures var s' := Perform(s, NotifyStep(u));
      && s'.depth == s.depth && (forall v :: v in s'.tasks <==> v in s.tasks)
      && (forall v :: v in s.tasks ==> s'.tasks[v].priority == s.tasks[v].priority)
      && (PendingOutranks(s', t) <==> PendingOutranks(s, t) || (u in s.tasks && s.tasks[u].priority >= s.tasks[t].priority))
  {
    var s' := Perform(s, NotifyStep(u));
    if PendingOutranks(s, t) {
      var v :| v in s.tasks && s.tasks[v].event == PENDING && s.tasks[v].priority >= s.tasks[t].priority;
      assert v in s'.tasks && s'.tasks[v].event == PENDING;
    }
    if u in s.tasks {
      assert s'.tasks[u].event == PENDING;
    }
  }

  lemma OneMoreInList(s: System, ts: seq<TaskId>, t: TaskId)
    requires ts != [] && t in s.tasks
    ensures var n := |ts| - 1;
      ListOutranks(s, ts, t) <==>
        ListOutranks(s, ts[..n], t) || (ts[n] in s.tasks && s.tasks[ts[n]].priority >= s.tasks[t].priority)
  {
    var n := |ts| - 1;
    if i :| 0 <= i < n && ts[i] in s.tasks && s.tasks[ts[i]].priority >= s.tasks[t].priority {
      assert ts[..n][i] == ts[i];
    }
  }

  /** The pending list, and any other list, in terms of the states of the tasks. */
  lemma OutranksMeans(s: Snapshot, ts: seq<TaskId>)
    requires Known(s)
    ensures s.current in SystemOf(s).tasks
    ensures SomeoneOutranks(ts, s.table.tcbs, s.current) <==> ListOutranks(SystemOf(s), ts, s.current)
    ensures SomeoneOutranks(InList(s.table.events, PENDING), s.table.tcbs, s.current) <==> PendingOutranks(SystemOf(s), s.current)
  {
    hide Known, Shape, Sound, SystemOf, States;
    KnownMeans(s);
    PrioritiesAre(s.table);
    PendingAre(s.table);
    hide SomeoneOutranks, ListOutranks, PendingOutranks;
    SameRanks(s, ts);
    SamePending(s);
  }

  lemma PrioritiesAre(k: Table)
    requires Shape(k)
    ensures forall t :: t in k.tcbs <==> t in States(k)
    ensures forall t :: t in k.tcbs ==> States(k)[t].priority == k.tcbs[t].priority
  {
    hide Consistent;
  }

  lemma PendingAre(k: Table)
    requires Shape(k)
    ensures forall t :: t in InList(k.events, PENDING) <==> t in States(k) && States(k)[t].event == PENDING
  {
    RingInHome(k.events, PENDING);
  }

  lemma SameRanks(s: Snapshot, ts: seq<TaskId>)
    requires (forall t :: t in s.table.tcbs <==> t in SystemOf(s).tasks)
    requires forall t :: t in s.table.tcbs ==> SystemOf(s).tasks[t].priority == s.table.tcbs[t].priority
    ensures SomeoneOutranks(ts, s.table.tcbs, s.current) <==> ListOutranks(SystemOf(s), ts, s.current)
  {
    hide SystemOf;
  }

  lemma SamePending(s: Snapshot)
    requires (forall t :: t in s.table.tcbs <==> t in SystemOf(s).tasks)
    requires forall t :: t in s.table.tcbs ==> SystemOf(s).tasks[t].priority == s.table.tcbs[t].priority
    requires forall t :: t in InList(s.table.events, PENDING) <==> t in SystemOf(s).tasks && SystemOf(s).tasks[t].event == PENDING
    ensures SomeoneOutranks(InList(s.table.events, PENDING), s.table.tcbs, s.current) <==> PendingOutranks(SystemOf(s), s.current)
  {
    hide SystemOf, InList;
    var ts := InList(s.table.events, PENDING);
    if PendingOutranks(SystemOf(s), s.current) {
      var u :| u in SystemOf(s).tasks && SystemOf(s).tasks[u].event == PENDING
        && SystemOf(s).tasks[u].priority >= SystemOf(s).tasks[s.current].priority;
      var i :| 0 <= i < |ts| && ts[i] == u;
    }
    if SomeoneOutranks(ts, s.table.tcbs, s.current) {
      var i :| 0 <= i < |ts| && ts[i] in s.table.tcbs && s.table.tcbs[ts[i]].priority >= s.table.tcbs[s.current].priority;
      assert ts[i] in ts;
    }
  }

  /** When tasks are notified while the scheduler is suspended, the pending list outranks whom it outranked before or one of them does. */
  lemma PendingAfterwards(before: Snapshot, ts: seq<TaskId>, after: Snapshot)
    requires Known(before) && Known(after) && before.depth > 0 && after.current == before.current
    requires SystemOf(after) == Run(SystemOf(before), Notifications(ts))
    ensures SomeoneOutranks(InList(after.table.events, PENDING), after.table.tcbs, after.current) <==>
      || SomeoneOutranks(InList(before.table.events, PENDING), before.table.tcbs, before.current)
      || SomeoneOutranks(ts, before.table.tcbs, before.current)
  {
    hide Known, SomeoneOutranks, PendingOutranks, ListOutranks, Run, Notifications, InList;
    OutranksMeans(before, ts);
    OutranksMeans(after, ts);
    DepthIs(before);
    NotifiedArePending(SystemOf(before), ts, before.current);
  }

  lemma OtherSideStays(s: P.State, t: TaskId)
    ensures P.Next(s, P.UnlockTx(t)).senders == s.senders
  {
    hide P.AllAwake;
  }

  /** xTaskResumeAll yields: for ticks held back, for a yield missed, or for a pending task. */
  ghost predicate YieldsNow(s: Snapshot, missedYield: bool) {
    s.missed > 0 || missedYield || SomeoneOutranks(InList(s.table.events, PENDING), s.table.tcbs, s.current)
  }

  lemma OutrankedByEither(a: seq<TaskId>, b: seq<TaskId>, tcbs: map<TaskId, Tcb>, t: TaskId)
    ensures SomeoneOutranks(a + b, tcbs, t) <==> SomeoneOutranks(a, tcbs, t) || SomeoneOutranks(b, tcbs, t)
  {
    var ab := a + b;
    if i :| 0 <= i < |a| && a[i] in tcbs && t in tcbs && tcbs[a[i]].priority >= tcbs[t].priority {
      assert ab[i] == a[i];
    }
    if i :| 0 <= i < |b| && b[i] in tcbs && t in tcbs && tcbs[b[i]].priority >= tcbs[t].priority {
      assert ab[|a| + i] == b[i];
    }
  }

  lemma NotifiedInTwoParts(s: System, a: seq<TaskId>, b: seq<TaskId>)
    ensures Run(Run(s, Notifications(a)), Notifications(b)) == Run(s, Notifications(a + b))
  {
    hide Run;
    assert Notifications(a + b) == Notifications(a) + Notifications(b);
    RunAppends(s, Notifications(a), Notifications(b));
  }

  lemma YieldsAfterwards(before: Snapshot, missed: bool, ts: seq<TaskId>, after: Snapshot, missed': bool)
    requires Known(before) && Known(after) && before.depth > 0 && after.current == before.current
    requires after.missed == before.missed
    requires SystemOf(after) == Run(SystemOf(before), Notifications(ts))
    requires missed' <==> missed || SomeoneOutranks(ts, before.table.tcbs, before.current)
    ensures YieldsNow(after, missed') <==> YieldsNow(before, missed) || SomeoneOutranks(ts, before.table.tcbs, before.current)
  {
    hide Known, SomeoneOutranks, Run, Notifications, InList, SystemOf;
    PendingAfterwards(before, ts, after);
  }

  lemma DepthIs(s: Snapshot)
    ensures SystemOf(s).depth == s.depth
  {
    hide Shape;
  }

  // ----- where the users are

  /** The task is ready, or pending, or it is on one of two event lists. */
  ghost predicate IsAccountedFor(s: System, t: TaskId, a: int, b: int) {
    && t in s.tasks
    && (s.tasks[t].place == Ready || s.tasks[t].event == PENDING || s.tasks[t].event == a || s.tasks[t].event == b)
  }

  ghost predicate UsersAccountedFor(phases: P.Phases, s: System, a: int, b: int) {
    forall t :: t in phases && !phases[t].Idle? ==> IsAccountedFor(s, t, a, b)
  }

  ghost predicate KeepsUsers(s: System, s': System, a: int, b: int) {
    forall t :: IsAccountedFor(s, t, a, b) ==> IsAccountedFor(s', t, a, b)
  }

  /** A step that suits the queue: it stops nobody but a task that enters one of its lists. */
  predicate Suits(step: Step, a: int, b: int) {
    match step
    case TickStep => true
    case SuspendAllStep => true
    case ResumeAllStep => true
    case NotifyStep(_) => true
    case BlockStep(_, e, _, _) => e == a || e == b
    case _ => false
  }

  lemma StepKeepsUsers(s: System, step: Step, a: int, b: int)
    requires Suits(step, a, b)
    ensures KeepsUsers(s, Perform(s, step), a, b)
  {
  }

  lemma SameKeepsUsers(s: System, a: int, b: int)
    ensures KeepsUsers(s, s, a, b)
  {
  }

  lemma KeepsFurther(s1: System, s2: System, s3: System, a: int, b: int)
    requires KeepsUsers(s1, s2, a, b) && KeepsUsers(s2, s3, a, b)
    ensures KeepsUsers(s1, s3, a, b)
  {
    hide IsAccountedFor;
  }

  lemma TookKeepsUsers(before: Snapshot, step: Step, after: Snapshot, a: int, b: int)
    requires Took(before, step, after) && Suits(step, a, b)
    ensures KeepsUsers(SystemOf(before), SystemOf(after), a, b)
  {
    hide SystemOf, Perform, KeepsUsers;
    StepKeepsUsers(SystemOf(before), step, a, b);
  }

  lemma WakingKeepsUsers(before: Snapshot, tasks: seq<TaskId>, after: Snapshot, a: int, b: int)
    requires WokeFirst(before, tasks, after)
    ensures KeepsUsers(SystemOf(before), SystemOf(after), a, b)
  {
    hide SystemOf, Perform, KeepsUsers, IsUp;
    SameKeepsUsers(SystemOf(before), a, b);
    if tasks != [] {
      StepKeepsUsers(SystemOf(before), NotifyStep(tasks[0]), a, b);
    }
  }

  lemma {:induction false} NotifyingKeepsUsers(s: System, ts: seq<TaskId>, a: int, b: int)
    ensures KeepsUsers(s, Run(s, Notifications(ts)), a, b)
    decreases |ts|
  {
    hide Perform, KeepsUsers;
    if ts == [] {
      SameKeepsUsers(s, a, b);
    } else {
      var n := |ts| - 1;
      NotifyingKeepsUsers(s, ts[..n], a, b);
      OneMoreNotified(s, ts, n);
      assert ts[..n + 1] == ts;
      var s1 := Run(s, Notifications(ts[..n]));
      StepKeepsUsers(s1, NotifyStep(ts[n]), a, b);
      KeepsFurther(s, s1, Perform(s1, NotifyStep(ts[n])), a, b);
    }
  }

  lemma UsersStay(phases: P.Phases, s: System, phases': P.Phases, s': System, a: int, b: int)
    requires UsersAccountedFor(phases, s, a, b) && P.NoNewUsers(phases, phases') && KeepsUsers(s, s', a, b)
    ensures UsersAccountedFor(phases', s', a, b)
  {
    hide IsAccountedFor;
  }

  /** One user more, that is ready. */
  lemma UsersJoin(phases: P.Phases, s: System, t: TaskId, phase: P.Phase, a: int, b: int)
    requires UsersAccountedFor(phases, s, a, b) && t in s.tasks && s.tasks[t].place == Ready
    ensures UsersAccountedFor(phases[t := phase], s, a, b)
  {
  }

  lemma ReadyTask(s: Snapshot, t: TaskId)
    requires Known(s) && IsFiledBelow(s.table, t, MAX_PRIORITIES)
    ensures t in SystemOf(s).tasks && SystemOf(s).tasks[t].place == Ready
  {
    hide Sound;
    StatesAt(s.table, t);
    ReadyMeans(s.table, EarliestIn(s.table), t);
    TaskFacts(s.table, {}, EarliestIn(s.table), t);
  }

  lemma WakingSeveralKeepsUsers(before: Snapshot, tasks: seq<TaskId>, n: nat, after: Snapshot, a: int, b: int)
    requires WokeUpTo(before, tasks, n, after)
    ensures KeepsUsers(SystemOf(before), SystemOf(after), a, b)
  {
    hide SystemOf, Run, KeepsUsers;
    NotifyingKeepsUsers(SystemOf(before), UpTo(tasks, n), a, b);
  }

  /** In terms of the lists of the kernel. */
  lemma AccountedInLists(s: Snapshot, t: TaskId, a: int, b: int)
    requires Known(s) && IsAccountedFor(SystemOf(s), t, a, b) && PENDING < a < |s.table.events.rings| && PENDING < b < |s.table.events.rings|
    ensures t in s.table.tcbs
    ensures || IsIn(s.table.lists, s.table.tcbs[t].priority, t) || IsIn(s.table.events, PENDING, t)
            || t in InList(s.table.events, a) || t in InList(s.table.events, b)
  {
    hide Known, Shape, Sound, SystemOf, States, LocatedTask;
    KnownMeans(s);
    var k := s.table;
    StatesOfKnown(s, t);
    TaskFacts(k, {}, EarliestIn(k), t);
    if k.lists.home[t] < MAX_PRIORITIES {
      ReadyMeans(k, EarliestIn(k), t);
    } else {
      OnItsEventList(k, t);
    }
  }

  lemma StatesOfKnown(s: Snapshot, t: TaskId)
    requires Known(s) && t in SystemOf(s).tasks
    ensures t in s.table.tcbs && t in s.table.lists.home && t in s.table.events.home && t in s.table.due
    ensures SystemOf(s).tasks[t] == StateIn(s.table, t)
  {
    hide Sound;
    StatesAt(s.table, t);
  }

  lemma OnItsEventList(k: Table, t: TaskId)
    requires Shape(k) && t in k.events.home
    ensures t in k.lists.home && k.lists.home[t] < LISTS
    ensures k.events.home[t] >= 0 ==> t in InList(k.events, k.events.home[t])
  {
  }

  // ----- whole runs

  /** The queue, as QueueProtocol sees it, and the scheduler. */
  datatype Moment = Moment(queue: P.State, kernel: Snapshot)

  /** The event lists of the queue, and the size of its items. */
  datatype Layout = Layout(sendEvent: nat, receiveEvent: nat, itemSize: nat)

  /**
    What may come next: an interrupt, the tick, a switch, or the next step of the running task in its call.
    Of the parameters of that step those count that it has: the call that it enters, whether it may
    block, its time out structure, and how long it waits.
   */
  datatype Act =
    | TickAct | SwitchAct
    | SendFromISRAct(item: P.Item, toFront: bool)
    | ReceiveFromISRAct
    | GoOnAct(call: P.Call, mayBlock: bool, timeOut: TimeOut, ticksToWait: Tick)

  predicate Fits(call: P.Call, itemSize: nat) {
    call.Send? ==> |call.item| == itemSize
  }

  /** Between the two, tasks have timed out. */
  ghost predicate TimedOut(s: P.State, s': P.State) {
    s' == P.Run(s, P.TimeOuts(s, s'.senders.waiting, s'.receivers.waiting))
  }

  /** Who waits for an item, or for a free slot, while nobody has the queue locked. */
  function Receivers(s: P.State): seq<TaskId> {
    if s.receivers.lock == P.UNLOCKED then s.receivers.waiting else []
  }

  function Senders(s: P.State): seq<TaskId> {
    if s.senders.lock == P.UNLOCKED then s.senders.waiting else []
  }

  /** Those of whom a call wakes the first. */
  function Audience(s: P.State, call: P.Call): seq<TaskId> {
    if !P.CanProceed(s, call) then [] else if call.Receive? then Senders(s) else Receivers(s)
  }

  /** The task enters the event list by its event value and goes to sleep. */
  ghost predicate FellAsleep(m: Moment, e: nat, ticksToWait: Tick, m': Moment) {
    var t := m.kernel.current;
    && Took(m.kernel, BlockStep(t, e, ticksToWait, ticksToWait == MAX_DELAY), m'.kernel)
    && SleepsFor(m'.kernel.table, e, ticksToWait, t)
    && EntersInRank(m.kernel.table.events, m'.kernel.table.events, e, t, m.kernel.table.tcbs)
    && exists position :: P.Enabled(m.queue, P.Place(t, position)) && m'.queue == P.Next(m.queue, P.Place(t, position))
  }

  /** Nobody but the running task has the scheduler suspended. */
  ghost predicate OnlyTheRunning(m: Moment) {
    m.queue.alone.Some? ==> m.queue.alone.value == m.kernel.current
  }

  /** The next step of the running task. */
  ghost predicate WentOn(m: Moment, act: Act, m': Moment, layout: Layout)
    requires act.GoOnAct?
  {
    var s, s', k, k' := m.queue, m'.queue, m.kernel, m'.kernel;
    var t := k.current;
    match P.PhaseOf(s.phases, t)
    case Idle =>
      if Fits(act.call, layout.itemSize) && IsFiledBelow(k.table, t, MAX_PRIORITIES) then
        s' == P.Next(s, P.Begin(t, act.call)) && k' == k
      else m' == m
    case Trying(call) =>
      if Fits(call, layout.itemSize) then s' == P.Next(s, P.Try(t, act.mayBlock)) && WokeFirst(k, Audience(s, call), k') else m' == m
    case Failed(_) => if k.depth == 0 then s' == P.Next(s, P.SuspendAll(t)) && Took(k, SuspendAllStep, k') else m' == m
    case Alone(_) => s' == P.Next(s, P.Lock(t)) && k' == k
    case Locking(_) =>
      s' == P.Next(s, P.Check(t, CheckForTimeOut(k.table.overflows, k.table.tickCount, act.timeOut, act.ticksToWait).Expired?)) && k' == k
    case Confirmed(call) =>
      if IsFiledBelow(k.table, t, MAX_PRIORITIES) && act.ticksToWait > 0 then
        FellAsleep(m, if call.Send? then layout.sendEvent else layout.receiveEvent, act.ticksToWait, m')
      else m' == m
    case UnlockingTx(_, _, _) => s' == P.Next(s, P.UnlockTx(t)) && WokeUpTo(k, s.receivers.waiting, P.Max0(s.receivers.lock), k')
    case UnlockingRx(_, _, _) => s' == P.Next(s, P.UnlockRx(t)) && WokeUpTo(k, s.senders.waiting, P.Max0(s.senders.lock), k')
    case Resuming(_, _, _) => TimedOut(P.Next(s, P.ResumeAll(t)), s') && Took(k, ResumeAllStep, k')
    case Blocked(_) => m' == m
  }

  ghost predicate Acted(m: Moment, act: Act, m': Moment, layout: Layout) {
    && P.Inv(m'.queue) && OnlyTheRunning(m')
    && UsersAccountedFor(m'.queue.phases, SystemOf(m'.kernel), layout.sendEvent, layout.receiveEvent)
    && (!act.SwitchAct? ==> m'.kernel.current == m.kernel.current)
    && match act {
         case TickAct => Took(m.kernel, TickStep, m'.kernel) && if m.kernel.depth > 0 then m'.queue == m.queue else TimedOut(m.queue, m'.queue)
         case SwitchAct => m'.queue == m.queue && Switches(m.kernel, m'.kernel) && SystemOf(m'.kernel) == SystemOf(m.kernel)
         case SendFromISRAct(item, toFront) =>
           if |item| == layout.itemSize then
             && m'.queue == P.Next(m.queue, P.SendFromISR(item, toFront))
             && WokeFirst(m.kernel, if |m.queue.items| < m.queue.length then Receivers(m.queue) else [], m'.kernel)
           else m' == m
         case ReceiveFromISRAct =>
           && m'.queue == P.Next(m.queue, P.ReceiveFromISR)
           && WokeFirst(m.kernel, if m.queue.items != [] then Senders(m.queue) else [], m'.kernel)
         case GoOnAct(_, _, _, _) => WentOn(m, act, m', layout)
       }
  }

  /** The moments before, between and after the acts. */
  ghost predicate Ran(trace: seq<Moment>, acts: seq<Act>, layout: Layout) {
    |trace| == |acts| + 1 && forall i :: 0 <= i < |acts| ==> Acted(trace[i], acts[i], trace[i + 1], layout)
  }

  lemma RanNothing(m: Moment, layout: Layout)
    ensures Ran([m], [], layout)
  {
  }

  lemma RanOneMore(trace: seq<Moment>, acts: seq<Act>, act: Act, m: Moment, layout: Layout)
    requires Ran(trace, acts, layout) && Acted(trace[|acts|], act, m, layout)
    ensures Ran(trace + [m], acts + [act], layout)
  {
    hide Acted;
  }

  // ----- what the running task does next

  /** The phase of the running task after its next step, in plain words. */
  ghost predicate NextPhase(m: Moment, act: Act, m': Moment, layout: Layout)
    requires act.GoOnAct?
  {
    var t := m.kernel.current;
    var after := P.PhaseOf(m'.queue.phases, t);
    match P.PhaseOf(m.queue.phases, t)
    case Idle => Fits(act.call, layout.itemSize) && IsFiledBelow(m.kernel.table, t, MAX_PRIORITIES) ==> after == P.Trying(act.call)
    case Trying(call) =>
      Fits(call, layout.itemSize) ==>
        after == if P.CanProceed(m.queue, call) || !act.mayBlock then P.Idle else P.Failed(call)
    case Failed(call) => m.kernel.depth == 0 ==> after == P.Alone(call)
    case Alone(call) => after == P.Locking(call)
    case Locking(call) => after.UnlockingTx? || (after == P.Confirmed(call) && P.IsFullOrEmpty(m.queue, call))
    case Confirmed(call) =>
      IsFiledBelow(m.kernel.table, t, MAX_PRIORITIES) && act.ticksToWait > 0 ==> after == P.UnlockingTx(call, true, false)
    case UnlockingTx(call, placed, givingUp) => after == P.UnlockingRx(call, placed, givingUp)
    case UnlockingRx(call, placed, givingUp) => after == P.Resuming(call, placed, givingUp)
    case Resuming(call, _, givingUp) => after == P.Trying(call) || (after == P.Blocked(call) && !givingUp) || (after == P.Idle && givingUp)
    case Blocked(call) => after == P.Blocked(call)
  }

  lemma GoingOnMovesOn(m: Moment, act: Act, m': Moment, layout: Layout)
    requires act.GoOnAct? && WentOn(m, act, m', layout) && P.Inv(m.queue) && OnlyTheRunning(m)
    ensures NextPhase(m, act, m', layout)
  {
    hide WokeFirst, WokeUpTo, Took, EntersInRank, CheckForTimeOut, SleepsFor, SystemOf, SeqInsert, Elements, P.NobodyForgotten,
         P.ItemsConserved;
    var s, t := m.queue, m.kernel.current;
    PhaseSaysAlone(s, t);
    match P.PhaseOf(s.phases, t)
    case Confirmed(_) =>
      if IsFiledBelow(m.kernel.table, t, MAX_PRIORITIES) && act.ticksToWait > 0 {
        var position :| P.Enabled(s, P.Place(t, position)) && m'.queue == P.Next(s, P.Place(t, position));
      }
    case UnlockingTx(_, _, _) => P.AfterUnlockTx(s, t);
    case UnlockingRx(_, _, _) => P.AfterUnlockRx(s, t);
    case Resuming(_, _, _) =>
      TimingOutAwakes(P.Next(s, P.ResumeAll(t)), m'.queue);
      P.AfterResumeAll(s, t);
      AwakeOrNot(P.Next(s, P.ResumeAll(t)).phases, m'.queue.phases, t);
    case _ =>
  }

  lemma AwakeOrNot(phases: P.Phases, phases': P.Phases, t: TaskId)
    requires P.AwakeAtMost(phases, phases')
    ensures P.PhaseOf(phases', t) == P.PhaseOf(phases, t) || P.PhaseOf(phases', t) == P.Awake(P.PhaseOf(phases, t))
  {
  }

  /** Time-outs do not move anybody on but the blocked. */
  lemma {:induction false} TakingOffAwakes(s: P.State, ts: seq<TaskId>, rest: seq<TaskId>)
    ensures P.AwakeAtMost(s.phases, P.Run(s, P.TakeOffs(ts, rest)).phases)
    decreases |ts|
  {
    if |ts| > |rest| && ts != [] {
      var p := P.FirstDifference(ts, rest);
      var s1 := P.Next(s, P.TakeOff(ts[p], p));
      TakingOffAwakes(s1, SeqDrop(ts, p), rest);
      assert P.AwakeAtMost(s.phases, s1.phases);
      AwakeFurther(s.phases, s1.phases, P.Run(s, P.TakeOffs(ts, rest)).phases);
    }
  }

  lemma AwakeFurther(a: P.Phases, b: P.Phases, c: P.Phases)
    requires P.AwakeAtMost(a, b) && P.AwakeAtMost(b, c)
    ensures P.AwakeAtMost(a, c)
  {
  }

  lemma TimingOutAwakes(s: P.State, s': P.State)
    requires TimedOut(s, s')
    ensures P.AwakeAtMost(s.phases, s'.phases)
  {
    hide P.Run, P.TakeOffs, P.AwakeAtMost;
    var off := P.TakeOffs(s.senders.waiting, s'.senders.waiting);
    TakingOffAwakes(s, s.senders.waiting, s'.senders.waiting);
    TakingOffAwakes(P.Run(s, off), s.receivers.waiting, s'.receivers.waiting);
    P.RunAppends(s, off, P.TakeOffs(s.receivers.waiting, s'.receivers.waiting));
    AwakeFurther(s.phases, P.Run(s, off).phases, s'.phases);
  }

  /** A task between vTaskSuspendAll and xTaskResumeAll is alone, and no other one is. */
  lemma PhaseSaysAlone(s: P.State, t: TaskId)
    requires P.Inv(s)
    ensures P.RunsAlone(P.PhaseOf(s.phases, t)) <==> s.alone == Some(t)
  {
  }

  // ----- first in, first out

  predicate ToBack(act: Act) {
    match act
    case SendFromISRAct(_, toFront) => !toFront
    case GoOnAct(call, _, _, _) => P.CallToBack(call)
    case _ => true
  }

  lemma NextKeepsOrder(s: P.State, a: P.Action)
    requires P.InOrder(s) && P.ToBack(a)
    ensures P.InOrder(P.Next(s, a))
  {
    hide P.InOrder, P.Step, P.Enabled;
    if P.Enabled(s, a) {
      P.StepKeepsOrder(s, a);
    }
  }

  lemma {:induction false} TakeOffsAreToBack(ts: seq<TaskId>, rest: seq<TaskId>)
    ensures forall i :: 0 <= i < |P.TakeOffs(ts, rest)| ==> P.ToBack(P.TakeOffs(ts, rest)[i])
    decreases |ts|
  {
    if |ts| > |rest| && ts != [] {
      TakeOffsAreToBack(SeqDrop(ts, P.FirstDifference(ts, rest)), rest);
    }
  }

  lemma TimingOutKeepsOrder(s: P.State, s': P.State)
    requires P.InOrder(s) && TimedOut(s, s')
    ensures P.InOrder(s')
  {
    hide P.InOrder, P.Run, P.TakeOffs, P.ToBack;
    TakeOffsAreToBack(s.senders.waiting, s'.senders.waiting);
    TakeOffsAreToBack(s.receivers.waiting, s'.receivers.waiting);
    P.FirstInFirstOut(s, P.TimeOuts(s, s'.senders.waiting, s'.receivers.waiting));
  }

  lemma GoingOnKeepsOrder(m: Moment, act: Act, m': Moment, layout: Layout)
    requires act.GoOnAct? && WentOn(m, act, m', layout) && P.InOrder(m.queue) && ToBack(act)
    ensures P.InOrder(m'.queue)
  {
    hide P.InOrder, P.Next, TimedOut, Took, WokeFirst, WokeUpTo, EntersInRank, IsFiledBelow, CheckForTimeOut;
    var s, t := m.queue, m.kernel.current;
    match P.PhaseOf(s.phases, t)
    case Idle => NextKeepsOrder(s, P.Begin(t, act.call));
    case Trying(_) => NextKeepsOrder(s, P.Try(t, act.mayBlock));
    case Failed(_) => NextKeepsOrder(s, P.SuspendAll(t));
    case Alone(_) => NextKeepsOrder(s, P.Lock(t));
    case Locking(_) =>
      NextKeepsOrder(s, P.Check(t, CheckForTimeOut(m.kernel.table.overflows, m.kernel.table.tickCount, act.timeOut, act.ticksToWait).Expired?));
    case Confirmed(_) =>
      if m' != m {
        var position :| P.Enabled(s, P.Place(t, position)) && m'.queue == P.Next(s, P.Place(t, position));
        NextKeepsOrder(s, P.Place(t, position));
      }
    case UnlockingTx(_, _, _) => NextKeepsOrder(s, P.UnlockTx(t));
    case UnlockingRx(_, _, _) => NextKeepsOrder(s, P.UnlockRx(t));
    case Resuming(_, _, _) =>
      NextKeepsOrder(s, P.ResumeAll(t));
      TimingOutKeepsOrder(P.Next(s, P.ResumeAll(t)), m'.queue);
    case Blocked(_) =>
  }

  lemma ActKeepsOrder(m: Moment, act: Act, m': Moment, layout: Layout)
    requires Acted(m, act, m', layout) && P.InOrder(m.queue) && ToBack(act)
    ensures P.InOrder(m'.queue)
  {
    hide P.InOrder, P.Next, P.Inv, TimedOut, Took, WokeFirst, WentOn, Switches, SystemOf, UsersAccountedFor;
    match act
    case TickAct =>
      if m.kernel.depth == 0 {
        TimingOutKeepsOrder(m.queue, m'.queue);
      }
    case SwitchAct =>
    case SendFromISRAct(item, toFront) => NextKeepsOrder(m.queue, P.SendFromISR(item, toFront));
    case ReceiveFromISRAct => NextKeepsOrder(m.queue, P.ReceiveFromISR);
    case GoOnAct(_, _, _, _) => GoingOnKeepsOrder(m, act, m', layout);
  }

  /** Over every run without sends to the front, items come out in the order in which they went in. */
  lemma {:induction false} RunKeepsOrder(trace: seq<Moment>, acts: seq<Act>, layout: Layout)
    requires Ran(trace, acts, layout) && P.InOrder(trace[0].queue) && forall i :: 0 <= i < |acts| ==> ToBack(acts[i])
    ensures P.InOrder(trace[|acts|].queue)
    decreases |acts|
  {
    hide P.InOrder, Acted, ToBack;
    if acts != [] {
      var n := |acts| - 1;
      RunKeepsOrder(trace[..n + 1], acts[..n], layout);
      ActKeepsOrder(trace[n], acts[n], trace[n + 1], layout);
    }
  }

  lemma InOrderMeans(s: P.State)
    requires P.InOrder(s)
    ensures s.sent == s.received + s.items
  {
  }

  /** No lost wake-ups and no lost items, at every moment of a run. */
  lemma NobodyIsForgottenEver(trace: seq<Moment>, acts: seq<Act>, layout: Layout)
    requires Ran(trace, acts, layout) && P.Inv(trace[0].queue)
    requires UsersAccountedFor(trace[0].queue.phases, SystemOf(trace[0].kernel), layout.sendEvent, layout.receiveEvent)
    ensures forall i :: 0 <= i <= |acts| ==> P.NobodyForgotten(trace[i].queue) && P.ItemsConserved(trace[i].queue)
    ensures forall i :: 0 <= i <= |acts| ==>
      UsersAccountedFor(trace[i].queue.phases, SystemOf(trace[i].kernel), layout.sendEvent, layout.receiveEvent)
  {
    hide P.Matches, P.ConfirmedStill, P.NobodyForgotten, P.ItemsConserved, WentOn, Switches, Took, WokeFirst, TimedOut,
         UsersAccountedFor, SystemOf;
    forall i | 0 <= i <= |acts|
      ensures P.NobodyForgotten(trace[i].queue) && P.ItemsConserved(trace[i].queue)
      ensures UsersAccountedFor(trace[i].queue.phases, SystemOf(trace[i].kernel), layout.sendEvent, layout.receiveEvent)
    {
      if i > 0 {
        assert Acted(trace[i - 1], acts[i - 1], trace[i], layout);
      }
    }
  }
}
