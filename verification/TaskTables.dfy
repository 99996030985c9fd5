/**
  The tables of TCPv3/FreeRTOS/tasks.c as one value, their invariant, and how it survives
  each list operation and each step of the clock. Scheduler performs these on its fields.
 */
module TaskTables {
  import opened Rings
  import opened Ticks
  import opened Filing
  import opened TaskStates
  import Arithmetic

  const MAX_PRIORITIES: nat := 8

  // The lists of generic items: ready lists 0 to 7, then these. The two delayed lists trade places.
  const DELAYED_1: int := 8
  const DELAYED_2: int := 9
  const SUSPENDED: int := 10
  const TERMINATION: int := 11
  const LISTS: nat := 12

  datatype Tcb = Tcb(priority: nat, basePriority: nat, wake: Tick, eventValue: nat)

  /** The kernel's tables: its variables, and with them due and now, which live in unbounded time. */
  datatype Table = Table(
    tcbs: map<TaskId, Tcb>, lists: Files, events: Files, due: map<TaskId, nat>,
    delayed: int, overflow: int, tickCount: Tick, overflows: int, nextUnblock: int, topReady: nat, now: nat)

  function Wakes(items: seq<TaskId>, tcbs: map<TaskId, Tcb>): (keys: seq<nat>)
    requires forall t :: t in items ==> t in tcbs
    ensures |keys| == |items|
  {
    seq(|items|, i requires 0 <= i < |items| => tcbs[items[i]].wake)
  }

  function EventValues(items: seq<TaskId>, tcbs: map<TaskId, Tcb>): (keys: seq<nat>)
    requires forall t :: t in items ==> t in tcbs
    ensures |keys| == |items|
  {
    seq(|items|, i requires 0 <= i < |items| => tcbs[items[i]].eventValue)
  }

  // ----- the invariant of the tables

  ghost predicate Shape(k: Table) {
    && Consistent(k.lists) && |k.lists.rings| == LISTS
    && Consistent(k.events) && |k.events.rings| > PENDING
    && k.tcbs.Keys == k.lists.home.Keys == k.events.home.Keys == k.due.Keys
  }

  predicate LocatedTask(tcb: Tcb, home: int, event: int) {
    && home != NOWHERE
    && (home < MAX_PRIORITIES ==> home == tcb.priority && event == NOWHERE)
    && (home == TERMINATION ==> event == NOWHERE)
  }

  /** Every task is filed where its state says, its event item included; tasks in exempt are on the move. */
  ghost predicate Located(k: Table, exempt: set<TaskId>)
    requires Shape(k)
  {
    && (forall t :: t in k.tcbs ==> k.tcbs[t].priority < MAX_PRIORITIES && k.tcbs[t].basePriority < MAX_PRIORITIES)
    && (forall t :: t in k.tcbs && t !in exempt ==> LocatedTask(k.tcbs[t], k.lists.home[t], k.events.home[t]))
  }

  predicate TimedTask(wake: Tick, home: int, due: nat, delayed: int, overflow: int, epoch: int, tickCount: Tick, earliest: int) {
    && (home == delayed ==> OfEpoch(due, epoch, wake) && due >= earliest)
    && (home == overflow ==> OfEpoch(due, epoch + 1, wake) && wake < tickCount)
  }

  /**
    Item values are due times modulo the clock: this epoch's are in one delayed list, none of
    them before earliest, and the next one's are in the other.
   */
  ghost predicate Timed(k: Table, earliest: int)
    requires Shape(k)
  {
    forall t :: t in k.tcbs ==>
      TimedTask(k.tcbs[t].wake, k.lists.home[t], k.due[t], k.delayed, k.overflow, k.now / M, k.tickCount, earliest)
  }

  /** The cached unblock time is no later than any wake time of this epoch. */
  ghost predicate Cached(k: Table)
    requires Shape(k)
  {
    0 <= k.nextUnblock <= MAX_DELAY
    && forall t :: t in k.tcbs && k.lists.home[t] == k.delayed ==> k.nextUnblock <= k.tcbs[t].wake
  }

  /** No ready list above the top ready priority holds a task. */
  ghost predicate Topped(k: Table)
    requires Shape(k)
  {
    k.topReady < MAX_PRIORITIES
    && forall t :: t in k.tcbs && k.lists.home[t] < MAX_PRIORITIES ==> k.lists.home[t] <= k.topReady
  }

  ghost predicate Clocked(k: Table) {
    && ((k.delayed == DELAYED_1 && k.overflow == DELAYED_2) || (k.delayed == DELAYED_2 && k.overflow == DELAYED_1))
    && k.tickCount == k.now % M && k.overflows == k.now / M
  }

  ghost predicate InWakeOrder(items: seq<TaskId>, tcbs: map<TaskId, Tcb>) {
    (forall t :: t in items ==> t in tcbs) && Sorted(Wakes(items, tcbs))
  }

  ghost predicate Ordered(k: Table)
    requires Shape(k)
  {
    InWakeOrder(k.lists.rings[DELAYED_1].items, k.tcbs) && InWakeOrder(k.lists.rings[DELAYED_2].items, k.tcbs)
  }

  ghost predicate Sound(k: Table, exempt: set<TaskId>, earliest: int)
    requires Shape(k)
  {
    Located(k, exempt) && Timed(k, earliest) && Cached(k) && Topped(k) && Clocked(k) && Ordered(k)
  }

  // ----- what the tables say about the tasks

  function PlaceOf(home: int, delayed: int, overflow: int, due: nat): Place {
    if home == delayed || home == overflow then Blocked(due)
    else if home == SUSPENDED then Suspended
    else if home == TERMINATION then Deleted
    else Ready
  }

  ghost function StateIn(k: Table, t: TaskId): TaskState
    requires t in k.tcbs && t in k.lists.home && t in k.events.home && t in k.due
  {
    TaskState(k.tcbs[t].priority, k.tcbs[t].basePriority,
              PlaceOf(k.lists.home[t], k.delayed, k.overflow, k.due[t]), k.events.home[t])
  }

  ghost function States(k: Table): Tasks
    requires Shape(k)
  {
    map t | t in k.tcbs :: StateIn(k, t)
  }

  lemma StatesAt(k: Table, t: TaskId)
    requires Shape(k) && t in k.tcbs
    ensures t in States(k) && States(k)[t] == StateIn(k, t)
  {
  }

  lemma TableKeys(k: Table)
    requires Shape(k)
    ensures |k.lists.rings| == LISTS
    ensures forall t :: t in k.tcbs ==> t in k.lists.home && t in k.events.home && t in k.due
  {
    hide Consistent;
  }

  lemma StrangersAreNowhere(k: Table, t: TaskId)
    requires Shape(k) && t !in k.tcbs
    ensures t !in k.events.home
  {
    hide Consistent;
  }

  lemma StatesKeys(k: Table)
    requires Shape(k)
    ensures States(k).Keys == k.tcbs.Keys
  {
  }

  lemma SameState(tasks: Tasks, t: TaskId)
    requires t in tasks
    ensures tasks[t := tasks[t]] == tasks
  {
  }

  lemma UpdateThenRemove(tasks: Tasks, t: TaskId, a: TaskState)
    ensures tasks[t := a] - {t} == tasks - {t}
  {
  }

  lemma LastUpdateWins(tasks: Tasks, t: TaskId, a: TaskState, b: TaskState)
    ensures tasks[t := a][t := b] == tasks[t := b]
  {
  }

  /** The two tables tell different stories about t at most. */
  ghost predicate DifferAt(k: Table, k': Table, t: TaskId)
    requires Shape(k) && Shape(k') && t in k.tcbs && t in k'.tcbs
  {
    && k'.tcbs == k.tcbs[t := k'.tcbs[t]] && k'.due == k.due[t := k'.due[t]]
    && k'.lists.home == k.lists.home[t := k'.lists.home[t]]
    && k'.events.home == k.events.home[t := k'.events.home[t]]
    && k'.delayed == k.delayed && k'.overflow == k.overflow && k'.now == k.now
  }

  lemma StateUnchanged(k: Table, k': Table, t: TaskId, u: TaskId)
    requires Shape(k) && Shape(k') && t in k.tcbs && t in k'.tcbs && DifferAt(k, k', t)
    requires u in k.tcbs
    ensures k'.tcbs.Keys == k.tcbs.Keys
    ensures u != t ==> StateIn(k', u) == StateIn(k, u)
  {
    hide Consistent;
  }

  lemma StatesDifferAt(k: Table, k': Table, t: TaskId)
    requires Shape(k) && Shape(k') && t in k.tcbs && t in k'.tcbs && DifferAt(k, k', t)
    ensures States(k') == States(k)[t := StateIn(k', t)]
  {
    hide Consistent, StateIn, DifferAt;
    assert k'.tcbs.Keys == k.tcbs.Keys by { StateUnchanged(k, k', t, t); }
    forall u | u in k.tcbs && u != t ensures StateIn(k', u) == StateIn(k, u) {
      StateUnchanged(k, k', t, u);
    }
  }

  /** Task t is now in another list than the delayed lists, or still where it was. */
  ghost predicate MovesElsewhere(k: Table, k': Table, t: TaskId)
    requires Shape(k) && Shape(k') && t in k.tcbs
  {
    && t in k'.tcbs && DifferAt(k, k', t) && k'.tcbs == k.tcbs && k'.due == k.due
    && k'.tickCount == k.tickCount && k'.overflows == k.overflows && k'.nextUnblock == k.nextUnblock
    && (k'.lists.home[t] == k.lists.home[t] || (k'.lists.home[t] != k.delayed && k'.lists.home[t] != k.overflow))
  }

  lemma MoveKeepsTime(k: Table, k': Table, t: TaskId, earliest: int)
    requires Shape(k) && Shape(k') && t in k.tcbs && MovesElsewhere(k, k', t)
    requires Timed(k, earliest) && Cached(k) && Clocked(k)
    ensures Timed(k', earliest) && Cached(k') && Clocked(k')
  {
    hide Consistent, OfEpoch;
  }

  lemma MoveKeepsLocated(k: Table, k': Table, t: TaskId, exempt: set<TaskId>, exempt': set<TaskId>)
    requires Shape(k) && Shape(k') && t in k.tcbs && MovesElsewhere(k, k', t)
    requires Located(k, exempt) && exempt <= {t}
    requires t in exempt' || LocatedTask(k'.tcbs[t], k'.lists.home[t], k'.events.home[t])
    ensures Located(k', exempt')
  {
    hide Consistent;
  }

  lemma MoveKeepsTopped(k: Table, k': Table, t: TaskId)
    requires Shape(k) && Shape(k') && t in k.tcbs && MovesElsewhere(k, k', t)
    requires Topped(k) && k.topReady <= k'.topReady < MAX_PRIORITIES
    requires k'.lists.home[t] == k.lists.home[t] || (k'.lists.home[t] < MAX_PRIORITIES ==> k'.lists.home[t] <= k'.topReady)
    ensures Topped(k')
  {
    hide Consistent;
  }

  lemma MoveIsSound(k: Table, k': Table, t: TaskId, exempt: set<TaskId>, exempt': set<TaskId>, earliest: int)
    requires Shape(k) && Shape(k') && t in k.tcbs && MovesElsewhere(k, k', t)
    requires Sound(k, exempt, earliest) && exempt <= {t} && Ordered(k')
    requires t in exempt' || LocatedTask(k'.tcbs[t], k'.lists.home[t], k'.events.home[t])
    requires k.topReady <= k'.topReady < MAX_PRIORITIES
    requires k'.lists.home[t] == k.lists.home[t] || (k'.lists.home[t] < MAX_PRIORITIES ==> k'.lists.home[t] <= k'.topReady)
    ensures Sound(k', exempt', earliest) && States(k') == States(k)[t := StateIn(k', t)]
  {
    hide Consistent, Located, Timed, Cached, Topped, Clocked, Ordered, States, StateIn;
    StatesDifferAt(k, k', t);
    MoveKeepsTime(k, k', t, earliest);
    MoveKeepsLocated(k, k', t, exempt, exempt');
    MoveKeepsTopped(k, k', t);
  }

  // ----- one list operation at a time

  /** The facts about one task that a list operation needs to know beforehand. */
  lemma TaskFacts(k: Table, exempt: set<TaskId>, earliest: int, t: TaskId)
    requires Shape(k) && Sound(k, exempt, earliest) && t in k.tcbs
    ensures k.tcbs[t].priority < MAX_PRIORITIES && k.tcbs[t].basePriority < MAX_PRIORITIES && k.topReady < MAX_PRIORITIES
    ensures t in exempt || LocatedTask(k.tcbs[t], k.lists.home[t], k.events.home[t])
    ensures k.delayed != k.overflow && DELAYED_1 <= k.delayed <= DELAYED_2 && DELAYED_1 <= k.overflow <= DELAYED_2
    ensures k.tickCount == k.now % M && k.overflows == k.now / M
    ensures t in k.lists.home && t in k.events.home && t in k.due
  {
    hide Consistent, Ordered;
  }

  lemma DropKeepsWakeOrder(items: seq<TaskId>, p: nat, tcbs: map<TaskId, Tcb>)
    requires InWakeOrder(items, tcbs) && p < |items| && Distinct(items)
    ensures InWakeOrder(SeqDrop(items, p), tcbs)
  {
    DropMembership(items, p);
    assert Wakes(SeqDrop(items, p), tcbs) == SeqDrop(Wakes(items, tcbs), p);
    assert Sorted(SeqDrop(Wakes(items, tcbs), p));
  }

  lemma SortedInsertKeepsWakeOrder(items: seq<TaskId>, t: TaskId, tcbs: map<TaskId, Tcb>)
    requires InWakeOrder(items, tcbs) && t in tcbs
    ensures var p := InsertPosition(Wakes(items, tcbs), tcbs[t].wake); InWakeOrder(SeqInsert(items, p, t), tcbs)
  {
    var keys := Wakes(items, tcbs);
    var p := InsertPosition(keys, tcbs[t].wake);
    SortedInsertIsStable(keys, tcbs[t].wake);
    InsertMembership(items, p, t);
    assert Wakes(SeqInsert(items, p, t), tcbs) == SeqInsert(keys, p, tcbs[t].wake);
  }

  /** A new wake time for a task that is not in the list does not matter to the list. */
  lemma RewakeKeepsWakeOrder(items: seq<TaskId>, t: TaskId, tcbs: map<TaskId, Tcb>, tcb: Tcb)
    requires InWakeOrder(items, tcbs) && (t in items ==> t in tcbs && tcb.wake == tcbs[t].wake)
    ensures InWakeOrder(items, tcbs[t := tcb])
  {
    assert Wakes(items, tcbs[t := tcb]) == Wakes(items, tcbs);
  }

  lemma UnlinkKeepsOrder(k: Table, t: TaskId)
    requires Shape(k) && Ordered(k) && t in k.tcbs && k.lists.home[t] != NOWHERE
    ensures var k' := k.(lists := Unlink(k.lists, t)); Shape(k') && Ordered(k')
  {
    hide Consistent, InWakeOrder;
    RingHolds(k.lists, t);
    var i := k.lists.home[t];
    var items := k.lists.rings[i].items;
    if i == DELAYED_1 || i == DELAYED_2 {
      DropKeepsWakeOrder(items, Position(items, t), k.tcbs);
    }
  }

  /** vListRemove on the generic item. */
  lemma UnlinkIsSound(k: Table, t: TaskId, exempt: set<TaskId>, earliest: int)
    requires Shape(k) && Sound(k, exempt, earliest) && exempt <= {t} && t in k.tcbs && k.lists.home[t] != NOWHERE
    ensures var k' := k.(lists := Unlink(k.lists, t));
            Shape(k') && Sound(k', {t}, earliest) && States(k') == States(k)[t := StateIn(k', t)]
  {
    hide Consistent, Located, Timed, Cached, Ordered, Unlink, States, StateIn;
    UnlinkKeepsOrder(k, t);
    TaskFacts(k, exempt, earliest, t);
    MoveIsSound(k, k.(lists := Unlink(k.lists, t)), t, exempt, {t}, earliest);
  }

  /** vListRemove on the event item. */
  lemma UnlinkEventIsSound(k: Table, t: TaskId, exempt: set<TaskId>, earliest: int)
    requires Shape(k) && Sound(k, exempt, earliest) && exempt <= {t} && t in k.tcbs && k.events.home[t] != NOWHERE
    ensures var k' := k.(events := Unlink(k.events, t));
            Shape(k') && Sound(k', exempt, earliest) && States(k') == States(k)[t := StateIn(k', t)]
  {
    hide Consistent, Located, Timed, Cached, Topped, Clocked, InWakeOrder, Unlink, States, StateIn;
    TaskFacts(k, exempt, earliest, t);
    MoveIsSound(k, k.(events := Unlink(k.events, t)), t, exempt, exempt, earliest);
  }

  lemma LinkEndKeepsOrder(k: Table, i: nat, t: TaskId)
    requires Shape(k) && Ordered(k) && t in k.tcbs && k.lists.home[t] == NOWHERE
    requires i < LISTS && i != DELAYED_1 && i != DELAYED_2
    ensures forall topReady :: var k' := k.(lists := LinkEnd(k.lists, i, t), topReady := topReady); Shape(k') && Ordered(k')
  {
    hide Consistent, InWakeOrder;
  }

  /** vListInsertEnd of the generic item, into a list that is not one of the delayed lists. */
  lemma LinkEndIsSound(k: Table, i: nat, t: TaskId, topReady: nat, earliest: int)
    requires Shape(k) && Sound(k, {t}, earliest) && t in k.tcbs && k.lists.home[t] == NOWHERE
    requires i < LISTS && i != DELAYED_1 && i != DELAYED_2 && LocatedTask(k.tcbs[t], i, k.events.home[t])
    requires k.topReady <= topReady < MAX_PRIORITIES && (i < MAX_PRIORITIES ==> i <= topReady)
    ensures var k' := k.(lists := LinkEnd(k.lists, i, t), topReady := topReady);
            Shape(k') && Sound(k', {}, earliest) && States(k') == States(k)[t := StateIn(k', t)]
  {
    hide Consistent, Located, Timed, Cached, Topped, Clocked, Ordered, LinkEnd, States, StateIn;
    LinkEndKeepsOrder(k, i, t);
    TaskFacts(k, {t}, earliest, t);
    MoveIsSound(k, k.(lists := LinkEnd(k.lists, i, t), topReady := topReady), t, {t}, {}, earliest);
  }

  lemma RingInHome(f: Files, i: nat)
    requires Consistent(f) && i < |f.rings|
    ensures forall t :: t in f.rings[i].items ==> t in f.home && f.home[t] == i
    ensures forall t :: t in f.home && f.home[t] == i ==> t in f.rings[i].items
  {
  }

  /** vListInsert of the event item: a task on the move gets in line behind its equals. */
  lemma LinkEventIsSound(k: Table, e: nat, pos: nat, t: TaskId, earliest: int)
    requires Shape(k) && Sound(k, {t}, earliest) && t in k.tcbs && k.events.home[t] == NOWHERE
    requires e < |k.events.rings| && pos <= |k.events.rings[e].items|
    ensures var k' := k.(events := LinkAt(k.events, e, pos, t));
            Shape(k') && Sound(k', {t}, earliest) && States(k') == States(k)[t := StateIn(k', t)]
  {
    hide Consistent, Located, Timed, Cached, Topped, Clocked, InWakeOrder, LinkAt, States, StateIn;
    TaskFacts(k, {t}, earliest, t);
    MoveIsSound(k, k.(events := LinkAt(k.events, e, pos, t)), t, {t}, {t}, earliest);
  }

  /** vListInsertEnd of the event item. */
  lemma LinkEventEndIsSound(k: Table, e: nat, t: TaskId, exempt: set<TaskId>, earliest: int)
    requires Shape(k) && Sound(k, exempt, earliest) && exempt <= {t} && t in k.tcbs && k.events.home[t] == NOWHERE
    requires e < |k.events.rings| && (t in exempt || LocatedTask(k.tcbs[t], k.lists.home[t], e))
    ensures var k' := k.(events := LinkEnd(k.events, e, t));
            Shape(k') && Sound(k', exempt, earliest) && States(k') == States(k)[t := StateIn(k', t)]
  {
    hide Consistent, Located, Timed, Cached, Topped, Clocked, InWakeOrder, LinkEnd, States, StateIn;
    TaskFacts(k, exempt, earliest, t);
    MoveIsSound(k, k.(events := LinkEnd(k.events, e, t)), t, exempt, exempt, earliest);
  }

  lemma EventListFacts(k: Table, e: nat, t: TaskId)
    requires Shape(k) && e < |k.events.rings| && t in k.tcbs && k.events.home[t] == NOWHERE
    ensures forall u :: u in k.events.rings[e].items ==> u in k.tcbs
    ensures Consistent(k.events) && IsIn(k.events, NOWHERE, t)
  {
    RingInHome(k.events, e);
  }

  lemma EventFileIsConsistent(k: Table)
    requires Shape(k)
    ensures Consistent(k.events) && |k.events.rings| > PENDING
  {
    hide Consistent;
  }

  lemma HeadOfEventList(k: Table, e: nat)
    requires Shape(k) && e < |k.events.rings| && k.events.rings[e].items != []
    ensures var t := k.events.rings[e].items[0]; t in k.tcbs && t in k.events.home && k.events.home[t] == e
  {
    RingInHome(k.events, e);
  }

  lemma PendingListFacts(k: Table)
    requires Shape(k)
    ensures |k.events.rings| > PENDING
    ensures var items := k.events.rings[PENDING].items;
            if items != [] then items[0] in k.tcbs && items[0] in k.events.home && k.events.home[items[0]] == PENDING
            else forall t :: t in k.events.home ==> k.events.home[t] != PENDING
  {
    RingInHome(k.events, PENDING);
  }

  lemma NobodyToRelease(k: Table)
    requires Shape(k)
    requires forall t :: t in k.events.home ==> k.events.home[t] != PENDING
    ensures ReleasePending(States(k)) == States(k)
  {
    hide Consistent;
  }

  lemma ExemptIsSound(k: Table, t: TaskId, earliest: int)
    requires Shape(k) && Sound(k, {}, earliest)
    ensures Sound(k, {t}, earliest)
  {
    hide Consistent, Ordered, LocatedTask;
  }

  /** A task in an event list, or one that waits to be released, is neither ready nor deleted. */
  lemma WaitingMeans(k: Table, earliest: int, t: TaskId)
    requires Shape(k) && Sound(k, {}, earliest) && t in k.tcbs && k.events.home[t] != NOWHERE
    ensures t in k.lists.home && k.lists.home[t] >= MAX_PRIORITIES && k.lists.home[t] != TERMINATION
    ensures k.tcbs[t].priority < MAX_PRIORITIES && t in k.due
  {
    hide Consistent, Ordered;
  }

  lemma ReadyMeans(k: Table, earliest: int, t: TaskId)
    requires Shape(k) && Sound(k, {}, earliest) && t in k.tcbs && k.lists.home[t] < MAX_PRIORITIES
    ensures t in k.lists.home && t in k.due && t in k.events.home
    ensures 0 <= k.lists.home[t] == k.tcbs[t].priority && k.events.home[t] == NOWHERE
  {
    hide Consistent, Ordered;
    assert Consistent(k.lists) ==> k.lists.home[t] >= NOWHERE by {
      LocatedMeans(k, earliest, t);
    }
  }

  lemma LocatedMeans(k: Table, earliest: int, t: TaskId)
    requires Shape(k) && Sound(k, {}, earliest) && t in k.tcbs
    ensures k.lists.home[t] >= 0
  {
    hide Ordered;
  }

  // ----- blocking with a time limit

  /** The wait after which the clock shows the given time again. */
  function TicksUntil(tickCount: Tick, timeToWake: Tick): (ticks: Tick)
    ensures Wrap(tickCount + ticks) == timeToWake
  {
    var ticks := Wrap(timeToWake - tickCount);
    UntilIsExact(tickCount, timeToWake);
    ticks
  }

  lemma UntilIsExact(tickCount: Tick, timeToWake: Tick)
    ensures Wrap(tickCount + Wrap(timeToWake - tickCount)) == timeToWake
  {
  }

  lemma LaterTodayTakesTicks(tickCount: Tick, timeToWake: Tick)
    ensures timeToWake != tickCount ==> TicksUntil(tickCount, timeToWake) > 0
  {
  }

  lemma SameTimeTakesNoTicks(tickCount: Tick, ticks: Tick)
    ensures Wrap(tickCount + ticks) == tickCount ==> ticks == 0
  {
  }

  lemma UntilAfter(tickCount: Tick, ticks: Tick)
    ensures TicksUntil(tickCount, Wrap(tickCount + ticks)) == ticks
  {
  }

  /** The file of a task in transit that goes to sleep for the given ticks. */
  function Asleep(k: Table, t: TaskId, ticks: Tick): Table
    requires t in k.tcbs
  {
    k.(tcbs := k.tcbs[t := k.tcbs[t].(wake := Wrap(k.tickCount + ticks))], due := k.due[t := k.now + ticks])
  }

  lemma AsleepIsSound(k: Table, t: TaskId, ticks: Tick, earliest: int)
    requires Shape(k) && Sound(k, {t}, earliest) && t in k.tcbs && k.lists.home[t] == NOWHERE
    ensures var k' := Asleep(k, t, ticks);
            Shape(k') && Sound(k', {t}, earliest) && States(k') == States(k)[t := StateIn(k', t)]
  {
    hide Consistent, Located, Timed, Cached, Topped, Ordered, Wrap, States, StateIn;
    AsleepKeepsOrder(k, t, ticks);
    StatesDifferAt(k, Asleep(k, t, ticks), t);
    AsleepKeepsTime(k, t, ticks, earliest);
    AsleepKeepsPlaces(k, t, ticks);
  }

  lemma AsleepKeepsOrder(k: Table, t: TaskId, ticks: Tick)
    requires Shape(k) && Ordered(k) && t in k.tcbs && k.lists.home[t] == NOWHERE
    ensures var k' := Asleep(k, t, ticks); Shape(k') && Ordered(k')
  {
    hide Consistent, InWakeOrder, Wrap;
    RingInHome(k.lists, DELAYED_1);
    RingInHome(k.lists, DELAYED_2);
    var tcb := k.tcbs[t].(wake := Wrap(k.tickCount + ticks));
    RewakeKeepsWakeOrder(k.lists.rings[DELAYED_1].items, t, k.tcbs, tcb);
    RewakeKeepsWakeOrder(k.lists.rings[DELAYED_2].items, t, k.tcbs, tcb);
  }

  lemma AsleepKeepsTime(k: Table, t: TaskId, ticks: Tick, earliest: int)
    requires Shape(k) && Timed(k, earliest) && Cached(k) && Clocked(k) && t in k.tcbs && k.lists.home[t] == NOWHERE
    requires Shape(Asleep(k, t, ticks))
    ensures var k' := Asleep(k, t, ticks); Timed(k', earliest) && Cached(k') && Clocked(k')
  {
    hide Consistent, OfEpoch, Wrap;
  }

  lemma AsleepKeepsPlaces(k: Table, t: TaskId, ticks: Tick)
    requires Shape(k) && Located(k, {t}) && Topped(k) && t in k.tcbs && k.lists.home[t] == NOWHERE
    requires Shape(Asleep(k, t, ticks))
    ensures var k' := Asleep(k, t, ticks); Located(k', {t}) && Topped(k')
  {
    hide Consistent, Wrap;
  }

  /** The delayed list that prvAddCurrentTaskToDelayedList chooses. */
  function SleepList(k: Table, wake: Tick): int {
    if wake < k.tickCount then k.overflow else k.delayed
  }

  lemma SleepingTime(now: nat, ticks: Tick)
    ensures var wake := Wrap(now % M + ticks);
            if wake < now % M then OfEpoch(now + ticks, now / M + 1, wake) else OfEpoch(now + ticks, now / M, wake)
  {
    var n := now % M;
    assert now == M * (now / M) + n;
    if n + ticks < M {
      Arithmetic.SmallMod(n + ticks, M);
      Arithmetic.DivModUnique(now + ticks, M, now / M, n + ticks);
    } else {
      Arithmetic.DivModUnique(n + ticks, M, 1, n + ticks - M);
      Arithmetic.DivModUnique(now + ticks, M, now / M + 1, n + ticks - M);
    }
  }

  lemma SleepKeepsOrder(k: Table, t: TaskId, list: int, nextUnblock: int)
    requires Shape(k) && Ordered(k) && t in k.tcbs && k.lists.home[t] == NOWHERE
    requires list == DELAYED_1 || list == DELAYED_2
    ensures var items := k.lists.rings[list].items;
            && (forall u :: u in items ==> u in k.tcbs)
            && var pos := InsertPosition(Wakes(items, k.tcbs), k.tcbs[t].wake);
            var k' := k.(lists := LinkAt(k.lists, list, pos, t), nextUnblock := nextUnblock);
            Shape(k') && Ordered(k')
  {
    hide Consistent, Wakes, Sorted;
    SortedInsertKeepsWakeOrder(k.lists.rings[list].items, t, k.tcbs);
  }

  /** The task, its wake time set, is now in the delayed list of its epoch. */
  ghost predicate FallsAsleep(k: Table, k': Table, t: TaskId, list: int)
    requires Shape(k) && Shape(k') && t in k.tcbs
  {
    && t in k'.tcbs && k'.tcbs == k.tcbs && k'.due == k.due && k'.events == k.events
    && k'.lists.home == k.lists.home[t := list] && k.lists.home[t] == NOWHERE
    && k'.delayed == k.delayed && k'.overflow == k.overflow && k'.now == k.now
    && k'.tickCount == k.tickCount && k'.overflows == k.overflows && k'.topReady == k.topReady
    && k'.nextUnblock == if list == k.delayed && k.tcbs[t].wake < k.nextUnblock then k.tcbs[t].wake else k.nextUnblock
  }

  lemma SleepKeepsTime(k: Table, k': Table, t: TaskId, list: int, earliest: int)
    requires Shape(k) && Shape(k') && t in k.tcbs && FallsAsleep(k, k', t, list)
    requires Timed(k, earliest) && Clocked(k) && k.due[t] >= earliest
    requires list == SleepList(k, k.tcbs[t].wake)
    requires OfEpoch(k.due[t], if list == k.overflow then k.now / M + 1 else k.now / M, k.tcbs[t].wake)
    ensures Timed(k', earliest) && Clocked(k')
  {
    hide Consistent, OfEpoch;
  }

  lemma SleepKeepsCache(k: Table, k': Table, t: TaskId, list: int)
    requires Shape(k) && Shape(k') && t in k.tcbs && FallsAsleep(k, k', t, list)
    requires Cached(k)
    ensures Cached(k')
  {
    hide Consistent;
  }

  lemma SleepKeepsPlaces(k: Table, k': Table, t: TaskId, list: int)
    requires Shape(k) && Shape(k') && t in k.tcbs && FallsAsleep(k, k', t, list)
    requires Located(k, {t}) && Topped(k) && (list == DELAYED_1 || list == DELAYED_2)
    ensures Located(k', {}) && Topped(k')
  {
    hide Consistent;
  }

  /** prvAddCurrentTaskToDelayedList keeps the invariant and blocks the task until now + ticks. */
  lemma SleepIsSound(k: Table, k': Table, t: TaskId, ticks: Tick, earliest: int)
    requires Shape(k) && Sound(k, {t}, earliest) && k.now + ticks >= earliest && t in k.tcbs && k.lists.home[t] == NOWHERE
    requires k.tcbs[t].wake == Wrap(k.tickCount + ticks) && k.due[t] == k.now + ticks
    requires Shape(k') && Ordered(k') && FallsAsleep(k, k', t, SleepList(k, k.tcbs[t].wake))
    ensures Sound(k', {}, earliest) && States(k') == States(k)[t := StateIn(k', t)]
    ensures StateIn(k', t).place == Blocked(k.now + ticks)
  {
    hide Consistent, Located, Timed, Cached, Topped, Ordered, OfEpoch, States, Wrap;
    SleepingTime(k.now, ticks);
    SleepKeepsTime(k, k', t, SleepList(k, k.tcbs[t].wake), earliest);
    SleepKeepsCache(k, k', t, SleepList(k, k.tcbs[t].wake));
    SleepKeepsPlaces(k, k', t, SleepList(k, k.tcbs[t].wake));
    StatesDifferAt(k, k', t);
  }

  /** The sorted insertion of prvAddCurrentTaskToDelayedList, the wake time being set. */
  lemma InsertAsleepIsSound(k: Table, t: TaskId, ticks: Tick, nextUnblock: int, earliest: int)
    requires Shape(k) && Sound(k, {t}, earliest) && k.now + ticks >= earliest
    requires t in k.tcbs && k.lists.home[t] == NOWHERE
    requires k.tcbs[t].wake == Wrap(k.tickCount + ticks) && k.due[t] == k.now + ticks
    requires DELAYED_1 <= k.delayed <= DELAYED_2 && DELAYED_1 <= k.overflow <= DELAYED_2
    requires nextUnblock == if SleepList(k, k.tcbs[t].wake) == k.delayed && k.tcbs[t].wake < k.nextUnblock
                            then k.tcbs[t].wake else k.nextUnblock
    ensures var list := SleepList(k, k.tcbs[t].wake);
            var items := k.lists.rings[list].items;
            && (forall u :: u in items ==> u in k.tcbs)
            && var k' := k.(lists := LinkAt(k.lists, list, InsertPosition(Wakes(items, k.tcbs), k.tcbs[t].wake), t),
                            nextUnblock := nextUnblock);
            && Shape(k') && Sound(k', {}, earliest) && States(k') == States(k)[t := StateIn(k', t)]
            && StateIn(k', t).place == Blocked(k.now + ticks)
  {
    hide Consistent, Located, Timed, Cached, Topped, Ordered, Wrap, Sound, States, StateIn, LinkAt, Wakes, InsertPosition;
    var list := SleepList(k, k.tcbs[t].wake);
    SoundDelayedLists(k, {t}, earliest);
    SleepKeepsOrder(k, t, list, nextUnblock);
    var pos := InsertPosition(Wakes(k.lists.rings[list].items, k.tcbs), k.tcbs[t].wake);
    SleepIsSound(k, k.(lists := LinkAt(k.lists, list, pos, t), nextUnblock := nextUnblock), t, ticks, earliest);
  }

  lemma SleepFacts(k: Table, t: TaskId, timeToWake: Tick, exempt: set<TaskId>, earliest: int)
    requires Shape(k) && Sound(k, exempt, earliest) && t in k.tcbs && k.lists.home[t] == NOWHERE
    ensures |k.lists.rings| == LISTS && t in k.due && Consistent(k.lists) && IsIn(k.lists, NOWHERE, t)
    ensures k.delayed != k.overflow && DELAYED_1 <= k.delayed <= DELAYED_2 && DELAYED_1 <= k.overflow <= DELAYED_2
    ensures var items := k.lists.rings[SleepList(k, timeToWake)].items; forall u :: u in items ==> u in k.tcbs
  {
    SoundDelayedLists(k, exempt, earliest);
    RingInHome(k.lists, SleepList(k, timeToWake));
  }

  lemma NoEventWhenDeleted(k: Table, earliest: int, t: TaskId)
    requires Shape(k) && Sound(k, {}, earliest) && t in k.tcbs && k.lists.home[t] == TERMINATION
    ensures t in k.events.home && k.events.home[t] == NOWHERE && t in k.lists.home && t in k.due
  {
    hide Consistent;
  }

  // ----- the clock

  /** A tick that does not run over: what was due by the last tick may now be due. */
  lemma TickIsSound(k: Table)
    requires Shape(k) && Sound(k, {}, k.now) && k.tickCount < MAX_DELAY
    ensures var k' := k.(tickCount := Wrap(k.tickCount + 1), now := k.now + 1);
            Shape(k') && Sound(k', {}, k.now) && States(k') == States(k) && k'.tickCount != 0
  {
    hide Consistent, OfEpoch, InWakeOrder;
    Arithmetic.ModStep(k.now, M);
    Arithmetic.SmallMod(k.tickCount + 1, M);
  }

  /** At a rollover nobody is left in the delayed list of the old epoch: the assertion there cannot fail. */
  lemma NobodyLeftAtRollover(k: Table)
    requires Shape(k) && Sound(k, {}, k.now + 1) && k.tickCount == MAX_DELAY
    ensures DELAYED_1 <= k.delayed <= DELAYED_2 && k.lists.rings[k.delayed].items == []
    ensures forall t :: t in k.tcbs ==> k.lists.home[t] != k.delayed
  {
    SomeoneIsIn(k.lists.rings[k.delayed].items);
    RingInHome(k.lists, k.delayed);
    hide Consistent, InWakeOrder;
    forall t | t in k.tcbs ensures k.lists.home[t] == k.delayed ==> k.due[t] <= k.now {
      EpochEnds(k.due[t], k.now);
    }
    assert forall t :: t in k.tcbs && k.lists.home[t] == k.delayed ==> k.due[t] > k.now;
  }

  lemma SomeoneIsIn(items: seq<TaskId>)
    ensures items != [] ==> exists t :: t in items
  {
    if items != [] {
      assert items[0] in items;
    }
  }

  lemma EpochEnds(due: nat, now: nat)
    requires now % M == MAX_DELAY
    ensures due / M == now / M ==> due <= now
  {
    assert now == M * (now / M) + MAX_DELAY;
    assert due == M * (due / M) + due % M;
  }

  /** The value of the head, the earliest of all, or the largest value if there is no head. */
  ghost predicate HeadWake(k: Table, list: int, wake: int)
    requires Shape(k) && (list == DELAYED_1 || list == DELAYED_2)
  {
    var items := k.lists.rings[list].items;
    if items == [] then wake == MAX_DELAY else items[0] in k.tcbs && wake == k.tcbs[items[0]].wake
  }

  lemma HeadIsKnown(k: Table, list: int)
    requires Shape(k) && (list == DELAYED_1 || list == DELAYED_2)
    ensures |k.lists.rings| == LISTS
    ensures var items := k.lists.rings[list].items; items != [] ==> items[0] in k.tcbs && k.lists.home[items[0]] == list
  {
    RingInHome(k.lists, list);
  }

  lemma HeadIsEarliest(k: Table, list: int, wake: int)
    requires Shape(k) && Ordered(k) && (list == DELAYED_1 || list == DELAYED_2) && HeadWake(k, list, wake)
    ensures 0 <= wake <= MAX_DELAY
    ensures forall t :: t in k.tcbs && k.lists.home[t] == list ==> wake <= k.tcbs[t].wake
  {
    RingInHome(k.lists, list);
    hide Consistent;
    var items := k.lists.rings[list].items;
    forall t | t in k.tcbs && k.lists.home[t] == list ensures wake <= k.tcbs[t].wake {
      var i := Position(items, t);
      assert Wakes(items, k.tcbs)[0] <= Wakes(items, k.tcbs)[i];
    }
  }

  /** The rollover: the delayed lists trade places and the cache is loaded afresh. */
  lemma RolloverIsSound(k: Table)
    requires Shape(k) && Sound(k, {}, k.now + 1) && k.tickCount == MAX_DELAY
    ensures |k.lists.rings| == LISTS && DELAYED_1 <= k.delayed <= DELAYED_2 && k.lists.rings[k.delayed].items == []
    ensures DELAYED_1 <= k.overflow <= DELAYED_2
    ensures var items := k.lists.rings[k.overflow].items;
            && (items != [] ==> items[0] in k.tcbs)
            && var wake := if items == [] then MAX_DELAY else k.tcbs[items[0]].wake;
            var k' := Table(k.tcbs, k.lists, k.events, k.due, k.overflow, k.delayed,
                            0, k.overflows + 1, wake, k.topReady, k.now + 1);
            Shape(k') && Sound(k', {}, k.now) && States(k') == States(k)
  {
    hide Sound, States, Consistent;
    SoundDelayedLists(k, {}, k.now + 1);
    NobodyLeftAtRollover(k);
    HeadIsKnown(k, k.overflow);
    var items := k.lists.rings[k.overflow].items;
    var wake := if items == [] then MAX_DELAY else k.tcbs[items[0]].wake;
    HeadIsEarliest(k, k.overflow, wake);
    NewEpoch(k, wake);
  }

  lemma SoundDelayedLists(k: Table, exempt: set<TaskId>, earliest: int)
    requires Shape(k) && Sound(k, exempt, earliest)
    ensures k.delayed != k.overflow && DELAYED_1 <= k.delayed <= DELAYED_2 && DELAYED_1 <= k.overflow <= DELAYED_2
    ensures Ordered(k)
  {
    hide Consistent, Ordered;
  }

  lemma NewEpoch(k: Table, wake: int)
    requires Shape(k) && Sound(k, {}, k.now + 1) && k.tickCount == MAX_DELAY && 0 <= wake <= MAX_DELAY
    requires forall t :: t in k.tcbs ==> k.lists.home[t] != k.delayed
    requires forall t :: t in k.tcbs && k.lists.home[t] == k.overflow ==> wake <= k.tcbs[t].wake
    ensures var k' := k.(tickCount := 0, now := k.now + 1, overflows := k.overflows + 1,
                         delayed := k.overflow, overflow := k.delayed, nextUnblock := wake);
            Shape(k') && Sound(k', {}, k.now) && States(k') == States(k)
  {
    hide Consistent, InWakeOrder;
    Arithmetic.ModStep(k.now, M);
    forall t | t in k.tcbs && k.lists.home[t] == k.overflow ensures k.due[t] >= k.now {
      assert k.due[t] == M * (k.due[t] / M) + k.due[t] % M;
      assert k.now == M * (k.now / M) + k.now % M;
    }
  }

  /** While the clock has not reached the cached time nobody is due: the scan may be skipped. */
  lemma NobodyDueBeforeCache(k: Table)
    requires Shape(k) && Sound(k, {}, k.now - 1) && k.tickCount < k.nextUnblock
    ensures Sound(k, {}, k.now + 1)
  {
    hide Consistent, InWakeOrder;
    forall t | t in k.tcbs && k.lists.home[t] == k.delayed ensures k.due[t] >= k.now + 1 {
      assert k.due[t] == M * (k.due[t] / M) + k.due[t] % M;
      assert k.now == M * (k.now / M) + k.now % M;
    }
  }

  /** Once the head of the delayed list lies ahead, or is missing, nobody is due and the head's value may be cached. */
  lemma NobodyDueBeforeHead(k: Table, wake: int)
    requires Shape(k) && Sound(k, {}, k.now - 1) && HeadWake(k, k.delayed, wake)
    requires k.lists.rings[k.delayed].items == [] || k.tickCount < wake
    ensures var k' := k.(nextUnblock := wake); Shape(k') && Sound(k', {}, k.now + 1) && States(k') == States(k)
  {
    RingInHome(k.lists, k.delayed);
    HeadIsEarliest(k, k.delayed, wake);
    AllAhead(k, wake);
  }

  lemma AllAhead(k: Table, wake: int)
    requires Shape(k) && Sound(k, {}, k.now - 1) && 0 <= wake <= MAX_DELAY
    requires forall t :: t in k.tcbs && k.lists.home[t] == k.delayed ==> k.tickCount < k.tcbs[t].wake && wake <= k.tcbs[t].wake
    ensures var k' := k.(nextUnblock := wake); Shape(k') && Sound(k', {}, k.now + 1) && States(k') == States(k)
  {
    hide Consistent, InWakeOrder;
    forall t | t in k.tcbs && k.lists.home[t] == k.delayed ensures k.due[t] >= k.now + 1 {
      assert k.due[t] == M * (k.due[t] / M) + k.due[t] % M;
      assert k.now == M * (k.now / M) + k.now % M;
    }
  }

  /** A head whose value the clock has reached belongs to a task that is due. */
  lemma HeadIsDue(k: Table, t: TaskId)
    requires Shape(k) && Sound(k, {}, k.now - 1) && t in k.tcbs && k.lists.home[t] == k.delayed
    requires k.tickCount >= k.tcbs[t].wake
    ensures StateIn(k, t).place == Blocked(k.due[t]) && k.due[t] <= k.now
  {
    hide Consistent, InWakeOrder;
    assert k.due[t] == M * (k.due[t] / M) + k.due[t] % M;
    assert k.now == M * (k.now / M) + k.now % M;
  }

  /** When this epoch's due times all lie ahead, waking whoever is due changes nothing. */
  lemma NobodyIsDue(k: Table)
    requires Shape(k) && Sound(k, {}, k.now + 1)
    ensures WakeDue(States(k), k.now) == States(k)
  {
    hide Consistent, InWakeOrder;
    forall t | t in k.tcbs && StateIn(k, t).place.Blocked? ensures k.due[t] > k.now {
      if k.lists.home[t] == k.overflow {
        assert k.due[t] == M * (k.due[t] / M) + k.due[t] % M;
        assert k.now == M * (k.now / M) + k.now % M;
      }
    }
    NobodyDue(States(k), k.now);
  }

  lemma LaterBoundIsSound(k: Table, exempt: set<TaskId>, a: int, b: int)
    requires Shape(k) && Sound(k, exempt, a) && b <= a
    ensures Sound(k, exempt, b)
  {
    hide Consistent, InWakeOrder, OfEpoch;
  }

  /**
    A wait that starts at the last tick of an epoch: the delayed list is empty at the rollover that
    comes next, as the assertion there demands, if and only if the wait is not of zero ticks.
   */
  lemma RolloverAfterWait(k: Table, k': Table, t: TaskId, ticks: Tick)
    requires Shape(k) && Sound(k, {t}, k.now + 1) && k.tickCount == MAX_DELAY
    requires t in k.tcbs && k.lists.home[t] == NOWHERE
    requires k.tcbs[t].wake == Wrap(k.tickCount + ticks) && k.due[t] == k.now + ticks
    requires Shape(k') && Ordered(k') && FallsAsleep(k, k', t, SleepList(k, k.tcbs[t].wake))
    ensures DELAYED_1 <= k'.delayed <= DELAYED_2
    ensures k'.lists.rings[k'.delayed].items == [] <==> ticks > 0
  {
    hide Sound, Consistent;
    SoundDelayedLists(k, {t}, k.now + 1);
    if ticks > 0 {
      SleepIsSound(k, k', t, ticks, k.now + 1);
      NobodyLeftAtRollover(k');
    } else {
      assert Wrap(k.tickCount + 0) == k.tickCount;
      RingInHome(k'.lists, k'.delayed);
      assert t in k'.lists.rings[k'.delayed].items;
    }
  }

  // ----- changes to a task's record

  lemma RetcbKeepsTime(k: Table, t: TaskId, tcb: Tcb, earliest: int)
    requires Shape(k) && t in k.tcbs && tcb.wake == k.tcbs[t].wake && Shape(k.(tcbs := k.tcbs[t := tcb]))
    requires Timed(k, earliest) && Cached(k) && Topped(k)
    ensures var k' := k.(tcbs := k.tcbs[t := tcb]); Timed(k', earliest) && Cached(k') && Topped(k')
  {
    hide Consistent, TimedTask;
  }

  lemma RetcbKeepsOrder(k: Table, t: TaskId, tcb: Tcb)
    requires Shape(k) && t in k.tcbs && tcb.wake == k.tcbs[t].wake && Ordered(k)
    ensures var k' := k.(tcbs := k.tcbs[t := tcb]); Shape(k') && Ordered(k')
  {
    hide Consistent, InWakeOrder;
    RewakeKeepsWakeOrder(k.lists.rings[DELAYED_1].items, t, k.tcbs, tcb);
    RewakeKeepsWakeOrder(k.lists.rings[DELAYED_2].items, t, k.tcbs, tcb);
  }

  lemma RetcbKeepsLocated(k: Table, t: TaskId, tcb: Tcb, exempt: set<TaskId>, exempt': set<TaskId>)
    requires Shape(k) && t in k.tcbs && Shape(k.(tcbs := k.tcbs[t := tcb]))
    requires Located(k, exempt) && exempt <= {t}
    requires tcb.priority < MAX_PRIORITIES && tcb.basePriority < MAX_PRIORITIES
    requires t in exempt' || LocatedTask(tcb, k.lists.home[t], k.events.home[t])
    ensures Located(k.(tcbs := k.tcbs[t := tcb]), exempt')
  {
    hide Consistent;
  }

  /** A task gets new priorities; it must move if it is in the ready list of the old one. */
  lemma RetcbIsSound(k: Table, t: TaskId, tcb: Tcb, exempt: set<TaskId>, exempt': set<TaskId>, earliest: int)
    requires Shape(k) && Sound(k, exempt, earliest) && exempt <= {t} && t in k.tcbs
    requires tcb.wake == k.tcbs[t].wake && tcb.priority < MAX_PRIORITIES && tcb.basePriority < MAX_PRIORITIES
    requires t in exempt' || LocatedTask(tcb, k.lists.home[t], k.events.home[t])
    ensures var k' := k.(tcbs := k.tcbs[t := tcb]);
            Shape(k') && Sound(k', exempt', earliest) && States(k') == States(k)[t := StateIn(k', t)]
  {
    hide Consistent, Located, Timed, Cached, Topped, Ordered, States, StateIn;
    RetcbKeepsOrder(k, t, tcb);
    RetcbKeepsTime(k, t, tcb, earliest);
    RetcbKeepsLocated(k, t, tcb, exempt, exempt');
    StatesDifferAt(k, k.(tcbs := k.tcbs[t := tcb]), t);
  }

  // ----- new tasks and freed tasks

  /** The record of a new task: prvInitialiseTCBVariables. */
  function Enrolled(k: Table, t: TaskId, tcb: Tcb): Table
    requires Consistent(k.lists) && Consistent(k.events) && t !in k.lists.home && t !in k.events.home
  {
    k.(tcbs := k.tcbs[t := tcb], lists := Enroll(k.lists, t), events := Enroll(k.events, t), due := k.due[t := 0])
  }

  lemma EnrollKeepsOrder(k: Table, t: TaskId, tcb: Tcb)
    requires Shape(k) && Ordered(k) && t !in k.tcbs
    ensures var k' := Enrolled(k, t, tcb); Shape(k') && Ordered(k')
  {
    hide Consistent, InWakeOrder;
    RingInHome(k.lists, DELAYED_1);
    RingInHome(k.lists, DELAYED_2);
    RewakeKeepsWakeOrder(k.lists.rings[DELAYED_1].items, t, k.tcbs, tcb);
    RewakeKeepsWakeOrder(k.lists.rings[DELAYED_2].items, t, k.tcbs, tcb);
  }

  lemma EnrollIsSound(k: Table, t: TaskId, tcb: Tcb, earliest: int)
    requires Shape(k) && Sound(k, {}, earliest) && t !in k.tcbs
    requires tcb.priority < MAX_PRIORITIES && tcb.basePriority < MAX_PRIORITIES
    ensures var k' := Enrolled(k, t, tcb);
            Shape(k') && Sound(k', {t}, earliest) && States(k') == States(k)[t := StateIn(k', t)]
    ensures t !in States(k) && |k.tcbs[t := tcb]| == |k.tcbs| + 1
    ensures Consistent(k.lists) && Consistent(k.events) && t !in k.lists.home && t !in k.events.home && |k.lists.rings| == LISTS
  {
    hide Consistent, Located, Timed, Cached, Topped, Ordered, States, StateIn;
    StatesKeys(k);
    EnrollKeepsOrder(k, t, tcb);
    EnrollKeepsParts(k, t, tcb, earliest);
    EnrollKeepsStates(k, t, tcb);
  }

  lemma EnrollKeepsParts(k: Table, t: TaskId, tcb: Tcb, earliest: int)
    requires Shape(k) && t !in k.tcbs && Shape(Enrolled(k, t, tcb))
    requires Located(k, {}) && Timed(k, earliest) && Cached(k) && Topped(k) && Clocked(k)
    requires tcb.priority < MAX_PRIORITIES && tcb.basePriority < MAX_PRIORITIES
    ensures var k' := Enrolled(k, t, tcb);
            Located(k', {t}) && Timed(k', earliest) && Cached(k') && Topped(k') && Clocked(k')
  {
    hide Consistent, TimedTask, LocatedTask;
    assert TimedTask(tcb.wake, NOWHERE, 0, k.delayed, k.overflow, k.now / M, k.tickCount, earliest) by {
      NowhereIsTimed(tcb.wake, k.delayed, k.overflow, k.now / M, k.tickCount, earliest);
    }
  }

  lemma NowhereIsTimed(wake: Tick, delayed: int, overflow: int, epoch: int, tickCount: Tick, earliest: int)
    ensures delayed != NOWHERE && overflow != NOWHERE ==> TimedTask(wake, NOWHERE, 0, delayed, overflow, epoch, tickCount, earliest)
  {
  }

  lemma EnrollKeepsStates(k: Table, t: TaskId, tcb: Tcb)
    requires Shape(k) && t !in k.tcbs && Shape(Enrolled(k, t, tcb))
    ensures var k' := Enrolled(k, t, tcb); States(k') == States(k)[t := StateIn(k', t)]
  {
    hide Consistent;
  }

  /** The tables without the record of t. */
  function Discharged(k: Table, t: TaskId): Table
    requires Consistent(k.lists) && Consistent(k.events) && IsIn(k.lists, NOWHERE, t) && IsIn(k.events, NOWHERE, t)
  {
    k.(tcbs := k.tcbs - {t}, lists := Discharge(k.lists, t), events := Discharge(k.events, t), due := k.due - {t})
  }

  lemma DischargeKeepsOrder(k: Table, t: TaskId)
    requires Shape(k) && Ordered(k) && IsIn(k.lists, NOWHERE, t) && IsIn(k.events, NOWHERE, t)
    ensures var k' := Discharged(k, t); Shape(k') && Ordered(k')
  {
    hide Consistent;
    RingInHome(k.lists, DELAYED_1);
    RingInHome(k.lists, DELAYED_2);
    assert Wakes(k.lists.rings[DELAYED_1].items, k.tcbs - {t}) == Wakes(k.lists.rings[DELAYED_1].items, k.tcbs);
    assert Wakes(k.lists.rings[DELAYED_2].items, k.tcbs - {t}) == Wakes(k.lists.rings[DELAYED_2].items, k.tcbs);
  }

  lemma DischargeIsSound(k: Table, t: TaskId, earliest: int)
    requires Shape(k) && Sound(k, {t}, earliest) && IsIn(k.lists, NOWHERE, t) && IsIn(k.events, NOWHERE, t)
    ensures var k' := Discharged(k, t);
            Shape(k') && Sound(k', {}, earliest) && States(k') == States(k) - {t}
    ensures Consistent(k.lists) && Consistent(k.events) && |k.tcbs - {t}| == |k.tcbs| - 1
  {
    hide Consistent, Ordered, OfEpoch, StateIn;
    DischargeKeepsOrder(k, t);
    DischargeKeepsStates(k, t);
  }

  lemma DischargeKeepsStates(k: Table, t: TaskId)
    requires Shape(k) && IsIn(k.lists, NOWHERE, t) && IsIn(k.events, NOWHERE, t) && Shape(Discharged(k, t))
    ensures States(Discharged(k, t)) == States(k) - {t}
  {
    hide Consistent;
  }

  // ----- choosing the next task

  /** Walking a list on changes no task's state. */
  lemma AdvanceIsSound(k: Table, i: nat, exempt: set<TaskId>, earliest: int)
    requires Shape(k) && Sound(k, exempt, earliest) && i < LISTS && k.lists.rings[i].items != []
    requires k.lists.rings[i].index <= |k.lists.rings[i].items|
    ensures var k' := k.(lists := k.lists.(rings := k.lists.rings[i := Advance(k.lists.rings[i])]));
            Shape(k') && Sound(k', exempt, earliest) && States(k') == States(k)
  {
    hide Located, Timed, Cached, Topped, InWakeOrder, StateIn;
    AdvanceKeepsParts(k, i, exempt, earliest);
  }

  lemma AdvanceKeepsParts(k: Table, i: nat, exempt: set<TaskId>, earliest: int)
    requires Shape(k) && Located(k, exempt) && Timed(k, earliest) && Cached(k) && Topped(k)
    requires i < LISTS && k.lists.rings[i].items != [] && k.lists.rings[i].index <= |k.lists.rings[i].items|
    ensures var k' := k.(lists := k.lists.(rings := k.lists.rings[i := Advance(k.lists.rings[i])]));
            Shape(k') && Located(k', exempt) && Timed(k', earliest) && Cached(k') && Topped(k')
            && forall t :: t in k.tcbs ==> StateIn(k', t) == StateIn(k, t)
  {
    hide Consistent, TimedTask, LocatedTask;
    AdvanceKeepsFile(k.lists, i);
  }

  lemma AdvanceKeepsFile(f: Files, i: nat)
    requires Consistent(f) && i < |f.rings| && f.rings[i].items != [] && f.rings[i].index <= |f.rings[i].items|
    ensures Consistent(f.(rings := f.rings[i := Advance(f.rings[i])]))
  {
  }

  /** If all ready lists above p are empty and p is not, the tasks of p are the ready tasks of highest priority. */
  lemma HighestReady(k: Table, p: nat, earliest: int, t: TaskId)
    requires Shape(k) && Sound(k, {}, earliest) && p < MAX_PRIORITIES && k.topReady == p && t in k.lists.rings[p].items
    ensures t in k.tcbs && k.lists.home[t] == k.tcbs[t].priority == p
    ensures forall u :: u in k.tcbs && k.lists.home[u] < MAX_PRIORITIES ==> k.tcbs[u].priority <= p
  {
    RingInHome(k.lists, p);
    hide Consistent, Ordered;
  }

  lemma LowerTopKeepsStates(k: Table)
    requires Shape(k) && k.topReady > 0 && Shape(k.(topReady := k.topReady - 1))
    ensures States(k.(topReady := k.topReady - 1)) == States(k)
  {
    hide Consistent;
  }

  /** The choice of vTaskSwitchContext, once the top ready list holds a task. */
  lemma NextInTurn(k: Table, earliest: int)
    requires Shape(k) && Sound(k, {}, earliest)
    requires k.topReady < MAX_PRIORITIES < |k.lists.rings| && k.lists.rings[k.topReady].items != []
    ensures k.lists.rings[k.topReady].index <= |k.lists.rings[k.topReady].items|
    ensures var ring := Advance(k.lists.rings[k.topReady]);
            var t := ring.items[ring.index - 1];
            && t == Rotation(k.lists.rings[k.topReady])[0]
            && t in k.tcbs && k.lists.home[t] == k.tcbs[t].priority == k.topReady
            && forall u :: u in k.tcbs && u in k.lists.home && k.lists.home[u] < MAX_PRIORITIES ==> k.tcbs[u].priority <= k.topReady
  {
    hide Sound;
    var r := k.lists.rings[k.topReady];
    assert WellFormed(r);
    AdvanceRotates(r);
    var t := Advance(r).items[Advance(r).index - 1];
    assert t in r.items;
    HighestReady(k, k.topReady, earliest, t);
  }

  /** As long as somebody is ready, the lowest list cannot be found empty at the end of the search. */
  lemma SomeoneReady(k: Table, earliest: int)
    requires Shape(k) && Sound(k, {}, earliest) && |k.lists.rings| > k.topReady
    requires exists t :: t in k.lists.home && 0 <= k.lists.home[t] < MAX_PRIORITIES
    requires k.lists.rings[k.topReady].items == []
    ensures k.topReady > 0
  {
    hide Ordered;
    RingInHome(k.lists, 0);
  }

  /** An empty ready list at the top may be left behind. */
  lemma LowerTop(k: Table, exempt: set<TaskId>, earliest: int)
    requires Shape(k) && Sound(k, exempt, earliest) && 0 < k.topReady < LISTS && k.lists.rings[k.topReady].items == []
    ensures var k' := k.(topReady := k.topReady - 1); Shape(k') && Sound(k', exempt, earliest) && States(k') == States(k)
  {
    hide Consistent, InWakeOrder, TimedTask, LocatedTask, StateIn;
    RingInHome(k.lists, k.topReady);
    LowerTopKeepsStates(k);
  }

  // ----- what the invariant says, in the source's terms

  /**
    Every task is in exactly one of the ready list of its priority, the two delayed lists, the
    suspended list and the termination list; its event item is in one list at most; and the
    lengths of the lists add up to the number of tasks.
   */
  lemma TasksArePartitioned(k: Table, earliest: int)
    requires Shape(k) && Sound(k, {}, earliest)
    ensures TotalLength(k.lists.rings) == |k.tcbs|
    ensures forall t :: t in k.tcbs ==> FiledOnce(k, t)
  {
    hide Consistent, Sound, FiledOnce;
    forall t | t in k.tcbs ensures FiledOnce(k, t) && k.lists.home[t] != NOWHERE {
      TaskIsFiledOnce(k, earliest, t);
    }
    Census(k.lists);
    SameSize(k.tcbs, k.lists.home);
  }

  lemma TaskIsFiledOnce(k: Table, earliest: int, t: TaskId)
    requires Shape(k) && Sound(k, {}, earliest) && t in k.tcbs
    ensures FiledOnce(k, t) && k.lists.home[t] != NOWHERE
  {
    hide Sound;
    TaskFacts(k, {}, earliest, t);
    LocatedMeans(k, earliest, t);
    ExactlyOneList(k.lists, t);
    InOneEventList(k.events, t);
  }

  /** The task is in one list of generic items, once, and in at most one event list. */
  ghost predicate FiledOnce(k: Table, t: TaskId)
    requires Shape(k) && t in k.tcbs
  {
    && 0 <= k.lists.home[t] < LISTS
    && (forall i :: 0 <= i < LISTS ==> (t in k.lists.rings[i].items <==> i == k.lists.home[t]))
    && multiset(k.lists.rings[k.lists.home[t]].items)[t] == 1
    && (k.lists.home[t] < MAX_PRIORITIES ==> k.lists.home[t] == k.tcbs[t].priority)
    && (forall i, j :: 0 <= i < j < |k.events.rings| ==> t !in k.events.rings[i].items || t !in k.events.rings[j].items)
  }

  lemma InOneEventList(f: Files, t: TaskId)
    requires Consistent(f) && t in f.home
    ensures forall i, j :: 0 <= i < j < |f.rings| ==> t !in f.rings[i].items || t !in f.rings[j].items
  {
  }

  lemma SameSize<A, B>(a: map<TaskId, A>, b: map<TaskId, B>)
    requires a.Keys == b.Keys
    ensures |a| == |b|
  {
    assert |a| == |a.Keys| && |b| == |b.Keys|;
  }

  /**
    The current delayed list is sorted, holds no value the clock has passed and none before the
    cached unblock time; the overflow list is sorted and holds only values the clock has passed.
   */
  lemma DelayedListsAreSplit(k: Table)
    requires Shape(k) && Sound(k, {}, k.now)
    ensures DELAYED_1 <= k.delayed <= DELAYED_2 && DELAYED_1 <= k.overflow <= DELAYED_2
    ensures InWakeOrder(k.lists.rings[k.delayed].items, k.tcbs) && InWakeOrder(k.lists.rings[k.overflow].items, k.tcbs)
    ensures forall t :: t in k.lists.rings[k.delayed].items ==>
      t in k.tcbs && k.tickCount <= k.tcbs[t].wake && k.nextUnblock <= k.tcbs[t].wake
    ensures forall t :: t in k.lists.rings[k.overflow].items ==> t in k.tcbs && k.tcbs[t].wake < k.tickCount
  {
    SoundDelayedLists(k, {}, k.now);
    RingInHome(k.lists, k.delayed);
    RingInHome(k.lists, k.overflow);
    SplitTimes(k);
  }

  lemma SplitTimes(k: Table)
    requires Shape(k) && Sound(k, {}, k.now)
    ensures forall t :: t in k.tcbs && k.lists.home[t] == k.delayed ==>
      k.tickCount <= k.tcbs[t].wake && k.nextUnblock <= k.tcbs[t].wake
    ensures forall t :: t in k.tcbs && k.lists.home[t] == k.overflow ==> k.tcbs[t].wake < k.tickCount
  {
    hide Consistent, Ordered;
    forall t | t in k.tcbs && k.lists.home[t] == k.delayed ensures k.tickCount <= k.tcbs[t].wake {
      assert k.due[t] == M * (k.due[t] / M) + k.due[t] % M;
      assert k.now == M * (k.now / M) + k.now % M;
    }
  }

  /** The tables when the scheduler starts with the idle task alone and n event lists. */
  function InitialTable(idle: TaskId, n: nat): Table {
    Table(map[idle := Tcb(0, 0, 0, MAX_PRIORITIES)],
          Files([Ring([idle], 1)] + seq(LISTS - 1, _ => EmptyRing<TaskId>()), map[idle := 0]),
          Files(seq(n + 1, _ => EmptyRing<TaskId>()), map[idle := NOWHERE]),
          map[idle := 0], DELAYED_1, DELAYED_2, 0, 0, MAX_DELAY, 0, 0)
  }

  lemma InitialTableIsSound(idle: TaskId, n: nat)
    ensures var k := InitialTable(idle, n); Shape(k) && Sound(k, {}, 0)
  {
    var k := InitialTable(idle, n);
    assert k.lists.rings[0] == Ring([idle], 1);
    assert forall i :: 1 <= i < LISTS ==> k.lists.rings[i] == EmptyRing<TaskId>();
    assert forall i :: 0 <= i <= n ==> k.events.rings[i] == EmptyRing<TaskId>();
    assert Consistent(k.lists);
    assert Consistent(k.events);
  }

  /** A time to wake that vTaskDelayUntil files lies ahead of the clock. */
  lemma DelayUntilLiesAhead(tickCount: Tick, previousWake: Tick, increment: Tick)
    requires ShouldDelay(tickCount, previousWake, increment)
    ensures Wrap(previousWake + increment) != tickCount
  {
  }

  /** For all times, the decision and the wait of vTaskDelayUntil follow the ticks since the previous wake modulo the clock. */
  lemma DelayUntilMeaning(now: nat, previous: int, increment: Tick)
    ensures ShouldDelay(now % M, previous % M, increment) <==> increment > Wrap(now - previous)
    ensures Wrap(previous % M + increment) == (previous + increment) % M
    ensures increment > Wrap(now - previous) ==>
      TicksUntil(now % M, Wrap(previous % M + increment)) == increment - Wrap(now - previous)
  {
    ShouldDelayMeaning(now, previous, increment);
    WrappedSum(previous, increment);
    var wake := previous + increment;
    Difference(wake, now);
    Difference(wake % M, now % M);
    Difference(now, previous);
    Arithmetic.SmallMod(wake % M, M);
    Arithmetic.SmallMod(now % M, M);
    Sum(previous, increment);
  }
}
