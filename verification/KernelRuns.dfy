/**
  Sequences of calls to TCPv3/FreeRTOS/tasks.c: which steps of the abstract system each call takes, and
  what holds of every sequence. Scheduler proves that its kernel runs like this.
 */
module KernelRuns {
  import opened Wrappers
  import opened Rings
  import opened Ticks
  import opened Filing
  import opened TaskStates
  import opened TaskTables
  import opened EventLists
  import opened ReadyLists
  import Arithmetic

  /** The calls that tasks and interrupts make. */
  datatype Op =
    | TickOp | SuspendAllOp | ResumeAllOp | SwitchOp
    | DelayOp(ticks: Tick)
    | BlockOp(event: nat, ticks: Tick)
    | BlockRestrictedOp(event: nat, ticks: Tick)
    | NotifyOp(event: nat)
    | CreateOp(task: TaskId, priority: nat)
    | DeleteOp(task: TaskId)
    | ReapOp
    | SuspendOp(task: TaskId)
    | ResumeOp(task: TaskId)
    | ResumeFromISROp(task: TaskId)
    | PrioritySetOp(task: TaskId, priority: nat)
    | InheritOp(holder: TaskId)
    | DisinheritOp(holder: TaskId)

  /** A state of the kernel between two calls. */
  datatype Snapshot = Snapshot(table: Table, current: TaskId, depth: nat, missed: nat)

  /** No due time of this epoch is earlier, and at the last tick of an epoch none is now either. */
  ghost function EarliestIn(k: Table): int {
    if k.tickCount == MAX_DELAY then k.now + 1 else k.now
  }

  ghost predicate Known(s: Snapshot) {
    Shape(s.table) && Sound(s.table, {}, EarliestIn(s.table)) && s.current in s.table.tcbs
  }

  lemma CurrentIsFiled(s: Snapshot)
    requires Known(s)
    ensures s.current in s.table.tcbs && s.current in s.table.lists.home
  {
    hide Sound;
  }

  ghost function SystemOf(s: Snapshot): System {
    System(s.table.now, s.missed, s.depth, if Shape(s.table) then States(s.table) else map[])
  }

  ghost predicate IsFiledBelow(k: Table, t: TaskId, list: int) {
    t in k.tcbs && t in k.lists.home && k.lists.home[t] < list
  }

  ghost predicate MayBlock(s: Snapshot, e: nat, ticks: Tick) {
    IsFiledBelow(s.table, s.current, MAX_PRIORITIES) && 0 < e < |s.table.events.rings| && (ticks > 0 || s.table.tickCount != MAX_DELAY)
  }

  /** The step that a call takes; none if its caller may not make it. */
  ghost function StepFor(s: Snapshot, op: Op): Option<Step> {
    var k := s.table;
    match op
    case TickOp => Some(TickStep)
    case SuspendAllOp => Some(SuspendAllStep)
    case ResumeAllOp => if s.depth > 0 then Some(ResumeAllStep) else None
    case SwitchOp => None
    case DelayOp(ticks) => if IsFiledBelow(k, s.current, MAX_PRIORITIES) && ticks > 0 then Some(DelayStep(s.current, ticks)) else None
    case BlockOp(e, ticks) => if MayBlock(s, e, ticks) then Some(BlockStep(s.current, e, ticks, ticks == MAX_DELAY)) else None
    case BlockRestrictedOp(e, ticks) => if MayBlock(s, e, ticks) then Some(BlockStep(s.current, e, ticks, false)) else None
    case NotifyOp(e) =>
      if 0 < e < |k.events.rings| && k.events.rings[e].items != [] then Some(NotifyStep(k.events.rings[e].items[0])) else None
    case CreateOp(t, p) => if t !in k.tcbs && p < MAX_PRIORITIES then Some(CreateStep(t, p)) else None
    case DeleteOp(t) => if IsFiledBelow(k, t, TERMINATION) then Some(DeleteStep(t)) else None
    case ReapOp =>
      if IsFiledBelow(k, s.current, MAX_PRIORITIES) && |k.lists.rings| == LISTS && k.lists.rings[TERMINATION].items != [] then
        Some(ReapStep(k.lists.rings[TERMINATION].items[0]))
      else None
    case SuspendOp(t) => if IsFiledBelow(k, t, TERMINATION) then Some(SuspendStep(t)) else None
    case ResumeOp(t) => if t in k.tcbs && t != s.current then Some(ResumeStep(t)) else None
    case ResumeFromISROp(t) => if t in k.tcbs then Some(ResumeFromISRStep(t)) else None
    case PrioritySetOp(t, p) => if t in k.tcbs && p < MAX_PRIORITIES then Some(SetPriorityStep(t, p)) else None
    case InheritOp(t) => if t in k.tcbs then Some(InheritStep(t, s.current)) else None
    case DisinheritOp(t) => if IsFiledBelow(k, t, MAX_PRIORITIES) then Some(DisinheritStep(t)) else None
  }

  ghost function StepsFor(s: Snapshot, op: Op): seq<Step> {
    match StepFor(s, op)
    case None => []
    case Some(step) => [step]
  }

  /**
    The running task is the next in turn of a ready list, of highest priority among all ready tasks,
    and nothing but the walk along that list has happened.
   */
  ghost predicate RunsInTurn(before: Files, after: Files, tcbs: map<TaskId, Tcb>, current: TaskId) {
    && current in tcbs && 0 <= tcbs[current].priority < |before.rings|
    && var p := tcbs[current].priority;
    && before.rings[p].index <= |before.rings[p].items| && before.rings[p].items != []
    && current == Rotation(before.rings[p])[0]
    && after == before.(rings := before.rings[p := Advance(before.rings[p])])
    && forall u :: u in tcbs && u in after.home && after.home[u] < MAX_PRIORITIES ==> tcbs[u].priority <= p
  }

  ghost predicate SomeoneIsReady(k: Table) {
    exists t :: t in k.lists.home && 0 <= k.lists.home[t] < MAX_PRIORITIES
  }

  /** A switch runs the next in turn, unless the scheduler is suspended. */
  ghost predicate Switches(s: Snapshot, s': Snapshot) {
    if s.depth == 0 && SomeoneIsReady(s.table) then RunsInTurn(s.table.lists, s'.table.lists, s'.table.tcbs, s'.current)
    else s'.current == s.current && s'.table.lists == s.table.lists
  }

  /**
    The call gives no new event value to a task that waits in the list, lets nobody enter it at its index, and
    does not part event value and priority, as vTaskPrioritySet does for a task at an inherited one.
   */
  ghost predicate Undisturbed(s: Snapshot, op: Op, e: int) {
    var k := s.table;
    match op
    case BlockRestrictedOp(other, _) => other != e
    case PrioritySetOp(t, _) =>
      t in k.tcbs && t in k.events.home ==> k.tcbs[t].priority == k.tcbs[t].basePriority && k.events.home[t] != e
    case InheritOp(t) => t in k.events.home ==> k.events.home[t] != e
    case _ => true
  }

  ghost predicate OrdersKept(s: Snapshot, op: Op, s': Snapshot) {
    forall e :: Undisturbed(s, op, e) ==> OrderKeptIn(s.table.events, s.table.tcbs, s'.table.events, s'.table.tcbs, e)
  }

  ghost predicate Done(s: Snapshot, op: Op, s': Snapshot) {
    && Known(s) && Known(s')
    && SystemOf(s') == Run(SystemOf(s), StepsFor(s, op))
    && (if op.SwitchOp? then Switches(s, s') else s'.current == s.current && TurnsKept(s.table.lists, s'.table.lists))
    && OrdersKept(s, op, s')
  }

  /** The states before, between and after the calls. */
  ghost predicate Ran(trace: seq<Snapshot>, ops: seq<Op>) {
    |trace| == |ops| + 1 && forall i :: 0 <= i < |ops| ==> Done(trace[i], ops[i], trace[i + 1])
  }

  /** All steps taken, one call after the other. */
  ghost function AllSteps(trace: seq<Snapshot>, ops: seq<Op>): seq<Step>
    requires |trace| == |ops| + 1
  {
    if ops == [] then []
    else AllSteps(trace[..|ops|], ops[..|ops| - 1]) + StepsFor(trace[|ops| - 1], ops[|ops| - 1])
  }

  function TickOps(ops: seq<Op>): nat {
    if ops == [] then 0 else TickOps(ops[..|ops| - 1]) + if ops[|ops| - 1].TickOp? then 1 else 0
  }

  /** Without a step for it a call leaves the system as it is. */
  lemma NoStepFor(s: Snapshot, op: Op)
    requires StepFor(s, op).None?
    ensures Run(SystemOf(s), StepsFor(s, op)) == SystemOf(s)
  {
    hide StepFor;
  }

  // ----- what every sequence does

  lemma {:induction false} RanTo(trace: seq<Snapshot>, ops: seq<Op>)
    requires Ran(trace, ops) && Known(trace[0])
    ensures Known(trace[|ops|]) && SystemOf(trace[|ops|]) == Run(SystemOf(trace[0]), AllSteps(trace, ops))
    decreases |ops|
  {
    hide Known, Shape, Done, StepsFor;
    if ops != [] {
      var n := |ops| - 1;
      RanTo(trace[..n + 1], ops[..n]);
      DoneMeans(trace[n], ops[n], trace[n + 1]);
      RunAppends(SystemOf(trace[0]), AllSteps(trace[..n + 1], ops[..n]), StepsFor(trace[n], ops[n]));
    }
  }

  lemma DoneMeans(s: Snapshot, op: Op, s': Snapshot)
    requires Done(s, op, s')
    ensures Known(s) && Known(s') && Shape(s.table) && Shape(s'.table)
    ensures SystemOf(s') == Run(SystemOf(s), StepsFor(s, op))
  {
    hide Shape, StepsFor, Sound;
  }

  lemma OneTickOp(s: Snapshot, op: Op)
    ensures TicksIn(StepsFor(s, op)) == if op.TickOp? then 1 else 0
  {
    hide Shape;
    forall step: Step ensures TicksIn([step]) == if step.TickStep? then 1 else 0 {
      assert [step][1..] == [];
    }
  }

  lemma {:induction false} TicksInTwo(a: seq<Step>, b: seq<Step>)
    ensures TicksIn(a + b) == TicksIn(a) + TicksIn(b)
  {
    if a == [] {
      assert a + b == b;
    } else {
      assert (a + b)[1..] == a[1..] + b;
      TicksInTwo(a[1..], b);
    }
  }

  lemma {:induction false} TicksOfAllSteps(trace: seq<Snapshot>, ops: seq<Op>)
    requires |trace| == |ops| + 1
    ensures TicksIn(AllSteps(trace, ops)) == TickOps(ops)
    decreases |ops|
  {
    hide StepsFor;
    if ops != [] {
      var n := |ops| - 1;
      TicksOfAllSteps(trace[..n + 1], ops[..n]);
      OneTickOp(trace[n], ops[n]);
      TicksInTwo(AllSteps(trace[..n + 1], ops[..n]), StepsFor(trace[n], ops[n]));
    }
  }

  /** The ticks that the clock and its overflow counter stand for, and those held back. */
  function TicksSeen(s: Snapshot): int {
    s.table.overflows * M + s.table.tickCount + s.missed
  }

  lemma TicksSeenAre(s: Snapshot)
    requires Known(s)
    ensures TicksSeen(s) == SystemOf(s).now + SystemOf(s).missed
  {
    TaskFacts(s.table, {}, EarliestIn(s.table), s.current);
    hide Shape, Sound;
    assert s.table.now == M * (s.table.now / M) + s.table.now % M;
  }

  /** No tick is lost: clock, overflow counter and missed ticks together grow by one with each tick delivered. */
  lemma EveryTickIsSeen(trace: seq<Snapshot>, ops: seq<Op>)
    requires Ran(trace, ops) && Known(trace[0])
    ensures TicksSeen(trace[|ops|]) == TicksSeen(trace[0]) + TickOps(ops)
  {
    hide Known, Ran, AllSteps, TicksSeen, SystemOf;
    RanLength(trace, ops);
    RanTo(trace, ops);
    TicksSeenAre(trace[0]);
    TicksSeenAre(trace[|ops|]);
    TicksAreConserved(SystemOf(trace[0]), AllSteps(trace, ops));
    TicksOfAllSteps(trace, ops);
  }

  lemma RanLength(trace: seq<Snapshot>, ops: seq<Op>)
    requires Ran(trace, ops)
    ensures |trace| == |ops| + 1
  {
    hide Done;
  }

  // ----- taking turns

  /** The ready list of priority p is the highest that has a task. */
  ghost predicate TopIs(s: Snapshot, p: int) {
    && 0 <= p < MAX_PRIORITIES && TurnsIn(s.table.lists, p) != []
    && forall q :: p < q < MAX_PRIORITIES ==> TurnsIn(s.table.lists, q) == []
  }

  /** The turns of the tasks of priority p. */
  function TurnsOf(s: Snapshot, p: int): seq<TaskId> {
    TurnsIn(s.table.lists, p)
  }

  /** The first one has had its turn. */
  function OneTurnOn(ts: seq<TaskId>): seq<TaskId> {
    if ts == [] then [] else ts[1..] + [ts[0]]
  }

  lemma TurnsAreReady(s: Snapshot, p: int)
    requires Known(s) && 0 <= p < MAX_PRIORITIES
    ensures Distinct(TurnsOf(s, p))
    ensures forall t :: t in TurnsOf(s, p) <==> t in s.table.tcbs && t in s.table.lists.home && s.table.lists.home[t] == p
  {
    TurnsAreDistinct(s.table.lists, p);
    hide Sound;
  }

  lemma ReadyHasItsPriority(s: Snapshot, t: TaskId)
    requires Known(s) && t in s.table.tcbs && t in s.table.lists.home && s.table.lists.home[t] < MAX_PRIORITIES
    ensures s.table.lists.home[t] == s.table.tcbs[t].priority < MAX_PRIORITIES
  {
    ReadyMeans(s.table, EarliestIn(s.table), t);
    TaskFacts(s.table, {}, EarliestIn(s.table), t);
    hide Shape, Sound;
  }

  lemma SomeoneHasATurn(s: Snapshot, p: int)
    requires Known(s) && TopIs(s, p)
    ensures SomeoneIsReady(s.table)
  {
    TurnsAreReady(s, p);
    hide Known, TurnsIn;
    assert TurnsOf(s, p)[0] in TurnsOf(s, p);
  }

  /** A switch runs the task that has the first turn of the highest priority, and gives it the last one. */
  lemma SwitchOnTop(s: Snapshot, op: Op, s': Snapshot, p: int)
    requires Done(s, op, s') && op.SwitchOp? && s.depth == 0 && TopIs(s, p)
    ensures TurnsOf(s, p) != [] && s'.current == TurnsOf(s, p)[0] && TurnsOf(s', p) == OneTurnOn(TurnsOf(s, p))
  {
    hide Known, Shape, Sound, OrdersKept, SystemOf;
    SomeoneHasATurn(s, p);
    RunsTheFirst(s, s', p);
  }

  lemma RunsTheFirst(s: Snapshot, s': Snapshot, p: int)
    requires Known(s) && Known(s') && TopIs(s, p)
    requires RunsInTurn(s.table.lists, s'.table.lists, s'.table.tcbs, s'.current)
    ensures s'.current == TurnsOf(s, p)[0] && TurnsOf(s', p) == OneTurnOn(TurnsOf(s, p))
  {
    hide Known, OrdersKept, Shape, Sound;
    KnownMeans(s');
    TaskFacts(s'.table, {}, EarliestIn(s'.table), s'.current);
    var q := s'.table.tcbs[s'.current].priority;
    var u := TurnsOf(s, p)[0];
    var r := s.table.lists.rings[q];
    AdvanceRotates(r);
    FacesTheTop(s, s', p, q, u);
  }

  /** The list of the task that runs is the highest. */
  lemma FacesTheTop(s: Snapshot, s': Snapshot, p: int, q: int, u: TaskId)
    requires Known(s) && Known(s') && TopIs(s, p) && 0 <= q < MAX_PRIORITIES && TurnsOf(s, q) != [] && u in TurnsOf(s, p)
    requires s'.table.lists.home == s.table.lists.home
    requires forall v :: v in s'.table.tcbs && v in s'.table.lists.home && s'.table.lists.home[v] < MAX_PRIORITIES ==>
      s'.table.tcbs[v].priority <= q
    ensures q == p
  {
    hide TurnsIn;
    TurnsAreReady(s, p);
    HomeIsKnown(s', u);
    ReadyHasItsPriority(s', u);
    hide Known;
  }

  lemma HomeIsKnown(s: Snapshot, t: TaskId)
    requires Known(s) && t in s.table.lists.home
    ensures t in s.table.tcbs
  {
    hide Sound;
  }

  /** No other call moves anybody in front of anybody. */
  lemma OthersKeepTurns(s: Snapshot, op: Op, s': Snapshot, p: int)
    requires Done(s, op, s') && !op.SwitchOp? && 0 <= p < MAX_PRIORITIES
    ensures TurnKept(TurnsOf(s, p), TurnsOf(s', p))
  {
    hide Known, OrdersKept, SystemOf, TurnKept, TurnsIn;
  }

  function SwitchOps(ops: seq<Op>): nat {
    if ops == [] then 0 else SwitchOps(ops[..|ops| - 1]) + if ops[|ops| - 1].SwitchOp? then 1 else 0
  }

  /** The tasks of priority p stay the same, whatever the call. */
  ghost predicate SameTasks(s: Snapshot, s': Snapshot, p: int) {
    forall t :: t in TurnsOf(s, p) <==> t in TurnsOf(s', p)
  }

  lemma CallWithSameTasks(s: Snapshot, op: Op, s': Snapshot, p: int)
    requires Done(s, op, s') && SameTasks(s, s', p) && 0 <= p < MAX_PRIORITIES
    requires op.SwitchOp? ==> s.depth == 0 && TopIs(s, p)
    ensures TurnsOf(s', p) == if op.SwitchOp? then OneTurnOn(TurnsOf(s, p)) else TurnsOf(s, p)
    ensures op.SwitchOp? ==> TurnsOf(s, p) != [] && s'.current == TurnsOf(s, p)[0]
  {
    hide Known, OrdersKept, SystemOf, TurnsIn, TopIs;
    if op.SwitchOp? {
      SwitchOnTop(s, op, s', p);
    } else {
      OthersKeepTurns(s, op, s', p);
      TurnsAreReady(s, p);
      TurnsAreReady(s', p);
      SameTasksSameTurns(TurnsOf(s, p), TurnsOf(s', p));
    }
  }

  /** The turns as they are after k of them. */
  function Rotated(ts: seq<TaskId>, k: nat): (rest: seq<TaskId>)
    requires ts != []
    ensures |rest| == |ts|
  {
    ts[k % |ts|..] + ts[..k % |ts|]
  }

  lemma OneTurnMore(ts: seq<TaskId>, k: nat)
    requires ts != []
    ensures Rotated(ts, k)[0] == ts[k % |ts|] && OneTurnOn(Rotated(ts, k)) == Rotated(ts, k + 1)
  {
    var n := |ts|;
    Arithmetic.ModStep(k, n);
  }

  lemma NoTurnYet(ts: seq<TaskId>)
    requires ts != []
    ensures Rotated(ts, 0) == ts
  {
    Arithmetic.SmallMod(0, |ts|);
  }

  /**
    Tasks of the highest ready priority take turns, over any calls that leave these tasks ready and let no
    other one join them: at every moment the turns have moved on by the number of switches.
   */
  lemma {:induction false} EqualsTakeTurns(trace: seq<Snapshot>, ops: seq<Op>, p: int, n: nat)
    requires Ran(trace, ops) && n <= |ops| && 0 <= p < MAX_PRIORITIES && TurnsOf(trace[0], p) != []
    requires forall i :: 0 <= i < n ==> SameTasks(trace[i], trace[i + 1], p)
    requires forall i :: 0 <= i < n && ops[i].SwitchOp? ==> trace[i].depth == 0 && TopIs(trace[i], p)
    ensures TurnsOf(trace[n], p) == Rotated(TurnsOf(trace[0], p), SwitchOps(ops[..n]))
    decreases n
  {
    hide Done, TurnsIn, TopIs, SameTasks, Rotated;
    var ts := TurnsOf(trace[0], p);
    if n == 0 {
      NoTurnYet(ts);
    } else {
      EqualsTakeTurns(trace, ops, p, n - 1);
      assert ops[..n][..n - 1] == ops[..n - 1];
      OneTurnMore(ts, SwitchOps(ops[..n - 1]));
      CallWithSameTasks(trace[n - 1], ops[n - 1], trace[n], p);
    }
  }

  /** So the k-th of the switches, counted from 0, runs task k of the turns, modulo their number. */
  lemma SwitchRunsTheNext(trace: seq<Snapshot>, ops: seq<Op>, p: int, n: nat)
    requires Ran(trace, ops) && n < |ops| && ops[n].SwitchOp? && 0 <= p < MAX_PRIORITIES && TurnsOf(trace[0], p) != []
    requires forall i :: 0 <= i <= n ==> SameTasks(trace[i], trace[i + 1], p)
    requires forall i :: 0 <= i <= n && ops[i].SwitchOp? ==> trace[i].depth == 0 && TopIs(trace[i], p)
    ensures trace[n + 1].current == TurnsOf(trace[0], p)[SwitchOps(ops[..n]) % |TurnsOf(trace[0], p)|]
  {
    hide Done, TurnsIn, TopIs, SameTasks, Rotated;
    EqualsTakeTurns(trace, ops, p, n);
    OneTurnMore(TurnsOf(trace[0], p), SwitchOps(ops[..n]));
    CallWithSameTasks(trace[n], ops[n], trace[n + 1], p);
  }

  // ----- nobody starves

  lemma PlaceComesNearer(s: Snapshot, op: Op, s': Snapshot, p: int, t: TaskId)
    requires Done(s, op, s') && 0 <= p < MAX_PRIORITIES && t in TurnsOf(s, p) && t in TurnsOf(s', p)
    requires op.SwitchOp? ==> s.depth == 0 && TopIs(s, p)
    ensures if op.SwitchOp? then s'.current == t || Position(TurnsOf(s', p), t) < Position(TurnsOf(s, p), t)
            else Position(TurnsOf(s', p), t) <= Position(TurnsOf(s, p), t)
  {
    hide Known, OrdersKept, SystemOf, TurnsIn, TopIs;
    TurnsAreReady(s, p);
    if op.SwitchOp? {
      SwitchOnTop(s, op, s', p);
      TurnedOn(TurnsOf(s, p), t);
    } else {
      OthersKeepTurns(s, op, s', p);
      PlaceIsKept(TurnsOf(s, p), TurnsOf(s', p), t);
    }
  }

  lemma TurnedOn(ts: seq<TaskId>, t: TaskId)
    requires t in ts && Distinct(ts)
    ensures ts[0] == t || (t in OneTurnOn(ts) && Position(OneTurnOn(ts), t) < Position(ts, t))
  {
    var i := Position(ts, t);
    if i > 0 {
      assert OneTurnOn(ts)[i - 1] == t;
    }
  }

  /**
    Nobody starves: a task that stays ready in the list that switches look at runs at the latest at the switch
    that its place in the turns says, whatever else is called in between, and whoever joins.
   */
  lemma {:induction false} TurnComes(trace: seq<Snapshot>, ops: seq<Op>, p: int, t: TaskId, n: nat) returns (i: nat)
    requires Ran(trace, ops) && n <= |ops| && 0 <= p < MAX_PRIORITIES
    requires forall j :: 0 <= j <= n ==> t in TurnsOf(trace[j], p)
    requires forall j :: 0 <= j < n && ops[j].SwitchOp? ==> trace[j].depth == 0 && TopIs(trace[j], p)
    requires SwitchOps(ops[..n]) > Position(TurnsOf(trace[0], p), t)
    ensures i < n && ops[i].SwitchOp? && trace[i + 1].current == t
    decreases n
  {
    i := RunsOrComesNearer(trace, ops, p, t, n);
    if i == n {
      assert false;
    }
  }

  /** The first switch that runs the task, or n if it has only come nearer. */
  lemma {:induction false} RunsOrComesNearer(trace: seq<Snapshot>, ops: seq<Op>, p: int, t: TaskId, n: nat) returns (i: nat)
    requires Ran(trace, ops) && n <= |ops| && 0 <= p < MAX_PRIORITIES
    requires forall j :: 0 <= j <= n ==> t in TurnsOf(trace[j], p)
    requires forall j :: 0 <= j < n && ops[j].SwitchOp? ==> trace[j].depth == 0 && TopIs(trace[j], p)
    ensures i <= n
    ensures if i < n then ops[i].SwitchOp? && trace[i + 1].current == t
            else Position(TurnsOf(trace[n], p), t) + SwitchOps(ops[..n]) <= Position(TurnsOf(trace[0], p), t)
    decreases n
  {
    hide Done, TurnsIn, TopIs;
    i := n;
    if n > 0 {
      i := RunsOrComesNearer(trace, ops, p, t, n - 1);
      if i == n - 1 {
        assert ops[..n][..n - 1] == ops[..n - 1];
        PlaceComesNearer(trace[n - 1], ops[n - 1], trace[n], p, t);
        if !(ops[n - 1].SwitchOp? && trace[n].current == t) {
          i := n;
        }
      }
    }
  }

  // ----- the order of priorities

  /** While nothing disturbs an event list, it stays in order of priority. */
  lemma {:induction false} StaysByPriority(trace: seq<Snapshot>, ops: seq<Op>, e: int, n: nat)
    requires Ran(trace, ops) && n <= |ops| && forall i :: 0 <= i < n ==> Undisturbed(trace[i], ops[i], e)
    ensures OrderKeptIn(trace[0].table.events, trace[0].table.tcbs, trace[n].table.events, trace[n].table.tcbs, e)
    decreases n
  {
    hide Undisturbed, PriorityOrder;
    if n > 0 {
      StaysByPriority(trace, ops, e, n - 1);
      CallKeepsOrder(trace[n - 1], ops[n - 1], trace[n], e);
    }
  }

  lemma CallKeepsOrder(s: Snapshot, op: Op, s': Snapshot, e: int)
    requires Done(s, op, s') && Undisturbed(s, op, e)
    ensures OrderKeptIn(s.table.events, s.table.tcbs, s'.table.events, s'.table.tcbs, e)
  {
    hide Known, SystemOf, Undisturbed, OrderKeptIn, TurnsKept;
  }

  // ----- waking on time

  /** The task waits for the due time, and for the event if there is one. */
  predicate WaitsUntil(s: System, t: TaskId, due: nat, event: int) {
    t in s.tasks && s.now < due && s.tasks[t].place == Blocked(due) && s.tasks[t].event == event
  }

  predicate IsAwake(s: System, t: TaskId) {
    t in s.tasks && s.tasks[t].place == Ready && s.tasks[t].event == NOWHERE
  }

  /** The call neither suspends nor deletes the task, nor signals the event it waits for. */
  predicate Spares(op: Op, t: TaskId, event: int) {
    match op
    case SuspendOp(u) => u != t
    case DeleteOp(u) => u != t
    case NotifyOp(e) => e != event
    case _ => true
  }

  predicate StepSpares(step: Step, t: TaskId) {
    match step
    case DelayStep(u, _) => u != t
    case BlockStep(u, _, _, _) => u != t
    case NotifyStep(u) => u != t
    case SuspendStep(u) => u != t
    case DeleteStep(u) => u != t
    case ReapStep(u) => u != t
    case _ => true
  }

  lemma StepWakesOnTime(s: System, step: Step, t: TaskId, due: nat, event: int)
    requires WaitsUntil(s, t, due, event) && event != PENDING && StepSpares(step, t)
    ensures var s' := Perform(s, step);
      s'.now >= s.now && if s'.now < due then WaitsUntil(s', t, due, event) else IsAwake(s', t)
  {
  }

  /** A task that waits with a time limit is not the ready running one, and is in no list that a spared call looks at. */
  lemma StepsSpare(s: Snapshot, op: Op, t: TaskId, due: nat, event: int)
    requires Known(s) && WaitsUntil(SystemOf(s), t, due, event) && Spares(op, t, event)
    ensures StepFor(s, op).Some? ==> StepSpares(StepFor(s, op).value, t)
  {
    hide Known, WaitsUntil, SystemOf, Shape;
    WaiterIsFiled(s, t, due, event);
    if op.NotifyOp? && 0 < op.event < |s.table.events.rings| && s.table.events.rings[op.event].items != [] {
      HeadOfEventList(s.table, op.event);
    } else if op.ReapOp? && |s.table.lists.rings| == LISTS && s.table.lists.rings[TERMINATION].items != [] {
      HeadOfTermination(s.table);
    }
  }

  lemma KnownMeans(s: Snapshot)
    requires Known(s)
    ensures Shape(s.table) && Sound(s.table, {}, EarliestIn(s.table)) && s.current in s.table.tcbs
    ensures SystemOf(s) == System(s.table.now, s.missed, s.depth, States(s.table))
  {
    hide Shape, Sound, States;
  }

  lemma WaiterIsFiled(s: Snapshot, t: TaskId, due: nat, event: int)
    requires Known(s) && WaitsUntil(SystemOf(s), t, due, event)
    ensures Shape(s.table) && t in s.table.lists.home && t in s.table.events.home
    ensures MAX_PRIORITIES <= s.table.lists.home[t] < TERMINATION && s.table.events.home[t] == event
  {
    hide Known, Shape, Sound, States, SystemOf, LocatedTask;
    KnownMeans(s);
    StatesAre(s.table, t);
    TaskFacts(s.table, {}, EarliestIn(s.table), t);
  }

  lemma StatesAre(k: Table, t: TaskId)
    requires Shape(k) && t in States(k)
    ensures t in k.tcbs && t in k.lists.home && t in k.events.home && t in k.due && States(k)[t] == StateIn(k, t)
  {
    hide Consistent;
  }

  lemma HeadOfTermination(k: Table)
    requires Shape(k) && |k.lists.rings| == LISTS && k.lists.rings[TERMINATION].items != []
    ensures var t := k.lists.rings[TERMINATION].items[0]; t in k.lists.home && k.lists.home[t] == TERMINATION
  {
    RingInHome(k.lists, TERMINATION);
  }

  lemma CallWakesOnTime(s: Snapshot, op: Op, s': Snapshot, t: TaskId, due: nat, event: int)
    requires Done(s, op, s') && WaitsUntil(SystemOf(s), t, due, event) && event != PENDING && Spares(op, t, event)
    ensures if s'.table.now < due then WaitsUntil(SystemOf(s'), t, due, event) else IsAwake(SystemOf(s'), t)
  {
    hide Shape, Sound, StepFor, Perform;
    StepsSpare(s, op, t, due, event);
    if StepFor(s, op).Some? {
      var step := StepFor(s, op).value;
      RunOne(SystemOf(s), step);
      StepWakesOnTime(SystemOf(s), step, t, due, event);
    }
  }

  /**
    Exact wake time, over any sequence of calls that spare the task: it waits in every state in which the
    clock is before the due time, and it is ready in the first state in which it is not.
   */
  lemma {:induction false} WokenOnTime(trace: seq<Snapshot>, ops: seq<Op>, t: TaskId, due: nat, event: int, n: nat)
    requires Ran(trace, ops) && n <= |ops| && event != PENDING
    requires WaitsUntil(SystemOf(trace[0]), t, due, event)
    requires forall i :: 0 <= i < n ==> Spares(ops[i], t, event)
    requires forall i :: 0 <= i < n ==> trace[i].table.now < due
    ensures if trace[n].table.now < due then WaitsUntil(SystemOf(trace[n]), t, due, event) else IsAwake(SystemOf(trace[n]), t)
    decreases n
  {
    hide Done, SystemOf, Known, WaitsUntil, IsAwake, Spares;
    if n == 0 {
      WaitsBefore(trace[0], t, due, event);
    } else {
      WokenOnTime(trace, ops, t, due, event, n - 1);
      CallWakesOnTime(trace[n - 1], ops[n - 1], trace[n], t, due, event);
    }
  }

  lemma WaitsBefore(s: Snapshot, t: TaskId, due: nat, event: int)
    requires WaitsUntil(SystemOf(s), t, due, event)
    ensures s.table.now < due
  {
    hide Shape;
  }

  /** Up to the n-th call the task, if the calls spare it, waits while the clock is before the due time, and no longer. */
  ghost predicate OnTime(trace: seq<Snapshot>, ops: seq<Op>, t: TaskId, due: nat, event: int, n: nat)
    requires |trace| == |ops| + 1 && n <= |ops|
  {
    && event != PENDING && WaitsUntil(SystemOf(trace[0]), t, due, event)
    && (forall i :: 0 <= i < n ==> Spares(ops[i], t, event))
    && (forall i :: 0 <= i < n ==> trace[i].table.now < due)
    ==>
    if trace[n].table.now < due then WaitsUntil(SystemOf(trace[n]), t, due, event) else IsAwake(SystemOf(trace[n]), t)
  }

  /** Calls after which every event list that was in order still is. */
  predicate KeepsOrder(op: Op) {
    !op.BlockRestrictedOp? && !op.PrioritySetOp? && !op.InheritOp?
  }

  lemma RunIsOnTime(trace: seq<Snapshot>, ops: seq<Op>, t: TaskId, due: nat, event: int, n: nat)
    requires Ran(trace, ops) && n <= |ops|
    ensures OnTime(trace, ops, t, due, event, n)
  {
    hide Done, SystemOf, WaitsUntil, IsAwake, Spares;
    if event != PENDING && WaitsUntil(SystemOf(trace[0]), t, due, event)
      && (forall i :: 0 <= i < n ==> Spares(ops[i], t, event)) && (forall i :: 0 <= i < n ==> trace[i].table.now < due)
    {
      WokenOnTime(trace, ops, t, due, event, n);
    }
  }

  // ----- what it means to wait

  /** vTaskDelay for some ticks: the task waits until so many ticks have passed, and for no event. */
  lemma DelayedForItsTicks(s: Snapshot, s': Snapshot, ticks: Tick)
    requires Done(s, DelayOp(ticks), s') && ticks > 0 && IsFiledBelow(s.table, s.current, MAX_PRIORITIES)
    ensures WaitsUntil(SystemOf(s'), s.current, s.table.now + ticks, NOWHERE)
  {
    hide Known, Shape, TurnsKept, OrdersKept;
    KnownMeans(s);
    KnownMeans(s');
    StatesOf(s, s.current);
    RunOne(SystemOf(s), DelayStep(s.current, ticks));
  }

  /** A wait for an event: the task waits for it until so many ticks have passed, or without limit. */
  lemma BlockedForItsTicks(s: Snapshot, s': Snapshot, e: nat, ticks: Tick)
    requires Done(s, BlockOp(e, ticks), s') && MayBlock(s, e, ticks) && ticks > 0
    ensures if ticks == MAX_DELAY then
              s.current in SystemOf(s').tasks && SystemOf(s').tasks[s.current].place == Suspended && SystemOf(s').tasks[s.current].event == e
            else WaitsUntil(SystemOf(s'), s.current, s.table.now + ticks, e)
  {
    hide Known, Shape, TurnsKept, OrdersKept;
    KnownMeans(s);
    KnownMeans(s');
    StatesOf(s, s.current);
    RunOne(SystemOf(s), BlockStep(s.current, e, ticks, ticks == MAX_DELAY));
  }

  lemma StatesOf(s: Snapshot, t: TaskId)
    requires Known(s) && IsFiledBelow(s.table, t, MAX_PRIORITIES)
    ensures t in SystemOf(s).tasks && SystemOf(s).tasks[t].event == NOWHERE
  {
    StatesAt(s.table, t);
    ReadyMeans(s.table, EarliestIn(s.table), t);
    hide Sound;
  }

  // ----- what the calls do

  /** A task in the system, in the given state of waiting. */
  predicate IsAt(s: System, t: TaskId, place: Place, event: int) {
    t in s.tasks && s.tasks[t].place == place && s.tasks[t].event == event
  }

  /** The calls in plain words, as far as they are made. */
  ghost predicate Effect(s: Snapshot, op: Op, s': Snapshot) {
    var k, v, v' := s.table, SystemOf(s), SystemOf(s');
    match op
    case TickOp => if s.depth == 0 then v'.now == v.now + 1 else v'.now == v.now && v'.missed == v.missed + 1 && v'.tasks == v.tasks
    case SuspendAllOp => v' == v.(depth := v.depth + 1)
    case ResumeAllOp =>
      s.depth == 1 ==>
        && v'.depth == 0 && v'.missed == 0 && v'.now == v.now + v.missed
        && forall t :: t in v.tasks && v.tasks[t].event == PENDING ==> IsAt(v', t, Ready, NOWHERE)
    case SwitchOp => v' == v
    case DelayOp(ticks) => ticks > 0 && IsFiledBelow(k, s.current, MAX_PRIORITIES) ==> IsAt(v', s.current, Blocked(v.now + ticks), NOWHERE)
    case BlockOp(e, ticks) =>
      ticks > 0 && MayBlock(s, e, ticks) ==> IsAt(v', s.current, if ticks == MAX_DELAY then Suspended else Blocked(v.now + ticks), e)
    case BlockRestrictedOp(e, ticks) => ticks > 0 && MayBlock(s, e, ticks) ==> IsAt(v', s.current, Blocked(v.now + ticks), e)
    case NotifyOp(e) =>
      0 < e < |k.events.rings| && InList(k.events, e) != [] ==>
        var t := InList(k.events, e)[0];
        t in v.tasks && if s.depth == 0 then IsAt(v', t, Ready, NOWHERE) else IsAt(v', t, v.tasks[t].place, PENDING)
    case CreateOp(t, p) => t !in k.tcbs && p < MAX_PRIORITIES ==> IsAt(v', t, Ready, NOWHERE) && v'.tasks[t].priority == p
    case DeleteOp(t) => IsFiledBelow(k, t, TERMINATION) ==> IsAt(v', t, Deleted, NOWHERE)
    case ReapOp =>
      IsFiledBelow(k, s.current, MAX_PRIORITIES) && InList(k.lists, TERMINATION) != [] ==> InList(k.lists, TERMINATION)[0] !in v'.tasks
    case SuspendOp(t) => IsFiledBelow(k, t, TERMINATION) ==> IsAt(v', t, Suspended, NOWHERE)
    case ResumeOp(t) => t != s.current && IsAt(v, t, Suspended, NOWHERE) ==> IsAt(v', t, Ready, NOWHERE)
    case ResumeFromISROp(t) =>
      IsAt(v, t, Suspended, NOWHERE) ==> if s.depth == 0 then IsAt(v', t, Ready, NOWHERE) else IsAt(v', t, Suspended, PENDING)
    case PrioritySetOp(t, p) => t in k.tcbs && p < MAX_PRIORITIES ==> t in v'.tasks && v'.tasks[t].basePriority == p
    case InheritOp(t) => t in v.tasks && s.current in v.tasks ==> t in v'.tasks && v'.tasks[t].priority >= v.tasks[s.current].priority
    case DisinheritOp(t) =>
      IsFiledBelow(k, t, MAX_PRIORITIES) ==> t in v'.tasks && v'.tasks[t].priority == v'.tasks[t].basePriority
  }

  lemma HeadIsATask(s: Snapshot, e: nat)
    requires Known(s) && 0 < e < |s.table.events.rings| && InList(s.table.events, e) != []
    ensures InList(s.table.events, e)[0] in s.table.tcbs
  {
    hide Sound;
    HeadOfEventList(s.table, e);
  }

  lemma TasksAreKnown(s: Snapshot, t: TaskId)
    requires Known(s)
    ensures t in s.table.tcbs <==> t in SystemOf(s).tasks
    ensures s.current in s.table.tcbs && |s.table.lists.rings| == LISTS
  {
    hide Sound;
  }

  /** What one call about the system does. */
  lemma SystemCallsDoThat(s: Snapshot, op: Op, s': Snapshot)
    requires Done(s, op, s') && (op.TickOp? || op.SuspendAllOp? || op.ResumeAllOp? || op.SwitchOp?)
    ensures Effect(s, op, s')
  {
    hide Known, Shape, TurnsKept, OrdersKept, Switches;
    if StepFor(s, op).Some? {
      RunOne(SystemOf(s), StepFor(s, op).value);
    }
  }

  /** What one call about a task does. */
  lemma TaskCallsDoThat(s: Snapshot, op: Op, s': Snapshot)
    requires Done(s, op, s') && !op.TickOp? && !op.SuspendAllOp? && !op.ResumeAllOp? && !op.SwitchOp?
    ensures Effect(s, op, s')
  {
    hide Known, Shape, SystemOf, TurnsKept, OrdersKept;
    DoneTakesSteps(s, op, s');
    forall t ensures t in s.table.tcbs <==> t in SystemOf(s).tasks {
      TasksAreKnown(s, t);
    }
    if IsFiledBelow(s.table, s.current, MAX_PRIORITIES) {
      StatesOf(s, s.current);
    }
    if op.NotifyOp? && 0 < op.event < |s.table.events.rings| && InList(s.table.events, op.event) != [] {
      HeadIsATask(s, op.event);
    }
    ClockOfSystem(s);
    if StepFor(s, op).Some? {
      RunOne(SystemOf(s), StepFor(s, op).value);
    }
  }

  /** Every call does what it is for. */
  lemma CallsDoThat(s: Snapshot, op: Op, s': Snapshot)
    requires Done(s, op, s')
    ensures Effect(s, op, s')
  {
    hide Done, Effect;
    if op.TickOp? || op.SuspendAllOp? || op.ResumeAllOp? || op.SwitchOp? {
      SystemCallsDoThat(s, op, s');
    } else {
      TaskCallsDoThat(s, op, s');
    }
  }

  lemma DoneTakesSteps(s: Snapshot, op: Op, s': Snapshot)
    requires Done(s, op, s')
    ensures Known(s) && SystemOf(s') == Run(SystemOf(s), StepsFor(s, op)) && s.current in s.table.tcbs && |s.table.lists.rings| == LISTS
  {
    hide Sound, StepsFor, TurnsKept, OrdersKept, Switches;
  }

  lemma ClockOfSystem(s: Snapshot)
    ensures SystemOf(s).now == s.table.now && SystemOf(s).depth == s.depth
  {
    hide Shape;
  }
}
