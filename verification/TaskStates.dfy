/**
  What the scheduler of TCPv3/FreeRTOS/tasks.c is for, without its lists and its 32-bit
  clock: every task has a state, blocked tasks have a due time in unbounded ticks, and a
  tick readies exactly the tasks that are due. Scheduler proves that the kernel refines
  this machine; the theorems about whole runs are proved here.
 */
module TaskStates {
  import opened Ticks
  import opened Filing
  import Arithmetic

  /** The event "list" that holds tasks readied while the scheduler is suspended. */
  const PENDING: int := 0

  datatype Place = Ready | Blocked(due: nat) | Suspended | Deleted

  datatype TaskState = TaskState(priority: nat, basePriority: nat, place: Place, event: int)

  type Tasks = map<TaskId, TaskState>

  /** now: ticks processed; missed: ticks held back; depth: nesting of vTaskSuspendAll. */
  datatype System = System(now: nat, missed: nat, depth: nat, tasks: Tasks)

  // ----- operations

  function Woken(s: TaskState, now: nat): TaskState {
    if s.place.Blocked? && s.place.due <= now then s.(place := Ready, event := NOWHERE) else s
  }

  /** All tasks that are due at the given time become ready and stop waiting for events. */
  function WakeDue(tasks: Tasks, now: nat): Tasks {
    map t | t in tasks :: Woken(tasks[t], now)
  }

  function Released(s: TaskState): TaskState {
    if s.event == PENDING then s.(place := Ready, event := NOWHERE) else s
  }

  function ReleasePending(tasks: Tasks): Tasks {
    map t | t in tasks :: Released(tasks[t])
  }

  /** vTaskIncrementTick */
  function TakeTick(s: System): System {
    if s.depth == 0 then
      s.(now := s.now + 1, tasks := WakeDue(s.tasks, s.now + 1))
    else
      s.(missed := s.missed + 1)
  }

  /** vTaskSuspendAll */
  function SuspendAll(s: System): System {
    s.(depth := s.depth + 1)
  }

  /** k ticks at once. */
  function TakeTicks(s: System, k: nat): System {
    if k == 0 then s else s.(now := s.now + k, tasks := WakeDue(s.tasks, s.now + k))
  }

  /** xTaskResumeAll: the held back ticks are made up for in one jump. */
  function ResumeAll(s: System): System
    requires s.depth > 0
  {
    if s.depth > 1 then
      s.(depth := s.depth - 1)
    else
      TakeTicks(System(s.now, 0, 0, ReleasePending(s.tasks)), s.missed)
  }

  function Put(s: System, t: TaskId, state: TaskState): System {
    s.(tasks := s.tasks[t := state])
  }

  /** A step of the machine; each names the task whose state it changes. */
  datatype Step =
    | TickStep
    | SuspendAllStep
    | ResumeAllStep
    | CreateStep(task: TaskId, priority: nat)
    | DelayStep(task: TaskId, ticks: Tick)
    | BlockStep(task: TaskId, event: int, ticks: Tick, endless: bool)
    | NotifyStep(task: TaskId)
    | SuspendStep(task: TaskId)
    | ResumeStep(task: TaskId)
    | ResumeFromISRStep(task: TaskId)
    | DeleteStep(task: TaskId)
    | ReapStep(task: TaskId)
    | SetPriorityStep(task: TaskId, priority: nat)
    | InheritStep(task: TaskId, from: TaskId)
    | DisinheritStep(task: TaskId)

  /** A task in the Suspended state proper, and not one blocked on an event without a time limit. */
  predicate IsSuspended(s: TaskState) {
    s.place == Suspended && s.event == NOWHERE
  }

  function Perform(s: System, step: Step): System {
    match step
    case TickStep => TakeTick(s)
    case SuspendAllStep => SuspendAll(s)
    case ResumeAllStep => if s.depth > 0 then ResumeAll(s) else s
    case CreateStep(t, p) => if t in s.tasks then s else Put(s, t, TaskState(p, p, Ready, NOWHERE))
    case _ => if step.task !in s.tasks then s else PerformOn(s, step)
  }

  predicate NamesATask(step: Step) {
    !step.TickStep? && !step.SuspendAllStep? && !step.ResumeAllStep? && !step.CreateStep?
  }

  function PerformOn(s: System, step: Step): System
    requires NamesATask(step) && step.task in s.tasks
  {
    var t := step.task;
    var state := s.tasks[t];
    match step
    case DelayStep(_, d) => Put(s, t, state.(place := Blocked(s.now + d)))
    case BlockStep(_, e, d, endless) =>
      Put(s, t, state.(place := if endless then Suspended else Blocked(s.now + d), event := e))
    case NotifyStep(_) =>
      Put(s, t, if s.depth == 0 then state.(place := Ready, event := NOWHERE) else state.(event := PENDING))
    case SuspendStep(_) => Put(s, t, state.(place := Suspended, event := NOWHERE))
    case ResumeStep(_) => if IsSuspended(state) then Put(s, t, state.(place := Ready)) else s
    case ResumeFromISRStep(_) =>
      if !IsSuspended(state) then s
      else Put(s, t, if s.depth == 0 then state.(place := Ready) else state.(event := PENDING))
    case DeleteStep(_) => Put(s, t, state.(place := Deleted, event := NOWHERE))
    case ReapStep(_) => s.(tasks := s.tasks - {t})
    case SetPriorityStep(_, p) =>
      Put(s, t, state.(priority := if state.basePriority == state.priority then p else state.priority, basePriority := p))
    case InheritStep(_, from) =>
      if from in s.tasks && s.tasks[from].priority > state.priority then
        Put(s, t, state.(priority := s.tasks[from].priority))
      else s
    case DisinheritStep(_) => Put(s, t, state.(priority := state.basePriority))
  }

  function Run(s: System, steps: seq<Step>): System
    decreases |steps|
  {
    if steps == [] then s else Run(Perform(s, steps[0]), steps[1..])
  }

  lemma {:induction false} RunAppends(s: System, a: seq<Step>, b: seq<Step>)
    ensures Run(s, a + b) == Run(Run(s, a), b)
    decreases |a|
  {
    if a == [] {
      assert a + b == b;
    } else {
      assert (a + b)[0] == a[0] && (a + b)[1..] == a[1..] + b;
      RunAppends(Perform(s, a[0]), a[1..], b);
    }
  }

  lemma RunOne(s: System, step: Step)
    ensures Run(s, [step]) == Perform(s, step)
  {
    assert [step][1..] == [];
  }

  lemma TickIsAStep(s: System)
    ensures Run(s, [TickStep]) == TakeTick(s)
  {
    RunOne(s, TickStep);
  }

  lemma RunTwo(s: System, a: Step, b: Step)
    ensures Run(s, [a, b]) == Perform(Perform(s, a), b)
  {
    assert [a, b][1..] == [b];
    RunOne(Perform(s, a), b);
  }

  lemma RunThree(s: System, a: Step, b: Step, c: Step)
    ensures Run(s, [a, b, c]) == Perform(Perform(Perform(s, a), b), c)
  {
    assert [a, b, c][1..] == [b, c];
    RunTwo(Perform(s, a), b, c);
  }

  /**
    The steps of a vTaskDelayUntil by t that no interrupt breaks into. The task is delayed by what is
    left of the increment after the ticks since the previous wake, and these are counted modulo the clock.
   */
  function DelayUntilSteps(t: TaskId, now: nat, previous: int, increment: Tick): seq<Step> {
    if increment > Wrap(now - previous) then
      [SuspendAllStep, DelayStep(t, increment - Wrap(now - previous)), ResumeAllStep]
    else
      [SuspendAllStep, ResumeAllStep]
  }

  /** Less than a clock round after the previous wake that is a delay until the previous wake plus the increment. */
  lemma DelayUntilThePlannedTime(t: TaskId, now: nat, previous: nat, increment: Tick)
    requires previous <= now < previous + M
    ensures DelayUntilSteps(t, now, previous, increment) ==
      if previous + increment > now then [SuspendAllStep, DelayStep(t, previous + increment - now), ResumeAllStep]
      else [SuspendAllStep, ResumeAllStep]
  {
    Arithmetic.SmallMod(now - previous, M);
  }

  // ----- waking

  /** Waking twice is waking once, at the later time. */
  lemma WakeDueTwice(tasks: Tasks, a: nat, b: nat)
    requires a <= b
    ensures WakeDue(WakeDue(tasks, a), b) == WakeDue(tasks, b)
  {
  }

  /** Waking one due task by hand changes nothing about waking all of them. */
  lemma WakeOneFirst(tasks: Tasks, t: TaskId, now: nat)
    requires t in tasks
    ensures WakeDue(tasks[t := Woken(tasks[t], now)], now) == WakeDue(tasks, now)
  {
  }

  /** Releasing one pending task by hand changes nothing about releasing all of them. */
  lemma ReleaseOneFirst(tasks: Tasks, t: TaskId)
    requires t in tasks && tasks[t].event == PENDING
    ensures ReleasePending(tasks[t := Released(tasks[t])]) == ReleasePending(tasks)
  {
  }

  lemma NobodyDue(tasks: Tasks, now: nat)
    requires forall t :: t in tasks && tasks[t].place.Blocked? ==> tasks[t].place.due > now
    ensures WakeDue(tasks, now) == tasks
  {
  }

  // ----- theorems about runs

  function TicksIn(steps: seq<Step>): nat {
    if steps == [] then 0 else (if steps[0].TickStep? then 1 else 0) + TicksIn(steps[1..])
  }

  /** No tick is ever lost: those processed and those held back are those delivered. */
  lemma {:induction false} TicksAreConserved(s: System, steps: seq<Step>)
    ensures var e := Run(s, steps); e.now + e.missed == s.now + s.missed + TicksIn(steps)
    decreases |steps|
  {
    if steps != [] {
      TicksAreConserved(Perform(s, steps[0]), steps[1..]);
    }
  }

  function TickSteps(k: nat): (steps: seq<Step>)
    ensures |steps| == k
  {
    seq(k, _ => TickStep)
  }

  /** k ticks and one more are k + 1 ticks. */
  lemma TakenOneMore(s: System, k: nat)
    requires s.depth == 0
    ensures TakeTick(TakeTicks(s, k)) == TakeTicks(s, k + 1)
  {
    WakeDueTwice(s.tasks, s.now + k, s.now + k + 1);
  }

  lemma TickIgnoresMissed(s: System)
    requires s.depth == 0
    ensures TakeTick(s.(missed := 0)) == TakeTick(s).(missed := 0)
  {
  }

  lemma {:induction false} TicksInOneJump(s: System, k: nat)
    requires s.depth == 0
    ensures Run(s, TickSteps(k)) == TakeTicks(s, k)
    decreases k
  {
    if k > 0 {
      var s1 := TakeTick(s);
      assert TickSteps(k)[1..] == TickSteps(k - 1);
      TicksInOneJump(s1, k - 1);
      WakeDueTwice(s.tasks, s.now + 1, s.now + k);
    }
  }

  lemma {:induction false} TicksHeldBack(s: System, k: nat)
    requires s.depth > 0
    ensures Run(s, TickSteps(k)) == s.(missed := s.missed + k)
    decreases k
  {
    if k > 0 {
      assert TickSteps(k)[1..] == TickSteps(k - 1);
      TicksHeldBack(TakeTick(s), k - 1);
    }
  }

  lemma HeldBackThenResumed(s: System, k: nat)
    requires s.depth == 1
    ensures Run(s, TickSteps(k) + [ResumeAllStep]) == ResumeAll(s.(missed := s.missed + k))
  {
    RunAppends(s, TickSteps(k), [ResumeAllStep]);
    TicksHeldBack(s, k);
    RunOne(s.(missed := s.missed + k), ResumeAllStep);
  }

  lemma ResumedThenTaken(s: System, k: nat)
    requires s.depth == 1
    ensures Run(s, [ResumeAllStep] + TickSteps(k)) == Run(ResumeAll(s), TickSteps(k))
  {
    RunAppends(s, [ResumeAllStep], TickSteps(k));
    RunOne(s, ResumeAllStep);
  }

  lemma ResumedTakesTicks(s: System, k: nat)
    requires s.depth == 1
    ensures Run(ResumeAll(s), TickSteps(k)) == ResumeAll(s.(missed := s.missed + k))
  {
    TicksInOneJump(ResumeAll(s), k);
    WakeDueTwice(ReleasePending(s.tasks), s.now + s.missed, s.now + s.missed + k);
  }

  /** Taking k ticks while suspended and then resuming ends as resuming first and then taking them. */
  lemma SuspendedTicksAreMadeUpFor(s: System, k: nat)
    requires s.depth == 1
    ensures Run(s, TickSteps(k) + [ResumeAllStep]) == Run(s, [ResumeAllStep] + TickSteps(k))
  {
    HeldBackThenResumed(s, k);
    ResumedThenTaken(s, k);
    ResumedTakesTicks(s, k);
  }

  /** The step leaves the place and the event of t alone, unless by waking it on time. */
  predicate LeavesAlone(step: Step, t: TaskId) {
    match step
    case TickStep => true
    case SuspendAllStep => true
    case ResumeAllStep => true
    case CreateStep(_, _) => true
    case SetPriorityStep(_, _) => true
    case InheritStep(_, _) => true
    case DisinheritStep(_) => true
    case _ => step.task != t
  }

  ghost predicate LeftAlone(steps: seq<Step>, t: TaskId) {
    forall i :: 0 <= i < |steps| ==> LeavesAlone(steps[i], t)
  }

  ghost predicate AwaitsItsTime(s: System, t: TaskId, due: nat) {
    && t in s.tasks
    && (if s.now < due then s.tasks[t].place == Blocked(due) && s.tasks[t].event != PENDING
        else s.tasks[t].place == Ready && s.tasks[t].event == NOWHERE)
  }

  lemma OneStepKeepsTime(s: System, t: TaskId, due: nat, step: Step)
    requires AwaitsItsTime(s, t, due) && LeavesAlone(step, t)
    ensures AwaitsItsTime(Perform(s, step), t, due)
  {
  }

  /**
    Exact wake time: a task blocked until the due time, and not otherwise touched, is blocked
    in every state of every run before that tick is processed and ready in every one after.
   */
  lemma {:induction false} WokenExactlyWhenDue(s: System, t: TaskId, due: nat, steps: seq<Step>)
    requires AwaitsItsTime(s, t, due)
    requires LeftAlone(steps, t)
    ensures AwaitsItsTime(Run(s, steps), t, due)
    decreases |steps|
  {
    if steps != [] {
      OneStepKeepsTime(s, t, due, steps[0]);
      WokenExactlyWhenDue(Perform(s, steps[0]), t, due, steps[1..]);
    }
  }
}
