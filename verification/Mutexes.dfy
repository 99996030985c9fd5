/**
  Mutexes: the part of TCPv3/FreeRTOS/queue.c that gives queues of type queueQUEUE_IS_MUTEX a
  holder, and the priority inheritance it asks of TCPv3/FreeRTOS/tasks.c, on top of the abstract
  scheduler of TaskStates.
 */
module Mutexes {
  import opened Wrappers
  import opened Ticks
  import opened Filing
  import opened TaskStates

  type MutexId = nat

  /** messages is uxMessagesWaiting, of a queue of length 1 with items of no size. */
  datatype Mutex = Mutex(messages: nat, holder: Option<TaskId>)

  /**
    claims is a record kept for the proofs: for a task, the highest priority any task had when it
    blocked on a mutex the task held, since the task last gave a mutex. So is woken: for a mutex, the tasks
    that have been woken for it and have not tried again.
   */
  datatype World = World(system: System, mutexes: map<MutexId, Mutex>, claims: map<TaskId, nat>, woken: map<MutexId, set<TaskId>>)

  /** What tasks do with mutexes, one critical section each, and everything else that happens. */
  datatype Act =
    | CreateMutex(mutex: MutexId)
    | Take(task: TaskId, mutex: MutexId)
    | Block(task: TaskId, mutex: MutexId, ticks: Tick)
    | Give(task: TaskId, mutex: MutexId, waiter: Option<TaskId>)
    | Other(step: Step)

  // ----- the acts

  function Max(a: nat, b: nat): nat {
    if a < b then b else a
  }

  function ClaimOn(w: World, t: TaskId): nat {
    if t in w.claims then w.claims[t] else 0
  }

  /** The event list on which tasks wait for a mutex. */
  function EventOf(m: MutexId): int {
    PENDING + 1 + m
  }

  ghost predicate Holds(w: World, t: TaskId, m: MutexId) {
    m in w.mutexes && w.mutexes[m].holder == Some(t)
  }

  /** xQueueGenericReceive takes the token and records the running task. */
  function Taken(mutex: Mutex, t: TaskId): Mutex
    requires mutex.messages > 0
  {
    Mutex(mutex.messages - 1, Some(t))
  }

  /** prvCopyDataToQueue on a mutex */
  function Given(mutex: Mutex): Mutex {
    Mutex(mutex.messages + 1, None)
  }

  /** The holder gets the priority of the task, and then the task goes to sleep. */
  function BlockOn(s: System, mutex: Mutex, t: TaskId, event: int, ticks: Tick): System {
    var s1 := if mutex.holder.Some? then Perform(s, InheritStep(mutex.holder.value, t)) else s;
    Perform(s1, BlockStep(t, event, ticks, ticks == MAX_DELAY))
  }

  /** The holder, if there is one, gets its own priority back, and one waiting task is woken. */
  function GiveBack(s: System, mutex: Mutex, waiter: Option<TaskId>): System {
    var s1 := if mutex.holder.Some? then Perform(s, DisinheritStep(mutex.holder.value)) else s;
    if waiter.Some? then Perform(s1, NotifyStep(waiter.value)) else s1
  }

  function WokenFor(w: World, m: MutexId): set<TaskId> {
    if m in w.woken then w.woken[m] else {}
  }

  /** The task is on the event list of the mutex. */
  predicate Waits(s: System, t: TaskId, m: MutexId) {
    t in s.tasks && s.tasks[t].event == EventOf(m)
  }

  /** Whoever gives a mutex finds a waiting task, if there is one. */
  ghost predicate FindsWaiter(s: System, m: MutexId, waiter: Option<TaskId>) {
    match waiter
    case None => forall t :: !Waits(s, t, m)
    case Some(t) => Waits(s, t, m)
  }

  /** A claim rests on the task until it gives a mutex. */
  predicate Unclaimed(w: World, t: TaskId) {
    ClaimOn(w, t) == 0
  }

  /**
    What may happen. Mutexes are given only by their holders, a task that holds one is not deleted for
    good, and nobody sets the priority of a task that others have claims on.
   */
  ghost predicate Enabled(w: World, act: Act) {
    match act
    case CreateMutex(m) => m !in w.mutexes
    case Take(t, m) => m in w.mutexes && w.mutexes[m].messages > 0 && t in w.system.tasks
    case Block(t, m, _) => m in w.mutexes && w.mutexes[m].messages == 0 && t in w.system.tasks
    case Give(t, m, waiter) => Holds(w, t, m) && FindsWaiter(w.system, m, waiter)
    case Other(step) =>
      match step
      case SetPriorityStep(t, _) => Unclaimed(w, t)
      case ReapStep(t) => forall m :: !Holds(w, t, m)
      case InheritStep(_, _) => false
      case DisinheritStep(_) => false
      case _ => true
  }

  function Step(w: World, act: Act): World
    requires Enabled(w, act)
  {
    match act
    case CreateMutex(m) => w.(mutexes := w.mutexes[m := Given(Mutex(0, None))], woken := w.woken[m := {}])
    case Take(t, m) => w.(mutexes := w.mutexes[m := Taken(w.mutexes[m], t)], woken := w.woken[m := WokenFor(w, m) - {t}])
    case Block(t, m, ticks) =>
      World(BlockOn(w.system, w.mutexes[m], t, EventOf(m), ticks), w.mutexes, ClaimsAfterBlock(w, t, m),
            w.woken[m := WokenFor(w, m) - {t}])
    case Give(t, m, waiter) =>
      World(GiveBack(w.system, w.mutexes[m], waiter), w.mutexes[m := Given(w.mutexes[m])], w.claims[t := 0],
            w.woken[m := WokenFor(w, m) + if waiter.Some? then {waiter.value} else {}])
    case Other(step) => w.(system := Perform(w.system, step))
  }

  function ClaimsAfterBlock(w: World, t: TaskId, m: MutexId): map<TaskId, nat>
    requires m in w.mutexes && t in w.system.tasks
  {
    match w.mutexes[m].holder
    case None => w.claims
    case Some(h) => w.claims[h := Max(ClaimOn(w, h), w.system.tasks[t].priority)]
  }

  ghost function Run(w: World, acts: seq<Act>): World
    decreases |acts|
  {
    if acts == [] then w else Run(if Enabled(w, acts[0]) then Step(w, acts[0]) else w, acts[1..])
  }

  // ----- the invariant

  /** A mutex is empty exactly while somebody holds it. */
  ghost predicate HeldWhenEmpty(w: World) {
    forall m :: m in w.mutexes ==>
      && w.mutexes[m].messages <= 1
      && (w.mutexes[m].messages == 0 <==> w.mutexes[m].holder.Some?)
      && (w.mutexes[m].holder.Some? ==> w.mutexes[m].holder.value in w.system.tasks)
  }

  predicate HasRightPriority(w: World, t: TaskId)
    requires t in w.system.tasks
  {
    w.system.tasks[t].priority == Max(w.system.tasks[t].basePriority, ClaimOn(w, t))
  }

  /** Every task runs at its own priority or at the highest claim on it, whichever is higher. */
  ghost predicate PrioritiesAreExact(w: World) {
    forall t :: t in w.system.tasks ==> HasRightPriority(w, t)
  }

  /** Only holders are claimed upon. */
  ghost predicate ClaimsAreBacked(w: World) {
    forall t :: !Unclaimed(w, t) ==> exists m :: Holds(w, t, m)
  }

  ghost predicate Inv(w: World) {
    HeldWhenEmpty(w) && PrioritiesAreExact(w) && ClaimsAreBacked(w)
  }

  ghost function Start(s: System): World {
    World(s, map[], map[], map[])
  }

  // ----- priorities in the scheduler

  ghost predicate SamePriorities(s: System, s': System) {
    && (forall t :: t in s.tasks <==> t in s'.tasks)
    && forall t :: t in s.tasks ==>
         s'.tasks[t].priority == s.tasks[t].priority && s'.tasks[t].basePriority == s.tasks[t].basePriority
  }

  predicate TouchesPriorities(step: TaskStates.Step) {
    step.CreateStep? || step.ReapStep? || step.SetPriorityStep? || step.InheritStep? || step.DisinheritStep?
  }

  lemma MostStepsLeavePriorities(s: System, step: TaskStates.Step)
    requires !TouchesPriorities(step)
    ensures SamePriorities(s, Perform(s, step))
  {
  }

  /** Blocking on a mutex raises its holder to the priority of the one who blocks, and changes no other priority. */
  lemma BlockRaises(s: System, mutex: Mutex, t: TaskId, event: int, ticks: Tick)
    requires t in s.tasks && mutex.holder.Some? && mutex.holder.value in s.tasks
    ensures var h := mutex.holder.value;
      SamePriorities(s.(tasks := s.tasks[h := s.tasks[h].(priority := Max(s.tasks[h].priority, s.tasks[t].priority))]),
                     BlockOn(s, mutex, t, event, ticks))
  {
    var s1 := Perform(s, InheritStep(mutex.holder.value, t));
    MostStepsLeavePriorities(s1, BlockStep(t, event, ticks, ticks == MAX_DELAY));
  }

  lemma GiveLowers(s: System, mutex: Mutex, waiter: Option<TaskId>)
    requires mutex.holder.Some? && mutex.holder.value in s.tasks
    ensures var h := mutex.holder.value;
      SamePriorities(s.(tasks := s.tasks[h := s.tasks[h].(priority := s.tasks[h].basePriority)]), GiveBack(s, mutex, waiter))
  {
    var s1 := Perform(s, DisinheritStep(mutex.holder.value));
    if waiter.Some? {
      MostStepsLeavePriorities(s1, NotifyStep(waiter.value));
    }
  }

  // ----- what one act keeps

  lemma TakeKeeps(w: World, t: TaskId, m: MutexId)
    requires Inv(w) && Enabled(w, Take(t, m))
    ensures Inv(Step(w, Take(t, m)))
  {
    var w' := Step(w, Take(t, m));
    forall u | !Unclaimed(w', u) ensures exists k :: Holds(w', u, k) {
      assert !Unclaimed(w, u);
      var k :| Holds(w, u, k);
      assert Holds(w', u, k);
    }
  }

  lemma CreateMutexKeeps(w: World, m: MutexId)
    requires Inv(w) && Enabled(w, CreateMutex(m))
    ensures Inv(Step(w, CreateMutex(m)))
  {
    var w' := Step(w, CreateMutex(m));
    forall u | !Unclaimed(w', u) ensures exists k :: Holds(w', u, k) {
      assert !Unclaimed(w, u);
      var k :| Holds(w, u, k);
      assert Holds(w', u, k);
    }
  }

  lemma BlockKeeps(w: World, t: TaskId, m: MutexId, ticks: Tick)
    requires Inv(w) && Enabled(w, Block(t, m, ticks))
    ensures Inv(Step(w, Block(t, m, ticks)))
  {
    hide BlockOn;
    BlockRaises(w.system, w.mutexes[m], t, EventOf(m), ticks);
    var w' := Step(w, Block(t, m, ticks));
    var h := w.mutexes[m].holder.value;
    assert Holds(w', h, m);
    forall u | !Unclaimed(w', u) ensures exists k :: Holds(w', u, k) {
      if u != h {
        assert !Unclaimed(w, u);
        var k :| Holds(w, u, k);
        assert Holds(w', u, k);
      }
    }
    forall u | u in w'.system.tasks ensures HasRightPriority(w', u) {
      assert HasRightPriority(w, u);
    }
  }

  lemma GiveKeeps(w: World, t: TaskId, m: MutexId, waiter: Option<TaskId>)
    requires Inv(w) && Enabled(w, Give(t, m, waiter))
    ensures Inv(Step(w, Give(t, m, waiter)))
  {
    hide GiveBack;
    GiveLowers(w.system, w.mutexes[m], waiter);
    var w' := Step(w, Give(t, m, waiter));
    forall u | !Unclaimed(w', u) ensures exists k :: Holds(w', u, k) {
      assert !Unclaimed(w, u);
      var k :| Holds(w, u, k);
      assert Holds(w', u, k);
    }
    forall u | u in w'.system.tasks ensures HasRightPriority(w', u) {
      assert HasRightPriority(w, u);
    }
  }

  lemma OtherKeeps(w: World, step: TaskStates.Step)
    requires Inv(w) && Enabled(w, Other(step))
    ensures Inv(Step(w, Other(step)))
  {
    var w' := Step(w, Other(step));
    forall u | !Unclaimed(w', u) ensures exists k :: Holds(w', u, k) {
      assert !Unclaimed(w, u);
      var k :| Holds(w, u, k);
      assert Holds(w', u, k);
    }
    OtherKeepsPriorities(w, step);
  }

  lemma StrangersAreUnclaimed(w: World, t: TaskId)
    requires HeldWhenEmpty(w) && ClaimsAreBacked(w) && t !in w.system.tasks
    ensures Unclaimed(w, t)
  {
    forall m ensures !Holds(w, t, m) {
      if m in w.mutexes {
        assert w.mutexes[m].holder.Some? ==> w.mutexes[m].holder.value in w.system.tasks;
      }
    }
  }

  lemma OtherKeepsPriorities(w: World, step: TaskStates.Step)
    requires Inv(w) && Enabled(w, Other(step))
    ensures PrioritiesAreExact(Step(w, Other(step))) && HeldWhenEmpty(Step(w, Other(step)))
  {
    var w' := Step(w, Other(step));
    if !TouchesPriorities(step) {
      hide Perform;
      MostStepsLeavePriorities(w.system, step);
    } else {
      forall u | u in w'.system.tasks ensures HasRightPriority(w', u) {
        if u in w.system.tasks {
          assert HasRightPriority(w, u);
        } else {
          StrangersAreUnclaimed(w, u);
        }
      }
      forall m | m in w.mutexes && w.mutexes[m].holder.Some? ensures w.mutexes[m].holder.value in w'.system.tasks {
        assert Holds(w, w.mutexes[m].holder.value, m);
      }
    }
  }

  lemma StepKeepsInv(w: World, act: Act)
    requires Inv(w) && Enabled(w, act)
    ensures Inv(Step(w, act))
  {
    hide Inv, Enabled, Step;
    match act
    case CreateMutex(m) => CreateMutexKeeps(w, m);
    case Take(t, m) => TakeKeeps(w, t, m);
    case Block(t, m, ticks) => BlockKeeps(w, t, m, ticks);
    case Give(t, m, waiter) => GiveKeeps(w, t, m, waiter);
    case Other(step) => OtherKeeps(w, step);
  }

  // ----- what every run keeps

  lemma {:induction false} RunKeepsInv(w: World, acts: seq<Act>)
    requires Inv(w)
    ensures Inv(Run(w, acts))
    decreases |acts|
  {
    hide Inv, Enabled, Step;
    if acts != [] {
      if Enabled(w, acts[0]) {
        StepKeepsInv(w, acts[0]);
        RunKeepsInv(Step(w, acts[0]), acts[1..]);
      } else {
        RunKeepsInv(w, acts[1..]);
      }
    }
  }

  /**
    From tasks without mutexes on, in every run: a mutex is empty exactly while it has a holder, every
    task has the higher of its own priority and the claims on it, and only holders are above their own.
   */
  lemma EveryRun(s: System, acts: seq<Act>)
    requires forall t :: t in s.tasks ==> s.tasks[t].priority == s.tasks[t].basePriority
    ensures var w := Run(Start(s), acts);
      && HeldWhenEmpty(w) && PrioritiesAreExact(w)
      && forall t :: t in w.system.tasks && w.system.tasks[t].priority > w.system.tasks[t].basePriority ==> exists m :: Holds(w, t, m)
  {
    hide Run, HeldWhenEmpty;
    StartIsSound(s);
    RunKeepsInv(Start(s), acts);
    var w := Run(Start(s), acts);
    forall t | t in w.system.tasks && w.system.tasks[t].priority > w.system.tasks[t].basePriority
      ensures exists m :: Holds(w, t, m)
    {
      assert HasRightPriority(w, t);
      assert !Unclaimed(w, t);
    }
  }

  lemma StartIsSound(s: System)
    requires forall t :: t in s.tasks ==> s.tasks[t].priority == s.tasks[t].basePriority
    ensures Inv(Start(s))
  {
  }

  predicate GivesAMutex(act: Act, t: TaskId) {
    act.Give? && act.task == t
  }

  ghost predicate NeverGives(acts: seq<Act>, t: TaskId) {
    forall i :: 0 <= i < |acts| ==> !GivesAMutex(acts[i], t)
  }

  lemma HolderStays(w: World, act: Act, h: TaskId, m: MutexId)
    requires Inv(w) && Enabled(w, act) && Holds(w, h, m) && !GivesAMutex(act, h)
    ensures Holds(Step(w, act), h, m) && ClaimOn(Step(w, act), h) >= ClaimOn(w, h)
  {
    hide Perform, BlockOn, GiveBack;
  }

  /** A task that holds a mutex and gives none keeps it, and keeps what others claim of it. */
  lemma {:induction false} HolderStaysThrough(w: World, acts: seq<Act>, h: TaskId, m: MutexId)
    requires Inv(w) && Holds(w, h, m) && NeverGives(acts, h)
    ensures Holds(Run(w, acts), h, m) && ClaimOn(Run(w, acts), h) >= ClaimOn(w, h)
    decreases |acts|
  {
    hide Inv, Enabled, Step, Holds, ClaimOn;
    if acts != [] {
      assert !GivesAMutex(acts[0], h);
      if Enabled(w, acts[0]) {
        StepKeepsInv(w, acts[0]);
        HolderStays(w, acts[0], h, m);
        HolderStaysThrough(Step(w, acts[0]), acts[1..], h, m);
      } else {
        HolderStaysThrough(w, acts[1..], h, m);
      }
    }
  }

  lemma HolderHasClaimedPriority(w: World, h: TaskId, m: MutexId)
    requires Inv(w) && Holds(w, h, m)
    ensures h in w.system.tasks && w.system.tasks[h].priority >= ClaimOn(w, h)
  {
    assert HasRightPriority(w, h);
  }

  lemma BlockClaims(w: World, t: TaskId, m: MutexId, ticks: Tick)
    requires Inv(w) && Enabled(w, Block(t, m, ticks))
    ensures w.mutexes[m].holder.Some?
    ensures var h := w.mutexes[m].holder.value;
      Holds(Step(w, Block(t, m, ticks)), h, m) && ClaimOn(Step(w, Block(t, m, ticks)), h) >= w.system.tasks[t].priority
  {
    hide BlockOn;
  }

  /**
    Priority inheritance: a task that blocks on a mutex finds somebody holding it, and from then on,
    whatever happens, until the holder gives a mutex, the holder keeps this one and runs at the priority
    that the blocked task had, or above.
   */
  lemma InheritanceLasts(w: World, t: TaskId, m: MutexId, ticks: Tick, acts: seq<Act>)
    requires Inv(w) && Enabled(w, Block(t, m, ticks))
    requires w.mutexes[m].holder.Some? ==> NeverGives(acts, w.mutexes[m].holder.value)
    ensures w.mutexes[m].holder.Some?
    ensures var h := w.mutexes[m].holder.value; var w' := Run(Step(w, Block(t, m, ticks)), acts);
      Holds(w', h, m) && h in w'.system.tasks && w'.system.tasks[h].priority >= w.system.tasks[t].priority
  {
    hide Inv, Step, Run, ClaimOn, NeverGives, Holds;
    BlockClaims(w, t, m, ticks);
    var h := w.mutexes[m].holder.value;
    var w1 := Step(w, Block(t, m, ticks));
    StepKeepsInv(w, Block(t, m, ticks));
    HolderStaysThrough(w1, acts, h, m);
    RunKeepsInv(w1, acts);
    HolderHasClaimedPriority(Run(w1, acts), h, m);
  }

  /** Mutual exclusion: while a task holds a mutex and gives none, nobody can take it. */
  lemma HeldMutexIsNotTaken(w: World, h: TaskId, m: MutexId, acts: seq<Act>, t: TaskId)
    requires Inv(w) && Holds(w, h, m) && NeverGives(acts, h)
    ensures !Enabled(Run(w, acts), Take(t, m))
  {
    HolderStaysThrough(w, acts, h, m);
    RunKeepsInv(w, acts);
    hide Run, NeverGives;
  }

  /** Giving a mutex brings the holder back to its own priority, changes no other one, and frees the mutex. */
  lemma GivingRestoresPriority(w: World, t: TaskId, m: MutexId, waiter: Option<TaskId>)
    requires Inv(w) && Enabled(w, Give(t, m, waiter))
    ensures var w' := Step(w, Give(t, m, waiter));
      && w'.mutexes[m] == Mutex(1, None) && t in w'.system.tasks
      && w'.system.tasks[t].priority == w'.system.tasks[t].basePriority
      && forall u :: u in w.system.tasks && u != t ==> u in w'.system.tasks && w'.system.tasks[u].priority == w.system.tasks[u].priority
  {
    hide GiveBack;
    GiveLowers(w.system, w.mutexes[m], waiter);
  }

  // ----- nobody waits for a free mutex

  /** Ready, or kept pending until the scheduler resumes. */
  predicate IsAwake(s: System, t: TaskId) {
    t in s.tasks && (s.tasks[t].place == Ready || s.tasks[t].event == PENDING)
  }

  /** The step may put the task to sleep, or do away with it. */
  predicate Stops(step: TaskStates.Step, t: TaskId) {
    match step
    case DelayStep(u, _) => u == t
    case BlockStep(u, _, _, _) => u == t
    case SuspendStep(u) => u == t
    case DeleteStep(u) => u == t
    case ReapStep(u) => u == t
    case _ => false
  }

  /**
    A task is in one call at a time; the event list of a mutex is for waiting for it, and empty when the mutex is
    created; and nobody stops a task that has been woken for a mutex and has not tried again.
   */
  ghost predicate Proper(w: World, act: Act) {
    match act
    case CreateMutex(m) => forall t :: !Waits(w.system, t, m)
    case Take(_, _) => true
    case Block(t, m, _) => forall k :: k != m ==> t !in WokenFor(w, k)
    case Give(_, _, _) => true
    case Other(step) =>
      && (step.BlockStep? ==> forall m :: m in w.mutexes ==> step.event != EventOf(m))
      && forall m, t :: t in WokenFor(w, m) ==> !Stops(step, t)
  }

  ghost predicate ProperRun(w: World, acts: seq<Act>)
    decreases |acts|
  {
    acts == [] || if Enabled(w, acts[0]) then Proper(w, acts[0]) && ProperRun(Step(w, acts[0]), acts[1..]) else ProperRun(w, acts[1..])
  }

  /** Beside a free mutex that somebody waits for, somebody has been woken for it. */
  ghost predicate WakeUpsUnderWay(w: World) {
    forall m, t :: m in w.mutexes && w.mutexes[m].messages > 0 && Waits(w.system, t, m) ==> WokenFor(w, m) != {}
  }

  ghost predicate WokenAreAwake(w: World) {
    forall m, t :: t in WokenFor(w, m) ==> IsAwake(w.system, t)
  }

  lemma OthersStayAwake(s: System, step: TaskStates.Step, t: TaskId)
    requires IsAwake(s, t) && !Stops(step, t)
    ensures IsAwake(Perform(s, step), t)
  {
  }

  lemma NobodyElseWaits(s: System, step: TaskStates.Step, t: TaskId, m: MutexId)
    requires Waits(Perform(s, step), t, m) && !(step.BlockStep? && step.event == EventOf(m))
    ensures Waits(s, t, m)
  {
  }

  /** Who blocks sleeps on the event list of the mutex; all others that were awake still are. */
  lemma BlockingSleeps(s: System, mutex: Mutex, t: TaskId, m: MutexId, ticks: Tick, u: TaskId)
    requires t in s.tasks && (mutex.holder.Some? ==> mutex.holder.value in s.tasks)
    ensures var s' := BlockOn(s, mutex, t, EventOf(m), ticks);
      && Waits(s', t, m) && s'.tasks[t].place == (if ticks == MAX_DELAY then Suspended else Blocked(s.now + ticks))
      && (u != t && IsAwake(s, u) ==> IsAwake(s', u))
      && forall k :: k != m && Waits(s', u, k) ==> Waits(s, u, k)
  {
  }

  /** Giving a mutex wakes the waiting task, and puts nobody to sleep. */
  lemma GivingWakes(s: System, mutex: Mutex, m: MutexId, waiter: Option<TaskId>, u: TaskId)
    requires FindsWaiter(s, m, waiter) && (mutex.holder.Some? ==> mutex.holder.value in s.tasks)
    ensures var s' := GiveBack(s, mutex, waiter);
      && (waiter.Some? ==> IsAwake(s', waiter.value) && !Waits(s', waiter.value, m))
      && (IsAwake(s, u) ==> IsAwake(s', u))
      && forall k :: Waits(s', u, k) ==> Waits(s, u, k)
  {
  }

  lemma StepKeepsAwake(w: World, act: Act)
    requires Inv(w) && Enabled(w, act) && Proper(w, act) && WokenAreAwake(w)
    ensures WokenAreAwake(Step(w, act))
  {
    hide Perform, BlockOn, GiveBack, Stops, IsAwake, Waits;
    var w' := Step(w, act);
    forall m, t | t in WokenFor(w', m) ensures IsAwake(w'.system, t) {
      assert t in WokenFor(w, m) || (act.Give? && act.mutex == m && act.waiter == Some(t));
      match act
      case CreateMutex(_) =>
      case Take(_, _) =>
      case Block(u, k, ticks) => BlockingSleeps(w.system, w.mutexes[k], u, k, ticks, t);
      case Give(_, k, waiter) => GivingWakes(w.system, w.mutexes[k], k, waiter, t);
      case Other(step) => OthersStayAwake(w.system, step, t);
    }
  }

  lemma StepKeepsWakeUps(w: World, act: Act)
    requires Inv(w) && Enabled(w, act) && Proper(w, act) && WakeUpsUnderWay(w)
    ensures WakeUpsUnderWay(Step(w, act))
  {
    hide Perform, BlockOn, GiveBack, Stops, IsAwake, Waits;
    var w' := Step(w, act);
    forall m, t | m in w'.mutexes && w'.mutexes[m].messages > 0 && Waits(w'.system, t, m) ensures WokenFor(w', m) != {} {
      match act
      case CreateMutex(_) =>
      case Take(_, _) =>
      case Block(u, k, ticks) => BlockingSleeps(w.system, w.mutexes[k], u, k, ticks, t);
      case Give(_, k, waiter) =>
        GivingWakes(w.system, w.mutexes[k], k, waiter, t);
        assert waiter.Some? && m == k ==> waiter.value in WokenFor(w', m);
      case Other(step) => NobodyElseWaits(w.system, step, t, m);
    }
  }

  lemma {:induction false} RunKeepsWakeUps(w: World, acts: seq<Act>)
    requires Inv(w) && WakeUpsUnderWay(w) && WokenAreAwake(w) && ProperRun(w, acts)
    ensures WakeUpsUnderWay(Run(w, acts)) && WokenAreAwake(Run(w, acts))
    decreases |acts|
  {
    hide Inv, Enabled, Step, Proper, WakeUpsUnderWay, WokenAreAwake;
    if acts != [] {
      if Enabled(w, acts[0]) {
        StepKeepsInv(w, acts[0]);
        StepKeepsWakeUps(w, acts[0]);
        StepKeepsAwake(w, acts[0]);
        RunKeepsWakeUps(Step(w, acts[0]), acts[1..]);
      } else {
        RunKeepsWakeUps(w, acts[1..]);
      }
    }
  }

  /** In every such run: while a task waits for a mutex that is free, another one has been woken for it, and is ready or pending. */
  lemma NobodyWaitsForAFreeMutex(s: System, acts: seq<Act>, m: MutexId, t: TaskId) returns (u: TaskId)
    requires (forall v :: v in s.tasks ==> s.tasks[v].priority == s.tasks[v].basePriority) && ProperRun(Start(s), acts)
    requires var w := Run(Start(s), acts); m in w.mutexes && w.mutexes[m].holder.None? && Waits(w.system, t, m)
    ensures var w := Run(Start(s), acts); u in WokenFor(w, m) && IsAwake(w.system, u)
  {
    hide Run, Waits, ProperRun, PrioritiesAreExact, ClaimsAreBacked;
    StartIsSound(s);
    RunKeepsInv(Start(s), acts);
    RunKeepsWakeUps(Start(s), acts);
    var w := Run(Start(s), acts);
    u :| u in WokenFor(w, m);
  }

  // ----- setting priorities

  /**
    Setting the priority of a task: if it is not above its own priority, it is right afterwards exactly if the
    new priority does not fall below the claims that the old one met; if it is, exactly if the new one does
    not exceed the priority that it runs at.
   */
  lemma SettingPriorityUnderClaims(w: World, t: TaskId, p: nat)
    requires Inv(w) && t in w.system.tasks
    ensures var w', state := w.(system := Perform(w.system, SetPriorityStep(t, p))), w.system.tasks[t];
      t in w'.system.tasks
      && (HasRightPriority(w', t) <==> if state.priority == state.basePriority then ClaimOn(w, t) <= p else p <= state.priority)
  {
    assert HasRightPriority(w, t);
  }

  /** Task 7 has the given priorities and holds a mutex on which a task blocked that had the claimed one. */
  function ClaimedUpon(priority: nat, base: nat, claim: nat): World {
    World(System(0, 0, 0, map[7 := TaskState(priority, base, Ready, NOWHERE)]), map[0 := Mutex(0, Some(7))], map[7 := claim], map[])
  }

  /** vTaskPrioritySet from 3 to 1 while a task of priority 3 waits: the holder falls below it. */
  lemma PrioritySetBelowAClaim()
    ensures var w := ClaimedUpon(3, 3, 3);
      Inv(w) && Perform(w.system, SetPriorityStep(7, 1)).tasks[7].priority == 1
  {
    assert Holds(ClaimedUpon(3, 3, 3), 7, 0);
  }

  /** vTaskPrioritySet from 1 to 6 while the holder runs at an inherited 5: it goes on at 5. */
  lemma PrioritySetAboveAClaim()
    ensures var w := ClaimedUpon(5, 1, 5);
      Inv(w) && Perform(w.system, SetPriorityStep(7, 6)).tasks[7].priority == 5
  {
    assert Holds(ClaimedUpon(5, 1, 5), 7, 0);
  }
}
