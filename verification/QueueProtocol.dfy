/**
  The blocking protocol of TCPv3/FreeRTOS/queue.c. Each critical section, each interrupt
  service routine and each stretch with the scheduler suspended between two of them is one
  step. Tasks take their steps in any order the scheduler allows; interrupts come in anywhere.
 */
module QueueProtocol {
  import opened Octets
  import opened Wrappers
  import opened Rings
  import opened Filing

  type Task = TaskId
  type Item = seq<byte>

  const UNLOCKED: int := -1
  const LOCKED_UNMODIFIED: int := 0

  datatype Call = Send(item: Item, toFront: bool) | Receive | Peek

  /**
    Where a task is in xQueueGenericSend or xQueueGenericReceive:
    Trying: in front of the first critical section, for the first time or again;
    Failed: that section found the queue full, or empty, and the call may block;
    Alone: the scheduler is suspended; Locking: the queue is locked too;
    Confirmed: full, or empty, still; UnlockingTx, UnlockingRx: in prvUnlockQueue, possibly placed
    on the event list; Resuming: in front of xTaskResumeAll; Blocked: switched out.
   */
  datatype Phase =
    | Idle
    | Trying(call: Call)
    | Failed(call: Call)
    | Alone(call: Call)
    | Locking(call: Call)
    | Confirmed(call: Call)
    | UnlockingTx(call: Call, placed: bool, givingUp: bool)
    | UnlockingRx(call: Call, placed: bool, givingUp: bool)
    | Resuming(call: Call, placed: bool, givingUp: bool)
    | Blocked(call: Call)

  type Phases = map<Task, Phase>

  /**
    One side of the queue: its event list, its lock count, and, for the record, the tasks that an
    event has woken and that have not tried again yet.
   */
  datatype Side = Side(waiting: seq<Task>, lock: int, woken: set<Task>)

  /**
    The queue, the phases of its users, and the task that has the scheduler suspended. receivers has
    xTasksWaitingToReceive and xTxLock, senders has xTasksWaitingToSend and xRxLock; sent and
    received record all items that ever went in and came out.
   */
  datatype State = State(
    length: nat, items: seq<Item>, senders: Side, receivers: Side,
    phases: Phases, alone: Option<Task>, sent: seq<Item>, received: seq<Item>)

  datatype Action =
    | Begin(task: Task, call: Call)
    | Try(task: Task, mayBlock: bool)
    | SuspendAll(task: Task)
    | Lock(task: Task)
    | Check(task: Task, timedOut: bool)
    | Place(task: Task, position: nat)
    | UnlockTx(task: Task)
    | UnlockRx(task: Task)
    | ResumeAll(task: Task)
    | TakeOff(task: Task, position: nat)
    | SendFromISR(item: Item, toFront: bool)
    | ReceiveFromISR

  // ----- the pieces of the steps

  function Max0(lock: int): nat {
    if lock > 0 then lock else 0
  }

  function Min(a: nat, b: nat): nat {
    if a < b then a else b
  }

  function PhaseOf(phases: Phases, t: Task): Phase {
    if t in phases then phases[t] else Idle
  }

  function Goto(s: State, t: Task, phase: Phase): State {
    s.(phases := s.phases[t := phase])
  }

  /** Tasks removed from an event list try again, except one that is still on its way through the call. */
  function Awake(phase: Phase): Phase {
    if phase.Blocked? then Trying(phase.call) else phase
  }

  function AllAwake(phases: Phases, ts: seq<Task>): Phases {
    map t | t in phases :: if t in ts then Awake(phases[t]) else phases[t]
  }

  function Woken(side: Side, k: nat): Side
    requires k <= |side.waiting|
  {
    side.(waiting := side.waiting[k..], woken := side.woken + Elements(side.waiting[..k]))
  }

  /** xTaskRemoveFromEventList for the first k receivers. */
  function WakeReceivers(s: State, k: nat): State
    requires k <= |s.receivers.waiting|
  {
    s.(receivers := Woken(s.receivers, k), phases := AllAwake(s.phases, s.receivers.waiting[..k]))
  }

  function WakeSenders(s: State, k: nat): State
    requires k <= |s.senders.waiting|
  {
    s.(senders := Woken(s.senders, k), phases := AllAwake(s.phases, s.senders.waiting[..k]))
  }

  /** An item goes in, to be announced. */
  function PutItem(s: State, item: Item, toFront: bool): State {
    s.(items := if toFront then [item] + s.items else s.items + [item], sent := s.sent + [item])
  }

  function TakeItem(s: State): State
    requires s.items != []
  {
    s.(items := s.items[1..], received := s.received + [s.items[0]])
  }

  /** One more item: the first receiver is woken, or the lock counts the item. */
  function AnnounceItem(s: State): State {
    if s.receivers.lock == UNLOCKED then WakeReceivers(s, Min(1, |s.receivers.waiting|))
    else s.(receivers := s.receivers.(lock := s.receivers.lock + 1))
  }

  /** One more free slot. */
  function AnnounceSpace(s: State): State {
    if s.senders.lock == UNLOCKED then WakeSenders(s, Min(1, |s.senders.waiting|))
    else s.(senders := s.senders.(lock := s.senders.lock + 1))
  }

  function Locked(side: Side): Side {
    side.(lock := if side.lock == UNLOCKED then LOCKED_UNMODIFIED else side.lock)
  }

  function WaitingList(s: State, call: Call): seq<Task> {
    if call.Send? then s.senders.waiting else s.receivers.waiting
  }

  function SetWaitingList(s: State, call: Call, ts: seq<Task>): State {
    if call.Send? then s.(senders := s.senders.(waiting := ts)) else s.(receivers := s.receivers.(waiting := ts))
  }

  /** prvIsQueueFull, prvIsQueueEmpty */
  predicate IsFullOrEmpty(s: State, call: Call) {
    if call.Send? then |s.items| == s.length else s.items == []
  }

  /** The test at the start of a call. */
  predicate CanProceed(s: State, call: Call) {
    if call.Send? then |s.items| < s.length else |s.items| > 0
  }

  // ----- the steps

  /** No task runs while another has the scheduler suspended. */
  predicate Enabled(s: State, a: Action) {
    match a
    case Begin(t, _) => s.alone.None? && PhaseOf(s.phases, t).Idle?
    case Try(t, _) => s.alone.None? && PhaseOf(s.phases, t).Trying?
    case SuspendAll(t) => s.alone.None? && PhaseOf(s.phases, t).Failed?
    case Lock(t) => s.alone == Some(t) && PhaseOf(s.phases, t).Alone?
    case Check(t, _) => s.alone == Some(t) && PhaseOf(s.phases, t).Locking?
    case Place(t, p) =>
      s.alone == Some(t) && PhaseOf(s.phases, t).Confirmed? && p <= |WaitingList(s, PhaseOf(s.phases, t).call)|
    case UnlockTx(t) => s.alone == Some(t) && PhaseOf(s.phases, t).UnlockingTx?
    case UnlockRx(t) => s.alone == Some(t) && PhaseOf(s.phases, t).UnlockingRx?
    case ResumeAll(t) => s.alone == Some(t) && PhaseOf(s.phases, t).Resuming?
    case TakeOff(t, p) =>
      && s.alone.None? && PhaseOf(s.phases, t).Blocked?
      && p < |WaitingList(s, PhaseOf(s.phases, t).call)| && WaitingList(s, PhaseOf(s.phases, t).call)[p] == t
    case SendFromISR(_, _) => true
    case ReceiveFromISR => true
  }

  function Step(s: State, a: Action): State
    requires Enabled(s, a)
  {
    match a
    case Begin(t, call) => Goto(s, t, Trying(call))
    case Try(t, mayBlock) => TryStep(s, t, mayBlock)
    case SuspendAll(t) => Goto(s, t, Alone(s.phases[t].call)).(alone := Some(t))
    case Lock(t) => Goto(s, t, Locking(s.phases[t].call)).(senders := Locked(s.senders), receivers := Locked(s.receivers))
    case Check(t, timedOut) => CheckStep(s, t, timedOut)
    case Place(t, p) => PlaceStep(s, t, p)
    case UnlockTx(t) => UnlockTxStep(s, t)
    case UnlockRx(t) => UnlockRxStep(s, t)
    case ResumeAll(t) => ResumeStep(s, t)
    case TakeOff(t, p) =>
      var call := s.phases[t].call;
      SetWaitingList(Goto(s, t, Trying(call)), call, SeqDrop(WaitingList(s, call), p))
    case SendFromISR(item, toFront) =>
      if |s.items| < s.length then AnnounceItem(PutItem(s, item, toFront)) else s
    case ReceiveFromISR =>
      if |s.items| > 0 then AnnounceSpace(TakeItem(s)) else s
  }

  /** The first critical section of a call; a task that was woken has now tried again. */
  function TryStep(s: State, t: Task, mayBlock: bool): State
    requires PhaseOf(s.phases, t).Trying?
  {
    var call := s.phases[t].call;
    var s0 := s.(senders := s.senders.(woken := s.senders.woken - {t}), receivers := s.receivers.(woken := s.receivers.woken - {t}));
    if !CanProceed(s, call) then Goto(s0, t, if mayBlock then Failed(call) else Idle)
    else
      var s1 := Goto(s0, t, Idle);
      match call
      case Send(item, toFront) => AnnounceItem(PutItem(s1, item, toFront))
      case Receive => AnnounceSpace(TakeItem(s1))
      case Peek => AnnounceItem(s1)
  }

  /** xTaskCheckForTimeOut, then prvIsQueueFull or prvIsQueueEmpty, with the queue locked. */
  function CheckStep(s: State, t: Task, timedOut: bool): State
    requires PhaseOf(s.phases, t).Locking?
  {
    var call := s.phases[t].call;
    Goto(s, t, if timedOut then UnlockingTx(call, false, true)
               else if IsFullOrEmpty(s, call) then Confirmed(call)
               else UnlockingTx(call, false, false))
  }

  /** vTaskPlaceOnEventList; the place in the list is the priority's affair. */
  function PlaceStep(s: State, t: Task, p: nat): State
    requires PhaseOf(s.phases, t).Confirmed? && p <= |WaitingList(s, PhaseOf(s.phases, t).call)|
  {
    var call := s.phases[t].call;
    SetWaitingList(Goto(s, t, UnlockingTx(call, true, false)), call, SeqInsert(WaitingList(s, call), p, t))
  }

  /** As many receivers are woken as items were counted, if so many wait, and the count ends. */
  function ServeReceivers(s: State): State {
    var s1 := WakeReceivers(s, Min(Max0(s.receivers.lock), |s.receivers.waiting|));
    s1.(receivers := s1.receivers.(lock := UNLOCKED))
  }

  function ServeSenders(s: State): State {
    var s1 := WakeSenders(s, Min(Max0(s.senders.lock), |s.senders.waiting|));
    s1.(senders := s1.senders.(lock := UNLOCKED))
  }

  /** The first critical section of prvUnlockQueue. */
  function UnlockTxStep(s: State, t: Task): State
    requires PhaseOf(s.phases, t).UnlockingTx?
  {
    var phase := s.phases[t];
    Goto(ServeReceivers(s), t, UnlockingRx(phase.call, phase.placed, phase.givingUp))
  }

  /** The second critical section of prvUnlockQueue. */
  function UnlockRxStep(s: State, t: Task): State
    requires PhaseOf(s.phases, t).UnlockingRx?
  {
    var phase := s.phases[t];
    Goto(ServeSenders(s), t, Resuming(phase.call, phase.placed, phase.givingUp))
  }

  /** xTaskResumeAll: a task that placed itself is switched out, unless it has been woken meanwhile. */
  function ResumeStep(s: State, t: Task): State
    requires PhaseOf(s.phases, t).Resuming?
  {
    var phase := s.phases[t];
    Goto(s, t, if phase.givingUp then Idle
               else if phase.placed && t in WaitingList(s, phase.call) then Blocked(phase.call)
               else Trying(phase.call)).(alone := None)
  }

  /** The step, if it may be taken. */
  function Next(s: State, a: Action): State {
    if Enabled(s, a) then Step(s, a) else s
  }

  function Run(s: State, actions: seq<Action>): State
    decreases |actions|
  {
    if actions == [] then s else Run(Next(s, actions[0]), actions[1..])
  }

  function Init(length: nat): State {
    State(length, [], Side([], UNLOCKED, {}), Side([], UNLOCKED, {}), map[], None, [], [])
  }

  // ----- the invariant

  predicate IsWithdrawing(phase: Phase) {
    phase.UnlockingTx? || phase.UnlockingRx? || phase.Resuming?
  }

  predicate RunsAlone(phase: Phase) {
    phase.Alone? || phase.Locking? || phase.Confirmed? || IsWithdrawing(phase)
  }

  /** The task waits, or is about to: it has placed itself on the list and is on its way out. */
  predicate Waits(phase: Phase, sender: bool) {
    (phase.Blocked? || (IsWithdrawing(phase) && phase.placed)) && phase.call.Send? == sender
  }

  /** The task has been woken: it tries again, or will when it is through. */
  predicate ComesBack(phase: Phase, sender: bool) {
    (phase.Trying? || (IsWithdrawing(phase) && phase.placed && !phase.givingUp)) && phase.call.Send? == sender
  }

  /** Who is on the event list of a side, who has been woken from it, and which phases belong to that. */
  ghost predicate SideMatches(phases: Phases, side: Side, sender: bool) {
    && Distinct(side.waiting)
    && (forall t :: t in side.waiting ==> Waits(PhaseOf(phases, t), sender) && t !in side.woken)
    && (forall t :: t in phases && phases[t].Blocked? && phases[t].call.Send? == sender ==> t in side.waiting)
    && (forall t :: t in side.woken ==> ComesBack(PhaseOf(phases, t), sender))
  }

  ghost predicate PlacedMeans(phases: Phases) {
    forall t :: t in phases && IsWithdrawing(phases[t]) && phases[t].placed ==> !phases[t].givingUp
  }

  /** At most one task runs alone, and the locks are as its phase says. */
  ghost predicate LocksMatch(phases: Phases, alone: Option<Task>, txLock: int, rxLock: int) {
    && (forall t :: t in phases && RunsAlone(phases[t]) ==> alone == Some(t))
    && match alone {
         case None => txLock == UNLOCKED && rxLock == UNLOCKED
         case Some(t) =>
           var phase := PhaseOf(phases, t);
           && RunsAlone(phase)
           && (if phase.Locking? || phase.Confirmed? || phase.UnlockingTx? then txLock >= 0 else txLock == UNLOCKED)
           && (if phase.Alone? || phase.Resuming? then rxLock == UNLOCKED else rxLock >= 0)
       }
  }

  /**
    Nobody waits in vain: beside every item that receivers wait for, or every free slot that senders
    wait for, there is one of them on its way, or a lock count that will fetch one.
   */
  ghost predicate Covered(side: Side, available: int) {
    side.waiting != [] ==> available <= |side.woken| + Max0(side.lock)
  }

  /** A task about to wait has seen no item, and no free slot, that the lock has not counted. */
  ghost predicate ConfirmedStill(s: State) {
    s.alone.Some? && PhaseOf(s.phases, s.alone.value).Confirmed? ==>
      if PhaseOf(s.phases, s.alone.value).call.Send? then s.length - |s.items| <= s.senders.lock
      else |s.items| <= s.receivers.lock
  }

  /** Nothing is lost, made up, or handed out twice. */
  ghost predicate ItemsConserved(s: State) {
    |s.items| <= s.length && multiset(s.sent) == multiset(s.received) + multiset(s.items)
  }

  ghost predicate Matches(s: State) {
    && SideMatches(s.phases, s.senders, true) && SideMatches(s.phases, s.receivers, false)
    && PlacedMeans(s.phases)
    && LocksMatch(s.phases, s.alone, s.receivers.lock, s.senders.lock)
  }

  ghost predicate NobodyForgotten(s: State) {
    Covered(s.receivers, |s.items|) && Covered(s.senders, s.length - |s.items|)
  }

  ghost predicate Flow(s: State) {
    Matches(s) && NobodyForgotten(s) && ConfirmedStill(s)
  }

  ghost predicate Inv(s: State) {
    Flow(s) && ItemsConserved(s)
  }

  // ----- waking

  /** A split list: everybody is in one half, and nobody in both. */
  lemma Halves(ts: seq<Task>, k: nat)
    requires Distinct(ts) && k <= |ts|
    ensures Distinct(ts[..k]) && Distinct(ts[k..])
    ensures forall t :: t in ts <==> t in ts[..k] || t in ts[k..]
    ensures forall t :: t in ts[..k] ==> t !in ts[k..]
  {
    assert ts == ts[..k] + ts[k..];
  }

  /** Waking the first k tasks of a side turns k waiting tasks into woken ones. */
  lemma WakingOwnSide(phases: Phases, side: Side, sender: bool, k: nat)
    requires SideMatches(phases, side, sender) && PlacedMeans(phases) && k <= |side.waiting|
    ensures SideMatches(AllAwake(phases, side.waiting[..k]), Woken(side, k), sender)
    ensures |Woken(side, k).woken| == |side.woken| + k
  {
    hide Distinct, AllAwake, Waits, ComesBack, PlacedMeans;
    var ts := side.waiting[..k];
    var phases' := AllAwake(phases, ts);
    Halves(side.waiting, k);
    DistinctCardinality(ts);
    assert Elements(ts) !! side.woken;
    forall t ensures t in ts ==> ComesBack(PhaseOf(phases', t), sender)
      ensures t !in ts ==> PhaseOf(phases', t) == PhaseOf(phases, t)
      ensures t in phases' && phases'[t].Blocked? ==> t !in ts && t in phases && phases[t] == phases'[t]
    {
      WakingOne(phases, ts, t, sender);
    }
  }

  lemma WakingOne(phases: Phases, ts: seq<Task>, t: Task, sender: bool)
    requires PlacedMeans(phases) && (t in ts ==> Waits(PhaseOf(phases, t), sender))
    ensures var phases' := AllAwake(phases, ts);
      && (t in ts ==> ComesBack(PhaseOf(phases', t), sender))
      && (t !in ts ==> PhaseOf(phases', t) == PhaseOf(phases, t))
      && (t in phases' && phases'[t].Blocked? ==> t !in ts && t in phases && phases[t] == phases'[t])
  {
  }

  /** The other side does not notice. */
  lemma WakingOtherSide(phases: Phases, ts: seq<Task>, other: Side, sender: bool)
    requires SideMatches(phases, other, !sender)
    requires forall t :: t in ts ==> Waits(PhaseOf(phases, t), sender)
    ensures SideMatches(AllAwake(phases, ts), other, !sender)
  {
    hide Distinct;
  }

  lemma WakingKeepsLocks(phases: Phases, ts: seq<Task>, alone: Option<Task>, txLock: int, rxLock: int)
    requires LocksMatch(phases, alone, txLock, rxLock) && PlacedMeans(phases)
    ensures LocksMatch(AllAwake(phases, ts), alone, txLock, rxLock) && PlacedMeans(AllAwake(phases, ts))
    ensures alone.Some? ==> PhaseOf(AllAwake(phases, ts), alone.value) == PhaseOf(phases, alone.value)
  {
  }

  lemma WakingReceivers(s: State, k: nat)
    requires Matches(s) && k <= |s.receivers.waiting|
    ensures var s' := WakeReceivers(s, k);
            && Matches(s') && |s'.receivers.woken| == |s.receivers.woken| + k
            && (s.alone.Some? ==> PhaseOf(s'.phases, s.alone.value) == PhaseOf(s.phases, s.alone.value))
  {
    hide LocksMatch, PlacedMeans, AllAwake, Distinct, Waits, ComesBack;
    var ts := s.receivers.waiting[..k];
    Halves(s.receivers.waiting, k);
    WakingOwnSide(s.phases, s.receivers, false, k);
    WakingOtherSide(s.phases, ts, s.senders, false);
    WakingKeepsLocks(s.phases, ts, s.alone, s.receivers.lock, s.senders.lock);
  }

  lemma WakingSenders(s: State, k: nat)
    requires Matches(s) && k <= |s.senders.waiting|
    ensures var s' := WakeSenders(s, k);
            && Matches(s') && |s'.senders.woken| == |s.senders.woken| + k
            && (s.alone.Some? ==> PhaseOf(s'.phases, s.alone.value) == PhaseOf(s.phases, s.alone.value))
  {
    hide LocksMatch, PlacedMeans, AllAwake, Distinct, Waits, ComesBack;
    var ts := s.senders.waiting[..k];
    Halves(s.senders.waiting, k);
    WakingOwnSide(s.phases, s.senders, true, k);
    WakingOtherSide(s.phases, ts, s.receivers, true);
    WakingKeepsLocks(s.phases, ts, s.alone, s.receivers.lock, s.senders.lock);
  }

  // ----- what one step keeps

  /** A task moves on: it may not leave the phases that its list, or its wake-up, calls for. */
  lemma Moving(phases: Phases, side: Side, sender: bool, t: Task, phase: Phase)
    requires SideMatches(phases, side, sender)
    requires t in side.waiting ==> Waits(phase, sender)
    requires phase.Blocked? && phase.call.Send? == sender ==> t in side.waiting
    requires t in side.woken ==> ComesBack(phase, sender)
    ensures SideMatches(phases[t := phase], side, sender)
  {
    hide Distinct, Waits, ComesBack;
  }

  lemma MovingLocks(phases: Phases, alone: Option<Task>, txLock: int, rxLock: int, t: Task, phase: Phase)
    requires LocksMatch(phases, alone, txLock, rxLock) && PlacedMeans(phases)
    requires !RunsAlone(phase) && !RunsAlone(PhaseOf(phases, t))
    ensures LocksMatch(phases[t := phase], alone, txLock, rxLock) && PlacedMeans(phases[t := phase])
  {
  }

  /** A task that has tried again is no longer counted as woken. */
  lemma Retrying(phases: Phases, side: Side, sender: bool, t: Task)
    requires SideMatches(phases, side, sender)
    ensures SideMatches(phases, side.(woken := side.woken - {t}), sender)
    ensures t in side.woken ==> ComesBack(PhaseOf(phases, t), sender)
    ensures |side.woken - {t}| >= if t in side.woken then |side.woken| - 1 else |side.woken|
  {
    if t !in side.woken {
      assert side.woken - {t} == side.woken;
    }
  }

  /** One more item: with it announced, no receiver waits in vain. */
  lemma Announcing(s: State, available: int)
    requires Matches(s) && Covered(s.receivers, available)
    ensures var s' := AnnounceItem(s);
      && Matches(s') && Covered(s'.receivers, available + 1)
      && s'.senders == s.senders && s'.alone == s.alone && s'.items == s.items && s'.length == s.length
      && (s.alone.Some? ==> PhaseOf(s'.phases, s.alone.value) == PhaseOf(s.phases, s.alone.value))
      && s'.receivers.lock == if s.receivers.lock == UNLOCKED then UNLOCKED else s.receivers.lock + 1
  {
    hide Distinct, Waits, ComesBack, AllAwake, PlacedMeans;
    if s.receivers.lock == UNLOCKED {
      WakingReceivers(s, Min(1, |s.receivers.waiting|));
    }
  }

  /** One more free slot: likewise. */
  lemma AnnouncingSpace(s: State, available: int)
    requires Matches(s) && Covered(s.senders, available)
    ensures var s' := AnnounceSpace(s);
      && Matches(s') && Covered(s'.senders, available + 1)
      && s'.receivers == s.receivers && s'.alone == s.alone && s'.items == s.items && s'.length == s.length
      && (s.alone.Some? ==> PhaseOf(s'.phases, s.alone.value) == PhaseOf(s.phases, s.alone.value))
      && s'.senders.lock == if s.senders.lock == UNLOCKED then UNLOCKED else s.senders.lock + 1
  {
    hide Distinct, Waits, ComesBack, AllAwake, PlacedMeans;
    if s.senders.lock == UNLOCKED {
      WakingSenders(s, Min(1, |s.senders.waiting|));
    }
  }

  /** The state in which a task's attempt takes effect. */
  function Attempted(s: State, t: Task, phase: Phase): State {
    Goto(s.(senders := s.senders.(woken := s.senders.woken - {t}), receivers := s.receivers.(woken := s.receivers.woken - {t})),
         t, phase)
  }

  /** One side of the queue when one of its users, or of the other side's, tries. */
  lemma AttemptingSide(phases: Phases, side: Side, sender: bool, t: Task, phase: Phase)
    requires SideMatches(phases, side, sender) && PhaseOf(phases, t).Trying? && (phase.Idle? || phase.Failed?)
    ensures SideMatches(phases[t := phase], side.(woken := side.woken - {t}), sender)
    ensures |side.woken - {t}| >= if PhaseOf(phases, t).call.Send? == sender then |side.woken| - 1 else |side.woken|
  {
    Retrying(phases, side, sender, t);
    Moving(phases, side.(woken := side.woken - {t}), sender, t, phase);
  }

  lemma Attempting(s: State, t: Task, phase: Phase)
    requires Matches(s) && PhaseOf(s.phases, t).Trying? && (phase.Idle? || phase.Failed?)
    ensures var s' := Attempted(s, t, phase);
      && Matches(s')
      && |s'.senders.woken| >= (if s.phases[t].call.Send? then |s.senders.woken| - 1 else |s.senders.woken|)
      && |s'.receivers.woken| >= (if s.phases[t].call.Send? then |s.receivers.woken| else |s.receivers.woken| - 1)
  {
    hide SideMatches, PlacedMeans, LocksMatch;
    AttemptingSide(s.phases, s.senders, true, t, phase);
    AttemptingSide(s.phases, s.receivers, false, t, phase);
    MovingLocks(s.phases, s.alone, s.receivers.lock, s.senders.lock, t, phase);
  }

  lemma UnlockedWhenNobodyIsAlone(s: State)
    requires Matches(s) && s.alone.None?
    ensures s.receivers.lock == UNLOCKED && s.senders.lock == UNLOCKED
  {
  }

  lemma TryFailing(s: State, t: Task, phase: Phase)
    requires Flow(s) && s.alone.None? && PhaseOf(s.phases, t).Trying? && (phase.Idle? || phase.Failed?)
    requires !CanProceed(s, s.phases[t].call)
    ensures Flow(Attempted(s, t, phase))
  {
    hide Matches;
    UnlockedWhenNobodyIsAlone(s);
    Attempting(s, t, phase);
  }

  lemma TrySending(s: State, t: Task)
    requires Flow(s) && s.alone.None? && PhaseOf(s.phases, t).Trying? && s.phases[t].call.Send?
    ensures Flow(AnnounceItem(PutItem(Attempted(s, t, Idle), s.phases[t].call.item, s.phases[t].call.toFront)))
  {
    hide Matches, AnnounceItem;
    UnlockedWhenNobodyIsAlone(s);
    Attempting(s, t, Idle);
    var s1 := PutItem(Attempted(s, t, Idle), s.phases[t].call.item, s.phases[t].call.toFront);
    SameUsers(Attempted(s, t, Idle), s1);
    Announcing(s1, |s.items|);
  }

  lemma SameUsers(s: State, s': State)
    requires Matches(s) && s'.phases == s.phases && s'.alone == s.alone
    requires s'.senders == s.senders && s'.receivers == s.receivers
    ensures Matches(s')
  {
  }

  lemma TryReceiving(s: State, t: Task)
    requires Flow(s) && s.alone.None? && PhaseOf(s.phases, t).Trying? && s.phases[t].call.Receive?
    requires s.items != []
    ensures Flow(AnnounceSpace(TakeItem(Attempted(s, t, Idle))))
  {
    hide Matches, AnnounceSpace;
    UnlockedWhenNobodyIsAlone(s);
    Attempting(s, t, Idle);
    var s1 := TakeItem(Attempted(s, t, Idle));
    SameUsers(Attempted(s, t, Idle), s1);
    AnnouncingSpace(s1, s.length - |s.items|);
  }

  /** A peek passes the wake-up on: it may have been woken for an item that it then leaves. */
  lemma TryPeeking(s: State, t: Task)
    requires Flow(s) && s.alone.None? && PhaseOf(s.phases, t).Trying? && s.phases[t].call.Peek?
    ensures Flow(AnnounceItem(Attempted(s, t, Idle)))
  {
    hide Matches, AnnounceItem;
    UnlockedWhenNobodyIsAlone(s);
    Attempting(s, t, Idle);
    Announcing(Attempted(s, t, Idle), |s.items| - 1);
  }

  lemma TryKeeps(s: State, t: Task, mayBlock: bool)
    requires Flow(s) && s.alone.None? && PhaseOf(s.phases, t).Trying?
    ensures Flow(TryStep(s, t, mayBlock))
  {
    hide Flow, AnnounceItem, AnnounceSpace, Matches;
    var call := s.phases[t].call;
    if !CanProceed(s, call) {
      TryFailing(s, t, if mayBlock then Failed(call) else Idle);
    } else {
      match call
      case Send(item, toFront) => TrySending(s, t);
      case Receive => TryReceiving(s, t);
      case Peek => TryPeeking(s, t);
    }
  }

  lemma SendFromISRKeeps(s: State, item: Item, toFront: bool)
    requires Flow(s)
    ensures Flow(AnnounceItem(PutItem(s, item, toFront)))
  {
    hide Matches, AnnounceItem;
    var s1 := PutItem(s, item, toFront);
    SameUsers(s, s1);
    Announcing(s1, |s.items|);
    LockedWhileConfirmed(s);
  }

  lemma ReceiveFromISRKeeps(s: State)
    requires Flow(s) && s.items != []
    ensures Flow(AnnounceSpace(TakeItem(s)))
  {
    hide Matches, AnnounceSpace;
    var s1 := TakeItem(s);
    SameUsers(s, s1);
    AnnouncingSpace(s1, s.length - |s.items|);
    LockedWhileConfirmed(s);
  }

  lemma LockedWhileConfirmed(s: State)
    requires Matches(s)
    ensures s.alone.Some? && PhaseOf(s.phases, s.alone.value).Confirmed? ==> s.receivers.lock >= 0 && s.senders.lock >= 0
  {
  }

  /** Begin, SuspendAll, Check and ResumeAll touch only the task's phase and who is alone. */
  lemma GotoKeeps(s: State, t: Task, phase: Phase, alone: Option<Task>)
    requires Flow(s)
    requires SideMatches(s.phases[t := phase], s.senders, true) && SideMatches(s.phases[t := phase], s.receivers, false)
    requires PlacedMeans(s.phases[t := phase])
    requires LocksMatch(s.phases[t := phase], alone, s.receivers.lock, s.senders.lock)
    requires alone.Some? ==> alone.value == t
    requires phase.Confirmed? ==> IsFullOrEmpty(s, phase.call)
    ensures Flow(Goto(s, t, phase).(alone := alone))
  {
    hide SideMatches, PlacedMeans;
  }

  lemma BeginKeeps(s: State, t: Task, call: Call)
    requires Flow(s) && s.alone.None? && PhaseOf(s.phases, t).Idle?
    ensures Flow(Goto(s, t, Trying(call)))
  {
    hide Distinct;
    Moving(s.phases, s.senders, true, t, Trying(call));
    Moving(s.phases, s.receivers, false, t, Trying(call));
    MovingLocks(s.phases, s.alone, s.receivers.lock, s.senders.lock, t, Trying(call));
    GotoKeeps(s, t, Trying(call), None);
  }

  lemma SuspendAllKeeps(s: State, t: Task)
    requires Flow(s) && s.alone.None? && PhaseOf(s.phases, t).Failed?
    ensures Flow(Goto(s, t, Alone(s.phases[t].call)).(alone := Some(t)))
  {
    hide Distinct;
    Moving(s.phases, s.senders, true, t, Alone(s.phases[t].call));
    Moving(s.phases, s.receivers, false, t, Alone(s.phases[t].call));
    GotoKeeps(s, t, Alone(s.phases[t].call), Some(t));
  }

  lemma LockKeeps(s: State, t: Task)
    requires Flow(s) && s.alone == Some(t) && PhaseOf(s.phases, t).Alone?
    ensures Flow(Goto(s, t, Locking(s.phases[t].call)).(senders := Locked(s.senders), receivers := Locked(s.receivers)))
  {
    hide Distinct;
    Moving(s.phases, s.senders, true, t, Locking(s.phases[t].call));
    Moving(s.phases, s.receivers, false, t, Locking(s.phases[t].call));
  }

  lemma CheckKeeps(s: State, t: Task, timedOut: bool)
    requires Flow(s) && s.alone == Some(t) && PhaseOf(s.phases, t).Locking?
    ensures Flow(CheckStep(s, t, timedOut))
  {
    hide Distinct;
    var s' := CheckStep(s, t, timedOut);
    var phase := s'.phases[t];
    Moving(s.phases, s.senders, true, t, phase);
    Moving(s.phases, s.receivers, false, t, phase);
    GotoKeeps(s, t, phase, Some(t));
  }

  lemma ResumeKeeps(s: State, t: Task)
    requires Flow(s) && s.alone == Some(t) && PhaseOf(s.phases, t).Resuming?
    ensures Flow(ResumeStep(s, t))
  {
    hide Distinct;
    var s' := ResumeStep(s, t);
    var phase := s'.phases[t];
    Moving(s.phases, s.senders, true, t, phase);
    Moving(s.phases, s.receivers, false, t, phase);
    GotoKeeps(s, t, phase, None);
  }

  lemma PlacingOwnSide(phases: Phases, side: Side, sender: bool, t: Task, p: nat, phase: Phase)
    requires SideMatches(phases, side, sender) && PhaseOf(phases, t).Confirmed? && p <= |side.waiting|
    requires phase.UnlockingTx? && phase.placed && phase.call.Send? == sender
    ensures SideMatches(phases[t := phase], side.(waiting := SeqInsert(side.waiting, p, t)), sender)
  {
    InsertMembership(side.waiting, p, t);
    hide Distinct, SeqInsert;
  }

  /** The task that could not go on is covered at once: whatever came since the lock, the lock has counted. */
  lemma PlaceKeeps(s: State, t: Task, p: nat)
    requires Flow(s) && s.alone == Some(t) && PhaseOf(s.phases, t).Confirmed?
    requires p <= |WaitingList(s, s.phases[t].call)|
    ensures Flow(PlaceStep(s, t, p))
  {
    hide SideMatches, SeqInsert;
    var call := s.phases[t].call;
    var phase := UnlockingTx(call, true, false);
    ConfirmedIsNotListed(s, t);
    if call.Send? {
      PlacingOwnSide(s.phases, s.senders, true, t, p, phase);
      Moving(s.phases, s.receivers, false, t, phase);
    } else {
      PlacingOwnSide(s.phases, s.receivers, false, t, p, phase);
      Moving(s.phases, s.senders, true, t, phase);
    }
  }

  lemma ConfirmedIsNotListed(s: State, t: Task)
    requires Matches(s) && PhaseOf(s.phases, t).Confirmed?
    ensures t !in s.senders.waiting && t !in s.receivers.waiting && t !in s.senders.woken && t !in s.receivers.woken
  {
  }

  /** The phase moves on through prvUnlockQueue; what the task waits for stays the same. */
  lemma UnlockingGoesOn(s: State, t: Task, phase: Phase, s': State)
    requires Matches(s) && s.alone == Some(t) && IsWithdrawing(PhaseOf(s.phases, t)) && IsWithdrawing(phase)
    requires phase.call == s.phases[t].call && phase.placed == s.phases[t].placed && phase.givingUp == s.phases[t].givingUp
    requires s'.phases == s.phases[t := phase] && s'.alone == s.alone
    requires s'.senders.waiting == s.senders.waiting && s'.senders.woken == s.senders.woken
    requires s'.receivers.waiting == s.receivers.waiting && s'.receivers.woken == s.receivers.woken
    requires LocksMatch(s'.phases, s'.alone, s'.receivers.lock, s'.senders.lock)
    ensures Matches(s')
  {
    hide Distinct;
    Moving(s.phases, s.senders, true, t, phase);
    Moving(s.phases, s.receivers, false, t, phase);
  }

  lemma UnlockingMeets(s: State, t: Task)
    requires Matches(s) && s.alone == Some(t)
    ensures PhaseOf(s.phases, t).UnlockingTx? ==>
      LocksMatch(s.phases[t := UnlockingRx(s.phases[t].call, s.phases[t].placed, s.phases[t].givingUp)], s.alone, UNLOCKED, s.senders.lock)
    ensures PhaseOf(s.phases, t).UnlockingRx? ==>
      LocksMatch(s.phases[t := Resuming(s.phases[t].call, s.phases[t].placed, s.phases[t].givingUp)], s.alone, s.receivers.lock, UNLOCKED)
  {
    hide SideMatches, PlacedMeans;
  }

  /** prvUnlockQueue wakes a receiver for each item counted: whoever still waits has nothing to wait for. */
  lemma UnlockTxKeeps(s: State, t: Task)
    requires Flow(s) && s.alone == Some(t) && PhaseOf(s.phases, t).UnlockingTx?
    ensures Flow(UnlockTxStep(s, t))
  {
    hide Matches, AllAwake, LocksMatch;
    WakingReceivers(s, Min(Max0(s.receivers.lock), |s.receivers.waiting|));
    UnlockTxMatches(s, t);
  }

  lemma UnlockTxMatches(s: State, t: Task)
    requires Matches(s) && s.alone == Some(t) && PhaseOf(s.phases, t).UnlockingTx?
    ensures Matches(UnlockTxStep(s, t))
  {
    hide Matches, AllAwake, LocksMatch;
    var k := Min(Max0(s.receivers.lock), |s.receivers.waiting|);
    WakingReceivers(s, k);
    var s1 := WakeReceivers(s, k);
    UnlockingMeets(s1, t);
    var phase := s.phases[t];
    UnlockingGoesOn(s1, t, UnlockingRx(phase.call, phase.placed, phase.givingUp), UnlockTxStep(s, t));
  }

  lemma UnlockRxKeeps(s: State, t: Task)
    requires Flow(s) && s.alone == Some(t) && PhaseOf(s.phases, t).UnlockingRx?
    ensures Flow(UnlockRxStep(s, t))
  {
    hide Matches, AllAwake, LocksMatch;
    WakingSenders(s, Min(Max0(s.senders.lock), |s.senders.waiting|));
    UnlockRxMatches(s, t);
  }

  lemma UnlockRxMatches(s: State, t: Task)
    requires Matches(s) && s.alone == Some(t) && PhaseOf(s.phases, t).UnlockingRx?
    ensures Matches(UnlockRxStep(s, t))
  {
    hide Matches, AllAwake, LocksMatch;
    var k := Min(Max0(s.senders.lock), |s.senders.waiting|);
    WakingSenders(s, k);
    var s1 := WakeSenders(s, k);
    UnlockingMeets(s1, t);
    var phase := s.phases[t];
    UnlockingGoesOn(s1, t, Resuming(phase.call, phase.placed, phase.givingUp), UnlockRxStep(s, t));
  }

  lemma TakingOffOwnSide(phases: Phases, side: Side, sender: bool, t: Task, p: nat)
    requires SideMatches(phases, side, sender) && p < |side.waiting| && side.waiting[p] == t
    requires PhaseOf(phases, t).Blocked?
    ensures SideMatches(phases[t := Trying(phases[t].call)], side.(waiting := SeqDrop(side.waiting, p)), sender)
  {
    DropMembership(side.waiting, p);
    hide Distinct, SeqDrop;
  }

  lemma TakeOffKeeps(s: State, t: Task, p: nat)
    requires Flow(s) && Enabled(s, TakeOff(t, p))
    ensures Flow(Step(s, TakeOff(t, p)))
  {
    hide Distinct, SeqDrop;
    var call := s.phases[t].call;
    MovingLocks(s.phases, s.alone, s.receivers.lock, s.senders.lock, t, Trying(call));
    if call.Send? {
      TakingOffOwnSide(s.phases, s.senders, true, t, p);
      Moving(s.phases, s.receivers, false, t, Trying(call));
    } else {
      TakingOffOwnSide(s.phases, s.receivers, false, t, p);
      Moving(s.phases, s.senders, true, t, Trying(call));
    }
  }

  lemma StepKeepsFlow(s: State, a: Action)
    requires Flow(s) && Enabled(s, a)
    ensures Flow(Step(s, a))
  {
    hide Flow, AnnounceItem, AnnounceSpace, TryStep, CheckStep, PlaceStep, UnlockTxStep, UnlockRxStep, ResumeStep;
    match a
    case Begin(t, call) => BeginKeeps(s, t, call);
    case Try(t, mayBlock) => TryKeeps(s, t, mayBlock);
    case SuspendAll(t) => SuspendAllKeeps(s, t);
    case Lock(t) => LockKeeps(s, t);
    case Check(t, timedOut) => CheckKeeps(s, t, timedOut);
    case Place(t, p) => PlaceKeeps(s, t, p);
    case UnlockTx(t) => UnlockTxKeeps(s, t);
    case UnlockRx(t) => UnlockRxKeeps(s, t);
    case ResumeAll(t) => ResumeKeeps(s, t);
    case TakeOff(t, p) => TakeOffKeeps(s, t, p);
    case SendFromISR(item, toFront) =>
      if |s.items| < s.length {
        SendFromISRKeeps(s, item, toFront);
      }
    case ReceiveFromISR =>
      if |s.items| > 0 {
        ReceiveFromISRKeeps(s);
      }
  }

  // ----- what every run keeps

  lemma Conserving(s: State)
    ensures multiset(s.items) == if s.items == [] then multiset{} else multiset{s.items[0]} + multiset(s.items[1..])
  {
    if s.items != [] {
      assert s.items == [s.items[0]] + s.items[1..];
    }
  }

  lemma PutConserves(s: State, item: Item, toFront: bool)
    requires ItemsConserved(s) && |s.items| < s.length
    ensures ItemsConserved(PutItem(s, item, toFront)) && PutItem(s, item, toFront).length == s.length
  {
  }

  lemma TakeConserves(s: State)
    requires ItemsConserved(s) && s.items != []
    ensures ItemsConserved(TakeItem(s)) && TakeItem(s).length == s.length
  {
    Conserving(s);
  }

  lemma TryConserves(s: State, t: Task, mayBlock: bool)
    requires ItemsConserved(s) && PhaseOf(s.phases, t).Trying?
    ensures ItemsConserved(TryStep(s, t, mayBlock)) && TryStep(s, t, mayBlock).length == s.length
  {
    hide AllAwake, Woken, ItemsConserved;
    var call := s.phases[t].call;
    var s1 := Attempted(s, t, Idle);
    SameItems(s, Attempted(s, t, Failed(call)));
    SameItems(s, s1);
    if CanProceed(s, call) {
      match call
      case Send(item, toFront) =>
        PutConserves(s1, item, toFront);
        SameItems(PutItem(s1, item, toFront), AnnounceItem(PutItem(s1, item, toFront)));
      case Receive =>
        TakeConserves(s1);
        SameItems(TakeItem(s1), AnnounceSpace(TakeItem(s1)));
      case Peek =>
        SameItems(s1, AnnounceItem(s1));
    }
  }

  lemma SameItems(s: State, s': State)
    requires ItemsConserved(s)
    requires s'.items == s.items && s'.length == s.length && s'.sent == s.sent && s'.received == s.received
    ensures ItemsConserved(s')
  {
  }

  lemma StepConservesItems(s: State, a: Action)
    requires ItemsConserved(s) && Enabled(s, a)
    ensures ItemsConserved(Step(s, a)) && Step(s, a).length == s.length
  {
    hide AllAwake, SeqInsert, SeqDrop, Woken, TryStep, ItemsConserved, PutItem, TakeItem;
    if a.Try? {
      TryConserves(s, a.task, a.mayBlock);
    } else if a.SendFromISR? {
      if |s.items| < s.length {
        PutConserves(s, a.item, a.toFront);
        SameItems(PutItem(s, a.item, a.toFront), AnnounceItem(PutItem(s, a.item, a.toFront)));
      }
    } else if a.ReceiveFromISR? {
      if s.items != [] {
        TakeConserves(s);
        SameItems(TakeItem(s), AnnounceSpace(TakeItem(s)));
      }
    } else {
      SameItems(s, Step(s, a));
    }
  }

  lemma InitIsSound(length: nat)
    ensures Inv(Init(length))
  {
  }

  /**
    In every interleaving of sends, receives, peeks and interrupts the queue keeps its users, its
    locks, its wake-ups and its items in order.
   */
  lemma {:induction false} RunKeepsInv(s: State, actions: seq<Action>)
    requires Inv(s)
    ensures Inv(Run(s, actions)) && Run(s, actions).length == s.length
    decreases |actions|
  {
    hide Flow, ItemsConserved, Step, Enabled;
    if actions != [] {
      if Enabled(s, actions[0]) {
        StepKeepsFlow(s, actions[0]);
        StepConservesItems(s, actions[0]);
        RunKeepsInv(Step(s, actions[0]), actions[1..]);
      } else {
        RunKeepsInv(s, actions[1..]);
      }
    }
  }

  /**
    No lost wake-ups: from an empty queue on, whatever the order of the steps, while receivers wait
    the items are covered by receivers on their way and by the lock count, while senders wait the
    free slots are.
   */
  lemma NoLostWakeUps(length: nat, actions: seq<Action>)
    ensures var s := Run(Init(length), actions);
      && (s.receivers.waiting != [] ==> |s.items| <= |s.receivers.woken| + Max0(s.receivers.lock))
      && (s.senders.waiting != [] ==> length - |s.items| <= |s.senders.woken| + Max0(s.senders.lock))
      && (s.alone.None? ==> s.receivers.lock == UNLOCKED && s.senders.lock == UNLOCKED)
  {
    hide Run, Matches;
    InitIsSound(length);
    RunKeepsInv(Init(length), actions);
    if Run(Init(length), actions).alone.None? {
      UnlockedWhenNobodyIsAlone(Run(Init(length), actions));
    }
  }

  predicate AtRest(phases: Phases) {
    forall t :: t in phases ==> phases[t].Idle? || phases[t].Blocked?
  }

  lemma NobodyIsOnTheWay(phases: Phases, side: Side, sender: bool)
    requires AtRest(phases) && SideMatches(phases, side, sender)
    ensures side.woken == {}
  {
    forall u ensures u !in side.woken {
      assert u in phases ==> phases[u].Idle? || phases[u].Blocked?;
    }
  }

  /**
    When all users are blocked or gone, a blocked receiver means an empty queue, and a blocked sender
    a full one: nobody sleeps beside what it waits for.
   */
  lemma NobodySleepsBesideAnItem(length: nat, actions: seq<Action>, t: Task)
    requires AtRest(Run(Init(length), actions).phases) && PhaseOf(Run(Init(length), actions).phases, t).Blocked?
    ensures var s := Run(Init(length), actions);
      if s.phases[t].call.Send? then |s.items| == length else s.items == []
  {
    hide Run, Step, PlacedMeans, Distinct;
    InitIsSound(length);
    RunKeepsInv(Init(length), actions);
    var s := Run(Init(length), actions);
    NobodyIsOnTheWay(s.phases, s.senders, true);
    NobodyIsOnTheWay(s.phases, s.receivers, false);
  }

  /** At no time are there more items than slots, and what has been received is what was sent, less what is still there. */
  lemma ItemsAreConserved(length: nat, actions: seq<Action>)
    ensures var s := Run(Init(length), actions);
      |s.items| <= length && multiset(s.sent) == multiset(s.received) + multiset(s.items)
  {
    hide Run, Flow;
    InitIsSound(length);
    RunKeepsInv(Init(length), actions);
  }

  // ----- how calls end

  /**
    A call ends in two places: at its first critical section, with its item moved or because it may not block, and
    at the end of a round in which its time was up.
   */
  lemma CallEnds(s: State, a: Action, t: Task)
    requires Enabled(s, a) && !PhaseOf(s.phases, t).Idle?
    ensures PhaseOf(Step(s, a).phases, t).Idle? <==>
      || (a.Try? && a.task == t && (CanProceed(s, PhaseOf(s.phases, t).call) || !a.mayBlock))
      || (a.ResumeAll? && a.task == t && PhaseOf(s.phases, t).givingUp)
  {
    hide SeqInsert, SeqDrop, Elements, AllAwake;
    forall phases: Phases, ts: seq<Task> ensures PhaseOf(AllAwake(phases, ts), t).Idle? <==> PhaseOf(phases, t).Idle? {
      WakingIsNoEnd(phases, ts, t);
    }
  }

  lemma WakingIsNoEnd(phases: Phases, ts: seq<Task>, t: Task)
    ensures PhaseOf(AllAwake(phases, ts), t).Idle? <==> PhaseOf(phases, t).Idle?
  {
  }

  /** What the first critical section does to the items: in at the end or in front, out from the front, or nothing. */
  lemma ItemMoves(s: State, t: Task, mayBlock: bool)
    requires Enabled(s, Try(t, mayBlock))
    ensures var call, s' := PhaseOf(s.phases, t).call, Step(s, Try(t, mayBlock));
      if call.Send? && |s.items| < s.length then
        && s'.items == (if call.toFront then [call.item] + s.items else s.items + [call.item])
        && s'.sent == s.sent + [call.item] && s'.received == s.received
      else if call.Receive? && s.items != [] then
        s'.items == s.items[1..] && s'.received == s.received + [s.items[0]] && s'.sent == s.sent
      else s'.items == s.items && s'.sent == s.sent && s'.received == s.received
  {
    hide AllAwake, Elements;
  }

  /** The rest of a round, from prvUnlockQueue on. */
  lemma WayOutEnds(s: State, t: Task)
    requires s.alone == Some(t) && PhaseOf(s.phases, t).UnlockingTx?
    ensures var was, s' := PhaseOf(s.phases, t), Run(s, [UnlockTx(t), UnlockRx(t), ResumeAll(t)]);
      && s'.alone.None?
      && PhaseOf(s'.phases, t) ==
           if was.givingUp then Idle
           else if was.placed && t in WaitingList(s', was.call) then Blocked(was.call)
           else Trying(was.call)
  {
    hide Next, Run, WaitingList;
    RunThree(s, UnlockTx(t), UnlockRx(t), ResumeAll(t));
    AfterUnlockTx(s, t);
    AfterUnlockRx(Next(s, UnlockTx(t)), t);
    AfterResumeAll(Next(Next(s, UnlockTx(t)), UnlockRx(t)), t);
  }

  lemma AfterUnlockTx(s: State, t: Task)
    requires s.alone == Some(t) && PhaseOf(s.phases, t).UnlockingTx?
    ensures var was, s' := PhaseOf(s.phases, t), Next(s, UnlockTx(t));
      s'.alone == Some(t) && PhaseOf(s'.phases, t) == UnlockingRx(was.call, was.placed, was.givingUp)
  {
    hide AllAwake, Elements;
  }

  lemma AfterUnlockRx(s: State, t: Task)
    requires s.alone == Some(t) && PhaseOf(s.phases, t).UnlockingRx?
    ensures var was, s' := PhaseOf(s.phases, t), Next(s, UnlockRx(t));
      s'.alone == Some(t) && PhaseOf(s'.phases, t) == Resuming(was.call, was.placed, was.givingUp)
  {
    hide AllAwake, Elements;
  }

  lemma AfterResumeAll(s: State, t: Task)
    requires s.alone == Some(t) && PhaseOf(s.phases, t).Resuming?
    ensures var was, s' := PhaseOf(s.phases, t), Next(s, ResumeAll(t));
      && s'.alone.None?
      && PhaseOf(s'.phases, t) ==
           if was.givingUp then Idle
           else if was.placed && t in WaitingList(s', was.call) then Blocked(was.call)
           else Trying(was.call)
  {
  }

  /**
    A round on the way to sleep, with interrupts left out: it ends the call exactly if its time is up; otherwise the
    task tries again if there is room, or an item, by now, and else it is blocked, unless already woken.
   */
  lemma RoundEnds(s: State, t: Task, timedOut: bool, position: nat)
    requires s.alone == Some(t) && PhaseOf(s.phases, t).Locking? && position <= |WaitingList(s, PhaseOf(s.phases, t).call)|
    ensures var call := PhaseOf(s.phases, t).call;
      var waits := !timedOut && IsFullOrEmpty(s, call);
      var s' := Run(s, [Check(t, timedOut)] + (if waits then [Place(t, position)] else []) + [UnlockTx(t), UnlockRx(t), ResumeAll(t)]);
      PhaseOf(s'.phases, t) ==
        if timedOut then Idle else if waits && t in WaitingList(s', call) then Blocked(call) else Trying(call)
  {
    hide Run, SeqInsert;
    var call := PhaseOf(s.phases, t).call;
    var waits := !timedOut && IsFullOrEmpty(s, call);
    var out := [UnlockTx(t), UnlockRx(t), ResumeAll(t)];
    RunSingle(s, Check(t, timedOut));
    var s1 := Next(s, Check(t, timedOut));
    if waits {
      RunAppends(s, [Check(t, timedOut)] + [Place(t, position)], out);
      RunAppends(s, [Check(t, timedOut)], [Place(t, position)]);
      RunSingle(s1, Place(t, position));
      WayOutEnds(Next(s1, Place(t, position)), t);
    } else {
      assert [Check(t, timedOut)] + [] == [Check(t, timedOut)];
      RunAppends(s, [Check(t, timedOut)], out);
      WayOutEnds(s1, t);
    }
  }

  lemma RunSingle(s: State, a: Action)
    ensures Run(s, [a]) == Next(s, a)
  {
    hide Next;
    assert [a][1..] == [];
  }

  // ----- who takes part

  /** Nobody is in a call who was not. */
  ghost predicate NoNewUsers(phases: Phases, phases': Phases) {
    forall t :: t in phases' && !phases'[t].Idle? ==> t in phases && !phases[t].Idle?
  }

  lemma NobodyEnters(phases: Phases)
    ensures NoNewUsers(phases, phases)
  {
  }

  lemma NoNewUsersFurther(a: Phases, b: Phases, c: Phases)
    requires NoNewUsers(a, b) && NoNewUsers(b, c)
    ensures NoNewUsers(a, c)
  {
  }

  lemma OnlyBeginEnters(s: State, a: Action)
    requires !a.Begin?
    ensures NoNewUsers(s.phases, Next(s, a).phases)
  {
    hide SeqInsert, SeqDrop, Elements;
  }

  lemma TimingOutEntersNobody(phases: Phases, senders: seq<Task>, receivers: seq<Task>)
    ensures NoNewUsers(phases, AfterTimeOuts(phases, senders, receivers))
  {
  }

  // ----- first in, first out

  predicate CallToBack(call: Call) {
    call.Send? ==> !call.toFront
  }

  predicate ToBack(a: Action) {
    match a
    case Begin(_, call) => CallToBack(call)
    case SendFromISR(_, toFront) => !toFront
    case _ => true
  }

  /** Nobody sends to the front, and items leave in the order in which they came. */
  ghost predicate InOrder(s: State) {
    && s.sent == s.received + s.items
    && (forall t :: t in s.phases && !s.phases[t].Idle? ==> CallToBack(s.phases[t].call))
  }

  lemma AnnouncingKeepsOrder(s: State)
    requires InOrder(s)
    ensures InOrder(AnnounceItem(s)) && InOrder(AnnounceSpace(s))
  {
  }

  lemma StepKeepsOrder(s: State, a: Action)
    requires InOrder(s) && Enabled(s, a) && ToBack(a)
    ensures InOrder(Step(s, a))
  {
    hide SeqInsert, SeqDrop, Woken, AnnounceItem, AnnounceSpace;
    match a
    case Try(t, mayBlock) =>
      var s1 := Attempted(s, t, Idle);
      if CanProceed(s, s.phases[t].call) {
        match s.phases[t].call
        case Send(item, toFront) => AnnouncingKeepsOrder(PutItem(s1, item, toFront));
        case Receive => AnnouncingKeepsOrder(TakeItem(s1));
        case Peek => AnnouncingKeepsOrder(s1);
      }
    case SendFromISR(item, toFront) =>
      AnnouncingKeepsOrder(PutItem(s, item, toFront));
    case ReceiveFromISR =>
      if s.items != [] {
        AnnouncingKeepsOrder(TakeItem(s));
      }
    case _ =>
  }

  /** Without sends to the front, what was received, followed by what is in the queue, is what was sent, in order. */
  lemma {:induction false} FirstInFirstOut(s: State, actions: seq<Action>)
    requires InOrder(s) && forall i :: 0 <= i < |actions| ==> ToBack(actions[i])
    ensures InOrder(Run(s, actions))
    decreases |actions|
  {
    hide InOrder, Step, Enabled;
    if actions != [] {
      if Enabled(s, actions[0]) {
        StepKeepsOrder(s, actions[0]);
        FirstInFirstOut(Step(s, actions[0]), actions[1..]);
      } else {
        FirstInFirstOut(s, actions[1..]);
      }
    }
  }

  // ----- leaving by time-out

  /** The tasks missing in rest leave the list, one at a time. */
  ghost function TakeOffs(ts: seq<Task>, rest: seq<Task>): seq<Action> {
    if |ts| <= |rest| || ts == [] then []
    else
      var p := FirstDifference(ts, rest);
      [TakeOff(ts[p], p)] + TakeOffs(SeqDrop(ts, p), rest)
  }

  function FirstDifference(ts: seq<Task>, rest: seq<Task>): (p: nat)
    requires |ts| > |rest|
    ensures p < |ts| && p <= |rest|
    ensures ts[..p] == rest[..p] && (p < |rest| ==> ts[p] != rest[p])
  {
    if rest == [] || ts[0] != rest[0] then 0 else 1 + FirstDifference(ts[1..], rest[1..])
  }

  lemma {:induction false} LeftOutAtDifference(ts: seq<Task>, rest: seq<Task>)
    requires LeavesOut(ts, rest) && |ts| > |rest|
    ensures LeavesOut(SeqDrop(ts, FirstDifference(ts, rest)), rest)
    decreases |ts|
  {
    if rest == [] {
    } else if ts[0] != rest[0] {
      assert SeqDrop(ts, 0) == ts[1..];
    } else {
      LeftOutAtDifference(ts[1..], rest[1..]);
      var p := FirstDifference(ts[1..], rest[1..]);
      assert SeqDrop(ts, p + 1)[1..] == SeqDrop(ts[1..], p);
    }
  }

  lemma {:induction false} SameLengthLeavesOutNothing(ts: seq<Task>, rest: seq<Task>)
    requires LeavesOut(ts, rest) && |ts| <= |rest|
    ensures ts == rest
    decreases |ts|
  {
    LeftOutMembers(ts, rest);
    if rest != [] {
      if ts[0] != rest[0] {
        LeftOutMembers(ts[1..], rest);
      } else {
        SameLengthLeavesOutNothing(ts[1..], rest[1..]);
      }
    }
  }

  lemma WaitersAreBlocked(s: State, t: Task)
    requires Matches(s) && s.alone.None?
    ensures t in s.senders.waiting ==> PhaseOf(s.phases, t).Blocked? && s.phases[t].call.Send?
    ensures t in s.receivers.waiting ==> PhaseOf(s.phases, t).Blocked? && !s.phases[t].call.Send?
  {
    hide Distinct;
  }

  function SideOf(s: State, sender: bool): Side {
    if sender then s.senders else s.receivers
  }

  /** Only the event list of one side, and the phases, are different. */
  ghost predicate OnlyTakenOff(s: State, s': State, sender: bool, rest: seq<Task>) {
    && s'.length == s.length && s'.items == s.items && s'.alone == s.alone && s'.sent == s.sent && s'.received == s.received
    && SideOf(s', sender) == SideOf(s, sender).(waiting := rest) && SideOf(s', !sender) == SideOf(s, !sender)
    && AwakeAtMost(s.phases, s'.phases)
  }

  /** Blocked tasks may try again, and nothing else is different. */
  ghost predicate AwakeAtMost(phases: Phases, phases': Phases) {
    && (forall t :: t in phases <==> t in phases')
    && forall t :: t in phases && t in phases' ==> phases'[t] == phases[t] || phases'[t] == Awake(phases[t])
  }

  lemma OneTakenOff(s: State, sender: bool, p: nat)
    requires Inv(s) && s.alone.None? && p < |SideOf(s, sender).waiting|
    ensures var a := TakeOff(SideOf(s, sender).waiting[p], p);
      Enabled(s, a) && Inv(Step(s, a)) && OnlyTakenOff(s, Step(s, a), sender, SeqDrop(SideOf(s, sender).waiting, p))
  {
    hide Flow, ItemsConserved, OnlyTakenOff, Step, Enabled;
    var t := SideOf(s, sender).waiting[p];
    WaiterIsTakenOff(s, sender, p);
    StepKeepsFlow(s, TakeOff(t, p));
    StepConservesItems(s, TakeOff(t, p));
  }

  lemma WaiterIsTakenOff(s: State, sender: bool, p: nat)
    requires Inv(s) && s.alone.None? && p < |SideOf(s, sender).waiting|
    ensures var a := TakeOff(SideOf(s, sender).waiting[p], p);
      Enabled(s, a) && OnlyTakenOff(s, Step(s, a), sender, SeqDrop(SideOf(s, sender).waiting, p))
  {
    hide NobodyForgotten, ConfirmedStill, ItemsConserved, Distinct, SeqDrop;
    WaitersAreBlocked(s, SideOf(s, sender).waiting[p]);
  }

  /** Time-outs take tasks off an event list, one step each; the list that is left says which. */
  lemma {:induction false} TakingOff(s: State, sender: bool, rest: seq<Task>)
    requires Inv(s) && s.alone.None? && LeavesOut(SideOf(s, sender).waiting, rest)
    ensures var s' := Run(s, TakeOffs(SideOf(s, sender).waiting, rest)); Inv(s') && OnlyTakenOff(s, s', sender, rest)
    decreases |SideOf(s, sender).waiting|
  {
    hide Inv, Step, Enabled;
    var ts := SideOf(s, sender).waiting;
    if |ts| <= |rest| || ts == [] {
      if ts == [] {
        LeftOutMembers(ts, rest);
      }
      SameLengthLeavesOutNothing(ts, rest);
    } else {
      var p := FirstDifference(ts, rest);
      LeftOutAtDifference(ts, rest);
      OneTakenOff(s, sender, p);
      TakingOff(Step(s, TakeOff(ts[p], p)), sender, rest);
    }
  }

  lemma {:induction false} RunAppends(s: State, a: seq<Action>, b: seq<Action>)
    ensures Run(s, a + b) == Run(Run(s, a), b)
    decreases |a|
  {
    hide Next;
    if a == [] {
      assert a + b == b;
    } else {
      assert (a + b)[0] == a[0] && (a + b)[1..] == a[1..] + b;
      RunAppends(Next(s, a[0]), a[1..], b);
    }
  }

  lemma RunTwo(s: State, a: Action, b: Action)
    ensures Run(s, [a, b]) == Next(Next(s, a), b)
  {
    hide Next;
    assert [a, b][1..] == [b] && [b][1..] == [];
    assert Run(Next(s, a), [b]) == Next(Next(s, a), b);
  }

  lemma RunThree(s: State, a: Action, b: Action, c: Action)
    ensures Run(s, [a, b, c]) == Next(Next(Next(s, a), b), c)
  {
    hide Next;
    forall x: Action, t: State ensures Run(t, [x]) == Next(t, x) {
      assert [x][1..] == [];
    }
    RunAppends(s, [a], [b]);
    RunAppends(s, [a, b], [c]);
    assert [a, b] == [a] + [b] && [a, b, c] == [a, b] + [c];
  }

  lemma RunFour(s: State, a: Action, b: Action, c: Action, d: Action)
    ensures Run(s, [a, b, c, d]) == Next(Next(Next(Next(s, a), b), c), d)
  {
    hide Next;
    RunThree(s, a, b, c);
    var s3 := Run(s, [a, b, c]);
    RunAppends(s, [a, b, c], [d]);
    assert [d][1..] == [];
    assert Run(s3, [d]) == Next(s3, d);
    assert [a, b, c, d] == [a, b, c] + [d];
  }

  /** Time-outs on both sides. */
  ghost function TimeOuts(s: State, senders: seq<Task>, receivers: seq<Task>): seq<Action> {
    TakeOffs(s.senders.waiting, senders) + TakeOffs(s.receivers.waiting, receivers)
  }

  /** Who is blocked, and no longer on an event list, tries again. */
  function AfterTimeOuts(phases: Phases, senders: seq<Task>, receivers: seq<Task>): Phases {
    map t | t in phases ::
      if phases[t].Blocked? && t !in (if phases[t].call.Send? then senders else receivers) then Trying(phases[t].call) else phases[t]
  }

  /** A task that comes out of xTaskResumeAll is blocked only if no tick held back has timed it out. */
  lemma PhaseAfterResuming(phases: Phases, t: Task, was: Phase, before: seq<Task>, senders: seq<Task>, receivers: seq<Task>)
    requires was.Resuming? && LeavesOut(before, if was.call.Send? then senders else receivers)
    requires t in phases
    requires phases[t] == if was.givingUp then Idle else if was.placed && t in before then Blocked(was.call) else Trying(was.call)
    ensures PhaseOf(AfterTimeOuts(phases, senders, receivers), t) ==
      if was.givingUp then Idle
      else if was.placed && t in (if was.call.Send? then senders else receivers) then Blocked(was.call)
      else Trying(was.call)
  {
    LeftOutMembers(before, if was.call.Send? then senders else receivers);
  }

  lemma PhasesAfterTimeOuts(phases: Phases, phases': Phases, senders: Side, receivers: Side)
    requires AwakeAtMost(phases, phases') && SideMatches(phases', senders, true) && SideMatches(phases', receivers, false)
    ensures phases' == AfterTimeOuts(phases, senders.waiting, receivers.waiting)
  {
    hide Distinct;
    forall t | t in phases
      ensures t in phases' && phases'[t] == AfterTimeOuts(phases, senders.waiting, receivers.waiting)[t]
    {
      assert PhaseOf(phases', t) == phases'[t];
    }
  }

  lemma TimingOut(s: State, senders: seq<Task>, receivers: seq<Task>)
    requires Inv(s) && s.alone.None? && LeavesOut(s.senders.waiting, senders) && LeavesOut(s.receivers.waiting, receivers)
    ensures var s' := Run(s, TimeOuts(s, senders, receivers));
      Inv(s') && s' == s.(senders := s.senders.(waiting := senders), receivers := s.receivers.(waiting := receivers),
                          phases := AfterTimeOuts(s.phases, senders, receivers))
  {
    hide Inv, Run;
    TakingOff(s, true, senders);
    var s1 := Run(s, TakeOffs(s.senders.waiting, senders));
    TakingOff(s1, false, receivers);
    RunAppends(s, TakeOffs(s.senders.waiting, senders), TakeOffs(s.receivers.waiting, receivers));
    var s2 := Run(s1, TakeOffs(s1.receivers.waiting, receivers));
    SidesMatch(s2);
    PhasesAfterTimeOuts(s.phases, s2.phases, s2.senders, s2.receivers);
  }

  /** A task that tries, or has been woken, is on no event list. */
  lemma WokenAreNotListed(s: State, t: Task)
    requires Inv(s) && t in s.phases && (s.phases[t].Trying? || t in s.senders.woken || t in s.receivers.woken)
    ensures t !in s.senders.waiting && t !in s.receivers.waiting
  {
  }

  lemma SidesMatch(s: State)
    requires Inv(s)
    ensures SideMatches(s.phases, s.senders, true) && SideMatches(s.phases, s.receivers, false)
  {
    hide SideMatches;
  }
}
