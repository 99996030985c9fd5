/**
  The timers, lists and command queue of TCPv3/FreeRTOS/timers.c as values, and what holds of them.
  The lists are the sequence views of KernelList.
 */
module TimerTables {
  import opened Ticks
  import opened Rings
  import opened Filing
  import Arithmetic

  type TimerId = nat

  /** value is the item value: the expiry time, modulo the clock, for which the timer was last filed. */
  datatype Timer = Timer(period: int, autoReload: bool, value: Tick)

  /** A tmrCOMMAND_START message. */
  datatype Command = Command(timer: TimerId, time: Tick)

  type Timers = map<TimerId, Timer>

  /** For each timer, in unbounded time, when it was started and then the expiry times its callbacks stand for. */
  type Marks = map<TimerId, seq<nat>>

  /** configTIMER_QUEUE_LENGTH */
  const QUEUE_LENGTH: nat := 5

  // ----- expiry times

  /** The last callback stands for this time; before the first, it is the start. */
  function Last(marks: seq<nat>): nat {
    if marks == [] then 0 else marks[|marks| - 1]
  }

  /** One after the other, a period apart. */
  predicate Chain(marks: seq<nat>, period: int) {
    marks != [] && forall i :: 0 <= i < |marks| - 1 ==> marks[i + 1] == marks[i] + period
  }

  function MarkNext(marks: seq<nat>, period: nat): seq<nat> {
    marks + [Last(marks) + period]
  }

  /** Neither drift nor gap: the k-th callback stands for the start time plus k periods. */
  lemma {:induction false} ChainClosedForm(marks: seq<nat>, period: int, k: nat)
    requires Chain(marks, period) && k < |marks|
    ensures marks[k] == marks[0] + k * period
  {
    if k > 0 {
      ChainClosedForm(marks, period, k - 1);
      assert (k - 1) * period + period == k * period;
    }
  }

  /** A chain that has gone on up to a time and would go beyond it has the number of steps that fit. */
  lemma StepsThatFit(marks: seq<nat>, period: int, now: int)
    requires Chain(marks, period) && period > 0
    requires Last(marks) <= now < Last(marks) + period
    ensures |marks| - 1 == (now - marks[0]) / period
  {
    ChainClosedForm(marks, period, |marks| - 1);
    var k := |marks| - 1;
    assert now - marks[0] == period * k + (now - Last(marks));
    Arithmetic.DivModUnique(now - marks[0], period, k, now - Last(marks));
  }

  // ----- lists

  function Values(items: seq<TimerId>, timers: Timers): (keys: seq<nat>)
    requires forall t :: t in items ==> t in timers
    ensures |keys| == |items|
  {
    seq(|items|, i requires 0 <= i < |items| => timers[items[i]].value)
  }

  predicate DueIn(timer: Timer, marks: seq<nat>, epoch: int) {
    timer.period > 0 && OfEpoch(Last(marks) + timer.period, epoch, timer.value)
  }

  /** The list of an epoch: in the order of the expiry times, all of which lie in that epoch. */
  ghost predicate ListOf(items: seq<TimerId>, epoch: int, timers: Timers, marks: Marks) {
    && Distinct(items)
    && (forall t :: t in items ==> t in timers && t in marks && DueIn(timers[t], marks[t], epoch))
    && Sorted(Values(items, timers))
  }

  lemma ListSaysDue(items: seq<TimerId>, epoch: int, timers: Timers, marks: Marks, t: TimerId)
    requires ListOf(items, epoch, timers, marks) && t in items
    ensures t in timers && t in marks && DueIn(timers[t], marks[t], epoch)
  {
  }

  /** What happens to other timers does not matter to a list. */
  lemma ListStays(items: seq<TimerId>, epoch: int, timers: Timers, marks: Marks, timers': Timers, marks': Marks)
    requires ListOf(items, epoch, timers, marks)
    requires forall t :: t in items && t in timers && t in marks ==> t in timers' && t in marks' && timers'[t] == timers[t] && marks'[t] == marks[t]
    ensures ListOf(items, epoch, timers', marks')
  {
    assert Values(items, timers') == Values(items, timers);
  }

  lemma ListLosesHead(items: seq<TimerId>, epoch: int, timers: Timers, marks: Marks)
    requires ListOf(items, epoch, timers, marks) && items != []
    ensures ListOf(items[1..], epoch, timers, marks)
    ensures items[0] !in items[1..] && forall t :: t in items <==> t == items[0] || t in items[1..]
  {
    assert items == [items[0]] + items[1..];
    assert Values(items[1..], timers) == Values(items, timers)[1..];
  }

  /** vListInsert on a timer that is in no list */
  function Inserted(items: seq<TimerId>, timers: Timers, t: TimerId): (r: seq<TimerId>)
    requires (forall u :: u in items ==> u in timers) && t in timers
    ensures |r| == |items| + 1
  {
    SeqInsert(items, InsertPosition(Values(items, timers), timers[t].value), t)
  }

  lemma InsertionKeepsOrder(items: seq<TimerId>, timers: Timers, t: TimerId)
    requires (forall u :: u in items ==> u in timers) && t in timers && Sorted(Values(items, timers))
    ensures forall u :: u in Inserted(items, timers, t) <==> u == t || u in items
    ensures Sorted(Values(Inserted(items, timers, t), timers))
  {
    var keys := Values(items, timers);
    var p := InsertPosition(keys, timers[t].value);
    SortedInsertIsStable(keys, timers[t].value);
    InsertMembership(items, p, t);
    assert Values(Inserted(items, timers, t), timers) == SeqInsert(keys, p, timers[t].value);
  }

  lemma InsertedMembers(items: seq<TimerId>, timers: Timers, t: TimerId)
    requires (forall u :: u in items ==> u in timers) && t in timers
    ensures forall u :: u in Inserted(items, timers, t) <==> u == t || u in items
  {
    InsertMembership(items, InsertPosition(Values(items, timers), timers[t].value), t);
  }

  lemma ListGains(items: seq<TimerId>, epoch: int, timers: Timers, marks: Marks, t: TimerId)
    requires ListOf(items, epoch, timers, marks) && t !in items
    requires t in timers && t in marks && DueIn(timers[t], marks[t], epoch)
    ensures ListOf(Inserted(items, timers, t), epoch, timers, marks)
    ensures forall u :: u in Inserted(items, timers, t) <==> u == t || u in items
  {
    hide Distinct, Sorted, DueIn, InsertPosition, SeqInsert;
    InsertionKeepsOrder(items, timers, t);
    InsertMembership(items, InsertPosition(Values(items, timers), timers[t].value), t);
  }

  /** The head of a list is due first. */
  lemma HeadIsFirst(items: seq<TimerId>, epoch: int, timers: Timers, marks: Marks, t: TimerId)
    requires ListOf(items, epoch, timers, marks) && t in items
    ensures items[0] in timers && t in timers && timers[items[0]].value <= timers[t].value
  {
    var i :| 0 <= i < |items| && items[i] == t;
    assert Values(items, timers)[0] <= Values(items, timers)[i];
  }

  // ----- the command queue

  /** Each restart command carries the last expiry time of a timer that is in no list and has no other command. */
  ghost predicate QueueOf(queue: seq<Command>, stamps: seq<nat>, marks: Marks) {
    && |stamps| == |queue|
    && (forall i :: 0 <= i < |queue| ==> queue[i].timer in marks && stamps[i] == Last(marks[queue[i].timer]) && queue[i].time == stamps[i] % M)
    && (forall i, j :: 0 <= i < j < |queue| ==> queue[i].timer != queue[j].timer)
  }

  ghost predicate Queued(queue: seq<Command>, t: TimerId) {
    exists i :: 0 <= i < |queue| && queue[i].timer == t
  }

  lemma QueueStays(queue: seq<Command>, stamps: seq<nat>, marks: Marks, t: TimerId, m: seq<nat>)
    requires QueueOf(queue, stamps, marks) && !Queued(queue, t)
    ensures QueueOf(queue, stamps, marks[t := m])
  {
  }

  lemma QueueGains(queue: seq<Command>, stamps: seq<nat>, marks: Marks, t: TimerId)
    requires QueueOf(queue, stamps, marks) && !Queued(queue, t) && t in marks
    ensures var stamp := Last(marks[t]); QueueOf(queue + [Command(t, stamp % M)], stamps + [stamp], marks)
    ensures forall u :: Queued(queue + [Command(t, Last(marks[t]) % M)], u) <==> u == t || Queued(queue, u)
  {
    var queue' := queue + [Command(t, Last(marks[t]) % M)];
    assert queue'[|queue|].timer == t;
    forall u | Queued(queue, u) ensures Queued(queue', u) {
      var i :| 0 <= i < |queue| && queue[i].timer == u;
      assert queue'[i].timer == u;
    }
  }

  lemma QueueLosesHead(queue: seq<Command>, stamps: seq<nat>, marks: Marks)
    requires QueueOf(queue, stamps, marks) && queue != []
    ensures QueueOf(queue[1..], stamps[1..], marks) && !Queued(queue[1..], queue[0].timer)
    ensures forall u :: Queued(queue, u) <==> u == queue[0].timer || Queued(queue[1..], u)
  {
    forall u | Queued(queue, u) && u != queue[0].timer ensures Queued(queue[1..], u) {
      var i :| 0 <= i < |queue| && queue[i].timer == u;
      assert queue[1..][i - 1].timer == u;
    }
    forall u | Queued(queue[1..], u) ensures Queued(queue, u) {
      var i :| 0 <= i < |queue[1..]| && queue[1..][i].timer == u;
      assert queue[i + 1].timer == u;
    }
  }

  function Senders(queue: seq<Command>): seq<TimerId> {
    seq(|queue|, i requires 0 <= i < |queue| => queue[i].timer)
  }

  lemma SubsetIsSmaller(a: set<TimerId>, b: set<TimerId>)
    requires a <= b
    ensures |a| <= |b|
  {
    assert b == a + (b - a);
  }

  // ----- termination measures

  /** How far the timers of a list are from the end of the epoch. */
  function Distance(items: seq<TimerId>, timers: Timers): nat
    requires forall t :: t in items ==> t in timers
  {
    if items == [] then 0 else M - timers[items[0]].value + Distance(items[1..], timers)
  }

  lemma {:induction false} DistanceAfterInsert(items: seq<TimerId>, pos: nat, t: TimerId, timers: Timers)
    requires (forall u :: u in items ==> u in timers) && t in timers && pos <= |items|
    ensures forall u :: u in SeqInsert(items, pos, t) ==> u in timers
    ensures Distance(SeqInsert(items, pos, t), timers) == Distance(items, timers) + M - timers[t].value
  {
    if pos == 0 {
      assert SeqInsert(items, 0, t)[1..] == items;
    } else {
      DistanceAfterInsert(items[1..], pos - 1, t, timers);
      assert SeqInsert(items, pos, t)[1..] == SeqInsert(items[1..], pos - 1, t);
    }
  }

  lemma {:induction false} DistanceStays(items: seq<TimerId>, timers: Timers, t: TimerId, timer: Timer)
    requires (forall u :: u in items ==> u in timers) && t !in items
    ensures Distance(items, timers[t := timer]) == Distance(items, timers)
  {
    if items != [] {
      DistanceStays(items[1..], timers, t, timer);
    }
  }

  /** The number of auto-reload timers in a list. */
  function AutoCount(items: seq<TimerId>, timers: Timers): nat
    requires forall t :: t in items ==> t in timers
  {
    if items == [] then 0 else (if timers[items[0]].autoReload then 1 else 0) + AutoCount(items[1..], timers)
  }

  ghost function AutoIn(items: seq<TimerId>, timers: Timers): nat {
    if forall t :: t in items ==> t in timers then AutoCount(items, timers) else 0
  }

  lemma {:induction false} FewerAreAuto(items: seq<TimerId>, timers: Timers)
    requires forall t :: t in items ==> t in timers
    ensures AutoCount(items, timers) <= |items|
  {
    if items != [] {
      FewerAreAuto(items[1..], timers);
    }
  }

  lemma {:induction false} AutoAfterInsert(items: seq<TimerId>, pos: nat, t: TimerId, timers: Timers)
    requires (forall u :: u in items ==> u in timers) && t in timers && pos <= |items|
    ensures forall u :: u in SeqInsert(items, pos, t) ==> u in timers
    ensures AutoCount(SeqInsert(items, pos, t), timers) == AutoCount(items, timers) + if timers[t].autoReload then 1 else 0
  {
    if pos == 0 {
      assert SeqInsert(items, 0, t)[1..] == items;
    } else {
      AutoAfterInsert(items[1..], pos - 1, t, timers);
      assert SeqInsert(items, pos, t)[1..] == SeqInsert(items[1..], pos - 1, t);
    }
  }

  lemma {:induction false} AutoStays(items: seq<TimerId>, timers: Timers, t: TimerId, timer: Timer)
    requires (forall u :: u in items ==> u in timers) && t !in items
    ensures AutoCount(items, timers[t := timer]) == AutoCount(items, timers)
  {
    if items != [] {
      AutoStays(items[1..], timers, t, timer);
    }
  }

  /** How far the commands lie back. */
  function Backlog(stamps: seq<nat>, now: nat): nat
    requires forall i :: 0 <= i < |stamps| ==> stamps[i] <= now
  {
    if stamps == [] then 0 else now + 1 - stamps[0] + Backlog(stamps[1..], now)
  }

  lemma {:induction false} BacklogAppend(stamps: seq<nat>, stamp: nat, now: nat)
    requires (forall i :: 0 <= i < |stamps| ==> stamps[i] <= now) && stamp <= now
    ensures Backlog(stamps + [stamp], now) == Backlog(stamps, now) + now + 1 - stamp
  {
    if stamps != [] {
      BacklogAppend(stamps[1..], stamp, now);
      assert (stamps + [stamp])[1..] == stamps[1..] + [stamp];
    }
  }

  // ----- the whole table

  /**
    timers, current, overflow and queue are the program's; the rest is unbounded time: what the
    callbacks stand for, the times in the commands, when the service last looked at the clock, the
    time now, and who has been started.
   */
  datatype Table = Table(
    timers: Timers, current: seq<TimerId>, overflow: seq<TimerId>, queue: seq<Command>,
    marks: Marks, stamps: seq<nat>, sampled: nat, now: nat, started: set<TimerId>)

  predicate TimerOk(timer: Timer, marks: seq<nat>, now: nat) {
    0 < timer.period < M && Chain(marks, timer.period) && Last(marks) <= now
  }

  ghost predicate TimersOk(k: Table) {
    && |k.marks| == |k.timers|
    && (forall t :: t in k.timers <==> t in k.marks)
    && forall t :: t in k.timers ==> TimerOk(k.timers[t], k.marks[t], k.now)
  }

  ghost predicate ListsOk(k: Table) {
    && ListOf(k.current, k.sampled / M, k.timers, k.marks)
    && ListOf(k.overflow, k.sampled / M + 1, k.timers, k.marks)
    && forall t :: t in k.current ==> t !in k.overflow
  }

  ghost predicate QueueOk(k: Table) {
    |k.queue| <= QUEUE_LENGTH && QueueOf(k.queue, k.stamps, k.marks) && forall t :: Queued(k.queue, t) ==> !Listed(k, t)
  }

  /** listIS_CONTAINED_WITHIN( NULL, ... ) is false */
  predicate Listed(k: Table, t: TimerId) {
    t in k.current || t in k.overflow
  }

  ghost predicate Active(k: Table, t: TimerId) {
    Listed(k, t) || Queued(k.queue, t)
  }

  predicate Attends(autoReload: bool, marked: nat, active: bool, started: bool) {
    && (active ==> started)
    && (started && autoReload ==> active)
    && (started && !autoReload ==> marked == if active then 1 else 2)
  }

  /**
    Nobody is lost: an auto-reload timer that was started is in a list or in a command, a one-shot
    timer is so until its one callback. Timers in exempt are on the move.
   */
  ghost predicate Attended(k: Table, exempt: set<TimerId>) {
    forall t :: t in k.timers && t in k.marks && t !in exempt ==>
      Attends(k.timers[t].autoReload, |k.marks[t]|, Active(k, t), t in k.started)
  }

  ghost predicate Sound(k: Table, exempt: set<TimerId>) {
    TimersOk(k) && ListsOk(k) && QueueOk(k) && Attended(k, exempt) && k.sampled <= k.now
  }

  /** Known, and in no list and no command. */
  ghost predicate Free(k: Table, t: TimerId) {
    t in k.timers && t in k.marks && !Active(k, t)
  }

  lemma FreeMeans(k: Table, t: TimerId)
    requires Free(k, t)
    ensures t in k.timers && t in k.marks && !Listed(k, t) && !Queued(k.queue, t)
  {
  }

  lemma TimerFacts(k: Table, exempt: set<TimerId>, t: TimerId)
    requires Sound(k, exempt) && t in k.timers
    ensures t in k.marks && TimerOk(k.timers[t], k.marks[t], k.now) && k.sampled <= k.now
  {
  }

  // ----- what the operations keep

  lemma SameSize<V>(m: map<TimerId, V>, t: TimerId, v: V)
    requires t in m
    ensures |m[t := v]| == |m|
  {
    assert m[t := v].Keys == m.Keys;
    assert |m[t := v]| == |m[t := v].Keys| == |m.Keys| == |m|;
  }

  lemma ChangeKeepsTimers(k: Table, t: TimerId, timer: Timer, m: seq<nat>)
    requires TimersOk(k) && t in k.timers && t in k.marks && TimerOk(timer, m, k.now)
    ensures TimersOk(k.(timers := k.timers[t := timer], marks := k.marks[t := m]))
  {
    hide TimerOk;
    SameSize(k.timers, t, timer);
    SameSize(k.marks, t, m);
  }

  lemma ChangeKeepsLists(k: Table, t: TimerId, timer: Timer, m: seq<nat>)
    requires ListsOk(k) && !Listed(k, t)
    ensures ListsOk(k.(timers := k.timers[t := timer], marks := k.marks[t := m]))
  {
    hide ListOf;
    ListStays(k.current, k.sampled / M, k.timers, k.marks, k.timers[t := timer], k.marks[t := m]);
    ListStays(k.overflow, k.sampled / M + 1, k.timers, k.marks, k.timers[t := timer], k.marks[t := m]);
  }

  /** A change to one timer that is in no list and no command. */
  lemma ChangeIsSound(k: Table, t: TimerId, timer: Timer, m: seq<nat>)
    requires Sound(k, {t}) && Free(k, t) && TimerOk(timer, m, k.now)
    ensures var k' := k.(timers := k.timers[t := timer], marks := k.marks[t := m]); Sound(k', {t}) && Free(k', t)
  {
    hide TimersOk, ListsOk, QueueOf, Queued, TimerOk, Attends;
    ChangeKeepsTimers(k, t, timer, m);
    ChangeKeepsLists(k, t, timer, m);
    QueueStays(k.queue, k.stamps, k.marks, t, m);
  }

  lemma RetimeIsSound(k: Table, t: TimerId, value: Tick)
    requires Sound(k, {t}) && Free(k, t)
    ensures var k' := k.(timers := k.timers[t := k.timers[t].(value := value)]); Sound(k', {t}) && Free(k', t)
  {
    TimerFacts(k, {t}, t);
    ChangeIsSound(k, t, k.timers[t].(value := value), k.marks[t]);
    assert k.marks[t := k.marks[t]] == k.marks;
    hide Sound, Free;
  }

  lemma FileCurrentIsSound(k: Table, t: TimerId)
    requires Sound(k, {t}) && Free(k, t) && t in k.started && (k.timers[t].autoReload || |k.marks[t]| == 1)
    requires DueIn(k.timers[t], k.marks[t], k.sampled / M) && forall u :: u in k.current ==> u in k.timers
    ensures Sound(k.(current := Inserted(k.current, k.timers, t)), {})
  {
    hide ListOf, QueueOf, Queued, Chain, Inserted, DueIn;
    ListGains(k.current, k.sampled / M, k.timers, k.marks, t);
  }

  lemma FileOverflowIsSound(k: Table, t: TimerId)
    requires Sound(k, {t}) && Free(k, t) && t in k.started && (k.timers[t].autoReload || |k.marks[t]| == 1)
    requires DueIn(k.timers[t], k.marks[t], k.sampled / M + 1) && forall u :: u in k.overflow ==> u in k.timers
    ensures Sound(k.(overflow := Inserted(k.overflow, k.timers, t)), {})
  {
    hide ListOf, QueueOf, Queued, Chain, Inserted, DueIn;
    ListGains(k.overflow, k.sampled / M + 1, k.timers, k.marks, t);
  }

  lemma TakeHeadIsSound(k: Table)
    requires Sound(k, {}) && k.current != []
    ensures var t, k' := k.current[0], k.(current := k.current[1..]); Sound(k', {t}) && Free(k', t) && t in k.started
    ensures k.current[0] in k.timers && k.current[0] in k.marks
    ensures DueIn(k.timers[k.current[0]], k.marks[k.current[0]], k.sampled / M)
    ensures k.timers[k.current[0]].autoReload || |k.marks[k.current[0]]| == 1
  {
    hide ListOf, QueueOf, Queued, Chain, DueIn;
    ListLosesHead(k.current, k.sampled / M, k.timers, k.marks);
    ListSaysDue(k.current, k.sampled / M, k.timers, k.marks, k.current[0]);
  }

  lemma HeadIsGone(k: Table)
    requires Sound(k, {}) && k.current != []
    ensures k.current[0] !in k.current[1..] && forall u :: u in k.current <==> u == k.current[0] || u in k.current[1..]
  {
    ListLosesHead(k.current, k.sampled / M, k.timers, k.marks);
  }

  lemma MarkingGoesOn(timer: Timer, marks: seq<nat>, now: nat)
    requires TimerOk(timer, marks, now) && Last(marks) + timer.period <= now
    ensures TimerOk(timer, MarkNext(marks, timer.period), now)
  {
  }

  lemma MarkIsSound(k: Table, t: TimerId)
    requires Sound(k, {t}) && Free(k, t) && Last(k.marks[t]) + k.timers[t].period <= k.now
    ensures k.timers[t].period > 0
    ensures var k' := k.(marks := k.marks[t := MarkNext(k.marks[t], k.timers[t].period)]); Sound(k', {t}) && Free(k', t)
  {
    hide ListOf, QueueOf, Queued, Chain, MarkNext, Last, Attended, Sound;
    TimerFacts(k, {t}, t);
    MarkingGoesOn(k.timers[t], k.marks[t], k.now);
    ChangeIsSound(k, t, k.timers[t], MarkNext(k.marks[t], k.timers[t].period));
    assert k.timers[t := k.timers[t]] == k.timers;
  }

  lemma SendIsSound(k: Table, t: TimerId)
    requires Sound(k, {t}) && Free(k, t) && t in k.started && (k.timers[t].autoReload || |k.marks[t]| == 1)
    requires |k.queue| < QUEUE_LENGTH
    ensures var stamp := Last(k.marks[t]); Sound(k.(queue := k.queue + [Command(t, stamp % M)], stamps := k.stamps + [stamp]), {})
  {
    hide ListOf, QueueOf, Queued, Chain;
    QueueGains(k.queue, k.stamps, k.marks, t);
  }

  lemma TakeCommandIsSound(k: Table)
    requires Sound(k, {}) && k.queue != []
    ensures |k.stamps| == |k.queue|
    ensures var t, k' := k.queue[0].timer, k.(queue := k.queue[1..], stamps := k.stamps[1..]);
      Sound(k', {t}) && Free(k', t) && t in k.started && (k.timers[t].autoReload || |k.marks[t]| == 1)
    ensures k.stamps[0] == Last(k.marks[k.queue[0].timer]) && k.queue[0].time == k.stamps[0] % M
  {
    hide ListOf, Queued, Chain;
    QueueLosesHead(k.queue, k.stamps, k.marks);
    var t := k.queue[0].timer;
    assert Queued(k.queue, t);
  }

  lemma RetireIsSound(k: Table, t: TimerId)
    requires Sound(k, {t}) && Free(k, t) && !k.timers[t].autoReload && |k.marks[t]| == 2
    ensures Sound(k, {})
  {
    hide ListOf, QueueOf, Queued, Chain;
  }

  lemma SoundMeans(k: Table, exempt: set<TimerId>)
    requires Sound(k, exempt)
    ensures forall t :: t in k.timers <==> t in k.marks
    ensures forall t :: Listed(k, t) ==> t in k.timers
    ensures |k.stamps| == |k.queue| <= QUEUE_LENGTH
    ensures k.sampled <= k.now
  {
  }

  /** Time goes by while the service is not looking. */
  lemma WaitIsSound(k: Table, now: nat)
    requires Sound(k, {}) && k.now <= now
    ensures Sound(k.(now := now), {})
  {
    hide ListOf, QueueOf, Queued, Chain, Attends;
  }

  lemma LookIsSound(k: Table)
    requires Sound(k, {}) && k.now / M == k.sampled / M
    ensures Sound(k.(sampled := k.now), {})
  {
    hide ListOf, QueueOf, Queued, Chain, Attends;
  }

  /** The lists are switched, in the next epoch. */
  lemma SwitchIsSound(k: Table)
    requires Sound(k, {}) && k.now / M == k.sampled / M + 1 && k.current == []
    ensures Sound(k.(current := k.overflow, overflow := [], sampled := k.now), {})
  {
    hide QueueOf, Queued, Chain, Attends, DueIn, Sorted;
    EmptyIsSorted(k.timers);
  }

  lemma EmptyIsSorted(timers: Timers)
    ensures Sorted(Values([], timers))
  {
  }

  lemma NoTimersAreSound(k: Table)
    requires k.timers == map[] && k.marks == map[] && k.current == k.overflow == [] && k.queue == [] && k.stamps == []
    requires k.sampled <= k.now
    ensures Sound(k, {})
  {
    EmptyIsSorted(k.timers);
  }

  function Created(k: Table, t: TimerId, timer: Timer): Table {
    k.(timers := k.timers[t := timer], marks := k.marks[t := [k.now]], started := k.started - {t})
  }

  lemma CreateKeepsTimers(k: Table, t: TimerId, timer: Timer)
    requires TimersOk(k) && t !in k.timers && TimerOk(timer, [k.now], k.now)
    ensures TimersOk(Created(k, t, timer))
  {
    hide TimerOk;
    OneMore(k.timers, t, timer);
    OneMore(k.marks, t, [k.now]);
  }

  lemma OneMore<V>(m: map<TimerId, V>, t: TimerId, v: V)
    requires t !in m
    ensures |m[t := v]| == |m| + 1
  {
    assert m[t := v].Keys == m.Keys + {t};
    assert |m[t := v]| == |m[t := v].Keys|;
  }

  lemma CreateKeepsLists(k: Table, t: TimerId, timer: Timer)
    requires ListsOk(k) && !Listed(k, t)
    ensures ListsOk(Created(k, t, timer))
  {
    hide ListOf;
    var k' := Created(k, t, timer);
    ListStays(k.current, k.sampled / M, k.timers, k.marks, k'.timers, k'.marks);
    ListStays(k.overflow, k.sampled / M + 1, k.timers, k.marks, k'.timers, k'.marks);
  }

  lemma CreateIsSound(k: Table, t: TimerId, timer: Timer)
    requires Sound(k, {}) && t !in k.timers && 0 < timer.period < M
    ensures Sound(Created(k, t, timer), {}) && !Active(Created(k, t, timer), t)
  {
    hide TimersOk, ListsOk, QueueOf, Queued, Attends;
    SoundMeans(k, {});
    NotQueued(k, t);
    CreateKeepsTimers(k, t, timer);
    CreateKeepsLists(k, t, timer);
    QueueStays(k.queue, k.stamps, k.marks, t, [k.now]);
    NeverStarted(timer);
  }

  lemma NeverStarted(timer: Timer)
    ensures Attends(timer.autoReload, 1, false, false)
  {
  }

  lemma NotQueued(k: Table, t: TimerId)
    requires Sound(k, {}) && t !in k.timers
    ensures !Queued(k.queue, t)
  {
  }

  /** A user starts a timer that is not active. */
  lemma StartIsSound(k: Table, t: TimerId, at: nat)
    requires Sound(k, {}) && Free(k, t) && k.now <= at
    ensures var k' := k.(marks := k.marks[t := [at]], now := at, started := k.started + {t}); Sound(k', {t}) && Free(k', t)
  {
    hide ListOf, QueueOf, Queued, Sound;
    WaitIsSound(k, at);
    var k1 := k.(now := at);
    ExemptMore(k1, t);
    TimerFacts(k1, {t}, t);
    assert k1.timers[t := k1.timers[t]] == k1.timers;
    ChangeIsSound(k1, t, k1.timers[t], [at]);
    var k2 := k1.(marks := k1.marks[t := [at]]);
    StartedIsSound(k2, t);
  }

  lemma ExemptMore(k: Table, t: TimerId)
    requires Sound(k, {})
    ensures Sound(k, {t})
  {
  }

  lemma StartedIsSound(k: Table, t: TimerId)
    requires Sound(k, {t})
    ensures Sound(k.(started := k.started + {t}), {t})
  {
  }

  // ----- rollover

  /**
    What the switch of the lists has done about a timer so far: nothing, if it was not in the current
    list; otherwise it has been called at each expiry time before the end of the epoch, or will be.
   */
  ghost predicate CaughtUp(k: Table, t: TimerId, was: Timer, before: seq<nat>, listed: bool, queued: bool, end: int) {
    && t in k.timers && t in k.marks && k.timers[t].period == was.period && k.timers[t].autoReload == was.autoReload
    && if !listed then t !in k.current && k.marks[t] == before && (Queued(k.queue, t) ==> queued)
       else if t in k.current then before <= k.marks[t] && (was.autoReload || k.marks[t] == before)
       else if was.autoReload then
         before <= k.marks[t] && Last(k.marks[t]) < end <= Last(k.marks[t]) + was.period && Queued(k.queue, t)
       else |k.marks[t]| == |before| + 1
  }

  ghost predicate Switching(k0: Table, k: Table, end: int) {
    forall t :: t in k0.timers && t in k0.marks ==> CaughtUp(k, t, k0.timers[t], k0.marks[t], t in k0.current, Queued(k0.queue, t), end)
  }

  lemma SwitchingStarts(k: Table, end: int)
    requires Sound(k, {})
    ensures Switching(k, k, end)
  {
  }

  /** One timer is called. */
  lemma SwitchingGoesOn(k0: Table, k: Table, k': Table, t: TimerId, end: int)
    requires Switching(k0, k, end)
    requires t in k.timers && t in k.marks && t in k.current && k.timers[t].period > 0
    requires t in k'.timers && k'.timers == k.timers[t := k'.timers[t]]
    requires k'.timers[t].period == k.timers[t].period && k'.timers[t].autoReload == k.timers[t].autoReload
    requires k'.marks == k.marks[t := MarkNext(k.marks[t], k.timers[t].period)]
    requires forall u :: u in k.current <==> u == t || u in k'.current
    requires forall u :: Queued(k.queue, u) ==> Queued(k'.queue, u)
    requires forall u :: Queued(k'.queue, u) ==> u == t || Queued(k.queue, u)
    requires if !k'.timers[t].autoReload then t !in k'.current
             else t in k'.current || Last(k'.marks[t]) < end <= Last(k'.marks[t]) + k'.timers[t].period
    requires t !in k'.current && k'.timers[t].autoReload ==> Queued(k'.queue, t)
    ensures Switching(k0, k', end)
  {
    hide Queued, Last;
    forall u | u in k0.timers && u in k0.marks ensures CaughtUp(k', u, k0.timers[u], k0.marks[u], u in k0.current, Queued(k0.queue, u), end) {
      assert CaughtUp(k, u, k0.timers[u], k0.marks[u], u in k0.current, Queued(k0.queue, u), end);
    }
  }

  /** What the switch of the lists means for a timer. */
  ghost predicate Switched(was: Timer, before: seq<nat>, listed: bool, queuedBefore: bool, after: seq<nat>, queued: bool)
    requires was.period > 0
  {
    if !listed then after == before && (queued ==> queuedBefore)
    else if was.autoReload then |after| == |before| + CeilDiv(M - was.value, was.period) && queued
    else |after| == |before| + 1
  }

  lemma SwitchingDone(k0: Table, k: Table, t: TimerId)
    requires Sound(k0, {}) && Sound(k, {}) && Switching(k0, k, (k0.sampled / M + 1) * M) && k.current == [] && t in k0.timers
    ensures k0.timers[t].period > 0 && t in k0.marks && t in k.marks
    ensures Switched(k0.timers[t], k0.marks[t], t in k0.current, Queued(k0.queue, t), k.marks[t], Queued(k.queue, t))
  {
    hide Queued, QueueOf, Attended, CeilDiv;
    TimerFacts(k0, {}, t);
    var end := (k0.sampled / M + 1) * M;
    assert CaughtUp(k, t, k0.timers[t], k0.marks[t], t in k0.current, Queued(k0.queue, t), end);
    TimerFacts(k, {}, t);
    if t in k0.current && k0.timers[t].autoReload {
      ListSaysDue(k0.current, k0.sampled / M, k0.timers, k0.marks, t);
      StepsToTheEnd(k0.marks[t], k.marks[t], k0.timers[t].period, k0.sampled / M, k0.timers[t].value);
    }
  }

  function CeilDiv(a: int, b: int): int
    requires b > 0
  {
    (a + b - 1) / b
  }

  /**
    A timer that goes on up to the end of the epoch, and would go beyond it, has made as many steps as
    it takes to get there: ceil((M - value) / period).
   */
  lemma StepsToTheEnd(before: seq<nat>, after: seq<nat>, period: int, epoch: nat, value: Tick)
    requires Chain(before, period) && Chain(after, period) && before <= after && period > 0
    requires OfEpoch(Last(before) + period, epoch, value)
    requires Last(after) < (epoch + 1) * M <= Last(after) + period
    ensures |after| - |before| == CeilDiv(M - value, period)
  {
    ChainClosedForm(before, period, |before| - 1);
    ChainClosedForm(after, period, |after| - 1);
    var n := |after| - |before|;
    assert after[0] == before[0];
    assert (|after| - 1) * period == (|before| - 1) * period + n * period;
    assert Last(after) == Last(before) + n * period;
    assert Last(before) + period == epoch * M + value;
    assert (epoch + 1) * M == epoch * M + M;
    var r := n * period - (M - value);
    assert 0 <= r < period;
    assert M - value + period - 1 == period * n + (period - 1 - r);
    Arithmetic.DivModUnique(M - value + period - 1, period, n, period - 1 - r);
  }

  lemma BeyondTheEpoch(time: nat, period: int, epoch: int)
    requires time / M == epoch && 0 < period < M
    ensures (time + period) / M != epoch <==> time < (epoch + 1) * M <= time + period
  {
    Sum(time, period);
    assert time == M * epoch + time % M;
  }

  lemma QueuedAppend(queue: seq<Command>, c: Command)
    ensures forall u :: Queued(queue + [c], u) <==> u == c.timer || Queued(queue, u)
  {
    assert (queue + [c])[|queue|] == c;
    forall u | Queued(queue, u) ensures Queued(queue + [c], u) {
      var i :| 0 <= i < |queue| && queue[i].timer == u;
      assert (queue + [c])[i].timer == u;
    }
  }

  lemma InsertionAddsDistance(items: seq<TimerId>, timers: Timers, t: TimerId)
    requires (forall u :: u in items ==> u in timers) && t in timers
    ensures forall u :: u in Inserted(items, timers, t) ==> u in timers
    ensures Distance(Inserted(items, timers, t), timers) == Distance(items, timers) + M - timers[t].value
  {
    DistanceAfterInsert(items, InsertPosition(Values(items, timers), timers[t].value), t, timers);
  }

  lemma InsertionAddsAuto(items: seq<TimerId>, timers: Timers, t: TimerId)
    requires (forall u :: u in items ==> u in timers) && t in timers
    ensures forall u :: u in Inserted(items, timers, t) ==> u in timers
    ensures AutoCount(Inserted(items, timers, t), timers) == AutoCount(items, timers) + if timers[t].autoReload then 1 else 0
  {
    AutoAfterInsert(items, InsertPosition(Values(items, timers), timers[t].value), t, timers);
  }

  // ----- callbacks

  /** The callbacks called meanwhile are those recorded meanwhile, timer by timer. */
  ghost predicate Recorded(marks: Marks, callbacks: seq<TimerId>, marks': Marks, callbacks': seq<TimerId>) {
    forall t :: t in marks ==>
      && t in marks' && marks[t] <= marks'[t]
      && multiset(callbacks')[t] == multiset(callbacks)[t] + (|marks'[t]| - |marks[t]|)
  }

  lemma NothingRecorded(marks: Marks, callbacks: seq<TimerId>)
    ensures Recorded(marks, callbacks, marks, callbacks)
  {
  }

  lemma RecordedOneMore(marks: Marks, callbacks: seq<TimerId>, marks': Marks, callbacks': seq<TimerId>, t: TimerId, expiry: nat)
    requires Recorded(marks, callbacks, marks', callbacks') && t in marks'
    ensures Recorded(marks, callbacks, marks'[t := marks'[t] + [expiry]], callbacks' + [t])
  {
    assert multiset(callbacks' + [t]) == multiset(callbacks') + multiset{t};
  }

  lemma RecordedFurther(m1: Marks, c1: seq<TimerId>, m2: Marks, c2: seq<TimerId>, m3: Marks, c3: seq<TimerId>)
    requires Recorded(m1, c1, m2, c2) && Recorded(m2, c2, m3, c3)
    ensures Recorded(m1, c1, m3, c3)
  {
  }

  // ----- the order of callbacks

  /**
    The callbacks since an earlier state, in the order in which they were called, stand for times that follow
    each other: each of them for the next expiry time of its timer.
   */
  ghost predicate InExpiryOrder(before: Marks, earlier: seq<TimerId>, marks: Marks, callbacks: seq<TimerId>, times: seq<nat>) {
    && |callbacks| == |earlier| + |times| && callbacks[..|earlier|] == earlier && Sorted(times)
    && forall i :: 0 <= i < |times| ==> StandsFor(before, marks, callbacks[|earlier|..|earlier| + i], callbacks[|earlier| + i], times[i])
  }

  /** The next callback of a timer after some others stands for the time. */
  ghost predicate StandsFor(before: Marks, marks: Marks, others: seq<TimerId>, t: TimerId, time: nat) {
    && t in before && t in marks
    && var n := |before[t]| + multiset(others)[t];
       n < |marks[t]| && time == marks[t][n]
  }

  /** No timer in the current list expires before the last of these times. */
  ghost predicate NobodyEarlier(k: Table, times: seq<nat>) {
    times != [] ==>
      forall t :: t in k.current ==> t in k.timers && t in k.marks && times[|times| - 1] <= Last(k.marks[t]) + k.timers[t].period
  }

  lemma NothingCalledYet(k: Table, callbacks: seq<TimerId>)
    ensures InExpiryOrder(k.marks, callbacks, k.marks, callbacks, []) && NobodyEarlier(k, [])
  {
  }

  lemma HeadExpiresFirst(k: Table, t: TimerId)
    requires Sound(k, {}) && t in k.current
    ensures var h := k.current[0];
      && h in k.timers && h in k.marks && t in k.timers && t in k.marks
      && Last(k.marks[h]) + k.timers[h].period <= Last(k.marks[t]) + k.timers[t].period
  {
    hide Queued, QueueOf, Attended, Sorted, Chain;
    ListSaysDue(k.current, k.sampled / M, k.timers, k.marks, t);
    ListSaysDue(k.current, k.sampled / M, k.timers, k.marks, k.current[0]);
    HeadIsFirst(k.current, k.sampled / M, k.timers, k.marks, t);
  }

  lemma SortedMore(times: seq<nat>, time: nat)
    requires Sorted(times) && (times != [] ==> times[|times| - 1] <= time)
    ensures Sorted(times + [time])
  {
    forall i | 0 <= i < |times| ensures times[i] <= time {
      assert i < |times| - 1 ==> times[i] <= times[|times| - 1];
    }
  }

  lemma StillStandsFor(before: Marks, marks: Marks, others: seq<TimerId>, u: TimerId, time: nat, t: TimerId, expiry: nat)
    requires StandsFor(before, marks, others, u, time) && t in marks
    ensures StandsFor(before, marks[t := marks[t] + [expiry]], others, u, time)
  {
  }

  lemma NextStandsFor(before: Marks, earlier: seq<TimerId>, marks: Marks, callbacks: seq<TimerId>, t: TimerId, expiry: nat)
    requires Recorded(before, earlier, marks, callbacks) && t in before && t in marks
    requires |earlier| <= |callbacks| && callbacks[..|earlier|] == earlier
    ensures StandsFor(before, marks[t := marks[t] + [expiry]], callbacks[|earlier|..], t, expiry)
  {
    var others: seq<TimerId> := callbacks[|earlier|..];
    assert callbacks == earlier + others;
    assert multiset(callbacks) == multiset(earlier) + multiset(others);
  }

  lemma CalledNext(before: Marks, earlier: seq<TimerId>, k: Table, callbacks: seq<TimerId>, times: seq<nat>, t: TimerId, expiry: nat)
    requires InExpiryOrder(before, earlier, k.marks, callbacks, times) && Recorded(before, earlier, k.marks, callbacks)
    requires t in before && t in k.marks && (times != [] ==> times[|times| - 1] <= expiry)
    ensures InExpiryOrder(before, earlier, k.marks[t := k.marks[t] + [expiry]], callbacks + [t], times + [expiry])
  {
    hide StandsFor, Recorded, Sorted;
    var n := |earlier|;
    var callbacks', times', marks' := callbacks + [t], times + [expiry], k.marks[t := k.marks[t] + [expiry]];
    SortedMore(times, expiry);
    assert callbacks'[..n] == earlier;
    forall i | 0 <= i < |times'| ensures StandsFor(before, marks', callbacks'[n..n + i], callbacks'[n + i], times'[i]) {
      assert callbacks'[n..n + i] == callbacks[n..n + i];
      if i < |times| {
        StillStandsFor(before, k.marks, callbacks[n..n + i], callbacks[n + i], times[i], t, expiry);
      } else {
        NextStandsFor(before, earlier, k.marks, callbacks, t, expiry);
        assert callbacks[n..n + i] == callbacks[n..];
      }
    }
  }

  lemma LastIsNotLater(k: Table, times: seq<nat>)
    requires Sound(k, {}) && k.current != [] && NobodyEarlier(k, times)
    ensures var t := k.current[0];
      t in k.timers && t in k.marks && (times != [] ==> times[|times| - 1] <= Last(k.marks[t]) + k.timers[t].period)
  {
    hide Sound;
    HeadExpiresFirst(k, k.current[0]);
  }

  /** The head has been called, for its expiry time; who is left in the list expires then or later. */
  lemma NobodyEarlierStill(k: Table, k': Table, times: seq<nat>, t: TimerId)
    requires Sound(k, {}) && k.current != [] && t == k.current[0] && t in k.timers && t in k.marks
    requires t in k'.timers && k'.timers == k.timers[t := k'.timers[t]] && k'.timers[t].period == k.timers[t].period > 0
    requires k'.marks == k.marks[t := MarkNext(k.marks[t], k.timers[t].period)]
    requires forall u :: u in k'.current ==> u in k.current
    ensures NobodyEarlier(k', times + [Last(k.marks[t]) + k.timers[t].period])
  {
    hide Sound;
    forall u | u in k'.current
      ensures u in k'.timers && u in k'.marks && Last(k.marks[t]) + k.timers[t].period <= Last(k'.marks[u]) + k'.timers[u].period
    {
      HeadExpiresFirst(k, u);
    }
  }

  // ----- times

  /** In the current epoch, a timer whose value is not above the tick count has expired, less than an epoch ago. */
  lemma ExpiredMeans(timer: Timer, marks: seq<nat>, now: nat)
    requires DueIn(timer, marks, now / M)
    ensures timer.value <= now % M <==> Last(marks) + timer.period <= now
    ensures now < Last(marks) + timer.period + M
  {
  }

  // ----- lateness

  /**
    At the given time no restart command will be a whole clock round old: the queued ones are not, and
    neither is any expiry time for which a timer in the current list is to be called.
   */
  ghost predicate Prompt(k: Table, time: nat) {
    forall t :: t in k.timers && t in k.marks ==>
      && (Queued(k.queue, t) ==> time < Last(k.marks[t]) + M)
      && (t in k.current ==> time < Last(k.marks[t]) + k.timers[t].period + M)
  }

  ghost predicate AllYoung(stamps: seq<nat>, now: nat) {
    forall i :: 0 <= i < |stamps| ==> stamps[i] <= now < stamps[i] + M
  }

  lemma PromptMeansYoung(k: Table)
    requires Sound(k, {}) && Prompt(k, k.now)
    ensures AllYoung(k.stamps, k.now)
  {
    forall i | 0 <= i < |k.stamps| ensures k.stamps[i] <= k.now < k.stamps[i] + M {
      var t := k.queue[i].timer;
      assert Queued(k.queue, t);
      TimerFacts(k, {}, t);
    }
  }

  lemma CeilOfPositive(a: int, b: int)
    requires a > 0 && b > 0
    ensures CeilDiv(a, b) >= 1
  {
    Arithmetic.NextPeriod(a - 1, b);
    assert (a - 1) / b >= 0;
  }

  /** The timer has been called for all that has expired. */
  predicate UpToDate(timer: Timer, marks: seq<nat>, now: nat) {
    now < Last(marks) + timer.period || (!timer.autoReload && |marks| == 2)
  }

  /** Every timer whose command was processed is up to date, and timers without a command are left alone. */
  ghost predicate Handled(before: Table, k: Table) {
    && (forall t :: Queued(k.queue, t) ==> Queued(before.queue, t))
    && (forall t :: Queued(before.queue, t) && !Queued(k.queue, t) ==> t in k.timers && t in k.marks && UpToDate(k.timers[t], k.marks[t], k.now))
    && (forall t :: t in before.marks && !Queued(before.queue, t) ==> t in k.marks && k.marks[t] == before.marks[t])
  }

  lemma NothingHandled(k: Table)
    ensures Handled(k, k)
  {
  }

  lemma AllHandled(before: Table, k: Table, t: TimerId)
    requires Handled(before, k) && k.queue == []
    ensures Queued(before.queue, t) ==> t in k.timers && t in k.marks && UpToDate(k.timers[t], k.marks[t], k.now)
    ensures !Queued(before.queue, t) && t in before.marks ==> t in k.marks && k.marks[t] == before.marks[t]
  {
  }

  lemma HandledOneMore(before: Table, k: Table, k': Table, t: TimerId)
    requires Handled(before, k) && k'.now == k.now && t in k.timers && t in k.marks && t in k'.timers && t in k'.marks
    requires Queued(k.queue, t) && k'.timers == k.timers[t := k'.timers[t]] && k'.marks == k.marks[t := k'.marks[t]]
    requires forall u :: u != t ==> (Queued(k'.queue, u) <==> Queued(k.queue, u))
    requires !Queued(k'.queue, t) ==> UpToDate(k'.timers[t], k'.marks[t], k'.now)
    ensures Handled(before, k')
  {
    hide Queued, UpToDate;
  }

  lemma HeadCommandIsGone(k: Table)
    requires Sound(k, {}) && k.queue != []
    ensures var t := k.queue[0].timer;
      !Queued(k.queue[1..], t) && forall u :: Queued(k.queue, u) <==> u == t || Queued(k.queue[1..], u)
  {
    QueueLosesHead(k.queue, k.stamps, k.marks);
  }

  /** Looking at the clock again within M ticks: the tick count is smaller exactly in the next epoch. */
  lemma SampledAgain(sampled: nat, time: nat)
    requires sampled <= time < sampled + M
    ensures time % M < sampled % M <==> time / M == sampled / M + 1
    ensures time % M >= sampled % M <==> time / M == sampled / M
  {
    if time > sampled {
      Sum(sampled, time - sampled);
    }
  }

  /** Waiting does not make a prompt service late: Prompt does not depend on the time of the table. */
  lemma PromptLater(k: Table, now: nat, time: nat)
    ensures Prompt(k.(now := now), time) <==> Prompt(k, time)
  {
  }

  /** The switch makes new commands only for times later than the ones the timers were last called for. */
  lemma SwitchedIsYoung(k0: Table, k: Table, t: TimerId)
    requires Sound(k0, {}) && Sound(k, {}) && Prompt(k0, k.now) && t in k0.timers && t in k0.marks && t in k.marks
    requires k0.timers[t].period > 0 && k0.marks[t] <= k.marks[t] && t in k.timers && k.timers[t].period == k0.timers[t].period
    requires Switched(k0.timers[t], k0.marks[t], t in k0.current, Queued(k0.queue, t), k.marks[t], Queued(k.queue, t))
    requires Queued(k.queue, t)
    ensures k.now < Last(k.marks[t]) + M
  {
    hide Queued, QueueOf, Attended, CeilDiv, ListOf;
    TimerFacts(k, {}, t);
    TimerFacts(k0, {}, t);
    CeilOfPositive(M - k0.timers[t].value, k0.timers[t].period);
    if t in k0.current {
      LongerChain(k0.marks[t], k.marks[t], k0.timers[t].period);
    }
  }

  lemma LongerChain(before: seq<nat>, after: seq<nat>, period: int)
    requires before <= after && |before| < |after| && before != [] && Chain(after, period) && period > 0
    ensures Last(after) >= Last(before) + period
  {
    ChainClosedForm(after, period, |after| - 1);
    ChainClosedForm(after, period, |before| - 1);
    var n := |after| - |before|;
    assert (|after| - 1) * period == (|before| - 1) * period + n * period;
    Arithmetic.MulGrows(period, n);
  }

  // ----- when the service has nothing to do

  /** An auto-reload timer has been called once for each period since its start, a one-shot timer if its time has come. */
  ghost predicate OnSchedule(timer: Timer, marks: seq<nat>, now: nat) {
    && marks != [] && timer.period > 0
    && |marks| - 1 == if timer.autoReload then (now - marks[0]) / timer.period
                      else if marks[0] + timer.period <= now then 1 else 0
  }

  ghost predicate NothingToDo(k: Table) {
    && k.queue == [] && k.sampled == k.now
    && (k.current != [] ==> k.current[0] in k.timers && k.timers[k.current[0]].value > k.now % M)
  }

  lemma ListedIsAhead(k: Table, t: TimerId)
    requires Sound(k, {}) && NothingToDo(k) && Listed(k, t)
    ensures t in k.timers && t in k.marks && k.now < Last(k.marks[t]) + k.timers[t].period
  {
    hide Queued, QueueOf, Attended, Sorted;
    if t in k.current {
      ListSaysDue(k.current, k.sampled / M, k.timers, k.marks, t);
      HeadIsFirst(k.current, k.sampled / M, k.timers, k.marks, t);
      ExpiredMeans(k.timers[t], k.marks[t], k.now);
    } else {
      ListSaysDue(k.overflow, k.sampled / M + 1, k.timers, k.marks, t);
    }
  }

  /** When the service has nothing to do, every timer has been called as often as its period fits into the time since its start. */
  lemma EverybodyIsOnSchedule(k: Table, t: TimerId)
    requires Sound(k, {}) && NothingToDo(k) && t in k.timers && t in k.started
    ensures t in k.marks && OnSchedule(k.timers[t], k.marks[t], k.now)
  {
    hide ListOf, QueueOf;
    TimerFacts(k, {}, t);
    assert Attends(k.timers[t].autoReload, |k.marks[t]|, Active(k, t), t in k.started);
    if Listed(k, t) {
      ListedIsAhead(k, t);
      StepsThatFit(k.marks[t], k.timers[t].period, k.now);
    }
  }

  /** The wait reaches to the expiry time of the first timer, or to the end of the epoch; it is zero only when the tick count is. */
  lemma WaitMeans(k: Table, wait: Tick)
    requires NothingToDo(k) && forall u :: u in k.current ==> u in k.timers
    requires wait == Wrap((if k.current == [] then 0 else k.timers[k.current[0]].value) - k.now % M)
    ensures k.current != [] ==> wait == k.timers[k.current[0]].value - k.now % M
    ensures k.current == [] ==> wait == if k.now % M == 0 then 0 else M - k.now % M
    ensures wait == 0 ==> k.now % M == 0
  {
    if k.current != [] {
      Arithmetic.SmallMod(k.timers[k.current[0]].value - k.now % M, M);
    } else if k.now % M > 0 {
      Arithmetic.DivModUnique(-(k.now % M), M, -1, M - k.now % M);
    }
  }

  lemma MarkedLast(marks: seq<nat>, period: nat)
    ensures Last(MarkNext(marks, period)) == Last(marks) + period && |MarkNext(marks, period)| == |marks| + 1
  {
  }

  /** The service does not oversleep: nothing is due before the time it waits for. */
  lemma WaitIsShortEnough(k: Table, t: TimerId, wait: Tick)
    requires Sound(k, {}) && NothingToDo(k) && Listed(k, t)
    requires forall u :: u in k.current ==> u in k.timers
    requires wait == Wrap((if k.current == [] then 0 else k.timers[k.current[0]].value) - k.now % M)
    ensures t in k.timers && t in k.marks && k.now + wait <= Last(k.marks[t]) + k.timers[t].period
  {
    hide Queued, QueueOf, Attended, Sorted;
    WaitMeans(k, wait);
    if t in k.current {
      ListSaysDue(k.current, k.sampled / M, k.timers, k.marks, t);
      HeadIsFirst(k.current, k.sampled / M, k.timers, k.marks, t);
    } else {
      ListSaysDue(k.overflow, k.sampled / M + 1, k.timers, k.marks, t);
    }
  }

  /** How far the commands lie back, as long as none lies ahead. */
  ghost function BacklogOf(stamps: seq<nat>, now: nat): nat {
    if forall i :: 0 <= i < |stamps| ==> stamps[i] <= now then Backlog(stamps, now) else 0
  }

  /** When a timer is not called after all, it is as free as before. */
  lemma StillFree(k: Table, t: TimerId, marks: Marks)
    requires Free(k, t) && t in marks
    ensures Free(k.(marks := marks), t)
  {
  }

  lemma YoungerRest(stamps: seq<nat>, now: nat)
    requires stamps != [] && AllYoung(stamps, now)
    ensures AllYoung(stamps[1..], now) && BacklogOf(stamps[1..], now) == BacklogOf(stamps, now) - (now + 1 - stamps[0])
  {
  }

  lemma YoungerMore(stamps: seq<nat>, stamp: nat, now: nat)
    requires AllYoung(stamps, now) && stamp <= now < stamp + M
    ensures AllYoung(stamps + [stamp], now) && BacklogOf(stamps + [stamp], now) == BacklogOf(stamps, now) + (now + 1 - stamp)
  {
    BacklogAppend(stamps, stamp, now);
  }

  lemma SwitchingMeans(k0: Table, k: Table, end: int, callbacks: seq<TimerId>, callbacks': seq<TimerId>)
    requires Sound(k0, {}) && Switching(k0, k, end) && Recorded(k0.marks, callbacks, k.marks, callbacks')
    requires forall t :: t in k.timers ==> t in k0.timers
    ensures forall t :: t in k.timers ==> t in k0.marks && t in k.marks && k0.marks[t] <= k.marks[t] && k.timers[t].period == k0.timers[t].period
  {
    hide Queued;
    forall t | t in k.timers
      ensures t in k0.marks && t in k.marks && k0.marks[t] <= k.marks[t] && k.timers[t].period == k0.timers[t].period
    {
      TimerFacts(k0, {}, t);
      assert CaughtUp(k, t, k0.timers[t], k0.marks[t], t in k0.current, Queued(k0.queue, t), end);
    }
  }

  lemma SwitchedAllYoung(k0: Table, k: Table)
    requires Sound(k0, {}) && Sound(k, {}) && Prompt(k0, k.now)
    requires forall t :: t in k.timers ==> t in k0.timers && t in k0.marks && t in k.marks && k0.timers[t].period > 0
    requires forall t :: t in k.timers ==> k0.marks[t] <= k.marks[t] && k.timers[t].period == k0.timers[t].period
    requires forall t :: t in k.timers ==>
      Switched(k0.timers[t], k0.marks[t], t in k0.current, Queued(k0.queue, t), k.marks[t], Queued(k.queue, t))
    ensures AllYoung(k.stamps, k.now)
  {
    forall i | 0 <= i < |k.stamps| ensures k.stamps[i] <= k.now < k.stamps[i] + M {
      var t := k.queue[i].timer;
      assert Queued(k.queue, t);
      TimerFacts(k, {}, t);
      SwitchedIsYoung(k0, k, t);
    }
  }

  /** Periods and kinds of timers are as they were. */
  ghost predicate SameKinds(before: Timers, after: Timers) {
    && (forall t :: t in after ==> t in before)
    && forall t :: t in before ==> t in after && after[t].period == before[t].period && after[t].autoReload == before[t].autoReload
  }

  lemma SameKindsAt(timers: Timers, t: TimerId, timer: Timer)
    requires t in timers && timer.period == timers[t].period && timer.autoReload == timers[t].autoReload
    ensures SameKinds(timers, timers[t := timer]) && SameKinds(timers, timers)
  {
  }

  lemma SameKindsFurther(a: Timers, b: Timers, c: Timers)
    requires SameKinds(a, b) && SameKinds(b, c)
    ensures SameKinds(a, c)
  {
  }

  lemma SampledLater(k: Table, k': Table)
    requires Sound(k, {}) && k.now <= k'.sampled
    ensures k.sampled <= k'.sampled
  {
  }

  lemma SwitchingKeepsKinds(k0: Table, k: Table, end: int)
    requires Sound(k0, {}) && Switching(k0, k, end) && forall t :: t in k.timers ==> t in k0.timers
    ensures SameKinds(k0.timers, k.timers)
  {
    hide Queued;
    forall t | t in k0.timers
      ensures t in k.timers && k.timers[t].period == k0.timers[t].period && k.timers[t].autoReload == k0.timers[t].autoReload
    {
      TimerFacts(k0, {}, t);
      assert CaughtUp(k, t, k0.timers[t], k0.marks[t], t in k0.current, Queued(k0.queue, t), end);
    }
  }

  lemma AllSwitched(k0: Table, k: Table, callbacks: seq<TimerId>, callbacks': seq<TimerId>)
    requires Sound(k0, {}) && Sound(k, {}) && k.current == [] && Switching(k0, k, (k0.sampled / M + 1) * M)
    requires Recorded(k0.marks, callbacks, k.marks, callbacks') && forall t :: t in k.timers ==> t in k0.timers
    ensures forall t :: t in k0.timers ==> k0.timers[t].period > 0 && t in k0.marks && t in k.marks
    ensures SameKinds(k0.timers, k.timers)
    ensures forall t :: t in k0.timers ==>
      Switched(k0.timers[t], k0.marks[t], t in k0.current, Queued(k0.queue, t), k.marks[t], Queued(k.queue, t))
    ensures Prompt(k0, k.now) ==> AllYoung(k.stamps, k.now)
  {
    hide Sound, Switching, Recorded, Prompt, AllYoung, Switched;
    forall t | t in k0.timers
      ensures k0.timers[t].period > 0 && t in k0.marks && t in k.marks
      ensures Switched(k0.timers[t], k0.marks[t], t in k0.current, Queued(k0.queue, t), k.marks[t], Queued(k.queue, t))
    {
      SwitchingDone(k0, k, t);
    }
    SwitchingKeepsKinds(k0, k, (k0.sampled / M + 1) * M);
    if Prompt(k0, k.now) {
      SwitchingMeans(k0, k, (k0.sampled / M + 1) * M, callbacks, callbacks');
      SwitchedAllYoung(k0, k);
    }
  }

  // ----- how long the service waits

  /** A timer that has been started and will be called in the present epoch. */
  ghost predicate ExpiresToday(k: Table, t: TimerId) {
    && t in k.timers && t in k.marks && t in k.started && (k.timers[t].autoReload || |k.marks[t]| == 1)
    && (Last(k.marks[t]) + k.timers[t].period) / M == k.now / M
  }

  /** The wait reaches to the first of these expiry times; without any, to the next moment at which the tick count is 0. */
  ghost predicate WaitsForNext(k: Table, wait: Tick) {
    if exists t :: ExpiresToday(k, t) then
      && (exists t :: ExpiresToday(k, t) && Last(k.marks[t]) + k.timers[t].period == k.now + wait)
      && forall t :: ExpiresToday(k, t) ==> k.now + wait <= Last(k.marks[t]) + k.timers[t].period
    else (k.now + wait) % M == 0
  }

  /** These are the timers in the current list. */
  lemma TodayIsTheCurrentList(k: Table, t: TimerId)
    requires Sound(k, {}) && NothingToDo(k)
    ensures ExpiresToday(k, t) <==> t in k.current
  {
    hide Queued, QueueOf, Sorted, Chain;
    if t in k.current {
      ListSaysDue(k.current, k.sampled / M, k.timers, k.marks, t);
      EpochOf(Last(k.marks[t]) + k.timers[t].period, k.sampled / M, k.timers[t].value);
      assert Attends(k.timers[t].autoReload, |k.marks[t]|, Active(k, t), t in k.started);
    } else if t in k.overflow {
      OverflowIsTomorrow(k, t);
    } else if t in k.timers && t in k.marks {
      NobodyIsQueued(k.queue, t);
      assert Attends(k.timers[t].autoReload, |k.marks[t]|, Active(k, t), t in k.started);
    }
  }

  lemma OverflowIsTomorrow(k: Table, t: TimerId)
    requires Sound(k, {}) && t in k.overflow
    ensures t in k.timers && t in k.marks && (Last(k.marks[t]) + k.timers[t].period) / M == k.sampled / M + 1
  {
    hide Queued, QueueOf, Sorted, Chain, Attended;
    ListSaysDue(k.overflow, k.sampled / M + 1, k.timers, k.marks, t);
    EpochOf(Last(k.marks[t]) + k.timers[t].period, k.sampled / M + 1, k.timers[t].value);
  }

  lemma EpochOf(time: nat, epoch: int, value: Tick)
    requires OfEpoch(time, epoch, value)
    ensures time / M == epoch
  {
  }

  lemma NobodyIsQueued(queue: seq<Command>, t: TimerId)
    requires queue == []
    ensures !Queued(queue, t)
  {
  }

  lemma WaitIsExact(k: Table, wait: Tick)
    requires Sound(k, {}) && NothingToDo(k) && forall u :: u in k.current ==> u in k.timers
    requires wait == Wrap((if k.current == [] then 0 else k.timers[k.current[0]].value) - k.now % M)
    ensures WaitsForNext(k, wait)
  {
    hide Sound, NothingToDo, ExpiresToday;
    forall t ensures ExpiresToday(k, t) <==> t in k.current {
      TodayIsTheCurrentList(k, t);
    }
    if k.current == [] {
      WaitMeans(k, wait);
      EndOfEpoch(k.now, wait);
    } else {
      FirstIsToday(k, wait);
      forall t | t in k.current ensures t in k.timers && t in k.marks && k.now + wait <= Last(k.marks[t]) + k.timers[t].period {
        WaitIsShortEnough(k, t, wait);
      }
    }
  }

  lemma EndOfEpoch(now: nat, wait: int)
    requires wait == if now % M == 0 then 0 else M - now % M
    ensures (now + wait) % M == 0
  {
    if now % M > 0 {
      Sum(now, wait);
    }
  }

  lemma FirstIsToday(k: Table, wait: Tick)
    requires Sound(k, {}) && NothingToDo(k) && k.current != [] && forall u :: u in k.current ==> u in k.timers
    requires wait == Wrap(k.timers[k.current[0]].value - k.now % M)
    ensures k.current[0] in k.marks && Last(k.marks[k.current[0]]) + k.timers[k.current[0]].period == k.now + wait
  {
    hide Queued, QueueOf, Attended, Sorted;
    WaitMeans(k, wait);
    ListSaysDue(k.current, k.sampled / M, k.timers, k.marks, k.current[0]);
  }

  // ----- what the task does

  /** A moment of the service: atCommands says which of the two calls in its loop comes next. */
  datatype Moment = Moment(table: Table, callbacks: seq<TimerId>, atCommands: bool)

  /** The service makes its next call, or a user starts a timer. */
  datatype Act = Serve(time: nat) | Begin(timer: TimerId, time: nat)

  /** How far the service gets: its loop goes on, it has blocked, or an assertion has stopped the machine. */
  datatype Outcome = Running | Blocked(wait: Tick) | Halted

  /** In the epoch of the last sample, the first timer has expired. */
  ghost predicate FirstIsDue(k: Table, time: nat) {
    && time / M == k.sampled / M
    && k.current != [] && k.current[0] in k.timers && k.timers[k.current[0]].value <= time % M
  }

  /** And it has expired a second time. */
  ghost predicate FirstIsLate(k: Table, time: nat) {
    && FirstIsDue(k, time)
    && var t := k.current[0];
       t in k.marks && k.timers[t].autoReload && Last(k.marks[t]) + k.timers[t].period + k.timers[t].period <= time
  }

  /**
    The next call would send a command for which there is no room, so that an assertion stops the
    machine: in the switch of the lists, or for a timer that is late.
   */
  ghost predicate Refuses(k: Table, atCommands: bool, time: nat) {
    if time / M != k.sampled / M then |k.queue| + AutoIn(k.current, k.timers) > QUEUE_LENGTH
    else !atCommands && FirstIsLate(k, time) && |k.queue| >= QUEUE_LENGTH
  }

  /** No command, no switch of the lists, and nobody due. */
  ghost predicate IsIdle(k: Table, time: nat) {
    k.queue == [] && time / M == k.sampled / M && !FirstIsDue(k, time)
  }

  ghost predicate Blocks(m: Moment, time: nat) {
    !m.atCommands && IsIdle(m.table, time)
  }

  /** Common to both calls. */
  ghost predicate Served(m: Moment, time: nat, m': Moment) {
    && m'.table.sampled == m'.table.now == time && m'.table.started == m.table.started
    && SameKinds(m.table.timers, m'.table.timers)
    && Recorded(m.table.marks, m.callbacks, m'.table.marks, m'.callbacks)
  }

  ghost predicate SwitchedLists(k: Table, k': Table) {
    && k'.current == k.overflow && k'.overflow == []
    && forall t :: t in k.timers ==>
      && t in k.marks && t in k'.marks && k.timers[t].period > 0
      && Switched(k.timers[t], k.marks[t], t in k.current, Queued(k.queue, t), k'.marks[t], Queued(k'.queue, t))
  }

  /** prvProcessTimerOrBlockTask: the lists are switched, or the first timer is called if it is due. */
  ghost predicate Checked(m: Moment, time: nat, m': Moment) {
    var k, k' := m.table, m'.table;
    && Served(m, time, m')
    && if time / M != k.sampled / M then SwitchedLists(k, k')
       else if FirstIsDue(k, time) then
         && m'.callbacks == m.callbacks + [k.current[0]]
         && k'.queue == if FirstIsLate(k, time) then k.queue + [Command(k.current[0], k.timers[k.current[0]].value)] else k.queue
       else m'.callbacks == m.callbacks && k' == k.(sampled := time, now := time)
  }

  /** prvProcessReceivedCommands: who has a command, or was in the list that is switched, is called for all that has expired. */
  ghost predicate Emptied(m: Moment, time: nat, m': Moment) {
    var k, k' := m.table, m'.table;
    && Served(m, time, m') && k'.queue == []
    && forall t :: t in k.timers ==>
      && t in k.marks && t in k'.timers && t in k'.marks
      && if Queued(k.queue, t) || (time / M != k.sampled / M && t in k.current) then UpToDate(k'.timers[t], k'.marks[t], time)
         else k'.marks[t] == k.marks[t]
  }

  /** A timer that is not active is started, if there is room for the command. */
  ghost function Begun(k: Table, t: TimerId, time: nat): Table {
    if Free(k, t) && |k.queue| < QUEUE_LENGTH then
      k.(marks := k.marks[t := [time]], now := time, started := k.started + {t},
         queue := k.queue + [Command(t, time % M)], stamps := k.stamps + [time])
    else k.(now := time)
  }

  /** A start that is accepted counts from its time, and puts one command into the queue. */
  lemma BeginStarts(k: Table, t: TimerId, time: nat)
    requires Free(k, t) && |k.queue| < QUEUE_LENGTH
    ensures var k' := Begun(k, t, time);
      && t in k'.started && t in k'.marks && k'.marks[t] == [time]
      && Queued(k'.queue, t) && |k'.queue| == |k.queue| + 1 && k'.queue[|k.queue|].time == time % M
      && forall u :: u != t && u in k.marks ==> u in k'.marks && k'.marks[u] == k.marks[u]
  {
    QueuedAppend(k.queue, Command(t, time % M));
  }

  ghost predicate Did(m: Moment, act: Act, m': Moment) {
    && Sound(m'.table, {})
    && match act {
         case Serve(time) =>
           && !Refuses(m.table, m.atCommands, time) && m'.atCommands == !m.atCommands
           && if m.atCommands then Emptied(m, time, m') else Checked(m, time, m')
         case Begin(t, time) => m' == m.(table := Begun(m.table, t, time))
       }
  }

  /** The moments before, between and after the acts. */
  ghost predicate Ran(trace: seq<Moment>, acts: seq<Act>) {
    |trace| == |acts| + 1 && forall i :: 0 <= i < |acts| ==> Did(trace[i], acts[i], trace[i + 1])
  }

  /** The callbacks of one timer are those recorded. */
  ghost predicate Follows(m: Moment, m': Moment, t: TimerId) {
    t in m.table.marks ==>
      && t in m'.table.marks && m.table.marks[t] <= m'.table.marks[t]
      && multiset(m'.callbacks)[t] == multiset(m.callbacks)[t] + (|m'.table.marks[t]| - |m.table.marks[t]|)
  }

  ghost predicate GoesOn(m: Moment, m': Moment) {
    SameKinds(m.table.timers, m'.table.timers) && m.table.started <= m'.table.started
  }

  predicate Begins(acts: seq<Act>, t: TimerId) {
    exists i :: 0 <= i < |acts| && acts[i].Begin? && acts[i].timer == t
  }

  /** Over any acts, timers stay the same, nobody who was started is lost, and callbacks are those recorded since a start. */
  lemma {:induction false} RanFollows(trace: seq<Moment>, acts: seq<Act>)
    requires Ran(trace, acts)
    ensures GoesOn(trace[0], trace[|acts|])
    ensures forall t :: !Begins(acts, t) ==> Follows(trace[0], trace[|acts|], t)
    decreases |acts|
  {
    hide Did, GoesOn, Follows, Begins;
    if acts == [] {
      StaysAsItIs(trace[0]);
    } else {
      var n := |acts| - 1;
      RanFollows(trace[..n + 1], acts[..n]);
      DidGoesOn(trace[n], acts[n], trace[n + 1]);
      GoesOnFurther(trace[0], trace[n], trace[n + 1]);
      forall t | !Begins(acts, t) ensures Follows(trace[0], trace[|acts|], t) {
        BeginsNot(acts, t);
        DidFollows(trace[n], acts[n], trace[n + 1], t);
        FollowsFurther(trace[0], trace[n], trace[n + 1], t);
      }
    }
  }

  lemma DidAtTheTime(m: Moment, act: Act, m': Moment)
    requires Did(m, act, m')
    ensures m'.table.now == act.time && Sound(m'.table, {})
  {
    hide Sound, Free, Recorded, SwitchedLists, FirstIsDue, FirstIsLate, Refuses, Queued, SameKinds;
  }

  lemma RanNothing(m: Moment)
    ensures Ran([m], [])
  {
  }

  /** One more act. */
  lemma RanOneMore(trace: seq<Moment>, acts: seq<Act>, act: Act, m: Moment)
    requires Ran(trace, acts) && Did(trace[|acts|], act, m)
    ensures Ran(trace + [m], acts + [act])
  {
    hide Did;
  }

  lemma StaysAsItIs(m: Moment)
    ensures GoesOn(m, m) && forall t :: Follows(m, m, t)
  {
  }

  lemma BeginsNot(acts: seq<Act>, t: TimerId)
    requires acts != [] && !Begins(acts, t)
    ensures !Begins(acts[..|acts| - 1], t) && !(acts[|acts| - 1].Begin? && acts[|acts| - 1].timer == t)
  {
  }

  lemma DidGoesOn(m: Moment, act: Act, m': Moment)
    requires Did(m, act, m')
    ensures GoesOn(m, m')
  {
    hide Free, Recorded, SwitchedLists, FirstIsDue, FirstIsLate, Refuses, Queued;
  }

  lemma DidFollows(m: Moment, act: Act, m': Moment, t: TimerId)
    requires Did(m, act, m') && !(act.Begin? && act.timer == t)
    ensures Follows(m, m', t)
  {
    hide Free, SwitchedLists, FirstIsDue, FirstIsLate, Refuses, Queued, SameKinds;
  }

  lemma GoesOnFurther(a: Moment, b: Moment, c: Moment)
    requires GoesOn(a, b) && GoesOn(b, c)
    ensures GoesOn(a, c)
  {
  }

  lemma FollowsFurther(a: Moment, b: Moment, c: Moment, t: TimerId)
    requires Follows(a, b, t) && Follows(b, c, t)
    ensures Follows(a, c, t)
  {
  }

  /** Queue and current list together are no longer than there are timers. */
  lemma TimersAreEnough(k: Table)
    requires Sound(k, {})
    ensures |k.queue| + |k.current| <= |k.timers|
  {
    hide Attended, Chain;
    var all := Senders(k.queue) + k.current;
    assert forall i :: 0 <= i < |k.queue| ==> all[i] == k.queue[i].timer;
    forall i, j | 0 <= i < j < |all| ensures all[i] != all[j] {
      if i < |k.queue| <= j {
        assert Queued(k.queue, all[i]);
        assert all[j] == k.current[j - |k.queue|];
      } else if |k.queue| <= i {
        assert all[i] == k.current[i - |k.queue|] && all[j] == k.current[j - |k.queue|];
      }
    }
    DistinctCardinality(all);
    forall t | t in all ensures t in k.timers {
      var i :| 0 <= i < |all| && all[i] == t;
    }
    SubsetIsSmaller(Elements(all), k.timers.Keys);
    assert |k.timers| == |k.timers.Keys|;
  }

  /** With no more timers than the queue is long no command is ever refused. */
  lemma FewTimersNeverHalt(k: Table, atCommands: bool, time: nat)
    requires Sound(k, {}) && |k.timers| <= QUEUE_LENGTH
    ensures !Refuses(k, atCommands, time)
  {
    hide TimersOk, ListsOk, QueueOk, Attended;
    TimersAreEnough(k);
    if forall t :: t in k.current ==> t in k.timers {
      FewerAreAuto(k.current, k.timers);
    }
  }

  /** The lists switched, and then all commands processed. */
  lemma EmptiedAfterSwitch(k0: Table, k1: Table, k2: Table, t: TimerId)
    requires Sound(k0, {}) && Sound(k1, {}) && SwitchedLists(k0, k1) && t in k0.timers && t in k0.current
    requires SameKinds(k0.timers, k1.timers) && SameKinds(k1.timers, k2.timers) && t in k1.marks && t in k2.marks
    requires if Queued(k1.queue, t) then UpToDate(k2.timers[t], k2.marks[t], k2.now) else k2.marks[t] == k1.marks[t]
    ensures t in k2.timers && UpToDate(k2.timers[t], k2.marks[t], k2.now)
  {
    hide ListOf, QueueOf, Queued, Chain, CeilDiv;
    assert Switched(k0.timers[t], k0.marks[t], t in k0.current, Queued(k0.queue, t), k1.marks[t], Queued(k1.queue, t));
    assert Attends(k0.timers[t].autoReload, |k0.marks[t]|, Active(k0, t), t in k0.started);
    assert Attends(k1.timers[t].autoReload, |k1.marks[t]|, Active(k1, t), t in k1.started);
  }

  /** Both together. */
  lemma EmptiedInAll(k0: Table, k1: Table, k2: Table, time: nat)
    requires Sound(k0, {}) && Sound(k1, {}) && Sound(k2, {}) && k2.now == time
    requires SameKinds(k0.timers, k1.timers) && SameKinds(k1.timers, k2.timers)
    requires if time / M == k0.sampled / M then k1 == k0.(sampled := time, now := time) else SwitchedLists(k0, k1)
    requires forall t :: Queued(k0.queue, t) ==> Queued(k1.queue, t)
    requires forall t :: Queued(k1.queue, t) ==> t in k2.timers && t in k2.marks && UpToDate(k2.timers[t], k2.marks[t], k2.now)
    requires forall t :: t in k1.marks && !Queued(k1.queue, t) ==> t in k2.marks && k2.marks[t] == k1.marks[t]
    ensures forall t :: t in k0.timers ==>
      && t in k0.marks && t in k2.timers && t in k2.marks
      && if Queued(k0.queue, t) || (time / M != k0.sampled / M && t in k0.current) then UpToDate(k2.timers[t], k2.marks[t], time)
         else k2.marks[t] == k0.marks[t]
  {
    hide ListOf, QueueOf, Queued, Chain, CeilDiv, UpToDate, ListsOk, QueueOk, Attended, TimerOk;
    forall t | t in k0.timers
      ensures t in k0.marks && t in k2.timers && t in k2.marks
      ensures if Queued(k0.queue, t) || (time / M != k0.sampled / M && t in k0.current) then UpToDate(k2.timers[t], k2.marks[t], time)
              else k2.marks[t] == k0.marks[t]
    {
      if time / M != k0.sampled / M {
        assert Switched(k0.timers[t], k0.marks[t], t in k0.current, Queued(k0.queue, t), k1.marks[t], Queued(k1.queue, t));
        if t in k0.current {
          EmptiedAfterSwitch(k0, k1, k2, t);
        }
      }
    }
  }

  lemma HeadIsQueued(queue: seq<Command>)
    requires queue != []
    ensures Queued(queue, queue[0].timer)
  {
  }

  /** A run among no more timers than the queue is long never halts. */
  lemma RanAmongFew(trace: seq<Moment>, acts: seq<Act>, time: nat)
    requires Ran(trace, acts) && Sound(trace[0].table, {})
    ensures |trace[0].table.timers| <= QUEUE_LENGTH ==> !Refuses(trace[|acts|].table, trace[|acts|].atCommands, time)
  {
    hide Refuses, Follows, Begins, Sound;
    RanFollows(trace, acts);
    var m := trace[|acts|];
    KeysStay(trace[0].table.timers, m.table.timers);
    assert |m.table.timers| == |m.table.timers.Keys| == |trace[0].table.timers.Keys|;
    if acts != [] {
      assert Did(trace[|acts| - 1], acts[|acts| - 1], m);
    }
    if |m.table.timers| <= QUEUE_LENGTH {
      FewTimersNeverHalt(m.table, m.atCommands, time);
    }
  }

  /** While the clock stands and nobody starts a timer, all callbacks are those recorded. */
  lemma StandingFollows(trace: seq<Moment>, n: nat, time: nat)
    requires Ran(trace, Standing(n, time))
    ensures GoesOn(trace[0], trace[n]) && Recorded(trace[0].table.marks, trace[0].callbacks, trace[n].table.marks, trace[n].callbacks)
  {
    hide Did, GoesOn;
    RanFollows(trace, Standing(n, time));
    var m, m' := trace[0], trace[n];
    forall t | t in m.table.marks
      ensures t in m'.table.marks && m.table.marks[t] <= m'.table.marks[t]
      ensures multiset(m'.callbacks)[t] == multiset(m.callbacks)[t] + (|m'.table.marks[t]| - |m.table.marks[t]|)
    {
      assert !Begins(Standing(n, time), t);
      assert Follows(m, m', t);
    }
  }

  function Standing(n: nat, time: nat): (acts: seq<Act>)
    ensures |acts| == n && forall i :: 0 <= i < n ==> acts[i] == Serve(time)
  {
    seq(n, i => Serve(time))
  }

  lemma ListsAreSwitched(k0: Table, k: Table)
    requires Sound(k0, {}) && Sound(k, {}) && k.current == [] && Switching(k0, k, (k0.sampled / M + 1) * M) && k.overflow == k0.overflow
    requires forall t :: t in k.timers ==> t in k0.timers
    ensures SwitchedLists(k0, k.(current := k.overflow, overflow := [], sampled := k.now))
  {
    hide Sound, Switching, Switched;
    forall t | t in k0.timers
      ensures k0.timers[t].period > 0 && t in k0.marks && t in k.marks
      ensures Switched(k0.timers[t], k0.marks[t], t in k0.current, Queued(k0.queue, t), k.marks[t], Queued(k.queue, t))
    {
      SwitchingDone(k0, k, t);
    }
  }

  lemma NobodyIsAuto(timers: Timers)
    ensures AutoIn([], timers) == 0
  {
  }

  // ----- staying in touch

  /** Before the deadline no timer in use has been left alone, and the clock not been looked at, for M ticks. */
  ghost predicate InTouch(k: Table, deadline: nat) {
    && deadline <= k.sampled + M
    && forall t :: t in k.timers && t in k.marks && Active(k, t) ==> deadline <= Last(k.marks[t]) + M
  }

  lemma InTouchIsPrompt(k: Table, deadline: nat, time: nat)
    requires Sound(k, {}) && InTouch(k, deadline) && time < deadline
    ensures Prompt(k, time) && time < k.sampled + M
  {
    hide ListOf, QueueOf, Queued, Chain;
    forall t | t in k.timers && t in k.marks
      ensures Queued(k.queue, t) ==> time < Last(k.marks[t]) + M
      ensures t in k.current ==> time < Last(k.marks[t]) + k.timers[t].period + M
    {
      TimerFacts(k, {}, t);
      assert Active(k, t) <==> Listed(k, t) || Queued(k.queue, t);
    }
  }

  /** What the service does by itself does not bring the deadline nearer. */
  lemma InTouchLater(k: Table, callbacks: seq<TimerId>, k': Table, callbacks': seq<TimerId>, deadline: nat)
    requires Sound(k, {}) && Sound(k', {}) && InTouch(k, deadline) && k.sampled <= k'.sampled
    requires Recorded(k.marks, callbacks, k'.marks, callbacks') && k'.started <= k.started && SameKinds(k.timers, k'.timers)
    ensures InTouch(k', deadline)
  {
    hide ListOf, QueueOf, Active;
    forall t | t in k'.timers && t in k'.marks && Active(k', t) ensures deadline <= Last(k'.marks[t]) + M {
      TimerFacts(k, {}, t);
      TimerFacts(k', {}, t);
      assert Attends(k'.timers[t].autoReload, |k'.marks[t]|, Active(k', t), t in k'.started);
      assert Attends(k.timers[t].autoReload, |k.marks[t]|, Active(k, t), t in k.started);
      assert k.marks[t] <= k'.marks[t];
      if |k.marks[t]| < |k'.marks[t]| {
        LongerChain(k.marks[t], k'.marks[t], k'.timers[t].period);
      } else {
        assert k'.marks[t] == k.marks[t];
      }
    }
  }

  lemma BegunInTouch(k: Table, t: TimerId, time: nat, deadline: nat)
    requires Sound(k, {}) && InTouch(k, deadline) && k.now <= time
    ensures InTouch(Begun(k, t, time), deadline)
  {
    hide Sound, Queued;
    SoundMeans(k, {});
    QueuedAppend(k.queue, Command(t, time % M));
  }

  /** When everybody is on schedule the deadline is M ticks less the longest period away. */
  lemma OnScheduleIsInTouch(k: Table, longest: nat)
    requires Sound(k, {}) && NothingToDo(k) && longest < M
    requires forall t :: t in k.timers ==> k.timers[t].period <= longest
    ensures InTouch(k, k.now + M - longest)
  {
    hide ListOf, QueueOf;
    forall t | t in k.timers && t in k.marks && Active(k, t) ensures k.now + M - longest <= Last(k.marks[t]) + M {
      ListedIsAhead(k, t);
    }
  }

  // ----- catching up

  /** How far, all together, the last expiry times of some timers lie back. */
  function LagOf(ids: seq<TimerId>, marks: Marks, now: nat): nat {
    if ids == [] then 0
    else (if ids[0] in marks && Last(marks[ids[0]]) <= now then now - Last(marks[ids[0]]) else 0) + LagOf(ids[1..], marks, now)
  }

  /** Callbacks bring it down. */
  lemma {:induction false} LagShrinks(ids: seq<TimerId>, timers: Timers, before: Marks, after: Marks, now: nat)
    requires forall t :: t in ids ==> t in timers && t in before && t in after && before[t] <= after[t]
    requires forall t :: t in ids ==> TimerOk(timers[t], before[t], now) && TimerOk(timers[t], after[t], now)
    ensures LagOf(ids, after, now) <= LagOf(ids, before, now)
    ensures (exists t :: t in ids && |before[t]| < |after[t]|) ==> LagOf(ids, after, now) < LagOf(ids, before, now)
  {
    if ids != [] {
      var t := ids[0];
      LagShrinks(ids[1..], timers, before, after, now);
      if |before[t]| < |after[t]| {
        LongerChain(before[t], after[t], timers[t].period);
      } else {
        assert after[t] == before[t];
      }
      assert ids == [t] + ids[1..];
    }
  }

  ghost function AllOf(ids: set<TimerId>): (all: seq<TimerId>)
    ensures forall t :: t in all <==> t in ids
  {
    if ids == {} then [] else var t :| t in ids; [t] + AllOf(ids - {t})
  }

  ghost predicate SomeoneWasCalled(before: Marks, after: Marks) {
    exists t :: t in before && t in after && |before[t]| < |after[t]|
  }

  lemma HeadWasCalled(k: Table, callbacks: seq<TimerId>, after: Marks, callbacks': seq<TimerId>)
    requires Sound(k, {}) && k.current != [] && callbacks' == callbacks + [k.current[0]]
    requires Recorded(k.marks, callbacks, after, callbacks')
    ensures SomeoneWasCalled(k.marks, after)
  {
    var t := k.current[0];
    SoundMeans(k, {});
    assert multiset(callbacks')[t] == multiset(callbacks)[t] + 1;
    hide Sound;
  }

  lemma KeysStay(before: Timers, after: Timers)
    requires SameKinds(before, after)
    ensures after.Keys == before.Keys
  {
  }

  /** Callbacks bring the lag of all timers down, and nothing brings it up while the clock stands. */
  lemma LagGoesDown(k: Table, callbacks: seq<TimerId>, k': Table, callbacks': seq<TimerId>, ids: seq<TimerId>)
    requires Sound(k, {}) && Sound(k', {}) && k.now <= k'.now && SameKinds(k.timers, k'.timers)
    requires Recorded(k.marks, callbacks, k'.marks, callbacks')
    requires forall t :: t in ids <==> t in k.timers
    ensures LagOf(ids, k'.marks, k'.now) <= LagOf(ids, k.marks, k'.now)
    ensures SomeoneWasCalled(k.marks, k'.marks) ==> LagOf(ids, k'.marks, k'.now) < LagOf(ids, k.marks, k'.now)
  {
    hide Sound;
    forall t | t in ids
      ensures t in k.timers && t in k.marks && t in k'.marks && TimerOk(k.timers[t], k.marks[t], k'.now) && TimerOk(k.timers[t], k'.marks[t], k'.now)
    {
      TimerFacts(k, {}, t);
      TimerFacts(k', {}, t);
    }
    SoundMeans(k, {});
    LagShrinks(ids, k.timers, k.marks, k'.marks, k'.now);
  }

  /** Looking at the clock, emptying the queue and going on to the next call count as work, too. */
  function WorkLeft(m: Moment, time: nat): nat {
    (if m.table.sampled == time then 0 else 4)
    + if m.table.queue == [] then if m.atCommands then 1 else 0 else if m.atCommands then 2 else 3
  }

  lemma WorkGoesDown(m: Moment, m': Moment, ids: seq<TimerId>, time: nat)
    requires Sound(m.table, {}) && m.table.now <= time && Did(m, Serve(time), m') && !Blocks(m, time)
    requires forall t :: t in ids <==> t in m.table.timers
    ensures LagOf(ids, m'.table.marks, time) <= LagOf(ids, m.table.marks, time)
    ensures LagOf(ids, m'.table.marks, time) < LagOf(ids, m.table.marks, time) || WorkLeft(m', time) < WorkLeft(m, time)
  {
    hide Sound, Recorded, Refuses, Queued, UpToDate, Switched, SameKinds, SomeoneWasCalled, LagOf;
    LagGoesDown(m.table, m.callbacks, m'.table, m'.callbacks, ids);
    if !m.atCommands && m.table.sampled == time && FirstIsDue(m.table, time) {
      HeadWasCalled(m.table, m.callbacks, m'.table.marks, m'.callbacks);
    }
  }

  // ----- more timers than the queue is long

  function SixNumbers(): (numbers: seq<TimerId>)
    ensures |numbers| == 6 && forall i :: 0 <= i < 6 ==> numbers[i] == i
  {
    [0, 1, 2, 3, 4, 5]
  }

  /** Six timers of a period of 1000 ticks, to expire at the last tick of the first epoch; the clock has just run over. */
  function SixTimers(): Table {
    var items := SixNumbers();
    Table(map t | t in items :: Timer(1000, true, M - 1), items, [], [],
          map t | t in items :: [M - 1001], [], M - 2, M, Elements(items))
  }

  lemma SixTimersAreFiled()
    ensures ListsOk(SixTimers())
  {
    hide SixNumbers;
    var k := SixTimers();
    EmptyIsSorted(k.timers);
    forall t | t in k.current ensures DueIn(k.timers[t], k.marks[t], 0) {
    }
    assert Sorted(Values(k.current, k.timers));
  }

  lemma {:induction false} AllAuto(items: seq<TimerId>, timers: Timers)
    requires forall t :: t in items ==> t in timers && timers[t].autoReload
    ensures AutoCount(items, timers) == |items|
  {
    if items != [] {
      AllAuto(items[1..], timers);
    }
  }

  lemma SixTimersAreSound()
    ensures var k := SixTimers();
      && Sound(k, {}) && k.now / M == k.sampled / M + 1
      && |k.queue| + AutoIn(k.current, k.timers) == 6 > QUEUE_LENGTH
  {
    hide ListsOk, SixNumbers;
    SixTimersAreFiled();
    var k := SixTimers();
    AllAuto(k.current, k.timers);
    assert k.timers.Keys == k.marks.Keys;
    assert |k.timers| == |k.timers.Keys| && |k.marks| == |k.marks.Keys|;
  }
}
