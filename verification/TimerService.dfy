/**
  The timer service task of TCPv3/FreeRTOS/timers.c. The fields are the file's own variables; the
  ghost fields record unbounded time and what the callbacks stand for, see TimerTables.
 */
module TimerService {
  import opened Ticks
  import opened TimerPlacement
  import opened TimerTables
  import Arithmetic

  class Service {
    var timers: Timers
    var currentTimers: seq<TimerId>
    var overflowTimers: seq<TimerId>
    var queue: seq<Command>
    var lastTime: Tick
    var callbacks: seq<TimerId>        // the timers whose callbacks have been called, in order
    var atCommands: bool               // which of the two calls in its loop the task makes next

    ghost var marks: Marks
    ghost var stamps: seq<nat>
    ghost var sampled: nat
    ghost var now: nat
    ghost var started: set<TimerId>

    ghost function View(): Table
      reads `timers, `currentTimers, `overflowTimers, `queue, `marks, `stamps, `sampled, `now, `started
    {
      Table(timers, currentTimers, overflowTimers, queue, marks, stamps, sampled, now, started)
    }

    ghost predicate Valid()
      reads this
    {
      Sound(View(), {}) && lastTime == sampled % M
    }

    lemma LastTimeMeans()
      requires Valid()
      ensures lastTime == sampled % M
    {
      hide Sound;
    }

    lemma FewNeverHalt(time: nat)
      requires Valid()
      ensures |timers| <= QUEUE_LENGTH ==> !Refuses(View(), atCommands, time) && !Refuses(View(), false, time)
    {
      if |timers| <= QUEUE_LENGTH {
        FewTimersNeverHalt(View(), atCommands, time);
        FewTimersNeverHalt(View(), false, time);
      }
      hide Sound, Refuses;
    }

    /** How far the timers in the current list are from the end of the epoch. */
    ghost function DistanceLeft(): nat
      reads `currentTimers, `timers
    {
      if forall t :: t in currentTimers ==> t in timers then Distance(currentTimers, timers) else 0
    }

    /** How many auto-reload timers there are in the current list. */
    ghost function AutoLeft(): nat
      reads `currentTimers, `timers
    {
      AutoIn(currentTimers, timers)
    }

    ghost function Now(): Moment
      reads this
    {
      Moment(View(), callbacks, atCommands)
    }

    // ----- prvInsertTimerInActiveList

    /** vListInsert( pxOverflowTimerList, ... ) */
    method FileInOverflow(t: TimerId)
      requires Sound(View(), {t}) && Free(View(), t) && t in started && (timers[t].autoReload || |marks[t]| == 1)
      requires DueIn(timers[t], marks[t], sampled / M + 1)
      modifies `overflowTimers
      ensures Sound(View(), {})
    {
      hide Sound, Free, Inserted, DueIn;
      SoundMeans(View(), {t});
      FreeMeans(View(), t);
      FileOverflowIsSound(View(), t);
      overflowTimers := Inserted(overflowTimers, timers, t);
    }

    method FileInCurrent(t: TimerId)
      requires Sound(View(), {t}) && Free(View(), t) && t in started && (timers[t].autoReload || |marks[t]| == 1)
      requires DueIn(timers[t], marks[t], sampled / M)
      modifies `currentTimers
      ensures Sound(View(), {})
      ensures forall u :: u in currentTimers <==> u in old(currentTimers) || u == t
      ensures DistanceLeft() == old(DistanceLeft()) + M - timers[t].value
      ensures AutoLeft() == old(AutoLeft()) + if timers[t].autoReload then 1 else 0
    {
      hide Sound, Free, Inserted, DueIn;
      SoundMeans(View(), {t});
      FreeMeans(View(), t);
      InsertionAddsDistance(currentTimers, timers, t);
      InsertionAddsAuto(currentTimers, timers, t);
      FileCurrentIsSound(View(), t);
      InsertedMembers(currentTimers, timers, t);
      currentTimers := Inserted(currentTimers, timers, t);
    }

    /** Files a timer for one period after its last expiry time, or reports that this moment has passed. */
    method InsertTimerInActiveList(t: TimerId, nextExpiry: Tick, timeNow: Tick, commandTime: Tick) returns (processNow: bool)
      requires Sound(View(), {t}) && Free(View(), t) && t in started && (timers[t].autoReload || |marks[t]| == 1)
      requires sampled == now < Last(marks[t]) + M && timeNow == lastTime == now % M
      requires commandTime == Wrap(Last(marks[t])) && nextExpiry == Wrap(Last(marks[t]) + timers[t].period)
      modifies `timers, `currentTimers, `overflowTimers
      ensures t in timers && timers == old(timers)[t := old(timers[t]).(value := nextExpiry)]
      ensures processNow <==> Last(marks[t]) + timers[t].period <= now
      ensures if processNow then Sound(View(), {t}) && Free(View(), t) else Sound(View(), {})
    {
      hide Sound, Free;
      FreeMeans(View(), t);
      TimerFacts(View(), {t}, t);
      var period := timers[t].period;
      PlacementIsExact(Last(marks[t]), now, period);
      Retime(t, nextExpiry);
      processNow := false;
      if nextExpiry <= timeNow {
        if Wrap(timeNow - commandTime) >= period {
          processNow := true;
        } else {
          FileInOverflow(t);
        }
      } else if timeNow < commandTime && nextExpiry >= commandTime {
        processNow := true;
      } else {
        FileInCurrent(t);
      }
    }

    // ----- pieces

    /** listSET_LIST_ITEM_VALUE, for a timer that is in no list */
    method Retime(t: TimerId, value: Tick)
      requires Sound(View(), {t}) && Free(View(), t)
      modifies `timers
      ensures Sound(View(), {t}) && Free(View(), t)
      ensures timers == old(timers)[t := old(timers[t]).(value := value)] && DistanceLeft() == old(DistanceLeft())
      ensures AutoLeft() == old(AutoLeft())
    {
      hide Sound, Free;
      SoundMeans(View(), {t});
      FreeMeans(View(), t);
      RetimeIsSound(View(), t, value);
      DistanceStays(currentTimers, timers, t, timers[t].(value := value));
      AutoStays(currentTimers, timers, t, timers[t].(value := value));
      timers := timers[t := timers[t].(value := value)];
    }

    /** xTimerGenericCommand( tmrCOMMAND_START ) without waiting */
    method SendStart(t: TimerId, time: Tick) returns (ok: bool)
      requires Sound(View(), {t}) && Free(View(), t) && t in started && (timers[t].autoReload || |marks[t]| == 1)
      requires time == Last(marks[t]) % M
      modifies `queue, `stamps
      ensures ok <==> |old(queue)| < QUEUE_LENGTH
      ensures if ok then Sound(View(), {}) && queue == old(queue) + [Command(t, time)] && stamps == old(stamps) + [Last(marks[t])]
              else View() == old(View())
    {
      hide Sound, Free;
      FreeMeans(View(), t);
      ok := |queue| < QUEUE_LENGTH;
      if ok {
        SendIsSound(View(), t);
        queue := queue + [Command(t, time)];
        stamps := stamps + [Last(marks[t])];
      }
    }

    /** The record that a callback, now due, stands for the next expiry time of a timer. */
    ghost method Mark(t: TimerId)
      requires Sound(View(), {t}) && Free(View(), t) && Last(marks[t]) + timers[t].period <= now
      modifies `marks
      ensures Sound(View(), {t}) && Free(View(), t)
      ensures timers[t].period > 0 && marks == old(marks)[t := MarkNext(old(marks[t]), timers[t].period)]
    {
      hide Sound, Free, MarkNext;
      FreeMeans(View(), t);
      MarkIsSound(View(), t);
      marks := marks[t := MarkNext(marks[t], timers[t].period)];
    }

    /** Takes the first timer off the current list. */
    method TakeHead() returns (t: TimerId)
      requires Sound(View(), {}) && currentTimers != []
      modifies `currentTimers
      ensures t == old(currentTimers[0]) && currentTimers == old(currentTimers)[1..]
      ensures Sound(View(), {t}) && Free(View(), t) && t in started && (timers[t].autoReload || |marks[t]| == 1)
      ensures t in timers && t in marks && DueIn(timers[t], marks[t], sampled / M) && TimerOk(timers[t], marks[t], now)
      ensures t !in currentTimers && forall u :: u in old(currentTimers) <==> u == t || u in currentTimers
      ensures DistanceLeft() == old(DistanceLeft()) - (M - timers[t].value)
      ensures AutoLeft() == old(AutoLeft()) - if timers[t].autoReload then 1 else 0
    {
      hide Sound, Free, DueIn, TimerOk;
      SoundMeans(View(), {});
      TakeHeadIsSound(View());
      HeadIsGone(View());
      t := currentTimers[0];
      currentTimers := currentTimers[1..];
      FreeMeans(View(), t);
      TimerFacts(View(), {t}, t);
    }

    // ----- prvProcessExpiredTimer

    /** Files an auto-reload timer again after its callback time, or sends a command for it, which has to be accepted. */
    method Reload(t: TimerId, expired: Tick, timeNow: Tick) returns (halted: bool)
      requires Sound(View(), {t}) && Free(View(), t) && t in started && timers[t].autoReload && 0 < timers[t].period < M
      requires sampled == now < Last(marks[t]) + M && timeNow == lastTime == now % M && expired == Wrap(Last(marks[t]))
      modifies `timers, `currentTimers, `overflowTimers, `queue, `stamps
      ensures t in timers && timers[t].period == old(timers[t].period) && timers[t].autoReload
      ensures SameKinds(old(timers), timers)
      ensures halted <==> Last(marks[t]) + timers[t].period <= now && |old(queue)| == QUEUE_LENGTH
      ensures if halted then Free(View(), t) else Sound(View(), {})
      ensures queue == if Last(marks[t]) + timers[t].period <= now && !halted then old(queue) + [Command(t, expired)] else old(queue)
    {
      hide Sound, Free;
      FreeMeans(View(), t);
      SoundMeans(View(), {t});
      WrappedSum(Last(marks[t]), timers[t].period);
      halted := false;
      var processNow := InsertTimerInActiveList(t, Wrap(expired + timers[t].period), timeNow, expired);
      if processNow {
        var result := SendStart(t, expired);
        halted := !result;
      }
    }

    /**
      The first timer is called, for its expiry time. If it is late, that is, due again already, it gets a
      command first; and if the queue is full then, the assertion halts the machine in front of the callback.
     */
    method ProcessExpiredTimer(nextExpireTime: Tick, timeNow: Tick) returns (halted: bool)
      requires Valid() && sampled == now && timeNow == lastTime
      requires currentTimers != [] && currentTimers[0] in timers && nextExpireTime == timers[currentTimers[0]].value <= timeNow
      modifies `timers, `currentTimers, `overflowTimers, `queue, `stamps, `callbacks, `marks
      ensures halted <==> old(FirstIsLate(View(), now)) && |old(queue)| == QUEUE_LENGTH
      ensures halted ==> callbacks == old(callbacks) && marks == old(marks) && queue == old(queue) && Free(View(), old(currentTimers[0]))
      ensures !halted ==> Valid() && callbacks == old(callbacks) + [old(currentTimers[0])]
      ensures !halted ==>
        queue == if old(FirstIsLate(View(), now)) then old(queue) + [Command(old(currentTimers[0]), nextExpireTime)] else old(queue)
      ensures Recorded(old(marks), old(callbacks), marks, callbacks)
      ensures SameKinds(old(timers), timers)
    {
      hide Sound, Free, Recorded, SameKinds;
      LastTimeMeans();
      var t := TakeHead();
      var period := timers[t].period;
      ExpiredMeans(timers[t], marks[t], now);
      NothingRecorded(marks, callbacks);
      SameKindsAt(timers, t, timers[t]);
      RecordedOneMore(marks, callbacks, marks, callbacks, t, Last(marks[t]) + period);
      ghost var before := marks;
      Mark(t);
      MarkedLast(before[t], period);
      halted := false;
      if timers[t].autoReload {
        halted := Reload(t, nextExpireTime, timeNow);
        if halted {
          StillFree(View(), t, before);
          marks := before;
          return;
        }
      } else {
        RetireIsSound(View(), t);
      }
      callbacks := callbacks + [t];
    }

    // ----- prvSwitchTimerLists

    /** A timer called in the switch of the lists is due again in the same epoch, or gets a command for the next one. */
    method GoOn(t: TimerId, expired: Tick) returns (halted: bool)
      requires Sound(View(), {t}) && Free(View(), t) && t in started && timers[t].autoReload
      requires expired == Last(marks[t]) % M && Last(marks[t]) / M == sampled / M && 0 < timers[t].period < M
      modifies `timers, `currentTimers, `queue, `stamps
      ensures if halted then Free(View(), t) else Sound(View(), {})
      ensures t in timers && timers == old(timers)[t := timers[t]]
      ensures timers[t].period == old(timers[t].period) && timers[t].autoReload
      ensures DistanceLeft() < old(DistanceLeft()) + M - expired
      ensures halted <==> (Last(marks[t]) + timers[t].period) / M != sampled / M && |old(queue)| == QUEUE_LENGTH
      ensures if (Last(marks[t]) + timers[t].period) / M == sampled / M then
                && (forall u :: u in currentTimers <==> u in old(currentTimers) || u == t) && queue == old(queue)
                && AutoLeft() == old(AutoLeft()) + 1
              else
                && currentTimers == old(currentTimers) && AutoLeft() == old(AutoLeft())
                && queue == if halted then old(queue) else old(queue) + [Command(t, expired)]
    {
      hide Sound, Free;
      FreeMeans(View(), t);
      SoundMeans(View(), {t});
      halted := false;
      var reloadTime := Wrap(expired + timers[t].period);
      WrappedSum(Last(marks[t]), timers[t].period);
      Sum(Last(marks[t]), timers[t].period);
      if reloadTime > expired {
        Retime(t, reloadTime);
        FileInCurrent(t);
      } else {
        var result := SendStart(t, expired);
        halted := !result;
      }
    }

    /** One round of the loop: a timer of the epoch that has ended is called, and sent on unless the queue is full. */
    method CatchUpHead() returns (halted: bool, ghost t: TimerId)
      requires Sound(View(), {}) && currentTimers != [] && now >= (sampled / M + 1) * M
      modifies `timers, `currentTimers, `queue, `stamps, `callbacks, `marks
      ensures if halted then Free(View(), t) else Sound(View(), {}) && DistanceLeft() < old(DistanceLeft())
      ensures t == old(currentTimers[0]) && callbacks == old(callbacks) + [t]
      ensures t in old(timers) && t in old(marks) && t in timers && timers == old(timers)[t := timers[t]] && old(timers[t].period) > 0
      ensures timers[t].period == old(timers[t].period) && timers[t].autoReload == old(timers[t].autoReload)
      ensures marks == old(marks)[t := MarkNext(old(marks[t]), old(timers[t].period))]
      ensures forall u :: u in old(currentTimers) <==> u == t || u in currentTimers
      ensures forall u :: Queued(old(queue), u) ==> Queued(queue, u)
      ensures forall u :: Queued(queue, u) ==> u == t || Queued(old(queue), u)
      ensures if !timers[t].autoReload then t !in currentTimers
              else t in currentTimers || Last(marks[t]) < (sampled / M + 1) * M <= Last(marks[t]) + timers[t].period
      ensures !halted && t !in currentTimers && timers[t].autoReload ==> Queued(queue, t)
      ensures |old(queue)| <= |queue| <= QUEUE_LENGTH
      ensures halted <==> timers[t].autoReload && (sampled / M + 1) * M <= Last(marks[t]) + timers[t].period && |old(queue)| == QUEUE_LENGTH
      ensures if halted then queue == old(queue) && t in started && old(AutoLeft()) > 0
              else |queue| + AutoLeft() == old(|queue| + AutoLeft())
    {
      hide Sound, Free, Queued;
      SoundMeans(View(), {});
      var nextExpireTime := timers[currentTimers[0]].value;
      var head := TakeHead();
      t := head;
      halted := false;
      var period := timers[head].period;
      Mark(head);
      callbacks := callbacks + [head];
      if timers[head].autoReload {
        BeyondTheEpoch(Last(marks[head]), period, sampled / M);
        QueuedAppend(queue, Command(head, nextExpireTime));
        halted := GoOn(head, nextExpireTime);
      } else {
        RetireIsSound(View(), head);
      }
    }

    /**
      Each timer still in the current list is called at all its expiry times before the clock ran over:
      an auto-reload timer ceil((M - value) / period) times, with one command for the next time, a
      one-shot timer once. That needs room in the queue for all these commands beside those that are
      there already; otherwise an assertion halts the machine after the callback of the first timer that
      finds the queue full.
     */
    method SwitchTimerLists() returns (halted: bool, ghost times: seq<nat>)
      requires Sound(View(), {}) && now / M == sampled / M + 1
      modifies `timers, `currentTimers, `overflowTimers, `queue, `stamps, `callbacks, `marks, `sampled
      ensures halted <==> |old(queue)| + old(AutoLeft()) > QUEUE_LENGTH
      ensures halted ==> |queue| == QUEUE_LENGTH && overflowTimers == old(overflowTimers) && sampled == old(sampled)
      ensures halted ==> callbacks != [] && var t := callbacks[|callbacks| - 1]; t in started && t in old(currentTimers) && Free(View(), t)
      ensures Recorded(old(marks), old(callbacks), marks, callbacks)
      ensures InExpiryOrder(old(marks), old(callbacks), marks, callbacks, times)
      ensures !halted ==> Sound(View(), {}) && sampled == now && SwitchedLists(old(View()), View())
      ensures !halted ==> SameKinds(old(timers), timers)
      ensures !halted && Prompt(old(View()), now) ==> AllYoung(stamps, now)
      ensures forall t :: Queued(old(queue), t) ==> Queued(queue, t)
    {
      hide Sound, Recorded, Switching, Free, Prompt, AllYoung, Switched, SameKinds, Queued, InExpiryOrder, NobodyEarlier, AutoIn,
           SwitchedLists;
      ghost var before, demand := View(), |queue| + AutoLeft();
      SoundMeans(before, {});
      ghost var end := (sampled / M + 1) * M;
      SwitchingStarts(before, end);
      NothingRecorded(marks, callbacks);
      NothingCalledYet(before, callbacks);
      times := [];
      while currentTimers != []
        invariant Sound(View(), {}) && Switching(before, View(), end)
        invariant Recorded(before.marks, old(callbacks), marks, callbacks)
        invariant forall t :: t in timers ==> t in before.timers
        invariant forall t :: t in currentTimers ==> t in before.current
        invariant forall t :: Queued(before.queue, t) ==> Queued(queue, t)
        invariant sampled == before.sampled && overflowTimers == before.overflow
        invariant |queue| <= QUEUE_LENGTH && |queue| + AutoLeft() == demand
        invariant InExpiryOrder(before.marks, old(callbacks), marks, callbacks, times) && NobodyEarlier(View(), times)
        decreases DistanceLeft()
      {
        ghost var k, c, t := View(), callbacks, currentTimers[0];
        LastIsNotLater(k, times);
        halted, t := CatchUpHead();
        CalledNext(before.marks, old(callbacks), k, c, times, t, Last(k.marks[t]) + k.timers[t].period);
        times := times + [Last(k.marks[t]) + k.timers[t].period];
        RecordedOneMore(before.marks, old(callbacks), k.marks, c, t, Last(k.marks[t]) + k.timers[t].period);
        if halted {
          return;
        }
        NobodyEarlierStill(k, View(), times[..|times| - 1], t);
        SwitchingGoesOn(before, k, View(), t, end);
      }
      halted := false;
      ghost var k := View();
      AllSwitched(before, k, old(callbacks), callbacks);
      ListsAreSwitched(before, k);
      NobodyIsAuto(timers);
      SwitchIsSound(k);
      currentTimers, overflowTimers := overflowTimers, currentTimers;
      sampled := now;
    }

    // ----- prvSampleTimeNow

    method SampleTimeNow(tickCount: Tick, ghost time: nat) returns (halted: bool, timeNow: Tick, listsWereSwitched: bool)
      requires Valid() && now <= time < sampled + M && tickCount == time % M
      modifies `timers, `currentTimers, `overflowTimers, `queue, `stamps, `callbacks, `marks, `sampled, `now, `lastTime
      ensures listsWereSwitched <==> time / M == old(sampled) / M + 1
      ensures !listsWereSwitched <==> time / M == old(sampled) / M
      ensures halted <==> listsWereSwitched && |old(queue)| + old(AutoLeft()) > QUEUE_LENGTH
      ensures !halted ==> Valid() && timeNow == lastTime && sampled == now == time
      ensures Recorded(old(marks), old(callbacks), marks, callbacks)
      ensures !halted ==> SameKinds(old(timers), timers)
      ensures !halted && Prompt(old(View()), time) ==> AllYoung(stamps, now)
      ensures forall t :: Queued(old(queue), t) ==> Queued(queue, t)
      ensures if listsWereSwitched then !halted ==> SwitchedLists(old(View()), View())
              else View() == old(View()).(sampled := time, now := time) && callbacks == old(callbacks)
    {
      hide Sound, Recorded, Prompt, Switched;
      SoundMeans(View(), {});
      SampledAgain(sampled, time);
      PromptLater(View(), time, time);
      timeNow, halted := tickCount, false;
      NothingRecorded(marks, callbacks);
      WaitIsSound(View(), time);
      now := time;
      ghost var before := View();
      listsWereSwitched := timeNow < lastTime;
      if listsWereSwitched {
        ghost var order;
        halted, order := SwitchTimerLists();
        if halted {
          return;
        }
      } else {
        LookIsSound(View());
        sampled := time;
        if Prompt(before, time) {
          PromptMeansYoung(before);
        }
      }
      lastTime := timeNow;
    }

    // ----- prvProcessReceivedCommands

    /** The timer of a command expired before it was filed: it is called, and a command for the time after is sent. */
    method CallLate(t: TimerId, expired: Tick)
      requires Sound(View(), {t}) && Free(View(), t) && t in started && (timers[t].autoReload || |marks[t]| == 1)
      requires Last(marks[t]) + timers[t].period <= now < Last(marks[t]) + M && 0 < timers[t].period
      requires expired == (Last(marks[t]) + timers[t].period) % M && AllYoung(stamps, now) && |queue| < QUEUE_LENGTH
      modifies `queue, `stamps, `callbacks, `marks
      ensures Sound(View(), {}) && AllYoung(stamps, now)
      ensures BacklogOf(stamps, now) <= old(BacklogOf(stamps, now)) + now + 1 - (old(Last(marks[t])) + timers[t].period)
      ensures callbacks == old(callbacks) + [t] && marks == old(marks)[t := MarkNext(old(marks[t]), timers[t].period)]
      ensures queue == if timers[t].autoReload then old(queue) + [Command(t, expired)] else old(queue)
    {
      hide Sound, Free, BacklogOf, MarkNext, AllYoung;
      FreeMeans(View(), t);
      callbacks := callbacks + [t];
      MarkedLast(marks[t], timers[t].period);
      Mark(t);
      if timers[t].autoReload {
        YoungerMore(stamps, Last(marks[t]), now);
        var result := SendStart(t, expired);
        assert result;
      } else {
        RetireIsSound(View(), t);
      }
    }

    /** One tmrCOMMAND_START: its timer is in no list, so nothing is to be removed. */
    method ProcessCommand(timeNow: Tick)
      requires Valid() && sampled == now && timeNow == lastTime && queue != [] && AllYoung(stamps, now)
      modifies `timers, `currentTimers, `overflowTimers, `queue, `stamps, `callbacks, `marks
      ensures Valid() && AllYoung(stamps, now) && BacklogOf(stamps, now) < old(BacklogOf(stamps, now))
      ensures Recorded(old(marks), old(callbacks), marks, callbacks)
      ensures SameKinds(old(timers), timers)
      ensures var t := old(queue[0].timer);
        && t in old(timers) && t in old(marks) && t in timers && t in marks
        && timers == old(timers)[t := timers[t]] && marks == old(marks)[t := marks[t]]
        && (forall u :: u != t ==> (Queued(queue, u) <==> old(Queued(queue, u))))
        && (!Queued(queue, t) ==> UpToDate(timers[t], marks[t], now))
    {
      hide Sound, Free, Recorded, BacklogOf, Queued, SameKinds;
      SoundMeans(View(), {});
      TakeCommandIsSound(View());
      HeadCommandIsGone(View());
      YoungerRest(stamps, now);
      var message := queue[0];
      ghost var stamp := stamps[0];
      var t := message.timer;
      queue, stamps := queue[1..], stamps[1..];
      FreeMeans(View(), t);
      TimerFacts(View(), {t}, t);
      NothingRecorded(marks, callbacks);
      RecordedOneMore(marks, callbacks, marks, callbacks, t, Last(marks[t]) + timers[t].period);
      WrappedSum(stamp, timers[t].period);
      var nextExpiry := Wrap(message.time + timers[t].period);
      SameKindsAt(timers, t, timers[t].(value := nextExpiry));
      var processNow := InsertTimerInActiveList(t, nextExpiry, timeNow, message.time);
      if processNow {
        QueuedAppend(queue, Command(t, nextExpiry));
        CallLate(t, nextExpiry);
      }
    }

    /** The loop over the command queue, with the time that was sampled in front of it. */
    method DrainCommands(timeNow: Tick)
      requires Valid() && sampled == now && timeNow == lastTime && AllYoung(stamps, now)
      modifies `timers, `currentTimers, `overflowTimers, `queue, `stamps, `callbacks, `marks
      ensures Valid() && queue == [] && Recorded(old(marks), old(callbacks), marks, callbacks)
      ensures SameKinds(old(timers), timers)
      ensures forall t :: Queued(old(queue), t) ==> t in timers && t in marks && UpToDate(timers[t], marks[t], now)
      ensures forall t :: t in old(marks) && !Queued(old(queue), t) ==> t in marks && marks[t] == old(marks[t])
    {
      hide Sound, Recorded, BacklogOf, AllYoung, UpToDate, Handled, Queued;
      ghost var before := View();
      NothingRecorded(marks, callbacks);
      NothingHandled(View());
      while queue != []
        invariant SameKinds(old(timers), timers)
        invariant Valid() && AllYoung(stamps, now)
        invariant Recorded(old(marks), old(callbacks), marks, callbacks) && Handled(before, View())
        decreases BacklogOf(stamps, now)
      {
        ghost var k, c := View(), callbacks;
        HeadIsQueued(queue);
        ProcessCommand(timeNow);
        RecordedFurther(old(marks), old(callbacks), k.marks, c, marks, callbacks);
        HandledOneMore(before, k, View(), k.queue[0].timer);
      }
      forall t
        ensures Queued(before.queue, t) ==> t in timers && t in marks && UpToDate(timers[t], marks[t], now)
        ensures !Queued(before.queue, t) && t in before.marks ==> t in marks && marks[t] == before.marks[t]
      {
        AllHandled(before, View(), t);
      }
    }

    /**
      Unless the switch of the lists halts, the queue is empty afterwards. Who had a command, or was in the list
      that was switched, has been called for all that has expired, and nobody else has been called.
     */
    method ProcessReceivedCommands(tickCount: Tick, ghost time: nat) returns (halted: bool)
      requires Valid() && now <= time < sampled + M && tickCount == time % M && Prompt(View(), time)
      modifies `timers, `currentTimers, `overflowTimers, `queue, `stamps, `callbacks, `marks, `sampled, `now, `lastTime
      ensures halted <==> old(Refuses(View(), true, time))
      ensures !halted ==> Valid() && Emptied(old(Now()), time, Now())
    {
      hide Sound, Recorded, Prompt, AllYoung, UpToDate, Queued, Switched, SameKinds, AutoIn;
      ghost var k0, c0 := View(), callbacks;
      SoundMeans(k0, {});
      SampledAgain(sampled, time);
      var timeNow, listsWereSwitched;
      halted, timeNow, listsWereSwitched := SampleTimeNow(tickCount, time);
      if halted {
        return;
      }
      ghost var k1, c1 := View(), callbacks;
      DrainCommands(timeNow);
      RecordedFurther(k0.marks, c0, k1.marks, c1, marks, callbacks);
      SameKindsFurther(k0.timers, k1.timers, timers);
      EmptiedInAll(k0, k1, View(), time);
    }

    // ----- prvProcessTimerOrBlockTask

    /** prvGetNextExpireTime */
    method GetNextExpireTime() returns (nextExpireTime: Tick, listWasEmpty: bool)
      requires Valid()
      ensures listWasEmpty <==> currentTimers == []
      ensures listWasEmpty ==> nextExpireTime == 0
      ensures !listWasEmpty ==> currentTimers[0] in timers && nextExpireTime == timers[currentTimers[0]].value
    {
      hide Sound;
      SoundMeans(View(), {});
      listWasEmpty := currentTimers == [];
      nextExpireTime := if listWasEmpty then 0 else timers[currentTimers[0]].value;
    }

    /**
      Calls the first timer if its time has come, unless the lists were just switched; otherwise the service
      waits. It then blocks, as vQueueWaitForMessageRestricted says, if there is no command; and when it
      does, every timer is on schedule, and nothing is due before the wait is over.
     */
    method ProcessTimerOrBlockTask(tickCount: Tick, ghost time: nat) returns (outcome: Outcome)
      requires Valid() && now <= time < sampled + M && tickCount == time % M
      modifies `timers, `currentTimers, `overflowTimers, `queue, `stamps, `callbacks, `marks, `sampled, `now, `lastTime
      ensures outcome.Halted? <==> old(Refuses(View(), false, time))
      ensures !outcome.Halted? ==> Valid() && Checked(old(Now()), time, Now())
      ensures outcome.Blocked? <==> old(IsIdle(View(), time))
      ensures outcome.Blocked? ==> AllOnSchedule(outcome.wait) && (outcome.wait > 0 || tickCount == 0)
    {
      hide Sound, Recorded, NothingToDo, OnSchedule, WaitsForNext, SwitchedLists, SameKinds, AutoIn;
      ghost var k0 := View();
      SoundMeans(k0, {});
      var nextExpireTime, listWasEmpty := GetNextExpireTime();
      var halted, timeNow, listsWereSwitched := SampleTimeNow(tickCount, time);
      if halted {
        return Halted;
      }
      outcome := Running;
      if !listsWereSwitched {
        if !listWasEmpty && nextExpireTime <= timeNow {
          halted := ProcessExpiredTimer(nextExpireTime, timeNow);
          if halted {
            return Halted;
          }
        } else if queue == [] {
          outcome := Blocked(Wrap(nextExpireTime as int - timeNow));
          LastTimeMeans();
          Idling(outcome.wait);
        }
      }
    }

    ghost predicate AllOnSchedule(wait: Tick)
      reads this
    {
      && NothingToDo(View()) && WaitsForNext(View(), wait)
      && (forall t :: t in timers && t in started ==> t in marks && OnSchedule(timers[t], marks[t], now))
      && (forall t :: Listed(View(), t) ==> t in timers && t in marks && now + wait <= Last(marks[t]) + timers[t].period)
    }

    lemma Idling(wait: Tick)
      requires Valid() && sampled == now && queue == [] && forall t :: t in currentTimers ==> t in timers
      requires currentTimers != [] ==> timers[currentTimers[0]].value > lastTime
      requires wait == Wrap((if currentTimers == [] then 0 else timers[currentTimers[0]].value) - lastTime)
      ensures AllOnSchedule(wait) && (wait > 0 || lastTime == 0)
    {
      hide Sound, OnSchedule, WaitsForNext;
      forall t | t in timers && t in started ensures t in marks && OnSchedule(timers[t], marks[t], now) {
        EverybodyIsOnSchedule(View(), t);
      }
      forall t | Listed(View(), t) ensures t in timers && t in marks && now + wait <= Last(marks[t]) + timers[t].period {
        WaitIsShortEnough(View(), t, wait);
      }
      WaitMeans(View(), wait);
      WaitIsExact(View(), wait);
    }

    // ----- prvTimerTask

    /** The next of the two calls in the loop, at a reading of the clock before the deadline. */
    method Serve(tickCount: Tick, ghost time: nat, ghost deadline: nat) returns (outcome: Outcome)
      requires Valid() && InTouch(View(), deadline) && now <= time < deadline && tickCount == time % M
      modifies `timers, `currentTimers, `overflowTimers, `queue, `stamps, `callbacks, `marks, `sampled, `now, `lastTime, `atCommands
      ensures outcome.Halted? <==> old(Refuses(View(), atCommands, time))
      ensures !outcome.Halted? ==> Valid() && InTouch(View(), deadline) && Did(old(Now()), Act.Serve(time), Now())
      ensures outcome.Blocked? <==> old(Blocks(Now(), time))
      ensures outcome.Blocked? ==> AllOnSchedule(outcome.wait) && (outcome.wait > 0 || tickCount == 0)
    {
      hide Sound, Recorded, InTouch, Prompt, SameKinds, OnSchedule, NothingToDo, WaitsForNext, Refuses, FirstIsDue, FirstIsLate,
           SwitchedLists, UpToDate, Queued;
      ghost var m := Now();
      InTouchIsPrompt(View(), deadline, time);
      if atCommands {
        var halted := ProcessReceivedCommands(tickCount, time);
        outcome := if halted then Halted else Running;
      } else {
        outcome := ProcessTimerOrBlockTask(tickCount, time);
      }
      if outcome.Halted? {
        return;
      }
      atCommands := !atCommands;
      SampledLater(m.table, View());
      InTouchLater(m.table, m.callbacks, View(), callbacks, deadline);
    }

    /**
      The loop of prvTimerTask, between starts by users, until it blocks. The acts follow each other in the
      trace. An assertion halts the machine exactly where a command is refused, and never with as many timers
      as the queue is long or fewer. When the loop blocks, every timer that was ever started is on schedule.
     */
    method RunUntilBlocked(acts: seq<Act>, ghost deadline: nat) returns (n: nat, outcome: Outcome, ghost trace: seq<Moment>)
      requires Valid() && InTouch(View(), deadline)
      requires forall i :: 0 <= i < |acts| ==> now <= acts[i].time < deadline
      requires forall i, j :: 0 <= i < j < |acts| ==> acts[i].time <= acts[j].time
      modifies this
      ensures n <= |acts| && Ran(trace, acts[..n]) && trace[0] == old(Now())
      ensures forall i :: 0 <= i < n && acts[i].Serve? && !(outcome.Blocked? && i == n - 1) ==> !Blocks(trace[i], acts[i].time)
      ensures outcome.Running? ==> n == |acts|
      ensures outcome.Blocked? ==> n > 0 && acts[n - 1].Serve? && Blocks(trace[n - 1], acts[n - 1].time)
      ensures outcome.Blocked? ==> AllOnSchedule(outcome.wait) && (outcome.wait > 0 || now % M == 0)
      ensures outcome.Halted? ==> n < |acts| && acts[n].Serve? && Refuses(trace[n].table, trace[n].atCommands, acts[n].time)
      ensures |old(timers)| <= QUEUE_LENGTH ==> !outcome.Halted?
      ensures !outcome.Halted? ==> Valid() && InTouch(View(), deadline) && trace[n] == Now()
      ensures GoesOn(trace[0], trace[n]) && forall t :: !Begins(acts[..n], t) ==> Follows(trace[0], trace[n], t)
    {
      hide Sound, InTouch, Did, OnSchedule, NothingToDo, WaitsForNext, Refuses, Blocks, Follows, GoesOn, Begins;
      n, outcome, trace := 0, Running, [Now()];
      while n < |acts| && outcome.Running?
        invariant n <= |acts| && !outcome.Halted? && Ran(trace, acts[..n]) && trace[0] == old(Now()) && trace[n] == Now()
        invariant Valid() && InTouch(View(), deadline)
        invariant forall i :: n <= i < |acts| ==> now <= acts[i].time
        invariant forall i :: 0 <= i < n && acts[i].Serve? && !(outcome.Blocked? && i == n - 1) ==> !Blocks(trace[i], acts[i].time)
        invariant outcome.Blocked? ==> n > 0 && acts[n - 1].Serve? && Blocks(trace[n - 1], acts[n - 1].time)
        invariant outcome.Blocked? ==> AllOnSchedule(outcome.wait) && (outcome.wait > 0 || now % M == 0)
        decreases |acts| - n, outcome.Running?
      {
        ghost var m := Now();
        match acts[n] {
          case Serve(time) =>
            outcome := Serve(Wrap(time), time, deadline);
            if outcome.Halted? {
              RanFollows(trace, acts[..n]);
              RanAmongFew(trace, acts[..n], acts[n].time);
              return;
            }
          case Begin(t, time) =>
            StartInactive(t, time, deadline);
        }
        DidAtTheTime(m, acts[n], Now());
        RanOneMore(trace, acts[..n], acts[n], Now());
        assert acts[..n + 1] == acts[..n] + [acts[n]];
        n, trace := n + 1, trace + [Now()];
      }
      RanFollows(trace, acts[..n]);
    }

    /** A user starts a timer, if it is not active. */
    method StartInactive(t: TimerId, time: nat, ghost deadline: nat)
      requires Valid() && now <= time && InTouch(View(), deadline)
      modifies `queue, `stamps, `marks, `now, `started
      ensures Valid() && InTouch(View(), deadline) && Did(old(Now()), Act.Begin(t, time), Now())
    {
      hide Sound, InTouch;
      ghost var k := View();
      SoundMeans(k, {});
      WaitIsSound(k, time);
      BegunInTouch(k, t, time, deadline);
      if t in timers && t !in currentTimers && t !in overflowTimers && forall i :: 0 <= i < |queue| ==> queue[i].timer != t {
        var ok := Start(t, time);
      } else {
        now := time;
      }
    }

    /**
      However late the service is, if the clock does not move on meanwhile its loop comes to block, and then
      every timer is on schedule; or an assertion halts the machine, which takes more timers than the queue is long.
     */
    method CatchUp(tickCount: Tick, ghost time: nat, ghost deadline: nat) returns (outcome: Outcome, ghost trace: seq<Moment>)
      requires Valid() && InTouch(View(), deadline) && now <= time < deadline && tickCount == time % M
      modifies this
      ensures trace != [] && Ran(trace, Standing(|trace| - 1, time)) && trace[0] == old(Now())
      ensures if outcome.Halted? then var m := trace[|trace| - 1]; Refuses(m.table, m.atCommands, time)
              else outcome.Blocked? && Valid() && trace[|trace| - 1] == Now() && now == time
      ensures outcome.Blocked? ==> AllOnSchedule(outcome.wait) && (outcome.wait > 0 || tickCount == 0)
      ensures |old(timers)| <= QUEUE_LENGTH ==> outcome.Blocked?
      ensures !outcome.Halted? ==> SameKinds(old(timers), timers) && Recorded(old(marks), old(callbacks), marks, callbacks)
      ensures started == old(started)
    {
      hide Sound, InTouch, Did, OnSchedule, NothingToDo, WaitsForNext, Refuses, Blocks, Follows, Begins, Ran, Recorded,
           SameKinds, LagOf, WorkLeft;
      RanNothing(Now());
      ghost var ids := AllOf(timers.Keys);
      outcome, trace := Running, [Now()];
      ghost var n := 0;
      while outcome.Running?
        invariant !outcome.Halted? && |trace| == n + 1 && Ran(trace, Standing(n, time)) && trace[0] == old(Now()) && trace[n] == Now()
        invariant Valid() && InTouch(View(), deadline) && now <= time && started == old(started) && timers.Keys == old(timers.Keys)
        invariant outcome.Blocked? ==> now == time && AllOnSchedule(outcome.wait) && (outcome.wait > 0 || tickCount == 0)
        decreases outcome.Running?, LagOf(ids, marks, time), WorkLeft(Now(), time)
      {
        ghost var m := Now();
        outcome := Serve(tickCount, time, deadline);
        if outcome.Halted? {
          RanAmongFew(trace, Standing(n, time), time);
          return;
        }
        if outcome.Running? {
          WorkGoesDown(m, Now(), ids, time);
        }
        DidAtTheTime(m, Act.Serve(time), Now());
        DidGoesOn(m, Act.Serve(time), Now());
        KeysStay(m.table.timers, timers);
        RanOneMore(trace, Standing(n, time), Act.Serve(time), Now());
        assert Standing(n + 1, time) == Standing(n, time) + [Act.Serve(time)];
        n, trace := n + 1, trace + [Now()];
      }
      StandingFollows(trace, n, time);
    }

    // ----- the users

    constructor ()
      ensures Valid() && timers == map[] && now == 0
    {
      timers, marks := map[], map[];
      currentTimers, overflowTimers, callbacks := [], [], [];
      queue, stamps := [], [];
      lastTime, sampled, now, started := 0, 0, 0, {};
      new;
      hide Sound;
      NoTimersAreSound(View());
    }

    /** xTimerCreate; the timer is not active yet. */
    method Create(t: TimerId, period: Tick, autoReload: bool) returns (halted: bool)
      requires Valid() && t !in timers
      modifies `timers, `marks, `started
      ensures halted <==> period == 0
      ensures !halted ==> Valid() && timers == old(timers)[t := Timer(period, autoReload, 0)] && !Active(View(), t)
    {
      hide Sound;
      halted := period == 0;
      if !halted {
        CreateIsSound(View(), t, Timer(period, autoReload, 0));
        timers := timers[t := Timer(period, autoReload, 0)];
        marks := marks[t := [now]];
        started := started - {t};
      }
    }

    /** xTimerStart without waiting, for a timer that is not active, at the given time. */
    method Start(t: TimerId, time: nat) returns (ok: bool)
      requires Valid() && Free(View(), t) && now <= time
      modifies `queue, `stamps, `marks, `now, `started
      ensures Valid() && now == time && (ok <==> |old(queue)| < QUEUE_LENGTH)
      ensures if ok then
                && marks == old(marks)[t := [time]] && started == old(started) + {t}
                && queue == old(queue) + [Command(t, Wrap(time))] && stamps == old(stamps) + [time]
              else View() == old(View()).(now := time)
    {
      hide Sound;
      SoundMeans(View(), {});
      ok := |queue| < QUEUE_LENGTH;
      if ok {
        StartIsSound(View(), t, time);
        marks := marks[t := [time]];
        now := time;
        started := started + {t};
        var sent := SendStart(t, Wrap(time));
      } else {
        WaitIsSound(View(), time);
        now := time;
      }
    }

    /**
      Neither drift nor early calls: the k-th callback of a timer since its start stands for the start time
      plus k periods, and that time had come.
     */
    lemma CallbacksStandForMultiples(t: TimerId, k: nat)
      requires Valid() && t in timers
      ensures t in marks && marks[t] != []
      ensures k < |marks[t]| ==> marks[t][k] == marks[t][0] + k * timers[t].period && marks[t][k] <= now
    {
      TimerFacts(View(), {}, t);
      hide Sound;
      var m, p := marks[t], timers[t].period;
      if k < |m| {
        ChainClosedForm(m, p, k);
        if k < |m| - 1 {
          LongerChain(m[..k + 1], m, p);
        }
      }
    }

    // ----- too many timers

    /** Six timers expire at the last tick of an epoch, and the service looks late: the machine halts in the switch of the lists. */
    method SixthTimerHalts() returns (halted: bool)
      requires View() == SixTimers()
      modifies `timers, `currentTimers, `overflowTimers, `queue, `stamps, `callbacks, `marks, `sampled
      ensures halted && |queue| == QUEUE_LENGTH
    {
      hide Sound, Recorded, Prompt, AllYoung, Queued, Switched, SixTimers, Free;
      SixTimersAreSound();
      ghost var order;
      halted, order := SwitchTimerLists();
    }
  }
}
