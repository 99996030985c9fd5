/**
  Where prvInsertTimerInActiveList of TCPv3/FreeRTOS/timers.c files a timer, and what its
  comparisons of 32-bit times mean in unbounded time.
 */
module TimerPlacement {
  import opened Ticks
  import Arithmetic

  datatype Placement = ProcessNow | InCurrentList | InOverflowList

  /** The decision of prvInsertTimerInActiveList. */
  function Place(nextExpiry: Tick, timeNow: Tick, commandTime: Tick, period: int): Placement {
    if nextExpiry <= timeNow then
      if Wrap(timeNow - commandTime) >= period then ProcessNow else InOverflowList
    else
      if timeNow < commandTime && nextExpiry >= commandTime then ProcessNow else InCurrentList
  }

  /** The placement of a timer with a given period for a command given at one time and processed at another. */
  function PlaceAt(command: int, now: int, period: int): Placement {
    Place(Wrap(command + period), Wrap(now), Wrap(command), period)
  }

  /** For all times, the timer is processed at once exactly if the period fits into the time since the command, modulo M. */
  lemma ProcessedAtOnce(command: int, now: int, period: int)
    requires 0 < period < M
    ensures PlaceAt(command, now, period) == ProcessNow <==> period <= (now - command) % M
  {
    Difference(now, command);
    Difference(now % M, command % M);
    Arithmetic.SmallMod(now % M, M);
    Arithmetic.SmallMod(command % M, M);
    Sum(command, period);
  }

  /**
    For a command that is less than M ticks old the placement is exact: at once if and only if the
    expiry time has come, and otherwise in the list of the epoch in which it will come.
   */
  lemma PlacementIsExact(command: nat, now: nat, period: int)
    requires 0 < period < M && command <= now < command + M
    ensures PlaceAt(command, now, period) == ProcessNow <==> command + period <= now
    ensures PlaceAt(command, now, period) == InCurrentList ==> OfEpoch(command + period, now / M, Wrap(command + period))
    ensures PlaceAt(command, now, period) == InOverflowList ==> OfEpoch(command + period, now / M + 1, Wrap(command + period))
  {
    ProcessedAtOnce(command, now, period);
    Arithmetic.SmallMod(now - command, M);
    Sum(command, period);
    if now > command {
      Sum(command, now - command);
    }
  }

  /**
    Without an assumption on the times: the decision to process at once is right for a command of age
    below M always, for an older one exactly if the period fits into the age modulo M, and for a command
    from the future exactly if it does not.
   */
  lemma WhenProcessingAtOnceIsRight(command: int, now: int, period: int)
    requires 0 < period < M
    ensures (PlaceAt(command, now, period) == ProcessNow <==> command + period <= now)
      <==> || 0 <= now - command < M
           || (now - command >= M && period <= (now - command) % M)
           || (now < command && period > (now - command) % M)
  {
    ProcessedAtOnce(command, now, period);
    if 0 <= now - command < M {
      Arithmetic.SmallMod(now - command, M);
    }
  }

  /** A command a clock round and 5 ticks old: its timer of 10 ticks has expired, and is filed all the same. */
  lemma OldCommandIsMisjudged()
    ensures PlaceAt(0, M + 5, 10) != ProcessNow && 0 + 10 <= M + 5
  {
    ProcessedAtOnce(0, M + 5, 10);
    Arithmetic.DivModUnique(M + 5, M, 1, 5);
  }

  /** A command stamped 5 ticks after the time sampled: its timer of 100 ticks is processed at once. */
  lemma FutureCommandIsMisjudged()
    ensures PlaceAt(10, 5, 100) == ProcessNow && 10 + 100 > 5
  {
    ProcessedAtOnce(10, 5, 100);
    Arithmetic.DivModUnique(-5, M, -1, M - 5);
  }
}
