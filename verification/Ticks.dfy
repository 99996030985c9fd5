/**
  The 32-bit tick clock: timeouts (vTaskSetTimeOutState, xTaskCheckForTimeOut), the
  decision of vTaskDelayUntil, and what they mean in unbounded time.
 */
module Ticks {
  import Arithmetic

  /** The number of tick values of a 32-bit portTickType. */
  const M: int := 0x1_0000_0000
  const MAX_DELAY: int := 0xFFFF_FFFF

  type Tick = t: int | 0 <= t < M

  /** Unsigned 32-bit arithmetic. */
  function Wrap(x: int): (t: Tick) {
    x % M
  }

  /** In the given epoch of the clock, the tick value stands for the given point of unbounded time. */
  predicate OfEpoch(due: nat, epoch: int, tick: Tick) {
    due / M == epoch && due % M == tick
  }

  // ----- differences and sums of times

  lemma Difference(a: int, b: int)
    ensures (a - b) % M == (a % M - b % M) % M
    ensures (a - b) / M == if a % M >= b % M then a / M - b / M else a / M - b / M - 1
    ensures (a - b) % M == if a % M >= b % M then a % M - b % M else a % M - b % M + M
  {
    var q, r := a / M - b / M, a % M - b % M;
    assert a - b == M * q + r;
    if r >= 0 {
      Arithmetic.DivModUnique(a - b, M, q, r);
      Arithmetic.SmallMod(r, M);
    } else {
      Arithmetic.DivModUnique(a - b, M, q - 1, r + M);
      Arithmetic.DivModUnique(r, M, -1, r + M);
    }
  }

  lemma Sum(a: int, p: int)
    requires 0 <= p < M
    ensures (a + p) % M == if a % M + p < M then a % M + p else a % M + p - M
    ensures (a + p) / M == if a % M + p < M then a / M else a / M + 1
  {
    if a % M + p < M {
      Arithmetic.DivModUnique(a + p, M, a / M, a % M + p);
    } else {
      Arithmetic.DivModUnique(a + p, M, a / M + 1, a % M + p - M);
    }
  }

  lemma WrappedSum(time: int, p: int)
    requires 0 <= p < M
    ensures Wrap(Wrap(time) + p) == Wrap(time + p)
  {
    Arithmetic.SmallMod(time % M, M);
    Sum(time, p);
    Sum(time % M, p);
  }

  // ----- timeouts

  /** xTimeOutType */
  datatype TimeOut = TimeOut(overflowCount: int, timeOnEntering: Tick)

  /** The time out structure filled in at unbounded time now. */
  function Stamp(now: nat): TimeOut {
    TimeOut(now / M, now % M)
  }

  datatype Check = Expired | Remaining(ticks: Tick, timeOut: TimeOut)

  /** xTaskCheckForTimeOut with the tick count and overflow count of the kernel. */
  function CheckForTimeOut(overflows: int, tick: Tick, timeOut: TimeOut, ticksToWait: Tick): Check {
    if ticksToWait == MAX_DELAY then
      Remaining(ticksToWait, timeOut)
    else if overflows != timeOut.overflowCount && tick >= timeOut.timeOnEntering then
      Expired
    else if Wrap(tick - timeOut.timeOnEntering) < ticksToWait then
      Remaining(Wrap(ticksToWait - Wrap(tick - timeOut.timeOnEntering)), TimeOut(overflows, tick))
    else
      Expired
  }

  /** A finite wait of the given ticks, set at time entered, is over at time now. */
  ghost predicate IsOver(entered: nat, now: nat, ticksToWait: Tick) {
    now - entered >= ticksToWait
  }

  /** The clock ran over more than once and came to rest below the entry time again. */
  predicate Aliased(entered: nat, now: nat, ticksToWait: Tick) {
    now / M - entered / M >= 2 && now % M < entered % M && (now - entered) % M < ticksToWait
  }

  /**
    What a check at time now reports about a wait that was stamped at time entered: it is over exactly if
    the wait is, unless the clock hides that; and otherwise what is left, with a new stamp.
   */
  predicate Reports(entered: nat, now: nat, timeOut: TimeOut, ticksToWait: Tick, expired: bool, left: Tick, renewed: TimeOut) {
    if ticksToWait == MAX_DELAY then !expired && left == ticksToWait && renewed == timeOut
    else
      && (expired <==> now - entered >= ticksToWait && !Aliased(entered, now, ticksToWait))
      && (expired ==> renewed == timeOut)
      && (!expired ==> 0 < left == ticksToWait - (now - entered) % M && renewed == Stamp(now))
      && (!expired && now - entered < ticksToWait ==> left == ticksToWait - (now - entered))
  }

  /**
    The check reports a timeout exactly when the wait is over, unless and only unless the
    clock has run over at least twice and hides it; the ticks that remain are exact.
   */
  lemma TimeOutIsExact(entered: nat, now: nat, ticksToWait: Tick)
    requires entered <= now && ticksToWait != MAX_DELAY
    ensures var c := CheckForTimeOut(now / M, now % M, Stamp(entered), ticksToWait);
            && ((c.Expired? <==> IsOver(entered, now, ticksToWait)) <==> !Aliased(entered, now, ticksToWait))
            && (c.Remaining? && !Aliased(entered, now, ticksToWait) ==>
                  c.ticks == ticksToWait - (now - entered) && c.timeOut == Stamp(now))
  {
    var n, e := now % M, entered % M;
    Difference(now, entered);
    Difference(n, e);
    Arithmetic.SmallMod(n, M);
    Arithmetic.SmallMod(e, M);
    var elapsed := Wrap(n - e);
    assert elapsed == (now - entered) % M;
    assert now - entered == M * ((now - entered) / M) + elapsed;
    if ticksToWait > elapsed {
      Arithmetic.SmallMod(ticksToWait - elapsed, M);
    }
  }

  /** One wrap, or an elapsed time below M, can never be hidden. */
  lemma AtMostOneWrapIsNotAliased(entered: nat, now: nat, ticksToWait: Tick)
    requires entered <= now && (now - entered < M || now / M <= entered / M + 1)
    ensures !Aliased(entered, now, ticksToWait)
  {
  }

  /** A concrete hidden timeout, after two wraps. */
  lemma TwoWrapsCanHideATimeOut()
    ensures var entered, now := 10, 2 * M + 5;
            && IsOver(entered, now, M - 2)
            && CheckForTimeOut(now / M, now % M, Stamp(entered), M - 2).Remaining?
  {
  }

  /** The times of successive checks: in order and never a whole clock round apart. */
  ghost predicate CheckTimes(entered: nat, times: seq<nat>) {
    && (times != [] ==> entered <= times[0] < entered + M)
    && forall i :: 0 < i < |times| ==> times[i - 1] <= times[i] < times[i - 1] + M
  }

  /** The retry loop of a blocking call: how many of the checks pass before one expires. */
  function ChecksPassed(times: seq<nat>, timeOut: TimeOut, ticksToWait: Tick): (n: nat)
    ensures n <= |times|
  {
    if times == [] then 0
    else
      match CheckForTimeOut(times[0] / M, times[0] % M, timeOut, ticksToWait)
      case Expired => 0
      case Remaining(left, renewed) => 1 + ChecksPassed(times[1..], renewed, left)
  }

  /** What is left to wait after the checks at all the given times. */
  function LeftAfter(times: seq<nat>, timeOut: TimeOut, ticksToWait: Tick): (left: Tick)
    requires ChecksPassed(times, timeOut, ticksToWait) == |times|
  {
    if times == [] then ticksToWait
    else
      var c := CheckForTimeOut(times[0] / M, times[0] % M, timeOut, ticksToWait);
      LeftAfter(times[1..], c.timeOut, c.ticks)
  }

  /**
    Over a whole retry loop no tick is lost or counted twice: a check passes if and only if
    the time since the first entry is below the original wait, and what the loop still waits
    for is the original wait less the time since the first entry - so it is never zero.
   */
  lemma {:induction false} RetryLoopConservesTime(entered: nat, times: seq<nat>, ticksToWait: Tick)
    requires CheckTimes(entered, times) && ticksToWait != MAX_DELAY
    ensures var n := ChecksPassed(times, Stamp(entered), ticksToWait);
            && (forall i :: 0 <= i < n ==> times[i] < entered + ticksToWait)
            && (n < |times| ==> times[n] >= entered + ticksToWait)
            && (n == |times| && times != [] ==>
                  LeftAfter(times, Stamp(entered), ticksToWait) == entered + ticksToWait - times[n - 1] > 0)
    decreases |times|
  {
    if times != [] {
      var t := times[0];
      AtMostOneWrapIsNotAliased(entered, t, ticksToWait);
      TimeOutIsExact(entered, t, ticksToWait);
      var c := CheckForTimeOut(t / M, t % M, Stamp(entered), ticksToWait);
      if c.Remaining? {
        assert CheckTimes(t, times[1..]) by {
          assert forall i :: 0 < i < |times[1..]| ==> times[1..][i - 1] == times[i] && times[1..][i] == times[i + 1];
        }
        RetryLoopConservesTime(t, times[1..], c.ticks);
      }
    }
  }

  /** A wait of portMAX_DELAY never expires. */
  lemma {:induction false} EndlessWaitNeverExpires(times: seq<nat>, timeOut: TimeOut)
    ensures ChecksPassed(times, timeOut, MAX_DELAY) == |times|
    ensures LeftAfter(times, timeOut, MAX_DELAY) == MAX_DELAY
    decreases |times|
  {
    if times != [] {
      EndlessWaitNeverExpires(times[1..], timeOut);
    }
  }

  // ----- vTaskDelayUntil

  /** The decision of vTaskDelayUntil. */
  function ShouldDelay(tick: Tick, previousWake: Tick, increment: Tick): bool {
    var timeToWake := Wrap(previousWake + increment);
    if tick < previousWake then
      timeToWake < previousWake && timeToWake > tick
    else
      timeToWake < previousWake || timeToWake > tick
  }

  /** The decision depends only on the ticks since the previous wake, taken modulo the clock. */
  lemma ShouldDelayMeaning(now: int, previous: int, increment: Tick)
    ensures ShouldDelay(Wrap(now), Wrap(previous), increment) <==> increment > Wrap(now - previous)
  {
    Difference(now, previous);
  }

  /**
    vTaskDelayUntil delays exactly when the wake time lies ahead, if and only if the call
    comes less than a clock round after the previous wake or the part round is long enough;
    a previous wake in the future is misread likewise.
   */
  lemma DelayUntilIsExact(now: int, previous: int, increment: Tick)
    ensures (ShouldDelay(Wrap(now), Wrap(previous), increment) <==> previous + increment > now)
            <==> (if now >= previous then now - previous < M || increment <= Wrap(now - previous)
                  else increment > Wrap(now - previous))
  {
    ShouldDelayMeaning(now, previous, increment);
    if 0 <= now - previous < M {
      Arithmetic.SmallMod(now - previous, M);
    }
  }

  /** A call a clock round and 5 ticks after the previous wake: the wake time, 10 ticks after that, has long passed, and it delays. */
  lemma LateCallIsDelayed()
    ensures var previous, now := 0, M + 5; ShouldDelay(Wrap(now), Wrap(previous), 10) && previous + 10 <= now
  {
    Arithmetic.DivModUnique(M + 5, M, 1, 5);
  }

  /** A call 5 ticks before the previous wake, as after an early resumption: the wake time is 15 ticks ahead, and it does not delay. */
  lemma EarlyCallIsNotDelayed()
    ensures var previous, now := 10, 5; !ShouldDelay(Wrap(now), Wrap(previous), 10) && previous + 10 > now
  {
  }

  /** When it delays in time, the wake time it files is less than a clock round ahead. */
  lemma DelayUntilWakesOnTime(now: nat, previous: nat, increment: Tick)
    requires previous <= now < previous + M
    requires ShouldDelay(Wrap(now), Wrap(previous), increment)
    ensures 0 < previous + increment - now < M
    ensures Wrap(Wrap(previous) + increment) == (previous + increment) % M
  {
    DelayUntilIsExact(now, previous, increment);
    WrappedSum(previous, increment);
  }
}
