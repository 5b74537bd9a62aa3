/** The indicator driver: blinking the vacuum LED at a fixed rate for a
    number of seconds, blocking the controller meanwhile. The blink itself is
    the `Flash` method of the controller class; this module holds what it is
    specified by. */
module IndicatorDriver {
  import opened Io

  /** The wait after each toggle: `500 / flashesPerSecond` milliseconds, the
      quotient truncated. */
  function FlashPeriod(flashesPerSecond: int): (ms: nat)
    requires flashesPerSecond > 0
    ensures ms * flashesPerSecond <= 500 < (ms + 1) * flashesPerSecond
  {
    500 / flashesPerSecond
  }

  /** How many times the blink loop toggles the LED: `flashesPerSecond *
      seconds * 2` when that is positive, no time at all otherwise. */
  function FlashCount(flashesPerSecond: int, seconds: int): (n: nat)
    ensures n % 2 == 0
    ensures n > 0 <==> flashesPerSecond * seconds > 0
  {
    var bound := flashesPerSecond * seconds * 2;
    if bound > 0 then bound else 0
  }

  /** The level of an output that started at `level` after `n` toggles. */
  function ToggledTimes(level: bool, n: nat): (r: bool)
    ensures r == (if n % 2 == 0 then level else !level)
  {
    if n == 0 then level else !ToggledTimes(level, n - 1)
  }

  /** The side effects of `n` toggles of the vacuum LED, starting from
      `level`: each toggle writes the new level and is followed by a wait of
      `period` milliseconds. */
  function FlashTrace(level: bool, n: nat, period: nat): (t: seq<Event>)
    ensures |t| == 2 * n
  {
    if n == 0 then [] else FlashTrace(level, n - 1, period) + [Write(VacLed, ToggledTimes(level, n)), Wait(period)]
  }

  /** Event by event: even positions are the writes of the successive toggled
      levels, odd positions the waits. */
  lemma {:induction false} FlashTraceAt(level: bool, n: nat, period: nat)
    ensures forall i :: 0 <= i < |FlashTrace(level, n, period)| ==>
      FlashTrace(level, n, period)[i] ==
        if i % 2 == 0 then Write(VacLed, ToggledTimes(level, i / 2 + 1)) else Wait(period)
  {
    if n > 0 {
      var front := FlashTrace(level, n - 1, period);
      var t := FlashTrace(level, n, period);
      FlashTraceAt(level, n - 1, period);
      forall i | 0 <= i < |t|
        ensures t[i] == if i % 2 == 0 then Write(VacLed, ToggledTimes(level, i / 2 + 1)) else Wait(period)
      {
        if i < |front| {
          assert t[i] == front[i];
        } else if i == |front| {
          assert i / 2 + 1 == n;
        }
      }
    }
  }

  /** A blink writes only the vacuum LED, exactly `n` times, and blocks for
      `n` periods. */
  lemma {:induction false} FlashTraceEffects(level: bool, n: nat, period: nat)
    ensures Writes(FlashTrace(level, n, period), VacLed) == n
    ensures forall p :: p != VacLed ==> Writes(FlashTrace(level, n, period), p) == 0
    ensures Elapsed(FlashTrace(level, n, period)) == n * period
  {
    if n > 0 {
      var front := FlashTrace(level, n - 1, period);
      var step := [Write(VacLed, ToggledTimes(level, n)), Wait(period)];
      FlashTraceEffects(level, n - 1, period);
      assert step[1..] == [Wait(period)] && step[1..][1..] == [];
      ElapsedConcat(front, step);
      assert Elapsed(step[1..]) == period;
      assert Elapsed(step) == period;
      assert (n - 1) * period + period == n * period;
      assert FlashTrace(level, n, period) == front + step;
      forall p ensures Writes(front + step, p) == Writes(front, p) + (if p == VacLed then 1 else 0) {
        WritesConcat(front, step, p);
        assert Writes(step[1..], p) == 0;
      }
    }
  }

  /** Every blink the sketch can run leaves the vacuum LED as it found it. */
  lemma FlashRestoresLevel(level: bool, flashesPerSecond: int, seconds: int)
    ensures ToggledTimes(level, FlashCount(flashesPerSecond, seconds)) == level
  {
  }

  /** When the rate divides 500 the blink lasts exactly `seconds` seconds. */
  lemma FlashDuration(level: bool, flashesPerSecond: int, seconds: int)
    requires flashesPerSecond > 0 && 500 % flashesPerSecond == 0 && seconds >= 0
    ensures Elapsed(FlashTrace(level, FlashCount(flashesPerSecond, seconds), FlashPeriod(flashesPerSecond)))
            == 1000 * seconds
  {
    var n := FlashCount(flashesPerSecond, seconds);
    var period := FlashPeriod(flashesPerSecond);
    FlashTraceEffects(level, n, period);
    PeriodDividesExactly(flashesPerSecond);
    if seconds > 0 {
      CountTimesPeriod(flashesPerSecond, seconds, period);
    }
  }

  lemma PeriodDividesExactly(flashesPerSecond: int)
    requires flashesPerSecond > 0 && 500 % flashesPerSecond == 0
    ensures FlashPeriod(flashesPerSecond) * flashesPerSecond == 500
  {
    assert 500 == flashesPerSecond * (500 / flashesPerSecond) + 500 % flashesPerSecond;
  }

  lemma CountTimesPeriod(flashesPerSecond: int, seconds: int, period: int)
    requires period * flashesPerSecond == 500
    ensures flashesPerSecond * seconds * 2 * period == 1000 * seconds
  {
    calc {
      flashesPerSecond * seconds * 2 * period;
      2 * seconds * (period * flashesPerSecond);
    }
  }
}
