/** The shutdown-delay calculator: maps the trim-pot reading onto the length
    of the grace period, in whole seconds, between a stop request and the
    relay switching off. */
module DelayCalculator {

  /** Shortest and longest grace period, in seconds. */
  const OffDelayMin: int := 3
  const OffDelayMax: int := 30

  /** The reading the sketch treats as the full-scale position of the pot. */
  const FullScale: int := 1032

  /** The sketch's linear interpolation, computed in exact arithmetic: a
      straight line from the minimum at reading 0 to the maximum at full
      scale. */
  ghost function IdealDelay(reading: int): (d: real)
    ensures 0 <= reading <= FullScale ==> OffDelayMin as real <= d <= OffDelayMax as real
    ensures reading == 0 ==> d == OffDelayMin as real
    ensures reading == FullScale ==> d == OffDelayMax as real
  {
    (OffDelayMax - OffDelayMin) as real / FullScale as real * reading as real + OffDelayMin as real
  }

  /** Arduino's `round`: add (or, below zero, subtract) one half and truncate
      toward zero, so that exact halves go away from zero. */
  ghost function ArduinoRound(v: real): (r: int)
    ensures v >= 0.0 ==> v - 0.5 < r as real <= v + 0.5
    ensures v < 0.0 ==> v - 0.5 <= r as real < v + 0.5
  {
    if v >= 0.0 then (v + 0.5).Floor else -((0.5 - v).Floor)
  }

  /** The grace period for a trim-pot reading, in integer arithmetic:
      round-half-up of 27 * reading / 1032, plus the minimum. */
  function OffDelay(reading: int): (seconds: int)
    requires 0 <= reading <= FullScale
    ensures OffDelayMin <= seconds <= OffDelayMax
    ensures reading == 0 ==> seconds == OffDelayMin
    ensures reading == FullScale ==> seconds == OffDelayMax
  {
    ((OffDelayMax - OffDelayMin) * reading + FullScale / 2) / FullScale + OffDelayMin
  }

  /** The integer formula agrees, on every reading, with rounding the
      sketch's interpolation the way Arduino's `round` does. */
  lemma OffDelayIsArduinoRound(reading: int)
    requires 0 <= reading <= FullScale
    ensures OffDelay(reading) == ArduinoRound(IdealDelay(reading))
  {
    var q := ((OffDelayMax - OffDelayMin) * reading + FullScale / 2) / FullScale;
    var v := IdealDelay(reading);
    assert 1032 * q <= 27 * reading + 516 < 1032 * q + 1032;
    assert v == (27 * reading) as real / 1032.0 + 3.0;
    assert (q + 3) as real <= v + 0.5 < (q + 3) as real + 1.0;
  }

  /** Turning the pot up never shortens the grace period. */
  lemma OffDelayMonotone(lo: int, hi: int)
    requires 0 <= lo <= hi <= FullScale
    ensures OffDelay(lo) <= OffDelay(hi)
  {
  }

  /** The three exact halves of the interpolation round up, and the top of the
      Nano's ADC range (1023) already gives the maximum delay. */
  lemma OffDelayTiesRoundUp()
    ensures IdealDelay(172) == 7.5 && OffDelay(172) == 8
    ensures IdealDelay(516) == 16.5 && OffDelay(516) == 17
    ensures IdealDelay(860) == 25.5 && OffDelay(860) == 26
    ensures OffDelay(1023) == OffDelayMax
  {
  }
}
