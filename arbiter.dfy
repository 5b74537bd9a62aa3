/** The relay arbiter: what one pass of the main loop does to the flags and
    outputs, written as an `if … else if …` chain over the state at the start
    of the pass. The controller class runs the sketch's three separate `if`s
    and is proved to agree with this chain. */
module Arbiter {
  import opened Io
  import opened DelayCalculator
  import opened IndicatorDriver

  /** The LED blink rate, in flashes per second. */
  const FlashesPerSecond: int := 4
  /** The blink between detecting the tool and switching the relay on, in seconds. */
  const OnToolDelay: int := 3

  /** The controller's whole state: the two trigger latches, the running flag,
      and the last level written to each output. */
  datatype Ctl = Ctl(
    remoteFlag: bool, toolFlag: bool, vacFlag: bool,
    powerLed: bool, vacLed: bool, toolLed: bool, remoteLed: bool, relay: bool)

  /** The state once setup has finished: only the power LED lit, the relay
      off, every flag false. */
  const PostSetup: Ctl := Ctl(false, false, false, true, false, false, false, false)

  function Level(c: Ctl, p: Pin): bool
  {
    match p
    case PowerLed => c.powerLed
    case VacLed => c.vacLed
    case ToolLed => c.toolLed
    case RemoteLed => c.remoteLed
    case Relay => c.relay
  }

  /** The state after writing `level` to output `p`. */
  function SetLevel(c: Ctl, p: Pin, level: bool): (r: Ctl)
    ensures Level(r, p) == level
    ensures forall q :: q != p ==> Level(r, q) == Level(c, q)
    ensures r.remoteFlag == c.remoteFlag && r.toolFlag == c.toolFlag && r.vacFlag == c.vacFlag
  {
    match p
    case PowerLed => c.(powerLed := level)
    case VacLed => c.(vacLed := level)
    case ToolLed => c.(toolLed := level)
    case RemoteLed => c.(remoteLed := level)
    case Relay => c.(relay := level)
  }

  /** The state after the writes of trace `t`, in order: an output keeps the
      last level written to it, an output never written keeps its level, and
      the flags are untouched. */
  function Replay(c: Ctl, t: seq<Event>): (r: Ctl)
    ensures r.remoteFlag == c.remoteFlag && r.toolFlag == c.toolFlag && r.vacFlag == c.vacFlag
    ensures forall p :: Writes(t, p) == 0 ==> Level(r, p) == Level(c, p)
    decreases |t|
  {
    if t == [] then c else Replay(Apply(c, t[0]), t[1..])
  }

  /** The state after one side effect: a write sets its output, a wait changes nothing. */
  function Apply(c: Ctl, e: Event): Ctl
  {
    match e
    case Write(p, level) => SetLevel(c, p, level)
    case Wait(_) => c
  }

  lemma {:induction false} ReplayConcat(c: Ctl, a: seq<Event>, b: seq<Event>)
    ensures Replay(c, a + b) == Replay(Replay(c, a), b)
    decreases |a|
  {
    if a == [] {
      assert a + b == b;
    } else {
      assert (a + b)[1..] == a[1..] + b;
      ReplayConcat(Apply(c, a[0]), a[1..], b);
    }
  }

  lemma ReplayOne(c: Ctl, e: Event)
    ensures Replay(c, [e]) == Apply(c, e)
  {
    assert [e][1..] == [];
  }

  lemma ReplayTwo(c: Ctl, e: Event, f: Event)
    ensures Replay(c, [e, f]) == Apply(Apply(c, e), f)
  {
    assert [e, f] == [e] + [f];
    ReplayConcat(c, [e], [f]);
    ReplayOne(c, e);
    ReplayOne(Apply(c, e), f);
  }

  /** Replaying a blink that starts from the LED's current level leaves the LED
      toggled `n` times and every other output as it was. */
  lemma {:induction false} ReplayFlash(c: Ctl, n: nat, period: nat)
    ensures Replay(c, FlashTrace(c.vacLed, n, period)) == c.(vacLed := ToggledTimes(c.vacLed, n))
  {
    if n > 0 {
      var front := FlashTrace(c.vacLed, n - 1, period);
      var step := [Write(VacLed, ToggledTimes(c.vacLed, n)), Wait(period)];
      assert FlashTrace(c.vacLed, n, period) == front + step;
      ReplayFlash(c, n - 1, period);
      ReplayConcat(c, front, step);
      ReplayTwo(c.(vacLed := ToggledTimes(c.vacLed, n - 1)), step[0], step[1]);
    }
  }

  /** The invariant the loop keeps between passes: relay, vacuum LED and running
      flag agree, a trigger LED is lit exactly while running, and the power LED
      stays lit. */
  predicate Consistent(c: Ctl)
  {
    c.relay == c.vacFlag && c.vacLed == c.vacFlag
    && (c.vacFlag <==> c.toolLed || c.remoteLed)
    && c.powerLed
  }

  predicate RemoteStartGuard(c: Ctl)
  {
    c.remoteFlag && !c.toolFlag && !c.vacFlag
  }

  predicate ToolStartGuard(c: Ctl)
  {
    !c.remoteFlag && c.toolFlag && !c.vacFlag
  }

  predicate StopGuard(c: Ctl)
  {
    !c.remoteFlag && !c.toolFlag && c.vacFlag
  }

  /** The new state of a pass and the side effects it issued, in order. */
  datatype Run = Run(ctl: Ctl, trace: seq<Event>)

  /** Remote start: remote LED, vacuum LED and relay on at once, no blink.
      It leaves the latches and the power LED alone, switches the vacuum on,
      and lands in a consistent state whenever the power LED is lit. */
  function RemoteStart(c: Ctl): (r: Run)
    ensures r.ctl.remoteFlag == c.remoteFlag && r.ctl.toolFlag == c.toolFlag && r.ctl.powerLed == c.powerLed
    ensures r.ctl.vacFlag && r.ctl.relay
    ensures Consistent(r.ctl) <==> c.powerLed
  {
    Run(c.(remoteLed := true, vacLed := true, relay := true, vacFlag := true),
        [Write(RemoteLed, true), Write(VacLed, true), Write(Relay, true)])
  }

  /** Tool start: tool LED on, the pre-start blink, then vacuum LED and relay
      on. It leaves the latches and the power LED alone, switches the vacuum
      on, and lands in a consistent state whenever the power LED is lit. */
  function ToolStart(c: Ctl): (r: Run)
    ensures r.ctl.remoteFlag == c.remoteFlag && r.ctl.toolFlag == c.toolFlag && r.ctl.powerLed == c.powerLed
    ensures r.ctl.vacFlag && r.ctl.relay
    ensures Consistent(r.ctl) <==> c.powerLed
  {
    Run(c.(toolLed := true, vacLed := true, relay := true, vacFlag := true),
        [Write(ToolLed, true)]
        + FlashTrace(c.vacLed, FlashCount(FlashesPerSecond, OnToolDelay), FlashPeriod(FlashesPerSecond))
        + [Write(VacLed, true), Write(Relay, true)])
  }

  /** Stop: the grace-period blink, then vacuum LED and relay off, the flag
      cleared, and both trigger LEDs off. It leaves the latches and the power
      LED alone, switches the vacuum off, and lands in a consistent state
      whenever the power LED is lit. */
  function Stop(c: Ctl, reading: int): (r: Run)
    requires 0 <= reading <= FullScale
    ensures r.ctl.remoteFlag == c.remoteFlag && r.ctl.toolFlag == c.toolFlag && r.ctl.powerLed == c.powerLed
    ensures !r.ctl.vacFlag && !r.ctl.relay
    ensures Consistent(r.ctl) <==> c.powerLed
  {
    Run(c.(vacLed := false, relay := false, vacFlag := false, remoteLed := false, toolLed := false),
        FlashTrace(c.vacLed, FlashCount(FlashesPerSecond, OffDelay(reading)), FlashPeriod(FlashesPerSecond))
        + [Write(VacLed, false), Write(Relay, false), Write(RemoteLed, false), Write(ToolLed, false)])
  }

  /** One pass: the first transition whose guard holds of the starting state,
      or nothing at all. The running flag flips exactly when some guard holds;
      the latches and the power LED never change. */
  function Arbitrate(c: Ctl, reading: int): (r: Run)
    requires 0 <= reading <= FullScale
    ensures r.ctl.vacFlag != c.vacFlag <==> RemoteStartGuard(c) || ToolStartGuard(c) || StopGuard(c)
    ensures r.ctl.remoteFlag == c.remoteFlag && r.ctl.toolFlag == c.toolFlag && r.ctl.powerLed == c.powerLed
  {
    if RemoteStartGuard(c) then RemoteStart(c)
    else if ToolStartGuard(c) then ToolStart(c)
    else if StopGuard(c) then Stop(c, reading)
    else Run(c, [])
  }

  /** At most one guard holds, and a fired transition disables the guards
      tested after it: this is why three separate `if`s behave as a chain. */
  lemma AtMostOneBranchFires(c: Ctl, reading: int)
    requires 0 <= reading <= FullScale
    ensures !(RemoteStartGuard(c) && ToolStartGuard(c))
    ensures !(RemoteStartGuard(c) && StopGuard(c))
    ensures !(ToolStartGuard(c) && StopGuard(c))
    ensures RemoteStartGuard(c) ==> !ToolStartGuard(RemoteStart(c).ctl) && !StopGuard(RemoteStart(c).ctl)
    ensures ToolStartGuard(c) ==> !StopGuard(ToolStart(c).ctl)
  {
  }

  /** A pass does nothing exactly when no guard holds. */
  lemma ArbitrateIdleIff(c: Ctl, reading: int)
    requires 0 <= reading <= FullScale
    ensures Arbitrate(c, reading) == Run(c, [])
            <==> !RemoteStartGuard(c) && !ToolStartGuard(c) && !StopGuard(c)
  {
  }

  /** An interrupt handler overwrites its latch, so several edges before the
      next pass collapse into the last one: the pass sees only the last level
      each handler read. */
  lemma EdgesCollapse(c: Ctl, reading: int, first: bool, second: bool)
    requires 0 <= reading <= FullScale
    ensures c.(remoteFlag := !first).(remoteFlag := !second) == c.(remoteFlag := !second)
    ensures c.(toolFlag := !first).(toolFlag := !second) == c.(toolFlag := !second)
    ensures Arbitrate(c.(remoteFlag := !first).(remoteFlag := !second), reading)
            == Arbitrate(c.(remoteFlag := !second), reading)
    ensures Arbitrate(c.(toolFlag := !first).(toolFlag := !second), reading)
            == Arbitrate(c.(toolFlag := !second), reading)
  {
  }

  /** Both triggers at once, or a trigger while already running, change
      nothing: in particular a running remote session ignores the tool latch. */
  lemma TriggersIgnored(c: Ctl, reading: int)
    requires 0 <= reading <= FullScale
    requires (c.remoteFlag && c.toolFlag) || (c.vacFlag && (c.remoteFlag || c.toolFlag))
    ensures Arbitrate(c, reading) == Run(c, [])
  {
  }

  /** With the latches left alone, the pass after any pass does nothing. */
  lemma ArbitrateSettles(c: Ctl, reading: int, nextReading: int)
    requires 0 <= reading <= FullScale && 0 <= nextReading <= FullScale
    ensures Arbitrate(Arbitrate(c, reading).ctl, nextReading) == Run(Arbitrate(c, reading).ctl, [])
  {
  }

  /** A pass keeps the invariant. */
  lemma ArbitrateKeepsConsistent(c: Ctl, reading: int)
    requires 0 <= reading <= FullScale
    requires Consistent(c)
    ensures Consistent(Arbitrate(c, reading).ctl)
  {
  }

  /** A pass never changes the latches, never writes the power LED, and
      leaves every output at the last level it wrote there (or as it was). */
  lemma ArbitrateReplays(c: Ctl, reading: int)
    requires 0 <= reading <= FullScale
    ensures Replay(c, Arbitrate(c, reading).trace) == Arbitrate(c, reading).ctl.(vacFlag := c.vacFlag)
    ensures Arbitrate(c, reading).ctl.remoteFlag == c.remoteFlag
    ensures Arbitrate(c, reading).ctl.toolFlag == c.toolFlag
    ensures Writes(Arbitrate(c, reading).trace, PowerLed) == 0
    ensures Arbitrate(c, reading).ctl.powerLed == c.powerLed
  {
    if RemoteStartGuard(c) {
      RemoteStartReplays(c);
    } else if ToolStartGuard(c) {
      ToolStartReplays(c);
    } else if StopGuard(c) {
      StopReplays(c, reading);
    }
  }

  lemma RemoteStartReplays(c: Ctl)
    ensures Replay(c, RemoteStart(c).trace) == RemoteStart(c).ctl.(vacFlag := c.vacFlag)
    ensures Writes(RemoteStart(c).trace, PowerLed) == 0
  {
    var t := RemoteStart(c).trace;
    assert t == [t[0]] + [t[1]] + [t[2]];
    ReplayConcat(c, [t[0]] + [t[1]], [t[2]]);
    ReplayConcat(c, [t[0]], [t[1]]);
    ReplayOne(c, t[0]);
    ReplayOne(Apply(c, t[0]), t[1]);
    ReplayOne(Apply(Apply(c, t[0]), t[1]), t[2]);
    assert t[1..][1..][1..] == [];
  }

  lemma {:induction false} ToolStartReplays(c: Ctl)
    ensures Replay(c, ToolStart(c).trace) == ToolStart(c).ctl.(vacFlag := c.vacFlag)
    ensures Writes(ToolStart(c).trace, PowerLed) == 0
  {
    var period := FlashPeriod(FlashesPerSecond);
    var n := FlashCount(FlashesPerSecond, OnToolDelay);
    var head := [Write(ToolLed, true)];
    var blink := FlashTrace(c.vacLed, n, period);
    var tail := [Write(VacLed, true), Write(Relay, true)];
    assert ToolStart(c).trace == head + blink + tail;
    var lit := c.(toolLed := true);
    ReplayOne(c, head[0]);
    ReplayConcat(c, head + blink, tail);
    ReplayConcat(c, head, blink);
    ReplayFlash(lit, n, period);
    ReplayTwo(lit.(vacLed := ToggledTimes(c.vacLed, n)), tail[0], tail[1]);
    FlashTraceEffects(c.vacLed, n, period);
    WritesConcat(head + blink, tail, PowerLed);
    WritesConcat(head, blink, PowerLed);
    assert head[1..] == [] && tail[1..][1..] == [];
  }

  lemma {:induction false} StopReplays(c: Ctl, reading: int)
    requires 0 <= reading <= FullScale
    ensures Replay(c, Stop(c, reading).trace) == Stop(c, reading).ctl.(vacFlag := c.vacFlag)
    ensures Writes(Stop(c, reading).trace, PowerLed) == 0
  {
    var period := FlashPeriod(FlashesPerSecond);
    var n := FlashCount(FlashesPerSecond, OffDelay(reading));
    var blink := FlashTrace(c.vacLed, n, period);
    var tail := [Write(VacLed, false), Write(Relay, false), Write(RemoteLed, false), Write(ToolLed, false)];
    assert Stop(c, reading).trace == blink + tail;
    ReplayConcat(c, blink, tail);
    ReplayFlash(c, n, period);
    var blinked := c.(vacLed := ToggledTimes(c.vacLed, n));
    assert tail == [tail[0], tail[1]] + [tail[2], tail[3]];
    ReplayConcat(blinked, [tail[0], tail[1]], [tail[2], tail[3]]);
    ReplayTwo(blinked, tail[0], tail[1]);
    ReplayTwo(Apply(Apply(blinked, tail[0]), tail[1]), tail[2], tail[3]);
    FlashTraceEffects(c.vacLed, n, period);
    WritesConcat(blink, tail, PowerLed);
    assert tail[1..][1..][1..][1..] == [];
  }

  /** Remote start lights everything at once: no time passes before the relay
      is switched on, and the pass takes no time. */
  lemma RemoteStartTiming(c: Ctl, reading: int)
    requires 0 <= reading <= FullScale
    requires RemoteStartGuard(c)
    ensures ElapsedBefore(Arbitrate(c, reading).trace, Relay) == 0
    ensures Elapsed(Arbitrate(c, reading).trace) == 0
  {
    var t := Arbitrate(c, reading).trace;
    assert t[1..][1..][1..] == [];
  }

  /** Tool start lights the tool LED at once, then blinks the vacuum LED 24
      times over 3 seconds before the relay is switched on, and the relay is
      the last thing written. */
  lemma {:induction false} ToolStartTiming(c: Ctl, reading: int)
    requires 0 <= reading <= FullScale
    requires ToolStartGuard(c)
    ensures ElapsedBefore(Arbitrate(c, reading).trace, ToolLed) == 0
    ensures ElapsedBefore(Arbitrate(c, reading).trace, Relay) == OnToolDelay * 1000
    ensures Elapsed(Arbitrate(c, reading).trace) == OnToolDelay * 1000
    ensures Writes(Arbitrate(c, reading).trace, VacLed) == 24 + 1
    ensures Writes(Arbitrate(c, reading).trace, Relay) == 1
    ensures Arbitrate(c, reading).trace[|Arbitrate(c, reading).trace| - 1] == Write(Relay, true)
  {
    var t := Arbitrate(c, reading).trace;
    var period := FlashPeriod(FlashesPerSecond);
    var n := FlashCount(FlashesPerSecond, OnToolDelay);
    var head := [Write(ToolLed, true)];
    var blink := FlashTrace(c.vacLed, n, period);
    var tail := [Write(VacLed, true), Write(Relay, true)];
    assert t == head + (blink + tail);
    assert n == 24 && period == 125;
    FlashTraceEffects(c.vacLed, n, period);
    FlashDuration(c.vacLed, FlashesPerSecond, OnToolDelay);
    assert head[1..] == [] && tail[1..][1..] == [];
    ElapsedConcat(head, blink + tail);
    ElapsedConcat(blink, tail);
    ElapsedBeforeConcat(head, blink + tail, Relay);
    ElapsedBeforeConcat(blink, tail, Relay);
    WritesConcat(head, blink + tail, VacLed);
    WritesConcat(blink, tail, VacLed);
    WritesConcat(head, blink + tail, Relay);
    WritesConcat(blink, tail, Relay);
  }

  /** Stop blinks for the grace period the pot selects, 8 toggles per second,
      before the relay is switched off. */
  lemma {:induction false} StopTiming(c: Ctl, reading: int)
    requires 0 <= reading <= FullScale
    requires StopGuard(c)
    ensures ElapsedBefore(Arbitrate(c, reading).trace, Relay) == OffDelay(reading) * 1000
    ensures Elapsed(Arbitrate(c, reading).trace) == OffDelay(reading) * 1000
    ensures Writes(Arbitrate(c, reading).trace, VacLed) == 8 * OffDelay(reading) + 1
    ensures Writes(Arbitrate(c, reading).trace, Relay) == 1
  {
    var t := Arbitrate(c, reading).trace;
    var period := FlashPeriod(FlashesPerSecond);
    var n := FlashCount(FlashesPerSecond, OffDelay(reading));
    var blink := FlashTrace(c.vacLed, n, period);
    var tail := [Write(VacLed, false), Write(Relay, false), Write(RemoteLed, false), Write(ToolLed, false)];
    assert t == blink + tail;
    assert n == 8 * OffDelay(reading);
    FlashTraceEffects(c.vacLed, n, period);
    FlashDuration(c.vacLed, FlashesPerSecond, OffDelay(reading));
    assert tail[1..][1..][1..][1..] == [];
    ElapsedConcat(blink, tail);
    ElapsedBeforeConcat(blink, tail, Relay);
    WritesConcat(blink, tail, VacLed);
    WritesConcat(blink, tail, Relay);
  }
}
