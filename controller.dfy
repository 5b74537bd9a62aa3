/** The sketch's global state and its routines: the two interrupt handlers,
    the blocking LED blink and the main loop. Hardware reads are parameters;
    every digitalWrite and delay is appended to the ghost `trace`. */
module Controller {
  import opened Io
  import opened DelayCalculator
  import opened IndicatorDriver
  import opened Arbiter

  class VacController {
    // Trigger latches, written only by the interrupt handlers.
    var remoteFlag: bool
    var toolFlag: bool
    // Set while the vacuum is running or in its shutdown grace period.
    var vacFlag: bool
    // The last level written to each output.
    var powerLed: bool
    var vacLed: bool
    var toolLed: bool
    var remoteLed: bool
    var relay: bool
    // Every output write and every wait, in the order issued.
    ghost var trace: seq<Event>

    ghost function Snapshot(): Ctl
      reads this
    {
      Ctl(remoteFlag, toolFlag, vacFlag, powerLed, vacLed, toolLed, remoteLed, relay)
    }

    ghost predicate Valid()
      reads this
    {
      Consistent(Snapshot())
    }

    /** The state setup leaves behind: power LED on, everything else off. */
    constructor ()
      ensures Snapshot() == PostSetup && trace == []
      ensures Valid()
    {
      remoteFlag, toolFlag, vacFlag := false, false, false;
      powerLed, vacLed, toolLed, remoteLed, relay := true, false, false, false, false;
      trace := [];
    }

    /** Edge on the remote input: the latch becomes the inverse of the
        active-low pin level. */
    method RemoteIsr(level: bool)
      modifies this`remoteFlag
      ensures Snapshot() == old(Snapshot()).(remoteFlag := !level)
      ensures old(Valid()) ==> Valid()
    {
      remoteFlag := !level;
    }

    /** Edge on the tool input: the latch becomes the inverse of the
        active-low pin level. */
    method ToolIsr(level: bool)
      modifies this`toolFlag
      ensures Snapshot() == old(Snapshot()).(toolFlag := !level)
      ensures old(Valid()) ==> Valid()
    {
      toolFlag := !level;
    }

    /** Blinks the vacuum LED: `flashesPerSecond * seconds * 2` toggles, each
        followed by a wait of `500 / flashesPerSecond` ms. An even number of
        toggles, so the LED ends as it started; nothing else changes. */
    method Flash(flashesPerSecond: int, seconds: int)
      requires flashesPerSecond > 0
      modifies this`vacLed, this`trace
      ensures vacLed == old(vacLed)
      ensures trace == old(trace) + FlashTrace(old(vacLed), FlashCount(flashesPerSecond, seconds), FlashPeriod(flashesPerSecond))
    {
      var rate := 500 / flashesPerSecond;
      var i := 0;
      while i < flashesPerSecond * seconds * 2
        invariant 0 <= i <= FlashCount(flashesPerSecond, seconds)
        invariant vacLed == ToggledTimes(old(vacLed), i)
        invariant trace == old(trace) + FlashTrace(old(vacLed), i, rate)
      {
        vacLed := !vacLed;
        trace := trace + [Write(VacLed, vacLed), Wait(rate)];
        i := i + 1;
      }
      FlashRestoresLevel(old(vacLed), flashesPerSecond, seconds);
    }

    /** One pass of the main loop, the three separate `if`s of the sketch.
        `reading` is the trim-pot value that `offDelay` samples. Its effect is
        that of the first transition whose guard holds at the start of the
        pass: at most one transition fires. */
    method Loop(reading: int)
      requires 0 <= reading <= FullScale
      modifies this`vacFlag, this`vacLed, this`toolLed, this`remoteLed, this`relay, this`trace
      ensures Snapshot() == Arbitrate(old(Snapshot()), reading).ctl
      ensures trace == old(trace) + Arbitrate(old(Snapshot()), reading).trace
      ensures old(Valid()) ==> Valid()
    {
      ghost var start := Snapshot();
      AtMostOneBranchFires(start, reading);
      if remoteFlag && !toolFlag && !vacFlag {
        RemoteStartBlock();
      }
      if !remoteFlag && toolFlag && !vacFlag {
        ToolStartBlock();
      }
      if !remoteFlag && !toolFlag && vacFlag {
        StopBlock(reading);
      }
      if Consistent(start) {
        ArbitrateKeepsConsistent(start, reading);
      }
    }

    /** The body of the remote-start `if`: remote LED, vacuum LED and relay
        on, then the running flag set. */
    method RemoteStartBlock()
      modifies this`vacFlag, this`vacLed, this`remoteLed, this`relay, this`trace
      ensures Snapshot() == RemoteStart(old(Snapshot())).ctl
      ensures trace == old(trace) + RemoteStart(old(Snapshot())).trace
    {
      remoteLed, trace := true, trace + [Write(RemoteLed, true)];
      vacLed, trace := true, trace + [Write(VacLed, true)];
      relay, trace := true, trace + [Write(Relay, true)];
      vacFlag := true;
      AppendThree(old(trace), Write(RemoteLed, true), Write(VacLed, true), Write(Relay, true));
    }

    /** The body of the tool-start `if`: tool LED on, the pre-start blink,
        then vacuum LED and relay on and the running flag set. */
    method ToolStartBlock()
      modifies this`vacFlag, this`vacLed, this`toolLed, this`relay, this`trace
      ensures Snapshot() == ToolStart(old(Snapshot())).ctl
      ensures trace == old(trace) + ToolStart(old(Snapshot())).trace
    {
      ghost var c := Snapshot();
      toolLed, trace := true, trace + [Write(ToolLed, true)];
      Flash(FlashesPerSecond, OnToolDelay);
      ConcatThree(old(trace), [Write(ToolLed, true)], FlashTrace(c.vacLed, FlashCount(FlashesPerSecond, OnToolDelay), FlashPeriod(FlashesPerSecond)), [Write(VacLed, true), Write(Relay, true)]);
      ghost var blinked := trace;
      vacLed, trace := true, trace + [Write(VacLed, true)];
      relay, trace := true, trace + [Write(Relay, true)];
      vacFlag := true;
      AppendTwo(blinked, Write(VacLed, true), Write(Relay, true));
    }

    /** The body of the stop `if`: the grace-period blink, vacuum LED and relay
        off, the running flag cleared, then both trigger LEDs off. */
    method StopBlock(reading: int)
      requires 0 <= reading <= FullScale
      modifies this`vacFlag, this`vacLed, this`toolLed, this`remoteLed, this`relay, this`trace
      ensures Snapshot() == Stop(old(Snapshot()), reading).ctl
      ensures trace == old(trace) + Stop(old(Snapshot()), reading).trace
    {
      ghost var c := Snapshot();
      var seconds := OffDelay(reading);
      Flash(FlashesPerSecond, seconds);
      ConcatTwo(old(trace), FlashTrace(c.vacLed, FlashCount(FlashesPerSecond, seconds), FlashPeriod(FlashesPerSecond)), [Write(VacLed, false), Write(Relay, false), Write(RemoteLed, false), Write(ToolLed, false)]);
      ghost var blinked := trace;
      vacLed, trace := false, trace + [Write(VacLed, false)];
      relay, trace := false, trace + [Write(Relay, false)];
      vacFlag := false;
      remoteLed, trace := false, trace + [Write(RemoteLed, false)];
      toolLed, trace := false, trace + [Write(ToolLed, false)];
      AppendFour(blinked, Write(VacLed, false), Write(Relay, false), Write(RemoteLed, false), Write(ToolLed, false));
    }
  }
}
