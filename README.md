# Shop-vacuum controller: a verified model

This project models the control logic of an Arduino (Nano) sketch that switches
a shop vacuum on and off with a solid-state relay. The relay has two triggers.
One is a current sensor on a power tool. The other is a wireless remote. There
are four parts:

- **Trigger latches.** `remoteFlag` and `toolFlag` are set by two pin-change
  interrupt handlers. Each handler sets its flag to the inverse of its
  active-low input pin.
- **Delay calculator.** `offDelay` turns a trim-pot reading into a shutdown
  grace period of 3 to 30 seconds.
- **Indicator driver.** `flash` blinks the yellow vacuum LED at 4 flashes per
  second for a given number of seconds. It blocks while it does so.
- **Main loop.** `loop` holds three guarded blocks: remote start, tool start
  (after a 3-second blink) and stop (after a grace-period blink). It drives
  the relay and the vacuum, tool and remote LEDs. The running flag `vacFlag`
  records whether the vacuum is on.

Module by module:

- `DelayCalculator` (delay_calculator.dfy) holds `OffDelay` in integer form:
  `(27 * x + 516) / 1032 + 3`. A lemma proves it equal, on every reading in
  [0, 1032], to Arduino's `round` applied to the sketch's formula
  `27 / 1032 * x + 3`, computed in exact real arithmetic. **Tie rule:**
  Arduino's `round` adds one half and truncates toward zero. So an exact half
  goes away from zero, which means up for these non-negative values. The
  readings 172, 516 and 860 give exact halves (7.5, 16.5, 25.5) and round to
  8, 17 and 26.
- `Io` (io.dfy) records the side effects as a trace. `Write(pin, level)`
  stands for a `digitalWrite` and `Wait(ms)` for a `delay`. Functions give
  the time a trace blocks, the number of writes to a pin, and the time before
  the first write to a pin.
- `IndicatorDriver` (indicator_driver.dfy) gives the trace of a blink, the
  toggle count `flashesPerSecond * seconds * 2` and the period
  `500 / flashesPerSecond`.
- `Arbiter` (arbiter.dfy) is the specification of one pass of `loop`. It
  works on a snapshot `Ctl` of the three flags and five outputs, and is
  written as an `if … else if …` chain, `Arbitrate`, over the state at the
  start of the pass. The lemmas about it cover: at most one transition, the
  no-op cases, the invariant `relay == vacFlag == vacLed`, no write to the
  power LED, and the order and timing of each transition.
- `Controller` (controller.dfy) is the class `VacController`. Its fields are
  the sketch's globals and outputs. A ghost field `trace` logs every write and
  every wait. `RemoteIsr` and `ToolIsr` take the pin level as a parameter.
  `Flash` is the counting loop. `Loop` runs the three separate `if`s of the
  sketch and is proved to equal `Arbitrate`. Each `if` body is its own method
  (`RemoteStartBlock`, `ToolStartBlock`, `StopBlock`); the sketch writes them
  inline. `Loop` takes the trim-pot reading that `offDelay` would sample.

Behaviour of the code that the model keeps and proves:

- `flash` toggles `f * s * 2` times, an even number, so the LED ends as it
  started. `Flash` promises this.
- At most one transition fires per pass, and none when no guard holds
  (`ArbitrateIdleIff`).
- When both latches are true no transition fires (`TriggersIgnored`).
- An interrupt handler overwrites its latch, so several edges before the next
  pass collapse into the last one (`EdgesCollapse`).

## Model

| member | source | states |
|---|---|---|
| DelayCalculator.OffDelay | src/main.cpp:53-57 | the delay is between 3 and 30 s; it is 3 at reading 0 and 30 at reading 1032 |
| DelayCalculator.IdealDelay | src/main.cpp:55 | reference definition of the sketch's interpolation `27 / 1032.0 * x + 3` in exact arithmetic; it stays within [3, 30] on [0, 1032] and hits 3 and 30 at the endpoints; `OffDelayIsArduinoRound` and `OffDelayTiesRoundUp` are stated against it |
| DelayCalculator.ArduinoRound | src/main.cpp:55 | reference definition of Arduino's `round`: the result is a nearest integer, and an exact half goes up for non-negative values and down for negative ones; `OffDelayIsArduinoRound` is stated against it |
| DelayCalculator.OffDelayIsArduinoRound | src/main.cpp:55 | the integer formula equals Arduino's `round` (half away from zero) applied to `27/1032 * x + 3` in exact arithmetic, for every reading in [0, 1032] |
| DelayCalculator.OffDelayMonotone | src/main.cpp:55 | a higher reading never gives a shorter delay |
| DelayCalculator.OffDelayTiesRoundUp | src/main.cpp:55 | readings 172, 516 and 860 are exact halves (7.5, 16.5, 25.5) and give 8, 17 and 26; reading 1023, the ADC maximum, already gives 30 |
| IndicatorDriver.FlashPeriod | src/main.cpp:61 | the wait after each toggle is the truncated quotient 500 / rate: `ms * rate <= 500 < (ms + 1) * rate` |
| IndicatorDriver.FlashCount | src/main.cpp:62 | the loop runs an even number of times, and runs at all exactly when `rate * seconds > 0` |
| IndicatorDriver.ToggledTimes | src/main.cpp:64 | after n toggles an output holds its start level when n is even and the inverse when n is odd |
| IndicatorDriver.FlashTrace | src/main.cpp:62-66 | n toggles issue 2n side effects |
| IndicatorDriver.FlashTraceAt | src/main.cpp:62-66 | the side effects alternate: a write of the next toggled level to the vacuum LED, then a wait of one period |
| IndicatorDriver.FlashTraceEffects | src/main.cpp:60-67 | a blink writes only the vacuum LED, exactly n times, and blocks for n periods |
| IndicatorDriver.FlashRestoresLevel | src/main.cpp:62-64 | every blink the loop can run leaves the vacuum LED at its starting level |
| IndicatorDriver.FlashDuration | src/main.cpp:61-65 | when the rate divides 500, a blink of s seconds blocks for exactly 1000 * s ms |
| Controller.VacController.Flash | src/main.cpp:60-67 | the blink toggles the vacuum LED `rate * seconds * 2` times, each followed by a `500 / rate` ms wait; the LED ends as it started and no other field changes |
| Controller.VacController.RemoteIsr | src/main.cpp:70-75 | `remoteFlag` becomes the inverse of the pin level; nothing else changes |
| Controller.VacController.ToolIsr | src/main.cpp:77-82 | `toolFlag` becomes the inverse of the pin level; nothing else changes |
| Controller.VacController.constructor | src/main.cpp:85-121 | the end state of setup: power LED on, other LEDs and relay off, all flags false, and the invariant holds |
| Controller.VacController.Loop | src/main.cpp:124-152 | the three sequential `if`s have the effect of the `else if` chain `Arbitrate` on the starting state, so at most one transition fires; the power LED is outside the frame; the invariant is kept |
| Controller.VacController.RemoteStartBlock | src/main.cpp:127-132 | remote LED, vacuum LED and relay on, in that order, then `vacFlag` set |
| Controller.VacController.ToolStartBlock | src/main.cpp:135-141 | tool LED on, then the 4-per-second blink for 3 s, then vacuum LED and relay on and `vacFlag` set |
| Controller.VacController.StopBlock | src/main.cpp:144-151 | blink for `offDelay` seconds, then vacuum LED and relay off, `vacFlag` cleared, then remote and tool LEDs off |
| Arbiter.RemoteStartGuard | src/main.cpp:127 | reference definition of the remote-start condition (remote latch set, tool latch clear, not running); its exclusivity is in `AtMostOneBranchFires` |
| Arbiter.ToolStartGuard | src/main.cpp:135 | reference definition of the tool-start condition (tool latch set, remote latch clear, not running); its exclusivity is in `AtMostOneBranchFires` |
| Arbiter.StopGuard | src/main.cpp:144 | reference definition of the stop condition (both latches clear, running); its exclusivity is in `AtMostOneBranchFires` |
| Arbiter.RemoteStart | src/main.cpp:127-132 | reference definition of the remote-start block: the new state and the three writes in order; latches and power LED untouched, vacuum and relay on, and the result is consistent exactly when the power LED is lit; `RemoteStartReplays` and `RemoteStartTiming` are about it |
| Arbiter.ToolStart | src/main.cpp:135-141 | reference definition of the tool-start block: the new state and the tool-LED write, blink and two writes in order; latches and power LED untouched, vacuum and relay on, and the result is consistent exactly when the power LED is lit; `ToolStartReplays` and `ToolStartTiming` are about it |
| Arbiter.Stop | src/main.cpp:144-151 | reference definition of the stop block: the new state and the blink and four writes in order; latches and power LED untouched, vacuum and relay off, and the result is consistent exactly when the power LED is lit; `StopReplays` and `StopTiming` are about it |
| Arbiter.Arbitrate | src/main.cpp:124-152 | reference definition of one pass as an `else if` chain: the running flag flips exactly when some guard holds, and the latches and power LED never change; `Loop` is proved equal to it |
| Arbiter.EdgesCollapse | src/main.cpp:70-82 | two handler edges in a row leave the latch as the second alone would, so the next pass sees only the last level read |
| Arbiter.AtMostOneBranchFires | src/main.cpp:127-151 | no two guards hold together; after remote start neither later guard holds, and after tool start the stop guard does not hold |
| Arbiter.ArbitrateIdleIff | src/main.cpp:124-152 | a pass changes nothing and issues nothing if and only if no guard holds |
| Arbiter.TriggersIgnored | src/main.cpp:127-151 | both latches set, or a latch set while already running, gives a pass with no effect; a running remote session ignores the tool latch |
| Arbiter.ArbitrateSettles | src/main.cpp:124-152 | if the latches do not change, the pass after any pass does nothing: a start is never repeated |
| Arbiter.ArbitrateKeepsConsistent | src/main.cpp:124-152 | a pass keeps `relay == vacFlag == vacLed`, keeps "a trigger LED is lit exactly while running" and keeps the power LED on |
| Arbiter.ArbitrateReplays | src/main.cpp:124-152 | a pass never changes the latches and never writes the power LED; each output ends at the last level the pass wrote to it |
| Arbiter.RemoteStartReplays | src/main.cpp:127-132 | the remote-start writes, replayed in order, produce exactly the new outputs |
| Arbiter.ToolStartReplays | src/main.cpp:135-141 | the tool-start writes and blink, replayed in order, produce exactly the new outputs |
| Arbiter.StopReplays | src/main.cpp:144-151 | the stop blink and writes, replayed in order, produce exactly the new outputs |
| Arbiter.RemoteStartTiming | src/main.cpp:127-132 | remote start takes no time: the relay is switched on before any wait |
| Arbiter.ToolStartTiming | src/main.cpp:135-141 | the tool LED lights at once; 3000 ms of blinking pass before the relay switches on; the vacuum LED is written 25 times (24 toggles, then on), the relay once, and the relay write comes last |
| Arbiter.StopTiming | src/main.cpp:144-151 | offDelay * 1000 ms of blinking pass before the relay switches off, and the pass ends there; the vacuum LED is written 8 * offDelay + 1 times (the toggles, then off), the relay once |

## Left out

- `setup` (src/main.cpp:85-121) configures the hardware: `pinMode`, the LED self-test, the relay pin and `attachInterrupt`. It is modelled only by its end state, the class constructor.
- The code under `DEBUG` (serial `printf` output and the choice of the on-board LED as relay pin) is compiled out and not modelled.
- Pin numbers are not modelled. Outputs are named symbolically (`Pin`), since the logic does not depend on them.
- Real timing and the pin reads are hardware calls. `delay` becomes a `Wait` event in the ghost trace. `digitalWrite` becomes a field update plus a `Write` event. `analogRead` becomes the `reading` parameter of `Loop`. `digitalRead` of an interrupt pin becomes the `level` parameter of the handlers. Reading back the vacuum LED in `flash` is its field.
- Interrupts that preempt the blocking blink are concurrency and are not modelled. The handlers are separate methods that run only between `Loop` passes. On the hardware, the latches can change during the tool-start blink. Because the three `if`s are not `else if`, the stop block could then run in the same pass. The at-most-one-transition result assumes no latch changes during a pass.
- Floating-point arithmetic in `offDelay` is replaced by exact arithmetic. On the Nano `double` is IEEE single precision. With round-to-nearest, `27 / 1032.0` is 0.0261627901…, and the single-precision value of `27 / 1032.0 * x + 3` falls on the same side of every half as the exact value for each reading in [0, 1032]. At readings 172, 516 and 860 it is exactly 7.5, 16.5 and 25.5. So the exact model and the float computation give the same delay, and a difference could only come from a float library that does not round to nearest. The model itself states nothing about float arithmetic.
- DelayCalculator.OffDelay: requires a reading in [0, 1032]. The ADC returns only 0 to 1023.
- Controller.VacController.Flash: requires a positive rate. Division by zero is undefined in C, and a negative rate would give a negative `delay` argument. The only caller passes 4.
- Controller.VacController.Flash: 16-bit `int` overflow of `rate * seconds * 2` is not modelled. The callers' largest value is 4 * 30 * 2 = 240.
- The `loop` is called forever by the Arduino runtime. The model gives a single pass; the invariant lemmas cover any sequence of passes and handler calls.
