# SH-ESP32 test jig, modelled in Dafny

The SH-ESP32 test jig has two boards. The *device under test* (DUT) drives
three test pins with square waves: SDA at 100, SCL at 141 and DQ at 173 level
changes per second. It mirrors its OPTO_IN input onto OPTO_OUT, inverted, and
sends an NMEA 2000 "Temperature, Extended Range" message (PGN 130316) every
100 ms. The *controller* counts level changes on four inputs over 1000 ms
windows. It drives the DUT's OPTO_IN at 217 changes per second and latches the
temperature carried on the bus. Once a second it checks every reading against
its expected value, shows the verdict, and clears all five readings.

This project models the logic of both boards:

- `nmea.dfy` (module `Nmea`): a message as its PGN plus the outcome of the
  PGN 130316 parser, and the constants both boards use.
- `verdict.dfy` (module `Verdict`): the controller's verdict engine as
  values. It covers the tolerance checks, the five readings, what a counter
  report and a bus message do to them, `all_ok`, and the list of failing
  checks. It also has lemmas about whole cycles of inputs.
- `controller.dfy` (module `Controller`): class `Controller`. It holds the
  five accumulators, their consumer, message-handler and evaluation methods,
  and the two generators.
- `square_wave.dfy` (module `SquareWave`): class `Toggle`, one callback and
  its retained `static bool state`. It also has the write-trace functions and
  the parity lemmas.
- `device_under_test.dfy` (module `DeviceUnderTest`): class `Dut`. It holds
  four generators, the `opto_in_change` flag, the OPTO_OUT level and the
  interrupt and tick methods. It also has the mirror as a pure step function
  with lemmas over event sequences, and the message the DUT sends.
- `jig.dfy` (module `Jig`): how the two boards' configurations fit together.

Facts about the code that the model keeps:

- The generators register their timers at `1e6 / F` microseconds. Each
  invocation is one level change, and the counters count every change, so a
  generator at F yields about F counts per 1000 ms window.
- The frequency band is strict on both sides
  (`expected - tol < actual < expected + tol`).
- The DUT's DQ generator runs at 173, the value the controller expects; the
  comment next to it (device-under-test/src/main.cpp:44) says 141.

## Model

| member | source | states |
|---|---|---|
| Verdict.AssertIntAlmostEqual | controller/src/main.cpp:67-75 | the check passes exactly when the reading is strictly closer to the expected value than the tolerance |
| Verdict.BoundaryFails | controller/src/main.cpp:68 | a reading of exactly `expected - tol` or `expected + tol` fails, because both comparisons are strict |
| Verdict.ZeroCountFails | controller/src/main.cpp:32-35 | every expected frequency exceeds the tolerance 10, so a zero count fails every channel |
| Verdict.TemperatureOk | controller/src/main.cpp:201 | the bus check passes exactly on the closed band 297.65 ± 0.1 |
| Verdict.Latch | controller/src/main.cpp:96-116 | a consumer overwrites its own channel's reading with the count; the other channels and the temperature keep their values |
| Verdict.Handle | controller/src/main.cpp:50-65 | frequency readings never change; an accepted message (PGN 130316, parsed, main cabin source) latches its actual value; any other message changes nothing |
| Verdict.AllOk | controller/src/main.cpp:174-206 | `all_ok` holds exactly when all five checks pass |
| Verdict.FailuresExact | controller/src/main.cpp:181-204 | the displayed failures hold each failing check once and no passing check; the list is empty exactly when `all_ok` |
| Verdict.ClearedFailsEverything | controller/src/main.cpp:213-218 | after a reset with no new input, all five checks fail and are listed in order |
| Verdict.NominalPasses | controller/src/main.cpp:32-35 | the expected counts plus the expected temperature pass every check |
| Verdict.SingleFaultIsolated | controller/src/main.cpp:181-200 | moving one channel at least the tolerance away from nominal fails the verdict and lists that channel alone |
| Verdict.LatestCountWins | controller/src/main.cpp:93-117 | over a cycle, a channel's reading is the count of its last report; other events do not touch it |
| Verdict.UnreportedChannelKept | controller/src/main.cpp:93-117 | a channel with no report in a cycle keeps its reading |
| Verdict.LatestAcceptedWins | controller/src/main.cpp:57-64 | over a cycle, the latched temperature is the actual value of the last accepted message |
| Verdict.NoAcceptedMessageKept | controller/src/main.cpp:57-64 | without an accepted message the latched temperature is unchanged |
| Verdict.MissingMessageFails | controller/src/main.cpp:201-204 | a cycle from reset with no accepted message fails, and the bus check is listed |
| Verdict.ReportsInBandPass | controller/src/main.cpp:181-200 | a channel passes when all its reports in the cycle were in band and at least one arrived |
| Verdict.MessagesInBandPass | controller/src/main.cpp:201-204 | the bus check passes when every accepted message was in band and at least one arrived |
| Verdict.CycleInBandPasses | controller/src/main.cpp:173-219 | a cycle from reset is OK when every channel reported in band and an in-band accepted message arrived |
| Controller.Controller.constructor | controller/src/main.cpp:37-42 | all five accumulators start at 0; both generators start with state false and nothing written |
| Controller.Controller.Consume | controller/src/main.cpp:93-117 | the new state is `Latch` of the old state |
| Controller.Controller.HandleMessage | controller/src/main.cpp:50-65 | the new state is `Handle` of the old state; a rejected message changes nothing |
| Controller.Controller.Evaluate | controller/src/main.cpp:173-219 | returns `all_ok` and the failing checks of the old state, in order; then every accumulator is 0 whatever it held |
| Controller.Controller.FireToggle | controller/src/main.cpp:84-90 | the OPTO_OUT (217/s) or LED (2/s, lines 119-125) callback writes its state and inverts it; the other generator keeps its state |
| SquareWave.PeriodMicros | controller/src/main.cpp:86 | the timer interval `1e6 / F` truncated to whole microseconds: the largest period with `period * F <= 1e6` |
| SquareWave.Toggle.constructor | device-under-test/src/main.cpp:31 | the retained state starts false with nothing written |
| SquareWave.Toggle.Tick | device-under-test/src/main.cpp:30-34 | writes the current state and returns it, then inverts it; the write history grows by that level |
| SquareWave.StateAfterParity | device-under-test/src/main.cpp:30-34 | after n invocations the state is the start state inverted n mod 2 times |
| SquareWave.EvenInvocationsRestore | device-under-test/src/main.cpp:30-58 | after an even number of invocations a generator is back at its start state |
| SquareWave.LevelsByParity | device-under-test/src/main.cpp:30-34 | the i-th level written is the start level inverted i times |
| SquareWave.ConsecutiveLevelsDiffer | device-under-test/src/main.cpp:30-58 | consecutive writes of one generator always differ |
| SquareWave.LevelsExtend | device-under-test/src/main.cpp:32-33 | one more invocation appends the current state to the levels written |
| DeviceUnderTest.MirrorStep | device-under-test/src/main.cpp:62-72 | an interrupt only raises the flag; a tick with the flag set clears it and sets OPTO_OUT to the inverse of OPTO_IN; a tick with the flag clear changes nothing |
| DeviceUnderTest.RunAppend | device-under-test/src/main.cpp:62-72 | running two event sequences in a row equals running their concatenation, for the state and for the writes |
| DeviceUnderTest.EdgeBurst | device-under-test/src/main.cpp:62-64 | any positive number of interrupts only sets the flag and writes nothing |
| DeviceUnderTest.BurstThenTickWritesOnce | device-under-test/src/main.cpp:62-72 | k ≥ 1 interrupts followed by one tick write OPTO_OUT exactly once, with the inverse of the level read |
| DeviceUnderTest.ServicedChange | device-under-test/src/main.cpp:62-71 | one interrupt then one tick writes the inverse of the level read and clears the flag |
| DeviceUnderTest.FollowMirrors | device-under-test/src/main.cpp:60-72 | if each input change is serviced before the next, OPTO_OUT gets the negated input sequence, one write per change |
| DeviceUnderTest.MirrorPreservesChanges | device-under-test/src/main.cpp:60-72 | an alternating input gives an alternating output with as many changes |
| DeviceUnderTest.Dut.constructor | device-under-test/src/main.cpp:21 | the flag starts clear (zero-initialised) and all four generators start with state false and nothing written |
| DeviceUnderTest.Dut.FireToggle | device-under-test/src/main.cpp:28-58 | one generator writes its state and inverts it; the other three keep their state |
| DeviceUnderTest.Dut.Interrupt | device-under-test/src/main.cpp:62-64 | the new mirror state is `MirrorStep(old, Edge)`: only the flag changes |
| DeviceUnderTest.Dut.Tick | device-under-test/src/main.cpp:67-72 | the new mirror state is `MirrorStep(old, Poll(level read))` |
| Jig.GeneratorsMatchExpectations | device-under-test/src/main.cpp:28-50 | each generator's rate equals the count the controller expects on the channel it feeds |
| Jig.IdealWindowCountPasses | controller/src/main.cpp:93-94 | the ideal number of firings in a 1000 ms window, ±1, passes that channel's check |
| Jig.ProducedMessageLatched | device-under-test/src/main.cpp:102-106 | the DUT's message (SID 1, instance 1, main cabin, 273.15 + 24.5) passes the controller's filter and latches exactly that value |
| Jig.ProducedValuePasses | controller/src/main.cpp:201 | the value the DUT sends passes the controller's bus check |
| Jig.NominalCycleOk | controller/src/main.cpp:173-219 | a cycle from reset is OK when every channel reports within one of its ideal count and the DUT's message is the only accepted message |
| Jig.OptoLoopPreservesChanges | device-under-test/src/main.cpp:60-72 | n writes of the controller's 217/s OPTO_OUT wave, each serviced by the DUT as a change, come back as n alternating OPTO_OUT writes (ideal: the first write counts as a change) |

## Left out

- Scheduling (ReactESP `onRepeat`, `onRepeatMicros`, `onInterrupt`, `onTick`, `tick`) is left out. Every callback is a method that its caller invokes. Timing and frequency claims appear only as the ideal-timing lemmas above.
- SensESP's `DigitalInputCounter` is left out. Only the count it hands to a consumer is modelled. The unprotected read-and-reset of its counter, which races with interrupts, is not modelled.
- The NMEA 2000 stack is left out: `ParseN2kTemperatureExt`, `SetN2kTemperatureExt`, `SendMsg`, `ParseMessages` (polled every 1 ms), product and device information, and CAN framing. A message is its PGN plus the parser's outcome. The library is assumed to read back what it wrote, so the 0.001 K quantisation of the encoding is not modelled. `N2kts_MainCabinTemperature` is taken as the library's code 4.
- Nmea.SetTemperatureExt: a stand-in for the library call, with no contract of its own.
- Verdict.TemperatureOk: uses exact reals. It does not model IEEE `double` arithmetic, the narrowing of the parsed `double` into `float cabin_temperature`, or NaN. With NaN, the source's `> 0.1` comparison would be false and the check would pass.
- Verdict.AssertIntAlmostEqual: uses unbounded integers. The 32-bit overflow of `expected ± tol` cannot happen with the constants the source passes.
- Serial and display output are left out: `Serial.printf`, `display->printf`, uptime, OK! rendering, `delay`, `pinMode`, I2C and display setup. Only the booleans and the list of failing checks remain.
- Pin I/O is abstract. `digitalWrite` becomes the returned level, plus a ghost history for the generators and a field for OPTO_OUT. `digitalRead(OPTO_IN_PIN)` is a parameter of `Dut.Tick`. The level of OPTO_OUT before its first write is a constructor parameter.
- DeviceUnderTest.Dut.Tick: interrupts are treated as separate sequential events. The model does not capture an interrupt that lands between the tick's test of `opto_in_change` and its clearing, which the source would lose.
- The set temperature that `ParseN2kTemperatureExt` also returns is carried in the message but never used, as in the source.
