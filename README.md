# NodeMCU fermentation thermostat — Dafny model

This project models the control core of a single-device thermostat for a
brewing vessel (the NodeMCU firmware `build/sketch/nodemcu-server.ino.cpp`).
The device reads one temperature sensor. It drives a heater line and a
cooler line with a latching controller. It lets a remote operator read and
partially update its configuration through `/config`. Each time its interval
elapses while it is running, it sends a telemetry frame over a persistent
channel.

The firmware keeps its state in file-level globals. The model gathers them
in one class, `Firmware.Controller`, whose methods are the firmware's
handlers. Each method is specified by a pure function, and the properties
are proved about those functions:

- `Control`: the decision of `compareTemps` (`Decide`), and the map from a
  state to the two output lines (`LinesFor`).
- `Telemetry`: the frame that `getNewData` builds. `Encode` writes the four
  records and `Decode` is the receiver's reading of them.
- `Timing`: the unsigned 32-bit millisecond clock and the tick gate of `loop`.
- `Config`: the guarded partial update of `handlePostRequest` (`ApplyPost`),
  the seven-field snapshot, and the GET/POST/404 dispatch on `/config`.
- `Cycle`: one tick as a value. It holds the corrected tick (`Tick`) and the
  tick as written (`TickAsWritten`); see Findings.
- `Firmware`: the class, its constructor (the globals' initial values and
  `setup`'s clock reading), and a client scenario that uses only the contracts.

Behaviour of the code that the model keeps as written:

- The first two branches of `compareTemps` are live. A cooling controller
  keeps cooling while the reading is at or above the setpoint. A heating
  controller keeps heating while the reading is at or below it. This is a
  real hysteresis around the setpoint, not around the band edges.
- The plausibility guard (`> 100 || < 0`) is tried after the band checks.
  So it only fires when no latch applies and the reading is inside the dead
  band. With the default setpoint, a reading of 150 gives COOLER, not ERR.
- A POST can set `running` to true but never back to false. A posted false
  cannot be told apart from an absent field.
- `dataInterval` accepts any posted value above 1 and stores it truncated to
  whole milliseconds. A posted 1.5 is therefore stored as 1. The invariant
  the guards keep is `dataInterval >= 1`.
- `setup` does not open the channel. It is first initialised by the first
  POST that carries a non-empty topic different from the current one (the
  topic starts empty).

## Model

| member | source | states |
|---|---|---|
| Control.Decide | build/sketch/nodemcu-server.ino.cpp:224-250 | the decision of compareTemps, branches in the firmware's order: ERR only for a reading above 100 or below 0; CORRECT only inside the band and within 0..100; COOLER from another state only above the band, HEATER from another state only below it |
| Control.CoolerLatch | build/sketch/nodemcu-server.ino.cpp:226-229 | in COOLER with a reading at or above the setpoint the state stays COOLER, for every reading and band |
| Control.HeaterLatch | build/sketch/nodemcu-server.ino.cpp:230-233 | in HEATER with a reading at or below the setpoint the state stays HEATER, for every reading and band |
| Control.CoolerReleasedOnlyBelowSetpoint | build/sketch/nodemcu-server.ino.cpp:226-241 | with a non-negative band, COOLER is kept if and only if the reading is at or above the setpoint; below it, it switches to HEATER exactly when the reading is below the lower band edge |
| Control.HeaterReleasedOnlyAboveSetpoint | build/sketch/nodemcu-server.ino.cpp:226-241 | with a non-negative band, HEATER is kept if and only if the reading is at or below the setpoint; above it, it switches to COOLER exactly when the reading is above the upper band edge |
| Control.OutsideBand | build/sketch/nodemcu-server.ino.cpp:234-241 | when no latch applies, a reading strictly above the band gives COOLER and one strictly below it gives HEATER |
| Control.BandEdgesStartNothing | build/sketch/nodemcu-server.ino.cpp:234-249 | when no latch applies, a reading exactly on a band edge gives CORRECT or ERR, never HEATER or COOLER |
| Control.ErrExactly | build/sketch/nodemcu-server.ino.cpp:242-245 | ERR comes out if and only if no latch applies, the reading is inside the band and it is above 100 or below 0 |
| Control.CorrectExactly | build/sketch/nodemcu-server.ino.cpp:246-249 | CORRECT comes out if and only if no latch applies and the reading is inside the band and within 0..100 |
| Control.FarAboveBandCools | build/sketch/nodemcu-server.ino.cpp:234-245 | with setpoint 60 and band 1, a reading of 150 gives COOLER and one of -40 gives HEATER from any state: the plausibility guard is shadowed |
| Control.ActionMatchesSide | build/sketch/nodemcu-server.ino.cpp:224-250 | with a non-negative band, HEATER is only decided at or below the setpoint and COOLER only at or above it |
| Control.SameReadingIsStable | build/sketch/nodemcu-server.ino.cpp:224-250 | with a non-negative band, deciding again on the same reading keeps the state |
| Control.LinesFor | build/sketch/nodemcu-server.ino.cpp:252-287 | once setNewState returns, the heater line is HIGH exactly in HEATER and the cooler line exactly in COOLER; the two are never both HIGH then; CORRECT and ERR switch both off |
| Telemetry.StateCode | build/sketch/nodemcu-server.ino.cpp:37-43 | the enum value of a state lies in 0..3 and a receiver decodes it back to the same state |
| Telemetry.FrameOf | build/sketch/nodemcu-server.ino.cpp:300-328 | the four records in the order of the `fields.add` calls, keyed state, currentTemp, setTemp, tempRange and typed int, float, float, float, whatever int value the state record holds |
| Telemetry.OutOfRangeCodeRejected | build/sketch/nodemcu-server.ino.cpp:304 | a frame whose state value lies outside 0..3 is rejected by a receiver |
| Telemetry.Encode | build/sketch/nodemcu-server.ino.cpp:300-328 | the frame's keys are state, currentTemp, setTemp, tempRange in that order, typed int, float, float, float |
| Telemetry.DecodeEncode | build/sketch/nodemcu-server.ino.cpp:300-328 | decoding a frame gives back the state, reading, setpoint and band it was built from |
| Telemetry.EncodeDecode | build/sketch/nodemcu-server.ino.cpp:300-328 | any frame that decodes is exactly the frame the firmware would build for the decoded report |
| Timing.Elapsed | build/sketch/nodemcu-server.ino.cpp:342 | the unsigned difference is the 32-bit value that, added to the start, gives the current clock modulo 2^32 |
| Timing.TickDue | build/sketch/nodemcu-server.ino.cpp:342 | the gate of loop: it only opens while the controller runs, always opens for a zero interval, and never opens for an interval of 2^32 ms or more |
| Timing.ElapsedAcrossWrap | build/sketch/nodemcu-server.ino.cpp:342 | for any span shorter than 2^32 ms, the elapsed time is measured exactly, also when millis() wraps |
| Timing.NoTickAtResetInstant | build/sketch/nodemcu-server.ino.cpp:334-345 | right after the timer reset the gate is closed for any interval of at least 1 ms |
| Timing.TickDueAfterInterval | build/sketch/nodemcu-server.ino.cpp:342-345 | d ms after the last tick, the gate is open if and only if the controller runs and d is at least the interval |
| Config.ApplyPost | build/sketch/nodemcu-server.ino.cpp:152-164 | the settings after a parsed POST body: running is never cleared; the topic stays or becomes the posted non-empty one; setpoint, half-band and interval stay or take a value above 1, above 0.1 and of at least 1 |
| Config.SnapshotOf | build/sketch/nodemcu-server.ino.cpp:125-131 | the seven-field snapshot (the same shape as lines 169-175) reports exactly the current settings and the two pins |
| Config.SetTempGuard | build/sketch/nodemcu-server.ino.cpp:154-155 | a posted setpoint above 1 is taken; otherwise, and when absent, the old value stays |
| Config.TempRangeGuard | build/sketch/nodemcu-server.ino.cpp:156-157 | a posted half-band above 0.1 is taken; otherwise, and when absent, the old value stays |
| Config.DataIntervalGuard | build/sketch/nodemcu-server.ino.cpp:158-159 | a posted interval above 1 is stored truncated to whole ms, at least 1; otherwise the old value stays |
| Config.RunningOnlyRaised | build/sketch/nodemcu-server.ino.cpp:152-153 | after a POST `running` is true if and only if it was true or the body carried true; a POST never clears it |
| Config.TopicGuard | build/sketch/nodemcu-server.ino.cpp:160-164 | the channel is re-initialised if and only if the topic changes, and it changes only to the posted non-empty topic |
| Config.ApplyPostKeepsValid | build/sketch/nodemcu-server.ino.cpp:152-164 | the guards keep setpoint > 1, half-band > 0.1 and interval >= 1 |
| Config.RepostIsNoOp | build/sketch/nodemcu-server.ino.cpp:152-164 | posting the same body twice: the second POST changes nothing and re-initialises nothing |
| Config.EchoIsNoOp | build/sketch/nodemcu-server.ino.cpp:120-180 | posting back the snapshot a GET returned changes nothing and re-initialises nothing |
| Config.RunningNeverCleared | build/sketch/nodemcu-server.ino.cpp:152-153 | once running, no sequence of POSTs stops the controller |
| Config.ApplyAllKeepsValid | build/sketch/nodemcu-server.ino.cpp:152-159 | every sequence of POSTs keeps the configuration invariant |
| Config.TopicChangeNeedsReinit | build/sketch/nodemcu-server.ino.cpp:160-164 | if a sequence of POSTs changes the topic, the channel was re-initialised at least once |
| Config.SameTopicReinitsAtMostOnce | build/sketch/nodemcu-server.ino.cpp:160-164 | posting the same topic any number of times re-initialises the channel at most once, and never when it is already the current topic |
| Config.TopicScenario | build/sketch/nodemcu-server.ino.cpp:160-164 | changing the topic from "a" to "b" re-initialises once, posting "b" again does not |
| Config.AfterRequest | build/sketch/nodemcu-server.ino.cpp:202-217 | GET, a malformed POST and any other method leave the configuration as it was |
| Config.Dispatch | build/sketch/nodemcu-server.ino.cpp:202-217 | GET and a parsed POST answer 200 JSON with the snapshot, a malformed POST answers nothing, any other method answers 404 |
| Cycle.Tick | build/sketch/nodemcu-server.ino.cpp:289-335 | a tick stores the decision, drives the lines for that same state, and sends a frame that decodes to that state and the reading, setpoint and band |
| Cycle.LinesForValue | build/sketch/nodemcu-server.ino.cpp:254-268 | setNewState over the raw int it receives: 1 cools, 0 heats, 2 and every value outside the enum switch both lines off; on enum values it agrees with LinesFor |
| Cycle.TickAsWritten | build/sketch/nodemcu-server.ino.cpp:297-328 | a tick as written: the stored state is the decision, while the lines and the frame follow the arbitrary int left by the missing return — for a value in 0..3 they are those of that enum value, for any other value both lines are off and the frame is rejected; the lines are never both HIGH on return |
| Cycle.AsWrittenDesynchronises | build/sketch/nodemcu-server.ino.cpp:297-304 | as written, a reading of 70 with setpoint 60 stores COOLER while an indeterminate return of 0 (HEATER) switches the heater on and reports HEATER |
| Cycle.AsWrittenOutOfRange | build/sketch/nodemcu-server.ino.cpp:297-304 | as written, an indeterminate return outside 0..3 switches both lines off and sends a frame no receiver accepts, while the stored state is COOLER |
| Cycle.TickIsAsWrittenWithReturn | build/sketch/nodemcu-server.ino.cpp:224-250 | the corrected tick is the written one with compareTemps returning the enum value of the state it stored |
| Cycle.TickDrivesCorrectSide | build/sketch/nodemcu-server.ino.cpp:297-298 | with a non-negative band a tick never drives the heater above the setpoint nor the cooler below it |
| Firmware.Controller.constructor | build/sketch/nodemcu-server.ino.cpp:27-53 | the start-up values: CORRECT, not running, empty topic, 60/1.0, 1000 ms, both lines LOW, timer started at the boot reading |
| Firmware.Controller.CompareTemps | build/sketch/nodemcu-server.ino.cpp:224-250 | the stored state becomes the decision for the reading and the old state, and is returned |
| Firmware.Controller.SetNewState | build/sketch/nodemcu-server.ino.cpp:252-269 | on return the lines are those of the given state and are not both HIGH |
| Firmware.Controller.TurnHeaterOn | build/sketch/nodemcu-server.ino.cpp:271-275 | on return heater HIGH, cooler LOW (written heater first) |
| Firmware.Controller.TurnCoolerOn | build/sketch/nodemcu-server.ino.cpp:277-281 | on return cooler HIGH, heater LOW (written cooler first) |
| Firmware.Controller.TurnAllOff | build/sketch/nodemcu-server.ino.cpp:283-287 | both lines LOW |
| Firmware.Controller.InitializeChannel | build/sketch/nodemcu-server.ino.cpp:82-87 | counts one more channel initialisation |
| Firmware.Controller.HandleGet | build/sketch/nodemcu-server.ino.cpp:120-136 | answers 200 JSON with the seven-field snapshot and changes nothing |
| Firmware.Controller.TakeGuardedFields | build/sketch/nodemcu-server.ino.cpp:152-159 | running, setpoint, band and interval become those of the guarded update |
| Firmware.Controller.HandlePost | build/sketch/nodemcu-server.ino.cpp:138-180 | a malformed body changes nothing and gets no answer; otherwise the configuration becomes the guarded update, the channel is re-initialised once on a topic change, the invariant is kept, and the answer is the new snapshot |
| Firmware.Controller.HandleConfig | build/sketch/nodemcu-server.ino.cpp:202-217 | the configuration becomes the effect of the request and the answer is the dispatched response; state, lines, timer and frames are untouched |
| Firmware.Controller.GetNewData | build/sketch/nodemcu-server.ino.cpp:289-335 | the state, lines and one appended frame are those of the corrected tick, the heater is never on above the setpoint, and the timer restarts (elapsed 0) |
| Firmware.HeatThenCoolScenario | build/sketch/nodemcu-server.ino.cpp:337-347 | from the contracts alone: an idle controller sends nothing; after a POST of running true it sends exactly two frames, decoding to HEATER at 58 and COOLER at 62.5 one interval later |
| Firmware.Controller.LoopStep | build/sketch/nodemcu-server.ino.cpp:337-347 | stores the clock, serves the request, then ticks exactly when the gate is open with the configuration after the request; otherwise state, lines, frames and timer are untouched |

## Left out

- WiFi association and the blocking connect loop in `setup` (lines 185-200): network I/O.
- The WebSocket client: its address (`/ws/topic/<topic>/asset/<UUID>`), event logging in `webSocketEvent`, reconnect interval and heartbeat (lines 82-118, 341). Re-initialisation is only counted (`channelInits`). `sendTXT` appends the frame to `sent`. Delivery is not modelled.
- OneWire/DallasTemperature acquisition (lines 294-295): a hardware driver. The reading is a parameter of `GetNewData` and `LoopStep`. The driver's sentinel value for a disconnected sensor is just another reading.
- JSON text, its parsing and `server.send`: snapshots, bodies and frames are records. A body either fails to parse (`Malformed`) or yields optional fields.
- ArduinoJson's conversion of absent or null fields (lines 152-161). An absent number reads as 0, so it fails its guard. An absent boolean reads as false. An absent topic reads as the empty string, so it changes nothing.
- Float precision: temperatures and posted numbers are `real`. Rounding of `float` values is not modelled. For example, a posted `tempRange` of 0.1 is rejected here, but as a single-precision float it may compare above the double 0.1 on the device.
- Firmware.Controller.TakeGuardedFields: a posted `dataInterval` of 2^32 or more has no defined conversion to `unsigned long`. The model stores its truncation unreduced, so the tick gate then never opens.
- `pinMode`, `digitalWrite` electrical effects and `Serial` output: the lines are two booleans.
- The lines are only stated between handler calls. The two writes in `turnHeaterOn` and `turnCoolerOn` (lines 273-274, 279-280) are not atomic, and each switches the new line HIGH before the other LOW. A direct switch between COOLER and HEATER can happen: a reading below the band while cooling, or a raised setpoint posted while cooling. Such a switch passes through both lines HIGH for one write. "Never both HIGH" in the contracts holds on return from `setNewState`, not in between.
- `server.handleClient()` serving a request is modelled as at most one `/config` request per loop pass. `webSocket.loop()` has no modelled effect.

## Findings

| source | as written | input that shows it | evidently intended | confidence | as-written member | corrected member |
|---|---|---|---|---|---|---|
| build/sketch/nodemcu-server.ino.cpp:224-250 | `compareTemps` stores the decision in `currentState` but has no return statement. `getNewData` passes its undefined return value to `setNewState` and writes it into the frame (lines 297-298, 304). Flowing off the end of a non-void function is undefined behaviour in C++. | any tick, e.g. reading 70, setpoint 60, band 1, previous CORRECT: the stored state is COOLER while the lines and the frame follow whatever value was returned — HEATER's 0 turns the heater on, a value outside the enum turns both lines off and yields a frame a receiver rejects | `return currentState;`, so lines and frame agree with the stored state | high that the value is undefined; not executed | Cycle.AsWrittenDesynchronises | Cycle.Tick |
