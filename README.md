# Thermostat chart, ingestion client and heater controller in Dafny

This project models three small sequential parts of a smart-thermostat
system and proves their properties.

- **The chart sketch** (`sketch.dfy`, module `Sketch`). The browser keeps a
  buffer of thermostat samples. On every redraw it does these things:
  - it computes a temperature domain (the min/max fold with seeds ±50 and a
    one-degree margin);
  - it maps temperature to y and time to x;
  - it draws whole-degree gridlines (with label thinning) and quarter-hour
    time gridlines (heavier and labelled on the hour);
  - it walks the samples from newest to oldest. For each sample it draws a
    step segment, a measured point, a setpoint segment or point, an
    outside-temperature point and a heater marker. It stops at the first
    sample left of the canvas.

  A redraw is the pure function `Frame`. It maps the buffer, the viewport,
  the wall-clock second and the zoom to the sequence of `line` / `point` /
  `text` primitives it issues. The imperative loops (`DrawVertGridLines`,
  `DrawHorzGridLines`, `DrawSamples`, and `ThermoSketch.Draw` around them)
  are proved equal to it. The buffer is the `stateRecords` field of the class
  `ThermoSketch`.
- **The ingestion client** (`client.dfy`, module `Client`). It holds the zoom
  (`sliceSecs`) and the current event stream, reduced to its `readyState`. It
  also counts the subscriptions opened and the history requests issued and
  still outstanding. A history response replaces the buffer. A stream message
  appends one sample. A visibility change reopens the stream only when the
  page is visible and the stream is closed.
- **The heater controller** (`controller.dfy`, module `Controller`). The class
  `ThermoController` holds the controller's fields and a log of the
  `heater.enable` and `log_state` calls it has made. `update`,
  `set_desired_temp`, `change_desired_temp` and `_manage_temperature` are
  each proved to produce the state given by a pure function on
  `ControllerState`. The properties are lemmas about those functions.
  `_change_heater_state` is specified field by field. It is a step inside
  `_manage_temperature` and has no function of its own.

Some behaviours of the code that the model reproduces:

- The temperature gridlines run from `floor(temp_min)` up to but not including
  `ceil(temp_max)`. A domain of [59, 71] therefore gets lines 59..70, not
  60..70. See `Sketch.VertGridFiftyNineToSeventyOne`.
- The first time gridline is the next quarter hour strictly after the first
  sample's time. A first sample exactly on a quarter hour gets no line there.
- The bulk history response replaces the buffer whenever it lands. Live
  samples appended before it are lost. See `Client.BootstrapRace`.
- A stream is replaced only once it is CLOSED: `visibilityChanged` checks
  `readyState === 2`. `setUpEventProcessing` never calls `close()` on the old
  stream.

## Model

| member | source | states |
|---|---|---|
| `Sketch.JsRem` | src/static/sketch.ts:70 | JavaScript `%` truncates toward zero: <br>• for a non-negative dividend it is the Euclidean remainder; <br>• for a negative dividend it lies in `(-b, 0]` and the dividend minus it is a multiple of `b`; <br>• it is zero exactly when `b` divides the dividend. |
| `Sketch.Ceil` | src/static/sketch.ts:46 | `Math.ceil`: the least integer not below the value. |
| `Sketch.FoldMin` | src/static/sketch.ts:21-27 | The `reduce` with `Math.min` is at most the seed and at most every current, desired and outside temperature. It equals the seed or one of those temperatures. |
| `Sketch.FoldMax` | src/static/sketch.ts:21-28 | The `reduce` with `Math.max` is at least the seed and every temperature. It equals the seed or one of them. |
| `Sketch.TempRange` | src/static/sketch.ts:26-28 | For a non-empty buffer: `temp_min <= t - 1` and `t + 1 <= temp_max` for every temperature `t`; `temp_min <= 49`; `temp_max >= -49`; `temp_max - temp_min >= 2`. |
| `Sketch.AxesFor` | src/static/sketch.ts:26-40 | The redraw's axes for a non-empty buffer have a temperature span of at least 2. Both mappings are defined for a non-zero zoom. |
| `Sketch.TempToYEnds` | src/static/sketch.ts:36 | `tempToY(temp_min) = 20` and `tempToY(temp_max) = height`. |
| `Sketch.TempToYIncreasing` | src/static/sketch.ts:36 | On a canvas taller than 20, `tempToY` is strictly increasing. |
| `Sketch.TimeToXRightEdge` | src/static/sketch.ts:32-41 | `timeToX(timeEnd) = width - 20`. |
| `Sketch.TimeToXSpacing` | src/static/sketch.ts:38-42 | `timeToX(t2) - timeToX(t1) = (t2 - t1) / sliceSecs`. |
| `Sketch.TimeToXIncreasing` | src/static/sketch.ts:38-42 | With a positive zoom, `timeToX` is strictly increasing. |
| `Sketch.ZoomScalesDistances` | src/static/sketch.ts:38-42 | Multiplying `sliceSecs` by `k` divides every horizontal distance by `k`. |
| `Sketch.VertGridlines` | src/static/sketch.ts:44-65 | There is one full-width line per integer `g` with `floor(temp_min) <= g < ceil(temp_max)`, in ascending order. A degree is labelled iff it is such a `g` and either the range spans fewer than 5 degrees or `g` is a multiple of 5. There are no other labels. |
| `Sketch.VertGridFiftyNineToSeventyOne` | src/static/sketch.ts:44-55 | For the domain [59, 71] there are twelve lines, 59..70. Only 60, 65 and 70 are labelled. |
| `Sketch.FirstLineTimeIsNextQuarterHour` | src/static/sketch.ts:68-70 | For `timeStart >= 0`, the first line time is a multiple of 900 in `(timeStart, timeStart + 900]`. |
| `Sketch.FirstLineTimeBeforeEpoch` | src/static/sketch.ts:70 | For a negative `timeStart`, the first line time is still a multiple of 900. For a start on a quarter hour it is `timeStart + 900`. Otherwise the quarter hour before it also lies after `timeStart`, so the loop skips one quarter hour. |
| `Sketch.HorzGridlines` | src/static/sketch.ts:67-87 | For `timeStart >= 0`: the lines are at `first + 900k`, in ascending order, all before `timeEnd`, and the next one would not be. Each spans y from 20 to `height`. Its weight is 2 on the hour and 1 otherwise. The hour labels are exactly the multiples of 3600 in `(timeStart, timeEnd)`. There may be no lines. |
| `Sketch.SampleChannels` | src/static/sketch.ts:97-123 | For one sample it draws exactly 3 primitives, plus 1 for the step segment and 1 for the heater marker, and no labels: <br>• a blue measured point at `(x, tempToY(current))`; <br>• a blue step segment at the older sample's height iff there is an older sample; <br>• a green setpoint segment back to the older sample iff the setpoint is unchanged, else a green point; <br>• an amber weight-6 point at the outside reading's own time; <br>• a heater point at y = 14 iff the heater is on. |
| `Sketch.SamplesStopAtLeftEdge` | src/static/sketch.ts:92-95 | The loop visits indices from the newest down. Every visited sample has `x >= 0`. The sample that stops it has `x < 0`. Only the visited samples contribute primitives, newest first. |
| `Sketch.TwoSampleScenario` | src/static/sketch.ts:92-123 | Two samples 15 s apart, zoom 15, drawn at the second one's time: <br>• they sit at the right edge and one pixel left of it; <br>• both are drawn; <br>• the equal setpoints give one held segment; <br>• only the newer sample has a heater marker. |
| `Sketch.TempMin` | src/static/sketch.ts:27 | Definition: the min fold seeded with 50, minus the one-degree margin. Its bounds are proved in `Sketch.FoldMin` and `Sketch.TempRange`. |
| `Sketch.TempMax` | src/static/sketch.ts:28 | Definition: the max fold seeded with -50, plus the one-degree margin. Its bounds are proved in `Sketch.FoldMax` and `Sketch.TempRange`. |
| `Sketch.P5Map` | src/static/sketch.ts:36 | Definition: p5's `map`, linear interpolation of one interval onto another. Its properties are `Sketch.TempToYEnds` and `Sketch.TempToYIncreasing`. |
| `Sketch.TempToY` | src/static/sketch.ts:36 | Definition: maps `[temp_min, temp_max]` onto `[20, height]`. Its properties are `Sketch.TempToYEnds` and `Sketch.TempToYIncreasing`. |
| `Sketch.XRight` | src/static/sketch.ts:34 | Definition: the canvas width less the 20-pixel right margin. Its property is `Sketch.TimeToXRightEdge`. |
| `Sketch.TimeToX` | src/static/sketch.ts:38-42 | Definition: seconds before `timeEnd`, divided by the zoom, counted left from the right edge. Its properties are `Sketch.TimeToXRightEdge`, `Sketch.TimeToXSpacing`, `Sketch.TimeToXIncreasing` and `Sketch.ZoomScalesDistances`. |
| `Sketch.FirstLineTime` | src/static/sketch.ts:70 | Definition: the first time-line expression with JavaScript's `%`. Its properties are `Sketch.FirstLineTimeIsNextQuarterHour` and `Sketch.FirstLineTimeBeforeEpoch`. |
| `Sketch.DegreeLine` | src/static/sketch.ts:50-53 | Definition: the full-width grey line at one degree. `Sketch.VertGridlines` proves the gridlines are these lines. |
| `Sketch.DegreeGridline` | src/static/sketch.ts:50-63 | Definition: one pass of the degree loop, the line plus the label under the thinning rule. Its properties are in `Sketch.VertGridlines`. |
| `Sketch.VertGridFrom` | src/static/sketch.ts:49-64 | Definition: the degree loop from one degree on. Its properties are in `Sketch.VertGridlines`, and `Sketch.DrawVertGridLines` is proved equal to it. |
| `Sketch.VertGrid` | src/static/sketch.ts:44-65 | Definition: `drawVertGridLines`. Its properties are `Sketch.VertGridlines` and `Sketch.VertGridFiftyNineToSeventyOne`. |
| `Sketch.QuarterHourLine` | src/static/sketch.ts:73-77 | Definition: the vertical time line, weight 2 on the hour. `Sketch.HorzGridlines` proves the gridlines are these lines. |
| `Sketch.QuarterHourGridline` | src/static/sketch.ts:73-85 | Definition: one pass of the quarter-hour loop, the line plus the hour label on the hour. Its properties are in `Sketch.HorzGridlines`. |
| `Sketch.HorzGridFrom` | src/static/sketch.ts:72-86 | Definition: the quarter-hour loop from one line time on. Its properties are in `Sketch.HorzGridlines`, and `Sketch.DrawHorzGridLines` is proved equal to it. |
| `Sketch.HorzGrid` | src/static/sketch.ts:67-87 | Definition: `drawHorzGridLines`. Its property is `Sketch.HorzGridlines`. |
| `Sketch.SampleAt` | src/static/sketch.ts:93-123 | Definition: one pass of the sample loop. Its properties are `Sketch.SampleChannels` and `Sketch.TwoSampleScenario`. |
| `Sketch.SamplesFrom` | src/static/sketch.ts:92-124 | Definition: the sample loop with its left-edge `break`. Its property is `Sketch.SamplesStopAtLeftEdge`, and `Sketch.DrawSamples` is proved equal to it. |
| `Sketch.Frame` | src/static/sketch.ts:13-125 | Definition: one redraw. `Sketch.ThermoSketch.Draw` is proved equal to it. |
| `Sketch.ThermoSketch.constructor` | src/static/sketch.ts:6 | The buffer starts empty. |
| `Sketch.ThermoSketch.AddStateRecord` | src/static/sketch.ts:127 | The buffer grows by one. The record is last. Earlier entries are unchanged. |
| `Sketch.ThermoSketch.AddAllStateRecords` | src/static/sketch.ts:128 | The buffer becomes exactly the given sequence. |
| `Sketch.ThermoSketch.Draw` | src/static/sketch.ts:13-125 | A redraw issues exactly `Frame(...)`: temperature gridlines, then time gridlines, then the sample loop. An empty buffer issues nothing. |
| `Sketch.DrawVertGridLines` | src/static/sketch.ts:44-65 | The counting loop issues exactly the temperature gridlines `VertGrid`. |
| `Sketch.DrawHorzGridLines` | src/static/sketch.ts:67-87 | The quarter-hour loop issues exactly the time gridlines `HorzGrid`. |
| `Sketch.DrawSamples` | src/static/sketch.ts:92-124 | The newest-to-oldest loop with its left-edge `break` issues exactly `SamplesFrom`. |
| `Client.EventStream.constructor` | src/static/thermoClient.ts:37 | A new stream is CONNECTING. |
| `Client.ThermoClient.constructor` | src/static/thermoClient.ts:26-33 | A new client has `sliceSecs = 15`, one subscription, one history request outstanding and a fresh connecting stream. |
| `Client.ThermoClient.SetUpEventProcessing` | src/static/thermoClient.ts:35-42 | It issues one history request and replaces `eventSource` with one newly opened stream. The zoom is unchanged. |
| `Client.ThermoClient.HistoryArrived` | src/static/thermoClient.ts:36 | The buffer becomes exactly the fetched samples. The stream and the counters are unchanged, except the outstanding count. |
| `Client.ThermoClient.HistoryFailed` | src/static/thermoClient.ts:36 | A failed history request changes only the outstanding count. The buffer is untouched. |
| `Client.ThermoClient.MessageArrived` | src/static/thermoClient.ts:40-46 | Each message on the open stream is appended once, after everything already in the buffer. There is no deduplication. The invariant holds: one history request per subscription. |
| `Client.ThermoClient.StreamOpened` | src/static/thermoClient.ts:39 | The stream moves from CONNECTING to OPEN. The handler only logs. The invariant is kept. |
| `Client.ThermoClient.StreamError` | src/static/thermoClient.ts:41 | A stream error changes only the stream's `readyState`. No new stream is opened, the buffer is untouched and the invariant is kept. |
| `Client.ThermoClient.Zoom` | src/static/thermoClient.ts:97-99 | `sliceSecs` becomes the entered value. Nothing else changes and the invariant is kept. |
| `Client.ThermoClient.VisibilityChanged` | src/static/thermoClient.ts:101-107 | A new subscription is set up (one fetch, one fresh stream) iff the page is visible and the stream is CLOSED. Otherwise it is the same stream, with no fetch and an untouched buffer. |
| `Client.BootstrapRace` | src/static/thermoClient.ts:35-46 | A live sample appended before the history response is lost. One appended after it is kept at the end. |
| `Client.ReconnectOnlyWhenVisibleAndClosed` | src/static/thermoClient.ts:101-107 | After the stream closes: <br>• hiding the page opens nothing; <br>• showing it opens exactly one stream; <br>• showing it again while that stream connects opens nothing. |
| `Controller.Started` | src/thermocontroller.py:9-19 | Definition: the constructor's state. Its property is `Controller.StartedState`. |
| `Controller.ExpireShutoff` | src/thermocontroller.py:36-37 | Definition: a shutoff past its suppression period is dropped. Its property is `Controller.CheckShutoff`. |
| `Controller.HeaterShouldBeOn` | src/thermocontroller.py:39-40 | Definition: heat is needed and no held shutoff is suppressing. Its property is `Controller.CheckHeaterRule`. |
| `Controller.Checked` | src/thermocontroller.py:35-60 | Definition: one `_manage_temperature`. Its properties are `Controller.CheckHeaterRule`, `Controller.CheckShutoff`, `Controller.CheckEnablesOnlyOnChange`, `Controller.CheckLogsOnlyOnChange`, `Controller.CheckTracksHeater` and `Controller.RepeatedCheckIsQuiet`. |
| `Controller.Updated` | src/thermocontroller.py:21-25 | Definition: `update`. Its properties are `Controller.UpdateSchedule`, `Controller.SetpointChangeIsLoggedNext` and `Controller.FirstUpdateLogsSetpoint`. |
| `Controller.WithDesiredTemp` | src/thermocontroller.py:27-30 | Definition: `set_desired_temp`. Its property is `Controller.SetpointChangeIsLoggedNext`. |
| `Controller.StartedState` | src/thermocontroller.py:9-19 | A new controller has the heater off, `desired_temp_changed` set, no shutoff, no calls, and its first check due at construction time. |
| `Controller.CheckHeaterRule` | src/thermocontroller.py:35-40 | After a check the heater is on iff `desired_temp - current_temp > 0` and no shutoff that has not expired is in its suppression period. |
| `Controller.CheckShutoff` | src/thermocontroller.py:35-58 | A check never introduces a shutoff. It drops the held one iff that one is past its suppression period or the heater is switched on. Switching off keeps it. |
| `Controller.CheckEnablesOnlyOnChange` | src/thermocontroller.py:41-60 | `heater.enable` is called once, with the new state, iff the heater state changes. Otherwise it is not called. |
| `Controller.CheckLogsOnlyOnChange` | src/thermocontroller.py:46-51 | `log_state` is called once iff the reading differs from the last one logged, the heater changes, or the setpoint changed. It passes pseudo-temp 23, the reading, the setpoint only if it changed and the heater state only if it changed. Afterwards `desired_temp_changed` is false and `previous_temp` is the reading. |
| `Controller.CheckTracksHeater` | src/thermocontroller.py:41-60 | Checks preserve this invariant: the `heater.enable` calls alternate on/off, starting with on, and `heater_is_on` is the last value passed. |
| `Controller.RepeatedCheckIsQuiet` | src/thermocontroller.py:35-51 | A second check with the same reading and shutoff answers changes nothing: no heater call and no log. |
| `Controller.UpdateSchedule` | src/thermocontroller.py:21-25 | Before `next_temp_read_time`, `update` changes nothing. From it on, `update` runs the check and sets the next read to `now + 5`. |
| `Controller.SetpointChangeIsLoggedNext` | src/thermocontroller.py:21-51 | After `set_desired_temp(t)` at time `now`, the next update, at any time `later >= now`, runs a check that logs the setpoint `t`. It also sets the next read to `later + 5`. |
| `Controller.FirstUpdateLogsSetpoint` | src/thermocontroller.py:9-25 | The first update at or after construction runs a check that logs the initial setpoint. |
| `Controller.ThermoController.constructor` | src/thermocontroller.py:9-19 | The fields are the `Started` state and the invariant holds. |
| `Controller.ThermoController.Update` | src/thermocontroller.py:21-25 | The new state is `Updated(old state, now, observation)`. The invariant is kept. |
| `Controller.ThermoController.SetDesiredTemp` | src/thermocontroller.py:27-30 | It sets `desired_temp`, sets the next read time to `now` and sets `desired_temp_changed`. Nothing else changes. |
| `Controller.ThermoController.ChangeDesiredTemp` | src/thermocontroller.py:32-33 | It is `set_desired_temp(desired_temp + amount)`. |
| `Controller.ThermoController.ManageTemperature` | src/thermocontroller.py:35-51 | The new state is `Checked(old state, observation)`. The invariant is kept. |
| `Controller.ThermoController.ChangeHeaterState` | src/thermocontroller.py:53-60 | It sets `heater_is_on`. It clears the shutoff only when switching on. It records one `heater.enable` call with the new value. |

## Left out

- p5 canvas plumbing is not modelled: `createCanvas`, `frameRate`, `background`, `translate`/`scale`, `push`/`pop`, text alignment and style. Each primitive keeps its stroke weight and a symbolic pen colour, and a label keeps the coordinates passed to `text`.
- The hour-label text is not modelled, because `getHours` depends on the local time zone. A label carries the line's epoch time instead (`HourOf`).
- The clocks are parameters. `Date.now()` becomes the whole second `now`, and `monotonic()` becomes a `now: real` argument.
- Temperatures are `real`. IEEE-754 rounding, NaN and Infinity are not modelled.
- Sketch.ThermoSketch.Draw: requires a non-zero zoom, because the source would divide by zero and draw at infinite or NaN coordinates.
- Sketch.HorzGridlines: is proved only for `timeStart >= 0`. The model computes the first line with JavaScript's truncating `%` for any time. For a negative time that is not on a quarter hour, that skips one quarter hour, as `Sketch.FirstLineTimeBeforeEpoch` proves.
- The redraw reads the zoom from the client's `sliceSecs`, which is a global in the source. Here it is an argument of `Draw`.
- `processEvent`'s status-panel updates, `toFixed` formatting and weather icons are not modelled (UI only), nor are the display-only sample fields (wind, pressure, humidity, weather).
- Client.ThermoClient.MessageArrived: requires an OPEN stream. A stream delivers messages only while open, and the client replaces a stream only after it has closed.
- The command endpoints `adjustTemp`, `activateFan`, `enableCool` and `schedule` are not modelled. They are fire-and-forget requests with no logic.
- Real `fetch`, `EventSource` and `JSON.parse` are not modelled. A message that fails to parse is not modelled either. The `visibilitychange` listener registration and the write of the zoom input's initial value are left out too.
- The browser's own reconnection of an errored stream is `StreamError` to CONNECTING followed by `StreamOpened`. It is not a new subscription.
- The temperature sensor, the heater driver, `logger.log_state` and the shutoff object's internals are not modelled. Each check takes the sensor reading and the shutoff's two answers as an `Observation`. The calls are recorded in a call log.
