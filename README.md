# Stress-ball: a Dafny model

The stress ball is a force sensor on a microcontroller plus a desktop app.
The firmware (`main.py`) reads the sensor's 16-bit ADC value ten times a second,
divides it by 64 and prints the result as a decimal line over USB; MicroPython's
console output ends each line with "\r\n".
The app (`stress_ball/app.py`, class `stressball`) has a button that starts and
stops reading. While it reads, a worker loop opens the serial port at a fixed
path, strips and parses each received line, stores the sample in
`current_value`, and hands one or two display updates to the UI event loop: first
the value label, then the stress level when a band holds the sample. The level
is the first band in a static table of five inclusive ranges that holds the
sample.

The model has five modules, plus `Wrappers`, which holds the `Option` type:

- `Text`: Python's `str.strip()`, the decimal text `f"{n}"`, and the sample parser standing in for `float(line)`.
- `Firmware`: the `// 64` scaling and the sampling loop, run over a finite sequence of readings.
- `Levels`: the shipped band table and the first-match classifier.
- `App`: the class `StressBall` with the fields `isReading`, `currentValue` and `queue`, plus the two widget texts `toggle_reading` sets directly.
  - Every `loop_call` appends one `Notification` to `queue`, in order.
  - `ReadLoop` runs `read_loop` sequentially. It takes the outcome of opening the port and a finite sequence of events (`Line`, `NoData`, `StopRequested`, `IoFailure`).
  - Its `ensures` ties the new state to the pure specification `ReadLoopSpec`, which is built from `RunEvents`. The lemmas about the loop are proved about that specification.
- `Pipeline`: the two files together. It shows that every firmware line parses back to its scaled reading in the app, and which readings reach a band.

Observed behaviour worth knowing:

- The app calls `ser.close()` only on the normal exit (`Session.closes` is 1 exactly when the exit is `Stopped`). After an exception raised while reading, `ser.close()` is not called; the port object is released only when it is garbage-collected.
- The shipped table's fourth band is 601..700 and its fifth is 701..1000 (`app.py:24-25`).
- The port path is fixed (`app.py:83`). The loop has no port discovery and no reconnection: any exception ends it (`app.py:103-107`).
- The error-status callback (`app.py:105`) reads the exception variable `e` from a lambda. Python unbinds `e` when the `except` clause ends, which the worker reaches right after `app.py:106-107`, so when the UI loop runs that callback it most likely raises `NameError` and "Error: ..." is never shown. The model records this callback as its own notification, `ErrorStatus(reason)`, not as a status text.
- Readings of 64064 and above scale to 1001..1023. No band holds those values, so such a sample updates the value label but not the level.

## Model

| member | source | states |
|---|---|---|
| `Text.Strip` | stress-ball/stress-ball/src/stress_ball/app.py:88 | `line.strip()`: leading whitespace dropped, then trailing whitespace; its properties are in `TrimStartSpec`, `TrimEndSpec`, `StripSpec`, `StripPadded` and `StripIdempotent` |
| `Text.TrimStartSpec` | stress-ball/stress-ball/src/stress_ball/app.py:88 | the result is a suffix of the input, everything dropped is whitespace, and it does not start with whitespace |
| `Text.TrimEndSpec` | stress-ball/stress-ball/src/stress_ball/app.py:88 | the result is a prefix of the input, everything dropped is whitespace, and it does not end with whitespace |
| `Text.StripSpec` | stress-ball/stress-ball/src/stress_ball/app.py:88 | the stripped line is empty or starts and ends with a non-whitespace character, and it is no longer than the input |
| `Text.StripPadded` | stress-ball/stress-ball/src/stress_ball/app.py:88 | stripping removes exactly the surrounding whitespace: whitespace + trimmed text + whitespace strips back to that text |
| `Text.StripIdempotent` | stress-ball/stress-ball/src/stress_ball/app.py:88 | stripping twice equals stripping once |
| `Text.Decimal` | main.py:12 | `f"{n}"` is non-empty, all decimal digits, with no sign, point or padding; only 0 starts with '0' |
| `Text.DecimalValue` | main.py:12 | the digits of `f"{n}"` denote `n` |
| `Text.DecimalTrimmed` | main.py:12 | the printed digits carry no surrounding whitespace |
| `Text.ParseSample` | stress-ball/stress-ball/src/stress_ball/app.py:90-91 | `float(line)` on a stripped line, restricted to integer literals, with `None` for the `ValueError`; its properties are in `ParseSampleSpec` and `ParseDecimal` |
| `Text.ParseSampleSpec` | stress-ball/stress-ball/src/stress_ball/app.py:90-91 | parsing succeeds exactly on an optionally signed run of decimal digits; an empty line or any other character fails (the `ValueError` path) |
| `Text.ParseDecimal` | stress-ball/stress-ball/src/stress_ball/app.py:91 | the parser recovers `n` from its decimal text, with no sign, a '+' or a '-' (giving -n) |
| `Firmware.Scale` | main.py:9 | the scaled value `r` is floor(raw/64): `64r <= raw < 64r + 64`, so every 16-bit reading gives 0..1023 |
| `Firmware.ScaleMonotone` | main.py:9 | a larger raw reading never scales to a smaller value |
| `Firmware.ScaleOnto` | main.py:9 | every value 0..1023 is the scaling of some reading |
| `Firmware.DecimalLength` | main.py:12 | a scaled value (below 10^4) prints as at most four digits |
| `Firmware.SampleLine` | main.py:12 | the line sent for a raw reading: the decimal text of its scaled value, then "\r\n"; its properties are in `SampleLineShape` and `Pipeline.SampleLineRoundTrip` |
| `Firmware.SampleLineShape` | main.py:12 | each sent line is 1 to 4 digits followed by "\r\n", with no leading zero unless it is "0" |
| `Firmware.SampleLoop` | main.py:7-14 | the loop prints one line per reading, in order, each the decimal text of the scaled reading |
| `Levels.Classify` | stress-ball/stress-ball/src/stress_ball/app.py:116-117 | returns the index of a band that holds the value with no earlier band holding it, or `None` exactly when no band holds it |
| `Levels.ClassifyFirst` | stress-ball/stress-ball/src/stress_ball/app.py:116-127 | any matching band with no earlier match is the one chosen; later bands are never chosen over it |
| `Levels.OrderedBelow` | stress-ball/stress-ball/src/stress_ball/app.py:20-26 | in an ordered table every later band starts above the end of every earlier band |
| `Levels.OrderedDisjoint` | stress-ball/stress-ball/src/stress_ball/app.py:20-26 | the bands of an ordered table are pairwise disjoint |
| `Levels.OrderedClassify` | stress-ball/stress-ball/src/stress_ball/app.py:116-127 | in an ordered table the band that holds the value is the one chosen |
| `Levels.ShippedOrdered` | stress-ball/stress-ball/src/stress_ball/app.py:20-26 | the shipped table is ordered: each band non-empty and strictly below the next |
| `Levels.ShippedPartition` | stress-ball/stress-ball/src/stress_ball/app.py:20-26 | with the shipped table a value lies in some band exactly when it is in 0..1000, and never in two |
| `Levels.ShippedClassify` | stress-ball/stress-ball/src/stress_ball/app.py:20-26 | the band the shipped table gives each value: 0..200, 201..400, 401..600, 601..700, 701..1000, otherwise none |
| `App.Toggled` | stress-ball/stress-ball/src/stress_ball/app.py:70-78 | toggling negates `is_reading`, the button offers the opposite action ("Stop Reading" while reading), the status shows "Connecting..." or "Disconnected", and the queue and value are unchanged |
| `App.LevelNotes` | stress-ball/stress-ball/src/stress_ball/app.py:115-127 | the level callback `update_image_for_value` schedules: one for the band `Classify` picks, none when no band holds the value; its property is in `SampleNotesOrder` |
| `App.SampleNotes` | stress-ball/stress-ball/src/stress_ball/app.py:93-94 | what a parsed sample schedules: the value label, then the level callback; its property is in `SampleNotesOrder` |
| `App.HandleLine` | stress-ball/stress-ball/src/stress_ball/app.py:88-96 | one received line: a parsed value becomes `current_value` and its notifications are queued, an unparsable line changes nothing; its properties are in `ValidLineRecorded`, `InvalidLineSkipped` and `Pipeline.LineKeepsMode` |
| `App.HandleError` | stress-ball/stress-ball/src/stress_ball/app.py:103-107 | the `except` branch: the error-status callback and the button reset are queued and `is_reading` is cleared; its properties are in `OpenedSession` and `FailedOpenSession` |
| `App.Step` | stress-ball/stress-ball/src/stress_ball/app.py:86-98 | one iteration for an event that does not raise: a line is handled, a stop request toggles, an idle poll changes nothing; its properties are in `StepExit`, `StepLog` and `Pipeline.LineKeepsMode` |
| `App.ReadLoopSpec` | stress-ball/stress-ball/src/stress_ball/app.py:81-107 | the whole `read_loop`: "Connected" after a successful open, the loop, then "Disconnected" and one close on a stop, or the error branch; its properties are in `OpenedSession` and `FailedOpenSession` |
| `App.RunEvents` | stress-ball/stress-ball/src/stress_ball/app.py:86-98 | the loop consumes no more events than it is given, and it uses them all if it is still reading when they run out |
| `App.SampleNotesOrder` | stress-ball/stress-ball/src/stress_ball/app.py:93-94 | a sample schedules its value label first, then at most one level update, for the first band holding it, and none when no band holds it |
| `App.InvalidLineSkipped` | stress-ball/stress-ball/src/stress_ball/app.py:90-96 | a line that fails to parse changes neither the state nor the queue, and the loop goes on with the next event |
| `App.ValidLineRecorded` | stress-ball/stress-ball/src/stress_ball/app.py:91-94 | a line that parses sets `current_value` to its value, appends exactly its label and level notifications, and leaves `is_reading` and the widget texts alone |
| `App.RunEventsQueue` | stress-ball/stress-ball/src/stress_ball/app.py:86-96 | the queue grows by the notifications of the consumed lines, in arrival order, and by nothing else |
| `App.RunEventsValue` | stress-ball/stress-ball/src/stress_ball/app.py:86-92 | `current_value` ends as the value of the last consumed line that parsed |
| `App.RunEventsExit` | stress-ball/stress-ball/src/stress_ball/app.py:86-107 | every event before the last consumed one let the loop continue; it leaves on a stop request (button and status reset), on an I/O failure (the last event consumed), or, when input runs out, still reading |
| `App.OpenedSession` | stress-ball/stress-ball/src/stress_ball/app.py:84-107 | "Connected", then the consumed lines' notifications, then "Disconnected" on stop or the error-status callback and button reset on failure. The port is closed once on stop and never otherwise, and no event after a failure is consumed |
| `App.FailedOpenSession` | stress-ball/stress-ball/src/stress_ball/app.py:83-107 | if opening fails, only the error-status callback and the button reset are queued; reading stops, nothing is consumed and nothing is closed |
| `App.ToggleTwice` | stress-ball/stress-ball/src/stress_ball/app.py:70-78 | toggling twice restores `is_reading` and the queue |
| `App.StressBall.constructor` | stress-ball/stress-ball/src/stress_ball/app.py:16-26 | a new app is not reading, holds value 0, the shipped table, the initial button and status texts and an empty queue |
| `App.StressBall.ToggleReading` | stress-ball/stress-ball/src/stress_ball/app.py:70-79 | the new state is the toggled one, and a read loop is started exactly when reading was off |
| `App.StressBall.LoopCall` | stress-ball/stress-ball/src/stress_ball/app.py:109-110 | the callback is appended at the back of the queue; nothing else changes |
| `App.StressBall.UpdateValue` | stress-ball/stress-ball/src/stress_ball/app.py:112-113 | appends the value-label update |
| `App.StressBall.UpdateImageForValue` | stress-ball/stress-ball/src/stress_ball/app.py:115-127 | the band scan appends one level update for the first matching band, or none |
| `App.StressBall.ReceiveLine` | stress-ball/stress-ball/src/stress_ball/app.py:88-96 | the new state is the line's specified effect (strip, parse, record and report, or skip) |
| `App.StressBall.Observe` | stress-ball/stress-ball/src/stress_ball/app.py:86-98 | one iteration for a non-raising event has the specified effect on the state |
| `App.StressBall.ReportError` | stress-ball/stress-ball/src/stress_ball/app.py:103-107 | queues the error-status callback, clears `is_reading`, then queues the button reset |
| `App.StressBall.ReadLoop` | stress-ball/stress-ball/src/stress_ball/app.py:81-107 | the final state, exit, consumed events and close count are those of `ReadLoopSpec`, about which `OpenedSession` and `FailedOpenSession` hold |
| `Pipeline.SampleLineRoundTrip` | main.py:12 | stripping and parsing a printed firmware line recovers the scaled reading |
| `Pipeline.PaddedLineRoundTrip` | main.py:12 | the round trip holds whatever whitespace surrounds the digits, so it does not depend on the exact line ending |
| `Pipeline.HighReadingsUnclassified` | main.py:9 | readings of 64064 or more scale to 1001..1023, which no shipped band holds, so only the value label is updated |
| `Pipeline.LowReadingsClassified` | main.py:9 | readings below 64064 scale into 0..1000 and always get a level update |
| `Pipeline.FirmwareLinesUpdates` | main.py:7-14 | the loop schedules, for each firmware reading in turn, the label and band of its scaled value |
| `Pipeline.FirmwareLastSample` | main.py:7-14 | after firmware lines, `current_value` is the last reading's scaled value |
| `Pipeline.LineKeepsMode` | stress-ball/stress-ball/src/stress_ball/app.py:88-96 | handling a line changes neither `is_reading` nor the widget texts |
| `Pipeline.AllLinesKeepReading` | stress-ball/stress-ball/src/stress_ball/app.py:86-96 | a loop that receives only lines never leaves its `while` |
| `Pipeline.ReadingFirmwareLines` | main.py:7-14 | a reading app fed the firmware's lines queues "Connected", then each reading's label and band in order. It stays reading, closes nothing and ends with the last reading as `current_value` |

## Left out

- Text.ParseSampleSpec: the parser `Text.ParseSample` accepts only an optionally signed decimal integer. Python's `float()` also accepts fractions, exponents, `inf`/`nan`, underscores and non-ASCII digits. Those are floating-point behaviour, and the firmware never prints them. The model's sample is the literal's exact integer. `float` agrees with it only up to 2^53 in magnitude: larger literals are rounded, and very long ones become `inf`, for which `int(value)` in the value-label callback raises `OverflowError`. The firmware's lines are at most 1023, well inside that range.
- The Toga UI is not modelled: widget construction, styles, image loading and its fallback label (`app.py:28-68`). Neither is the image load inside the level callback (`app.py:118-125`). A level update is the band index in the queue.
- pyserial I/O (`serial.Serial`, `in_waiting`, `readline`, UTF-8 decode, `close`) is replaced by the open outcome and the event sequence. Any exception from polling, reading or decoding is an `IoFailure` carrying its message. `close` is counted in `closes`. An exception raised by `ser.close()` itself (`app.py:100`) is not modelled: the code would then take the error branch instead of queuing "Disconnected", while the model always queues "Disconnected" after a stop and counts the close.
- Threads and `call_soon_threadsafe` are not modelled, and neither is the unsynchronised sharing of `is_reading`. A stop is the UI's `toggle_reading` running between two iterations. A second toggle before the loop sees the first, which would start a second reader, is concurrency and is not modelled.
- The running of queued callbacks on the UI event loop is not modelled. The queue records what is scheduled, in order.
- `time.sleep` polling (`app.py:98`, `main.py:14`) is outside the model because timing is not modellable. `NoData` is one idle iteration.
- The ADC and pin setup (`main.py:1-5`) are not modelled; a reading is an input in 0..65535.
- The console `print` of invalid lines and errors is not modelled, since it is only logging.
- The real loops are unbounded. The model runs over finite input. When the events run out while the app is still reading, the exit is `StillReading`: the port stays open and no final status is queued.
- The status and button texts `toggle_reading` sets directly are fields. The model does not track the label texts the queued callbacks later set, nor whether a callback raises when run (`ErrorStatus` most likely does).
