# Bird feeder presence detection, modelled in Dafny

This project models the control core of a bird feeder monitor, and proves properties of that model. The monitor decides when a bird has landed on or left a feeder perch. It uses two inputs:

- a camera, whose frames are compared by frame differencing;
- a load cell. The load cell is read either directly (an HX711 on the host) or through a Raspberry Pi Pico. The Pico streams `WEIGHT:`/`ERROR:` lines over USB serial.

The model covers these parts:

- **Presence fusion** (`Presence`, `Feeder.BirdFeeder`).
  - Each call of `read_sensors` fuses a motion score and an optional weight into at most one `Landed`/`Left` event. It works over `bird_present`, `bird_approaching`, `no_motion_frames` and `approach_time`.
  - With both sensors enabled, the approach-aware logic applies: motion without weight starts an approach. A weight hit lands the bird at once, labelled "scale". Motion that lasts past the wait time lands it "motion-only".
  - With a single sensor, the simpler toggle applies.
  - A bird departs on the N-th consecutive quiet tick.
- **Motion sampling** (`Feeder.MotionScore`, `Feeder.BirdFeeder.DetectMotion`). The score counts pixels whose gray level changed by more than 30. A failed read or a missing baseline scores 0.
- **Photo cooldown** (`Feeder.PhotoGate`, `Feeder.GateRun`, `Feeder.BirdFeeder.TakePhoto`). Captures are refused within the cooldown of the last successful capture.
- **Direct-scale filter** (`StableWeight`, `Sorting`): sort the samples, trim 40 % from each end (at least 3), and take the median or the fallback median.
- **Serial link on the host** (`SerialLink`):
  - the READY handshake;
  - classification of each line the read loop receives, and the `latest_weight` it publishes;
  - the TARE command sent after a departure.
- **Pico firmware** (`Pico`):
  - the filtered raw reading (zero and missing samples are dropped, then the mean of the sorted samples without the extremes);
  - calibration to grams and the tare command;
  - command dispatch and the line reported on each pass.
- **Protocol** (`Protocol`): every line the firmware prints, read by the host's read loop.
- **Legacy prototype** (`Legacy`): the loop of the top-level `main.py`, which toggles presence on a ten-sample weight and on the change in mean frame brightness.

Modelling choices:

- Weights, times and raw readings are exact `real`s.
- Python's `list.sort()` is a functional insertion sort. It is proved sorted and a permutation of its input.
- The host's `float()` is a parameter `parse: string -> Option<real>`, where `None` stands for `ValueError`.
- The firmware's `.2f` formatting is a parameter `fmt: real -> string`.
- The camera, the clock and the load cell are inputs to each operation: a frame and a read flag, timestamps, and sample sequences.
- `take_photo` tests `self.last_photo_time` by Python truthiness. A capture taken at time `0.0` therefore starts no cooldown: requests at 0 s, 3 s and 6 s capture at 0 s and 3 s. `Feeder.CoolingDown` models this, and `Feeder.ZeroTimeCaptureIgnored` shows it.
- The host extracts the field of a `WEIGHT:`/`ERROR:` line with `split(":")[1]`. That is the text between the first colon and the second one, not everything after the first colon. `SerialLink.UpToColon` models this.

## Model

| member | source | states |
|---|---|---|
| `Sorting.ConsSorted` | bird-feeder/main.py:288 | an element no larger than the head of a sorted list may go in front of it |
| `Sorting.Insert` | bird-feeder/main.py:288 | inserting into a sorted list keeps it sorted and adds exactly the new element (multiset), at the front or behind the old head |
| `Sorting.Sort` | bird-feeder/main.py:288 | `readings.sort()` returns a sorted permutation of the readings, of the same length |
| `Sorting.SortedElementFromInput` | main.py:33 | every element of the sorted list is one of the samples |
| `StableWeight.OutliersToRemove` | bird-feeder/main.py:289 | `max(3, int(samples * 0.4))` is at least 3, and is `floor(2*samples/5)` whenever that is 3 or more |
| `StableWeight.SliceBound` | bird-feeder/main.py:290 | a slice bound is clamped into the list: a bound in range stays, a negative one in range counts from the end |
| `StableWeight.TrimBoth` | bird-feeder/main.py:290 | `readings[k:-k]` is Python's slice from `k` to `-k`, of length `len - 2k` when `2k <= len` and empty otherwise |
| `StableWeight.TrimmedMedian` | bird-feeder/main.py:290-297 | both the trimmed median and the fallback pick the element at index `len // 2` of the sorted samples |
| `StableWeight.TrimmedSliceLength` | bird-feeder/main.py:290-292 | the trimmed slice holds at least 3 readings exactly when the trim leaves 3 or more |
| `StableWeight.TenSamplesFallBack` | main.py:104 | with ten samples, 4 are removed from each end, which leaves 2, so the fallback median is used |
| `StableWeight.TrimmedSliceUse` | main.py:36-47 | the trimmed slice is used exactly when the sample count is 9 or at least 11 |
| `StableWeight.CollectAndFilter` | main.py:23-49 | `get_stable_weight` returns the middle element of the sorted samples, which is one of the samples |
| `SerialLink.UpToColon` | bird-feeder/main.py:116 | `split(":")[1]` ends before the next colon, or at the end of the line |
| `SerialLink.Classify` | bird-feeder/main.py:114-130 | a line is a weight reading exactly when it starts with `WEIGHT:` and its field parses, with that value |
| `SerialLink.StepChangesOnlyOnParsedWeight` | bird-feeder/main.py:114-119 | one read-loop step changes `latest_weight` only on a parsed weight line, and then to the parsed value; an unparsable field is skipped |
| `SerialLink.StatusLinesLeaveWeight` | bird-feeder/main.py:121-130 | `ERROR:`, TARED, TARING (and READY) lines never change `latest_weight` |
| `SerialLink.NoWeightLineNoChange` | bird-feeder/main.py:107-136 | a stream with no parsable weight line leaves `latest_weight` unchanged |
| `SerialLink.AfterLinesCons` | bird-feeder/main.py:112-136 | the read loop over a stream is one step on its first line, then the loop over the rest |
| `SerialLink.LastWriteWins` | bird-feeder/main.py:107-136 | after a stream, `latest_weight` is the value of its last parsable weight line |
| `SerialLink.WeightTrace` | bird-feeder/main.py:138-140 | after each line, `get_weight()` returns the value the read loop has reached over the lines up to and including it |
| `SerialLink.Handshake` | bird-feeder/main.py:84-95 | the handshake succeeds exactly when READY arrives, and reading resumes just after the first READY |
| `SerialLink.UpToColonWhole` | bird-feeder/main.py:116 | a field with no colon in it is taken whole |
| `SerialLink.WeightLine` | bird-feeder/main.py:114-119 | `WEIGHT:t` (t without a colon) is a reading of `float(t)`, or malformed when that raises |
| `SerialLink.ErrorLine` | bird-feeder/main.py:121-124 | `ERROR:code` is classified as NO_READING or as a device error carrying the code |
| `SerialLink.ParsedWeightLine` | bird-feeder/main.py:116-117 | a weight line whose field parses publishes that value |
| `SerialLink.MalformedWeightLine` | bird-feeder/main.py:118-119 | a weight line whose field does not parse keeps the previous value |
| `SerialLink.TraceOfFour` | bird-feeder/main.py:138-140 | `get_weight()` after each of four lines follows the per-line steps |
| `SerialLink.ExampleStream` | bird-feeder/main.py:84-136 | READY, a weight, ERROR:NO_READING, a malformed weight and a second weight: the handshake ends at READY and the weights read None, a, a, a, b |
| `SerialLink.SerialWeightSensor.constructor` | bird-feeder/main.py:62-105 | `connected` holds exactly when the startup lines contain READY; no weight has been seen and nothing has been written |
| `SerialLink.SerialWeightSensor.ReadLine` | bird-feeder/main.py:111-130 | one line is classified and `latest_weight` becomes its next value |
| `SerialLink.SerialWeightSensor.ReadLoop` | bird-feeder/main.py:107-136 | after the loop has read the lines, `latest_weight` is the value the stream determines |
| `SerialLink.SerialWeightSensor.GetWeight` | bird-feeder/main.py:138-140 | the link returns the latest published weight |
| `SerialLink.SerialWeightSensor.Tare` | bird-feeder/main.py:142-150 | `TARE\n` is written only when connected, and nothing else changes |
| `Presence.Tick` | bird-feeder/main.py:199-257 | one fusion step keeps the state invariant and emits an event exactly when presence flips, `Left` exactly from a present bird |
| `Presence.InitialValid` | bird-feeder/main.py:163-167 | the initial fields satisfy the invariant |
| `Presence.PresentTick` | bird-feeder/main.py:228-237 | with a bird present, a quiet tick counts and departs at the threshold; any detection resets the counter |
| `Presence.ApproachStarts` | bird-feeder/main.py:206-210 | in dual mode, motion without weight from idle starts an approach at the current time and emits nothing |
| `Presence.MotionOnlyLandingIff` | bird-feeder/main.py:213-218 | a motion-only landing happens exactly on a motion tick of an approach with strictly more than the wait time elapsed |
| `Presence.WeightLandsAtOnce` | bird-feeder/main.py:221-225 | in dual mode, a weight hit with no bird present lands at once as "scale" and ends any approach |
| `Presence.ApproachSurvivesQuietTick` | bird-feeder/main.py:204-237 | a quiet tick during an approach changes nothing |
| `Presence.SingleModeLanding` | bird-feeder/main.py:240-247 | in single-sensor mode, a landing happens exactly when either reading qualifies with no bird present, labelled by the enabled sensor |
| `Presence.Run` | bird-feeder/main.py:194-257 | repeated ticks keep the state invariant |
| `Presence.DepartureAfterExactly` | bird-feeder/main.py:229-235 | from a present bird, N-1 quiet ticks emit nothing, and the N-th emits the single `Left` |
| `Presence.ApproachWaits` | bird-feeder/main.py:206-213 | motion-only ticks within the wait time keep the feeder approaching since the first one, with no event |
| `Presence.ApproachEnds` | bird-feeder/main.py:206-225 | an approach ends in one landing: "scale" on a weight hit, "motion-only" after the wait time |
| `Presence.RunAlternates` | bird-feeder/main.py:194-257 | landings and departures alternate over any run, and the final presence matches the parity of the event count |
| `Feeder.ChangedPixels` | bird-feeder/main.py:313-314 | the motion count is at most the number of pixels |
| `Feeder.ChangedPixelsCountsPositions` | bird-feeder/main.py:313-314 | the motion count is the number of positions whose gray level changed by more than 30 |
| `Feeder.StillFrameNoMotion` | bird-feeder/main.py:313-314 | identical frames score no motion |
| `Feeder.MotionScore` | bird-feeder/main.py:301-317 | a failed read or a missing baseline scores 0; otherwise the score is at most the frame size |
| `Feeder.PhotoGate` | bird-feeder/main.py:319-346 | no capture while cooling down; outside the cooldown a capture is taken, and the time recorded, exactly when a frame is read; anything but a capture keeps the recorded time |
| `Feeder.GateRun` | bird-feeder/main.py:324-346 | over many requests, the recorded time is that of the last capture taken |
| `Feeder.GateRunStep` | bird-feeder/main.py:324-346 | one more request is captured, and its time appended, exactly when it falls outside the cooldown of the last capture and a frame is read; otherwise nothing changes |
| `Feeder.CapturesNonZero` | bird-feeder/main.py:321-345 | capture times are request times, so none is 0.0 when no request time is |
| `Feeder.AppendSpaced` | bird-feeder/main.py:324-326 | a capture at least the cooldown after the latest one keeps all captures spaced by the cooldown |
| `Feeder.CapturesSpaced` | bird-feeder/main.py:324-326 | captures are at least the cooldown apart, measured from the last successful capture |
| `Feeder.CooldownExample` | bird-feeder/main.py:324-326 | with a 5 s cooldown, requests at 1, 4 and 7 s capture at 1 and 7 s |
| `Feeder.ZeroTimeCaptureIgnored` | bird-feeder/main.py:324-326 | a capture at time 0.0 starts no cooldown: requests at 0, 3 and 6 s capture at 0 and 3 s |
| `Feeder.BirdFeeder.constructor` | bird-feeder/main.py:162-192 | an idle presence state, no photo and no baseline; in serial mode, a fresh link whose connection follows the handshake |
| `Feeder.BirdFeeder.DetectMotion` | bird-feeder/main.py:301-317 | returns the motion score and replaces the baseline only when a frame was read |
| `Feeder.BirdFeeder.GetWeight` | bird-feeder/main.py:272-299 | no weight without a scale, the link's value in serial mode, and for a direct scale the trimmed median of 35 samples, which is one of them |
| `Feeder.BirdFeeder.Fuse` | bird-feeder/main.py:199-257 | the imperative branches update the fields and emit the event as the fusion step specifies |
| `Feeder.BirdFeeder.TakePhoto` | bird-feeder/main.py:319-346 | the capture and the new last-photo time are those of the cooldown gate |
| `Feeder.BirdFeeder.OnBirdLeft` | bird-feeder/main.py:392-401 | a departure sends the serial scale its tare command and leaves its weight and connection alone |
| `Feeder.BirdFeeder.ReadSensors` | bird-feeder/main.py:194-257 | a tick reads the weight and motion, follows the fusion step, photographs on a landing through the gate, and tares on a departure |
| `Legacy.ToggleThresholds` | main.py:106-130 | both toggles use strict comparisons: a reading equal to the threshold changes nothing, and a scale departure also tares |
| `Legacy.StillBirdFlaps` | main.py:102-130 | with both sensors on, a still bird on the scale is landed and then left in the same iteration |
| `Legacy.LoopReadingIsSixthSmallest` | main.py:104 | the loop's ten-sample reading is the sixth smallest sample |
| `Legacy.LegacyLoop.constructor` | main.py:9-97 | the loop starts with no bird, weight 0 and mean 0 |
| `Legacy.LegacyLoop.Iterate` | main.py:99-133 | one pass runs the scale half, then the motion half, as the iteration function specifies |
| `Legacy.LegacyLoop.ScaleHalf` | main.py:102-116 | the scale block sets the weight to the filtered reading and toggles presence as the scale half specifies |
| `Legacy.LegacyLoop.MotionHalf` | main.py:118-130 | the motion block stores the frame mean and toggles presence as the motion half specifies, after the scale block's actions |
| `Pico.Truthy` | bird-feeder/pico/main.py:42-45 | `if val:` keeps one value per present non-zero sample |
| `Pico.TruthyMembers` | bird-feeder/pico/main.py:42-45 | every kept value is a non-zero sample, and every present non-zero sample is kept |
| `Pico.MinOf` | bird-feeder/pico/main.py:52-58 | the smallest usable sample bounds them all |
| `Pico.MaxOf` | bird-feeder/pico/main.py:52-58 | the largest usable sample bounds them all |
| `Pico.StableReading` | bird-feeder/pico/main.py:38-58 | no reading exactly when fewer than three present non-zero samples arrive |
| `Pico.SumBounds` | bird-feeder/pico/main.py:58 | the sum of values within bounds lies within count times those bounds |
| `Pico.MeanBounds` | bird-feeder/pico/main.py:58 | the mean lies within any bounds of its values |
| `Pico.StableReadingBetweenExtremes` | bird-feeder/pico/main.py:38-58 | the filtered reading lies between the smallest and the largest usable sample |
| `Pico.Weigh` | bird-feeder/pico/main.py:62-68 | no weight without a reading; otherwise weight × factor = raw − TARE_VALUE − tare offset |
| `Pico.WeightOf` | bird-feeder/pico/main.py:60-68 | the filtered reading of the samples, calibrated as `Weigh` states |
| `Pico.RoundResults` | bird-feeder/pico/main.py:76-80 | one filtered reading per tare round |
| `Pico.RoundResultsAre` | bird-feeder/pico/main.py:76-80 | the result of round `i` is the three-sample filtered reading of that round's samples |
| `Pico.Present` | bird-feeder/pico/main.py:78-79 | `if raw is not None:` keeps one value per present result |
| `Pico.PresentMembers` | bird-feeder/pico/main.py:78-79 | every present result's value is kept, and every kept value is a present result |
| `Pico.PresentEmpty` | bird-feeder/pico/main.py:78-83 | nothing is kept exactly when every result is None |
| `Pico.TareFailsIffEveryRoundFails` | bird-feeder/pico/main.py:76-92 | `tare` collects no reading, and so fails, exactly when every round's filtered reading is None |
| `Pico.TareReadingsAre` | bird-feeder/pico/main.py:76-80 | `tare` collects every round's filtered reading, and each value it collects is some round's reading |
| `Pico.TareOutcome` | bird-feeder/pico/main.py:70-92 | TARING then TARED, with the measured average now weighing 0 g; or TARING then ERROR:TARE_FAILED with the offset kept |
| `Pico.CommandDispatch` | bird-feeder/pico/main.py:94-104 | TARE tares, PING answers PONG, and any other line or no line has no effect |
| `Pico.ReportOneLine` | bird-feeder/pico/main.py:112-118 | each pass prints exactly one line, `WEIGHT:` with the formatted weight or ERROR:NO_READING, and keeps the offset |
| `Pico.MainPassAsWritten` | bird-feeder/pico/main.py:106-126 | the loop as written never changes the tare offset, whatever command is waiting |
| `Pico.MainPassServing` | bird-feeder/pico/main.py:94-118 | a pass that serves commands ends with the report line of the weight under the new offset; a host TARE with readings zeroes the scale at their average, and nothing else moves the offset |
| `Pico.HostTareIgnored` | bird-feeder/pico/main.py:94-126 | a host TARE that would move the offset is ignored as written, but zeroes the scale when commands are served |
| `Pico.WeightSensor.constructor` | bird-feeder/pico/main.py:26-36 | the offset starts at 0 and READY is the first line printed |
| `Pico.WeightSensor.GetStableReading` | bird-feeder/pico/main.py:38-58 | the sampling loop returns the filtered reading |
| `Pico.WeightSensor.GetWeight` | bird-feeder/pico/main.py:60-68 | returns the calibrated weight of five samples |
| `Pico.WeightSensor.CollectTareReadings` | bird-feeder/pico/main.py:74-80 | the ten-round loop returns the collected tare readings: the present filtered readings of the rounds, in order |
| `Pico.WeightSensor.Tare` | bird-feeder/pico/main.py:70-92 | the ten-round loop updates the offset and output as the tare step specifies |
| `Pico.WeightSensor.CheckCommand` | bird-feeder/pico/main.py:94-104 | the dispatch updates the offset and output as the command step specifies |
| `Pico.WeightSensor.MainPass` | bird-feeder/pico/main.py:110-121 | one pass of the loop as written |
| `Pico.WeightSensor.ServeAndReport` | bird-feeder/pico/main.py:94-121 | one pass that serves the pending command and then reports |
| `Protocol.NotWeightLine` | bird-feeder/main.py:114 | a line not starting with W is never a weight reading |
| `Protocol.ReportLineHandled` | bird-feeder/pico/main.py:114-118 | the host publishes the parsed value of a weight report and keeps its value on NO_READING or an unparsable field |
| `Protocol.CommandLinesCarryNoWeight` | bird-feeder/pico/main.py:72-104 | TARING, TARED, ERROR:TARE_FAILED and PONG never change the host's weight |
| `Protocol.ServedPassReachesHost` | bird-feeder/pico/main.py:94-118 | after a served pass, the host holds the reported weight, or its previous one; command lines never disturb it |
| `Protocol.HandshakeAfterNoise` | bird-feeder/pico/main.py:35 | a READY among the scanned startup lines completes the host handshake after any non-READY noise |
| `Protocol.TareCommandUnderstood` | bird-feeder/main.py:146 | the host's `TARE\n`, stripped, is the command the firmware dispatches to tare |

## Left out

- Camera I/O, `cv2` colour conversion, the saved image and its file name: frames arrive as gray pixel sequences with a read flag, and a capture is a boolean.
- Cloud upload (`upload_to_cloud`), console messages and the `.env` loading: they do not influence any state that is modelled. The configuration is one `Config` value fixed at construction.
- Threads, `time.sleep` and the clock: the read thread is modelled as the loop folded over the lines it receives, and times are parameters. Races between the reader thread and `get_weight` are not modelled.
- The startup window of `connect` is the list of lines received within it. `reset_input_buffer` and the 5-second timer are not modelled.
- `Protocol.HandshakeAfterNoise` assumes the firmware's READY arrives after the host's `reset_input_buffer` (bird-feeder/main.py:78-81). The firmware prints READY only once, at construction (bird-feeder/pico/main.py:35). If it was already running when the host connected, its READY is discarded and `connect` raises (bird-feeder/main.py:95). Neither program guarantees the order, and the model does not promise it.
- `SerialWeightSensor.constructor`: a failed handshake leaves `connected` false, where the source raises. The exception path of `connect` is not modelled.
- `SerialWeightSensor.close`, `BirdFeeder.cleanAndExit` and the program's outer `while True` driver: they only shut down or repeat the modelled step.
- Floating-point rounding: weights and times are exact reals, and Python's `float()` and `.2f` are opaque parameters. No round trip between them is claimed.
- Integer widths: Python integers are unbounded, and so are Dafny's.
- The HX711 drivers and `calibration.py`: raw load-cell values are inputs.
- The direct-scale `hx.tare()` in `on_bird_left`: it re-zeroes hardware that is not modelled.
- `on_bird_landed` is folded into `ReadSensors`: it only prints and calls `take_photo`.
- The legacy loop's frame mean `np.mean(gray)` is an input, and its unguarded `cap.read()` is not modelled. Its `hx.power_down()`/`power_up()` and the photo function are left out. Only the triggered actions are recorded.
- `DetectMotion` and `MotionScore` require the frame and the baseline to have the same size. `cv2.absdiff` raises on a size mismatch, and that exception is not modelled.
- `SerialWeightSensor.Tare` always records the write when connected. The source catches a failed write or flush and only prints a message (bird-feeder/main.py:149-150); write failures are not modelled.
- The firmware's `except Exception` path (`ERROR:<message>`) and `KeyboardInterrupt` shutdown: exceptions from the driver are not modelled.

## Findings

| source | as written | input that shows it | evidently intended | confidence | as-written member | corrected member |
|---|---|---|---|---|---|---|
| bird-feeder/pico/main.py:106-126 | `main()` loops on `get_weight` and the report line only; `check_command` is never called, so the host's `TARE\n` (sent after each departure) and `PING` are never read | a host TARE pending while the tare readings average to a raw value other than `TARE_VALUE + tare_offset`: the offset stays the same and no TARING/TARED is printed | each pass serves a waiting command before reporting, so a host tare zeroes the scale | high, not executed | `Pico.HostTareIgnored` | `Pico.MainPassServing` |

`Pico.HostTareIgnored` states the discrepancy over `Pico.MainPassAsWritten` (and `Pico.WeightSensor.MainPass`). The corrected pass `Pico.MainPassServing` (and `Pico.WeightSensor.ServeAndReport`) is the one `Protocol.ServedPassReachesHost` reasons about.
