# auto_record: a verified model of the audio auto-recorder

`auto_record.py` watches an audio input. It reads it in fixed blocks of 16-bit
little-endian PCM and decides from each block's volume whether a recording should
start or stop.

- **Listening.** The recorder keeps a short queue of recent blocks as pre-roll. It starts
  Recording once two of the last three blocks are noisy, that is, at or above the noise
  threshold.
- **Recording.** It drains the queue into an open WAVE recording. A run of consecutive
  silent blocks is counted. Silent blocks stop being written once the count reaches the
  write limit, and the recording stops once the count exceeds the stop limit.
- **Closing.** A recording of at least two whole seconds is renamed from `<base>.tmp` to
  `<base>.wav` and gets a `<base>.json` metadata record. A shorter one is deleted.
- **Enable file.** A sentinel file turns recording on and off. Turning it off finishes any
  recording in progress.
- **Interrupt.** A keyboard interrupt finishes the recording in progress.
- **Calibration.** A calibration mode measures a baseline, waits for a loud sound and
  averages a few blocks into a threshold. That threshold is persisted and loaded at the
  next start.

The model is split into these modules:

- `AudioBlock` (`audio_block.dfy`): a block's bytes and volume, the noisy test, and the
  decoding of little-endian signed shorts normalised by 1/32768. Decoding comes with its
  round trip and an explicit error for an odd-length buffer.
- `RecordingSink` (`recording_sink.dfy`): the recording lifecycle.
  - the `%04d-%02d-%02d_%02d_%02d_%02d` base name, and that it parses back;
  - the frame count the WAVE writer keeps;
  - the whole-second length;
  - the keep-or-remove decision and the metadata fields.
- `Engine` (`engine.dfy`): the Listen/Record controller as pure functions over a
  `State`, with these lemmas about it:
  - reference definitions of the silence counter and of the blocks written;
  - a simulation lemma for the drain;
  - the invariant every per-block iteration keeps.
- `Session` (`session.dfy`): the class `AutoRecordSession`. Its fields are updated in place
  by methods with `modifies` clauses. Each method is proved to compute a function of
  `Engine` or `RecordingSink`:

  | method | function |
  |---|---|
  | `StartRecording` | `Engine.StartRecording` |
  | `StopRecording` | `Engine.StopRecording` |
  | `RunListenLogic` | `Engine.ListenStep` |
  | `RunRecordLogic` | `Engine.RecordStep` |
  | `CheckRecordingEnabled` | `Engine.CheckEnabled` |
  | `ProcessBlock` | `Engine.BlockStep` |
  | `EnsureOpenFile` | `RecordingSink.EnsureOpen` |
  | `EnsureCloseFile` | `RecordingSink.EnsureClose` |
  | `TrimQueue` | `Engine.Newest` |
  | `CountRecentNoisy` | `Engine.NoisyCount` |

  `Run` yields `Interrupt(RunBlocks(...))` of the session's initial state.
- `Calibration` (`calibration.dfy`): the `calibrate` loop with its four phases. It is proved
  against a declarative description of the threshold it saves.
- `Scenarios` (`scenarios.dfy`): concrete runs that pin down the boundary policies.

The operating knobs are the fields of `Engine.Config` and `Calibration.CalParams`. They
are parameters of every operation that uses them. The 2-of-3 confirmation and the 2 s floor
stay fixed constants, as in the source. `DEFAULT_CONFIG` and `DEFAULT_CAL` evaluate the source's
constants:

| knob | value | source constant |
|---|---|---|
| listen retention | 16 blocks | `SILENCE_LISTEN_DURATION` |
| write limit | 32 blocks | `SILENCE_WRITE_DURATION` |
| stop limit | 160 blocks | `SILENCE_TRIGGER_DURATION` |
| calibration baseline | 16 blocks | — |
| calibration collection | 4 blocks | — |

These are the values the code computes. The comments at lines 46-53 agree with them
(10 s, 2 s and 1 s), and so does line 20 of the docstring (10 s of silence to stop).
Other lines of `auto_record.py` give different durations:

- line 3 says 0.25 s of sound triggers and 5 s of silence stops, where the code triggers
  on two of three blocks and stops after 10 s;
- line 17 says 0.5 s of pre-roll is buffered, where the code keeps 1 s;
- line 21 says at most 1 s of trailing silence is written, where the code writes up to
  31 blocks, just under 2 s;
- line 22 says up to 9 s of silence is buffered;
- the comment at line 411 says the next second is averaged, and the comment at line 446
  says "1s", where the code averages 4 blocks, that is 0.25 s.

The model follows the code.

The write test is the strict `silence_count < SILENCE_WRITE_DURATION` (line 295). So with
a write limit of 2, one noisy block followed by silence writes one trailing silent block,
not two (`Scenarios.WriteLimitKeepsOneSilentBlock`, with a stop limit of 5). In general, at
most `writeLimit - 1` silent blocks end a recording (`Engine.WrittenTrailing`).

An odd-length buffer makes `struct.unpack` raise. `run` does not catch that error, so a
malformed block stops the program. `AudioBlock.UnpackData` returns
`Failure(MalformedBlock)` for it. The controller receives blocks that were already built,
as the source's controller does.

## Model

| member | source | states |
|---|---|---|
| AudioBlock.IsNoisy | auto_record.py:95-99 | reference definition, no contract of its own: a block is noisy when its volume is at or above the threshold; `Engine.SilenceNeverNoisy` and `Engine.TriggeredIffTwoOfLastThree` state its consequences |
| AudioBlock.ShortOf | auto_record.py:108-110 | each 2-byte little-endian pair is a signed short in [-32768, 32768) congruent to lo + 256*hi modulo 65536 |
| AudioBlock.ShortOfEncoding | auto_record.py:108-110 | splitting a short into its low and high bytes and decoding them gives the short back |
| AudioBlock.EncodingOfShort | auto_record.py:108-110 | decoding a byte pair and splitting the short again gives the same two bytes |
| AudioBlock.UnpackShorts | auto_record.py:108-110 | an even-length buffer decodes to len/2 shorts, the i-th built from bytes 2i and 2i+1 |
| AudioBlock.UnpackPackShorts | auto_record.py:108-110 | packing shorts and unpacking them gives the same shorts |
| AudioBlock.PackUnpackShorts | auto_record.py:108-110 | unpacking an even-length buffer and packing the shorts gives the same bytes |
| AudioBlock.UnpackData | auto_record.py:101-115 | decoding succeeds exactly for an even length; it yields len/2 samples, each in [-1, 1), each equal to its short times 1/32768; an odd length is `MalformedBlock` |
| AudioBlock.UnpackDataInjective | auto_record.py:101-115 | two buffers that decode to the same samples are equal |
| RecordingSink.DigitsRoundTrip | auto_record.py:335-337 | a number's decimal digits parse back to the number |
| RecordingSink.DigitsLength | auto_record.py:335-337 | a number below 10^w has at most w digits |
| RecordingSink.LeadingZeros | auto_record.py:335-337 | leading zeros do not change the parsed value |
| RecordingSink.Pad | auto_record.py:335-337 | reference definition, no contract of its own: the `%0wd` field, the decimal digits left-padded with zeros to width w; `RecordingSink.PadRoundTrip` states its length and that it parses back |
| RecordingSink.PadRoundTrip | auto_record.py:335-337 | a `%0wd` field of a number below 10^w has exactly w characters and parses back to the number |
| RecordingSink.BaseName | auto_record.py:333-337 | reference definition, no contract of its own: the `%04d-%02d-%02d_%02d_%02d_%02d` name of the open time; `BaseNameLayout`, `BaseNameRoundTrip` and `BaseNameInjective` state its properties |
| RecordingSink.BaseNameLayout | auto_record.py:335-337 | the base name has its separators `-`, `-`, `_`, `_`, `_` at fixed positions and its fields in between |
| RecordingSink.BaseNameRoundTrip | auto_record.py:335-337 | the base name of a valid timestamp has 19 characters and parses back to that timestamp |
| RecordingSink.BaseNameInjective | auto_record.py:335-337 | two valid timestamps with the same base name are equal, so each second names one recording |
| RecordingSink.FrameCount | auto_record.py:368 | reference definition, no contract of its own: the frames the WAVE writer counts, the sum over the written blocks of their byte length divided by 2 × channels; `RecordingLength` and `LengthAtLeastMinimum` build on it |
| RecordingSink.RecordingLength | auto_record.py:368 | the length is the frame count divided by the rate, rounded down to whole seconds |
| RecordingSink.LengthAtLeastMinimum | auto_record.py:368-382 | the length is at least 2 s exactly when there are at least 2 * rate frames |
| RecordingSink.EnsureOpen | auto_record.py:327-344 | an open recording is left as it is; otherwise a new empty one is opened, named after the current time and stamped with it |
| RecordingSink.Close | auto_record.py:346-386 | a recording is kept exactly when it has at least 2 * rate frames; a kept one holds the written blocks and the `.wav`, base and `.json` names, the open time and a length of at least 2 s that counts the frames' whole seconds; otherwise the `.tmp` file is removed |
| RecordingSink.EnsureClose | auto_record.py:351-386 | closing when no recording is open has no effect; otherwise the recording is closed once |
| Engine.LoadThreshold | auto_record.py:142-149 | the start-up threshold is always positive; it is the persisted value when that is positive, else the default 0.1 |
| Engine.SilenceNeverNoisy | auto_record.py:95-99 | a silent block is never noisy under any loaded threshold |
| Engine.Newest | auto_record.py:246-248 | trimming keeps the min(len, n) newest blocks, in order |
| Engine.NewestPop | auto_record.py:246-248 | popping the oldest block of an over-long queue does not change the blocks trimming keeps |
| Engine.StartRecording | auto_record.py:231-238 | reference definition, no contract of its own: Recording, counter 0, and `EnsureOpen` of the current recording at the current time; `Engine.ListenStepOutcome` states its effect on a trigger |
| Engine.StopRecording | auto_record.py:240-248 | stopping never makes the queue longer |
| Engine.StopRecordingOutcome | auto_record.py:240-248 | stopping leaves Listening with no recording open and the counter as it was; the queue becomes a suffix of the old one of at most listenRetention blocks; an open recording adds exactly one outcome to the log, and with none open the log is unchanged |
| Engine.Triggered | auto_record.py:259-268 | reference definition, no contract of its own: more than two blocks queued and at least two noisy among the last three; `Engine.TriggeredIffTwoOfLastThree` characterises it |
| Engine.ListenStep | auto_record.py:250-273 | reference definition, no contract of its own: start recording on the trigger, otherwise trim the queue to the newest listenRetention blocks; `Engine.ListenStepOutcome` states its outcome |
| Engine.TriggeredIffTwoOfLastThree | auto_record.py:259-268 | the listening trigger holds exactly when more than two blocks are queued and two distinct blocks among the last three are noisy |
| Engine.ListenStepOutcome | auto_record.py:250-273 | Listening switches to Recording exactly on the trigger; on a trigger the queue is kept as pre-roll, the counter is reset and a new recording named after the time is opened; otherwise only the newest listenRetention blocks remain |
| Engine.NextCount | auto_record.py:287-292 | reference definition, no contract of its own: a noisy block resets the silence counter to 0, a silent one adds one; `Engine.CounterValue` states what the counter then counts |
| Engine.RecordBlock | auto_record.py:285-303 | one iteration of the drain loop (update the counter, write the block while the counter is below writeLimit, stop once it exceeds stopLimit); its own contract states that the queue does not grow, and `DrainWritesFirst`, `DrainSkipsFirst` and `DrainStopsAtFirst` state the three outcomes |
| Engine.RecordStep | auto_record.py:284-304 | reference definition, no contract of its own: the drain loop, one `RecordBlock` per queued block; `Engine.DrainRecording`, `Engine.DrainIdle`, `Engine.RecordStepEmptiesQueue` and `Engine.WrittenTrailing` state its outcome |
| Engine.CounterSnoc | auto_record.py:287-292 | the counter after one more block is the one-block counter update applied to the counter so far |
| Engine.NoisyCount | auto_record.py:262-265 | the number of noisy blocks in a sequence, never more than its length; `Engine.NoisyCountSnoc` states how one more block changes it |
| Engine.NoisyCountSnoc | auto_record.py:262-265 | one more block adds one to the noisy count exactly when it is noisy |
| Engine.CounterValue | auto_record.py:284-292 | the silence counter is the number of silent blocks since the last noisy one, or the start value plus all blocks when none was noisy |
| Engine.WriteStepTrailing | auto_record.py:294-298 | one write decision keeps the recording's trailing silence at min(counter, writeLimit - 1) |
| Engine.WrittenTrailing | auto_record.py:284-303 | a recording never ends in more than writeLimit - 1 silent blocks; while it goes on it ends in exactly min(counter, writeLimit - 1) |
| Engine.WrittenTrailingStop | auto_record.py:299-303 | when the first block already pushes the counter past the stop limit, the drain stops there and the recording still ends in at most writeLimit - 1 silent blocks |
| Engine.WrittenTrailingGoesOn | auto_record.py:294-303 | when the first block keeps the counter within the stop limit, the trailing-silence bound of the rest of the drain carries over to the whole drain |
| Engine.RecordStepEmptiesQueue | auto_record.py:284-285 | a drain always empties the queue |
| Engine.DrainIdle | auto_record.py:284-298 | blocks drained after a stop are discarded: nothing is opened, written or closed |
| Engine.DrainRecording | auto_record.py:275-304 | a drain keeps Recording exactly when the counter never exceeds stopLimit; it writes exactly the blocks whose counter is below writeLimit, up to the stopping block; when it stops, the recording holding them is closed exactly once and nothing stays open |
| Engine.DrainStopsAtFirst | auto_record.py:299-303 | a first block that pushes the counter past the stop limit closes the recording once, with what was written, and drops the rest of the queue |
| Engine.DrainWritesFirst | auto_record.py:294-298 | a first block whose counter is below writeLimit is written, and the drain goes on with the rest of the queue |
| Engine.DrainSkipsFirst | auto_record.py:294-298 | a first block whose counter is at least writeLimit is not written, and the drain goes on with the rest of the queue |
| Engine.CounterAtMost | auto_record.py:284-303 | while the counter never exceeds the stop limit, it ends at most the stop limit |
| Engine.InitialInv | auto_record.py:122-133 | a new session satisfies the invariant |
| Engine.OutputsOkAppend | auto_record.py:346-386 | the per-recording guarantees survive appending further closed recordings |
| Engine.StopKeepsInv | auto_record.py:240-248 | stopping from a state with the invariant gives a Listening state with the invariant |
| Engine.CheckEnabled | auto_record.py:306-318 | reference definition, no contract of its own: with recording disabled, a recording in progress is stopped; `Engine.DisabledStep` states the outcome |
| Engine.BlockStep | auto_record.py:206-223 | reference definition, no contract of its own: one iteration of the main loop, the enabled check, then queueing the block and the listen or record logic; `Engine.BlockStepKeepsInv` states the invariant it keeps |
| Engine.RunBlocks | auto_record.py:204-223 | reference definition, no contract of its own: the main loop as `BlockStep` over a finite sequence of blocks; `Engine.RunBlocksKeepsInv` states the invariant it keeps |
| Engine.Interrupt | auto_record.py:225-228 | reference definition, no contract of its own: the `KeyboardInterrupt` handler, which stops a recording in progress; `Engine.InterruptFinalizes` states the outcome |
| Engine.DisabledStep | auto_record.py:306-318 | with recording disabled the block is not queued; a recording in progress is finalised with the queue trimmed, and a Listening state is left unchanged |
| Engine.BlockStepKeepsInv | auto_record.py:206-223 | every loop iteration keeps the invariant: a recording is open exactly while Recording, the queue holds at most listenRetention blocks while Listening and one more while Recording, and every kept recording has at least 2 s and at most writeLimit - 1 trailing silent blocks |
| Engine.RunBlocksKeepsInv | auto_record.py:204-223 | any finite sequence of blocks keeps the invariant |
| Engine.InterruptFinalizes | auto_record.py:225-228 | the interrupt handler leaves no recording open, closes the one in progress once and keeps the invariant |
| Session.AutoRecordSession.constructor | auto_record.py:122-133 | a new session is Listening with an empty queue, no recording open, counter 0 and the default threshold |
| Session.AutoRecordSession.StartSession | auto_record.py:142-149 | a positive persisted threshold replaces the current one; otherwise the threshold is unchanged |
| Session.AutoRecordSession.EnsureOpenFile | auto_record.py:327-344 | the field update computes `EnsureOpen` |
| Session.AutoRecordSession.EnsureCloseFile | auto_record.py:346-386 | no recording is left open, and the outcome of closing is appended to what earlier recordings left |
| Session.AutoRecordSession.StartRecording | auto_record.py:231-238 | the session becomes Recording with counter 0 and an open recording |
| Session.AutoRecordSession.TrimQueue | auto_record.py:246-248 | the popleft loop leaves exactly the newest listenRetention blocks |
| Session.AutoRecordSession.StopRecording | auto_record.py:240-248 | the session's new state is `Engine.StopRecording` of the old one |
| Session.AutoRecordSession.CountRecentNoisy | auto_record.py:261-265 | the loop over indices -1, -2, -3 counts the noisy blocks among the last three |
| Session.AutoRecordSession.RunListenLogic | auto_record.py:250-273 | the in-place listen logic computes `Engine.ListenStep` |
| Session.AutoRecordSession.RunRecordLogic | auto_record.py:275-304 | the in-place drain loop computes `Engine.RecordStep` |
| Session.AutoRecordSession.CheckRecordingEnabled | auto_record.py:306-318 | it returns the flag and, when disabled, finishes a recording in progress |
| Session.AutoRecordSession.ProcessBlock | auto_record.py:206-223 | one loop iteration computes `Engine.BlockStep` and keeps the invariant |
| Session.AutoRecordSession.Run | auto_record.py:199-229 | the threshold is the loaded one; the final state is the interrupt handler applied after every block; the invariant holds, the session is Listening and no recording is open |
| Calibration.CalibrationResult | auto_record.py:416-453 | reference definition, no contract of its own: the mean of the `collectBlocks` volumes starting at the first block from the baseline's last block on louder than 5 × the baseline mean, or nothing when the blocks run out first; `Calibration.Calibrate`, `CalibrationIgnoresLaterBlocks`, `CalibrationNeedsBlocks` and `CalibratedThresholdIsLoaded` state its properties |
| Calibration.FirstAbove | auto_record.py:433-439 | a block found is at or after the start position and its volume is strictly above the level |
| Calibration.FirstAboveIsFirst | auto_record.py:433-439 | no block between the start position and the one found is above the level; when none is found, no block from the start position on is above it |
| Calibration.FirstAboveExtend | auto_record.py:416-439 | once a loud block has been found, appending further blocks does not change which one it is |
| Calibration.SumSlice | auto_record.py:441-444 | extending a window by one block adds that block's volume to the running total |
| Calibration.BaselinePart | auto_record.py:422-431 | reference definition, no contract of its own: the BASELINE if-block, adding the volume and moving to Wait with the mean once `baselineBlocks` blocks are in; `Calibration.BaselineStep` states what it keeps |
| Calibration.WaitPart | auto_record.py:433-439 | reference definition, no contract of its own: the WAIT if-block, which starts collection on a block louder than 5 × the baseline; `Calibration.WaitStep` states what it keeps |
| Calibration.CollectPart | auto_record.py:441-448 | reference definition, no contract of its own: the COLLECT if-block, adding the volume and saving the mean once `collectBlocks` blocks are in; `Calibration.CollectStep` states what it keeps |
| Calibration.Step | auto_record.py:420-448 | reference definition, no contract of its own: one loop iteration, the three if-blocks in order so that a block can fall through from one phase into the next; `Calibration.StepTracks` states what it keeps |
| Calibration.SumOne | auto_record.py:441-444 | the total of a one-block window is that block's volume |
| Calibration.BaselineStep | auto_record.py:422-431 | a Baseline step adds the block to the running total; after `baselineBlocks` blocks it stores their mean as the baseline and moves to Wait |
| Calibration.WaitLoud | auto_record.py:433-439 | a Wait block louder than 5 × the baseline mean is the first such block and starts collecting with it |
| Calibration.LoudCollectsOne | auto_record.py:441-448 | with `collectBlocks` 1, the first loud block alone is the window, and its volume is saved |
| Calibration.LoudStartsCollect | auto_record.py:441-448 | with `collectBlocks` above 1, the first loud block opens a window of one block |
| Calibration.WaitQuiet | auto_record.py:433-439 | a Wait block not louder than the level leaves the search for the first loud block unchanged |
| Calibration.WaitStep | auto_record.py:433-439 | every Wait step keeps the loop state in step with the blocks read so far |
| Calibration.CollectStep | auto_record.py:441-448 | a Collect step adds the block to the window's total; the window starts at the first loud block, and when it is full its mean is saved and the phase is Done |
| Calibration.StepTracks | auto_record.py:416-448 | every iteration before Done keeps the loop state in step with the blocks read so far |
| Calibration.TracksResult | auto_record.py:416-453 | when the loop ends, either Done or out of blocks, its state gives the declarative result |
| Calibration.Calibrate | auto_record.py:388-453 | the loop saves exactly the declarative result: the mean of `collectBlocks` volumes starting at the first block from the baseline's last block on that is louder than 5 × the baseline mean; nothing is saved when the blocks run out first |
| Calibration.CalibrationIgnoresLaterBlocks | auto_record.py:416 | once Done, further blocks do not change the saved threshold |
| Calibration.CalibrationNeedsBlocks | auto_record.py:422-448 | a threshold is saved only after at least `baselineBlocks + collectBlocks - 1` blocks |
| Calibration.SumNonNegative | auto_record.py:422-428 | totals of non-negative volumes are non-negative |
| Calibration.SumAtLeastFirst | auto_record.py:441-447 | a total of non-negative volumes is at least the first of them |
| Calibration.MeanPositive | auto_record.py:441-447 | the mean of non-negative volumes whose first is positive is positive |
| Calibration.CalibratedThresholdIsLoaded | auto_record.py:142-149 | with non-negative volumes, a saved threshold is positive, so the next start-up uses it in place of the default |
| Scenarios.TriggerOnThirdBlock | auto_record.py:259-268 | with threshold 0.1, volumes 0.2, 0.2, 0.0 start Recording at the third block and not before, with all three blocks as pre-roll |
| Scenarios.WriteLimitKeepsOneSilentBlock | auto_record.py:294-303 | with write limit 2 and stop limit 5, one noisy block and six silent ones write the noisy block and one silent block, then stop and close the recording |

## Left out

- Audio capture: PyAudio, the device list and opening, reading the stream, and `cleanup_session` are I/O. The blocks read are the input sequence of `Run` and `Calibrate`.
- Volume: `calc_rms` uses floating-point `sqrt`, so each block carries its volume as a real number. `AudioBlock.UnpackData` models the decoding that feeds it.
- Floating point: thresholds, volumes and means are Dafny reals, with no rounding.
- WAVE file: the file's internals, the `os.rename`/`os.remove` calls and the JSON text are out of scope. A closed recording is logged as an `Outcome`, which holds the metadata fields and the blocks kept.
- Time: `datetime.datetime.now()` is a parameter (`now`), and a `Timestamp` keeps only its fields down to the second.
- RecordingSink.Close: the metadata timestamp `Meta.timestamp` is the open time truncated to whole seconds. The source's `open_time.isoformat()` also carries the microseconds, which the model drops.
- File-system flags: the data directory, the enable file's creation and removal in `start_session`, and the existence test in `check_recording_enabled` are I/O. The flag's value is the parameter of `CheckRecordingEnabled`.
- Calibration file: reading it, and `float(value)` parsing it, are out of scope. The persisted value is an `Option<real>`. A file that does not parse raises in the source, and the model has no such case. `calibrate` writes `str(threshold)` to the file, which the model represents as the returned `Option<real>`.
- Logging: `report_status`, logging and the console messages of `calibrate` are not modelled.
- Fixed policies: the 2-of-3 confirmation (`Engine.CONFIRM_WINDOW`, `Engine.CONFIRM_COUNT` and the `|q| > 2` test of `Engine.Triggered`) and the 2 s floor for a kept recording (`RecordingSink.MIN_RECORDING_SECONDS`) are constants, not knobs, because the source hard-codes them at lines 260-266 and 377.
- Trigger factor: `Calibration.TRIGGER_FACTOR` is the constant 5 and is not a knob. The calibration block counts must be positive (`Positive`), because the source's comparisons with 16 and 4 never match 0.
- Calibrate: the `in_stream is not None` loop guard is not modelled, because `start_session` always opens the stream. The interrupt before Done is the end of the input sequence, and nothing is written then.
- Interrupt: a keyboard interrupt is modelled only between two blocks, after a finite sequence of them. An interrupt in the middle of a drain is not modelled.
- Malformed block: an odd-length block is a `MalformedBlock` error in `AudioBlock.UnpackData`. The controller is given only blocks that were built.
- Stream data: frames are counted as `len(data) // frame size`, with the frame size at 2 bytes × channels. The truncating division `int(nframes / RATE)` is modelled as integer floor division, which agrees with it for non-negative counts.
- Other files: `record.py`, `wav2csv.py` and `web_server.py` are not part of this model.
