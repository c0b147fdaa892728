# midirec: the recording engine of a very simple MIDI recorder

`src/midirec.py` records a live MIDI input into a single-track MIDI file.
A `MidiRecorder` first polls the input port until a real message arrives and
buffers it (`wait_first_event`). It then starts a fresh track
(`start_recording`) and from there on is invoked as a callback for every
incoming event (`__call__`). The callback:

- replays the buffered first message once, ahead of the current event;
- adds each event's delta time to an accumulator (the field `activesense`);
- skips active sense (status 254);
- converts the accumulated seconds into ticks as
  `int(round(second2tick(acc, 480, bpm2tempo(bpm))))`;
- appends a `note_on` for status 144 and resets the accumulator;
- appends a `control_change` on channel 1 for status 176 and keeps accumulating;
- for every other status appends nothing and keeps the time.

For every event except active sense it also refreshes the time of the last
message. In auto mode `main` rotates the recording. The rotation is due once
the input has been silent for more than `--auto` seconds. `main` then saves
the track under a time-stamped name, waits for a new first event and starts a
new track.

The model is in five modules:

- `Midi` (`midi.dfy`): raw messages, events, track messages and the status
  constants.
- `Ticks` (`ticks.dfy`): the tick conversion on exact reals. Python's `round`
  is modelled as round-half-to-even. `bpm2tempo` is `round(60_000_000 / bpm)`.
  `second2tick` is `s * ticks_per_beat * 1_000_000 / tempo`. `ticks_per_beat`
  is 480, the default of a new MIDI file.
- `Recording` (`recording.dfy`): the callback as pure functions of the
  recorder's fields. `Process` handles one event (lines 80-91). `Callback`
  adds the first-event replay (lines 74-79). `ProcessAll` and `Run` fold them
  over a stream of deliveries. The module also holds the lemmas about streams.
- `Recorder` (`recorder.dfy`): the class `MidiRecorder` with the fields `msg`,
  `timeLastMsg`, `activesense`, `track`, `tempo` and `debug`. It has the
  polling loop `WaitFirstEvent`, `StartRecording`, and `Call`, which replays
  the buffered event by a nested call of itself as the source does. `Call` is
  proved to leave the fields as `Callback` says.
- `Session` (`session.dfy`): `main`'s rotation condition `ShouldRotate`
  (`auto != 0 && now > timeLastMsg + auto seconds`), the file name policy
  `FileName`, program start `Begin` and one pass of the main loop
  `MainLoopStep`.

Wall-clock time is an integer number of microseconds, the resolution of
Python's `datetime`. Delta times are real seconds. The clock, the port's
polls and the time stamp string are parameters.

Some of what the code does differs from what a reader of MIDI recorders might
assume. The model follows the code:

- The code classifies no message kinds from the high nibble. Only statuses 144
  (note on, channel 0) and 176 (control change, channel 0) are recorded.
  Note-off, other channels, pitch bend and the rest are dropped. Recorded
  control changes are written on channel 1.
- The accumulator resets only on status 144, not on note-off.
- Rounding is Python's half-to-even, not half away from zero.
- Ticks are computed through the rounded `bpm2tempo`, not as
  `seconds * ticks_per_beat * bpm / 60`. The two agree whenever `bpm` divides
  60,000,000 (`Ticks.Second2TickExactTempo`).
- Active sense is not filtered by the port. `open_port` calls
  `ignore_types(True, True, False)`, so active sense is delivered, and the
  recorder skips it itself.

## Model

| member | source | states |
|---|---|---|
| Ticks.RoundHalfEven | src/midirec.py:84 | the result is within 1/2 of the input, and a tie goes to the even neighbour |
| Ticks.RoundHalfEvenUnique | src/midirec.py:84 | these two properties determine the rounding uniquely |
| Ticks.RoundHalfEvenNearest | src/midirec.py:84 | no integer is closer to the input than its rounding |
| Ticks.RoundHalfEvenMonotone | src/midirec.py:84 | rounding preserves order |
| Ticks.RoundHalfEvenOfInt | src/midirec.py:84 | an integer rounds to itself |
| Ticks.Bpm2Tempo | src/midirec.py:84 | tempo * bpm is within bpm/2 of 60,000,000 (microseconds per beat, rounded), and every bpm in 1..119,999,999 gives a positive tempo the conversion can divide by |
| Ticks.Bpm2TempoVanishes | src/midirec.py:84 | from 120,000,000 bpm on the tempo rounds to 0, so the positive range admitted by `ValidBpm` is exact |
| Ticks.Tick2SecondRoundTrip | src/midirec.py:84 | second2tick and mido's tick2second (`tick * tempo * 10^-6 / ticks_per_beat`) undo each other, in both directions |
| Ticks.Second2TickAdditive | src/midirec.py:81-84 | before rounding, the ticks of a sum of delta times are the sum of their ticks, so accumulating seconds and converting once loses nothing |
| Ticks.MidiTime | src/midirec.py:84 | the stamped tick count is within 1/2 tick of the exact conversion of the accumulated seconds |
| Ticks.MidiTimeZero | src/midirec.py:84 | zero seconds give zero ticks |
| Ticks.MidiTimeMonotone | src/midirec.py:84 | for a positive tempo, more accumulated time never gives fewer ticks |
| Ticks.Second2TickExactTempo | src/midirec.py:84 | when bpm divides 60,000,000 the unrounded tick count is seconds * 480 * bpm / 60 |
| Ticks.HalfSecondAt120 | src/midirec.py:84 | 0.5 s at 120 bpm and 480 ticks per beat is exactly 480 ticks |
| Recording.Process | src/midirec.py:80-91 | the buffered message is kept. Active sense only adds its delta to the accumulator; nothing else changes, not the track and not the time of the last message. Any other status sets the last-message time to now. 144 appends exactly one note_on(channel 0, data1, data2, ticks of the accumulator plus delta) and zeroes the accumulator. 176 appends exactly one control_change(channel 1, data1, data2, same ticks) and keeps the accumulated time. Any other status appends nothing and keeps the accumulated time including its delta |
| Recording.Callback | src/midirec.py:74-91 | afterwards nothing is buffered. The result is processing the buffered event (the one-element `Pending` list, or nothing when the buffer is empty) and then the current event, both at the callback's time. The old track is a prefix of the new one, which is at most two entries longer |
| Recording.ProcessAllAppend | src/midirec.py:80-91 | processing a concatenated stream equals processing its parts in turn |
| Recording.ProcessAllTrack | src/midirec.py:87-91 | over any stream the old track stays a prefix, and the track grows by exactly the number of events with status 144 or 176 |
| Recording.RunWithoutBuffer | src/midirec.py:76-79 | with nothing buffered, a stream of callbacks is plain processing of the stream |
| Recording.RunReplaysFirstOnce | src/midirec.py:76-79 | a buffered first event is processed exactly once, ahead of the first delivered event and at its time, and is gone afterwards. With no delivery the state (buffer included) is untouched, so the event is never recorded |
| Recording.RunTrackGrows | src/midirec.py:76-91 | over any stream of callbacks the track only grows, by at most one entry per delivery plus one for the replayed event |
| Recording.AccumulatesUntilNoteOn | src/midirec.py:81-91 | with no note-on in a stream, the accumulator grows by the sum of all its delta times, active sense and dropped statuses included |
| Recording.NoteOnTimeSincePreviousNote | src/midirec.py:81-89 | a note-on after a stream without note-ons is stamped with the ticks of all the time since the accumulator was last reset, however many control changes came between, and it resets the accumulator to 0 |
| Recording.ActiveSenseOnly | src/midirec.py:81-83 | a stream of active sense changes only the accumulator, by the sum of its deltas |
| Recording.UnrecordedOnly | src/midirec.py:87-91 | a stream without status 144 or 176 leaves the track unchanged (an empty track stays empty) |
| Recorder.MidiRecorder.constructor | src/midirec.py:26-28 | nothing is buffered and the last-message time is the creation time |
| Recorder.MidiRecorder.WaitFirstEvent | src/midirec.py:49-58 | it returns only after storing a polled message whose status is neither 254 nor 0. That message is the first such poll, and the last-message time is that poll's clock. Otherwise it has used every poll, none qualified, the buffer holds the last poll and the last-message time is unchanged. The tempo invariant is kept |
| Recorder.MidiRecorder.StartRecording | src/midirec.py:64-72 | the track is empty, the accumulator 0 and the tempo and debug flag are the given ones. The buffered event and the last-message time are kept |
| Recorder.MidiRecorder.Call | src/midirec.py:74-91 | the fields become exactly Recording.Callback of the old fields. The buffer is cleared, the track keeps its old entries and gains at most two, and the tempo invariant is kept |
| Session.FileName | src/midirec.py:120-123 | the name starts with `name` and ends in `.mid`. Without auto mode nothing lies between them. In auto mode `_` and then the stamp lie between them |
| Session.FixedFileName | src/midirec.py:122-123 | without auto mode every session is saved as `name.mid` |
| Session.AutoFileNamesDistinct | src/midirec.py:156 | in auto mode different stamps give different files, and none equals the non-auto file |
| Session.NoRotationWithoutAuto | src/midirec.py:147 | with auto 0 no rotation is ever due |
| Session.RotationStaysDue | src/midirec.py:148 | a due rotation stays due as the clock advances |
| Session.RotationIsStrict | src/midirec.py:148 | silence of exactly the timeout does not rotate |
| Session.CallbackDefersRotation | src/midirec.py:148 | with a non-negative timeout, a callback carrying any status but active sense leaves no rotation due at its own time |
| Session.ActiveSenseDoesNotDefer | src/midirec.py:148 | a stream of active sense records nothing and leaves the rotation decision as it was |
| Session.Begin | src/midirec.py:118-139 | the first file name follows FileName. A recording starts only on the first qualifying poll, with that event buffered, an empty track, accumulator 0 and tempo 120. While still waiting, the recorder holds the constructor's values and the last poll in its buffer |
| Session.MainLoopStep | src/midirec.py:147-158 | when no rotation is due nothing changes. Otherwise the old track is saved under the current name. Once a first event arrives, a new empty track starts with accumulator 0 and that event buffered, under FileName with the new stamp. While no event has arrived the name, track, accumulator, last-message time, tempo and debug flag are kept, and the buffer holds the last poll |

## Left out

- Port I/O through rtmidi is not modelled: `__init__`'s port list, `get_ports`, `open_port`, `close_port`, `set_callback` and `ignore_types` are device access through a foreign library. The close and reopen of the port during a rotation is one of them.
- The `--list` option (lines 127-131) is not modelled, since it only prints ports.
- `save_track` and MIDI file serialisation are not modelled. A rotation returns the path and track it would write as a `SavedFile` value. The final save when the program exits (lines 159-166) and exception-to-exit-code handling are not modelled either.
- Floating point is replaced by exact reals, and `round` is half-to-even on those reals.
- `datetime.now()` is a parameter. The replayed first event and the current event share one `now`, whereas the source reads the clock twice.
- The `strftime` stamp is an opaque string.
- Threading between the callback and the main loop is not modelled, nor is `time.sleep`. Events arriving while the port is reopened are not modelled either.
- Recorder.MidiRecorder.WaitFirstEvent: the endless polling loop runs over a finite sequence of polls. Running out of polls means the program is still waiting.
- Raw messages are a status byte and two data bytes of 0..127, as a port delivers them. A message with status 144 or 176 shorter than three bytes, which makes the source raise IndexError inside the callback, is not modelled.
- Logging is not modelled. The `debug` flag is stored and has no effect.
- Recorder.MidiRecorder.constructor: the source sets `track`, `tempo` and the accumulator only in `start_recording`, and the callback is registered only there. The constructor gives these fields the values `start_recording(120)` would give them.
- Ticks.ValidBpm: admits only positive tempos below 120,000,000 bpm. `main` always records at 120. Zero or a larger value would make the source divide by zero. A negative tempo, which the source would accept and turn into negative tick times, is excluded.
- argparse is not modelled. `auto`, `name` and `verbose` are parameters.
