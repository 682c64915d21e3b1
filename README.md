# bbb-floppy in Dafny

A model of the logic of bbb-floppy, which plays music on floppy drives
hooked to a BeagleBone's GPIO lines: a drive's head is stepped back and
forth at an audio rate, and MIDI Note-On messages choose the pitch.

Three C files are modelled:

- **move-ctrl.c**, the drive pool. `struct floppy` is the class
  `MoveCtrl.Floppy`, and `floppies[]` is an `array<Floppy>` held by
  `MoveCtrl.FloppyPool`. Stepping, setting the direction and homing update
  the objects in place. The head update of `_take_step` is specified once, as
  the value function `Stepper.Step`. The lemmas of `Stepper` prove three
  things about it:
  - it keeps the sweep invariant;
  - 158 = 2·(80−1) steps bring a sweeping head back to where it started;
  - no shorter run of steps does.
- **tone.c**, the MIDI-driven player.
  - `handle_buf`, `log_note` and the drain loop of `process_midi` are methods
    of `Midi.MidiReceiver`. Its fields are the byte queue (`std::list<char>`,
    here a `seq` that the methods reassign) and the globals `on` and
    `saved_note`.
  - The drain loop is proved against `Midi.Decode`, a pure description of
    what the loop makes of a queue.
  - `Midi.DecodeResumes` shows that how the bytes were split into reads does
    not change the result.
  - `tone` and `add_to_timespec` become `ToneEngine.Tone` and
    `Clock.Timespec.AddToTimespec`. Every deadline is the single clock
    reading plus a whole number of periods.
- **floppy.c**, the earlier single-drive program, in module `SingleDrive`. It has
  the same stepper over two globals, a tone loop that reads the clock before
  every pulse and has no one-pulse minimum, and a tone table declared one
  slot long.

Abstractions:
- Writing a GPIO value is not modelled. A pulse is counted.
- The clock is a parameter: one reading for tone.c, one reading per pulse
  for floppy.c.
- A tone table holds opaque positive periods; the floating-point formula
  that fills it is a parameter.
- Bytes are 0..255. On the ARM target `char` is unsigned. With a signed
  `char`, the test `c == 0x90` could never succeed, and `Midi.CharValue`
  states this.
- `int` and `long` are 32 bits on the target. Where the model relies on
  C's range or C's truncating `/` and `%`, it says so (module `CInt`).

What the code does, which a reader might not expect:
- tone.c has no multi-voice allocator: it keeps one counter `on` and one
  `saved_note`.
- In tone.c, only the byte 0x90 (Note-On, channel 1) starts a message. 0x80 and the
  other channels are skipped byte by byte.
- In move-ctrl.c, homing sets the direction to 1 and leaves the recorded position as it
  was; it is not reset to 0.
- The earlier `tone` of floppy.c may emit zero pulses.

## Model

| member | source | states |
|---|---|---|
| `Stepper.Step` | move-ctrl.c:228-239 | Direction 1 moves the position up by one and direction 0 moves it down by one. The direction becomes 1 exactly when an inward step lands on 0, and becomes 0 exactly when an outward step lands on 79. Otherwise it is unchanged. |
| `Stepper.StepPreservesSweeping` | move-ctrl.c:228-239 | A step keeps the invariant (dir 1 and 0 ≤ pos < 79, or dir 0 and 0 < pos ≤ 79), keeps the position in [0, 80), and moves the sweep phase to the next one (158 − 1 wraps to 0). |
| `Stepper.PhaseDeterminesHead` | move-ctrl.c:232-236 | Two sweeping heads with the same phase are the same head. |
| `Stepper.StepsAdvancePhase` | move-ctrl.c:232-236 | After n steps from a sweeping head, the head still sweeps, its position is in [0, 80), and its phase has moved on n times. |
| `Stepper.PhaseAfterIsModular` | move-ctrl.c:232-236 | Moving a phase in [0, 158) on n times is adding n modulo 158. |
| `Stepper.FullSweepReturns` | move-ctrl.c:232-236 | From any sweeping state, 2·(80−1) = 158 steps give back the same position and direction. |
| `Stepper.SweepPeriodIsMinimal` | move-ctrl.c:232-236 | No positive number of steps below 158 gives back the starting head. |
| `Stepper.HomingEstablishesSweeping` | move-ctrl.c:198-213 | The head (0, 1) that homing leaves behind sweeps. The zero-initialised head (0, 0) does not sweep, and one step from it goes to position −1. |
| `MoveCtrl.Floppy.constructor` | move-ctrl.c:31-40 | An entry has its GPIO numbers, with position 0 and direction 0. |
| `MoveCtrl.Floppy.SetDirection` | move-ctrl.c:174-180 | The direction becomes the given level; the position is unchanged. |
| `MoveCtrl.Floppy.TakeStep` | move-ctrl.c:228-239 | The new head is `Step` of the old head; the result is 0. |
| `MoveCtrl.Floppy.ResetPosition` | move-ctrl.c:198-213 | Afterwards the direction is 1 and the position is unchanged. The step line was pulsed 80 times and the result is 0. |
| `MoveCtrl.FloppyPool.constructor` | move-ctrl.c:31-40 | Two distinct fresh drives on GPIOs 60/50 and 51/48, both at (0, 0). |
| `MoveCtrl.FloppyPool.NumFloppies` | move-ctrl.c:251-254 | The pool has 2 drives. |
| `MoveCtrl.FloppyPool.TakeStep` | move-ctrl.c:241-249 | An index outside [0, 2) gives −1 and changes nothing. Otherwise drive idx takes one `Step`, the result is 0, and every other drive is unchanged. |
| `MoveCtrl.FloppyPool.ResetFloppyPositions` | move-ctrl.c:215-226 | Every drive ends with direction 1 and its position unchanged; the result is 0. |
| `MoveCtrl.InitDrives` | move-ctrl.c:256-265 | With GPIO set-up succeeding, the result is 0, the pool, its array and both drives are newly allocated (so a caller may go on to step them), the pool holds two distinct drives, and each drive is at position 0 with direction 1, a state that sweeps. |
| `MoveCtrl.TakeStepGuardAsWritten` | move-ctrl.c:243 | The written guard admits exactly the indices 0 ≤ idx ≤ ARRAY_SIZE(floppies), one past the last drive included. |
| `MoveCtrl.TakeStepGuardAdmitsOnePastEnd` | move-ctrl.c:243-248 | Index 2 passes the written guard but is not an index of the two-element array. |
| `Midi.CharValue` | tone.c:208-216 | With an unsigned `char`, the byte compares equal to 0x90 exactly when it is 0x90. With a signed `char`, no byte does. |
| `Midi.LoggedNote` | tone.c:199-204 | The saved note is the received note − 72, so MIDI note 72 maps to offset 0, which tone.c names C4 and which the table plays as A4 (440 Hz). With play_note's −12, a received note n sounds n − 84 semitones from A4. |
| `Midi.ApplyAllAppend` | tone.c:226-231 | Applying the events of a + b to `on`/`saved_note` is applying those of a, then those of b. |
| `Midi.Decode` | tone.c:273-275 | The drain loop leaves the queue empty, or holding a 0x90 followed by fewer than two bytes. It never leaves more bytes than it was given. |
| `Midi.DecodeLeavesSuffix` | tone.c:211-225 | The bytes left queued are the last bytes received, unaltered. |
| `Midi.DecodeResumes` | tone.c:216-221 | Decoding q and then the leftover plus more bytes gives the same events and leftover as decoding q + more at once. A message split across reads is neither lost nor doubled. |
| `Midi.TwoReadsAsOne` | tone.c:263-275 | Two reads, each followed by a drain, leave the queue, `on` and `saved_note` as one read of all their bytes would. |
| `Midi.SplitNoteOnYieldsOneEvent` | tone.c:216-233 | [0x90, n] decodes to no event and stays queued. Adding [v] then yields exactly one event: Note-Off if v = 0, Note-On otherwise. |
| `Midi.SystemByteSkippedAlone` | tone.c:213-214 | A front byte 0xF0–0xFF is dropped alone, whatever follows it. |
| `Midi.StrayNoteOffStartsSound` | tone.c:226-227 | From `on` = 0, a Note-Off with no earlier Note-On makes `on` −1, which the tone thread treats as sounding. |
| `Midi.MidiReceiver.constructor` | tone.c:155-156 | The queue is empty and `on` and `saved_note` are 0. |
| `Midi.MidiReceiver.LogNote` | tone.c:201-204 | `saved_note` becomes note − 72; nothing else changes. |
| `Midi.MidiReceiver.HandleBuf` | tone.c:206-239 | Requires a non-empty queue. A front byte other than 0x90 is removed alone, the result is 1, and `on`/`saved_note` are unchanged. A 0x90 with fewer than two bytes after it gives 0 and leaves everything as it was. Otherwise 3 bytes are removed and the result is 3: velocity 0 decrements `on` and leaves `saved_note`; any other velocity increments `on` and sets `saved_note` to note − 72. |
| `Midi.MidiReceiver.Receive` | tone.c:263-264 | The bytes read are appended to the back of the queue in order; `on`/`saved_note` are unchanged. |
| `Midi.MidiReceiver.Drain` | tone.c:273-275 | Requires a non-empty queue. The queue ends as `Decode(old queue).rest`, empty or holding a partial Note-On, and `on`/`saved_note` are the old values with the decoded events applied in order. |
| `Midi.MidiReceiver.ProcessChunk` | tone.c:263-275 | After appending the chunk and draining, the queue is `Decode(old queue + chunk).rest`, and `on`/`saved_note` are the old values with the decoded events applied in order. The queue is left empty or holding a partial Note-On. |
| `Clock.Timespec.AddToTimespec` | tone.c:61-66 | Exactly us·1000 ns are added to sec·10⁹ + nsec. When the new nanosecond sum is non-negative, `tv_nsec` ends in [0, 10⁹). |
| `ToneTable.InitTones` | tone.c:54-59 | Every slot k of a table of max − min + 1 slots ends holding the period of offset k + min. Every write is in bounds. |
| `ToneEngine.Cycles` | tone.c:70-75 | For ms ≥ 0, the pulse count is max(1, 1000·ms / tone_us), never zero. For ms < 0, it is at most 1. |
| `ToneEngine.Tone` | tone.c:68-96 | Exactly max(0, Cycles) pulses, which is max(1, 1000·ms / tone_us) for ms ≥ 0. Deadline k is normalised and equals the one clock reading plus (k+1)·tone_us µs. |
| `ToneEngine.PeriodAt` | tone.c:98 | For offsets in [−72, 72] the lookup gives `tone_period_us[delta + 72]`. For any other offset C reads outside the array, which is undefined behaviour; the model gives None there instead. |
| `ToneEngine.ReceivedNoteInTable` | tone.c:144-153 | For a received note n, play_note reads slot n − 12, which is inside the 145-slot table exactly for 12 ≤ n ≤ 156. |
| `ToneEngine.ReceivedLowNoteReadsBeforeTable` | tone.c:146 | For received note 0, play_note's index is −12, before the start of the table. |
| `ToneEngine.PlayNote` | tone.c:144-153 | When delta − 12 is a table offset, the note is played with max(1, 1000·12·duration / period) pulses, using the period at slot delta − 12 + 72. For any other delta the C code reads outside the table (undefined behaviour); the model instead returns None and plays nothing. |
| `ToneEngine.PlayToneOnce` | tone.c:158-169 | With the saved note inside the table, one pass of the player pulses exactly when `on` ≠ 0, and then plays the saved note for a sixteenth: max(1, 1000·12 / period) pulses with the period of slot saved_note − 12 + 72. With the note outside the table and `on` ≠ 0, C reads out of bounds; the model stays silent. |
| `SingleDrive.Drive.constructor` | floppy.c:23-24 | Both globals start at 0. |
| `SingleDrive.Drive.SetDirection` | floppy.c:141-145 | `floppy_direction` becomes the given level; the position is unchanged. |
| `SingleDrive.Drive.TakeStep` | floppy.c:178-187 | The new head is `Stepper.Step` of the old head: the same rule as the drive pool. |
| `SingleDrive.Drive.ResetFloppyPositions` | floppy.c:163-176 | Afterwards the direction is 1 and the position is unchanged, after 80 pulses. |
| `SingleDrive.Tone` | floppy.c:212-227 | Exactly max(0, 1000·ms / tone_us) pulses, with no minimum of one. Deadline k is normalised and equals the k-th fresh clock reading plus tone_us µs. |
| `SingleDrive.EarlierToneCanBeSilent` | floppy.c:214-217 | When 0 ≤ 1000·ms < tone_us, this tone pulses 0 times where tone.c's pulses once. |
| `SingleDrive.DeclaredTableLength` | floppy.c:199-203 | The table is declared with MIN_DELTA_A4 + MAX_DELTA_A4 + 1 = 1 slot. |
| `SingleDrive.InitTonesOverrunsDeclaredTable` | floppy.c:205-210 | init_tones writes up to slot 48, and every offset above −24 has a slot past the declared table's end. |
| `SingleDrive.IntendedTableLength` | floppy.c:199-200 | An offset is in [−24, 24] exactly when its slot is below 49. |
| `SingleDrive.MarioSlot` | floppy.c:370 | play_mario reads slot delta + 7. That slot is in a 49-slot table exactly for −7 ≤ delta ≤ 41, and in the declared one-slot table only for delta = −7. |
| `SingleDrive.MarioPause` | floppy.c:371-375 | The pause 1500·50·duration µs splits into seconds and microseconds that add back up to it. For duration ≥ 0, the microseconds are in [0, 10⁶), so udelay's `tv_nsec = 1000·us` is a valid nanosecond field. |

## Findings

| source | as written | input that shows it | evidently intended | confidence | as-written member | corrected member |
|---|---|---|---|---|---|---|
| move-ctrl.c:243 | `idx > ARRAY_SIZE(floppies)` rejects only indices above 2 | `take_step(2)` passes the check and steps `floppies[2]`, one past the two-element array | reject `idx >= ARRAY_SIZE(floppies)` | high; not executed | `MoveCtrl.TakeStepGuardAdmitsOnePastEnd` | `MoveCtrl.FloppyPool.TakeStep` |
| floppy.c:203 | `tone_period_us[MIN_DELTA_A4 + MAX_DELTA_A4 + 1]` declares 1 slot | `init_tones` writes slots 1..48 (offsets −23..24) past the end; `play_mario` reads slots 2..14 | `MAX_DELTA_A4 - MIN_DELTA_A4 + 1` = 49 slots, as tone.c:52 declares its table | high; not executed | `SingleDrive.InitTonesOverrunsDeclaredTable` | `ToneTable.InitTones` |
| tone.c:146 | `get_us(n->delta_a4 - 12)` reads slot note − 12 for a received note, unchecked | received note 0 (any note below 12) reads slot −12, before the table; a zero word read there makes `tone` divide by zero | a note without a table slot is not played | medium; not executed | `ToneEngine.ReceivedLowNoteReadsBeforeTable` | `ToneEngine.PlayNote` |

## Left out

- GPIO plumbing is not modelled: `export_gpio`, `open_gpio`, `init_gpio(s)` and `write_value` are sysfs file I/O. A pulse is a counted event, and a failed write is ignored, as the source ignores it.
- `nanosleep`, `clock_gettime`, `clock_nanosleep` and `udelay` are not modelled. Clock readings are parameters, and a deadline is recorded instead of slept to. The error returns of these calls are not modelled either.
- `get_frequency` and `get_period_us` compute in floating point. They are not modelled; the period is a parameter of `ToneTable.InitTones`.
- The threads are not modelled: `tone_thread`, `start_tone`, `main`, `pthread_create`/`pthread_join` and the unsynchronised sharing of `on`/`saved_note`. The infinite `play_tone` loop is represented by one pass, `ToneEngine.PlayToneOnce`.
- Opening and reading the MIDI device, argument handling, the retry after a failed read, the `debug` printing, the diagnostic printf output of handle_buf and take_step's "Invalid floppy" message on stderr are I/O and are not modelled.
- The songs are not modelled: `looney_tunes`, the `mario` and `a_tone` tables, the per-note loop of `play_mario`, and both `main`s. Only the slot and pause arithmetic of `play_mario` is modelled.
- move-ctrl.h is not part of this model. tone.c calls `take_step()` with no argument, so the tone model counts pulses without choosing a drive.
- Midi.MidiReceiver.ProcessChunk requires the queue to hold a byte once the chunk is appended (so does Midi.MidiReceiver.Drain). After a zero-length read with an empty queue, the source's do-while calls `handle_buf`, and `front()` on an empty `std::list` is undefined behaviour.
- Midi.MidiReceiver.HandleBuf does not model the 32-bit wrap-around of `on`, which would take 2³¹ unmatched messages.
- MoveCtrl.InitDrives takes `init_gpios` to succeed; the error code init_drives returns when GPIO set-up fails is not modelled, because that set-up is file I/O.
- Clock.Timespec.AddToTimespec does not model the 32-bit overflow of `tv_sec`.
- ToneEngine.Tone requires 0 < tone_us ≤ 1147483, the bound under which adding `us * 1000` to any normalised `tv_nsec` stays within 32 bits. A zero period divides by zero. A period above that bound can overflow the 32-bit `tv_nsec`, depending on the nanoseconds of the clock reading; above 2147483, `us * 1000` itself overflows. No call site passes such a period. ToneEngine.PlayNote and ToneEngine.PlayToneOnce require ValidTable, which assumes every period is positive and at most 1147483 µs; get_period_us (not modelled) computes periods of at most 145455 µs, the period of the lowest offset, −72; an out-of-table read in C can pass any value, including 0 (see ToneEngine.PlayNote).
- ToneEngine.PlayNote, with ToneEngine.PeriodAt and ToneEngine.PlayToneOnce: a note whose slot lies outside the 145-slot table is read out of bounds in C, which is undefined behaviour; the model gives None and plays nothing instead.
- SingleDrive.Tone requires one normalised clock reading per pulse, because the clock is not modelled.
