# Cat-ears firmware model

A Dafny model of the firmware of the cat-ears device: two animatronic ears,
each with a servo, a ring of 12 RGB LEDs and a speaker. The firmware keeps one
shared `State` record holding the servo positions, the two light modes with a
global brightness, and the speaker mode with a master volume. Several tasks
share it:

- the remote poller overwrites it with JSON fetched from a server;
- the serial command line edits it one field at a time;
- the LED, servo and speaker tasks read it every few milliseconds and drive
  the hardware.

The model covers:

- **the state schema and its defaults** (`DeviceState`, over `Lighting` and
  `Audio`): the records and sum types, their constructors and builders, and
  the preset light patterns and chiptunes. It also covers the two defaults: the
  hand-written `default_const` the firmware boots with, and the derived
  `Default`, which zeroes everything.
- **the containers** (`Audio`): the 64-slot chiptune buffer filled by
  `from_notes`, and the sample-count and duration arithmetic of raw clips,
  with every panic of that arithmetic as an explicit `None`.
- **the actuator arithmetic**:
  - `ServoDriver` covers the rotation-to-duty-cycle map of `Servo::set_rotation`.
  - `LedAnimation` covers `scale_brightness` and one frame of `generate_pattern`,
    which fills a 12-colour array and advances a `PatternState`'s counters in
    place.
  - `SpeakerPlayback` covers the speaker task's volume selection and the notes a
    chiptune pass plays.
- **the command line** (`CommandLine`): the case-insensitive argument parsers,
  each command as a transformer of the state, and the handler. The handler edits
  a copy of the state and writes it back only when the copy differs.

Integer widths are explicit (`Byte`, `U16`, `U32`), and arithmetic uses the
checked semantics of a debug build. A `u8`/`u16` overflow, a division by zero
or a slice out of bounds is a panic. Pure functions return panics as values
(`Option`, `Panicked`). The imperative methods require the non-panicking case,
because the firmware aborts there. The wrapping operations the source asks for
(`wrapping_add`) are written out modulo 2^8 or 2^16.

The floating-point parts of a frame come in as the functions of a `Numerics`
value. These are the colour interpolation of a gradient, the sine-shaped pulse
level and `hsv2rgb`. The model proves everything around them, such as which
counter moves, which LEDs are lit and where brightness scaling applies.

The doc comment of `Lights::default_const` says both rings start off. Its code
sets both to a red pulse, and the model follows the code. Likewise the master
volume is documented as scaling all audio output (driver/src/state.rs:118),
but the speaker task applies it to chiptune notes only: a tone plays at its own
volume, or at the master volume in place of a missing one, and is not scaled
again (`SpeakerPlayback.Action`, `VolumeFallbacks`).

## Model

| member | source | states |
|---|---|---|
| DeviceState.ServosDefaultConst | driver/src/state.rs:65-70 | both ears start at the centre position 125 |
| DeviceState.LightsDefaultConst | driver/src/state.rs:95-107 | both rings start as the same red pulse over 0-255 with a 250 ms period, at brightness 255 |
| DeviceState.SpeakersDefaultConst | driver/src/state.rs:131-136 | the speakers start silent at volume 128 |
| DeviceState.StateDefaultConst | driver/src/state.rs:34-40 | the boot state is exactly the three component defaults |
| DeviceState.StateDefault | driver/src/state.rs:14-22 | the derived default has servos 0/0, both lights Off at brightness 0, and silence at volume 0 |
| DeviceState.DefaultConstProperties | driver/src/state.rs:34-40 | the boot state is left/right symmetric and its light modes are well formed; it differs from the derived default in servos, light modes, brightness and volume, and agrees only on the audio mode |
| Lighting.DefaultMode | driver/src/lights.rs:7-11 | the default light mode is Off |
| Lighting.NewChase | driver/src/lights.rs:50-58 | a new chase has a black background, runs clockwise and keeps colour, length and speed |
| Lighting.WithBackground | driver/src/lights.rs:62-65 | changes the background and no other field |
| Lighting.CounterClockwise | driver/src/lights.rs:69-72 | clears `clockwise` and changes no other field |
| Lighting.ChaseBuildersCommute | driver/src/lights.rs:62-72 | the two chase builders can be applied in either order |
| Lighting.NewPulse | driver/src/lights.rs:91-98 | a new pulse spans brightness 0 to 255 and keeps colour and period |
| Lighting.WithBrightnessRange | driver/src/lights.rs:102-106 | sets exactly the minimum and maximum brightness |
| Lighting.NewRainbow | driver/src/lights.rs:123-129 | a new rainbow is spread over the ring at brightness 255 |
| Lighting.Unified | driver/src/lights.rs:133-136 | clears `spread` and changes no other field |
| Lighting.RainbowWithBrightness | driver/src/lights.rs:140-143 | sets the brightness and changes no other field |
| Lighting.NewLedPattern | driver/src/lights.rs:158-163 | all 12 LEDs are black and the pattern does not loop |
| Lighting.LedWithLoop | driver/src/lights.rs:182-185 | sets looping and keeps the LEDs |
| Lighting.FromColors | driver/src/lights.rs:171-178 | given exactly 12 colours, LED i is colour i and the pattern does not loop |
| Lighting.CatEyes | driver/src/lights.rs:241-247 | LEDs 0 and 6 are amber (255,150,0) and every other LED is black |
| Lighting.Police | driver/src/lights.rs:201-205 | a six-LED red chase on a blue background, clockwise, one step every 100 ms |
| Lighting.Breathing | driver/src/lights.rs:209-213 | a white pulse between brightness 20 and 255 over 3000 ms |
| Lighting.Party | driver/src/lights.rs:217-219 | a rainbow at 50 ms, spread over the ring at brightness 255 |
| Lighting.Alert | driver/src/lights.rs:223-225 | a red pulse over the full range 0-255 every 500 ms |
| Lighting.Success | driver/src/lights.rs:229-231 | a green pulse between 50 and 255 every 1000 ms |
| Lighting.Loading | driver/src/lights.rs:235-237 | a three-LED (0,100,255) chase on black, clockwise, one step every 150 ms |
| Lighting.Notification | driver/src/lights.rs:251-253 | a (0,150,255) pulse between 30 and 200 over 2000 ms |
| Lighting.Fire | driver/src/lights.rs:257-259 | a gradient from red to orange (255,150,0) |
| Lighting.Ocean | driver/src/lights.rs:263-265 | a gradient from blue to cyan |
| Lighting.PresetsWellFormed | driver/src/lights.rs:199-265 | every preset keeps its pattern's documented ranges (chase length 1-12, non-zero pulse period, min no brighter than max) and the chase speeds the LED task's `u8` divisor can handle |
| Audio.DefaultMode | driver/src/audio.rs:60-63 | the default audio mode is Silent |
| Audio.NewNote | driver/src/audio.rs:173-179 | a new note has no volume of its own |
| Audio.NoteWithVolume | driver/src/audio.rs:183-189 | the note carries the given volume |
| Audio.Rest | driver/src/audio.rs:193-199 | a rest has frequency 0 and no volume |
| Audio.NewSequence | driver/src/audio.rs:221-228 | an empty sequence has length 0, default volume 128, no looping, and `rest(0)` in all 64 slots |
| Audio.SequenceOf | driver/src/audio.rs:236-247 | for at most 64 notes: length is the note count, the notes fill the first slots in order, and `rest(0)` fills the rest |
| Audio.FromNotes | driver/src/audio.rs:236-247 | the slot-by-slot loop builds exactly `SequenceOf(notes)` |
| Audio.WithVolume | driver/src/audio.rs:251-254 | changes only the default volume |
| Audio.WithLoop | driver/src/audio.rs:258-261 | changes only `looping` |
| Audio.NewClip | driver/src/audio.rs:103-116 | keeps data, rate, sample width and channels, not looping |
| Audio.Mono8Bit | driver/src/audio.rs:120-122 | an 8-bit mono clip |
| Audio.Mono16Bit | driver/src/audio.rs:126-128 | a 16-bit mono clip |
| Audio.ClipWithLoop | driver/src/audio.rs:132-135 | changes only `looping` |
| Audio.SampleCount | driver/src/audio.rs:139-148 | panics below 8 bits per sample (division by zero); otherwise it is the number of whole frames in the data, and it succeeds whenever the data fits a u32 |
| Audio.DurationMs | driver/src/audio.rs:152-154 | panics on a zero sample rate, on a panicking sample count or when `count * 1000` overflows u32; otherwise it is the floor of count * 1000 / rate |
| Audio.ExampleClip | driver/src/audio.rs:415-419 | 1000 bytes of 128 (8-bit silence), 8000 Hz, 8 bits, mono, not looping |
| Audio.ExampleClipDuration | driver/src/audio.rs:415-419 | the example clip has 1000 samples and lasts 125 ms |
| Audio.CoinCollect | driver/src/audio.rs:276-281 | two notes, B5 (988 Hz, 100 ms) then E6 (1319 Hz, 400 ms), not looping, default volume 128 |
| Audio.PowerUp | driver/src/audio.rs:285-292 | four notes C5, E5, G5 at 100 ms and C6 at 200 ms |
| Audio.LevelComplete | driver/src/audio.rs:296-305 | six notes C5, E5, G5, C6, G5 at 150 ms and C6 at 400 ms |
| Audio.GameOver | driver/src/audio.rs:309-316 | four notes 523, 494, 466 Hz at 200 ms and 440 Hz at 600 ms |
| Audio.MenuSelect | driver/src/audio.rs:320-325 | two 50 ms notes, 1047 Hz and 1319 Hz |
| Audio.AlertTune | driver/src/audio.rs:329-335 | two 880 Hz beeps of 100 ms around a 50 ms rest |
| Audio.Happy | driver/src/audio.rs:339-347 | five notes C5, E5, G5, E5 at 150 ms and C6 at 300 ms |
| Audio.Sad | driver/src/audio.rs:351-358 | four notes 440, 415, 392 Hz at 300 ms and 349 Hz at 600 ms |
| Audio.Startup | driver/src/audio.rs:362-370 | five notes rising from 262 Hz to 784 Hz, the last one 200 ms |
| Audio.Shutdown | driver/src/audio.rs:374-382 | five notes falling from 784 Hz to 262 Hz, the last one 200 ms |
| ServoDriver.TickUs | src/servo.rs:207-208 | the tick width is the PWM period divided into `max_duty_cycle + 1` ticks, rounded down |
| ServoDriver.MinDuty | src/servo.rs:209 | the shortest pulse in whole ticks, rounded down, and no more than the longest |
| ServoDriver.MaxDuty | src/servo.rs:210 | the longest pulse in whole ticks, rounded down, and no less than the shortest |
| ServoDriver.DesiredDuty | src/servo.rs:206-214 | it panics exactly when `max_duty_cycle + 1` overflows, the tick is 0 µs, the pulse range is inverted or the duty exceeds u16; otherwise the duty lies in [min_duty, max_duty] |
| ServoDriver.InterpolateBounds | src/servo.rs:211-212 | the interpolation stays between its endpoints |
| ServoDriver.DutyEndpoints | src/servo.rs:157-162 | rotation 0 gives min_duty and rotation 255 gives max_duty |
| ServoDriver.DutyMonotone | src/servo.rs:212 | a larger rotation never gives a smaller duty, and never panics where a larger one does not |
| ServoDriver.NoPanicWhenMaxFits | src/servo.rs:213-214 | if max_duty fits in u16, no rotation panics |
| ServoDriver.FirmwareServoPulse | src/servo.rs:67-80 | with the 19 999 max duty cycle the firmware configures, a tick is 1 µs and rotation r gives 500 + 2000*r/255 on both servo models |
| ServoDriver.CenterPulse | src/servo.rs:207-212 | the centre position 125 gives a 1480 µs pulse |
| ServoDriver.Servo.constructor | src/servo.rs:153-155 | a new servo keeps its configuration and has not written a duty yet |
| ServoDriver.Servo.SetRotation | src/servo.rs:206-215 | writes `DesiredDuty` to the PWM, within [min_duty, max_duty] |
| LedAnimation.ScaleChannel | src/main.rs:663 | the channel is floor(c * scale / 255) and never exceeds c |
| LedAnimation.ScaleBrightness | src/main.rs:661-670 | each channel is floor(c * scale / 255) and never brighter; 255 is the identity and 0 gives black |
| LedAnimation.ScaleMonotone | src/main.rs:661-670 | a larger scale never gives a dimmer channel |
| LedAnimation.FramesPerStep | src/main.rs:586 | the frame count per step is between 1 and 6553 |
| LedAnimation.ChaseStep | src/main.rs:586-588 | the chase step is always below 12 |
| LedAnimation.ChaseStepAsWritten | src/main.rs:586-588 | the firmware's `u8` divisor: division by zero exactly when the frame count per step is a multiple of 256, and a step below 12 otherwise |
| LedAnimation.ChaseStepAsWrittenDividesByZero | src/main.rs:586-588 | a chase of documented length at 2560 ms per step divides by zero on every frame; the firmware's division fails exactly from 2560 ms on when the tenth of the speed is a multiple of 256 |
| LedAnimation.ChaseStepAgrees | src/main.rs:586-588 | below 2560 ms per step the firmware's u8 divisor and the u16 divisor agree |
| LedAnimation.ChaseLightsRun | src/main.rs:583-603 | with the corrected `u16` divisor, a chase frame advances `position` by 1 mod 256; LED k shows the chase colour exactly when it is within `length` of the step in the chase's direction, and the background otherwise (this unfolds `ChaseFrame`; `PaintChase` proves the firmware's painting loop reaches the same colours) |
| LedAnimation.ChaseFrame | src/main.rs:583-603 | with the corrected `u16` divisor, a chase frame panics exactly when the painting loop's `u8` arithmetic overflows; otherwise it has 12 colours and only `position` moves, by 1 mod 256 |
| LedAnimation.PulseFrame | src/main.rs:604-620 | a pulse frame panics on a zero period (the `%`) or an inverted range (`max - min`); otherwise it has 12 colours and only the phase moves, by 10 mod 65536 |
| LedAnimation.RainbowFrame | src/main.rs:621-650 | a rainbow frame never panics, has 12 colours, and only the hue moves, by the hue step mod 256 |
| LedAnimation.Render | src/main.rs:560-659 | only a chase or a pulse can panic; a frame has 12 colours; Off, Solid, Gradient and Custom leave the counters alone |
| LedAnimation.ChaseOverflowNeedsLongChase | src/main.rs:595-600 | the chase loop's u8 arithmetic only overflows for a chase longer than 13 LEDs |
| LedAnimation.PulseUniform | src/main.rs:604-620 | a pulse frame advances the phase by 10 mod 65536 and lights the whole ring in one colour, never brighter than the pattern's |
| LedAnimation.PulsePanics | src/main.rs:606-614 | a pulse panics exactly when its period is 0 or its minimum exceeds its maximum |
| LedAnimation.HueStep | src/main.rs:623-625 | the hue increment is floor(255 / frames-per-step), so it fits a u8 unchanged |
| LedAnimation.RainbowHue | src/main.rs:621-626 | the hue advances by 255 / frames-per-step mod 256, and stands still exactly when a step takes 2560 ms or more |
| LedAnimation.FrameShape | src/main.rs:560-659 | a frame has 12 colours and only the mode's own counter moves |
| LedAnimation.StaticModes | src/main.rs:565-574 | Off is black, Solid is the scaled colour on every LED, and Custom scales each LED; at full brightness Custom shows the pattern unchanged |
| LedAnimation.WellFormedNeverPanics | src/main.rs:583-620 | a mode within its documented ranges, and a chase whose speed the `u8` divisor does not truncate to 0, always renders a frame; the firmware's own chase division never fails on it either |
| LedAnimation.OffsetOfPosition | src/main.rs:596-600 | the LED painted in iteration i is at offset i mod 12 from the step |
| LedAnimation.OffsetInjective | src/main.rs:596-600 | different LEDs are at different offsets from the step |
| LedAnimation.PaintedLed | src/main.rs:595-602 | painting iteration i extends the lit run by exactly the LED at offset i |
| LedAnimation.Fill | src/main.rs:592 | every element becomes the given colour |
| LedAnimation.ChaseLed | src/main.rs:596-600 | the checked u8 position arithmetic gives `(step + i) % 12` or `(12 + step - i) % 12` |
| LedAnimation.PaintChase | src/main.rs:595-602 | after the loop, LED k has the chase colour exactly when its offset from the step is below `length` |
| LedAnimation.PatternState.constructor | src/main.rs:516-521 | all three counters start at 0 |
| LedAnimation.PatternState.GeneratePattern | src/main.rs:560-659 | the array holds the 12 colours of `Render`, and the counters become `Render`'s next counters |
| SpeakerPlayback.NoteVolume | src/main.rs:365 | a note's own volume wins over the fallback |
| SpeakerPlayback.PlayableNotesAsWritten | src/main.rs:361 | the firmware's slice of the first `length` notes, which panics when `length` exceeds 64 |
| SpeakerPlayback.SliceAsWrittenPanics | src/main.rs:361 | a sequence claiming 65 notes makes the firmware's slice panic |
| SpeakerPlayback.PlayableLength | src/main.rs:361 | a pass plays `length` notes, capped at the 64 slots |
| SpeakerPlayback.PlayableNotes | src/main.rs:361-364 | the played notes are the first `PlayableLength` slots, in order |
| SpeakerPlayback.PlayableNotesAgree | src/main.rs:361 | the firmware's slice succeeds exactly when length <= 64, and then it equals the clamped slice |
| SpeakerPlayback.FromNotesRoundTrip | src/main.rs:361-364 | a sequence built by `from_notes` plays back exactly the notes it was built from |
| SpeakerPlayback.ChiptuneTone | src/main.rs:365-388 | a chiptune note plays at its own volume or the sequence default, scaled by the speaker volume |
| SpeakerPlayback.ChiptuneTones | src/main.rs:357-390 | a full pass is one request per playable note, in order |
| SpeakerPlayback.Action | src/main.rs:319-410 | Silent plays silence and a clip is unsupported; a tone plays at its own volume or the speaker volume, with no master volume; a chiptune plays its tones with the speaker volume as master |
| SpeakerPlayback.VolumeFallbacks | src/main.rs:332-379 | a tone without a volume plays at the speaker volume, applied once; a chiptune note without one plays at the sequence default, scaled by the speaker volume |
| SpeakerPlayback.WithVolumeTones | src/main.rs:365 | `with_volume` changes the played volume of exactly the notes without their own |
| SpeakerPlayback.ChiptunePass | src/main.rs:360-403 | the played notes are a prefix of the full pass that stops right after the first note whose state read sees another mode; the inner `loop` starts another pass exactly for a looping sequence whose last read still sees the same mode |
| SpeakerPlayback.PlayedAsWritten | src/main.rs:319-403 | over an unchanged speaker state the firmware's loops play the full (clamped) pass again and again, `passes` times, whether or not the sequence loops: the outer `loop` restarts a non-looping one |
| SpeakerPlayback.NonLoopingReplaysAsWritten | src/main.rs:319-403 | a non-looping chiptune of at least one note plays twice in two passes' time as written, but once with `looping` honoured |
| SpeakerPlayback.Played | driver/src/audio.rs:214 | with `looping` honoured, a looping sequence plays `passes` full passes and every sequence starts with one full pass |
| SpeakerPlayback.PlayedOnce | driver/src/audio.rs:214 | with `looping` honoured, a non-looping sequence plays exactly one pass however long its mode stays, and a looping one plays as the firmware plays it |
| CommandLine.LowerChar | driver/src/cmdline.rs:176 | ASCII capitals become lower case and every other character is kept (the ASCII part of `to_lowercase`) |
| CommandLine.ToLower | driver/src/cmdline.rs:176 | folds the ASCII letters of the argument one by one, keeping its length |
| CommandLine.NonAsciiRejected | driver/src/cmdline.rs:174-233 | an argument with a character outside ASCII is neither a side nor a chiptune name, and no chiptune word contains 'k' |
| CommandLine.ToLowerIdempotent | driver/src/cmdline.rs:176 | lower-casing twice is lower-casing once |
| CommandLine.LowerOfUpper | driver/src/cmdline.rs:176 | lower-casing ignores an earlier upper-casing |
| CommandLine.ParseSide | driver/src/cmdline.rs:174-185 | "left"/"l" give Left and "right"/"r" give Right, in any case; anything else is an error carrying the argument and the expected text |
| CommandLine.SideRoundTrip | driver/src/cmdline.rs:177-178 | each side's name parses back to it, in lower or upper case |
| CommandLine.ParseSideIgnoresCase | driver/src/cmdline.rs:176-178 | arguments with the same lower case parse alike |
| CommandLine.ParseChiptuneName | driver/src/cmdline.rs:214-233 | each of the ten words, and the aliases "level" and "menu", gives its name in any case; anything else is an error |
| CommandLine.ChiptuneNameRoundTrip | driver/src/cmdline.rs:216-226 | every name parses back from its word, in lower or upper case |
| CommandLine.ParseChiptuneNameIgnoresCase | driver/src/cmdline.rs:216 | arguments with the same lower case parse alike |
| CommandLine.Preset | driver/src/cmdline.rs:496-512 | each name plays a preset of 2 to 6 notes that does not loop |
| CommandLine.Apply | driver/src/cmdline.rs:320-520 | the state after a command differs at most in the command's target field, and not at all for the status/get commands |
| CommandLine.CommandEffects | driver/src/cmdline.rs:364-519 | what each writing command stores: Solid/Off, Rainbow(500, spread, 255), Pulse(colour, 0-255, 1000 ms), the brightness, the servo position, Silent, a tone of the given frequency and duration with no volume, the named preset, and the volume |
| CommandLine.ApplyIdempotent | driver/src/cmdline.rs:364-519 | repeating a command changes nothing more |
| CommandLine.LastWriteWins | driver/src/cmdline.rs:364-519 | of two commands writing the same field, the later decides it |
| CommandLine.IndependentCommute | driver/src/cmdline.rs:364-519 | commands writing different fields commute |
| CommandLine.CommandsPreserveWellFormed | driver/src/cmdline.rs:364-519 | from a well-formed state (and the boot state is one), every command leaves light modes whose frames cannot panic, also with the firmware's `u8` chase divisor, and a chiptune of at most 64 notes |
| CommandLine.SharedState.constructor | src/main.rs:56 | the shared state starts at `State::default_const()` |
| CommandLine.SharedState.Handle | driver/src/cmdline.rs:314-533 | the shared state becomes the command's result, and it is written exactly when that result differs from the current state |

## Left out

- driver/src/networking.rs and driver/src/lib.rs: radio bring-up and module declarations, with no state logic.
- The async task bodies in src/main.rs (`main`, `update_state`, `control_servos`, `control_leds`, `control_speakers`): peripheral set-up, HTTP/TLS polling, DMA writes and timers. The state the remote poller installs is modelled as any `State` value, which is why its chiptune length is unbounded.
- Floating-point numerics: `interpolate_color`, the sine pulse level and `hsv2rgb` are parameters (`Numerics`). The amplitude formulas, `generate_tone_with_amplitude` and `calculate_envelope` are not modelled. A played note is described by its frequency, duration and volumes.
- `Note.frequency` is a `real`: every frequency the firmware builds is an integer below 2^24, which an `f32` holds exactly. NaN, and the `f32` equality the mode-change test uses on it, are not modelled.
- Serde, `serde_arrays` and `serde_json_core`: the wire format is generated code.
- The `embedded_cli` byte processor, the `uwrite!` replies and `display_light_mode`/`display_audio_mode`. A command enters the model already parsed, and its text output is not modelled.
- The read-copy/compare/write race between the command handler and the remote poller is concurrency. `SharedState.Handle` runs with no other writer.
- ServoDriver.Servo.SetRotation: requires a non-panicking duty, and does not model the error the PWM's `set_duty_cycle` may return. The `u128` arithmetic cannot overflow for the `u16` and microsecond ranges involved.
- LedAnimation.PatternState.GeneratePattern: requires a frame that does not panic, because the LED task aborts on one. When a pulse or a chase panics is stated by `PulsePanics`, `ChaseOverflows` and, for the firmware's division by zero, `ChaseStepAsWritten`. It uses the corrected chase divisor (see Findings).
- SpeakerPlayback.ChiptunePass: plays the clamped slice, not the firmware's panicking one (see Findings). The state reads between notes are a parameter, not a lock.
- LedAnimation.ChaseFrame: computes the step with the corrected `u16` divisor (`ChaseStep`), not the firmware's `u8` one. From 2560 ms per step the firmware either divides by zero (2560-2569 ms, ...) or steps faster than the model (2570 ms divides by 1, where the model divides by 257); `ChaseStepAsWritten` and `ChaseStepAgrees` state exactly where the two differ, and below 2560 ms they agree.
- LedAnimation.Render: renders a chase through `ChaseFrame`, so it carries the same corrected divisor; every other mode is as written.
- LedAnimation.ChaseLightsRun: states the lit LEDs for the corrected step; below 2560 ms per step that is the firmware's step too (`ChaseStepAgrees`).
- SpeakerPlayback.ChiptuneTones: a pass over the clamped slice (`PlayableNotes`); for a sequence claiming more than 64 notes the firmware panics before the first note (`PlayableNotesAsWritten`).
- SpeakerPlayback.Action: a chiptune plays `ChiptuneTones`, so it carries the same clamp; for at most 64 notes it is as written (`PlayableNotesAgree`).
- SpeakerPlayback.PlayedAsWritten: as written in its loops, but each pass plays the clamped slice; for a sequence claiming more than 64 notes the firmware panics instead, so `NonLoopingReplaysAsWritten` describes the firmware for sequences of at most 64 notes.
- SpeakerPlayback.Played: describes passes over a speaker state that does not change; a change between passes is `ChiptunePass`'s business, and what the speaker task does after the single pass of a non-looping sequence (wait, or play silence) is left open.
- CommandLine.LowerChar: folds ASCII letters only, where Rust's `to_lowercase` is Unicode-aware ('É' becomes 'é' there and stays 'É' here). Parse results are unaffected: `NonAsciiRejected` shows every argument with a non-ASCII character is rejected, and the only non-ASCII character whose Rust lower case is ASCII, the Kelvin sign, becomes 'k', which no accepted word has.
- CommandLine.ToLower: keeps the argument's length, where Rust's `to_lowercase` may lengthen it ('İ' becomes 'i' and a combining dot). Such an argument holds a non-ASCII character before and after lower-casing, so the firmware rejects it as the model does (`NonAsciiRejected`).
- Release builds wrap where debug builds panic: the chase's `step + i` and `12 + step - i` and the pulse's `max - min`, and `duration_ms`'s `u32` product `sample_count * 1000`, which `DurationMs` reports as a panic where a release build returns a wrapped duration. The model uses the checked semantics, and `WellFormedNeverPanics` shows that modes within their documented ranges (with a chase speed the `u8` divisor does not truncate to 0) never reach the panic.
- The pulse brightness `brightness as u8` is a saturating float cast, inside `Numerics.pulseLevel`.
- Raw clip playback is not implemented by the firmware either (`Unsupported`).

## Findings

| source | as written | input that shows it | evidently intended | confidence | as-written member | corrected member |
|---|---|---|---|---|---|---|
| src/main.rs:586-588 | the chase's frames-per-step `(speed_ms / 10).max(1)` is cast to `u8` before dividing, so it is taken modulo 256 | `ChasePattern::new(red, 6, 2560)`: 256 frames per step becomes divisor 0 and every frame divides by zero; 2570 ms becomes divisor 1, the fastest chase | divide by the full `u16` frame count, which is never 0 | not executed | LedAnimation.ChaseStepAsWritten | LedAnimation.ChaseStep |
| src/main.rs:361 | `sequence.notes[..usize::from(sequence.length)]` trusts `length`, a `u8` that remotely parsed state may set above the 64 slots | a chiptune with `length = 65` in the polled JSON panics the speaker task | play at most the 64 stored notes | not executed | SpeakerPlayback.PlayableNotesAsWritten | SpeakerPlayback.PlayableNotes |
| src/main.rs:319-401 | after a pass of a non-looping chiptune the inner `loop` ends, and the outer `loop` reads the unchanged state and plays the same chiptune again; `looping` only decides whether the master volume is read again between passes | any non-looping preset, e.g. `audio chiptune coin`: the coin sound repeats until the mode changes | a sequence whose `looping` is false plays once (driver/src/audio.rs:214, "whether to loop the sequence after completion") | not executed | SpeakerPlayback.PlayedAsWritten | SpeakerPlayback.Played |
