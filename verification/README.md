# morse-player: the symbol pipeline in Dafny

`morse-player` plays text as Morse code. Before any sound is made, `AudioPlayer`
turns the text into a string of one-character symbols and prices that string in
time. The symbols are `.` (dot), `-` (dash), `*` (gap inside a character), `$`
(gap between characters), `/` (gap between words) and `|` (speed marker). This
project models that discrete half of `src/morse_player.rs` and proves properties
of it:

- the action table and `set_delay` (module `Actions`);
- the code table and the glyph of a character (`MorseCode`);
- the speed ramps Speedup, Slowing and Zigzag (`Ramp`);
- the encoder `gen_audio_prev_vec` (`Encoder`);
- a strict decoder, the encoder's partner without a ramp (`Decoding`);
- the fixed start and end strings (`Signals`);
- the unit conversion and `get_time_and_timings` (`Timing`);
- the symbol dispatch and buffer flushing of `play_audio`, without the sink (`Playback`);
- session assembly in `play`, the start speed and the three duration getters (`Session`).

Speeds and durations are `real`. Each `unwrap()` or index that can panic in the
source becomes an `Err` of `Results.Failure`:

- `GapOnEmptyOutput`: a leading space makes the encoder index an empty vector.
- `MissingAction(c)`: a lookup in the action table finds nothing.
- `MissingProfile`: the timing meets a marker but has no profile.
- `ProfileExhausted`: the profile has fewer values than there are markers.
- `ZeroSpeed`: the unit would divide by a speed of 0.

The loops are folds. The encoder recurses over the remaining text. The timing
and playback loops are stated as the state after the first `n` symbols.

Two behaviours of the code are modelled as written, and lemmas show their
consequences:

- With an odd `modification_len`, the Zigzag window `N = 5 * len` is odd, so the
  descent uses the denominator `N/2 - 1` over `N/2 + 1` steps. Its last value
  falls below `min_speed` (`Ramp.ZigzagOddUndershoots`, and `Ramp.ZigzagOddExample`
  gives 90 for len 1, min 100, max 110).
- `get_text_duration` and `get_char_timings` time the text from the set speed,
  not the start speed. Under a ramp this makes no difference, because the text
  opens with a speed marker (`Session.TextTimingIgnoresSetSpeed`).

## Model

| member | source | states |
|---|---|---|
| Actions.SetDelay | src/morse_player.rs:281-284 | `set_delay` sets `$` to `(1, delay)` and `/` to `(1, trunc(delay * 2.33))` saturated to i32; every other entry is unchanged and no key is added besides those two |
| Actions.WordGapUnitsBounds | src/morse_player.rs:283 | the word gap is `delay * 2.33` truncated: within one unit below `2.33 * delay` for non-negative delays up to 921 500 000, non-negative for non-negative delays, and 6 for the default delay 3 |
| Actions.Configure | src/morse_player.rs:107-113 | any sequence of `set_delay` calls on the defaults leaves a table with exactly the six symbol keys, the fixed `.` `-` `*` `\|` entries and silences for both gaps; no calls leave the defaults |
| Actions.ConfigureLastWins | src/morse_player.rs:281-284 | only the latest `set_delay` call matters |
| Actions.CategoriesOfWellFormed | src/morse_player.rs:107-113 | in such a table the speed-change category belongs to `\|` alone, tones to `.` and `-`, silences to `*`, `$` and `/` |
| Settings.TruncToInt | src/morse_player.rs:283 | an `as i32` cast truncates toward zero |
| Settings.SaturateI32 | src/morse_player.rs:283 | an `as i32` cast saturates at the i32 range |
| MorseCode.CodeIsTones | src/morse_player.rs:490-499 | every code in the table is a non-empty run of dots and dashes, and a space has none |
| MorseCode.Interleave | src/morse_player.rs:542-547 | a code of k tones is laid out in 2k-1 symbols, tones at even positions and `*` at odd ones |
| MorseCode.GlyphShape | src/morse_player.rs:541-548 | the glyph of a character holds only `.`, `-` and `*`; it is non-empty exactly for table characters, and then it neither starts nor ends with `*` |
| MorseCode.DeinterleaveInterleave | src/morse_player.rs:542-547 | removing the `*` between tones gives back the code |
| MorseCode.InterleaveDeinterleave | src/morse_player.rs:542-547 | whatever reads as a code was laid out from that code |
| MorseCode.CharOfCode | src/morse_player.rs:490-499 | looking a code up in the inverse table (a binary dot/dash tree) gives back its character |
| MorseCode.CodeInjective | src/morse_player.rs:490-499 | no two table characters share a code |
| MorseCode.GlyphRoundTrip | src/morse_player.rs:541-548 | reading a glyph back gives its character |
| Ramp.AdvanceInWindow | src/morse_player.rs:534-537 | the ramp counter stays in `[0, N)` for `N = 5 * len`; it wraps to 0 exactly after `N - 1` and otherwise counts up by one |
| Ramp.AdvanceIsMod | src/morse_player.rs:534-537 | advancing the counter is counting modulo `N` |
| Ramp.SpeedAt | src/morse_player.rs:508-530 | definition of the speed at a counter value for each ramp, with `i32` halving of `N`; it has no contract of its own, and its properties are `Ramp.LinearRamps`, `Ramp.ZigzagTurns`, `Ramp.ZigzagEvenInRange` and `Ramp.ZigzagOddUndershoots` |
| Ramp.LinearRamps | src/morse_player.rs:508-516 | Speedup and Slowing stay in `[min, max]`; Speedup runs from `min` at counter 0 to `max` at `N - 1`, and Slowing is its mirror image |
| Ramp.ZigzagTurns | src/morse_player.rs:517-525 | Zigzag starts at `min`, reaches `max` at counter `N/2 - 1` and restarts at `max` at `N/2` |
| Ramp.ZigzagEvenInRange | src/morse_player.rs:517-525 | for even `len`, Zigzag stays in `[min, max]` and is back at `min` at counter `N - 1` |
| Ramp.ZigzagOddUndershoots | src/morse_player.rs:517-525 | for odd `len` and `min < max`, the last Zigzag value falls below `min` |
| Ramp.ZigzagOddExample | src/morse_player.rs:517-525 | len 1, min 100, max 110 gives 90 at counter 4 |
| Ramp.ZigzagNonPositiveStart | src/morse_player.rs:517-525 | for `len <= 0` counter 0 takes the descending branch: Zigzag starts at `max` for length 0 and above `max` for a negative length when `min < max` |
| Encoder.Step | src/morse_player.rs:506-563 | definition of one iteration of the character loop: marker and ramp value, glyph, then `$`, or the rewrite of the last gap for a space; its properties are `Encoder.SpaceStep` and `Encoder.UnknownCharacterStep` |
| Encoder.Run | src/morse_player.rs:489-567 | definition of the loop over the text, the last character getting no gap; its properties are stated through `Encoder.Encode` and the lemmas below |
| Encoder.Encode | src/morse_player.rs:489-567 | encoding fails exactly for a leading space; its symbols are all table keys, and there are exactly as many `\|` markers as profile values; with no modification both counts are zero |
| Encoder.SpaceStep | src/morse_player.rs:553-562 | a space after output replaces its last symbol with `/`; when a ramp is on and the counter is 0 it puts `\|` there instead, appends `/` and adds `min_speed` to the profile |
| Encoder.UnknownCharacterStep | src/morse_player.rs:507-551 | a non-table character other than a space emits no tones, but still takes a marker under a ramp and a `$` unless it is last |
| Encoder.EncodeOneCharacter | src/morse_player.rs:541-551 | with no modification, one table character encodes to its code with `*` between consecutive tones and no gap at either end |
| Encoder.EncodeProfileInRange | src/morse_player.rs:502-537 | for `len >= 1` and `min <= max` (even `len` for Zigzag), every profile value lies in `[min, max]` |
| Encoder.EncodeWithoutSpaces | src/morse_player.rs:506-540 | for text without spaces under a ramp, the profile has one value per character, and character k gets the ramp value at counter `k mod N` |
| Encoder.EncodeFirstMarker | src/morse_player.rs:507-539 | under a ramp, text not starting with a space encodes to a string opening with `\|`, and the first profile value is the ramp at counter 0 |
| Encoder.SpeedupExample | src/morse_player.rs:508-537 | Speedup with len 2, min 100, max 110 gives character 0 speed 100, character 9 speed 110 and character 10 speed 100 |
| Encoder.EncodeUnmodified | src/morse_player.rs:541-563 | with no modification, the output is the characters' glyphs joined by `$`, with `/` where spaces were (a run of spaces gives one `/`), and the profile is empty |
| Decoding.DecodeSpelling | src/morse_player.rs:490-499 | splitting the spelling of well-spaced text at `$` and `/` and looking up each group gives back the text |
| Decoding.RoundTrip | src/morse_player.rs:489-567 | with no modification, decoding the encoder's output gives back any text that has no leading space, no run of spaces and only table characters otherwise |
| Signals.StartTextSpelling | src/morse_player.rs:14-17 | `START_TEXT` is what the encoder spells for "VVV = " |
| Signals.LettersSpelling | src/morse_player.rs:18-24 | the letters opening is the spelling of "OOOOO " |
| Signals.DigitsSpelling | src/morse_player.rs:25-31 | the digits opening is the spelling of "00000 " |
| Signals.EndTextShape | src/morse_player.rs:32 | `END_TEXT` is a word gap followed by the tones `.-.-.` laid out as one character, a code no table character has |
| Signals.StartTextUnmarked | src/morse_player.rs:14-17 | `START_TEXT` holds only table keys and no speed marker |
| Signals.LettersUnmarked | src/morse_player.rs:18-24 | so does the letters opening |
| Signals.DigitsUnmarked | src/morse_player.rs:25-31 | so does the digits opening |
| Signals.EndTextUnmarked | src/morse_player.rs:32 | so does `END_TEXT` |
| Timing.UnitSeconds | src/morse_player.rs:569-583 | the unit times the speed is 100 times the text type's base duration, and the unit is positive at positive speeds |
| Timing.UnitSecondsAntitone | src/morse_player.rs:569-583 | a higher speed gives a shorter unit, and speed 100 gives the base duration |
| Timing.Millis | src/morse_player.rs:603 | a checkpoint is the elapsed time in whole milliseconds, truncated, and 0 for no time |
| Timing.Tick | src/morse_player.rs:592-604 | definition of one iteration of the timing loop; its properties are `Timing.TickFacts` |
| Timing.TimeAndTimings | src/morse_player.rs:585-607 | definition of `get_time_and_timings`: `ZeroSpeed` at speed 0, otherwise the loop from total 0, checkpoint 0 and the unit of the set speed; its properties are the `Timing` lemmas below |
| Timing.TickFacts | src/morse_player.rs:592-604 | one symbol adds its units at the current unit; a `\|` switches to the unit of the next profile value; `$` and `/` record a checkpoint; a symbol fails exactly when it is not a table key, or it is `\|` and the profile is used up |
| Timing.TimeSucceeds | src/morse_player.rs:585-607 | timing succeeds exactly when every symbol is a table key and there are no more markers than profile values; the profile is then consumed once per marker |
| Timing.TimeUnit | src/morse_player.rs:589-599 | after k markers the unit is that of the k-th profile value, or of the set speed before any marker |
| Timing.TimeTotal | src/morse_player.rs:592-600 | the total is the sum over the symbols of the unit in force times the symbol's units |
| Timing.TimeCheckpointCount | src/morse_player.rs:590-604 | the checkpoints are 0 followed by one entry per `$` or `/` |
| Timing.CheckpointsAreGapEnds | src/morse_player.rs:602-604 | the checkpoint for a gap is the running total after that gap, in milliseconds |
| Timing.CheckpointsSorted | src/morse_player.rs:585-607 | at positive speeds with non-negative durations, the total is non-negative and the checkpoints never decrease, the last one within the total |
| Timing.TimeAndTimingsFacts | src/morse_player.rs:585-607 | `get_time_and_timings` succeeds exactly when every symbol is a table key and the profile covers the markers; the total is the priced sum and there is one checkpoint per gap plus the initial 0 |
| Timing.TimeWithoutMarkers | src/morse_player.rs:585-607 | for a string without markers, the total is the unit at the set speed times the sum of the units, whatever the profile |
| Timing.FasterIsShorter | src/morse_player.rs:585-607 | for such a string, a higher speed never gives a longer total |
| Timing.TimePrefix | src/morse_player.rs:592-605 | the clock after the first n symbols does not depend on what follows them |
| Timing.ProfileIrrelevant | src/morse_player.rs:597-600 | before the first marker the profile is never read |
| Timing.TimeAgreement | src/morse_player.rs:592-605 | two runs that agree at some point agree from then on |
| Playback.Sound | src/morse_player.rs:401-432 | definition of the dispatch on the action category: a tone or a silence of the symbol's units at the current unit, or, for a speed change, the next profile value's unit; its properties are stated through `Playback.PlayAgrees` |
| Playback.Play | src/morse_player.rs:390-446 | definition of `play_audio` without the sink: the five sound keys are looked up, then the loop sounds each symbol and flushes; its properties are the `Playback` lemmas below |
| Playback.PlayAgrees | src/morse_player.rs:401-432 | playback consumes the profile exactly as the timing does: the two fail together with the same error, and otherwise hold the same unit and profile position |
| Playback.PlayFailures | src/morse_player.rs:390-432 | playback fails with a missing action when one of the five sound keys is absent (the dot first of all); otherwise it succeeds exactly when the timing of the same string does |
| Playback.PlayChunks | src/morse_player.rs:434-446 | the buffer is handed over after each `/` and after the last symbol, so the chunks spell the whole string in order; each one is a non-empty run with a `/` at most at its end, and every one but the last ends in `/` |
| Playback.PlayDuration | src/morse_player.rs:401-446 | the chunks last, in total, exactly as long as `get_time_and_timings` says the string does |
| Session.RoundHalfAway | src/morse_player.rs:460 | the speed is rounded to the nearest integer, halves away from zero |
| Session.NatDigitsValue | src/morse_player.rs:460 | the decimal digits of n denote n and have no leading zero |
| Session.DecimalValue | src/morse_player.rs:460 | `to_string` writes the value in decimal, with a minus sign for a negative number |
| Session.StartSpeed | src/morse_player.rs:142-147 | definition of the start speed, the same choice as at lines 204-208; its properties are `Session.StartSpeedIsFirstProfileValue` |
| Session.StartPart | src/morse_player.rs:457-487 | definition of `gen_start_part_prev_vec`; its properties are `Session.StartPartUnmarked` and `Session.StartPartSpelling` |
| Session.Compose | src/morse_player.rs:204-228 | definition of the symbols and the profile `play` hands to `play_audio`; its properties are `Session.ComposeFacts` and `Session.SessionSpelling` |
| Session.PlaySession | src/morse_player.rs:214-239 | definition of the buffers the playing thread appends; its properties are `Session.PlaySessionSucceeds` and `Session.FreshPlayerPlays` |
| Session.TextDuration | src/morse_player.rs:135-139 | definition of `get_text_duration`; its properties are `Session.TextTimingIgnoresSetSpeed` and `Session.TextDurationAntitone` |
| Session.CharTimings | src/morse_player.rs:153-157 | definition of `get_char_timings`; its properties are `Session.TextTimingIgnoresSetSpeed` |
| Session.StartPartDuration | src/morse_player.rs:141-151 | definition of `get_start_part_duration`; its properties are `Session.StartCallbackAligned` |
| Session.StartPartUnmarked | src/morse_player.rs:457-487 | the start part is empty exactly without additions, holds only table keys and has no speed marker |
| Session.StartPartSpelling | src/morse_player.rs:464-485 | for Training the start part is the spelling of "VVV = "; for Competitions it is the spelling of five O (five zeros for digits), then of the rounded speed, a word gap and the spelling of "VVV = " |
| Session.SpokenSpeedDecodes | src/morse_player.rs:460-480 | for a speed that rounds to a non-negative number, the announced speed decodes back to its decimal digits |
| Session.ComposeFacts | src/morse_player.rs:204-228 | a session can be composed exactly when the text does not start with a space; it then starts at the start speed, holds only table keys with one profile value per marker, and is the start part, the encoded text and the end part |
| Session.SessionSpelling | src/morse_player.rs:214-228 | without a ramp the player gets plain Morse and no profile: the spelling of the text alone without additions; with Training the spelling of "VVV = ", of the text and `END_TEXT`; with Competitions first the spelling of the opening words and of the rounded speed and a word gap |
| Session.FreshPlayerPlays | src/morse_player.rs:103-133 | a new player plays any text that does not open with a space, and spells "VVV = ", the text and `END_TEXT` |
| Session.StartSpeedIsFirstProfileValue | src/morse_player.rs:142-147 | under a ramp the start speed (`min_speed` for Speedup and Zigzag, `max_speed` for Slowing) is the speed of the first character |
| Session.PlaySessionSucceeds | src/morse_player.rs:214-239 | with a well-formed table and a sensible ramp, the session plays exactly when the text does not start with a space; its buffers then spell the session and last as long as its timing says |
| Session.StartCallbackAligned | src/morse_player.rs:140-151 | `get_start_part_duration` equals the time the session's timing reaches at the end of the start part |
| Session.TextTimingIgnoresSetSpeed | src/morse_player.rs:135-157 | under a ramp, the reported text duration and checkpoints do not depend on the set speed |
| Session.TextDurationAntitone | src/morse_player.rs:135-139 | without a ramp and with no negative delay, a higher set speed never gives a longer `get_text_duration` |

## Left out

- Waveform synthesis (`get_wave`, `apply_hann_window`) and `get_silence` sample counts: f32 signal processing. A buffer is a list of pulses, each a unit and a number of units.
- The sink: backpressure polling, the 5 ms sleeps, the stop flag and the final drain loop of `play_audio`. These are audio I/O and cross-thread polling. A flush appends a chunk to a list.
- `play()` concurrency: the thread, the tokio runtime, `Notify`, the timer race and the callbacks. Only the sequence composed inside the thread and the start-part delay are modelled.
- Device acquisition in `AudioPlayer::new`, `stop`, `set_volume` and the plain field setters: device and locking plumbing.
- Floating point: speeds and durations are exact reals, not f32. A division by a zero speed yields infinity in the source but `ZeroSpeed` here.
- Playback.PlayFailures: the source computes the unit from the speed (line 393) before it looks up the five sound keys (lines 395-399). In f32 that division cannot fail, since a zero speed gives infinity, so the key lookups are the only failures the source can hit there. The model reports `ZeroSpeed` only after the keys are found.
- Encoder.Encode: `modification_len * 5` and the ramp counter are exact integers; i32 overflow for `|modification_len| > 429 496 729` is not modelled.
- Timing.Millis: the cast to u64 milliseconds is an unbounded truncation; saturation at the u64 maximum is not modelled.
- Session.StartSpeedIsFirstProfileValue: requires `modification_len >= 1` for Zigzag. For `modification_len <= 0` the source's Zigzag takes the descending branch from counter 0, so the first character plays at `max_speed` (length 0) or, when `min_speed < max_speed`, above it (negative lengths) while the session starts at `min_speed` (`Ramp.ZigzagNonPositiveStart`).
- Actions.WordGapUnitsBounds: `delay as f64 * 2.33` is taken over reals. For integer delays this agrees with the f64 product after truncation, which the model does not prove.
- `examples/hello_world.rs` and `src/lib.rs` are not part of this model.
