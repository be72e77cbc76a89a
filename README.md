# Qibla compass engine, in Dafny

This project models the engine of a watch app that shows the direction of the
Kaaba (the qibla) and of north. Rendering is not part of it. The app keeps a
small set of module-level variables:
- the sensed north direction;
- a damped north direction that follows it one animation tick at a time;
- the qibla arrow, placed at a fixed clockwise offset from the damped north;
- three integer settings sent by the phone (a DST value, latitude, longitude), with -1 meaning "never received";
- two freshness flags that decide when a "No Phone Connection" banner shows.

Angles use the watch SDK's fixed-point scale: a full turn is
`TRIG_MAX_ANGLE` = 65536, and sines and cosines are scaled by
`TRIG_MAX_RATIO` = 65535.

Files:
- `cint.dfy` (module `CInt`): C integer semantics. It has division
  truncating toward zero (`TruncDiv`), the 16-, 32- and 64-bit signed widths,
  and the compiler's narrowing conversion (`Wrap`). An `Option` result type
  marks undefined behaviour (overflow, division by zero) as `None`.
- `trig.dfy` (module `Trig`): the SDK constants and the lookup tables
  `sin_lookup`, `cos_lookup` and `atan2_lookup`. The tables are carried as
  function values; what is assumed of them is listed under "Left out".
- `bearing.dfy` (module `Bearing`): `tan_lookup` and
  `calculate_qibla_north_cw_offset`.
  - `CwOffset` follows the C code step by step. The width of `long` is a
    parameter, and any step that overflows gives `None`.
  - `ExactBearing` is the same formula over unbounded integers.
  - The lemmas relate the two for a 32-bit and a 64-bit `long`.
- `damping.dfy` (module `Damping`): the step of
  `update_indicator_directions_animated`. It includes the line 176 multiplier
  with its constants 10, -20 and 100. `Remaining` iterates the step while north
  stays put.
- `settings.dfy` (module `Settings`): the `AMKeys` keys, the three settings,
  and the key-by-key overwrite (`Overlay`). Both `load_settings` and
  `in_received_handler` apply that overwrite. It also has the store write of
  `persist_settings` and the line 100 condition for drawing the arrows.
- `engine.dfy` (module `Engine`): class `QiblaEngine`.
  - Its fields are the statics of src/qibla.c lines 14-23, plus the persistent
    store as a `map<int, int>`.
  - Each handler is a method whose `modifies` clause names exactly the fields
    it assigns.
  - `ArrowsShown` and `WarningShown` are the display conditions of lines 100
    and 135.

What the proofs establish, in the source's terms:
- **Bearing.** With a 64-bit `long` the calculator never overflows. It equals
  the exact formula, and the `(int16_t)` casts of line 157 lose nothing. With
  the watch's 32-bit `long`, given tables whose tangent at the Kaaba latitude
  is below one half, it is defined exactly when the product
  `sin_lookup(lat) * cos_lookup(kaaba_lon - lon)` of line 154 fits in 32 bits.
  Many real observers fail this (see Findings).
- **Kaaba constants.** They are 3899 and 7249.
- **Damping filter, within half a turn.** The step has the sign of the
  difference and is at most a twentieth of it, so the arrow never overshoots.
  - A difference below 20 gives no step.
  - From 20 to 29818 every tick moves, and the difference falls below 20
    within `|delta| - 19` ticks.
- **Damping filter, near and beyond half a turn.** The raw difference is
  never reduced to the shorter arc (line 172), so the filter also has two
  other regimes.
  - From 29819 to 36044 the multiplier is 0 and the arrow is stuck.
  - From 36045 up the multiplier is negative and the arrow moves away from
    north.
  - Turning the watch across magnetic north changes `north_direction` by
    almost a full turn, which lands in this last case.
- **Directions.** After `update_indicator_directions` or any animated tick,
  the qibla arrow equals the damped north minus the offset.
- **Compass handler.** It ignores `is_compass_valid` and changes only the
  sensed north.
- **Settings.** A received key overwrites exactly its own setting, so after
  any sequence of messages each setting holds its key's value in the last
  message that carried it. Loading after persisting restores all three.
- **Freshness.** A received message clears the banner. After the 1500 ms
  timer, the banner shows exactly while nothing has been received.

Facts about src/qibla.c that the model keeps as written:
- No angle is ever normalised, and the filter's difference is not reduced to
  the shorter arc (line 172).
- `compass_heading_handler` ignores `is_compass_valid` (lines 191-199).
- `load_settings` leaves `settings_fresh` false, so after the grace period the
  banner shows until the phone answers, even when the store held a fix.
  `LoadSettings` does not touch `settingsFresh`.
- The filter stands still not only at a difference of 0 but also below 20 and
  from 29819 to 36044.

## Model

| member | source | states |
|---|---|---|
| CInt.TruncDiv | src/qibla.c:173-176 | the quotient has magnitude \|a\| / \|b\| and the sign of a * b: C division truncating toward zero |
| CInt.TruncDivRemainder | src/qibla.c:176 | a - (a/b)*b is smaller than b in magnitude and zero or of the sign of a, as C requires of `/` and `%` |
| CInt.Wrap | src/qibla.c:157 | the narrowing conversion lands in the target width, agrees with its argument modulo 2^bits, and is the identity on values that fit |
| Bearing.TanLookup | src/qibla.c:143-145 | line 144 in `long` of the given width: None when the scaled sine or the quotient leaves that width or the cosine is 0, otherwise the truncated quotient narrowed to `int` |
| Bearing.CwOffset | src/qibla.c:147-160 | lines 152-157 step by step with `long` of the given width: None wherever a step overflows or divides by zero, otherwise atan2 of numerator/4 and denominator/4 after the `(int16_t)` casts |
| Bearing.KaabaCoordinates | src/qibla.c:149-150 | the double expressions truncated to int are 3899 and 7249 |
| Bearing.ExactTanBound | src/qibla.c:143-145 | for a latitude below 45 degrees the tangent is at most a full turn in magnitude |
| Bearing.DenominatorTerms | src/qibla.c:153-155 | each product of the denominator is at most TRIG_MAX_RATIO full turns, so the denominator is at most 2 * TRIG_MAX_RATIO in magnitude |
| Bearing.AtanArgumentsFit | src/qibla.c:152-157 | numerator/4 and denominator/4 fit in int16_t for every observer, so the casts are lossless |
| Bearing.Long64OffsetIsExact | src/qibla.c:147-160 | with a 64-bit long every step is defined and the result equals the exact formula |
| Bearing.Long32Tan | src/qibla.c:143-145 | with a 32-bit long, tan_lookup of the Kaaba latitude does not overflow and is at most half a turn when the tangent is below one half |
| Bearing.Long32OffsetDefinedIff | src/qibla.c:152-157 | with a 32-bit long the result is defined, and then exact, if and only if sin_lookup(lat) * cos_lookup(dLon) fits in 32 bits |
| Bearing.Long32TanOverflows | src/qibla.c:144 | with a 32-bit long, tan_lookup overflows for any angle whose sine is at least 2^15 or below -2^15 |
| Bearing.Long32OverflowsAtLondon | src/qibla.c:154 | for an observer in London the 32-bit product of line 154 overflows |
| Bearing.QiblaNorthCwOffset | src/qibla.c:147-160 | the offset the engine uses: defined for every observer in range and equal to the exact formula |
| Damping.Progress | src/qibla.c:173 | progress: 100 minus \|delta\| * 100 / (TRIG_MAX_ANGLE/2), truncating |
| Damping.Multiplier | src/qibla.c:176 | the bracket progress/10 + progress*progress/100/(-20), each division truncating |
| Damping.Step | src/qibla.c:172-176 | the amount added to the damped north: delta * multiplier / 100, truncating |
| Damping.Remaining | src/qibla.c:186-189 | the difference left after the given number of `fake_animation` ticks with north held fixed |
| Damping.ProgressRange | src/qibla.c:173 | within half a turn progress lies in [0, 100]; it is 100 below 328, at least 10 below 29819 and at most 9 from 29819 up |
| Damping.MultiplierRange | src/qibla.c:169-176 | for progress in [0, 100] the multiplier lies in [0, 5], is 0 exactly below progress 10, and is 5 at 100 |
| Damping.StepBounded | src/qibla.c:172-176 | within half a turn the step has the sign of delta, is at most \|delta\|/20, never overshoots, leaves \|delta\| no larger, and is 0 when \|delta\| < 20 |
| Damping.StepMoves | src/qibla.c:172-176 | for 20 <= \|delta\| < 29819 the step is non-zero and \|delta\| strictly decreases |
| Damping.StepStalls | src/qibla.c:172-176 | for 29819 <= \|delta\| <= 36044 the step is 0 |
| Damping.ProgressBeyond | src/qibla.c:173 | from \|delta\| 36045 up progress is -10 or less |
| Damping.MultiplierNegative | src/qibla.c:176 | progress of -10 or less makes the multiplier negative |
| Damping.StepDiverges | src/qibla.c:172-176 | from \|delta\| 36045 up the step moves away from north and \|delta\| grows |
| Damping.StepBeyondForm | src/qibla.c:173-176 | from delta 36045 up, progress, multiplier and step in closed form, the signs of every truncating division being known |
| Damping.StepBeyondAt | src/qibla.c:173-176 | a single tick beyond 36045 with given progress, multiplier and step agrees with `Step` |
| Damping.NorthCrossingTicks | src/qibla.c:172-176 | after a magnetic-north crossing leaves a difference of 64800, six ticks take it to 3293376 |
| Damping.NorthCrossingOverflows | src/qibla.c:176 | at a difference of 3293376, the seventh tick, the line-176 product delta * multiplier leaves the 32-bit range |
| Damping.Settles | src/qibla.c:186-189 | with north held fixed and \|delta\| < 29819, after \|delta\| - 19 ticks the difference is below 20 |
| Damping.NeverGrows | src/qibla.c:186-189 | with north held fixed and \|delta\| within half a turn, the difference never grows over any number of ticks |
| Settings.Overlay | src/qibla.c:217-227 | each key present in the dictionary overwrites its own setting and an absent key leaves it; `load_settings` and, at lines 237-249, `in_received_handler` apply it |
| Settings.AfterMessages | src/qibla.c:237-249 | the settings after a sequence of `in_received_handler` calls, one per message, in order |
| Settings.Persisted | src/qibla.c:229-235 | persisting writes the three settings under their keys and leaves every other key of the store as it was |
| Settings.LoadAfterPersist | src/qibla.c:217-235 | loading after persisting restores all three settings, whatever they were in between |
| Settings.OverlayPerKey | src/qibla.c:237-249 | a key present in the message overwrites exactly its setting; an absent key leaves it |
| Settings.OverlayIdempotent | src/qibla.c:217-227 | a dictionary without the keys changes nothing; applying one twice equals applying it once |
| Settings.SettingsOkNeedsEveryKey | src/qibla.c:100 | starting from the -1 sentinels, the arrows are drawn if and only if every key arrived with a value other than -1 |
| Settings.AfterMessagesAppend | src/qibla.c:237-249 | receiving two batches of messages in turn is receiving their concatenation |
| Settings.LastMessageWins | src/qibla.c:237-249 | after any sequence of messages each setting holds the value of the last message that carried its key, or its earlier value when none did |
| Engine.QiblaEngine.ArrowsShown | src/qibla.c:99-100 | the arrows are drawn when no setting holds -1 |
| Engine.QiblaEngine.WarningShown | src/qibla.c:135 | the banner shows when the settings are not fresh and the warning is not suppressed |
| Engine.QiblaEngine.constructor | src/qibla.c:14-23 | the statics start as initialised: damped north at -3/4 turn, settings -1, warning suppressed, not fresh |
| Engine.QiblaEngine.UpdateIndicatorDirections | src/qibla.c:162-166 | damped north becomes north and the qibla arrow is damped north minus the offset |
| Engine.QiblaEngine.UpdateIndicatorDirectionsAnimated | src/qibla.c:168-179 | damped north moves by the damping step; the qibla arrow follows; nothing moves when they agree; within half a turn it moves toward north by at most \|delta\|/20 without overshooting |
| Engine.QiblaEngine.CompassHeadingHandler | src/qibla.c:191-199 | north becomes a quarter turn minus the magnetic heading whether or not the compass is valid; nothing else changes |
| Engine.QiblaEngine.CalculateQiblaNorthOffset | src/qibla.c:182-184 | the offset becomes the bearing of the current latitude and longitude, computed without overflow |
| Engine.QiblaEngine.LoadSettings | src/qibla.c:217-227 | each key in the store overwrites its setting, missing keys keep theirs; freshness is untouched |
| Engine.QiblaEngine.PersistSettings | src/qibla.c:229-235 | the store receives the three settings and a later load returns them |
| Engine.QiblaEngine.InReceivedHandler | src/qibla.c:237-253 | per-key overwrite, settings fresh and the banner cleared, offset recomputed from the new coordinates, store holding the three current settings |
| Engine.QiblaEngine.StartWhiningAboutFreshness | src/qibla.c:255-257 | the suppression flag becomes false; from then on the banner shows exactly while the settings are not fresh |

## Left out

- Drawing (src/qibla.c:27-141 apart from the conditions at lines 100 and 135) is graphics only.
- `window_load`, `window_unload`, `init`, `deinit` and `main` are platform lifecycle. The handlers they register are methods here, called by the environment.
- The self-re-registering timer `fake_animation` schedules ticks. One tick is one call of `UpdateIndicatorDirectionsAnimated`, and `Remaining` iterates ticks.
- The 1500 ms grace timer is one call of `StartWhiningAboutFreshness`.
- `compass_event_hysteresis` and its registration are sensor configuration.
- `layer_mark_dirty` is a redraw request with no state.
- The SDK's sine, cosine and arctangent tables are not modelled; their values are parameters, and these facts about them are assumed, not proved:
  - sine and cosine lie within ±TRIG_MAX_RATIO everywhere (`RatiosInRange`);
  - at the Kaaba latitude the cosine is positive and at least the magnitude of the sine (`KaabaBelow45`). `LookupsValid`, the engine's `Valid()` and its constructor rely on this;
  - every 32-bit result (`Long32Tan`, `Long32OffsetDefinedIff`, `Long32OverflowsAtLondon`) assumes more: at the Kaaba latitude the cosine is at least twice the magnitude of the sine (`KaabaTanBelowHalf`);
  - `Long32OverflowsAtLondon` also assumes two table values: `sin_lookup(9377)` and `cos_lookup(7272)` are both at least 46341;
  - the arctangent's result is left unconstrained, so no property of the final angle beyond its arguments is stated.
- `persist_*`, `dict_find` and the AppMessage transport are maps from key to integer.
- src/js/pebble-js-app.js is phone-side I/O. It contributes only the range of the coordinates it sends (`GeoInRange`: latitude within a quarter turn, longitude within half a turn). The handler and the store are required to carry coordinates in that range.
- Bearing.KAABA_LAT: the source's double arithmetic is computed here in exact real arithmetic. The truncated values are the same.
- Engine.QiblaEngine.CalculateQiblaNorthOffset uses the calculator with a 64-bit `long`, not the watch's 32-bit one (see Findings). The as-written computation is `CwOffset` with width `W32`.
- Engine.QiblaEngine.UpdateIndicatorDirectionsAnimated computes with unbounded integers. On the watch the product of line 176 overflows 32 bits once the difference has diverged, and that comes fast: after turning across magnetic north (a difference of 64800) it overflows at the seventh tick, about 200 ms later (`Damping.NorthCrossingTicks`, `Damping.NorthCrossingOverflows`). What follows that overflow is not modelled.
- Engine.QiblaEngine.InReceivedHandler does not update the qibla arrow. It moves to the new offset at the next animation tick, as in the source.

## Findings

| source | as written | input that shows it | evidently intended | confidence | as-written member | corrected member |
|---|---|---|---|---|---|---|
| src/qibla.c:154 | `(long)sin_lookup(lat) * (long)cos_lookup(kaaba_lon - lon)` is a 32-bit product on the watch, where `long` has 32 bits; it overflows whenever the product lies outside [-2^31, 2^31 - 1], i.e. whenever \|sin(lat) * cos(dLon)\| exceeds about 1/2, on either side (observers far south, or with a negative cos(dLon), overflow below -2^31) | an observer in London, latitude 9377 and longitude -23 on the 65536 scale: table values of about 51300 and 50200, both above 46341 | the casts to `long` were meant to widen the product; with a 64-bit `long` nothing overflows and the result equals the exact formula | not executed | Bearing.Long32OverflowsAtLondon | Bearing.QiblaNorthCwOffset |
