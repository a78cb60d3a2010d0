# rotary-encoder-embedded, modelled in Dafny

This project models the decoding core of the `rotary-encoder-embedded` Rust crate. Each decoder of the crate turns two pin levels, DT and CLK, into a `Direction`: `None`, `Clockwise` or `Anticlockwise`. The timing-based decoders also take a millisecond timestamp. The model covers:

- **Transition tables** (`tables.dfy`, `full_table.dfy`, `half_table.dfy`, `flat_table.dfy`).
  - The full-step table has 7 rows; the half-step table has 6.
  - The low nibble of an entry is the next row. Bit `0x10` (`DIR_CW`) or `0x20` (`DIR_CCW`) marks a completed step.
  - `table.rs` keeps a second, flat copy of both tables and the flags. It is its own module, proved equal to the originals entry for entry.
- **FullStepMode** (`full_step.rs`): one table walk per sample.
- **DebouncedMode** (`debounced.rs`): both tables on the same sample, with the 80 ms and 50 ms acceptance windows.
- **StandardMode** (`standard.rs`): a byte-wide shift register per line and its falling-edge rule.
- **QuadratureTableMode** (`quadrature.rs`): a signed 16-entry delta table that feeds a counter, and a threshold.
- **Velocity bookkeeping**, shared by two modules:
  - `AngularVelocityMode` (`angular_velocity.rs`): the standard decoder plus a velocity in [0, 1];
  - `RotaryEncoderWithVelocity` (`angular.rs`): the same bookkeeping on the direction reported by a wrapped encoder.
- **Session glue** (`encoder.dfy`, from `lib.rs`): `Direction`, the no-op `InitalizeMode`, and `RotaryEncoder::{new, update, direction}`.

Each imperative decoder is modelled in two parts:

- a **Dafny class** whose fields are the Rust struct's fields. Its constructor sets the values the `into_*_mode` conversion sets. Its `Update` method follows the Rust `update` statement by statement, early returns included.
- **pure specification functions** on a datatype copy of those fields. Each `Update` is proved to compute them:
  - `Step` for the table and quadrature modes;
  - `ShiftIn` and `Detect` for the shift-register modes;
  - `Track` for the velocity books.

The behaviour the crate promises is proved about these functions, about `Run` (the directions reported over a whole sequence of samples) and about `Replay` (the velocity books after a sequence of calls):

- detents report exactly once;
- no two consecutive reports;
- the debouncing windows;
- the quadrature threshold;
- velocity stays in [0, 1].

Modelling choices:

- Pin levels are `bool`. A pin read that fails counts as low, which `PinReading` and `LevelOrLow` model.
- Table states and shift registers are `bv8`, so shifts wrap modulo 256 as `u8` shifts do.
- Timestamps are `nat`. The source subtracts `u64` timestamps and relies on them being monotonic; the model states this as preconditions.
- Velocities and factors are `real`.
- `InitalizeMode` has no fields in the source. The model gives it one ghost field, `received`, holding the last `(pin_dt, pin_clk)` pair its `update` was handed. This makes the argument order of `RotaryEncoder::update` provable.
- The quadrature pulse lemmas take the sense of rotation as a parameter, so one proof covers clockwise and anticlockwise pulses.
- `DebouncedMode.Update` looks the tables up through `FullNext` and `HalfNext`, which are the same `table[state & 0x0F][pin]` lookups on the flat tables.
- `AngularVelocityMode.Update` shifts and decodes with `Standard.ShiftIn` and `Standard.Detect`. The source repeats the standard mode's lines verbatim, and `StandardMode.Update` models those lines literally.

## Model

| member | source | states |
|---|---|---|
| Encoder.DirectionVariants | src/lib.rs:19-26 | every direction is exactly one of None, Clockwise, Anticlockwise |
| Encoder.LevelOrLow | src/lib.rs:66-71 | a reading counts as high exactly when the pin read succeeded and returned high; a failed read is low |
| Encoder.InitalizeMode.constructor | src/lib.rs:76 | the initialising logic has no state of its own; nothing has been handed to it yet |
| Encoder.InitalizeMode.Update | src/lib.rs:80 | the initialising logic takes `(pin_dt, pin_clk)` and ignores them; only the ghost record of the last pair it was handed changes |
| Encoder.InitalizeMode.CurrentDirection | src/lib.rs:82-84 | the initialising logic always reports None |
| Encoder.RotaryEncoder.constructor | src/lib.rs:93-99 | a new session carries fresh initialising logic and reports None |
| Encoder.RotaryEncoder.CurrentDirection | src/lib.rs:62-64 | the session's direction is the logic's direction, passed on unchanged (None in the initialising mode) |
| Encoder.RotaryEncoder.Update | src/lib.rs:66-71 | the logic is handed the DT level as its first argument and the CLK level as its second, each a failed read passed as low; the session still reports None |
| Tables.Bit | src/full_step.rs:21-22 | `level as u8` is 1 for high and 0 for low |
| Tables.PinIndex | src/full_step.rs:23 | the column is below 4, bit 1 is the DT level and bit 0 the CLK level |
| Tables.Row | src/full_step.rs:25 | the row mask gives a value below 16 that equals the state whenever the state has no flag bits |
| Tables.FlagValues | src/table/mod.rs:7-9 | DIR_CW is 0x10 and DIR_CCW is 0x20; they are disjoint bits, both outside the 0x0F row mask and inside the 0x30 flag mask |
| Tables.FlagDirection | src/full_step.rs:26-31 | Clockwise iff the DIR_CW bit is set and DIR_CCW clear, Anticlockwise iff the reverse; the row bits never matter (the same match is at src/debounced.rs:29-35 and 51-57) |
| Tables.FlagRoundTrip | src/full_step.rs:25-31 | an entry built as a row with one flag bit set gives back its row under `& 0x0F` and its direction under the `& 0x30` match |
| Tables.BothFlagsReadAsNone | src/full_step.rs:26-31 | a state with both flag bits decodes as None, so the two flags are never confused |
| Tables.Next | src/full_step.rs:24-25 | in a well-formed table the state reached by `table[state & 0x0F][column]` again selects a row of that table |
| FullTable.FullWellFormed | src/table/full.rs:11-20 | the full-step table has 7 rows of 4 entries and each entry's low nibble is in 0..6 |
| FullTable.FullFlaggedEntries | src/table/full.rs:14-18 | exactly (F_CW_FINAL, 11) carries DIR_CW and exactly (F_CCW_FINAL, 11) carries DIR_CCW; no entry carries both |
| FullTable.FullColumn11Resets | src/table/full.rs:13-19 | column 11 sends every state to R_START |
| FullTable.FullStartRowUnflagged | src/table/full.rs:13-19 | the R_START row carries no flag and every flagged entry lies in row R_START |
| FullTable.FullClockwiseDetent | src/table/full.rs:13-16 | from R_START the columns 01, 00, 10, 11 pass F_CW_BEGIN, F_CW_NEXT, F_CW_FINAL and flag Clockwise only at the last |
| FullTable.FullAnticlockwiseDetent | src/table/full.rs:13-19 | from R_START the columns 10, 00, 01, 11 flag Anticlockwise only at the last |
| HalfTable.HalfWellFormed | src/table/half.rs:10-18 | the half-step table has 6 rows of 4 entries, each entry's low nibble in 0..5 |
| HalfTable.HalfColumnsResynchronise | src/table/half.rs:12-17 | from any state, column 00 leads to H_START_M and column 11 to R_START |
| HalfTable.HalfFlaggedEntries | src/table/half.rs:12-17 | the four flagged entries, both directions of each iff; flags occur only in columns 00 and 11; no entry carries both |
| HalfTable.HalfClockwiseDetent | src/table/half.rs:12-16 | the clockwise detent 01, 00, 10, 11 flags Clockwise twice, at 00 and at the final 11 |
| HalfTable.HalfAnticlockwiseDetent | src/table/half.rs:12-17 | the anticlockwise detent 10, 00, 01, 11 flags Anticlockwise twice, at 00 and at the final 11 |
| FlatTable.FlatFlagsAgree | src/table.rs:2-4 | the flat module's flags equal those of the table directory |
| FlatTable.FlatFullAgrees | src/table.rs:19-28 | the flat full-step table equals the full-step table entry for entry |
| FlatTable.FlatHalfAgrees | src/table.rs:30-38 | the flat half-step table equals the half-step table entry for entry |
| FlatTable.FlatWellFormed | src/table.rs:19-38 | the flat tables have 7 and 6 rows and every low nibble stays inside its table |
| FullStep.Step | src/full_step.rs:21-25 | the new state selects one of the 7 rows, and any flagged state lies in row R_START |
| FullStep.NoConsecutiveReports | src/full_step.rs:24-31 | an update that reports a direction is followed by one that reports None |
| FullStep.RunNeverReportsTwiceInARow | src/full_step.rs:24-31 | over any sample sequence, no two neighbouring updates both report |
| FullStep.ClockwiseDetentSteps | src/table/full.rs:13-16 | the clockwise detent walks R_START, F_CW_BEGIN, F_CW_NEXT, F_CW_FINAL, each kept while its sample is held, and ends at R_START with DIR_CW |
| FullStep.AnticlockwiseDetentSteps | src/table/full.rs:13-19 | the anticlockwise detent walks R_START, F_CCW_BEGIN, F_CCW_NEXT, F_CCW_FINAL, each kept while its sample is held, and ends at R_START with DIR_CCW |
| FullStep.ClockwiseDetentAnyPolling | src/full_step.rs:20-32 | one clockwise detent, each of its four samples polled any number of times, reports Clockwise exactly once, on the first poll of the final sample |
| FullStep.AnticlockwiseDetentAnyPolling | src/full_step.rs:20-32 | the mirrored detent reports Anticlockwise exactly once |
| FullStep.FullStepMode.constructor | src/full_step.rs:45-46 | the table state starts at 0 and the direction at None |
| FullStep.FullStepMode.Update | src/full_step.rs:20-32 | the new table state is the table walk's next state, its row stays below 7, and the direction is the decoded flag |
| Debounced.FullNext | src/debounced.rs:26-27 | a full-step table lookup through the flat table stays within its 7 rows |
| Debounced.HalfNext | src/debounced.rs:49-50 | a half-step table lookup through the flat table stays within its 6 rows |
| Debounced.Step | src/debounced.rs:20-67 | both table states stay inside their tables and the recorded times never exceed the current time |
| Debounced.FullTableAlwaysAdvances | src/debounced.rs:26-27 | the full-step table advances on every update, whatever is reported |
| Debounced.FullStepAcceptance | src/debounced.rs:40-44 | a full-step flag more than 80 ms after the last half-step acceptance is reported, records the time as last full-step acceptance and leaves the half-step table untouched |
| Debounced.HalfStepAcceptance | src/debounced.rs:49-66 | otherwise the half-step table advances and its flag is reported iff more than 80 ms since the last full-step and more than 50 ms since the last half-step acceptance, recording the time; else None |
| Debounced.TimesChangeOnlyOnReport | src/debounced.rs:42-62 | the recorded times change only on a reporting update and only to the current time |
| Debounced.ReportNeedsQuietHalfWindow | src/debounced.rs:40-63 | every report comes more than 50 ms after the last half-step acceptance and carries a flag one of the tables raised |
| Debounced.BounceIsSuppressed | src/debounced.rs:40-66 | a full-step and a half-step flag raised 50 ms after a half-step acceptance are both discarded |
| Debounced.QuietAfterHalfReport | src/debounced.rs:40-61 | no update timed within 50 ms of the last half-step acceptance reports anything, over any timed sample sequence |
| Debounced.DebouncedMode.constructor | src/debounced.rs:80-86 | all four fields start at 0 and the direction at None |
| Debounced.DebouncedMode.Update | src/debounced.rs:20-67 | the new fields and the direction are those of the specification step, early return included |
| Standard.ShiftIn | src/standard.rs:23-26 | the new level enters bit 0 and the old bits 0..6 move up one place (bit 7 is dropped) |
| Standard.EdgeDirection | src/standard.rs:31-38 | on the masked histories: Anticlockwise iff DT is `PIN_EDGE` and CLK is 0, Clockwise iff CLK is `PIN_EDGE` and DT is 0 (the same lines are at src/angular_velocity.rs:79-83) |
| Standard.Detect | src/standard.rs:28-38 | a report needs both lines low in the newest sample and exactly one of them high in the sample before |
| Standard.EdgeByLevels | src/standard.rs:31-38 | a reported step always leaves both lines low |
| Standard.DetectByLevels | src/standard.rs:28-38 | after a shift the result depends only on the old bit 0 of each history and the two new levels: a falling DT with CLK low is Anticlockwise, a falling CLK with DT low is Clockwise |
| Standard.DetectCases | src/standard.rs:31-38 | Anticlockwise iff DT low bits are 10 and CLK low bits 00; Clockwise iff CLK low bits are 10 and DT low bits 00 |
| Standard.NoConsecutiveReports | src/standard.rs:23-38 | an update that reports is followed by one that reports None |
| Standard.FirstUpdateFromInitialHistory | src/standard.rs:53 | from the initial histories `[0xFF, 2]` the first update reports Anticlockwise iff both lines are low, else None |
| Standard.RunNeverReportsTwiceInARow | src/standard.rs:23-38 | over any sample sequence, no two neighbouring updates both report |
| Standard.HeldLevelsReportAtMostOnce | src/standard.rs:23-38 | holding both levels reports nothing after the first update |
| Standard.StandardMode.constructor | src/standard.rs:52-55 | the histories start as `[0xFF, 2]`, the direction as None |
| Standard.StandardMode.Update | src/standard.rs:22-39 | each history shifts its new level in and the direction is the edge rule on the two new histories |
| Quadrature.Abs | src/quadrature.rs:92 | `count.abs()`: the magnitude of the counter, non-negative and equal to it or to its negation |
| Quadrature.LineState | src/quadrature.rs:87 | the line state is below 4 with DT in bit 0 and CLK in bit 1 |
| Quadrature.QuadIndex | src/quadrature.rs:88 | the index is below 16 with the previous state in bits 2..3 and the current one in bits 0..1 |
| Quadrature.Delta | src/quadrature.rs:8-25 | every delta is -1, 0 or +1 |
| Quadrature.DeltaAntisymmetric | src/quadrature.rs:8-25 | reversing a transition negates its delta |
| Quadrature.DeltaMeaning | src/quadrature.rs:8-25 | delta 0 iff no move or both bits change; +1 iff one step along 00, 01, 11, 10; -1 iff one step back |
| Quadrature.New | src/quadrature.rs:76-82 | a new decoder is consistent: previous state 0, counter 0 |
| Quadrature.Step | src/quadrature.rs:86-102 | the previous state becomes the current line state and the counter stays below the threshold in magnitude between calls |
| Quadrature.CountStaysInI8 | src/quadrature.rs:91 | the i8 addition cannot overflow |
| Quadrature.StepReports | src/quadrature.rs:92-101 | for threshold at least 1, Clockwise iff the sum reaches +threshold, Anticlockwise iff it reaches -threshold, the counter then resets to 0; else the sum is kept |
| Quadrature.NoMoveKeepsCount | src/quadrature.rs:88-91 | a zero-delta transition keeps the counter, reports None and still updates the previous state |
| Quadrature.ZeroThresholdAlwaysReports | src/quadrature.rs:92-99 | with threshold 0 every update reports, Anticlockwise when there is no clockwise move |
| Quadrature.SingleStepThreshold1 | src/quadrature.rs:114-126 | with threshold 1, 00 to 01 reports Clockwise and 00 to 10 Anticlockwise at once |
| Quadrature.AggregationThreshold2 | src/quadrature.rs:129-141 | with threshold 2, samples (1,0), (1,1), (0,1) report None, Clockwise, None |
| Quadrature.ConstantInputNeverReports | src/quadrature.rs:143-150 | repeating the last seen sample any number of times reports nothing and keeps the state |
| Quadrature.InvalidTransitionSkipped | src/quadrature.rs:153-159 | the skipped-state transitions 00 to 11 and back report nothing |
| Quadrature.FullClockwiseCycleThreshold1 | src/quadrature.rs:161-183 | with threshold 1 the full clockwise cycle reports None, Clockwise, Clockwise, Clockwise, Clockwise |
| Quadrature.Advance | src/quadrature.rs:8-25 | a clockwise pulse goes one step along 00, 01, 11, 10; an anticlockwise pulse is its inverse step |
| Quadrature.FirstPulse | src/quadrature.rs:86-101 | the first pulse moves the counter by one in its sense; it reports nothing and keeps the sum below the threshold, otherwise it reports the sum's sign and resets the counter; the remaining pulses start from the state it leaves |
| Quadrature.PulsesBelowThreshold | src/quadrature.rs:91-101 | pulses in either sense, from a counter of that sign, that keep the sum below the threshold report nothing and each move the counter one step in their sense |
| Quadrature.PulsesReachThreshold | src/quadrature.rs:91-101 | same-sense pulses whose sum reaches the threshold on the n-th report None n-1 times, then that sense once, leaving the counter at 0 |
| Quadrature.ThresholdNeedsKPulses | src/quadrature.rs:86-101 | with threshold k, k pulses in one sense from a reset counter report None k-1 times, then Clockwise or Anticlockwise (by sense) once, leaving the counter at 0 |
| Quadrature.QuadratureTableMode.constructor | src/quadrature.rs:76-82 | the fields start as previous state 0, counter 0 and the given threshold |
| Quadrature.QuadratureTableMode.Default | src/quadrature.rs:59-63 | the default decoder has threshold 1 |
| Quadrature.QuadratureTableMode.Update | src/quadrature.rs:86-102 | the new fields and the returned direction are those of the specification step |
| AngularVelocity.Accelerate | src/angular_velocity.rs:86-94 | the velocity never falls, never exceeds 1.0 from at most 1.0, and changes only inside the action window below 1.0; there it becomes velocity + factor, or exactly 1.0 when that sum exceeds 1.0 |
| AngularVelocity.Decay | src/angular_velocity.rs:57-62 | the result is the velocity minus the factor, or 0.0 when that is negative, and never exceeds a non-negative velocity |
| AngularVelocity.Track | src/angular_velocity.rs:86-98 | the factors and window are untouched and the previous time never passes the current time |
| AngularVelocity.TrackRisesOnQuickSteps | src/angular_velocity.rs:86-94 | a reporting update inside the action window while below 1.0 sets the velocity to the raised value, or to 1.0 when that would exceed 1.0 |
| AngularVelocity.TrackPreviousTime | src/angular_velocity.rs:86-98 | the previous time becomes the current time exactly on updates reporting None (velocity unchanged then), and is kept on reporting updates |
| AngularVelocity.TrackRisesOnlyOnQuickSteps | src/angular_velocity.rs:86-94 | the velocity rises only on a reporting update inside the action window while below 1.0, and never beyond 1.0 |
| AngularVelocity.ApplyKeepsUnitRange | src/angular_velocity.rs:41-98 | each update, decay or setter call with non-negative factors keeps the velocity in [0, 1] |
| AngularVelocity.VelocityStaysInUnitRange | src/angular_velocity.rs:41-126 | from the initial velocity 0 (or any in range), every sequence of calls with non-negative factors keeps the velocity in [0, 1] |
| AngularVelocity.DecaysNeverRaise | src/angular_velocity.rs:57-62 | any number of decay calls never raises the velocity |
| AngularVelocity.AngularVelocityMode.constructor | src/angular_velocity.rs:119-126 | histories `[0xFF, 2]`, velocity 0, previous time 0, factors 0.2 and 0.01, window 25 ms, direction None |
| AngularVelocity.AngularVelocityMode.SetVelocityIncFactor | src/angular_velocity.rs:41-43 | stores the increasing factor and nothing else |
| AngularVelocity.AngularVelocityMode.SetVelocityDecFactor | src/angular_velocity.rs:46-48 | stores the decreasing factor and nothing else |
| AngularVelocity.AngularVelocityMode.SetVelocityActionMs | src/angular_velocity.rs:51-53 | stores the action window and nothing else |
| AngularVelocity.AngularVelocityMode.DecayVelocity | src/angular_velocity.rs:57-62 | lowers the velocity by the factor, floored at 0.0 |
| AngularVelocity.AngularVelocityMode.Update | src/angular_velocity.rs:68-99 | the histories and direction follow the standard shift-register rule, and the velocity and previous time follow the velocity bookkeeping |
| AngularVelocity.AngularVelocityMode.Velocity | src/angular_velocity.rs:104-106 | the velocity returned is in [0, 1] |
| Angular.RotaryEncoderWithVelocity.constructor | src/angular.rs:27-36 | velocity 0, previous time 0, the default factors and window, no direction yet |
| Angular.RotaryEncoderWithVelocity.SetVelocityIncFactor | src/angular.rs:39-41 | stores the increasing factor and nothing else |
| Angular.RotaryEncoderWithVelocity.SetVelocityDecFactor | src/angular.rs:44-46 | stores the decreasing factor and nothing else |
| Angular.RotaryEncoderWithVelocity.SetVelocityActionMs | src/angular.rs:49-51 | stores the action window and nothing else |
| Angular.RotaryEncoderWithVelocity.DecayVelocity | src/angular.rs:55-60 | lowers the velocity by the factor, floored at 0.0 |
| Angular.RotaryEncoderWithVelocity.Update | src/angular.rs:86-105 | `direction()` then returns the wrapped encoder's direction, and the velocity books follow it exactly as in the angular velocity mode |
| Angular.RotaryEncoderWithVelocity.CurrentDirection | src/angular.rs:103-105 | `direction()` is the wrapped encoder's direction as its last update left it; `Update` ensures it equals the direction that update detected |
| Angular.RotaryEncoderWithVelocity.Velocity | src/angular.rs:110-112 | the velocity returned is in [0, 1] |

## Left out

- Pin access through `embedded_hal::InputPin` is not modelled. Pin levels are parameters; a failed read is `PinReading.ReadError`, which counts as low.
- `pins_mut`, `borrow_pins`, `borrow_inner` and `release` are not modelled: they only hand out the pins.
- The type-state conversions `into_*_mode` are not modelled; the constructors keep the initial field values they set.
- Feature gating (`#[cfg(feature = ...)]`) is not modelled: every module is present.
- `RotaryEncoderCore` is not modelled: it is an unused data holder.
- The generic `RotaryEncoderLogic` trait is not modelled. `Encoder.RotaryEncoder` is fixed to the initialising logic, and each mode is its own class with its own `Update`.
- The files do not agree on the wrapper's field names (`logic` in `lib.rs`; `mode` and `direction` in the mode files). Each mode models its own fields and its own `direction`.
- The wrapped encoder of `angular.rs`, its own `update`, `Sensitivity` and `set_sensitivity` are not part of this model. `Angular.RotaryEncoderWithVelocity.Update` takes the wrapped encoder's direction as the parameter `detected`.
- f32 rounding, NaN and infinities are not modelled: velocities and factors are exact reals.
- AngularVelocity.AngularVelocityMode.SetVelocityIncFactor: requires a non-negative factor, which the source does not check. The [0, 1] invariant holds only for such factors.
- AngularVelocity.AngularVelocityMode.SetVelocityDecFactor: requires a non-negative factor, for the same reason.
- Angular.RotaryEncoderWithVelocity.SetVelocityIncFactor: requires a non-negative factor, for the same reason.
- Angular.RotaryEncoderWithVelocity.SetVelocityDecFactor: requires a non-negative factor, for the same reason.
- AngularVelocity.AngularVelocityMode.Update: requires the time not to be earlier than the previous time. The source's `u64` subtraction would panic or wrap otherwise.
- Angular.RotaryEncoderWithVelocity.Update: requires the time not to be earlier than the previous time, as above.
- Debounced.DebouncedMode.Update: requires the time not to be earlier than either recorded acceptance, as above.
- Quadrature.QuadratureTableMode.constructor: requires a threshold of at most 127. The source accepts any `u8`; above 127 the `i8` counter could overflow after 127 same-sense pulses, and that overflow is not modelled.
  - Threshold 0 is modelled: every update then reports.
  - The counter is an `int` that is proved to stay inside the `i8` range.
- The full-step table and the flat copy of `table.rs` are separate constants, as in the source. The debounced decoder reads the flat copy; the full-step decoder reads the table directory's copy.
