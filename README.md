# BR24 radar plugin: verified model of the header's data-engine rules

This project models, in Dafny, the integer, bit-level and policy rules that
the BR24 radar plugin for OpenCPN states in its plugin header
`src/br24radar_pi.h`:

- **AngleMath** (`angle.dfy`): `MOD_ROTATION` and `MOD_ROTATION2048`, which
  fold a raw spoke index into `[0, 4096)` or `[0, 2048)` by adding two
  rotations and taking C's `%`. The model uses C's truncating remainder
  (`CRem`) on a 32-bit `int`, not Dafny's Euclidean `%`. Signed overflow of
  `raw + 2N` is undefined behaviour in C, so callers must avoid it (a
  `requires`). The result is proved to be always congruent to `raw`, and in
  `[0, N)` whenever `raw >= -2N`. Below that bound it is zero or negative,
  and a lemma gives a concrete input that yields a negative index.
- **Deadlines** (`deadlines.dfy`): `TIMED_OUT` / `NOT_TIMED_OUT`, used with
  the plugin's absolute deadline fields (`m_hdt_timeout`, `m_var_timeout`,
  `m_idle_timeout`).
- **BitCount** (`bitcount.dfy`): the `HasBitCount2` table, proved equal to
  "at least two of the three low bits are set" and monotone in the bits.
- **ScanHistory** (`history.dfy`): the per-return history byte of a
  `scan_line`. Each scan shifts the byte left and puts the above-threshold
  bit at the right. `Replay` gives the register after any sequence of scans,
  and the lemmas prove that bit k is the result from k scans ago, that
  results older than eight scans are gone, and that a return never above
  threshold keeps a zero history.
- **SpokeStore** (`scanline.dfy`): `scan_line` as a class whose `data` and
  `history` byte arrays hold `RETURNS_PER_LINE + 1` entries and are rewritten
  in place by a loop. A buffer holds one line per `SpokeBearing` in
  `[0, LINES_PER_ROTATION)`. Writing a spoke wraps its bearing with
  `MOD_ROTATION2048`, updates that one line and leaves every other line
  unchanged.
- **Settings** (`settings.dfy`): `IsRadarOnScreen` / `IsOverlayOnScreen`
  over `show`, `show_radar[]` and `chart_overlay`, the `idle_run_time`
  clamp to 30 s, and the `timed_idle` index (0 = off, k = 5·k minutes).
- **Variation** (`variation.dfy`): the variation-source preference
  `NONE < NMEA < FIX < WMM` and the rule that a non-zero value prevails over
  a zero one. The policy is given as a function. A class holding `m_var`,
  `m_var_source` and `m_var_timeout` applies it in place.

Only the header is part of this model. The `.cpp` files, `GuardZone.h` and
`RadarInfo.h` are not part of this model. Where the behaviour of a rule
depends on code in those files, the model states only what the header
states (see "Left out").

Interpretations:

- The history comment says a 1 is added when a return's strength is
  "above" the threshold and a 0 when "below". The model reads "above" as
  strictly greater, so a strength equal to the threshold adds a 0. The
  threshold is a parameter because the threshold setting the receiver uses
  is set in code outside this header.
- `data[512]` is described as "an additional element, accessed in drawing
  the spokes". The model reads this as a copy of the last real return, so
  that drawing up to index 512 shows the strength at maximum range.
- The model follows the header comment on variation: no zero update
  replaces a non-zero stored value, whatever its source.

## Model

| member | source | states |
|---|---|---|
| AngleMath.CRem | src/br24radar_pi.h:75-76 | C's `%` on a positive divisor: the remainder is in `(-n, n)`, has the sign of the dividend, and satisfies C's identity `(a/n)*n + a%n == a` with truncating `/` |
| AngleMath.ModRotationN | src/br24radar_pi.h:75-76 | `((raw) + 2N) % N` in C `int` arithmetic, with no overflow allowed: the result is congruent to `raw` mod N; it is in `[0, N)` when `raw >= -2N` and in `(-N, 0]` otherwise |
| AngleMath.ModRotation | src/br24radar_pi.h:75 | MOD_ROTATION: congruent to `raw` mod 4096, in `[0, 4096)` when `raw >= -8192`, never positive below that |
| AngleMath.ModRotation2048 | src/br24radar_pi.h:76 | MOD_ROTATION2048: congruent to `raw` mod 2048, in `[0, 2048)` when `raw >= -4096`, never positive below that |
| AngleMath.ModRotationIsResidue | src/br24radar_pi.h:75-76 | in the safe range the macro equals the mathematical residue `raw mod N` |
| AngleMath.ModRotationIdempotent | src/br24radar_pi.h:75-76 | wrapping a wrapped bearing gives the same bearing |
| AngleMath.ModRotationCongruent | src/br24radar_pi.h:75-76 | raw bearings a whole number of rotations apart wrap to the same index |
| AngleMath.ModRotationExamples | src/br24radar_pi.h:75-76 | `MOD_ROTATION(4096) == 0`, `MOD_ROTATION(-1) == 4095`, and the same edge cases for the 2048 variant |
| AngleMath.ModRotationNegativeBelowBound | src/br24radar_pi.h:75-76 | just below `-2N` the macro returns -1, so `raw >= -2N` is a real precondition of its callers |
| Deadlines.TimedOut | src/br24radar_pi.h:80 | TIMED_OUT: a deadline counts as reached at the very second it names, and never before it |
| Deadlines.NotTimedOut | src/br24radar_pi.h:81 | NOT_TIMED_OUT, the negation of TIMED_OUT: true exactly while `t` is before the deadline |
| Deadlines.TimedOutComplement | src/br24radar_pi.h:80-81 | TIMED_OUT and NOT_TIMED_OUT are exact complements, and `t == timeout` counts as timed out |
| Deadlines.TimedOutMonotone | src/br24radar_pi.h:80 | once timed out at `t`, a deadline stays timed out at every later time |
| Deadlines.DeadlineLiveness | src/br24radar_pi.h:78-81 | a deadline set `d` seconds after a stamp is live exactly while less than `d` seconds have passed, and is reached at `stamp + d` |
| Deadlines.HeaderTimeouts | src/br24radar_pi.h:78-81 | with WATCHDOG_TIMEOUT, HEADING_TIMEOUT or ALARM_TIMEOUT as the duration, a deadline is live one second before the timeout and reached at it |
| BitCount.HasBitCount2IsPopCount | src/br24radar_pi.h:198-207 | the table constant `BitCount.HasBitCount2` has 8 entries, and entry `i` is true iff at least two of the three low bits of `i` are set |
| BitCount.HasBitCount2Table | src/br24radar_pi.h:198-207 | the table has eight entries and the equivalence holds for all of them at once |
| BitCount.HasBitCount2Monotone | src/br24radar_pi.h:198-207 | setting extra bits in the index never turns a true entry false |
| ScanHistory.ShiftIn | src/br24radar_pi.h:261-264 | one scan's update of a history byte: bit 0 becomes the new above-threshold result and every other bit k takes the old bit k-1 |
| ScanHistory.ShiftInIsByteArithmetic | src/br24radar_pi.h:261-264 | the bit-vector update equals C's integer computation `(h*2 + bit) mod 256` after storing into a UINT8 |
| ScanHistory.Replay | src/br24radar_pi.h:261-264 | the register after a sequence of scans, oldest first: its bit 0 is the newest scan's result |
| ScanHistory.ReplayAppend | src/br24radar_pi.h:261-264 | replaying two runs of scans is replaying the second run from the register the first one left |
| ScanHistory.ReplayBit | src/br24radar_pi.h:261-264 | after a sequence of scans, bit k of the register is the result from k scans ago; with fewer scans it is a bit of the starting value |
| ScanHistory.ReplayStep | src/br24radar_pi.h:261-264 | one more scan extends the replayed sequence by that scan's bit |
| ScanHistory.ReplayForgets | src/br24radar_pi.h:261-264 | after eight scans the register no longer depends on its earlier value |
| ScanHistory.ReplayKeepsLastEight | src/br24radar_pi.h:261-264 | the register is determined by the last eight scans alone; older results are discarded |
| ScanHistory.ReplayNeverAbove | src/br24radar_pi.h:261-264 | a return never above threshold keeps history 0 |
| ScanHistory.ReplayZeroIffNoRecentHit | src/br24radar_pi.h:261-264 | a register started at 0 is 0 iff none of the last eight scans was above threshold |
| ScanHistory.ShiftLine | src/br24radar_pi.h:259-264 | one scan's update of a whole line: each byte's bit 0 is its return's result and its other bits are the old ones shifted up |
| ScanHistory.ShiftLineContinuesReplay | src/br24radar_pi.h:259-264 | a line update continues every byte's replay by that return's bit for this scan |
| SpokeStore.StoredData | src/br24radar_pi.h:258-260 | the stored strengths: the 512 returns followed by a copy of the last one in the extra element |
| SpokeStore.ScanLine.constructor | src/br24radar_pi.h:256-265 | a new scan line has zero range and age and all-zero data and history arrays of 513 bytes |
| SpokeStore.ScanLine.Update | src/br24radar_pi.h:256-265 | in place, with a loop over all 513 entries: the line gets the new range, age and strengths, and every history byte takes one ShiftLine step |
| SpokeStore.SpokeBuffer.constructor | src/br24radar_pi.h:256-265 | a buffer of LINES_PER_ROTATION zeroed scan lines that share no arrays |
| SpokeStore.SpokeBuffer.WriteSpoke | src/br24radar_pi.h:256-265 | the raw bearing is wrapped by MOD_ROTATION2048; that line is updated as ScanLine.Update says; every other line keeps its range, age, data and history |
| Settings.IsRadarOnScreen | src/br24radar_pi.h:332-334 | on screen exactly when `show > 0` and either its `show_radar` flag is set or it is the `chart_overlay` radar (each direction stated) |
| Settings.IsOverlayOnScreen | src/br24radar_pi.h:335 | overlaid exactly when `show > 0` and the radar is the `chart_overlay` (each direction stated); never for a radar index `>= 0` when `chart_overlay == -1` |
| Settings.OverlayImpliesOnScreen | src/br24radar_pi.h:332-335 | an overlaid radar is on screen |
| Settings.NothingShownWhenHidden | src/br24radar_pi.h:332-335 | with `show <= 0` no radar is on screen; with `chart_overlay == -1` no radar 0..RADARS-1 is overlaid |
| Settings.OverlayIsUnique | src/br24radar_pi.h:335 | at most one radar is the chart overlay |
| Settings.EffectiveIdleRunTime | src/br24radar_pi.h:235 | the effective idle run time is the larger of the setting and 30 seconds |
| Settings.EffectiveIdleRunTimeMonotone | src/br24radar_pi.h:235 | a longer configured run never gives a shorter effective run |
| Settings.TimedIdleSetting | src/br24radar_pi.h:234 | index 0 is off; 1..7 select a multiple of 5 minutes between 5 and 35 |
| Settings.TimedIdleRoundTrip | src/br24radar_pi.h:234 | the index is recovered from the schedule it selects, so k selects exactly 5·k minutes |
| Settings.TimedIdleIncreasing | src/br24radar_pi.h:234 | a higher index is a strictly longer idle period |
| Variation.Preference | src/br24radar_pi.h:194 | the enum order ranks the sources 0..3, and only NONE ranks 0 |
| Variation.PreferenceInjective | src/br24radar_pi.h:194 | distinct sources have distinct ranks, so preference is a strict total order |
| Variation.Apply | src/br24radar_pi.h:364-371 | an update either keeps the held variation or replaces it with the new value and source; the source never becomes less preferred and a non-zero value never becomes zero |
| Variation.LessPreferredIgnored | src/br24radar_pi.h:364-368 | an update from a less preferred source leaves the held variation unchanged |
| Variation.ZeroIgnored | src/br24radar_pi.h:367-368 | a zero update does not replace a non-zero held variation |
| Variation.PreferredNonZeroTakesEffect | src/br24radar_pi.h:364-368 | a non-zero update from a source at least as preferred always takes effect |
| Variation.ApplyAllMonotone | src/br24radar_pi.h:364-371 | over any sequence of updates the source's preference never decreases and a non-zero variation never reverts to zero |
| Variation.ApplyAllLessPreferredIgnored | src/br24radar_pi.h:364-371 | any sequence of updates from less preferred sources leaves the held variation unchanged |
| Variation.NmeaZeroAfterWmm | src/br24radar_pi.h:364-368 | a zero NMEA variation after a WMM variation of 5 keeps 5 from WMM |
| Variation.ApplyAll | src/br24radar_pi.h:364-371 | the variation after a sequence of updates, oldest first: either the initial one or one of the offered (value, source) pairs |
| Variation.VariationFields.constructor | src/br24radar_pi.h:369-371 | the model's own starting state, zero variation from no source with deadline 0, since the header gives no initial values |
| Variation.VariationFields.UpdateVariation | src/br24radar_pi.h:369-371 | in place, `m_var`/`m_var_source` become what Apply gives, and `m_var_timeout` is untouched |

## Left out

- `SCALE_RAW_TO_DEGREES*`, `SCALE_DEGREES_TO_RAW*` and `MOD_DEGREES`: double arithmetic and `fmod`, which are floating point.
- `local_distance`, `local_bearing`, `convertMetersToRadarAllowedValue`, `convertRadarToString`: only declared in the header; the first two are floating-point geodesy.
- Guard-zone evaluation, `CheckGuardZoneBogeys`, `ConfirmGuardZoneBogeys`, `CheckTimedTransmit` and heading selection (`SetNMEASentence`, `SetPositionFix*`, `m_hdt`, `m_heading_source`): only declared in the header, so their algorithms are not modelled.
- Variation.VariationFields.UpdateVariation: does not refresh `m_var_timeout` and has no rule for how a timed-out variation interacts with a new update, because the header states neither.
- SpokeStore.ScanLine.Update: takes the history threshold as a parameter and compares strictly, because the threshold the receiver uses is set outside the header.
- SpokeStore.SpokeBuffer: the spoke storage of a radar lives in `RadarInfo.h`, which is not part of this model; the buffer here gives the header's `scan_line` one slot per SpokeBearing. Concurrent readers and the locking around writes are not modelled.
- Rendering, OpenGL overlays, toolbar, menus, dialogs and wx widgets.
- Config load and save, `PersistentSettings` persistence and the multicast address.
- NMEA0183 parsing.
- The `m_exclusive` critical section: its purpose is concurrency.
- Logging macros and the `ControlTypeNames` strings: no behaviour to prove.
- `wxLongLong` ages and `time_t` deadlines are unbounded integers; the plugin's clocks never approach their limits.
- `double` variation values are Dafny reals; only equality with zero and assignment are used.
