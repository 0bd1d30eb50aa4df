# Decibel monitor: a verified model

This project models the core of a SwiftUI decibel monitor. There are two parts.

- `AudioManager` samples the microphone's average power every 0.1 s. It rescales each
  reading to a 0..120 display level and publishes four statistics: the current level, the
  average, the minimum and the maximum.
- The views classify the published level into a spoken description and a colour. They do
  this with two first-match tables, `description(for:)` and `color(for:)`.

Modules:

- `Levels` (levels.dfy) is the rescale of a raw reading: a floor clamp at -80, a linear map
  onto 0..120, and the filter on negative values.
- `Stats` (stats.dfy) holds the left-fold sum and mean behind `reduce(0, +) / count`. It also
  holds the left-fold least and greatest readings behind the tick-by-tick `minimum` and
  `maximum` updates, with their bounds.
- `Meter` (meter.dfy) holds the published statistics as a value (`State`), together with:
  - the effect of one reading (`Record`) and of a stop (`Close`);
  - the invariant that ties the statistics to every reading taken so far (`Consistent`).
- `Monitor` (audio_manager.dfy) is the class `AudioManager`. Its fields are updated in place
  by the start, stop, setup and tick methods. Each method ties the new state to the old one,
  through `Meter` for the statistics.
  - The platform recorder is reduced to two flags: a recorder exists, and it was told to
    record.
  - The recorder's meter reading is the `averagePower` argument of `Tick`.
  - The `timer` reference is a flag. Timers that are still scheduled but no longer
    referenced are a count.
- `Bands` (bands.dfy) holds the two tables. Each is proved equal to a reference definition: a
  level lies in band k exactly when k of the table's effective thresholds are at or below it.
- `Views` (views.dfy) models what depends on the level on each screen. The desktop screen
  shows the description only for a level above 0. The phone screen always shows it.

The desktop and phone copies of `description(for:)` and `color(for:)` are identical text. Each
table is modelled once in `Bands`; the `Views` rows tie the phone screen to the same tables.

Four facts about the code shape what the model promises:

- `startMonitoring` assigns a new timer without invalidating the previous one. Both timers
  stay scheduled, and the earlier one can never be invalidated again (`Start`,
  `RestartLeaksTimer`).
- `stopMonitoring` empties the history. `decibels`, `avgDecibels`, `minimum` and `maximum`
  keep their values into the next session (`Stop`, `Close`, `TwoSessions`). So the extremes
  are extremes over all sessions, and the average keeps its value while the history is empty.
- There is no upper clamp. A raw reading above 0 gives a level above 120 (`Level`).
- The average is the mean of the current session only. The extremes cover every session
  (`Consistent`).

## Model

| member | source | states |
|---|---|---|
| Levels.ScaledPower | AudioDecibelsMultiple/AudioManager.swift:117 | the clamped reading is the larger of -80 and the reading: at least both, and equal to one of them |
| Levels.Level | AudioDecibelsMultiple/AudioManager.swift:113-125 | the level is never negative; it is 0 exactly when the reading is at or below -80; it is at most 120 for readings up to 0 and above 120 for readings above 0 |
| Levels.NegativeFilterInactive | AudioDecibelsMultiple/AudioManager.swift:123-125 | the rescaled value is never negative, so the `decibels < 0` filter never changes it |
| Levels.LevelAffine | AudioDecibelsMultiple/AudioManager.swift:115-120 | the level is (max(-80, p) + 80) / 80 * 120; from the floor up it is (p + 80) * 1.5 |
| Levels.LevelExamples | AudioDecibelsMultiple/AudioManager.swift:115-125 | -90 and -80 give 0, -20 gives 90, 0 gives 120, 5 gives 127.5 |
| Levels.LevelMonotone | AudioDecibelsMultiple/AudioManager.swift:117-120 | a higher reading never gives a lower level, and from the floor up it gives a strictly higher one |
| Levels.PowerFor | AudioDecibelsMultiple/AudioManager.swift:120 | reading a level back off the display scale gives a reading of at least -80, and at most 0 for a level up to 120 |
| Levels.LevelRoundTrip | AudioDecibelsMultiple/AudioManager.swift:117-120 | from the floor up, the rescale and reading back are inverse to each other, in both orders |
| Stats.SumBounds | AudioDecibelsMultiple/AudioManager.swift:129 | n readings in [lo, hi] sum to between n*lo and n*hi |
| Stats.MeanBounds | AudioDecibelsMultiple/AudioManager.swift:129 | the average of readings in [lo, hi] lies in [lo, hi] |
| Stats.ExtremesOfSeq | AudioDecibelsMultiple/AudioManager.swift:131-139 | the left-fold least and greatest are themselves readings, and every reading lies between them |
| Stats.ExtremesAppend | AudioDecibelsMultiple/AudioManager.swift:131-139 | one more reading replaces the least exactly when it is below it, and the greatest exactly when it is above it |
| Levels.Rescaled | AudioDecibelsMultiple/AudioManager.swift:120 | the linear map of the clamped reading; `NegativeFilterInactive` proves it never negative and `LevelAffine` gives its closed form |
| Stats.Sum | AudioDecibelsMultiple/AudioManager.swift:129 | `reduce(0, +)` as a left fold from 0; `SumBounds` bounds it by the count times the bounds of the readings |
| Stats.Mean | AudioDecibelsMultiple/AudioManager.swift:129 | the sum divided by the count of a non-empty history; `MeanBounds` keeps it within the bounds of the readings |
| Stats.Least | AudioDecibelsMultiple/AudioManager.swift:132-134 | the `minimum` update folded over the readings from the left; `ExtremesOfSeq` proves it is a reading at or below every reading |
| Stats.Greatest | AudioDecibelsMultiple/AudioManager.swift:137-139 | the `maximum` update folded over the readings from the left; `ExtremesOfSeq` proves it is a reading at or above every reading |
| Meter.Record | AudioDecibelsMultiple/AudioManager.swift:127-139 | one tick's effect on the statistics: the level becomes `decibels`, joins the history, the average is the new history's mean, the extremes move; `RecordKeeps` proves it keeps the invariant |
| Meter.Close | AudioDecibelsMultiple/AudioManager.swift:103-108 | a stop's effect on the statistics: the history empties and the four statistics are kept; `CloseKeeps` proves it keeps the invariant and every reading |
| Meter.Consistent | AudioDecibelsMultiple/AudioManager.swift:14-19 | the invariant of the fields: initial values before the first reading, then `minimum`/`maximum` the least/greatest of all readings, `decibels` the last, `avgDecibels` between the extremes and the mean of the current history while it is non-empty |
| Meter.LowerOf | AudioDecibelsMultiple/AudioManager.swift:132-134 | the new `minimum` is never nil, is at most the reading and the old minimum, and is one of the two |
| Meter.HigherOf | AudioDecibelsMultiple/AudioManager.swift:137-139 | the new `maximum` is never nil, is at least the reading and the old maximum, and is one of the two |
| Meter.InitialConsistent | AudioDecibelsMultiple/AudioManager.swift:15-20 | the initial values (empty history, 0, 0, nil, nil) satisfy the statistics invariant, with no readings |
| Meter.CloseKeeps | AudioDecibelsMultiple/AudioManager.swift:103-108 | emptying the history while keeping the four statistics preserves the invariant and loses no reading |
| Meter.ExtremesAfterReading | AudioDecibelsMultiple/AudioManager.swift:131-139 | after a non-negative reading, the updated `minimum`/`maximum` are the least/greatest of all readings, and are absent only before the first |
| Meter.RecordKeeps | AudioDecibelsMultiple/AudioManager.swift:127-139 | a tick's update preserves the invariant and appends exactly the new level to the readings; afterwards minimum <= decibels <= maximum, the extremes bound the whole history, and the average lies between them |
| Meter.ExtremesBound | AudioDecibelsMultiple/AudioManager.swift:127-139 | once there is a reading, `minimum` and `maximum` are present, are readings, and bound every reading (the current history included), `decibels` and `avgDecibels` |
| Monitor.AudioManager.constructor | AudioDecibelsMultiple/AudioManager.swift:13-25 | a new manager has the recorder set up or not, is not recording, has no timer, and holds the initial statistics |
| Monitor.AudioManager.SetupRecorder | AudioDecibelsMultiple/AudioManager.swift:45-88 | a successful setup installs a recorder that is not recording; a failed one changes nothing; timers and statistics are untouched |
| Monitor.AudioManager.Start | AudioDecibelsMultiple/AudioManager.swift:91-100 | the recorder, if any, records; the timer reference is set, a timer it held before becomes orphaned, and the scheduled count grows by one; statistics are untouched |
| Monitor.AudioManager.Stop | AudioDecibelsMultiple/AudioManager.swift:103-108 | recording stops, the referenced timer is invalidated and the reference cleared, orphaned timers stay scheduled, and the history empties while the four statistics keep their values |
| Monitor.AudioManager.Tick | AudioDecibelsMultiple/AudioManager.swift:111-141 | without a recorder nothing changes; with one, the statistics become those of one more reading at `Level(averagePower)`; the invariant is kept |
| Monitor.AudioManager.Publish | AudioDecibelsMultiple/AudioManager.swift:127-139 | the level becomes `decibels` and is appended to the history, the average is the mean of the new history, and the extremes are updated; the flags and timers are untouched |
| Monitor.RestartLeaksTimer | AudioDecibelsMultiple/AudioManager.swift:91-108 | start, start, stop leaves one timer scheduled with no reference to it |
| Monitor.TwoSessions | AudioDecibelsMultiple/AudioManager.swift:103-139 | after readings at levels 90 and 60, a stop, and a reading at 15, the extremes are 15 and 90; the average is 75 after the stop and 15 after the new reading |
| Bands.Label | AudioDecibelsMac/ContentView.swift:111-138 | the twelve texts `description(for:)` returns, one per case; `AtSilence` and `DescriptionBoundaryExamples` pin some of them |
| Bands.DescriptionFor | AudioDecibelsMac/ContentView.swift:111-138 | the cases of `description(for:)` in source order, first match wins; `DescriptionByBand` proves it equal to the effective bands 40, 60, …, 140 |
| Bands.ColorFor | AudioDecibelsMac/ContentView.swift:140-167 | the cases of `color(for:)` in source order, first match wins; `ColorByBand` proves it equal to the bands 30, 40, …, 130 |
| Bands.CountAtMost | AudioDecibelsMac/ContentView.swift:140-167 | the reference definition of a band: how many thresholds are at or below a level, never more than the thresholds; `CountLocates` and `BandUnique` prove the level lies in that band and in no other |
| Bands.CountLocates | AudioDecibelsMac/ContentView.swift:112-137 | over increasing thresholds, a value lies in the band that its count of thresholds at or below it names |
| Bands.BandUnique | AudioDecibelsMac/ContentView.swift:141-166 | over increasing thresholds, a value lies in only one band |
| Bands.CountMonotone | AudioDecibelsMac/ContentView.swift:141-166 | the count of thresholds at or below a value never decreases as the value grows |
| Bands.DescriptionByBand | AudioDecibelsMac/ContentView.swift:111-138 | every level gets the description of its band under the effective thresholds 40, 60, 70, 75, 80, 90, 95, 100, 120, 130, 140 |
| Bands.DescriptionBand | AudioDecibelsMac/ContentView.swift:111-138 | description k is given exactly to the levels of band k, in both directions |
| Bands.ColorByBand | AudioDecibelsMac/ContentView.swift:140-167 | every level gets the colour of its band under the thresholds 30, 40, 60, 70, 75, 80, 90, 100, 110, 120, 130 |
| Bands.ColorBand | AudioDecibelsMac/ContentView.swift:140-167 | colour k is given exactly to the levels of band k, in both directions, so each level gets exactly one colour |
| Bands.DescriptionRank | AudioDecibelsMac/ContentView.swift:111-138 | each description's position in the table holds that description |
| Bands.ColorRank | AudioDecibelsMac/ContentView.swift:140-167 | each colour's position in the table holds that colour |
| Bands.DescriptionMonotone | AudioDecibelsMac/ContentView.swift:111-138 | a louder level never gets an earlier description |
| Bands.ColorMonotone | AudioDecibelsMac/ContentView.swift:140-167 | a louder level never gets an earlier colour |
| Bands.QuietIsRustling | AudioDecibelsMac/ContentView.swift:112-114 | rustling leaves is given exactly below 40, the shadowed range 30..<40 included |
| Bands.HouseholdBand | AudioDecibelsMac/ContentView.swift:115-116 | the household label is given exactly on [40, 60) |
| Bands.ConversationBand | AudioDecibelsMac/ContentView.swift:117-118 | normal conversation is given exactly on [60, 70) |
| Bands.LoudestIsGunshot | AudioDecibelsMac/ContentView.swift:135-136 | the default description is given exactly from 140 up |
| Bands.DescriptionLowerBounds | AudioDecibelsMac/ContentView.swift:119-136 | each effective threshold belongs to the band it opens: lower bounds are inclusive |
| Bands.DescriptionBoundaryExamples | AudioDecibelsMac/ContentView.swift:111-138 | 70 is office noise, 130 is take-off, 140 is the default, 30 is rustling, 40 household, 60 conversation |
| Bands.QuietIsAccent | AudioDecibelsMac/ContentView.swift:142-143 | the accent colour is used exactly below 30 |
| Bands.LoudestIs140 | AudioDecibelsMac/ContentView.swift:164-165 | the last colour is used exactly from 130 up |
| Bands.ColorLowerBounds | AudioDecibelsMac/ContentView.swift:144-163 | each colour threshold belongs to the band it opens |
| Views.DesktopScreen | AudioDecibelsMac/ContentView.swift:21-35 | the description line is present exactly for a level above 0 and is then the level's label; meter and reading share the level's colour |
| Views.PhoneScreen | AudioDecibels/ContentView.swift:20-32 | the description line is always present and is the level's label; meter and reading share the level's colour |
| Views.ScreensAgreeAbove0 | AudioDecibelsMac/ContentView.swift:25-27 | the two screens are equal exactly for levels above 0 |
| Views.AtSilence | AudioDecibels/ContentView.swift:24 | at level 0 the phone shows "Hojas crujiendo, susurrando" with the accent colour, and the desktop shows no description |
| Views.PhoneDescriptionTable | AudioDecibels/ContentView.swift:91-118 | the phone's description line for every level is the label of its band under the effective thresholds 40, 60, …, 140, as on the desktop |
| Views.PhoneColorTable | AudioDecibels/ContentView.swift:120-147 | the phone's meter colour for every level is the colour of its band under the thresholds 30, 40, …, 130, as on the desktop |
| Views.DesktopHidesSilence | AudioDecibelsMac/ContentView.swift:25-27 | for the level of a tick, the desktop hides the description exactly when the reading was at or below -80 |

## Left out

- `AVAudioRecorder`, `AVAudioSession`, `updateMeters` and the recorder settings are platform calls. A recorder is only a flag, and its reading is `Tick`'s argument.
- The permission request is left out: `AVCaptureDevice.requestAccess` with a callback posted to the main queue is asynchronous. `SetupRecorder` stands for the setup that a grant triggers, and the constructor for `init` followed by that setup.
- `startMonitoring` on macOS first requests access again, which later re-runs the setup. `Start` leaves this out; calling `SetupRecorder` afterwards models it.
- `Timer.scheduledTimer` and run-loop firing are left out. Timers are a flag for the reference and a count of the orphaned ones, and each firing is a call to `Tick`.
- The clock and the 0.1 s interval are left out.
- `Float` is modelled as `real`. NaN, rounding and overflow in `reduce(0, +)` are not modelled.
- SwiftUI layout, the `%.1f` formatting, buttons, alerts and the privacy-pane link are left out, as are `micDenied` and `openMicrophonePrivacyPane`. Those two are not defined in the `AudioManager` shown.
- The watch screen, the window modifier, the app entry point and the meter view's bar geometry have no logic of the core and are not part of this model.
- Monitor.AudioManager.Tick: the level is computed first and then stored, through `Publish`. The source assigns `decibels` and then clamps the field in place. The order of field writes within one tick is not observable and is not modelled.
