# TeachTimer core, modelled in Dafny

TeachTimer is a classroom countdown timer for the web. This project models its logic and proves properties of that model.

- **Core package (`Core`).** The shared time arithmetic:
  - clamping;
  - the `MM:SS` / `HH:MM:SS` label;
  - warning levels;
  - whole seconds left before a target timestamp;
  - the progress percentage;
  - the default presets and settings.
- **Countdown engines.** There are two, and they differ:
  - `UseTimer.Timer` is the `useTimer` hook.
  - `TimerApp.Engine` is the state kept inside the main `TimerApp` component. It also holds the component's settings, presets, persistence hooks and inline time editor.

  Both engines keep running time as an absolute target timestamp and re-read it on every tick. The wall clock is a `now` parameter in milliseconds.
- **Editable time (`EditableTime`).** The parser behind the editable label, `parseEditableTime`.
  - `timer-app.tsx`, `timer-one.tsx` and `timer-one-b.tsx` each carry a copy that is the same function up to formatting and names, and it is modelled once.
  - It pairs with the label formatter: the label that editing starts from parses back to the same seconds, clamped into the duration range.
- **First design (`TimerOne`).**
  - The inline editor, `EditBox`.
  - The slider: keys, pointer scrubbing and the pointer-capture protocol.
  - The red, yellow and green bar segments.
  - The labels.
- **Second design (`TimerOneB`).** The preset highlight and the labels. Its editor is the same code as the first design's and uses `TimerOne.EditBox`.
- **Storage (`Storage`).** The schema of the stored snapshot as predicates, and loading and saving:
  - loading gives the stored snapshot or the full defaults;
  - saving writes only a snapshot that passes the schema;
  - the browser storage itself is taken never to fail (see "## Left out").
- **Helper modules.** `Digits` holds decimal numerals (`String(n)`, `padStart(2, "0")` and reading a digit run back). `Wrappers` holds `Option`.

Each React callback is modelled as one atomic update of the component's state.

## Model

| member | source | states |
|---|---|---|
| Digits.NatToString | packages/core/src/index.ts:59-62 | `String(n)`: a non-empty run of digits, one digit exactly below 10, with no leading zero except for 0 itself |
| Digits.NatToStringValue | packages/core/src/index.ts:59-62 | reading the digits of `String(n)` back gives n |
| Digits.ClockField | packages/core/src/index.ts:59 | `String(n).padStart(2, "0")`: digits only, at least two of them, exactly two below 100 |
| Digits.ClockFieldValue | packages/core/src/index.ts:59-62 | the padded field reads back as n |
| Core.DefaultPresets | packages/core/src/index.ts:26-37 | one preset per entry of the minutes list (five) |
| Core.DefaultPresetsTable | packages/core/src/index.ts:24-37 | the five presets: ids `preset-N`, names `N min`, 120/300/600/900/1200 s, sortOrder = index, both timestamps the load time |
| Core.Clamp | packages/core/src/index.ts:48-50 | the result lies in [lo, hi] when lo <= hi, equals the value when it is in range, is lo below and hi above the range |
| Core.ClampReal | packages/core/src/index.ts:48-50 | the same laws for the real-valued uses of `clamp` |
| Core.Fields | packages/core/src/index.ts:53-56 | h*3600 + m*60 + s = max(0, t) with m, s < 60; hours are positive exactly from 3600 s on |
| Core.FormatTimer | packages/core/src/index.ts:52-63 | five characters `MM:SS` below one hour; at least eight with colons at fields `HH:MM:SS` from one hour on; only digits and colons |
| Core.FormatNegative | packages/core/src/index.ts:53 | any count at or below zero shows as `00:00` |
| Core.FormatTimerReadBackShort | packages/core/src/index.ts:52-62 | below one hour the two fields of the label are digit runs under 60 that read back as minutes*60 + seconds = max(0, t) |
| Core.FormatTimerReadBackLong | packages/core/src/index.ts:52-62 | from one hour on the label has eight characters below 100 hours, and its three fields are digit runs, minutes and seconds under 60, that read back as hours*3600 + minutes*60 + seconds = t |
| Core.FormatExamples | packages/core/src/index.ts:52-63 | 65 -> `01:05`, 3661 -> `01:01:01`, -5 -> `00:00` |
| Core.GetWarningLevel | packages/core/src/index.ts:65-83 | complete exactly when remaining <= 0, whatever the flag; with warnings off only complete or normal; with them on final-ten exactly for 1..10, final-minute for 11..60, normal above 60 |
| Core.WarningMonotone | packages/core/src/index.ts:65-83 | severity never decreases as the remaining time decreases |
| Core.CeilThousandth | packages/core/src/index.ts:86 | `Math.ceil(x / 1000)`: the least c with c*1000 >= x |
| Core.RemainingFromTarget | packages/core/src/index.ts:85-87 | not negative; the least r >= 0 whose r*1000 covers the gap to the target |
| Core.RemainingZeroIff | packages/core/src/index.ts:85-87 | zero exactly when now >= target |
| Core.RemainingOfExactTarget | packages/core/src/index.ts:85-87 | a target R seconds ahead reads back as R |
| Core.RemainingNonIncreasing | packages/core/src/index.ts:85-87 | a later instant never shows more time left |
| Core.ProgressPercent | packages/core/src/index.ts:89-96 | 0 for a duration <= 0; otherwise in [0, 100], 0 when remaining >= duration, 100 when remaining <= 0, and exactly 100*(d-r)/d in between |
| Core.ProgressOf | packages/core/src/index.ts:94-95 | clamped percentage of elapsed over duration: 0 at or below none elapsed, 100 at or above all, exact in between |
| EditableTime.TrimStartMeaning | apps/web/src/components/timer-app.tsx:76 | `trim`'s leading part removes exactly a run of leading white space, leaving a non-space first character |
| EditableTime.TrimEndMeaning | apps/web/src/components/timer-app.tsx:76 | `trim`'s trailing part removes exactly a run of trailing white space |
| EditableTime.SplitMeaning | apps/web/src/components/timer-app.tsx:81 | `split(":")` gives pieces without a colon that join back to the input |
| EditableTime.SplitJoin | apps/web/src/components/timer-app.tsx:81 | splitting colon-free pieces joined by colons gives the pieces back |
| EditableTime.UnsignedDecimal | apps/web/src/components/timer-app.tsx:81 | an unsigned numeral is non-negative; a digit run reads as its decimal value |
| EditableTime.NumberOfDigits | apps/web/src/components/timer-app.tsx:81 | `Number` of a digit run is its decimal value |
| EditableTime.TokenValuesMeaning | apps/web/src/components/timer-app.tsx:81-88 | token values exist exactly when every token is a number that is not negative, and they are the tokens' numbers |
| EditableTime.Round | apps/web/src/components/timer-app.tsx:102 | `Math.round`: the integer r with r <= x + 1/2 < r + 1 |
| EditableTime.ParseEditableTime | apps/web/src/components/timer-app.tsx:75-103 | every result lies in [10, 14400]; blank input gives no result |
| EditableTime.ParseRejectsTooManyTokens | apps/web/src/components/timer-app.tsx:98-100 | more than three tokens give no result |
| EditableTime.ParseRejectsNegative | apps/web/src/components/timer-app.tsx:82-88 | one negative token rejects the input |
| EditableTime.ParseRejectsNaN | apps/web/src/components/timer-app.tsx:82-88 | one token that is not a number rejects the input |
| EditableTime.ParseDigitRun | apps/web/src/components/timer-app.tsx:92-93 | one digit token counts minutes: N gives clamp(N*60) |
| EditableTime.ParseWholeMinutes | apps/web/src/components/timer-app.tsx:92-93 | `String(m)` parses to clamp(m*60) |
| EditableTime.ParseTwoFields | apps/web/src/components/timer-app.tsx:94-95 | `M:S` of digit runs gives clamp(M*60 + S) |
| EditableTime.ParseThreeFields | apps/web/src/components/timer-app.tsx:96-97 | `H:M:S` of digit runs gives clamp(H*3600 + M*60 + S) |
| EditableTime.ParseFormatRoundTrip | apps/web/src/components/timer-app.tsx:432-447 | the label of any count parses back to that count, made non-negative and clamped to [10, 14400] |
| EditableTime.ParseExampleMinutes | apps/web/src/components/timer-app.tsx:92-93 | "5" gives 300 |
| EditableTime.ParseExampleMinutesSeconds | apps/web/src/components/timer-app.tsx:94-95 | "1:30" gives 90 |
| EditableTime.ParseExampleHoursMinutesSeconds | apps/web/src/components/timer-app.tsx:96-97 | "1:02:03" gives 3723 |
| EditableTime.ParseExampleNotANumber | apps/web/src/components/timer-app.tsx:82-88 | "abc" gives no result |
| EditableTime.ParseExampleTooManyTokens | apps/web/src/components/timer-app.tsx:98-100 | "1:2:3:4" gives no result |
| Storage.ParseTheme | apps/web/src/lib/storage.ts:16 | only the three theme names decode, each to the mode it names |
| Storage.ParseSound | apps/web/src/lib/storage.ts:17 | only the three sound names decode, each to the mode it names |
| Storage.ModeNamesRoundTrip | apps/web/src/lib/storage.ts:16-17 | every mode's name decodes back to that mode |
| Storage.ToRaw | apps/web/src/lib/storage.ts:57-61 | the saved object has version 1 and one entry per preset |
| Storage.FromRaw | apps/web/src/lib/storage.ts:46 | a valid snapshot's typed data have one preset per stored preset |
| Storage.StatePresetDuration | apps/web/src/lib/storage.ts:9 | every preset of a schema-valid state has a duration in [10, 14400] |
| Storage.DefaultsOk | apps/web/src/lib/storage.ts:6-28 | the default presets and settings pass the schema |
| Storage.LoadLocalState | apps/web/src/lib/storage.ts:30-50 | the result always passes the schema; a stored snapshot that passes is returned exactly; otherwise (nothing stored, malformed, failing the schema) the full defaults |
| Storage.RawRoundTrip | apps/web/src/lib/storage.ts:41-46 | a snapshot that passes the schema is loaded as exactly what it says |
| Storage.ToRawFaithful | apps/web/src/lib/storage.ts:57-67 | a state that passes the schema survives writing and reading unchanged |
| Storage.SaveTo | apps/web/src/lib/storage.ts:52-68 | a state that passes the schema is written; otherwise the key keeps what it had |
| Storage.SaveThenLoad | apps/web/src/lib/storage.ts:41-46 | saving a valid state and loading gives it back, whatever was stored before |
| Storage.SaveRejectedKeepsLoad | apps/web/src/lib/storage.ts:63-65 | saving an invalid state does not change what loads |
| Storage.LoadSaveLoad | apps/web/src/lib/storage.ts:30-68 | saving what was loaded and loading again gives the same state |
| Storage.LoudVolumeFallsBack | apps/web/src/lib/storage.ts:18 | a volume of 1.5 discards the whole snapshot, valid presets included, and loads the defaults |
| Storage.LocalStore.Load | apps/web/src/lib/storage.ts:30-50 | what the store holds always loads as a schema-valid state |
| Storage.LocalStore.Save | apps/web/src/lib/storage.ts:52-68 | the store's new content is the conditional write |
| UseTimer.Timer.constructor | apps/web/src/hooks/use-timer.ts:36-45 | the default presets, duration = remaining = the initial duration, idle with no target and the latch clear |
| UseTimer.Timer.Progress | apps/web/src/hooks/use-timer.ts:47-50 | the progress is in [0, 100], 100 once no time is left |
| UseTimer.Timer.Warning | apps/web/src/hooks/use-timer.ts:52-55 | the hook's warnings are always on: complete, final-ten, final-minute and normal by the remaining seconds |
| UseTimer.Timer.Label | apps/web/src/hooks/use-timer.ts:57-60 | the label of the remaining seconds, five characters below one hour |
| UseTimer.Timer.Start | apps/web/src/hooks/use-timer.ts:94-100 | nothing happens at or below zero; otherwise running, with target now + remaining*1000 and the completion flags clear |
| UseTimer.Timer.Pause | apps/web/src/hooks/use-timer.ts:102-105 | stops and drops the target; the remaining seconds are not recomputed |
| UseTimer.Timer.Reset | apps/web/src/hooks/use-timer.ts:107-113 | remaining = duration, idle, no target, flags clear, duration unchanged |
| UseTimer.Timer.Toggle | apps/web/src/hooks/use-timer.ts:115-118 | pause when running, start otherwise |
| UseTimer.Timer.SelectPreset | apps/web/src/hooks/use-timer.ts:120-127 | duration = remaining = the preset's duration, unclamped; idle, no target, flags clear |
| UseTimer.Timer.SetDuration | apps/web/src/hooks/use-timer.ts:129-137 | duration = remaining = the value clamped to [10, 14400]; idle, no target, flags clear |
| UseTimer.SetDurationClamps | apps/web/src/hooks/use-timer.ts:129-137 | for any value, even on a running countdown: stopped, with duration = remaining = the value clamped to [10, 14400] |
| UseTimer.Timer.AddTime | apps/web/src/hooks/use-timer.ts:139-153 | duration clamp(d+s, 10, 14400) and remaining clamp(r+s, 0, 14400) independently; a running target moves by s*1000; the running flag is kept; the flags clear |
| UseTimer.Timer.Tick | apps/web/src/hooks/use-timer.ts:74-92 | idle: nothing; running: remaining recomputed from the target; at zero stop, drop the target, set the latch and the flag, and ask for the chime at 0.6 once |
| UseTimer.CompletionFiresOnce | apps/web/src/hooks/use-timer.ts:77-86 | a run ticked at its end asks for the chime, ends at 0, idle and flagged; a further tick asks for nothing |
| UseTimer.TickBeforeEnd | apps/web/src/hooks/use-timer.ts:77-79 | before the end a tick keeps running and shows the whole seconds left, rounded up |
| UseTimer.PauseThenResume | apps/web/src/hooks/use-timer.ts:94-105 | pausing keeps the seconds, and a start later resumes from them |
| UseTimer.StartWithoutTime | apps/web/src/hooks/use-timer.ts:95 | start with no time left does nothing |
| UseTimer.AddTimeWhileRunning | apps/web/src/hooks/use-timer.ts:146-150 | while running, adding time stores the clamped sum but the next tick shows the full sum, even above 14400 |
| UseTimer.AddTimeBelowFloor | apps/web/src/hooks/use-timer.ts:145-146 | removing 5 s from an idle 10 s timer gives duration 10 and remaining 5 |
| UseTimer.ResetAfterCompletion | apps/web/src/hooks/use-timer.ts:107-113 | after completion, reset refills to the duration, idle, flag clear |
| TimerApp.FormatAdjustStep | apps/web/src/components/timer-app.tsx:63-69 | seconds below a minute end in `s`, whole minutes in `m`; the digits before the unit read back as the seconds or the minutes |
| TimerApp.FormatSignedAdjustLabel | apps/web/src/components/timer-app.tsx:71-73 | `+` for the plus side and `-` otherwise, followed by the step |
| TimerApp.MenuStepsFormattable | apps/web/src/components/timer-app.tsx:50-59 | every menu step is below a minute or a whole number of minutes |
| TimerApp.PlusMenuLabels | apps/web/src/components/timer-app.tsx:50-73 | the menu reads +1s, +10s, +30s, +1m, +5m, +10m, +20m, +30m |
| TimerApp.WithSetting | apps/web/src/components/timer-app.tsx:341-346 | the written field takes the value and every other field keeps its own |
| TimerApp.ToggledSound | apps/web/src/components/timer-app.tsx:407-413 | silent becomes chime, every other mode silent; never bell |
| TimerApp.ToggleTwice | apps/web/src/components/timer-app.tsx:407-413 | toggling twice keeps silent and turns any sounding mode into chime, so bell is lost |
| TimerApp.Engine.constructor | apps/web/src/components/timer-app.tsx:221-235 | defaults, 300 s, idle, not loaded, editor closed showing "5:00" |
| TimerApp.Engine.Label | apps/web/src/components/timer-app.tsx:247-250 | the label of the remaining seconds, five characters below one hour |
| TimerApp.Engine.Progress | apps/web/src/components/timer-app.tsx:238-241 | the progress is in [0, 100] |
| TimerApp.Engine.Warning | apps/web/src/components/timer-app.tsx:242-245 | the warning follows the final-minute setting; complete exactly at zero |
| TimerApp.Engine.Mount | apps/web/src/components/timer-app.tsx:252-269 | loads presets and settings, takes the first preset's duration as duration and remaining, shows its label, marks loaded |
| TimerApp.Engine.Persist | apps/web/src/components/timer-app.tsx:271-277 | nothing before loading; afterwards the conditional save of presets and settings |
| TimerApp.Engine.UpdateSetting | apps/web/src/components/timer-app.tsx:341-346 | the settings become the update of one field; the countdown, the flags, the editor and the loaded mark are unchanged |
| TimerApp.Engine.ToggleSoundMode | apps/web/src/components/timer-app.tsx:407-413 | only the sound mode changes, by the toggle; every other field is unchanged |
| TimerApp.Engine.ApplyDuration | apps/web/src/components/timer-app.tsx:348-358 | duration = remaining = the clamped value; idle, no target, flag clear, editor closed showing the new label |
| TimerApp.Engine.ApplyPreset | apps/web/src/components/timer-app.tsx:360-365 | the same with the preset's duration, clamped |
| TimerApp.Engine.StartTimer | apps/web/src/components/timer-app.tsx:367-375 | resumes from the remaining seconds, or restarts from the duration when none are left; target now + start*1000; flag clear |
| TimerApp.Engine.PauseTimer | apps/web/src/components/timer-app.tsx:377-386 | idle: nothing; running: remaining recomputed from the target, then idle without a target |
| TimerApp.Engine.ResetTimer | apps/web/src/components/timer-app.tsx:388-396 | remaining = duration, idle, no target, flag clear, editor closed showing the duration's label |
| TimerApp.Engine.AddTime | apps/web/src/components/timer-app.tsx:415-430 | duration and remaining clamped independently; a running target moves by s*1000; flag clear |
| TimerApp.Engine.SyncRemaining | apps/web/src/components/timer-app.tsx:310-339 | remaining recomputed; at zero stop, drop the target, set the flag and ask once for the chosen sound at the chosen volume |
| TimerApp.Engine.BeginTimeEdit | apps/web/src/components/timer-app.tsx:432-435 | the editor opens on the current label |
| TimerApp.Engine.EditInput | apps/web/src/components/timer-app.tsx:518 | the box holds the typed text |
| TimerApp.Engine.CommitTimeEdit | apps/web/src/components/timer-app.tsx:437-447 | a parsed value is applied as the duration; text that does not parse puts the label back and changes nothing else |
| TimerApp.Engine.CancelTimeEdit | apps/web/src/components/timer-app.tsx:449-452 | closes the editor showing the label |
| TimerApp.Engine.EditorKey | apps/web/src/components/timer-app.tsx:519-527 | Enter has the outcome of the commit on both branches; Escape closes the editor on the label with the countdown unchanged; any other key changes nothing |
| TimerApp.Engine.PrimaryButton | apps/web/src/components/timer-app.tsx:626-629 | a running timer pauses with the seconds recomputed and the flags kept; an idle one starts from its seconds, or from the duration when none are left, with the target that many seconds ahead and the flags clear; duration, settings, presets and editor unchanged |
| TimerApp.RunCompleteRestart | apps/web/src/components/timer-app.tsx:310-375 | a run reaching its end asks once for the chosen sound; a new start restarts from the full duration |
| TimerApp.PauseMidRun | apps/web/src/components/timer-app.tsx:377-386 | pausing mid-run keeps the seconds left, rounded up, and resuming continues from them |
| TimerApp.EditUnchanged | apps/web/src/components/timer-app.tsx:432-447 | after a pause, begin and an untouched commit set duration = remaining = the paused seconds, clamped |
| TimerApp.EnterAppliesTypedText | apps/web/src/components/timer-app.tsx:437-447 | for any typed text, Enter applies its parsed value with its label, or keeps the duration and shows its label when it does not parse |
| TimerApp.EscapeDiscardsTypedText | apps/web/src/components/timer-app.tsx:449-452 | for any typed text, Escape keeps the duration and seconds and shows their label |
| TimerApp.EditRejected | apps/web/src/components/timer-app.tsx:437-444 | unparsable text leaves the duration and shows the label again |
| TimerOne.EditBox.constructor | apps/web/src/components/timer-designs/timer-one.tsx:64-65 | the editor starts closed showing "5:00" |
| TimerOne.EditBox.Begin | apps/web/src/components/timer-designs/timer-one.tsx:74-77 | opens on the hook's label |
| TimerOne.EditBox.Type | apps/web/src/components/timer-designs/timer-one.tsx:449 | the box holds the typed text |
| TimerOne.EditBox.Commit | apps/web/src/components/timer-designs/timer-one.tsx:79-89 | a parsed value goes to the hook's setDuration and is shown formatted; text that does not parse shows the label and leaves the timer untouched |
| TimerOne.EditBox.Cancel | apps/web/src/components/timer-designs/timer-one.tsx:91-94 | closes the editor showing the label |
| TimerOne.EditBox.Key | apps/web/src/components/timer-designs/timer-one.tsx:451-454 | Enter has the outcome of the commit on both branches; Escape closes on the label with the timer unchanged; any other key changes nothing |
| TimerOne.EnterAppliesTypedText | apps/web/src/components/timer-designs/timer-one.tsx:79-89 | for any typed text, Enter gives the hook its parsed value and shows it, or leaves the timer and shows its label |
| TimerOne.EscapeDiscardsTypedText | apps/web/src/components/timer-designs/timer-one.tsx:91-94 | for any typed text, Escape leaves the timer and shows its label |
| TimerOne.BeginCommitUnchanged | apps/web/src/components/timer-designs/timer-one.tsx:74-89 | begin and an untouched commit set the duration to clamp(remaining, 10, 14400) for every remaining value |
| TimerOne.CommitRejectedWhileRunning | apps/web/src/components/timer-designs/timer-one.tsx:79-84 | an unparsable commit leaves a running countdown running with its seconds |
| TimerOne.SliderKeyTarget | apps/web/src/components/timer-designs/timer-one.tsx:199-230 | the six keys request r+1, r-1, r+10, r-10, the duration and 0; any other key requests nothing |
| TimerOne.SliderKeysUndo | apps/web/src/components/timer-designs/timer-one.tsx:203-216 | ArrowRight undoes ArrowLeft and PageDown undoes PageUp |
| TimerOne.ScrubTarget | apps/web/src/components/timer-designs/timer-one.tsx:136-150 | nothing without a track, a duration or a track width; otherwise a value in [0, duration] |
| TimerOne.ScrubRatio | apps/web/src/components/timer-designs/timer-one.tsx:145 | the pointer's position along the track, in [0, 1] |
| TimerOne.RemainingAt | apps/web/src/components/timer-designs/timer-one.tsx:146-147 | the remaining time left by a spent share is in [0, duration] |
| TimerOne.ScrubMonotone | apps/web/src/components/timer-designs/timer-one.tsx:136-150 | further right never asks for more time |
| TimerOne.ScrubEdges | apps/web/src/components/timer-designs/timer-one.tsx:136-150 | at or before the track's start the full duration, at or past its end zero |
| TimerOne.SliderDrag.PointerDown | apps/web/src/components/timer-designs/timer-one.tsx:158-167 | a non-main mouse button does nothing; otherwise the pointer owns the drag and asks for its position |
| TimerOne.SliderDrag.PointerMove | apps/web/src/components/timer-designs/timer-one.tsx:169-176 | only the owner scrubs |
| TimerOne.SliderDrag.EndDrag | apps/web/src/components/timer-designs/timer-one.tsx:152-156 | only the owner ends the drag |
| TimerOne.SliderDrag.PointerUp | apps/web/src/components/timer-designs/timer-one.tsx:178-183 | release by the owner ends the drag |
| TimerOne.SliderDrag.PointerCancel | apps/web/src/components/timer-designs/timer-one.tsx:185-190 | cancel by the owner ends the drag |
| TimerOne.SliderDrag.LostPointerCapture | apps/web/src/components/timer-designs/timer-one.tsx:192-197 | losing the owner's capture ends the drag |
| TimerOne.DragOwnership | apps/web/src/components/timer-designs/timer-one.tsx:152-197 | another pointer can neither scrub nor end the drag; the owner's release ends it |
| TimerOne.SecondaryButtonIgnored | apps/web/src/components/timer-designs/timer-one.tsx:160 | a right-button press neither asks for a value nor starts a drag |
| TimerOne.Elapsed | apps/web/src/components/timer-designs/timer-one.tsx:239 | in [0, d], and exactly d - r when r is in range |
| TimerOne.ElapsedPercent | apps/web/src/components/timer-designs/timer-one.tsx:240-243 | in [0, 100] |
| TimerOne.ElapsedPercentIsProgress | apps/web/src/components/timer-designs/timer-one.tsx:240-243 | the bar's percentage equals the hook's progress value for all inputs |
| TimerOne.SegmentsOf | apps/web/src/components/timer-designs/timer-one.tsx:244-246 | red <= 10, yellow <= 60, all three >= 0 and summing to d for d >= 0; yellow only after a full red and green only after a full yellow |
| TimerOne.SegmentPercentsFill | apps/web/src/components/timer-designs/timer-one.tsx:247-251 | with a positive duration the three percentages sum to 100 |
| TimerOne.AccentOf | apps/web/src/components/timer-designs/timer-one.tsx:232-237 | red for final-ten and complete, yellow for final-minute, green otherwise |
| TimerOne.AccentMatchesSegment | apps/web/src/components/timer-designs/timer-one.tsx:232-246 | the accent is red exactly in the last 10 s, yellow for 11..60 s, green above |
| TimerOne.PhaseOf | apps/web/src/components/timer-designs/timer-one.tsx:307 | running first, then just completed, then idle |
| TimerOne.StatusLabel | apps/web/src/components/timer-designs/timer-one.tsx:307 | RUNNING, DONE or IDLE by that order |
| TimerOne.ButtonLabel | apps/web/src/components/timer-designs/timer-one.tsx:874 | PAUSE, RESTART or START by the same order |
| TimerOne.LabelsAgree | apps/web/src/components/timer-designs/timer-one.tsx:307 | the status and the button always name the same phase |
| TimerOne.CeilMinutes | apps/web/src/components/timer-designs/timer-one.tsx:509 | `Math.ceil(r / 60)`: the least m with m*60 >= r |
| TimerOne.Caption | apps/web/src/components/timer-designs/timer-one.tsx:508-510 | "TIME IS UP" at or below zero; otherwise a numeral reading ceil(r/60) followed by " min remaining" |
| TimerOneB.SelectThenStart | apps/web/src/components/timer-designs/timer-one-b.tsx:196 | a chosen preset is highlighted, another preset is not, and starting removes the highlight |
| TimerOneB.CommitHighlightsPreset | apps/web/src/components/timer-designs/timer-one-b.tsx:64-74 | typing a preset's duration label and committing highlights that preset |
| TimerOneB.StatusLabel | apps/web/src/components/timer-designs/timer-one-b.tsx:173 | Active, Done or Ready, running first |
| TimerOneB.ButtonLabel | apps/web/src/components/timer-designs/timer-one-b.tsx:569 | Pause, Restart or Start by the same order |
| TimerOneB.LabelsAgree | apps/web/src/components/timer-designs/timer-one-b.tsx:173 | status and button name the same phase, the same as in the first design |
| TimerOneB.Caption | apps/web/src/components/timer-designs/timer-one-b.tsx:316-318 | "Time elapsed" at or below zero; otherwise a numeral reading ceil(r/60) followed by " minutes remaining" |

The three copies of `parseEditableTime` cite `timer-app.tsx` above. The copies are `timer-one.tsx:27-45` and `timer-one-b.tsx:20-33`, and they are the same function up to formatting and local names. For example, `.map(Number)` stands in for `.map((part) => Number(part))` and `total` for `totalSeconds`. The two behave alike because `Number` reads only its first argument. The same holds for `fmtStep`/`fmtSigned`:
- `timer-one.tsx:19-25` and `timer-one-b.tsx:12-18` are the same as `formatAdjustStep`/`formatSignedAdjustLabel`, which is modelled as `TimerApp.FormatAdjustStep` and `TimerApp.FormatSignedAdjustLabel`.
- The editors of the two designs (`timer-one.tsx:74-94`, `timer-one-b.tsx:59-79`) are both `TimerOne.EditBox`.

Some definitions carry no contract of their own and are given meaning by the lemmas of the rows above:
- `EditableTime.Trim`, `Split`, `NumberOf`, `Acceptable` and `TotalSeconds` (`timer-app.tsx:76-98`), by the Trim, Split, Number and Parse lemmas;
- `Storage.PresetOk`, `SettingsOk` and `SnapshotOk` (`storage.ts:6-28`), the schema, by `LoadLocalState`, `RawRoundTrip` and `DefaultsOk`;
- `TimerOne.SegmentPercents` (`timer-one.tsx:248-251`), by `SegmentPercentsFill`;
- `TimerOneB.PresetActive` (`timer-one-b.tsx:196`), by `SelectThenStart` and `CommitHighlightsPreset`.

## Left out

- Audio (`playCompletionSound`, `unlockAudioContext`): the engines return the requested sound and volume as a `Cue` instead of playing it.
- Scheduling (`setInterval`, `requestAnimationFrame`, `visibilitychange`): each tick or sync is one call with `now`, and callers decide when.
- React batching and stale closures: each callback is one atomic state update that reads the current state.
- `useTimer`'s stale `prev ?? Date.now()` for the target cannot fire while the target is present, and it is kept as written.
- The `completed` latch of `TimerApp` lives in one run of the watching effect (`timer-app.tsx:310-339`). That effect re-runs, with a fresh latch, whenever the running flag, the target, the sound or the volume changes. So a start, an added minute while running, or a sound change while running all give a fresh latch. The model keeps the latch as a field that `StartTimer` clears. This is equivalent because a running engine always has the latch clear (`Engine.Valid`): a re-run while running starts from the value it already has.
- JSX, styles, hover handlers, menus, fullscreen, `matchMedia`, theme application to the document, and the `CircleProgress` SVG geometry (floating point and `Math.PI`).
- The effect of `setRemaining` in the first design: that function is not part of what `useTimer` returns, so the slider only computes the value it requests.
- The segment percentages ignore floating-point rounding; percentages are exact reals.
- EditableTime.NumberOf: JavaScript `Number(token)` is modelled for plain decimal numerals only, meaning an optional sign, digits and an optional fraction, surrounding white space, and an empty token reading as 0.
  - Exponents (`1e2`), hexadecimal, binary and octal prefixes and the literal `Infinity` are all read as not-a-number.
  - The source reads exponents and prefixes as numbers.
  - `Infinity` is rejected either way.
- EditableTime.ParseEditableTime: numbers are exact reals. Overflow to infinity and floating-point rounding of long fractions are not modelled.
- TimerApp.FormatAdjustStep: requires seconds below 60 or a whole number of minutes. JavaScript would print a fraction of minutes for other values, and every menu step meets the requirement.
- Storage.LoadLocalState: the browser storage is modelled as never throwing.
  - In the source, `getItem` (`storage.ts:35`) sits outside the `try`. When the browser blocks storage, its SecurityError escapes `loadLocalState`.
  - The load callback (`timer-app.tsx:253-264`) then stops before `setLoaded(true)`. So the component runs on its initial state and never saves.
  - The model's `Engine.Mount` always loads and sets `loaded`.
- Storage.SaveTo: a `setItem` that throws (`storage.ts:67`, a full quota or blocked storage) is not modelled. In the model the write of a valid snapshot always takes effect, and `SaveThenLoad` relies on that.
- Storage: `JSON.parse` failures and JSON values of the wrong type are one `Malformed` case.
  - Zod's stripping of unknown keys is not modelled.
  - The `typeof window === "undefined"` guards of server rendering are not modelled either. There, loading gives the defaults and saving does nothing.
- Preset name lengths are counted in Unicode characters rather than UTF-16 code units.
- `createdAt`/`updatedAt` are opaque strings. The load-time ISO timestamp of the default presets is the `stamp` parameter.
- Core.DefaultPresets: uses one `stamp` for all five presets. The source calls `new Date().toISOString()` once per preset inside the `map`, so its presets can carry timestamps that differ by a millisecond. Clock readings are not modelled.
- Timestamps and seconds are unbounded integers. The source's durations are whole seconds wherever they come from the interface, so fractional seconds are not modelled.
