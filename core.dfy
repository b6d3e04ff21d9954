/**
 * The shared core package: types, defaults and the pure time arithmetic
 * (clamping, the countdown label, warning levels, remaining time from a
 * target timestamp and the progress percentage).
 */
module Core {
  import opened Digits

  datatype ThemeMode = Light | Dark | HighContrast
  datatype SoundMode = Bell | Chime | Silent

  /** `createdAt` and `updatedAt` are ISO timestamps, kept as opaque strings. */
  datatype Preset = Preset(
    id: string,
    name: string,
    durationSeconds: int,
    sortOrder: int,
    createdAt: string,
    updatedAt: string)

  datatype AppSettings = AppSettings(
    theme: ThemeMode,
    sound: SoundMode,
    volume: real,
    finalMinuteWarnings: bool,
    autoFullscreenPrompt: bool,
    extraLargeFont: bool)

  /** A request to play the completion sound with a mode and a volume. */
  datatype Cue = Cue(sound: SoundMode, volume: real)

  datatype WarningLevel = Normal | FinalMinute | FinalTen | Complete

  /** The bounds every component applies to a duration: 10 s and 4 h. */
  const MinSeconds: int := 10
  const MaxSeconds: int := 4 * 60 * 60

  const DefaultPresetMinutes: seq<nat> := [2, 5, 10, 15, 20]

  /** One default preset, built from its length in minutes and its position. */
  function DefaultPreset(minutes: nat, index: nat, stamp: string): Preset {
    Preset("preset-" + NatToString(minutes), NatToString(minutes) + " min",
           minutes * 60, index, stamp, stamp)
  }

  /** `DEFAULT_PRESETS`; `stamp` stands for the `new Date().toISOString()` of the module load. */
  function DefaultPresets(stamp: string): (ps: seq<Preset>)
    ensures |ps| == |DefaultPresetMinutes|
  {
    seq(|DefaultPresetMinutes|, i requires 0 <= i < |DefaultPresetMinutes| =>
      DefaultPreset(DefaultPresetMinutes[i], i, stamp))
  }

  const DefaultSettings: AppSettings := AppSettings(Light, Chime, 0.6, true, false, false)

  function Min(a: int, b: int): int { if a <= b then a else b }
  function Max(a: int, b: int): int { if a >= b then a else b }

  /** `clamp(value, min, max)` = `Math.min(Math.max(value, min), max)`. */
  function Clamp(value: int, lo: int, hi: int): (r: int)
    ensures lo <= hi ==> lo <= r <= hi
    ensures lo <= value <= hi ==> r == value
    ensures value < lo <= hi ==> r == lo
    ensures hi < value ==> r == hi
    ensures hi < lo ==> r == hi
  {
    Min(Max(value, lo), hi)
  }

  /** The same clamp on exact reals (the source's floating-point uses). */
  function ClampReal(value: real, lo: real, hi: real): (r: real)
    ensures lo <= hi ==> lo <= r <= hi
    ensures lo <= value <= hi ==> r == value
    ensures value < lo <= hi ==> r == lo
    ensures hi < value ==> r == hi
  {
    var m := if value >= lo then value else lo;
    if m <= hi then m else hi
  }

  /** Hours, minutes and seconds of a non-negative count of seconds. */
  datatype ClockFields = ClockFields(hours: nat, minutes: nat, seconds: nat)

  /** Splits `max(0, totalSeconds)` into hours, minutes below 60 and seconds below 60. */
  function Fields(totalSeconds: int): (f: ClockFields)
    ensures f.minutes < 60 && f.seconds < 60
    ensures f.hours * 3600 + f.minutes * 60 + f.seconds == Max(0, totalSeconds)
    ensures f.hours > 0 <==> totalSeconds >= 3600
  {
    var clamped := Max(0, totalSeconds);
    ClockFields(clamped / 3600, (clamped % 3600) / 60, clamped % 60)
  }

  /** `formatTimer`: `MM:SS`, or `HH:MM:SS` from one hour on; negative input shows as zero. */
  function FormatTimer(totalSeconds: int): (text: string)
    ensures totalSeconds < 3600 ==> |text| == 5 && text[2] == ':'
    ensures totalSeconds >= 3600 ==> |text| >= 8 && text[|text| - 3] == ':' && text[|text| - 6] == ':'
    ensures forall i :: 0 <= i < |text| ==> IsDigit(text[i]) || text[i] == ':'
  {
    var f := Fields(totalSeconds);
    if f.hours > 0 then
      ClockField(f.hours) + ":" + ClockField(f.minutes) + ":" + ClockField(f.seconds)
    else
      ClockField(f.minutes) + ":" + ClockField(f.seconds)
  }

  /** `getWarningLevel`. */
  function GetWarningLevel(remainingSeconds: int, warningsEnabled: bool): (w: WarningLevel)
    ensures w == Complete <==> remainingSeconds <= 0
    ensures !warningsEnabled ==> w == Complete || w == Normal
    ensures warningsEnabled ==> (w == FinalTen <==> 0 < remainingSeconds <= 10)
    ensures warningsEnabled ==> (w == FinalMinute <==> 10 < remainingSeconds <= 60)
    ensures warningsEnabled ==> (w == Normal <==> remainingSeconds > 60)
  {
    if remainingSeconds <= 0 then Complete
    else if !warningsEnabled then Normal
    else if remainingSeconds <= 10 then FinalTen
    else if remainingSeconds <= 60 then FinalMinute
    else Normal
  }

  /** How severe a warning level is, from `normal` (0) to `complete` (3). */
  function Severity(w: WarningLevel): nat {
    match w
    case Normal => 0
    case FinalMinute => 1
    case FinalTen => 2
    case Complete => 3
  }

  /** `Math.ceil(x / 1000)` for an integer number of milliseconds x. */
  function CeilThousandth(x: int): (c: int)
    ensures c * 1000 >= x && (c - 1) * 1000 < x
  {
    -((-x) / 1000)
  }

  /**
   * `remainingFromTarget`: whole seconds left until `targetMs` at `nowMs`,
   * rounded up and never negative: the least r >= 0 with r * 1000 >= targetMs - nowMs.
   */
  function RemainingFromTarget(targetMs: int, nowMs: int): (r: int)
    ensures r >= 0
    ensures r * 1000 >= targetMs - nowMs
    ensures r > 0 ==> (r - 1) * 1000 < targetMs - nowMs
  {
    Max(0, CeilThousandth(targetMs - nowMs))
  }

  /** `progressPercent`: elapsed share of the duration in percent, kept to [0, 100]. */
  function ProgressPercent(durationSeconds: int, remainingSeconds: int): (p: real)
    ensures 0.0 <= p <= 100.0
    ensures durationSeconds <= 0 ==> p == 0.0
    ensures durationSeconds > 0 && remainingSeconds >= durationSeconds ==> p == 0.0
    ensures durationSeconds > 0 && remainingSeconds <= 0 ==> p == 100.0
    ensures durationSeconds > 0 && 0 <= remainingSeconds <= durationSeconds ==>
      p * durationSeconds as real == 100.0 * (durationSeconds - remainingSeconds) as real
  {
    if durationSeconds <= 0 then 0.0
    else
      var elapsed := durationSeconds - remainingSeconds;
      ProgressOf(elapsed as real, durationSeconds as real)
  }

  /** `clamp((elapsed / duration) * 100, 0, 100)` for a positive duration. */
  function ProgressOf(elapsed: real, duration: real): (p: real)
    requires duration > 0.0
    ensures 0.0 <= p <= 100.0
    ensures elapsed <= 0.0 ==> p == 0.0
    ensures elapsed >= duration ==> p == 100.0
    ensures 0.0 <= elapsed <= duration ==> p * duration == 100.0 * elapsed
  {
    var ratio := elapsed / duration;
    assert elapsed <= 0.0 ==> ratio <= 0.0;
    assert elapsed >= duration ==> ratio >= 1.0;
    assert 0.0 <= elapsed <= duration ==> 0.0 <= ratio <= 1.0 && ratio * duration == elapsed;
    ClampReal(ratio * 100.0, 0.0, 100.0)
  }

  // ---- Properties ----

  /** Severity never decreases as the remaining time decreases. */
  lemma WarningMonotone(a: int, b: int, warningsEnabled: bool)
    requires a <= b
    ensures Severity(GetWarningLevel(a, warningsEnabled)) >= Severity(GetWarningLevel(b, warningsEnabled))
  {
  }

  /** Zero exactly when the target has been reached. */
  lemma RemainingZeroIff(targetMs: int, nowMs: int)
    ensures RemainingFromTarget(targetMs, nowMs) == 0 <==> nowMs >= targetMs
  {
  }

  /** A target set R whole seconds ahead reads back as R. */
  lemma RemainingOfExactTarget(nowMs: int, r: nat)
    ensures RemainingFromTarget(nowMs + r * 1000, nowMs) == r
  {
  }

  /** Later instants never show more time left. */
  lemma RemainingNonIncreasing(targetMs: int, t1: int, t2: int)
    requires t1 <= t2
    ensures RemainingFromTarget(targetMs, t2) <= RemainingFromTarget(targetMs, t1)
  {
  }

  /** The label of a negative count is that of zero, "00:00". */
  lemma FormatNegative(totalSeconds: int)
    requires totalSeconds <= 0
    ensures FormatTimer(totalSeconds) == "00:00"
  {
  }

  /** Below one hour the label reads back as minutes and seconds of the
      count (made non-negative), each field under 60. */
  lemma FormatTimerReadBackShort(totalSeconds: int)
    requires totalSeconds < 3600
    ensures var text := FormatTimer(totalSeconds);
      && AllDigits(text[..2]) && AllDigits(text[3..])
      && DigitsValue(text[..2]) < 60 && DigitsValue(text[3..]) < 60
      && DigitsValue(text[..2]) * 60 + DigitsValue(text[3..]) == Max(0, totalSeconds)
  {
    var f := Fields(totalSeconds);
    var mm, ss := ClockField(f.minutes), ClockField(f.seconds);
    var text := FormatTimer(totalSeconds);
    assert text == mm + ":" + ss;
    assert text[..2] == mm && text[3..] == ss;
    ClockFieldValue(f.minutes);
    ClockFieldValue(f.seconds);
  }

  /** From one hour on the label reads back as hours, minutes and seconds of
      the count, minutes and seconds under 60. */
  lemma FormatTimerReadBackLong(totalSeconds: int)
    requires totalSeconds >= 3600
    ensures var text := FormatTimer(totalSeconds); var n := |text|;
      && n >= 8 && (totalSeconds < 360000 ==> n == 8)
      && AllDigits(text[..n - 6]) && AllDigits(text[n - 5..n - 3]) && AllDigits(text[n - 2..])
      && DigitsValue(text[n - 5..n - 3]) < 60 && DigitsValue(text[n - 2..]) < 60
      && DigitsValue(text[..n - 6]) * 3600 + DigitsValue(text[n - 5..n - 3]) * 60 + DigitsValue(text[n - 2..])
         == totalSeconds
  {
    var f := Fields(totalSeconds);
    var hh, mm, ss := ClockField(f.hours), ClockField(f.minutes), ClockField(f.seconds);
    var text := FormatTimer(totalSeconds);
    var n := |text|;
    assert text == hh + ":" + mm + ":" + ss;
    assert n == |hh| + 6;
    if totalSeconds < 360000 {
      assert f.hours < 100;
    }
    assert text[..n - 6] == hh && text[n - 5..n - 3] == mm && text[n - 2..] == ss;
    ClockFieldValue(f.hours);
    ClockFieldValue(f.minutes);
    ClockFieldValue(f.seconds);
  }

  lemma FormatExamples()
    ensures FormatTimer(65) == "01:05"
    ensures FormatTimer(3661) == "01:01:01"
    ensures FormatTimer(-5) == "00:00"
  {
  }

  /** The five default presets: 2, 5, 10, 15 and 20 minutes in that order. */
  lemma DefaultPresetsTable(stamp: string)
    ensures var ps := DefaultPresets(stamp);
      |ps| == 5
      && ps[0] == Preset("preset-2", "2 min", 120, 0, stamp, stamp)
      && ps[1] == Preset("preset-5", "5 min", 300, 1, stamp, stamp)
      && ps[2] == Preset("preset-10", "10 min", 600, 2, stamp, stamp)
      && ps[3] == Preset("preset-15", "15 min", 900, 3, stamp, stamp)
      && ps[4] == Preset("preset-20", "20 min", 1200, 4, stamp, stamp)
  {
  }
}
