// The timer engine inside the main TimerApp component: the countdown state,
// the settings and presets it loads and saves, and the inline time editor.
// It differs from the useTimer hook: start restarts from the duration when no
// time is left, pause recomputes the remaining seconds, presets are clamped,
// and the completion sound uses the chosen mode and volume.
module TimerApp {
  import opened Wrappers
  import opened Digits
  import opened Core
  import opened EditableTime
  import opened Storage

  /** The steps of the add/remove time menus, in seconds. */
  const AdjustMenuSteps: seq<nat> := [1, 10, 30, 60, 5 * 60, 10 * 60, 20 * 60, 30 * 60]
  const QuickAdjustSeconds: nat := 60

  datatype AdjustSide = Minus | Plus

  /** `formatAdjustStep`: seconds below a minute as "Ns", whole minutes as "Nm". */
  function FormatAdjustStep(seconds: nat): (text: string)
    requires seconds < 60 || seconds % 60 == 0
    ensures |text| >= 2 && AllDigits(text[..|text| - 1])
    ensures text[|text| - 1] == (if seconds < 60 then 's' else 'm')
    ensures DigitsValue(text[..|text| - 1]) * (if seconds < 60 then 1 else 60) == seconds
  {
    var n := if seconds < 60 then seconds else seconds / 60;
    var unit := if seconds < 60 then 's' else 'm';
    NatToStringValue(n);
    assert (NatToString(n) + [unit])[..|NatToString(n)|] == NatToString(n);
    NatToString(n) + [unit]
  }

  /** `formatSignedAdjustLabel`: the step with "+" or "-" in front. */
  function FormatSignedAdjustLabel(side: AdjustSide, seconds: nat): (text: string)
    requires seconds < 60 || seconds % 60 == 0
    ensures |text| >= 3 && text[0] == (if side == Plus then '+' else '-')
    ensures text[1..] == FormatAdjustStep(seconds)
  {
    [if side == Plus then '+' else '-'] + FormatAdjustStep(seconds)
  }

  /** Every menu step is below a minute or a whole number of minutes. */
  lemma MenuStepsFormattable(i: nat)
    requires i < |AdjustMenuSteps|
    ensures AdjustMenuSteps[i] < 60 || AdjustMenuSteps[i] % 60 == 0
  {
  }

  /** The labels of the add-time menu. */
  lemma PlusMenuLabels()
    ensures FormatSignedAdjustLabel(Plus, 1) == "+1s"
    ensures FormatSignedAdjustLabel(Plus, 10) == "+10s"
    ensures FormatSignedAdjustLabel(Plus, 30) == "+30s"
    ensures FormatSignedAdjustLabel(Plus, 60) == "+1m"
    ensures FormatSignedAdjustLabel(Plus, 300) == "+5m"
    ensures FormatSignedAdjustLabel(Plus, 600) == "+10m"
    ensures FormatSignedAdjustLabel(Plus, 1200) == "+20m"
    ensures FormatSignedAdjustLabel(Plus, 1800) == "+30m"
  {
    SmallNumerals();
    SecondsLabel(1, "1");
    SecondsLabel(10, "10");
    SecondsLabel(30, "30");
    MinutesLabel(1, "1");
    MinutesLabel(5, "5");
    MinutesLabel(10, "10");
    MinutesLabel(20, "20");
    MinutesLabel(30, "30");
  }

  lemma SecondsLabel(seconds: nat, numeral: string)
    requires seconds < 60 && NatToString(seconds) == numeral
    ensures FormatSignedAdjustLabel(Plus, seconds) == ['+'] + numeral + ['s']
  {
  }

  lemma MinutesLabel(minutes: nat, numeral: string)
    requires minutes > 0 && NatToString(minutes) == numeral
    ensures FormatSignedAdjustLabel(Plus, minutes * 60) == ['+'] + numeral + ['m']
  {
    assert (minutes * 60) / 60 == minutes;
  }

  lemma SmallNumerals()
    ensures NatToString(1) == "1" && NatToString(5) == "5"
    ensures NatToString(10) == "10" && NatToString(20) == "20" && NatToString(30) == "30"
  {
    assert NatToString(10) == NatToString(1) + "0";
    assert NatToString(20) == NatToString(2) + "0";
    assert NatToString(30) == NatToString(3) + "0";
  }

  /** Which field of the settings `updateSetting` writes. */
  datatype SettingKey = Theme | Sound | Volume | FinalMinuteWarnings | AutoFullscreenPrompt | ExtraLargeFont

  /** A value of one of the settings' fields. */
  datatype SettingValue = ThemeValue(theme: ThemeMode) | SoundValue(sound: SoundMode)
    | VolumeValue(volume: real) | FlagValue(flag: bool)

  function Get(s: AppSettings, k: SettingKey): SettingValue {
    match k
    case Theme => ThemeValue(s.theme)
    case Sound => SoundValue(s.sound)
    case Volume => VolumeValue(s.volume)
    case FinalMinuteWarnings => FlagValue(s.finalMinuteWarnings)
    case AutoFullscreenPrompt => FlagValue(s.autoFullscreenPrompt)
    case ExtraLargeFont => FlagValue(s.extraLargeFont)
  }

  /** The value has the type of the field it is written to. */
  predicate Fits(k: SettingKey, v: SettingValue) {
    match k
    case Theme => v.ThemeValue?
    case Sound => v.SoundValue?
    case Volume => v.VolumeValue?
    case _ => v.FlagValue?
  }

  /** `{ ...prev, [key]: value }`: field `k` takes the value, the others keep theirs. */
  function WithSetting(s: AppSettings, k: SettingKey, v: SettingValue): (r: AppSettings)
    requires Fits(k, v)
    ensures Get(r, k) == v
    ensures forall j: SettingKey :: j != k ==> Get(r, j) == Get(s, j)
  {
    match k
    case Theme => s.(theme := v.theme)
    case Sound => s.(sound := v.sound)
    case Volume => s.(volume := v.volume)
    case FinalMinuteWarnings => s.(finalMinuteWarnings := v.flag)
    case AutoFullscreenPrompt => s.(autoFullscreenPrompt := v.flag)
    case ExtraLargeFont => s.(extraLargeFont := v.flag)
  }

  /** The sound toggle: silent becomes the chime, any other mode silent. */
  function ToggledSound(m: SoundMode): (r: SoundMode)
    ensures r == Silent <==> m != Silent
    ensures r != Bell
  {
    if m == Silent then Chime else Silent
  }

  /** Two toggles from a sounding mode end on the chime, not on the mode
      they started from. */
  lemma ToggleTwice(m: SoundMode)
    ensures ToggledSound(ToggledSound(m)) == (if m == Silent then Silent else Chime)
  {
  }

  class Engine {
    var presets: seq<Preset>
    var settings: AppSettings
    var duration: int
    var remaining: int
    var target: Option<int>
    var running: bool
    var loaded: bool
    var justCompleted: bool
    /** The latch of the current completion-watching effect run. */
    var completed: bool
    var editing: bool
    var timeInput: string

    /** The duration is within the duration range, the remaining seconds are
        not negative, a running countdown has a target and has not completed. */
    ghost predicate Valid()
      reads this
    {
      && MinSeconds <= duration <= MaxSeconds
      && remaining >= 0
      && (running <==> target.Some?)
      && (running ==> !justCompleted && !completed)
    }

    constructor (stamp: string)
      ensures Valid()
      ensures presets == DefaultPresets(stamp) && settings == DefaultSettings
      ensures duration == 300 && remaining == 300 && target == None && !running
      ensures !loaded && !justCompleted && !completed && !editing && timeInput == "5:00"
    {
      presets := DefaultPresets(stamp);
      settings := DefaultSettings;
      duration := 300;
      remaining := 300;
      target := None;
      running := false;
      loaded := false;
      justCompleted := false;
      completed := false;
      editing := false;
      timeInput := "5:00";
    }

    function Label(): (text: string)
      reads this
      ensures remaining < 3600 ==> |text| == 5
    {
      FormatTimer(remaining)
    }

    function Progress(): (p: real)
      reads this
      ensures 0.0 <= p <= 100.0
      ensures duration > 0 && remaining <= 0 ==> p == 100.0
    {
      ProgressPercent(duration, remaining)
    }

    /** The warning level follows the final-minute setting. */
    function Warning(): (w: WarningLevel)
      reads this
      ensures (w == Complete) == (remaining <= 0)
      ensures !settings.finalMinuteWarnings && remaining > 0 ==> w == Normal
    {
      GetWarningLevel(remaining, settings.finalMinuteWarnings)
    }

    /** The mount effect: load the stored presets and settings and prepare the
        first preset's duration. */
    method Mount(store: LocalStore, stamp: string)
      requires Valid()
      modifies this
      ensures Valid()
      ensures LocalState(presets, settings) == LoadLocalState(store.item, stamp)
      ensures duration == presets[0].durationSeconds && remaining == duration
      ensures timeInput == FormatTimer(duration) && loaded
      ensures running == old(running) && target == old(target)
      ensures justCompleted == old(justCompleted) && completed == old(completed)
      ensures editing == old(editing)
    {
      var state := store.Load(stamp);
      StatePresetDuration(state, 0);
      // A loaded preset list is never empty, so the fallback to the first
      // default preset is unreachable.
      var first := state.presets[0];
      presets := state.presets;
      settings := state.settings;
      duration := first.durationSeconds;
      remaining := first.durationSeconds;
      timeInput := FormatTimer(first.durationSeconds);
      loaded := true;
    }

    /** The save effect: nothing before the first load, then the presets
        and settings are written when they pass the schema. */
    method Persist(store: LocalStore)
      modifies store
      ensures store.item == if loaded then SaveTo(old(store.item), LocalState(presets, settings))
        else old(store.item)
    {
      if loaded {
        store.Save(LocalState(presets, settings));
      }
    }

    method UpdateSetting(k: SettingKey, v: SettingValue)
      requires Valid() && Fits(k, v)
      modifies this
      ensures Valid()
      ensures settings == WithSetting(old(settings), k, v)
      ensures duration == old(duration) && remaining == old(remaining) && target == old(target)
      ensures running == old(running) && presets == old(presets)
      ensures justCompleted == old(justCompleted) && completed == old(completed)
      ensures editing == old(editing) && timeInput == old(timeInput) && loaded == old(loaded)
    {
      settings := WithSetting(settings, k, v);
    }

    method ToggleSoundMode()
      requires Valid()
      modifies this
      ensures Valid()
      ensures settings == old(settings).(sound := ToggledSound(old(settings).sound))
      ensures duration == old(duration) && remaining == old(remaining) && target == old(target)
      ensures running == old(running) && presets == old(presets)
      ensures justCompleted == old(justCompleted) && completed == old(completed)
      ensures editing == old(editing) && timeInput == old(timeInput) && loaded == old(loaded)
    {
      settings := settings.(sound := ToggledSound(settings.sound));
    }

    /** Set a new duration, clamped: stops the countdown, fills it, ends
        editing and shows the new label. */
    method ApplyDuration(seconds: int)
      requires Valid()
      modifies this
      ensures Valid()
      ensures duration == Clamp(seconds, MinSeconds, MaxSeconds) && remaining == duration
      ensures !running && target == None && !justCompleted && !editing
      ensures timeInput == FormatTimer(duration)
      ensures completed == old(completed) && settings == old(settings) && presets == old(presets)
      ensures loaded == old(loaded)
    {
      var clamped := Clamp(seconds, MinSeconds, MaxSeconds);
      duration := clamped;
      remaining := clamped;
      running := false;
      target := None;
      justCompleted := false;
      editing := false;
      timeInput := FormatTimer(clamped);
    }

    method ApplyPreset(preset: Preset)
      requires Valid()
      modifies this
      ensures Valid()
      ensures duration == Clamp(preset.durationSeconds, MinSeconds, MaxSeconds) && remaining == duration
      ensures !running && target == None && !justCompleted && !editing
      ensures timeInput == FormatTimer(duration)
      ensures completed == old(completed) && settings == old(settings) && presets == old(presets)
      ensures loaded == old(loaded)
    {
      ApplyDuration(preset.durationSeconds);
    }

    /** Resume from the remaining seconds, or restart from the duration when
        none are left. A new watching effect starts with its latch clear. */
    method StartTimer(now: int)
      requires Valid()
      modifies this
      ensures Valid()
      ensures old(remaining) > 0 ==> remaining == old(remaining)
      ensures old(remaining) <= 0 ==> remaining == duration
      ensures remaining > 0
      ensures running && target == Some(now + remaining * 1000) && !justCompleted && !completed
      ensures duration == old(duration) && settings == old(settings) && presets == old(presets)
      ensures editing == old(editing) && timeInput == old(timeInput) && loaded == old(loaded)
    {
      var startFrom := if remaining > 0 then remaining else duration;
      remaining := startFrom;
      target := Some(now + startFrom * 1000);
      running := true;
      justCompleted := false;
      completed := false;
    }

    /** Freeze the countdown at the seconds left now; nothing happens when idle. */
    method PauseTimer(now: int)
      requires Valid()
      modifies this
      ensures Valid()
      ensures !old(running) ==> remaining == old(remaining)
      ensures old(running) ==> remaining == RemainingFromTarget(old(target).value, now)
      ensures !running && target == None
      ensures duration == old(duration) && justCompleted == old(justCompleted)
      ensures completed == old(completed) && settings == old(settings) && presets == old(presets)
      ensures editing == old(editing) && timeInput == old(timeInput) && loaded == old(loaded)
    {
      if !running || target.None? {
        return;
      }
      remaining := RemainingFromTarget(target.value, now);
      target := None;
      running := false;
    }

    method ResetTimer()
      requires Valid()
      modifies this
      ensures Valid()
      ensures remaining == duration && duration == old(duration)
      ensures !running && target == None && !justCompleted && !editing
      ensures timeInput == FormatTimer(duration)
      ensures completed == old(completed) && settings == old(settings) && presets == old(presets)
      ensures loaded == old(loaded)
    {
      remaining := duration;
      target := None;
      running := false;
      justCompleted := false;
      editing := false;
      timeInput := FormatTimer(duration);
    }

    /** Duration and remaining seconds are clamped independently; a running
        countdown's target moves by the full amount. */
    method AddTime(seconds: int, now: int)
      requires Valid()
      modifies this
      ensures Valid()
      ensures duration == Clamp(old(duration) + seconds, MinSeconds, MaxSeconds)
      ensures remaining == Clamp(old(remaining) + seconds, 0, MaxSeconds)
      ensures old(running) ==> target == Some(old(target).value + seconds * 1000)
      ensures !old(running) ==> target == old(target)
      ensures running == old(running) && !justCompleted && completed == old(completed)
      ensures settings == old(settings) && presets == old(presets)
      ensures editing == old(editing) && timeInput == old(timeInput) && loaded == old(loaded)
    {
      justCompleted := false;
      duration := Clamp(duration + seconds, MinSeconds, MaxSeconds);
      remaining := Clamp(remaining + seconds, 0, MaxSeconds);
      if running {
        var prev := match target case Some(t) => t case None => now;
        target := Some(prev + seconds * 1000);
      }
    }

    /** One run of the completion-watching callback. It recomputes the
        remaining seconds; when they reach zero the countdown stops and the
        chosen sound is requested at the chosen volume, once per effect run. */
    method SyncRemaining(now: int) returns (cue: Option<Cue>)
      requires Valid()
      modifies this
      ensures Valid()
      ensures !old(running) ==>
        cue == None && remaining == old(remaining) && running == old(running)
        && target == old(target) && justCompleted == old(justCompleted)
        && completed == old(completed)
      ensures old(running) ==> remaining == RemainingFromTarget(old(target).value, now)
      ensures old(running) && remaining > 0 ==>
        cue == None && running && target == old(target) && !completed
      ensures old(running) && remaining == 0 ==>
        cue == Some(Cue(settings.sound, settings.volume))
        && !running && target == None && justCompleted && completed
      ensures duration == old(duration) && settings == old(settings) && presets == old(presets)
      ensures editing == old(editing) && timeInput == old(timeInput) && loaded == old(loaded)
    {
      if !running || target.None? {
        return None;
      }
      var next := RemainingFromTarget(target.value, now);
      remaining := next;
      cue := None;
      if !completed && next == 0 {
        completed := true;
        running := false;
        target := None;
        justCompleted := true;
        cue := Some(Cue(settings.sound, settings.volume));
      }
    }

    /** Open the editor on the current label. */
    method BeginTimeEdit()
      requires Valid()
      modifies this
      ensures Valid()
      ensures editing && timeInput == FormatTimer(remaining)
      ensures duration == old(duration) && remaining == old(remaining) && target == old(target)
      ensures running == old(running) && justCompleted == old(justCompleted)
      ensures completed == old(completed) && settings == old(settings) && presets == old(presets)
      ensures loaded == old(loaded)
    {
      timeInput := FormatTimer(remaining);
      editing := true;
    }

    /** The text box's change handler. */
    method EditInput(text: string)
      requires Valid()
      modifies this
      ensures Valid()
      ensures timeInput == text && editing == old(editing)
      ensures duration == old(duration) && remaining == old(remaining) && target == old(target)
      ensures running == old(running) && justCompleted == old(justCompleted)
      ensures completed == old(completed) && settings == old(settings) && presets == old(presets)
      ensures loaded == old(loaded)
    {
      timeInput := text;
    }

    /** Apply the typed duration; text that does not parse puts the label
        back, closes the editor and changes nothing else. */
    method CommitTimeEdit()
      requires Valid()
      modifies this
      ensures Valid()
      ensures !editing && settings == old(settings) && presets == old(presets)
      ensures completed == old(completed) && loaded == old(loaded)
      ensures ParseEditableTime(old(timeInput)).None? ==>
        timeInput == FormatTimer(old(remaining))
        && duration == old(duration) && remaining == old(remaining) && target == old(target)
        && running == old(running) && justCompleted == old(justCompleted)
      ensures ParseEditableTime(old(timeInput)).Some? ==>
        duration == ParseEditableTime(old(timeInput)).value && remaining == duration
        && !running && target == None && !justCompleted && timeInput == FormatTimer(duration)
    {
      var parsed := ParseEditableTime(timeInput);
      if parsed.None? {
        timeInput := FormatTimer(remaining);
        editing := false;
        return;
      }
      ApplyDuration(parsed.value);
    }

    /** Close the editor and put the label back. */
    method CancelTimeEdit()
      requires Valid()
      modifies this
      ensures Valid()
      ensures !editing && timeInput == FormatTimer(remaining)
      ensures duration == old(duration) && remaining == old(remaining) && target == old(target)
      ensures running == old(running) && justCompleted == old(justCompleted)
      ensures completed == old(completed) && settings == old(settings) && presets == old(presets)
      ensures loaded == old(loaded)
    {
      timeInput := FormatTimer(remaining);
      editing := false;
    }

    /** The editor's keys: Enter commits, Escape cancels, others do nothing. */
    method EditorKey(key: string)
      requires Valid()
      modifies this
      ensures Valid()
      ensures settings == old(settings) && presets == old(presets)
      ensures completed == old(completed) && loaded == old(loaded)
      ensures key != "Enter" ==>
        duration == old(duration) && remaining == old(remaining) && target == old(target)
        && running == old(running) && justCompleted == old(justCompleted)
      ensures key != "Enter" && key != "Escape" ==>
        timeInput == old(timeInput) && editing == old(editing)
      ensures key == "Escape" ==> !editing && timeInput == FormatTimer(remaining)
      ensures key == "Enter" ==> !editing
      ensures key == "Enter" && ParseEditableTime(old(timeInput)).None? ==>
        timeInput == FormatTimer(old(remaining))
        && duration == old(duration) && remaining == old(remaining) && target == old(target)
        && running == old(running) && justCompleted == old(justCompleted)
      ensures key == "Enter" && ParseEditableTime(old(timeInput)).Some? ==>
        duration == ParseEditableTime(old(timeInput)).value && remaining == duration
        && !running && target == None && !justCompleted && timeInput == FormatTimer(duration)
    {
      if key == "Enter" {
        CommitTimeEdit();
      }
      if key == "Escape" {
        CancelTimeEdit();
      }
    }

    /** The primary button: pause while running, start otherwise. */
    method PrimaryButton(now: int)
      requires Valid()
      modifies this
      ensures Valid()
      ensures old(running) ==>
        !running && target == None && remaining == RemainingFromTarget(old(target).value, now)
        && justCompleted == old(justCompleted) && completed == old(completed)
      ensures !old(running) ==>
        running && remaining == (if old(remaining) > 0 then old(remaining) else duration)
        && target == Some(now + remaining * 1000) && !justCompleted && !completed
      ensures duration == old(duration) && settings == old(settings) && presets == old(presets)
      ensures editing == old(editing) && timeInput == old(timeInput) && loaded == old(loaded)
    {
      if running {
        PauseTimer(now);
      } else {
        StartTimer(now);
      }
    }
  }

  /** A run that reaches its end time stops, asks for the chosen sound once,
      and the next start restarts from the full duration. */
  method RunCompleteRestart(seconds: int, t0: int, t1: int, t2: int)
    returns (first: Option<Cue>, second: Option<Cue>, restartedFrom: int, runningAgain: bool)
    requires MinSeconds <= seconds <= MaxSeconds && t1 >= t0 + seconds * 1000
    ensures first == Some(Cue(DefaultSettings.sound, DefaultSettings.volume)) && second == None
    ensures restartedFrom == seconds && runningAgain
  {
    var e := new Engine("");
    e.ApplyDuration(seconds);
    e.StartTimer(t0);
    first := e.SyncRemaining(t1);
    second := e.SyncRemaining(t1 + 250);
    e.StartTimer(t2);
    restartedFrom, runningAgain := e.remaining, e.running;
  }

  /** Pausing mid-run keeps the seconds still to go, rounded up, and
      resuming later continues from them. */
  method PauseMidRun(seconds: int, t0: int, t1: int, t2: int)
    returns (paused: int, resumed: int)
    requires MinSeconds <= seconds <= MaxSeconds && t0 <= t1 < t0 + seconds * 1000
    ensures 0 < paused <= seconds
    ensures paused * 1000 >= t0 + seconds * 1000 - t1
    ensures (paused - 1) * 1000 < t0 + seconds * 1000 - t1
    ensures resumed == paused
  {
    var e := new Engine("");
    e.ApplyDuration(seconds);
    e.StartTimer(t0);
    e.PauseTimer(t1);
    paused := e.remaining;
    e.StartTimer(t2);
    var _ := e.SyncRemaining(t2);
    resumed := e.remaining;
  }

  /** Opening the editor and committing it untouched sets the duration to
      the remaining seconds, clamped into the duration range. */
  method EditUnchanged(seconds: int, t0: int, t1: int) returns (before: int, duration: int, remaining: int)
    requires MinSeconds <= seconds <= MaxSeconds && t0 <= t1
    ensures before == RemainingFromTarget(t0 + seconds * 1000, t1)
    ensures duration == Clamp(before, MinSeconds, MaxSeconds) && remaining == duration
  {
    var e := new Engine("");
    e.ApplyDuration(seconds);
    e.StartTimer(t0);
    e.PauseTimer(t1);
    before := e.remaining;
    e.BeginTimeEdit();
    ParseFormatRoundTrip(before);
    e.CommitTimeEdit();
    duration, remaining := e.duration, e.remaining;
  }

  /** Enter in the editor applies the typed text when it parses, clamped
      duration and label included, and otherwise keeps the duration. */
  method EnterAppliesTypedText(seconds: int, text: string)
    returns (duration: int, remaining: int, shown: string, isEditing: bool)
    requires MinSeconds <= seconds <= MaxSeconds
    ensures ParseEditableTime(text).Some? ==>
      duration == ParseEditableTime(text).value && remaining == duration && shown == FormatTimer(duration)
    ensures ParseEditableTime(text).None? ==>
      duration == seconds && remaining == seconds && shown == FormatTimer(seconds)
    ensures !isEditing
  {
    var e := new Engine("");
    e.ApplyDuration(seconds);
    e.BeginTimeEdit();
    e.EditInput(text);
    e.EditorKey("Enter");
    duration, remaining, shown, isEditing := e.duration, e.remaining, e.timeInput, e.editing;
  }

  /** Escape in the editor throws the typed text away. */
  method EscapeDiscardsTypedText(seconds: int, text: string)
    returns (duration: int, remaining: int, shown: string, isEditing: bool)
    requires MinSeconds <= seconds <= MaxSeconds
    ensures duration == seconds && remaining == seconds && shown == FormatTimer(seconds) && !isEditing
  {
    var e := new Engine("");
    e.ApplyDuration(seconds);
    e.BeginTimeEdit();
    e.EditInput(text);
    e.EditorKey("Escape");
    duration, remaining, shown, isEditing := e.duration, e.remaining, e.timeInput, e.editing;
  }

  /** Text that does not parse leaves the timer as it was. */
  method EditRejected(seconds: int) returns (duration: int, shown: string, isEditing: bool)
    requires MinSeconds <= seconds <= MaxSeconds
    ensures duration == seconds && shown == FormatTimer(seconds) && !isEditing
  {
    var e := new Engine("");
    e.ApplyDuration(seconds);
    e.BeginTimeEdit();
    e.EditInput("abc");
    ParseExampleNotANumber();
    e.CommitTimeEdit();
    duration, shown, isEditing := e.duration, e.timeInput, e.editing;
  }
}
