// The second timer design, built on the useTimer hook: its preset buttons and
// its labels. Its inline editor is the same code as the first design's and is
// modelled once, as TimerOne.EditBox.
module TimerOneB {
  import opened Digits
  import opened Core
  import opened EditableTime
  import opened UseTimer
  import opened TimerOne

  /** A preset button is highlighted when it holds the current duration and
      the timer is idle. */
  predicate PresetActive(p: Preset, durationSeconds: int, isRunning: bool) {
    p.durationSeconds == durationSeconds && !isRunning
  }

  /** Choosing a preset highlights it; starting the countdown takes the
      highlight away from every preset. */
  method SelectThenStart(initialDuration: int, preset: Preset, other: Preset, now: int)
    returns (activeAfterSelect: bool, activeAfterStart: bool, otherActive: bool)
    requires preset.durationSeconds > 0 && other.durationSeconds != preset.durationSeconds
    ensures activeAfterSelect && !activeAfterStart && !otherActive
  {
    var t := new Timer(initialDuration, "");
    t.SelectPreset(preset);
    activeAfterSelect := PresetActive(preset, t.duration, t.running);
    otherActive := PresetActive(other, t.duration, t.running);
    t.Start(now);
    activeAfterStart := PresetActive(preset, t.duration, t.running);
  }

  /** A duration typed into the editor highlights the preset that has it. */
  method CommitHighlightsPreset(initialDuration: int, preset: Preset)
    returns (active: bool)
    requires MinSeconds <= preset.durationSeconds <= MaxSeconds
    ensures active
  {
    var t := new Timer(initialDuration, "");
    var box := new EditBox();
    box.Begin(t);
    var typed := FormatTimer(preset.durationSeconds);
    box.Type(typed);
    ParseFormatRoundTrip(preset.durationSeconds);
    box.Commit(t);
    active := PresetActive(preset, t.duration, t.running);
  }

  function StatusLabel(running: bool, justCompleted: bool): (text: string)
    ensures running ==> text == "Active"
    ensures !running && justCompleted ==> text == "Done"
    ensures !running && !justCompleted ==> text == "Ready"
  {
    match PhaseOf(running, justCompleted)
    case Running => "Active"
    case Done => "Done"
    case Idle => "Ready"
  }

  function ButtonLabel(running: bool, justCompleted: bool): (text: string)
    ensures running ==> text == "Pause"
    ensures !running && justCompleted ==> text == "Restart"
    ensures !running && !justCompleted ==> text == "Start"
  {
    match PhaseOf(running, justCompleted)
    case Running => "Pause"
    case Done => "Restart"
    case Idle => "Start"
  }

  /** The status and the button describe the same phase, and the same phase
      as the first design's labels. */
  lemma LabelsAgree(running: bool, justCompleted: bool)
    ensures StatusLabel(running, justCompleted) == "Active" <==> ButtonLabel(running, justCompleted) == "Pause"
    ensures StatusLabel(running, justCompleted) == "Done" <==> ButtonLabel(running, justCompleted) == "Restart"
    ensures StatusLabel(running, justCompleted) == "Ready" <==> ButtonLabel(running, justCompleted) == "Start"
    ensures ButtonLabel(running, justCompleted) == "Restart" <==> TimerOne.ButtonLabel(running, justCompleted) == "RESTART"
  {
  }

  const MinutesRemainingSuffix: string := " minutes remaining"

  /** The caption: minutes still to go, rounded up, or time elapsed. */
  function Caption(remaining: int): (text: string)
    ensures remaining <= 0 ==> text == "Time elapsed"
    ensures remaining > 0 ==>
      |text| > |MinutesRemainingSuffix|
      && text[|text| - |MinutesRemainingSuffix|..] == MinutesRemainingSuffix
      && AllDigits(text[..|text| - |MinutesRemainingSuffix|])
      && DigitsValue(text[..|text| - |MinutesRemainingSuffix|]) == CeilMinutes(remaining)
  {
    if remaining > 0 then
      var m := CeilMinutes(remaining);
      NatToStringValue(m);
      assert (NatToString(m) + MinutesRemainingSuffix)[..|NatToString(m)|] == NatToString(m);
      NatToString(m) + MinutesRemainingSuffix
    else "Time elapsed"
  }
}
