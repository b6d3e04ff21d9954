// The first timer design, built on the useTimer hook: the inline time editor,
// the progress bar that doubles as a slider (keys, pointer scrubbing and the
// pointer-capture protocol), the coloured segments of the bar and the labels.
// Every slider gesture only requests a new remaining time; what the
// requested value does is not part of this model.
module TimerOne {
  import opened Wrappers
  import opened Digits
  import opened Core
  import opened EditableTime
  import opened UseTimer

  const QuickAdjust: nat := 60
  const AdjustSteps: seq<nat> := [1, 10, 30, 60, 300, 600, 1200, 1800]

  // ---------------------------------------------------------------- editor

  /** The inline editor over a timer. The same editor drives the second
      design, whose begin, commit and cancel are the same code. */
  class EditBox {
    var editing: bool
    var input: string

    constructor ()
      ensures !editing && input == "5:00"
    {
      editing := false;
      input := "5:00";
    }

    /** Open the editor on the timer's label. */
    method Begin(timer: Timer)
      modifies this
      ensures editing && input == FormatTimer(timer.remaining)
    {
      input := timer.Label();
      editing := true;
    }

    method Type(text: string)
      modifies this
      ensures input == text && editing == old(editing)
    {
      input := text;
    }

    /** Set the parsed duration on the timer and show it; text that does not
        parse puts the label back and leaves the timer alone. */
    method Commit(timer: Timer)
      requires timer.Valid()
      modifies this, timer
      ensures timer.Valid() && !editing
      ensures ParseEditableTime(old(input)).None? ==>
        input == FormatTimer(timer.remaining)
        && timer.duration == old(timer.duration) && timer.remaining == old(timer.remaining)
        && timer.running == old(timer.running) && timer.target == old(timer.target)
        && timer.justCompleted == old(timer.justCompleted) && timer.completed == old(timer.completed)
      ensures ParseEditableTime(old(input)).Some? ==>
        timer.duration == ParseEditableTime(old(input)).value
        && timer.remaining == timer.duration && !timer.running && timer.target == None
        && !timer.justCompleted && input == FormatTimer(timer.duration)
    {
      var parsed := ParseEditableTime(input);
      if parsed.None? {
        input := timer.Label();
        editing := false;
        return;
      }
      timer.SetDuration(parsed.value);
      input := FormatTimer(parsed.value);
      editing := false;
    }

    method Cancel(timer: Timer)
      modifies this
      ensures !editing && input == FormatTimer(timer.remaining)
    {
      input := timer.Label();
      editing := false;
    }

    /** Enter commits, Escape cancels, other keys do nothing. */
    method Key(key: string, timer: Timer)
      requires timer.Valid()
      modifies this, timer
      ensures timer.Valid()
      ensures key == "Enter" || key == "Escape" ==> !editing
      ensures key != "Enter" ==>
        timer.duration == old(timer.duration) && timer.remaining == old(timer.remaining)
        && timer.running == old(timer.running) && timer.target == old(timer.target)
        && timer.justCompleted == old(timer.justCompleted) && timer.completed == old(timer.completed)
      ensures key != "Enter" && key != "Escape" ==> input == old(input) && editing == old(editing)
      ensures key == "Escape" ==> input == FormatTimer(timer.remaining)
      ensures key == "Enter" && ParseEditableTime(old(input)).None? ==>
        input == FormatTimer(timer.remaining)
        && timer.duration == old(timer.duration) && timer.remaining == old(timer.remaining)
        && timer.running == old(timer.running) && timer.target == old(timer.target)
        && timer.justCompleted == old(timer.justCompleted) && timer.completed == old(timer.completed)
      ensures key == "Enter" && ParseEditableTime(old(input)).Some? ==>
        timer.duration == ParseEditableTime(old(input)).value
        && timer.remaining == timer.duration && !timer.running && timer.target == None
        && !timer.justCompleted && input == FormatTimer(timer.duration)
    {
      if key == "Enter" {
        Commit(timer);
      }
      if key == "Escape" {
        Cancel(timer);
      }
    }
  }

  /** Opening the editor and committing it untouched sets the duration to
      the remaining seconds clamped into the duration range, whatever they were. */
  method BeginCommitUnchanged(remaining: int) returns (duration: int, shown: string)
    ensures duration == Clamp(remaining, MinSeconds, MaxSeconds)
    ensures shown == FormatTimer(duration)
  {
    var t := new Timer(remaining, "");
    var box := new EditBox();
    box.Begin(t);
    ParseFormatRoundTrip(remaining);
    box.Commit(t);
    duration, shown := t.duration, box.input;
  }

  /** Enter applies whatever the typed text parses to and shows it; text that
      does not parse leaves the timer's duration and seconds as they were. */
  method EnterAppliesTypedText(initialDuration: int, text: string)
    returns (duration: int, remaining: int, shown: string, isEditing: bool)
    ensures ParseEditableTime(text).Some? ==>
      duration == ParseEditableTime(text).value && remaining == duration && shown == FormatTimer(duration)
    ensures ParseEditableTime(text).None? ==>
      duration == initialDuration && remaining == initialDuration && shown == FormatTimer(initialDuration)
    ensures !isEditing
  {
    var t := new Timer(initialDuration, "");
    var box := new EditBox();
    box.Begin(t);
    box.Type(text);
    box.Key("Enter", t);
    duration, remaining, shown, isEditing := t.duration, t.remaining, box.input, box.editing;
  }

  /** Escape throws the typed text away: the timer keeps its duration and
      seconds and the label comes back. */
  method EscapeDiscardsTypedText(initialDuration: int, text: string)
    returns (duration: int, remaining: int, shown: string, isEditing: bool)
    ensures duration == initialDuration && remaining == initialDuration
    ensures shown == FormatTimer(initialDuration) && !isEditing
  {
    var t := new Timer(initialDuration, "");
    var box := new EditBox();
    box.Begin(t);
    box.Type(text);
    box.Key("Escape", t);
    duration, remaining, shown, isEditing := t.duration, t.remaining, box.input, box.editing;
  }

  /** A commit of text that does not parse leaves a running countdown running. */
  method CommitRejectedWhileRunning(initialDuration: int, now: int)
    returns (stillRunning: bool, left: int, shown: string)
    requires initialDuration > 0
    ensures stillRunning && left == initialDuration && shown == FormatTimer(initialDuration)
  {
    var t := new Timer(initialDuration, "");
    t.Start(now);
    var box := new EditBox();
    box.Begin(t);
    box.Type("1:2:3:4");
    ParseExampleTooManyTokens();
    box.Commit(t);
    stillRunning, left, shown := t.running, t.remaining, box.input;
  }

  // ---------------------------------------------------------------- slider keys

  /** `handleSliderKeyDown`: the remaining time a key asks for, or nothing. */
  function SliderKeyTarget(key: string, remaining: int, duration: int): (r: Option<int>)
    ensures r.None? <==> key !in {"ArrowLeft", "ArrowRight", "PageUp", "PageDown", "Home", "End"}
    ensures key == "ArrowLeft" ==> r == Some(remaining + 1)
    ensures key == "ArrowRight" ==> r == Some(remaining - 1)
    ensures key == "PageUp" ==> r == Some(remaining + 10)
    ensures key == "PageDown" ==> r == Some(remaining - 10)
    ensures key == "Home" ==> r == Some(duration)
    ensures key == "End" ==> r == Some(0)
  {
    if key == "ArrowLeft" then Some(remaining + 1)
    else if key == "ArrowRight" then Some(remaining - 1)
    else if key == "PageUp" then Some(remaining + 10)
    else if key == "PageDown" then Some(remaining - 10)
    else if key == "Home" then Some(duration)
    else if key == "End" then Some(0)
    else None
  }

  /** The step keys come in opposite pairs: one undoes the other. */
  lemma SliderKeysUndo(remaining: int, duration: int)
    ensures SliderKeyTarget("ArrowRight", SliderKeyTarget("ArrowLeft", remaining, duration).value, duration)
      == Some(remaining)
    ensures SliderKeyTarget("PageDown", SliderKeyTarget("PageUp", remaining, duration).value, duration)
      == Some(remaining)
    ensures SliderKeyTarget("Home", remaining, duration)
      == SliderKeyTarget("Home", SliderKeyTarget("End", remaining, duration).value, duration)
  {
  }

  // ---------------------------------------------------------------- scrubbing

  /** The track's horizontal extent on screen. */
  datatype Track = Track(left: real, width: real)

  /** `scrubToClientX`: the remaining time a pointer at `clientX` asks for;
      nothing without a track, without a duration or with a flat track. */
  function ScrubTarget(track: Option<Track>, clientX: real, duration: int): (r: Option<int>)
    ensures r.None? <==> track.None? || duration <= 0 || track.value.width <= 0.0
    ensures r.Some? ==> 0 <= r.value <= duration
  {
    if track.None? || duration <= 0 then None
    else if track.value.width <= 0.0 then None
    else Some(RemainingAt(ScrubRatio(track.value, clientX), duration))
  }

  /** Where the pointer is along the track, as a share in [0, 1]. */
  function ScrubRatio(track: Track, clientX: real): (ratio: real)
    requires track.width > 0.0
    ensures 0.0 <= ratio <= 1.0
  {
    ClampReal((clientX - track.left) / track.width, 0.0, 1.0)
  }

  /** The remaining time left when a share of the duration is spent. */
  function RemainingAt(ratio: real, duration: int): (r: int)
    requires 0.0 <= ratio <= 1.0 && duration > 0
    ensures 0 <= r <= duration
  {
    var elapsed := Round(ratio * duration as real);
    ScrubElapsedInRange(ratio, duration);
    Clamp(duration - elapsed, 0, duration)
  }

  /** The elapsed seconds of a ratio in [0, 1] lie within the duration. */
  lemma ScrubElapsedInRange(ratio: real, duration: int)
    requires 0.0 <= ratio <= 1.0 && duration > 0
    ensures 0 <= Round(ratio * duration as real) <= duration
  {
    assert 0.0 <= ratio * duration as real <= duration as real;
  }

  /** Dividing by a positive width keeps the order. */
  lemma DivMonotone(a: real, b: real, w: real)
    requires w > 0.0 && a <= b
    ensures a / w <= b / w
  {
    var qa, qb := a / w, b / w;
    assert qa * w == a && qb * w == b;
    assert (qb - qa) * w == b - a;
  }

  /** Scaling by a positive duration keeps the order. */
  lemma MulMonotone(a: real, b: real, d: real)
    requires d > 0.0 && a <= b
    ensures a * d <= b * d
  {
    assert b * d - a * d == (b - a) * d;
  }

  /** Rounding keeps the order. */
  lemma RoundMonotone(a: real, b: real)
    requires a <= b
    ensures Round(a) <= Round(b)
  {
    var ra, rb := Round(a), Round(b);
    assert (ra - rb) as real == ra as real - rb as real < 1.0;
  }

  /** A larger share spent leaves less time. */
  lemma RemainingAtMonotone(r1: real, r2: real, duration: int)
    requires 0.0 <= r1 <= r2 <= 1.0 && duration > 0
    ensures RemainingAt(r1, duration) >= RemainingAt(r2, duration)
  {
    var d := duration as real;
    MulMonotone(r1, r2, d);
    RoundMonotone(r1 * d, r2 * d);
    var e1, e2 := Round(r1 * d), Round(r2 * d);
    ScrubElapsedInRange(r1, duration);
    ScrubElapsedInRange(r2, duration);
    assert RemainingAt(r1, duration) == duration - e1;
    assert RemainingAt(r2, duration) == duration - e2;
  }

  /** Further right asks for less remaining time. */
  lemma ScrubMonotone(track: Track, x1: real, x2: real, duration: int)
    requires track.width > 0.0 && duration > 0 && x1 <= x2
    ensures ScrubTarget(Some(track), x1, duration).value >= ScrubTarget(Some(track), x2, duration).value
  {
    DivMonotone(x1 - track.left, x2 - track.left, track.width);
    RemainingAtMonotone(ScrubRatio(track, x1), ScrubRatio(track, x2), duration);
  }

  /** At or left of the track's start the whole duration is requested; at or
      right of its end, zero. */
  lemma ScrubEdges(track: Track, x: real, duration: int)
    requires track.width > 0.0 && duration > 0
    ensures x <= track.left ==> ScrubTarget(Some(track), x, duration) == Some(duration)
    ensures x >= track.left + track.width ==> ScrubTarget(Some(track), x, duration) == Some(0)
  {
    if x <= track.left {
      DivMonotone(x - track.left, 0.0, track.width);
    }
    if x >= track.left + track.width {
      DivMonotone(track.width, x - track.left, track.width);
      assert track.width / track.width == 1.0;
    }
  }

  // ---------------------------------------------------------------- pointer capture

  /** The drag state of the slider: the pointer that owns the drag, if any. */
  class SliderDrag {
    var activePointer: Option<int>
    var dragging: bool

    ghost predicate Valid()
      reads this
    {
      dragging <==> activePointer.Some?
    }

    constructor ()
      ensures Valid() && activePointer == None
    {
      activePointer := None;
      dragging := false;
    }

    /** A press starts a drag owned by that pointer, except a mouse button
        other than the main one, and asks for the pressed position. */
    method PointerDown(pointerId: int, pointerType: string, button: int,
                       track: Option<Track>, clientX: real, duration: int)
      returns (request: Option<int>)
      requires Valid()
      modifies this
      ensures Valid()
      ensures pointerType == "mouse" && button != 0 ==>
        request == None && activePointer == old(activePointer)
      ensures !(pointerType == "mouse" && button != 0) ==>
        activePointer == Some(pointerId) && request == ScrubTarget(track, clientX, duration)
    {
      if pointerType == "mouse" && button != 0 {
        return None;
      }
      activePointer := Some(pointerId);
      dragging := true;
      request := ScrubTarget(track, clientX, duration);
    }

    /** Only the owning pointer scrubs. */
    method PointerMove(pointerId: int, track: Option<Track>, clientX: real, duration: int)
      returns (request: Option<int>)
      requires Valid()
      modifies this
      ensures Valid() && activePointer == old(activePointer)
      ensures activePointer != Some(pointerId) ==> request == None
      ensures activePointer == Some(pointerId) ==> request == ScrubTarget(track, clientX, duration)
    {
      if activePointer != Some(pointerId) {
        return None;
      }
      request := ScrubTarget(track, clientX, duration);
    }

    /** `endPointerDrag`: only the owning pointer ends the drag. */
    method EndDrag(pointerId: int)
      requires Valid()
      modifies this
      ensures Valid()
      ensures old(activePointer) == Some(pointerId) ==> activePointer == None
      ensures old(activePointer) != Some(pointerId) ==> activePointer == old(activePointer)
    {
      if activePointer != Some(pointerId) {
        return;
      }
      activePointer := None;
      dragging := false;
    }

    method PointerUp(pointerId: int)
      requires Valid()
      modifies this
      ensures Valid()
      ensures old(activePointer) == Some(pointerId) ==> activePointer == None
      ensures old(activePointer) != Some(pointerId) ==> activePointer == old(activePointer)
    {
      EndDrag(pointerId);
    }

    method PointerCancel(pointerId: int)
      requires Valid()
      modifies this
      ensures Valid()
      ensures old(activePointer) == Some(pointerId) ==> activePointer == None
      ensures old(activePointer) != Some(pointerId) ==> activePointer == old(activePointer)
    {
      EndDrag(pointerId);
    }

    method LostPointerCapture(pointerId: int)
      requires Valid()
      modifies this
      ensures Valid()
      ensures old(activePointer) == Some(pointerId) ==> activePointer == None
      ensures old(activePointer) != Some(pointerId) ==> activePointer == old(activePointer)
    {
      EndDrag(pointerId);
    }
  }

  /** A second pointer can neither scrub nor end a drag that another pointer
      owns; the owner's release ends it. */
  method DragOwnership(owner: int, other: int, track: Track, x: real, duration: int)
    returns (otherMove: Option<int>, draggingAfterOther: bool, draggingAfterOwner: bool)
    requires owner != other
    ensures otherMove == None && draggingAfterOther && !draggingAfterOwner
  {
    var drag := new SliderDrag();
    var _ := drag.PointerDown(owner, "touch", 0, Some(track), x, duration);
    otherMove := drag.PointerMove(other, Some(track), x, duration);
    drag.PointerUp(other);
    draggingAfterOther := drag.dragging;
    drag.PointerUp(owner);
    draggingAfterOwner := drag.dragging;
  }

  /** A right-button press does not start a drag. */
  method SecondaryButtonIgnored(pointerId: int, track: Track, x: real, duration: int)
    returns (request: Option<int>, isDragging: bool)
    ensures request == None && !isDragging
  {
    var drag := new SliderDrag();
    request := drag.PointerDown(pointerId, "mouse", 2, Some(track), x, duration);
    isDragging := drag.dragging;
  }

  // ---------------------------------------------------------------- bar arithmetic

  /** The seconds shown as elapsed: the spent part of the duration. */
  function Elapsed(duration: int, remaining: int): (e: int)
    ensures duration >= 0 ==> 0 <= e <= duration
    ensures 0 <= remaining <= duration ==> e == duration - remaining
  {
    Clamp(duration - remaining, 0, duration)
  }

  /** The elapsed share in percent, with the clamp the bar applies. */
  function ElapsedPercent(duration: int, remaining: int): (p: real)
    ensures 0.0 <= p <= 100.0
  {
    if duration > 0 then ProgressOf(Elapsed(duration, remaining) as real, duration as real) else 0.0
  }

  /** The bar shows the same percentage as the hook's progress value. */
  lemma ElapsedPercentIsProgress(duration: int, remaining: int)
    ensures ElapsedPercent(duration, remaining) == ProgressPercent(duration, remaining)
  {
    if duration > 0 {
      var d := duration as real;
      var e := Elapsed(duration, remaining) as real;
      var p := ProgressOf(e, d);
      var q := ProgressPercent(duration, remaining);
      if remaining >= duration {
        assert p == 0.0;
      } else if remaining <= 0 {
        assert p == 100.0;
      } else {
        assert p * d == 100.0 * e;
        assert q * d == 100.0 * e;
        assert (p - q) * d == 0.0;
      }
    }
  }

  /** Red for the final ten seconds, yellow for the rest of the final
      minute, green before: the sizes of the three bar segments. */
  datatype Segments = Segments(red: int, yellow: int, green: int)

  function SegmentsOf(duration: int): (s: Segments)
    ensures duration >= 0 ==> s.red >= 0 && s.yellow >= 0 && s.green >= 0
    ensures duration >= 0 ==> s.red + s.yellow + s.green == duration
    ensures s.red <= 10 && s.yellow <= 60
    ensures s.yellow > 0 ==> s.red == 10
    ensures s.green > 0 ==> s.red == 10 && s.yellow == 60
    ensures duration < 0 ==> s == Segments(duration, 0, 0)
  {
    var red := Min(10, duration);
    var yellow := Min(60, Max(duration - red, 0));
    var green := Max(duration - yellow - red, 0);
    Segments(red, yellow, green)
  }

  /** The segments' widths in percent of the bar. */
  function SegmentPercents(duration: int): (p: (real, real, real))
  {
    var s := SegmentsOf(duration);
    if duration > 0 then
      var d := duration as real;
      (s.green as real / d * 100.0, s.yellow as real / d * 100.0, s.red as real / d * 100.0)
    else (0.0, 0.0, 0.0)
  }

  /** With a positive duration the segments fill the bar exactly. */
  lemma SegmentPercentsFill(duration: int)
    requires duration > 0
    ensures var p := SegmentPercents(duration); p.0 + p.1 + p.2 == 100.0
  {
    var s := SegmentsOf(duration);
    var d := duration as real;
    var g, y, r := s.green as real, s.yellow as real, s.red as real;
    assert g + y + r == d;
    assert g / d + y / d + r / d == (g + y + r) / d;
    assert d / d == 1.0;
    assert g / d * 100.0 + y / d * 100.0 + r / d * 100.0 == (g / d + y / d + r / d) * 100.0;
  }

  /** The bar accent follows the warning level. */
  datatype Accent = Red | Yellow | Green

  function AccentOf(w: WarningLevel): (a: Accent)
    ensures a == Red <==> w in {FinalTen, Complete}
    ensures a == Yellow <==> w == FinalMinute
  {
    if w == FinalTen || w == Complete then Red
    else if w == FinalMinute then Yellow
    else Green
  }

  /** With the hook's warnings, the accent is the colour of the segment the
      countdown is in. */
  lemma AccentMatchesSegment(remaining: int)
    ensures AccentOf(GetWarningLevel(remaining, true)) == Red <==> remaining <= 10
    ensures AccentOf(GetWarningLevel(remaining, true)) == Yellow <==> 10 < remaining <= 60
    ensures AccentOf(GetWarningLevel(remaining, true)) == Green <==> remaining > 60
  {
  }

  // ---------------------------------------------------------------- labels

  /** The three phases the labels distinguish, running first. */
  datatype Phase = Running | Done | Idle

  function PhaseOf(running: bool, justCompleted: bool): (p: Phase)
    ensures p == Running <==> running
    ensures p == Done <==> !running && justCompleted
  {
    if running then Running else if justCompleted then Done else Idle
  }

  function StatusLabel(running: bool, justCompleted: bool): (text: string)
    ensures running ==> text == "\U{25B6} RUNNING"
    ensures !running && justCompleted ==> text == "\U{25A0} DONE"
    ensures !running && !justCompleted ==> text == "\U{25FC} IDLE"
  {
    match PhaseOf(running, justCompleted)
    case Running => "\U{25B6} RUNNING"
    case Done => "\U{25A0} DONE"
    case Idle => "\U{25FC} IDLE"
  }

  function ButtonLabel(running: bool, justCompleted: bool): (text: string)
    ensures running ==> text == "PAUSE"
    ensures !running && justCompleted ==> text == "RESTART"
    ensures !running && !justCompleted ==> text == "START"
  {
    match PhaseOf(running, justCompleted)
    case Running => "PAUSE"
    case Done => "RESTART"
    case Idle => "START"
  }

  /** The status and the button always describe the same phase. */
  lemma LabelsAgree(running: bool, justCompleted: bool)
    ensures StatusLabel(running, justCompleted) == "\U{25B6} RUNNING" <==> ButtonLabel(running, justCompleted) == "PAUSE"
    ensures StatusLabel(running, justCompleted) == "\U{25A0} DONE" <==> ButtonLabel(running, justCompleted) == "RESTART"
    ensures StatusLabel(running, justCompleted) == "\U{25FC} IDLE" <==> ButtonLabel(running, justCompleted) == "START"
  {
  }

  /** `Math.ceil(remaining / 60)`: whole minutes, rounded up. */
  function CeilMinutes(remaining: int): (m: int)
    ensures (m - 1) * 60 < remaining <= m * 60
  {
    -((-remaining) / 60)
  }

  const MinRemainingSuffix: string := " min remaining"

  /** The caption under the clock: minutes still to go, or time up. */
  function Caption(remaining: int): (text: string)
    ensures remaining <= 0 ==> text == "TIME IS UP"
    ensures remaining > 0 ==>
      |text| > |MinRemainingSuffix| && text[|text| - |MinRemainingSuffix|..] == MinRemainingSuffix
      && AllDigits(text[..|text| - |MinRemainingSuffix|])
      && DigitsValue(text[..|text| - |MinRemainingSuffix|]) == CeilMinutes(remaining)
  {
    if remaining > 0 then
      var m := CeilMinutes(remaining);
      NatToStringValue(m);
      assert (NatToString(m) + MinRemainingSuffix)[..|NatToString(m)|] == NatToString(m);
      NatToString(m) + MinRemainingSuffix
    else "TIME IS UP"
  }
}
