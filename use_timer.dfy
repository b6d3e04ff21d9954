// The useTimer hook: a countdown whose running state is an absolute target
// timestamp, re-read on every tick, together with the one-shot completion latch.
// Each callback is modelled as one atomic update of the hook's state; the wall
// clock is the `now` parameter (milliseconds).
module UseTimer {
  import opened Wrappers
  import opened Core

  /** The sound the hook plays on completion: always the chime at 0.6. */
  const HookCue := Cue(Chime, 0.6)

  class Timer {
    const presets: seq<Preset>
    var duration: int
    var remaining: int
    /** The absolute end time while running, in milliseconds. */
    var target: Option<int>
    var running: bool
    var justCompleted: bool
    /** The completion latch that keeps the sound from firing twice. */
    var completed: bool

    /** A running timer has a target, an idle one has none; the exposed flag
        mirrors the latch, and a running timer has not completed. */
    ghost predicate Valid()
      reads this
    {
      && (running <==> target.Some?)
      && justCompleted == completed
      && (running ==> !completed)
    }

    constructor (initialDuration: int, stamp: string)
      ensures Valid()
      ensures presets == DefaultPresets(stamp)
      ensures duration == initialDuration && remaining == initialDuration
      ensures target == None && !running && !justCompleted && !completed
    {
      presets := DefaultPresets(stamp);
      duration := initialDuration;
      remaining := initialDuration;
      target := None;
      running := false;
      justCompleted := false;
      completed := false;
    }

    /** The share of the duration already elapsed, in percent. */
    function Progress(): (p: real)
      reads this
      ensures 0.0 <= p <= 100.0
      ensures duration > 0 && remaining <= 0 ==> p == 100.0
    {
      ProgressPercent(duration, remaining)
    }

    /** The hook always evaluates warnings with the final-minute warnings on. */
    function Warning(): (w: WarningLevel)
      reads this
      ensures (w == Complete) == (remaining <= 0)
      ensures (w == FinalTen) == (0 < remaining <= 10)
      ensures (w == FinalMinute) == (10 < remaining <= 60)
      ensures (w == Normal) == (remaining > 60)
    {
      GetWarningLevel(remaining, true)
    }

    function Label(): (text: string)
      reads this
      ensures remaining < 3600 ==> |text| == 5
    {
      FormatTimer(remaining)
    }

    /** Does nothing while no time is left; otherwise clears the latch and
        sets the target `remaining` seconds after `now`. */
    method Start(now: int)
      requires Valid()
      modifies this
      ensures Valid()
      ensures old(remaining) <= 0 ==>
        running == old(running) && target == old(target)
        && justCompleted == old(justCompleted) && completed == old(completed)
      ensures old(remaining) > 0 ==>
        running && target == Some(now + old(remaining) * 1000)
        && !justCompleted && !completed
      ensures duration == old(duration) && remaining == old(remaining)
    {
      if remaining <= 0 {
        return;
      }
      completed := false;
      justCompleted := false;
      target := Some(now + remaining * 1000);
      running := true;
    }

    /** Stops the countdown; the remaining seconds stay as last computed. */
    method Pause()
      requires Valid()
      modifies this
      ensures Valid()
      ensures !running && target == None
      ensures duration == old(duration) && remaining == old(remaining)
      ensures justCompleted == old(justCompleted) && completed == old(completed)
    {
      running := false;
      target := None;
    }

    method Reset()
      requires Valid()
      modifies this
      ensures Valid()
      ensures !running && target == None && !justCompleted && !completed
      ensures duration == old(duration) && remaining == duration
    {
      running := false;
      target := None;
      remaining := duration;
      justCompleted := false;
      completed := false;
    }

    method Toggle(now: int)
      requires Valid()
      modifies this
      ensures Valid()
      ensures duration == old(duration) && remaining == old(remaining)
      ensures old(running) ==>
        !running && target == None && justCompleted == old(justCompleted)
      ensures !old(running) && old(remaining) > 0 ==>
        running && target == Some(now + old(remaining) * 1000) && !justCompleted
      ensures !old(running) && old(remaining) <= 0 ==>
        !running && target == None && justCompleted == old(justCompleted)
    {
      if running {
        Pause();
      } else {
        Start(now);
      }
    }

    /** Takes the preset's duration as it is, without clamping. */
    method SelectPreset(preset: Preset)
      requires Valid()
      modifies this
      ensures Valid()
      ensures !running && target == None && !justCompleted && !completed
      ensures duration == preset.durationSeconds && remaining == preset.durationSeconds
    {
      running := false;
      target := None;
      duration := preset.durationSeconds;
      remaining := preset.durationSeconds;
      justCompleted := false;
      completed := false;
    }

    method SetDuration(seconds: int)
      requires Valid()
      modifies this
      ensures Valid()
      ensures !running && target == None && !justCompleted && !completed
      ensures duration == Clamp(seconds, MinSeconds, MaxSeconds) && remaining == duration
    {
      var clamped := Clamp(seconds, MinSeconds, MaxSeconds);
      running := false;
      target := None;
      duration := clamped;
      remaining := clamped;
      justCompleted := false;
      completed := false;
    }

    /** Adds (or with a negative argument removes) time: the duration is
        clamped to the duration range, the remaining seconds to [0, 4 h], and a
        running countdown's target moves by the same amount. */
    method AddTime(seconds: int, now: int)
      requires Valid()
      modifies this
      ensures Valid()
      ensures !justCompleted && !completed && running == old(running)
      ensures duration == Clamp(old(duration) + seconds, MinSeconds, MaxSeconds)
      ensures remaining == Clamp(old(remaining) + seconds, 0, MaxSeconds)
      ensures old(running) ==> target == Some(old(target).value + seconds * 1000)
      ensures !old(running) ==> target == old(target)
    {
      justCompleted := false;
      completed := false;
      duration := Clamp(duration + seconds, MinSeconds, MaxSeconds);
      remaining := Clamp(remaining + seconds, 0, MaxSeconds);
      if running {
        var prev := match target case Some(t) => t case None => now;
        target := Some(prev + seconds * 1000);
      }
    }

    /** One tick of the running countdown. The remaining seconds are recomputed
        from the target; on reaching zero the latch is set, the countdown stops
        and the completion sound is requested, exactly once. */
    method Tick(now: int) returns (cue: Option<Cue>)
      requires Valid()
      modifies this
      ensures Valid()
      ensures duration == old(duration)
      ensures !old(running) ==>
        cue == None && remaining == old(remaining) && running == old(running)
        && target == old(target) && justCompleted == old(justCompleted)
        && completed == old(completed)
      ensures old(running) ==>
        remaining == RemainingFromTarget(old(target).value, now)
      ensures old(running) && remaining > 0 ==>
        cue == None && running && target == old(target) && !completed
      ensures old(running) && remaining == 0 ==>
        cue == Some(HookCue) && !running && target == None && justCompleted && completed
      ensures remaining >= 0 || remaining == old(remaining)
    {
      if !running || target.None? {
        return None;
      }
      var r := RemainingFromTarget(target.value, now);
      remaining := r;
      cue := None;
      if r <= 0 && !completed {
        completed := true;
        running := false;
        target := None;
        justCompleted := true;
        cue := Some(HookCue);
      }
    }
  }

  /** A countdown started with time left and ticked at or after its end time
      completes, requests the chime once, and a later tick requests nothing. */
  method CompletionFiresOnce(initialDuration: int, startMs: int, endMs: int)
    returns (first: Option<Cue>, second: Option<Cue>, left: int, runningAfter: bool, flagged: bool)
    requires initialDuration > 0 && endMs >= startMs + initialDuration * 1000
    ensures first == Some(HookCue) && second == None
    ensures left == 0 && !runningAfter && flagged
  {
    var t := new Timer(initialDuration, "");
    t.Start(startMs);
    first := t.Tick(endMs);
    second := t.Tick(endMs + 100);
    left, runningAfter, flagged := t.remaining, t.running, t.justCompleted;
  }

  /** Before the end time a tick reports the whole seconds still to go,
      rounded up, and the countdown keeps running. */
  method TickBeforeEnd(initialDuration: int, startMs: int, nowMs: int)
    returns (cue: Option<Cue>, left: int, stillRunning: bool)
    requires startMs <= nowMs < startMs + initialDuration * 1000
    ensures cue == None && stillRunning
    ensures 0 < left <= initialDuration
    ensures left * 1000 >= startMs + initialDuration * 1000 - nowMs
    ensures (left - 1) * 1000 < startMs + initialDuration * 1000 - nowMs
  {
    var t := new Timer(initialDuration, "");
    t.Start(startMs);
    cue := t.Tick(nowMs);
    left, stillRunning := t.remaining, t.running;
  }

  /** Pausing keeps the remaining seconds; starting again later re-targets
      from the new start, so the first tick after resuming reports the same
      seconds as before the pause. */
  method PauseThenResume(initialDuration: int, t0: int, t1: int, t2: int)
    returns (beforePause: int, afterResume: int)
    requires t0 <= t1 < t0 + initialDuration * 1000
    ensures beforePause > 0 && afterResume == beforePause
  {
    var t := new Timer(initialDuration, "");
    t.Start(t0);
    var _ := t.Tick(t1);
    beforePause := t.remaining;
    t.Pause();
    t.Start(t2);
    var _ := t.Tick(t2);
    afterResume := t.remaining;
  }

  /** Starting with no time left does nothing. */
  method StartWithoutTime(initialDuration: int, now: int) returns (isRunning: bool, hasTarget: bool)
    requires initialDuration <= 0
    ensures !isRunning && !hasTarget
  {
    var t := new Timer(initialDuration, "");
    t.Start(now);
    isRunning, hasTarget := t.running, t.target.Some?;
  }

  /** While running, adding time moves the target, and the next tick reports
      the sum even where it is above the four-hour ceiling that addTime applies
      to the remaining seconds it stores. */
  method AddTimeWhileRunning(initialDuration: int, seconds: int, now: int)
    returns (stored: int, ticked: int)
    requires initialDuration > 0 && initialDuration + seconds > 0
    ensures stored == Clamp(initialDuration + seconds, 0, MaxSeconds)
    ensures ticked == initialDuration + seconds
  {
    var t := new Timer(initialDuration, "");
    t.Start(now);
    t.AddTime(seconds, now);
    stored := t.remaining;
    var _ := t.Tick(now);
    ticked := t.remaining;
  }

  /** Removing time from an idle ten-second timer lowers the remaining seconds
      but not the duration, which is held at its ten-second floor. */
  method AddTimeBelowFloor() returns (duration: int, remaining: int)
    ensures duration == 10 && remaining == 5
  {
    var t := new Timer(10, "");
    t.AddTime(-5, 0);
    duration, remaining := t.duration, t.remaining;
  }

  /** Setting a duration, even on a running countdown, stops it and fills it
      with the value clamped into the duration range. */
  method SetDurationClamps(initialDuration: int, seconds: int, now: int)
    returns (duration: int, remaining: int, isRunning: bool)
    ensures duration == Clamp(seconds, MinSeconds, MaxSeconds) && remaining == duration && !isRunning
  {
    var t := new Timer(initialDuration, "");
    t.Start(now);
    t.SetDuration(seconds);
    duration, remaining, isRunning := t.duration, t.remaining, t.running;
  }

  /** Whatever happened before, reset stops the timer and refills it to its
      duration, clearing the completion flag. */
  method ResetAfterCompletion(initialDuration: int, startMs: int, endMs: int)
    returns (left: int, isRunning: bool, flagged: bool)
    requires initialDuration > 0 && endMs >= startMs + initialDuration * 1000
    ensures left == initialDuration && !isRunning && !flagged
  {
    var t := new Timer(initialDuration, "");
    t.Start(startMs);
    var _ := t.Tick(endMs);
    t.Reset();
    left, isRunning, flagged := t.remaining, t.running, t.justCompleted;
  }
}
