/**
 * The adaptive colour-temperature controller of `adjustTemperature`
 * (src/main.cpp:38-350), taken out of its threads. The locals the lambdas
 * and the two threads share become the fields of `Controller`; the clock
 * thread's once-a-second body is `ClockTick`, one pass of the controller's
 * outer loop is `Wake` followed, when it plans an ease, by `RunFrames`.
 * `state` and `step` stand for `cfg["temp_state"]` and `cfg["temp_step"]`,
 * which only this controller writes; every other option is read from the
 * `Config` passed in, and `time_start`/`time_end` arrive as the `Bounds`
 * that `Schedule.BoundsOf` converts them to.
 */
module Temperature {
  import opened Wrappers
  import opened Schedule
  import opened Cfg

  /** What one frame of the easing loop observes: the options it re-reads,
      the quit flag, whether the window raised `force` since the previous
      frame, the current instant, and the easing curve's value for the frame. */
  datatype Frame = Frame(autoTemp: bool, quit: bool, forceRaised: bool, now: Instant, eased: int)

  /** What a wake-up decides before the easing loop: stop (a boundary string
      failed to parse and the thread throws), skip the rest because automatic
      temperature is off, skip because the step is already at the target, or
      ease from `start` to `end` over `duration` seconds. `tempSpeed` is the
      float `cfg["temp_speed"]` holds from then on. */
  datatype Plan = Halt | Disabled | AtTarget | Ease(start: int, end: int, duration: real, tempSpeed: real)

  /** Why the easing loop stopped; `Running` means the frames given ran out first. */
  datatype Exit = Done | Preempted | SwitchedOff | Quit | Halted | Running

  /**
   * The state a forced wake-up leaves: before the start boundary a lowering
   * or low temperature starts increasing; after it a high or increasing one
   * starts lowering. The resulting direction always agrees with the boundary,
   * and a change is always into a transitional state. The state stays as it
   * is exactly when it already agrees with the boundary.
   */
  function Forced(s: TempState, startR: bool): (r: TempState)
    ensures startR <==> (r == Lowering || r == Low)
    ensures r != s ==> r == (if startR then Lowering else Increasing)
    ensures r == s <==> (startR <==> (s == Lowering || s == Low))
  {
    match s
    case High => if startR then Lowering else High
    case Increasing => if startR then Lowering else Increasing
    case Lowering => if startR then Lowering else Increasing
    case Low => if startR then Low else Increasing
  }

  /** The minutes `temp_speed` stands for once line 281 has repaired it: a
      float is kept, any other number is replaced by 30. */
  function SpeedMinutes(n: Number): (r: real)
    ensures n.Float? ==> r == n.f
    ensures n.Int? ==> r == 30.0
  {
    match n
    case Float(f) => f
    case Int(_) => 30.0
  }

  /** The compiled-in schedule converts: lowering starts at 17:00 and the
      low temperature lasts until 06:00 of the following day. */
  lemma DefaultBounds(brtSliderSteps: nat, maxTempKelvin: int)
    ensures var c := Default(brtSliderSteps, maxTempKelvin);
      BoundsOf(c.timeStart, c.timeEnd) == Bounds(Some(Time(17, 0)), Some(Time(6, 0)))
  {
    DefaultStartParses();
    DefaultEndParses();
  }

  /** A frame re-checks the interval when it gets past the `auto_temp` and
      quit checks with an override pending from before it or raised for it. */
  predicate Resets(f: Frame, pending: bool) {
    f.autoTemp && !f.quit && (pending || f.forceRaised)
  }

  /**
   * The last of the first `n` frames that re-checks the interval, when an
   * override is `pending` before the first frame. Every frame that applies
   * its eased value has cleared `force`, so only the first frame can find an
   * override pending from before it.
   */
  function LastReset(frames: seq<Frame>, pending: bool, n: nat): (r: Option<nat>)
    requires n <= |frames|
    ensures r.Some? ==> r.value < n
  {
    if n == 0 then None
    else if Resets(frames[n - 1], n - 1 == 0 && pending) then Some(n - 1)
    else LastReset(frames, pending, n - 1)
  }

  /** `LastReset` finds a frame that re-checks the interval with none after
      it, and finds nothing exactly when no frame re-checks it. */
  lemma {:induction false} LastResetIsLast(frames: seq<Frame>, pending: bool, n: nat)
    requires n <= |frames|
    ensures var r := LastReset(frames, pending, n);
      (r.Some? ==> Resets(frames[r.value], r.value == 0 && pending)) &&
      (r.Some? ==> forall i :: r.value < i < n ==> !Resets(frames[i], false)) &&
      (r.None? <==> forall i :: 0 <= i < n ==> !Resets(frames[i], i == 0 && pending))
  {
    if n > 0 && !Resets(frames[n - 1], n - 1 == 0 && pending) {
      LastResetIsLast(frames, pending, n - 1);
    }
  }

  /** An override at `now` does not preempt an ease in state `s` when the
      start boundary is the instant `start`: the direction already agrees
      with whether the start is passed. */
  predicate KeepsDirection(s: TempState, now: Instant, start: Instant) {
    var sr := Later(now, start);
    !(s == Lowering && !sr) && !(s == Increasing && sr)
  }

  /** No frame among the first `n` that re-checked the interval, with an
      override `pending` before the first, found an ease in state `s` going
      against the start boundary `start`. */
  predicate NonePreempted(frames: seq<Frame>, pending: bool, n: nat, s: TempState, start: Instant)
    requires n <= |frames|
  {
    forall j :: 0 <= j < n && Resets(frames[j], j == 0 && pending) ==> KeepsDirection(s, frames[j].now, start)
  }

  /** The fields of a `Controller` that the easing loop starts from. */
  datatype Origin = Origin(state: TempState, fastChange: bool, step: int, force: bool,
                           jdayStart: int, jdayEnd: int, bounds: (Time, Time, bool, bool))

  class Controller {
    const today: int
    var jdayStart: int
    var jdayEnd: int
    var timeStart: Time
    var timeEnd: Time
    var dtStart: Instant
    var dtEnd: Instant
    var startR: bool
    var endR: bool
    var force: bool
    var fastChange: bool
    var needsChange: bool
    var state: TempState
    var step: int

    /** The end boundary counts as reached only once the start has been; the
        two day numbers are the same day or consecutive days; each boundary is
        its day number combined with its time of day. */
    ghost predicate Valid()
      reads this
    {
      (endR ==> startR) &&
      (jdayEnd == jdayStart || jdayEnd == jdayStart + 1) &&
      dtStart == At(jdayStart, timeStart) &&
      dtEnd == At(jdayEnd, timeEnd)
    }

    /** The locals as `adjustTemperature` declares them (lines 59-112): no
        override pending, the interval from today to tomorrow, and the
        persisted state and step. */
    constructor(today: int, state: TempState, step: int)
      ensures this.today == today && jdayStart == today && jdayEnd == today + 1
      ensures !force && this.state == state && this.step == step
      ensures Valid()
    {
      this.today := today;
      jdayStart, jdayEnd := today, today + 1;
      timeStart, timeEnd := Time(0, 0), Time(0, 0);
      dtStart, dtEnd := At(today, Time(0, 0)), At(today + 1, Time(0, 0));
      startR, endR := false, false;
      force, fastChange, needsChange := false, false, false;
      this.state, this.step := state, step;
    }

    /** The boundary times and the reached flags, which re-checking the interval rewrites. */
    ghost function Boundaries(): (Time, Time, bool, bool)
      reads this`timeStart, this`timeEnd, this`startR, this`endR
    {
      (timeStart, timeEnd, startR, endR)
    }

    /** The interval was last re-checked at `now` against the converted boundaries `b`. */
    ghost predicate CheckedAt(b: Bounds, now: Instant)
      reads this`timeStart, this`timeEnd, this`startR, this`endR, this`dtStart, this`dtEnd
    {
      b.Ok() && timeStart == b.start.value && timeEnd == b.end.value &&
      startR == Later(now, dtStart) && endR == (startR && Later(now, dtEnd))
    }

    /** `setDates`: take both converted boundaries and pin them to the day numbers. */
    method SetDates(b: Bounds) returns (ok: bool)
      modifies this`timeStart, this`timeEnd, this`dtStart, this`dtEnd
      ensures ok == b.Ok()
      ensures ok ==> timeStart == b.start.value && timeEnd == b.end.value
      ensures ok ==> dtStart == At(jdayStart, timeStart) && dtEnd == At(jdayEnd, timeEnd)
      ensures !ok ==> dtStart == old(dtStart) && dtEnd == old(dtEnd)
    {
      if b.start.None? {
        return false;
      }
      timeStart := b.start.value;
      if b.end.None? {
        return false;
      }
      timeEnd := b.end.value;
      dtStart := At(jdayStart, timeStart);
      dtEnd := At(jdayEnd, timeEnd);
      ok := true;
    }

    /** `checkDates`: the end counts as reached only when the start is. */
    method CheckDates(now: Instant)
      modifies this`startR, this`endR
      ensures startR == Later(now, dtStart)
      ensures endR == (startR && Later(now, dtEnd))
      ensures endR ==> startR
    {
      startR := Later(now, dtStart);
      endR := if startR then Later(now, dtEnd) else false;
    }

    /** `resetInterval(shift_days)`: shifting moves both day numbers by exactly
        one day; without it neither moves. */
    method ResetInterval(shift: bool, b: Bounds, now: Instant) returns (ok: bool)
      requires jdayEnd == jdayStart || jdayEnd == jdayStart + 1
      modifies this`jdayStart, this`jdayEnd, this`timeStart, this`timeEnd, this`dtStart, this`dtEnd,
        this`startR, this`endR
      ensures jdayStart == old(jdayStart) + (if shift then 1 else 0)
      ensures jdayEnd == old(jdayEnd) + (if shift then 1 else 0)
      ensures ok == b.Ok()
      ensures ok ==> Valid()
      ensures ok ==> timeStart == b.start.value && timeEnd == b.end.value
      ensures ok ==> startR == Later(now, dtStart) && endR == (startR && Later(now, dtEnd))
    {
      if shift {
        jdayStart := jdayStart + 1;
        jdayEnd := jdayEnd + 1;
      }
      ok := SetDates(b);
      if !ok {
        return;
      }
      CheckDates(now);
    }

    /**
     * The set-up before the threads start (lines 114-132): pin the boundaries
     * to today and tomorrow and check them; when the persisted state is LOW
     * and today's start is not reached yet, pull the end back to today.
     */
    method Start(c: Config, b: Bounds, now: Instant) returns (ok: bool)
      requires jdayStart == today && jdayEnd == today + 1
      modifies this
      ensures ok == b.Ok()
      ensures ok ==> Valid()
      ensures ok ==> timeStart == b.start.value && timeEnd == b.end.value
      ensures ok ==> jdayStart == today && startR == Later(now, At(today, timeStart))
      ensures ok ==> jdayEnd == (if state == Low && !startR then today else today + 1)
      ensures ok ==> endR == (startR && Later(now, dtEnd))
      ensures ok ==> fastChange && needsChange == c.autoTemp && force == old(force)
      ensures state == old(state) && step == old(step)
    {
      ok := SetDates(b);
      if !ok {
        return;
      }
      CheckDates(now);
      fastChange := true;
      if state == Low && !startR {
        jdayEnd := today;
        ok := ResetInterval(false, b, now);
      }
      needsChange := c.autoTemp;
    }

    /**
     * One wake of the clock thread (lines 148-169). With automatic temperature
     * off nothing changes. Otherwise the boundaries are re-checked; in the low
     * period (start reached, end not) the state becomes LOWERING and a change
     * is requested; `fast_change` is cleared in every case. The high period
     * can never hold, so a tick never starts INCREASING.
     */
    method ClockTick(autoTemp: bool, now: Instant)
      requires Valid()
      modifies this`startR, this`endR, this`state, this`needsChange, this`fastChange
      ensures Valid()
      ensures !autoTemp ==>
        startR == old(startR) && endR == old(endR) && state == old(state) &&
        needsChange == old(needsChange) && fastChange == old(fastChange)
      ensures autoTemp ==> startR == Later(now, dtStart) && endR == (startR && Later(now, dtEnd))
      ensures autoTemp ==> !fastChange
      ensures autoTemp && startR && !endR ==> state == Lowering && needsChange
      ensures autoTemp && !(startR && !endR) ==> state == old(state) && needsChange == old(needsChange)
      ensures state == Increasing ==> old(state) == Increasing
    {
      if !autoTemp {
        return;
      }
      CheckDates(now);
      var lowPeriod := startR && !endR;
      var highPeriod := !startR && endR;
      if lowPeriod {
        state := Lowering;
        needsChange := true;
      } else if highPeriod {
        assert false;
      }
      fastChange := false;
    }

    /**
     * A forced wake (lines 189-219): the interval is re-checked, `Forced`
     * applies, a changed state marks the next ease fast, and `force` is
     * cleared. `ok` is false when a boundary does not convert.
     */
    method Override(b: Bounds, now: Instant) returns (ok: bool)
      requires Valid()
      modifies this`jdayStart, this`jdayEnd, this`timeStart, this`timeEnd, this`dtStart, this`dtEnd,
        this`startR, this`endR, this`state, this`fastChange, this`force
      ensures ok == b.Ok()
      ensures jdayStart == old(jdayStart) && jdayEnd == old(jdayEnd)
      ensures ok ==> Valid() && !force
      ensures ok ==> timeStart == b.start.value && timeEnd == b.end.value
      ensures ok ==> startR == Later(now, dtStart) && endR == (startR && Later(now, dtEnd))
      ensures ok ==> state == Forced(old(state), startR)
      ensures ok ==> fastChange == (old(fastChange) || state != old(state))
    {
      ok := ResetInterval(false, b, now);
      if !ok {
        return;
      }
      if !startR && (state == Lowering || state == Low) {
        state := Increasing;
        fastChange := true;
      }
      if startR && (state == High || state == Increasing) {
        state := Lowering;
        fastChange := true;
      }
      force := false;
    }

    /**
     * The target selection after a wake (lines 226-287): with automatic
     * temperature on, the target is the remapped `temp_high` while
     * INCREASING and `temp_low` otherwise; a target equal to the current
     * step changes nothing, otherwise an ease is planned over 2 seconds when
     * fast and `temp_speed` minutes otherwise, and `fast_change` is cleared.
     */
    method ChooseTarget(c: Config, remap: int -> int) returns (plan: Plan)
      modifies this`fastChange
      ensures plan != Halt
      ensures plan == Disabled <==> !c.autoTemp
      ensures plan.Ease? ==> plan.duration == (if old(fastChange) then 2.0 else SpeedMinutes(c.tempSpeed) * 60.0)
      ensures fastChange == (old(fastChange) && !plan.Ease?)
      ensures plan == AtTarget ==> remap(if state == Increasing then c.tempHigh else c.tempLow) == step
      ensures plan.Ease? ==>
        c.autoTemp && plan.start == step && plan.start != plan.end &&
        plan.end == remap(if state == Increasing then c.tempHigh else c.tempLow) &&
        plan.tempSpeed == SpeedMinutes(c.tempSpeed)
    {
      if !c.autoTemp {
        return Disabled;
      }
      var targetTemp := if state == Increasing then c.tempHigh else c.tempLow;
      var targetStep := remap(targetTemp);
      var cur := step;
      if targetStep == cur {
        return AtTarget;
      }
      var minutes := SpeedMinutes(c.tempSpeed);
      var duration := if fastChange then 2.0 else minutes * 60.0;
      fastChange := false;
      plan := Ease(cur, targetStep, duration, minutes);
    }

    /**
     * One pass of the controller loop after its wait (lines 189-287): a
     * forced wake goes through `Override`, any other wake clears
     * `needs_change`; then `ChooseTarget` picks the target.
     */
    method Wake(c: Config, b: Bounds, now: Instant, remap: int -> int) returns (plan: Plan)
      requires Valid()
      requires needsChange || force
      modifies this
      ensures plan != Halt ==> Valid()
      ensures plan == Halt <==> old(force) && !b.Ok()
      ensures step == old(step) && jdayStart == old(jdayStart) && jdayEnd == old(jdayEnd)
      ensures !old(force) ==>
        !needsChange && !force && state == old(state) && startR == old(startR) && endR == old(endR) &&
        timeStart == old(timeStart) && timeEnd == old(timeEnd)
      ensures old(force) && plan != Halt ==>
        !force && needsChange == old(needsChange) && state == Forced(old(state), startR) &&
        timeStart == b.start.value && timeEnd == b.end.value &&
        startR == Later(now, dtStart) && endR == (startR && Later(now, dtEnd))
      ensures plan != Halt ==>
        var fast := old(fastChange) || state != old(state);
        (plan.Ease? ==> plan.duration == (if fast then 2.0 else SpeedMinutes(c.tempSpeed) * 60.0)) &&
        fastChange == (fast && !plan.Ease?)
      ensures plan != Halt ==> (plan == Disabled <==> !c.autoTemp)
      ensures plan == AtTarget ==> remap(if state == Increasing then c.tempHigh else c.tempLow) == step
      ensures plan.Ease? ==>
        c.autoTemp && plan.start == step && plan.start != plan.end &&
        plan.end == remap(if state == Increasing then c.tempHigh else c.tempLow) &&
        plan.tempSpeed == SpeedMinutes(c.tempSpeed)
    {
      if force {
        var ok := Override(b, now);
        if !ok {
          return Halt;
        }
      } else {
        needsChange := false;
      }
      plan := ChooseTarget(c, remap);
    }

    /**
     * One frame of the easing loop (an iteration of lines 307-341); `None`
     * when the loop goes on. The loop condition re-reads `auto_temp`, then
     * the quit flag is checked; a pending override re-checks the interval
     * and, when the boundary now points the other way (LOWERING before the
     * start, INCREASING after it), flips the direction, marks the next ease
     * fast and stops with `force` still set; otherwise `force` is cleared.
     * Then the step takes the eased value, and reaching `end` completes the
     * ease into HIGH from INCREASING and into LOW from any other state.
     */
    method RunFrame(f: Frame, b: Bounds, end: int) returns (stop: Option<Exit>)
      requires Valid()
      modifies this`jdayStart, this`jdayEnd, this`timeStart, this`timeEnd, this`dtStart, this`dtEnd,
        this`startR, this`endR, this`state, this`fastChange, this`force, this`step
      ensures stop != Some(Halted) ==> Valid()
      ensures jdayStart == old(jdayStart) && jdayEnd == old(jdayEnd)
      ensures stop == Some(SwitchedOff) <==> !f.autoTemp
      ensures stop == Some(Quit) <==> f.autoTemp && f.quit
      ensures stop != Some(Running)
      ensures stop == Some(SwitchedOff) || stop == Some(Quit) ==> force == (old(force) || f.forceRaised)
      ensures stop != Some(Done) && stop != Some(Preempted) ==> state == old(state)
      ensures stop != Some(Preempted) ==> fastChange == old(fastChange)
      ensures stop.None? || stop == Some(Done) ==> !force && step == f.eased
      ensures stop.None? ==> step != end
      ensures !(stop.None? || stop == Some(Done)) ==> step == old(step)
      ensures stop == Some(Done) ==> step == end && state == (if old(state) == Increasing then High else Low)
      ensures stop == Some(Halted) ==> !b.Ok()
      ensures !Resets(f, old(force)) ==> Boundaries() == old(Boundaries())
      ensures Resets(f, old(force)) ==> (stop == Some(Halted) <==> !b.Ok())
      ensures stop == Some(Halted) ==> Resets(f, old(force))
      ensures Resets(f, old(force)) && b.Ok() ==> CheckedAt(b, f.now)
      ensures stop == Some(Preempted) ==>
        Resets(f, old(force)) && force && fastChange &&
        ((old(state) == Lowering && !startR && state == Increasing) ||
         (old(state) == Increasing && startR && state == Lowering))
      ensures Resets(f, old(force)) && b.Ok() ==>
        (stop == Some(Preempted) <==> !KeepsDirection(old(state), f.now, At(old(jdayStart), b.start.value)))
    {
      force := force || f.forceRaised;
      if !f.autoTemp {
        return Some(SwitchedOff);
      }
      if f.quit {
        return Some(Quit);
      }
      if force {
        stop := FrameOverride(b, f.now);
        if stop.Some? {
          return;
        }
      }
      step := f.eased;
      if step == end {
        state := if state == Increasing then High else Low;
        return Some(Done);
      }
      stop := None;
    }

    /**
     * A pending override inside the easing loop (lines 311-330): the
     * interval is re-checked; LOWERING before the start turns INCREASING and
     * INCREASING after it turns LOWERING, each marking the next ease fast and
     * stopping the loop with `force` still set; otherwise `force` is cleared
     * and the loop goes on (`None`).
     */
    method FrameOverride(b: Bounds, now: Instant) returns (stop: Option<Exit>)
      requires Valid()
      requires force
      modifies this`jdayStart, this`jdayEnd, this`timeStart, this`timeEnd, this`dtStart, this`dtEnd,
        this`startR, this`endR, this`state, this`fastChange, this`force
      ensures jdayStart == old(jdayStart) && jdayEnd == old(jdayEnd)
      ensures stop == None || stop == Some(Preempted) || stop == Some(Halted)
      ensures stop == Some(Halted) <==> !b.Ok()
      ensures stop != Some(Halted) ==> Valid() && CheckedAt(b, now)
      ensures b.Ok() ==>
        (stop == Some(Preempted) <==> (old(state) == Lowering && !startR) || (old(state) == Increasing && startR))
      ensures stop != Some(Preempted) ==> state == old(state) && fastChange == old(fastChange)
      ensures stop.None? ==> !force
      ensures stop == Some(Preempted) ==>
        force && fastChange &&
        ((old(state) == Lowering && !startR && state == Increasing) ||
         (old(state) == Increasing && startR && state == Lowering))
    {
      var ok := ResetInterval(false, b, now);
      if !ok {
        return Some(Halted);
      }
      if !startR && state == Lowering {
        state := Increasing;
        fastChange := true;
        return Some(Preempted);
      }
      if startR && state == Increasing {
        state := Lowering;
        fastChange := true;
        return Some(Preempted);
      }
      force := false;
      stop := None;
    }

    ghost function Current(): Origin
      reads this
    {
      Origin(state, fastChange, step, force, jdayStart, jdayEnd, Boundaries())
    }

    /** The invariant of the easing loop after `k` applied frames, started from `o`. */
    ghost predicate Progress(o: Origin, b: Bounds, end: int, frames: seq<Frame>, k: nat, last: Option<nat>)
      requires k <= |frames|
      reads this
    {
      Valid() && state == o.state && fastChange == o.fastChange &&
      jdayStart == o.jdayStart && jdayEnd == o.jdayEnd &&
      step == (if k == 0 then o.step else frames[k - 1].eased) &&
      (forall j :: 0 <= j < k ==> frames[j].autoTemp && !frames[j].quit && frames[j].eased != end) &&
      (b.Ok() ==> NonePreempted(frames, o.force, k, o.state, At(o.jdayStart, b.start.value))) &&
      force == (k == 0 && o.force) &&
      last == LastReset(frames, o.force, k) &&
      (last.None? ==> Boundaries() == o.bounds) &&
      (last.Some? ==> CheckedAt(b, frames[last.value].now))
    }

    /** What the easing loop, started from `o`, promises when it leaves with
        `exit` after `ran` applied frames. */
    ghost predicate Outcome(o: Origin, b: Bounds, end: int, frames: seq<Frame>, exit: Exit, ran: nat, last: Option<nat>)
      requires ran <= |frames|
      reads this
    {
      (exit != Halted ==> Valid()) &&
      (exit == Running ==> ran == |frames|) &&
      (exit == Done ==> 0 < ran) &&
      (exit != Done && exit != Running ==> ran < |frames|) &&
      step == (if ran == 0 then o.step else frames[ran - 1].eased) &&
      (exit == Done ==> step == end && state == (if o.state == Increasing then High else Low)) &&
      (forall j :: 0 <= j < ran ==> frames[j].autoTemp && !frames[j].quit) &&
      (b.Ok() ==> NonePreempted(frames, o.force, ran, o.state, At(o.jdayStart, b.start.value))) &&
      (forall j :: 0 <= j < ran && (j < ran - 1 || exit != Done) ==> frames[j].eased != end) &&
      (exit == SwitchedOff ==> !frames[ran].autoTemp) &&
      (exit == Quit ==> frames[ran].autoTemp && frames[ran].quit) &&
      (exit == Halted ==> !b.Ok()) &&
      (exit == Preempted ==>
        force && fastChange &&
        ((o.state == Lowering && !startR && state == Increasing) ||
         (o.state == Increasing && startR && state == Lowering))) &&
      (exit != Done && exit != Preempted ==> state == o.state) &&
      (exit != Preempted ==> fastChange == o.fastChange) &&
      (exit == Done || exit == Running ==> (0 < ran ==> !force) && (ran == 0 ==> force == o.force)) &&
      (exit == SwitchedOff || exit == Quit ==> force == ((ran == 0 && o.force) || frames[ran].forceRaised)) &&
      jdayStart == o.jdayStart && jdayEnd == o.jdayEnd &&
      Rechecked(o, b, frames, exit, ran, last)
    }

    /** The part of `Outcome` about where the interval was last re-checked. */
    ghost predicate Rechecked(o: Origin, b: Bounds, frames: seq<Frame>, exit: Exit, ran: nat, last: Option<nat>)
      requires ran <= |frames| && (exit != Done && exit != Running ==> ran < |frames|)
      reads this
    {
      (exit == Halted || exit == Preempted ==> Resets(frames[ran], ran == 0 && o.force)) &&
      last == LastReset(frames, o.force, if exit == Done || exit == Running then ran else ran + 1) &&
      (last.None? ==> Boundaries() == o.bounds) &&
      (last.Some? && exit != Halted ==> CheckedAt(b, frames[last.value].now))
    }

    /** One iteration of the easing loop: frame `k` either lets the loop go
        on, keeping its invariant, or ends it with the loop's outcome. */
    method Advance(ghost o: Origin, b: Bounds, end: int, frames: seq<Frame>, k: nat, ghost last: Option<nat>)
      returns (stop: Option<Exit>, ghost last': Option<nat>)
      requires k < |frames| && Progress(o, b, end, frames, k, last)
      modifies this`jdayStart, this`jdayEnd, this`timeStart, this`timeEnd, this`dtStart, this`dtEnd,
        this`startR, this`endR, this`state, this`fastChange, this`force, this`step
      ensures stop != Some(Running)
      ensures stop.None? ==> Progress(o, b, end, frames, k + 1, last')
      ensures stop.Some? ==> Outcome(o, b, end, frames, stop.value, if stop.value == Done then k + 1 else k, last')
    {
      stop := RunFrame(frames[k], b, end);
      last' := if Resets(frames[k], k == 0 && o.force) then Some(k) else last;
      assert last' == LastReset(frames, o.force, k + 1);
    }

    /** The easing loop proper, started from `o`, leaving with its `Outcome`. */
    method EaseLoop(ghost o: Origin, b: Bounds, end: int, frames: seq<Frame>) returns (exit: Exit, ran: nat, ghost last: Option<nat>)
      requires Progress(o, b, end, frames, 0, None)
      modifies this`jdayStart, this`jdayEnd, this`timeStart, this`timeEnd, this`dtStart, this`dtEnd,
        this`startR, this`endR, this`state, this`fastChange, this`force, this`step
      ensures ran <= |frames| && Outcome(o, b, end, frames, exit, ran, last)
    {
      var k := 0;
      last := None;
      while k < |frames|
        invariant 0 <= k <= |frames|
        invariant Progress(o, b, end, frames, k, last)
      {
        var stop;
        stop, last := Advance(o, b, end, frames, k, last);
        if stop.Some? {
          exit := stop.value;
          ran := if exit == Done then k + 1 else k;
          return;
        }
        k := k + 1;
      }
      exit, ran := Running, k;
    }

    /**
     * The easing loop (lines 307-341) over the frames given: it runs frame
     * after frame until one stops it; `ran` counts the frames whose eased
     * value was applied. It completes only on a frame whose value is `end`.
     * The interval is re-checked only on frames that `Resets`; the boundary
     * times and reached flags are those of the last such frame, or unchanged
     * when there is none.
     */
    method RunFrames(b: Bounds, end: int, frames: seq<Frame>) returns (exit: Exit, ran: nat, ghost last: Option<nat>)
      requires Valid()
      modifies this
      ensures exit != Halted ==> Valid()
      ensures ran <= |frames|
      ensures exit == Running ==> ran == |frames|
      ensures exit == Done ==> 0 < ran
      ensures exit != Done && exit != Running ==> ran < |frames|
      ensures step == (if ran == 0 then old(step) else frames[ran - 1].eased)
      ensures exit == Done ==> step == end && state == (if old(state) == Increasing then High else Low)
      ensures forall j :: 0 <= j < ran ==> frames[j].autoTemp && !frames[j].quit
      ensures b.Ok() ==> NonePreempted(frames, old(force), ran, old(state), At(old(jdayStart), b.start.value))
      ensures forall j :: 0 <= j < ran && (j < ran - 1 || exit != Done) ==> frames[j].eased != end
      ensures exit == SwitchedOff ==> !frames[ran].autoTemp
      ensures exit == Quit ==> frames[ran].autoTemp && frames[ran].quit
      ensures exit == Halted ==> !b.Ok()
      ensures exit == Preempted ==>
        force && fastChange &&
        ((old(state) == Lowering && !startR && state == Increasing) ||
         (old(state) == Increasing && startR && state == Lowering))
      ensures exit != Done && exit != Preempted ==> state == old(state)
      ensures exit != Preempted ==> fastChange == old(fastChange)
      ensures exit == Done || exit == Running ==> (0 < ran ==> !force) && (ran == 0 ==> force == old(force))
      ensures exit == SwitchedOff || exit == Quit ==> force == ((ran == 0 && old(force)) || frames[ran].forceRaised)
      ensures jdayStart == old(jdayStart) && jdayEnd == old(jdayEnd) && needsChange == old(needsChange)
      ensures exit == Halted || exit == Preempted ==> Resets(frames[ran], ran == 0 && old(force))
      ensures last == LastReset(frames, old(force), if exit == Done || exit == Running then ran else ran + 1)
      ensures last.None? ==> Boundaries() == old(Boundaries())
      ensures last.Some? && exit != Halted ==> CheckedAt(b, frames[last.value].now)
    {
      ghost var o := Current();
      exit, ran, last := EaseLoop(o, b, end, frames);
    }
  }
}
