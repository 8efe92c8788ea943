/**
 * The brightness side of the controller: the one-slot hand-off `Args`
 * between the capture loop and `adjustBrightness` (src/main.cpp:352-363),
 * the clamped brightness target, and `adjustBrightness` itself
 * (src/main.cpp:365-432) as one wake-up followed by its easing loop.
 * `remap(img_br, 0, 255, 0, brt_slider_steps)` truncated to `int` is the
 * caller's `remap`; the easing curve's value for each frame arrives with
 * the frame.
 */
module Brightness {
  import opened Wrappers
  import opened Cfg

  /** The image brightness last published by the capture loop, and whether
      `adjustBrightness` has yet to take it. */
  class Args {
    var imgBr: int
    var brNeedsChange: bool

    constructor()
      ensures imgBr == 0 && !brNeedsChange
    {
      imgBr, brNeedsChange := 0, false;
    }

    /** The capture loop's publish (lines 544-549): the slot is overwritten
        and marked pending, whether or not the previous value was taken. */
    method Publish(v: int)
      modifies this
      ensures imgBr == v && brNeedsChange
    {
      imgBr := v;
      brNeedsChange := true;
    }

    /** `adjustBrightness` takes the pending value (lines 384-386). */
    method Take() returns (v: int)
      modifies this`brNeedsChange
      ensures v == imgBr && !brNeedsChange
    {
      brNeedsChange := false;
      v := imgBr;
    }
  }

  /** `std::clamp(v, lo, hi)`, whose behaviour is undefined unless `lo <= hi`. */
  function Clamp(v: int, lo: int, hi: int): (r: int)
    requires lo <= hi
    ensures lo <= r <= hi
    ensures lo <= v <= hi ==> r == v
    ensures v < lo ==> r == lo
    ensures v > hi ==> r == hi
  {
    if v < lo then lo else if hi < v then hi else v
  }

  /**
   * The brightness step `adjustBrightness` aims for (lines 389-390): the
   * darker the screen, the higher the step, shifted by `offset` and kept
   * within `[min_br, max_br]`.
   */
  function Target(imgBr: int, remap: int -> int, brtSliderSteps: int, c: Config): (t: int)
    requires c.minBr <= c.maxBr
    ensures c.minBr <= t <= c.maxBr
    ensures var raw := brtSliderSteps - remap(imgBr) + c.offset;
      (c.minBr <= raw <= c.maxBr ==> t == raw) &&
      (raw < c.minBr ==> t == c.minBr) &&
      (raw > c.maxBr ==> t == c.maxBr)
  {
    Clamp(brtSliderSteps - remap(imgBr) + c.offset, c.minBr, c.maxBr)
  }

  /** `remap` never maps a brighter image to a smaller value. */
  ghost predicate Monotone(remap: int -> int) {
    forall a: int, b: int :: a <= b ==> remap(a) <= remap(b)
  }

  /** With a monotone `remap`, a brighter image never gets a higher target. */
  lemma TargetAntitone(a: int, b: int, remap: int -> int, brtSliderSteps: int, c: Config)
    requires c.minBr <= c.maxBr && Monotone(remap) && a <= b
    ensures Target(b, remap, brtSliderSteps, c) <= Target(a, remap, brtSliderSteps, c)
  {
  }

  /** What one frame of the easing loop observes: the value the capture loop
      published just before it (if any), `auto_br`, the quit flag, and the
      easing curve's value for the frame, already rounded up to an `int`. */
  datatype Frame = Frame(published: Option<int>, autoBr: bool, quit: bool, eased: int)

  /** What a wake-up decides: leave the thread (quit was set), do nothing
      (already at the target), or ease from `start` to `end`. */
  datatype Plan = Stop | AtTarget | Ease(start: int, end: int)

  /** Why the easing loop stopped; `Running` means the frames given ran out first. */
  datatype Exit = Done | NewValue | SwitchedOff | Quit | Running

  /** The state of `adjustBrightness`: the global `brt_step` and the hand-off. */
  class Adjuster {
    var brtStep: int
    const args: Args

    constructor(brtStep: int, args: Args)
      ensures this.brtStep == brtStep && this.args == args
    {
      this.brtStep := brtStep;
      this.args := args;
    }

    /**
     * One wake of `adjustBrightness` once a value is pending (lines 374-396):
     * with quit set the thread stops and takes nothing; otherwise it takes
     * the value and plans an ease to its target unless `brt_step` is already
     * there. `brt_step` is not changed by a wake.
     */
    method Wake(quit: bool, c: Config, remap: int -> int, brtSliderSteps: int) returns (plan: Plan)
      requires args.brNeedsChange
      requires c.minBr <= c.maxBr
      modifies args
      ensures brtStep == old(brtStep) && args.imgBr == old(args.imgBr)
      ensures plan == Stop <==> quit
      ensures quit ==> args.brNeedsChange
      ensures !quit ==> !args.brNeedsChange
      ensures plan == AtTarget <==> !quit && Target(args.imgBr, remap, brtSliderSteps, c) == brtStep
      ensures plan.Ease? ==>
        plan.start == brtStep && plan.end == Target(args.imgBr, remap, brtSliderSteps, c) &&
        plan.start != plan.end && c.minBr <= plan.end <= c.maxBr
    {
      if quit {
        return Stop;
      }
      var imgBr := args.Take();
      var target := Target(imgBr, remap, brtSliderSteps, c);
      if target == brtStep {
        return AtTarget;
      }
      plan := Ease(brtStep, target);
    }

    /**
     * The easing loop (lines 419-430) over the frames given. Before each
     * frame a new value may be published; the loop stops when one is pending,
     * when `auto_br` is off or when quit is set, and otherwise applies the
     * frame's eased value, stopping once `brt_step` reaches `end`. `ran`
     * counts the frames whose value was applied.
     */
    method RunFrames(end: int, frames: seq<Frame>) returns (exit: Exit, ran: nat)
      modifies this, args
      ensures ran <= |frames|
      ensures exit == Running ==> ran == |frames|
      ensures exit == Done ==> 0 < ran && brtStep == end
      ensures exit != Done && exit != Running ==> ran < |frames|
      ensures brtStep == (if ran == 0 then old(brtStep) else frames[ran - 1].eased)
      ensures 0 < ran ==> !old(args.brNeedsChange)
      ensures forall j :: 0 <= j < ran ==>
        frames[j].published.None? && frames[j].autoBr && !frames[j].quit
      ensures forall j :: 0 <= j < ran && (j < ran - 1 || exit != Done) ==> frames[j].eased != end
      ensures exit == NewValue ==> args.brNeedsChange && (old(args.brNeedsChange) || frames[ran].published.Some?)
      ensures exit != Done && exit != Running ==>
        (exit == NewValue <==> old(args.brNeedsChange) || frames[ran].published.Some?)
      ensures exit == NewValue && frames[ran].published.Some? ==> args.imgBr == frames[ran].published.value
      ensures !(exit == NewValue && frames[ran].published.Some?) ==> args.imgBr == old(args.imgBr)
      ensures exit != NewValue ==> args.brNeedsChange == old(args.brNeedsChange)
      ensures exit == SwitchedOff ==> !frames[ran].autoBr
      ensures exit == Quit ==> frames[ran].autoBr && frames[ran].quit
    {
      var k := 0;
      while k < |frames|
        invariant 0 <= k <= |frames|
        invariant brtStep == (if k == 0 then old(brtStep) else frames[k - 1].eased)
        invariant 0 < k ==> !old(args.brNeedsChange)
        invariant args.brNeedsChange == old(args.brNeedsChange) && args.imgBr == old(args.imgBr)
        invariant forall j :: 0 <= j < k ==>
          frames[j].published.None? && frames[j].autoBr && !frames[j].quit && frames[j].eased != end
      {
        var f := frames[k];
        if f.published.Some? {
          args.Publish(f.published.value);
        }
        if args.brNeedsChange {
          return NewValue, k;
        }
        if !f.autoBr {
          return SwitchedOff, k;
        }
        if f.quit {
          return Quit, k;
        }
        brtStep := f.eased;
        if brtStep == end {
          return Done, k + 1;
        }
        k := k + 1;
      }
      exit, ran := Running, k;
    }
  }
}
