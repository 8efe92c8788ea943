/**
 * The change gating of `recordScreen` (src/main.cpp:494-562): the loop
 * publishes a new image brightness to `adjustBrightness` only once the
 * brightness has drifted by more than `threshold` since the last publish, or
 * when a publish is forced. Capturing the screen and `calcBrightness` are
 * not part of this model; each sample brings the brightness it computed.
 */
module Capture {
  import opened Wrappers
  import opened Cfg
  import opened Brightness

  function Abs(x: int): (r: int)
    ensures r >= 0 && (r == x || r == -x)
  {
    if x < 0 then -x else x
  }

  /** What one pass of the inner capture loop observes: the options it reads,
      the quit flag, and the brightness of the snapshot taken. */
  datatype Sample = Sample(autoBr: bool, quit: bool, imgBr: int, c: Config)

  /** The locals of `recordScreen` that the gating keeps between passes. */
  datatype Gating = Gating(imgDelta: int, force: bool, prevImgBr: int, prevMin: int, prevMax: int, prevOffset: int)

  /**
   * One pass of the inner loop (lines 536-562) on the gating state: the new
   * state and whether the brightness was published. The drift since the
   * previous snapshot is added to `img_delta`; when the sum exceeds
   * `threshold`, or a publish is forced, the brightness is published and the
   * sum and `force` are reset. A change of `min_br`, `max_br` or `offset`
   * since the previous pass forces the next publish. The current values
   * become the previous ones.
   */
  function Step(g: Gating, imgBr: int, c: Config): (r: (Gating, bool))
    ensures var acc := g.imgDelta + Abs(g.prevImgBr - imgBr);
      (r.1 <==> acc > c.threshold || g.force) &&
      (r.1 ==> r.0.imgDelta == 0) &&
      (!r.1 ==> r.0.imgDelta == acc && r.0.imgDelta >= g.imgDelta)
    ensures r.0.force <==> c.minBr != g.prevMin || c.maxBr != g.prevMax || c.offset != g.prevOffset
    ensures r.0.prevImgBr == imgBr && r.0.prevMin == c.minBr && r.0.prevMax == c.maxBr && r.0.prevOffset == c.offset
  {
    var acc := g.imgDelta + Abs(g.prevImgBr - imgBr);
    var published := acc > c.threshold || g.force;
    var changed := c.minBr != g.prevMin || c.maxBr != g.prevMax || c.offset != g.prevOffset;
    (Gating(if published then 0 else acc, changed, imgBr, c.minBr, c.maxBr, c.offset), published)
  }

  /** The gating state after the first `k` samples of `ss`, gated one after
      another from `g`: the previous values are those of sample `k - 1`. */
  function RunTo(g: Gating, ss: seq<Sample>, k: nat): (r: Gating)
    requires k <= |ss|
    ensures k == 0 ==> r == g
    ensures 0 < k ==> r.prevImgBr == ss[k - 1].imgBr && r.prevMin == ss[k - 1].c.minBr &&
                      r.prevMax == ss[k - 1].c.maxBr && r.prevOffset == ss[k - 1].c.offset
  {
    if k == 0 then g
    else Step(RunTo(g, ss, k - 1), ss[k - 1].imgBr, ss[k - 1].c).0
  }

  /** Whether sample `i` of `ss`, gated from `g`, was published. */
  predicate PublishedAt(g: Gating, ss: seq<Sample>, i: nat)
    requires i < |ss|
  {
    Step(RunTo(g, ss, i), ss[i].imgBr, ss[i].c).1
  }

  /** Whether any of the first `k` samples, gated from `g`, was published. */
  predicate AnyPublished(g: Gating, ss: seq<Sample>, k: nat)
    requires k <= |ss|
  {
    k > 0 && (PublishedAt(g, ss, k - 1) || AnyPublished(g, ss, k - 1))
  }

  /** The index of the last of the first `k` samples, gated from `g`, that
      was published, if any was. */
  function LastPublishedIndex(g: Gating, ss: seq<Sample>, k: nat): (r: Option<nat>)
    requires k <= |ss|
    ensures r.Some? ==> r.value < k
  {
    if k == 0 then None
    else if PublishedAt(g, ss, k - 1) then Some(k - 1)
    else LastPublishedIndex(g, ss, k - 1)
  }

  /** The brightness in the hand-off after the first `k` samples gated from
      `g`, when it held `v` before. */
  function LastPublished(g: Gating, ss: seq<Sample>, k: nat, v: int): int
    requires k <= |ss|
  {
    match LastPublishedIndex(g, ss, k)
    case None => v
    case Some(i) => ss[i].imgBr
  }

  /** `LastPublishedIndex` finds a published sample with none published after
      it, and finds nothing exactly when no sample was published. */
  lemma {:induction false} LastPublishedIsLast(g: Gating, ss: seq<Sample>, k: nat)
    requires k <= |ss|
    ensures var r := LastPublishedIndex(g, ss, k);
      (r.Some? ==> PublishedAt(g, ss, r.value)) &&
      (r.Some? ==> forall j :: r.value < j < k ==> !PublishedAt(g, ss, j)) &&
      (r.None? <==> !AnyPublished(g, ss, k))
  {
    if k > 0 && !PublishedAt(g, ss, k - 1) {
      LastPublishedIsLast(g, ss, k - 1);
    }
  }

  /** The sum of the drifts between consecutive brightness values over the
      first `k` samples, starting from `prev`. */
  function Drift(prev: int, ss: seq<Sample>, k: nat): (r: int)
    requires k <= |ss|
    ensures r >= 0
  {
    if k == 0 then 0
    else Drift(prev, ss, k - 1) + Abs((if k == 1 then prev else ss[k - 2].imgBr) - ss[k - 1].imgBr)
  }

  /** A forced gating publishes the first sample, so any non-empty run publishes. */
  lemma {:induction false} ForcedPublishes(g: Gating, ss: seq<Sample>, k: nat, v: int)
    requires g.force && 0 < k <= |ss|
    ensures PublishedAt(g, ss, 0) && AnyPublished(g, ss, k)
    ensures k == 1 ==> LastPublished(g, ss, k, v) == ss[0].imgBr && RunTo(g, ss, k).imgDelta == 0
  {
    if k > 1 {
      ForcedPublishes(g, ss, k - 1, v);
    }
  }

  /**
   * Without a publish, `img_delta` holds its starting value plus every
   * drift seen, and that sum never exceeded the threshold of the last pass.
   */
  lemma {:induction false} UnpublishedDriftAccumulates(g: Gating, ss: seq<Sample>, k: nat)
    requires k <= |ss| && !AnyPublished(g, ss, k)
    ensures RunTo(g, ss, k).imgDelta == g.imgDelta + Drift(g.prevImgBr, ss, k)
    ensures 0 < k ==> RunTo(g, ss, k).imgDelta <= ss[k - 1].c.threshold
  {
    if k > 0 {
      UnpublishedDriftAccumulates(g, ss, k - 1);
    }
  }

  /** The locals of `recordScreen` (lines 494-502) and the hand-off it writes. */
  class Gate {
    var imgDelta: int
    var force: bool
    var prevImgBr: int
    var prevMin: int
    var prevMax: int
    var prevOffset: int
    const args: Args

    ghost function State(): Gating
      reads this
    {
      Gating(imgDelta, force, prevImgBr, prevMin, prevMax, prevOffset)
    }

    constructor(args: Args)
      ensures imgDelta == 0 && !force && this.args == args
      ensures prevImgBr == 0 && prevMin == 0 && prevMax == 0 && prevOffset == 0
    {
      imgDelta, force := 0, false;
      prevImgBr, prevMin, prevMax, prevOffset := 0, 0, 0, 0;
      this.args := args;
    }

    /** Lines 520-530: with `auto_br` on, the next publish is forced; with
        it off the gating state is left alone. */
    method Activate(autoBr: bool) returns (active: bool)
      modifies this`force
      ensures active == autoBr
      ensures force == (autoBr || old(force))
    {
      if autoBr {
        force := true;
      }
      active := autoBr;
    }

    /**
     * One pass of the inner loop (lines 536-562): the gating state moves on
     * by `Step`, whose contract says what it does to each local, and a
     * publish hands the brightness over and marks it pending; without a
     * publish the hand-off is untouched.
     */
    method Tick(imgBr: int, c: Config) returns (published: bool)
      modifies this, args
      ensures (State(), published) == Step(old(State()), imgBr, c)
      ensures published ==> args.imgBr == imgBr && args.brNeedsChange
      ensures !published ==>
        args.imgBr == old(args.imgBr) && args.brNeedsChange == old(args.brNeedsChange)
    {
      imgDelta := imgDelta + Abs(prevImgBr - imgBr);
      published := imgDelta > c.threshold || force;
      if published {
        imgDelta := 0;
        force := false;
        args.Publish(imgBr);
      }
      if c.minBr != prevMin || c.maxBr != prevMax || c.offset != prevOffset {
        force := true;
      }
      prevImgBr := imgBr;
      prevMin, prevMax, prevOffset := c.minBr, c.maxBr, c.offset;
    }

    /**
     * The inner loop (lines 532-562) over the samples given: samples are
     * gated one after another while `auto_br` stays on and quit is not set.
     * `ran` counts the samples gated.
     */
    method Gated(samples: seq<Sample>) returns (ran: nat)
      modifies this, args
      ensures ran <= |samples|
      ensures forall j :: 0 <= j < ran ==> samples[j].autoBr && !samples[j].quit
      ensures ran < |samples| ==> !samples[ran].autoBr || samples[ran].quit
      ensures State() == RunTo(old(State()), samples, ran)
      ensures args.imgBr == LastPublished(old(State()), samples, ran, old(args.imgBr))
      ensures args.brNeedsChange == (old(args.brNeedsChange) || AnyPublished(old(State()), samples, ran))
    {
      ghost var g, v0, b0 := State(), args.imgBr, args.brNeedsChange;
      ran := 0;
      while ran < |samples| && samples[ran].autoBr && !samples[ran].quit
        invariant 0 <= ran <= |samples|
        invariant forall j :: 0 <= j < ran ==> samples[j].autoBr && !samples[j].quit
        invariant State() == RunTo(g, samples, ran)
        invariant args.imgBr == LastPublished(g, samples, ran, v0)
        invariant args.brNeedsChange == (b0 || AnyPublished(g, samples, ran))
      {
        var s := samples[ran];
        var _ := Tick(s.imgBr, s.c);
        ran := ran + 1;
      }
    }

    /**
     * One activation of the capture loop (lines 520-562) over the samples
     * given: with `auto_br` off nothing happens; with it on the gating is
     * forced and the samples are gated. The first gated sample is therefore
     * always published, and after any gated sample a value is pending in the
     * hand-off.
     */
    method Record(autoBr: bool, samples: seq<Sample>) returns (ran: nat)
      modifies this, args
      ensures ran <= |samples|
      ensures !autoBr ==> ran == 0 && unchanged(this) && unchanged(args)
      ensures forall j :: 0 <= j < ran ==> samples[j].autoBr && !samples[j].quit
      ensures autoBr && ran < |samples| ==> !samples[ran].autoBr || samples[ran].quit
      ensures var g := old(State()).(force := true);
        autoBr ==>
          State() == RunTo(g, samples, ran) &&
          args.imgBr == LastPublished(g, samples, ran, old(args.imgBr)) &&
          args.brNeedsChange == (old(args.brNeedsChange) || AnyPublished(g, samples, ran))
      ensures var g := old(State()).(force := true);
        0 < ran ==>
          PublishedAt(g, samples, 0) && LastPublishedIndex(g, samples, ran).Some? &&
          args.imgBr == samples[LastPublishedIndex(g, samples, ran).value].imgBr
      ensures 0 < ran ==> args.brNeedsChange
      ensures 0 < ran ==>
        prevImgBr == samples[ran - 1].imgBr && prevMin == samples[ran - 1].c.minBr &&
        prevMax == samples[ran - 1].c.maxBr && prevOffset == samples[ran - 1].c.offset
      ensures ran == 1 ==> args.imgBr == samples[0].imgBr && imgDelta == 0
    {
      var active := Activate(autoBr);
      if !active {
        return 0;
      }
      ghost var g := State();
      ghost var v0 := args.imgBr;
      ran := Gated(samples);
      if 0 < ran {
        ForcedPublishes(g, samples, ran, v0);
        LastPublishedIsLast(g, samples, ran);
      }
    }
  }
}
