/**
 * The frame counter of saveVideo (app/page.tsx): an interval draws one frame
 * per tick, 33 ms of animation time apart, until 150 frames are captured.
 */
module Video {

  const Frames: nat := 150
  const Delay: nat := 33

  /**
   * `Math.round((captured / frames) * 100)`, with `Math.round(x)` the floor of
   * `x + 0.5`. The exact value `2 * captured / 3` is never halfway between two
   * integers, so rounding the exact value and the floating-point one agree.
   */
  function Progress(captured: nat): int {
    ((captured as real / 150.0) * 100.0 + 0.5).Floor
  }

  lemma FloorMonotone(a: real, b: real)
    requires a <= b
    ensures a.Floor <= b.Floor
  {
  }

  /** More captured frames never show less progress. */
  lemma ProgressMonotone(a: nat, b: nat)
    requires a <= b
    ensures Progress(a) <= Progress(b)
  {
    assert a as real / 150.0 <= b as real / 150.0;
    FloorMonotone((a as real / 150.0) * 100.0 + 0.5, (b as real / 150.0) * 100.0 + 0.5);
  }

  /** Progress starts at 0 and reaches 100 exactly when the last frame is captured. */
  lemma ProgressEnds()
    ensures Progress(0) == 0 && Progress(Frames) == 100
    ensures forall c: nat :: c < Frames ==> Progress(c) < 100
  {
    forall c: nat | c < Frames
      ensures Progress(c) < 100
    {
      var x := (c as real / 150.0) * 100.0 + 0.5;
      assert x <= (149.0 / 150.0) * 100.0 + 0.5;
      assert x < 100.0;
    }
  }

  /** During a capture progress stays in [0, 100]. */
  lemma ProgressBounds(c: nat)
    requires c <= Frames
    ensures 0 <= Progress(c) <= 100
  {
    ProgressEnds();
    ProgressMonotone(0, c);
    ProgressMonotone(c, Frames);
  }

  /** The capture state of the page: the interval's counter and the two state hooks it sets. */
  class Recorder {
    /** Frames drawn by the current capture. */
    var captured: nat
    /** `videoProgress`. */
    var progress: int
    /** `videoRecording`. */
    var recording: bool
    /** Whether the capture interval is still running. */
    var capturing: bool
    /** The time passed to `drawArt` by each tick, in order. */
    var frameTimes: seq<real>

    ghost predicate Valid()
      reads this
    {
      && captured <= Frames && progress == Progress(captured) && |frameTimes| == captured
      && (capturing ==> recording && captured < Frames)
    }

    constructor ()
      ensures Valid() && !recording && !capturing && captured == 0 && frameTimes == []
    {
      captured := 0;
      progress := 0;
      recording := false;
      capturing := false;
      frameTimes := [];
    }

    /**
     * saveVideo: ignored while a video is recording or when the art is
     * still, and when there is no canvas; otherwise a capture starts from 0.
     */
    method SaveVideo(isAnimated: bool, hasCanvas: bool)
      requires Valid()
      modifies this
      ensures Valid()
      ensures old(recording) || !isAnimated || !hasCanvas ==>
        recording == old(recording) && capturing == old(capturing) && captured == old(captured)
        && progress == old(progress) && frameTimes == old(frameTimes)
      ensures !old(recording) && isAnimated && hasCanvas ==>
        recording && capturing && captured == 0 && progress == 0 && frameTimes == []
    {
      if recording || !isAnimated {
        return;
      }
      if !hasCanvas {
        return;
      }
      captured := 0;
      progress := 0;
      recording := true;
      capturing := true;
      frameTimes := [];
    }

    /** One tick of the interval: draw at `now + captured * delay`, count, and stop after the last frame. */
    method Tick(now: real)
      requires Valid() && capturing
      modifies this`captured, this`progress, this`capturing, this`frameTimes
      ensures Valid()
      ensures frameTimes == old(frameTimes) + [now + (old(captured) * Delay) as real]
      ensures captured == old(captured) + 1 && progress == Progress(captured)
      ensures capturing <==> captured < Frames
    {
      frameTimes := frameTimes + [now + (captured * Delay) as real];
      captured := captured + 1;
      progress := Progress(captured);
      if captured >= Frames {
        capturing := false;
      }
    }

    /** `recorder.onstop`: the video is saved and recording ends. */
    method Stopped()
      requires Valid() && !capturing
      modifies this`recording
      ensures Valid() && !recording
    {
      recording := false;
    }

    /**
     * A whole capture, with `clock[k]` the value of `performance.now()` at
     * tick `k`: exactly 150 frames are drawn, each 33 ms further into the
     * animation than the clock, and progress ends at 100.
     */
    method Capture(clock: seq<real>)
      requires Valid() && capturing && captured == 0 && |clock| >= Frames
      modifies this`captured, this`progress, this`capturing, this`frameTimes
      ensures Valid() && !capturing && captured == Frames && progress == 100
      ensures |frameTimes| == Frames
      ensures forall k :: 0 <= k < Frames ==> frameTimes[k] == clock[k] + (k * Delay) as real
    {
      var k := 0;
      while capturing
        invariant Valid() && k == captured
        invariant capturing <==> k < Frames
        invariant forall j :: 0 <= j < k ==> frameTimes[j] == clock[j] + (j * Delay) as real
        decreases Frames - k
      {
        Tick(clock[k]);
        k := k + 1;
      }
      ProgressEnds();
    }
  }
}
