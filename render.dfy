/**
 * The frame ticker: each animation frame it measures the frame rate,
 * works out how many frames the game falls behind a 60 Hz pace, and
 * announces a tick with a frame counter that wraps every two seconds.
 */
module Render {
  import opened Util

  /** The pace the game logic is written for, in frames per second. */
  const TargetFps: int := 60
  /** The most frames one tick makes up for. */
  const MaxFrameSkip: int := 30

  /** Math.round: the nearest integer, halves rounded up. */
  function Round(x: real): (n: int)
    ensures n as real - 0.5 <= x < n as real + 0.5
  {
    (x + 0.5).Floor
  }

  /** (60 - fps) / fps: how many frames of the measured rate the 60 Hz pace is ahead by. */
  function Shortfall(fps: nat): (x: real)
    requires fps > 0
    ensures x * fps as real == (TargetFps - fps) as real
  {
    (TargetFps - fps) as real / fps as real
  }

  /**
   * The frames one tick runs beyond the first, for a measured rate of
   * `fps` frames per second: the shortfall, rounded, and clamped to
   * [0, 30].  A measured rate of zero makes the quotient infinite, which
   * the clamp takes to 30.
   */
  function FrameSkip(fps: nat): (k: nat)
    ensures k <= MaxFrameSkip
  {
    if fps == 0 then MaxFrameSkip
    else Clamp(Round(Shortfall(fps)) as real, 0.0, MaxFrameSkip as real).Floor
  }

  /** Multiplying by a positive rate keeps a strict order of reals. */
  lemma ScaleLess(a: real, b: real, f: real)
    requires f > 0.0 && a < b
    ensures a * f < b * f
  {
  }

  /** Multiplying by a positive rate keeps an order of reals. */
  lemma ScaleAtMost(a: real, b: real, f: real)
    requires f > 0.0 && a <= b
    ensures a * f <= b * f
  {
  }

  /** The shortfall is below b exactly when b + 1 frames at the measured rate take longer than 60 frames. */
  lemma ShortfallBelow(fps: nat, b: real)
    requires fps > 0
    ensures Shortfall(fps) < b <==> TargetFps as real < (b + 1.0) * fps as real
  {
    var f, x := fps as real, Shortfall(fps);
    if x < b {
      ScaleLess(x, b, f);
    } else {
      ScaleAtMost(b, x, f);
    }
  }

  /** No frame is skipped exactly when the rate is above 40 frames per second. */
  lemma NoSkipIff(fps: nat)
    ensures FrameSkip(fps) == 0 <==> fps > 40
  {
    if fps > 0 {
      ShortfallBelow(fps, 0.5);
    }
  }

  /** Between 2 and 120 frames per second the shortfall is rounded without clamping. */
  lemma UnclampedSkip(fps: nat)
    requires 2 <= fps <= 120
    ensures FrameSkip(fps) == Round(Shortfall(fps))
  {
    ShortfallBelow(fps, -0.5);
    ShortfallBelow(fps, 29.5);
  }

  /**
   * The skip makes up the shortfall: at 2 to 120 frames per second, the
   * 1 + k runs of a tick are within half a frame of the 60 runs per second
   * the game expects, counted over one second of ticks.
   */
  lemma SkipKeepsPace(fps: nat)
    requires 2 <= fps <= 120
    ensures var runs := (1 + FrameSkip(fps)) as real * fps as real;
      runs - TargetFps as real <= fps as real / 2.0 && TargetFps as real - runs < fps as real / 2.0
  {
    UnclampedSkip(fps);
    var n := Round(Shortfall(fps));
    ShortfallBelow(fps, n as real + 0.5);
    ShortfallBelow(fps, n as real - 0.5);
  }

  /** The ticker: its nominal rate and its frame counter. */
  class Renderer {
    var fps: int
    var counter: int

    /** The counter stays within two seconds' worth of frames. */
    ghost predicate Valid()
      reads this
    {
      fps == TargetFps && 0 <= counter <= 2 * fps
    }

    constructor ()
      ensures Valid() && counter == 0
    {
      fps := TargetFps;
      counter := 0;
    }

    /**
     * tick, for a measured rate: the counter goes back to zero once it
     * reaches two seconds' worth of frames, is announced with the frame
     * skip, and then advances.
     */
    method Tick(measured: nat) returns (frameCount: nat, frameSkip: nat)
      requires Valid()
      modifies this
      ensures Valid()
      ensures frameSkip == FrameSkip(measured)
      ensures frameCount == old(counter) % (2 * TargetFps) && frameCount < 2 * TargetFps
      ensures counter == frameCount + 1
    {
      frameSkip := FrameSkip(measured);
      if counter >= fps * 2 {
        counter := 0;
      }
      frameCount := counter;
      counter := counter + 1;
    }
  }
}
