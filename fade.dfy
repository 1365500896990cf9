/** The fade-out step of the play loop: frames that fall inside the trailing
    fade window are scaled, in place in the interleaved buffer, by a factor
    that falls linearly from 1 at the start of the window to 0 at its end. */
module Fade {
  import opened Int32
  import opened Decoder

  /** C's conversion of a floating value to an integer: truncation toward
      zero. */
  function Trunc(r: real): (n: int)
    ensures r >= 0.0 ==> 0 <= n && n as real <= r < n as real + 1.0
    ensures r < 0.0 ==> n <= 0 && n as real - 1.0 < r <= n as real
  {
    if r >= 0.0 then r.Floor else -((-r).Floor)
  }

  /** `fadedness` for a frame `into` samples into a window of `fadeSamples`. */
  function Factor(fadeSamples: int, into: int): real
    requires fadeSamples != 0
  {
    (fadeSamples - into) as real / fadeSamples as real
  }

  /** `sample *= factor` on a `short`: multiply, then truncate. */
  function Scale(sample: int, factor: real): int
  {
    Trunc(sample as real * factor)
  }

  /** The factor is 1 at the start of the window and 0 at its end. */
  lemma FactorEnds(fadeSamples: int)
    requires fadeSamples != 0
    ensures Factor(fadeSamples, 0) == 1.0
    ensures Factor(fadeSamples, fadeSamples) == 0.0
  {
    var f := fadeSamples as real;
    assert f / f == 1.0;
  }

  /** Within a window of `fadeSamples` samples, a frame strictly inside the
      window is scaled by a factor between 1/fadeSamples and
      (fadeSamples - 1)/fadeSamples, each step down by 1/fadeSamples. */
  lemma FactorBounds(fadeSamples: int, into: int)
    requires 0 < into < fadeSamples
    ensures 1.0 / fadeSamples as real <= Factor(fadeSamples, into) <= (fadeSamples - 1) as real / fadeSamples as real
    ensures 0.0 < Factor(fadeSamples, into) < 1.0
    ensures Factor(fadeSamples, into) - Factor(fadeSamples, into + 1) == 1.0 / fadeSamples as real
  {
    var f := fadeSamples as real;
    assert Factor(fadeSamples, into) == (f - into as real) / f;
    assert Factor(fadeSamples, into + 1) == (f - into as real - 1.0) / f;
  }

  /** Scaling by a factor in [0, 1] never grows a sample nor flips its sign,
      so a faded `short` stays a `short`. */
  lemma ScaleShrinks(sample: int, factor: real)
    requires 0.0 <= factor <= 1.0
    ensures Abs(Scale(sample, factor)) <= Abs(sample)
    ensures sample >= 0 ==> Scale(sample, factor) >= 0
    ensures sample <= 0 ==> Scale(sample, factor) <= 0
  {
    if sample >= 0 {
      ScaleBetween(sample, factor, 0, sample);
    } else {
      ScaleBetween(sample, factor, sample, 0);
    }
  }

  /** A sample scaled by a factor in [0, 1] lies between 0 and the sample. */
  lemma ScaleBetween(sample: int, factor: real, lo: int, hi: int)
    requires 0.0 <= factor <= 1.0
    requires (lo == 0 && hi == sample >= 0) || (lo == sample < 0 && hi == 0)
    ensures lo <= Scale(sample, factor) <= hi
  {
    var r := sample as real * factor;
    if sample >= 0 {
      ShrinkNonNegative(sample as real, factor);
    } else {
      ShrinkNonPositive(sample as real, factor);
    }
    TruncWithin(r, lo, hi);
  }

  /** Truncation keeps a value between two integers that bracket it. */
  lemma TruncWithin(r: real, lo: int, hi: int)
    requires lo as real <= r <= hi as real
    ensures lo <= Trunc(r) <= hi
  {
  }

  /** Multiplying a negative real by a factor in [0, 1] moves it toward 0. */
  lemma ShrinkNonPositive(x: real, factor: real)
    requires x < 0.0 && 0.0 <= factor <= 1.0
    ensures x <= x * factor <= 0.0
  {
    assert x * factor - x == (-x) * (1.0 - factor);
    assert x * factor == -((-x) * factor);
  }

  /** Multiplying a non-negative real by a factor in [0, 1] moves it toward 0. */
  lemma ShrinkNonNegative(x: real, factor: real)
    requires x >= 0.0 && 0.0 <= factor <= 1.0
    ensures 0.0 <= x * factor <= x
  {
    assert x - x * factor == x * (1.0 - factor);
  }

  /** The buffer after the fade step of one chunk of `frames` frames whose
      first frame lies `into` samples into the fade window. */
  function Faded(s: seq<int>, channels: int, frames: int, into: int, fadeSamples: int): (r: seq<int>)
    requires channels > 0 && fadeSamples != 0 && 0 <= frames && frames * channels <= |s|
    ensures |r| == |s|
  {
    seq(|s|, i requires 0 <= i < |s| =>
      if i < frames * channels && into + i / channels > 0
      then Scale(s[i], Factor(fadeSamples, into + i / channels))
      else s[i])
  }

  /** Frame `j` is scaled exactly when it lies past the start of the fade
      window, and then every channel of it by the same factor. */
  lemma FadedFrame(s: seq<int>, channels: int, frames: int, into: int, fadeSamples: int, j: int, k: int)
    requires channels > 0 && fadeSamples != 0 && 0 <= frames && frames * channels <= |s|
    requires 0 <= j < frames && 0 <= k < channels
    ensures j * channels + k < |s|
    ensures Faded(s, channels, frames, into, fadeSamples)[j * channels + k]
         == if into + j > 0 then Scale(s[j * channels + k], Factor(fadeSamples, into + j))
            else s[j * channels + k]
  {
    var i := j * channels + k;
    FrameIndex(j, k, channels);
    FramesFit(j + 1, frames, channels);
    assert i < frames * channels;
    assert i / channels == j;
  }

  /** Nothing beyond the chunk changes. */
  lemma FadedOutsideChunk(s: seq<int>, channels: int, frames: int, into: int, fadeSamples: int)
    requires channels > 0 && fadeSamples != 0 && 0 <= frames && frames * channels <= |s|
    ensures Faded(s, channels, frames, into, fadeSamples)[frames * channels..] == s[frames * channels..]
  {
  }

  /** The faded chunk depends only on the chunk itself. */
  lemma FadedPrefix(s: seq<int>, channels: int, frames: int, into: int, fadeSamples: int)
    requires channels > 0 && fadeSamples != 0 && 0 <= frames && frames * channels <= |s|
    ensures Faded(s, channels, frames, into, fadeSamples)[..frames * channels]
         == Faded(s[..frames * channels], channels, frames, into, fadeSamples)
  {
  }

  /** A chunk that ends at or before the end of the fade window never grows
      a sample nor flips its sign: every factor it applies lies in
      [1/fadeSamples, (fadeSamples - 1)/fadeSamples]. */
  lemma FadedShrinks(s: seq<int>, channels: int, frames: int, into: int, fadeSamples: int, i: int)
    requires channels > 0 && fadeSamples > 0 && 0 <= frames && frames * channels <= |s|
    requires into + frames <= fadeSamples
    requires 0 <= i < |s|
    ensures Abs(Faded(s, channels, frames, into, fadeSamples)[i]) <= Abs(s[i])
    ensures s[i] >= 0 ==> Faded(s, channels, frames, into, fadeSamples)[i] >= 0
    ensures s[i] <= 0 ==> Faded(s, channels, frames, into, fadeSamples)[i] <= 0
  {
    if i < frames * channels && into + i / channels > 0 {
      FrameOf(i, channels, frames);
      FactorBounds(fadeSamples, into + i / channels);
      ScaleShrinks(s[i], Factor(fadeSamples, into + i / channels));
    }
  }

  /** The nested loops of the play loop's fade step, in place on `buffer`. */
  method FadeChunk(buffer: array<int>, channels: int, frames: int, into: int, fadeSamples: int)
    requires channels > 0 && fadeSamples != 0 && 0 <= frames && frames * channels <= buffer.Length
    modifies buffer
    ensures buffer[..] == Faded(old(buffer[..]), channels, frames, into, fadeSamples)
  {
    ghost var goal := Faded(buffer[..], channels, frames, into, fadeSamples);
    var samplesIntoFade := into;
    if samplesIntoFade + frames > 0 {
      var j := 0;
      ghost var frameStart := 0;
      while j < frames
        invariant 0 <= j <= frames && samplesIntoFade == into + j
        invariant frameStart == j * channels
        invariant forall i :: 0 <= i < frameStart ==> buffer[i] == goal[i]
        invariant forall i :: frameStart <= i < buffer.Length ==> buffer[i] == old(buffer[i])
      {
        FrameIndex(j, 0, channels);
        FramesFit(j + 1, frames, channels);
        if samplesIntoFade > 0 {
          var fadedness := Factor(fadeSamples, samplesIntoFade);
          var k := 0;
          while k < channels
            invariant 0 <= k <= channels
            invariant forall i :: 0 <= i < frameStart + k ==> buffer[i] == goal[i]
            invariant forall i :: frameStart + k <= i < buffer.Length ==> buffer[i] == old(buffer[i])
          {
            FadedFrame(old(buffer[..]), channels, frames, into, fadeSamples, j, k);
            buffer[j * channels + k] := Scale(buffer[j * channels + k], fadedness);
            k := k + 1;
          }
        } else {
          forall i | frameStart <= i < frameStart + channels
            ensures buffer[i] == goal[i]
          {
            FadedFrame(old(buffer[..]), channels, frames, into, fadeSamples, j, i - frameStart);
          }
        }
        j := j + 1;
        frameStart := frameStart + channels;
        samplesIntoFade := samplesIntoFade + 1;
      }
    } else {
      forall i | 0 <= i < frames * channels
        ensures goal[i] == buffer[i]
      {
        FrameOf(i, channels, frames);
      }
    }
  }
}
