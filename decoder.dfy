/** The decoder handle (`VGMSTREAM *`) as the plugin sees it. Format parsing
    and decoding belong to the external vgmstream library; here a handle is
    an opaque stream of interleaved 16-bit frames that can be rendered in
    order, rewound and closed. */
module Decoder {
  import opened Int32

  /** One call the plugin makes on a handle. */
  datatype Call = Reset | Render(frames: int)

  /** Total number of frames rendered by a sequence of calls. */
  function Rendered(calls: seq<Call>): int
  {
    if calls == [] then 0
    else (if calls[0].Render? then calls[0].frames else 0) + Rendered(calls[1..])
  }

  /** Where a handle standing at frame `p` stands after `calls`. */
  function PositionAfter(p: int, calls: seq<Call>): int
    decreases calls
  {
    if calls == [] then p
    else PositionAfter(if calls[0].Reset? then 0 else p + calls[0].frames, calls[1..])
  }

  /** Every render call asks for between 1 and `max` frames. */
  predicate ChunksWithin(calls: seq<Call>, max: int)
  {
    forall i :: 0 <= i < |calls| && calls[i].Render? ==> 1 <= calls[i].frames <= max
  }

  lemma ChunksWithinAppend(a: seq<Call>, b: seq<Call>, max: int)
    requires ChunksWithin(b, max)
    ensures ChunksWithin(a, max) ==> ChunksWithin(a + b, max)
  {
    forall i | 0 <= i < |a + b|
      ensures (a + b)[i] == if i < |a| then a[i] else b[i - |a|]
    {
    }
  }

  lemma {:induction false} RenderedAppend(a: seq<Call>, b: seq<Call>)
    ensures Rendered(a + b) == Rendered(a) + Rendered(b)
  {
    if a == [] {
      assert a + b == b;
    } else {
      assert (a + b)[0] == a[0];
      assert (a + b)[1..] == a[1..] + b;
      RenderedAppend(a[1..], b);
    }
  }

  /** `sizeof(short)`: the sink receives 16-bit samples. */
  const BytesPerSample: int := 2

  /** Bytes occupied by `frames` interleaved frames of `channels` samples. */
  function ByteLength(frames: int, channels: int): int
  {
    frames * BytesPerSample * channels
  }

  /** The interleaved samples of `frames` frames starting at frame `from`:
      sample `k` of frame `j` sits at index `j * channels + k`. */
  function Interleaved(pcm: (int, int) -> int, from: int, frames: nat, channels: int): (s: seq<int>)
    requires channels > 0
    ensures |s| == frames * channels
  {
    seq(frames * channels, i requires 0 <= i < frames * channels => pcm(from + i / channels, i % channels))
  }

  /** A positive multiple of `b` is at least `b`. */
  lemma MulAtLeast(a: int, b: int)
    requires a >= 1 && b > 0
    ensures a * b >= b
  {
  }

  /** Frame `j`, channel `k` of an interleaved buffer sits at `j * channels + k`. */
  lemma FrameIndex(j: int, k: int, channels: int)
    requires channels > 0 && j >= 0 && 0 <= k < channels
    ensures (j * channels + k) / channels == j && (j * channels + k) % channels == k
    ensures (j + 1) * channels == j * channels + channels
  {
    var i := j * channels + k;
    var q, r := i / channels, i % channels;
    assert i == q * channels + r;
    assert (q - j) * channels == k - r;
    if q > j {
      MulAtLeast(q - j, channels);
      assert false;
    } else if q < j {
      MulAtLeast(j - q, channels);
      assert false;
    }
  }

  /** An index below `frames * channels` belongs to one of the first
      `frames` frames. */
  lemma FrameOf(i: int, channels: int, frames: int)
    requires channels > 0 && 0 <= i < frames * channels
    ensures 0 <= i / channels < frames
  {
    assert i == (i / channels) * channels + i % channels;
  }

  /** Fewer frames take fewer samples. */
  lemma FramesFit(chunk: int, frames: int, channels: int)
    requires 0 <= chunk <= frames && channels > 0
    ensures chunk * channels <= frames * channels
  {
    assert frames * channels - chunk * channels == (frames - chunk) * channels;
  }

  /** Every decoded sample is a 16-bit `short`. */
  ghost predicate ShortSamples(pcm: (int, int) -> int)
  {
    forall f, k :: IsShort(pcm(f, k))
  }

  class Stream {
    /** Header values the library reports for the opened file. */
    const channels: int
    const sampleRate: int
    const loopFlag: bool
    /** `get_vgmstream_average_bitrate`. */
    const averageBitrate: int
    /** `get_vgmstream_play_samples(loop_count, fade_length, fade_delay, handle)`. */
    const playSamples: (int, real, real) -> int
    /** Sample `k` of frame `f` of the decoded audio. */
    const pcm: (int, int) -> int

    /** Frames rendered since the handle was opened or last reset. */
    var position: int
    /** Every call made on the handle, in order. */
    var calls: seq<Call>
    var closed: bool

    /** The header fields are C `int`s. */
    predicate WellTyped()
    {
      InRange(channels) && InRange(sampleRate)
    }

    /** A freshly opened handle, positioned at the first frame. */
    constructor Open(channels: int, sampleRate: int, loopFlag: bool, averageBitrate: int,
                     playSamples: (int, real, real) -> int, pcm: (int, int) -> int)
      requires InRange(channels) && InRange(sampleRate)
      ensures WellTyped()
      ensures this.channels == channels && this.sampleRate == sampleRate && this.loopFlag == loopFlag
      ensures this.averageBitrate == averageBitrate && this.playSamples == playSamples && this.pcm == pcm
      ensures position == 0 && calls == [] && !closed
    {
      this.channels := channels;
      this.sampleRate := sampleRate;
      this.loopFlag := loopFlag;
      this.averageBitrate := averageBitrate;
      this.playSamples := playSamples;
      this.pcm := pcm;
      position := 0;
      calls := [];
      closed := false;
    }

    /** `render_vgmstream(buffer, frames, handle)`: decode the next `frames`
        frames into the front of `buffer`. */
    method Render(buffer: array<int>, frames: int)
      requires channels > 0 && 0 <= frames && frames * channels <= buffer.Length
      modifies this, buffer
      ensures position == old(position) + frames
      ensures calls == old(calls) + [Call.Render(frames)]
      ensures closed == old(closed)
      ensures buffer[..frames * channels] == Interleaved(pcm, old(position), frames, channels)
      ensures buffer[frames * channels..] == old(buffer[frames * channels..])
    {
      forall i | 0 <= i < frames * channels {
        buffer[i] := pcm(position + i / channels, i % channels);
      }
      position := position + frames;
      calls := calls + [Call.Render(frames)];
    }

    /** `reset_vgmstream(handle)`: rewind to the first frame. */
    method Reset()
      modifies this
      ensures position == 0
      ensures calls == old(calls) + [Call.Reset]
      ensures closed == old(closed)
    {
      position := 0;
      calls := calls + [Call.Reset];
    }

    /** `close_vgmstream(handle)`. */
    method Close()
      requires !closed
      modifies this
      ensures closed
      ensures position == old(position) && calls == old(calls)
    {
      closed := true;
    }
  }
}
