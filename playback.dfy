/** `vgmstream_play`: open a file through the decoder, configure the host's
    audio sink and run the render loop (seek, clamp, render, fade, write,
    advance) until the host asks to stop or a finite play length is used up. */
module Playback {
  import opened Int32
  import opened Decoder
  import opened Seek
  import opened Fade

  /** The plugin's settings. */
  datatype Config = Config(loopForever: bool, loopCount: int, fadeLength: real, fadeDelay: real)

  /** The defaults registered with the host's configuration store. */
  const Defaults: Config := Config(true, 2, 3.0, 3.0)

  /** `fade_samples`: `fade_length * sample_rate` converted to `int`. */
  function FadeSampleCount(fadeLength: real, sampleRate: int): (n: int)
    ensures fadeLength >= 0.0 && sampleRate >= 0 ==>
      0 <= n && n as real <= fadeLength * sampleRate as real < n as real + 1.0
  {
    Trunc(fadeLength * sampleRate as real)
  }

  /** With the default three-second fade at 44100 Hz the window is 132300
      samples long, and a frame halfway into it is scaled by one half. */
  lemma DefaultFadeExample()
    ensures FadeSampleCount(Defaults.fadeLength, 44100) == 132300
    ensures Factor(132300, 66150) == 0.5
  {
    assert Defaults.fadeLength * 44100 as real == 132300.0;
  }

  /** Playback stops at the play length unless it loops forever on a stream
      that has a loop. */
  predicate Finite(config: Config, loopFlag: bool)
  {
    !config.loopForever || !loopFlag
  }

  /** The fade step runs only for a looped stream with a fade window when
      looping forever is off. */
  predicate Fading(config: Config, loopFlag: bool, fadeSamples: int)
  {
    loopFlag && fadeSamples > 0 && !config.loopForever
  }

  /** `toget` after the clamp: a full buffer, cut short so that a finite
      playback does not render past `total`. */
  function ChunkFrames(finite: bool, cursor: int, total: int): (frames: int)
    ensures frames <= MaxBufferFrames
    ensures !finite || cursor + MaxBufferFrames <= total ==> frames == MaxBufferFrames
  {
    if finite && cursor + MaxBufferFrames > total then total - cursor else MaxBufferFrames
  }

  /** An iteration that goes on renders between 1 and 576 frames and, when
      playback is finite, ends at or before `total` (at `total` exactly when
      fewer than a buffer's worth remain). */
  lemma ChunkFramesBounds(finite: bool, cursor: int, total: int)
    requires !(finite && cursor >= total)
    ensures 1 <= ChunkFrames(finite, cursor, total) <= MaxBufferFrames
    ensures finite ==> cursor + ChunkFrames(finite, cursor, total) <= total
    ensures finite && total - cursor < MaxBufferFrames ==> cursor + ChunkFrames(finite, cursor, total) == total
  {
  }

  /** Where the fade step of a chunk starting at `cursor` begins, relative
      to the start of the fade window. */
  function SamplesIntoFade(cursor: int, total: int, fadeSamples: int): int
  {
    cursor - (total - fadeSamples)
  }

  /** Fading implies finite playback, so every frame the fade step scales
      lies strictly inside the window and gets a factor in
      [1/fadeSamples, (fadeSamples - 1)/fadeSamples]. */
  lemma FadeFactorInWindow(config: Config, loopFlag: bool, fadeSamples: int, cursor: int, total: int, j: int)
    requires Fading(config, loopFlag, fadeSamples)
    requires cursor < total
    requires 0 <= j < ChunkFrames(Finite(config, loopFlag), cursor, total)
    requires SamplesIntoFade(cursor, total, fadeSamples) + j > 0
    ensures var f := Factor(fadeSamples, SamplesIntoFade(cursor, total, fadeSamples) + j);
      1.0 / fadeSamples as real <= f <= (fadeSamples - 1) as real / fadeSamples as real
  {
    assert Finite(config, loopFlag);
    ChunkFramesBounds(true, cursor, total);
    FactorBounds(fadeSamples, SamplesIntoFade(cursor, total, fadeSamples) + j);
  }

  /** What one iteration hands to the sink: the decoded chunk, faded when
      the fade step is on. */
  function ChunkOutput(stream: Stream, config: Config, total: int, fadeSamples: int, cursor: int, frames: nat): (out: seq<int>)
    requires stream.channels > 0
    ensures |out| == frames * stream.channels
  {
    var decoded := Interleaved(stream.pcm, cursor, frames, stream.channels);
    if Fading(config, stream.loopFlag, fadeSamples)
    then Faded(decoded, stream.channels, frames, SamplesIntoFade(cursor, total, fadeSamples), fadeSamples)
    else decoded
  }

  /** What `aud_input_check_seek` reports for the pending seek requests:
      the first one, or -1 when there is none. */
  function PendingSeek(seeks: seq<int>): int
  {
    if seeks == [] then -1 else seeks[0]
  }

  /** What `aud_input_check_stop` reports for the pending stop answers:
      stop when the script says so or has run out. */
  predicate StopRequested(stops: seq<bool>)
  {
    stops == [] || stops[0]
  }

  /** Every seek answer is a C `int` of milliseconds. */
  predicate SeeksInRange(seeks: seq<int>)
  {
    forall i :: 0 <= i < |seeks| ==> InRange(seeks[i])
  }

  /** A transport script after `n` polls, each of which consumes one
      answer until none is left. */
  function Consumed<T>(script: seq<T>, n: nat): seq<T>
  {
    if n < |script| then script[n..] else []
  }

  /** One more poll consumes the next answer. */
  lemma ConsumedNext<T>(script: seq<T>, n: nat)
    ensures Consumed(script, n + 1) == if Consumed(script, n) == [] then [] else Consumed(script, n)[1..]
  {
  }

  /** The output sink: unconfigured, or opened for 16-bit little-endian PCM. */
  datatype Sink = Unconfigured | S16LE(rate: int, channels: int)

  /** The Audacious host as the plugin sees it. Transport requests are
      scripted: `stops` and `seeks` hold what the next calls to
      `aud_input_check_stop` and `aud_input_check_seek` will report. */
  class Host {
    const sinkAccepts: bool
    var stops: seq<bool>
    var seeks: seq<int>
    var bitrate: int
    var sink: Sink
    var written: seq<seq<int>>

    /** Seek requests are C `int` milliseconds. */
    ghost predicate Valid()
      reads this
    {
      SeeksInRange(seeks)
    }

    constructor (sinkAccepts: bool, stops: seq<bool>, seeks: seq<int>)
      requires SeeksInRange(seeks)
      ensures Valid()
      ensures this.sinkAccepts == sinkAccepts && this.stops == stops && this.seeks == seeks
      ensures bitrate == 0 && sink == Unconfigured && written == []
    {
      this.sinkAccepts := sinkAccepts;
      this.stops := stops;
      this.seeks := seeks;
      bitrate := 0;
      sink := Unconfigured;
      written := [];
    }

    /** `aud_input_check_stop`: once the script runs out, the host stops. */
    method CheckStop() returns (stop: bool)
      modifies this`stops
      ensures stop == StopRequested(old(stops))
      ensures stops == if old(stops) == [] then [] else old(stops)[1..]
    {
      stop := stops == [] || stops[0];
      if stops != [] {
        stops := stops[1..];
      }
    }

    /** `aud_input_check_seek`: the pending seek in milliseconds, or -1. */
    method CheckSeek() returns (ms: int)
      requires Valid()
      modifies this`seeks
      ensures Valid()
      ensures ms == PendingSeek(old(seeks)) && InRange(ms)
      ensures seeks == if old(seeks) == [] then [] else old(seeks)[1..]
    {
      ms := PendingSeek(seeks);
      if seeks != [] {
        seeks := seeks[1..];
      }
    }

    /** `aud_input_set_bitrate`. */
    method SetBitrate(rate: int)
      modifies this`bitrate
      ensures bitrate == rate
    {
      bitrate := rate;
    }

    /** `aud_input_open_audio(FMT_S16_LE, rate, channels)`. */
    method OpenAudio(rate: int, channels: int) returns (ok: bool)
      modifies this`sink
      ensures ok == sinkAccepts
      ensures sink == if ok then S16LE(rate, channels) else old(sink)
    {
      ok := sinkAccepts;
      if ok {
        sink := S16LE(rate, channels);
      }
    }

    /** `aud_input_write_audio(buffer, bytes)`. */
    method WriteAudio(buffer: array<int>, bytes: int)
      requires 0 <= bytes && bytes % BytesPerSample == 0 && bytes / BytesPerSample <= buffer.Length
      modifies this`written
      ensures written == old(written) + [buffer[..bytes / BytesPerSample]]
    {
      written := written + [buffer[..bytes / BytesPerSample]];
    }
  }

  /** The process-wide `vgmstream` handle the plugin keeps while playing. */
  class Plugin {
    var current: Stream?

    constructor ()
      ensures current == null
    {
      current := null;
    }
  }

  /** Where the cursor stands after the seek step of an iteration. */
  function CursorAfterSeek(seekMs: int, sampleRate: int, cursor: int): int
    requires InRange(seekMs) && InRange(sampleRate)
  {
    if seekMs > 0 then SeekCursor(SeekTarget(seekMs, sampleRate), cursor) else cursor
  }

  lemma ChunkBytes(frames: int, channels: int)
    requires 0 <= frames <= MaxBufferFrames && channels > 0
    ensures ByteLength(frames, channels) == BytesPerSample * (frames * channels)
    ensures ByteLength(frames, channels) % BytesPerSample == 0
    ensures ByteLength(frames, channels) / BytesPerSample == frames * channels
    ensures 0 <= frames * channels <= MaxBufferFrames * channels
  {
    assert frames * channels <= MaxBufferFrames * channels by {
      if frames < MaxBufferFrames {
        MulAtLeast(MaxBufferFrames - frames, channels);
      }
    }
  }

  /** Render `frames` frames at `cursor`, fade them when the fade step is
      on, and write them to the sink. */
  method RenderChunk(stream: Stream, host: Host, buffer: array<int>, config: Config,
                     total: int, fadeSamples: int, cursor: int, frames: int)
    requires stream.channels > 0 && 1 <= frames <= MaxBufferFrames
    requires buffer.Length == MaxBufferFrames * stream.channels
    requires stream.position == cursor
    modifies stream, host`written, buffer
    ensures stream.position == cursor + frames
    ensures stream.calls == old(stream.calls) + [Call.Render(frames)]
    ensures stream.closed == old(stream.closed)
    ensures host.written == old(host.written) + [ChunkOutput(stream, config, total, fadeSamples, cursor, frames)]
    ensures ChunksWithin(old(stream.calls), MaxBufferFrames) ==> ChunksWithin(stream.calls, MaxBufferFrames)
    ensures stream.channels <= |host.written[|host.written| - 1]| <= MaxBufferFrames * stream.channels
  {
    ChunkBytes(frames, stream.channels);
    MulAtLeast(frames, stream.channels);
    ChunksWithinAppend(stream.calls, [Call.Render(frames)], MaxBufferFrames);
    stream.Render(buffer, frames);
    ghost var decoded := buffer[..];
    assert decoded[..frames * stream.channels] == Interleaved(stream.pcm, cursor, frames, stream.channels);
    if stream.loopFlag && fadeSamples > 0 && !config.loopForever {
      var samplesIntoFade := cursor - (total - fadeSamples);
      FadeChunk(buffer, stream.channels, frames, samplesIntoFade, fadeSamples);
      FadedPrefix(decoded, stream.channels, frames, samplesIntoFade, fadeSamples);
    }
    assert buffer[..frames * stream.channels] == ChunkOutput(stream, config, total, fadeSamples, cursor, frames);
    host.WriteAudio(buffer, frames * BytesPerSample * stream.channels);
  }

  /** One pass of the render loop of `vgmstream_play`, from the seek check
      to the cursor advance. `go` is false when the loop breaks because a
      finite playback has reached its end. */
  method PlayIteration(stream: Stream, host: Host, buffer: array<int>, maxBufferFrames: int,
                       config: Config, total: int, fadeSamples: int, cursor: int)
    returns (go: bool, newCursor: int)
    requires stream.WellTyped() && stream.channels > 0 && host.Valid()
    requires maxBufferFrames == MaxBufferFrames && buffer.Length == maxBufferFrames * stream.channels
    requires stream.position == cursor
    modifies stream, host`seeks, host`written, buffer
    ensures host.Valid()
    ensures host.seeks == if old(host.seeks) == [] then [] else old(host.seeks)[1..]
    ensures go == !(Finite(config, stream.loopFlag)
                    && CursorAfterSeek(PendingSeek(old(host.seeks)), stream.sampleRate, cursor) >= total)
    ensures stream.position == newCursor
    ensures var q := Step(stream, config, total, fadeSamples,
                          Progress(cursor, old(stream.calls), old(host.written)), PendingSeek(old(host.seeks)));
      newCursor == q.cursor && stream.calls == q.calls && host.written == q.chunks
    ensures go && Finite(config, stream.loopFlag) ==> newCursor <= total
    ensures stream.closed == old(stream.closed)
    ensures ChunksWithin(old(stream.calls), MaxBufferFrames) ==> ChunksWithin(stream.calls, MaxBufferFrames)
    ensures forall i :: |old(host.written)| <= i < |host.written| ==>
      stream.channels <= |host.written[i]| <= MaxBufferFrames * stream.channels
  {
    var toget := maxBufferFrames;
    var seekValue := host.CheckSeek();
    newCursor := cursor;
    if seekValue > 0 {
      if ChunksWithin(stream.calls, MaxBufferFrames) {
        SeekKeepsChunks(stream.calls, SeekTarget(seekValue, stream.sampleRate), cursor);
      }
      newCursor := Seek.Seek(stream, seekValue, newCursor);
    }
    ghost var c := newCursor;
    ghost var finite := Finite(config, stream.loopFlag);
    if !config.loopForever || !stream.loopFlag {
      if newCursor >= total {
        go := false;
        return;
      }
      if newCursor + toget > total {
        toget := total - newCursor;
      }
    }
    ChunkFramesBounds(finite, c, total);
    RenderChunk(stream, host, buffer, config, total, fadeSamples, newCursor, toget);
    newCursor := newCursor + toget;
    go := true;
  }

  /** The break at lines 137-138: playback is finite and the cursor, after
      the pass's seek, has reached the play length. */
  predicate AtEnd(stream: Stream, config: Config, total: int, cursor: int, seekMs: int)
    requires InRange(seekMs) && InRange(stream.sampleRate)
  {
    Finite(config, stream.loopFlag) && CursorAfterSeek(seekMs, stream.sampleRate, cursor) >= total
  }

  /** How far the render loop has got: the cursor, the calls made on the
      handle and the buffers written to the sink. */
  datatype Progress = Progress(cursor: int, calls: seq<Call>, chunks: seq<seq<int>>)

  /** One pass of the render loop from `p` with `seekMs` pending: the seek
      (when positive), then the break when a finite playback has reached
      `total`, or else `ChunkFrames` frames rendered, faded and written and
      the cursor advanced past them. */
  function Step(stream: Stream, config: Config, total: int, fadeSamples: int, p: Progress, seekMs: int): Progress
    requires stream.channels > 0 && InRange(stream.sampleRate) && InRange(seekMs)
  {
    var c := CursorAfterSeek(seekMs, stream.sampleRate, p.cursor);
    var seekCalls := if seekMs > 0 then SeekCalls(SeekTarget(seekMs, stream.sampleRate), p.cursor) else [];
    var finite := Finite(config, stream.loopFlag);
    if AtEnd(stream, config, total, p.cursor, seekMs) then Progress(c, p.calls + seekCalls, p.chunks)
    else
      var frames := ChunkFrames(finite, c, total);
      Progress(c + frames, p.calls + seekCalls + [Call.Render(frames)],
               p.chunks + [ChunkOutput(stream, config, total, fadeSamples, c, frames)])
  }

  /** A pass appends to what was written before it. */
  lemma StepAppends(stream: Stream, config: Config, total: int, fadeSamples: int, p: Progress, seekMs: int, before: seq<seq<int>>)
    requires stream.channels > 0 && InRange(stream.sampleRate) && InRange(seekMs)
    ensures var q := Step(stream, config, total, fadeSamples, p, seekMs);
      Step(stream, config, total, fadeSamples, Progress(p.cursor, p.calls, before + p.chunks), seekMs)
        == Progress(q.cursor, q.calls, before + q.chunks)
  {
    var c := CursorAfterSeek(seekMs, stream.sampleRate, p.cursor);
    var finite := Finite(config, stream.loopFlag);
    if !(finite && c >= total) {
      var x := ChunkOutput(stream, config, total, fadeSamples, c, ChunkFrames(finite, c, total));
      assert before + p.chunks + [x] == before + (p.chunks + [x]);
    }
  }

  /** The render loop after `n` passes, entered at frame 0 with the seek
      script `seeks`. */
  function Passes(stream: Stream, config: Config, total: int, fadeSamples: int, seeks: seq<int>, n: nat): Progress
    requires stream.channels > 0 && InRange(stream.sampleRate) && SeeksInRange(seeks)
  {
    if n == 0 then Progress(0, [], [])
    else
      var pending := Consumed(seeks, n - 1);
      assert pending != [] ==> pending[0] == seeks[n - 1];
      Step(stream, config, total, fadeSamples, Passes(stream, config, total, fadeSamples, seeks, n - 1), PendingSeek(pending))
  }

  /** How the render loop ended after `passes` passes and `polls` polls of
      the stop answers `stops`: at the first poll that asked to stop (one
      more poll than passes), or at the first pass that found a finite
      playback at its end (as many polls as passes). Every earlier poll said
      go on and every earlier pass rendered. */
  ghost predicate LoopEnded(stream: Stream, config: Config, total: int, fadeSamples: int,
                            seeks: seq<int>, stops: seq<bool>, passes: nat, polls: nat)
    requires stream.channels > 0 && InRange(stream.sampleRate) && SeeksInRange(seeks)
  {
    && (polls == passes + 1 || (polls == passes && 0 < passes))
    && (polls == passes + 1 ==> StopRequested(Consumed(stops, passes)))
    && (polls == passes ==> PassBreaks(stream, config, total, fadeSamples, seeks, passes - 1))
    && (forall i :: 0 <= i < passes ==> !StopRequested(Consumed(stops, i)))
    && (forall i :: 0 <= i < polls - 1 ==> !PassBreaks(stream, config, total, fadeSamples, seeks, i))
  }

  /** The first `n` polls of `stops` all said go on, and the first `n`
      passes all rendered. */
  ghost predicate WentOn(stream: Stream, config: Config, total: int, fadeSamples: int,
                         seeks: seq<int>, stops: seq<bool>, n: nat)
    requires stream.channels > 0 && InRange(stream.sampleRate) && SeeksInRange(seeks)
  {
    n == 0 ||
    (&& WentOn(stream, config, total, fadeSamples, seeks, stops, n - 1)
     && !StopRequested(Consumed(stops, n - 1))
     && !PassBreaks(stream, config, total, fadeSamples, seeks, n - 1))
  }

  /** `WentOn` spelled out for every earlier poll and pass. */
  lemma {:induction false} WentOnAll(stream: Stream, config: Config, total: int, fadeSamples: int,
                                     seeks: seq<int>, stops: seq<bool>, n: nat)
    requires stream.channels > 0 && InRange(stream.sampleRate) && SeeksInRange(seeks)
    requires WentOn(stream, config, total, fadeSamples, seeks, stops, n)
    ensures forall i :: 0 <= i < n ==> !StopRequested(Consumed(stops, i))
    ensures forall i :: 0 <= i < n ==> !PassBreaks(stream, config, total, fadeSamples, seeks, i)
  {
    if n > 0 {
      WentOnAll(stream, config, total, fadeSamples, seeks, stops, n - 1);
    }
  }

  /** A loop that went on for `n` passes and then polled a stop ended at
      its first stop answer. */
  lemma EndedByStop(stream: Stream, config: Config, total: int, fadeSamples: int,
                    seeks: seq<int>, stops: seq<bool>, n: nat)
    requires stream.channels > 0 && InRange(stream.sampleRate) && SeeksInRange(seeks)
    requires WentOn(stream, config, total, fadeSamples, seeks, stops, n)
    requires StopRequested(Consumed(stops, n))
    ensures LoopEnded(stream, config, total, fadeSamples, seeks, stops, n, n + 1)
  {
    WentOnAll(stream, config, total, fadeSamples, seeks, stops, n);
  }

  /** A loop that went on for `n` passes, then polled go on and broke in
      its next pass ended at its first break. */
  lemma EndedByBreak(stream: Stream, config: Config, total: int, fadeSamples: int,
                     seeks: seq<int>, stops: seq<bool>, n: nat)
    requires stream.channels > 0 && InRange(stream.sampleRate) && SeeksInRange(seeks)
    requires WentOn(stream, config, total, fadeSamples, seeks, stops, n)
    requires !StopRequested(Consumed(stops, n))
    requires PassBreaks(stream, config, total, fadeSamples, seeks, n)
    ensures LoopEnded(stream, config, total, fadeSamples, seeks, stops, n + 1, n + 1)
  {
    WentOnAll(stream, config, total, fadeSamples, seeks, stops, n);
  }

  /** Pass `n` of the render loop (counting from 0), entered where `Passes`
      says `n` passes leave it, breaks instead of rendering. */
  predicate PassBreaks(stream: Stream, config: Config, total: int, fadeSamples: int, seeks: seq<int>, n: nat)
    requires stream.channels > 0 && InRange(stream.sampleRate) && SeeksInRange(seeks)
  {
    var pending := Consumed(seeks, n);
    assert pending != [] ==> pending[0] == seeks[n];
    AtEnd(stream, config, total, Passes(stream, config, total, fadeSamples, seeks, n).cursor, PendingSeek(pending))
  }

  /** Only render calls, one per written buffer, whose frames add up to the
      cursor, and the cursor not past the play length when it is finite. */
  predicate RendersOnly(p: Progress, finite: bool, total: int)
  {
    && Rendered(p.calls) == p.cursor
    && |p.calls| == |p.chunks|
    && (forall i :: 0 <= i < |p.calls| ==> p.calls[i].Render?)
    && (finite ==> p.cursor <= (if total < 0 then 0 else total))
  }

  /** A pass without a seek renders exactly the frames it advances the
      cursor by, and never past the play length. */
  lemma StepWithoutSeek(stream: Stream, config: Config, total: int, fadeSamples: int, p: Progress, seekMs: int)
    requires stream.channels > 0 && InRange(stream.sampleRate) && InRange(seekMs) && seekMs <= 0
    requires RendersOnly(p, Finite(config, stream.loopFlag), total)
    ensures RendersOnly(Step(stream, config, total, fadeSamples, p, seekMs), Finite(config, stream.loopFlag), total)
  {
    var q := Step(stream, config, total, fadeSamples, p, seekMs);
    var finite := Finite(config, stream.loopFlag);
    if finite && p.cursor >= total {
      assert q.cursor == p.cursor && q.calls == p.calls + [] && |q.chunks| == |p.chunks|;
      assert p.calls + [] == p.calls;
    } else {
      var frames := ChunkFrames(finite, p.cursor, total);
      assert q.cursor == p.cursor + frames && q.calls == p.calls + [] + [Call.Render(frames)];
      assert |q.chunks| == |p.chunks| + 1;
      ChunkFramesBounds(finite, p.cursor, total);
      assert p.calls + [] + [Call.Render(frames)] == p.calls + [Call.Render(frames)];
      RenderedAppend(p.calls, [Call.Render(frames)]);
      assert Rendered([Call.Render(frames)]) == frames;
    }
  }

  /** Without seeks, the passes issue only render calls, whose frames add up
      to the cursor, and a finite play length is never overrun. */
  lemma {:induction false} PassesWithoutSeek(stream: Stream, config: Config, total: int, fadeSamples: int, seeks: seq<int>, n: nat)
    requires stream.channels > 0 && InRange(stream.sampleRate) && SeeksInRange(seeks)
    requires NoSeekRequested(seeks)
    ensures RendersOnly(Passes(stream, config, total, fadeSamples, seeks, n), Finite(config, stream.loopFlag), total)
  {
    if n > 0 {
      PassesWithoutSeek(stream, config, total, fadeSamples, seeks, n - 1);
      var pending := Consumed(seeks, n - 1);
      assert PendingSeek(pending) <= 0 by {
        if pending != [] {
          assert pending[0] == seeks[n - 1];
        }
      }
      StepWithoutSeek(stream, config, total, fadeSamples, Passes(stream, config, total, fadeSamples, seeks, n - 1), PendingSeek(pending));
    }
  }

  /** A pass renders and writes between 1 and 576 frames, and its seek
      keeps each render call within one buffer. */
  lemma StepChunked(stream: Stream, config: Config, total: int, fadeSamples: int, p: Progress, seekMs: int)
    requires stream.channels > 0 && InRange(stream.sampleRate) && InRange(seekMs)
    requires ChunksWithin(p.calls, MaxBufferFrames) && ChunksWritten(p.chunks, 0, stream.channels)
    ensures var q := Step(stream, config, total, fadeSamples, p, seekMs);
      ChunksWithin(q.calls, MaxBufferFrames) && ChunksWritten(q.chunks, 0, stream.channels)
  {
    var c := CursorAfterSeek(seekMs, stream.sampleRate, p.cursor);
    var seekCalls := if seekMs > 0 then SeekCalls(SeekTarget(seekMs, stream.sampleRate), p.cursor) else [];
    if seekMs > 0 {
      SeekKeepsChunks(p.calls, SeekTarget(seekMs, stream.sampleRate), p.cursor);
    } else {
      assert p.calls + seekCalls == p.calls;
    }
    var finite := Finite(config, stream.loopFlag);
    if !(finite && c >= total) {
      var frames := ChunkFrames(finite, c, total);
      ChunkFramesBounds(finite, c, total);
      ChunksWithinAppend(p.calls + seekCalls, [Call.Render(frames)], MaxBufferFrames);
      MulAtLeast(frames, stream.channels);
      FramesFit(frames, MaxBufferFrames, stream.channels);
    }
  }

  /** Every pass renders and writes between 1 and 576 frames, and the seeks
      between passes keep each render call within one buffer. */
  lemma {:induction false} PassesChunked(stream: Stream, config: Config, total: int, fadeSamples: int, seeks: seq<int>, n: nat)
    requires stream.channels > 0 && InRange(stream.sampleRate) && SeeksInRange(seeks)
    ensures var p := Passes(stream, config, total, fadeSamples, seeks, n);
      ChunksWithin(p.calls, MaxBufferFrames) && ChunksWritten(p.chunks, 0, stream.channels)
  {
    if n > 0 {
      PassesChunked(stream, config, total, fadeSamples, seeks, n - 1);
      var pending := Consumed(seeks, n - 1);
      assert pending != [] ==> pending[0] == seeks[n - 1];
      StepChunked(stream, config, total, fadeSamples, Passes(stream, config, total, fadeSamples, seeks, n - 1), PendingSeek(pending));
    }
  }

  /** Chunks of whole frames appended to the sink's output keep every new
      buffer between 1 and 576 frames. */
  lemma ChunksWrittenAppend(before: seq<seq<int>>, chunks: seq<seq<int>>, channels: int)
    requires ChunksWritten(chunks, 0, channels)
    ensures ChunksWritten(before + chunks, |before|, channels)
  {
    forall i | |before| <= i < |before + chunks|
      ensures (before + chunks)[i] == chunks[i - |before|]
    {
    }
  }

  /** A chunk the loop writes holds only `short`s when the decoded audio
      does: the fade applied to it never grows a sample nor flips its sign,
      because the fade step only runs on finite playback, where the clamp
      keeps the chunk inside the fade window. */
  lemma ChunkOutputStaysShort(stream: Stream, config: Config, total: int, fadeSamples: int, cursor: int)
    requires stream.channels > 0 && ShortSamples(stream.pcm)
    requires !(Finite(config, stream.loopFlag) && cursor >= total)
    ensures var frames := ChunkFrames(Finite(config, stream.loopFlag), cursor, total);
      && 1 <= frames
      && forall i :: 0 <= i < frames * stream.channels ==>
           IsShort(ChunkOutput(stream, config, total, fadeSamples, cursor, frames)[i])
  {
    var finite := Finite(config, stream.loopFlag);
    var frames := ChunkFrames(finite, cursor, total);
    ChunkFramesBounds(finite, cursor, total);
    var decoded := Interleaved(stream.pcm, cursor, frames, stream.channels);
    forall i | 0 <= i < frames * stream.channels
      ensures IsShort(ChunkOutput(stream, config, total, fadeSamples, cursor, frames)[i])
    {
      assert IsShort(decoded[i]);
      if Fading(config, stream.loopFlag, fadeSamples) {
        FadedShrinks(decoded, stream.channels, frames, SamplesIntoFade(cursor, total, fadeSamples), fadeSamples, i);
      }
    }
  }

  /** What opening a file yields: `open_vfs` fails, the decoder does not
      recognise the file (a null handle), or a handle. */
  datatype Source = Unreadable | Unrecognised | Recognised(stream: Stream)
  {
    function Objects(): set<object>
    {
      if Recognised? then {stream} else {}
    }
  }

  /** The handle opened and reports channels, so playback reaches the sink. */
  predicate Playable(source: Source)
  {
    source.Recognised? && source.stream.channels > 0
  }

  /** A seek past a finite play length is carried out in full before the
      loop breaks: with 100 frames to play at 1000 Hz, a request for 1000 ms
      renders and discards 1000 frames, and the first pass then breaks
      without writing anything. */
  lemma SeekPastEnd(stream: Stream, config: Config, fadeSamples: int)
    requires stream.channels > 0 && stream.sampleRate == 1000 && Finite(config, stream.loopFlag)
    ensures var p := Passes(stream, config, 100, fadeSamples, [1000], 1);
      && PassBreaks(stream, config, 100, fadeSamples, [1000], 0)
      && p.cursor == 1000 && Rendered(p.calls) == 1000 && p.chunks == []
  {
    SeekTargetOfPositive(1000, 1000);
    assert SeekTarget(1000, 1000) == 1000;
    DiscardCallsRender(1000);
    assert Consumed([1000], 0) == [1000];
    assert [] + SeekCalls(1000, 0) == DiscardCalls(1000);
  }

  /** Every buffer written holds between 1 and 576 whole frames. */
  ghost predicate ChunksWritten(written: seq<seq<int>>, from: int, channels: int)
  {
    forall i :: 0 <= from <= i < |written| ==> channels <= |written[i]| <= MaxBufferFrames * channels
  }

  /** The host reports no seek request. */
  predicate NoSeekRequested(seeks: seq<int>)
  {
    forall i :: 0 <= i < |seeks| ==> seeks[i] <= 0
  }

  /** Pass `n` of the render loop, which stands where `Passes` says `n`
      passes leave it, leaves it where `n + 1` passes do. `written0` is what
      the sink held before the loop. */
  method Pass(s: Stream, host: Host, buffer: array<int>, maxBufferFrames: int,
              config: Config, total: int, fadeSamples: int, cursor: int,
              ghost seeks0: seq<int>, ghost written0: seq<seq<int>>, ghost n: nat)
    returns (go: bool, newCursor: int)
    requires s.WellTyped() && s.channels > 0 && host.Valid() && SeeksInRange(seeks0)
    requires maxBufferFrames == MaxBufferFrames && buffer.Length == maxBufferFrames * s.channels
    requires host.seeks == Consumed(seeks0, n)
    requires var p := Passes(s, config, total, fadeSamples, seeks0, n);
      s.position == cursor && cursor == p.cursor && s.calls == p.calls && host.written == written0 + p.chunks
    modifies s, host`seeks, host`written, buffer
    ensures host.Valid() && host.seeks == Consumed(seeks0, n + 1)
    ensures var p := Passes(s, config, total, fadeSamples, seeks0, n + 1);
      s.position == newCursor && newCursor == p.cursor && s.calls == p.calls && host.written == written0 + p.chunks
    ensures go == !PassBreaks(s, config, total, fadeSamples, seeks0, n)
    ensures !go ==> Finite(config, s.loopFlag) && newCursor >= total
    ensures s.closed == old(s.closed)
  {
    ghost var p := Passes(s, config, total, fadeSamples, seeks0, n);
    ghost var pending := Consumed(seeks0, n);
    assert pending != [] ==> pending[0] == seeks0[n];
    ghost var q := Step(s, config, total, fadeSamples, p, PendingSeek(pending));
    assert Passes(s, config, total, fadeSamples, seeks0, n + 1) == q;
    StepAppends(s, config, total, fadeSamples, p, PendingSeek(pending), written0);
    ConsumedNext(seeks0, n);
    go, newCursor := PlayIteration(s, host, buffer, maxBufferFrames, config, total, fadeSamples, cursor);
  }

  /** The `while (!aud_input_check_stop())` loop of `vgmstream_play`,
      entered with the cursor at the first frame. `passes` counts the passes
      made and `polls` the stop answers consumed: the loop ends when the host
      asks to stop or when a pass finds a finite playback at its end. */
  method RenderLoop(s: Stream, host: Host, buffer: array<int>, maxBufferFrames: int,
                    config: Config, total: int, fadeSamples: int)
    returns (ghost passes: nat, ghost polls: nat)
    requires s.WellTyped() && s.channels > 0 && host.Valid()
    requires maxBufferFrames == MaxBufferFrames && buffer.Length == maxBufferFrames * s.channels
    requires s.position == 0 && s.calls == []
    modifies s, host`stops, host`seeks, host`written, buffer
    ensures host.Valid() && SeeksInRange(old(host.seeks))
    ensures s.closed == old(s.closed)
    ensures host.seeks == Consumed(old(host.seeks), passes)
    ensures host.stops == Consumed(old(host.stops), polls)
    ensures var p := Passes(s, config, total, fadeSamples, old(host.seeks), passes);
      && s.position == p.cursor
      && s.calls == p.calls
      && host.written == old(host.written) + p.chunks
    ensures LoopEnded(s, config, total, fadeSamples, old(host.seeks), old(host.stops), passes, polls)
    ensures polls == passes ==> Finite(config, s.loopFlag) && s.position >= total
    ensures ChunksWithin(s.calls, MaxBufferFrames)
    ensures ChunksWritten(host.written, |old(host.written)|, s.channels)
  {
    ghost var seeks0 := host.seeks;
    ghost var stops0 := host.stops;
    ghost var written0 := host.written;
    passes := 0;
    var cursor := 0;
    var stop := host.CheckStop();
    polls := 1;
    while !stop
      invariant host.Valid() && SeeksInRange(seeks0)
      invariant s.position == cursor && s.closed == old(s.closed)
      invariant host.seeks == Consumed(seeks0, passes)
      invariant host.stops == Consumed(stops0, polls) && polls == passes + 1
      invariant stop == StopRequested(Consumed(stops0, passes))
      invariant WentOn(s, config, total, fadeSamples, seeks0, stops0, passes)
      invariant var p := Passes(s, config, total, fadeSamples, seeks0, passes);
        cursor == p.cursor && s.calls == p.calls && host.written == written0 + p.chunks
      decreases |host.stops| + (if stop then 0 else 1)
    {
      var go;
      go, cursor := Pass(s, host, buffer, maxBufferFrames, config, total, fadeSamples, cursor, seeks0, written0, passes);
      if !go {
        EndedByBreak(s, config, total, fadeSamples, seeks0, stops0, passes);
        passes := passes + 1;
        break;
      }
      passes := passes + 1;
      ConsumedNext(stops0, polls);
      stop := host.CheckStop();
      polls := polls + 1;
    }
    if polls == passes + 1 {
      EndedByStop(s, config, total, fadeSamples, seeks0, stops0, passes);
    }
    PassesChunked(s, config, total, fadeSamples, seeks0, passes);
    ChunksWrittenAppend(written0, Passes(s, config, total, fadeSamples, seeks0, passes).chunks, s.channels);
  }

  /** Lines 113-170 of `vgmstream_play`, once the handle `s` is open and
      reports channels: allocate the buffer, hint the bitrate, open the sink
      and, when it accepts, run the render loop and close the handle.
      `passes` and `polls` are as in `RenderLoop`. */
  method PlayOpened(plugin: Plugin, host: Host, s: Stream, config: Config)
    returns (ok: bool, ghost passes: nat, ghost polls: nat)
    requires host.Valid() && plugin.current == s
    requires s.WellTyped() && s.channels > 0 && s.position == 0 && s.calls == [] && !s.closed
    modifies plugin, host, s
    ensures host.Valid()
    ensures ok == host.sinkAccepts
    ensures host.bitrate == s.averageBitrate
    ensures ChunksWithin(s.calls, MaxBufferFrames)
    ensures ChunksWritten(host.written, |old(host.written)|, s.channels)
    ensures ok ==> host.sink == S16LE(s.sampleRate, 2) && s.closed && plugin.current == null
    ensures !ok ==> host.sink == old(host.sink) && host.written == old(host.written)
                    && host.stops == old(host.stops) && host.seeks == old(host.seeks)
                    && s.calls == [] && s.position == 0
                    && !s.closed && plugin.current == s
    ensures ok ==>
      var total := s.playSamples(config.loopCount, config.fadeLength, config.fadeDelay);
      var fadeSamples := FadeSampleCount(config.fadeLength, s.sampleRate);
      var p := Passes(s, config, total, fadeSamples, old(host.seeks), passes);
      && s.calls == p.calls
      && host.written == old(host.written) + p.chunks
      && host.seeks == Consumed(old(host.seeks), passes)
      && host.stops == Consumed(old(host.stops), polls)
      && LoopEnded(s, config, total, fadeSamples, old(host.seeks), old(host.stops), passes, polls)
      && (polls == passes ==> Finite(config, s.loopFlag) && p.cursor >= total)
    ensures Finite(config, s.loopFlag) && NoSeekRequested(old(host.seeks)) ==>
      var total := s.playSamples(config.loopCount, config.fadeLength, config.fadeDelay);
      Rendered(s.calls) <= (if total < 0 then 0 else total)
  {
    passes, polls := 0, 0;
    var buffer, maxBufferFrames := NewBuffer(s.channels);
    var total := s.playSamples(config.loopCount, config.fadeLength, config.fadeDelay);
    host.SetBitrate(s.averageBitrate);
    ok := host.OpenAudio(s.sampleRate, 2);
    if !ok {
      return;
    }
    var fadeSamples := FadeSampleCount(config.fadeLength, s.sampleRate);
    passes, polls := RenderLoop(s, host, buffer, maxBufferFrames, config, total, fadeSamples);
    if NoSeekRequested(old(host.seeks)) {
      PassesWithoutSeek(s, config, total, fadeSamples, old(host.seeks), passes);
    }
    s.Close();
    plugin.current := null;
    ok := true;
  }

  /** `vgmstream_play`. `source` is what opening the file produced; a
      handle in it is as `Decoder.Stream.Open` leaves it. `passes` and
      `polls` count the render loop's passes and stop answers, as in
      `RenderLoop`. */
  method Play(plugin: Plugin, host: Host, source: Source, config: Config)
    returns (ok: bool, ghost passes: nat, ghost polls: nat)
    requires host.Valid()
    requires source.Recognised? ==>
      source.stream.WellTyped() && source.stream.position == 0 && source.stream.calls == [] && !source.stream.closed
    modifies plugin, host, source.Objects()
    ensures host.Valid()
    ensures !Playable(source) ==>
      && !ok && host.sink == old(host.sink) && host.bitrate == old(host.bitrate) && host.written == old(host.written)
      && host.stops == old(host.stops) && host.seeks == old(host.seeks)
    ensures source.Unreadable? ==> plugin.current == old(plugin.current)
    ensures !source.Unreadable? && !Playable(source) ==> plugin.current == null
    ensures source.Recognised? && !Playable(source) ==> source.stream.closed
    ensures Playable(source) ==>
      var s := source.stream;
      && ok == host.sinkAccepts
      && host.bitrate == s.averageBitrate
      && ChunksWithin(s.calls, MaxBufferFrames)
      && ChunksWritten(host.written, |old(host.written)|, s.channels)
      && (ok ==> host.sink == S16LE(s.sampleRate, 2) && s.closed && plugin.current == null)
      && (!ok ==> host.sink == old(host.sink) && host.written == old(host.written)
                  && host.stops == old(host.stops) && host.seeks == old(host.seeks)
                  && s.calls == [] && s.position == 0
                  && !s.closed && plugin.current == s)
    ensures Playable(source) && ok ==>
      var s := source.stream;
      var total := s.playSamples(config.loopCount, config.fadeLength, config.fadeDelay);
      var p := Passes(s, config, total, FadeSampleCount(config.fadeLength, s.sampleRate), old(host.seeks), passes);
      && s.calls == p.calls
      && host.written == old(host.written) + p.chunks
      && host.seeks == Consumed(old(host.seeks), passes)
      && host.stops == Consumed(old(host.stops), polls)
      && LoopEnded(s, config, total, FadeSampleCount(config.fadeLength, s.sampleRate), old(host.seeks), old(host.stops), passes, polls)
      && (polls == passes ==> Finite(config, s.loopFlag) && p.cursor >= total)
    ensures Playable(source) && Finite(config, source.stream.loopFlag) && NoSeekRequested(old(host.seeks)) ==>
      var total := source.stream.playSamples(config.loopCount, config.fadeLength, config.fadeDelay);
      Rendered(source.stream.calls) <= (if total < 0 then 0 else total)
  {
    passes, polls := 0, 0;
    match source
    case Unreadable =>
      ok := false;
    case Unrecognised =>
      plugin.current := null;
      ok := false;
    case Recognised(s) =>
      plugin.current := s;
      if s.channels <= 0 {
        s.Close();
        plugin.current := null;
        ok := false;
      } else {
        ok, passes, polls := PlayOpened(plugin, host, s, config);
      }
  }
}
