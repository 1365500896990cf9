/** `vgmstream_seek`: move the playback cursor to a time given in
    milliseconds. The decoder can only go forward, so a seek renders and
    discards audio up to the target, after rewinding the handle first when
    the target lies behind the cursor. */
module Seek {
  import opened Int32
  import opened Decoder

  /** Frames held by the plugin's PCM buffer, `576 * channels` samples long. */
  const MaxBufferFrames: int := 576

  function Min(a: int, b: int): (m: int)
    ensures m <= a && m <= b && (m == a || m == b)
  {
    if a < b then a else b
  }

  /** The sample index a seek to `seekMs` milliseconds aims at: the product
      is formed in 64 bits, divided with truncation and narrowed to `int`. */
  function SeekTarget(seekMs: int, sampleRate: int): (target: int)
    requires InRange(seekMs) && InRange(sampleRate)
    ensures InRange(target)
  {
    ToInt32(Quot(seekMs * sampleRate, 1000))
  }

  /** For a positive time whose sample index fits in an `int`, the target is
      the whole number of samples played in `seekMs` milliseconds. */
  lemma SeekTargetOfPositive(seekMs: int, sampleRate: int)
    requires 0 < seekMs <= MaxInt32 && 0 < sampleRate <= MaxInt32
    requires seekMs * sampleRate / 1000 <= MaxInt32
    ensures var t := SeekTarget(seekMs, sampleRate);
      0 <= t && t * 1000 <= seekMs * sampleRate < t * 1000 + 1000
  {
    QuotNonNegative(seekMs * sampleRate, 1000);
  }

  /** Past the range of `int` the narrowing wraps: a seek near the largest
      time at 48000 Hz aims at a negative sample index. */
  lemma SeekTargetWraps()
    ensures SeekTarget(MaxInt32, 48000) == -48
  {
    QuotNonNegative(MaxInt32 * 48000, 1000);
    assert MaxInt32 * 48000 / 1000 == 103079215056;
  }

  /** A negative sample rate gives a negative target without any wrap:
      one second at -44100 Hz targets sample -44100. */
  lemma SeekTargetNegativeRate()
    ensures SeekTarget(1000, -44100) == -44100
  {
    assert 1000 * -44100 == -44100000;
  }

  /** The render calls that discard `n` frames, one buffer at a time. */
  function DiscardCalls(n: int): (calls: seq<Call>)
    decreases n
  {
    if n <= 0 then []
    else
      var chunk := Min(MaxBufferFrames, n);
      [Call.Render(chunk)] + DiscardCalls(n - chunk)
  }

  /** Discarding renders exactly `n` frames. */
  lemma {:induction false} DiscardCallsRender(n: int)
    requires n >= 0
    ensures Rendered(DiscardCalls(n)) == n
    decreases n
  {
    if n > 0 {
      var chunk := Min(MaxBufferFrames, n);
      DiscardCallsRender(n - chunk);
      RenderedAppend([Call.Render(chunk)], DiscardCalls(n - chunk));
    }
  }

  /** Discarding never resets and renders in chunks of 1 to 576 frames. */
  lemma {:induction false} DiscardCallsChunked(n: int)
    ensures ChunksWithin(DiscardCalls(n), MaxBufferFrames)
    ensures forall i :: 0 <= i < |DiscardCalls(n)| ==> DiscardCalls(n)[i].Render?
    decreases n
  {
    if n > 0 {
      var chunk := Min(MaxBufferFrames, n);
      DiscardCallsChunked(n - chunk);
      var rest := DiscardCalls(n - chunk);
      assert DiscardCalls(n) == [Call.Render(chunk)] + rest;
      forall i | 0 < i < |DiscardCalls(n)|
        ensures DiscardCalls(n)[i] == rest[i - 1]
      {
      }
    }
  }

  /** Discarding `n` frames takes ceil(n / 576) render calls. */
  lemma {:induction false} DiscardCallsCount(n: int)
    requires n >= 0
    ensures |DiscardCalls(n)| == (n + MaxBufferFrames - 1) / MaxBufferFrames
    decreases n
  {
    if n > 0 {
      DiscardCallsCount(n - Min(MaxBufferFrames, n));
    }
  }

  /** The calls a seek from `cursor` to `target` makes on the handle. */
  function SeekCalls(target: int, cursor: int): seq<Call>
  {
    if target < cursor then [Call.Reset] + DiscardCalls(target)
    else DiscardCalls(target - cursor)
  }

  /** The cursor after a seek from `cursor` to `target`. A negative target
      (from the narrowing in SeekTarget, or from a negative sample rate,
      which the plugin does not reject) rewinds to 0 and the
      `samples_to_do >= 0` test then skips rendering. */
  function SeekCursor(target: int, cursor: int): (c: int)
    ensures target >= 0 ==> c == target
    ensures target < 0 ==> c == (if target < cursor then 0 else target)
  {
    if target < cursor && target < 0 then 0 else target
  }

  lemma {:induction false} PositionAfterDiscard(p: int, n: int)
    ensures PositionAfter(p, DiscardCalls(n)) == p + (if n < 0 then 0 else n)
    decreases n
  {
    if n > 0 {
      var chunk := Min(MaxBufferFrames, n);
      assert DiscardCalls(n)[1..] == DiscardCalls(n - chunk);
      PositionAfterDiscard(p + chunk, n - chunk);
    }
  }

  /** The cursor bookkeeping agrees with the handle: replaying the seek's
      calls on a handle standing at the cursor leaves it at the new cursor,
      whether the seek rewound or went forward. */
  lemma SeekCursorTracksHandle(target: int, cursor: int)
    ensures PositionAfter(cursor, SeekCalls(target, cursor)) == SeekCursor(target, cursor)
  {
    if target < cursor {
      assert SeekCalls(target, cursor)[1..] == DiscardCalls(target);
      PositionAfterDiscard(0, target);
    } else {
      PositionAfterDiscard(cursor, target - cursor);
    }
  }

  /** A seek resets the handle exactly when the target lies behind the
      cursor; a rewind renders `target` frames, a forward seek the gap. */
  lemma SeekCallsShape(target: int, cursor: int)
    ensures (Call.Reset in SeekCalls(target, cursor)) <==> target < cursor
    ensures target < cursor ==> SeekCalls(target, cursor)[0] == Call.Reset
    ensures Rendered(SeekCalls(target, cursor))
         == if target < cursor then (if target < 0 then 0 else target)
            else target - cursor
    ensures ChunksWithin(SeekCalls(target, cursor), MaxBufferFrames)
  {
    var calls := SeekCalls(target, cursor);
    if target < cursor {
      var rest := DiscardCalls(target);
      DiscardCallsChunked(target);
      if target >= 0 {
        DiscardCallsRender(target);
      }
      RenderedAppend([Call.Reset], rest);
      assert calls == [Call.Reset] + rest;
      forall i | 0 <= i < |calls| && calls[i].Render?
        ensures 1 <= calls[i].frames <= MaxBufferFrames
      {
        assert calls[i] == rest[i - 1];
      }
    } else {
      DiscardCallsChunked(target - cursor);
      DiscardCallsRender(target - cursor);
      assert forall i :: 0 <= i < |calls| ==> calls[i] != Call.Reset;
    }
  }

  /** A seek keeps every render call of a handle within one buffer. */
  lemma SeekKeepsChunks(calls: seq<Call>, target: int, cursor: int)
    requires ChunksWithin(calls, MaxBufferFrames)
    ensures ChunksWithin(calls + SeekCalls(target, cursor), MaxBufferFrames)
  {
    SeekCallsShape(target, cursor);
    ChunksWithinAppend(calls, SeekCalls(target, cursor), MaxBufferFrames);
  }

  /** Seeking again to the same target leaves the cursor where it is and,
      once the target is a real sample index, makes no call at all. */
  lemma SeekRepeated(target: int, cursor: int)
    ensures SeekCursor(target, SeekCursor(target, cursor)) == SeekCursor(target, cursor)
    ensures target >= 0 ==> SeekCalls(target, SeekCursor(target, cursor)) == []
  {
  }

  /** Seeking to 5000 ms at 44100 Hz from sample 500000 rewinds, then
      renders 220500 frames in 383 calls and stops at sample 220500. */
  lemma RewindExample()
    ensures SeekTarget(5000, 44100) == 220500
    ensures SeekCursor(220500, 500000) == 220500
    ensures SeekCalls(220500, 500000)[0] == Call.Reset
    ensures Rendered(SeekCalls(220500, 500000)) == 220500
    ensures |SeekCalls(220500, 500000)| == 1 + 383
  {
    QuotNonNegative(5000 * 44100, 1000);
    SeekCallsShape(220500, 500000);
    DiscardCallsCount(220500);
  }

  /** `short buffer[576 * channels]` and the number of whole frames it
      holds, `sizeof(buffer) / sizeof(buffer[0]) / channels`. */
  method NewBuffer(channels: int) returns (buffer: array<int>, maxBufferFrames: int)
    requires channels > 0
    ensures fresh(buffer) && buffer.Length == MaxBufferFrames * channels
    ensures maxBufferFrames == MaxBufferFrames
  {
    MulAtLeast(576, channels);
    FrameIndex(576, 0, channels);
    buffer := new int[576 * channels];
    maxBufferFrames := buffer.Length / channels;
  }

  /** The render loop of a seek: discard `toDo` frames in chunks of at most
      one buffer, advancing `cursor` past them. */
  method Discard(stream: Stream, buffer: array<int>, maxBufferFrames: int, cursor: int, toDo: int)
      returns (newCursor: int)
    requires stream.channels > 0 && maxBufferFrames == MaxBufferFrames
    requires buffer.Length == maxBufferFrames * stream.channels
    modifies stream, buffer
    ensures toDo >= 0 ==> newCursor == cursor + toDo
    ensures toDo < 0 ==> newCursor == cursor
    ensures stream.calls == old(stream.calls) + DiscardCalls(toDo)
    ensures stream.position == old(stream.position) + (newCursor - cursor)
    ensures stream.closed == old(stream.closed)
  {
    newCursor := cursor;
    var left := toDo;
    if left >= 0 {
      while left > 0
        invariant left >= 0 && newCursor + left == cursor + toDo
        invariant stream.calls + DiscardCalls(left) == old(stream.calls) + DiscardCalls(toDo)
        invariant stream.position == old(stream.position) + (newCursor - cursor)
        invariant stream.closed == old(stream.closed)
      {
        var chunk := Min(maxBufferFrames, left);
        FramesFit(chunk, maxBufferFrames, stream.channels);
        newCursor := newCursor + chunk;
        left := left - chunk;
        stream.Render(buffer, chunk);
      }
    }
  }

  /** `vgmstream_seek(seek_value, current_sample_pos)`: `cursor` is the
      by-reference position, returned as `newCursor`. */
  method Seek(stream: Stream, seekMs: int, cursor: int) returns (newCursor: int)
    requires stream.WellTyped() && stream.channels > 0 && InRange(seekMs)
    modifies stream
    ensures var target := SeekTarget(seekMs, stream.sampleRate);
      && newCursor == SeekCursor(target, cursor)
      && stream.calls == old(stream.calls) + SeekCalls(target, cursor)
      && stream.position == newCursor + (if target < cursor then 0 else old(stream.position) - cursor)
    ensures stream.closed == old(stream.closed)
  {
    var target := SeekTarget(seekMs, stream.sampleRate);
    var buffer, maxBufferFrames := NewBuffer(stream.channels);

    if target < cursor {
      stream.Reset();
      assert stream.calls == old(stream.calls) + [Call.Reset];
      newCursor := Discard(stream, buffer, maxBufferFrames, 0, target);
      assert SeekCalls(target, cursor) == [Call.Reset] + DiscardCalls(target);
    } else {
      newCursor := Discard(stream, buffer, maxBufferFrames, cursor, target - cursor);
    }
  }
}
