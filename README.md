# vgmstream Audacious plugin: playback cursor, seek and fade, in Dafny

This project models the input plugin that lets the Audacious media player play game-audio files through the vgmstream decoder library (`unix/plugin.cc`). Decoding itself happens in the library. The plugin does the bookkeeping around it:

- **Seek** (`vgmstream_seek`). A time in milliseconds becomes a sample index. The handle is rewound when that index lies behind the playback cursor. Audio is then rendered and discarded, one 576-frame buffer at a time, until the cursor reaches the index.
- **Play loop** (`vgmstream_play`). After opening the handle and the audio sink, each pass does the following:
  - polls for a seek;
  - clamps the chunk to the play length when playback is finite, and stops once that length is reached;
  - renders the chunk;
  - fades the chunk if it lies in the trailing fade window;
  - writes it to the sink and advances the cursor.
- **Probe** (`vgmstream_probe_for_tuple`). Reports a bitrate and a length in milliseconds for a playlist entry.

Modules, one per concern:

- `Int32` (`int32.dfy`): C `int` range, the narrowing of wider values to `int`, and C's truncating `/`.
- `Decoder` (`decoder.dfy`): the `VGMSTREAM` handle as an object the plugin calls. The decoded audio is an opaque function from (frame, channel) to sample. The handle records its position and every `Render`/`Reset` call it receives. `render_vgmstream` fills the buffer with interleaved frames, `reset_vgmstream` rewinds to frame 0, and `close_vgmstream` closes the handle.
- `Seek` (`seek.dfy`): `vgmstream_seek` as a method whose by-reference cursor is returned as `newCursor`, with its countdown loop in `Discard`. It is specified by `SeekTarget`, `SeekCalls` (the calls made on the handle) and `SeekCursor`.
- `Fade` (`fade.dfy`): the nested fade loops as a method on the interleaved array, proved against the function `Faded`.
- `Probe` (`probe.dfy`): the probe's two formulas.
- `Playback` (`playback.dfy`): the Audacious host as an object and the global handle as a `Plugin` object. It holds one pass of the play loop (`PlayIteration`, with `RenderChunk`), the loop itself (`RenderLoop`, one pass at a time through `Pass`) and the whole of `vgmstream_play` (`Play`, with `PlayOpened` for the part after the channel check). The functions `Step` and `Passes` say what one pass and the first n passes do to the cursor, the handle's calls and the sink's output; the methods are proved against them.
  - The host's answers to `aud_input_check_stop` and `aud_input_check_seek` are scripted sequences. The sink's acceptance of the format is a constant.
  - `get_vgmstream_play_samples` and `get_vgmstream_average_bitrate` are opaque values of the handle.

Inputs that come from outside the plugin are parameters or opaque constants: the decoded audio, header fields, play length, average bitrate, transport requests and sink acceptance.

Four behaviours of the code that are easy to miss; the model follows the code:

- **Sink failure.** When `aud_input_open_audio` fails, `vgmstream_play` returns at lines 121-122 without closing the handle, and the global keeps pointing at it. `Play` states this outright.
- **Seek to 0 ms.** A seek request of 0 ms is ignored because of the `seek_value > 0` test at line 130 (`CursorAfterSeek`).
- **Negative seek target.** A negative target arises from the narrowing at line 51, or from a negative sample rate, which the plugin does not reject. It takes the rewind branch, leaves the cursor at 0 and renders nothing, because of the `samples_to_do >= 0` test at line 71 (`SeekCursor`, `SeekTargetWraps`, `SeekTargetNegativeRate`).
- **Seek past the end.** A seek beyond a finite play length is carried out in full at lines 129-131, rendering and discarding up to the target. Only then does the test at line 137 break the loop, so a finite playback with seeks can render past its play length (`SeekPastEnd`).

## Model

| member | source | states |
|---|---|---|
| `Int32.Quot` | unix/plugin.cc:51 | C's `/`: the quotient is truncated toward zero, so abs(q)·abs(b) ≤ abs(a) < abs(q)·abs(b) + abs(b), with the sign the operand signs give |
| `Int32.ToInt32` | unix/plugin.cc:51 | narrowing to `int` gives a value in range that is congruent mod 2^32, and leaves values already in range alone |
| `Decoder.Stream.Open` | unix/plugin.cc:101 | a freshly opened handle reports its header fields and stands at frame 0, with no calls made and not closed |
| `Decoder.Stream.Render` | unix/plugin.cc:81 | rendering n frames writes frames position..position+n-1 interleaved as `j*channels+k` to the front of the buffer, leaves the rest alone and advances the position by n |
| `Decoder.Stream.Reset` | unix/plugin.cc:60 | a reset rewinds the handle to frame 0 |
| `Decoder.Stream.Close` | unix/plugin.cc:108 | closing marks the handle closed and changes nothing else |
| `Decoder.Interleaved` | unix/plugin.cc:155-156 | the interleaved layout of n frames holds n·channels samples |
| `Decoder.RenderedAppend` | unix/plugin.cc:76-82 | frames rendered by two call sequences add up |
| `Seek.SeekTarget` | unix/plugin.cc:51 | the target is `seek_value * sample_rate / 1000` formed in 64 bits, truncated and narrowed to an `int` |
| `Seek.SeekTargetOfPositive` | unix/plugin.cc:51 | for positive milliseconds whose sample index fits in an `int`, the target is non-negative and is the whole number of samples in that time |
| `Seek.SeekTargetWraps` | unix/plugin.cc:51 | past the `int` range the narrowing wraps: 2147483647 ms at 48000 Hz targets sample -48 |
| `Seek.SeekTargetNegativeRate` | unix/plugin.cc:51 | a negative sample rate gives a negative target with no wrap: 1000 ms at -44100 Hz targets sample -44100 |
| `Seek.DiscardCalls` | unix/plugin.cc:76-82 | the calls the countdown loop makes to discard n frames: renders of `min(576, left)` frames until none are left (specification function; its properties are the `DiscardCalls*` lemmas) |
| `Seek.DiscardCallsRender` | unix/plugin.cc:76-82 | the countdown loop renders exactly n frames in total |
| `Seek.DiscardCallsChunked` | unix/plugin.cc:52-53 | every chunk the countdown loop renders holds 1 to 576 frames, and the loop never resets |
| `Seek.DiscardCallsCount` | unix/plugin.cc:76-82 | discarding n frames takes ceil(n/576) render calls |
| `Seek.SeekCalls` | unix/plugin.cc:56-82 | the calls a seek makes: a reset when the target is behind the cursor, then the countdown's renders (specification function; its properties are `SeekCallsShape`, `SeekKeepsChunks` and `SeekCursorTracksHandle`) |
| `Seek.SeekCursor` | unix/plugin.cc:56-68 | the cursor after a seek is the target. The only exception is a negative target, which leaves the cursor at 0 after a rewind |
| `Seek.PositionAfterDiscard` | unix/plugin.cc:76-82 | the discard calls move a handle forward by exactly the distance |
| `Seek.SeekCursorTracksHandle` | unix/plugin.cc:56-82 | replaying a seek's calls on a handle standing at the cursor leaves it at the new cursor, both when rewinding and when moving forward |
| `Seek.SeekCallsShape` | unix/plugin.cc:56-82 | a seek resets iff the target is behind the cursor, and then the reset comes first. It renders the target (rewind) or the gap (forward), in chunks of 1..576 |
| `Seek.SeekKeepsChunks` | unix/plugin.cc:78 | a seek keeps all render calls of a handle within one buffer |
| `Seek.SeekRepeated` | unix/plugin.cc:56-68 | repeating a seek leaves the cursor where it is and, for a non-negative target, makes no call |
| `Seek.RewindExample` | unix/plugin.cc:51-82 | 5000 ms at 44100 Hz from sample 500000: target 220500, rewind first, 220500 frames in 383 renders |
| `Seek.NewBuffer` | unix/plugin.cc:52-53 | the buffer holds `576 * channels` samples, and `max_buffer_samples` computed from its size is exactly 576 frames |
| `Seek.Discard` | unix/plugin.cc:71-84 | the countdown loop moves the cursor by the frames to discard (by none when that count is negative), the handle receives exactly `DiscardCalls` of it, and the handle moves with the cursor |
| `Seek.Seek` | unix/plugin.cc:47-85 | the new cursor is `SeekCursor` of the target, the handle receives exactly `SeekCalls`, and the handle stays at the same offset from the cursor (zero after a rewind) |
| `Fade.Trunc` | unix/plugin.cc:156 | conversion from floating point to integer truncates toward zero |
| `Fade.Factor` | unix/plugin.cc:154 | `fadedness`, `(fade_samples - samples_into_fade) / fade_samples` on exact reals (its properties are `FactorEnds` and `FactorBounds`) |
| `Fade.Scale` | unix/plugin.cc:156 | `buffer[i] *= fadedness`: the sample times the factor, truncated toward zero (its property is `ScaleShrinks`) |
| `Fade.FactorEnds` | unix/plugin.cc:154 | `fadedness` is 1 at the start of the window and 0 at its end |
| `Fade.FactorBounds` | unix/plugin.cc:154 | strictly inside the window the factor lies in [1/fade_samples, (fade_samples-1)/fade_samples] and drops by 1/fade_samples per frame |
| `Fade.ScaleShrinks` | unix/plugin.cc:156 | scaling by a factor in [0,1] never grows a sample or flips its sign |
| `Fade.ScaleBetween` | unix/plugin.cc:156 | a sample scaled by a factor in [0,1] lies between 0 and the sample |
| `Decoder.FrameIndex` | unix/plugin.cc:156 | index `j*channels+k` belongs to frame j, channel k |
| `Decoder.FrameOf` | unix/plugin.cc:150 | an index below `toget*channels` belongs to one of the first `toget` frames |
| `Fade.Faded` | unix/plugin.cc:145-159 | the fade step leaves the buffer length unchanged |
| `Fade.FadedFrame` | unix/plugin.cc:150-157 | frame j is scaled iff `samples_into_fade > 0` for it, and then every channel of the frame gets the same factor |
| `Fade.FadedOutsideChunk` | unix/plugin.cc:150 | entries past `toget*channels` are unchanged |
| `Fade.FadedPrefix` | unix/plugin.cc:150-157 | the faded chunk depends only on the chunk |
| `Fade.FadedShrinks` | unix/plugin.cc:145-159 | in a chunk that ends within the window, no sample grows or flips sign |
| `Fade.FadeChunk` | unix/plugin.cc:147-159 | the nested loops leave the buffer equal to `Faded` of the old buffer |
| `Probe.ProbeBitrate` | unix/plugin.cc:187 | the reported bitrate is in `int` range and, without overflow, equals the bytes of one second of 16-bit interleaved output |
| `Probe.ProbeLength` | unix/plugin.cc:190 | the reported length is an `int` |
| `Probe.ProbeTuple` | unix/plugin.cc:186-191 | both fields are `int`s; without overflow the bitrate is the byte rate of the 16-bit interleaved output, and the length is the play length in whole milliseconds, rounded down |
| `Probe.ProbeLengthIsDuration` | unix/plugin.cc:190 | the length is the play length in whole milliseconds, rounded down |
| `Probe.SeekToReportedLength` | unix/plugin.cc:190 | seeking to the reported length lands at or before the end of the play length, and less than 1 ms plus one sample before it |
| `Playback.FadeSampleCount` | unix/plugin.cc:124 | `fade_samples` is `fade_length * sample_rate` rounded down for non-negative inputs |
| `Playback.Defaults` | unix/plugin.cc:19-31 | the registered defaults: loop forever, 2 loops, 3 s fade length, 3 s fade delay |
| `Playback.DefaultFadeExample` | unix/plugin.cc:20 | the default 3 s fade at 44100 Hz spans 132300 samples, and halfway into it the factor is 1/2 |
| `Playback.Finite` | unix/plugin.cc:135 | playback stops at the play length unless `loop_forever` is set and the stream loops (used by `ChunkFramesBounds`, `FadeFactorInWindow` and the loop's stop reason) |
| `Playback.Fading` | unix/plugin.cc:145 | the fade step runs when `loop_flag && fade_samples > 0 && !loop_forever` (used by `FadeFactorInWindow` and `RenderChunk`) |
| `Playback.ChunkFrames` | unix/plugin.cc:127-141 | `toget` is at most 576, and exactly 576 when playback is not finite or a full buffer remains before the total |
| `Playback.ChunkFramesBounds` | unix/plugin.cc:135-141 | a pass that goes on renders 1..576 frames. When playback is finite, the pass ends at or before the total, and exactly at it once less than a buffer remains |
| `Playback.SamplesIntoFade` | unix/plugin.cc:147 | `samples_into_fade` at the start of a chunk: the cursor minus the start of the fade window (used by `FadeFactorInWindow`) |
| `Playback.FadeFactorInWindow` | unix/plugin.cc:145-154 | fading implies the clamp, so every factor applied lies in [1/fade_samples, (fade_samples-1)/fade_samples] |
| `Playback.ChunkOutput` | unix/plugin.cc:143-162 | the audio handed to the sink for one chunk holds `toget*channels` samples |
| `Playback.ChunkOutputStaysShort` | unix/plugin.cc:143-162 | when the decoded audio holds only `short`s, so does every chunk written, faded or not, because the fade step only runs inside the clamped window |
| `Decoder.ByteLength` | unix/plugin.cc:162 | `toget * sizeof(short) * channels`, the bytes of n interleaved 16-bit frames (its properties are `ChunkBytes` and `ProbeBitrate`) |
| `Playback.ChunkBytes` | unix/plugin.cc:162 | the byte count written is twice the sample count, and at most one buffer |
| `Playback.Host.constructor` | unix/plugin.cc:119-129 | the host starts with no bitrate hint, no sink and nothing written |
| `Playback.Host.CheckStop` | unix/plugin.cc:125 | the next stop answer is consumed, and the host stops once its script is exhausted |
| `Playback.Host.CheckSeek` | unix/plugin.cc:129 | the next seek answer is consumed, or -1 when none is pending |
| `Playback.Host.SetBitrate` | unix/plugin.cc:119 | the bitrate hint is recorded |
| `Playback.Host.OpenAudio` | unix/plugin.cc:121 | the sink is configured exactly when the host accepts the format |
| `Playback.Host.WriteAudio` | unix/plugin.cc:162 | the first bytes/2 samples of the buffer are appended to the sink's output |
| `Playback.Plugin.constructor` | unix/plugin.cc:15 | the global handle starts out null |
| `Playback.PendingSeek` | unix/plugin.cc:129 | what `aud_input_check_seek` answers: the first pending request, or -1 (used by `Host.CheckSeek` and `Step`) |
| `Playback.CursorAfterSeek` | unix/plugin.cc:129-131 | the cursor after the seek step: `SeekCursor` of the target for a positive request, unchanged otherwise (used by `PlayIteration` and `Step`) |
| `Playback.StopRequested` | unix/plugin.cc:125 | what `aud_input_check_stop` answers: the next scripted answer, or stop once the script has run out (used by `Host.CheckStop` and `LoopEnded`) |
| `Playback.ConsumedNext` | unix/plugin.cc:125-129 | each poll of the host consumes the next scripted answer, until none is left |
| `Playback.RenderChunk` | unix/plugin.cc:143-162 | renders the chunk, fades it when `loop_flag && fade_samples > 0 && !loop_forever`, and writes exactly `ChunkOutput` |
| `Playback.PlayIteration` | unix/plugin.cc:127-163 | one pass consumes one seek answer; a positive seek moves the cursor first. A finite playback at or past the total breaks. Otherwise `ChunkFrames` frames are rendered, faded and written, and the cursor advances by that many, never past the total when finite. Cursor, handle calls and sink output are exactly `Step` of the old ones, every render stays within one buffer and every write holds 1..576 frames |
| `Playback.AtEnd` | unix/plugin.cc:135-138 | the break: playback is finite and the cursor after the pass's seek is at or past the total (shared by `Step` and `PassBreaks`) |
| `Playback.Step` | unix/plugin.cc:127-163 | one pass on the loop's state: the seek's calls when the request is positive, then either the break at `AtEnd`, or a render of `ChunkFrames` frames whose `ChunkOutput` is written and the cursor advanced past it (its properties are `StepAppends`, `StepWithoutSeek` and `StepChunked`; `PlayIteration` is proved against it) |
| `Playback.Passes` | unix/plugin.cc:125-164 | the first n passes from frame 0, each taking the next seek answer (its properties are `PassesWithoutSeek`, `PassesChunked` and `SeekPastEnd`; `RenderLoop` is proved against it) |
| `Playback.PassBreaks` | unix/plugin.cc:137-138 | pass n, entered where n passes leave the loop, breaks instead of rendering |
| `Playback.StepAppends` | unix/plugin.cc:162 | a pass only appends to what the sink held before it |
| `Playback.Pass` | unix/plugin.cc:127-163 | from the state `Passes` gives after n passes, one pass leaves the state it gives after n+1 and consumes one more seek answer; it goes on exactly when `PassBreaks` is false for pass n, and when it breaks, playback is finite and the cursor is at or past the total |
| `Playback.StepWithoutSeek` | unix/plugin.cc:127-163 | a pass without a seek makes only a render call, of exactly the frames the cursor advances by, and never passes a finite play length |
| `Playback.PassesWithoutSeek` | unix/plugin.cc:125-164 | without seeks, any number of passes make only render calls, one per buffer written, whose frames add up to the cursor, which never exceeds a finite play length |
| `Playback.SeekPastEnd` | unix/plugin.cc:129-138 | with 100 frames to play at 1000 Hz, a 1000 ms seek renders 1000 frames before the first pass breaks, writing nothing |
| `Playback.StepChunked` | unix/plugin.cc:127-162 | a pass keeps every render call within one buffer and writes 1..576 frames |
| `Playback.PassesChunked` | unix/plugin.cc:125-164 | after any number of passes every render call holds at most 576 frames and every buffer written holds 1..576 frames |
| `Playback.ChunksWrittenAppend` | unix/plugin.cc:162 | buffers of 1..576 frames appended to earlier output are still 1..576 frames each |
| `Playback.LoopEnded` | unix/plugin.cc:125-138 | the loop ended at the first poll that asked to stop, or at the first pass that broke; every earlier poll said go on and every earlier pass rendered |
| `Playback.WentOnAll` | unix/plugin.cc:125-138 | when the loop went on for n passes, each of the first n polls said go on and each of the first n passes rendered |
| `Playback.EndedByStop` | unix/plugin.cc:125 | a loop that went on for n passes and then polled a stop ended at its first stop answer (`LoopEnded` with one more poll than passes) |
| `Playback.EndedByBreak` | unix/plugin.cc:137-138 | a loop that went on for n passes, polled go on and then broke ended at its first break (`LoopEnded` with as many polls as passes) |
| `Playback.RenderLoop` | unix/plugin.cc:125-164 | the loop entered at frame 0 ends after some number of passes with the handle's position, its calls and the sink's output equal to what `Passes` gives for that number, one seek answer consumed per pass and one stop answer per poll. It ended at the first stop answer (one more poll than passes) or at the first pass that found a finite playback at its end (as many polls as passes): every earlier poll said go on and every earlier pass rendered (`LoopEnded`). Every render stays within one buffer and every write holds 1..576 frames; the handle's open state is unchanged |
| `Playback.Playable` | unix/plugin.cc:104 | playback goes on past the check at line 104: the handle is not null and reports channels (used by `Play`) |
| `Playback.PlayOpened` | unix/plugin.cc:113-170 | with an open handle that reports channels: the bitrate hint is set; a refusing sink returns false before any call on the handle, with the scripts untouched; otherwise the loop runs as `RenderLoop` states, the handle is closed and the global cleared. Finite playback without seeks renders at most the play length |
| `Playback.Play` | unix/plugin.cc:87-171 | open failures return false with the sink and the transport scripts untouched; a channel-less handle is closed, and for a null or channel-less handle the global is cleared. A sink failure returns false before any call on the handle, leaves the handle open at frame 0 and the transport scripts untouched. The host stays valid for a later session. A completed session closes the handle, clears the global, and leaves the handle's calls and the sink's output as `Passes` gives them, ending at the first stop answer or the first break; renders come in chunks of 1..576 frames. Finite playback without seeks renders at most the play length |

## Left out

- Format parsing and decoding. `init_vgmstream_from_STREAMFILE`, `render_vgmstream`, `reset_vgmstream`, `close_vgmstream`, `get_vgmstream_play_samples` and `get_vgmstream_average_bitrate` belong to the external library. They appear only through the contract of `Decoder.Stream`, and the decoded audio is a fixed function of frame and channel.
- VFS and stream files. `open_vfs` and `close_streamfile` appear only as the `Unreadable` outcome of opening. The stream-file close on line 102 is not modelled.
- Configuration storage. `vgmstream_init`, `vgmstream_cleanup`, `vgmstream_cfg_load` and `vgmstream_cfg_save` go through the host's configuration store. Only the defaults of lines 19-31 are kept, as `Playback.Defaults`.
- Diagnostics. The `debugMessage` and `printf` output is not modelled.
- The probe's handle. The probe does not check the handle it opens for null, and it opens and closes handles. The model keeps only its two formulas.
- Probe.ProbeLength: a zero sample rate makes the division at line 190 undefined in C. The model requires a non-zero sample rate here and in `Probe.ProbeTuple`, and does not model that case.
- Playback.Host: the host's transport requests arrive asynchronously. The model takes them as finite scripts, and the host stops once the stop script runs out.
- Fade.Scale: the factor and the product are exact reals followed by truncation toward zero. IEEE double rounding is not modelled.
- Playback.FadeSampleCount: the conversion of `fade_length * sample_rate` is modelled on exact reals. Overflow of the converted value is not modelled.
- Seek.SeekTargetOfPositive: the target is non-negative for a positive `seek_value` only when `seek_value * sample_rate / 1000` fits in an `int`. Beyond that the narrowing wraps, as `Seek.SeekTargetWraps` shows.
- Probe.ProbeBitrate: `sample_rate * 2 * channels` is `int` arithmetic. Its overflow, undefined in C, is modelled as wrap-around.
- Playback.PlayIteration: the cursor, the clamp and `samples_into_fade` are unbounded integers. Overflow of the 32-bit `current_sample_pos`, which loop-forever playback reaches after 2^31 frames, is not modelled.
- Seek.NewBuffer: `576 * channels` is not checked for overflow; the model allocates the exact product.
- Playback.Play: a finite playback is not promised to reach its end, because the host may ask to stop first. The model states why and when the loop stopped. It proves that without seek requests the loop never renders past the end, and that every pass that writes audio stops at or before it (`PlayIteration`). A seek can take the cursor past the end (`SeekPastEnd`).
- Decoder.Stream: the 16-bit `short` type of the sample buffer is not imposed on the decoded audio. `Decoder.ShortSamples` states it, and `Playback.ChunkOutputStaysShort` shows the fade keeps it.
