/** `vgmstream_probe_for_tuple`: the bitrate and length the plugin reports
    for a file in the playlist, computed from the header of a handle opened
    only for the probe. */
module Probe {
  import opened Int32
  import opened Decoder
  import Seek

  /** The two fields the probe fills in. */
  datatype Tuple = Tuple(bitrate: int, lengthMs: int)

  /** FIELD_BITRATE: `sample_rate * 2 * channels` in `int` arithmetic. */
  function ProbeBitrate(sampleRate: int, channels: int): (rate: int)
    ensures InRange(rate)
    ensures InRange(sampleRate * 2 * channels) ==> rate == ByteLength(sampleRate, channels)
  {
    ToInt32(sampleRate * 2 * channels)
  }

  /** FIELD_LENGTH: `play_samples * 1000LL / sample_rate`, narrowed to `int`. */
  function ProbeLength(playSamples: int, sampleRate: int): (ms: int)
    requires sampleRate != 0
    ensures InRange(ms)
  {
    ToInt32(Quot(playSamples * 1000, sampleRate))
  }

  /** The tuple the probe returns: the bitrate is the byte rate of the
      16-bit interleaved output and the length is the play length in whole
      milliseconds, whenever neither overflows an `int`. */
  function ProbeTuple(sampleRate: int, channels: int, playSamples: int): (t: Tuple)
    requires sampleRate != 0
    ensures InRange(t.bitrate) && InRange(t.lengthMs)
    ensures InRange(sampleRate * 2 * channels) ==> t.bitrate == ByteLength(sampleRate, channels)
    ensures 0 <= playSamples && 0 < sampleRate && playSamples * 1000 / sampleRate <= MaxInt32 ==>
      0 <= t.lengthMs && t.lengthMs * sampleRate <= playSamples * 1000 < t.lengthMs * sampleRate + sampleRate
  {
    var t := Tuple(ProbeBitrate(sampleRate, channels), ProbeLength(playSamples, sampleRate));
    if 0 <= playSamples && 0 < sampleRate && playSamples * 1000 / sampleRate <= MaxInt32 then
      ProbeLengthIsDuration(playSamples, sampleRate);
      t
    else
      t
  }

  /** The reported length is the play length in whole milliseconds, rounded
      down. */
  lemma ProbeLengthIsDuration(playSamples: int, sampleRate: int)
    requires 0 <= playSamples && 0 < sampleRate
    requires playSamples * 1000 / sampleRate <= MaxInt32
    ensures var ms := ProbeLength(playSamples, sampleRate);
      0 <= ms && ms * sampleRate <= playSamples * 1000 < ms * sampleRate + sampleRate
  {
    QuotNonNegative(playSamples * 1000, sampleRate);
  }

  /** Seeking to the reported length lands at or before the end of the play
      length, and less than one millisecond plus one sample before it. */
  lemma SeekToReportedLength(playSamples: int, sampleRate: int)
    requires 0 <= playSamples <= MaxInt32 && 0 < sampleRate <= MaxInt32
    requires playSamples * 1000 / sampleRate <= MaxInt32
    ensures var t := Seek.SeekTarget(ProbeLength(playSamples, sampleRate), sampleRate);
      t <= playSamples && playSamples * 1000 < t * 1000 + sampleRate + 1000
  {
    var ms := ProbeLength(playSamples, sampleRate);
    ProbeLengthIsDuration(playSamples, sampleRate);
    assert ms * sampleRate <= playSamples * 1000;
    assert ms * sampleRate / 1000 <= playSamples;
    if ms == 0 {
      assert Seek.SeekTarget(ms, sampleRate) == 0;
    } else {
      Seek.SeekTargetOfPositive(ms, sampleRate);
    }
  }
}
