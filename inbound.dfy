/**
 * The inbound half of the live session: `decodeAudioData` of
 * components/LiveConsultant.tsx, which views received bytes as 16-bit PCM
 * and spreads the interleaved samples over the channels of an AudioBuffer,
 * each scaled by 1/32768.
 */
module Inbound {
  import opened Platform
  import Pcm

  /** `AudioBuffer.duration`: the seconds that `length` frames last at `sampleRate`. */
  function Seconds(length: nat, sampleRate: nat): real
    requires sampleRate > 0
  {
    length as real / sampleRate as real
  }

  /** The contents of an AudioBuffer, as a value. */
  datatype Segment = Segment(numberOfChannels: nat, length: nat, sampleRate: nat, channels: seq<seq<real>>)
  {
    function Duration(): real
      requires sampleRate > 0
    {
      Seconds(length, sampleRate)
    }
  }

  /** With c < n and i below the frame count, sample i * n + c exists. */
  lemma FrameIndex(i: nat, c: nat, n: nat, len: nat)
    requires c < n && i < len / n
    ensures i * n + c < len
  {
    var q := len / n;
    assert q * n <= len;
    assert (i + 1) * n <= q * n by {
      MulMonotone(i + 1, q, n);
    }
  }

  lemma {:induction false} MulMonotone(a: nat, b: nat, n: nat)
    requires a <= b
    ensures a * n <= b * n
    decreases n
  {
    if n > 0 {
      MulMonotone(a, b, n - 1);
      assert a * n == a * (n - 1) + a && b * n == b * (n - 1) + b;
    }
  }

  /** The value of channel c at frame i: interleaved sample i * n + c over 32768. */
  function At(samples: seq<int16>, n: nat, c: nat, i: nat): real
    requires c < n && i < |samples| / n
  {
    FrameIndex(i, c, n, |samples|);
    Pcm.ToFloat(samples[i * n + c])
  }

  /** The n channels of interleaved samples; every channel has |samples| / n frames. */
  function Deinterleave(samples: seq<int16>, n: nat): (channels: seq<seq<real>>)
    requires n > 0
    ensures |channels| == n
    ensures forall c :: 0 <= c < n ==> |channels[c]| == |samples| / n
  {
    seq(n, c requires 0 <= c < n =>
      seq(|samples| / n, i requires 0 <= i < |samples| / n => At(samples, n, c, i)))
  }

  /** What `decodeAudioData(data, ctx, sampleRate, numChannels)` resolves to, or the error it throws. */
  function DecodeAudio(data: seq<byte>, sampleRate: nat, numChannels: nat): (r: Result<Segment>)
    ensures |data| % 2 == 1 ==> r == Err(RangeError)
    ensures |data| % 2 == 0 ==>
      (r.Ok? <==> numChannels > 0 && |data| / 2 / numChannels > 0 && sampleRate > 0)
    ensures r.Err? ==> r.error in {RangeError, NotSupportedError}
    ensures r.Ok? ==> (
      r.value.numberOfChannels == numChannels && r.value.sampleRate == sampleRate &&
      r.value.length == |data| / 2 / numChannels && |r.value.channels| == numChannels &&
      forall c :: 0 <= c < numChannels ==> |r.value.channels[c]| == r.value.length)
  {
    match Pcm.Int16View(data)
    case Err(e) => Err(e)
    case Ok(samples) =>
      if numChannels == 0 || |samples| / numChannels == 0 || sampleRate == 0 then Err(NotSupportedError)
      else Ok(Segment(numChannels, |samples| / numChannels, sampleRate, Deinterleave(samples, numChannels)))
  }

  /** Every decoded value is interleaved sample i * n + c of the data's Int16 view, over 32768, so in [-1, 32767/32768]. */
  lemma DecodedValue(data: seq<byte>, sampleRate: nat, numChannels: nat, c: nat, i: nat)
    requires DecodeAudio(data, sampleRate, numChannels).Ok?
    requires c < numChannels && i < DecodeAudio(data, sampleRate, numChannels).value.length
    ensures i * numChannels + c < |data| / 2
    ensures var x := DecodeAudio(data, sampleRate, numChannels).value.channels[c][i];
      x == Pcm.ToFloat(Pcm.Int16View(data).value[i * numChannels + c])
      && -1.0 <= x <= 32767.0 / 32768.0
  {
    FrameIndex(i, c, numChannels, |data| / 2);
  }

  /** The channels interleaved again (frame-major). */
  function Interleave(channels: seq<seq<real>>, frames: nat): (r: seq<real>)
    requires forall c :: 0 <= c < |channels| ==> |channels[c]| == frames
    ensures |r| == frames * |channels|
  {
    seq(frames * |channels|, k requires 0 <= k < frames * |channels| =>
      FrameOfIndex(k, frames, |channels|);
      channels[k % |channels|][k / |channels|])
  }

  lemma FrameOfIndex(k: nat, frames: nat, n: nat)
    requires k < frames * n
    ensures n > 0 && k / n < frames && k == k / n * n + k % n
  {
    if k / n >= frames {
      MulMonotone(frames, k / n, n);
    }
  }

  /** De-interleaving loses nothing but the samples of an incomplete last frame. */
  lemma InterleaveDeinterleave(samples: seq<int16>, n: nat)
    requires n > 0
    ensures var frames := |samples| / n;
      frames * n <= |samples|
      && Interleave(Deinterleave(samples, n), frames)
         == seq(frames * n, k requires 0 <= k < frames * n && k < |samples| => Pcm.ToFloat(samples[k]))
  {
    var frames := |samples| / n;
    var channels := Deinterleave(samples, n);
    assert frames * n <= |samples|;
    forall k | 0 <= k < frames * n
      ensures Interleave(channels, frames)[k] == Pcm.ToFloat(samples[k])
    {
      FrameOfIndex(k, frames, n);
      FrameIndex(k / n, k % n, n, |samples|);
    }
  }

  /** The call the live session makes (one channel at 24 kHz) yields one value per Int16 sample. */
  lemma MonoSegment(data: seq<byte>)
    requires |data| % 2 == 0 && |data| >= 2
    ensures DecodeAudio(data, 24000, 1).Ok?
    ensures var g := DecodeAudio(data, 24000, 1).value;
      g.length == |data| / 2 && g.Duration() == (|data| / 2) as real / 24000.0
      && g.channels[0] == seq(|data| / 2, i requires 0 <= i < |data| / 2 => Pcm.ToFloat(Pcm.Int16View(data).value[i]))
  {
    var g := DecodeAudio(data, 24000, 1).value;
    forall i | 0 <= i < |data| / 2
      ensures g.channels[0][i] == Pcm.ToFloat(Pcm.Int16View(data).value[i])
    {
      DecodedValue(data, 24000, 1, 0, i);
    }
  }

  /** An AudioBuffer: `numberOfChannels` channels of `length` frames each. */
  class AudioBuffer {
    const numberOfChannels: nat
    const length: nat
    const sampleRate: nat
    const data: array2<real>

    ghost predicate Valid()
      reads this
    {
      data.Length0 == numberOfChannels && data.Length1 == length && sampleRate > 0
    }

    constructor (numberOfChannels: nat, length: nat, sampleRate: nat)
      requires sampleRate > 0
      ensures Valid() && fresh(data)
      ensures this.numberOfChannels == numberOfChannels && this.length == length && this.sampleRate == sampleRate
    {
      this.numberOfChannels := numberOfChannels;
      this.length := length;
      this.sampleRate := sampleRate;
      data := new real[numberOfChannels, length]((c, i) => 0.0);
    }

    function Duration(): real
      requires Valid()
      reads this
    {
      Seconds(length, sampleRate)
    }

    ghost function Contents(): Segment
      requires Valid()
      reads this, data
    {
      Segment(numberOfChannels, length, sampleRate,
        seq(numberOfChannels, c requires 0 <= c < numberOfChannels reads data =>
          seq(length, i requires 0 <= i < length reads data => data[c, i])))
    }
  }

  /** `ctx.createBuffer`: NotSupportedError for zero channels, zero frames or a zero rate. */
  method CreateBuffer(numberOfChannels: nat, length: nat, sampleRate: nat) returns (r: Result<AudioBuffer>)
    ensures r.Err? <==> numberOfChannels == 0 || length == 0 || sampleRate == 0
    ensures r.Err? ==> r.error == NotSupportedError
    ensures r.Ok? ==> (
      fresh(r.value) && fresh(r.value.data) && r.value.Valid() &&
      r.value.numberOfChannels == numberOfChannels && r.value.length == length && r.value.sampleRate == sampleRate)
  {
    if numberOfChannels == 0 || length == 0 || sampleRate == 0 {
      return Err(NotSupportedError);
    }
    var buffer := new AudioBuffer(numberOfChannels, length, sampleRate);
    return Ok(buffer);
  }

  /** A buffer whose every cell holds its de-interleaved sample has the contents of the decoded segment. */
  lemma FilledBuffer(buffer: AudioBuffer, samples: seq<int16>)
    requires buffer.Valid() && buffer.numberOfChannels > 0
    requires buffer.length == |samples| / buffer.numberOfChannels
    requires forall c, i :: 0 <= c < buffer.numberOfChannels && 0 <= i < buffer.length ==>
      buffer.data[c, i] == At(samples, buffer.numberOfChannels, c, i)
    ensures buffer.Contents().channels == Deinterleave(samples, buffer.numberOfChannels)
  {
    var n := buffer.numberOfChannels;
    var channels := buffer.Contents().channels;
    var spec := Deinterleave(samples, n);
    forall c | 0 <= c < n ensures channels[c] == spec[c] {
      assert forall i :: 0 <= i < buffer.length ==> channels[c][i] == spec[c][i];
    }
  }

  /** `decodeAudioData`: the nested loops fill channel by channel, frame by frame. */
  method DecodeAudioData(data: array<byte>, sampleRate: nat, numChannels: nat) returns (r: Result<AudioBuffer>)
    ensures r.Err? ==> DecodeAudio(data[..], sampleRate, numChannels) == Err(r.error)
    ensures r.Ok? ==> (
      fresh(r.value) && fresh(r.value.data) && r.value.Valid() &&
      DecodeAudio(data[..], sampleRate, numChannels) == Ok(r.value.Contents()))
  {
    var view := Pcm.Int16View(data[..]);
    if view.Err? {
      return Err(view.error);
    }
    var dataInt16 := view.value;
    var frameCount := if numChannels == 0 then 0 else |dataInt16| / numChannels;
    var created := CreateBuffer(numChannels, frameCount, sampleRate);
    if created.Err? {
      return Err(created.error);
    }
    var buffer := created.value;
    for channel := 0 to numChannels
      invariant forall c, i :: 0 <= c < channel && 0 <= i < frameCount ==>
        buffer.data[c, i] == At(dataInt16, numChannels, c, i)
    {
      for i := 0 to frameCount
        invariant forall k :: 0 <= k < i ==> buffer.data[channel, k] == At(dataInt16, numChannels, channel, k)
        invariant forall c, k :: 0 <= c < channel && 0 <= k < frameCount ==>
          buffer.data[c, k] == At(dataInt16, numChannels, c, k)
      {
        FrameIndex(i, channel, numChannels, |dataInt16|);
        buffer.data[channel, i] := Pcm.ToFloat(dataInt16[i * numChannels + channel]);
      }
    }
    FilledBuffer(buffer, dataInt16);
    return Ok(buffer);
  }
}
