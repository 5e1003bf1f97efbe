/**
 * The outbound half of the live session: the `onaudioprocess` handler of
 * components/LiveConsultant.tsx, which turns each captured block of float
 * samples into a base64 payload of 16-bit little-endian PCM, tagged with
 * its format.
 */
module Capture {
  import opened Platform
  import Pcm
  import Base64
  import BinaryString

  /** Samples per captured block (`createScriptProcessor(4096, 1, 1)`). */
  const BlockSize: nat := 4096

  /** The format tag of every outbound payload. */
  const MimeType: string := "audio/pcm;rate=16000"

  /** The media object handed to `sendRealtimeInput`. */
  datatype Blob = Blob(data: string, mimeType: string)

  /** The `Int16Array` the loop fills: each sample times 32768, stored as an Int16 element. */
  function Quantize(input: seq<real>): (r: seq<int16>)
    ensures |r| == |input|
  {
    seq(|input|, i requires 0 <= i < |input| => ToInt16(input[i] * 32768.0))
  }

  /** The bytes of that array's buffer. */
  function Payload(input: seq<real>): seq<byte>
  {
    Pcm.LittleEndian(Quantize(input))
  }

  /** One run of `onaudioprocess` on a block, up to the send. */
  method OnAudioProcess(inputData: array<real>) returns (blob: Blob)
    ensures blob.mimeType == MimeType
    ensures blob.data == Base64.Encode(Payload(inputData[..]))
  {
    var l := inputData.Length;
    var samples := new int16[l];
    for i := 0 to l
      invariant forall k :: 0 <= k < i ==> samples[k] == ToInt16(inputData[k] * 32768.0)
    {
      samples[i] := ToInt16(inputData[i] * 32768.0);
    }
    assert samples[..] == Quantize(inputData[..]);
    var bytes := Pcm.LittleEndian(samples[..]);
    var view := new byte[|bytes|](i requires 0 <= i < |bytes| => bytes[i]);
    assert view[..] == bytes;
    var data := BinaryString.Encode(view);
    blob := Blob(data, MimeType);
  }

  /** A block of l samples is 2 l bytes, in sample order, low byte first. */
  lemma PayloadLayout(input: seq<real>, i: nat)
    requires i < |input|
    ensures |Payload(input)| == 2 * |input|
    ensures Payload(input)[2 * i] == Pcm.LowByte(ToInt16(input[i] * 32768.0))
    ensures Payload(input)[2 * i + 1] == Pcm.HighByte(ToInt16(input[i] * 32768.0))
  {
  }

  /** A full 4096-sample block is 8192 bytes, which base64 spells in 10924 characters. */
  lemma FullBlockSize(input: seq<real>)
    requires |input| == BlockSize
    ensures |Payload(input)| == 8192
    ensures |Base64.Encode(Payload(input))| == 10924
  {
  }

  /** Whoever decodes the payload text and views it as an `Int16Array` gets the stored samples back. */
  lemma PayloadRoundTrip(input: seq<real>)
    ensures BinaryString.Decoded(Base64.Encode(Payload(input))) == Ok(Payload(input))
    ensures Pcm.Int16View(Payload(input)) == Ok(Quantize(input))
  {
    BinaryString.DecodeEncode(Payload(input));
    Pcm.ViewOfLittleEndian(Quantize(input));
  }

  /**
   * For a sample in [-1, 1) the store neither wraps nor rounds: it truncates
   * toward zero, so the value read back is within one step of 1/32768 of the
   * sample and no farther from zero than it.
   */
  lemma QuantizeInRange(s: real)
    requires -1.0 <= s < 1.0
    ensures ToInt16(s * 32768.0) == Truncate(s * 32768.0)
    ensures -1.0 / 32768.0 < Pcm.ToFloat(ToInt16(s * 32768.0)) - s < 1.0 / 32768.0
    ensures 0.0 <= s ==> 0.0 <= Pcm.ToFloat(ToInt16(s * 32768.0)) <= s
    ensures s < 0.0 ==> s <= Pcm.ToFloat(ToInt16(s * 32768.0)) <= 0.0
  {
    var t := Truncate(s * 32768.0);
    assert -32768 <= t < 32768;
    var x := Pcm.ToFloat(WrapInt16(t));
    assert x * 32768.0 == t as real;
  }

  /** A full-scale sample of 1.0 is not clamped: 32768 wraps to -32768. */
  lemma FullScaleWraps()
    ensures ToInt16(1.0 * 32768.0) == -32768
    ensures Quantize([1.0, -1.0]) == [-32768, -32768]
  {
    assert Truncate(32768.0) == 32768;
    assert Truncate(-32768.0) == -32768;
  }
}
