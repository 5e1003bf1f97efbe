/**
 * 16-bit linear PCM as the live session lays it out: an `Int16Array` whose
 * buffer is read and written as bytes, low byte first (the byte order of
 * every platform the browser code runs on), and the float value a sample
 * stands for.
 */
module Pcm {
  import opened Platform

  /** The byte at the lower address of an `Int16Array` element. */
  function LowByte(v: int16): byte
  {
    v % 65536 % 256
  }

  /** The byte at the higher address of an `Int16Array` element. */
  function HighByte(v: int16): byte
  {
    v % 65536 / 256
  }

  /** The `Int16Array` element held by the two bytes lo (lower address) and hi. */
  function FromBytes(lo: byte, hi: byte): (v: int16)
    ensures LowByte(v) == lo && HighByte(v) == hi
  {
    var u := lo + 256 * hi;
    if u < 32768 then u else u - 65536
  }

  /** Laying a sample out as two bytes and reading them back gives the sample. */
  lemma FromBytesOfSample(v: int16)
    ensures FromBytes(LowByte(v), HighByte(v)) == v
  {
    var u := v % 65536;
    assert u == if v >= 0 then v else v + 65536;
    assert u == u % 256 + 256 * (u / 256);
  }

  /** The bytes of an `Int16Array`'s buffer, as `new Uint8Array(int16.buffer)` shows them. */
  function LittleEndian(samples: seq<int16>): (r: seq<byte>)
    ensures |r| == 2 * |samples|
    ensures forall i :: 0 <= i < |samples| ==> r[2 * i] == LowByte(samples[i]) && r[2 * i + 1] == HighByte(samples[i])
    decreases |samples|
  {
    if samples == [] then []
    else [LowByte(samples[0]), HighByte(samples[0])] + LittleEndian(samples[1..])
  }

  /** `new Int16Array(buffer)` over a buffer of these bytes: a RangeError on an odd byte length. */
  function Int16View(bytes: seq<byte>): (r: Result<seq<int16>>)
    ensures r.Err? <==> |bytes| % 2 == 1
    ensures r.Err? ==> r.error == RangeError
    ensures r.Ok? ==> |r.value| == |bytes| / 2
  {
    if |bytes| % 2 == 1 then Err(RangeError)
    else Ok(seq(|bytes| / 2, i requires 0 <= i < |bytes| / 2 => FromBytes(bytes[2 * i], bytes[2 * i + 1])))
  }

  /** Viewing the packed bytes of a block as an `Int16Array` recovers the block. */
  lemma ViewOfLittleEndian(samples: seq<int16>)
    ensures Int16View(LittleEndian(samples)) == Ok(samples)
  {
    var bytes := LittleEndian(samples);
    forall i | 0 <= i < |samples|
      ensures FromBytes(bytes[2 * i], bytes[2 * i + 1]) == samples[i]
    {
      FromBytesOfSample(samples[i]);
    }
    assert Int16View(bytes).value == samples;
  }

  /** Conversely, every even-length byte sequence is the packing of its `Int16Array` view. */
  lemma LittleEndianOfView(bytes: seq<byte>)
    requires |bytes| % 2 == 0
    ensures Int16View(bytes).Ok? && LittleEndian(Int16View(bytes).value) == bytes
  {
    var samples := Int16View(bytes).value;
    var packed := LittleEndian(samples);
    forall k | 0 <= k < |bytes| ensures packed[k] == bytes[k] {
      var i := k / 2;
      var v := FromBytes(bytes[2 * i], bytes[2 * i + 1]);
      assert samples[i] == v;
      if k == 2 * i {
        assert packed[k] == LowByte(v);
      } else {
        assert k == 2 * i + 1 && packed[k] == HighByte(v);
      }
    }
  }

  /** A stored sample as the float it stands for: v / 32768, which lies in [-1, 32767/32768]. */
  function ToFloat(v: int16): (x: real)
    ensures -1.0 <= x <= 32767.0 / 32768.0
    ensures x * 32768.0 == v as real
  {
    v as real / 32768.0
  }
}
