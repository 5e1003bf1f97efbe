/**
 * `encode` and `decode` of components/LiveConsultant.tsx: bytes to base64
 * text through a "binary string" of one character per byte, and back.
 */
module BinaryString {
  import opened Platform
  import Base64

  /** What `decode` returns for a base64 text: the bytes atob yields, each stored through ToUint8. */
  function Decoded(base64: string): (r: Result<seq<byte>>)
    ensures r.Err? <==> Base64.Atob(base64).Err?
    ensures r.Err? ==> r.error == InvalidCharacterError
  {
    match Base64.Atob(base64)
    case Err(e) => Err(e)
    case Ok(binary) => Ok(seq(|binary|, i requires 0 <= i < |binary| => ToUint8(binary[i] as int)))
  }

  /** `encode`: builds the binary string a character at a time, then hands it to btoa. */
  method Encode(bytes: array<byte>) returns (text: string)
    ensures Base64.Btoa(Base64.StringOf(bytes[..])) == Ok(text)
    ensures text == Base64.Encode(bytes[..])
  {
    var binary := "";
    var len := bytes.Length;
    for i := 0 to len
      invariant |binary| == i
      invariant forall k :: 0 <= k < i ==> binary[k] as int == bytes[k]
    {
      binary := binary + [bytes[i] as char];  // String.fromCharCode
    }
    assert binary == Base64.StringOf(bytes[..]);
    text := Base64.Btoa(binary).value;
  }

  /** `decode`: atob, then each character code stored into a fresh `Uint8Array`. */
  method Decode(base64: string) returns (r: Result<array<byte>>)
    ensures r.Err? ==> Decoded(base64) == Err(r.error)
    ensures r.Ok? ==> fresh(r.value) && Decoded(base64) == Ok(r.value[..])
  {
    var decoded := Base64.Atob(base64);
    if decoded.Err? {
      return Err(decoded.error);
    }
    var binaryString := decoded.value;
    var len := |binaryString|;
    var bytes := new byte[len];
    for i := 0 to len
      invariant forall k :: 0 <= k < i ==> bytes[k] == ToUint8(binaryString[k] as int)
    {
      bytes[i] := ToUint8(binaryString[i] as int);  // charCodeAt
    }
    assert bytes[..] == Decoded(base64).value;
    return Ok(bytes);
  }

  /** decode(encode(b)) == b for every byte sequence b. */
  lemma DecodeEncode(b: seq<byte>)
    ensures Decoded(Base64.Encode(b)) == Ok(b)
  {
    Base64.DecodeEncode(b);
    var binary := Base64.StringOf(b);
    assert Base64.Atob(Base64.Encode(b)) == Ok(binary);
    assert seq(|binary|, i requires 0 <= i < |binary| => ToUint8(binary[i] as int)) == b;
  }
}
