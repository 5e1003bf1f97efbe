/**
 * The browser's `btoa` and `atob`. Encoding follows section 4 of RFC 4648
 * (alphabet A-Z a-z 0-9 + /, padding with '='); decoding is the WHATWG
 * "forgiving-base64 decode" that `atob` runs: ASCII whitespace is dropped,
 * one or two trailing '=' are optional, and the bits left over in a final
 * partial group are discarded.
 */
module Base64 {
  import opened Platform

  /** A six-bit group: the value of one alphabet character. */
  type Sextet = x: int | 0 <= x < 64

  /** The character that stands for v in the base64 alphabet. */
  function Letter(v: Sextet): char
  {
    if v < 26 then ('A' as int + v) as char
    else if v < 52 then ('a' as int + (v - 26)) as char
    else if v < 62 then ('0' as int + (v - 52)) as char
    else if v == 62 then '+'
    else '/'
  }

  /** The value of an alphabet character; None for every other character. */
  function Value(c: char): (r: Option<Sextet>)
    ensures r.Some? ==> Letter(r.value) == c
  {
    if 'A' <= c <= 'Z' then Some(c as int - 'A' as int)
    else if 'a' <= c <= 'z' then Some(c as int - 'a' as int + 26)
    else if '0' <= c <= '9' then Some(c as int - '0' as int + 52)
    else if c == '+' then Some(62)
    else if c == '/' then Some(63)
    else None
  }

  /** Letters and values are inverse: the alphabet has 64 distinct characters, none of them '='. */
  lemma ValueOfLetter(v: Sextet)
    ensures Value(Letter(v)) == Some(v)
    ensures Letter(v) != '='
  {
  }

  /** The six-bit groups of section 4 of RFC 4648, before padding: each 3-byte quantum gives four. */
  function Sextets(b: seq<byte>): (r: seq<Sextet>)
    ensures |r| == |b| / 3 * 4 + (if |b| % 3 == 0 then 0 else |b| % 3 + 1)
    decreases |b|
  {
    if |b| == 0 then []
    else if |b| == 1 then [b[0] / 4, b[0] % 4 * 16]
    else if |b| == 2 then [b[0] / 4, b[0] % 4 * 16 + b[1] / 16, b[1] % 16 * 4]
    else [b[0] / 4, b[0] % 4 * 16 + b[1] / 16, b[1] % 16 * 4 + b[2] / 64, b[2] % 64] + Sextets(b[3..])
  }

  function Letters(v: seq<Sextet>): (s: string)
    ensures |s| == |v|
  {
    seq(|v|, i requires 0 <= i < |v| => Letter(v[i]))
  }

  /** '=' characters that complete the final quantum of n bytes to four characters. */
  function Padding(n: nat): string
  {
    if n % 3 == 1 then "==" else if n % 3 == 2 then "=" else ""
  }

  /** Base64 encoding of a byte sequence: four characters per started quantum of three bytes. */
  function Encode(b: seq<byte>): (s: string)
    ensures |s| == (|b| + 2) / 3 * 4 && |s| % 4 == 0
  {
    EncodedLength(|b|);
    Letters(Sextets(b)) + Padding(|b|)
  }

  lemma EncodedLength(n: nat)
    ensures var k := n / 3 * 4 + (if n % 3 == 0 then 0 else n % 3 + 1) + |Padding(n)|;
      k == (n + 2) / 3 * 4 && k % 4 == 0
  {
    var q, r := n / 3, n % 3;
    assert n == 3 * q + r;
    assert (n + 2) / 3 == if r == 0 then q else q + 1;
  }

  predicate IsAsciiWhitespace(c: char)
  {
    c == '\t' || c == '\n' || c as int == 0x0C || c == '\r' || c == ' '
  }

  function RemoveWhitespace(s: string): (r: string)
    ensures |r| <= |s|
    decreases |s|
  {
    if s == [] then []
    else if IsAsciiWhitespace(s[0]) then RemoveWhitespace(s[1..])
    else [s[0]] + RemoveWhitespace(s[1..])
  }

  /** One or two '=' at the end are dropped. */
  function RemovePadding(d: string): string
  {
    if |d| >= 2 && d[|d| - 2] == '=' && d[|d| - 1] == '=' then d[..|d| - 2]
    else if |d| >= 1 && d[|d| - 1] == '=' then d[..|d| - 1]
    else d
  }

  /** The values of the characters of d, or None if one of them is not in the alphabet. */
  function Values(d: string): (r: Option<seq<Sextet>>)
    ensures r.Some? ==> |r.value| == |d|
    decreases |d|
  {
    if d == [] then Some([])
    else match (Value(d[0]), Values(d[1..]))
      case (Some(v), Some(vs)) => Some([v] + vs)
      case _ => None
  }

  function Byte0(x0: Sextet, x1: Sextet): byte { x0 * 4 + x1 / 16 }
  function Byte1(x1: Sextet, x2: Sextet): byte { x1 % 16 * 16 + x2 / 4 }
  function Byte2(x2: Sextet, x3: Sextet): byte { x2 % 4 * 64 + x3 }

  /** Reassembles bytes from six-bit groups; a final group of two or three sextets gives one or two bytes. */
  function DecodeSextets(v: seq<Sextet>): (b: seq<byte>)
    requires |v| % 4 != 1
    decreases |v|
  {
    if |v| == 0 then []
    else if |v| == 2 then [Byte0(v[0], v[1])]
    else if |v| == 3 then [Byte0(v[0], v[1]), Byte1(v[1], v[2])]
    else [Byte0(v[0], v[1]), Byte1(v[1], v[2]), Byte2(v[2], v[3])] + DecodeSextets(v[4..])
  }

  /** WHATWG forgiving-base64 decode; failure is what `atob` reports as InvalidCharacterError. */
  function ForgivingDecode(s: string): (r: Result<seq<byte>>)
    ensures r.Err? ==> r.error == InvalidCharacterError
    ensures r.Ok? ==> 4 * |r.value| <= 3 * |s|
  {
    var d0 := RemoveWhitespace(s);
    var d := if |d0| % 4 == 0 then RemovePadding(d0) else d0;
    if |d| % 4 == 1 then Err(InvalidCharacterError)
    else match Values(d)
      case None => Err(InvalidCharacterError)
      case Some(v) =>
        DecodedLength(v);
        Ok(DecodeSextets(v))
  }

  /** Four sextets give at most three bytes. */
  lemma {:induction false} DecodedLength(v: seq<Sextet>)
    requires |v| % 4 != 1
    ensures 4 * |DecodeSextets(v)| <= 3 * |v|
    decreases |v|
  {
    if |v| > 3 {
      DecodedLength(v[4..]);
    }
  }

  /** A "binary string": every character has a code below 256. */
  predicate IsBinary(s: string)
  {
    forall i :: 0 <= i < |s| ==> s[i] as int < 256
  }

  /** Isomorphic encode: the bytes whose values are the character codes. */
  function BytesOf(s: string): (b: seq<byte>)
    requires IsBinary(s)
    ensures |b| == |s| && forall i :: 0 <= i < |s| ==> b[i] == s[i] as int
  {
    seq(|s|, i requires 0 <= i < |s| => s[i] as int)
  }

  /** Isomorphic decode: one character per byte, with the byte as its code. */
  function StringOf(b: seq<byte>): (s: string)
    ensures |s| == |b| && forall i :: 0 <= i < |b| ==> s[i] as int == b[i]
    ensures IsBinary(s) && BytesOf(s) == b
  {
    seq(|b|, i requires 0 <= i < |b| => b[i] as char)
  }

  /** `btoa`: refuses characters above U+00FF, else encodes the string's bytes. */
  function Btoa(s: string): (r: Result<string>)
    ensures r.Err? <==> !IsBinary(s)
  {
    if IsBinary(s) then Ok(Encode(BytesOf(s))) else Err(InvalidCharacterError)
  }

  /** `atob`: forgiving decode, the bytes returned as a binary string. */
  function Atob(s: string): (r: Result<string>)
    ensures r.Ok? ==> IsBinary(r.value)
  {
    match ForgivingDecode(s)
    case Err(e) => Err(e)
    case Ok(b) => Ok(StringOf(b))
  }

  // ---------------------------------------------------------------------------
  // Round trip

  /** Decoding the four sextets of one quantum, or the two or three of a final partial one, gives the bytes back. */
  lemma QuantumRoundTrip(b0: byte, b1: byte, b2: byte)
    ensures Byte0(b0 / 4, b0 % 4 * 16 + b1 / 16) == b0
    ensures Byte1(b0 % 4 * 16 + b1 / 16, b1 % 16 * 4 + b2 / 64) == b1
    ensures Byte1(b0 % 4 * 16 + b1 / 16, b1 % 16 * 4) == b1
    ensures Byte2(b1 % 16 * 4 + b2 / 64, b2 % 64) == b2
  {
    assert b1 / 16 < 16 && b2 / 64 < 4;
  }

  lemma DecodeSextetsQuantum(q: seq<Sextet>, w: seq<Sextet>)
    requires |q| == 4 && |w| % 4 != 1
    ensures DecodeSextets(q + w) == [Byte0(q[0], q[1]), Byte1(q[1], q[2]), Byte2(q[2], q[3])] + DecodeSextets(w)
  {
    assert (q + w)[4..] == w;
  }

  /** Short inputs: one or two bytes become two or three sextets. */
  lemma DecodeSextetsOfShort(b: seq<byte>)
    requires 1 <= |b| <= 2
    ensures |Sextets(b)| % 4 != 1
    ensures DecodeSextets(Sextets(b)) == b
  {
    if |b| == 1 {
      var v: seq<Sextet> := [b[0] / 4, b[0] % 4 * 16];
      assert Sextets(b) == v;
      QuantumRoundTrip(b[0], 0, 0);
      assert DecodeSextets(v) == [Byte0(v[0], v[1])];
      assert [b[0]] == b;
    } else {
      var v: seq<Sextet> := [b[0] / 4, b[0] % 4 * 16 + b[1] / 16, b[1] % 16 * 4];
      assert Sextets(b) == v;
      QuantumRoundTrip(b[0], b[1], 0);
      assert DecodeSextets(v) == [Byte0(v[0], v[1]), Byte1(v[1], v[2])];
      assert [b[0], b[1]] == b;
    }
  }

  /** The sextets of any byte sequence never leave a single one over. */
  lemma SextetsLength(b: seq<byte>)
    ensures |Sextets(b)| % 4 != 1
  {
    var x := if |b| % 3 == 0 then 0 else |b| % 3 + 1;
    assert (|b| / 3 * 4 + x) % 4 == x;
  }

  lemma {:induction false} DecodeSextetsOfSextets(b: seq<byte>)
    ensures |Sextets(b)| % 4 != 1
    ensures DecodeSextets(Sextets(b)) == b
    decreases |b|
  {
    SextetsLength(b);
    if 1 <= |b| <= 2 {
      DecodeSextetsOfShort(b);
    } else if |b| >= 3 {
      var q: seq<Sextet> := [b[0] / 4, b[0] % 4 * 16 + b[1] / 16, b[1] % 16 * 4 + b[2] / 64, b[2] % 64];
      var w := Sextets(b[3..]);
      assert Sextets(b) == q + w;
      DecodeSextetsOfSextets(b[3..]);
      DecodeSextetsQuantum(q, w);
      QuantumRoundTrip(b[0], b[1], b[2]);
      calc {
        DecodeSextets(Sextets(b));
        [Byte0(q[0], q[1]), Byte1(q[1], q[2]), Byte2(q[2], q[3])] + DecodeSextets(w);
        [b[0], b[1], b[2]] + b[3..];
        b;
      }
    }
  }

  lemma {:induction false} ValuesOfLetters(v: seq<Sextet>)
    ensures Values(Letters(v)) == Some(v)
    decreases |v|
  {
    if v != [] {
      ValueOfLetter(v[0]);
      ValuesOfLetters(v[1..]);
      assert Letters(v)[1..] == Letters(v[1..]);
      assert v == [v[0]] + v[1..];
    }
  }

  lemma {:induction false} RemoveWhitespaceNoop(s: string)
    requires forall i :: 0 <= i < |s| ==> !IsAsciiWhitespace(s[i])
    ensures RemoveWhitespace(s) == s
    decreases |s|
  {
    if s != [] {
      RemoveWhitespaceNoop(s[1..]);
      assert s == [s[0]] + s[1..];
    }
  }

  /** The encoding has no whitespace, a length divisible by four and only the padding to strip. */
  lemma EncodeLayout(b: seq<byte>)
    ensures RemoveWhitespace(Encode(b)) == Encode(b)
    ensures RemovePadding(Encode(b)) == Letters(Sextets(b))
  {
    var body := Letters(Sextets(b));
    var s := Encode(b);
    forall i | 0 <= i < |s| ensures !IsAsciiWhitespace(s[i]) {
      if i < |body| { ValueOfLetter(Sextets(b)[i]); }
    }
    RemoveWhitespaceNoop(s);
    if |body| >= 1 { ValueOfLetter(Sextets(b)[|body| - 1]); }
    RemovePaddingOf(body, Padding(|b|));
  }

  /** Stripping the padding from letters followed by their padding gives the letters. */
  lemma RemovePaddingOf(body: string, pad: string)
    requires pad == "" || pad == "=" || pad == "=="
    requires pad != "==" && |body| > 0 ==> body[|body| - 1] != '='
    ensures RemovePadding(body + pad) == body
  {
    var d := body + pad;
    if pad == "==" {
      assert d[..|d| - 2] == body;
    } else if pad == "=" {
      assert d[..|d| - 1] == body;
    } else {
      assert d == body;
    }
  }

  /** Forgiving decode inverts the encoding on every byte sequence. */
  lemma DecodeEncode(b: seq<byte>)
    ensures ForgivingDecode(Encode(b)) == Ok(b)
  {
    var s := Encode(b);
    var v := Sextets(b);
    EncodeLayout(b);
    DecodeSextetsOfSextets(b);
    ValuesOfLetters(v);
  }

  /** `atob(btoa(s)) == s` for every binary string s. */
  lemma AtobBtoa(s: string)
    requires IsBinary(s)
    ensures Btoa(s).Ok? && Atob(Btoa(s).value) == Ok(s)
  {
    DecodeEncode(BytesOf(s));
    assert StringOf(BytesOf(s)) == s;
  }
}
