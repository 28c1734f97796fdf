/** The `btoa` encoding used for HTTP Basic credentials: base 64 with the
    alphabet and `=` padding of section 4 of RFC 4648. `btoa` accepts only
    characters up to U+00FF (each one is a byte) and throws otherwise. */
module Base64 {
  import opened Prelude

  type Byte = b: int | 0 <= b < 256
  type Sextet = v: int | 0 <= v < 64

  /** The alphabet of section 4 of RFC 4648: A-Z, a-z, 0-9, '+', '/'. */
  function CharOf(v: Sextet): char {
    if v < 26 then ('A' as int + v) as char
    else if v < 52 then ('a' as int + v - 26) as char
    else if v < 62 then ('0' as int + v - 52) as char
    else if v == 62 then '+'
    else '/'
  }

  /** The value of an alphabet character; `None` for anything else, `=` included. */
  function ValueOf(c: char): (r: Option<Sextet>)
    ensures r.Some? ==> CharOf(r.value) == c
  {
    if 'A' <= c <= 'Z' then Some(c as int - 'A' as int)
    else if 'a' <= c <= 'z' then Some(c as int - 'a' as int + 26)
    else if '0' <= c <= '9' then Some(c as int - '0' as int + 52)
    else if c == '+' then Some(62)
    else if c == '/' then Some(63)
    else None
  }

  lemma ValueOfCharOf(v: Sextet)
    ensures ValueOf(CharOf(v)) == Some(v)
  {
  }

  // The three ways a group of input bytes becomes output characters.

  function EncodeOne(a: Byte): string {
    [CharOf(a / 4), CharOf((a % 4) * 16), '=', '=']
  }

  function EncodeTwo(a: Byte, b: Byte): string {
    [CharOf(a / 4), CharOf((a % 4) * 16 + b / 16), CharOf((b % 16) * 4), '=']
  }

  function EncodeThree(a: Byte, b: Byte, c: Byte): string {
    [CharOf(a / 4), CharOf((a % 4) * 16 + b / 16), CharOf((b % 16) * 4 + c / 64), CharOf(c % 64)]
  }

  /** Base 64 of a byte string: four characters per started group of three bytes. */
  function Encode(bytes: seq<Byte>): (r: string)
    ensures |r| == 4 * ((|bytes| + 2) / 3)
    ensures |bytes| > 0 ==> |r| >= 4
    decreases |bytes|
  {
    if |bytes| == 0 then ""
    else if |bytes| == 1 then EncodeOne(bytes[0])
    else if |bytes| == 2 then EncodeTwo(bytes[0], bytes[1])
    else EncodeThree(bytes[0], bytes[1], bytes[2]) + Encode(bytes[3..])
  }

  /** The decoder, accepting exactly the canonical padded output of `Encode`. */
  function Decode(s: string): Option<seq<Byte>>
    decreases |s|
  {
    if |s| == 0 then Some([])
    else if |s| < 4 then None
    else
      var v0, v1 := ValueOf(s[0]), ValueOf(s[1]);
      if v0.None? || v1.None? then None
      else if |s| == 4 && s[2] == '=' && s[3] == '=' then
        if v1.value % 16 == 0 then Some([v0.value * 4 + v1.value / 16]) else None
      else
        var v2 := ValueOf(s[2]);
        if v2.None? then None
        else if |s| == 4 && s[3] == '=' then
          if v2.value % 4 == 0 then Some([v0.value * 4 + v1.value / 16, (v1.value % 16) * 16 + v2.value / 4])
          else None
        else
          var v3 := ValueOf(s[3]);
          if v3.None? then None
          else
            var rest := Decode(s[4..]);
            if rest.None? then None
            else Some([v0.value * 4 + v1.value / 16, (v1.value % 16) * 16 + v2.value / 4, (v2.value % 4) * 64 + v3.value] + rest.value)
  }

  lemma SplitByte16(a: Byte, b: Byte)
    ensures (a % 4) * 16 + b / 16 < 64
    ensures ((a % 4) * 16 + b / 16) / 16 == a % 4 && ((a % 4) * 16 + b / 16) % 16 == b / 16
    ensures (a / 4) * 4 + a % 4 == a && (b / 16) * 16 + b % 16 == b
  {
  }

  lemma SplitByte64(b: Byte, c: Byte)
    ensures (b % 16) * 4 + c / 64 < 64
    ensures ((b % 16) * 4 + c / 64) / 4 == b % 16 && ((b % 16) * 4 + c / 64) % 4 == c / 64
    ensures (c / 64) * 64 + c % 64 == c
  {
  }

  lemma DecodeOne(a: Byte)
    ensures Decode(EncodeOne(a)) == Some([a])
  {
    var e := EncodeOne(a);
    ValueOfCharOf(a / 4);
    ValueOfCharOf((a % 4) * 16);
    assert ((a % 4) * 16) % 16 == 0 && ((a % 4) * 16) / 16 == a % 4;
    assert ValueOf(e[0]) == Some(a / 4) && ValueOf(e[1]) == Some((a % 4) * 16);
  }

  lemma DecodeTwo(a: Byte, b: Byte)
    ensures Decode(EncodeTwo(a, b)) == Some([a, b])
  {
    var e := EncodeTwo(a, b);
    SplitByte16(a, b);
    ValueOfCharOf(a / 4);
    ValueOfCharOf((a % 4) * 16 + b / 16);
    ValueOfCharOf((b % 16) * 4);
    assert ((b % 16) * 4) % 4 == 0 && ((b % 16) * 4) / 4 == b % 16;
    assert ValueOf(e[0]) == Some(a / 4) && ValueOf(e[1]) == Some((a % 4) * 16 + b / 16);
    assert ValueOf(e[2]) == Some((b % 16) * 4);
  }

  /** A group of four alphabet characters decodes to three bytes, followed by
      the decoding of the rest. */
  lemma DecodeGroup(s: string, v0: Sextet, v1: Sextet, v2: Sextet, v3: Sextet)
    requires |s| >= 4
    requires ValueOf(s[0]) == Some(v0) && ValueOf(s[1]) == Some(v1) && ValueOf(s[2]) == Some(v2) && ValueOf(s[3]) == Some(v3)
    ensures var rest := Decode(s[4..]);
      Decode(s) == if rest.None? then None else Some([v0 * 4 + v1 / 16, (v1 % 16) * 16 + v2 / 4, (v2 % 4) * 64 + v3] + rest.value)
  {
  }

  lemma DecodeThree(a: Byte, b: Byte, c: Byte, rest: string, tail: seq<Byte>)
    requires Decode(rest) == Some(tail)
    ensures Decode(EncodeThree(a, b, c) + rest) == Some([a, b, c] + tail)
  {
    var e := EncodeThree(a, b, c) + rest;
    SplitByte16(a, b);
    SplitByte64(b, c);
    ValueOfCharOf(a / 4);
    ValueOfCharOf((a % 4) * 16 + b / 16);
    ValueOfCharOf((b % 16) * 4 + c / 64);
    ValueOfCharOf(c % 64);
    assert e[4..] == rest;
    assert e[0] == CharOf(a / 4) && e[1] == CharOf((a % 4) * 16 + b / 16);
    assert e[2] == CharOf((b % 16) * 4 + c / 64) && e[3] == CharOf(c % 64);
    DecodeGroup(e, a / 4, (a % 4) * 16 + b / 16, (b % 16) * 4 + c / 64, c % 64);
  }

  /** One or two bytes are one padded group. */
  lemma DecodeShort(bytes: seq<Byte>)
    requires 1 <= |bytes| <= 2
    ensures Decode(Encode(bytes)) == Some(bytes)
  {
    if |bytes| == 1 {
      DecodeOne(bytes[0]);
      assert bytes == [bytes[0]];
    } else {
      DecodeTwo(bytes[0], bytes[1]);
      assert bytes == [bytes[0], bytes[1]];
    }
  }

  lemma EncodeGroup(bytes: seq<Byte>)
    requires |bytes| >= 3
    ensures Encode(bytes) == EncodeThree(bytes[0], bytes[1], bytes[2]) + Encode(bytes[3..])
    ensures bytes == [bytes[0], bytes[1], bytes[2]] + bytes[3..]
  {
    assert bytes == bytes[..3] + bytes[3..];
    assert bytes[..3] == [bytes[0], bytes[1], bytes[2]];
  }

  /** Decoding inverts encoding (section 4 of RFC 4648). */
  lemma {:induction false} DecodeEncode(bytes: seq<Byte>)
    ensures Decode(Encode(bytes)) == Some(bytes)
    decreases |bytes|
  {
    if 1 <= |bytes| <= 2 {
      DecodeShort(bytes);
    } else if |bytes| >= 3 {
      DecodeEncode(bytes[3..]);
      EncodeGroup(bytes);
      DecodeThree(bytes[0], bytes[1], bytes[2], Encode(bytes[3..]), bytes[3..]);
    }
  }

  /** The bytes of a string for `btoa`: `None` when some character is above U+00FF. */
  function Latin1(s: string): (r: Option<seq<Byte>>)
    ensures r.Some? <==> forall k :: 0 <= k < |s| ==> s[k] as int < 256
    ensures r.Some? ==> |r.value| == |s| && forall k :: 0 <= k < |s| ==> r.value[k] == s[k] as int
    decreases |s|
  {
    if |s| == 0 then Some([])
    else if s[0] as int >= 256 then None
    else
      var rest := Latin1(s[1..]);
      if rest.None? then None else Some([s[0] as int as Byte] + rest.value)
  }

  /** `btoa(s)`; `None` stands for the InvalidCharacterError it throws. */
  function Btoa(s: string): Option<string> {
    var bytes := Latin1(s);
    if bytes.None? then None else Some(Encode(bytes.value))
  }

  /** What `btoa` produced can be decoded back to the characters it was given. */
  lemma BtoaRoundTrip(s: string)
    requires Btoa(s).Some?
    ensures var bytes := Decode(Btoa(s).value);
      bytes.Some? && |bytes.value| == |s| && forall k :: 0 <= k < |s| ==> bytes.value[k] == s[k] as int
  {
    DecodeEncode(Latin1(s).value);
  }
}
