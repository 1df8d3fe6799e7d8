/** Base64 with the standard alphabet and `=` padding, section 4 of RFC 4648, as `btoa`
    computes it over a Latin-1 string, and its decoding as an HTTP server reading a Basic
    credential (section 2 of RFC 7617) performs it. Bytes are integers 0..255. */
module Base64 {
  import opened Wrappers

  predicate IsByte(b: int) {
    0 <= b < 256
  }

  predicate Bytes(s: seq<int>) {
    forall i :: 0 <= i < |s| ==> IsByte(s[i])
  }

  /** The character of a 6-bit value. */
  function CharOf(v: int): (c: char)
    requires 0 <= v < 64
  {
    if v < 26 then ('A' as int + v) as char
    else if v < 52 then ('a' as int + (v - 26)) as char
    else if v < 62 then ('0' as int + (v - 52)) as char
    else if v == 62 then '+'
    else '/'
  }

  /** The 6-bit value of a character of the alphabet, or -1. */
  function ValueOf(c: char): (v: int)
    ensures -1 <= v < 64
  {
    if 'A' <= c <= 'Z' then c as int - 'A' as int
    else if 'a' <= c <= 'z' then c as int - 'a' as int + 26
    else if '0' <= c <= '9' then c as int - '0' as int + 52
    else if c == '+' then 62
    else if c == '/' then 63
    else -1
  }

  /** Every value has its own character, and '=' is none of them. */
  lemma ValueOfCharOf(v: int)
    requires 0 <= v < 64
    ensures ValueOf(CharOf(v)) == v && CharOf(v) != '='
  {
  }

  /** Three bytes as four characters. */
  function EncodeGroup(b0: int, b1: int, b2: int): seq<char>
    requires IsByte(b0) && IsByte(b1) && IsByte(b2)
  {
    [CharOf(b0 / 4), CharOf(b0 % 4 * 16 + b1 / 16), CharOf(b1 % 16 * 4 + b2 / 64), CharOf(b2 % 64)]
  }

  /** The Base64 text of a byte string, padded with '=' to a multiple of four. */
  function Encode(s: seq<int>): (r: seq<char>)
    requires Bytes(s)
    ensures |r| % 4 == 0
    ensures |r| == 0 <==> |s| == 0
    decreases |s|
  {
    if |s| == 0 then []
    else if |s| == 1 then [CharOf(s[0] / 4), CharOf(s[0] % 4 * 16), '=', '=']
    else if |s| == 2 then [CharOf(s[0] / 4), CharOf(s[0] % 4 * 16 + s[1] / 16), CharOf(s[1] % 16 * 4), '=']
    else EncodeGroup(s[0], s[1], s[2]) + Encode(s[3..])
  }

  /** The bytes of a Base64 text, None when it is not one. */
  function Decode(t: seq<char>): Option<seq<int>>
    decreases |t|
  {
    if |t| == 0 then Some([])
    else if |t| < 4 then None
    else
      var v0, v1, v2, v3 := ValueOf(t[0]), ValueOf(t[1]), ValueOf(t[2]), ValueOf(t[3]);
      if v0 < 0 || v1 < 0 then None
      else if t[2] == '=' && t[3] == '=' && |t| == 4 then Some([v0 * 4 + v1 / 16])
      else if v2 < 0 then None
      else if t[3] == '=' && |t| == 4 then Some([v0 * 4 + v1 / 16, v1 % 16 * 16 + v2 / 4])
      else if v3 < 0 then None
      else match Decode(t[4..])
        case None => None
        case Some(rest) => Some([v0 * 4 + v1 / 16, v1 % 16 * 16 + v2 / 4, v2 % 4 * 64 + v3] + rest)
  }

  /** The arithmetic of one group: the three bytes come back from their four 6-bit parts. */
  lemma GroupRoundTrip(b0: int, b1: int, b2: int)
    requires IsByte(b0) && IsByte(b1) && IsByte(b2)
    ensures b0 / 4 * 4 + (b0 % 4 * 16 + b1 / 16) / 16 == b0
    ensures (b0 % 4 * 16 + b1 / 16) % 16 * 16 + (b1 % 16 * 4 + b2 / 64) / 4 == b1
    ensures (b1 % 16 * 4 + b2 / 64) % 4 * 64 + b2 % 64 == b2
    ensures 0 <= b0 % 4 * 16 + b1 / 16 < 64 && 0 <= b1 % 16 * 4 + b2 / 64 < 64
  {
  }

  /** A final group of one byte decodes to that byte. */
  lemma DecodeOne(b0: int)
    requires IsByte(b0)
    ensures Decode(Encode([b0])) == Some([b0])
  {
    ValueOfCharOf(b0 / 4);
    ValueOfCharOf(b0 % 4 * 16);
    GroupRoundTrip(b0, 0, 0);
  }

  /** A final group of two bytes decodes to them. */
  lemma DecodeTwo(b0: int, b1: int)
    requires IsByte(b0) && IsByte(b1)
    ensures Decode(Encode([b0, b1])) == Some([b0, b1])
  {
    var t := Encode([b0, b1]);
    var v1, v2 := b0 % 4 * 16 + b1 / 16, b1 % 16 * 4;
    GroupRoundTrip(b0, b1, 0);
    ValueOfCharOf(b0 / 4);
    ValueOfCharOf(v1);
    ValueOfCharOf(v2);
    assert t == [CharOf(b0 / 4), CharOf(v1), CharOf(v2), '='];
    assert ValueOf(t[0]) == b0 / 4 && ValueOf(t[1]) == v1 && ValueOf(t[2]) == v2;
    assert t[2] != '=' && t[3] == '=' && |t| == 4;
    assert Decode(t) == Some([b0 / 4 * 4 + v1 / 16, v1 % 16 * 16 + v2 / 4]);
  }

  /** A full group in front of more text decodes to its three bytes in front of the rest. */
  lemma DecodeGroup(b0: int, b1: int, b2: int, t: seq<char>)
    requires IsByte(b0) && IsByte(b1) && IsByte(b2)
    ensures Decode(EncodeGroup(b0, b1, b2) + t) ==
      if Decode(t).None? then None else Some([b0, b1, b2] + Decode(t).value)
  {
    var u := EncodeGroup(b0, b1, b2) + t;
    var v1, v2 := b0 % 4 * 16 + b1 / 16, b1 % 16 * 4 + b2 / 64;
    GroupRoundTrip(b0, b1, b2);
    ValueOfCharOf(b0 / 4);
    ValueOfCharOf(v1);
    ValueOfCharOf(v2);
    ValueOfCharOf(b2 % 64);
    assert ValueOf(u[0]) == b0 / 4 && ValueOf(u[1]) == v1;
    assert ValueOf(u[2]) == v2 && ValueOf(u[3]) == b2 % 64;
    assert u[2] != '=' && u[3] != '=';
    assert u[4..] == t;
  }

  /** Decoding undoes encoding. */
  lemma {:induction false} DecodeEncode(s: seq<int>)
    requires Bytes(s)
    ensures Decode(Encode(s)) == Some(s)
    decreases |s|
  {
    if |s| == 1 {
      assert s == [s[0]];
      DecodeOne(s[0]);
    } else if |s| == 2 {
      assert s == [s[0], s[1]];
      DecodeTwo(s[0], s[1]);
    } else if |s| > 2 {
      assert Bytes(s[3..]);
      assert Encode(s) == EncodeGroup(s[0], s[1], s[2]) + Encode(s[3..]);
      DecodeEncode(s[3..]);
      DecodeGroup(s[0], s[1], s[2], Encode(s[3..]));
      assert [s[0], s[1], s[2]] + s[3..] == s;
    }
  }

  /** A string every character of which fits in one byte, as `btoa` demands. */
  predicate Latin1(s: string) {
    forall i :: 0 <= i < |s| ==> s[i] as int < 256
  }

  /** The bytes of a Latin-1 string, one per character. */
  function Latin1Bytes(s: string): (b: seq<int>)
    requires Latin1(s)
    ensures |b| == |s| && Bytes(b)
    ensures forall i :: 0 <= i < |s| ==> b[i] == s[i] as int
  {
    seq(|s|, i requires 0 <= i < |s| => s[i] as int)
  }

  /** The string whose characters have the given byte values. */
  function Latin1Chars(b: seq<int>): (s: string)
    requires Bytes(b)
    ensures |s| == |b|
    ensures forall i :: 0 <= i < |b| ==> s[i] as int == b[i]
  {
    seq(|b|, i requires 0 <= i < |b| => b[i] as char)
  }

  /** `btoa`: the Base64 text of a Latin-1 string; any other character makes it throw an
      `InvalidCharacterError`. What it returns decodes to the string's bytes. */
  function Btoa(s: string): (r: Result<string, string>)
    ensures r.Success? <==> Latin1(s)
    ensures r.Success? ==> (|r.value| == 0 <==> |s| == 0)
    ensures r.Success? ==> Decode(r.value) == Some(Latin1Bytes(s))
  {
    if Latin1(s) then
      DecodeEncode(Latin1Bytes(s));
      Success(Encode(Latin1Bytes(s)))
    else
      Failure("InvalidCharacterError")
  }

  /** Reading the decoded bytes back as Latin-1 characters gives the string `btoa` was given. */
  lemma Latin1RoundTrip(s: string)
    requires Latin1(s)
    ensures Latin1Chars(Latin1Bytes(s)) == s
  {
  }
}
