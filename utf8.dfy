/** The server's reading of the bytes of an HTTP Basic token. Spring Security's Basic
    authentication converter, which `httpBasic(Customizer.withDefaults())` installs, decodes
    them as UTF-8, replacing a malformed byte with U+FFFD. The well-formed sequences are
    those of table 3-7 of the Unicode Standard. */
module Utf8 {
  import opened Base64

  /** The replacement character a malformed byte decodes to. */
  const Replacement: char := '\U{FFFD}'

  /** A string of 7-bit characters. */
  predicate Ascii(s: string) {
    forall i :: 0 <= i < |s| ==> s[i] as int < 0x80
  }

  predicate Continuation(b: int) {
    0x80 <= b < 0xC0
  }

  /** The length of the well-formed sequence `b` starts with, or 0 when its first byte
      starts none. */
  function SequenceLength(b: seq<int>): (n: nat)
    requires |b| > 0 && Bytes(b)
    ensures n <= |b| && n <= 4
    ensures n == 1 <==> b[0] < 0x80
    ensures n > 1 ==> b[0] >= 0xC2 && forall i :: 1 <= i < n ==> Continuation(b[i])
  {
    var b0 := b[0];
    if b0 < 0x80 then 1
    else if 0xC2 <= b0 < 0xE0 then
      if |b| >= 2 && Continuation(b[1]) then 2 else 0
    else if 0xE0 <= b0 < 0xF0 then
      var lo := if b0 == 0xE0 then 0xA0 else 0x80;
      var hi := if b0 == 0xED then 0xA0 else 0xC0;
      if |b| >= 3 && lo <= b[1] < hi && Continuation(b[2]) then 3 else 0
    else if 0xF0 <= b0 < 0xF5 then
      var lo := if b0 == 0xF0 then 0x90 else 0x80;
      var hi := if b0 == 0xF4 then 0x90 else 0xC0;
      if |b| >= 4 && lo <= b[1] < hi && Continuation(b[2]) && Continuation(b[3]) then 4 else 0
    else 0
  }

  /** The character a well-formed sequence of two to four bytes encodes. */
  function SequenceChar(b: seq<int>): (c: char)
    requires |b| > 0 && Bytes(b) && SequenceLength(b) > 1
    ensures c as int >= 0x80
  {
    var n := SequenceLength(b);
    if n == 2 then
      ((b[0] - 0xC0) * 0x40 + (b[1] - 0x80)) as char
    else if n == 3 then
      var cp := (b[0] - 0xE0) * 0x1000 + (b[1] - 0x80) * 0x40 + (b[2] - 0x80);
      assert b[0] == 0xED ==> cp < 0xD800;
      cp as char
    else
      ((b[0] - 0xF0) * 0x40000 + (b[1] - 0x80) * 0x1000 + (b[2] - 0x80) * 0x40 + (b[3] - 0x80)) as char
  }

  /** `new String(bytes, UTF_8)`: a well-formed sequence decodes to its character, a byte
      that starts none to U+FFFD. */
  function Decode(b: seq<int>): (s: string)
    requires Bytes(b)
    ensures |s| <= |b|
    decreases |b|
  {
    if |b| == 0 then []
    else
      var n := SequenceLength(b);
      if n == 0 then [Replacement] + Decode(b[1..])
      else if n == 1 then [b[0] as char] + Decode(b[1..])
      else [SequenceChar(b)] + Decode(b[n..])
  }

  /** 7-bit bytes decode one character per byte, as Latin-1 would. */
  lemma {:induction false} AsciiDecodes(b: seq<int>)
    requires Bytes(b) && forall i :: 0 <= i < |b| ==> b[i] < 0x80
    ensures Decode(b) == Latin1Chars(b)
    decreases |b|
  {
    if |b| > 0 {
      AsciiDecodes(b[1..]);
      assert Latin1Chars(b) == [b[0] as char] + Latin1Chars(b[1..]);
    }
  }

  /** Any byte from 0x80 up makes UTF-8 read something else than Latin-1: a sequence of
      several bytes gives fewer characters, a malformed byte gives U+FFFD. */
  lemma {:induction false} NonAsciiReadsOtherwise(b: seq<int>, k: nat)
    requires Bytes(b) && k < |b| && b[k] >= 0x80
    ensures Decode(b) != Latin1Chars(b)
    decreases |b|
  {
    var n := SequenceLength(b);
    if n == 0 {
      assert Decode(b)[0] == Replacement;
      assert Latin1Chars(b)[0] as int == b[0] < 256;
    } else if n == 1 {
      assert Latin1Chars(b[1..]) == Latin1Chars(b)[1..];
      assert Decode(b)[1..] == Decode(b[1..]);
      NonAsciiReadsOtherwise(b[1..], k - 1);
    } else {
      assert |Decode(b)| == 1 + |Decode(b[n..])| <= 1 + |b| - n < |Latin1Chars(b)|;
    }
  }

  /** The server reads the bytes as their Latin-1 characters exactly when all of them are
      7-bit. */
  lemma DecodesAsLatin1IffAscii(b: seq<int>)
    requires Bytes(b)
    ensures Decode(b) == Latin1Chars(b) <==> forall i :: 0 <= i < |b| ==> b[i] < 0x80
  {
    if exists k :: 0 <= k < |b| && b[k] >= 0x80 {
      var k :| 0 <= k < |b| && b[k] >= 0x80;
      NonAsciiReadsOtherwise(b, k);
    } else {
      AsciiDecodes(b);
    }
  }

  /** A 7-bit byte is never swallowed by a longer sequence: it decodes to its character. */
  lemma {:induction false} AsciiByteKept(b: seq<int>, k: nat)
    requires Bytes(b) && k < |b| && b[k] < 0x80
    ensures b[k] as char in Decode(b)
    decreases |b|
  {
    var n := SequenceLength(b);
    if k == 0 {
      assert Decode(b)[0] == b[0] as char;
    } else if n <= 1 {
      AsciiByteKept(b[1..], k - 1);
    } else {
      assert !Continuation(b[k]);
      assert k >= n;
      AsciiByteKept(b[n..], k - n);
    }
  }

  /** The Latin-1 byte of 'ñ' starts a four-byte sequence, so alone it decodes to U+FFFD. */
  lemma EnyeIsReplaced()
    ensures Decode([0xF1]) == [Replacement]
  {
  }
}
