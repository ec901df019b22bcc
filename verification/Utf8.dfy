/** UTF-8 encoding of text, the bytes that are base64-wrapped and signed. */
module Utf8 {

  type byte = x: int | 0 <= x < 256

  function EncodeChar(c: char): (b: seq<byte>)
    ensures 1 <= |b| <= 4
  {
    var u := c as int;
    if u < 0x80 then [u]
    else if u < 0x800 then [0xC0 + u / 64, 0x80 + u % 64]
    else if u < 0x10000 then [0xE0 + u / 4096, 0x80 + u / 64 % 64, 0x80 + u % 64]
    else [0xF0 + u / 262144, 0x80 + u / 4096 % 64, 0x80 + u / 64 % 64, 0x80 + u % 64]
  }

  function Encode(s: string): seq<byte> {
    if s == "" then [] else EncodeChar(s[0]) + Encode(s[1..])
  }

  /** Code point of an encoded character. */
  function Decode1(b: seq<byte>): int
    requires 1 <= |b| <= 4
  {
    var lead: int := b[0];
    match |b|
    case 1 => lead
    case 2 => (lead - 0xC0) * 64 + Tail(b[1])
    case 3 => ((lead - 0xE0) * 64 + Tail(b[1])) * 64 + Tail(b[2])
    case _ => (((lead - 0xF0) * 64 + Tail(b[1])) * 64 + Tail(b[2])) * 64 + Tail(b[3])
  }

  function Tail(b: byte): int {
    var x: int := b;
    x - 0x80
  }

  /** The lead byte fixes the length. */
  function LengthOf(lead: byte): nat {
    if lead < 0x80 then 1 else if lead < 0xE0 then 2 else if lead < 0xF0 then 3 else 4
  }

  lemma Split64(u: nat)
    ensures u == u / 64 * 64 + u % 64
    ensures u / 64 == u / 4096 * 64 + u / 64 % 64
    ensures u / 4096 == u / 262144 * 64 + u / 4096 % 64
  {
  }

  lemma EncodeCharDecodes(c: char)
    ensures Decode1(EncodeChar(c)) == c as int
    ensures LengthOf(EncodeChar(c)[0]) == |EncodeChar(c)|
  {
    Split64(c as int);
  }

  lemma EncodeCharSelfDelimiting(c: char, d: char, x: seq<byte>, y: seq<byte>)
    requires EncodeChar(c) + x == EncodeChar(d) + y
    ensures c == d && x == y
  {
    EncodeCharDecodes(c);
    EncodeCharDecodes(d);
    var e, f := EncodeChar(c), EncodeChar(d);
    assert e[0] == (e + x)[0] == (f + y)[0] == f[0];
    assert e == (e + x)[..|e|] == (f + y)[..|f|] == f;
    assert x == (e + x)[|e|..] == (f + y)[|f|..] == y;
  }

  lemma {:induction false} EncodeInjective(s: string, t: string)
    requires Encode(s) == Encode(t)
    ensures s == t
  {
    if s != "" && t != "" {
      EncodeCharSelfDelimiting(s[0], t[0], Encode(s[1..]), Encode(t[1..]));
      EncodeInjective(s[1..], t[1..]);
      assert s == [s[0]] + s[1..] && t == [t[0]] + t[1..];
    }
  }

  predicate Continues(b: byte) {
    0x80 <= b <= 0xBF
  }

  /**
   The bytes of a character (section 3 of RFC 3629): the shortest of the four forms that can hold its code point, each
   byte after the first carrying six bits.
   */
  lemma ShortestForm(c: char)
    ensures var u, b := c as int, EncodeChar(c);
      && (u <= 0x7F ==> |b| == 1 && b[0] == u)
      && (0x80 <= u <= 0x7FF ==>
        |b| == 2 && 0xC2 <= b[0] <= 0xDF && Continues(b[1]) && u == (b[0] as int - 0xC0) * 64 + (b[1] as int - 0x80))
      && (0x800 <= u <= 0xFFFF ==>
        && |b| == 3 && 0xE0 <= b[0] <= 0xEF && Continues(b[1]) && Continues(b[2])
        && u == (b[0] as int - 0xE0) * 4096 + (b[1] as int - 0x80) * 64 + (b[2] as int - 0x80))
      && (0x10000 <= u ==>
        && |b| == 4 && 0xF0 <= b[0] <= 0xF4 && Continues(b[1]) && Continues(b[2]) && Continues(b[3])
        && u == (b[0] as int - 0xF0) * 262144 + (b[1] as int - 0x80) * 4096 + (b[2] as int - 0x80) * 64
          + (b[3] as int - 0x80))
  {
    Split64(c as int);
  }

  /** Each character is encoded in its place. */
  lemma {:induction false} EncodedInPlace(s: string, c: char, t: string)
    ensures Encode(s + [c] + t) == Encode(s) + EncodeChar(c) + Encode(t)
  {
    if s == "" {
      assert s + [c] + t == [c] + t;
    } else {
      assert (s + [c] + t)[1..] == s[1..] + [c] + t;
      EncodedInPlace(s[1..], c, t);
    }
  }
}
