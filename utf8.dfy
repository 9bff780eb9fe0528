/**
 * `String.toByteArray(Charsets.UTF_8)` for strings of Unicode scalar values:
 * one to four bytes per character, by code point range.
 */
module Utf8 {
  import opened Streams

  function EncodeChar(c: char): (r: seq<Byte>)
  {
    var cp := c as int;
    if cp < 0x80 then [cp]
    else if cp < 0x800 then [0xC0 + cp / 0x40, 0x80 + cp % 0x40]
    else if cp < 0x1_0000 then [0xE0 + cp / 0x1000, 0x80 + cp / 0x40 % 0x40, 0x80 + cp % 0x40]
    else [0xF0 + cp / 0x4_0000, 0x80 + cp / 0x1000 % 0x40, 0x80 + cp / 0x40 % 0x40, 0x80 + cp % 0x40]
  }

  function Encode(s: string): (r: seq<Byte>)
  {
    if s == [] then [] else EncodeChar(s[0]) + Encode(s[1..])
  }

  predicate IsAscii(s: string)
  {
    forall i :: 0 <= i < |s| ==> s[i] as int < 0x80
  }

  /**
   * The encoded length counts bytes, not characters: it is at least the
   * number of characters and at most four times it, and equal to the
   * number of characters exactly when every character is ASCII. A
   * character here is a Unicode scalar value, whereas a Kotlin `String`
   * counts UTF-16 units: a character outside the Basic Multilingual Plane
   * is one character here but two Kotlin characters, and four bytes either
   * way, so against Kotlin's count the bound is three bytes per unit.
   */
  lemma {:induction false} EncodedLength(s: string)
    ensures |s| <= |Encode(s)| <= 4 * |s|
    ensures |Encode(s)| == |s| <==> IsAscii(s)
  {
    if s != [] {
      EncodedLength(s[1..]);
      assert IsAscii(s) <==> s[0] as int < 0x80 && IsAscii(s[1..]) by {
        if s[0] as int < 0x80 && IsAscii(s[1..]) {
          forall i | 0 <= i < |s| ensures s[i] as int < 0x80 {
            if i > 0 { assert s[i] == s[1..][i - 1]; }
          }
        }
      }
    }
  }
}
