/** `String.getBytes()` on Android, whose default charset is always UTF-8,
    together with a strict decoder that serves as its reference inverse. */
module Utf8 {
  import opened JavaLang

  newtype byte = x: int | 0 <= x < 256

  /** True for a UTF-8 continuation byte 10xxxxxx. */
  predicate IsContinuation(b: byte)
  {
    0x80 <= b < 0xC0
  }

  /** The UTF-8 encoding of one Unicode scalar value. */
  function EncodeChar(c: char): (bs: seq<byte>)
    ensures 1 <= |bs| <= 4
    ensures |bs| == 1 <==> (c as int) < 0x80
    ensures |bs| == 1 ==> bs[0] as int == c as int
    ensures forall k :: 1 <= k < |bs| ==> IsContinuation(bs[k])
  {
    var cp := c as int;
    if cp < 0x80 then
      [cp as byte]
    else if cp < 0x800 then
      [(0xC0 + cp / 64) as byte, (0x80 + cp % 64) as byte]
    else if cp < 0x1_0000 then
      [(0xE0 + cp / 4096) as byte, (0x80 + cp / 64 % 64) as byte, (0x80 + cp % 64) as byte]
    else
      [(0xF0 + cp / 262144) as byte, (0x80 + cp / 4096 % 64) as byte,
       (0x80 + cp / 64 % 64) as byte, (0x80 + cp % 64) as byte]
  }

  /** `s.getBytes()`: the characters' encodings, concatenated in order. */
  function Encode(s: string): (bs: seq<byte>)
    ensures |s| <= |bs| <= 4 * |s|
  {
    if s == [] then [] else EncodeChar(s[0]) + Encode(s[1..])
  }

  /** Decodes the first character of `bs`, returning it with the number of
      bytes it took; rejects truncated, overlong and surrogate sequences. */
  function DecodeChar(bs: seq<byte>): (r: Option<(char, nat)>)
    ensures r.Some? ==> 1 <= r.value.1 <= |bs| && r.value.1 <= 4
  {
    if |bs| == 0 then None
    else
      var b0 := bs[0] as int;
      if b0 < 0x80 then
        Some((b0 as char, 1))
      else if 0xC0 <= b0 < 0xE0 && 2 <= |bs| && IsContinuation(bs[1]) then
        var cp := (b0 - 0xC0) * 64 + (bs[1] as int - 0x80);
        if 0x80 <= cp then Some((cp as char, 2)) else None
      else if 0xE0 <= b0 < 0xF0 && 3 <= |bs| && IsContinuation(bs[1]) && IsContinuation(bs[2]) then
        var cp := ((b0 - 0xE0) * 64 + (bs[1] as int - 0x80)) * 64 + (bs[2] as int - 0x80);
        if 0x800 <= cp && !(0xD800 <= cp < 0xE000) then Some((cp as char, 3)) else None
      else if 0xF0 <= b0 < 0xF8 && 4 <= |bs| && IsContinuation(bs[1]) && IsContinuation(bs[2])
              && IsContinuation(bs[3]) then
        var cp := (((b0 - 0xF0) * 64 + (bs[1] as int - 0x80)) * 64 + (bs[2] as int - 0x80)) * 64
                  + (bs[3] as int - 0x80);
        if 0x1_0000 <= cp < 0x11_0000 then Some((cp as char, 4)) else None
      else
        None
  }

  /** Decodes a whole byte sequence, or None when it is not valid UTF-8. */
  function Decode(bs: seq<byte>): Option<string>
    decreases |bs|
  {
    if bs == [] then Some([])
    else
      match DecodeChar(bs)
      case None => None
      case Some((c, n)) =>
        match Decode(bs[n..])
        case None => None
        case Some(rest) => Some([c] + rest)
  }

  /** The decoder reads back exactly the character that was encoded, however
      the byte sequence continues. */
  lemma DecodeEncodeChar(c: char, rest: seq<byte>)
    ensures DecodeChar(EncodeChar(c) + rest) == Some((c, |EncodeChar(c)|))
  {
    var cp := c as int;
    var bs := EncodeChar(c) + rest;
    if cp < 0x80 {
    } else if cp < 0x800 {
      assert bs[0] as int - 0xC0 == cp / 64;
      assert bs[1] as int - 0x80 == cp % 64;
    } else if cp < 0x1_0000 {
      var hi, mid, lo := cp / 4096, cp / 64 % 64, cp % 64;
      assert cp / 64 == hi * 64 + mid;
      assert bs[0] as int - 0xE0 == hi;
      assert bs[1] as int - 0x80 == mid;
      assert bs[2] as int - 0x80 == lo;
      assert (hi * 64 + mid) * 64 + lo == cp;
    } else {
      var top, hi, mid, lo := cp / 262144, cp / 4096 % 64, cp / 64 % 64, cp % 64;
      assert cp / 4096 == top * 64 + hi;
      assert cp / 64 == (cp / 4096) * 64 + mid;
      assert bs[0] as int - 0xF0 == top;
      assert bs[1] as int - 0x80 == hi;
      assert bs[2] as int - 0x80 == mid;
      assert bs[3] as int - 0x80 == lo;
      assert ((top * 64 + hi) * 64 + mid) * 64 + lo == cp;
    }
  }

  /** Decoding undoes `getBytes()`: no two strings are sent as the same bytes. */
  lemma {:induction false} DecodeEncode(s: string)
    ensures Decode(Encode(s)) == Some(s)
  {
    if s != [] {
      var head := EncodeChar(s[0]);
      DecodeEncodeChar(s[0], Encode(s[1..]));
      assert Encode(s)[|head|..] == Encode(s[1..]);
      DecodeEncode(s[1..]);
      assert [s[0]] + s[1..] == s;
    }
  }

  /** `getBytes()` is injective. */
  lemma EncodeInjective(s: string, t: string)
    requires Encode(s) == Encode(t)
    ensures s == t
  {
    DecodeEncode(s);
    DecodeEncode(t);
  }

  /** A string of ASCII characters is sent as one byte per character, each
      byte being the character's code. */
  lemma {:induction false} EncodeAscii(s: string)
    requires forall i :: 0 <= i < |s| ==> (s[i] as int) < 0x80
    ensures |Encode(s)| == |s|
    ensures forall i :: 0 <= i < |s| ==> Encode(s)[i] as int == s[i] as int
  {
    if s != [] {
      EncodeAscii(s[1..]);
    }
  }
}
