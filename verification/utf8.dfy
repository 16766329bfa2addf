/**
 * UTF-8, as Python's `str.encode('utf-8')` produces it. A Dafny `char` is a
 * Unicode scalar value, so every string of the model is encodable.
 */
module Utf8 {
  import opened Wrappers

  type byte = b: int | 0 <= b < 256

  /** The bytes of one character: one to four of them, by the size of its code point. */
  function EncodeChar(c: char): (r: seq<byte>)
    ensures 1 <= |r| <= 4
    ensures c as int < 0x80 <==> |r| == 1
  {
    var n := c as int;
    if n < 0x80 then [n]
    else if n < 0x800 then [0xC0 + n / 64, 0x80 + n % 64]
    else if n < 0x10000 then [0xE0 + n / 4096, 0x80 + (n / 64) % 64, 0x80 + n % 64]
    else [0xF0 + n / 262144, 0x80 + (n / 4096) % 64, 0x80 + (n / 64) % 64, 0x80 + n % 64]
  }

  /** `s.encode('utf-8')`. */
  function Encode(s: string): (r: seq<byte>)
    ensures |s| <= |r| <= 4 * |s|
  {
    if s == [] then [] else EncodeChar(s[0]) + Encode(s[1..])
  }

  predicate IsContinuation(b: byte) {
    0x80 <= b < 0xC0
  }

  /** The character with code point `n`, if `n` is a Unicode scalar value, and the `width` bytes it took. */
  function ScalarOf(n: int, width: nat): Option<(char, nat)> {
    if 0 <= n < 0xD800 || 0xE000 <= n < 0x110000 then Some((n as char, width)) else None
  }

  /** The six payload bits of a continuation byte. */
  function Low6(b: byte): int {
    b as int - 0x80
  }

  /** The first character of `b` and the number of bytes it occupies. */
  function DecodeChar(b: seq<byte>): (r: Option<(char, nat)>)
    ensures r.Some? ==> 1 <= r.value.1 <= |b|
  {
    if |b| == 0 then None
    else
      var lead := b[0] as int;
      if lead < 0x80 then ScalarOf(lead, 1)
      else if 0xC0 <= lead < 0xE0 && |b| >= 2 && IsContinuation(b[1]) then
        ScalarOf((lead - 0xC0) * 64 + Low6(b[1]), 2)
      else if 0xE0 <= lead < 0xF0 && |b| >= 3 && IsContinuation(b[1]) && IsContinuation(b[2]) then
        ScalarOf(((lead - 0xE0) * 64 + Low6(b[1])) * 64 + Low6(b[2]), 3)
      else if 0xF0 <= lead < 0xF8 && |b| >= 4 && IsContinuation(b[1]) && IsContinuation(b[2]) && IsContinuation(b[3]) then
        ScalarOf((((lead - 0xF0) * 64 + Low6(b[1])) * 64 + Low6(b[2])) * 64 + Low6(b[3]), 4)
      else None
  }

  /** `b.decode('utf-8')`, or None when `b` is not a sequence of encoded characters. */
  function Decode(b: seq<byte>): Option<string>
    decreases |b|
  {
    if b == [] then Some([])
    else match DecodeChar(b)
      case None => None
      case Some((c, k)) =>
        match Decode(b[k..])
        case None => None
        case Some(s) => Some([c] + s)
  }

  /** The first character of an encoding decodes back, whatever follows it. */
  lemma DecodeEncodeChar(c: char, rest: seq<byte>)
    ensures DecodeChar(EncodeChar(c) + rest) == Some((c, |EncodeChar(c)|))
  {
    var n := c as int;
    var b := EncodeChar(c) + rest;
    if n < 0x80 {
    } else if n < 0x800 {
      assert (n / 64) * 64 + n % 64 == n;
    } else if n < 0x10000 {
      assert n / 4096 * 64 + (n / 64) % 64 == n / 64;
      assert (n / 64) * 64 + n % 64 == n;
      assert ((b[0] as int - 0xE0) * 64 + Low6(b[1])) * 64 + Low6(b[2]) == n;
    } else {
      assert n / 262144 * 64 + (n / 4096) % 64 == n / 4096;
      assert n / 4096 * 64 + (n / 64) % 64 == n / 64;
      assert (n / 64) * 64 + n % 64 == n;
      assert (((b[0] as int - 0xF0) * 64 + Low6(b[1])) * 64 + Low6(b[2])) * 64 + Low6(b[3]) == n;
    }
  }

  /** Encoding loses nothing: decoding the encoding of `s` gives back `s`. */
  lemma {:induction false} DecodeEncode(s: string)
    ensures Decode(Encode(s)) == Some(s)
  {
    if s != [] {
      var e := EncodeChar(s[0]);
      DecodeEncodeChar(s[0], Encode(s[1..]));
      assert Encode(s)[|e|..] == Encode(s[1..]);
      DecodeEncode(s[1..]);
      assert [s[0]] + s[1..] == s;
    }
  }

  /** Text made of ASCII characters encodes byte for byte. */
  lemma {:induction false} EncodeAscii(s: string)
    requires forall i :: 0 <= i < |s| ==> s[i] as int < 0x80
    ensures |Encode(s)| == |s|
    ensures forall i :: 0 <= i < |s| ==> Encode(s)[i] == s[i] as int
  {
    if s != [] {
      EncodeAscii(s[1..]);
    }
  }
}
