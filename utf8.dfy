/**
 * UTF-8, as str.encode("utf-8") produces it (RFC 3629). A Dafny char is a Unicode
 * scalar value, so every string has an encoding. The decoder is strict: it refuses
 * overlong forms, surrogates and code points above U+10FFFF, so each code point it
 * accepts is read from exactly its own encoding (EncodeDecodeChar).
 */
module Utf8 {
  import opened Common

  predicate IsScalar(c: int)
  {
    (0 <= c < 0xD800) || (0xE000 <= c < 0x11_0000)
  }

  predicate IsContinuation(b: byte)
  {
    0x80 <= b < 0xC0
  }

  /** The one to four bytes of one code point. */
  function EncodeChar(ch: char): (bs: seq<byte>)
    ensures 1 <= |bs| <= 4
  {
    var c := ch as int;
    if c < 0x80 then [c as byte]
    else if c < 0x800 then [(0xC0 + c / 64) as byte, (0x80 + c % 64) as byte]
    else if c < 0x1_0000 then
      [(0xE0 + c / 4096) as byte, (0x80 + (c / 64) % 64) as byte, (0x80 + c % 64) as byte]
    else
      [(0xF0 + c / 262144) as byte, (0x80 + (c / 4096) % 64) as byte,
       (0x80 + (c / 64) % 64) as byte, (0x80 + c % 64) as byte]
  }

  function Encode(s: string): (bs: seq<byte>)
    ensures |s| <= |bs| <= 4 * |s|
  {
    if s == [] then [] else EncodeChar(s[0]) + Encode(s[1..])
  }

  /** The code point at the start of bs and the number of bytes it takes, if well formed. */
  function DecodeChar(bs: seq<byte>): (r: Option<(char, nat)>)
    ensures r.Some? ==> 1 <= r.value.1 <= |bs| && r.value.1 <= 4
  {
    if |bs| == 0 then None
    else
      var b0 := bs[0] as int;
      if b0 < 0x80 then Some((b0 as char, 1))
      else if 0xC2 <= b0 < 0xE0 then
        if |bs| >= 2 && IsContinuation(bs[1]) then
          Some((((b0 - 0xC0) * 64 + (bs[1] as int - 0x80)) as char, 2))
        else None
      else if 0xE0 <= b0 < 0xF0 then
        if |bs| >= 3 && IsContinuation(bs[1]) && IsContinuation(bs[2]) then
          var c := (b0 - 0xE0) * 4096 + (bs[1] as int - 0x80) * 64 + (bs[2] as int - 0x80);
          if 0x800 <= c && IsScalar(c) then Some((c as char, 3)) else None
        else None
      else if 0xF0 <= b0 < 0xF5 then
        if |bs| >= 4 && IsContinuation(bs[1]) && IsContinuation(bs[2]) && IsContinuation(bs[3]) then
          var c := (b0 - 0xF0) * 262144 + (bs[1] as int - 0x80) * 4096 + (bs[2] as int - 0x80) * 64 + (bs[3] as int - 0x80);
          if 0x1_0000 <= c < 0x11_0000 then Some((c as char, 4)) else None
        else None
      else None
  }

  function Decode(bs: seq<byte>): Option<string>
    decreases |bs|
  {
    if bs == [] then Some("")
    else match DecodeChar(bs)
      case None => None
      case Some((ch, n)) =>
        match Decode(bs[n..])
        case None => None
        case Some(rest) => Some([ch] + rest)
  }

  lemma {:induction false} DecodeTwoBytes(ch: char, tail: seq<byte>)
    requires 0x80 <= ch as int < 0x800
    ensures DecodeChar(EncodeChar(ch) + tail) == Some((ch, 2))
  {
    var c := ch as int;
    var hi, lo := c / 64, c % 64;
    assert c == hi * 64 + lo && 2 <= hi < 32;
    var bs := EncodeChar(ch) + tail;
    assert bs[0] as int == 0xC0 + hi && bs[1] as int == 0x80 + lo;
  }

  lemma {:induction false} DecodeThreeBytes(ch: char, tail: seq<byte>)
    requires 0x800 <= ch as int < 0x1_0000
    ensures DecodeChar(EncodeChar(ch) + tail) == Some((ch, 3))
  {
    var c := ch as int;
    var q, lo := c / 64, c % 64;
    var hi, mid := q / 64, q % 64;
    assert c == q * 64 + lo && q == hi * 64 + mid;
    assert c / 4096 == hi;
    var bs := EncodeChar(ch) + tail;
    assert bs[0] as int == 0xE0 + hi && bs[1] as int == 0x80 + mid && bs[2] as int == 0x80 + lo;
    assert hi * 4096 + mid * 64 + lo == c;
  }

  lemma {:induction false} DecodeFourBytes(ch: char, tail: seq<byte>)
    requires 0x1_0000 <= ch as int
    ensures DecodeChar(EncodeChar(ch) + tail) == Some((ch, 4))
  {
    var c := ch as int;
    var q1, lo := c / 64, c % 64;
    var q2, m2 := q1 / 64, q1 % 64;
    var hi, m1 := q2 / 64, q2 % 64;
    assert c == q1 * 64 + lo && q1 == q2 * 64 + m2 && q2 == hi * 64 + m1;
    assert c / 4096 == q2 && c / 262144 == hi;
    var bs := EncodeChar(ch) + tail;
    assert bs[0] as int == 0xF0 + hi && bs[1] as int == 0x80 + m1;
    assert bs[2] as int == 0x80 + m2 && bs[3] as int == 0x80 + lo;
    assert hi * 262144 + m1 * 4096 + m2 * 64 + lo == c;
  }

  /** The bytes of one code point decode back to it, whatever follows them. */
  lemma {:induction false} DecodeEncodeChar(ch: char, tail: seq<byte>)
    ensures DecodeChar(EncodeChar(ch) + tail) == Some((ch, |EncodeChar(ch)|))
  {
    var c := ch as int;
    if c < 0x80 {
    } else if c < 0x800 {
      DecodeTwoBytes(ch, tail);
    } else if c < 0x1_0000 {
      DecodeThreeBytes(ch, tail);
    } else {
      DecodeFourBytes(ch, tail);
    }
  }

  /** Decoding an encoding gives the string back. */
  lemma {:induction false} DecodeEncode(s: string)
    ensures Decode(Encode(s)) == Some(s)
    decreases |s|
  {
    if s != [] {
      var head := EncodeChar(s[0]);
      var rest := Encode(s[1..]);
      DecodeEncodeChar(s[0], rest);
      assert (head + rest)[|head|..] == rest;
      DecodeEncode(s[1..]);
      assert [s[0]] + s[1..] == s;
    }
  }

  lemma DivMod64(q: int, r: int)
    requires 0 <= r < 64
    ensures (q * 64 + r) / 64 == q && (q * 64 + r) % 64 == r
  {
  }

  lemma {:induction false} TwoBytes(ch: char, hi: int, lo: int)
    requires 0 <= lo < 64 && ch as int == hi * 64 + lo && 0x80 <= ch as int < 0x800
    ensures EncodeChar(ch) == [(0xC0 + hi) as byte, (0x80 + lo) as byte]
  {
    DivMod64(hi, lo);
  }

  lemma {:induction false} ThreeBytes(ch: char, hi: int, mid: int, lo: int)
    requires 0 <= mid < 64 && 0 <= lo < 64 && ch as int == (hi * 64 + mid) * 64 + lo
    requires 0x800 <= ch as int < 0x1_0000
    ensures EncodeChar(ch) == [(0xE0 + hi) as byte, (0x80 + mid) as byte, (0x80 + lo) as byte]
  {
    var c := ch as int;
    DivMod64(hi * 64 + mid, lo);
    DivMod64(hi, mid);
    assert c / 4096 == (c / 64) / 64;
  }

  lemma {:induction false} FourBytes(ch: char, hi: int, m1: int, m2: int, lo: int)
    requires 0 <= m1 < 64 && 0 <= m2 < 64 && 0 <= lo < 64
    requires ch as int == ((hi * 64 + m1) * 64 + m2) * 64 + lo
    requires 0x1_0000 <= ch as int
    ensures EncodeChar(ch) == [(0xF0 + hi) as byte, (0x80 + m1) as byte, (0x80 + m2) as byte, (0x80 + lo) as byte]
  {
    var c := ch as int;
    DivMod64((hi * 64 + m1) * 64 + m2, lo);
    DivMod64(hi * 64 + m1, m2);
    DivMod64(hi, m1);
    assert c / 4096 == (c / 64) / 64;
    assert c / 262144 == (c / 4096) / 64;
  }

  /** A well-formed code point at the start of bs is encoded by exactly the bytes it was read from. */
  lemma {:induction false} EncodeDecodeChar(bs: seq<byte>)
    requires DecodeChar(bs).Some?
    ensures EncodeChar(DecodeChar(bs).value.0) == bs[..DecodeChar(bs).value.1]
  {
    var b0 := bs[0] as int;
    var (ch, n) := DecodeChar(bs).value;
    if n == 2 {
      TwoBytes(ch, b0 - 0xC0, bs[1] as int - 0x80);
    } else if n == 3 {
      ThreeBytes(ch, b0 - 0xE0, bs[1] as int - 0x80, bs[2] as int - 0x80);
    } else if n == 4 {
      FourBytes(ch, b0 - 0xF0, bs[1] as int - 0x80, bs[2] as int - 0x80, bs[3] as int - 0x80);
    }
  }

  /** Encoding is injective: two strings with the same bytes are the same string. */
  lemma {:induction false} EncodeInjective(s: string, t: string)
    ensures Encode(s) == Encode(t) ==> s == t
  {
    DecodeEncode(s);
    DecodeEncode(t);
  }

  /** ASCII text encodes to its own code points, one byte each. */
  lemma {:induction false} EncodeAscii(s: string)
    requires forall i :: 0 <= i < |s| ==> (s[i] as int) < 0x80
    ensures |Encode(s)| == |s|
    ensures forall i :: 0 <= i < |s| ==> Encode(s)[i] as int == s[i] as int
    decreases |s|
  {
    if s != [] {
      EncodeAscii(s[1..]);
    }
  }
}
