/**
 * UTF-8 as defined by RFC 3629, which is exactly what Rust's
 * `String::from_utf8` accepts: no overlong forms, no encoded surrogates
 * (U+D800..U+DFFF), nothing above U+10FFFF, no truncated sequence.
 * Dafny's `char` is a Unicode scalar value, the same domain as Rust's `char`.
 */
module Utf8 {
  import opened Wrappers

  predicate IsContinuation(x: Byte)
  {
    0x80 <= x <= 0xBF
  }

  /** The smallest second byte allowed after lead byte `b0` (excludes overlong forms). */
  function SecondMin(b0: Byte): Byte
  {
    if b0 == 0xE0 then 0xA0 else if b0 == 0xF0 then 0x90 else 0x80
  }

  /** The largest second byte allowed after lead byte `b0` (excludes surrogates and code points above U+10FFFF). */
  function SecondMax(b0: Byte): Byte
  {
    if b0 == 0xED then 0x9F else if b0 == 0xF4 then 0x8F else 0xBF
  }

  /** The bytes of one character. */
  function EncodeChar(c: char): (b: seq<Byte>)
    ensures 1 <= |b| <= 4
  {
    var n := c as int;
    if n < 0x80 then [n]
    else if n < 0x800 then [0xC0 + n / 64, 0x80 + n % 64]
    else if n < 0x10000 then [0xE0 + n / 4096, 0x80 + n / 64 % 64, 0x80 + n % 64]
    else [0xF0 + n / 262144, 0x80 + n / 4096 % 64, 0x80 + n / 64 % 64, 0x80 + n % 64]
  }

  /** The character at the front of `b` and how many bytes it takes, or `None` if `b` does not start with a well-formed sequence. */
  function DecodeChar(b: seq<Byte>): (r: Option<(char, nat)>)
    requires |b| > 0
    ensures r.Some? ==> 1 <= r.value.1 <= |b|
  {
    var b0 := b[0] as int;
    if b0 < 0x80 then
      Some((b0 as char, 1))
    else if 0xC2 <= b0 <= 0xDF then
      if |b| >= 2 && IsContinuation(b[1]) then
        Some((Scalar2(b0, b[1]) as char, 2))
      else None
    else if 0xE0 <= b0 <= 0xEF then
      if |b| >= 3 && SecondMin(b0) <= b[1] <= SecondMax(b0) && IsContinuation(b[2]) then
        Some((Scalar3(b0, b[1], b[2]) as char, 3))
      else None
    else if 0xF0 <= b0 <= 0xF4 then
      if |b| >= 4 && SecondMin(b0) <= b[1] <= SecondMax(b0) && IsContinuation(b[2]) && IsContinuation(b[3]) then
        Some((Scalar4(b0, b[1], b[2], b[3]) as char, 4))
      else None
    else None
  }

  /** The code point of a two-byte sequence: 5 bits from the lead byte, 6 from the continuation. */
  function Scalar2(x0: int, x1: int): int
  {
    (x0 - 0xC0) * 64 + (x1 - 0x80)
  }

  function Scalar3(x0: int, x1: int, x2: int): int
  {
    (x0 - 0xE0) * 4096 + (x1 - 0x80) * 64 + (x2 - 0x80)
  }

  function Scalar4(x0: int, x1: int, x2: int, x3: int): int
  {
    (x0 - 0xF0) * 262144 + (x1 - 0x80) * 4096 + (x2 - 0x80) * 64 + (x3 - 0x80)
  }

  function Encode(s: string): (b: seq<Byte>)
    decreases |s|
  {
    if s == [] then [] else EncodeChar(s[0]) + Encode(s[1..])
  }

  /** `String::from_utf8`: the text the bytes spell, or `None` if they are not well-formed UTF-8. */
  function Decode(b: seq<Byte>): (r: Option<string>)
    decreases |b|
  {
    if b == [] then Some([])
    else match DecodeChar(b)
      case None => None
      case Some((c, n)) =>
        match Decode(b[n..])
        case None => None
        case Some(s) => Some([c] + s)
  }

  lemma DecodeEncodeChar(c: char, rest: seq<Byte>)
    ensures DecodeChar(EncodeChar(c) + rest) == Some((c, |EncodeChar(c)|))
  {
    var n := c as int;
    var b := EncodeChar(c) + rest;
    if n < 0x80 {
    } else if n < 0x800 {
      assert Scalar2(b[0], b[1]) == n;
    } else if n < 0x10000 {
      assert n / 64 % 64 + n / 4096 * 64 == n / 64;
      assert Scalar3(b[0], b[1], b[2]) == n;
    } else {
      assert n / 4096 % 64 + n / 262144 * 64 == n / 4096;
      assert n / 64 % 64 + n / 4096 * 64 == n / 64;
      assert Scalar4(b[0], b[1], b[2], b[3]) == n;
    }
  }

  lemma Reencode2(x0: int, x1: int)
    requires 0xC2 <= x0 <= 0xDF && 0x80 <= x1 <= 0xBF
    ensures var n := Scalar2(x0, x1); 0x80 <= n < 0x800 && 0xC0 + n / 64 == x0 && 0x80 + n % 64 == x1
  {
  }

  lemma Reencode3(x0: int, x1: int, x2: int)
    requires 0xE0 <= x0 <= 0xEF && SecondMin(x0) <= x1 <= SecondMax(x0) && 0x80 <= x2 <= 0xBF
    ensures var n := Scalar3(x0, x1, x2);
      0x800 <= n < 0x10000 && !(0xD800 <= n < 0xE000) &&
      0xE0 + n / 4096 == x0 && 0x80 + n / 64 % 64 == x1 && 0x80 + n % 64 == x2
  {
    var n := Scalar3(x0, x1, x2);
    assert n / 64 == (x0 - 0xE0) * 64 + (x1 - 0x80) && n % 64 == x2 - 0x80;
    assert n / 4096 == x0 - 0xE0;
  }

  lemma Reencode4(x0: int, x1: int, x2: int, x3: int)
    requires 0xF0 <= x0 <= 0xF4 && SecondMin(x0) <= x1 <= SecondMax(x0)
    requires 0x80 <= x2 <= 0xBF && 0x80 <= x3 <= 0xBF
    ensures var n := Scalar4(x0, x1, x2, x3);
      0x10000 <= n < 0x110000 &&
      0xF0 + n / 262144 == x0 && 0x80 + n / 4096 % 64 == x1 && 0x80 + n / 64 % 64 == x2 && 0x80 + n % 64 == x3
  {
    var n := Scalar4(x0, x1, x2, x3);
    assert n / 64 == (x0 - 0xF0) * 4096 + (x1 - 0x80) * 64 + (x2 - 0x80) && n % 64 == x3 - 0x80;
    assert n / 4096 == (x0 - 0xF0) * 64 + (x1 - 0x80);
    assert n / 262144 == x0 - 0xF0;
  }

  lemma EncodeDecodeChar(b: seq<Byte>)
    requires |b| > 0 && DecodeChar(b).Some?
    ensures EncodeChar(DecodeChar(b).value.0) == b[..DecodeChar(b).value.1]
  {
    var b0 := b[0] as int;
    if b0 < 0x80 {
    } else if b0 <= 0xDF {
      Reencode2(b0, b[1]);
    } else if b0 <= 0xEF {
      Reencode3(b0, b[1], b[2]);
    } else {
      Reencode4(b0, b[1], b[2], b[3]);
    }
  }

  /** Decoding undoes encoding. */
  lemma {:induction false} DecodeEncode(s: string)
    ensures Decode(Encode(s)) == Some(s)
    decreases |s|
  {
    if s != [] {
      var e := EncodeChar(s[0]);
      var b := Encode(s);
      DecodeEncodeChar(s[0], Encode(s[1..]));
      assert b[|e|..] == Encode(s[1..]);
      DecodeEncode(s[1..]);
      assert s == [s[0]] + s[1..];
    }
  }

  /** Well-formed UTF-8 has one spelling: re-encoding what was decoded gives back the bytes. */
  lemma {:induction false} EncodeDecode(b: seq<Byte>)
    requires Decode(b).Some?
    ensures Encode(Decode(b).value) == b
    decreases |b|
  {
    if b != [] {
      var (c, n) := DecodeChar(b).value;
      var t := Decode(b[n..]).value;
      assert Decode(b).value == [c] + t;
      EncodeDecodeChar(b);
      EncodeDecode(b[n..]);
      var s := [c] + t;
      assert s[0] == c && s[1..] == t;
      assert Encode(s) == EncodeChar(c) + Encode(t);
      assert b == b[..n] + b[n..];
    }
  }

  /** The number of bytes a sequence with lead byte `x0` takes. */
  function Width(x0: Byte): nat
  {
    if x0 < 0x80 then 1 else if x0 <= 0xDF then 2 else if x0 <= 0xEF then 3 else 4
  }

  /** A malformed sequence anywhere after well-formed text makes the whole input refused. */
  lemma {:induction false} RejectedAfterText(s: string, rest: seq<Byte>)
    requires rest != [] && DecodeChar(rest) == None
    ensures Decode(Encode(s) + rest) == None
    decreases |s|
  {
    if s != [] {
      var tail := Encode(s[1..]) + rest;
      assert Encode(s) + rest == EncodeChar(s[0]) + tail;
      DecodeEncodeChar(s[0], tail);
      assert (EncodeChar(s[0]) + tail)[|EncodeChar(s[0])|..] == tail;
      RejectedAfterText(s[1..], rest);
    }
  }

  /** A continuation byte where a character should start is refused. */
  lemma StrayContinuationRejected(s: string, x: Byte, tail: seq<Byte>)
    requires IsContinuation(x)
    ensures Decode(Encode(s) + ([x] + tail)) == None
  {
    RejectedAfterText(s, [x] + tail);
  }

  /** Overlong forms are refused: the leads 0xC0 and 0xC1, and 0xE0 or 0xF0 followed by a too small second byte. */
  lemma OverlongRejected(s: string, x0: Byte, x1: Byte, tail: seq<Byte>)
    requires x0 == 0xC0 || x0 == 0xC1 || (x0 == 0xE0 && x1 < 0xA0) || (x0 == 0xF0 && x1 < 0x90)
    ensures Decode(Encode(s) + ([x0, x1] + tail)) == None
  {
    RejectedAfterText(s, [x0, x1] + tail);
  }

  /** Encoded surrogates (U+D800..U+DFFF, lead 0xED with second byte from 0xA0) are refused. */
  lemma SurrogateRejected(s: string, x1: Byte, tail: seq<Byte>)
    requires x1 >= 0xA0
    ensures Decode(Encode(s) + ([0xED, x1] + tail)) == None
  {
    RejectedAfterText(s, [0xED, x1] + tail);
  }

  /** Code points above U+10FFFF are refused: leads from 0xF5, and 0xF4 followed by a second byte from 0x90. */
  lemma AboveMaxRejected(s: string, x0: Byte, x1: Byte, tail: seq<Byte>)
    requires x0 >= 0xF5 || (x0 == 0xF4 && x1 >= 0x90)
    ensures Decode(Encode(s) + ([x0, x1] + tail)) == None
  {
    RejectedAfterText(s, [x0, x1] + tail);
  }

  /** A lead byte followed by fewer bytes than its width needs, at the end of the input, is refused. */
  lemma TruncatedRejected(s: string, x0: Byte, conts: seq<Byte>)
    requires x0 >= 0xC0
    requires |conts| < Width(x0) - 1
    ensures Decode(Encode(s) + ([x0] + conts)) == None
  {
    RejectedAfterText(s, [x0] + conts);
  }
}
