/**
 * Base64 with the standard alphabet of section 4 of RFC 4648 (`A`-`Z`,
 * `a`-`z`, `0`-`9`, `+`, `/`), configured as the Dsek client configures it:
 * no padding is written and none is accepted, and the unused low bits of a
 * final partial group must be zero, so every byte sequence has exactly one
 * encoding.
 *
 * Decoding is split into two layers: symbols to 6-bit values
 * (`ParseSymbols`, the inverse of `Symbols`) and 6-bit values to bytes
 * (`FromSextets`, the inverse of `ToSextets`).
 */
module Base64 {
  import opened Wrappers

  type Sextet = v: int | 0 <= v < 64

  datatype DecodeError =
    | InvalidLength                          // one symbol left after the last full group
    | InvalidByte(offset: nat, symbol: char)  // a character outside the alphabet
    | InvalidLastSymbol(offset: nat, symbol: char)  // non-zero unused bits at the end

  // ---------------------------------------------------------------------
  // The alphabet
  // ---------------------------------------------------------------------

  /** The symbol of the standard alphabet that stands for `v`. */
  function Symbol(v: Sextet): char
  {
    if v < 26 then ('A' as int + v) as char
    else if v < 52 then ('a' as int + (v - 26)) as char
    else if v < 62 then ('0' as int + (v - 52)) as char
    else if v == 62 then '+'
    else '/'
  }

  predicate InAlphabet(c: char)
  {
    'A' <= c <= 'Z' || 'a' <= c <= 'z' || '0' <= c <= '9' || c == '+' || c == '/'
  }

  /** The value of an alphabet symbol; `None` for every other character. */
  function SymbolValue(c: char): (r: Option<Sextet>)
    ensures r.Some? <==> InAlphabet(c)
    ensures r.Some? ==> Symbol(r.value) == c
  {
    if 'A' <= c <= 'Z' then Some(c as int - 'A' as int)
    else if 'a' <= c <= 'z' then Some(c as int - 'a' as int + 26)
    else if '0' <= c <= '9' then Some(c as int - '0' as int + 52)
    else if c == '+' then Some(62)
    else if c == '/' then Some(63)
    else None
  }

  lemma SymbolRoundTrip(v: Sextet)
    ensures InAlphabet(Symbol(v))
    ensures SymbolValue(Symbol(v)) == Some(v)
  {
  }

  /** The separators of base64url (section 5 of RFC 4648) and the pad are not symbols here. */
  lemma UrlSafeAndPadRejected()
    ensures SymbolValue('-') == None && SymbolValue('_') == None && SymbolValue('=') == None
    ensures SymbolValue('.') == None
  {
  }

  // ---------------------------------------------------------------------
  // Symbols <-> 6-bit values
  // ---------------------------------------------------------------------

  function Symbols(vs: seq<Sextet>): (s: string)
    ensures |s| == |vs|
    ensures forall i :: 0 <= i < |s| ==> s[i] == Symbol(vs[i])
  {
    seq(|vs|, i requires 0 <= i < |vs| => Symbol(vs[i]))
  }

  /**
   * The values of the symbols of `s`, or the first character (at its offset
   * in the whole input, `offset` being the position of `s[0]`) that is not
   * a symbol.
   */
  function ParseSymbols(s: string, offset: nat): (r: Result<seq<Sextet>, DecodeError>)
    ensures r.Ok? ==> |r.value| == |s|
    ensures r.Ok? <==> forall i :: 0 <= i < |s| ==> InAlphabet(s[i])
    ensures r.Err? ==> exists i :: 0 <= i < |s| && r.error == InvalidByte(offset + i, s[i]) && !InAlphabet(s[i])
    decreases |s|
  {
    if s == [] then Ok([])
    else match SymbolValue(s[0])
      case None => Err(InvalidByte(offset, s[0]))
      case Some(v) =>
        match ParseSymbols(s[1..], offset + 1)
        case Err(e) => Err(e)
        case Ok(vs) => Ok([v] + vs)
  }

  lemma {:induction false} ParseSymbolsOfSymbols(vs: seq<Sextet>, offset: nat)
    ensures ParseSymbols(Symbols(vs), offset) == Ok(vs)
    decreases |vs|
  {
    if vs != [] {
      var s := Symbols(vs);
      assert s[1..] == Symbols(vs[1..]);
      SymbolRoundTrip(vs[0]);
      ParseSymbolsOfSymbols(vs[1..], offset + 1);
      assert vs == [vs[0]] + vs[1..];
    }
  }

  lemma {:induction false} SymbolsOfParseSymbols(s: string, offset: nat)
    requires ParseSymbols(s, offset).Ok?
    ensures Symbols(ParseSymbols(s, offset).value) == s
    decreases |s|
  {
    if s != [] {
      SymbolsOfParseSymbols(s[1..], offset + 1);
    }
  }

  // ---------------------------------------------------------------------
  // Bytes <-> 6-bit values
  // ---------------------------------------------------------------------

  /** Three bytes as four 6-bit values. */
  function Unpack3(x: Byte, y: Byte, z: Byte): seq<Sextet>
  {
    [x / 4, x % 4 * 16 + y / 16, y % 16 * 4 + z / 64, z % 64]
  }

  /** A final pair of bytes as three values, the last one's two low bits zero. */
  function Unpack2(x: Byte, y: Byte): seq<Sextet>
  {
    [x / 4, x % 4 * 16 + y / 16, y % 16 * 4]
  }

  /** A final single byte as two values, the last one's four low bits zero. */
  function Unpack1(x: Byte): seq<Sextet>
  {
    [x / 4, x % 4 * 16]
  }

  function Pack4(a: Sextet, b: Sextet, c: Sextet, d: Sextet): seq<Byte>
  {
    [a as int * 4 + b as int / 16, b as int % 16 * 16 + c as int / 4, c as int % 4 * 64 + d as int]
  }

  function Pack3(a: Sextet, b: Sextet, c: Sextet): seq<Byte>
  {
    [a as int * 4 + b as int / 16, b as int % 16 * 16 + c as int / 4]
  }

  function Pack2(a: Sextet, b: Sextet): seq<Byte>
  {
    [a as int * 4 + b as int / 16]
  }

  // Division by the three group widths, stated once so the group lemmas stay linear.

  lemma DivMod4(q: int, r: int)
    requires 0 <= r < 4
    ensures (4 * q + r) / 4 == q && (4 * q + r) % 4 == r
  {
  }

  lemma DivMod16(q: int, r: int)
    requires 0 <= r < 16
    ensures (16 * q + r) / 16 == q && (16 * q + r) % 16 == r
  {
  }

  lemma DivMod64(q: int, r: int)
    requires 0 <= r < 64
    ensures (64 * q + r) / 64 == q && (64 * q + r) % 64 == r
  {
  }

  lemma GroupRoundTrip3(x: Byte, y: Byte, z: Byte)
    ensures var u := Unpack3(x, y, z); Pack4(u[0], u[1], u[2], u[3]) == [x, y, z]
  {
    var x1, x2 := x / 4, x % 4;
    var y1, y2 := y / 16, y % 16;
    var z1, z2 := z / 64, z % 64;
    var u := Unpack3(x, y, z);
    assert u == [x1, 16 * x2 + y1, 4 * y2 + z1, z2];
    DivMod16(x2, y1);
    DivMod4(y2, z1);
  }

  lemma GroupRoundTrip2(x: Byte, y: Byte)
    ensures var u := Unpack2(x, y); Pack3(u[0], u[1], u[2]) == [x, y]
  {
    var x1, x2 := x / 4, x % 4;
    var y1, y2 := y / 16, y % 16;
    var u := Unpack2(x, y);
    assert u == [x1, 16 * x2 + y1, 4 * y2];
    DivMod16(x2, y1);
    DivMod4(y2, 0);
  }

  lemma GroupRoundTrip1(x: Byte)
    ensures var u := Unpack1(x); Pack2(u[0], u[1]) == [x]
  {
    var x1, x2 := x / 4, x % 4;
    var u := Unpack1(x);
    assert u == [x1, 16 * x2];
    DivMod16(x2, 0);
  }

  lemma QuadRoundTrip4(a: Sextet, b: Sextet, c: Sextet, d: Sextet)
    ensures var p := Pack4(a, b, c, d); Unpack3(p[0], p[1], p[2]) == [a, b, c, d]
  {
    var b1, b2 := b / 16, b % 16;
    var c1, c2 := c / 4, c % 4;
    var p := Pack4(a, b, c, d);
    assert p == [4 * a + b1, 16 * b2 + c1, 64 * c2 + d];
    DivMod4(a, b1);
    DivMod16(b2, c1);
    DivMod64(c2, d);
  }

  lemma QuadRoundTrip3(a: Sextet, b: Sextet, c: Sextet)
    requires c % 4 == 0
    ensures var p := Pack3(a, b, c); Unpack2(p[0], p[1]) == [a, b, c]
  {
    var b1, b2 := b / 16, b % 16;
    var c1 := c / 4;
    var p := Pack3(a, b, c);
    assert p == [4 * a + b1, 16 * b2 + c1];
    DivMod4(a, b1);
    DivMod16(b2, c1);
  }

  lemma QuadRoundTrip2(a: Sextet, b: Sextet)
    requires b % 16 == 0
    ensures var p := Pack2(a, b); Unpack1(p[0]) == [a, b]
  {
    var b1 := b / 16;
    var p := Pack2(a, b);
    assert p == [4 * a + b1];
    DivMod4(a, b1);
  }

  /** Cuts bytes into 6-bit values, three bytes to four values; a final partial group is zero-filled. */
  function ToSextets(b: seq<Byte>): (vs: seq<Sextet>)
    ensures |vs| == (4 * |b| + 2) / 3
    ensures |vs| % 4 != 1
    decreases |b|
  {
    if |b| == 0 then []
    else if |b| == 1 then Unpack1(b[0])
    else if |b| == 2 then Unpack2(b[0], b[1])
    else Unpack3(b[0], b[1], b[2]) + ToSextets(b[3..])
  }

  /** The unused low bits of a final partial group are zero. */
  predicate CanonicalTail(vs: seq<Sextet>)
  {
    (|vs| % 4 == 2 ==> vs[|vs| - 1] % 16 == 0) &&
    (|vs| % 4 == 3 ==> vs[|vs| - 1] % 4 == 0)
  }

  /** Joins 6-bit values back into bytes, four values to three bytes; a final 2 or 3 values give 1 or 2 bytes. */
  function FromSextets(vs: seq<Sextet>): (b: seq<Byte>)
    requires |vs| % 4 != 1
    ensures |b| == 3 * |vs| / 4
    decreases |vs|
  {
    if |vs| == 0 then []
    else if |vs| == 2 then Pack2(vs[0], vs[1])
    else if |vs| == 3 then Pack3(vs[0], vs[1], vs[2])
    else Pack4(vs[0], vs[1], vs[2], vs[3]) + FromSextets(vs[4..])
  }

  lemma ToSextetsStep(b: seq<Byte>)
    requires |b| >= 3
    ensures ToSextets(b) == Unpack3(b[0], b[1], b[2]) + ToSextets(b[3..])
  {
  }

  lemma FromSextetsStep(vs: seq<Sextet>)
    requires |vs| >= 4 && |vs| % 4 != 1
    ensures FromSextets(vs) == Pack4(vs[0], vs[1], vs[2], vs[3]) + FromSextets(vs[4..])
  {
  }

  lemma {:induction false} FromToSextets(b: seq<Byte>)
    ensures FromSextets(ToSextets(b)) == b
    decreases |b|
  {
    if |b| == 1 {
      GroupRoundTrip1(b[0]);
    } else if |b| == 2 {
      GroupRoundTrip2(b[0], b[1]);
    } else if |b| >= 3 {
      var u := Unpack3(b[0], b[1], b[2]);
      var rest := ToSextets(b[3..]);
      var vs := u + rest;
      ToSextetsStep(b);
      assert vs[..4] == u && vs[4..] == rest;
      FromSextetsStep(vs);
      GroupRoundTrip3(b[0], b[1], b[2]);
      FromToSextets(b[3..]);
      assert b == [b[0], b[1], b[2]] + b[3..];
    }
  }

  lemma UnpackTails(x: Byte, y: Byte)
    ensures CanonicalTail(Unpack1(x)) && CanonicalTail(Unpack2(x, y))
  {
    var k := x % 4;
    assert Unpack1(x)[1] == 16 * k;
    var m := y % 16;
    assert Unpack2(x, y)[2] == 4 * m;
  }

  lemma CanonicalTailPrepend(u: seq<Sextet>, rest: seq<Sextet>)
    requires |u| == 4 && CanonicalTail(rest)
    ensures CanonicalTail(u + rest)
  {
    var vs := u + rest;
    var n := |rest|;
    assert |vs| == 4 + n;
    assert |vs| % 4 == n % 4 by { DivMod4(1 + n / 4, n % 4); }
    if n > 0 {
      assert vs[|vs| - 1] == rest[n - 1];
    }
  }

  lemma CanonicalTailDrop(vs: seq<Sextet>)
    requires |vs| >= 4 && CanonicalTail(vs)
    ensures CanonicalTail(vs[4..])
  {
    var rest := vs[4..];
    var n := |rest|;
    assert |vs| == 4 + n;
    assert |vs| % 4 == n % 4 by { DivMod4(1 + n / 4, n % 4); }
    if n > 0 {
      assert rest[n - 1] == vs[|vs| - 1];
    }
  }

  lemma {:induction false} ToSextetsCanonical(b: seq<Byte>)
    ensures CanonicalTail(ToSextets(b))
    decreases |b|
  {
    if |b| == 1 {
      UnpackTails(b[0], 0);
    } else if |b| == 2 {
      UnpackTails(b[0], b[1]);
    } else if |b| >= 3 {
      ToSextetsStep(b);
      ToSextetsCanonical(b[3..]);
      CanonicalTailPrepend(Unpack3(b[0], b[1], b[2]), ToSextets(b[3..]));
    }
  }

  lemma {:induction false} ToFromSextets(vs: seq<Sextet>)
    requires |vs| % 4 != 1
    requires CanonicalTail(vs)
    ensures ToSextets(FromSextets(vs)) == vs
    decreases |vs|
  {
    if |vs| == 2 {
      QuadRoundTrip2(vs[0], vs[1]);
    } else if |vs| == 3 {
      QuadRoundTrip3(vs[0], vs[1], vs[2]);
    } else if |vs| >= 4 {
      var rest := vs[4..];
      var p := Pack4(vs[0], vs[1], vs[2], vs[3]);
      var b := p + FromSextets(rest);
      FromSextetsStep(vs);
      CanonicalTailDrop(vs);
      ToFromSextets(rest);
      QuadRoundTrip4(vs[0], vs[1], vs[2], vs[3]);
      ToSextetsStep(b);
      assert b[3..] == FromSextets(rest);
      assert vs == [vs[0], vs[1], vs[2], vs[3]] + rest;
    }
  }

  // ---------------------------------------------------------------------
  // The codec
  // ---------------------------------------------------------------------

  /** Unpadded standard base64 encoding. */
  function Encode(b: seq<Byte>): (s: string)
  {
    Symbols(ToSextets(b))
  }

  /**
   * Unpadded standard base64 decoding: fails on a length that leaves one
   * symbol over, on any character outside the alphabet (`=`, `-`, `_`
   * included), and on non-zero unused bits in the last symbol.
   */
  function Decode(s: string): (r: Result<seq<Byte>, DecodeError>)
  {
    if |s| % 4 == 1 then Err(InvalidLength)
    else match ParseSymbols(s, 0)
      case Err(e) => Err(e)
      case Ok(vs) =>
        if CanonicalTail(vs) then Ok(FromSextets(vs))
        else Err(InvalidLastSymbol(|s| - 1, s[|s| - 1]))
  }

  /** The encoding uses the alphabet only and has length ceil(4n/3). */
  lemma EncodeShape(b: seq<Byte>)
    ensures |Encode(b)| == (4 * |b| + 2) / 3
    ensures forall i :: 0 <= i < |Encode(b)| ==> InAlphabet(Encode(b)[i])
  {
  }

  /** Decoding undoes encoding. */
  lemma DecodeEncode(b: seq<Byte>)
    ensures Decode(Encode(b)) == Ok(b)
  {
    var vs := ToSextets(b);
    ParseSymbolsOfSymbols(vs, 0);
    FromToSextets(b);
    ToSextetsCanonical(b);
  }

  /** Whatever decodes is the encoding of what it decodes to: there is one accepted spelling per byte sequence. */
  lemma EncodeDecode(s: string)
    requires Decode(s).Ok?
    ensures Encode(Decode(s).value) == s
  {
    var vs := ParseSymbols(s, 0).value;
    SymbolsOfParseSymbols(s, 0);
    ToFromSextets(vs);
  }

  /** A segment of length n with n mod 4 = 1 is rejected; otherwise success yields floor(3n/4) bytes. */
  lemma DecodeLength(s: string)
    ensures |s| % 4 == 1 ==> Decode(s) == Err(InvalidLength)
    ensures Decode(s).Ok? ==> |Decode(s).value| == 3 * |s| / 4
  {
  }

  /** A character outside the standard alphabet anywhere in the input makes decoding fail. */
  lemma DecodeRejectsForeignCharacter(s: string, i: nat)
    requires i < |s| && !InAlphabet(s[i])
    ensures Decode(s).Err?
  {
  }
}
