/**
 * UTF-8 as Rust's `str` uses it: `str::as_bytes` gives the encoding of a
 * string and `str::from_utf8` accepts exactly the well-formed byte
 * sequences of Table 3-7 of the Unicode Standard (no overlong forms, no
 * surrogates, nothing above U+10FFFF). A Dafny `char` is a Unicode scalar
 * value, so a `string` is what a Rust `str` holds.
 */
module Utf8 {
  import opened Wrappers
  import opened Ffi

  predicate IsContinuation(b: byte)
  {
    0x80 <= b < 0xC0
  }

  /** The encoding of one scalar value, one to four bytes. */
  function EncodeChar(c: char): (r: seq<byte>)
    ensures 1 <= |r| <= 4
  {
    var cp := c as int;
    if cp < 0x80 then [cp]
    else if cp < 0x800 then [0xC0 + cp / 64, 0x80 + cp % 64]
    else if cp < 0x10000 then [0xE0 + cp / 4096, 0x80 + (cp / 64) % 64, 0x80 + cp % 64]
    else [0xF0 + cp / 262144, 0x80 + (cp / 4096) % 64, 0x80 + (cp / 64) % 64, 0x80 + cp % 64]
  }

  /** `str::as_bytes`: the UTF-8 encoding of a whole string. */
  function Encode(s: string): seq<byte>
  {
    if s == [] then [] else EncodeChar(s[0]) + Encode(s[1..])
  }

  /** Second byte of a three-byte sequence, as Table 3-7 restricts it after the lead byte. */
  predicate SecondOfThree(lead: byte, b: byte)
  {
    if lead == 0xE0 then 0xA0 <= b < 0xC0
    else if lead == 0xED then 0x80 <= b < 0xA0
    else IsContinuation(b)
  }

  /** Second byte of a four-byte sequence, as Table 3-7 restricts it after the lead byte. */
  predicate SecondOfFour(lead: byte, b: byte)
  {
    if lead == 0xF0 then 0x90 <= b < 0xC0
    else if lead == 0xF4 then 0x80 <= b < 0x90
    else IsContinuation(b)
  }

  /** The scalar value the well-formed sequence at the start of `s` encodes, and that sequence's length. */
  function DecodeFirst(s: seq<byte>): (r: Option<(char, nat)>)
    ensures r.Some? ==> 1 <= r.value.1 <= 4 && r.value.1 <= |s|
  {
    if |s| == 0 then None
    else
      var b0: int := s[0];
      if b0 < 0x80 then Some((b0 as char, 1))
      else if 0xC2 <= b0 < 0xE0 then
        if |s| >= 2 && IsContinuation(s[1])
        then Some((Scalar2(b0, s[1]) as char, 2))
        else None
      else if 0xE0 <= b0 < 0xF0 then
        if |s| >= 3 && SecondOfThree(s[0], s[1]) && IsContinuation(s[2])
        then Some((Scalar3(b0, s[1], s[2]) as char, 3))
        else None
      else if 0xF0 <= b0 < 0xF5 then
        if |s| >= 4 && SecondOfFour(s[0], s[1]) && IsContinuation(s[2]) && IsContinuation(s[3])
        then Some((Scalar4(b0, s[1], s[2], s[3]) as char, 4))
        else None
      else None
  }

  /** The value carried by a two-byte sequence. */
  function Scalar2(b0: int, b1: int): int
  {
    (b0 - 0xC0) * 64 + (b1 - 0x80)
  }

  /** The value carried by a three-byte sequence. */
  function Scalar3(b0: int, b1: int, b2: int): int
  {
    (b0 - 0xE0) * 4096 + (b1 - 0x80) * 64 + (b2 - 0x80)
  }

  /** The value carried by a four-byte sequence. */
  function Scalar4(b0: int, b1: int, b2: int, b3: int): int
  {
    (b0 - 0xF0) * 262144 + (b1 - 0x80) * 4096 + (b2 - 0x80) * 64 + (b3 - 0x80)
  }

  /** The string `s` encodes, or `None` when `s` is not well-formed UTF-8. */
  function Decode(s: seq<byte>): Option<string>
    decreases |s|
  {
    if s == [] then Some([])
    else match DecodeFirst(s)
      case None => None
      case Some((c, n)) =>
        match Decode(s[n..])
        case None => None
        case Some(rest) => Some([c] + rest)
  }

  predicate IsValid(s: seq<byte>)
  {
    Decode(s).Some?
  }

  /** What `str::from_utf8` returns: the string, or `Err(Utf8Error)` (whose details are not modelled). */
  datatype StrResult = Str(text: string) | Utf8Error

  /** `str::from_utf8`. */
  function FromUtf8(s: seq<byte>): (r: StrResult)
    ensures r.Str? <==> IsValid(s)
    ensures r.Str? ==> Encode(r.text) == s
  {
    match Decode(s)
    case None => Utf8Error
    case Some(t) => DecodeThenEncode(s); Str(t)
  }

  lemma Split64(x: int)
    requires 0 <= x
    ensures x == (x / 64) * 64 + x % 64 && 0 <= x % 64 < 64
  {
  }

  /** Decoding the encoding of one scalar value gives that value back and consumes exactly its bytes. */
  lemma DecodeFirstOfEncodeChar(c: char, rest: seq<byte>)
    ensures DecodeFirst(EncodeChar(c) + rest) == Some((c, |EncodeChar(c)|))
  {
    var cp := c as int;
    var e := EncodeChar(c);
    var s := e + rest;
    assert s[..|e|] == e;
    if cp < 0x80 {
    } else if cp < 0x800 {
      Split64(cp);
      assert Scalar2(e[0], e[1]) == cp;
    } else if cp < 0x10000 {
      Split64(cp);
      Split64(cp / 64);
      assert cp / 64 / 64 == cp / 4096;
      assert Scalar3(e[0], e[1], e[2]) == cp;
    } else {
      Split64(cp);
      Split64(cp / 64);
      Split64(cp / 4096);
      assert cp / 64 / 64 == cp / 4096;
      assert cp / 4096 / 64 == cp / 262144;
      assert Scalar4(e[0], e[1], e[2], e[3]) == cp;
    }
  }

  lemma DivMod64(q: int, r: int)
    requires 0 <= r < 64
    ensures (q * 64 + r) / 64 == q && (q * 64 + r) % 64 == r
  {
  }

  /** A two-byte sequence carries a value that `EncodeChar` writes back as the same two bytes. */
  lemma TwoByteScalar(b0: int, b1: int)
    requires 0xC2 <= b0 < 0xE0 && 0x80 <= b1 < 0xC0
    ensures 0x80 <= Scalar2(b0, b1) < 0x800
    ensures 0xC0 + Scalar2(b0, b1) / 64 == b0 && 0x80 + Scalar2(b0, b1) % 64 == b1
  {
    DivMod64(b0 - 0xC0, b1 - 0x80);
  }

  /** A three-byte sequence carries a value that `EncodeChar` writes back as the same three bytes. */
  lemma ThreeByteScalar(b0: int, b1: int, b2: int)
    requires 0xE0 <= b0 < 0xF0 && 0x80 <= b1 < 0xC0 && 0x80 <= b2 < 0xC0
    requires b0 == 0xE0 ==> 0xA0 <= b1
    ensures 0x800 <= Scalar3(b0, b1, b2) < 0x10000
    ensures 0xE0 + Scalar3(b0, b1, b2) / 4096 == b0
    ensures 0x80 + (Scalar3(b0, b1, b2) / 64) % 64 == b1 && 0x80 + Scalar3(b0, b1, b2) % 64 == b2
  {
    var cp := Scalar3(b0, b1, b2);
    var q := (b0 - 0xE0) * 64 + (b1 - 0x80);
    assert cp == q * 64 + (b2 - 0x80);
    DivMod64(q, b2 - 0x80);
    DivMod64(b0 - 0xE0, b1 - 0x80);
    assert cp / 64 / 64 == cp / 4096;
  }

  /** A four-byte sequence carries a value that `EncodeChar` writes back as the same four bytes. */
  lemma FourByteScalar(b0: int, b1: int, b2: int, b3: int)
    requires 0xF0 <= b0 < 0xF5 && 0x80 <= b1 < 0xC0 && 0x80 <= b2 < 0xC0 && 0x80 <= b3 < 0xC0
    requires b0 == 0xF0 ==> 0x90 <= b1
    ensures 0x10000 <= Scalar4(b0, b1, b2, b3)
    ensures 0xF0 + Scalar4(b0, b1, b2, b3) / 262144 == b0
    ensures 0x80 + (Scalar4(b0, b1, b2, b3) / 4096) % 64 == b1
    ensures 0x80 + (Scalar4(b0, b1, b2, b3) / 64) % 64 == b2 && 0x80 + Scalar4(b0, b1, b2, b3) % 64 == b3
  {
    var cp := Scalar4(b0, b1, b2, b3);
    var q1 := (b0 - 0xF0) * 64 + (b1 - 0x80);
    var q2 := q1 * 64 + (b2 - 0x80);
    assert cp == q2 * 64 + (b3 - 0x80);
    DivMod64(q2, b3 - 0x80);
    DivMod64(q1, b2 - 0x80);
    DivMod64(b0 - 0xF0, b1 - 0x80);
    assert cp / 64 / 64 == cp / 4096;
    assert cp / 4096 / 64 == cp / 262144;
  }

  /** The well-formed sequence at the start of `s` is the encoding of the value it decodes to. */
  lemma EncodeCharOfDecodeFirst(s: seq<byte>)
    requires DecodeFirst(s).Some?
    ensures EncodeChar(DecodeFirst(s).value.0) == s[..DecodeFirst(s).value.1]
  {
    var b0: int := s[0];
    if b0 < 0x80 {
      assert s[..1] == [s[0]];
    } else if b0 < 0xE0 {
      TwoByteScalar(b0, s[1]);
      assert s[..2] == [s[0], s[1]];
    } else if b0 < 0xF0 {
      ThreeByteScalar(b0, s[1], s[2]);
      assert s[..3] == [s[0], s[1], s[2]];
    } else {
      FourByteScalar(b0, s[1], s[2], s[3]);
      assert s[..4] == [s[0], s[1], s[2], s[3]];
    }
  }

  /** Every string survives a round trip through its encoding. */
  lemma {:induction false} EncodeThenDecode(s: string)
    ensures Decode(Encode(s)) == Some(s)
  {
    if s != [] {
      var e := Encode(s);
      assert e == EncodeChar(s[0]) + Encode(s[1..]);
      DecodeFirstOfEncodeChar(s[0], Encode(s[1..]));
      assert e[|EncodeChar(s[0])|..] == Encode(s[1..]);
      EncodeThenDecode(s[1..]);
      assert [s[0]] + s[1..] == s;
    }
  }

  /** Well-formed non-empty bytes decode to the first value followed by the decoding of the rest. */
  lemma DecodeUnfold(s: seq<byte>)
    requires s != [] && Decode(s).Some?
    ensures DecodeFirst(s).Some? && Decode(s[DecodeFirst(s).value.1..]).Some?
    ensures Decode(s).value == [DecodeFirst(s).value.0] + Decode(s[DecodeFirst(s).value.1..]).value
  {
  }

  /** Well-formed bytes are the encoding of the string they decode to: decoding loses nothing. */
  lemma {:induction false} DecodeThenEncode(s: seq<byte>)
    requires Decode(s).Some?
    ensures Encode(Decode(s).value) == s
    decreases |s|
  {
    if s != [] {
      DecodeUnfold(s);
      var (c, n) := DecodeFirst(s).value;
      var rest := Decode(s[n..]).value;
      EncodeCharOfDecodeFirst(s);
      DecodeThenEncode(s[n..]);
      var t := [c] + rest;
      assert t[0] == c && t[1..] == rest;
      assert Encode(t) == EncodeChar(c) + Encode(rest);
      assert s == s[..n] + s[n..];
    }
  }

  /** `from_utf8` accepts exactly the byte strings that are encodings of some string. */
  lemma ValidIffEncoding(s: seq<byte>)
    ensures IsValid(s) <==> exists t: string :: Encode(t) == s
  {
    if IsValid(s) {
      DecodeThenEncode(s);
    }
    if exists t: string :: Encode(t) == s {
      var t: string :| Encode(t) == s;
      EncodeThenDecode(t);
    }
  }

  /** Distinct strings have distinct encodings. */
  lemma EncodeInjective(s: string, t: string)
    requires Encode(s) == Encode(t)
    ensures s == t
  {
    EncodeThenDecode(s);
    EncodeThenDecode(t);
  }
}
