/**
 * UTF-8 as Foundation applies it: `String.data(using: .utf8)`, which is total, and
 * `String(data:encoding: .utf8)`, which yields nil unless the bytes are well-formed UTF-8
 * (RFC 3629: no overlong forms, no surrogates, nothing above U+10FFFF). A string here is
 * the sequence of its Unicode scalar values, and two strings are equal when their scalars
 * are; Swift's grapheme clusters and canonical equivalence are not modelled.
 */
module Utf8 {
  import opened Types

  predicate IsContinuation(b: uint8) {
    0x80 <= b < 0xC0
  }

  /** The one to four bytes that encode a single scalar value. */
  function EncodeScalar(c: char): (b: Bytes)
    ensures 1 <= |b| <= 4
    ensures |b| == 1 <==> (c as int) < 0x80
    ensures forall i :: 1 <= i < |b| ==> IsContinuation(b[i])
  {
    var n := c as int;
    if n < 0x80 then
      [n as uint8]
    else if n < 0x800 then
      [(0xC0 + n / 0x40) as uint8, (0x80 + n % 0x40) as uint8]
    else if n < 0x1_0000 then
      [(0xE0 + n / 0x1000) as uint8, (0x80 + n / 0x40 % 0x40) as uint8, (0x80 + n % 0x40) as uint8]
    else
      [(0xF0 + n / 0x4_0000) as uint8, (0x80 + n / 0x1000 % 0x40) as uint8,
       (0x80 + n / 0x40 % 0x40) as uint8, (0x80 + n % 0x40) as uint8]
  }

  /** `s.data(using: .utf8)`. */
  function Encode(s: string): (b: Bytes)
    ensures |s| <= |b| <= 4 * |s|
  {
    if s == [] then [] else EncodeScalar(s[0]) + Encode(s[1..])
  }

  /** Decodes the scalar value at the head of `b` and says how many bytes it took. */
  function DecodeScalar(b: Bytes): (r: Option<(char, nat)>)
    requires |b| > 0
    ensures r.Some? ==> 1 <= r.value.1 <= |b| && r.value.1 <= 4
  {
    var b0 := b[0] as int;
    if b0 < 0x80 then
      Some((b0 as char, 1))
    else if 0xC2 <= b0 < 0xE0 then
      if |b| >= 2 && IsContinuation(b[1]) then
        Some((((b0 - 0xC0) * 0x40 + (b[1] as int - 0x80)) as char, 2))
      else None
    else if 0xE0 <= b0 < 0xF0 then
      if |b| >= 3 && IsContinuation(b[1]) && IsContinuation(b[2]) then
        var n := (b0 - 0xE0) * 0x1000 + (b[1] as int - 0x80) * 0x40 + (b[2] as int - 0x80);
        if n < 0x800 || (0xD800 <= n < 0xE000) then None else Some((n as char, 3))
      else None
    else if 0xF0 <= b0 < 0xF5 then
      if |b| >= 4 && IsContinuation(b[1]) && IsContinuation(b[2]) && IsContinuation(b[3]) then
        var n := (b0 - 0xF0) * 0x4_0000 + (b[1] as int - 0x80) * 0x1000
                 + (b[2] as int - 0x80) * 0x40 + (b[3] as int - 0x80);
        if n < 0x1_0000 || n >= 0x11_0000 then None else Some((n as char, 4))
      else None
    else
      None
  }

  /** `String(data: b, encoding: .utf8)`: nil on any ill-formed sequence. */
  function Decode(b: Bytes): (r: Option<string>)
    decreases |b|
  {
    if b == [] then Some([])
    else
      match DecodeScalar(b)
      case None => None
      case Some((c, len)) =>
        match Decode(b[len..])
        case None => None
        case Some(rest) => Some([c] + rest)
  }

  /** Decoding the encoding of one scalar gives the scalar back and consumes exactly its bytes. */
  lemma DecodeEncodeScalar(c: char, rest: Bytes)
    ensures DecodeScalar(EncodeScalar(c) + rest) == Some((c, |EncodeScalar(c)|))
  {
    var n := c as int;
    if n < 0x80 {
    } else if n < 0x800 {
      DecodeTwo(c, rest);
    } else if n < 0x1_0000 {
      DecodeThree(c, rest);
    } else {
      DecodeFour(c, rest);
    }
  }

  lemma DecodeTwo(c: char, rest: Bytes)
    requires 0x80 <= c as int < 0x800
    ensures DecodeScalar(EncodeScalar(c) + rest) == Some((c, 2))
  {
    var n := c as int;
    var hi, lo := n / 0x40, n % 0x40;
    assert n == hi * 0x40 + lo;
    var b := EncodeScalar(c) + rest;
    assert b[0] as int == 0xC0 + hi && b[1] as int == 0x80 + lo;
  }

  lemma DecodeThree(c: char, rest: Bytes)
    requires 0x800 <= c as int < 0x1_0000
    ensures DecodeScalar(EncodeScalar(c) + rest) == Some((c, 3))
  {
    var n := c as int;
    var d0, d1, d2 := n / 0x1000, n / 0x40 % 0x40, n % 0x40;
    assert n == d0 * 0x1000 + d1 * 0x40 + d2;
    var b := EncodeScalar(c) + rest;
    assert b[0] as int == 0xE0 + d0 && b[1] as int == 0x80 + d1 && b[2] as int == 0x80 + d2;
  }

  lemma DecodeFour(c: char, rest: Bytes)
    requires 0x1_0000 <= c as int
    ensures DecodeScalar(EncodeScalar(c) + rest) == Some((c, 4))
  {
    var n := c as int;
    var d0, d1, d2, d3 := n / 0x4_0000, n / 0x1000 % 0x40, n / 0x40 % 0x40, n % 0x40;
    FourDigits(n);
    var b := EncodeScalar(c) + rest;
    assert b[0] as int == 0xF0 + d0 && b[1] as int == 0x80 + d1;
    assert b[2] as int == 0x80 + d2 && b[3] as int == 0x80 + d3;
  }

  /** The base-64 digits of a supplementary-plane scalar value, most significant first. */
  lemma FourDigits(n: int)
    requires 0x1_0000 <= n < 0x11_0000
    ensures n / 0x4_0000 < 5
    ensures n == n / 0x4_0000 * 0x4_0000 + n / 0x1000 % 0x40 * 0x1000 + n / 0x40 % 0x40 * 0x40 + n % 0x40
  {
    assert n == n / 0x40 * 0x40 + n % 0x40;
    assert n / 0x40 == n / 0x1000 * 0x40 + n / 0x40 % 0x40;
    assert n / 0x1000 == n / 0x4_0000 * 0x40 + n / 0x1000 % 0x40;
  }

  /** Every string survives a UTF-8 round trip: what `set(string:)` stores, `string(for:)` reads back. */
  lemma {:induction false} DecodeEncode(s: string)
    ensures Decode(Encode(s)) == Some(s)
  {
    if s != [] {
      var head := EncodeScalar(s[0]);
      var tail := Encode(s[1..]);
      DecodeEncodeScalar(s[0], tail);
      assert (head + tail)[|head|..] == tail;
      DecodeEncode(s[1..]);
      assert [s[0]] + s[1..] == s;
    }
  }

  /** A scalar decoded from well-formed bytes re-encodes to exactly those bytes. */
  lemma EncodeDecodeScalar(b: Bytes)
    requires |b| > 0 && DecodeScalar(b).Some?
    ensures EncodeScalar(DecodeScalar(b).value.0) == b[..DecodeScalar(b).value.1]
  {
    var b0 := b[0] as int;
    if b0 < 0x80 {
    } else if b0 < 0xE0 {
      ReencodeTwo(b);
    } else if b0 < 0xF0 {
      ReencodeThree(b);
    } else {
      ReencodeFour(b);
    }
  }

  lemma ReencodeTwo(b: Bytes)
    requires |b| > 0 && 0x80 <= b[0] < 0xE0 && DecodeScalar(b).Some?
    ensures EncodeScalar(DecodeScalar(b).value.0) == b[..2]
  {
    EncodeTwo(b[0] as int - 0xC0, b[1] as int - 0x80);
  }

  lemma ReencodeThree(b: Bytes)
    requires |b| > 0 && 0xE0 <= b[0] < 0xF0 && DecodeScalar(b).Some?
    ensures EncodeScalar(DecodeScalar(b).value.0) == b[..3]
  {
    EncodeThree(b[0] as int - 0xE0, b[1] as int - 0x80, b[2] as int - 0x80);
  }

  lemma ReencodeFour(b: Bytes)
    requires |b| > 0 && 0xF0 <= b[0] && DecodeScalar(b).Some?
    ensures EncodeScalar(DecodeScalar(b).value.0) == b[..4]
  {
    EncodeFour(b[0] as int - 0xF0, b[1] as int - 0x80, b[2] as int - 0x80, b[3] as int - 0x80);
  }

  lemma EncodeTwo(d0: int, d1: int)
    requires 2 <= d0 < 0x20 && 0 <= d1 < 0x40
    ensures var n := d0 * 0x40 + d1; n / 0x40 == d0 && n % 0x40 == d1
  {
  }

  lemma EncodeThree(d0: int, d1: int, d2: int)
    requires 0 <= d0 < 0x10 && 0 <= d1 < 0x40 && 0 <= d2 < 0x40
    ensures var n := d0 * 0x1000 + d1 * 0x40 + d2;
      n / 0x1000 == d0 && n / 0x40 % 0x40 == d1 && n % 0x40 == d2
  {
    var n := d0 * 0x1000 + d1 * 0x40 + d2;
    assert n / 0x40 == d0 * 0x40 + d1;
  }

  lemma EncodeFour(d0: int, d1: int, d2: int, d3: int)
    requires 0 <= d0 < 8 && 0 <= d1 < 0x40 && 0 <= d2 < 0x40 && 0 <= d3 < 0x40
    ensures var n := d0 * 0x4_0000 + d1 * 0x1000 + d2 * 0x40 + d3;
      n / 0x4_0000 == d0 && n / 0x1000 % 0x40 == d1 && n / 0x40 % 0x40 == d2 && n % 0x40 == d3
  {
    var n := d0 * 0x4_0000 + d1 * 0x1000 + d2 * 0x40 + d3;
    assert n / 0x40 == d0 * 0x1000 + d1 * 0x40 + d2;
    assert n / 0x1000 == d0 * 0x40 + d1;
  }

  /** Decoding is strict: whatever `Decode` accepts is the unique encoding of what it returns. */
  lemma {:induction false} EncodeDecode(b: Bytes)
    requires Decode(b).Some?
    ensures Encode(Decode(b).value) == b
    decreases |b|
  {
    if b != [] {
      var (c, len) := DecodeScalar(b).value;
      DecodeCons(b);
      var rest := Decode(b[len..]).value;
      EncodeDecodeScalar(b);
      EncodeDecode(b[len..]);
      EncodeCons(c, rest);
      assert b[..len] + b[len..] == b;
    }
  }

  /** A well-formed byte string decodes to its first scalar followed by the decoding of the rest. */
  lemma DecodeCons(b: Bytes)
    requires b != [] && Decode(b).Some?
    ensures DecodeScalar(b).Some? && DecodeScalar(b).value.1 <= |b|
    ensures Decode(b[DecodeScalar(b).value.1..]).Some?
    ensures Decode(b).value == [DecodeScalar(b).value.0] + Decode(b[DecodeScalar(b).value.1..]).value
  {
  }

  lemma EncodeCons(c: char, s: string)
    ensures Encode([c] + s) == EncodeScalar(c) + Encode(s)
  {
    assert ([c] + s)[1..] == s;
  }
}
