/** The UTF-8 encoding of Rust's `String`: `as_bytes`, and the strict `String::from_utf8`. */
module Utf8 {
  import opened Wrappers

  type Byte = b: int | 0 <= b < 256

  function EncodeChar(c: char): (bs: seq<Byte>)
    ensures 1 <= |bs| <= 4
  {
    var n := c as int;
    if n < 0x80 then [n]
    else if n < 0x800 then [0xC0 + n / 64, 0x80 + n % 64]
    else if n < 0x1_0000 then [0xE0 + n / 64 / 64, 0x80 + n / 64 % 64, 0x80 + n % 64]
    else [0xF0 + n / 64 / 64 / 64, 0x80 + n / 64 / 64 % 64, 0x80 + n / 64 % 64, 0x80 + n % 64]
  }

  function Encode(s: string): (bs: seq<Byte>)
    ensures |bs| >= |s|
  {
    if s == [] then [] else EncodeChar(s[0]) + Encode(s[1..])
  }

  predicate Continues(b: Byte) {
    0x80 <= b < 0xC0
  }

  /** Append the six payload bits of a continuation byte. */
  function Sextet(high: int, b: Byte): int {
    high * 64 + (b - 0x80)
  }

  predicate IsScalar(n: int) {
    0 <= n < 0xD800 || 0xE000 <= n < 0x11_0000
  }

  datatype Decoded = Decoded(c: char, len: nat)

  /** The first scalar of `bs`: overlong forms, surrogates and stray bytes are refused. */
  function DecodeChar(bs: seq<Byte>): (r: Option<Decoded>)
    ensures r.Some? ==> 1 <= r.value.len <= |bs|
  {
    if bs == [] then None
    else if bs[0] < 0x80 then Some(Decoded(bs[0] as char, 1))
    else if 0xC0 <= bs[0] < 0xE0 && |bs| >= 2 && Continues(bs[1]) then
      var n := Sextet(bs[0] - 0xC0, bs[1]);
      if n >= 0x80 then Some(Decoded(n as char, 2)) else None
    else if 0xE0 <= bs[0] < 0xF0 && |bs| >= 3 && Continues(bs[1]) && Continues(bs[2]) then
      var n := Sextet(Sextet(bs[0] - 0xE0, bs[1]), bs[2]);
      if n >= 0x800 && IsScalar(n) then Some(Decoded(n as char, 3)) else None
    else if 0xF0 <= bs[0] < 0xF8 && |bs| >= 4 && Continues(bs[1]) && Continues(bs[2]) && Continues(bs[3]) then
      var n := Sextet(Sextet(Sextet(bs[0] - 0xF0, bs[1]), bs[2]), bs[3]);
      if n >= 0x1_0000 && IsScalar(n) then Some(Decoded(n as char, 4)) else None
    else None
  }

  function Decode(bs: seq<Byte>): (r: Option<string>)
    decreases |bs|
  {
    if bs == [] then Some([])
    else
      var first := DecodeChar(bs);
      if first.None? then None
      else
        var rest := Decode(bs[first.value.len..]);
        if rest.None? then None else Some([first.value.c] + rest.value)
  }

  lemma DecodeEncodedChar(c: char, rest: seq<Byte>)
    ensures DecodeChar(EncodeChar(c) + rest) == Some(Decoded(c, |EncodeChar(c)|))
  {
    var bs := EncodeChar(c) + rest;
    var n := c as int;
    assert bs[0] == EncodeChar(c)[0];
    if 0x80 <= n { assert bs[1] == EncodeChar(c)[1]; }
    if 0x800 <= n { assert bs[2] == EncodeChar(c)[2]; }
    if 0x1_0000 <= n { assert bs[3] == EncodeChar(c)[3]; }
  }

  lemma SextetSplits(high: int, b: Byte)
    requires Continues(b)
    ensures Sextet(high, b) / 64 == high && Sextet(high, b) % 64 == b - 0x80
  {
  }

  lemma EncodeThree(a: Byte, b: Byte, c: Byte, n: int)
    requires n == Sextet(Sextet(a - 0xE0, b), c) && Continues(b) && Continues(c)
    requires 0x800 <= n < 0x1_0000 && IsScalar(n)
    ensures EncodeChar(n as char) == [a, b, c]
  {
    SextetSplits(a - 0xE0, b);
    SextetSplits(Sextet(a - 0xE0, b), c);
  }

  lemma EncodeFour(a: Byte, b: Byte, c: Byte, d: Byte, n: int)
    requires n == Sextet(Sextet(Sextet(a - 0xF0, b), c), d) && Continues(b) && Continues(c) && Continues(d)
    requires 0x1_0000 <= n && IsScalar(n)
    ensures EncodeChar(n as char) == [a, b, c, d]
  {
    SextetSplits(a - 0xF0, b);
    SextetSplits(Sextet(a - 0xF0, b), c);
    SextetSplits(Sextet(Sextet(a - 0xF0, b), c), d);
  }

  lemma EncodeDecodedChar(bs: seq<Byte>)
    requires DecodeChar(bs).Some?
    ensures EncodeChar(DecodeChar(bs).value.c) == bs[..DecodeChar(bs).value.len]
  {
    var n := DecodeChar(bs).value.c as int;
    if 0xC0 <= bs[0] < 0xE0 {
      SextetSplits(bs[0] - 0xC0, bs[1]);
    } else if 0xE0 <= bs[0] < 0xF0 {
      EncodeThree(bs[0], bs[1], bs[2], n);
    } else if 0xF0 <= bs[0] {
      EncodeFour(bs[0], bs[1], bs[2], bs[3], n);
    }
  }

  lemma {:induction false} DecodeEncode(s: string)
    ensures Decode(Encode(s)) == Some(s)
  {
    if s != [] {
      var head, tail := EncodeChar(s[0]), Encode(s[1..]);
      DecodeEncodedChar(s[0], tail);
      assert (head + tail)[|head|..] == tail;
      DecodeEncode(s[1..]);
      assert [s[0]] + s[1..] == s;
    }
  }

  lemma {:induction false} EncodeDecode(bs: seq<Byte>)
    requires Decode(bs).Some?
    ensures Encode(Decode(bs).value) == bs
    decreases |bs|
  {
    if bs != [] {
      var first := DecodeChar(bs).value;
      EncodeDecodedChar(bs);
      EncodeDecode(bs[first.len..]);
      var s := Decode(bs).value;
      assert s[0] == first.c && s[1..] == Decode(bs[first.len..]).value;
    }
  }

  /** The decoder accepts exactly the encodings, and gives back the encoded text. */
  lemma DecodesExactlyEncodings(bs: seq<Byte>, s: string)
    ensures Decode(bs) == Some(s) <==> bs == Encode(s)
  {
    DecodeEncode(s);
    if Decode(bs) == Some(s) { EncodeDecode(bs); }
  }

  lemma {:induction false} EncodeConcat(a: string, b: string)
    ensures Encode(a + b) == Encode(a) + Encode(b)
  {
    if a == [] {
      assert a + b == b;
    } else {
      assert (a + b)[1..] == a[1..] + b;
      EncodeConcat(a[1..], b);
    }
  }
}
