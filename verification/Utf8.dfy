/** UTF-8 (RFC 3629): the encoding the audit log hashes and the chain carries. */
module Utf8 {
  import opened Basics

  type Byte = b: int | 0 <= b < 256

  /** A trailing byte carries the low six bits of a code point. */
  function Trailing(n: nat): Byte {
    0x80 + n % 64
  }

  function EncodeChar(c: char): seq<Byte> {
    var n := c as int;
    if n < 0x80 then [n]
    else if n < 0x800 then [0xC0 + n / 64, Trailing(n)]
    else if n < 0x10000 then [0xE0 + n / 64 / 64, Trailing(n / 64), Trailing(n)]
    else [0xF0 + n / 64 / 64 / 64, Trailing(n / 64 / 64), Trailing(n / 64), Trailing(n)]
  }

  function Encode(s: string): seq<Byte> {
    if s == "" then [] else EncodeChar(s[0]) + Encode(s[1..])
  }

  predicate Continues(bs: seq<Byte>, i: nat) {
    i < |bs| && 0x80 <= bs[i] < 0xC0
  }

  predicate Scalar(n: int) {
    0 <= n < 0xD800 || 0xE000 <= n < 0x110000
  }

  /** Six more bits under a partial code point. */
  function Under(high: int, trail: int): int {
    high * 64 + (trail - 0x80)
  }

  /** The code point at the head and the bytes it takes; overlong forms,
      surrogates and stray continuation bytes are refused. */
  function DecodeHead(bs: seq<Byte>): (r: Option<(char, nat)>)
    ensures r.Some? ==> 1 <= r.value.1 <= |bs|
  {
    if |bs| == 0 then None
    else if bs[0] < 0x80 then Some((bs[0] as char, 1))
    else if bs[0] < 0xC2 then None
    else if bs[0] < 0xE0 then
      if Continues(bs, 1) then Point(Under(bs[0] as int - 0xC0, bs[1]), 0x80, 2) else None
    else if bs[0] < 0xF0 then
      if Continues(bs, 1) && Continues(bs, 2) then
        Point(Under(Under(bs[0] as int - 0xE0, bs[1]), bs[2]), 0x800, 3)
      else None
    else if bs[0] < 0xF5 then
      if Continues(bs, 1) && Continues(bs, 2) && Continues(bs, 3) then
        Point(Under(Under(Under(bs[0] as int - 0xF0, bs[1]), bs[2]), bs[3]), 0x10000, 4)
      else None
    else None
  }

  /** A code point that is a scalar value and not shorter than its form. */
  function Point(n: int, least: nat, size: nat): (r: Option<(char, nat)>)
    ensures r.Some? ==> r.value.1 == size && r.value.0 as int == n >= least
  {
    if least <= n && Scalar(n) then Some((n as char, size)) else None
  }

  function Decode(bs: seq<Byte>): Option<string>
    decreases |bs|
  {
    if bs == [] then Some("")
    else
      var head := DecodeHead(bs);
      if head.None? then None
      else
        var rest := Decode(bs[head.value.1..]);
        if rest.None? then None else Some([head.value.0] + rest.value)
  }

  lemma {:induction false} UnderTrail(n: nat)
    ensures Under(n / 64, Trailing(n)) == n
  {
  }

  lemma {:induction false} TrailUnder(high: nat, trail: Byte)
    requires 0x80 <= trail < 0xC0
    ensures Under(high, trail) >= 0 && Under(high, trail) / 64 == high && Trailing(Under(high, trail)) == trail
  {
  }

  lemma {:induction false} HeadOfEncoded(c: char, rest: seq<Byte>)
    ensures DecodeHead(EncodeChar(c) + rest) == Some((c, |EncodeChar(c)|))
  {
    var n := c as int;
    var bs := EncodeChar(c) + rest;
    UnderTrail(n);
    UnderTrail(n / 64);
    UnderTrail(n / 64 / 64);
    hide Under;
    if n >= 0x80 {
      assert bs[1] == EncodeChar(c)[1];
    }
    if n >= 0x800 {
      assert bs[2] == EncodeChar(c)[2];
    }
    if n >= 0x10000 {
      assert bs[3] == EncodeChar(c)[3];
    }
  }

  lemma {:induction false} EncodedTwo(a: Byte, b: Byte)
    requires 0xC2 <= a < 0xE0 && 0x80 <= b < 0xC0
    ensures
      var n := Under(a as int - 0xC0, b);
      0x80 <= n < 0x800 && EncodeChar(n as char) == [a, b]
  {
    TrailUnder(a as int - 0xC0, b);
  }

  lemma {:induction false} EncodedThree(a: Byte, b: Byte, c: Byte)
    requires 0xE0 <= a < 0xF0 && 0x80 <= b < 0xC0 && 0x80 <= c < 0xC0
    ensures
      var n := Under(Under(a as int - 0xE0, b), c);
      0 <= n < 0x10000 && (n >= 0x800 && Scalar(n) ==> EncodeChar(n as char) == [a, b, c])
  {
    var high := Under(a as int - 0xE0, b);
    TrailUnder(a as int - 0xE0, b);
    TrailUnder(high, c);
  }

  lemma {:induction false} EncodedFour(a: Byte, b: Byte, c: Byte, d: Byte)
    requires 0xF0 <= a < 0xF5 && 0x80 <= b < 0xC0 && 0x80 <= c < 0xC0 && 0x80 <= d < 0xC0
    ensures
      var n := Under(Under(Under(a as int - 0xF0, b), c), d);
      n >= 0 && (n >= 0x10000 && Scalar(n) ==> EncodeChar(n as char) == [a, b, c, d])
  {
    var high := Under(a as int - 0xF0, b);
    var mid := Under(high, c);
    TrailUnder(a as int - 0xF0, b);
    TrailUnder(high, c);
    TrailUnder(mid, d);
    hide Under, Trailing;
  }

  lemma {:induction false} EncodedOfHead(bs: seq<Byte>)
    requires DecodeHead(bs).Some?
    ensures EncodeChar(DecodeHead(bs).value.0) == bs[..DecodeHead(bs).value.1]
  {
    hide Under, EncodeChar;
    if bs[0] < 0x80 {
      EncodedOne(bs[0]);
      assert bs[..1] == [bs[0]];
    } else if bs[0] < 0xE0 {
      EncodedTwo(bs[0], bs[1]);
      assert bs[..2] == [bs[0], bs[1]];
    } else if bs[0] < 0xF0 {
      EncodedThree(bs[0], bs[1], bs[2]);
      assert bs[..3] == [bs[0], bs[1], bs[2]];
    } else {
      EncodedFour(bs[0], bs[1], bs[2], bs[3]);
      assert bs[..4] == [bs[0], bs[1], bs[2], bs[3]];
    }
  }

  lemma {:induction false} EncodedOne(b: Byte)
    requires b < 0x80
    ensures EncodeChar(b as char) == [b]
  {
  }

  /** Decoding undoes encoding, for every string. */
  lemma {:induction false} DecodeEncode(s: string)
    ensures Decode(Encode(s)) == Some(s)
  {
    if s != "" {
      var head, rest := EncodeChar(s[0]), Encode(s[1..]);
      HeadOfEncoded(s[0], rest);
      DecodeEncode(s[1..]);
      assert Encode(s) == head + rest && Encode(s)[|head|..] == rest;
      assert [s[0]] + s[1..] == s;
    }
  }

  lemma {:induction false} EncodeCons(c: char, s: string)
    ensures Encode([c] + s) == EncodeChar(c) + Encode(s)
  {
    hide EncodeChar;
    assert ([c] + s)[1..] == s;
  }

  lemma {:induction false} DecodeCons(bs: seq<Byte>)
    requires bs != [] && Decode(bs).Some?
    ensures DecodeHead(bs).Some?
    ensures
      var (c, k) := DecodeHead(bs).value;
      Decode(bs[k..]).Some? && Decode(bs).value == [c] + Decode(bs[k..]).value
  {
    hide DecodeHead;
  }

  /** And only encodings decode: a byte string that decodes is the encoding of
      what it decodes to. */
  lemma {:induction false} EncodeDecode(bs: seq<Byte>)
    requires Decode(bs).Some?
    ensures Encode(Decode(bs).value) == bs
    decreases |bs|
  {
    if bs != [] {
      hide *;
      DecodeCons(bs);
      var (c, k) := DecodeHead(bs).value;
      EncodedOfHead(bs);
      EncodeDecode(bs[k..]);
      EncodeCons(c, Decode(bs[k..]).value);
      assert bs == bs[..k] + bs[k..];
    }
  }

  lemma {:induction false} EncodeInjective(s: string, t: string)
    requires Encode(s) == Encode(t)
    ensures s == t
  {
    DecodeEncode(s);
    DecodeEncode(t);
  }

  // ------------------------------------------------------- text before encoding

  /** A code point of a Python string, which may be a lone surrogate. */
  type Code = n: int | 0 <= n < 0x110000

  type RawText = seq<Code>

  predicate Encodable(t: RawText) {
    forall i :: 0 <= i < |t| ==> Scalar(t[i])
  }

  function Chars(t: RawText): string
    requires Encodable(t)
  {
    seq(|t|, i requires 0 <= i < |t| => t[i] as char)
  }

  function Codes(s: string): RawText {
    seq(|s|, i requires 0 <= i < |s| => s[i] as int)
  }

  lemma {:induction false} CharsOfCodes(s: string)
    ensures Encodable(Codes(s)) && Chars(Codes(s)) == s
  {
  }

  /** Strict encoding: a lone surrogate has no bytes. */
  function EncodeStrict(t: RawText): Option<seq<Byte>>
    decreases |t|
  {
    if t == [] then Some([])
    else if !Scalar(t[0]) then None
    else
      var rest := EncodeStrict(t[1..]);
      if rest.None? then None else Some(EncodeChar(t[0] as char) + rest.value)
  }

  /** Text has bytes exactly when it holds no lone surrogate, and then they are
      the encoding of its characters. */
  lemma {:induction false} EncodesIff(t: RawText)
    ensures EncodeStrict(t).Some? <==> Encodable(t)
    ensures Encodable(t) ==> EncodeStrict(t) == Some(Encode(Chars(t)))
    decreases |t|
  {
    if t != [] {
      EncodesIff(t[1..]);
      if Encodable(t) {
        assert Chars(t)[0] == t[0] as char;
        assert Chars(t)[1..] == Chars(t[1..]);
      } else if Scalar(t[0]) {
        var i :| 0 <= i < |t| && !Scalar(t[i]);
        assert t[i] == t[1..][i - 1];
      }
    }
  }
}
