/** Octets, shared by the text codecs. */
module Bytes {
  /** One octet. */
  type Byte = b: int | 0 <= b < 256
}

/**
 * UTF-8 as RFC 3629 defines it. Encoding is what `encodeURIComponent` produces before its
 * percent-escapes are turned back into single characters; decoding is the strict decoder
 * of `decodeURIComponent`, which rejects stray continuation bytes, truncated sequences,
 * overlong forms, surrogate code points and values above U+10FFFF.
 */
module Utf8 {
  import opened Bytes
  import opened Wrappers

  /** The one to four octets of a single scalar value. */
  function EncodeChar(c: char): (r: seq<Byte>)
    ensures 1 <= |r| <= 4
    ensures (|r| == 1) == (c as int < 0x80)
  {
    var n := c as int;
    if n < 0x80 then [n]
    else if n < 0x800 then [0xC0 + n / 64, 0x80 + n % 64]
    else if n < 0x10000 then [0xE0 + n / 4096, 0x80 + (n / 64) % 64, 0x80 + n % 64]
    else [0xF0 + n / 262144, 0x80 + (n / 4096) % 64, 0x80 + (n / 64) % 64, 0x80 + n % 64]
  }

  /** The octets of a string, character after character. */
  function Encode(s: string): seq<Byte> {
    if s == [] then [] else EncodeChar(s[0]) + Encode(s[1..])
  }

  /** A decoded scalar value and the number of octets it took. */
  datatype Step = Step(c: char, len: nat)

  predicate IsContinuation(b: Byte) {
    0x80 <= b < 0xC0
  }

  /** The octet count announced by a lead octet; zero for octets that cannot lead. */
  function SequenceLength(b: Byte): nat {
    if b < 0x80 then 1
    else if 0xC2 <= b < 0xE0 || b == 0xC0 || b == 0xC1 then 2
    else if 0xE0 <= b < 0xF0 then 3
    else if 0xF0 <= b < 0xF8 then 4
    else 0
  }

  /** The scalar value carried by a two-octet sequence. */
  function Value2(b0: Byte, b1: Byte): int {
    (b0 as int - 0xC0) * 64 + (b1 as int - 0x80)
  }

  /** The scalar value carried by a three-octet sequence. */
  function Value3(b0: Byte, b1: Byte, b2: Byte): int {
    (b0 as int - 0xE0) * 4096 + (b1 as int - 0x80) * 64 + (b2 as int - 0x80)
  }

  /** The scalar value carried by a four-octet sequence. */
  function Value4(b0: Byte, b1: Byte, b2: Byte, b3: Byte): int {
    (b0 as int - 0xF0) * 262144 + (b1 as int - 0x80) * 4096 + (b2 as int - 0x80) * 64 + (b3 as int - 0x80)
  }

  /** Decodes the first scalar value of `bs`, or `None` when `bs` does not start with one. */
  function DecodeFirst(bs: seq<Byte>): (r: Option<Step>)
    requires |bs| > 0
    ensures r.Some? ==> 1 <= r.value.len <= |bs| && r.value.len == SequenceLength(bs[0])
  {
    var n := SequenceLength(bs[0]);
    if n == 0 || |bs| < n then None
    else if n == 1 then Some(Step(bs[0] as char, 1))
    else if !(forall k :: 1 <= k < n ==> IsContinuation(bs[k])) then None
    else if n == 2 then
      var cp := Value2(bs[0], bs[1]);
      if cp < 0x80 then None else Some(Step(cp as char, 2))
    else if n == 3 then
      var cp := Value3(bs[0], bs[1], bs[2]);
      if cp < 0x800 || 0xD800 <= cp < 0xE000 then None else Some(Step(cp as char, 3))
    else
      var cp := Value4(bs[0], bs[1], bs[2], bs[3]);
      if cp < 0x10000 || cp > 0x10FFFF then None else Some(Step(cp as char, 4))
  }

  /** Decodes a whole octet sequence, or `None` when any part of it is malformed. */
  function Decode(bs: seq<Byte>): Option<string>
    decreases |bs|
  {
    if bs == [] then Some([])
    else match DecodeFirst(bs)
      case None => None
      case Some(step) =>
        match Decode(bs[step.len..])
        case None => None
        case Some(rest) => Some([step.c] + rest)
  }

  /** The octets of one character are decoded back into that character. */
  lemma DecodeFirstEncodeChar(c: char, rest: seq<Byte>)
    ensures DecodeFirst(EncodeChar(c) + rest) == Some(Step(c, |EncodeChar(c)|))
  {
    var n := c as int;
    if n < 0x80 {
    } else if n < 0x800 {
      DecodeFirst2(c, rest);
    } else if n < 0x10000 {
      DecodeFirst3(c, rest);
    } else {
      DecodeFirst4(c, rest);
    }
  }

  lemma DecodeFirst2(c: char, rest: seq<Byte>)
    requires 0x80 <= c as int < 0x800
    ensures DecodeFirst(EncodeChar(c) + rest) == Some(Step(c, 2))
  {
    var n := c as int;
    var b0, b1 := 0xC0 + n / 64, 0x80 + n % 64;
    assert EncodeChar(c) + rest == [b0, b1] + rest;
    assert Value2(b0, b1) == n;
    assert SequenceLength(b0) == 2;
  }

  lemma DecodeFirst3(c: char, rest: seq<Byte>)
    requires 0x800 <= c as int < 0x10000
    ensures DecodeFirst(EncodeChar(c) + rest) == Some(Step(c, 3))
  {
    var n := c as int;
    var b0, b1, b2 := 0xE0 + n / 4096, 0x80 + (n / 64) % 64, 0x80 + n % 64;
    assert EncodeChar(c) + rest == [b0, b1, b2] + rest;
    assert n == (n / 4096) * 4096 + ((n / 64) % 64) * 64 + n % 64;
    assert Value3(b0, b1, b2) == n;
    assert SequenceLength(b0) == 3;
  }

  lemma DecodeFirst4(c: char, rest: seq<Byte>)
    requires 0x10000 <= c as int
    ensures DecodeFirst(EncodeChar(c) + rest) == Some(Step(c, 4))
  {
    var n := c as int;
    Digits4(n);
    var b0, b1, b2, b3 := 0xF0 + n / 262144, 0x80 + (n / 4096) % 64, 0x80 + (n / 64) % 64, 0x80 + n % 64;
    var bs := EncodeChar(c) + rest;
    assert bs[0] == b0 && bs[1] == b1 && bs[2] == b2 && bs[3] == b3;
    assert SequenceLength(b0) == 4;
    assert IsContinuation(bs[1]) && IsContinuation(bs[2]) && IsContinuation(bs[3]);
    assert Value4(b0, b1, b2, b3) == n;
  }

  /** The four base-64 digits that a four-octet encoding spreads a scalar value over. */
  lemma Digits4(n: int)
    requires 0x10000 <= n <= 0x10FFFF
    ensures n / 262144 <= 4
    ensures n == (n / 262144) * 262144 + ((n / 4096) % 64) * 4096 + ((n / 64) % 64) * 64 + n % 64
  {
    var q := n / 64;
    assert n == q * 64 + n % 64;
    assert q / 64 == n / 4096;
    assert q == (q / 64) * 64 + q % 64;
    assert (n / 4096) / 64 == n / 262144;
    assert n / 4096 == (n / 262144) * 64 + (n / 4096) % 64;
  }

  /** Every string survives encoding followed by decoding. */
  lemma {:induction false} DecodeEncode(s: string)
    ensures Decode(Encode(s)) == Some(s)
  {
    if s != [] {
      var e := EncodeChar(s[0]);
      DecodeFirstEncodeChar(s[0], Encode(s[1..]));
      assert (e + Encode(s[1..]))[|e|..] == Encode(s[1..]);
      DecodeEncode(s[1..]);
      assert [s[0]] + s[1..] == s;
    }
  }

  /** A well-formed two-octet sequence is the encoding of the value it carries. */
  lemma Encode2(b0: Byte, b1: Byte)
    requires 0xC0 <= b0 < 0xE0 && IsContinuation(b1) && 0x80 <= Value2(b0, b1)
    ensures EncodeChar(Value2(b0, b1) as char) == [b0, b1]
  {
    var n := Value2(b0, b1);
    assert n / 64 == b0 as int - 0xC0 && n % 64 == b1 as int - 0x80;
  }

  /** A well-formed three-octet sequence is the encoding of the value it carries. */
  lemma Encode3(b0: Byte, b1: Byte, b2: Byte)
    requires 0xE0 <= b0 < 0xF0 && IsContinuation(b1) && IsContinuation(b2)
    requires 0x800 <= Value3(b0, b1, b2) && !(0xD800 <= Value3(b0, b1, b2) < 0xE000)
    ensures EncodeChar(Value3(b0, b1, b2) as char) == [b0, b1, b2]
  {
    var n := Value3(b0, b1, b2);
    assert n / 4096 == b0 as int - 0xE0;
    assert n / 64 == (b0 as int - 0xE0) * 64 + (b1 as int - 0x80);
    assert (n / 64) % 64 == b1 as int - 0x80 && n % 64 == b2 as int - 0x80;
  }

  /** A well-formed four-octet sequence is the encoding of the value it carries. */
  lemma Encode4(b0: Byte, b1: Byte, b2: Byte, b3: Byte)
    requires 0xF0 <= b0 < 0xF8 && IsContinuation(b1) && IsContinuation(b2) && IsContinuation(b3)
    requires 0x10000 <= Value4(b0, b1, b2, b3) <= 0x10FFFF
    ensures EncodeChar(Value4(b0, b1, b2, b3) as char) == [b0, b1, b2, b3]
  {
    var n := Value4(b0, b1, b2, b3);
    assert n / 262144 == b0 as int - 0xF0;
    assert n / 4096 == (b0 as int - 0xF0) * 64 + (b1 as int - 0x80);
    assert n / 64 == ((b0 as int - 0xF0) * 64 + (b1 as int - 0x80)) * 64 + (b2 as int - 0x80);
    assert (n / 4096) % 64 == b1 as int - 0x80;
    assert (n / 64) % 64 == b2 as int - 0x80 && n % 64 == b3 as int - 0x80;
  }

  /** The decoder accepts a prefix only when it is the exact encoding of the character it yields. */
  lemma EncodeDecodeFirst(bs: seq<Byte>)
    requires |bs| > 0 && DecodeFirst(bs).Some?
    ensures EncodeChar(DecodeFirst(bs).value.c) == bs[..DecodeFirst(bs).value.len]
  {
    var n := SequenceLength(bs[0]);
    if n == 2 {
      assert IsContinuation(bs[1]);
      Encode2(bs[0], bs[1]);
      assert bs[..2] == [bs[0], bs[1]];
    } else if n == 3 {
      assert IsContinuation(bs[1]) && IsContinuation(bs[2]);
      Encode3(bs[0], bs[1], bs[2]);
      assert bs[..3] == [bs[0], bs[1], bs[2]];
    } else if n == 4 {
      assert IsContinuation(bs[1]) && IsContinuation(bs[2]) && IsContinuation(bs[3]);
      Encode4(bs[0], bs[1], bs[2], bs[3]);
      assert bs[..4] == [bs[0], bs[1], bs[2], bs[3]];
    }
  }

  /** Whatever the decoder accepts is the encoding of what it returns: decoding is strict. */
  lemma {:induction false} EncodeDecode(bs: seq<Byte>)
    requires Decode(bs).Some?
    ensures Encode(Decode(bs).value) == bs
    decreases |bs|
  {
    if bs != [] {
      DecodeUnfold(bs);
      var step := DecodeFirst(bs).value;
      var tail := bs[step.len..];
      EncodeDecode(tail);
      EncodeDecodeFirst(bs);
      EncodeSplit(bs, step.len, step.c, Decode(tail).value);
    }
  }

  /** Octets that split into the encoding of `c` and the encoding of `rest` encode `[c] + rest`. */
  lemma EncodeSplit(bs: seq<Byte>, n: nat, c: char, rest: string)
    requires n <= |bs|
    requires EncodeChar(c) == bs[..n] && Encode(rest) == bs[n..]
    ensures Encode([c] + rest) == bs
  {
    EncodeCons(c, rest);
    assert bs == bs[..n] + bs[n..];
  }

  /** A decoded non-empty sequence is its first character followed by the decoded rest. */
  lemma DecodeUnfold(bs: seq<Byte>)
    requires bs != [] && Decode(bs).Some?
    ensures DecodeFirst(bs).Some?
    ensures Decode(bs[DecodeFirst(bs).value.len..]).Some?
    ensures Decode(bs).value == [DecodeFirst(bs).value.c] + Decode(bs[DecodeFirst(bs).value.len..]).value
  {
  }

  /** Encoding a character in front of a string puts its octets in front. */
  lemma EncodeCons(c: char, s: string)
    ensures Encode([c] + s) == EncodeChar(c) + Encode(s)
  {
    assert ([c] + s)[1..] == s;
  }

  /** Distinct strings have distinct encodings. */
  lemma EncodeInjective(s: string, t: string)
    requires Encode(s) == Encode(t)
    ensures s == t
  {
    DecodeEncode(s);
    DecodeEncode(t);
  }
}
