/**
 * Base64 as `btoa` produces it (RFC 4648, section 4, with `=` padding) and as `atob`
 * reads it: the forgiving-base64 decode of the WHATWG Infra standard, which removes ASCII
 * white space, drops one or two trailing `=` from a length divisible by four, rejects a
 * remainder of one character or any character outside the alphabet, and discards the
 * leftover bits of a final partial group.
 */
module Base64 {
  import opened Bytes
  import opened Wrappers

  /** The sixty-four digits: `A`-`Z`, `a`-`z`, `0`-`9`, `+` and `/`. */
  predicate IsDigit64(c: char) {
    'A' <= c <= 'Z' || 'a' <= c <= 'z' || '0' <= c <= '9' || c == '+' || c == '/'
  }

  /** The digits in order of value. */
  const Alphabet: string := Run('A', 26) + Run('a', 26) + Run('0', 10) + "+/"

  /** `n` consecutive characters from `first` on. */
  function Run(first: char, n: nat): (r: string)
    requires first as int + n <= 0xD800
    ensures |r| == n && forall i :: 0 <= i < n ==> r[i] == (first as int + i) as char
  {
    seq(n, i requires 0 <= i < n => (first as int + i) as char)
  }

  /** The digit of a six-bit value. */
  function Digit(v: nat): (c: char)
    requires v < 64
    ensures IsDigit64(c)
  {
    AlphabetDigits(v);
    Alphabet[v]
  }

  /** The digit of each range of values. */
  lemma AlphabetDigits(v: nat)
    requires v < 64
    ensures |Alphabet| == 64
    ensures v < 26 ==> Alphabet[v] == ('A' as int + v) as char
    ensures 26 <= v < 52 ==> Alphabet[v] == ('a' as int + v - 26) as char
    ensures 52 <= v < 62 ==> Alphabet[v] == ('0' as int + v - 52) as char
    ensures v == 62 ==> Alphabet[v] == '+'
    ensures v == 63 ==> Alphabet[v] == '/'
  {
  }

  /** The value of a base64 digit: the inverse of `Digit`. */
  function DigitValue(c: char): (v: nat)
    requires IsDigit64(c)
    ensures v < 64 && Digit(v) == c
  {
    var v := if 'A' <= c <= 'Z' then c as int - 'A' as int
      else if 'a' <= c <= 'z' then c as int - 'a' as int + 26
      else if '0' <= c <= '9' then c as int - '0' as int + 52
      else if c == '+' then 62
      else 63;
    AlphabetDigits(v);
    v
  }

  /** Each six-bit value has its own digit. */
  lemma DigitInjective(v: nat)
    requires v < 64
    ensures DigitValue(Digit(v)) == v
  {
  }

  /** The four digits of a full group of three octets. */
  function Quad(b0: Byte, b1: Byte, b2: Byte): (r: string)
    ensures |r| == 4 && forall i :: 0 <= i < 4 ==> IsDigit64(r[i])
  {
    [Digit(b0 / 4), Digit((b0 % 4) * 16 + b1 / 16), Digit((b1 % 16) * 4 + b2 / 64), Digit(b2 % 64)]
  }

  /** The digits of `bs` without padding: four per full group, then two or three for a tail. */
  function EncodeDigits(bs: seq<Byte>): string
    decreases |bs|
  {
    if |bs| >= 3 then Quad(bs[0], bs[1], bs[2]) + EncodeDigits(bs[3..])
    else if |bs| == 2 then [Digit(bs[0] / 4), Digit((bs[0] % 4) * 16 + bs[1] / 16), Digit((bs[1] % 16) * 4)]
    else if |bs| == 1 then [Digit(bs[0] / 4), Digit((bs[0] % 4) * 16)]
    else []
  }

  /** `btoa`: the digits padded with `=` to a multiple of four characters. */
  function Encode(bs: seq<Byte>): (r: string)
    ensures |r| % 4 == 0
    ensures forall i :: 0 <= i < |r| ==> IsDigit64(r[i]) || r[i] == '='
  {
    EncodeShape(bs);
    EncodeDigits(bs) + Padding(|bs| % 3)
  }

  /** The `=` signs after the digits of a tail of zero, one or two octets. */
  function Padding(k: nat): string {
    if k == 1 then "==" else if k == 2 then "=" else ""
  }

  /** The padded digits fill whole groups of four, of digits and `=` only. */
  lemma EncodeShape(bs: seq<Byte>)
    ensures var r := EncodeDigits(bs) + Padding(|bs| % 3);
      |r| % 4 == 0 && forall i :: 0 <= i < |r| ==> IsDigit64(r[i]) || r[i] == '='
  {
    EncodeDigitsShape(bs);
    PaddedShape(EncodeDigits(bs), |bs| % 3);
  }

  /** Digits whose count leaves the tail's remainder, padded for that tail, fill whole groups. */
  lemma PaddedShape(d: string, k: nat)
    requires k < 3 && |d| % 4 == TailDigits(k)
    requires forall i :: 0 <= i < |d| ==> IsDigit64(d[i])
    ensures var r := d + Padding(k);
      |r| % 4 == 0 && forall i :: 0 <= i < |r| ==> IsDigit64(r[i]) || r[i] == '='
  {
    var p := Padding(k);
    assert (|d| + |p|) % 4 == 0;
    forall i | 0 <= i < |d + p| ensures IsDigit64((d + p)[i]) || (d + p)[i] == '=' {
      if i >= |d| {
        assert (d + p)[i] == p[i - |d|];
      }
    }
  }

  /** The unpadded digits are base64 digits, and their count leaves remainder 0, 2 or 3 by four. */
  lemma EncodeDigitsShape(bs: seq<Byte>)
    ensures forall i :: 0 <= i < |EncodeDigits(bs)| ==> IsDigit64(EncodeDigits(bs)[i])
    ensures |EncodeDigits(bs)| == 4 * (|bs| / 3) + TailDigits(|bs| % 3)
    ensures |EncodeDigits(bs)| % 4 == TailDigits(|bs| % 3)
  {
    EncodeDigitsAreDigits(bs);
    EncodeDigitsLength(bs);
    GroupsRemainder(|bs| / 3, TailDigits(|bs| % 3));
  }

  lemma {:induction false} EncodeDigitsAreDigits(bs: seq<Byte>)
    ensures forall i :: 0 <= i < |EncodeDigits(bs)| ==> IsDigit64(EncodeDigits(bs)[i])
    decreases |bs|
  {
    if |bs| >= 3 {
      EncodeDigitsAreDigits(bs[3..]);
      var q, t := Quad(bs[0], bs[1], bs[2]), EncodeDigits(bs[3..]);
      assert EncodeDigits(bs) == q + t;
      assert forall i :: 4 <= i < |q + t| ==> (q + t)[i] == t[i - 4];
    }
  }

  lemma {:induction false} EncodeDigitsLength(bs: seq<Byte>)
    ensures |EncodeDigits(bs)| == 4 * (|bs| / 3) + TailDigits(|bs| % 3)
    decreases |bs|
  {
    if |bs| >= 3 {
      EncodeDigitsLength(bs[3..]);
      assert |EncodeDigits(bs)| == 4 + |EncodeDigits(bs[3..])|;
      ThreeMore(|bs| - 3);
    }
  }

  /** One more group of three octets is one more quotient by three, with the same remainder. */
  lemma ThreeMore(m: nat)
    ensures (m + 3) / 3 == m / 3 + 1 && (m + 3) % 3 == m % 3
  {
  }

  /** Whole groups of four and a short tail leave the tail's length as remainder. */
  lemma GroupsRemainder(q: int, t: nat)
    requires t < 4
    ensures (4 * q + t) % 4 == t
  {
  }

  /** The digits that a tail of zero, one or two octets takes. */
  function TailDigits(k: nat): nat {
    if k == 0 then 0 else k + 1
  }

  /** The white space that forgiving-base64 removes: TAB, LF, FF, CR and SPACE. */
  predicate IsAsciiSpace(c: char) {
    c == '\t' || c == '\n' || c == '\U{0C}' || c == '\r' || c == ' '
  }

  function RemoveSpace(s: string): (r: string)
    ensures |r| <= |s|
    ensures forall i :: 0 <= i < |r| ==> !IsAsciiSpace(r[i])
  {
    if s == [] then []
    else if IsAsciiSpace(s[0]) then RemoveSpace(s[1..])
    else [s[0]] + RemoveSpace(s[1..])
  }

  /** Steps 1 and 2 of forgiving-base64: no white space, and no padding on a full last group. */
  function StripPadding(d: string): string {
    if |d| % 4 == 0 && |d| >= 2 && d[|d| - 2..] == "==" then d[..|d| - 2]
    else if |d| % 4 == 0 && |d| >= 1 && d[|d| - 1] == '=' then d[..|d| - 1]
    else d
  }

  /** Octets from a digit string whose length leaves no remainder of one by four. */
  function DecodeDigits(d: string): (r: seq<Byte>)
    requires |d| % 4 != 1
    requires forall i :: 0 <= i < |d| ==> IsDigit64(d[i])
    decreases |d|
  {
    if |d| >= 4 then
      Octets3(DigitValue(d[0]), DigitValue(d[1]), DigitValue(d[2]), DigitValue(d[3])) + DecodeDigits(d[4..])
    else if |d| == 3 then
      Octets2(DigitValue(d[0]), DigitValue(d[1]), DigitValue(d[2]))
    else if |d| == 2 then
      Octets1(DigitValue(d[0]), DigitValue(d[1]))
    else []
  }

  /** The three octets carried by a full group of four digit values. */
  function Octets3(a: nat, b: nat, c: nat, e: nat): seq<Byte>
    requires a < 64 && b < 64 && c < 64 && e < 64
  {
    [a * 4 + b / 16, (b % 16) * 16 + c / 4, (c % 4) * 64 + e]
  }

  /** The two octets carried by a tail of three digit values; the last two bits are dropped. */
  function Octets2(a: nat, b: nat, c: nat): seq<Byte>
    requires a < 64 && b < 64 && c < 64
  {
    [a * 4 + b / 16, (b % 16) * 16 + c / 4]
  }

  /** The one octet carried by a tail of two digit values; the last four bits are dropped. */
  function Octets1(a: nat, b: nat): seq<Byte>
    requires a < 64 && b < 64
  {
    [a * 4 + b / 16]
  }

  /** `atob`: the octets of a forgiving-base64 string, or `None` where `atob` throws. */
  function Decode(s: string): (r: Option<seq<Byte>>)
    ensures r.None? <==> var d := StripPadding(RemoveSpace(s));
      |d| % 4 == 1 || exists i :: 0 <= i < |d| && !IsDigit64(d[i])
  {
    var d := StripPadding(RemoveSpace(s));
    if |d| % 4 == 1 then None
    else if exists i :: 0 <= i < |d| && !IsDigit64(d[i]) then None
    else Some(DecodeDigits(d))
  }

  /** The octet split across the first two digits of a group is recovered from them. */
  lemma FirstOctet(b0: Byte, x: nat)
    requires x < 16
    ensures (b0 / 4) * 4 + ((b0 % 4) * 16 + x) / 16 == b0
  {
    assert ((b0 % 4) * 16 + x) / 16 == b0 % 4;
  }

  /** The octet split across the second and third digits of a group is recovered from them. */
  lemma SecondOctet(b0: Byte, b1: Byte, y: nat)
    requires y < 4
    ensures (((b0 % 4) * 16 + b1 / 16) % 16) * 16 + ((b1 % 16) * 4 + y) / 4 == b1
  {
    assert ((b0 % 4) * 16 + b1 / 16) % 16 == b1 / 16;
    assert ((b1 % 16) * 4 + y) / 4 == b1 % 16;
  }

  /** The octet split across the last two digits of a group is recovered from them. */
  lemma ThirdOctet(b1: Byte, b2: Byte)
    ensures (((b1 % 16) * 4 + b2 / 64) % 4) * 64 + b2 % 64 == b2
  {
    assert ((b1 % 16) * 4 + b2 / 64) % 4 == b2 / 64;
  }

  /** A full group decodes to its three octets, ahead of whatever follows it. */
  lemma GroupRoundTrip(b0: Byte, b1: Byte, b2: Byte, t: string)
    requires |t| % 4 != 1 && forall i :: 0 <= i < |t| ==> IsDigit64(t[i])
    ensures var d := Quad(b0, b1, b2) + t;
      |d| % 4 != 1 && (forall i :: 0 <= i < |d| ==> IsDigit64(d[i]))
      && DecodeDigits(d) == [b0, b1, b2] + DecodeDigits(t)
  {
    var q := Quad(b0, b1, b2);
    var d := q + t;
    assert d[0] == q[0] && d[1] == q[1] && d[2] == q[2] && d[3] == q[3];
    assert d[4..] == t;
    FourMore(|t|);
    QuadOctets(b0, b1, b2);
  }

  /** Four more digits leave the same remainder by four. */
  lemma FourMore(n: nat)
    ensures (n + 4) % 4 == n % 4
  {
  }

  /** The four digits of a full group carry its three octets. */
  lemma QuadOctets(b0: Byte, b1: Byte, b2: Byte)
    ensures var q := Quad(b0, b1, b2);
      Octets3(DigitValue(q[0]), DigitValue(q[1]), DigitValue(q[2]), DigitValue(q[3])) == [b0, b1, b2]
  {
    QuadValues(b0, b1, b2);
    SextetOctets(b0, b1, b2);
  }

  /** The digits of a full group are read back as the group's four six-bit values. */
  lemma QuadValues(b0: Byte, b1: Byte, b2: Byte)
    ensures var q := Quad(b0, b1, b2);
      DigitValue(q[0]) == b0 / 4 && DigitValue(q[1]) == (b0 % 4) * 16 + b1 / 16
      && DigitValue(q[2]) == (b1 % 16) * 4 + b2 / 64 && DigitValue(q[3]) == b2 % 64
  {
    DigitInjective(b0 / 4);
    DigitInjective((b0 % 4) * 16 + b1 / 16);
    DigitInjective((b1 % 16) * 4 + b2 / 64);
    DigitInjective(b2 % 64);
  }

  /** The four six-bit values of a full group carry its three octets. */
  lemma SextetOctets(b0: Byte, b1: Byte, b2: Byte)
    ensures Octets3(b0 / 4, (b0 % 4) * 16 + b1 / 16, (b1 % 16) * 4 + b2 / 64, b2 % 64) == [b0, b1, b2]
  {
    FirstOctet(b0, b1 / 16);
    SecondOctet(b0, b1, b2 / 64);
    ThirdOctet(b1, b2);
  }

  /** A tail of two octets decodes from its three digits. */
  lemma PairRoundTrip(b0: Byte, b1: Byte)
    ensures DecodeDigits(EncodeDigits([b0, b1])) == [b0, b1]
  {
    DigitInjective(b0 / 4);
    DigitInjective((b0 % 4) * 16 + b1 / 16);
    DigitInjective((b1 % 16) * 4);
    FirstOctet(b0, b1 / 16);
    SecondOctet(b0, b1, 0);
  }

  /** A tail of one octet decodes from its two digits. */
  lemma SingleRoundTrip(b0: Byte)
    ensures DecodeDigits(EncodeDigits([b0])) == [b0]
  {
    DigitInjective(b0 / 4);
    DigitInjective((b0 % 4) * 16);
    FirstOctet(b0, 0);
  }

  /** Decoding the unpadded digits of `bs` gives `bs` back. */
  lemma {:induction false} DecodeEncodeDigits(bs: seq<Byte>)
    ensures |EncodeDigits(bs)| % 4 != 1
    ensures forall i :: 0 <= i < |EncodeDigits(bs)| ==> IsDigit64(EncodeDigits(bs)[i])
    ensures DecodeDigits(EncodeDigits(bs)) == bs
    decreases |bs|
  {
    EncodeDigitsShape(bs);
    if |bs| >= 3 {
      var t := EncodeDigits(bs[3..]);
      DecodeEncodeDigits(bs[3..]);
      GroupRoundTrip(bs[0], bs[1], bs[2], t);
      assert EncodeDigits(bs) == Quad(bs[0], bs[1], bs[2]) + t;
      FirstThree(bs);
    } else if |bs| == 2 {
      PairRoundTrip(bs[0], bs[1]);
      assert bs == [bs[0], bs[1]];
    } else if |bs| == 1 {
      SingleRoundTrip(bs[0]);
      assert bs == [bs[0]];
    }
  }

  /** A sequence of three or more is its first three elements followed by the rest. */
  lemma FirstThree(bs: seq<Byte>)
    requires |bs| >= 3
    ensures bs == [bs[0], bs[1], bs[2]] + bs[3..]
  {
  }

  /** The padded form loses its padding, and nothing else, in forgiving-base64's step 2. */
  lemma {:induction false} StripEncode(bs: seq<Byte>)
    ensures StripPadding(RemoveSpace(Encode(bs))) == EncodeDigits(bs)
  {
    EncodeDigitsShape(bs);
    PaddedStrip(EncodeDigits(bs), |bs| % 3);
  }

  /** Padded digits lose their padding, and nothing else, when `atob` cleans them. */
  lemma PaddedStrip(d: string, k: nat)
    requires k < 3 && |d| % 4 == TailDigits(k)
    requires forall i :: 0 <= i < |d| ==> IsDigit64(d[i])
    ensures StripPadding(RemoveSpace(d + Padding(k))) == d
  {
    PaddedShape(d, k);
    NoSpace(d + Padding(k));
    if k == 0 {
      assert d + Padding(k) == d;
      StripNoPadding(d);
    } else if k == 2 {
      StripOnePad(d);
    } else {
      StripTwoPads(d);
    }
  }

  /** Digits that fill whole groups are left as they are. */
  lemma StripNoPadding(d: string)
    requires |d| % 4 == 0 && forall i :: 0 <= i < |d| ==> IsDigit64(d[i])
    ensures StripPadding(d) == d
  {
    if |d| > 0 {
      assert !IsDigit64('=') && IsDigit64(d[|d| - 1]);
    }
  }

  /** One `=` completing a group of digits is removed. */
  lemma StripOnePad(d: string)
    requires (|d| + 1) % 4 == 0 && forall i :: 0 <= i < |d| ==> IsDigit64(d[i])
    ensures StripPadding(d + "=") == d
  {
    var e := d + "=";
    assert e[|e| - 2] == d[|d| - 1] && IsDigit64(d[|d| - 1]);
    assert e[|e| - 2..] != "==" by {
      assert e[|e| - 2..][0] == e[|e| - 2];
    }
    assert e[..|e| - 1] == d;
  }

  /** Two `=` completing a group of digits are removed. */
  lemma StripTwoPads(d: string)
    requires (|d| + 2) % 4 == 0
    ensures StripPadding(d + "==") == d
  {
    var e := d + "==";
    assert e[|e| - 2..] == "==";
    assert e[..|e| - 2] == d;
  }

  lemma {:induction false} NoSpace(s: string)
    requires forall i :: 0 <= i < |s| ==> IsDigit64(s[i]) || s[i] == '='
    ensures RemoveSpace(s) == s
  {
    if s != [] {
      NoSpace(s[1..]);
    }
  }

  /** `atob(btoa(bs))` gives the octets back. */
  lemma DecodeEncode(bs: seq<Byte>)
    ensures Decode(Encode(bs)) == Some(bs)
  {
    StripEncode(bs);
    DecodeEncodeDigits(bs);
  }

  lemma {:induction false} RemoveSpaceKeeps(s: string, c: char)
    requires c in s && !IsAsciiSpace(c)
    ensures c in RemoveSpace(s)
  {
    if s[0] != c {
      assert c in s[1..];
      RemoveSpaceKeeps(s[1..], c);
    }
  }

  /** `atob` throws on any character that is neither white space, a digit nor padding. */
  lemma DecodeRejects(s: string, c: char)
    requires c in s && !IsAsciiSpace(c) && !IsDigit64(c) && c != '='
    ensures Decode(s) == None
  {
    var t := RemoveSpace(s);
    RemoveSpaceKeeps(s, c);
    var i :| 0 <= i < |t| && t[i] == c;
    var d := StripPadding(t);
    assert i < |d| && d[i] == c by {
      if |t| % 4 == 0 && |t| >= 2 && t[|t| - 2..] == "==" {
        assert t[|t| - 2] == '=' && t[|t| - 1] == '=';
      } else if |t| % 4 == 0 && |t| >= 1 && t[|t| - 1] == '=' {
      }
    }
  }
}
