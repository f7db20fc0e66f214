/** JavaScript's `parseInt(s)` on decimal text, over integers (`NaN` is `None`). */
module JsParseInt {
  import opened Wrappers
  import opened JsText

  /** The run of decimal digits at the start of `s`. */
  function LeadingDigits(s: string): (r: string)
    ensures |r| <= |s| && r == s[..|r|]
    ensures forall i :: 0 <= i < |r| ==> IsDigit(r[i])
    ensures |r| < |s| ==> !IsDigit(s[|r|])
  {
    if s != [] && IsDigit(s[0]) then [s[0]] + LeadingDigits(s[1..]) else []
  }

  /** A string of digits is its own leading run. */
  lemma {:induction false} LeadingDigitsAll(s: string, rest: string)
    requires forall i :: 0 <= i < |s| ==> IsDigit(s[i])
    requires rest == [] || !IsDigit(rest[0])
    ensures LeadingDigits(s + rest) == s
  {
    if s != [] {
      assert (s + rest)[1..] == s[1..] + rest;
      LeadingDigitsAll(s[1..], rest);
    } else {
      assert s + rest == rest;
    }
  }

  /** What follows the leading white space and an optional sign. */
  function Unsigned(t: string): string {
    if t != [] && (t[0] == '-' || t[0] == '+') then t[1..] else t
  }

  /** The value of a trimmed string: an optional sign, then the digits that follow it. */
  function ParseTrimmed(t: string): (r: Option<int>)
    ensures var ds := LeadingDigits(Unsigned(t));
      && (ds == [] ==> r == None)
      && (ds != [] && t[0] == '-' ==> r == Some(-(DigitsValue(ds) as int)))
      && (ds != [] && t[0] != '-' ==> r == Some(DigitsValue(ds) as int))
  {
    var ds := LeadingDigits(Unsigned(t));
    if ds == [] then None
    else
      var v: int := DigitsValue(ds);
      if t[0] == '-' then Some(-v) else Some(v)
  }

  /**
   * `parseInt(s)`: leading white space is skipped, an optional sign is read, then the
   * longest run of digits; without any digit the result is `NaN`. Trailing text is ignored.
   */
  function ParseInt(s: string): (r: Option<int>)
    ensures r == ParseTrimmed(TrimStart(s, IsJsSpace))
  {
    ParseTrimmed(TrimStart(s, IsJsSpace))
  }

  /** Reading back a rendered integer gives the integer, whatever non-digit text follows. */
  lemma ParseIntToString(n: int, rest: string)
    requires rest == [] || !IsDigit(rest[0])
    ensures ParseInt(IntToString(n) + rest) == Some(n)
  {
    if n < 0 {
      var m: nat := -n;
      var digits := NatToString(m);
      DigitsValueNatToString(m);
      assert IntToString(n) == ['-'] + digits;
      assert IntToString(n) + rest == ['-'] + (digits + rest);
      ParseIntNegative(digits, rest, m);
    } else {
      var digits := NatToString(n);
      DigitsValueNatToString(n);
      assert IntToString(n) == digits;
      ParseIntDigits(digits, rest);
    }
  }

  /** A run of digits is read as its value. */
  lemma ParseIntDigits(digits: string, rest: string)
    requires digits != [] && forall i :: 0 <= i < |digits| ==> IsDigit(digits[i])
    requires rest == [] || !IsDigit(rest[0])
    ensures ParseInt(digits + rest) == Some(DigitsValue(digits))
  {
    var s := digits + rest;
    assert s[0] == digits[0];
    NoLeadingSpace(s);
    assert ParseInt(s) == ParseTrimmed(s);
    assert s[0] != '-' && s[0] != '+';
    assert Unsigned(s) == s;
    LeadingDigitsAll(digits, rest);
    assert LeadingDigits(Unsigned(s)) == digits;
  }

  /** A minus sign followed by a run of digits is read as the negated value. */
  lemma ParseIntNegative(digits: string, rest: string, m: nat)
    requires digits != [] && forall i :: 0 <= i < |digits| ==> IsDigit(digits[i])
    requires rest == [] || !IsDigit(rest[0])
    requires DigitsValue(digits) == m
    ensures ParseInt(['-'] + (digits + rest)) == Some(-(m as int))
  {
    var s := ['-'] + (digits + rest);
    NoLeadingSpace(s);
    ParseTrimmedNegative(digits, rest);
  }

  lemma ParseTrimmedNegative(digits: string, rest: string)
    requires digits != [] && forall i :: 0 <= i < |digits| ==> IsDigit(digits[i])
    requires rest == [] || !IsDigit(rest[0])
    ensures ParseTrimmed(['-'] + (digits + rest)) == Some(-(DigitsValue(digits) as int))
  {
    var s := ['-'] + (digits + rest);
    assert s[0] == '-';
    assert Unsigned(s) == digits + rest;
    LeadingDigitsAll(digits, rest);
    ParseTrimmedMinus(s, digits);
  }

  lemma ParseTrimmedMinus(t: string, ds: string)
    requires t != [] && t[0] == '-'
    requires ds != [] && LeadingDigits(Unsigned(t)) == ds
    ensures ParseTrimmed(t) == Some(-(DigitsValue(ds) as int))
  {
  }

  /** A string that starts with a sign or a digit has no white space to skip. */
  lemma NoLeadingSpace(s: string)
    requires s != [] && (s[0] == '-' || IsDigit(s[0]))
    ensures TrimStart(s, IsJsSpace) == s
  {
  }

  /** `parseInt(s) || fallback`: `NaN` and zero give the fallback. */
  function ParseIntOr(s: string, fallback: int): (r: int)
    ensures ParseInt(s).Some? && ParseInt(s).value != 0 ==> r == ParseInt(s).value
    ensures ParseInt(s).None? || ParseInt(s).value == 0 ==> r == fallback
  {
    match ParseInt(s)
    case Some(n) => if n != 0 then n else fallback
    case None => fallback
  }
}
