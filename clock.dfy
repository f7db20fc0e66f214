/**
 * The `formatTime` helper that every contraction screen defines identically: a number of
 * seconds shown as minutes and seconds, each padded to two characters with zeros.
 */
module Clock {
  import opened JsMath
  import opened JsText
  import opened Wrappers

  /**
   * `mm:ss` for a count of seconds. Minutes are the floored quotient by sixty and seconds
   * JavaScript's truncating remainder, so a negative count renders with minus signs.
   */
  function FormatTime(totalSeconds: int): (r: string)
    ensures totalSeconds >= 0 ==> |r| >= 5 && r[|r| - 3] == ':'
    ensures 0 <= totalSeconds < 6000 ==> |r| == 5
  {
    var mins := PadStart2(IntToString(FloorDiv(totalSeconds, 60)));
    var secs := PadStart2(IntToString(TruncRem(totalSeconds, 60)));
    if totalSeconds < 0 then mins + ":" + secs
    else
      NatToStringShort(TruncRem(totalSeconds, 60));
      NatToStringShort(FloorDiv(totalSeconds, 60));
      mins + ":" + secs
  }

  /** Reads `mm:ss` back into seconds; `None` unless both parts are digit strings. */
  function ParseClock(s: string): Option<int> {
    var parts := Split(s, ':');
    if |parts| == 2 && AllDigits(parts[0]) && AllDigits(parts[1]) then
      Some(60 * DigitsValue(parts[0]) + DigitsValue(parts[1]))
    else
      None
  }

  predicate AllDigits(s: string) {
    forall i :: 0 <= i < |s| ==> IsDigit(s[i])
  }

  /** The zero-padded rendering of a natural number reads back as that number. */
  lemma PaddedValue(n: nat)
    ensures AllDigits(PadStart2(NatToString(n)))
    ensures DigitsValue(PadStart2(NatToString(n))) == n
  {
    DigitsValueNatToString(n);
    if |NatToString(n)| == 1 {
      DigitsValueLeadingZero(NatToString(n));
    }
  }

  /** For a non-negative count, the rendered clock reads back as the same count of seconds. */
  lemma {:induction false} ParseFormat(totalSeconds: nat)
    ensures ParseClock(FormatTime(totalSeconds)) == Some(totalSeconds)
  {
    var mins := PadStart2(NatToString(totalSeconds / 60));
    var secs := PadStart2(NatToString(totalSeconds % 60));
    FormatTimeJoin(totalSeconds);
    PaddedValue(totalSeconds / 60);
    PaddedValue(totalSeconds % 60);
    DigitsHaveNoColon(mins);
    DigitsHaveNoColon(secs);
    SplitJoin([mins, secs], ':');
    assert Split(FormatTime(totalSeconds), ':') == [mins, secs];
  }

  /** For a non-negative count, the two padded fields joined by a colon. */
  lemma FormatTimeJoin(totalSeconds: nat)
    ensures FormatTime(totalSeconds)
      == Join([PadStart2(NatToString(totalSeconds / 60)), PadStart2(NatToString(totalSeconds % 60))], ":")
  {
    assert FloorDiv(totalSeconds, 60) == totalSeconds / 60;
    assert TruncRem(totalSeconds, 60) == totalSeconds % 60;
    var mins := PadStart2(NatToString(totalSeconds / 60));
    var secs := PadStart2(NatToString(totalSeconds % 60));
    assert Join([mins, secs], ":") == mins + ":" + Join([secs], ":");
  }

  lemma DigitsHaveNoColon(s: string)
    requires AllDigits(s)
    ensures ':' !in s
  {
    forall i | 0 <= i < |s| ensures s[i] != ':' {
      assert IsDigit(s[i]);
    }
  }
}
