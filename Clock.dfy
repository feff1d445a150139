/** `datetime.strptime(text, "%H:%M").time()`: the regular expression CPython builds
    for this format is `(2[0-3]|[0-1]\d|\d):([0-5]\d|\d)`, matched at the start of the
    text, and any text left after the match raises ValueError. */
module Clock {
  import opened Common
  import opened Records

  function DigitValue(c: char): nat
    requires IsDigit(c)
  {
    c as int - '0' as int
  }

  /** Length of the hour the pattern takes, trying its alternatives in order and
      backtracking to the one-digit form when no ':' follows; 0 when none fits. */
  function HourLength(s: string): nat
  {
    if |s| >= 3 && s[2] == ':' && ((s[0] == '2' && '0' <= s[1] <= '3') || ('0' <= s[0] <= '1' && IsDigit(s[1]))) then 2
    else if |s| >= 2 && s[1] == ':' && IsDigit(s[0]) then 1
    else 0
  }

  /** Length of the minute the pattern takes from the text after the ':'. */
  function MinuteLength(s: string): nat
  {
    if |s| >= 2 && '0' <= s[0] <= '5' && IsDigit(s[1]) then 2
    else if |s| >= 1 && IsDigit(s[0]) then 1
    else 0
  }

  /** The value of the one or two digits that open s. */
  function Leading(s: string, n: nat): nat
    requires 1 <= n <= 2 && n <= |s| && forall i :: 0 <= i < n ==> IsDigit(s[i])
  {
    if n == 1 then DigitValue(s[0]) else DigitValue(s[0]) * 10 + DigitValue(s[1])
  }

  /** The parsed time, or None where strptime raises ValueError. */
  function ParseClock(s: string): (r: Option<ClockTime>)
    ensures r.Some? ==> r.value.hour < 24 && r.value.minute < 60
    ensures r.Some? ==> 3 <= |s| <= 5 && ':' in s
  {
    var h := HourLength(s);
    if h == 0 then None
    else
      var rest := s[h + 1..];
      var m := MinuteLength(rest);
      if m == 0 || m != |rest| then None
      else Some(ClockTime(Leading(s, h), Leading(rest, m)))
  }

  /** Leading zeros are optional and the separator is required; extra text is refused. */
  lemma ParseClockExamples()
    ensures ParseClock("09:00") == Some(ClockTime(9, 0))
    ensures ParseClock("9:5") == Some(ClockTime(9, 5))
    ensures ParseClock("23:59") == Some(ClockTime(23, 59))
    ensures ParseClock("24:00") == None
    ensures ParseClock("12:60") == None
    ensures ParseClock("12:345") == None
    ensures ParseClock("0900") == None
  {
    assert "09:00"[3..] == "00";
    assert "9:5"[2..] == "5";
    assert "23:59"[3..] == "59";
    assert "12:60"[3..] == "60";
    assert "12:345"[3..] == "345";
  }

  /** Seconds since midnight of a parsed time. */
  function SecondOfDay(t: ClockTime): int
  {
    t.hour * 3600 + t.minute * 60
  }

  /** `t.strftime("%H:%M")`: two digits each, zero-padded. */
  function ClockText(t: ClockTime): string
    requires t.hour < 24 && t.minute < 60
  {
    [Digit(t.hour / 10), Digit(t.hour % 10), ':', Digit(t.minute / 10), Digit(t.minute % 10)]
  }

  lemma DigitValueOf(d: nat)
    requires d < 10
    ensures IsDigit(Digit(d)) && DigitValue(Digit(d)) == d
  {
  }

  /** Every time of day survives printing with "%H:%M" and parsing back. */
  lemma ParseClockRoundTrip(t: ClockTime)
    requires t.hour < 24 && t.minute < 60
    ensures ParseClock(ClockText(t)) == Some(t)
  {
    var s := ClockText(t);
    DigitValueOf(t.hour / 10);
    DigitValueOf(t.hour % 10);
    DigitValueOf(t.minute / 10);
    DigitValueOf(t.minute % 10);
    assert HourLength(s) == 2;
    assert s[3..] == [s[3], s[4]];
    assert MinuteLength(s[3..]) == 2;
  }
}
