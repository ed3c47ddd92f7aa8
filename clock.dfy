/** Time of day at minute granularity, as the rate schedule sees it: Go's
    time layout "15:04" for parsing schedule endpoints and for formatting the
    current clock reading. Both parsed ends of a rule land on the same
    reference date, so comparing parsed times is comparing minutes of the day. */
module Clock {
  import opened Wrappers
  import opened Text

  const MinutesPerDay: int := 1440

  type MinuteOfDay = m: int | 0 <= m < MinutesPerDay

  function DigitValue(c: char): (d: nat)
    requires IsDigit(c)
    ensures d < 10
  {
    c as int - 48
  }

  /** time.Parse("15:04", s), reduced to the minute of the day: the hour is one
      or two digits below 24, then ':', then exactly two minute digits below 60,
      and nothing may follow. */
  function ParseClock(s: string): (r: Option<int>)
    ensures r.Some? ==> 0 <= r.value < MinutesPerDay
  {
    if |s| == 0 || !IsDigit(s[0]) then None
    else
      var twoDigitHour := |s| >= 2 && IsDigit(s[1]);
      var hour := if twoDigitHour then DigitValue(s[0]) * 10 + DigitValue(s[1]) else DigitValue(s[0]);
      var rest := if twoDigitHour then s[2..] else s[1..];
      if |rest| == 0 || rest[0] != ':' then None
      else if |rest| < 3 || !IsDigit(rest[1]) || !IsDigit(rest[2]) then None
      else if |rest| > 3 then None
      else
        var minute := DigitValue(rest[1]) * 10 + DigitValue(rest[2]);
        if hour >= 24 || minute >= 60 then None
        else Some(hour * 60 + minute)
  }

  /** time.Time.Format("15:04"): two-digit hour, ':', two-digit minute. */
  function FormatClock(m: MinuteOfDay): (s: string)
    ensures |s| == 5
  {
    var h, mm := m / 60, m % 60;
    [DigitChar(h / 10), DigitChar(h % 10), ':', DigitChar(mm / 10), DigitChar(mm % 10)]
  }

  /** Re-parsing the formatted clock reading always succeeds and gives the same minute. */
  lemma ParseFormatRoundTrip(m: MinuteOfDay)
    ensures ParseClock(FormatClock(m)) == Some(m)
  {
    var s := FormatClock(m);
    var h, mm := m / 60, m % 60;
    assert DigitValue(s[0]) == h / 10 && DigitValue(s[1]) == h % 10;
    assert DigitValue(s[3]) == mm / 10 && DigitValue(s[4]) == mm % 10;
    assert s[2..][1..] == s[3..];
  }

  /** A five-character endpoint that parses is exactly the formatting of its minute. */
  lemma FormatParseRoundTrip(s: string)
    requires |s| == 5 && ParseClock(s).Some?
    ensures FormatClock(ParseClock(s).value) == s
  {
    var m := ParseClock(s).value;
    assert IsDigit(s[1]);
    var h, mm := m / 60, m % 60;
    assert h == DigitValue(s[0]) * 10 + DigitValue(s[1]);
    assert mm == DigitValue(s[3]) * 10 + DigitValue(s[4]);
    assert DigitChar(DigitValue(s[0])) == s[0];
    assert DigitChar(DigitValue(s[1])) == s[1];
    assert DigitChar(DigitValue(s[3])) == s[3];
    assert DigitChar(DigitValue(s[4])) == s[4];
  }

  /** "24:00" is not a time of day under "15:04": the hour must be below 24. */
  lemma MidnightAsTwentyFourRejected()
    ensures ParseClock("24:00") == None
  {
    var s := "24:00";
    assert DigitValue(s[0]) == 2 && DigitValue(s[1]) == 4;
  }

  /** A one-digit hour is accepted, a one-digit minute is not. */
  lemma OneDigitHourAccepted()
    ensures ParseClock("7:05") == Some(425)
    ensures ParseClock("07:5") == None
  {
    var s := "7:05";
    assert !IsDigit(s[1]);
    assert s[1..] == ":05";
    var t := "07:5";
    assert t[2..] == ":5";
  }
}
