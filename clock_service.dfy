/** The clock service: every second it takes the local time (an input here)
    and publishes it as a 24-hour "HH:MM" string, a "Www, Mmm DD" date
    string and the hour, minute and second numbers. */
module ClockService {
  import opened RustText
  import opened ClockFormat

  /** The number in the two digits at `i`. */
  function TwoDigitsAt(s: string, i: nat): nat
    requires i + 1 < |s| && IsDigit(s[i]) && IsDigit(s[i + 1])
  {
    10 * DigitValue(s[i]) + DigitValue(s[i + 1])
  }

  /** `%H:%M`: five characters, the hour and the minute reading back from
      either side of the colon. */
  function TimeString(t: DateTime): (s: string)
    requires ValidDateTime(t)
    ensures |s| == 5 && s[2] == ':'
    ensures IsDigit(s[0]) && IsDigit(s[1]) && IsDigit(s[3]) && IsDigit(s[4])
    ensures TwoDigitsAt(s, 0) == t.hour && TwoDigitsAt(s, 3) == t.minute
  {
    Pad2ReadsBack(t.hour);
    Pad2ReadsBack(t.minute);
    Pad2(t.hour) + ":" + Pad2(t.minute)
  }

  /** `%a, %b %d`, as in "Thu, Oct 15". */
  function DateString(t: DateTime): (s: string)
    requires ValidDateTime(t)
    ensures |s| == 11
    ensures s[..3] == WeekdayAbbrev(t) && s[3..5] == ", " && s[5..8] == MonthAbbrev(t) && s[8] == ' '
    ensures IsDigit(s[9]) && IsDigit(s[10]) && TwoDigitsAt(s, 9) == t.day
  {
    Pad2ReadsBack(t.day);
    WeekdayAbbrev(t) + ", " + MonthAbbrev(t) + " " + Pad2(t.day)
  }

  /** `%I:%M %p`, as in "03:07 PM". */
  function Time12h(t: DateTime): (s: string)
    requires ValidDateTime(t)
    ensures |s| == 8 && s[2] == ':' && s[5] == ' '
    ensures IsDigit(s[0]) && IsDigit(s[1]) && IsDigit(s[3]) && IsDigit(s[4])
    ensures 1 <= TwoDigitsAt(s, 0) <= 12 && TwoDigitsAt(s, 3) == t.minute
    ensures s[6..] == AmPm(t.hour)
  {
    Pad2ReadsBack(Hour12(t.hour));
    Pad2ReadsBack(t.minute);
    Pad2(Hour12(t.hour)) + ":" + Pad2(t.minute) + " " + AmPm(t.hour)
  }

  /** The twelve-hour string gives back the hour of the day. */
  lemma Time12hReadsBack(t: DateTime)
    requires ValidDateTime(t)
    ensures var s := Time12h(t);
      t.hour == TwoDigitsAt(s, 0) % 12 + (if s[6..] == "PM" then 12 else 0)
  {
    Pad2ReadsBack(Hour12(t.hour));
    TwelveHourReadsBack(t.hour);
  }

  /** `%H:%M:%S`: the 24-hour string followed by the seconds. */
  function TimeWithSeconds(t: DateTime): (s: string)
    requires ValidDateTime(t)
    ensures |s| == 8 && s[..5] == TimeString(t) && s[5] == ':'
    ensures IsDigit(s[6]) && IsDigit(s[7]) && TwoDigitsAt(s, 6) == t.second
  {
    Pad2ReadsBack(t.second);
    TimeString(t) + ":" + Pad2(t.second)
  }

  /** `%A, %B %d, %Y`, as in "Thursday, October 15, 2026". */
  function FullDate(t: DateTime): (s: string)
    requires ValidDateTime(t)
    ensures var n := |WeekdayName(t)| + 2 + |MonthName(t)| + 1;
      && StartsWith(s, WeekdayName(t) + ", " + MonthName(t) + " ")
      && |s| == n + 2 + 2 + |YearText(t.year)|
      && IsDigit(s[n]) && IsDigit(s[n + 1]) && TwoDigitsAt(s, n) == t.day
      && s[n + 2..n + 4] == ", " && s[n + 4..] == YearText(t.year)
  {
    Pad2ReadsBack(t.day);
    DateLayout(WeekdayName(t) + ", " + MonthName(t) + " ", Pad2(t.day), YearText(t.year));
    WeekdayName(t) + ", " + MonthName(t) + " " + Pad2(t.day) + ", " + YearText(t.year)
  }

  /** Where the day and the year sit in "<head><dd>, <year>". */
  lemma DateLayout(head: string, day: string, year: string)
    requires |day| == 2
    ensures var s := head + day + ", " + year;
      && StartsWith(s, head) && |s| == |head| + 2 + 2 + |year|
      && s[|head|] == day[0] && s[|head| + 1] == day[1]
      && s[|head| + 2..|head| + 4] == ", " && s[|head| + 4..] == year
  {
    var s := head + day + ", " + year;
    assert s[..|head|] == head;
    assert s[|head| + 4..] == year;
  }

  class Clock {
    var timeString: string
    var dateString: string
    var hour: nat
    var minute: nat
    var second: nat

    /** Construction publishes the time once. */
    constructor (now: DateTime)
      requires ValidDateTime(now)
      ensures timeString == TimeString(now) && dateString == DateString(now)
      ensures hour == now.hour && minute == now.minute && second == now.second
    {
      timeString := TimeString(now);
      dateString := DateString(now);
      hour := now.hour;
      minute := now.minute;
      second := now.second;
    }

    /** `update_time`: all five properties come from the same instant. */
    method UpdateTime(now: DateTime)
      requires ValidDateTime(now)
      modifies this
      ensures timeString == TimeString(now) && dateString == DateString(now)
      ensures hour == now.hour && minute == now.minute && second == now.second
    {
      timeString := TimeString(now);
      dateString := DateString(now);
      hour := now.hour;
      minute := now.minute;
      second := now.second;
    }

    predicate IsAm()
      reads this
    {
      hour < 12
    }

    predicate IsPm()
      reads this
    {
      hour >= 12
    }

    /** After an update the published string and numbers agree: the hour
        and minute read back from the time string. */
    predicate Consistent()
      reads this
    {
      && |timeString| == 5 && IsDigit(timeString[0]) && IsDigit(timeString[1])
      && IsDigit(timeString[3]) && IsDigit(timeString[4])
      && TwoDigitsAt(timeString, 0) == hour && TwoDigitsAt(timeString, 3) == minute
    }
  }

  /** Exactly one of AM and PM holds, and it matches the `%p` marker of the
      published time. */
  lemma AmPmExclusive(c: Clock)
    ensures c.IsAm() != c.IsPm()
    ensures c.IsPm() <==> AmPm(c.hour) == "PM"
  {
  }

  /** An update leaves the clock consistent. */
  lemma UpdateConsistent(c: Clock, now: DateTime)
    requires ValidDateTime(now)
    requires c.timeString == TimeString(now) && c.hour == now.hour && c.minute == now.minute
    ensures c.Consistent()
  {
  }
}
