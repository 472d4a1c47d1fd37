/** A local date and time and the `strftime`-style fields the clock uses
    (`%H`, `%M`, `%S`, `%I`, `%p`, `%a`, `%A`, `%b`, `%B`, `%d`, `%m`, `%Y`),
    following chrono's formatting. */
module ClockFormat {
  import opened RustText

  /** A broken-down local time. `weekday` counts from Monday = 0. */
  datatype DateTime = DateTime(
    year: int, month: nat, day: nat, weekday: nat,
    hour: nat, minute: nat, second: nat)

  /** The ranges chrono guarantees for each field (calendar validity, such as
      the length of each month, is not part of this model). */
  predicate ValidDateTime(t: DateTime) {
    && 1 <= t.month <= 12 && 1 <= t.day <= 31 && t.weekday < 7
    && t.hour < 24 && t.minute < 60 && t.second < 60
  }

  // ---------------------------------------------------------------------
  // Zero-padded numbers
  // ---------------------------------------------------------------------

  function Zeros(k: nat): (z: string)
    ensures |z| == k && AllDigits(z)
    ensures forall i :: 0 <= i < k ==> z[i] == '0'
  {
    if k == 0 then "" else Zeros(k - 1) + "0"
  }

  lemma {:induction false} ZerosValue(k: nat)
    ensures DigitsValue(Zeros(k)) == 0
  {
    if k > 0 {
      assert Zeros(k)[..k - 1] == Zeros(k - 1);
      ZerosValue(k - 1);
    }
  }

  lemma AllDigitsConcat(a: string, b: string)
    requires AllDigits(a) && AllDigits(b)
    ensures AllDigits(a + b)
  {
    forall i | 0 <= i < |a + b| ensures IsDigit((a + b)[i]) {
      if i < |a| { assert (a + b)[i] == a[i]; } else { assert (a + b)[i] == b[i - |a|]; }
    }
  }

  /** Digits after a prefix weigh a power of ten per digit. */
  lemma {:induction false} DigitsValueAppend(a: string, b: string)
    requires AllDigits(a) && AllDigits(b)
    ensures AllDigits(a + b)
    ensures DigitsValue(a + b) == DigitsValue(a) * Pow10(|b|) + DigitsValue(b)
  {
    AllDigitsConcat(a, b);
    if b == [] {
      assert a + b == a;
    } else {
      var init := b[..|b| - 1];
      var last := DigitValue(b[|b| - 1]);
      assert (a + b)[..|a + b| - 1] == a + init;
      assert (a + b)[|a + b| - 1] == b[|b| - 1];
      assert AllDigits(init);
      DigitsValueAppend(a, init);
      var va, vi, p := DigitsValue(a), DigitsValue(init), Pow10(|init|);
      assert DigitsValue(a + b) == 10 * (va * p + vi) + last;
      assert DigitsValue(b) == 10 * vi + last;
      assert Pow10(|b|) == 10 * p;
      ShiftDigit(va, vi, p, last);
    }
  }

  lemma ShiftDigit(high: int, low: int, p: int, last: int)
    ensures 10 * (high * p + low) + last == high * (10 * p) + (10 * low + last)
  {
  }

  /** A numeral of k digits is below 10^k. */
  lemma {:induction false} DigitsValueUpperBound(s: string)
    requires AllDigits(s)
    ensures DigitsValue(s) < Pow10(|s|)
  {
    if s != [] {
      var init := s[..|s| - 1];
      assert AllDigits(init);
      DigitsValueUpperBound(init);
    }
  }

  /** A numeral with no leading zero is at least the power of ten below its length. */
  lemma {:induction false} NoLeadingZeroLowerBound(s: string)
    requires |s| > 0 && AllDigits(s) && s[0] != '0'
    ensures DigitsValue(s) >= Pow10(|s| - 1)
  {
    if |s| > 1 {
      var p := s[..|s| - 1];
      assert p[0] == s[0];
      NoLeadingZeroLowerBound(p);
    } else {
      assert DigitsValue(s) == 10 * DigitsValue([]) + DigitValue(s[0]);
    }
  }

  /** `n` in decimal, padded with zeros on the left to at least `width` digits. */
  function ZeroPad(n: nat, width: nat): (s: string)
    ensures AllDigits(s) && DigitsValue(s) == n
    ensures |s| >= width && |s| >= 1
    ensures |s| > width ==> s == NatToString(n)
    ensures n < Pow10(width) && width > 0 ==> |s| == width
    ensures n >= Pow10(width) ==> |s| > width
  {
    var digits := NatToString(n);
    if |digits| >= width then
      assert n < Pow10(width) && width > 0 ==> |digits| <= width by {
        if n < Pow10(width) && width > 0 && |digits| > width {
          NoLeadingZeroLowerBound(digits);
          PowMonotone(width, |digits| - 1);
        }
      }
      assert n >= Pow10(width) ==> |digits| > width by {
        DigitsValueUpperBound(digits);
        if |digits| <= width { PowMonotone(|digits|, width); }
      }
      digits
    else
      var s := Zeros(width - |digits|) + digits;
      ZerosValue(width - |digits|);
      DigitsValueAppend(Zeros(width - |digits|), digits);
      assert n >= Pow10(width) ==> false by {
        DigitsValueUpperBound(digits);
        PowMonotone(|digits|, width);
      }
      s
  }

  lemma {:induction false} PowMonotone(a: nat, b: nat)
    requires a <= b
    ensures Pow10(a) <= Pow10(b)
  {
    if a < b {
      PowMonotone(a, b - 1);
    }
  }

  /** Two-digit fields (`%H`, `%M`, `%S`, `%d`, `%m`, `%I`). */
  function Pad2(n: nat): (s: string)
    requires n < 100
    ensures |s| == 2 && AllDigits(s) && DigitsValue(s) == n
  {
    assert Pow10(2) == 100;
    ZeroPad(n, 2)
  }

  /** The value of a two-digit field, read back from its two characters. */
  lemma Pad2ReadsBack(n: nat)
    requires n < 100
    ensures 10 * DigitValue(Pad2(n)[0]) + DigitValue(Pad2(n)[1]) == n
  {
    var s := Pad2(n);
    assert s[..1][..0] == [];
    assert DigitsValue(s[..1]) == DigitValue(s[0]);
  }

  // ---------------------------------------------------------------------
  // Names
  // ---------------------------------------------------------------------

  const WeekdayNames: seq<string> := ["Monday", "Tuesday", "Wednesday", "Thursday", "Friday", "Saturday", "Sunday"]
  const MonthNames: seq<string> := ["January", "February", "March", "April", "May", "June", "July",
    "August", "September", "October", "November", "December"]

  /** `%A` and `%a`: the full name and its first three letters. */
  function WeekdayName(t: DateTime): (name: string)
    requires ValidDateTime(t)
    ensures |name| >= 6
  {
    WeekdayNames[t.weekday]
  }

  function WeekdayAbbrev(t: DateTime): (abbrev: string)
    requires ValidDateTime(t)
    ensures |abbrev| == 3 && abbrev == WeekdayName(t)[..3]
  {
    WeekdayNames[t.weekday][..3]
  }

  /** `%B` and `%b`. */
  function MonthName(t: DateTime): (name: string)
    requires ValidDateTime(t)
    ensures |name| >= 3
  {
    MonthNames[t.month - 1]
  }

  function MonthAbbrev(t: DateTime): (abbrev: string)
    requires ValidDateTime(t)
    ensures |abbrev| == 3 && abbrev == MonthName(t)[..3]
  {
    MonthNames[t.month - 1][..3]
  }

  /** The abbreviations tell every weekday and every month apart. */
  lemma AbbreviationsDistinct(s: DateTime, t: DateTime)
    requires ValidDateTime(s) && ValidDateTime(t)
    ensures WeekdayAbbrev(s) == WeekdayAbbrev(t) <==> s.weekday == t.weekday
    ensures MonthAbbrev(s) == MonthAbbrev(t) <==> s.month == t.month
  {
    if s.month != t.month {
      assert MonthNames[s.month - 1][..3] != MonthNames[t.month - 1][..3] by {
        var a, b := MonthNames[s.month - 1][..3], MonthNames[t.month - 1][..3];
        assert a[0] != b[0] || a[1] != b[1] || a[2] != b[2];
      }
    }
    if s.weekday != t.weekday {
      assert WeekdayNames[s.weekday][..3] != WeekdayNames[t.weekday][..3] by {
        var a, b := WeekdayNames[s.weekday][..3], WeekdayNames[t.weekday][..3];
        assert a[0] != b[0] || a[1] != b[1];
      }
    }
  }

  // ---------------------------------------------------------------------
  // Twelve-hour clock
  // ---------------------------------------------------------------------

  /** `%I`'s number: 12 for midnight and noon, otherwise the hour modulo 12. */
  function Hour12(hour: nat): (h: nat)
    requires hour < 24
    ensures 1 <= h <= 12
    ensures h % 12 == hour % 12
  {
    if hour % 12 == 0 then 12 else hour % 12
  }

  /** `%p`. */
  function AmPm(hour: nat): (p: string)
    ensures p == "AM" <==> hour < 12
    ensures p == "PM" <==> hour >= 12
  {
    if hour < 12 then "AM" else "PM"
  }

  /** The twelve-hour number and the AM/PM marker together give back the hour. */
  lemma TwelveHourReadsBack(hour: nat)
    requires hour < 24
    ensures hour == Hour12(hour) % 12 + (if AmPm(hour) == "PM" then 12 else 0)
  {
  }

  // ---------------------------------------------------------------------
  // Years
  // ---------------------------------------------------------------------

  /** `%Y`: four digits, zero-padded, for years 0 to 9999; outside that
      range, a sign and at least four digits. */
  function YearText(year: int): (s: string)
    ensures 0 <= year <= 9999 ==> |s| == 4 && AllDigits(s) && DigitsValue(s) == year
    ensures year > 9999 ==> |s| >= 6 && s[0] == '+' && AllDigits(s[1..]) && DigitsValue(s[1..]) == year
    ensures year < 0 ==> |s| >= 5 && s[0] == '-' && AllDigits(s[1..]) && DigitsValue(s[1..]) == -year
  {
    assert Pow10(4) == 10000;
    if 0 <= year <= 9999 then ZeroPad(year, 4)
    else
      var digits := ZeroPad(if year > 9999 then year else -year, 4);
      var s := (if year > 9999 then "+" else "-") + digits;
      assert s[1..] == digits;
      s
  }
}
