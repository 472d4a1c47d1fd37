/** The clock tile of the bar: a clock-face glyph for the hour, the time as
    "HH:MM" and the date as "MM/DD". The time it shows is replaced every
    second by a message carrying the local time (an input here). */
module ClockTile {
  import opened Wrappers
  import opened RustText
  import opened ClockFormat
  import CS = ClockService

  /** Clock faces from twelve o'clock, then one o'clock to eleven. */
  const ClockIcons: seq<string> := [
    "\U{F1456}", "\U{F144B}", "\U{F144C}", "\U{F144D}", "\U{F144E}", "\U{F144F}",
    "\U{F1450}", "\U{F1451}", "\U{F1452}", "\U{F1453}", "\U{F1454}", "\U{F1455}"]

  datatype Msg = Click | TimeUpdate(time: DateTime)

  datatype ClockOutput = Clicked

  /** `get_icon`: the face for the hour on a twelve-hour dial. */
  function IconFor(t: DateTime): (icon: string)
    requires ValidDateTime(t)
    ensures icon in ClockIcons
  {
    ClockIcons[t.hour % 12]
  }

  /** Two times get the same face exactly when their hours agree on a
      twelve-hour dial, so midnight and noon both show twelve o'clock. */
  lemma IconRules(s: DateTime, t: DateTime)
    requires ValidDateTime(s) && ValidDateTime(t)
    ensures IconFor(s) == IconFor(t) <==> s.hour % 12 == t.hour % 12
    ensures s.hour % 12 == 0 ==> IconFor(s) == "\U{F1456}"
  {
    if s.hour % 12 != t.hour % 12 {
      var i, j := s.hour % 12, t.hour % 12;
      assert ClockIcons[i][0] != ClockIcons[j][0];
    }
  }

  /** `get_date_text`: `%m/%d`. */
  function DateText(t: DateTime): (s: string)
    requires ValidDateTime(t)
    ensures |s| == 5 && s[2] == '/'
    ensures IsDigit(s[0]) && IsDigit(s[1]) && IsDigit(s[3]) && IsDigit(s[4])
    ensures CS.TwoDigitsAt(s, 0) == t.month && CS.TwoDigitsAt(s, 3) == t.day
  {
    Pad2ReadsBack(t.month);
    Pad2ReadsBack(t.day);
    Pad2(t.month) + "/" + Pad2(t.day)
  }

  class ClockWidget {
    var time: DateTime

    constructor (now: DateTime)
      requires ValidDateTime(now)
      ensures time == now
    {
      time := now;
    }

    /** A click is reported; a time update replaces the time shown. */
    method Update(msg: Msg) returns (output: Option<ClockOutput>)
      requires msg.TimeUpdate? ==> ValidDateTime(msg.time)
      requires ValidDateTime(time)
      modifies this
      ensures ValidDateTime(time)
      ensures msg.Click? ==> output == Some(Clicked) && time == old(time)
      ensures msg.TimeUpdate? ==> output == None && time == msg.time
    {
      match msg
      case Click =>
        output := Some(Clicked);
      case TimeUpdate(t) =>
        time := t;
        output := None;
    }

    /** The three labels: face, `%H:%M` and `%m/%d`. */
    function Labels(): (labels: (string, string, string))
      reads this
      requires ValidDateTime(time)
      ensures labels.0 in ClockIcons
      ensures labels.1 == CS.TimeString(time) && labels.2 == DateText(time)
    {
      (IconFor(time), CS.TimeString(time), DateText(time))
    }
  }
}
