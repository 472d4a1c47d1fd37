/** The weather worker: it polls the wttr.in report, turns it into a
    temperature, a description and an icon name, publishes the result in a
    shared slot, and backs off after failures. */
module WeatherService {
  import opened Wrappers
  import opened RustText

  /** The icon names the worker chooses from. */
  datatype WeatherIcon =
    | Moon | Sunny | PartlyCloudyNight | PartlyCloudyDay | Cloudy | Fog
    | RainShowersDay | Rain | Thunderstorm | SnowShowerDay | Snow

  /** What the worker publishes. */
  datatype WeatherState = WeatherState(temperature: int, condition: string, icon: WeatherIcon)

  /** The parts of a wttr.in report the worker reads. */
  datatype Condition = Condition(tempF: string, weatherCode: string, weatherDesc: seq<string>)
  datatype Astronomy = Astronomy(sunrise: string, sunset: string)
  datatype Report = Report(currentCondition: seq<Condition>, weather: seq<seq<Astronomy>>)

  datatype Msg = Abort | Finish(data: WeatherState)

  // ---------------------------------------------------------------------
  // Times of day
  // ---------------------------------------------------------------------

  /** Hour and minute from a 12-hour time such as `06:45 AM`: the text
      before the first space is split at its first colon into two `u32`
      numbers; the rest, trimmed, is compared with `PM` and `AM` ignoring
      ASCII case. */
  function ParseTime12h(s: string): Option<(nat, nat)> {
    match SplitOnce(s, " ")
    case None => None
    case Some((time, meridiem)) =>
      match SplitOnce(time, ":")
      case None => None
      case Some((hs, ms)) =>
        match ParseU32(hs)
        case None => None
        case Some(h) =>
          match ParseU32(ms)
          case None => None
          case Some(m) =>
            var mer := Trim(meridiem);
            Some((To24h(h, IsPm(mer), IsAm(mer)), m))
  }

  /** The hour on a 24-hour clock: PM adds twelve to any hour but 12, then
      AM turns 12 into 0. */
  function To24h(h: nat, pm: bool, am: bool): nat {
    var h1 := if pm && h != 12 then h + 12 else h;
    if am && h1 == 12 then 0 else h1
  }

  predicate IsPm(meridiem: string) {
    EqIgnoreAsciiCase(meridiem, "PM")
  }

  predicate IsAm(meridiem: string) {
    EqIgnoreAsciiCase(meridiem, "AM")
  }

  /** No meridiem reads as both AM and PM. */
  lemma MeridiemsExclusive(meridiem: string)
    ensures !(IsPm(meridiem) && IsAm(meridiem))
  {
    if IsPm(meridiem) {
      assert AsciiLower(meridiem[0]) == 'p';
    }
  }

  /** `AM` and `PM` as wttr.in writes them. */
  lemma PlainMeridiems()
    ensures Trim("AM") == "AM" && Trim("PM") == "PM"
    ensures IsAm("AM") && !IsPm("AM") && IsPm("PM") && !IsAm("PM")
  {
    assert TrimStart("AM") == "AM" && TrimStart("PM") == "PM";
    assert "AM"[0] == 'A' && "PM"[0] == 'P';
  }

  /** Failure cases: no space, no colon, or a part that is not a `u32`. */
  lemma ParseTime12hFailures(s: string)
    ensures SplitOnce(s, " ").None? ==> ParseTime12h(s).None?
    ensures SplitOnce(s, " ").Some? && SplitOnce(SplitOnce(s, " ").value.0, ":").None? ==> ParseTime12h(s).None?
    ensures SplitOnce(s, " ").Some? && SplitOnce(SplitOnce(s, " ").value.0, ":").Some? ==>
      var (hs, ms) := SplitOnce(SplitOnce(s, " ").value.0, ":").value;
      (ParseTime12h(s).Some? <==> ParseU32(hs).Some? && ParseU32(ms).Some?)
  {
  }

  /** The meridiem rule: PM adds twelve to any hour but 12, AM turns 12 into
      0, anything else leaves the hour, and nothing bounds the hour. */
  lemma MeridiemRule(h: nat, meridiem: string)
    ensures IsPm(meridiem) ==> To24h(h, IsPm(meridiem), IsAm(meridiem)) == if h == 12 then 12 else h + 12
    ensures IsAm(meridiem) ==> To24h(h, IsPm(meridiem), IsAm(meridiem)) == if h == 12 then 0 else h
    ensures !IsPm(meridiem) && !IsAm(meridiem) ==> To24h(h, IsPm(meridiem), IsAm(meridiem)) == h
  {
    MeridiemsExclusive(meridiem);
  }

  /** A readable time keeps its minute, and its hour follows the meridiem
      rule on the trimmed text after the space. */
  lemma ParseTime12hParts(s: string, time: string, meridiem: string, hs: string, ms: string)
    requires SplitOnce(s, " ") == Some((time, meridiem)) && SplitOnce(time, ":") == Some((hs, ms))
    requires ParseU32(hs).Some? && ParseU32(ms).Some?
    ensures var mer := Trim(meridiem);
      ParseTime12h(s) == Some((To24h(ParseU32(hs).value, IsPm(mer), IsAm(mer)), ParseU32(ms).value))
  {
  }

  /** Two decimal digits, as wttr.in writes hours and minutes. */
  function Pad2(n: nat): (r: string)
    requires n < 100
    ensures AllDigits(r) && |r| > 0 && DigitsValue(r) == n
  {
    if n < 10 then
      var r := ['0', DigitChar(n)];
      assert r[..1] == ['0'] && ['0'][..0] == [];
      assert DigitsValue(['0']) == 0;
      r
    else NatToString(n)
  }

  /** A time of day written the way wttr.in writes sunrise and sunset. */
  function Format12h(h: nat, m: nat): string
    requires h < 24 && m < 60
  {
    Pad2(Hour12(h)) + ":" + Pad2(m) + " " + Meridiem(h)
  }

  /** The hour on a 12-hour clock face. */
  function Hour12(h: nat): (r: nat)
    requires h < 24
    ensures 1 <= r <= 12
    ensures h < 12 ==> r == if h == 0 then 12 else h
    ensures h >= 12 ==> r == if h == 12 then 12 else h - 12
  {
    if h % 12 == 0 then 12 else h % 12
  }

  function Meridiem(h: nat): string {
    if h < 12 then "AM" else "PM"
  }

  /** The meridiem rule undoes the 12-hour clock face. */
  lemma To24hUndoesHour12(h: nat)
    requires h < 24
    ensures To24h(Hour12(h), IsPm(Trim(Meridiem(h))), IsAm(Trim(Meridiem(h)))) == h
  {
    var mer := Meridiem(h);
    PlainMeridiems();
    if h < 12 {
      assert mer == "AM";
      assert !IsPm(Trim(mer)) && IsAm(Trim(mer));
      AmHour(h);
    } else {
      assert mer == "PM";
      assert IsPm(Trim(mer)) && !IsAm(Trim(mer));
      PmHour(h);
    }
  }

  lemma AmHour(h: nat)
    requires h < 12
    ensures To24h(Hour12(h), false, true) == h
  {
  }

  lemma PmHour(h: nat)
    requires 12 <= h < 24
    ensures To24h(Hour12(h), true, false) == h
  {
  }

  /** A time written as digits, a colon, digits, a space and a meridiem
      reads back as its two numbers, the hour passed through the meridiem
      rule. */
  lemma ParseWrittenTime(hs: string, ms: string, mer: string)
    requires |hs| > 0 && AllDigits(hs) && DigitsValue(hs) <= U32_MAX
    requires |ms| > 0 && AllDigits(ms) && DigitsValue(ms) <= U32_MAX
    ensures ParseTime12h(hs + ":" + ms + " " + mer) == Some((To24h(DigitsValue(hs), IsPm(Trim(mer)), IsAm(Trim(mer))), DigitsValue(ms)))
  {
    var time := hs + ":" + ms;
    DigitsHaveNo(hs, ':');
    DigitsHaveNo(hs, ' ');
    DigitsHaveNo(ms, ' ');
    assert ' ' !in time;
    SplitOnceAfterPrefix(time, " ", mer);
    SplitOnceAfterPrefix(hs, ":", ms);
    ParseDigits(hs);
    ParseDigits(ms);
    ParseTime12hParts(time + " " + mer, time, mer, hs, ms);
  }

  /** Parsing a time written in wttr.in's format gives back the hour and
      minute on a 24-hour clock. */
  lemma ParseFormat12h(h: nat, m: nat)
    requires h < 24 && m < 60
    ensures ParseTime12h(Format12h(h, m)) == Some((h, m))
  {
    ParseWrittenTime(Pad2(Hour12(h)), Pad2(m), Meridiem(h));
    To24hUndoesHour12(h);
  }

  /** Whether it is dark at `hour:minute`, given the report's sunrise and
      sunset; an unreadable sunrise counts as 06:00 and an unreadable sunset
      as 18:00. The clock reading is a parameter. */
  predicate IsDarkNow(sunrise: string, sunset: string, hour: nat, minute: nat) {
    var (sh, sm) := ParseTime12h(sunrise).UnwrapOr((6, 0));
    var (eh, em) := ParseTime12h(sunset).UnwrapOr((18, 0));
    var beforeSunrise := hour < sh || (hour == sh && minute < sm);
    var afterSunset := hour > eh || (hour == eh && minute > em);
    beforeSunrise || afterSunset
  }

  /** With minutes below sixty, darkness is a comparison of minutes since
      midnight: strictly before sunrise or strictly after sunset. */
  lemma IsDarkNowByMinutes(sunrise: string, sunset: string, hour: nat, minute: nat)
    requires minute < 60
    requires ParseTime12h(sunrise).UnwrapOr((6, 0)).1 < 60
    requires ParseTime12h(sunset).UnwrapOr((18, 0)).1 < 60
    ensures var (sh, sm) := ParseTime12h(sunrise).UnwrapOr((6, 0));
      var (eh, em) := ParseTime12h(sunset).UnwrapOr((18, 0));
      IsDarkNow(sunrise, sunset, hour, minute) <==>
        hour * 60 + minute < sh * 60 + sm || hour * 60 + minute > eh * 60 + em
  {
    var (sh, sm) := ParseTime12h(sunrise).UnwrapOr((6, 0));
    var (eh, em) := ParseTime12h(sunset).UnwrapOr((18, 0));
    MinutesCompare(hour, minute, sh, sm);
    MinutesCompare(eh, em, hour, minute);
  }

  lemma MinutesCompare(h1: nat, m1: nat, h2: nat, m2: nat)
    requires m1 < 60 && m2 < 60
    ensures h1 * 60 + m1 < h2 * 60 + m2 <==> h1 < h2 || (h1 == h2 && m1 < m2)
  {
    if h1 < h2 {
      assert h1 * 60 + m1 < (h1 + 1) * 60 <= h2 * 60;
    } else if h1 > h2 {
      assert h2 * 60 + m2 < (h2 + 1) * 60 <= h1 * 60;
    }
  }

  // ---------------------------------------------------------------------
  // Icons
  // ---------------------------------------------------------------------

  /** The wttr.in weather codes of each group whose icon ignores the hour. */
  const FogCodes: set<string> := {"143", "248", "260"}
  const RainShowerCodes: set<string> := {"176", "263", "266", "293", "296", "353"}
  const RainCodes: set<string> := {"299", "302", "305", "308", "311", "314", "356", "359"}
  const ThunderCodes: set<string> := {"200", "386", "389", "392", "395"}
  const SnowShowerCodes: set<string> := {"182", "185", "317", "320", "350", "362", "365"}
  const SnowCodes: set<string> := {"179", "223", "227", "230", "323", "326", "329", "332", "335", "338", "368", "371"}

  /** The icon for a weather code, by day or by night. */
  function MapIcon(code: string, dark: bool): WeatherIcon {
    if code == "113" then (if dark then Moon else Sunny)
    else if code == "116" then (if dark then PartlyCloudyNight else PartlyCloudyDay)
    else if code == "119" || code == "122" then (if dark then PartlyCloudyNight else Cloudy)
    else if code in FogCodes then Fog
    else if code in RainShowerCodes then RainShowersDay
    else if code in RainCodes then Rain
    else if code in ThunderCodes then Thunderstorm
    else if code in SnowShowerCodes then SnowShowerDay
    else if code in SnowCodes then Snow
    else if dark then Moon else Cloudy
  }

  /** Every code the worker knows about. */
  ghost predicate Listed(code: string) {
    code in {"113", "116", "119", "122"} || code in FogCodes || code in RainShowerCodes || code in RainCodes
    || code in ThunderCodes || code in SnowShowerCodes || code in SnowCodes
  }

  /** Darkness changes the icon exactly for clear, partly cloudy, cloudy,
      overcast and unlisted codes; the fog, rain, snow and thunder groups
      look the same by day and night. */
  lemma DarknessMatters(code: string)
    ensures MapIcon(code, true) != MapIcon(code, false) <==> code in {"113", "116", "119", "122"} || !Listed(code)
  {
  }

  /** Clear sky is the moon by night and the sun by day; an unlisted code
      is the moon by night and a cloud by day. */
  lemma ClearAndUnlisted(code: string, dark: bool)
    ensures code == "113" ==> MapIcon(code, dark) == (if dark then Moon else Sunny)
    ensures !Listed(code) ==> MapIcon(code, dark) == (if dark then Moon else Cloudy)
  {
  }

  // ---------------------------------------------------------------------
  // One fetch
  // ---------------------------------------------------------------------

  /** The published state for a decoded report at `hour:minute`: the first
      current condition, the first day's first astronomy entry, the
      temperature in Fahrenheit (0 when unreadable) and the first
      description (`Unknown` when there is none). */
  function ReadReport(report: Report, hour: nat, minute: nat): (r: Result<WeatherState, string>)
    ensures r.Ok? <==> report.currentCondition != [] && report.weather != [] && report.weather[0] != []
    ensures r.Ok? ==> r.value.temperature == ParseI32(report.currentCondition[0].tempF).UnwrapOr(0)
    ensures r.Ok? ==> var astro := report.weather[0][0];
      r.value.icon == MapIcon(report.currentCondition[0].weatherCode, IsDarkNow(astro.sunrise, astro.sunset, hour, minute))
  {
    if report.currentCondition == [] then Err("missing current_condition")
    else if report.weather == [] then Err("missing weather[0]")
    else if report.weather[0] == [] then Err("missing astronomy[0]")
    else
      var current := report.currentCondition[0];
      var astro := report.weather[0][0];
      var desc := if current.weatherDesc != [] then current.weatherDesc[0] else "Unknown";
      Ok(WeatherState(
        ParseI32(current.tempF).UnwrapOr(0),
        desc,
        MapIcon(current.weatherCode, IsDarkNow(astro.sunrise, astro.sunset, hour, minute))))
  }

  // ---------------------------------------------------------------------
  // Backoff
  // ---------------------------------------------------------------------

  /** Seconds to wait after a failure: 60 after the first, then double the
      previous wait, kept between 60 and 300. */
  function NextBackoff(prev: Option<nat>): (r: nat)
    ensures 60 <= r <= 300
    ensures prev.Some? && 30 <= prev.value <= 150 ==> r == 2 * prev.value
  {
    match prev
    case None => 60
    case Some(s) => if s * 2 < 60 then 60 else if s * 2 > 300 then 300 else s * 2
  }

  /** The backoff after `failures` failures in a row. */
  function BackoffAfter(failures: nat): Option<nat> {
    if failures == 0 then None else Some(NextBackoff(BackoffAfter(failures - 1)))
  }

  /** Successive failures wait 60, 120, 240 seconds, then 300 from then on. */
  lemma {:induction false} BackoffSchedule(failures: nat)
    ensures failures == 0 ==> BackoffAfter(failures).None?
    ensures failures >= 1 ==> (BackoffAfter(failures) ==
      Some(if failures == 1 then 60 else if failures == 2 then 120 else if failures == 3 then 240 else 300))
  {
    if failures > 1 {
      BackoffSchedule(failures - 1);
    }
  }

  /** One turn of the polling loop as written: a success publishes the data,
      resets the backoff and goes straight on to the next fetch without
      waiting (`continue` skips the sleep); a failure publishes `Abort`,
      advances the backoff and sleeps that many seconds. Returns the message,
      the new backoff and the wait, if any. */
  function PollStepAsWritten(backoff: Option<nat>, fetched: Result<WeatherState, string>): (Msg, Option<nat>, Option<nat>) {
    match fetched
    case Ok(data) => (Finish(data), None, None)
    case Err(_) =>
      var next := Some(NextBackoff(backoff));
      (Abort, next, Some(next.UnwrapOr(600)))
  }

  /** After a success the loop as written never sleeps, so the 600-second
      cadence it falls back to is never used. */
  lemma SuccessSkipsWait(backoff: Option<nat>, data: WeatherState)
    ensures PollStepAsWritten(backoff, Ok(data)).2 == None
    ensures forall e :: PollStepAsWritten(backoff, Err(e)).2.Some? && PollStepAsWritten(backoff, Err(e)).2.value <= 300
  {
  }

  /** One turn of the polling loop with the sleep after a success too: the
      wait is the backoff, or 600 seconds when there is none. */
  function PollStep(backoff: Option<nat>, fetched: Result<WeatherState, string>): (r: (Msg, Option<nat>, nat))
    ensures fetched.Ok? ==> r.2 == 600 && r.1.None?
    ensures fetched.Err? ==> r.1 == Some(NextBackoff(backoff)) && r.2 == r.1.value
    ensures 60 <= r.2 <= 600
  {
    match fetched
    case Ok(data) => (Finish(data), None, 600)
    case Err(_) =>
      var next := Some(NextBackoff(backoff));
      (Abort, next, next.UnwrapOr(600))
  }

  /** Both loops publish the same messages and keep the same backoff; only
      the wait after a success differs. */
  lemma PollStepAgrees(backoff: Option<nat>, fetched: Result<WeatherState, string>)
    ensures PollStep(backoff, fetched).0 == PollStepAsWritten(backoff, fetched).0
    ensures PollStep(backoff, fetched).1 == PollStepAsWritten(backoff, fetched).1
    ensures fetched.Err? ==> PollStepAsWritten(backoff, fetched).2 == Some(PollStep(backoff, fetched).2)
  {
  }

  /** The number of failures at the end of a run of fetch outcomes. */
  function TrailingFailures(outcomes: seq<Result<WeatherState, string>>): (n: nat)
    ensures n <= |outcomes|
  {
    if outcomes == [] || outcomes[|outcomes| - 1].Ok? then 0
    else TrailingFailures(outcomes[..|outcomes| - 1]) + 1
  }

  function Pow2(n: nat): (p: nat)
    ensures p >= 1
  {
    if n == 0 then 1 else 2 * Pow2(n - 1)
  }

  lemma {:induction false} Pow2AtLeast8(n: nat)
    requires n >= 3
    ensures Pow2(n) >= 8
  {
    if n > 3 {
      Pow2AtLeast8(n - 1);
    }
  }

  /** The wait after a fetch that ends `failures` failures in a row: 600
      seconds after a success, otherwise 60 seconds doubled for each earlier
      failure of the run, capped at 300. */
  function WaitAfter(failures: nat): nat {
    if failures == 0 then 600
    else if 60 * Pow2(failures - 1) > 300 then 300
    else 60 * Pow2(failures - 1)
  }

  /** The backoff doubles from 60 seconds with each failure in a row, up to
      300 seconds. */
  lemma BackoffChain(failures: nat)
    requires failures >= 1
    ensures BackoffAfter(failures) == Some(WaitAfter(failures))
  {
    BackoffSchedule(failures);
    if failures >= 4 {
      Pow2AtLeast8(failures - 1);
    }
  }

  /** The backoff the polling loop holds after a run of fetch outcomes. */
  function BackoffBefore(outcomes: seq<Result<WeatherState, string>>): Option<nat> {
    if outcomes == [] then None
    else PollStep(BackoffBefore(outcomes[..|outcomes| - 1]), outcomes[|outcomes| - 1]).1
  }

  /** The loop's backoff is the one `failures` failures in a row give, the
      failures being those at the end of the run. */
  lemma {:induction false} BackoffBeforeChain(outcomes: seq<Result<WeatherState, string>>)
    ensures BackoffBefore(outcomes) == BackoffAfter(TrailingFailures(outcomes))
  {
    if outcomes != [] {
      BackoffBeforeChain(outcomes[..|outcomes| - 1]);
    }
  }

  /** One more outcome moves the loop's backoff on by one turn. */
  lemma BackoffBeforeStep(outcomes: seq<Result<WeatherState, string>>, i: nat)
    requires i < |outcomes|
    ensures BackoffBefore(outcomes[..i + 1]) == PollStep(BackoffBefore(outcomes[..i]), outcomes[i]).1
  {
    assert outcomes[..i + 1][..i] == outcomes[..i];
  }

  /** The turn of the polling loop for the k-th outcome, taken with the
      backoff the earlier outcomes left. */
  function Turn(outcomes: seq<Result<WeatherState, string>>, k: nat): (Msg, Option<nat>, nat)
    requires k < |outcomes|
  {
    PollStep(BackoffBefore(outcomes[..k]), outcomes[k])
  }

  /** The turn for the k-th outcome publishes the fetched data or `Abort`,
      and waits as the failures in a row ending with it say. */
  lemma PollTurn(outcomes: seq<Result<WeatherState, string>>, k: nat)
    requires k < |outcomes|
    ensures Turn(outcomes, k).0 == (if outcomes[k].Ok? then Finish(outcomes[k].value) else Abort)
    ensures Turn(outcomes, k).2 == WaitAfter(TrailingFailures(outcomes[..k + 1]))
  {
    var pre := outcomes[..k + 1];
    assert pre[..k] == outcomes[..k];
    assert pre[k] == outcomes[k];
    BackoffBeforeChain(outcomes[..k]);
    if outcomes[k].Err? {
      BackoffChain(TrailingFailures(pre));
    }
  }

  /** The messages, and the waits between fetches, of the polling loop over
      a run of fetch outcomes, with the sleep after a success: the data
      fetched or `Abort`, then 600 seconds after a success and 60, 120, 240
      and from then on 300 seconds after failures in a row. */
  method Poll(outcomes: seq<Result<WeatherState, string>>) returns (msgs: seq<Msg>, waits: seq<nat>)
    ensures |msgs| == |waits| == |outcomes|
    ensures forall k :: 0 <= k < |outcomes| ==> msgs[k] == Turn(outcomes, k).0 && waits[k] == Turn(outcomes, k).2
    ensures forall k :: 0 <= k < |outcomes| ==>
      msgs[k] == (if outcomes[k].Ok? then Finish(outcomes[k].value) else Abort)
    ensures forall k :: 0 <= k < |outcomes| ==> waits[k] == WaitAfter(TrailingFailures(outcomes[..k + 1]))
    ensures forall k :: 0 <= k < |outcomes| ==> 60 <= waits[k] <= 600
    ensures forall k :: 0 <= k < |outcomes| && outcomes[k].Ok? ==> waits[k] == 600
    ensures forall k :: 0 <= k < |outcomes| && outcomes[k].Err? ==> waits[k] <= 300
  {
    var backoff: Option<nat> := None;
    msgs, waits := [], [];
    var i := 0;
    while i < |outcomes|
      invariant 0 <= i <= |outcomes|
      invariant |msgs| == |waits| == i
      invariant backoff == BackoffBefore(outcomes[..i])
      invariant forall k :: 0 <= k < i ==> msgs[k] == Turn(outcomes, k).0 && waits[k] == Turn(outcomes, k).2
    {
      var step := PollStep(backoff, outcomes[i]);
      BackoffBeforeStep(outcomes, i);
      msgs := msgs + [step.0];
      waits := waits + [step.2];
      backoff := step.1;
      i := i + 1;
    }
    PollTurns(outcomes, msgs, waits);
  }

  /** Every turn of a run publishes and waits as `PollTurn` says. */
  lemma PollTurns(outcomes: seq<Result<WeatherState, string>>, msgs: seq<Msg>, waits: seq<nat>)
    requires |msgs| == |waits| == |outcomes|
    requires forall k :: 0 <= k < |outcomes| ==> msgs[k] == Turn(outcomes, k).0 && waits[k] == Turn(outcomes, k).2
    ensures forall k :: 0 <= k < |outcomes| ==>
      msgs[k] == (if outcomes[k].Ok? then Finish(outcomes[k].value) else Abort)
    ensures forall k :: 0 <= k < |outcomes| ==> waits[k] == WaitAfter(TrailingFailures(outcomes[..k + 1]))
    ensures forall k :: 0 <= k < |outcomes| ==> 60 <= waits[k] <= 600
    ensures forall k :: 0 <= k < |outcomes| && outcomes[k].Ok? ==> waits[k] == 600
    ensures forall k :: 0 <= k < |outcomes| && outcomes[k].Err? ==> waits[k] <= 300
  {
    forall k | 0 <= k < |outcomes|
      ensures msgs[k] == (if outcomes[k].Ok? then Finish(outcomes[k].value) else Abort)
      ensures waits[k] == WaitAfter(TrailingFailures(outcomes[..k + 1]))
      ensures 60 <= waits[k] <= 600
      ensures outcomes[k].Ok? ==> waits[k] == 600
      ensures outcomes[k].Err? ==> waits[k] <= 300
    {
      PollTurn(outcomes, k);
    }
  }

  // ---------------------------------------------------------------------
  // The shared slot
  // ---------------------------------------------------------------------

  /** The shared weather slot the worker writes and widgets read. */
  class WeatherSlot {
    var state: Option<WeatherState>

    constructor ()
      ensures state == None
    {
      state := None;
    }

    /** `Abort` clears the slot; `Finish` stores the data. */
    method Update(msg: Msg)
      modifies this
      ensures msg.Abort? ==> state == None
      ensures msg.Finish? ==> state == Some(msg.data)
    {
      match msg
      case Abort => state := None;
      case Finish(data) => state := Some(data);
    }
  }
}
