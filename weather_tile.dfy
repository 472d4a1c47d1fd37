/** The GTK weather tile: it fetches the wttr.in report through `curl`,
    shows an icon chosen from a day and a night table, the temperature in
    Fahrenheit and a description, and refreshes at most every ten minutes. */
module WeatherTile {
  import opened Wrappers
  import opened RustText
  import Service = WeatherService

  datatype CurrentCondition = CurrentCondition(tempF: string, weatherCode: string, weatherDesc: seq<string>)
  datatype Astronomy = Astronomy(sunrise: string, sunset: string)
  datatype Report = Report(currentCondition: seq<CurrentCondition>, weather: seq<seq<Astronomy>>)

  /** The day icons, by wttr.in weather code, in table order. */
  const DayIcons: seq<(string, string)> :=
    [ ("113", "\U{F0599}"), ("116", "\U{F0595}"), ("119", "\U{F0590}"), ("122", "\U{F0590}"),
      ("143", "\U{F0591}"), ("176", "\U{F0597}"), ("179", "\U{F0598}"), ("182", "\U{F0592}"),
      ("185", "\U{F0597}"), ("200", "\U{F0593}"), ("227", "\U{F059E}"), ("230", "\U{F05A9}")] +
    [ ("248", "\U{F0591}"), ("260", "\U{F0591}"), ("263", "\U{F0597}"), ("266", "\U{F0597}"),
      ("281", "\U{F0597}"), ("284", "\U{F0596}"), ("293", "\U{F0597}"), ("296", "\U{F0597}"),
      ("299", "\U{F0596}"), ("302", "\U{F0596}"), ("305", "\U{F0596}"), ("308", "\U{F0596}")] +
    [ ("311", "\U{F0597}"), ("314", "\U{F0596}"), ("317", "\U{F067F}"), ("320", "\U{F067F}"),
      ("323", "\U{F0598}"), ("326", "\U{F0598}"), ("329", "\U{F0598}"), ("332", "\U{F0598}"),
      ("335", "\U{F0598}"), ("338", "\U{F0598}"), ("350", "\U{F0592}"), ("353", "\U{F0597}")] +
    [ ("356", "\U{F0596}"), ("359", "\U{F0596}"), ("362", "\U{F067F}"), ("365", "\U{F067F}"),
      ("368", "\U{F0598}"), ("371", "\U{F0598}"), ("374", "\U{F0592}"), ("377", "\U{F0592}"),
      ("386", "\U{F0593}"), ("389", "\U{F0593}"), ("392", "\U{F0593}"), ("395", "\U{F0593}")]

  /** The night icons, for the few codes that look different after dark. */
  const NightIcons: seq<(string, string)> := [
    ("113", "\U{F0594}"), ("116", "\U{F0591}"), ("323", "\U{F0598}"), ("329", "\U{F0598}"),
    ("335", "\U{F0598}"), ("386", "\U{F0597}"), ("392", "\U{F0597}")]

  const UnknownIcon: string := "\U{F0FF9}"

  /** The icon of the first entry of `table` with `code`, as the loops with an
      early return find it. */
  function Lookup(table: seq<(string, string)>, code: string): (r: Option<string>)
    ensures r.None? <==> forall k :: 0 <= k < |table| ==> table[k].0 != code
    ensures r.Some? ==> exists k :: (0 <= k < |table| && table[k] == (code, r.value)
      && forall j :: 0 <= j < k ==> table[j].0 != code)
  {
    if table == [] then None
    else if table[0].0 == code then
      assert table[0] == (code, table[0].1);
      Some(table[0].1)
    else
      var r := Lookup(table[1..], code);
      if r.Some? then
        var k :| 0 <= k < |table[1..]| && table[1..][k] == (code, r.value) && forall j :: 0 <= j < k ==> table[1..][j].0 != code;
        assert table[k + 1] == (code, r.value);
        r
      else r
  }

  /** The icon for a code: after dark the night table first, then the day
      table, then the unknown icon. */
  function WeatherIcon(code: string, isNight: bool): (icon: string)
    ensures isNight && Lookup(NightIcons, code).Some? ==> icon == Lookup(NightIcons, code).value
    ensures !isNight || Lookup(NightIcons, code).None? ==> icon == Lookup(DayIcons, code).UnwrapOr(UnknownIcon)
  {
    if isNight && Lookup(NightIcons, code).Some? then Lookup(NightIcons, code).value
    else Lookup(DayIcons, code).UnwrapOr(UnknownIcon)
  }

  /** Every night code is also a day code, so a code gets the unknown icon
      exactly when the day table lacks it, by day and by night; and by day
      the night table plays no part. */
  lemma UnknownIffNotInDayTable(code: string, isNight: bool)
    ensures WeatherIcon(code, isNight) == UnknownIcon <==> Lookup(DayIcons, code).None?
    ensures !isNight ==> WeatherIcon(code, isNight) == WeatherIcon(code, false)
  {
    forall k | 0 <= k < |DayIcons| ensures DayIcons[k].1 != UnknownIcon {
      DayIconsKnown(k);
    }
    forall k | 0 <= k < |NightIcons| ensures NightIcons[k].1 != UnknownIcon && Lookup(DayIcons, NightIcons[k].0).Some? {
      NightCodesAreDayCodes(k);
    }
    KnownLookup(DayIcons, NightIcons, code, isNight);
  }

  /** With every icon of both tables known and every night code also a day
      code, the two-table lookup gives the unknown icon exactly when the day
      table lacks the code. */
  lemma KnownLookup(day: seq<(string, string)>, night: seq<(string, string)>, code: string, isNight: bool)
    requires forall k :: 0 <= k < |day| ==> day[k].1 != UnknownIcon
    requires forall k :: 0 <= k < |night| ==> night[k].1 != UnknownIcon && Lookup(day, night[k].0).Some?
    ensures var icon := if isNight && Lookup(night, code).Some? then Lookup(night, code).value
                        else Lookup(day, code).UnwrapOr(UnknownIcon);
      icon == UnknownIcon <==> Lookup(day, code).None?
  {
    if Lookup(night, code).Some? {
      var k :| 0 <= k < |night| && night[k] == (code, Lookup(night, code).value);
    }
    if Lookup(day, code).Some? {
      var k :| 0 <= k < |day| && day[k] == (code, Lookup(day, code).value);
    }
  }

  lemma NightCodesAreDayCodes(k: nat)
    requires k < |NightIcons|
    ensures NightIcons[k].1 != UnknownIcon && Lookup(DayIcons, NightIcons[k].0).Some?
  {
    var day := [0, 1, 28, 30, 32, 44, 46];
    assert DayIcons[day[k]].0 == NightIcons[k].0;
  }

  lemma DayIconsKnown(k: nat)
    requires k < |DayIcons|
    ensures DayIcons[k].1 != UnknownIcon
  {
  }

  /** Hour and minute from a time such as `06:30 AM`: exactly two words,
      the first exactly two `:`-separated parts; anything else is noon. An
      unreadable hour counts as 12 and an unreadable minute as 0. */
  function ParseTime(s: string): (nat, nat) {
    var parts := SplitWhitespace(s);
    if |parts| != 2 then (12, 0)
    else
      var components := SplitChar(parts[0], ':');
      if |components| != 2 then (12, 0)
      else
        var hours := ParseU32(components[0]).UnwrapOr(12);
        var minutes := ParseU32(components[1]).UnwrapOr(0);
        (Convert(hours, Service.IsPm(parts[1]), Service.IsAm(parts[1])), minutes)
  }

  /** PM adds twelve to any hour but 12; otherwise AM turns 12 into 0. */
  function Convert(h: nat, pm: bool, am: bool): nat {
    if pm && h != 12 then h + 12 else if am && h == 12 then 0 else h
  }

  /** The tile's conversion agrees with the worker's on every hour and
      meridiem. */
  lemma ConvertAgrees(h: nat, meridiem: string)
    ensures Convert(h, Service.IsPm(meridiem), Service.IsAm(meridiem))
      == Service.To24h(h, Service.IsPm(meridiem), Service.IsAm(meridiem))
  {
    Service.MeridiemsExclusive(meridiem);
  }

  /** Malformed input is noon; a readable time keeps its minute, an
      unreadable hour counting as 12 before the meridiem rule. */
  lemma ParseTimeCases(s: string)
    ensures |SplitWhitespace(s)| != 2 ==> ParseTime(s) == (12, 0)
    ensures |SplitWhitespace(s)| == 2 && |SplitChar(SplitWhitespace(s)[0], ':')| != 2 ==> ParseTime(s) == (12, 0)
    ensures |SplitWhitespace(s)| == 2 && |SplitChar(SplitWhitespace(s)[0], ':')| == 2 ==>
      var components := SplitChar(SplitWhitespace(s)[0], ':');
      var meridiem := SplitWhitespace(s)[1];
      ParseTime(s) == (Convert(ParseU32(components[0]).UnwrapOr(12), Service.IsPm(meridiem), Service.IsAm(meridiem)),
                       ParseU32(components[1]).UnwrapOr(0))
  {
  }

  /** The meridiem rule: PM adds twelve to any hour but 12, AM turns 12
      into 0, anything else leaves the hour. */
  lemma ConvertRule(h: nat, meridiem: string)
    ensures Service.IsPm(meridiem) ==> Convert(h, Service.IsPm(meridiem), Service.IsAm(meridiem)) == if h == 12 then 12 else h + 12
    ensures Service.IsAm(meridiem) ==> Convert(h, Service.IsPm(meridiem), Service.IsAm(meridiem)) == if h == 12 then 0 else h
    ensures !Service.IsPm(meridiem) && !Service.IsAm(meridiem) ==> Convert(h, Service.IsPm(meridiem), Service.IsAm(meridiem)) == h
  {
    Service.MeridiemsExclusive(meridiem);
  }

  /** Whether it is dark at `hour:minute`: strictly before sunrise or
      strictly after sunset, in minutes since midnight. The clock reading is
      a parameter. */
  predicate IsDarkTime(astro: Astronomy, hour: nat, minute: nat) {
    var (rh, rm) := ParseTime(astro.sunrise);
    var (sh, sm) := ParseTime(astro.sunset);
    var now := hour * 60 + minute;
    now < rh * 60 + rm || now > sh * 60 + sm
  }

  /** The sunrise and sunset minutes themselves count as daylight, and with
      an unreadable sunrise and sunset only noon is daylight. */
  lemma DarkTimeBoundaries(astro: Astronomy)
    ensures var (rh, rm) := ParseTime(astro.sunrise);
      var (sh, sm) := ParseTime(astro.sunset);
      rh * 60 + rm <= sh * 60 + sm && rm < 60 && sm < 60 ==>
        !IsDarkTime(astro, rh, rm) && !IsDarkTime(astro, sh, sm)
    ensures ParseTime(astro.sunrise) == (12, 0) && ParseTime(astro.sunset) == (12, 0) ==>
      forall h: nat, m: nat :: m < 60 ==> (IsDarkTime(astro, h, m) <==> h != 12 || m != 0)
  {
  }

  /** Minutes since the last successful fetch decide a refresh: none yet, or
      at least ten whole minutes. Times are in seconds. */
  predicate ShouldUpdate(lastUpdate: Option<int>, now: int) {
    match lastUpdate
    case None => true
    case Some(last) => MinutesBetween(last, now) >= 10
  }

  /** `num_minutes` of a duration in seconds: truncated toward zero. */
  function MinutesBetween(last: int, now: int): int {
    var d := now - last;
    if d >= 0 then d / 60 else -((-d) / 60)
  }

  lemma ShouldUpdateAfterTenMinutes(lastUpdate: Option<int>, now: int)
    ensures ShouldUpdate(lastUpdate, now) <==> lastUpdate.None? || now - lastUpdate.value >= 600
  {
  }

  /** What the tile shows. */
  datatype Labels = Labels(visible: bool, icon: string, temp: string, desc: string)

  /** The labels after showing a report at `hour:minute`. */
  function Shown(before: Labels, weather: Report, hour: nat, minute: nat): (after: Labels)
    ensures !Displayable(weather) ==> after == before
    ensures Displayable(weather) ==> after.visible && after.temp == weather.currentCondition[0].tempF + "°"
    ensures Displayable(weather) && weather.currentCondition[0].weatherDesc == [] ==> after.desc == before.desc
  {
    if !Displayable(weather) then before
    else
      var current := weather.currentCondition[0];
      Labels(true,
        WeatherIcon(current.weatherCode, IsDarkTime(weather.weather[0][0], hour, minute)),
        current.tempF + "°",
        if current.weatherDesc != [] then current.weatherDesc[0] else before.desc)
  }

  class WeatherWidget {
    var visible: bool
    var iconText: string
    var tempText: string
    var descText: string
    var lastUpdate: Option<int>
    var currentWeather: Option<Report>

    function Current(): Labels
      reads this
    {
      Labels(visible, iconText, tempText, descText)
    }

    /** The tile starts hidden with the unknown icon, `--°` and no
        description, and has not fetched yet. */
    constructor ()
      ensures Current() == Labels(false, UnknownIcon, "--°", [])
      ensures lastUpdate.None? && currentWeather.None?
    {
      visible := false;
      iconText := UnknownIcon;
      tempText := "--°";
      descText := [];
      lastUpdate := None;
      currentWeather := None;
    }

    /** A minute tick: whether to fetch now. */
    method Tick(now: int) returns (fetch: bool)
      ensures fetch <==> ShouldUpdate(lastUpdate, now)
    {
      match lastUpdate {
        case None => fetch := true;
        case Some(last) => fetch := MinutesBetween(last, now) >= 10;
      }
    }

    /** A fetch finished: a report is shown, becomes the current report and
        marks the time, even when it lacks what the display reads; a failure
        keeps everything as it was. */
    method FetchCompleted(result: Result<Report, string>, now: int, hour: nat, minute: nat)
      modifies this
      ensures result.Err? ==> Current() == old(Current()) && lastUpdate == old(lastUpdate) && currentWeather == old(currentWeather)
      ensures result.Ok? ==> Current() == Shown(old(Current()), result.value, hour, minute)
      ensures result.Ok? ==> lastUpdate == Some(now) && currentWeather == Some(result.value)
    {
      if result.Ok? {
        UpdateDisplay(result.value, hour, minute);
        lastUpdate := Some(now);
        currentWeather := Some(result.value);
      }
    }

    /** Shows a report. Reports without a current condition, a day or an
        astronomy entry for that day are skipped. */
    method UpdateDisplay(weather: Report, hour: nat, minute: nat)
      modifies this`visible, this`iconText, this`tempText, this`descText
      ensures Current() == Shown(old(Current()), weather, hour, minute)
    {
      if !Displayable(weather) {
        return;
      }
      var current := weather.currentCondition[0];
      var astronomy := weather.weather[0][0];
      iconText := WeatherIcon(current.weatherCode, IsDarkTime(astronomy, hour, minute));
      tempText := current.tempF + "°";
      if current.weatherDesc != [] {
        descText := current.weatherDesc[0];
      }
      visible := true;
    }
  }

  /** What the refresh timer sees: a minute tick, or a fetch finishing. */
  datatype TimerEvent = Tick(now: int) | Fetched(ok: bool, at: int)

  /** Which ticks start a fetch, as written: the timer closure checks its
      own clone of the last-update cell, taken while it was still empty, and
      each fetch records its time in yet another clone, so the cell the tick
      reads stays empty and every tick fetches. */
  function TickFetchesAsWritten(events: seq<TimerEvent>): (r: seq<bool>)
    ensures |r| == |events|
  {
    var closureCopy: Option<int> := None;
    seq(|events|, k requires 0 <= k < |events| => events[k].Tick? && ShouldUpdate(closureCopy, events[k].now))
  }

  /** As written, the tile fetches on every minute tick. */
  lemma EveryTickFetchesAsWritten(events: seq<TimerEvent>)
    ensures forall k :: 0 <= k < |events| ==> (TickFetchesAsWritten(events)[k] <==> events[k].Tick?)
  {
  }

  /** Which ticks start a fetch when the timer and the fetch share one cell:
      a successful fetch records its time, and a tick fetches only if none
      is recorded or ten minutes have passed. */
  function TickFetches(last: Option<int>, events: seq<TimerEvent>): (r: seq<bool>)
    ensures |r| == |events|
    decreases |events|
  {
    if events == [] then []
    else
      match events[0]
      case Tick(now) => [ShouldUpdate(last, now)] + TickFetches(last, events[1..])
      case Fetched(ok, at) => [false] + TickFetches(if ok then Some(at) else last, events[1..])
  }

  /** With a shared cell, a tick less than ten minutes after a successful
      fetch does not fetch again, where the tile as written does. */
  lemma RecentSuccessSuppressesFetch(last: Option<int>, at: int, now: int)
    requires 0 <= now - at < 600
    ensures TickFetches(last, [Fetched(true, at), Tick(now)]) == [false, false]
    ensures TickFetchesAsWritten([Fetched(true, at), Tick(now)]) == [false, true]
  {
    assert [Fetched(true, at), Tick(now)][1..] == [Tick(now)];
    ShouldUpdateAfterTenMinutes(Some(at), now);
  }

  /** The report has what the display reads. */
  predicate Displayable(weather: Report) {
    weather.currentCondition != [] && weather.weather != [] && weather.weather[0] != []
  }

  /** The display as written checks only the condition and day lists and
      then reads the day's first astronomy entry: a report whose first day
      has no astronomy entry indexes past the end, which panics. Returns
      `None` for that panic and otherwise whether the labels are set. */
  function DisplayAsWritten(weather: Report): Option<bool> {
    if weather.currentCondition == [] || weather.weather == [] then Some(false)
    else if weather.weather[0] == [] then None
    else Some(true)
  }

  /** Such a report exists, and the guarded display handles it by skipping;
      on every other report the two agree. */
  lemma EmptyAstronomyPanics()
    ensures var r := Report([CurrentCondition("70", "113", [])], [[]]);
      DisplayAsWritten(r).None? && !Displayable(r)
    ensures forall w :: DisplayAsWritten(w).Some? ==> DisplayAsWritten(w).value == Displayable(w)
  {
  }
}
