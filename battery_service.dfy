/** The battery service object: it finds the battery under
    `/sys/class/power_supply`, reads its capacity, status and energy files
    every ten seconds and exposes a percentage, a charging flag and an
    estimate of the minutes remaining. File contents are inputs: a file that
    cannot be read, or whose number does not parse, is `None`. */
module BatteryService {
  import opened Wrappers
  import opened RustText

  datatype BatteryStatus = Unknown | Charging | Discharging | NotCharging | Full

  /** The words the kernel writes to the `status` file. */
  function StatusText(s: BatteryStatus): string {
    match s
    case Unknown => "Unknown"
    case Charging => "Charging"
    case Discharging => "Discharging"
    case NotCharging => "Not charging"
    case Full => "Full"
  }

  /** The status for the `status` file's contents, trimmed. */
  function StatusFrom(contents: string): BatteryStatus {
    match Trim(contents)
    case "Charging" => Charging
    case "Discharging" => Discharging
    case "Not charging" => NotCharging
    case "Full" => Full
    case _ => Unknown
  }

  /** The four known words map to their statuses, and anything else to
      `Unknown`. */
  lemma StatusRoundTrip(s: BatteryStatus, contents: string)
    ensures StatusFrom(StatusText(s)) == s
    ensures Trim(contents) !in {"Charging", "Discharging", "Not charging", "Full"} ==> StatusFrom(contents) == Unknown
  {
    var t := StatusText(s);
    assert t != [] && !IsWhitespace(t[0]) && !IsWhitespace(t[|t| - 1]);
    TrimKeepsTrimmed(t);
  }

  // ---------------------------------------------------------------------
  // Finding the battery
  // ---------------------------------------------------------------------

  /** One entry of the power-supply directory: its path (`None` when the
      entry itself cannot be read) and the contents of its `type` file. */
  datatype DirEntry = DirEntry(path: Option<string>, typeFile: Option<string>)

  predicate IsBattery(e: DirEntry) {
    e.typeFile.Some? && Trim(e.typeFile.value) == "Battery"
  }

  /** The first battery among the entries; an unreadable entry before it
      ends the search with an error. */
  function FindBattery(entries: seq<DirEntry>): Result<string, string> {
    if entries == [] then Err("No battery found")
    else if entries[0].path.None? then Err("unreadable directory entry")
    else if IsBattery(entries[0]) then Ok(entries[0].path.value)
    else FindBattery(entries[1..])
  }

  /** `detect_battery`: `None` is a directory that cannot be listed. */
  function DetectBattery(dir: Option<seq<DirEntry>>): Result<string, string> {
    if dir.None? then Err("cannot read /sys/class/power_supply") else FindBattery(dir.value)
  }

  /** Entry `i` is a battery and every entry before it is readable and not
      a battery. */
  predicate FirstBatteryAt(entries: seq<DirEntry>, i: int) {
    && 0 <= i < |entries| && entries[i].path.Some? && IsBattery(entries[i])
    && forall j :: 0 <= j < i ==> entries[j].path.Some? && !IsBattery(entries[j])
  }

  /** Past a readable non-battery head, the first battery moves down by one. */
  lemma FirstBatteryShift(entries: seq<DirEntry>, i: int)
    requires entries != [] && entries[0].path.Some? && !IsBattery(entries[0])
    ensures FirstBatteryAt(entries, i + 1) <==> FirstBatteryAt(entries[1..], i)
  {
    if FirstBatteryAt(entries[1..], i) {
      forall j | 1 <= j < i + 1 ensures entries[j].path.Some? && !IsBattery(entries[j]) {
        assert entries[j] == entries[1..][j - 1];
      }
    }
    if FirstBatteryAt(entries, i + 1) {
      forall j | 0 <= j < i ensures entries[1..][j].path.Some? && !IsBattery(entries[1..][j]) {
        assert entries[1..][j] == entries[j + 1];
      }
    }
  }

  /** The battery found is the path of the first entry whose type reads
      "Battery", every entry before it being readable and not a battery. */
  lemma {:induction false} FindBatteryFirst(entries: seq<DirEntry>, path: string)
    ensures FindBattery(entries) == Ok(path) <==>
      exists i :: FirstBatteryAt(entries, i) && entries[i].path == Some(path)
  {
    if entries != [] && entries[0].path.Some? && !IsBattery(entries[0]) {
      FindBatteryFirst(entries[1..], path);
      if FindBattery(entries) == Ok(path) {
        var i :| FirstBatteryAt(entries[1..], i) && entries[1..][i].path == Some(path);
        FirstBatteryShift(entries, i);
        assert FirstBatteryAt(entries, i + 1) && entries[i + 1].path == Some(path);
      }
      if exists i :: FirstBatteryAt(entries, i) && entries[i].path == Some(path) {
        var i :| FirstBatteryAt(entries, i) && entries[i].path == Some(path);
        assert i != 0;
        FirstBatteryShift(entries, i - 1);
        assert FirstBatteryAt(entries[1..], i - 1) && entries[1..][i - 1].path == Some(path);
      }
    } else if entries != [] && entries[0].path.Some? {
      assert FirstBatteryAt(entries, 0);
      forall i | FirstBatteryAt(entries, i) ensures i == 0 {}
    } else if entries != [] {
      forall i | 0 <= i < |entries| ensures !FirstBatteryAt(entries, i) {
        if i > 0 {
          assert entries[0].path.None?;
        }
      }
    }
  }

  /** The directory walk as written: a loop over the entries that returns at
      the first battery. */
  method DetectBatteryLoop(dir: Option<seq<DirEntry>>) returns (r: Result<string, string>)
    ensures r == DetectBattery(dir)
  {
    if dir.None? {
      return Err("cannot read /sys/class/power_supply");
    }
    var entries := dir.value;
    var i := 0;
    while i < |entries|
      invariant 0 <= i <= |entries|
      invariant FindBattery(entries[i..]) == FindBattery(entries)
    {
      assert entries[i..][0] == entries[i] && entries[i..][1..] == entries[i + 1..];
      var entry := entries[i];
      if entry.path.None? {
        return Err("unreadable directory entry");
      }
      if entry.typeFile.Some? && Trim(entry.typeFile.value) == "Battery" {
        return Ok(entry.path.value);
      }
      i := i + 1;
    }
    r := Err("No battery found");
  }

  // ---------------------------------------------------------------------
  // Time remaining
  // ---------------------------------------------------------------------

  /** `x as i32` for a finite `x`: rounds toward zero and saturates. */
  function TruncToI32(x: real): (r: int)
    ensures I32_MIN <= r <= I32_MAX
    ensures I32_MIN as real < x < I32_MAX as real && x >= 0.0 ==> r as real <= x < r as real + 1.0
    ensures I32_MIN as real < x < I32_MAX as real && x < 0.0 ==> r as real - 1.0 < x <= r as real
  {
    if x >= I32_MAX as real then I32_MAX
    else if x <= I32_MIN as real then I32_MIN
    else if x >= 0.0 then x.Floor
    else -((-x).Floor)
  }

  /** The power and energy files: `power_now`, `energy_now`, `energy_full`. */
  datatype EnergyReading = EnergyReading(powerNow: real, energyNow: real, energyFull: real)

  /** Minutes remaining from the energy files, when they are all readable
      and the power is positive: to full while charging, to empty while
      discharging, and -1 for every other status. */
  function EnergyEstimate(status: BatteryStatus, e: EnergyReading): int
    requires e.powerNow > 0.0
  {
    match status
    case Charging => TruncToI32((e.energyFull - e.energyNow) / e.powerNow * 60.0)
    case Discharging => TruncToI32(e.energyNow / e.powerNow * 60.0)
    case _ => -1
  }

  /** `calculate_time_remaining` for a charge `fraction` in 0 to 1: the
      energy estimate when possible, otherwise eight hours for a full battery
      when discharging and two hours from empty when charging. */
  function TimeRemaining(status: BatteryStatus, fraction: real, energy: Option<EnergyReading>): int {
    if energy.Some? && energy.value.powerNow > 0.0 then EnergyEstimate(status, energy.value)
    else
      match status
      case Discharging => TruncToI32(fraction * 8.0 * 60.0)
      case Charging => TruncToI32((1.0 - fraction) * 2.0 * 60.0)
      case _ => -1
  }

  /** Only charging and discharging have an estimate; without usable energy
      files, a charge between 0 and 1 gives at most 480 minutes to empty and
      at most 120 to full, each the whole minutes of the linear estimate. */
  lemma TimeRemainingRules(status: BatteryStatus, fraction: real, energy: Option<EnergyReading>)
    ensures status !in {Charging, Discharging} ==> TimeRemaining(status, fraction, energy) == -1
    ensures (energy.None? || energy.value.powerNow <= 0.0) && 0.0 <= fraction <= 1.0 ==>
      && (status == Discharging ==>
            var r := TimeRemaining(status, fraction, energy);
            0 <= r <= 480 && r as real <= fraction * 480.0 < r as real + 1.0)
      && (status == Charging ==>
            var r := TimeRemaining(status, fraction, energy);
            0 <= r <= 120 && r as real <= (1.0 - fraction) * 120.0 < r as real + 1.0)
  {
  }

  /** The minutes as the tile shows them. */
  function FormatTimeRemaining(minutes: int): string {
    if minutes < 0 then "Unknown"
    else if minutes / 60 > 0 then NatToString(minutes / 60) + "h " + NatToString(minutes % 60) + "m"
    else NatToString(minutes % 60) + "m"
  }

  /** Reads a formatted time back: "{h}h {m}m" or "{m}m". */
  function ParseTimeRemaining(s: string): Option<nat> {
    if |s| == 0 || s[|s| - 1] != 'm' then None
    else
      var body := s[..|s| - 1];
      match SplitOnce(body, "h ")
      case Some((h, m)) =>
        if ParseU32(h).Some? && ParseU32(m).Some? then Some(ParseU32(h).value * 60 + ParseU32(m).value) else None
      case None => ParseU32(body)
  }

  /** An hour count above zero: "{h}h {m}m" reads back. */
  lemma FormatHoursRoundTrip(minutes: nat)
    requires minutes <= I32_MAX && minutes / 60 > 0
    ensures ParseTimeRemaining(FormatTimeRemaining(minutes)) == Some(minutes)
  {
    var hs, ms := NatToString(minutes / 60), NatToString(minutes % 60);
    var s := FormatTimeRemaining(minutes);
    assert s == hs + "h " + ms + "m";
    assert s[..|s| - 1] == hs + "h " + ms;
    DigitsHaveNo(hs, 'h');
    SplitOnceAfterPrefix(hs, "h ", ms);
    ParseU32RoundTrip(minutes % 60);
    ParseU32RoundTrip(minutes / 60);
  }

  /** Under an hour: "{m}m" reads back. */
  lemma FormatMinutesRoundTrip(minutes: nat)
    requires minutes < 60
    ensures ParseTimeRemaining(FormatTimeRemaining(minutes)) == Some(minutes)
  {
    var ms := NatToString(minutes % 60);
    var s := FormatTimeRemaining(minutes);
    assert s == ms + "m";
    assert s[..|s| - 1] == ms;
    DigitsHaveNo(ms, 'h');
    forall j | 0 <= j <= |ms| ensures !MatchesAt(ms, "h ", j) {
      if j + 2 <= |ms| {
        assert ms[j..j + 2][0] == ms[j] != 'h';
      }
    }
    ParseU32RoundTrip(minutes % 60);
  }

  /** A non-negative minute count reads back from its text; a negative one
      is shown as "Unknown", which reads as nothing. */
  lemma FormatRoundTrip(minutes: int)
    requires minutes <= I32_MAX
    ensures minutes >= 0 ==> ParseTimeRemaining(FormatTimeRemaining(minutes)) == Some(minutes)
    ensures FormatTimeRemaining(minutes) == "Unknown" <==> minutes < 0
    ensures minutes < 0 ==> ParseTimeRemaining(FormatTimeRemaining(minutes)).None?
  {
    if minutes >= 0 {
      if minutes / 60 > 0 {
        FormatHoursRoundTrip(minutes);
      } else {
        FormatMinutesRoundTrip(minutes);
      }
      var s := FormatTimeRemaining(minutes);
      assert IsDigit(s[0]);
    }
  }

  /** Low is under 15 % and critical under 5 %, both only while not
      charging. */
  predicate IsLow(percentage: real, charging: bool) {
    percentage < 0.15 && !charging
  }

  predicate IsCritical(percentage: real, charging: bool) {
    percentage < 0.05 && !charging
  }

  /** A critical battery is also low, and neither holds while charging. */
  lemma CriticalIsLow(percentage: real, charging: bool)
    ensures IsCritical(percentage, charging) ==> IsLow(percentage, charging)
    ensures charging ==> !IsLow(percentage, charging) && !IsCritical(percentage, charging)
  {
  }

  /** One reading of the battery: charge fraction, status and minutes. */
  datatype BatteryReading = BatteryReading(percentage: real, status: BatteryStatus, timeRemaining: int)

  /** `read_battery_state`: the capacity (already parsed as a number of
      percent) and the status file are required; the energy files are
      optional. */
  function ReadBatteryState(capacity: Option<real>, statusFile: Option<string>, energy: Option<EnergyReading>): (r: Option<BatteryReading>)
    ensures r.Some? <==> capacity.Some? && statusFile.Some?
  {
    if capacity.None? || statusFile.None? then None
    else
      var fraction := capacity.value / 100.0;
      var status := StatusFrom(statusFile.value);
      Some(BatteryReading(fraction, status, TimeRemaining(status, fraction, energy)))
  }

  class BatteryServiceObject {
    var percentage: real
    var available: bool
    var charging: bool
    var timeRemaining: int
    var batteryPath: string
    var status: BatteryStatus

    /** `constructed`: with a battery found the service is available and
        takes the first reading when there is one; without a battery it is
        unavailable. Unset properties keep their defaults (0, not charging,
        0 minutes, `Unknown`). */
    constructor (detected: Result<string, string>, initial: Option<BatteryReading>)
      ensures available == detected.Ok?
      ensures batteryPath == (if detected.Ok? then detected.value else "")
      ensures detected.Ok? && initial.Some? ==>
        && percentage == initial.value.percentage && status == initial.value.status
        && charging == (initial.value.status == Charging) && timeRemaining == initial.value.timeRemaining
      ensures detected.Err? || initial.None? ==>
        percentage == 0.0 && !charging && timeRemaining == 0 && status == Unknown
    {
      percentage := 0.0;
      charging := false;
      timeRemaining := 0;
      status := Unknown;
      batteryPath := "";
      available := false;
      if detected.Ok? {
        batteryPath := detected.value;
        available := true;
        if initial.Some? {
          percentage := initial.value.percentage;
          status := initial.value.status;
          charging := initial.value.status == Charging;
          timeRemaining := initial.value.timeRemaining;
        }
      }
    }

    /** One ten-second poll: the percentage moves only by more than 0.01;
        the charging flag, the minutes and the status follow the reading. A
        failed reading changes nothing. */
    method Poll(reading: Option<BatteryReading>)
      modifies this`percentage, this`charging, this`timeRemaining, this`status
      ensures reading.None? ==>
        && percentage == old(percentage) && charging == old(charging)
        && timeRemaining == old(timeRemaining) && status == old(status)
      ensures reading.Some? ==>
        && (var d := old(percentage) - reading.value.percentage;
            percentage == if d > 0.01 || d < -0.01 then reading.value.percentage else old(percentage))
        && -0.01 <= percentage - reading.value.percentage <= 0.01
        && charging == (reading.value.status == Charging)
        && timeRemaining == reading.value.timeRemaining
        && status == reading.value.status
    {
      if reading.Some? {
        var r := reading.value;
        var d := percentage - r.percentage;
        if (if d < 0.0 then -d else d) > 0.01 {
          percentage := r.percentage;
        }
        var isCharging := r.status == Charging;
        if charging != isCharging {
          charging := isCharging;
        }
        if timeRemaining != r.timeRemaining {
          timeRemaining := r.timeRemaining;
        }
        status := r.status;
      }
    }

    function Low(): bool
      reads this
    {
      IsLow(percentage, charging)
    }

    function Critical(): bool
      reads this
    {
      IsCritical(percentage, charging)
    }

    function TimeRemainingFormatted(): string
      reads this
    {
      FormatTimeRemaining(timeRemaining)
    }
  }
}
