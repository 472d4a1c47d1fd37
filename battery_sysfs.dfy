/** The predictor's raw battery reading from `/sys/class/power_supply`:
    voltage, current, present and full capacity (in energy or in charge
    units) and the charging status. File contents are inputs, already read
    and parsed: a missing or unparsable file is `None`. */
module BatterySysfs {
  import opened Wrappers
  import opened RustText
  import opened FloatValues

  /** A capacity in µAh or in µWh. */
  datatype BatteryCapacity = MicroAmpereHours(amount: nat) | MicroWattHours(amount: nat)

  predicate SameUnit(l: BatteryCapacity, r: BatteryCapacity) {
    l.MicroAmpereHours? == r.MicroAmpereHours?
  }

  /** `BatteryCapacity::div`. */
  function Div(l: BatteryCapacity, r: BatteryCapacity): (q: Option<F64>)
    ensures q.Some? <==> SameUnit(l, r)
    ensures q.Some? ==> q.value == DivNat(l.amount, r.amount)
  {
    if SameUnit(l, r) then Some(DivNat(l.amount, r.amount)) else None
  }

  datatype ChargingStatus = Charging | Discharging | Full | NotCharging

  datatype SysfsReading = SysfsReading(
    voltageNow: nat,
    currentNow: int,
    capacityNow: BatteryCapacity,
    capacityFull: BatteryCapacity,
    status: ChargingStatus)

  /** `power_watts`: µV times the magnitude of µA, in watts. It never
      fails. */
  function PowerWatts(r: SysfsReading): Option<real> {
    var current := if r.currentNow < 0 then -r.currentNow else r.currentNow;
    Some(r.voltageNow as real * current as real / 1_000_000_000_000.0)
  }

  /** The power is present, never negative, and the same whether the
      battery charges or discharges. */
  lemma PowerWattsRules(r: SysfsReading)
    ensures PowerWatts(r).Some? && PowerWatts(r).value >= 0.0
    ensures PowerWatts(r) == PowerWatts(r.(currentNow := -r.currentNow))
  {
  }

  /** `percentage`: the capacity ratio, clamped to 0 to 1. */
  function Percentage(r: SysfsReading): Option<F64> {
    match Div(r.capacityNow, r.capacityFull)
    case None => None
    case Some(q) => Some(Clamp01(q))
  }

  /** No percentage when the units differ; otherwise, for a positive full
      capacity, the ratio clamped to 0 to 1; a zero full capacity gives 1
      for a positive present capacity and not-a-number for zero. */
  lemma PercentageRules(r: SysfsReading)
    ensures Percentage(r).None? <==> !SameUnit(r.capacityNow, r.capacityFull)
    ensures SameUnit(r.capacityNow, r.capacityFull) && r.capacityFull.amount > 0 ==>
      var ratio := r.capacityNow.amount as real / r.capacityFull.amount as real;
      Percentage(r) == Some(Finite(if ratio > 1.0 then 1.0 else ratio))
    ensures SameUnit(r.capacityNow, r.capacityFull) && r.capacityFull.amount == 0 ==>
      Percentage(r) == Some(if r.capacityNow.amount > 0 then Finite(1.0) else NotANumber)
  {
  }

  /** The two readings of the unit tests: 12 V at 1.5 A is 18 W, and
      3.25 Ah of 6.5 Ah is one half. */
  lemma Examples()
    ensures PowerWatts(SysfsReading(12_000_000, 1_500_000, MicroAmpereHours(5_000_000), MicroAmpereHours(6_000_000), Discharging)) == Some(18.0)
    ensures Percentage(SysfsReading(1_000_000, 1_000_000, MicroAmpereHours(3_250_000), MicroAmpereHours(6_500_000), Discharging)) == Some(Finite(0.5))
  {
  }

  /** `read_charging_status`: the four known words, trimmed; a missing file
      or any other word counts as discharging. */
  function ChargingStatusFrom(statusFile: Option<string>): ChargingStatus {
    if statusFile.None? then Discharging
    else
      match Trim(statusFile.value)
      case "Charging" => Charging
      case "Discharging" => Discharging
      case "Full" => Full
      case "Not charging" => NotCharging
      case _ => Discharging
  }

  lemma ChargingStatusRules(contents: string)
    ensures ChargingStatusFrom(None) == Discharging
    ensures Trim(contents) == "Charging" ==> ChargingStatusFrom(Some(contents)) == Charging
    ensures Trim(contents) == "Full" ==> ChargingStatusFrom(Some(contents)) == Full
    ensures Trim(contents) == "Not charging" ==> ChargingStatusFrom(Some(contents)) == NotCharging
    ensures Trim(contents) !in {"Charging", "Full", "Not charging"} ==> ChargingStatusFrom(Some(contents)) == Discharging
  {
  }

  /** One directory entry: whether it could be read, its path, whether it
      is a directory, and its `type` file (`None` when missing or
      unreadable). */
  datatype SysfsEntry = SysfsEntry(readable: bool, path: string, isDir: bool, typeFile: Option<string>)

  predicate IsBatteryDir(e: SysfsEntry) {
    e.readable && e.isDir && e.typeFile.Some? && EqIgnoreAsciiCase(Trim(e.typeFile.value), "battery")
  }

  /** The first entry that is a battery directory; entries that fail in
      any way are skipped. */
  function FindBatteryPath(entries: seq<SysfsEntry>): Option<string> {
    match FirstWhere(entries, IsBatteryDir)
    case None => None
    case Some(i) => Some(entries[i].path)
  }

  /** The index of the first element satisfying `p`, scanning from the front. */
  function FirstWhere<T>(s: seq<T>, p: T -> bool): (r: Option<nat>)
    ensures r.Some? ==> r.value < |s| && p(s[r.value])
    ensures r.Some? ==> forall j :: 0 <= j < r.value ==> !p(s[j])
    ensures r.None? <==> forall j :: 0 <= j < |s| ==> !p(s[j])
  {
    if s == [] then None
    else if p(s[0]) then Some(0)
    else
      match FirstWhere(s[1..], p)
      case None => None
      case Some(i) => Some(i + 1)
  }

  /** `detect_battery_path` from the listing of the power-supply directory,
      `None` when it cannot be listed: a path exactly when some entry is a
      battery directory, and then the path of such an entry. */
  function DetectBatteryPath(dir: Option<seq<SysfsEntry>>): (path: Option<string>)
    ensures path.Some? <==> dir.Some? && exists i :: 0 <= i < |dir.value| && IsBatteryDir(dir.value[i])
    ensures path.Some? ==> exists i :: 0 <= i < |dir.value| && IsBatteryDir(dir.value[i]) && dir.value[i].path == path.value
  {
    if dir.None? then None
    else
      FindBatteryPathFirst(dir.value);
      FindBatteryPath(dir.value)
  }

  /** The path found is the path of a battery directory with none before
      it; nothing is found only when no entry is one. */
  lemma FindBatteryPathFirst(entries: seq<SysfsEntry>)
    ensures FindBatteryPath(entries).None? <==> forall i :: 0 <= i < |entries| ==> !IsBatteryDir(entries[i])
    ensures FindBatteryPath(entries).Some? ==>
      exists i :: 0 <= i < |entries| && IsBatteryDir(entries[i]) && entries[i].path == FindBatteryPath(entries).value
        && forall j :: 0 <= j < i ==> !IsBatteryDir(entries[j])
  {
    var k := FirstWhere(entries, IsBatteryDir);
    if k.Some? {
      var i := k.value;
      assert FindBatteryPath(entries) == Some(entries[i].path);
      assert IsBatteryDir(entries[i]);
      assert forall j :: 0 <= j < i ==> !IsBatteryDir(entries[j]);
    } else {
      assert forall j :: 0 <= j < |entries| ==> !IsBatteryDir(entries[j]);
    }
  }

  /** The files read for one reading, parsed. */
  datatype SysfsFiles = SysfsFiles(
    currentNow: Option<int>,
    voltageNow: Option<nat>,
    chargeNow: Option<nat>,
    chargeFull: Option<nat>,
    energyNow: Option<nat>,
    energyFull: Option<nat>,
    statusFile: Option<string>)

  /** `Option::or`: the first one present. */
  function Prefer(first: Option<BatteryCapacity>, second: Option<BatteryCapacity>): Option<BatteryCapacity> {
    if first.Some? then first else second
  }

  function Wh(v: Option<nat>): Option<BatteryCapacity> {
    if v.Some? then Some(MicroWattHours(v.value)) else None
  }

  function Ah(v: Option<nat>): Option<BatteryCapacity> {
    if v.Some? then Some(MicroAmpereHours(v.value)) else None
  }

  /** `read_battery_sysfs`: needs a battery, the current and the voltage, and
      for each of "now" and "full" an energy or else a charge value. */
  function ReadBatterySysfs(path: Option<string>, f: SysfsFiles): Option<SysfsReading> {
    if path.None? || f.currentNow.None? || f.voltageNow.None? then None
    else
      var now := Prefer(Wh(f.energyNow), Ah(f.chargeNow));
      var full := Prefer(Wh(f.energyFull), Ah(f.chargeFull));
      if now.None? || full.None? then None
      else Some(SysfsReading(f.voltageNow.value, f.currentNow.value, now.value, full.value, ChargingStatusFrom(f.statusFile)))
  }

  /** A reading exists exactly when the battery, current, voltage and both
      capacities are there; energy wins over charge separately for "now"
      and "full", so a battery reporting energy only for one of them gives
      a reading whose percentage is missing. */
  lemma ReadBatterySysfsRules(path: Option<string>, f: SysfsFiles)
    ensures ReadBatterySysfs(path, f).Some? <==>
      && path.Some? && f.currentNow.Some? && f.voltageNow.Some?
      && (f.energyNow.Some? || f.chargeNow.Some?) && (f.energyFull.Some? || f.chargeFull.Some?)
    ensures ReadBatterySysfs(path, f).Some? ==>
      var r := ReadBatterySysfs(path, f).value;
      && r.capacityNow.MicroWattHours? == f.energyNow.Some?
      && r.capacityFull.MicroWattHours? == f.energyFull.Some?
      && (Percentage(r).None? <==> f.energyNow.Some? != f.energyFull.Some?)
  {
  }
}
