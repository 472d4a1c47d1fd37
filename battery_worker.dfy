/** The battery worker: the older, message-driven battery reader. It keeps
    the last data it sent and, on every ten-second request, reads the battery
    again and sends the new data only when it differs noticeably. The
    percentage here is the kernel's whole number of percent. */
module BatteryWorker {
  import opened Wrappers
  import opened RustText
  import BS = BatteryService

  datatype BatteryData = BatteryData(percentage: nat, status: BS.BatteryStatus, available: bool, timeRemaining: int)

  /** No battery: 0 %, unknown status, unavailable, no estimate. */
  const DefaultData: BatteryData := BatteryData(0, BS.Unknown, false, -1)

  /** `calculate_time_remaining` on the 0 to 100 scale. */
  function TimeRemaining(status: BS.BatteryStatus, percentage: real, energy: Option<BS.EnergyReading>): int {
    if energy.Some? && energy.value.powerNow > 0.0 then BS.EnergyEstimate(status, energy.value)
    else
      match status
      case Discharging => BS.TruncToI32(percentage / 100.0 * 8.0 * 60.0)
      case Charging => BS.TruncToI32((100.0 - percentage) / 100.0 * 2.0 * 60.0)
      case _ => -1
  }

  /** The worker's estimate is the service's estimate for the same charge
      read as a fraction. */
  lemma SameEstimateAsService(status: BS.BatteryStatus, percentage: real, energy: Option<BS.EnergyReading>)
    ensures TimeRemaining(status, percentage, energy) == BS.TimeRemaining(status, percentage / 100.0, energy)
  {
    assert (100.0 - percentage) / 100.0 * 2.0 * 60.0 == (1.0 - percentage / 100.0) * 2.0 * 60.0;
  }

  /** `read_battery_state`: without a battery path the data is the default;
      otherwise the capacity must read and parse as a `u32` and the status
      must read, or the whole read fails. */
  function ReadBatteryState(path: Option<string>, capacityFile: Option<string>, statusFile: Option<string>,
                            energy: Option<BS.EnergyReading>): (r: Result<BatteryData, string>)
    ensures path.None? ==> r == Ok(DefaultData)
    ensures path.Some? ==> (r.Ok? <==> capacityFile.Some? && ParseU32(Trim(capacityFile.value)).Some? && statusFile.Some?)
    ensures path.Some? && r.Ok? ==>
      && r.value.available && r.value.status == BS.StatusFrom(statusFile.value)
      && r.value.percentage == ParseU32(Trim(capacityFile.value)).value
  {
    if path.None? then Ok(DefaultData.(available := false))
    else if capacityFile.None? then Err("cannot read capacity")
    else
      match ParseU32(Trim(capacityFile.value))
      case None => Err("invalid capacity")
      case Some(percentage) =>
        if statusFile.None? then Err("cannot read status")
        else
          var status := BS.StatusFrom(statusFile.value);
          Ok(BatteryData(percentage, status, true, TimeRemaining(status, percentage as real, energy)))
  }

  /** Whether new data differs enough from the last data sent: another
      percentage, status or availability, or an estimate more than one
      minute away. */
  predicate ShouldUpdate(data: BatteryData, last: BatteryData) {
    || data.percentage != last.percentage
    || data.status != last.status
    || data.available != last.available
    || data.timeRemaining - last.timeRemaining > 1
    || last.timeRemaining - data.timeRemaining > 1
  }

  /** One `RequestUpdate`: the new last data and what is sent, if anything.
      A failed read sends unavailable default data, and only when the last
      data sent was available. */
  function Step(last: BatteryData, read: Result<BatteryData, string>): (BatteryData, Option<BatteryData>) {
    match read
    case Ok(data) =>
      if ShouldUpdate(data, last) then (data, Some(data)) else (last, None)
    case Err(_) =>
      if last.available then (DefaultData, Some(DefaultData)) else (last, None)
  }

  /** Whatever is sent becomes the last data, and nothing changes when
      nothing is sent; data equal to the last one is never sent again. */
  lemma StepSendsLast(last: BatteryData, read: Result<BatteryData, string>)
    ensures Step(last, read).1.Some? ==> Step(last, read).1.value == Step(last, read).0
    ensures Step(last, read).1.None? ==> Step(last, read).0 == last
    ensures Step(last, Ok(last)).1.None?
  {
  }

  /** After a failed read the last data is unavailable, and a second failed
      read in a row sends nothing. */
  lemma ErrorOnceSent(last: BatteryData, e1: string, e2: string)
    ensures !Step(last, Err(e1)).0.available
    ensures Step(last, Err(e1)).1.Some? <==> last.available
    ensures Step(Step(last, Err(e1)).0, Err(e2)).1.None?
  {
  }

  /** Without a battery the worker never sends anything: every read gives the
      default data, which is what it starts with. */
  lemma NoBatterySilent(capacityFile: Option<string>, statusFile: Option<string>, energy: Option<BS.EnergyReading>)
    ensures Step(DefaultData, ReadBatteryState(None, capacityFile, statusFile, energy)) == (DefaultData, None)
  {
  }

  /** With a battery, the first successful read is always sent, since the
      starting data is unavailable. */
  lemma FirstReadSent(path: string, capacityFile: Option<string>, statusFile: Option<string>, energy: Option<BS.EnergyReading>)
    requires ReadBatteryState(Some(path), capacityFile, statusFile, energy).Ok?
    ensures var data := ReadBatteryState(Some(path), capacityFile, statusFile, energy).value;
      Step(DefaultData, Ok(data)) == (data, Some(data))
  {
  }

  class BatteryWorkerModel {
    var batteryPath: Option<string>
    var lastData: BatteryData

    /** `init`: the battery path is the detection result, if it succeeded;
        the last data starts as the default. */
    constructor (detected: Result<string, string>)
      ensures batteryPath == (if detected.Ok? then Some(detected.value) else None)
      ensures lastData == DefaultData
    {
      batteryPath := if detected.Ok? then Some(detected.value) else None;
      lastData := DefaultData;
    }

    /** `update` for `RequestUpdate`, given the result of reading the
        battery. */
    method Update(read: Result<BatteryData, string>) returns (sent: Option<BatteryData>)
      modifies this`lastData
      ensures (lastData, sent) == Step(old(lastData), read)
    {
      sent := None;
      match read {
        case Ok(data) =>
          var shouldUpdate := data.percentage != lastData.percentage
            || data.status != lastData.status
            || data.available != lastData.available
            || Abs(data.timeRemaining - lastData.timeRemaining) > 1;
          if shouldUpdate {
            lastData := data;
            sent := Some(data);
          }
        case Err(_) =>
          var data := DefaultData.(available := false);
          if data.available != lastData.available {
            lastData := data;
            sent := Some(data);
          }
      }
    }
  }

  function Abs(x: int): (r: nat)
    ensures r == x || r == -x
  {
    if x < 0 then -x else x
  }
}
