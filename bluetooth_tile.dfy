/** The polling Bluetooth tile: every ten seconds it asks `bluetoothctl`
    whether the adapter is powered and which devices are connected, falls
    back to `systemctl is-active bluetooth`, and shows the result. The
    command runs are inputs: each is either a failure (it could not be
    started or exited unsuccessfully) or its standard output. */
module BluetoothTile {
  import opened Wrappers
  import opened RustText
  import Icons
  import TW = TileWidget

  datatype CommandOutput = Failed | Succeeded(stdout: string)

  // ---------------------------------------------------------------------
  // Parsing `bluetoothctl devices Connected`
  // ---------------------------------------------------------------------

  /** The device name on one output line: the text after the second space
      of a line starting with "Device ", trimmed, when it is not empty. */
  function DeviceName(line: string): (name: Option<string>)
    ensures name.Some? ==> StartsWith(line, "Device ") && name.value != [] && name.value == Trim(name.value)
  {
    if !StartsWith(line, "Device ") then None
    else
      match Find(line, " ")
      case None => None
      case Some(p) =>
        match Find(line[p + 1..], " ")
        case None => None
        case Some(q) =>
          var trimmed := Trim(line[q + p + 2..]);
          TrimIdempotent(line[q + p + 2..]);
          if trimmed == [] then None else Some(trimmed)
  }

  lemma TrimIdempotent(s: string)
    ensures Trim(Trim(s)) == Trim(s)
  {
    var t := Trim(s);
    if t != [] {
      TrimOfTrimmed(t);
    }
  }

  /** A string with no whitespace at either end is its own trim. */
  lemma TrimOfTrimmed(t: string)
    requires t != [] && !IsWhitespace(t[0]) && !IsWhitespace(t[|t| - 1])
    ensures Trim(t) == t
  {
    assert TrimStart(t) == t;
    assert TrimEnd(t) == t;
  }

  /** On a line "Device <address> <name>" whose address has no space, the
      name found is the trimmed name, unless that is empty. */
  lemma DeviceNameOfLine(address: string, rest: string)
    requires ' ' !in address
    ensures DeviceName("Device " + address + " " + rest) == if Trim(rest) == [] then None else Some(Trim(rest))
  {
    var line := "Device " + address + " " + rest;
    var tail := address + " " + rest;
    assert line == "Device " + tail;
    DeviceLineSplits(tail);
    FindAfterPrefix(address, " ", rest);
    assert line[|address| + 8..] == rest;
  }

  /** On a line "Device <tail>" the first space is the one after "Device". */
  lemma DeviceLineSplits(tail: string)
    ensures var line := "Device " + tail;
      && StartsWith(line, "Device ") && Find(line, " ") == Some(6) && line[7..] == tail
  {
    var line := "Device " + tail;
    assert line == "Device" + " " + tail;
    FindAfterPrefix("Device", " ", tail);
    assert line[..|"Device "|] == "Device ";
  }

  /** The names found on the lines, in order. */
  function DevicesIn(lines: seq<string>): (names: seq<string>)
    ensures |names| <= |lines|
    ensures forall k :: 0 <= k < |names| ==> names[k] != []
  {
    if lines == [] then []
    else DevicesIn(lines[..|lines| - 1]) + NameOf(lines[|lines| - 1])
  }

  /** The name on a line, as a list of zero or one names. */
  function NameOf(line: string): (names: seq<string>)
    ensures |names| <= 1
    ensures forall k :: 0 <= k < |names| ==> names[k] != []
  {
    match DeviceName(line)
    case None => []
    case Some(name) => [name]
  }

  /** A line with a name adds exactly that name after the earlier lines'
      names; any other line adds nothing. */
  lemma DevicesInAppend(lines: seq<string>, line: string)
    ensures DevicesIn(lines + [line]) == DevicesIn(lines) + NameOf(line)
  {
    assert (lines + [line])[..|lines|] == lines;
  }

  /** One more line of the output read. */
  lemma DevicesInPrefix(lines: seq<string>, i: nat)
    requires i < |lines|
    ensures DevicesIn(lines[..i + 1]) == DevicesIn(lines[..i]) + NameOf(lines[i])
  {
    assert lines[..i + 1] == lines[..i] + [lines[i]];
    DevicesInAppend(lines[..i], lines[i]);
  }

  // ---------------------------------------------------------------------
  // Checking the status
  // ---------------------------------------------------------------------

  /** What `bluetoothctl show` says about power: enabled iff it succeeded
      and printed "Powered: yes". */
  predicate ShowsPowered(show: CommandOutput) {
    show.Succeeded? && Contains(show.stdout, "Powered: yes")
  }

  /** The service check: `systemctl` succeeded and printed "active". */
  predicate ServiceActive(systemctl: CommandOutput) {
    systemctl.Succeeded? && Trim(systemctl.stdout) == "active"
  }

  /** The connected devices: only asked for when the adapter is powered,
      and only read from a successful run. */
  function ConnectedDevices(powered: bool, devices: CommandOutput): seq<string> {
    if powered && devices.Succeeded? then DevicesIn(Lines(devices.stdout)) else []
  }

  /** `check_bluetooth_status` as written: the service check runs whenever
      `bluetoothctl show` did not report "Powered: yes", including when it
      ran and reported the adapter off. */
  function CheckStatusAsWritten(show: CommandOutput, devices: CommandOutput, systemctl: CommandOutput): (bool, seq<string>) {
    var powered := ShowsPowered(show);
    (if powered then true else ServiceActive(systemctl), ConnectedDevices(powered, devices))
  }

  /** With `bluetoothctl` working and reporting the adapter off, and the
      Bluetooth service running, the status as written is enabled with no
      device, which the tile shows as "On". */
  lemma PoweredOffShownOn()
    ensures var status := CheckStatusAsWritten(Succeeded("Powered: no\n"), Failed, Succeeded("active\n"));
      status == (true, []) && View(status.0, status.1).primary == "On"
  {
    ReportsOff();
    ServiceRunning();
  }

  lemma ReportsOff()
    ensures !ShowsPowered(Succeeded("Powered: no\n"))
  {
    var s, pat := "Powered: no\n", "Powered: yes";
    assert !MatchesAt(s, pat, 0) by {
      assert s[..|pat|][9] == 'n' && pat[9] == 'y';
    }
    assert forall j :: 0 < j <= |s| ==> !MatchesAt(s, pat, j);
  }

  lemma ServiceRunning()
    ensures ServiceActive(Succeeded("active\n"))
  {
    var s := "active\n";
    assert TrimStart(s) == s;
    assert s[..|s| - 1] == "active";
    assert TrimEnd(s) == TrimEnd("active");
    assert TrimEnd("active") == "active";
  }

  /** The status as the fallback's own comment intends: the service check
      runs only when `bluetoothctl show` itself failed. */
  function CheckStatus(show: CommandOutput, devices: CommandOutput, systemctl: CommandOutput): (bool, seq<string>) {
    var powered := ShowsPowered(show);
    (if show.Succeeded? then powered else ServiceActive(systemctl), ConnectedDevices(powered, devices))
  }

  /** A working `bluetoothctl` decides alone: enabled iff it reports
      "Powered: yes"; without it the service state decides; devices are
      listed only for a powered adapter. The two versions differ only when
      `bluetoothctl` worked and reported the adapter not powered. */
  lemma CheckStatusRules(show: CommandOutput, devices: CommandOutput, systemctl: CommandOutput)
    ensures show.Succeeded? ==> (CheckStatus(show, devices, systemctl).0 <==> Contains(show.stdout, "Powered: yes"))
    ensures show.Failed? ==> (CheckStatus(show, devices, systemctl).0 <==> ServiceActive(systemctl))
    ensures CheckStatus(show, devices, systemctl).1 != [] ==> CheckStatus(show, devices, systemctl).0
    ensures CheckStatusAsWritten(show, devices, systemctl).1 != [] ==> CheckStatusAsWritten(show, devices, systemctl).0
    ensures CheckStatus(show, devices, systemctl) != CheckStatusAsWritten(show, devices, systemctl) <==>
      show.Succeeded? && !ShowsPowered(show) && ServiceActive(systemctl)
  {
  }

  /** `check_bluetooth_status` with the corrected fallback, reading the
      device lines one by one. */
  method CheckBluetoothStatus(show: CommandOutput, devices: CommandOutput, systemctl: CommandOutput)
    returns (isEnabled: bool, connected: seq<string>)
    ensures (isEnabled, connected) == CheckStatus(show, devices, systemctl)
  {
    isEnabled := false;
    connected := [];
    if show.Succeeded? {
      isEnabled := Contains(show.stdout, "Powered: yes");
    }
    if isEnabled && devices.Succeeded? {
      connected := ReadDeviceLines(Lines(devices.stdout));
    }
    if show.Failed? {
      isEnabled := ServiceActive(systemctl);
    }
  }

  /** The loop over the output lines, keeping the names found. */
  method ReadDeviceLines(lines: seq<string>) returns (connected: seq<string>)
    ensures connected == DevicesIn(lines)
  {
    connected := [];
    var i := 0;
    while i < |lines|
      invariant 0 <= i <= |lines|
      invariant connected == DevicesIn(lines[..i])
    {
      DevicesInPrefix(lines, i);
      connected := connected + NameOf(lines[i]);
      i := i + 1;
    }
    assert lines[..|lines|] == lines;
  }

  // ---------------------------------------------------------------------
  // The view
  // ---------------------------------------------------------------------

  /** The classes this tile switches between. */
  const StatusClasses: set<string> := {"bluetooth-enabled", "bluetooth-disabled", "bluetooth-connected"}

  /** Clears the three status classes and adds `cls`. */
  function WithStatusClass(classes: set<string>, cls: string): (r: set<string>)
    requires cls in StatusClasses
    ensures r - StatusClasses == classes - StatusClasses
    ensures r * StatusClasses == {cls}
  {
    classes - {"bluetooth-enabled"} - {"bluetooth-disabled"} - {"bluetooth-connected"} + {cls}
  }

  datatype BluetoothView = BluetoothView(
    icon: string,
    primary: string,
    secondary: Option<string>,
    attention: TW.Attention,
    statusClass: string)

  /** What `update_bluetooth_status` shows for a status. */
  function View(isEnabled: bool, devices: seq<string>): BluetoothView {
    var n := |devices|;
    BluetoothView(
      if isEnabled && n > 0 then Icons.BluetoothIcons[1] else Icons.BluetoothIcons[0],
      if n > 0 then NatToString(n) + " device" + (if n == 1 then "" else "s")
      else if isEnabled then "On" else "Off",
      if n > 0 then Some(devices[0]) else None,
      if n > 0 then TW.Normal else TW.Dim,
      if n > 0 then "bluetooth-connected" else if isEnabled then "bluetooth-enabled" else "bluetooth-disabled")
  }

  /** For a status the status check can produce: the connected icon, the Normal
      attention, the first device as secondary text and the "connected"
      class go together with a non-empty device list; otherwise "On" with
      the "enabled" class means enabled and "Off" with "disabled" means
      not. The device count text is never "On" or "Off". */
  lemma ViewRules(isEnabled: bool, devices: seq<string>)
    requires devices != [] ==> isEnabled
    ensures var v := View(isEnabled, devices);
      && (v.icon == Icons.BluetoothIcons[1] <==> devices != [])
      && (v.attention == TW.Normal <==> devices != [])
      && (v.secondary.Some? <==> devices != [])
      && (devices != [] ==> v.secondary == Some(devices[0]) && v.statusClass == "bluetooth-connected")
      && (v.primary == "On" <==> devices == [] && isEnabled)
      && (v.primary == "Off" <==> !isEnabled)
      && v.statusClass in StatusClasses
  {
    var v := View(isEnabled, devices);
    if devices != [] {
      assert |v.primary| >= 7;
    }
  }

  class BluetoothWidget {
    const tile: TW.Tile
    /** The tile's own CSS classes. */
    var classes: set<string>

    ghost predicate Valid()
      reads this, tile
    {
      tile.Valid()
    }

    /** The tile's state shows view `v`. */
    ghost predicate Shows(v: BluetoothView)
      reads this, tile
    {
      && tile.icon == Some(v.icon) && tile.primary == Some(v.primary) && tile.secondary == v.secondary
      && TW.AttentionFrom(tile.attention) == v.attention
      && classes * StatusClasses == {v.statusClass}
    }

    /** `BluetoothWidget::new`: a visible, dim tile with the "bluetooth"
        class, showing the first status check at once. */
    constructor (show: CommandOutput, devices: CommandOutput, systemctl: CommandOutput)
      ensures Valid() && fresh(tile) && fresh(tile.Labels())
      ensures tile.tileVisible && tile.Displayed()
      ensures var status := CheckStatus(show, devices, systemctl); Shows(View(status.0, status.1))
      ensures "bluetooth" in classes
    {
      var t := TW.Build(TW.TileSettings(Some(""), None, None, TW.Dim, true));
      tile := t;
      classes := {"bluetooth"};
      new;
      Refresh(show, devices, systemctl);
      assert "bluetooth" in classes - StatusClasses;
    }

    /** One poll: checks the status and shows it. */
    method Refresh(show: CommandOutput, devices: CommandOutput, systemctl: CommandOutput)
      requires Valid()
      modifies this`classes, tile`icon, tile`primary, tile`secondary, tile`attention, tile`widgetVisible, tile.Labels()
      ensures Valid() && tile.Displayed()
      ensures var status := CheckStatus(show, devices, systemctl); Shows(View(status.0, status.1))
      ensures classes - StatusClasses == old(classes) - StatusClasses
      ensures tile.tileVisible == old(tile.tileVisible)
    {
      var isEnabled, connected := CheckBluetoothStatus(show, devices, systemctl);
      UpdateBluetoothStatus(isEnabled, connected);
    }

    /** `update_bluetooth_status`: shows the view of a status, replacing
        the status class and keeping every other class. */
    method UpdateBluetoothStatus(isEnabled: bool, devices: seq<string>)
      requires Valid()
      modifies this`classes, tile`icon, tile`primary, tile`secondary, tile`attention, tile`widgetVisible, tile.Labels()
      ensures Valid() && tile.Displayed()
      ensures Shows(View(isEnabled, devices))
      ensures classes - StatusClasses == old(classes) - StatusClasses
      ensures tile.tileVisible == old(tile.tileVisible)
    {
      ShowView(View(isEnabled, devices));
    }

    /** Puts one view on the tile. */
    method ShowView(v: BluetoothView)
      requires Valid() && v.statusClass in StatusClasses
      modifies this`classes, tile`icon, tile`primary, tile`secondary, tile`attention, tile`widgetVisible, tile.Labels()
      ensures Valid() && tile.Displayed()
      ensures Shows(v)
      ensures classes - StatusClasses == old(classes) - StatusClasses
      ensures tile.tileVisible == old(tile.tileVisible)
    {
      tile.SetTileContent(Some(v.icon), Some(v.primary), v.secondary, v.attention);
      classes := WithStatusClass(classes, v.statusClass);
    }
  }
}
