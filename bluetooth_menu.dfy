/** The Bluetooth menu: a header icon and power switch, a status line, and
    one row per tracked device that connects or disconnects it when clicked.
    It mirrors the shared Bluetooth state. Requests to the adapter and to
    devices are returned as commands; their D-Bus calls are outside this
    model. */
module BluetoothMenu {
  import opened Wrappers
  import opened RustText
  import B = Bluetooth

  /** The four header icons (their names are not part of this model). */
  datatype MenuIcon = Searching | ConnectedIcon | Regular | Disabled

  /** `get_icon`. */
  function GetIcon(state: Option<B.BluetoothState>): MenuIcon {
    if state.Some? && state.value.powered && state.value.discovering then Searching
    else if state.Some? && state.value.powered && state.value.connectedDeviceCount > 0 then ConnectedIcon
    else if state.Some? && state.value.powered then Regular
    else Disabled
  }

  /** `get_status_text`. */
  function StatusText(state: Option<B.BluetoothState>): string {
    if state.None? then "Bluetooth unavailable"
    else if !state.value.powered then "Bluetooth disabled"
    else if state.value.discovering then "Searching for devices..."
    else if state.value.connectedDeviceCount == 1 then "1 device connected"
    else if state.value.connectedDeviceCount > 0 then NatToString(state.value.connectedDeviceCount) + " device(s) connected"
    else "Bluetooth enabled"
  }

  /** The icon is disabled exactly when there is no powered adapter;
      searching wins over connected, which wins over regular. */
  lemma IconRules(state: Option<B.BluetoothState>)
    ensures GetIcon(state) == Disabled <==> state.None? || !state.value.powered
    ensures GetIcon(state) == Searching <==> state.Some? && state.value.powered && state.value.discovering
    ensures GetIcon(state) == ConnectedIcon <==>
      state.Some? && state.value.powered && !state.value.discovering && state.value.connectedDeviceCount > 0
  {
  }

  /** The status reads "unavailable" without a state and "disabled" when
      powered off, whatever else holds; a powered adapter that searches
      says so whatever the count; otherwise one device, several devices
      with their number, or "enabled". */
  lemma StatusRules(state: Option<B.BluetoothState>)
    ensures state.None? ==> StatusText(state) == "Bluetooth unavailable"
    ensures state.Some? && !state.value.powered ==> StatusText(state) == "Bluetooth disabled"
    ensures state.Some? && state.value.powered && state.value.discovering ==> StatusText(state) == "Searching for devices..."
    ensures state.Some? && state.value.powered && !state.value.discovering ==>
      StatusText(state) == (if state.value.connectedDeviceCount == 1 then "1 device connected"
                            else if state.value.connectedDeviceCount > 1 then NatToString(state.value.connectedDeviceCount) + " device(s) connected"
                            else "Bluetooth enabled")
  {
  }

  /** The switch shows on exactly when there is a state and it is powered. */
  function SwitchActive(state: Option<B.BluetoothState>): (active: bool)
    ensures active <==> state.Some? && state.value.powered
  {
    if state.Some? then state.value.powered else false
  }

  datatype DeviceOutput = Connect(address: B.Address) | Disconnect(address: B.Address)

  datatype DeviceMsg = Toggle | UpdateInfo(name: Option<string>, isConnected: bool)

  /** One device row. */
  class DeviceRow {
    const address: B.Address
    var name: Option<string>
    var isConnected: bool

    /** `init_model`: no name and not connected until its own `UpdateInfo`
        arrives with what the device reports. */
    constructor (address: B.Address)
      ensures this.address == address && name.None? && !isConnected
    {
      this.address := address;
      name := None;
      isConnected := false;
    }

    /** A click asks to disconnect a connected device and to connect any
        other; `UpdateInfo` stores the reported name and connection. */
    method Update(msg: DeviceMsg) returns (output: Option<DeviceOutput>)
      modifies this
      ensures msg.Toggle? ==> output == Some(if old(isConnected) then Disconnect(address) else Connect(address))
      ensures msg.Toggle? ==> name == old(name) && isConnected == old(isConnected)
      ensures msg.UpdateInfo? ==> output.None? && name == msg.name && isConnected == msg.isConnected
    {
      output := None;
      match msg
      case Toggle =>
        output := Some(if isConnected then Disconnect(address) else Connect(address));
      case UpdateInfo(n, c) =>
        name := n;
        isConnected := c;
    }

    /** The row's label: the device name, or its address when it has
        none. */
    function Label(): (text: string)
      reads this
      ensures name.Some? ==> text == name.value
      ensures name.None? ==> text == address
    {
      name.UnwrapOr(address)
    }
  }

  datatype Msg =
    | ToggleBluetooth(enabled: bool)
    | ConnectToDevice(address: B.Address)
    | DisconnectFromDevice(address: B.Address)
    | UpdateState(state: Option<B.BluetoothState>)

  /** What the menu asks of the adapter or a device. */
  datatype Command = SetPowered(powered: bool) | ConnectDevice(device: B.Address) | DisconnectDevice(device: B.Address)

  /** The request for a message: only with a state, and for a device only
      when it is tracked. */
  function CommandFor(state: Option<B.BluetoothState>, msg: Msg): Option<Command> {
    match msg
    case ToggleBluetooth(enabled) => if state.Some? then Some(SetPowered(enabled)) else None
    case ConnectToDevice(a) => if state.Some? && a in state.value.devices then Some(ConnectDevice(a)) else None
    case DisconnectFromDevice(a) => if state.Some? && a in state.value.devices then Some(DisconnectDevice(a)) else None
    case UpdateState(_) => None
  }

  /** A device row's output becomes the menu's own message. */
  function Forward(output: DeviceOutput): Msg {
    match output
    case Connect(a) => ConnectToDevice(a)
    case Disconnect(a) => DisconnectFromDevice(a)
  }

  /** Clicking a tracked device's row asks that device to flip its
      connection. */
  lemma ClickFlipsConnection(state: B.BluetoothState, address: B.Address, isConnected: bool)
    requires address in state.devices
    ensures var out := if isConnected then Disconnect(address) else Connect(address);
      CommandFor(Some(state), Forward(out)) == Some(if isConnected then DisconnectDevice(address) else ConnectDevice(address))
  {
  }

  class BluetoothMenuModel {
    var bluetoothState: Option<B.BluetoothState>
    /** The device rows' addresses, in the order they were added. */
    var rows: seq<B.Address>

    constructor (initial: Option<B.BluetoothState>)
      ensures bluetoothState == initial && rows == []
    {
      bluetoothState := initial;
      rows := [];
    }

    /** `update`: a new state replaces the old and the rows are rebuilt,
        one per tracked device in some order; other messages only produce a
        request. */
    method Update(msg: Msg) returns (command: Option<Command>)
      modifies this
      ensures command == CommandFor(old(bluetoothState), msg)
      ensures bluetoothState == (if msg.UpdateState? then msg.state else old(bluetoothState))
      ensures msg.UpdateState? ==>
        && (forall i, j :: 0 <= i < j < |rows| ==> rows[i] != rows[j])
        && (forall a :: a in rows <==> msg.state.Some? && a in msg.state.value.devices)
      ensures !msg.UpdateState? ==> rows == old(rows)
    {
      command := CommandFor(bluetoothState, msg);
      if msg.UpdateState? {
        bluetoothState := msg.state;
        var rebuilt: seq<B.Address> := [];
        if msg.state.Some? {
          var remaining := msg.state.value.devices;
          while remaining != {}
            invariant forall i, j :: 0 <= i < j < |rebuilt| ==> rebuilt[i] != rebuilt[j]
            invariant forall a :: a in msg.state.value.devices <==> a in remaining || a in rebuilt
            invariant forall a :: a in remaining ==> a !in rebuilt
            decreases |remaining|
          {
            var a :| a in remaining;
            rebuilt := rebuilt + [a];
            remaining := remaining - {a};
          }
        }
        rows := rebuilt;
      }
    }

    function Icon(): MenuIcon
      reads this
    {
      GetIcon(bluetoothState)
    }

    function Status(): string
      reads this
    {
      StatusText(bluetoothState)
    }

    function Switch(): bool
      reads this
    {
      SwitchActive(bluetoothState)
    }
  }
}
