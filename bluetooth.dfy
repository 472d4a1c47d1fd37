/** The shared Bluetooth state: unavailable when there is no session or
    default adapter, otherwise the adapter's powered and discovering flags,
    the tracked devices by address and how many of them are connected. D-Bus
    answers are inputs: `connected` maps each address to what its device
    reports when asked, and an address missing from it is a query that
    failed, counted as not connected. */
module Bluetooth {
  import opened Wrappers

  type Address = string

  datatype AdapterProperty = Powered(powered: bool) | Discovering(discovering: bool) | OtherAdapterProperty
  datatype AdapterEvent = DeviceAdded(added: Address) | DeviceRemoved(removed: Address) | AdapterChanged(property: AdapterProperty)
  datatype DeviceProperty = Connected(connected: bool) | OtherDeviceProperty
  datatype BluetoothEvent = Adapter(event: AdapterEvent) | Device(address: Address, property: DeviceProperty)

  datatype BluetoothState = BluetoothState(powered: bool, devices: set<Address>, connectedDeviceCount: nat, discovering: bool)

  datatype Reducible = Unavailable | Available(state: BluetoothState)

  /** `state()`. */
  function StateOf(r: Reducible): (s: Option<BluetoothState>)
    ensures s.Some? <==> r.Available?
  {
    if r.Available? then Some(r.state) else None
  }

  /** The tracked devices that report being connected. */
  function ConnectedSet(devices: set<Address>, connected: map<Address, bool>): set<Address> {
    set a | a in devices && a in connected && connected[a]
  }

  /** `update_connected_device_count`, as a value: never more than the
      devices tracked. */
  function ConnectedCount(devices: set<Address>, connected: map<Address, bool>): (n: nat)
    ensures n <= |devices|
  {
    assert ConnectedSet(devices, connected) <= devices;
    SubsetCard(ConnectedSet(devices, connected), devices);
    |ConnectedSet(devices, connected)|
  }

  lemma SubsetCard(a: set<Address>, b: set<Address>)
    requires a <= b
    ensures |a| <= |b|
  {
    assert b == a + (b - a);
  }

  /** `reduce`: the new value and whether subscribers are told.
      `deviceFound` is whether the adapter hands out the added device. */
  function Reduced(r: Reducible, e: BluetoothEvent, deviceFound: bool, connected: map<Address, bool>): (Reducible, bool) {
    if r.Unavailable? then (r, false)
    else
      var s := r.state;
      match e
      case Adapter(DeviceAdded(a)) =>
        if !deviceFound then (r, false)
        else
          var devices := s.devices + {a};
          (Available(s.(devices := devices, connectedDeviceCount := ConnectedCount(devices, connected))), true)
      case Adapter(DeviceRemoved(a)) =>
        var devices := s.devices - {a};
        (Available(s.(devices := devices, connectedDeviceCount := ConnectedCount(devices, connected))), true)
      case Adapter(AdapterChanged(Powered(p))) => (Available(s.(powered := p)), true)
      case Adapter(AdapterChanged(Discovering(d))) => (Available(s.(discovering := d)), true)
      case Adapter(AdapterChanged(OtherAdapterProperty)) => (r, false)
      case Device(a, Connected(_)) =>
        if a in s.devices then (Available(s.(connectedDeviceCount := ConnectedCount(s.devices, connected))), true)
        else (r, false)
      case Device(_, OtherDeviceProperty) => (r, false)
  }

  /** Without a session nothing changes; powered and discovering set their
      flag; other adapter and device properties change nothing; a removal
      drops just that address; an addition tracks the device when the adapter
      hands it out and is ignored otherwise; a connection event counts again
      exactly when the device is tracked. */
  lemma ReduceRules(r: Reducible, e: BluetoothEvent, deviceFound: bool, connected: map<Address, bool>)
    ensures r.Unavailable? ==> Reduced(r, e, deviceFound, connected) == (r, false)
    ensures r.Available? && e.Adapter? && e.event.AdapterChanged? && !e.event.property.OtherAdapterProperty? ==>
      && Reduced(r, e, deviceFound, connected).1
      && Reduced(r, e, deviceFound, connected).0.state.powered == (if e.event.property.Powered? then e.event.property.powered else r.state.powered)
      && Reduced(r, e, deviceFound, connected).0.state.discovering == (if e.event.property.Discovering? then e.event.property.discovering else r.state.discovering)
    ensures (e == Adapter(AdapterChanged(OtherAdapterProperty)) || (e.Device? && e.property.OtherDeviceProperty?)) ==>
      Reduced(r, e, deviceFound, connected) == (r, false)
    ensures r.Available? && e.Adapter? && e.event.DeviceRemoved? ==>
      && Reduced(r, e, deviceFound, connected).1
      && Reduced(r, e, deviceFound, connected).0.state.devices == r.state.devices - {e.event.removed}
    ensures r.Available? && e.Device? && e.property.Connected? ==>
      (Reduced(r, e, deviceFound, connected).1 <==> e.address in r.state.devices)
    ensures r.Available? && e.Adapter? && e.event.DeviceAdded? ==>
      && (Reduced(r, e, deviceFound, connected).1 <==> deviceFound)
      && Reduced(r, e, deviceFound, connected).0.state.devices ==
           (if deviceFound then r.state.devices + {e.event.added} else r.state.devices)
  {
  }

  /** Every event keeps the connected count at most the number of tracked
      devices. */
  lemma ReduceKeepsCountBounded(r: Reducible, e: BluetoothEvent, deviceFound: bool, connected: map<Address, bool>)
    requires r.Available? ==> r.state.connectedDeviceCount <= |r.state.devices|
    ensures var r' := Reduced(r, e, deviceFound, connected).0;
      r'.Available? ==> r'.state.connectedDeviceCount <= |r'.state.devices|
  {
  }

  /** `init`, from the answers of the session, the adapter and the device
      queries: `found` lists the addresses the adapter reports and whether
      each device could be looked up. */
  function Init(session: bool, adapter: bool, found: Option<seq<(Address, bool)>>, powered: Option<bool>,
                discovering: Option<bool>, connected: map<Address, bool>): Reducible {
    if !session || !adapter then Unavailable
    else
      var devices := if found.None? then {} else set i | 0 <= i < |found.value| && found.value[i].1 :: found.value[i].0;
      Available(BluetoothState(
        powered.UnwrapOr(false), devices, ConnectedCount(devices, connected), discovering.UnwrapOr(false)))
  }

  /** A failed session or adapter leaves Bluetooth unavailable; otherwise
      the tracked devices are those that could be looked up and the count is
      bounded by them. */
  lemma InitRules(session: bool, adapter: bool, found: Option<seq<(Address, bool)>>, powered: Option<bool>,
                  discovering: Option<bool>, connected: map<Address, bool>)
    ensures var r := Init(session, adapter, found, powered, discovering, connected);
      && (r.Available? <==> session && adapter)
      && (r.Available? ==>
            && r.state.connectedDeviceCount <= |r.state.devices|
            && r.state.powered == (powered == Some(true))
            && r.state.discovering == (discovering == Some(true))
            && (forall a :: a in r.state.devices <==> found.Some? && exists i :: 0 <= i < |found.value| && found.value[i] == (a, true)))
  {
    var r := Init(session, adapter, found, powered, discovering, connected);
    if r.Available? && found.Some? {
      forall a ensures a in r.state.devices <==> exists i :: 0 <= i < |found.value| && found.value[i] == (a, true) {
        if a in r.state.devices {
          var i :| 0 <= i < |found.value| && found.value[i].1 && found.value[i].0 == a;
          assert found.value[i] == (a, true);
        }
      }
    }
  }

  /** The recount loop over the tracked devices. */
  method CountConnected(devices: set<Address>, connected: map<Address, bool>) returns (count: nat)
    ensures count == ConnectedCount(devices, connected)
  {
    count := 0;
    var remaining := devices;
    ghost var seen: set<Address> := {};
    while remaining != {}
      invariant remaining <= devices && seen == devices - remaining
      invariant count == |ConnectedSet(seen, connected)|
      decreases |remaining|
    {
      var a :| a in remaining;
      if a in connected && connected[a] {
        assert ConnectedSet(seen + {a}, connected) == ConnectedSet(seen, connected) + {a};
        count := count + 1;
      } else {
        assert ConnectedSet(seen + {a}, connected) == ConnectedSet(seen, connected);
      }
      seen := seen + {a};
      remaining := remaining - {a};
    }
    assert seen == devices;
  }

  class BluetoothReducer {
    var reducible: Reducible

    constructor (initial: Reducible)
      ensures reducible == initial
    {
      reducible := initial;
    }

    method Reduce(e: BluetoothEvent, deviceFound: bool, connected: map<Address, bool>) returns (changed: bool)
      modifies this
      ensures (reducible, changed) == Reduced(old(reducible), e, deviceFound, connected)
    {
      changed := false;
      if reducible.Unavailable? {
        return;
      }
      var s := reducible.state;
      match e
      case Adapter(DeviceAdded(a)) =>
        if deviceFound {
          var devices := s.devices + {a};
          var count := CountConnected(devices, connected);
          reducible := Available(s.(devices := devices, connectedDeviceCount := count));
          changed := true;
        }
      case Adapter(DeviceRemoved(a)) =>
        var devices := s.devices - {a};
        var count := CountConnected(devices, connected);
        reducible := Available(s.(devices := devices, connectedDeviceCount := count));
        changed := true;
      case Adapter(AdapterChanged(Powered(p))) =>
        reducible := Available(s.(powered := p));
        changed := true;
      case Adapter(AdapterChanged(Discovering(d))) =>
        reducible := Available(s.(discovering := d));
        changed := true;
      case Adapter(AdapterChanged(OtherAdapterProperty)) =>
      case Device(a, Connected(_)) =>
        if a in s.devices {
          var count := CountConnected(s.devices, connected);
          reducible := Available(s.(connectedDeviceCount := count));
          changed := true;
        }
      case Device(_, OtherDeviceProperty) =>
    }
  }
}
