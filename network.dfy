/** The shared network state: NetworkManager's change signals update it one
    field at a time, except a change of primary connection, which refetches
    everything; and the icon that the bar shows for it. */
module Network {
  import opened Wrappers
  import opened NetworkTypes
  import opened RustText
  import Icons
  import NS = NetworkService

  /** What is known about the connection that carries traffic. */
  datatype SpecificInfo = WiFi(ssid: string, strength: nat) | Wired

  datatype NetworkInfo = NetworkInfo(
    connectionState: State,
    connectivity: Connectivity,
    specificInfo: Option<SpecificInfo>)

  /** `NetworkInfo::default()`. */
  const DefaultInfo: NetworkInfo := NetworkInfo(Unknown, UnknownConnectivity, None)

  /** A change signal. The primary-connection change carries the outcome of
      the refetch it triggers. */
  datatype PropertyChange =
    | StateChanged(state: State)
    | ConnectivityChanged(connectivity: Connectivity)
    | PrimaryChanged(fetched: Result<NetworkInfo, string>)

  /** The shared state after one change. */
  function ApplyChange(info: NetworkInfo, change: PropertyChange): NetworkInfo {
    match change
    case StateChanged(s) => info.(connectionState := s)
    case ConnectivityChanged(c) => info.(connectivity := c)
    case PrimaryChanged(fetched) => if fetched.Ok? then fetched.value else info
  }

  /** A state change touches only the state, a connectivity change only the
      connectivity; a successful refetch replaces everything and a failed
      one changes nothing. */
  lemma ChangeFrames(info: NetworkInfo, change: PropertyChange)
    ensures change.StateChanged? ==>
      ApplyChange(info, change) == NetworkInfo(change.state, info.connectivity, info.specificInfo)
    ensures change.ConnectivityChanged? ==>
      ApplyChange(info, change) == NetworkInfo(info.connectionState, change.connectivity, info.specificInfo)
    ensures change.PrimaryChanged? && change.fetched.Ok? ==> ApplyChange(info, change) == change.fetched.value
    ensures change.PrimaryChanged? && change.fetched.Err? ==> ApplyChange(info, change) == info
  {
  }

  /** The shared state after a run of changes, in order. */
  function ApplyAll(info: NetworkInfo, changes: seq<PropertyChange>): NetworkInfo
    decreases |changes|
  {
    if changes == [] then info
    else ApplyAll(ApplyChange(info, changes[0]), changes[1..])
  }

  lemma {:induction false} ApplyAllAppend(info: NetworkInfo, changes: seq<PropertyChange>, change: PropertyChange)
    ensures ApplyAll(info, changes + [change]) == ApplyChange(ApplyAll(info, changes), change)
    decreases |changes|
  {
    if changes != [] {
      assert (changes + [change])[1..] == changes[1..] + [change];
      ApplyAllAppend(ApplyChange(info, changes[0]), changes[1..], change);
    }
  }

  predicate FailedFetch(change: PropertyChange) {
    change.PrimaryChanged? && change.fetched.Err?
  }

  /** The changes with every failed refetch removed. */
  function WithoutFailedFetches(changes: seq<PropertyChange>): (r: seq<PropertyChange>)
    ensures forall c :: c in r ==> c in changes && !FailedFetch(c)
    ensures |r| <= |changes|
  {
    if changes == [] then []
    else if FailedFetch(changes[0]) then WithoutFailedFetches(changes[1..])
    else [changes[0]] + WithoutFailedFetches(changes[1..])
  }

  /** Failed refetches are invisible: the state after a run of changes is
      the state after the same run without them. */
  lemma {:induction false} FailedFetchesInvisible(info: NetworkInfo, changes: seq<PropertyChange>)
    ensures ApplyAll(info, changes) == ApplyAll(info, WithoutFailedFetches(changes))
    decreases |changes|
  {
    if changes != [] {
      FailedFetchesInvisible(ApplyChange(info, changes[0]), changes[1..]);
      if !FailedFetch(changes[0]) {
        var r := [changes[0]] + WithoutFailedFetches(changes[1..]);
        assert r[0] == changes[0] && r[1..] == WithoutFailedFetches(changes[1..]);
      }
    }
  }

  /** The last successful refetch decides the specific info, whatever state
      and connectivity changes follow it. */
  lemma {:induction false} LastFetchDecidesDevice(info: NetworkInfo, changes: seq<PropertyChange>, fetched: NetworkInfo, later: seq<PropertyChange>)
    requires forall c :: c in later ==> !c.PrimaryChanged?
    ensures ApplyAll(info, changes + [PrimaryChanged(Ok(fetched))] + later).specificInfo == fetched.specificInfo
    decreases |later|
  {
    var prefix := changes + [PrimaryChanged(Ok(fetched))];
    ApplyAllAppend(info, changes, PrimaryChanged(Ok(fetched)));
    if later == [] {
      assert prefix + later == prefix;
    } else {
      var n := |later| - 1;
      assert prefix + later == (prefix + later[..n]) + [later[n]];
      assert later[n] in later;
      ApplyAllAppend(info, prefix + later[..n], later[n]);
      assert forall c :: c in later[..n] ==> c in later;
      LastFetchDecidesDevice(info, changes, fetched, later[..n]);
    }
  }

  /** The first device of the primary connection: its type (a failed read
      is `None`) and its Wi-Fi reads. */
  datatype PrimaryDevice = PrimaryDevice(deviceType: Option<DeviceType>, wifi: NS.WifiReading)

  /** `fetch_network_info` for a primary connection: the state, the
      connectivity and, while connected, what the connection's first device
      is. A failed read anywhere fails the fetch, and so does a Wi-Fi device
      whose SSID is rejected. */
  function FetchPrimary(state: Option<State>, connectivity: Option<Connectivity>, devices: Option<seq<PrimaryDevice>>): Result<NetworkInfo, string> {
    if state.None? || connectivity.None? then Err("NetworkManager read failed")
    else if !IsConnected(state.value) then Ok(NetworkInfo(state.value, connectivity.value, None))
    else if devices.None? then Err("active connection read failed")
    else if devices.value == [] then Ok(NetworkInfo(state.value, connectivity.value, None))
    else
      var d := devices.value[0];
      if d.deviceType.None? then Err("device read failed")
      else if d.deviceType.value == Ethernet then Ok(NetworkInfo(state.value, connectivity.value, Some(Wired)))
      else if d.deviceType.value == Wifi then
        match NS.GetWifiInfo(d.wifi)
        case Ok(p) => Ok(NetworkInfo(state.value, connectivity.value, Some(WiFi(p.0, p.1))))
        case Err(e) => Err(e)
      else Ok(NetworkInfo(state.value, connectivity.value, None))
  }

  /** A fetched info carries the state and connectivity read; it has
      specific info only while connected, through a first device that is
      Ethernet (wired) or Wi-Fi (with the accepted SSID and strength). */
  lemma FetchPrimaryRules(state: Option<State>, connectivity: Option<Connectivity>, devices: Option<seq<PrimaryDevice>>)
    ensures var r := FetchPrimary(state, connectivity, devices);
      r.Ok? ==>
        && r.value.connectionState == state.value && r.value.connectivity == connectivity.value
        && (r.value.specificInfo.Some? <==>
              (&& IsConnected(state.value) && devices.value != []
               && devices.value[0].deviceType.value in {Ethernet, Wifi}))
        && (r.value.specificInfo == Some(Wired) <==> r.value.specificInfo.Some? && devices.value[0].deviceType.value == Ethernet)
        && (r.value.specificInfo.Some? && r.value.specificInfo.value.WiFi? ==>
              NS.GetWifiInfo(devices.value[0].wifi) == Ok((r.value.specificInfo.value.ssid, r.value.specificInfo.value.strength)))
  {
  }

  /** A Wi-Fi primary device whose access point is "/", whose SSID is empty
      or whose SSID is whitespace only fails the fetch, so the shared state
      is left as it was. */
  lemma RejectedSsidKeepsState(info: NetworkInfo, state: State, connectivity: Connectivity, devices: seq<PrimaryDevice>)
    requires IsConnected(state) && devices != [] && devices[0].deviceType == Some(Wifi)
    requires var w := devices[0].wifi;
      || w.apPath == Some("/")
      || (w.ssidBytes.Some? && |w.ssidBytes.value| == 0)
      || (w.apPath.Some? && w.ssidBytes.Some? && w.strength.Some? && AllWhitespace(w.decodedSsid))
    ensures FetchPrimary(Some(state), Some(connectivity), Some(devices)).Err?
    ensures ApplyChange(info, PrimaryChanged(FetchPrimary(Some(state), Some(connectivity), Some(devices)))) == info
  {
    NS.WifiInfoAcceptance(devices[0].wifi);
  }

  /** The icon the bar shows: a crossed-out globe, one of the Wi-Fi strength
      levels (an index into the Wi-Fi icon list), the wired icon, or the
      Wi-Fi-disabled icon. */
  datatype NetworkIcon = GlobeOff | WifiLevel(index: nat) | WiredConnected | WifiDisabled

  /** `get_icon`, for a Wi-Fi icon list of `levels` entries. */
  function GetIcon(info: NetworkInfo, levels: nat): NetworkIcon
    requires levels > 0
  {
    if info.connectionState in {Disconnected, Disconnecting, Asleep, Unknown} then GlobeOff
    else match info.specificInfo
      case Some(WiFi(_, strength)) => WifiLevel(Icons.IconIndex(strength as real / 100.0, levels))
      case Some(Wired) => WiredConnected
      case None => WifiDisabled
  }

  /** The globe is shown exactly for the four states without a connection,
      whatever the specific info; otherwise the icon follows the specific
      info, and a Wi-Fi level is always a valid index whose position follows
      the strength. */
  lemma IconRules(info: NetworkInfo, levels: nat)
    requires 0 < levels <= Icons.USIZE_MAX
    ensures var icon := GetIcon(info, levels);
      && (icon == GlobeOff <==> info.connectionState in {Disconnected, Disconnecting, Asleep, Unknown})
      && (icon != GlobeOff ==>
            && (info.specificInfo == Some(Wired) <==> icon == WiredConnected)
            && (info.specificInfo == None <==> icon == WifiDisabled)
            && (info.specificInfo.Some? && info.specificInfo.value.WiFi? <==> icon.WifiLevel?))
      && (icon.WifiLevel? ==> icon.index < levels)
      && (icon.WifiLevel? && info.specificInfo.value.strength >= 100 ==> icon.index == levels - 1)
      && (icon.WifiLevel? && info.specificInfo.value.strength * levels < 100 ==> icon.index == 0)
  {
    if info.specificInfo.Some? && info.specificInfo.value.WiFi? {
      var strength := info.specificInfo.value.strength;
      var f := strength as real / 100.0;
      Icons.IconIndexEnds(f, levels);
      assert f * levels as real == (strength * levels) as real / 100.0;
    }
  }

  /** A stronger Wi-Fi signal never shows a weaker level. */
  lemma IconMonotone(info: NetworkInfo, stronger: nat, levels: nat)
    requires levels > 0
    requires info.specificInfo.Some? && info.specificInfo.value.WiFi?
    requires stronger >= info.specificInfo.value.strength
    ensures var better := info.(specificInfo := Some(WiFi(info.specificInfo.value.ssid, stronger)));
      GetIcon(info, levels).WifiLevel? ==> GetIcon(better, levels).index >= GetIcon(info, levels).index
  {
    Icons.IconIndexMonotone(info.specificInfo.value.strength as real / 100.0, stronger as real / 100.0, levels);
  }

  /** The shared network state, written by the event loop. */
  class NetworkStore {
    var connectionState: State
    var connectivity: Connectivity
    var specificInfo: Option<SpecificInfo>

    function Snapshot(): NetworkInfo
      reads this
    {
      NetworkInfo(connectionState, connectivity, specificInfo)
    }

    constructor ()
      ensures Snapshot() == DefaultInfo
    {
      connectionState := Unknown;
      connectivity := UnknownConnectivity;
      specificInfo := None;
    }

    /** Handles one change signal. */
    method Apply(change: PropertyChange)
      modifies this
      ensures Snapshot() == ApplyChange(old(Snapshot()), change)
    {
      match change {
        case StateChanged(s) => connectionState := s;
        case ConnectivityChanged(c) => connectivity := c;
        case PrimaryChanged(fetched) =>
          if fetched.Ok? {
            connectionState := fetched.value.connectionState;
            connectivity := fetched.value.connectivity;
            specificInfo := fetched.value.specificInfo;
          }
      }
    }

    /** `run_network_service`: handles the received changes in order. */
    method Run(changes: seq<PropertyChange>)
      modifies this
      ensures Snapshot() == ApplyAll(old(Snapshot()), changes)
    {
      var i := 0;
      while i < |changes|
        invariant 0 <= i <= |changes|
        invariant Snapshot() == ApplyAll(old(Snapshot()), changes[..i])
      {
        ApplyAllAppend(old(Snapshot()), changes[..i], changes[i]);
        assert changes[..i + 1] == changes[..i] + [changes[i]];
        Apply(changes[i]);
        i := i + 1;
      }
      assert changes[..i] == changes;
    }
  }
}
