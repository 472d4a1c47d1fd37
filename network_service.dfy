/** The NetworkManager worker: on every change signal it reads the overall
    state, the connectivity and, while connected, walks the device list to
    find the device that carries the connection and, for Wi-Fi, the access
    point's SSID and strength. The D-Bus reads are inputs here: a failed read
    is `None`. */
module NetworkService {
  import opened Wrappers
  import opened RustText
  import opened NetworkTypes

  /** What the worker publishes. */
  datatype NetworkInfo = NetworkInfo(
    connected: bool,
    state: State,
    connectivity: Connectivity,
    deviceType: DeviceType,
    wifiSsid: string,
    wifiStrength: nat)

  /** `NetworkInfo::default()`: disconnected, unknown everywhere, no SSID. */
  const DefaultInfo: NetworkInfo := NetworkInfo(false, Unknown, UnknownConnectivity, UnknownType, "", 0)

  /** The reads behind `get_wifi_info`: the active access point's object
      path, its SSID bytes and its strength. `decodedSsid` is the lossy UTF-8
      decoding of the SSID bytes. */
  datatype WifiReading = WifiReading(
    apPath: Option<string>,
    ssidBytes: Option<seq<bv8>>,
    strength: Option<nat>,
    decodedSsid: string)

  /** `get_wifi_info`: the SSID and strength of the active access point, or
      the reason there is none. */
  function GetWifiInfo(w: WifiReading): Result<(string, nat), string> {
    if w.apPath.None? then Err("access point path read failed")
    else if w.apPath.value == "/" then Err("no active access point")
    else if w.ssidBytes.None? || w.strength.None? then Err("access point read failed")
    else if |w.ssidBytes.value| == 0 then Err("empty SSID")
    else if Trim(w.decodedSsid) == "" then Err("ssid is whitespace only")
    else Ok((w.decodedSsid, w.strength.value))
  }

  /** An SSID is accepted exactly when the access-point path is not "/",
      every read succeeds, the SSID has at least one byte and its decoding is
      not all whitespace; the accepted pair is the decoded SSID and the
      strength. */
  lemma WifiInfoAcceptance(w: WifiReading)
    ensures GetWifiInfo(w).Ok? <==>
      (&& w.apPath.Some? && w.apPath.value != "/"
       && w.ssidBytes.Some? && w.strength.Some?
       && |w.ssidBytes.value| > 0 && !AllWhitespace(w.decodedSsid))
    ensures GetWifiInfo(w).Ok? ==> GetWifiInfo(w).value == (w.decodedSsid, w.strength.value)
  {
    TrimEmptyIffBlank(w.decodedSsid);
  }

  /** One entry of the device list: its type and state (a failed read is
      `None`), its Wi-Fi reads and its interface name. */
  datatype DeviceReading = DeviceReading(
    typeCode: Option<nat>,
    stateCode: Option<nat>,
    wifi: WifiReading,
    interface: Option<string>)

  /** A device whose type or state cannot be read aborts the whole fetch. */
  predicate ReadFails(d: DeviceReading) {
    d.typeCode.None? || d.stateCode.None?
  }

  /** A Wi-Fi device that is configuring its IP or link. */
  predicate WifiInProgress(s: DeviceState) {
    s == Config || s == IpConfig || s == IpCheck
  }

  /** A readable device at which the walk ends: an activated Wi-Fi device,
      or a Wi-Fi device still connecting whose SSID can be read. */
  predicate EndsWalk(d: DeviceReading) {
    && !ReadFails(d)
    && DeviceTypeFrom(d.typeCode.value) == Wifi
    && var s := DeviceStateFrom(d.stateCode.value);
       s == Activated || (WifiInProgress(s) && GetWifiInfo(d.wifi).Ok?)
  }

  /** The device walk, one device at a time, from `info`. */
  function Walk(info: NetworkInfo, devices: seq<DeviceReading>): Result<NetworkInfo, string>
    decreases |devices|
  {
    if devices == [] then Ok(info)
    else
      var d := devices[0];
      if ReadFails(d) then Err("device read failed")
      else
        var t := DeviceTypeFrom(d.typeCode.value);
        var s := DeviceStateFrom(d.stateCode.value);
        if s == Activated then
          var info' := info.(deviceType := t);
          if t == Wifi then
            match GetWifiInfo(d.wifi)
            case Ok(p) => Ok(info'.(wifiSsid := p.0, wifiStrength := p.1))
            case Err(_) => Ok(if d.interface.Some? then info'.(wifiSsid := d.interface.value) else info')
          else Walk(info', devices[1..])
        else if t == Wifi && WifiInProgress(s) && GetWifiInfo(d.wifi).Ok? then
          var p := GetWifiInfo(d.wifi).value;
          Ok(info.(deviceType := t, wifiSsid := p.0, wifiStrength := p.1))
        else Walk(info, devices[1..])
  }

  /** The walk fails exactly when some device's reads fail before any
      device has ended it. */
  lemma {:induction false} WalkFailsIff(info: NetworkInfo, devices: seq<DeviceReading>)
    ensures Walk(info, devices).Err? <==>
      exists i :: 0 <= i < |devices| && ReadFails(devices[i]) && forall j :: 0 <= j < i ==> !EndsWalk(devices[j])
    decreases |devices|
  {
    if devices != [] {
      var d := devices[0];
      if !ReadFails(d) {
        var t := DeviceTypeFrom(d.typeCode.value);
        var next := if DeviceStateFrom(d.stateCode.value) == Activated then info.(deviceType := t) else info;
        if !EndsWalk(d) {
          WalkFailsIff(next, devices[1..]);
          if Walk(info, devices).Err? {
            var k :| 0 <= k < |devices[1..]| && ReadFails(devices[1..][k]) && forall j :: 0 <= j < k ==> !EndsWalk(devices[1..][j]);
            assert forall j :: 0 <= j < k + 1 ==> !EndsWalk(devices[j]) by {
              forall j | 0 < j < k + 1 ensures !EndsWalk(devices[j]) {
                assert devices[j] == devices[1..][j - 1];
              }
            }
            assert ReadFails(devices[k + 1]);
          }
          if exists i :: 0 <= i < |devices| && ReadFails(devices[i]) && forall j :: 0 <= j < i ==> !EndsWalk(devices[j]) {
            var i :| 0 <= i < |devices| && ReadFails(devices[i]) && forall j :: 0 <= j < i ==> !EndsWalk(devices[j]);
            assert i > 0;
            assert ReadFails(devices[1..][i - 1]);
            assert forall j :: 0 <= j < i - 1 ==> !EndsWalk(devices[1..][j]) by {
              forall j | 0 <= j < i - 1 ensures !EndsWalk(devices[1..][j]) {
                assert devices[1..][j] == devices[j + 1];
              }
            }
          }
        }
      }
    }
  }

  /** The walk only fills in the device fields, and it changes the Wi-Fi
      fields only when it ends on a Wi-Fi device. */
  lemma {:induction false} WalkKeepsOverallState(info: NetworkInfo, devices: seq<DeviceReading>)
    ensures Walk(info, devices).Ok? ==>
      var r := Walk(info, devices).value;
      && r.connected == info.connected && r.state == info.state && r.connectivity == info.connectivity
      && (r.wifiSsid != info.wifiSsid || r.wifiStrength != info.wifiStrength ==> r.deviceType == Wifi)
    decreases |devices|
  {
    if devices != [] && !ReadFails(devices[0]) {
      var d := devices[0];
      var t := DeviceTypeFrom(d.typeCode.value);
      if DeviceStateFrom(d.stateCode.value) == Activated {
        WalkKeepsOverallState(info.(deviceType := t), devices[1..]);
      } else {
        WalkKeepsOverallState(info, devices[1..]);
      }
    }
  }

  /** `fetch_network_info`: the overall state and connectivity, then, while
      connected and when the device list can be read, the device walk. A
      failed read of the state or the connectivity fails the fetch; a failed
      read of the device list leaves the device fields unset. */
  function Fetch(stateCode: Option<nat>, connectivityCode: Option<nat>, devices: Option<seq<DeviceReading>>): Result<NetworkInfo, string> {
    if stateCode.None? || connectivityCode.None? then Err("NetworkManager read failed")
    else
      var state := StateFrom(stateCode.value);
      var info := NetworkInfo(IsConnected(state), state, ConnectivityFrom(connectivityCode.value), UnknownType, "", 0);
      if !info.connected || devices.None? then Ok(info)
      else Walk(info, devices.value)
  }

  /** `fetch_network_info().await.unwrap_or_default()`: what the worker sends. */
  function Published(r: Result<NetworkInfo, string>): NetworkInfo {
    match r
    case Ok(info) => info
    case Err(_) => DefaultInfo
  }

  /** `connected` holds exactly for the three connected states, in a fetched
      result and in the published one; a disconnected result carries no
      device, SSID or strength. */
  lemma FetchConnected(stateCode: Option<nat>, connectivityCode: Option<nat>, devices: Option<seq<DeviceReading>>)
    ensures var r := Fetch(stateCode, connectivityCode, devices);
      && (r.Ok? ==> (r.value.state == StateFrom(stateCode.value)
                     && r.value.connectivity == ConnectivityFrom(connectivityCode.value)))
      && Published(r).connected == IsConnected(Published(r).state)
      && (!Published(r).connected ==> Published(r).deviceType == UnknownType && Published(r).wifiSsid == "" && Published(r).wifiStrength == 0)
  {
    var r := Fetch(stateCode, connectivityCode, devices);
    if stateCode.Some? && connectivityCode.Some? {
      var state := StateFrom(stateCode.value);
      var info := NetworkInfo(IsConnected(state), state, ConnectivityFrom(connectivityCode.value), UnknownType, "", 0);
      if info.connected && devices.Some? {
        WalkKeepsOverallState(info, devices.value);
      }
    }
  }

  /** The default info is disconnected and unknown everywhere. */
  lemma DefaultIsDisconnected()
    ensures !DefaultInfo.connected && !IsConnected(DefaultInfo.state)
    ensures DefaultInfo.connectivity == ConnectivityFrom(0) && DefaultInfo.deviceType == DeviceTypeFrom(0)
    ensures DefaultInfo.wifiSsid == "" && DefaultInfo.wifiStrength == 0
  {
  }

  /** The fetch as the worker runs it: a loop over the device list that
      stops at the device carrying the Wi-Fi connection. */
  method FetchNetworkInfo(stateCode: Option<nat>, connectivityCode: Option<nat>, devices: Option<seq<DeviceReading>>)
    returns (r: Result<NetworkInfo, string>)
    ensures r == Fetch(stateCode, connectivityCode, devices)
  {
    if stateCode.None? || connectivityCode.None? {
      return Err("NetworkManager read failed");
    }
    var state := StateFrom(stateCode.value);
    var isConnected := IsConnected(state);
    var info := NetworkInfo(isConnected, state, ConnectivityFrom(connectivityCode.value), UnknownType, "", 0);
    if isConnected && devices.Some? {
      var list := devices.value;
      ghost var goal := Walk(info, list);
      var i := 0;
      while i < |list|
        invariant 0 <= i <= |list|
        invariant Walk(info, list[i..]) == goal
      {
        var d := list[i];
        assert list[i..][0] == d && list[i..][1..] == list[i + 1..];
        if d.typeCode.None? || d.stateCode.None? {
          return Err("device read failed");
        }
        var deviceType := DeviceTypeFrom(d.typeCode.value);
        var deviceState := DeviceStateFrom(d.stateCode.value);
        if deviceState == Activated {
          info := info.(deviceType := deviceType);
          if deviceType == Wifi {
            var wifi := GetWifiInfo(d.wifi);
            match wifi {
              case Ok(p) =>
                info := info.(wifiSsid := p.0, wifiStrength := p.1);
              case Err(_) =>
                if d.interface.Some? {
                  info := info.(wifiSsid := d.interface.value);
                }
            }
            return Ok(info);
          }
        } else if deviceType == Wifi && WifiInProgress(deviceState) {
          var wifi := GetWifiInfo(d.wifi);
          if wifi.Ok? {
            info := info.(deviceType := deviceType, wifiSsid := wifi.value.0, wifiStrength := wifi.value.1);
            return Ok(info);
          }
        }
        i := i + 1;
      }
    }
    r := Ok(info);
  }
}
