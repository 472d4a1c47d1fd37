/** The Relm4 network tile: it mirrors what the network service reports
    (connected or not, the connection type, the Wi-Fi signal strength and
    SSID) and shows an icon name and a short text for it. */
module NetworkTileRelm4 {
  import opened Wrappers
  import opened TileMessages
  import Icons

  /** The kind of connection the service reports. */
  datatype NetworkType = Wifi | Ethernet | Mobile | Vpn | NoNetwork

  datatype Msg =
    | Click
    | RightClick
    | ServiceUpdate(connected: bool, connectionType: NetworkType, signalStrength: Option<real>, ssid: Option<string>)

  /** The icon name for a connection: the offline icon when not connected,
      a Wi-Fi strength glyph or the plain wireless icon for Wi-Fi, and a fixed
      icon for every other type. */
  function TileIcon(connected: bool, connectionType: NetworkType, signalStrength: Option<real>): string {
    if !connected then "network-offline-symbolic"
    else match connectionType
      case Wifi =>
        if signalStrength.Some? then Icons.PercentageToIcon(signalStrength.value, Icons.NetworkWifiIcons)
        else "network-wireless-symbolic"
      case Ethernet => "network-wired-symbolic"
      case Mobile => "network-cellular-symbolic"
      case Vpn => "network-vpn-symbolic"
      case NoNetwork => "network-offline-symbolic"
  }

  /** The tile's text. */
  function TileText(connected: bool, connectionType: NetworkType, ssid: Option<string>): string {
    match connectionType
    case Wifi => if ssid.Some? then ssid.value else if connected then "WiFi" else ""
    case Ethernet => if connected then "Ethernet" else ""
    case Mobile => if connected then "Mobile" else ""
    case Vpn => if connected then "VPN" else ""
    case NoNetwork => "Disconnected"
  }

  /** Not connected always shows the offline icon, whatever the type; a
      connected Wi-Fi link with a known strength shows one of the Wi-Fi
      strength glyphs (the strongest from full strength up), and without one
      the plain wireless icon. */
  lemma IconRules(connected: bool, connectionType: NetworkType, signalStrength: Option<real>)
    ensures !connected ==> TileIcon(connected, connectionType, signalStrength) == "network-offline-symbolic"
    ensures connected && connectionType == Wifi && signalStrength.Some? ==>
      TileIcon(connected, connectionType, signalStrength) in Icons.NetworkWifiIcons
    ensures connected && connectionType == Wifi && signalStrength.Some? && signalStrength.value >= 1.0 ==>
      TileIcon(connected, connectionType, signalStrength) == Icons.NetworkWifiIcons[4]
    ensures connected && connectionType == Wifi && signalStrength.None? ==>
      TileIcon(connected, connectionType, signalStrength) == "network-wireless-symbolic"
    ensures TileIcon(connected, connectionType, signalStrength) == "network-offline-symbolic" <==>
      !connected || connectionType == NoNetwork
  {
    if connected && connectionType == Wifi && signalStrength.Some? {
      Icons.IconIndexEnds(signalStrength.value, 5);
      var icon := TileIcon(connected, connectionType, signalStrength);
      assert icon in Icons.NetworkWifiIcons;
      assert forall i :: 0 <= i < 5 ==> Icons.NetworkWifiIcons[i] != "network-offline-symbolic";
    }
  }

  /** A known SSID is shown even while disconnected; the type labels show
      exactly while connected; no network shows "Disconnected". */
  lemma TextRules(connected: bool, connectionType: NetworkType, ssid: Option<string>)
    ensures connectionType == Wifi && ssid.Some? ==> TileText(connected, connectionType, ssid) == ssid.value
    ensures connectionType == Wifi && ssid.None? ==> TileText(connected, connectionType, ssid) == (if connected then "WiFi" else "")
    ensures connectionType in {Ethernet, Mobile, Vpn} ==> (TileText(connected, connectionType, ssid) != "" <==> connected)
    ensures connectionType == NoNetwork ==> TileText(connected, connectionType, ssid) == "Disconnected"
  {
  }

  class NetworkTile {
    var connected: bool
    var connectionType: NetworkType
    var signalStrength: Option<real>
    var ssid: Option<string>

    /** The tile starts disconnected with no network. */
    constructor ()
      ensures !connected && connectionType == NoNetwork && signalStrength.None? && ssid.None?
    {
      connected := false;
      connectionType := NoNetwork;
      signalStrength := None;
      ssid := None;
    }

    function Icon(): string
      reads this
    {
      TileIcon(connected, connectionType, signalStrength)
    }

    function Text(): string
      reads this
    {
      TileText(connected, connectionType, ssid)
    }

    /** A service update replaces all four fields; a click reports
        `Clicked("network")` and changes nothing; a right click does
        nothing. */
    method Update(msg: Msg) returns (output: Option<TileOutput>)
      modifies this
      ensures msg.ServiceUpdate? ==>
        && connected == msg.connected && connectionType == msg.connectionType
        && signalStrength == msg.signalStrength && ssid == msg.ssid
        && output.None?
      ensures !msg.ServiceUpdate? ==>
        && connected == old(connected) && connectionType == old(connectionType)
        && signalStrength == old(signalStrength) && ssid == old(ssid)
      ensures output == (if msg.Click? then Some(Clicked("network")) else None)
    {
      output := None;
      match msg {
        case Click => output := Some(Clicked("network"));
        case RightClick =>
        case ServiceUpdate(c, t, s, name) =>
          connected := c;
          connectionType := t;
          signalStrength := s;
          ssid := name;
      }
    }
  }
}
