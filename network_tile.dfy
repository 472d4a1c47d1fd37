/** The GTK network tile: a glyph label whose text and style classes follow
    the network service's connection flag, primary device type and Wi-Fi
    strength, brightened on every change and dimmed again by a timer. */
module NetworkTile {
  import opened NetworkTypes
  import Icons

  /** The glyph for a connection: the Wi-Fi strength glyph for connected
      Wi-Fi, the wired glyph for connected Ethernet, and otherwise the
      weakest Wi-Fi glyph. */
  function DisplayIcon(connected: bool, deviceType: DeviceType, wifiStrength: nat): (icon: string)
    ensures icon in Icons.NetworkWifiIcons || icon in Icons.NetworkWiredIcons
  {
    if connected then
      match deviceType
      case Wifi => Icons.PercentageToIcon(wifiStrength as real / 100.0, Icons.NetworkWifiIcons)
      case Ethernet => Icons.NetworkWiredIcons[0]
      case _ => Icons.NetworkWifiIcons[0]
    else Icons.NetworkWifiIcons[0]
  }

  /** The four classes cleared before every update. */
  const StateClasses: set<string> := {"network-connected", "network-disconnected", "network-wifi", "network-ethernet"}

  /** The state classes an update applies. */
  function AppliedClasses(connected: bool, deviceType: DeviceType): (r: set<string>)
    ensures r <= StateClasses
    ensures "network-connected" in r <==> connected
    ensures "network-disconnected" in r <==> !connected
    ensures "network-wifi" in r <==> connected && deviceType == Wifi
    ensures "network-ethernet" in r <==> connected && deviceType == Ethernet
  {
    if connected then
      {"network-connected"} + (if deviceType == Wifi then {"network-wifi"} else if deviceType == Ethernet then {"network-ethernet"} else {})
    else {"network-disconnected"}
  }

  /** A disconnected tile, whatever its device type, shows the weakest Wi-Fi
      glyph; connected Wi-Fi at full strength or above shows the strongest;
      connected Ethernet shows the wired glyph. */
  lemma IconRules(connected: bool, deviceType: DeviceType, wifiStrength: nat)
    ensures !connected ==> DisplayIcon(connected, deviceType, wifiStrength) == Icons.NetworkWifiIcons[0]
    ensures connected && deviceType == Wifi && wifiStrength >= 100 ==>
      DisplayIcon(connected, deviceType, wifiStrength) == Icons.NetworkWifiIcons[4]
    ensures connected && deviceType == Wifi && wifiStrength < 20 ==>
      DisplayIcon(connected, deviceType, wifiStrength) == Icons.NetworkWifiIcons[0]
    ensures connected && deviceType == Ethernet ==> DisplayIcon(connected, deviceType, wifiStrength) == Icons.NetworkWiredIcons[0]
    ensures connected && deviceType != Wifi && deviceType != Ethernet ==>
      DisplayIcon(connected, deviceType, wifiStrength) == Icons.NetworkWifiIcons[0]
  {
    var f := wifiStrength as real / 100.0;
    Icons.IconIndexEnds(f, 5);
  }

  /** The tile's icon label. */
  class NetworkIconLabel {
    var text: string
    var classes: set<string>

    /** The label starts with the `icon` and `dim` classes. */
    constructor ()
      ensures text == "" && classes == {"icon", "dim"}
    {
      text := "";
      classes := {"icon", "dim"};
    }

    /** `update_display`: sets the glyph, replaces the state classes and
        brightens the label until the fade timer fires. */
    method UpdateDisplay(connected: bool, deviceType: DeviceType, wifiStrength: nat)
      modifies this
      ensures text == DisplayIcon(connected, deviceType, wifiStrength)
      ensures classes == (old(classes) - StateClasses - {"dim"}) + AppliedClasses(connected, deviceType) + {"bright"}
    {
      text := DisplayIcon(connected, deviceType, wifiStrength);
      classes := classes - StateClasses;
      if connected {
        classes := classes + {"network-connected"};
        if deviceType == Wifi {
          classes := classes + {"network-wifi"};
        } else if deviceType == Ethernet {
          classes := classes + {"network-ethernet"};
        }
      } else {
        classes := classes + {"network-disconnected"};
      }
      classes := classes - {"dim"};
      classes := classes + {"bright"};
    }

    /** The three-second fade timer: back to dim. */
    method FadeTimeout()
      modifies this`classes
      ensures classes == old(classes) - {"bright"} + {"dim"}
    {
      classes := classes - {"bright"};
      classes := classes + {"dim"};
    }
  }

  /** After an update exactly one of connected and disconnected is applied,
      at most one type class, and the label is bright, not dim; the fade
      timer makes it dim and keeps the state classes. */
  lemma UpdateThenFade(before: set<string>, connected: bool, deviceType: DeviceType)
    ensures var after := (before - StateClasses - {"dim"}) + AppliedClasses(connected, deviceType) + {"bright"};
      && ("network-connected" in after <==> connected)
      && ("network-disconnected" in after <==> !connected)
      && !("network-wifi" in after && "network-ethernet" in after)
      && "bright" in after && "dim" !in after
      && (after - {"bright"} + {"dim"}) * StateClasses == AppliedClasses(connected, deviceType)
  {
  }
}
