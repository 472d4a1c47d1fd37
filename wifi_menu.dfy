/** The Wi-Fi menu: a header glyph, the connection's status lines, a
    password dialog for one SSID and the list of access points, each of which
    asks to connect, or for a password first, when clicked. */
module WifiMenu {
  import opened Wrappers
  import Icons

  datatype AccessPoint = AccessPoint(
    ssid: string,
    strength: nat,
    requiresPassword: bool,
    frequency: nat,
    isActive: bool)

  datatype WifiConnectivity = Full | Limited | NoConnectivity | Portal | UnknownConnectivity

  datatype WifiNetworkState =
    | Asleep | ConnectedGlobal | ConnectedLocal | ConnectedSite
    | Connecting | Disconnected | Disconnecting | UnknownState

  datatype WifiState = WifiState(
    enabled: bool,
    connectedSsid: Option<string>,
    connectivity: WifiConnectivity,
    state: WifiNetworkState,
    accessPoints: seq<AccessPoint>,
    scanning: bool)

  /** `WifiState::default()`. */
  const DefaultState: WifiState := WifiState(false, None, UnknownConnectivity, UnknownState, [], false)

  datatype Msg =
    | ToggleWifi(enabled: bool)
    | ScanNetworks
    | ConnectToNetwork(ssid: string)
    | ShowPasswordDialog(ssid: string)
    | HidePasswordDialog
    | ConnectWithPassword(ssid: string, password: string)
    | UpdateState(state: WifiState)

  function ConnectivityText(c: WifiConnectivity): string {
    match c
    case Full => "Full connectivity"
    case Limited => "Limited connectivity"
    case NoConnectivity => "No connectivity"
    case Portal => "Sign-in needed"
    case UnknownConnectivity => "Connectivity unknown"
  }

  function StateText(s: WifiNetworkState): string {
    match s
    case Asleep => "Sleeping"
    case ConnectedGlobal => "Global access"
    case ConnectedLocal => "Local access only"
    case ConnectedSite => "Site access only"
    case Connecting => "Connecting"
    case Disconnected => "Disconnected"
    case Disconnecting => "Disconnecting"
    case UnknownState => "State unknown"
  }

  /** Different connectivities and different states never share a text. */
  lemma TextsInjective(c1: WifiConnectivity, c2: WifiConnectivity, s1: WifiNetworkState, s2: WifiNetworkState)
    ensures ConnectivityText(c1) == ConnectivityText(c2) ==> c1 == c2
    ensures StateText(s1) == StateText(s2) ==> s1 == s2
  {
  }

  /** The glyph shown when the index falls outside the Wi-Fi glyph list. */
  const FallbackGlyph: string := "\U{F091F}"
  const DisabledGlyph: string := "\U{F092E}"
  const DisconnectedGlyph: string := "\U{F092F}"

  /** `(strength / 100 * 4).round()`: the nearest whole number to
      `strength / 25`, which is never halfway between two. */
  function StrengthIndex(strength: nat): (i: nat)
    ensures 100 * i <= 4 * strength + 50 && 4 * strength < 100 * i + 50
  {
    (2 * strength + 25) / 50
  }

  /** The strength glyph of an access point. */
  function StrengthIcon(strength: nat): string {
    var i := StrengthIndex(strength);
    if i < |Icons.NetworkWifiIcons| then Icons.NetworkWifiIcons[i] else FallbackGlyph
  }

  /** The index stays in the glyph list exactly up to strength 112, so for
      every strength up to 100; 0 to 12 give the weakest glyph, 88 to 112
      the strongest, and a larger strength never gives an earlier glyph. */
  lemma StrengthIconRange(strength: nat, stronger: nat)
    ensures StrengthIndex(strength) < 5 <==> strength <= 112
    ensures strength <= 12 ==> StrengthIcon(strength) == Icons.NetworkWifiIcons[0]
    ensures 88 <= strength <= 112 ==> StrengthIcon(strength) == Icons.NetworkWifiIcons[4]
    ensures strength > 112 ==> StrengthIcon(strength) == FallbackGlyph
    ensures strength <= stronger ==> StrengthIndex(strength) <= StrengthIndex(stronger)
  {
  }

  /** The first active access point, if any. */
  function FirstActive(aps: seq<AccessPoint>): (r: Option<AccessPoint>)
    ensures r.Some? ==> r.value in aps && r.value.isActive
    ensures r.None? <==> forall i :: 0 <= i < |aps| ==> !aps[i].isActive
  {
    if aps == [] then None
    else if aps[0].isActive then Some(aps[0])
    else FirstActive(aps[1..])
  }

  /** The header glyph: disabled, the active access point's strength, or
      disconnected. */
  function NetworkIcon(s: WifiState): string {
    if !s.enabled then DisabledGlyph
    else if s.connectedSsid.Some? && FirstActive(s.accessPoints).Some? then
      StrengthIcon(FirstActive(s.accessPoints).value.strength)
    else DisconnectedGlyph
  }

  /** The disabled glyph shows exactly while Wi-Fi is disabled; a strength
      glyph needs a connected SSID and an active access point; without either
      the disconnected glyph shows. */
  lemma NetworkIconRules(s: WifiState)
    ensures NetworkIcon(s) == DisabledGlyph <==> !s.enabled
    ensures s.enabled && (s.connectedSsid.None? || forall i :: 0 <= i < |s.accessPoints| ==> !s.accessPoints[i].isActive) ==>
      NetworkIcon(s) == DisconnectedGlyph
    ensures s.enabled && s.connectedSsid.Some? && FirstActive(s.accessPoints).Some? ==>
      NetworkIcon(s) == StrengthIcon(FirstActive(s.accessPoints).value.strength)
  {
    if s.enabled && s.connectedSsid.Some? && FirstActive(s.accessPoints).Some? {
      var i := StrengthIndex(FirstActive(s.accessPoints).value.strength);
      assert forall k :: 0 <= k < 5 ==> Icons.NetworkWifiIcons[k] != DisabledGlyph;
    }
  }

  datatype AccessPointOutput = Connect(ssid: string) | RequestPassword(ssid: string)

  /** A click on an access point's row. */
  function ClickAccessPoint(ap: AccessPoint): (out: AccessPointOutput)
    ensures out.ssid == ap.ssid
    ensures out.RequestPassword? <==> ap.requiresPassword
  {
    if ap.requiresPassword then RequestPassword(ap.ssid) else Connect(ap.ssid)
  }

  /** How the menu forwards an access point's output to itself. */
  function Forward(out: AccessPointOutput): Msg {
    match out
    case Connect(ssid) => ConnectToNetwork(ssid)
    case RequestPassword(ssid) => ShowPasswordDialog(ssid)
  }

  /** The message the dialog's connect button sends: the SSID is the fixed
      placeholder "current_ssid", not the SSID the dialog was opened for. */
  function ConnectButton(password: string): (msg: Msg)
    ensures msg.ConnectWithPassword? && msg.password == password
  {
    ConnectWithPassword("current_ssid", password)
  }

  /** Whatever SSID the dialog was opened for, the connect button asks to
      join the placeholder network instead, with the password typed. */
  lemma ConnectButtonIgnoresDialog(dialogSsid: string, password: string)
    requires dialogSsid != "current_ssid"
    ensures ConnectButton(password).ssid != dialogSsid
  {
  }

  class WifiMenuModel {
    var wifiState: WifiState
    var showPasswordDialog: Option<string>
    /** The access-point rows, in display order. */
    var rows: seq<AccessPoint>

    /** The menu starts from the given state with no dialog and no rows. */
    constructor (init: WifiState)
      ensures wifiState == init && showPasswordDialog.None? && rows == []
    {
      wifiState := init;
      showPasswordDialog := None;
      rows := [];
    }

    /** Handles one message. */
    method Update(msg: Msg)
      modifies this
      ensures msg.UpdateState? ==> wifiState == msg.state && rows == msg.state.accessPoints
      ensures !msg.UpdateState? ==> wifiState == old(wifiState) && rows == old(rows)
      ensures showPasswordDialog ==
        match msg
        case ShowPasswordDialog(ssid) => Some(ssid)
        case HidePasswordDialog => None
        case ConnectWithPassword(_, _) => None
        case _ => old(showPasswordDialog)
    {
      match msg {
        case UpdateState(state) =>
          wifiState := state;
          var rebuilt := [];
          var i := 0;
          while i < |state.accessPoints|
            invariant 0 <= i <= |state.accessPoints|
            invariant rebuilt == state.accessPoints[..i]
          {
            rebuilt := rebuilt + [state.accessPoints[i]];
            i := i + 1;
          }
          assert state.accessPoints[..i] == state.accessPoints;
          rows := rebuilt;
        case ToggleWifi(_) =>
        case ScanNetworks =>
        case ConnectToNetwork(_) =>
        case ShowPasswordDialog(ssid) => showPasswordDialog := Some(ssid);
        case HidePasswordDialog => showPasswordDialog := None;
        case ConnectWithPassword(_, _) => showPasswordDialog := None;
      }
    }
  }

  /** A click on an access point that needs a password opens the dialog for
      its SSID; any other click leaves the menu as it was. */
  lemma ClickEffect(ap: AccessPoint)
    ensures Forward(ClickAccessPoint(ap)) == (if ap.requiresPassword then ShowPasswordDialog(ap.ssid) else ConnectToNetwork(ap.ssid))
  {
  }
}
