/** The network menu: a view of the shared network state with a password
    dialog for one SSID. Its Wi-Fi toggle, scan and connect handlers are not
    written yet and panic. */
module NetworkMenu {
  import opened Wrappers
  import Network

  datatype Msg =
    | ToggleWifi(enabled: bool)
    | ScanNetworks
    | ConnectToNetwork(ssid: string)
    | ShowPasswordDialog(ssid: string)
    | HidePasswordDialog
    | ConnectWithPassword(ssid: string, password: string)
    | UpdateState(state: Network.NetworkInfo)

  /** The handlers that end in `todo!()`. */
  predicate Unimplemented(msg: Msg) {
    msg.ToggleWifi? || msg.ScanNetworks? || msg.ConnectToNetwork? || msg.ConnectWithPassword?
  }

  datatype AccessPointOutput = Connect(ssid: string) | RequestPassword(ssid: string)

  /** A click on an access point: when its SSID can be read (given here
      already lossily decoded), a password is always requested for it;
      otherwise nothing is sent. */
  function ClickAccessPoint(ssidRead: Option<string>): (out: Option<AccessPointOutput>)
    ensures out.Some? <==> ssidRead.Some?
    ensures out.Some? ==> out.value == RequestPassword(ssidRead.value)
  {
    if ssidRead.Some? then Some(RequestPassword(ssidRead.value)) else None
  }

  function Forward(out: AccessPointOutput): Msg {
    match out
    case Connect(ssid) => ConnectToNetwork(ssid)
    case RequestPassword(ssid) => ShowPasswordDialog(ssid)
  }

  class NetworkMenuModel {
    var networkState: Network.NetworkInfo
    var showPasswordDialog: Option<string>
    var scanning: bool

    /** The menu starts from the current shared state, no dialog, not scanning. */
    constructor (current: Network.NetworkInfo)
      ensures networkState == current && showPasswordDialog.None? && !scanning
    {
      networkState := current;
      showPasswordDialog := None;
      scanning := false;
    }

    /** Handles one message; `panicked` reports that the handler stopped in a
        `todo!()`, after the assignments that precede it. */
    method Update(msg: Msg) returns (panicked: bool)
      modifies this
      ensures panicked <==> Unimplemented(msg)
      ensures networkState == (if msg.UpdateState? then msg.state else old(networkState))
      ensures showPasswordDialog ==
        match msg
        case ShowPasswordDialog(ssid) => Some(ssid)
        case HidePasswordDialog => None
        case ConnectWithPassword(_, _) => None
        case _ => old(showPasswordDialog)
      ensures scanning == old(scanning)
    {
      panicked := false;
      match msg {
        case UpdateState(state) => networkState := state;
        case ToggleWifi(_) => panicked := true;
        case ScanNetworks => panicked := true;
        case ConnectToNetwork(_) => panicked := true;
        case ShowPasswordDialog(ssid) => showPasswordDialog := Some(ssid);
        case HidePasswordDialog => showPasswordDialog := None;
        case ConnectWithPassword(_, _) =>
          showPasswordDialog := None;
          panicked := true;
      }
    }
  }

  /** Every readable access point, clicked, opens the password dialog for
      its SSID and never reaches the panicking connect handler. */
  lemma ClickOpensDialog(ssid: string)
    ensures ClickAccessPoint(Some(ssid)).Some?
    ensures Forward(ClickAccessPoint(Some(ssid)).value) == ShowPasswordDialog(ssid)
    ensures !Unimplemented(Forward(ClickAccessPoint(Some(ssid)).value))
  {
  }
}
