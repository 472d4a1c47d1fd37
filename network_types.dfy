/** NetworkManager's numeric enumerations as the shell decodes them: the
    overall state, the device type, the device state and the connectivity.
    Each decoder is total: a code it does not list gives `Unknown`. */
module NetworkTypes {

  datatype State =
    | Unknown | Asleep | Disconnected | Disconnecting | Connecting
    | ConnectedLocal | ConnectedSite | ConnectedGlobal

  /** The discriminant of each state. */
  function StateCode(s: State): nat {
    match s
    case Unknown => 0
    case Asleep => 10
    case Disconnected => 20
    case Disconnecting => 30
    case Connecting => 40
    case ConnectedLocal => 50
    case ConnectedSite => 60
    case ConnectedGlobal => 70
  }

  function StateFrom(code: nat): State {
    match code
    case 10 => Asleep
    case 20 => Disconnected
    case 30 => Disconnecting
    case 40 => Connecting
    case 50 => ConnectedLocal
    case 60 => ConnectedSite
    case 70 => ConnectedGlobal
    case _ => Unknown
  }

  /** Decoding a state's discriminant gives the state back, and a code
      decodes to a state whose discriminant it is, or else to `Unknown`. */
  lemma StateRoundTrip(s: State, code: nat)
    ensures StateFrom(StateCode(s)) == s
    ensures StateCode(StateFrom(code)) == code || StateFrom(code) == Unknown
    ensures StateCode(StateFrom(code)) == code <==> code in {0, 10, 20, 30, 40, 50, 60, 70}
  {
  }

  /** The three connected states. */
  predicate IsConnected(s: State) {
    s == ConnectedLocal || s == ConnectedSite || s == ConnectedGlobal
  }

  /** Connected states are exactly those coded 50 and above. */
  lemma ConnectedCodes(s: State)
    ensures IsConnected(s) <==> StateCode(s) >= 50
  {
  }

  datatype DeviceType =
    | UnknownType | Generic | Ethernet | Wifi | Bt | OlpcMesh | Wimax | Modem
    | Infiniband | Bond | Vlan | Adsl | Bridge | Team | Tun | IpTunnel
    | Macvlan | Vxlan | Veth | Macsec | Dummy | Ppp | OvsInterface | OvsPort
    | OvsBridge | Wpan | Lowpan6 | Wireguard | WifiP2p | Vrf | Loopback

  function DeviceTypeCode(t: DeviceType): nat {
    match t
    case UnknownType => 0
    case Ethernet => 1
    case Wifi => 2
    case Bt => 5
    case OlpcMesh => 6
    case Wimax => 7
    case Modem => 8
    case Infiniband => 9
    case Bond => 10
    case Vlan => 11
    case Adsl => 12
    case Bridge => 13
    case Generic => 14
    case Team => 15
    case Tun => 16
    case IpTunnel => 17
    case Macvlan => 18
    case Vxlan => 19
    case Veth => 20
    case Macsec => 21
    case Dummy => 22
    case Ppp => 23
    case OvsInterface => 24
    case OvsPort => 25
    case OvsBridge => 26
    case Wpan => 27
    case Lowpan6 => 28
    case Wireguard => 29
    case WifiP2p => 30
    case Vrf => 31
    case Loopback => 32
  }

  function DeviceTypeFrom(code: nat): DeviceType {
    match code
    case 1 => Ethernet
    case 2 => Wifi
    case 5 => Bt
    case 6 => OlpcMesh
    case 7 => Wimax
    case 8 => Modem
    case 9 => Infiniband
    case 10 => Bond
    case 11 => Vlan
    case 12 => Adsl
    case 13 => Bridge
    case 14 => Generic
    case 15 => Team
    case 16 => Tun
    case 17 => IpTunnel
    case 18 => Macvlan
    case 19 => Vxlan
    case 20 => Veth
    case 21 => Macsec
    case 22 => Dummy
    case 23 => Ppp
    case 24 => OvsInterface
    case 25 => OvsPort
    case 26 => OvsBridge
    case 27 => Wpan
    case 28 => Lowpan6
    case 29 => Wireguard
    case 30 => WifiP2p
    case 31 => Vrf
    case 32 => Loopback
    case _ => UnknownType
  }

  /** Every declared discriminant decodes back to its type; 3, 4 and every
      code above 32 decode to `Unknown`. */
  lemma DeviceTypeRoundTrip(t: DeviceType, code: nat)
    ensures DeviceTypeFrom(DeviceTypeCode(t)) == t
    ensures DeviceTypeCode(DeviceTypeFrom(code)) == code <==> code <= 32 && code != 3 && code != 4
    ensures code == 3 || code == 4 || code > 32 ==> DeviceTypeFrom(code) == UnknownType
  {
    DeviceTypeDecodes(t);
    DeviceTypeEncodes(code);
  }

  lemma DeviceTypeDecodes(t: DeviceType)
    ensures DeviceTypeFrom(DeviceTypeCode(t)) == t
  {
  }

  lemma DeviceTypeEncodes(code: nat)
    ensures DeviceTypeCode(DeviceTypeFrom(code)) == code <==> code <= 32 && code != 3 && code != 4
    ensures code == 3 || code == 4 || code > 32 ==> DeviceTypeFrom(code) == UnknownType
  {
  }

  datatype DeviceState =
    | UnknownDevice | Unmanaged | Unavailable | DeviceDisconnected | Prepare
    | Config | NeedAuth | IpConfig | IpCheck | Secondaries | Activated
    | Deactivating | Failed

  function DeviceStateCode(s: DeviceState): nat {
    match s
    case UnknownDevice => 0
    case Unmanaged => 10
    case Unavailable => 20
    case DeviceDisconnected => 30
    case Prepare => 40
    case Config => 50
    case NeedAuth => 60
    case IpConfig => 70
    case IpCheck => 80
    case Secondaries => 90
    case Activated => 100
    case Deactivating => 110
    case Failed => 120
  }

  function DeviceStateFrom(code: nat): DeviceState {
    match code
    case 10 => Unmanaged
    case 20 => Unavailable
    case 30 => DeviceDisconnected
    case 40 => Prepare
    case 50 => Config
    case 60 => NeedAuth
    case 70 => IpConfig
    case 80 => IpCheck
    case 90 => Secondaries
    case 100 => Activated
    case 110 => Deactivating
    case 120 => Failed
    case _ => UnknownDevice
  }

  /** Device states round-trip; the codes that decode to themselves are the
      multiples of ten up to 120. */
  lemma DeviceStateRoundTrip(s: DeviceState, code: nat)
    ensures DeviceStateFrom(DeviceStateCode(s)) == s
    ensures DeviceStateCode(DeviceStateFrom(code)) == code <==> code % 10 == 0 && code <= 120
  {
  }

  datatype Connectivity = UnknownConnectivity | NoConnectivity | Portal | Limited | Full

  function ConnectivityCode(c: Connectivity): nat {
    match c
    case UnknownConnectivity => 0
    case NoConnectivity => 1
    case Portal => 2
    case Limited => 3
    case Full => 4
  }

  function ConnectivityFrom(code: nat): Connectivity {
    match code
    case 1 => NoConnectivity
    case 2 => Portal
    case 3 => Limited
    case 4 => Full
    case _ => UnknownConnectivity
  }

  /** Connectivity round-trips; 1 to 4 name the known levels and every other
      code gives `Unknown`. */
  lemma ConnectivityRoundTrip(c: Connectivity, code: nat)
    ensures ConnectivityFrom(ConnectivityCode(c)) == c
    ensures ConnectivityCode(ConnectivityFrom(code)) == code <==> code <= 4
    ensures code == 0 || code > 4 <==> ConnectivityFrom(code) == UnknownConnectivity
  {
  }
}
