/** The StatusNotifierItem values the tray reads: the `Status` and
    `Category` properties, decoded from D-Bus strings as the freedesktop
    StatusNotifierItem specification names them, and the address of an
    item announced by its service string. */
module StatusNotifierItem {
  import opened Wrappers
  import opened RustText

  datatype Status = Passive | Active | NeedsAttention

  /** `StatusNotifierStatus::default()`. */
  const DefaultStatus: Status := Passive

  function StatusName(s: Status): string {
    match s
    case Passive => "Passive"
    case Active => "Active"
    case NeedsAttention => "NeedsAttention"
  }

  /** `From<Str>`: the two named non-default statuses decode to
      themselves; any other string is `Passive`. */
  function StatusFrom(s: string): (status: Status)
    ensures status == Active <==> s == "Active"
    ensures status == NeedsAttention <==> s == "NeedsAttention"
  {
    if s == "Active" then Active
    else if s == "NeedsAttention" then NeedsAttention
    else Passive
  }

  /** Each status's name decodes back to it. */
  lemma StatusRoundTrip(s: Status)
    ensures StatusFrom(StatusName(s)) == s
  {
  }

  datatype Category = ApplicationStatus | Communications | SystemServices | Hardware | Other

  function CategoryName(c: Category): string {
    match c
    case ApplicationStatus => "ApplicationStatus"
    case Communications => "Communications"
    case SystemServices => "SystemServices"
    case Hardware => "Hardware"
    case Other => "Other"
  }

  /** `From<Str>`: the four named categories decode to themselves; any
      other string is `Other`. */
  function CategoryFrom(s: string): (category: Category)
    ensures category != Other ==> s == CategoryName(category)
    ensures s !in {"ApplicationStatus", "Communications", "SystemServices", "Hardware"} ==> category == Other
  {
    if s == "ApplicationStatus" then ApplicationStatus
    else if s == "Communications" then Communications
    else if s == "SystemServices" then SystemServices
    else if s == "Hardware" then Hardware
    else Other
  }

  /** Each category's name decodes back to it. */
  lemma CategoryRoundTrip(c: Category)
    ensures CategoryFrom(CategoryName(c)) == c
  {
  }

  /** A D-Bus value as far as decoding cares: a string or something else. */
  datatype Value = StrValue(s: string) | OtherValue

  /** `TryFrom<OwnedValue>`: fails only on a value that is not a string. */
  function StatusTryFrom(v: Value): (r: Result<Status, string>)
    ensures r.Ok? <==> v.StrValue?
    ensures r.Ok? ==> r.value == StatusFrom(v.s)
  {
    match v
    case StrValue(s) => Ok(StatusFrom(s))
    case OtherValue => Err("value is not a string")
  }

  function CategoryTryFrom(v: Value): (r: Result<Category, string>)
    ensures r.Ok? <==> v.StrValue?
    ensures r.Ok? ==> r.value == CategoryFrom(v.s)
  {
    match v
    case StrValue(s) => Ok(CategoryFrom(s))
    case OtherValue => Err("value is not a string")
  }

  /** The item's well-known object path. */
  const ItemPath: string := "/StatusNotifierItem"

  /** The (bus name, object path) the host and the watcher make of a
      registered service string: an object path (leading '/') on an
      unknown bus, or a bus name with the well-known path. */
  function ServiceAddress(service: string): (address: (string, string))
    ensures StartsWith(service, "/") ==> address == ("unknown", service)
    ensures !StartsWith(service, "/") ==> address == (service, ItemPath)
  {
    if |service| > 0 && service[0] == '/' then ("unknown", service) else (service, ItemPath)
  }

  /** The object path always starts with '/', and the service string
      is kept whole on one side. Two different services can share an
      address: the bus name "unknown" and the path "/StatusNotifierItem". */
  lemma ServiceAddressRules(service: string)
    ensures var (bus, path) := ServiceAddress(service);
      && StartsWith(path, "/")
      && (path == service || bus == service)
    ensures ServiceAddress("unknown") == ServiceAddress(ItemPath)
  {
  }
}
