/** The tray's `org.kde.StatusNotifierHost` object: it is told by the watcher
    when items come and go. Registering an item only checks that the session
    bus can be reached; nothing is stored yet, so the item table only ever
    shrinks. */
module StatusNotifierHost {
  import opened Wrappers
  import opened RustText
  import SNI = StatusNotifierItem
  import TrayTypes

  /** A proxy to a registered item: its bus name and object path. */
  datatype ItemProxy = ItemProxy(destination: string, path: string)

  const InfoPrefix: string := "cadenza-shell StatusNotifierHost at "

  class Host {
    /** The items on display, keyed by service name. */
    var items: map<string, ItemProxy>
    const serviceName: string
    const objectPath: string

    constructor (serviceName: string, objectPath: string)
      ensures this.serviceName == serviceName && this.objectPath == objectPath
      ensures items == map[]
    {
      this.serviceName := serviceName;
      this.objectPath := objectPath;
      items := map[];
    }

    /** `register_item`: fails, with the bus error in the message, exactly when
        the session bus cannot be reached (`sessionBus`); the item table is
        left as it was either way. */
    method RegisterItem(itemService: string, itemPath: string, sessionBus: Result<(), string>)
      returns (r: Result<(), string>)
      ensures r.Ok? <==> sessionBus.Ok?
      ensures r.Err? ==> r.error == "failed to connect to session bus: " + sessionBus.error
    {
      if sessionBus.Err? {
        return Err("failed to connect to session bus: " + sessionBus.error);
      }
      r := Ok(());
    }

    /** `item_registered`: resolves the announced service to a bus name and
        object path and registers the item there. */
    method ItemRegistered(service: string, sessionBus: Result<(), string>)
      returns (r: Result<(), string>, address: (string, string))
      ensures address == SNI.ServiceAddress(service)
      ensures StartsWith(service, "/") ==> address.1 == service
      ensures r.Ok? <==> sessionBus.Ok?
    {
      address := SNI.ServiceAddress(service);
      r := RegisterItem(address.0, address.1, sessionBus);
    }

    /** `unregister_item`: drops the entry for the service, if any, and always
        succeeds. */
    method UnregisterItem(itemService: string) returns (r: Result<(), string>)
      modifies this`items
      ensures items == old(items) - {itemService}
      ensures r == Ok(())
    {
      items := items - {itemService};
      r := Ok(());
    }

    /** `item_unregistered`: the service name is passed on unchanged. */
    method ItemUnregistered(service: string) returns (r: Result<(), string>)
      modifies this`items
      ensures items == old(items) - {service}
      ensures service !in items && |items| <= |old(items)|
      ensures r.Ok?
    {
      r := UnregisterItem(service);
    }

    /** `get_items` is not implemented yet and answers with no items. */
    method GetItems() returns (found: seq<TrayTypes.TrayItem>)
      ensures |found| == 0
    {
      found := [];
    }

    /** `host_info`: names the host's bus name and object path. */
    function HostInfo(): (info: string)
      reads this
      ensures StartsWith(info, InfoPrefix)
      ensures |info| == |InfoPrefix| + |serviceName| + 1 + |objectPath|
    {
      InfoPrefix + serviceName + ":" + objectPath
    }

    /** The host always reports protocol version 0 and that it is registered. */
    function ProtocolVersion(): (v: int)
      ensures v == 0
    {
      0
    }

    predicate IsHostRegistered()
      ensures IsHostRegistered()
    {
      true
    }
  }

  /** When the bus name holds no ':' (a well-known name), the host's address
      can be read back from its info string by splitting at the first ':';
      a unique name such as ":1.42" cannot. */
  lemma HostInfoReadsBack(h: Host)
    requires ':' !in h.serviceName
    ensures SplitOnce(h.HostInfo()[|InfoPrefix|..], ":") == Some((h.serviceName, h.objectPath))
  {
    assert h.HostInfo()[|InfoPrefix|..] == h.serviceName + ":" + h.objectPath;
    SplitOnceAfterPrefix(h.serviceName, ":", h.objectPath);
  }

  /** Registering never adds an item, so over any series of removals the
      table only loses entries: what is left is a part of what was there,
      unchanged, without any removed service. */
  lemma {:induction false} TableOnlyShrinks(before: map<string, ItemProxy>, removed: seq<string>)
    ensures var after := RemoveAll(before, removed);
      && after.Keys <= before.Keys
      && (forall k :: k in after ==> after[k] == before[k])
      && (forall k :: k in removed ==> k !in after)
  {
    if removed != [] {
      TableOnlyShrinks(before - {removed[0]}, removed[1..]);
      assert removed == [removed[0]] + removed[1..];
    }
  }

  /** The table after a series of `unregister_item` calls. */
  function RemoveAll(m: map<string, ItemProxy>, removed: seq<string>): map<string, ItemProxy> {
    if removed == [] then m else RemoveAll(m - {removed[0]}, removed[1..])
  }
}
