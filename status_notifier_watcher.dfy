/** The tray's `org.freedesktop.StatusNotifierWatcher` object. It keeps a table
    of registered items and publishes its values to the global tray state.
    Registration parses the announced service but does not store anything
    yet, so the table stays as it was: a watcher starts with an empty table
    and therefore keeps publishing an empty tray. */
module StatusNotifierWatcher {
  import opened Wrappers
  import opened MapOrder
  import SNI = StatusNotifierItem
  import opened TrayTypes

  class Watcher {
    /** Registered items, keyed by the announced service. */
    var registeredItems: map<string, TrayItem>
    /** The global tray state the watcher publishes to. */
    const trayState: TrayState

    constructor (trayState: TrayState)
      ensures this.trayState == trayState
      ensures registeredItems == map[]
    {
      this.trayState := trayState;
      registeredItems := map[];
    }

    /** `update_tray_state`: replaces the published items with the table's
        values, in whatever order the table yields them; the expanded flag
        is not touched. */
    method UpdateTrayState() returns (ghost order: seq<string>)
      modifies trayState`items
      ensures IsKeyOrder(order, registeredItems)
      ensures trayState.items == ValuesAt(registeredItems, order)
      ensures |trayState.items| == |registeredItems|
      ensures forall k :: k in registeredItems ==> registeredItems[k] in trayState.items
      ensures forall item :: item in trayState.items ==> item in registeredItems.Values
    {
      var vals;
      vals, order := CollectValues(registeredItems);
      trayState.items := vals;
      forall k | k in registeredItems ensures registeredItems[k] in trayState.items {
        var i :| 0 <= i < |order| && order[i] == k;
        assert vals[i] == registeredItems[k];
      }
    }

    /** `registered_status_notifier_items`: every registered service, once each. */
    method RegisteredItems() returns (services: seq<string>)
      ensures forall s :: s in services <==> s in registeredItems
      ensures forall i, j :: 0 <= i < j < |services| ==> services[i] != services[j]
      ensures |services| == |registeredItems|
    {
      services := CollectKeys(registeredItems);
    }

    /** `register_status_notifier_item`: resolves the service's address, leaves
        the table as it was, republishes the table and always succeeds. */
    method RegisterItem(service: string) returns (r: Result<(), string>, address: (string, string), ghost order: seq<string>)
      modifies trayState`items
      ensures address == SNI.ServiceAddress(service)
      ensures IsKeyOrder(order, registeredItems)
      ensures trayState.items == ValuesAt(registeredItems, order)
      ensures registeredItems == old(registeredItems)
      ensures registeredItems == map[] ==> trayState.items == []
      ensures r == Ok(())
    {
      address := SNI.ServiceAddress(service);
      order := UpdateTrayState();
      KeyOrderLength(order, registeredItems);
      r := Ok(());
    }

    /** `register_status_notifier_host`: the watcher is the host, so this does
        nothing and succeeds. */
    method RegisterHost(service: string) returns (r: Result<(), string>)
      ensures r == Ok(())
    {
      r := Ok(());
    }

    /** The watcher reports a host as registered and protocol version 0. */
    predicate IsHostRegistered()
      ensures IsHostRegistered()
    {
      true
    }

    function ProtocolVersion(): (v: int)
      ensures v == 0
    {
      0
    }
  }
}
