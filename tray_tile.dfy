/** The bar's system tray: a toggle button that slides a row of item buttons
    in and out, and a table of the items found through the
    status-notifier watcher. Every answer from the bus (reaching it, the
    watcher, an item's proxy and its properties) is an input here. */
module TrayTile {
  import opened Wrappers
  import opened RustText
  import SNI = StatusNotifierItem

  /** One tray entry (the pixmap and menu are always empty and not kept). */
  datatype TrayItem = TrayItem(id: string, title: string, tooltip: string, iconName: string)

  /** What an item's proxy answers for each property; `None` is a failed read. */
  datatype ItemProps = ItemProps(
    id: Option<string>,
    title: Option<string>,
    tooltip: Option<string>,
    iconName: Option<string>)

  /** A button in the item row: the icon it shows, if any, and its tooltip. */
  datatype ItemButton = ItemButton(icon: Option<string>, tooltip: string)

  const FallbackIcon: string := "application-x-executable"

  // ---------------------------------------------------------------------
  // Addressing an item
  // ---------------------------------------------------------------------

  /** The bus name and object path an announced service is reached at: split
      at the first '/', the path keeping its slash; without a '/', the whole
      string is the bus name and the path is the standard one. */
  function ItemAddress(service: string): (address: (string, string))
    ensures '/' !in service ==> address == (service, SNI.ItemPath)
    ensures '/' in service ==> address.0 + address.1 == service && '/' !in address.0
    ensures |address.1| > 0 && address.1[0] == '/'
  {
    match SplitOnce(service, "/")
    case Some((bus, rest)) =>
      assert '/' !in bus by {
        forall j | 0 <= j < |bus| ensures bus[j] != '/' {
          assert !MatchesAt(service, "/", j);
          assert service[j] == bus[j];
        }
      }
      (bus, "/" + rest)
    case None =>
      assert '/' !in service by {
        forall j | 0 <= j < |service| ensures service[j] != '/' {
          assert !MatchesAt(service, "/", j);
        }
      }
      (service, SNI.ItemPath)
  }

  /** Splitting recovers any bus name without '/' and any path. */
  lemma AddressRoundTrip(bus: string, path: string)
    requires '/' !in bus && |path| > 0 && path[0] == '/'
    ensures ItemAddress(bus + path) == (bus, path)
  {
    assert bus + path == bus + "/" + path[1..];
    SplitOnceAfterPrefix(bus, "/", path[1..]);
  }

  /** A service announced as a bare object path (as the watcher and host
      allow) splits to an empty bus name. */
  lemma BarePathHasNoBusName(service: string)
    requires |service| > 0 && service[0] == '/'
    ensures ItemAddress(service) == ("", service)
  {
    AddressRoundTrip("", service);
    assert "" + service == service;
  }

  // ---------------------------------------------------------------------
  // Building the entry
  // ---------------------------------------------------------------------

  /** `unwrap_or_default` on a property read. */
  function OrEmpty(read: Option<string>): (s: string)
    ensures read.Some? ==> s == read.value
    ensures read.None? ==> s == ""
  {
    if read.Some? then read.value else ""
  }

  /** The entry built from the properties read. */
  function ItemFrom(p: ItemProps): TrayItem {
    TrayItem(OrEmpty(p.id), OrEmpty(p.title), OrEmpty(p.tooltip), OrEmpty(p.iconName))
  }

  /** The icon chosen for an item: its own, or the generic one when it has
      none. */
  function IconFor(item: TrayItem): (icon: string)
    ensures icon != ""
    ensures item.iconName != "" ==> icon == item.iconName
    ensures item.iconName == "" ==> icon == FallbackIcon
  {
    if item.iconName != "" then item.iconName else FallbackIcon
  }

  /** The button appended to the row, as written: the image is first made
      the child of a menu button that is never appended, and GTK refuses to
      make a widget that already has a parent the child of a second one, so
      the button keeps no child and shows no icon. */
  function ButtonAsWritten(item: TrayItem): (b: ItemButton)
    ensures b.icon.None? && b.tooltip == item.tooltip
  {
    var imageHasParent := true;
    ItemButton(if imageHasParent then None else Some(IconFor(item)), item.tooltip)
  }

  /** The button appended to the row, as evidently intended: it shows the
      item's icon, or the generic one, with the item's tooltip. */
  function ButtonFor(item: TrayItem): (b: ItemButton)
    ensures b.icon.Some? && b.icon.value != ""
    ensures item.iconName != "" ==> b.icon == Some(item.iconName)
    ensures b.tooltip == item.tooltip
  {
    ItemButton(Some(IconFor(item)), item.tooltip)
  }

  /** Every button in the row as written is blank; the intended one shows
      an icon, and both carry the same tooltip. */
  lemma ButtonLosesIcon(item: TrayItem)
    ensures ButtonAsWritten(item).icon.None? && ButtonFor(item).icon == Some(IconFor(item))
    ensures ButtonAsWritten(item).tooltip == ButtonFor(item).tooltip
  {
  }

  /** The toggle's icon points the way the row will slide. */
  function ToggleIcon(expanded: bool): (icon: string)
    ensures expanded <==> icon == "pan-end-symbolic"
  {
    if expanded then "pan-end-symbolic" else "pan-start-symbolic"
  }

  /** How adding an item ends in the code as written: an empty bus name makes
      the proxy builder's `destination(..).unwrap()` panic. */
  datatype AddOutcome = Panicked | ProxyFailed | Added(item: TrayItem)

  function AddOutcomeAsWritten(service: string, proxy: Option<ItemProps>): AddOutcome {
    if ItemAddress(service).0 == "" then Panicked
    else if proxy.None? then ProxyFailed
    else Added(ItemFrom(proxy.value))
  }

  /** A bare object path, which the tray's own watcher and host accept, makes
      adding the item panic whatever the proxy would answer. */
  lemma BarePathPanics(proxy: Option<ItemProps>)
    ensures AddOutcomeAsWritten("/org/ayatana/NotificationItem/applet", proxy) == Panicked
  {
    BarePathHasNoBusName("/org/ayatana/NotificationItem/applet");
  }

  /** The entry a service leaves in the table after being added, if any: an
      empty bus name is treated like a proxy that cannot be built. */
  function AddedEntry(service: string, proxy: Option<ItemProps>): (r: Option<TrayItem>)
    ensures r.Some? <==> ItemAddress(service).0 != "" && proxy.Some?
    ensures AddOutcomeAsWritten(service, proxy).Added? ==> r == Some(AddOutcomeAsWritten(service, proxy).item)
  {
    if ItemAddress(service).0 == "" || proxy.None? then None else Some(ItemFrom(proxy.value))
  }

  /** The table after adding the given services one after the other, each
      answered by the proxy in `proxies`, if any. */
  function AddedAll(items: map<string, TrayItem>, services: seq<string>, proxies: map<string, ItemProps>): map<string, TrayItem> {
    if services == [] then items
    else
      var s := services[|services| - 1];
      var before := AddedAll(items, services[..|services| - 1], proxies);
      match AddedEntry(s, if s in proxies then Some(proxies[s]) else None)
      case None => before
      case Some(item) => before[s := item]
  }

  /** After adding a list, every service that could be reached is in the
      table with what its proxy answered, and nothing else was added. */
  lemma {:induction false} AddedAllContents(items: map<string, TrayItem>, services: seq<string>, proxies: map<string, ItemProps>)
    ensures forall s :: s in services && s in proxies && ItemAddress(s).0 != "" ==>
      s in AddedAll(items, services, proxies) && AddedAll(items, services, proxies)[s] == ItemFrom(proxies[s])
    ensures forall s :: s in AddedAll(items, services, proxies) ==> s in items || s in services
  {
    if services != [] {
      var init, last := services[..|services| - 1], services[|services| - 1];
      assert services == init + [last];
      AddedAllContents(items, init, proxies);
      AddedAllLast(items, services, proxies);
      var before, after := AddedAll(items, init, proxies), AddedAll(items, services, proxies);
      forall s | s in services && s in proxies && ItemAddress(s).0 != ""
        ensures s in after && after[s] == ItemFrom(proxies[s])
      {
        if s != last {
          assert s in init;
        }
      }
      forall s | s in after ensures s in items || s in services {
        if s != last {
          assert s in before;
        }
      }
    }
  }

  /** The last service of the list is added, when reachable, on top of the
      table built from the others. */
  lemma AddedAllLast(items: map<string, TrayItem>, services: seq<string>, proxies: map<string, ItemProps>)
    requires services != []
    ensures var last := services[|services| - 1];
      var before := AddedAll(items, services[..|services| - 1], proxies);
      AddedAll(items, services, proxies)
        == if last in proxies && ItemAddress(last).0 != "" then before[last := ItemFrom(proxies[last])] else before
  {
  }

  /** Adding one more service of the list updates the table by that
      service's entry, if any. */
  lemma AddedAllStep(items: map<string, TrayItem>, services: seq<string>, i: nat, proxies: map<string, ItemProps>)
    requires i < |services|
    ensures var s := services[i];
      var before := AddedAll(items, services[..i], proxies);
      AddedAll(items, services[..i + 1], proxies) ==
        match AddedEntry(s, if s in proxies then Some(proxies[s]) else None)
        case None => before
        case Some(item) => before[s := item]
  {
    assert services[..i + 1][..i] == services[..i];
  }

  class SysTray {
    var items: map<string, TrayItem>
    var expanded: bool
    var revealChild: bool
    var toggleIcon: string
    /** The buttons in the item row, in the order they were appended. */
    var buttons: seq<ItemButton>

    /** The row is revealed exactly when expanded, the toggle's icon agrees,
        and every item in the table has its button in the row. */
    predicate Valid()
      reads this
    {
      && revealChild == expanded
      && toggleIcon == ToggleIcon(expanded)
      && forall s :: s in items ==> ButtonFor(items[s]) in buttons
    }

    constructor ()
      ensures Valid()
      ensures !expanded && items == map[] && buttons == []
    {
      items := map[];
      expanded := false;
      revealChild := false;
      toggleIcon := "pan-start-symbolic";
      buttons := [];
    }

    /** A click on the toggle flips the row and the toggle's icon. */
    method Toggle()
      requires Valid()
      modifies this`expanded, this`revealChild, this`toggleIcon
      ensures Valid()
      ensures expanded == !old(expanded)
    {
      var newExpanded := !expanded;
      revealChild := newExpanded;
      toggleIcon := if newExpanded then "pan-end-symbolic" else "pan-start-symbolic";
      expanded := newExpanded;
    }

    /** `add_tray_item`, with the two corrections of `AddedEntry` and
        `ButtonFor`: when the item can be reached, a button is appended
        (even for a service already in the table) and the entry is inserted
        or replaced; otherwise nothing changes. */
    method AddTrayItem(service: string, proxy: Option<ItemProps>)
      requires Valid()
      modifies this`items, this`buttons
      ensures Valid()
      ensures AddedEntry(service, proxy).None? ==> items == old(items) && buttons == old(buttons)
      ensures AddedEntry(service, proxy).Some? ==>
        && items == old(items)[service := AddedEntry(service, proxy).value]
        && buttons == old(buttons) + [ButtonFor(AddedEntry(service, proxy).value)]
    {
      var address := ItemAddress(service);
      if address.0 == "" {
        return;
      }
      if proxy.None? {
        return;
      }
      var p := proxy.value;
      var item := TrayItem(OrEmpty(p.id), OrEmpty(p.title), OrEmpty(p.tooltip), OrEmpty(p.iconName));
      var image := IconFor(item);
      buttons := buttons + [ItemButton(Some(image), item.tooltip)];
      items := items[service := item];
    }

    /** `remove_tray_item`: the entry goes but its button stays in the row,
        since buttons are not linked to services. */
    method RemoveTrayItem(service: string)
      requires Valid()
      modifies this`items
      ensures Valid()
      ensures items == old(items) - {service}
    {
      items := items - {service};
    }

    /** The items the watcher lists, added one after the other. */
    method AddAll(services: seq<string>, proxies: map<string, ItemProps>)
      requires Valid()
      modifies this`items, this`buttons
      ensures Valid()
      ensures items == AddedAll(old(items), services, proxies)
    {
      var i := 0;
      while i < |services|
        invariant 0 <= i <= |services|
        invariant Valid()
        invariant items == AddedAll(old(items), services[..i], proxies)
      {
        var s := services[i];
        AddedAllStep(old(items), services, i, proxies);
        AddTrayItem(s, if s in proxies then Some(proxies[s]) else None);
        i := i + 1;
      }
      assert services[..|services|] == services;
    }

    /** The start-up part of `setup_status_notifier_watcher`: without a
        session bus it fails; without a watcher it gives up quietly; when the
        watcher lists its items they are added one by one. `subscribed`
        says whether both signal streams could be opened. */
    method SetupWatcher(sessionBus: bool, watcherFound: bool, registered: Option<seq<string>>,
                        proxies: map<string, ItemProps>, subscribed: bool)
      returns (r: Result<(), string>)
      requires Valid()
      modifies this`items, this`buttons
      ensures Valid()
      ensures r.Err? <==> !sessionBus || (watcherFound && !subscribed)
      ensures (!sessionBus || !watcherFound || registered.None?) ==> items == old(items)
      ensures sessionBus && watcherFound && registered.Some? ==> items == AddedAll(old(items), registered.value, proxies)
    {
      if !sessionBus {
        return Err("failed to connect to session bus");
      }
      if !watcherFound {
        return Ok(());
      }
      if registered.Some? {
        AddAll(registered.value, proxies);
      }
      if !subscribed {
        return Err("failed to listen for tray signals");
      }
      r := Ok(());
    }
  }
}
