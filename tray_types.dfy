/** The tray's shared records: one entry per status-notifier item and the
    global tray state that the watcher publishes. */
module TrayTypes {
  import opened Wrappers
  import SNI = StatusNotifierItem

  /** What the tray knows about one item (pixmap, tooltip and menu are not
      part of this model). */
  datatype TrayItem = TrayItem(
    id: string,
    title: string,
    iconName: Option<string>,
    status: SNI.Status,
    serviceName: string,
    objectPath: string)

  /** The global tray state: the items on display and whether the tray is
      expanded. */
  class TrayState {
    var items: seq<TrayItem>
    var expanded: bool

    /** The tray service starts the state empty and collapsed. */
    constructor ()
      ensures items == [] && !expanded
    {
      items := [];
      expanded := false;
    }
  }
}
