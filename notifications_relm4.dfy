/** The notifications tile of the bar: a bell that changes when there are
    notifications, and their number, shown only while there is at least one. */
module NotificationsRelm4 {
  import opened Wrappers
  import opened RustText
  import opened TileMessages
  import opened CountLabel

  datatype Msg = Click | UpdateNotifications(count: nat)

  const NotificationIcon: string := "\U{F009A}"
  const NotificationNewIcon: string := "\U{F009B}"

  /** The bell shown for a count: the "new" bell exactly when it is positive. */
  function NotificationIconFor(count: nat): (icon: string)
    ensures icon == NotificationNewIcon <==> count > 0
    ensures icon == NotificationIcon <==> count == 0
  {
    if count > 0 then NotificationNewIcon else NotificationIcon
  }

  class NotificationsWidget {
    var notificationCount: nat
    var hasNotifications: bool

    predicate Valid()
      reads this
    {
      notificationCount <= U32_MAX && (hasNotifications <==> notificationCount > 0)
    }

    constructor ()
      ensures Valid()
      ensures notificationCount == 0 && !hasNotifications
    {
      notificationCount := 0;
      hasNotifications := false;
    }

    /** A click is reported as a click on "notifications"; a new count
        replaces the old one. */
    method Update(msg: Msg) returns (output: Option<TileOutput>)
      requires msg.UpdateNotifications? ==> msg.count <= U32_MAX
      requires Valid()
      modifies this
      ensures Valid()
      ensures msg.Click? ==> output == Some(Clicked("notifications")) && notificationCount == old(notificationCount)
      ensures msg.UpdateNotifications? ==> output == None && notificationCount == msg.count
    {
      match msg
      case Click =>
        output := Some(Clicked("notifications"));
      case UpdateNotifications(count) =>
        notificationCount := count;
        hasNotifications := count > 0;
        output := None;
    }

    /** `get_notification_icon`, which the icon label shows. */
    function Icon(): (icon: string)
      reads this
      requires Valid()
      ensures icon == NotificationNewIcon <==> hasNotifications
    {
      NotificationIconFor(notificationCount)
    }

    function Count(): (shown: Label)
      reads this
      requires Valid()
      ensures shown.visible <==> hasNotifications
    {
      LabelFor(notificationCount)
    }
  }
}
