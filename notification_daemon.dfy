/** The server side of the Desktop Notifications Specification 1.3
    (`org.freedesktop.Notifications`): id allocation, replace-in-place,
    action pairing, an id-keyed map, and the `NotificationClosed` reasons
    1 (expired) and 2 (dismissed by the user). */
module NotificationDaemon {
  import opened Wrappers
  import opened NotificationTypes
  import opened NotificationWorker

  const U32_MAX: nat := 0xFFFF_FFFF
  const U32_RANGE: nat := 0x1_0000_0000

  /** `NotificationClosed` reason: the notification expired. */
  const REASON_EXPIRED: nat := 1
  /** `NotificationClosed` reason: the notification was dismissed by the user. */
  const REASON_DISMISSED: nat := 2

  /** The hints the daemon reads; every other hint is ignored. */
  datatype Hints = Hints(urgency: Option<Urgency>, desktopEntry: Option<string>)

  /** Something a daemon call causes outside its own map. */
  datatype Effect =
    | WorkerInput(msg: Msg)
    | WorkerOutput(output: Output)
    | ClosedSignal(id: nat, reason: nat)
    /** A timer that, `millis` later, emits `NotificationClosed { id, reason: 1 }`. */
    | ExpiryScheduled(id: nat, millis: int)

  /** What an expiry timer emits when it fires: a close with reason 1. */
  function ExpiryOutput(e: Effect): (out: Output)
    requires e.ExpiryScheduled?
    ensures out == NotificationClosed(e.id, REASON_EXPIRED)
  {
    NotificationClosed(e.id, 1)
  }

  /** The process-wide id counter after `k` fresh allocations: it starts at 1
      and `fetch_add` wraps around at `u32::MAX`. */
  function CounterAfter(k: nat): (c: nat)
    ensures c <= U32_MAX
  {
    if k == 0 then 1 else (CounterAfter(k - 1) + 1) % U32_RANGE
  }

  /** Before wrap-around the k-th fresh id is k + 1. */
  lemma {:induction false} CounterAfterNoWrap(k: nat)
    requires k < U32_MAX
    ensures CounterAfter(k) == k + 1
  {
    if k > 0 {
      CounterAfterNoWrap(k - 1);
    }
  }

  /** Fresh ids start at 1 and strictly increase, so they are pairwise distinct,
      as long as fewer than `u32::MAX` have been handed out. */
  lemma FreshIdsIncrease(i: nat, j: nat)
    requires i < j < U32_MAX
    ensures 1 <= CounterAfter(i) < CounterAfter(j)
  {
    CounterAfterNoWrap(i);
    CounterAfterNoWrap(j);
  }

  /** After `u32::MAX` fresh allocations the counter reads 0, the value that
      `replaces_id` uses to mean "no notification". */
  lemma CounterWrapsToZero()
    ensures CounterAfter(U32_MAX) == 0
  {
    CounterWrapsAt(U32_MAX);
  }

  lemma CounterWrapsAt(k: nat)
    requires k == U32_MAX
    ensures CounterAfter(k) == 0
  {
    CounterAfterNoWrap(k - 1);
    assert CounterAfter(k) == (k - 1 + 1 + 1) % U32_RANGE;
  }

  /** The notification `Notify` builds from its arguments. */
  function BuildNotification(id: nat, appName: string, appIcon: string, summary: string, body: string,
                             actions: seq<string>, hints: Hints, expireTimeout: int, now: int): Notification
  {
    Notification(id, appName, appIcon, hints.desktopEntry.UnwrapOr(""), "", summary, body,
                 hints.urgency.UnwrapOr(Normal), expireTimeout, now, PairActions(actions))
  }

  /** The fields of a built notification come from the call, with a Normal
      urgency and an empty desktop entry when the hints say nothing; the
      actions are the call's flat list read as (identifier, label) pairs. */
  lemma BuildNotificationFields(id: nat, appName: string, appIcon: string, summary: string, body: string,
                                actions: seq<string>, hints: Hints, expireTimeout: int, now: int)
    ensures var n := BuildNotification(id, appName, appIcon, summary, body, actions, hints, expireTimeout, now);
      && n.id == id && n.appName == appName && n.appIcon == appIcon
      && n.summary == summary && n.body == body
      && n.timeout == expireTimeout && n.timestamp == now
      && (hints.urgency.None? ==> n.urgency == Normal)
      && (hints.urgency.Some? ==> n.urgency == hints.urgency.value)
      && (hints.desktopEntry.None? ==> n.desktopEntry == "")
      && (hints.desktopEntry.Some? ==> n.desktopEntry == hints.desktopEntry.value)
      && n.actions == PairActions(actions)
      && |n.actions| == |actions| / 2
      && (forall k :: 0 <= k < |n.actions| ==> n.actions[k] == (actions[2 * k], actions[2 * k + 1]))
      && n.image == ""
  {
  }

  /** The capabilities the daemon announces. */
  function Capabilities(): (caps: seq<string>)
    ensures |caps| == 9
    ensures "actions" in caps && "body" in caps && "persistence" in caps
    ensures forall i, j :: 0 <= i < j < |caps| ==> caps[i] != caps[j]
  {
    ["action-icons", "actions", "body", "body-hyperlinks", "body-images",
     "body-markup", "icon-static", "persistence", "sound"]
  }

  /** Name, vendor, version and the specification version implemented. */
  function ServerInformation(): (info: (string, string, string, string))
    ensures info.3 == "1.3"
  {
    ("cadenza-shell", "municorn", "1.0.0", "1.3")
  }

  class NotificationsDaemon {
    /** The process-wide id counter (a static atomic). */
    var nextId: nat
    var notifications: map<nat, Notification>
    /** How many fresh ids have been handed out. */
    ghost var freshCount: nat

    ghost predicate Valid()
      reads this
    {
      nextId == CounterAfter(freshCount)
    }

    constructor ()
      ensures Valid() && freshCount == 0 && nextId == 1
      ensures notifications == map[]
    {
      nextId := 1;
      freshCount := 0;
      notifications := map[];
    }

    /** `Notify`: stores a new notification, or replaces the one with id
        `replacesId` when that is not 0, and returns its id. */
    method Notify(appName: string, replacesId: nat, appIcon: string, summary: string, body: string,
                  actions: seq<string>, hints: Hints, expireTimeout: int, now: int)
      returns (id: nat, effects: seq<Effect>)
      requires Valid()
      modifies this
      ensures Valid()
      ensures replacesId != 0 ==> id == replacesId && nextId == old(nextId) && freshCount == old(freshCount)
      ensures replacesId == 0 ==> id == old(nextId) && freshCount == old(freshCount) + 1
      ensures replacesId == 0 ==> nextId == (old(nextId) + 1) % U32_RANGE
      ensures var n := BuildNotification(id, appName, appIcon, summary, body, actions, hints, expireTimeout, now);
        && notifications == old(notifications)[id := n]
        && effects == [WorkerInput(StoreNotification(n)), WorkerOutput(NotificationReceived(n))]
                      + (if expireTimeout > 0 then [ExpiryScheduled(id, expireTimeout)] else [])
    {
      if replacesId != 0 {
        id := replacesId;
      } else {
        id := nextId;
        nextId := (nextId + 1) % U32_RANGE;
        freshCount := freshCount + 1;
      }
      var urgency := hints.urgency.UnwrapOr(Normal);
      var pairs := PairActions(actions);
      var n := Notification(id, appName, appIcon, hints.desktopEntry.UnwrapOr(""), "", summary, body,
                            urgency, expireTimeout, now, pairs);
      effects := [WorkerInput(StoreNotification(n)), WorkerOutput(NotificationReceived(n))];
      notifications := notifications[id := n];
      if expireTimeout > 0 {
        effects := effects + [ExpiryScheduled(id, expireTimeout)];
      }
    }

    /** `CloseNotification`: forgets the id (if present) and reports reason 2. */
    method CloseNotification(id: nat) returns (effects: seq<Effect>)
      modifies this`notifications
      ensures notifications == old(notifications) - {id}
      ensures effects == [ClosedSignal(id, REASON_DISMISSED), WorkerOutput(NotificationClosed(id, REASON_DISMISSED))]
    {
      notifications := notifications - {id};
      effects := [ClosedSignal(id, 2), WorkerOutput(NotificationClosed(id, 2))];
    }

    /** A copy of the stored notifications. */
    method GetNotifications() returns (copy: map<nat, Notification>)
      ensures copy == notifications
    {
      copy := notifications;
    }

    /** Forgets every stored notification. */
    method ClearAll()
      modifies this`notifications
      ensures notifications == map[]
    {
      notifications := map[];
    }
  }
}
