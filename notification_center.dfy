/** The notification center panel: a mirror of the worker's store, a
    visibility flag, and the card list rendered newest first. */
module NotificationCenter {
  import opened Wrappers
  import opened NotificationTypes
  import opened CardList
  import W = NotificationWorker
  import opened MapOrder

  /** Messages the center handles. */
  datatype Msg =
    | Toggle
    | DismissAll
    | ServiceUpdate(output: W.Output)
    | DismissNotification(id: nat)
    | NotificationAction(id: nat, action: string)

  /** The mirrored store after one worker output. */
  function Mirror(m: map<nat, Notification>, out: W.Output): map<nat, Notification> {
    match out
    case Notifications(all) => all
    case NotificationReceived(n) => m[n.id := n]
    case NotificationClosed(id, _) => m - {id}
    case AllCleared => map[]
    case ActionInvokedOut(_, _) => m
    case Error(_) => m
  }

  /** The request a message sends to the worker, given the visibility after
      it: every message but a worker output and a closing toggle sends one,
      and only an opening toggle asks for the stored list. */
  function Request(msg: Msg, visibleAfter: bool): (r: Option<W.Msg>)
    ensures r.Some? <==> !msg.ServiceUpdate? && (msg.Toggle? ==> visibleAfter)
    ensures r == Some(W.GetNotifications) <==> msg.Toggle? && visibleAfter
  {
    match msg
    case Toggle => if visibleAfter then Some(W.GetNotifications) else None
    case DismissAll => Some(W.ClearAll)
    case ServiceUpdate(_) => None
    case DismissNotification(id) => Some(W.CloseNotification(id))
    case NotificationAction(id, action) => Some(W.ActionInvoked(id, action))
  }

  /** Whatever order the map is read in, the rendered list holds the map's values,
      each as often as a key maps to it, newest first. */
  lemma RenderedIsSortedPermutation(m: map<nat, Notification>, order: seq<nat>)
    requires IsKeyOrder(order, m)
    ensures |SortNewestFirst(ValuesAt(m, order))| == |m|
    ensures NewestFirst(SortNewestFirst(ValuesAt(m, order)))
    ensures multiset(SortNewestFirst(ValuesAt(m, order))) == multiset(ValuesAt(m, order))
    ensures forall k :: k in m ==> m[k] in SortNewestFirst(ValuesAt(m, order))
  {
    var vals := ValuesAt(m, order);
    KeyOrderLength(order, m);
    forall k | k in m ensures m[k] in SortNewestFirst(vals) {
      var i :| 0 <= i < |order| && order[i] == k;
      assert vals[i] == m[k];
      assert m[k] in multiset(vals);
    }
  }

  /** The worker answers the request sent at start-up with its whole store
      and keeps the store as it is; mirroring that answer into the empty
      mirror makes the center hold exactly the worker's store. */
  lemma InitialRequestSyncs(store: map<nat, Notification>)
    ensures W.Apply(store, W.GetNotifications) == store
    ensures |W.EffectsOf(store, W.GetNotifications).outputs| == 1
    ensures Mirror(map[], W.EffectsOf(store, W.GetNotifications).outputs[0]) == store
  {
  }

  class NotificationCenter {
    var notifications: map<nat, Notification>
    var visible: bool
    /** The cards currently shown, top to bottom. */
    var cards: seq<Notification>
    /** The request sent to the worker while the center is built. */
    var initialRequest: W.Msg

    /** The center starts hidden with an empty mirror and asks the worker
        for its stored notifications. */
    constructor ()
      ensures !visible && notifications == map[] && cards == []
      ensures initialRequest == W.GetNotifications
    {
      notifications := map[];
      visible := false;
      cards := [];
      initialRequest := W.GetNotifications;
    }

    /** Handles one message, returning the request sent to the worker, if any. */
    method Update(msg: Msg) returns (request: Option<W.Msg>)
      modifies this`notifications, this`visible
      ensures visible == (if msg.Toggle? then !old(visible) else old(visible))
      ensures notifications == (if msg.ServiceUpdate? then Mirror(old(notifications), msg.output) else old(notifications))
      ensures request == Request(msg, visible)
    {
      match msg
      case Toggle =>
        visible := !visible;
        request := if visible then Some(W.GetNotifications) else None;
      case DismissAll =>
        request := Some(W.ClearAll);
      case ServiceUpdate(output) =>
        match output {
          case Notifications(all) => notifications := all;
          case NotificationReceived(n) => notifications := notifications[n.id := n];
          case NotificationClosed(id, _) => notifications := notifications - {id};
          case AllCleared => notifications := map[];
          case ActionInvokedOut(_, _) =>
          case Error(_) =>
        }
        request := None;
      case DismissNotification(id) =>
        request := Some(W.CloseNotification(id));
      case NotificationAction(id, action) =>
        request := Some(W.ActionInvoked(id, action));
    }

    /** Renders: the window follows `visible`; while visible, the card list is
        rebuilt from the mirror, newest first. */
    method UpdateView() returns (windowVisible: bool, ghost order: seq<nat>)
      modifies this`cards
      ensures windowVisible == visible
      ensures visible ==> IsKeyOrder(order, notifications) && cards == SortNewestFirst(ValuesAt(notifications, order))
      ensures !visible ==> cards == old(cards)
    {
      windowVisible := visible;
      order := [];
      if visible {
        var vals;
        vals, order := CollectValues(notifications);
        ShowCards(SortNewestFirst(vals));
      }
    }

    /** Clears the list box and appends one card per notification, in order. */
    method ShowCards(sorted: seq<Notification>)
      modifies this`cards
      ensures cards == sorted
    {
      cards := [];
      var i := 0;
      while i < |sorted|
        invariant 0 <= i <= |sorted|
        invariant cards == sorted[..i]
      {
        cards := cards + [sorted[i]];
        i := i + 1;
      }
      assert sorted[..|sorted|] == sorted;
    }
  }

  /** A received notification is inserted or overwritten by id, and a closed one
      removed whatever the reason, leaving other ids alone. */
  lemma MirrorReceivedAndClosed(m: map<nat, Notification>, n: Notification, id: nat, reason: nat)
    ensures Mirror(m, W.NotificationReceived(n)) == m[n.id := n]
    ensures Mirror(m, W.NotificationClosed(id, reason)).Keys == m.Keys - {id}
    ensures forall k :: k in m && k != id ==> Mirror(m, W.NotificationClosed(id, reason))[k] == m[k]
  {
  }
}
