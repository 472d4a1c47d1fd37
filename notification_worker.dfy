/** The notification worker: the id-keyed store behind the notification
    center, driven by messages and answering with outputs. */
module NotificationWorker {
  import opened NotificationTypes

  /** Messages the worker accepts. */
  datatype Msg =
    | GetNotifications
    | ClearAll
    | CloseNotification(id: nat)
    | StoreNotification(notification: Notification)
    | ActionInvoked(id: nat, action: string)

  /** Outputs the worker emits to the components that listen to it. */
  datatype Output =
    | NotificationReceived(notification: Notification)
    | NotificationClosed(id: nat, reason: nat)
    | ActionInvokedOut(id: nat, actionKey: string)
    | Notifications(all: map<nat, Notification>)
    | AllCleared
    | Error(message: string)

  /** What handling one message does besides changing the store: the outputs
      it emits and the `ActionInvoked` bus signal it asks the daemon to send. */
  datatype Effects = Effects(outputs: seq<Output>, actionSignal: Option<(nat, string)>)

  import opened Wrappers

  /** The store after a message. */
  function Apply(store: map<nat, Notification>, msg: Msg): map<nat, Notification> {
    match msg
    case GetNotifications => store
    case ClearAll => map[]
    case CloseNotification(id) => store - {id}
    case StoreNotification(n) => store[n.id := n]
    case ActionInvoked(_, _) => store
  }

  /** What a message emits, given the store it is handled in. */
  function EffectsOf(store: map<nat, Notification>, msg: Msg): Effects {
    match msg
    case GetNotifications => Effects([Notifications(store)], None)
    case ClearAll => Effects([AllCleared], None)
    case CloseNotification(_) => Effects([], None)
    case StoreNotification(_) => Effects([], None)
    case ActionInvoked(id, action) => Effects([], Some((id, action)))
  }

  class NotificationService {
    var notifications: map<nat, Notification>

    /** The worker starts with an empty store. */
    constructor ()
      ensures notifications == map[]
    {
      notifications := map[];
    }

    /** Handles one message. */
    method Update(msg: Msg) returns (effects: Effects)
      modifies this
      ensures notifications == Apply(old(notifications), msg)
      ensures effects == EffectsOf(old(notifications), msg)
    {
      match msg
      case GetNotifications =>
        effects := Effects([Notifications(notifications)], None);
      case ClearAll =>
        notifications := map[];
        effects := Effects([AllCleared], None);
      case CloseNotification(id) =>
        notifications := notifications - {id};
        effects := Effects([], None);
      case StoreNotification(n) =>
        notifications := notifications[n.id := n];
        effects := Effects([], None);
      case ActionInvoked(id, action) =>
        effects := Effects([], Some((id, action)));
    }
  }

  /** Storing puts the notification under its own id and leaves every other id alone. */
  lemma StoreInsertsUnderId(store: map<nat, Notification>, n: Notification, other: nat)
    ensures n.id in Apply(store, StoreNotification(n)) && Apply(store, StoreNotification(n))[n.id] == n
    ensures other != n.id ==>
      (other in Apply(store, StoreNotification(n)) <==> other in store) &&
      (other in store ==> Apply(store, StoreNotification(n))[other] == store[other])
  {
  }

  /** Storing the same notification twice is the same as storing it once. */
  lemma StoreIdempotent(store: map<nat, Notification>, n: Notification)
    ensures Apply(Apply(store, StoreNotification(n)), StoreNotification(n)) == Apply(store, StoreNotification(n))
  {
  }

  /** Closing removes exactly the given id; closing an unknown id changes nothing. */
  lemma CloseRemovesOnlyId(store: map<nat, Notification>, id: nat)
    ensures Apply(store, CloseNotification(id)).Keys == store.Keys - {id}
    ensures forall k :: k in store && k != id ==> Apply(store, CloseNotification(id))[k] == store[k]
    ensures id !in store ==> Apply(store, CloseNotification(id)) == store
  {
  }

  /** Clearing empties the store and announces it. */
  lemma ClearAllEmpties(store: map<nat, Notification>)
    ensures Apply(store, ClearAll) == map[]
    ensures EffectsOf(store, ClearAll).outputs == [AllCleared]
  {
  }

  /** A snapshot request changes nothing and reports exactly the store. */
  lemma GetNotificationsIsSnapshot(store: map<nat, Notification>)
    ensures Apply(store, GetNotifications) == store
    ensures EffectsOf(store, GetNotifications).outputs == [Notifications(store)]
  {
  }

  /** An action leaves the store alone and is passed on as a bus signal. */
  lemma ActionLeavesStore(store: map<nat, Notification>, id: nat, action: string)
    ensures Apply(store, ActionInvoked(id, action)) == store
    ensures EffectsOf(store, ActionInvoked(id, action)).actionSignal == Some((id, action))
  {
  }
}
