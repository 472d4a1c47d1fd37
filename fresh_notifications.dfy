/** The fresh-notification popup: a list of cards with new ones pushed on
    top, a table of pending ten-second auto-dismiss timers keyed by
    notification id, and messages the component sends to itself, which wait
    in a first-in first-out queue. */
module FreshNotifications {
  import opened Wrappers
  import opened NotificationTypes
  import opened CardList

  datatype Msg =
    | NewNotification(notification: Notification)
    | RemoveNotification(id: nat)
    | AutoDismiss(id: nat)
    | NotificationAction(id: nat, action: string)
    | DismissNotification(id: nat)

  datatype Output =
    | NotificationDismissed(id: nat)
    | NotificationActionTriggered(id: nat, action: string)

  /** The whole component state. `timeouts` is the id-keyed table of timer
      handles; `timers` holds the timers still pending, each with the id its
      `AutoDismiss` will name; `queue` holds messages sent to itself. */
  datatype State = State(
    visible: bool,
    cards: seq<Notification>,
    timeouts: map<nat, nat>,
    timers: map<nat, nat>,
    nextToken: nat,
    queue: seq<Msg>)

  /** The popup starts visible, with no cards and no timers. */
  const Initial: State := State(true, [], map[], map[], 0, [])

  /** The window is shown iff it is visible and has at least one card. */
  predicate WindowVisible(s: State) {
    s.visible && |s.cards| > 0
  }

  /** Handles one message: the new state and the outputs emitted. */
  function Handle(s: State, msg: Msg): (State, seq<Output>) {
    match msg
    case NewNotification(n) =>
      var cards := [n] + s.cards;
      if n.urgency != Critical then
        (s.(cards := cards, timeouts := s.timeouts[n.id := s.nextToken],
            timers := s.timers[s.nextToken := n.id], nextToken := s.nextToken + 1), [])
      else (s.(cards := cards), [])
    case RemoveNotification(id) =>
      var timers := if id in s.timeouts then s.timers - {s.timeouts[id]} else s.timers;
      (s.(cards := RemoveFirstId(s.cards, id), timeouts := s.timeouts - {id}, timers := timers), [])
    case AutoDismiss(id) =>
      (s.(timeouts := s.timeouts - {id}, queue := s.queue + [RemoveNotification(id), DismissNotification(id)]), [])
    case DismissNotification(id) =>
      (s.(queue := s.queue + [RemoveNotification(id)]), [NotificationDismissed(id)])
    case NotificationAction(id, action) =>
      (s, [NotificationActionTriggered(id, action)])
  }

  /** A weight that every handled message lowers: a message only ever queues
      messages of smaller total weight. `NotificationPopupRelm4.Weight`
      makes the same argument for the other popup's messages. */
  function Weight(q: seq<Msg>): nat {
    if q == [] then 0 else MsgWeight(q[0]) + Weight(q[1..])
  }

  function MsgWeight(m: Msg): nat {
    match m
    case AutoDismiss(_) => 4
    case DismissNotification(_) => 2
    case _ => 1
  }

  lemma {:induction false} WeightAppend(a: seq<Msg>, b: seq<Msg>)
    ensures Weight(a + b) == Weight(a) + Weight(b)
  {
    if a != [] {
      assert (a + b)[0] == a[0];
      assert (a + b)[1..] == a[1..] + b;
      WeightAppend(a[1..], b);
    } else {
      assert a + b == b;
    }
  }

  /** Takes the first queued message off the queue and handles it. */
  function Step(s: State): (State, seq<Output>)
    requires s.queue != []
  {
    Handle(s.(queue := s.queue[1..]), s.queue[0])
  }

  /** Handling the first queued message lowers the weight of the queue. */
  lemma StepLowersWeight(s: State)
    requires s.queue != []
    ensures Weight(Step(s).0.queue) < Weight(s.queue)
  {
    var msg, rest := s.queue[0], s.queue[1..];
    assert Weight(s.queue) == MsgWeight(msg) + Weight(rest);
    assert Weight([msg]) == MsgWeight(msg) by {
      assert [msg][1..] == [];
    }
    assert Weight(s.queue) == Weight([msg]) + Weight(rest) by {
      assert s.queue == [msg] + rest;
      WeightAppend([msg], rest);
    }
    match msg
    case AutoDismiss(id) =>
      WeightAppend(rest, [RemoveNotification(id), DismissNotification(id)]);
      assert [RemoveNotification(id), DismissNotification(id)][1..] == [DismissNotification(id)];
      assert [DismissNotification(id)][1..] == [];
    case DismissNotification(id) =>
      WeightAppend(rest, [RemoveNotification(id)]);
      assert [RemoveNotification(id)][1..] == [];
    case _ =>
  }

  /** Handling the queued messages one by one until none is left. */
  function Drain(s: State): (r: (State, seq<Output>))
    ensures r.0.queue == []
    decreases Weight(s.queue)
  {
    if s.queue == [] then (s, [])
    else
      var step := Step(s);
      StepLowersWeight(s);
      var rest := Drain(step.0);
      (rest.0, step.1 + rest.1)
  }

  /** Draining a non-empty queue handles its first message and drains the rest. */
  lemma DrainStep(s: State)
    requires s.queue != []
    ensures Drain(s) == (Drain(Step(s).0).0, Step(s).1 + Drain(Step(s).0).1)
  {
  }

  /** A new card goes on top and the list grows by one, with no check for an
      existing card with the same id; a timer is registered iff the
      notification is not critical. */
  lemma NewNotificationEffect(s: State, n: Notification)
    requires TokensBelow(s)
    ensures var r := Handle(s, NewNotification(n)).0;
      && r.cards == [n] + s.cards && |r.cards| == |s.cards| + 1
      && (n.id in r.timeouts <==> n.urgency != Critical || n.id in s.timeouts)
      && (n.urgency != Critical ==> r.timers[r.timeouts[n.id]] == n.id && r.timeouts[n.id] !in s.timers.Keys + s.timeouts.Values)
      && (n.urgency == Critical ==> r.timeouts == s.timeouts && r.timers == s.timers)
  {
  }

  /** Every timer handle ever given out is below `nextToken`. */
  predicate TokensBelow(s: State) {
    && (forall t :: t in s.timers ==> t < s.nextToken)
    && (forall id :: id in s.timeouts ==> s.timeouts[id] < s.nextToken)
  }

  /** An auto-dismiss, once its queued messages are handled, takes the first
      card with the id off the list twice (once directly, once through the
      dismissal), reports exactly one dismissal, and leaves no timer entry for
      the id. */
  lemma AutoDismissEffect(s: State, id: nat)
    requires s.queue == []
    ensures var after := Drain(Handle(s, AutoDismiss(id)).0);
      && after.0.cards == RemoveFirstId(RemoveFirstId(s.cards, id), id)
      && after.1 == [NotificationDismissed(id)]
      && id !in after.0.timeouts
  {
    var s1 := Handle(s, AutoDismiss(id)).0;
    assert s1.queue == [RemoveNotification(id), DismissNotification(id)];
    var s2 := Step(s1).0;
    assert Step(s1).1 == [];
    assert s2.queue == [DismissNotification(id)];
    var s3 := Step(s2);
    assert s3.0.queue == [RemoveNotification(id)];
    assert s3.1 == [NotificationDismissed(id)];
    var s4 := Step(s3.0);
    assert s4.0.queue == [] && s4.1 == [];
    assert s4.0.cards == RemoveFirstId(RemoveFirstId(s.cards, id), id);
    assert Drain(s4.0) == (s4.0, []);
    DrainStep(s3.0);
    assert Drain(s3.0).0 == s4.0;
    assert Drain(s3.0).1 == [];
    DrainStep(s2);
    assert Drain(s2).0 == s4.0;
    assert Drain(s2).1 == [NotificationDismissed(id)];
  }

  /** A user dismissal removes one card and emits exactly one dismissal. */
  lemma DismissEffect(s: State, id: nat)
    requires s.queue == []
    ensures var after := Drain(Handle(s, DismissNotification(id)).0);
      && after.0.cards == RemoveFirstId(s.cards, id)
      && Handle(s, DismissNotification(id)).1 == [NotificationDismissed(id)]
      && after.1 == []
  {
    var s1 := Handle(s, DismissNotification(id)).0;
    var s2 := Step(s1);
    assert s2.0.queue == [] && s2.1 == [];
    assert Drain(s2.0) == (s2.0, []);
  }

  /** When at most one card carries the id, the second removal that an
      auto-dismiss causes changes nothing. */
  lemma AutoDismissSingleCard(s: State, id: nat)
    requires s.queue == [] && CountId(s.cards, id) <= 1
    ensures Drain(Handle(s, AutoDismiss(id)).0).0.cards == RemoveFirstId(s.cards, id)
  {
    AutoDismissEffect(s, id);
    RemoveFirstIdTwice(s.cards, id);
  }

  /** An action is reported as is and changes nothing. */
  lemma ActionEffect(s: State, id: nat, action: string)
    ensures Handle(s, NotificationAction(id, action)) == (s, [NotificationActionTriggered(id, action)])
  {
  }

  class FreshNotificationsComponent {
    var visible: bool
    var cards: seq<Notification>
    var timeouts: map<nat, nat>
    var timers: map<nat, nat>
    var nextToken: nat
    var queue: seq<Msg>

    function Snapshot(): State
      reads this
    {
      State(visible, cards, timeouts, timers, nextToken, queue)
    }

    constructor ()
      ensures Snapshot() == Initial
    {
      visible := true;
      cards := [];
      timeouts := map[];
      timers := map[];
      nextToken := 0;
      queue := [];
    }

    /** Handles one delivered message. */
    method Update(msg: Msg) returns (outputs: seq<Output>)
      modifies this
      ensures Snapshot() == Handle(old(Snapshot()), msg).0
      ensures outputs == Handle(old(Snapshot()), msg).1
    {
      outputs := [];
      match msg
      case NewNotification(n) =>
        cards := [n] + cards;
        if n.urgency != Critical {
          var token := nextToken;
          nextToken := nextToken + 1;
          timers := timers[token := n.id];
          timeouts := timeouts[n.id := token];
        }
      case RemoveNotification(id) =>
        if id in timeouts {
          var token := timeouts[id];
          timeouts := timeouts - {id};
          timers := timers - {token};
        }
        var index := FindFirstIndex(cards, id);
        if index.Some? {
          cards := RemoveAt(cards, index.value);
        }
        assert cards == RemoveFirstId(old(cards), id);
      case AutoDismiss(id) =>
        timeouts := timeouts - {id};
        queue := queue + [RemoveNotification(id), DismissNotification(id)];
      case DismissNotification(id) =>
        queue := queue + [RemoveNotification(id)];
        outputs := [NotificationDismissed(id)];
      case NotificationAction(id, action) =>
        outputs := [NotificationActionTriggered(id, action)];
    }

    /** A pending timer fires: it is no longer pending and queues an auto-dismiss. */
    method FireTimer(token: nat)
      requires token in timers
      modifies this`timers, this`queue
      ensures timers == old(timers) - {token}
      ensures queue == old(queue) + [AutoDismiss(old(timers)[token])]
    {
      var id := timers[token];
      timers := timers - {token};
      queue := queue + [AutoDismiss(id)];
    }

    /** Handles the queued messages until none is left. */
    method DrainQueue() returns (outputs: seq<Output>)
      modifies this
      ensures Snapshot() == Drain(old(Snapshot())).0
      ensures outputs == Drain(old(Snapshot())).1
    {
      outputs := [];
      ghost var goal := Drain(old(Snapshot()));
      while queue != []
        invariant Drain(Snapshot()).0 == goal.0
        invariant outputs + Drain(Snapshot()).1 == goal.1
        decreases Weight(queue)
      {
        ghost var before := Snapshot();
        StepLowersWeight(before);
        var msg := queue[0];
        queue := queue[1..];
        var out := Update(msg);
        assert Snapshot() == Step(before).0 && out == Step(before).1;
        DrainStep(before);
        outputs := outputs + out;
      }
    }
  }
}
