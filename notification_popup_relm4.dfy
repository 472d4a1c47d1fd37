/** The relm4 notification popup: a card list with new cards pushed on top,
    a wholesale refresh that sorts the service's list newest first, a table of
    ten-second auto-dismiss timers for cards of urgency below 2, a periodic
    check of the service, and self-addressed messages waiting in a first-in
    first-out queue. */
module NotificationPopupRelm4 {
  import opened Wrappers
  import opened NotificationTypes
  import opened CardList

  datatype Msg =
    | Toggle
    | SetVisible(visible: bool)
    | AddNotification(notification: Notification)
    | RemoveNotification(id: nat)
    | UpdateNotifications(notifications: seq<Notification>)
    | AutoDismiss(id: nat)
    | NotificationAction(id: nat, action: string)
    | DismissNotification(id: nat)
    /** The periodic check; `current` is what the service reports when the
        message is handled. */
    | CheckService(current: seq<Notification>)

  datatype Output =
    | NotificationDismissed(id: nat)
    | NotificationActionTriggered(id: nat, action: string)
    | DefaultActionTriggered(id: nat)

  /** What handling a message does outside the popup's own state. */
  datatype Effect =
    | Emit(output: Output)
    /** `remove_notification(id)` on the notification service. */
    | ServiceRemove(id: nat)

  /** The popup's state. `timeouts` is the id-keyed table of timer handles;
      `timers` holds the timers still pending, each with the id its
      `AutoDismiss` will name; `queue` holds messages sent to itself. */
  datatype State = State(
    visible: bool,
    cards: seq<Notification>,
    timeouts: map<nat, nat>,
    timers: map<nat, nat>,
    nextToken: nat,
    queue: seq<Msg>)

  /** The popup starts visible, with no cards and no timers. */
  const Initial: State := State(true, [], map[], map[], 0, [])

  /** The window is shown iff the popup is visible and has a card. */
  predicate WindowVisible(s: State) {
    s.visible && |s.cards| > 0
  }

  /** Cards below urgency 2 (everything but Critical) get an auto-dismiss timer. */
  predicate AutoDismissed(n: Notification) {
    UrgencyCode(n.urgency) < 2
  }

  /** The timer tables after pushing `ns` to the back of a cleared list one by
      one, starting from an empty id table. */
  datatype TimerTables = TimerTables(timeouts: map<nat, nat>, timers: map<nat, nat>, nextToken: nat)

  function Refill(ns: seq<Notification>, timers: map<nat, nat>, next: nat): (r: TimerTables)
    ensures next <= r.nextToken
    ensures forall t :: t in r.timers ==> t in timers || next <= t < r.nextToken
    ensures (forall t :: t in timers ==> t < next) ==>
      forall t :: t in timers ==> t in r.timers && r.timers[t] == timers[t]
    ensures forall id :: id in r.timeouts ==> r.timeouts[id] in r.timers && r.timers[r.timeouts[id]] == id
    ensures forall id :: id in r.timeouts ==> next <= r.timeouts[id] < r.nextToken
  {
    if ns == [] then TimerTables(map[], timers, next)
    else
      var p := Refill(ns[..|ns| - 1], timers, next);
      var n := ns[|ns| - 1];
      if AutoDismissed(n) then
        TimerTables(p.timeouts[n.id := p.nextToken], p.timers[p.nextToken := n.id], p.nextToken + 1)
      else p
  }

  /** Some card in `ns` below urgency 2 carries `id`. */
  predicate HasAutoDismissedId(ns: seq<Notification>, id: nat) {
    exists n :: n in ns && AutoDismissed(n) && n.id == id
  }

  /** The ids in the table after a refill are exactly the ids of the cards
      below urgency 2. */
  lemma {:induction false} RefillKeys(ns: seq<Notification>, timers: map<nat, nat>, next: nat)
    ensures forall id :: id in Refill(ns, timers, next).timeouts <==> HasAutoDismissedId(ns, id)
  {
    if ns != [] {
      var init, n := ns[..|ns| - 1], ns[|ns| - 1];
      RefillKeys(init, timers, next);
      assert ns == init + [n];
      forall id ensures id in Refill(ns, timers, next).timeouts <==> HasAutoDismissedId(ns, id)
      {
        if HasAutoDismissedId(ns, id) {
          var m :| m in ns && AutoDismissed(m) && m.id == id;
          if m != n {
            assert m in init;
          }
        }
        if HasAutoDismissedId(init, id) {
          var m :| m in init && AutoDismissed(m) && m.id == id;
          assert m in ns;
        }
      }
    }
  }

  /** Two lists with the same cards carry the same ids below urgency 2. */
  lemma SameCardsSameIds(a: seq<Notification>, b: seq<Notification>)
    requires multiset(a) == multiset(b)
    ensures forall id :: HasAutoDismissedId(a, id) <==> HasAutoDismissedId(b, id)
  {
    forall id ensures HasAutoDismissedId(a, id) ==> HasAutoDismissedId(b, id) {
      if HasAutoDismissedId(a, id) {
        var n :| n in a && AutoDismissed(n) && n.id == id;
        assert n in multiset(a);
        assert n in b;
      }
    }
    forall id ensures HasAutoDismissedId(b, id) ==> HasAutoDismissedId(a, id) {
      if HasAutoDismissedId(b, id) {
        var n :| n in b && AutoDismissed(n) && n.id == id;
        assert n in multiset(b);
        assert n in a;
      }
    }
  }

  /** Handles one message: the new state and the effects. */
  function Handle(s: State, msg: Msg): (State, seq<Effect>) {
    match msg
    case Toggle => (s.(visible := !s.visible), [])
    case SetVisible(v) => (s.(visible := v), [])
    case AddNotification(n) =>
      var cards := [n] + s.cards;
      if AutoDismissed(n) then
        (s.(cards := cards, timeouts := s.timeouts[n.id := s.nextToken],
            timers := s.timers[s.nextToken := n.id], nextToken := s.nextToken + 1), [])
      else (s.(cards := cards), [])
    case RemoveNotification(id) =>
      var timers := if id in s.timeouts then s.timers - {s.timeouts[id]} else s.timers;
      (s.(cards := RemoveFirstId(s.cards, id), timeouts := s.timeouts - {id}, timers := timers), [])
    case UpdateNotifications(ns) =>
      var sorted := SortNewestFirst(ns);
      var t := Refill(sorted, s.timers - s.timeouts.Values, s.nextToken);
      (s.(cards := sorted, timeouts := t.timeouts, timers := t.timers, nextToken := t.nextToken), [])
    case AutoDismiss(id) =>
      (s.(timeouts := s.timeouts - {id}, queue := s.queue + [RemoveNotification(id), DismissNotification(id)]), [])
    case DismissNotification(id) =>
      (s.(queue := s.queue + [RemoveNotification(id)]), [ServiceRemove(id), Emit(NotificationDismissed(id))])
    case NotificationAction(id, action) =>
      var out := if action == "default" then DefaultActionTriggered(id) else NotificationActionTriggered(id, action);
      (s.(queue := s.queue + [RemoveNotification(id)]), [Emit(out)])
    case CheckService(current) =>
      if |current| != |s.cards| then (s.(queue := s.queue + [UpdateNotifications(current)]), [])
      else (s, [])
  }

  // ---------------------------------------------------------------------
  // The message queue
  // ---------------------------------------------------------------------

  function MsgWeight(m: Msg): nat {
    match m
    case AutoDismiss(_) => 4
    case DismissNotification(_) => 2
    case NotificationAction(_, _) => 2
    case CheckService(_) => 2
    case _ => 1
  }

  /** A weight that handling a queued message always lowers. The queue of
      the fresh-notifications popup drains by the same argument, with its
      own message weights (`FreshNotifications.Weight`). */
  function Weight(q: seq<Msg>): nat {
    if q == [] then 0 else MsgWeight(q[0]) + Weight(q[1..])
  }

  lemma {:induction false} WeightAppend(a: seq<Msg>, b: seq<Msg>)
    ensures Weight(a + b) == Weight(a) + Weight(b)
  {
    if a != [] {
      assert (a + b)[0] == a[0];
      assert (a + b)[1..] == a[1..] + b;
      WeightAppend(a[1..], b);
    } else {
      assert a + b == b;
    }
  }

  /** Takes the first queued message off the queue and handles it. */
  function Step(s: State): (State, seq<Effect>)
    requires s.queue != []
  {
    Handle(s.(queue := s.queue[1..]), s.queue[0])
  }

  lemma StepLowersWeight(s: State)
    requires s.queue != []
    ensures Weight(Step(s).0.queue) < Weight(s.queue)
  {
    var msg, rest := s.queue[0], s.queue[1..];
    assert Weight(s.queue) == MsgWeight(msg) + Weight(rest);
    match msg
    case AutoDismiss(id) =>
      WeightAppend(rest, [RemoveNotification(id), DismissNotification(id)]);
      assert [RemoveNotification(id), DismissNotification(id)][1..] == [DismissNotification(id)];
      assert [DismissNotification(id)][1..] == [];
      assert Weight([DismissNotification(id)]) == 2;
      assert Weight([RemoveNotification(id), DismissNotification(id)]) == 3;
    case DismissNotification(id) =>
      WeightAppend(rest, [RemoveNotification(id)]);
      assert [RemoveNotification(id)][1..] == [];
    case NotificationAction(id, _) =>
      WeightAppend(rest, [RemoveNotification(id)]);
      assert [RemoveNotification(id)][1..] == [];
    case CheckService(current) =>
      WeightAppend(rest, [UpdateNotifications(current)]);
      assert [UpdateNotifications(current)][1..] == [];
    case _ =>
  }

  /** Handling the queued messages one by one until none is left. */
  function Drain(s: State): (r: (State, seq<Effect>))
    ensures r.0.queue == []
    decreases Weight(s.queue)
  {
    if s.queue == [] then (s, [])
    else
      var step := Step(s);
      StepLowersWeight(s);
      var rest := Drain(step.0);
      (rest.0, step.1 + rest.1)
  }

  lemma DrainStep(s: State)
    requires s.queue != []
    ensures Drain(s) == (Drain(Step(s).0).0, Step(s).1 + Drain(Step(s).0).1)
  {
  }

  // ---------------------------------------------------------------------
  // Properties
  // ---------------------------------------------------------------------

  /** Every timer handle ever given out is below `nextToken`. */
  predicate TokensBelow(s: State) {
    && (forall t :: t in s.timers ==> t < s.nextToken)
    && (forall id :: id in s.timeouts ==> s.timeouts[id] < s.nextToken)
  }

  /** Each id-table entry whose timer is still pending names a timer that
      will dismiss that very id. */
  predicate Tracked(s: State) {
    forall id :: id in s.timeouts && s.timeouts[id] in s.timers ==> s.timers[s.timeouts[id]] == id
  }

  /** Toggle flips the flag and SetVisible sets it; nothing else changes. */
  lemma VisibilityMessages(s: State, v: bool)
    ensures Handle(s, Toggle) == (s.(visible := !s.visible), [])
    ensures Handle(Handle(s, Toggle).0, Toggle).0 == s
    ensures Handle(s, SetVisible(v)).0.visible == v
    ensures WindowVisible(Handle(s, SetVisible(v)).0) <==> v && |s.cards| > 0
  {
  }

  /** A new card goes on top, and gets a timer iff its urgency is below 2;
      the new handle is one no earlier timer used. */
  lemma AddNotificationEffect(s: State, n: Notification)
    requires TokensBelow(s)
    ensures var r := Handle(s, AddNotification(n)).0;
      && r.cards == [n] + s.cards
      && (AutoDismissed(n) ==>
            && r.timeouts.Keys == s.timeouts.Keys + {n.id}
            && r.timers[r.timeouts[n.id]] == n.id
            && r.timeouts[n.id] !in s.timers && r.timeouts[n.id] !in s.timeouts.Values)
      && (!AutoDismissed(n) ==> r.timeouts == s.timeouts && r.timers == s.timers)
      && TokensBelow(r)
  {
  }

  /** A refresh shows the given list sorted newest first, cancels every
      timer of the id table, and leaves exactly the ids below urgency 2 in
      the table, each with a timer of its own. */
  lemma UpdateNotificationsEffect(s: State, ns: seq<Notification>)
    requires TokensBelow(s)
    ensures var r := Handle(s, UpdateNotifications(ns)).0;
      && r.cards == SortNewestFirst(ns)
      && multiset(r.cards) == multiset(ns) && NewestFirst(r.cards)
      && (forall id :: id in r.timeouts <==> HasAutoDismissedId(ns, id))
      && (forall id :: id in s.timeouts ==> s.timeouts[id] !in r.timers)
      && (forall id :: id in r.timeouts ==> r.timeouts[id] in r.timers && r.timers[r.timeouts[id]] == id)
      && TokensBelow(r)
  {
    var sorted := SortNewestFirst(ns);
    var base := s.timers - s.timeouts.Values;
    var t := Refill(sorted, base, s.nextToken);
    var r := Handle(s, UpdateNotifications(ns)).0;
    assert r.timeouts == t.timeouts && r.timers == t.timers && r.nextToken == t.nextToken;
    RefillKeys(sorted, base, s.nextToken);
    SameCardsSameIds(sorted, ns);
    forall id | id in s.timeouts ensures s.timeouts[id] !in t.timers {
      assert s.timeouts[id] in s.timeouts.Values;
      assert s.timeouts[id] !in base;
    }
    assert forall x :: x in base ==> x in s.timers;
  }

  /** Removal takes off the first card with the id, keeps the others in
      order, and drops the id from the table together with its timer. */
  lemma RemoveNotificationEffect(s: State, id: nat)
    requires Tracked(s)
    ensures var r := Handle(s, RemoveNotification(id)).0;
      && r.cards == RemoveFirstId(s.cards, id)
      && r.timeouts.Keys == s.timeouts.Keys - {id}
      && (id in s.timeouts ==> s.timeouts[id] !in r.timers)
      && (forall t :: t in r.timers ==> t in s.timers && r.timers[t] == s.timers[t])
      && (forall c :: c in s.cards && c.id != id ==> c in r.cards)
      && Tracked(r)
  {
    RemoveFirstIdKeepsOthers(s.cards, id);
  }

  /** An action asks for the card's removal and reports the action, as
      `DefaultActionTriggered` exactly when the action key is "default". */
  lemma NotificationActionEffect(s: State, id: nat, action: string)
    requires s.queue == []
    ensures var h := Handle(s, NotificationAction(id, action));
      && h.1 == [Emit(if action == "default" then DefaultActionTriggered(id) else NotificationActionTriggered(id, action))]
      && Drain(h.0).0.cards == RemoveFirstId(s.cards, id)
      && Drain(h.0).1 == []
  {
    var s1 := Handle(s, NotificationAction(id, action)).0;
    var s2 := Step(s1);
    assert s2.0.queue == [] && s2.1 == [];
    assert Drain(s2.0) == (s2.0, []);
    DrainStep(s1);
  }

  /** A user dismissal tells the service, reports the dismissal and, once
      the queue is handled, has removed one card. */
  lemma DismissEffect(s: State, id: nat)
    requires s.queue == []
    ensures var h := Handle(s, DismissNotification(id));
      && h.1 == [ServiceRemove(id), Emit(NotificationDismissed(id))]
      && Drain(h.0).0.cards == RemoveFirstId(s.cards, id)
  {
    var s1 := Handle(s, DismissNotification(id)).0;
    var s2 := Step(s1);
    assert s2.0.queue == [] && s2.1 == [];
    assert Drain(s2.0) == (s2.0, []);
    DrainStep(s1);
  }

  /** An auto-dismiss forgets the id's table entry, and once the queue is
      handled, has removed the first card with the id twice, told the
      service once and reported one dismissal. */
  lemma AutoDismissEffect(s: State, id: nat)
    requires s.queue == []
    ensures var after := Drain(Handle(s, AutoDismiss(id)).0);
      && after.0.cards == RemoveFirstId(RemoveFirstId(s.cards, id), id)
      && after.1 == [ServiceRemove(id), Emit(NotificationDismissed(id))]
      && id !in after.0.timeouts
  {
    var s1 := Handle(s, AutoDismiss(id)).0;
    assert s1.queue == [RemoveNotification(id), DismissNotification(id)];
    var s2 := Step(s1);
    assert s2.1 == [] && s2.0.queue == [DismissNotification(id)];
    var s3 := Step(s2.0);
    assert s3.0.queue == [RemoveNotification(id)];
    var s4 := Step(s3.0);
    assert s4.0.queue == [] && s4.1 == [];
    assert Drain(s4.0) == (s4.0, []);
    DrainStep(s3.0);
    assert Drain(s3.0).0 == s4.0 && Drain(s3.0).1 == [];
    DrainStep(s2.0);
    assert Drain(s2.0).0 == s4.0;
    DrainStep(s1);
  }

  /** The service check queues a refresh with the service's list exactly when
      its length differs from the number of cards shown, and changes nothing
      else. */
  lemma CheckServiceEffect(s: State, current: seq<Notification>)
    ensures var h := Handle(s, CheckService(current));
      && h.1 == []
      && h.0.(queue := s.queue) == s
      && (h.0.queue == s.queue + [UpdateNotifications(current)] <==> |current| != |s.cards|)
      && (h.0.queue == s.queue <==> |current| == |s.cards|)
  {
    if |current| != |s.cards| {
      assert |(s.queue + [UpdateNotifications(current)])| == |s.queue| + 1;
    }
  }

  /** Every message keeps the handle counter ahead of all handles given out,
      and keeps each pending table entry pointing at a timer for its own id. */
  lemma HandleKeepsTables(s: State, msg: Msg)
    requires TokensBelow(s) && Tracked(s)
    ensures TokensBelow(Handle(s, msg).0) && Tracked(Handle(s, msg).0)
  {
    match msg
    case UpdateNotifications(ns) =>
      UpdateNotificationsEffect(s, ns);
    case RemoveNotification(id) =>
      RemoveNotificationEffect(s, id);
    case _ =>
  }

  class NotificationPopup {
    var visible: bool
    var cards: seq<Notification>
    var timeouts: map<nat, nat>
    var timers: map<nat, nat>
    var nextToken: nat
    var queue: seq<Msg>

    function Snapshot(): State
      reads this
    {
      State(visible, cards, timeouts, timers, nextToken, queue)
    }

    constructor ()
      ensures Snapshot() == Initial
    {
      visible := true;
      cards := [];
      timeouts := map[];
      timers := map[];
      nextToken := 0;
      queue := [];
    }

    /** The window's visibility as rendered. */
    function WindowShown(): (shown: bool)
      reads this
      ensures shown <==> visible && cards != []
    {
      visible && |cards| > 0
    }

    /** Handles one delivered message. */
    method Update(msg: Msg) returns (effects: seq<Effect>)
      modifies this
      ensures Snapshot() == Handle(old(Snapshot()), msg).0
      ensures effects == Handle(old(Snapshot()), msg).1
    {
      effects := [];
      match msg
      case Toggle =>
        visible := !visible;
      case SetVisible(v) =>
        visible := v;
      case AddNotification(n) =>
        AddCard(n);
      case RemoveNotification(id) =>
        RemoveCard(id);
      case UpdateNotifications(ns) =>
        Reload(ns);
      case AutoDismiss(id) =>
        timeouts := timeouts - {id};
        queue := queue + [RemoveNotification(id), DismissNotification(id)];
      case DismissNotification(id) =>
        queue := queue + [RemoveNotification(id)];
        effects := [ServiceRemove(id), Emit(NotificationDismissed(id))];
      case NotificationAction(id, action) =>
        queue := queue + [RemoveNotification(id)];
        if action == "default" {
          effects := [Emit(DefaultActionTriggered(id))];
        } else {
          effects := [Emit(NotificationActionTriggered(id, action))];
        }
      case CheckService(current) =>
        if |current| != |cards| {
          queue := queue + [UpdateNotifications(current)];
        }
    }

    /** A new card goes on top, with a timer unless it is critical. */
    method AddCard(n: Notification)
      modifies this
      ensures Snapshot() == Handle(old(Snapshot()), AddNotification(n)).0
    {
      cards := [n] + cards;
      if UrgencyCode(n.urgency) < 2 {
        var token := nextToken;
        nextToken := nextToken + 1;
        timers := timers[token := n.id];
        timeouts := timeouts[n.id := token];
      }
    }

    /** The card's timer is cancelled and its first card removed. */
    method RemoveCard(id: nat)
      modifies this
      ensures Snapshot() == Handle(old(Snapshot()), RemoveNotification(id)).0
    {
      if id in timeouts {
        var token := timeouts[id];
        timeouts := timeouts - {id};
        timers := timers - {token};
      }
      var index := FindFirstIndex(cards, id);
      if index.Some? {
        cards := RemoveAt(cards, index.value);
      }
    }

    /** Every timer is cancelled and the cards rebuilt from the service's list. */
    method Reload(ns: seq<Notification>)
      modifies this
      ensures Snapshot() == Handle(old(Snapshot()), UpdateNotifications(ns)).0
    {
      CancelAll();
      var sorted := SortNewestFirst(ns);
      Refresh(sorted);
    }

    /** Drains the id table, cancelling the timer of every entry. */
    method CancelAll()
      modifies this`timeouts, this`timers
      ensures timeouts == map[]
      ensures timers == old(timers) - old(timeouts).Values
    {
      ghost var removed: set<nat> := {};
      while timeouts.Keys != {}
        invariant timeouts.Values + removed == old(timeouts).Values
        invariant timers == old(timers) - removed
        decreases |timeouts.Keys|
      {
        var id :| id in timeouts.Keys;
        var token := timeouts[id];
        var rest := timeouts - {id};
        assert timeouts.Values == rest.Values + {token} by {
          forall t | t in timeouts.Values ensures t in rest.Values + {token} {
            var k :| k in timeouts && timeouts[k] == t;
            if k != id {
              assert rest[k] == t;
            }
          }
          forall t | t in rest.Values ensures t in timeouts.Values {
            var k :| k in rest && rest[k] == t;
            assert timeouts[k] == t;
          }
        }
        timeouts := rest;
        timers := timers - {token};
        removed := removed + {token};
      }
      assert timeouts == map[];
    }

    /** Pushes the sorted list to the back of a cleared card list, giving
        each card below urgency 2 a fresh timer. */
    method Refresh(sorted: seq<Notification>)
      requires timeouts == map[]
      modifies this`cards, this`timeouts, this`timers, this`nextToken
      ensures cards == sorted
      ensures TimerTables(timeouts, timers, nextToken) == Refill(sorted, old(timers), old(nextToken))
    {
      cards := [];
      var i := 0;
      while i < |sorted|
        invariant 0 <= i <= |sorted|
        invariant cards == sorted[..i]
        invariant TimerTables(timeouts, timers, nextToken) == Refill(sorted[..i], old(timers), old(nextToken))
      {
        var n := sorted[i];
        assert sorted[..i + 1][..i] == sorted[..i];
        cards := cards + [n];
        if UrgencyCode(n.urgency) < 2 {
          var token := nextToken;
          nextToken := nextToken + 1;
          timers := timers[token := n.id];
          timeouts := timeouts[n.id := token];
        }
        i := i + 1;
      }
      assert sorted[..|sorted|] == sorted;
    }

    /** A pending timer fires: it is no longer pending and queues an auto-dismiss. */
    method FireTimer(token: nat)
      requires token in timers
      modifies this`timers, this`queue
      ensures timers == old(timers) - {token}
      ensures queue == old(queue) + [AutoDismiss(old(timers)[token])]
    {
      var id := timers[token];
      timers := timers - {token};
      queue := queue + [AutoDismiss(id)];
    }

    /** Handles the queued messages until none is left. */
    method DrainQueue() returns (effects: seq<Effect>)
      modifies this
      ensures Snapshot() == Drain(old(Snapshot())).0
      ensures effects == Drain(old(Snapshot())).1
    {
      effects := [];
      ghost var goal := Drain(old(Snapshot()));
      while queue != []
        invariant Drain(Snapshot()).0 == goal.0
        invariant effects + Drain(Snapshot()).1 == goal.1
        decreases Weight(queue)
      {
        ghost var before := Snapshot();
        StepLowersWeight(before);
        var msg := queue[0];
        queue := queue[1..];
        var out := Update(msg);
        assert Snapshot() == Step(before).0 && out == Step(before).1;
        DrainStep(before);
        effects := effects + out;
      }
    }
  }
}
