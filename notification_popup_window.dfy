/** The notification popup window of the GObject shell: the same card
    reconciliation as the center, plus a ten-second auto-dismiss timer armed
    for every card created for a notification below critical urgency, and a
    window shown exactly while the service holds notifications. */
module NotificationPopupWindow {
  import opened NotificationTypes
  import opened CardReconciliation

  /** Notifications below critical urgency (a byte below 2) are dismissed
      automatically. */
  predicate AutoDismissed(n: Notification) {
    UrgencyCode(n.urgency) < 2
  }

  /** The notifications, in the order given, that get an auto-dismiss timer. */
  function Dismissed(added: seq<Notification>): seq<Notification> {
    if added == [] then []
    else (if AutoDismissed(added[0]) then [added[0]] else []) + Dismissed(added[1..])
  }

  /** Exactly the notifications below critical urgency are kept. */
  lemma {:induction false} DismissedContents(added: seq<Notification>)
    ensures forall n :: n in Dismissed(added) <==> n in added && AutoDismissed(n)
    ensures |Dismissed(added)| <= |added|
  {
    if added != [] {
      DismissedContents(added[1..]);
      assert added == [added[0]] + added[1..];
    }
  }

  /** The timer table after arming one timer per notification, with the
      handles `next`, `next + 1`, ... in order, each naming its notification's id. */
  function Arm(timers: map<nat, nat>, next: nat, ns: seq<Notification>): map<nat, nat>
    decreases |ns|
  {
    if ns == [] then timers
    else Arm(timers[next := ns[0].id], next + 1, ns[1..])
  }

  /** Arming adds exactly the handles `next` to `next + |ns| - 1`, the k-th
      naming the k-th notification's id, and keeps the timers below `next`. */
  lemma {:induction false} ArmContents(timers: map<nat, nat>, next: nat, ns: seq<Notification>)
    ensures forall t :: t in Arm(timers, next, ns) <==> t in timers || next <= t < next + |ns|
    ensures forall k :: 0 <= k < |ns| ==> Arm(timers, next, ns)[next + k] == ns[k].id
    ensures forall t :: t in timers && t < next ==> Arm(timers, next, ns)[t] == timers[t]
    decreases |ns|
  {
    if ns != [] {
      var tail := ns[1..];
      ArmContents(timers[next := ns[0].id], next + 1, tail);
      forall k | 1 <= k < |ns|
        ensures next + k in Arm(timers, next, ns) && Arm(timers, next, ns)[next + k] == ns[k].id
      {
        assert ns[k] == tail[k - 1];
        assert next + k == (next + 1) + (k - 1);
      }
    }
  }

  /** Keeping only some of the notifications keeps their ids apart. */
  lemma {:induction false} DismissedDistinct(added: seq<Notification>)
    requires forall i, j :: 0 <= i < j < |added| ==> added[i].id != added[j].id
    ensures forall i, j :: 0 <= i < j < |Dismissed(added)| ==> Dismissed(added)[i].id != Dismissed(added)[j].id
  {
    if added != [] {
      var tail := added[1..];
      assert forall i, j :: 0 <= i < j < |tail| ==> tail[i].id != tail[j].id by {
        forall i, j | 0 <= i < j < |tail| ensures tail[i].id != tail[j].id {
          assert tail[i] == added[i + 1] && tail[j] == added[j + 1];
        }
      }
      DismissedDistinct(tail);
      DismissedContents(tail);
      var d, rest := Dismissed(added), Dismissed(tail);
      if AutoDismissed(added[0]) {
        assert d == [added[0]] + rest;
        forall i, j | 0 <= i < j < |d| ensures d[i].id != d[j].id {
          if i == 0 {
            assert d[j] == rest[j - 1] && rest[j - 1] in tail;
            var k :| 0 <= k < |tail| && tail[k] == d[j];
            assert added[k + 1] == d[j];
          } else {
            assert d[i] == rest[i - 1] && d[j] == rest[j - 1];
          }
        }
      } else {
        assert d == rest;
      }
    }
  }

  /** Timers are armed only for cards this poll created, for notifications
      the service reports below critical urgency, at most one per created
      card and never two for one id. */
  lemma ArmedOnlyForNewCards(cards: map<nat, Notification>, container: seq<nat>, current: seq<Notification>)
    requires Consistent(cards, container)
    ensures var armed := Dismissed(Reconcile(cards, container, current).added);
      && |armed| <= |Reconcile(cards, container, current).added|
      && (forall n :: n in armed ==> n in current && n.id !in cards && AutoDismissed(n))
      && (forall i, j :: 0 <= i < j < |armed| ==> armed[i].id != armed[j].id)
  {
    var stale := cards.Keys - Ids(current);
    var pruned, kept := cards - stale, Drop(container, stale);
    ReconcileEffect(cards, container, current);
    AddNewDistinct(pruned, kept, current);
    DismissedDistinct(AddNew(pruned, kept, current).added);
    DismissedContents(AddNew(pruned, kept, current).added);
  }

  class NotificationPopupWindow {
    var cards: map<nat, Notification>
    /** The ids of the cards in the box, top to bottom. */
    var container: seq<nat>
    var windowVisible: bool
    /** Pending auto-dismiss timers, each with the id it removes from the service. */
    var timers: map<nat, nat>
    var nextToken: nat

    ghost predicate Valid()
      reads this
    {
      Consistent(cards, container) && forall t :: t in timers ==> t < nextToken
    }

    /** The popup starts with no cards and shows its window iff the service
        already holds notifications. */
    constructor (notificationCount: nat)
      ensures Valid()
      ensures cards == map[] && container == [] && timers == map[]
      ensures windowVisible == (notificationCount > 0)
    {
      cards := map[];
      container := [];
      timers := map[];
      nextToken := 0;
      windowVisible := notificationCount > 0;
    }

    /** The window follows the service's notification count. */
    method UpdateVisibility(notificationCount: nat)
      modifies this`windowVisible
      ensures windowVisible == (notificationCount > 0)
    {
      windowVisible := notificationCount > 0;
    }

    /** One poll of the service: the cards are reconciled as in the center,
        and one timer is armed per created card below critical urgency, in
        the order the cards were created. */
    method UpdateNotifications(current: seq<Notification>)
      requires Valid()
      modifies this`cards, this`container, this`timers, this`nextToken
      ensures Valid()
      ensures cards == Reconcile(old(cards), old(container), current).cards
      ensures container == Reconcile(old(cards), old(container), current).container
      ensures timers == Arm(old(timers), old(nextToken), Dismissed(Reconcile(old(cards), old(container), current).added))
      ensures nextToken == old(nextToken) + |Dismissed(Reconcile(old(cards), old(container), current).added)|
    {
      ghost var before, shown := cards, container;
      var added;
      cards, container, added := UpdateCards(cards, container, current);
      ReconcileEffect(before, shown, current);
      ArmAll(added);
    }

    /** The timers armed by one poll, one per created card below critical
        urgency, in creation order. */
    method ArmAll(added: seq<Notification>)
      requires forall t :: t in timers ==> t < nextToken
      modifies this`timers, this`nextToken
      ensures forall t :: t in timers ==> t < nextToken
      ensures timers == Arm(old(timers), old(nextToken), Dismissed(added))
      ensures nextToken == old(nextToken) + |Dismissed(added)|
    {
      ghost var next0, timers0 := nextToken, timers;
      var i := 0;
      while i < |added|
        invariant 0 <= i <= |added|
        invariant timers == Arm(timers0, next0, Dismissed(added[..i]))
        invariant nextToken == next0 + |Dismissed(added[..i])|
      {
        var n := added[i];
        ArmStep(timers0, next0, added, i);
        if UrgencyCode(n.urgency) < 2 {
          ArmOne(n.id);
        }
        i := i + 1;
      }
      assert added[..|added|] == added;
      ArmBelow(timers0, next0, Dismissed(added));
    }

    /** Arms one timer under the next handle. */
    method ArmOne(id: nat)
      modifies this`timers, this`nextToken
      ensures timers == old(timers)[old(nextToken) := id]
      ensures nextToken == old(nextToken) + 1
    {
      timers := timers[nextToken := id];
      nextToken := nextToken + 1;
    }

    /** A pending timer fires after ten seconds: it is no longer pending and
        the id it names is removed from the service; the card goes on a later
        poll, once the service no longer reports it. */
    method FireTimer(token: nat) returns (removeFromService: nat)
      requires token in timers
      modifies this`timers
      ensures timers == old(timers) - {token}
      ensures removeFromService == old(timers)[token]
    {
      removeFromService := timers[token];
      timers := timers - {token};
    }
  }

  /** Taking one more created card into account arms one more timer iff
      it is below critical urgency. */
  lemma ArmStep(timers: map<nat, nat>, next: nat, added: seq<Notification>, i: nat)
    requires i < |added|
    ensures var before := Dismissed(added[..i]);
      && Dismissed(added[..i + 1]) == before + (if AutoDismissed(added[i]) then [added[i]] else [])
      && Arm(timers, next, Dismissed(added[..i + 1]))
         == if AutoDismissed(added[i]) then Arm(timers, next, before)[next + |before| := added[i].id]
            else Arm(timers, next, before)
  {
    var before := Dismissed(added[..i]);
    assert added[..i + 1] == added[..i] + [added[i]];
    DismissedSnoc(added[..i], added[i]);
    if AutoDismissed(added[i]) {
      ArmSnoc(timers, next, before, added[i]);
      assert Dismissed(added[..i + 1]) == before + [added[i]];
    } else {
      assert Dismissed(added[..i + 1]) == before;
    }
  }

  lemma ArmBelow(timers: map<nat, nat>, next: nat, ns: seq<Notification>)
    requires forall t :: t in timers ==> t < next
    ensures forall t :: t in Arm(timers, next, ns) ==> t < next + |ns|
  {
    ArmContents(timers, next, ns);
  }

  lemma {:induction false} DismissedSnoc(added: seq<Notification>, n: Notification)
    ensures Dismissed(added + [n]) == Dismissed(added) + (if AutoDismissed(n) then [n] else [])
  {
    var last := if AutoDismissed(n) then [n] else [];
    if added == [] {
      assert [n][1..] == [];
      assert Dismissed([n]) == last + Dismissed([]);
    } else {
      var tail := added[1..];
      var head := if AutoDismissed(added[0]) then [added[0]] else [];
      assert (added + [n])[0] == added[0];
      assert (added + [n])[1..] == tail + [n];
      DismissedSnoc(tail, n);
      calc {
        Dismissed(added + [n]);
        head + Dismissed(tail + [n]);
        head + (Dismissed(tail) + last);
        (head + Dismissed(tail)) + last;
        Dismissed(added) + last;
      }
    }
  }

  lemma {:induction false} ArmSnoc(timers: map<nat, nat>, next: nat, ns: seq<Notification>, n: Notification)
    ensures Arm(timers, next, ns + [n]) == Arm(timers, next, ns)[next + |ns| := n.id]
    decreases |ns|
  {
    if ns == [] {
      assert [n][1..] == [];
    } else {
      assert (ns + [n])[1..] == ns[1..] + [n];
      ArmSnoc(timers[next := ns[0].id], next + 1, ns[1..], n);
    }
  }
}
