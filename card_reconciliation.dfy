/** The reconciliation both GObject notification windows run every half
    second: a map from notification id to the card shown for it, a container
    listing the cards top to bottom, and the service's current list. Cards
    whose id the service no longer reports are removed from the map and the
    container; a card is created and prepended for every reported id that has
    none. A card is identified by the id of the notification it shows. */
module CardReconciliation {
  import opened NotificationTypes

  /** The ids the service currently reports. */
  function Ids(current: seq<Notification>): set<nat> {
    set n | n in current :: n.id
  }

  /** No id occurs twice. */
  predicate Distinct(s: seq<nat>) {
    forall i, j :: 0 <= i < j < |s| ==> s[i] != s[j]
  }

  /** The container lists every card of the map exactly once. */
  ghost predicate Consistent(cards: map<nat, Notification>, container: seq<nat>) {
    Distinct(container) && forall id :: id in container <==> id in cards
  }

  /** `Box::remove` of one card: the container without the first occurrence of `x`. */
  function RemoveValue(s: seq<nat>, x: nat): (r: seq<nat>)
    ensures x !in s ==> r == s
    ensures forall y :: y in r ==> y in s
  {
    if s == [] then []
    else if s[0] == x then s[1..]
    else [s[0]] + RemoveValue(s[1..], x)
  }

  /** The container without the cards in `drop`, order kept. */
  function Drop(s: seq<nat>, drop: set<nat>): (r: seq<nat>)
    ensures forall y :: y in r <==> y in s && y !in drop
    ensures |r| <= |s|
  {
    if s == [] then []
    else (if s[0] in drop then [] else [s[0]]) + Drop(s[1..], drop)
  }

  lemma {:induction false} DropAbsent(s: seq<nat>, drop: set<nat>, x: nat)
    requires x !in s
    ensures Drop(s, drop + {x}) == Drop(s, drop)
  {
    if s != [] {
      DropAbsent(s[1..], drop, x);
    }
  }

  /** Removing one more card from a container without repeats drops it too. */
  lemma {:induction false} RemoveValueDrop(s: seq<nat>, drop: set<nat>, x: nat)
    requires Distinct(s)
    ensures RemoveValue(Drop(s, drop), x) == Drop(s, drop + {x})
  {
    if s != [] {
      var h, t := s[0], s[1..];
      assert Distinct(t) by {
        forall i, j | 0 <= i < j < |t| ensures t[i] != t[j] {
          assert t[i] == s[i + 1] && t[j] == s[j + 1];
        }
      }
      RemoveValueDrop(t, drop, x);
      if h in drop {
        assert Drop(s, drop) == Drop(t, drop);
        assert Drop(s, drop + {x}) == Drop(t, drop + {x});
      } else if h == x {
        assert h !in t by {
          forall j | 0 < j < |s| ensures s[j] != h { }
        }
        assert Drop(s, drop) == [h] + Drop(t, drop);
        assert Drop(s, drop + {x}) == Drop(t, drop + {x});
        DropAbsent(t, drop, x);
      } else {
        assert Drop(s, drop) == [h] + Drop(t, drop);
        assert Drop(s, drop + {x}) == [h] + Drop(t, drop + {x});
        assert RemoveValue([h] + Drop(t, drop), x) == [h] + RemoveValue(Drop(t, drop), x) by {
          assert ([h] + Drop(t, drop))[1..] == Drop(t, drop);
        }
      }
    }
  }

  lemma {:induction false} DropDistinct(s: seq<nat>, drop: set<nat>)
    requires Distinct(s)
    ensures Distinct(Drop(s, drop))
  {
    if s != [] {
      var t := s[1..];
      assert Distinct(t);
      DropDistinct(t, drop);
      assert s[0] !in t;
      var r := Drop(s, drop);
      if s[0] !in drop {
        assert r == [s[0]] + Drop(t, drop);
        forall i, j | 0 <= i < j < |r| ensures r[i] != r[j] {
          if i == 0 {
            assert r[j] in Drop(t, drop);
          } else {
            assert r[i] == Drop(t, drop)[i - 1] && r[j] == Drop(t, drop)[j - 1];
          }
        }
      }
    }
  }

  /** The map and container after the addition loop, and the notifications
      for which a card was created, in the order they were created. */
  datatype Reconciled = Reconciled(cards: map<nat, Notification>, container: seq<nat>, added: seq<Notification>)

  /** Walks the service's list in order, creating and prepending a card for
      each id the map does not hold yet. */
  function AddNew(cards: map<nat, Notification>, container: seq<nat>, current: seq<Notification>): (r: Reconciled)
    ensures r.cards.Keys == cards.Keys + Ids(current)
    ensures forall id :: id in cards ==> r.cards[id] == cards[id]
    ensures |r.container| == |container| + |r.added|
    ensures r.container[|r.added|..] == container
  {
    if current == [] then Reconciled(cards, container, [])
    else
      var init, n := current[..|current| - 1], current[|current| - 1];
      var p := AddNew(cards, container, init);
      AddNewStep(cards, container, current, p);
      if n.id in p.cards then p
      else Reconciled(p.cards[n.id := n], [n.id] + p.container, p.added + [n])
  }

  /** One more listed notification keeps what `AddNew` promises, whether or
      not it gets a card. */
  lemma AddNewStep(cards: map<nat, Notification>, container: seq<nat>, current: seq<Notification>, p: Reconciled)
    requires current != []
    requires p.cards.Keys == cards.Keys + Ids(current[..|current| - 1])
    requires forall id :: id in cards ==> p.cards[id] == cards[id]
    requires |p.container| == |container| + |p.added|
    requires p.container[|p.added|..] == container
    ensures var n := current[|current| - 1];
      var r := Reconciled(p.cards[n.id := n], [n.id] + p.container, p.added + [n]);
      && (n.id in p.cards ==> p.cards.Keys == cards.Keys + Ids(current))
      && (n.id !in p.cards ==>
        && r.cards.Keys == cards.Keys + Ids(current)
        && (forall id :: id in cards ==> r.cards[id] == cards[id])
        && |r.container| == |container| + |r.added|
        && r.container[|r.added|..] == container)
  {
    IdsSnoc(current);
    var n := current[|current| - 1];
    var r := Reconciled(p.cards[n.id := n], [n.id] + p.container, p.added + [n]);
    assert r.container[|r.added|..] == p.container[|p.added|..];
  }

  lemma IdsSnoc(current: seq<Notification>)
    requires current != []
    ensures Ids(current) == Ids(current[..|current| - 1]) + {current[|current| - 1].id}
  {
    var init, n := current[..|current| - 1], current[|current| - 1];
    assert current == init + [n];
    forall id | id in Ids(current) ensures id in Ids(init) + {n.id} {
      var m :| m in current && m.id == id;
      if m != n {
        assert m in init;
      }
    }
    forall id | id in Ids(init) ensures id in Ids(current) {
      var m :| m in init && m.id == id;
      assert m in current;
    }
  }

  /** The created cards sit on top of the container, the latest first. */
  predicate AddedOnTop(r: Reconciled) {
    |r.added| <= |r.container| &&
    forall k :: 0 <= k < |r.added| ==> r.container[k] == r.added[|r.added| - 1 - k].id
  }

  /** Each created card shows a listed notification whose id the map did not hold. */
  predicate AddedFresh(r: Reconciled, cards: map<nat, Notification>, current: seq<Notification>) {
    forall n :: n in r.added ==> n in current && n.id !in cards && n.id in r.cards && r.cards[n.id] == n
  }

  /** No two created cards share an id. */
  predicate AddedDistinct(r: Reconciled) {
    forall i, j :: 0 <= i < j < |r.added| ==> r.added[i].id != r.added[j].id
  }

  /** Every id the map gained has a created card on top of the container. */
  predicate AddedCover(r: Reconciled, cards: map<nat, Notification>) {
    |r.added| <= |r.container| &&
    forall id :: id in r.cards && id !in cards ==> id in r.container[..|r.added|]
  }

  /** The cards created by the addition loop sit on top of the container,
      the latest created first. */
  lemma {:induction false} AddNewOnTop(cards: map<nat, Notification>, container: seq<nat>, current: seq<Notification>)
    ensures AddedOnTop(AddNew(cards, container, current))
  {
    if current != [] {
      var init, n := current[..|current| - 1], current[|current| - 1];
      AddNewOnTop(cards, container, init);
      var p := AddNew(cards, container, init);
      if n.id !in p.cards {
        var r := AddNew(cards, container, current);
        assert r.added == p.added + [n] && r.container == [n.id] + p.container;
        forall k | 0 <= k < |r.added| ensures r.container[k] == r.added[|r.added| - 1 - k].id {
          if k > 0 {
            assert r.container[k] == p.container[k - 1];
            assert p.container[k - 1] == p.added[|p.added| - 1 - (k - 1)].id;
            assert r.added[|r.added| - 1 - k] == p.added[|p.added| - k];
          } else {
            assert r.container[0] == n.id && r.added[|r.added| - 1] == n;
          }
        }
      }
    }
  }

  /** A card is created only for a listed notification whose id the map did
      not hold, and the map then holds that notification under its id. */
  lemma {:induction false} AddNewFresh(cards: map<nat, Notification>, container: seq<nat>, current: seq<Notification>)
    ensures AddedFresh(AddNew(cards, container, current), cards, current)
  {
    if current != [] {
      var init, n := current[..|current| - 1], current[|current| - 1];
      AddNewFresh(cards, container, init);
      var p := AddNew(cards, container, init);
      if n.id !in p.cards {
        var r := AddNew(cards, container, current);
        assert r.added == p.added + [n] && r.cards == p.cards[n.id := n];
        forall m | m in r.added ensures m in current && m.id !in cards && r.cards[m.id] == m {
          if m != n {
            assert m in p.added;
            assert m in init;
            assert m.id in p.cards;
          }
        }
      } else {
        forall m | m in p.added ensures m in current {
          assert m in init;
        }
      }
    }
  }

  /** At most one card is created per id. */
  lemma {:induction false} AddNewDistinct(cards: map<nat, Notification>, container: seq<nat>, current: seq<Notification>)
    ensures AddedDistinct(AddNew(cards, container, current))
  {
    if current != [] {
      var init, n := current[..|current| - 1], current[|current| - 1];
      AddNewDistinct(cards, container, init);
      AddNewFresh(cards, container, init);
      var p := AddNew(cards, container, init);
      if n.id !in p.cards {
        var r := AddNew(cards, container, current);
        assert r.added == p.added + [n];
        forall i, j | 0 <= i < j < |r.added| ensures r.added[i].id != r.added[j].id {
          if j == |r.added| - 1 {
            assert r.added[i] in p.added;
          } else {
            assert r.added[i] == p.added[i] && r.added[j] == p.added[j];
          }
        }
      }
    }
  }

  /** Every id the map gained has its new card on top of the container. */
  lemma {:induction false} AddNewCovers(cards: map<nat, Notification>, container: seq<nat>, current: seq<Notification>)
    ensures AddedCover(AddNew(cards, container, current), cards)
  {
    if current != [] {
      var init, n := current[..|current| - 1], current[|current| - 1];
      AddNewCovers(cards, container, init);
      var p := AddNew(cards, container, init);
      if n.id !in p.cards {
        var r := AddNew(cards, container, current);
        assert r.container[..|r.added|] == [n.id] + p.container[..|p.added|];
      }
    }
  }

  /** One full reconciliation against the service's current list. */
  function Reconcile(cards: map<nat, Notification>, container: seq<nat>, current: seq<Notification>): Reconciled {
    var stale := cards.Keys - Ids(current);
    AddNew(cards - stale, Drop(container, stale), current)
  }

  /** Two sequences without repeats and without a shared element concatenate
      to one without repeats. */
  lemma ConcatDistinct(top: seq<nat>, bottom: seq<nat>)
    requires Distinct(top) && Distinct(bottom)
    requires forall x :: x in top ==> x !in bottom
    ensures Distinct(top + bottom)
  {
    var s := top + bottom;
    forall i, j | 0 <= i < j < |s| ensures s[i] != s[j] {
      if j < |top| {
        assert s[i] == top[i] && s[j] == top[j];
      } else if i < |top| {
        assert s[i] == top[i] && s[j] == bottom[j - |top|];
        assert top[i] in top;
      } else {
        assert s[i] == bottom[i - |top|] && s[j] == bottom[j - |top|];
      }
    }
  }

  /** The ids on top of the container are those of the created cards. */
  lemma TopIds(r: Reconciled, cards: map<nat, Notification>, current: seq<Notification>)
    requires AddedOnTop(r) && AddedFresh(r, cards, current) && AddedDistinct(r)
    ensures Distinct(r.container[..|r.added|])
    ensures forall x :: x in r.container[..|r.added|] ==> x !in cards && x in r.cards
  {
    var a := |r.added|;
    var top := r.container[..a];
    forall i, j | 0 <= i < j < |top| ensures top[i] != top[j] {
      assert top[i] == r.added[a - 1 - i].id && top[j] == r.added[a - 1 - j].id;
    }
    forall x | x in top ensures x !in cards && x in r.cards {
      var k :| 0 <= k < a && top[k] == x;
      assert x == r.added[a - 1 - k].id;
      assert r.added[a - 1 - k] in r.added;
    }
  }

  /** Prepending cards for fresh, pairwise distinct ids to a consistent
      container, and adding them to the map, keeps the two consistent. */
  lemma PrependKeepsConsistent(r: Reconciled, cards: map<nat, Notification>, container: seq<nat>, current: seq<Notification>)
    requires Consistent(cards, container)
    requires AddedOnTop(r) && AddedFresh(r, cards, current) && AddedDistinct(r) && AddedCover(r, cards)
    requires r.container[|r.added|..] == container
    requires forall id :: id in cards ==> id in r.cards
    ensures Consistent(r.cards, r.container)
  {
    var top := r.container[..|r.added|];
    assert r.container == top + container;
    TopIds(r, cards, current);
    ConcatDistinct(top, container);
    assert forall id :: id in r.container <==> id in top || id in container;
  }

  /** The addition loop keeps the map and the container consistent. */
  lemma AddNewConsistent(cards: map<nat, Notification>, container: seq<nat>, current: seq<Notification>)
    requires Consistent(cards, container)
    ensures Consistent(AddNew(cards, container, current).cards, AddNew(cards, container, current).container)
  {
    AddNewOnTop(cards, container, current);
    AddNewFresh(cards, container, current);
    AddNewDistinct(cards, container, current);
    AddNewCovers(cards, container, current);
    PrependKeepsConsistent(AddNew(cards, container, current), cards, container, current);
  }

  /** After reconciling, the map holds exactly the reported ids; cards for
      ids still reported are the same cards as before; the cards kept are at
      the bottom in their old order and every new card is on top; and the
      container still lists every card once. */
  lemma ReconcileEffect(cards: map<nat, Notification>, container: seq<nat>, current: seq<Notification>)
    requires Consistent(cards, container)
    ensures var r := Reconcile(cards, container, current);
      && r.cards.Keys == Ids(current)
      && (forall id :: id in cards && id in Ids(current) ==> r.cards[id] == cards[id])
      && r.container[|r.added|..] == Drop(container, cards.Keys - Ids(current))
      && (forall n :: n in r.added ==> n in current && n.id !in cards)
      && Consistent(r.cards, r.container)
  {
    var stale := cards.Keys - Ids(current);
    var pruned, kept := cards - stale, Drop(container, stale);
    DropDistinct(container, stale);
    assert Consistent(pruned, kept);
    AddNewConsistent(pruned, kept, current);
    AddNewFresh(pruned, kept, current);
  }

  /** A second reconciliation against the same list changes nothing. */
  lemma ReconcileIdempotent(cards: map<nat, Notification>, container: seq<nat>, current: seq<Notification>)
    requires Consistent(cards, container)
    ensures var r := Reconcile(cards, container, current);
      var r2 := Reconcile(r.cards, r.container, current);
      r2.cards == r.cards && r2.container == r.container && r2.added == []
  {
    var r := Reconcile(cards, container, current);
    ReconcileEffect(cards, container, current);
    var stale := r.cards.Keys - Ids(current);
    assert stale == {};
    assert r.cards - stale == r.cards;
    DropNothing(r.container, stale);
    NothingNew(r.cards, r.container, current);
  }

  lemma {:induction false} DropNothing(s: seq<nat>, drop: set<nat>)
    requires drop == {}
    ensures Drop(s, drop) == s
  {
    if s != [] {
      DropNothing(s[1..], drop);
      assert s == [s[0]] + s[1..];
    }
  }

  lemma {:induction false} NothingNew(cards: map<nat, Notification>, container: seq<nat>, current: seq<Notification>)
    requires Ids(current) <= cards.Keys
    ensures AddNew(cards, container, current) == Reconciled(cards, container, [])
  {
    if current != [] {
      var init := current[..|current| - 1];
      assert current == init + [current[|current| - 1]];
      assert Ids(init) <= Ids(current);
      NothingNew(cards, container, init);
    }
  }

  /** The first loop of `update_notifications`: walks the map in whatever
      order it yields its ids, taking every card whose id is not reported out
      of the container and noting its id. */
  method CollectStale(cards: map<nat, Notification>, container: seq<nat>, currentIds: set<nat>)
    returns (pruned: seq<nat>, toRemove: seq<nat>)
    requires Distinct(container)
    ensures pruned == Drop(container, cards.Keys - currentIds)
    ensures forall id :: id in toRemove <==> id in cards && id !in currentIds
  {
    var remaining := cards.Keys;
    toRemove := [];
    pruned := container;
    DropNothing(container, (cards.Keys - remaining) - currentIds);
    while remaining != {}
      invariant remaining <= cards.Keys
      invariant pruned == Drop(container, (cards.Keys - remaining) - currentIds)
      invariant forall id :: id in toRemove <==> id in (cards.Keys - remaining) - currentIds
      decreases |remaining|
    {
      var id :| id in remaining;
      ghost var seen := (cards.Keys - remaining) - currentIds;
      if id !in currentIds {
        RemoveValueDrop(container, seen, id);
        pruned := RemoveValue(pruned, id);
        toRemove := toRemove + [id];
        assert (cards.Keys - (remaining - {id})) - currentIds == seen + {id};
      } else {
        assert (cards.Keys - (remaining - {id})) - currentIds == seen;
      }
      remaining := remaining - {id};
    }
    assert (cards.Keys - remaining) - currentIds == cards.Keys - currentIds;
  }

  /** The second loop: removes each noted id from the map. */
  method RemoveIds(cards: map<nat, Notification>, toRemove: seq<nat>) returns (r: map<nat, Notification>)
    ensures r == cards - (set id | id in toRemove)
  {
    r := cards;
    var i := 0;
    while i < |toRemove|
      invariant 0 <= i <= |toRemove|
      invariant r == cards - set id | id in toRemove[..i]
    {
      assert toRemove[..i + 1] == toRemove[..i] + [toRemove[i]];
      r := r - {toRemove[i]};
      i := i + 1;
    }
    assert toRemove[..|toRemove|] == toRemove;
  }

  /** The third loop: walks the service's list, creating and prepending a card
      for every id without one. */
  method AddMissing(cards: map<nat, Notification>, container: seq<nat>, current: seq<Notification>)
    returns (newCards: map<nat, Notification>, newContainer: seq<nat>, added: seq<Notification>)
    ensures Reconciled(newCards, newContainer, added) == AddNew(cards, container, current)
  {
    newCards, newContainer, added := cards, container, [];
    var i := 0;
    while i < |current|
      invariant 0 <= i <= |current|
      invariant Reconciled(newCards, newContainer, added) == AddNew(cards, container, current[..i])
    {
      var n := current[i];
      assert current[..i + 1][..i] == current[..i];
      if n.id !in newCards {
        newContainer := [n.id] + newContainer;
        newCards := newCards[n.id := n];
        added := added + [n];
      }
      i := i + 1;
    }
    assert current[..|current|] == current;
  }

  /** `update_notifications` on the map and the container. */
  method UpdateCards(cards: map<nat, Notification>, container: seq<nat>, current: seq<Notification>)
    returns (newCards: map<nat, Notification>, newContainer: seq<nat>, added: seq<Notification>)
    requires Consistent(cards, container)
    ensures Reconciled(newCards, newContainer, added) == Reconcile(cards, container, current)
  {
    var currentIds := set n | n in current :: n.id;
    var pruned, toRemove := CollectStale(cards, container, currentIds);
    var kept := RemoveIds(cards, toRemove);
    assert kept == cards - (cards.Keys - Ids(current));
    newCards, newContainer, added := AddMissing(kept, pruned, current);
  }
}
