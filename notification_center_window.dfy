/** The notification center window of the GObject shell: a map from
    notification id to the card shown for it, the box listing the cards top to
    bottom, and a visibility flag. Every half second the cards are reconciled
    with the service's current list. */
module NotificationCenterWindow {
  import opened NotificationTypes
  import opened CardReconciliation

  class NotificationCenterWindow {
    var cards: map<nat, Notification>
    /** The ids of the cards in the notifications box, top to bottom. */
    var container: seq<nat>
    var visible: bool

    /** The box lists every card of the map exactly once. */
    ghost predicate Valid()
      reads this
    {
      Consistent(cards, container)
    }

    /** The window starts hidden with no cards. */
    constructor ()
      ensures Valid()
      ensures cards == map[] && container == [] && !visible
    {
      cards := map[];
      container := [];
      visible := false;
    }

    /** One poll of the service: afterwards there is a card for exactly the
        reported ids, the cards still reported are the ones shown before, in
        their old order below every new card, and the box still lists every
        card once. */
    method UpdateNotifications(current: seq<Notification>)
      requires Valid()
      modifies this`cards, this`container
      ensures Valid()
      ensures cards == Reconcile(old(cards), old(container), current).cards
      ensures container == Reconcile(old(cards), old(container), current).container
      ensures cards.Keys == Ids(current)
      ensures forall id :: id in old(cards) && id in cards ==> cards[id] == old(cards)[id]
    {
      ghost var before, shown := cards, container;
      var added;
      cards, container, added := UpdateCards(cards, container, current);
      ReconcileEffect(before, shown, current);
    }

    /** Flips the visibility. */
    method ToggleVisibility()
      modifies this`visible
      ensures visible == !old(visible)
    {
      var isVisible := visible;
      visible := !isVisible;
    }

    method SetVisible(v: bool)
      modifies this`visible
      ensures visible == v
    {
      visible := v;
    }

    /** The visibility last set or toggled. */
    method IsVisible() returns (v: bool)
      ensures v == visible
    {
      v := visible;
    }
  }
}
