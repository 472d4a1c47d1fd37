/** Operations on an ordered list of notification cards shared by the popups
    and the center: finding the first card with an id, removing it, and
    ordering by timestamp, newest first (a stable `sort_by` on
    `b.timestamp.cmp(&a.timestamp)`). */
module CardList {
  import opened Wrappers
  import opened NotificationTypes

  /** The index of the first card carrying `id`. */
  function FirstIndex(cards: seq<Notification>, id: nat): (r: Option<nat>)
    ensures r.Some? ==> r.value < |cards| && cards[r.value].id == id
    ensures r.Some? ==> forall j :: 0 <= j < r.value ==> cards[j].id != id
    ensures r.None? <==> forall j :: 0 <= j < |cards| ==> cards[j].id != id
  {
    if cards == [] then None
    else if cards[0].id == id then Some(0)
    else
      match FirstIndex(cards[1..], id)
      case None => None
      case Some(i) => Some(i + 1)
  }

  /** The search loop of the popups: walks the list and stops at the first
      card whose id matches. */
  method FindFirstIndex(cards: seq<Notification>, id: nat) returns (found: Option<nat>)
    ensures found == FirstIndex(cards, id)
  {
    found := None;
    var index := 0;
    while index < |cards|
      invariant 0 <= index <= |cards|
      invariant forall j :: 0 <= j < index ==> cards[j].id != id
      invariant found.None?
    {
      if cards[index].id == id {
        found := Some(index);
        break;
      }
      index := index + 1;
    }
    ghost var spec := FirstIndex(cards, id);
    if found.Some? {
      assert cards[found.value].id == id;
      assert spec.Some?;
      assert spec.value <= found.value;
      assert spec.value >= found.value;
    }
  }

  /** `VecDeque::remove(i)`. */
  function RemoveAt<T>(s: seq<T>, i: nat): (r: seq<T>)
    requires i < |s|
    ensures |r| == |s| - 1
    ensures forall j :: 0 <= j < i ==> r[j] == s[j]
    ensures forall j :: i <= j < |r| ==> r[j] == s[j + 1]
  {
    s[..i] + s[i + 1..]
  }

  /** The list after removing the first card with `id`, if there is one. */
  function RemoveFirstId(cards: seq<Notification>, id: nat): seq<Notification> {
    match FirstIndex(cards, id)
    case None => cards
    case Some(i) => RemoveAt(cards, i)
  }

  /** How many cards carry `id`. */
  function CountId(cards: seq<Notification>, id: nat): nat {
    if cards == [] then 0 else (if cards[0].id == id then 1 else 0) + CountId(cards[1..], id)
  }

  lemma {:induction false} CountIdZero(cards: seq<Notification>, id: nat)
    ensures CountId(cards, id) == 0 <==> forall j :: 0 <= j < |cards| ==> cards[j].id != id
  {
    if cards != [] {
      CountIdZero(cards[1..], id);
      assert forall j :: 1 <= j < |cards| ==> cards[j] == cards[1..][j - 1];
    }
  }

  /** Removal takes out exactly one card with `id` when there is one, keeps the
      order of the others, and is a no-op for an unknown id. */
  lemma {:induction false} RemoveFirstIdCount(cards: seq<Notification>, id: nat)
    ensures CountId(RemoveFirstId(cards, id), id) == if CountId(cards, id) == 0 then 0 else CountId(cards, id) - 1
    ensures CountId(cards, id) == 0 ==> RemoveFirstId(cards, id) == cards
    ensures CountId(cards, id) > 0 ==> |RemoveFirstId(cards, id)| == |cards| - 1
  {
    if cards != [] {
      RemoveFirstIdCons(cards, id);
      if cards[0].id != id {
        var rest := RemoveFirstId(cards[1..], id);
        RemoveFirstIdCount(cards[1..], id);
        CountIdCons(cards[0], rest, id);
      }
    }
  }

  lemma CountIdCons(c: Notification, s: seq<Notification>, id: nat)
    ensures CountId([c] + s, id) == (if c.id == id then 1 else 0) + CountId(s, id)
  {
    assert ([c] + s)[1..] == s;
  }

  /** Removal from a non-empty list: the head goes if it carries `id`,
      otherwise it stays and the removal moves to the tail. */
  lemma RemoveFirstIdCons(cards: seq<Notification>, id: nat)
    requires cards != []
    ensures cards[0].id == id ==> RemoveFirstId(cards, id) == cards[1..]
    ensures cards[0].id != id ==> RemoveFirstId(cards, id) == [cards[0]] + RemoveFirstId(cards[1..], id)
  {
    if cards[0].id != id {
      match FirstIndex(cards[1..], id)
      case None =>
      case Some(i) =>
        assert cards[..i + 1] == [cards[0]] + cards[1..][..i];
        assert cards[i + 2..] == cards[1..][i + 1..];
    }
  }

  /** Removing the same id a second time changes nothing exactly when at most
      one card carried it. */
  lemma RemoveFirstIdTwice(cards: seq<Notification>, id: nat)
    ensures RemoveFirstId(RemoveFirstId(cards, id), id) == RemoveFirstId(cards, id) <==> CountId(cards, id) <= 1
  {
    RemoveFirstIdCount(cards, id);
    RemoveFirstIdCount(RemoveFirstId(cards, id), id);
  }

  /** Cards whose id differs from `id` keep their relative order through a removal. */
  lemma RemoveFirstIdKeepsOthers(cards: seq<Notification>, id: nat)
    ensures forall c :: c in cards && c.id != id ==> c in RemoveFirstId(cards, id)
    ensures forall c :: c in RemoveFirstId(cards, id) ==> c in cards
  {
    match FirstIndex(cards, id)
    case None =>
    case Some(i) =>
      var r := RemoveFirstId(cards, id);
      assert cards == cards[..i] + [cards[i]] + cards[i + 1..];
      assert r == cards[..i] + cards[i + 1..];
  }

  // ---------------------------------------------------------------------
  // Newest first
  // ---------------------------------------------------------------------

  /** Timestamps never increase along the list. */
  predicate NewestFirst(s: seq<Notification>) {
    forall i, j :: 0 <= i < j < |s| ==> s[i].timestamp >= s[j].timestamp
  }

  /** Inserts `n` after every card at least as new, keeping equal timestamps
      in arrival order. */
  function InsertByTimestamp(n: Notification, sorted: seq<Notification>): (r: seq<Notification>)
    ensures multiset(r) == multiset(sorted) + multiset{n}
    ensures NewestFirst(sorted) ==> NewestFirst(r)
  {
    if sorted == [] then [n]
    else if sorted[0].timestamp >= n.timestamp then
      var rest := InsertByTimestamp(n, sorted[1..]);
      InsertAfterHead(n, sorted, rest);
      [sorted[0]] + rest
    else
      InsertBeforeHead(n, sorted);
      [n] + sorted
  }

  lemma InsertAfterHead(n: Notification, sorted: seq<Notification>, rest: seq<Notification>)
    requires sorted != [] && sorted[0].timestamp >= n.timestamp
    requires multiset(rest) == multiset(sorted[1..]) + multiset{n}
    requires NewestFirst(sorted[1..]) ==> NewestFirst(rest)
    ensures multiset([sorted[0]] + rest) == multiset(sorted) + multiset{n}
    ensures NewestFirst(sorted) ==> NewestFirst([sorted[0]] + rest)
  {
    assert sorted == [sorted[0]] + sorted[1..];
    if NewestFirst(sorted) {
      assert NewestFirst(sorted[1..]) by {
        forall i, j | 0 <= i < j < |sorted[1..]| ensures sorted[1..][i].timestamp >= sorted[1..][j].timestamp {
          assert sorted[1..][i] == sorted[i + 1] && sorted[1..][j] == sorted[j + 1];
        }
      }
      HeadBoundsInsert(n, sorted, rest);
    }
  }

  lemma InsertBeforeHead(n: Notification, sorted: seq<Notification>)
    requires sorted != [] && sorted[0].timestamp < n.timestamp
    ensures NewestFirst(sorted) ==> NewestFirst([n] + sorted)
  {
    if NewestFirst(sorted) {
      var r := [n] + sorted;
      forall i, j | 0 <= i < j < |r| ensures r[i].timestamp >= r[j].timestamp {
        if i == 0 {
          assert r[j] == sorted[j - 1];
        } else {
          assert r[i] == sorted[i - 1] && r[j] == sorted[j - 1];
        }
      }
    }
  }

  lemma HeadBoundsInsert(n: Notification, sorted: seq<Notification>, rest: seq<Notification>)
    requires sorted != [] && NewestFirst(sorted) && NewestFirst(rest)
    requires sorted[0].timestamp >= n.timestamp
    requires multiset(rest) == multiset(sorted[1..]) + multiset{n}
    ensures NewestFirst([sorted[0]] + rest)
  {
    var r := [sorted[0]] + rest;
    forall j | 0 <= j < |rest| ensures sorted[0].timestamp >= rest[j].timestamp {
      assert rest[j] in multiset(rest);
      if rest[j] != n {
        assert rest[j] in multiset(sorted[1..]);
        var k :| 0 <= k < |sorted[1..]| && sorted[1..][k] == rest[j];
        assert sorted[k + 1] == rest[j];
      }
    }
    forall i, j | 0 <= i < j < |r| ensures r[i].timestamp >= r[j].timestamp {
      if i > 0 {
        assert r[i] == rest[i - 1] && r[j] == rest[j - 1];
      } else {
        assert r[j] == rest[j - 1];
      }
    }
  }

  /** A stable sort by timestamp, newest first. */
  function SortNewestFirst(s: seq<Notification>): (r: seq<Notification>)
    ensures multiset(r) == multiset(s)
    ensures NewestFirst(r)
    ensures |r| == |s|
  {
    if s == [] then []
    else
      var init := SortNewestFirst(s[..|s| - 1]);
      var r := InsertByTimestamp(s[|s| - 1], init);
      SortStep(s, init, r);
      r
  }

  lemma SortStep(s: seq<Notification>, init: seq<Notification>, r: seq<Notification>)
    requires s != [] && multiset(init) == multiset(s[..|s| - 1])
    requires multiset(r) == multiset(init) + multiset{s[|s| - 1]}
    ensures multiset(r) == multiset(s) && |r| == |s|
  {
    assert s == s[..|s| - 1] + [s[|s| - 1]];
    assert |r| == |multiset(r)| == |multiset(s)| == |s|;
  }
}
