/** The notification record shared by the daemon, the worker and the popups,
    its urgency levels, and the pairing of the flat action list. */
module NotificationTypes {
  import opened Wrappers

  /** Urgency levels of the Desktop Notifications Specification, carried as a byte. */
  datatype Urgency = Low | Normal | Critical

  /** The byte each urgency level is carried as. */
  function UrgencyCode(u: Urgency): (code: nat)
    ensures code <= 2
  {
    match u
    case Low => 0
    case Normal => 1
    case Critical => 2
  }

  /** Decoding the byte back; any other byte is rejected by the deserialiser. */
  function UrgencyFromCode(code: nat): (r: Option<Urgency>)
    ensures r.Some? <==> code <= 2
  {
    if code == 0 then Some(Low)
    else if code == 1 then Some(Normal)
    else if code == 2 then Some(Critical)
    else None
  }

  /** The urgency a notification gets when nothing says otherwise. */
  const DefaultUrgency: Urgency := Normal

  /** Every urgency level survives encoding and decoding, and the codes are 0, 1, 2 in order. */
  lemma UrgencyCodeRoundTrip(u: Urgency)
    ensures UrgencyFromCode(UrgencyCode(u)) == Some(u)
    ensures u == Low ==> UrgencyCode(u) == 0
    ensures u == Normal ==> UrgencyCode(u) == 1
    ensures u == Critical ==> UrgencyCode(u) == 2
  {
  }

  /** Only critical notifications have a code of 2 or more. */
  lemma UrgencyBelowTwo(u: Urgency)
    ensures UrgencyCode(u) < 2 <==> u != Critical
  {
  }

  /** A notification as stored and displayed. `id` is a `u32`, `timestamp`
      seconds since the Unix epoch. */
  datatype Notification = Notification(
    id: nat,
    appName: string,
    appIcon: string,
    desktopEntry: string,
    image: string,
    summary: string,
    body: string,
    urgency: Urgency,
    timeout: int,
    timestamp: int,
    actions: seq<(string, string)>)

  /** Pairs a flat action list: each identifier at an even index with the
      label after it; a trailing identifier without a label is dropped. */
  function PairActions(v: seq<string>): (r: seq<(string, string)>)
    ensures |r| == |v| / 2
    ensures forall k :: 0 <= k < |r| ==> r[k] == (v[2 * k], v[2 * k + 1])
  {
    if |v| < 2 then []
    else
      var rest := PairActions(v[2..]);
      assert forall k :: 0 <= k < |rest| ==> rest[k] == (v[2 * k + 2], v[2 * k + 3]);
      [(v[0], v[1])] + rest
  }

  /** The flat action list a list of pairs is sent as. */
  function FlattenActions(pairs: seq<(string, string)>): (v: seq<string>)
    ensures |v| == 2 * |pairs|
  {
    if pairs == [] then [] else [pairs[0].0, pairs[0].1] + FlattenActions(pairs[1..])
  }

  /** Pairing the flattening of a pair list gives back that list. */
  lemma {:induction false} PairFlattenRoundTrip(pairs: seq<(string, string)>)
    ensures PairActions(FlattenActions(pairs)) == pairs
  {
    if pairs != [] {
      PairFlattenRoundTrip(pairs[1..]);
      var v := FlattenActions(pairs);
      assert v[2..] == FlattenActions(pairs[1..]);
    }
  }

  /** An identifier with no label after it is ignored. */
  lemma {:induction false} PairActionsDropsTrailing(v: seq<string>, extra: string)
    requires |v| % 2 == 0
    ensures PairActions(v + [extra]) == PairActions(v)
  {
    if |v| >= 2 {
      assert (v + [extra])[2..] == v[2..] + [extra];
      PairActionsDropsTrailing(v[2..], extra);
    }
  }
}
