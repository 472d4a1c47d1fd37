/** The media-player watcher: the playback state of the active MPRIS player
    (the `PlaybackStatus` property of the `org.mpris.MediaPlayer2.Player`
    interface, and the track's title and first artist), updated event by
    event and reported only when it changes. */
module MprisService {
  import opened Wrappers

  datatype PlaybackStatus = Playing | Paused | Stopped

  /** The parts of a track's metadata the shell reads. */
  datatype Metadata = Metadata(title: Option<string>, artists: Option<seq<string>>, albumArtists: Option<seq<string>>)

  /** Metadata with no entries, as `Metadata::default()`. */
  const NoMetadata: Metadata := Metadata(None, None, None)

  /** Player events; the ones the shell ignores (volume, seeking, shuffle,
      loop status and the like) are collapsed into one. */
  datatype Event =
    | PlayingEvent
    | PausedEvent
    | StoppedEvent
    | TrackChanged(metadata: Metadata)
    | PlayerShutDown
    | OtherEvent

  datatype MprisState =
    | Unavailable
    | Info(title: Option<string>, artist: Option<string>, status: PlaybackStatus)

  /** The first name of an artist list, if there is one. */
  function FirstOf(names: Option<seq<string>>): (r: Option<string>)
    ensures r.Some? <==> names.Some? && |names.value| > 0
    ensures r.Some? ==> r.value == names.value[0]
  {
    match names
    case Some(ns) => if |ns| > 0 then Some(ns[0]) else None
    case None => None
  }

  /** The state read from a freshly found player: its title, its first
      artist, and its status, `Stopped` when the player does not report one. */
  function PlayerState(metadata: Option<Metadata>, status: Option<PlaybackStatus>): (s: MprisState)
    ensures s.Info?
    ensures s.status == status.UnwrapOr(Stopped)
  {
    var m := metadata.UnwrapOr(NoMetadata);
    Info(m.title, FirstOf(m.artists), status.UnwrapOr(Stopped))
  }

  /** The state after one player event. */
  function HandlePlayerEvent(event: Event, current: MprisState): MprisState {
    match current
    case Info(title, artist, status) =>
      (match event
       case PlayingEvent => Info(title, artist, Playing)
       case PausedEvent => Info(title, artist, Paused)
       case StoppedEvent => Info(title, artist, Stopped)
       case TrackChanged(m) => Info(m.title, FirstOf(m.albumArtists), status)
       case PlayerShutDown => Unavailable
       case OtherEvent => current)
    case Unavailable =>
      (match event
       case PausedEvent => Info(None, None, Paused)
       case StoppedEvent => Info(None, None, Stopped)
       case PlayingEvent => Info(None, None, Playing)
       case TrackChanged(m) => Info(m.title, FirstOf(m.albumArtists), Paused)
       case _ => current)
  }

  /** The status an event sets, if it is a status event. */
  function StatusOf(event: Event): Option<PlaybackStatus> {
    match event
    case PlayingEvent => Some(Playing)
    case PausedEvent => Some(Paused)
    case StoppedEvent => Some(Stopped)
    case _ => None
  }

  /** A status event sets that status and nothing else: an existing title and
      artist are kept, and without a player they are absent. Applying it
      twice is the same as once. */
  lemma StatusEventEffect(event: Event, current: MprisState)
    requires StatusOf(event).Some?
    ensures HandlePlayerEvent(event, current).Info?
    ensures HandlePlayerEvent(event, current).status == StatusOf(event).value
    ensures current.Info? ==> (HandlePlayerEvent(event, current).title == current.title
                           && HandlePlayerEvent(event, current).artist == current.artist)
    ensures current.Unavailable? ==> (HandlePlayerEvent(event, current).title.None?
                                  && HandlePlayerEvent(event, current).artist.None?)
    ensures HandlePlayerEvent(event, HandlePlayerEvent(event, current)) == HandlePlayerEvent(event, current)
  {
  }

  /** A track change takes the new title and first album artist; it keeps the
      status of a known player, and reports a new one as paused. */
  lemma TrackChangedEffect(m: Metadata, current: MprisState)
    ensures var r := HandlePlayerEvent(TrackChanged(m), current);
      && r.Info? && r.title == m.title && r.artist == FirstOf(m.albumArtists)
      && r.status == (if current.Info? then current.status else Paused)
  {
  }

  /** Shutting down always ends in `Unavailable`, and events the shell
      ignores change nothing. */
  lemma ShutDownAndIgnored(current: MprisState)
    ensures HandlePlayerEvent(PlayerShutDown, current) == Unavailable
    ensures HandlePlayerEvent(OtherEvent, current) == current
  {
  }

  // ---------------------------------------------------------------------
  // Change-only reporting
  // ---------------------------------------------------------------------

  /** Listening to one player's event stream from the last reported state:
      the state after the stream and the states reported. The stream ends at
      a shutdown event or a receive error. */
  function Listen(last: MprisState, events: seq<Result<Event, string>>): (MprisState, seq<MprisState>)
    decreases |events|
  {
    if events == [] then (last, [])
    else
      match events[0]
      case Err(_) => (last, [])
      case Ok(e) =>
        var next := HandlePlayerEvent(e, last);
        var reported := if next != last then [next] else [];
        if e.PlayerShutDown? then (next, reported)
        else
          var rest := Listen(next, events[1..]);
          (rest.0, reported + rest.1)
  }

  /** Listening from the i-th event handles it, then goes on with the next. */
  lemma ListenStep(last: MprisState, events: seq<Result<Event, string>>, i: nat)
    requires i < |events|
    ensures events[i].Err? ==> Listen(last, events[i..]) == (last, [])
    ensures events[i].Ok? ==>
      var next := HandlePlayerEvent(events[i].value, last);
      var reported := if next != last then [next] else [];
      Listen(last, events[i..]) ==
        if events[i].value.PlayerShutDown? then (next, reported)
        else (Listen(next, events[i + 1..]).0, reported + Listen(next, events[i + 1..]).1)
  {
    assert events[i..][0] == events[i];
    assert events[i..][1..] == events[i + 1..];
  }

  /** Each reported state differs from the one reported before it (the first
      from the state already reported). */
  predicate ChangesOnly(last: MprisState, reported: seq<MprisState>) {
    && (|reported| > 0 ==> reported[0] != last)
    && (forall i :: 0 < i < |reported| ==> reported[i] != reported[i - 1])
  }

  /** Reporting `next` only if it differs from `last`, ahead of a run of
      changes starting from `next`, gives a run of changes from `last` that
      ends where the given run does. */
  lemma PrependChange(last: MprisState, next: MprisState, rest: seq<MprisState>)
    requires ChangesOnly(next, rest)
    ensures ChangesOnly(last, (if next != last then [next] else []) + rest)
    ensures var all := (if next != last then [next] else []) + rest;
      (if rest == [] then next else rest[|rest| - 1]) == (if all == [] then last else all[|all| - 1])
  {
    var all := (if next != last then [next] else []) + rest;
    if next == last {
      assert all == rest;
    } else {
      forall i | 0 < i < |all| ensures all[i] != all[i - 1] {
        if i > 1 {
          assert all[i] == rest[i - 1] && all[i - 1] == rest[i - 2];
        } else {
          assert all[1] == rest[0] && all[0] == next;
        }
      }
      if rest != [] {
        assert all[|all| - 1] == rest[|rest| - 1];
      }
    }
  }

  /** The last state reported while listening is the state listening ends
      in, and no state is reported twice in a row. */
  lemma {:induction false} ListenReportsChangesOnly(last: MprisState, events: seq<Result<Event, string>>)
    ensures ChangesOnly(last, Listen(last, events).1)
    ensures Listen(last, events).0 == (if Listen(last, events).1 == [] then last else Listen(last, events).1[|Listen(last, events).1| - 1])
    decreases |events|
  {
    if events != [] && events[0].Ok? {
      var e := events[0].value;
      var next := HandlePlayerEvent(e, last);
      if e.PlayerShutDown? {
        PrependChange(last, next, []);
        assert (if next != last then [next] else []) + [] == Listen(last, events).1;
      } else {
        ListenReportsChangesOnly(next, events[1..]);
        PrependChange(last, next, Listen(next, events[1..]).1);
      }
    }
  }

  /** The watcher thread's memory of what it last reported. */
  class MprisWatcher {
    var lastState: MprisState

    constructor ()
      ensures lastState == Unavailable
    {
      lastState := Unavailable;
    }

    /** Reports `current` iff it differs from what was last reported, which
        it then becomes. Used for a freshly found player and for "no player". */
    method Observe(current: MprisState) returns (reported: Option<MprisState>)
      modifies this
      ensures reported.Some? <==> current != old(lastState)
      ensures reported.Some? ==> reported.value == current
      ensures lastState == current
    {
      reported := None;
      if current != lastState {
        reported := Some(current);
        lastState := current;
      }
    }

    /** Listens to one player's event stream until it shuts down, an event
        cannot be received, or the stream ends. */
    method ListenTo(events: seq<Result<Event, string>>) returns (reported: seq<MprisState>)
      modifies this
      ensures lastState == Listen(old(lastState), events).0
      ensures reported == Listen(old(lastState), events).1
    {
      reported := [];
      ghost var start := lastState;
      assert events[0..] == events;
      var i := 0;
      while i < |events|
        invariant 0 <= i <= |events|
        invariant Listen(start, events).0 == Listen(lastState, events[i..]).0
        invariant Listen(start, events).1 == reported + Listen(lastState, events[i..]).1
      {
        ListenStep(lastState, events, i);
        match events[i]
        case Err(_) =>
          break;
        case Ok(event) =>
          var newState := HandlePlayerEvent(event, lastState);
          ghost var rest := Listen(newState, events[i + 1..]).1;
          ghost var change := if newState != lastState then [newState] else [];
          assert reported + (change + rest) == (reported + change) + rest;
          if newState != lastState {
            reported := reported + [newState];
            lastState := newState;
          }
          if event.PlayerShutDown? {
            break;
          }
        i := i + 1;
      }
    }
  }
}
