/** The older media tile: it tracks the MPRIS players on the session bus,
    follows one current player, and shows its status glyph, title and artist,
    the tile being visible unless playback is stopped. */
module MprisTile {
  import opened Wrappers
  import opened RustText
  import opened MprisService
  import MprisRelm4

  /** The `PlaybackStatus` property as a string; anything unknown counts as
      stopped. */
  function StatusFromStr(s: string): (status: PlaybackStatus)
    ensures s == "Playing" ==> status == Playing
    ensures s == "Paused" ==> status == Paused
    ensures s != "Playing" && s != "Paused" ==> status == Stopped
  {
    if s == "Playing" then Playing
    else if s == "Paused" then Paused
    else if s == "Stopped" then Stopped
    else Stopped
  }

  /** The name each status is published under. */
  function StatusName(status: PlaybackStatus): string {
    match status
    case Playing => "Playing"
    case Paused => "Paused"
    case Stopped => "Stopped"
  }

  /** Every status decodes from its own name. */
  lemma StatusNameRoundTrip(status: PlaybackStatus)
    ensures StatusFromStr(StatusName(status)) == status
  {
  }

  /** The shape of a metadata value, as far as the tile can read it. */
  datatype Variant = StrValue(s: string) | StrList(items: seq<string>) | OtherValue

  /** A metadata entry as text: a string as is, a list of strings by its
      first item, anything else or a missing key as nothing. */
  function ExtractMetadataString(metadata: map<string, Variant>, key: string): (r: Option<string>)
    ensures key !in metadata ==> r.None?
    ensures key in metadata && metadata[key].StrValue? ==> r == Some(metadata[key].s)
    ensures key in metadata && metadata[key].StrList? ==>
      (r.Some? <==> |metadata[key].items| > 0) && (r.Some? ==> r.value == metadata[key].items[0])
    ensures key in metadata && metadata[key].OtherValue? ==> r.None?
  {
    if key !in metadata then None
    else match metadata[key]
      case StrValue(s) => Some(s)
      case StrList(items) => if |items| > 0 then Some(items[0]) else None
      case OtherValue => None
  }

  /** At most `max` characters: longer text is cut to `max - 1` characters
      followed by an ellipsis. */
  function TruncateText(text: string, max: nat): (r: string)
    requires max > 0 || text == []
    ensures |r| <= max || r == text
    ensures |text| <= max ==> r == text
    ensures |text| > max ==> |r| == max && r == text[..max - 1] + "…"
  {
    if |text| > max then text[..max - 1] + "…" else text
  }

  /** A truncated label never exceeds its width. */
  lemma TruncateTextBound(text: string, max: nat)
    requires max > 0
    ensures |TruncateText(text, max)| <= max
    ensures TruncateText(TruncateText(text, max), max) == TruncateText(text, max)
  {
  }

  /** What a player reports when the tile asks it for its state. */
  datatype PlayerProbe =
    | ProxyFailed
    | Reachable(status: Result<string, string>, metadata: Option<map<string, Variant>>)

  /** What the tile shows for a player. */
  datatype Display = Display(icon: string, title: string, artist: string, visible: bool)

  /** The width, in characters, of the title and artist labels. */
  const LabelWidth: nat := 30

  /** The display for a reachable player: a status that cannot be read
      counts as stopped, missing metadata as empty; a missing title reads
      "Unknown" and a missing artist "Unknown Artist". */
  function DisplayFor(status: Result<string, string>, metadata: Option<map<string, Variant>>): (d: Display)
    ensures d.visible <==> status.Ok? && StatusFromStr(status.value) != Stopped
    ensures |d.title| <= LabelWidth && |d.artist| <= LabelWidth
  {
    var s := match status case Ok(v) => StatusFromStr(v) case Err(_) => Stopped;
    var m := metadata.UnwrapOr(map[]);
    var title := ExtractMetadataString(m, "xesam:title").UnwrapOr("Unknown");
    var artist := ExtractMetadataString(m, "xesam:artist").UnwrapOr("Unknown Artist");
    TruncateTextBound(title, LabelWidth);
    TruncateTextBound(artist, LabelWidth);
    Display(MprisRelm4.StatusIcon(s), TruncateText(title, LabelWidth), TruncateText(artist, LabelWidth), s != Stopped)
  }

  /** Bus names of MPRIS players carry this prefix. */
  const PlayerPrefix: string := "org.mpris.MediaPlayer2."

  class MediaWidget {
    var currentPlayer: Option<string>
    var players: set<string>
    var icon: string
    var titleText: string
    var artistText: string
    var visible: bool

    /** The current player, when there is one, is a tracked player. */
    ghost predicate Valid()
      reads this
    {
      currentPlayer.Some? ==> currentPlayer.value in players
    }

    /** The tile starts hidden, showing the stopped glyph, with no players. */
    constructor ()
      ensures Valid()
      ensures currentPlayer.None? && players == {} && !visible && icon == MprisRelm4.StoppedIcon
    {
      currentPlayer := None;
      players := {};
      icon := MprisRelm4.StoppedIcon;
      titleText := [];
      artistText := [];
      visible := false;
    }

    /** Shows what a player reports. */
    method UpdateDisplay(status: Result<string, string>, metadata: Option<map<string, Variant>>)
      modifies this`icon, this`titleText, this`artistText, this`visible
      ensures Display(icon, titleText, artistText, visible) == DisplayFor(status, metadata)
    {
      var d := DisplayFor(status, metadata);
      icon := d.icon;
      titleText := d.title;
      artistText := d.artist;
      visible := d.visible;
    }

    /** Starts tracking a player; the first one tracked while none is current
        becomes current and is shown. A player whose proxy cannot be built is
        ignored. */
    method AddPlayer(name: string, probe: PlayerProbe)
      requires Valid()
      modifies this
      ensures Valid()
      ensures probe.ProxyFailed? ==> players == old(players) && currentPlayer == old(currentPlayer)
      ensures probe.Reachable? ==> players == old(players) + {name}
      ensures probe.Reachable? && old(currentPlayer).None? ==>
        currentPlayer == Some(name) && Display(icon, titleText, artistText, visible) == DisplayFor(probe.status, probe.metadata)
      ensures old(currentPlayer).Some? ==> currentPlayer == old(currentPlayer)
    {
      if probe.ProxyFailed? {
        return;
      }
      players := players + {name};
      if currentPlayer.None? {
        currentPlayer := Some(name);
        UpdateDisplay(probe.status, probe.metadata);
      }
    }

    /** Stops tracking a player, as the code evidently intends (see
        `RemoveAsWritten` for the code as written): if it was current, some
        remaining player becomes current (the display is left as it was),
        or, with none left, there is no current player and the tile is
        hidden. */
    method RemovePlayer(name: string)
      requires Valid()
      modifies this`players, this`currentPlayer, this`visible
      ensures Valid()
      ensures players == old(players) - {name}
      ensures old(currentPlayer) != Some(name) ==> currentPlayer == old(currentPlayer) && visible == old(visible)
      ensures old(currentPlayer) == Some(name) && players != {} ==> currentPlayer.Some? && visible == old(visible)
      ensures old(currentPlayer) == Some(name) && players == {} ==> currentPlayer.None? && !visible
    {
      players := players - {name};
      if currentPlayer == Some(name) {
        if players != {} {
          var next :| next in players;
          currentPlayer := Some(next);
        } else {
          currentPlayer := None;
          visible := false;
        }
      }
    }

    /** A bus name changed owner: for a player name, losing its owner (none
        or an empty one) removes the player, anything else adds it. Other
        names are ignored. */
    method NameOwnerChanged(name: string, newOwner: Option<string>, probe: PlayerProbe)
      requires Valid()
      modifies this
      ensures Valid()
      ensures !StartsWith(name, PlayerPrefix) ==> players == old(players) && currentPlayer == old(currentPlayer)
      ensures StartsWith(name, PlayerPrefix) && (newOwner.None? || newOwner.value == []) ==> players == old(players) - {name}
      ensures StartsWith(name, PlayerPrefix) && newOwner.Some? && newOwner.value != [] && probe.Reachable? ==> name in players
    {
      if StartsWith(name, PlayerPrefix) {
        if newOwner.None? || |newOwner.value| == 0 {
          RemovePlayer(name);
        } else {
          AddPlayer(name, probe);
        }
      }
    }

    /** Tracks every player already on the bus, in the order the bus lists
        the names. */
    method Discover(names: seq<string>, probe: string -> PlayerProbe)
      requires Valid()
      modifies this
      ensures Valid()
      ensures players == old(players) + set n | n in names && StartsWith(n, PlayerPrefix) && probe(n).Reachable?
    {
      ghost var before := players;
      var i := 0;
      while i < |names|
        invariant 0 <= i <= |names|
        invariant Valid()
        invariant players == before + set n | n in names[..i] && StartsWith(n, PlayerPrefix) && probe(n).Reachable?
      {
        assert names[..i + 1] == names[..i] + [names[i]];
        if StartsWith(names[i], PlayerPrefix) {
          AddPlayer(names[i], probe(names[i]));
        }
        i := i + 1;
      }
      assert names[..|names|] == names;
    }

    /** A click, as the code evidently intends (see `ClickAsWritten` for
        the code as written): the handler reads the cells the monitoring
        code updates and asks the current player to toggle playback. */
    method Click() returns (toggle: Option<string>)
      requires Valid()
      ensures toggle == currentPlayer
    {
      toggle := ClickTarget(currentPlayer, players);
    }
  }

  /** The click handler's logic: the player to toggle is the current one,
      when it is tracked. */
  function ClickTarget(current: Option<string>, players: set<string>): (toggle: Option<string>)
    ensures toggle.Some? <==> current.Some? && current.value in players
    ensures toggle.Some? ==> toggle == current
  {
    match current
    case Some(name) => if name in players then Some(name) else None
    case None => None
  }

  /** A click as written: the handler owns clones of the current-player
      cell and the player table, taken when the widget is built, while
      they still hold no player and no entry. `RefCell::clone` copies the
      contents into new cells, and the monitoring code writes only its own
      clones, so the handler's cells never change. */
  function ClickAsWritten(): (toggle: Option<string>)
    ensures toggle.None?
  {
    var handlerCurrent: Option<string> := None;
    var handlerPlayers: set<string> := {};
    ClickTarget(handlerCurrent, handlerPlayers)
  }

  /** As written, a click never toggles playback, even while a tracked
      player is current and the corrected click would toggle it. */
  lemma ClickNeverToggles(current: Option<string>, players: set<string>)
    requires current.Some? && current.value in players
    ensures ClickTarget(current, players) == current
    ensures ClickAsWritten().None?
  {
  }

  /** What removing a player does as written. */
  datatype RemoveOutcome =
    | BorrowPanic
    | Removed(players: set<string>, current: Option<string>)

  /** Removing a player as written: the table entry goes; then the
      current-player cell is borrowed for the whole `if let`, so when the
      removed player is the current one the `borrow_mut` that would switch
      or clear it panics with a `BorrowMutError`. Removing any other player
      leaves the current player and the display as they were. */
  function RemoveAsWritten(current: Option<string>, players: set<string>, name: string): (r: RemoveOutcome)
    ensures r.BorrowPanic? <==> current == Some(name)
    ensures r.Removed? ==> r.players == players - {name} && r.current == current
  {
    var remaining := players - {name};
    match current
    case Some(active) =>
      if active == name then BorrowPanic else Removed(remaining, current)
    case None => Removed(remaining, current)
  }

  /** One tracked player, current, loses its bus owner: as written the
      removal panics. */
  lemma RemovingOnlyPlayerPanics()
    ensures var vlc := PlayerPrefix + "vlc";
      RemoveAsWritten(Some(vlc), {vlc}, vlc).BorrowPanic?
  {
  }
}
