/** The media tile of the bar: the current title, artist and playback
    status, shown while a player is available. */
module MprisRelm4 {
  import opened Wrappers
  import opened TileMessages
  import opened MprisService

  const PlayingIcon: string := "\U{F040A}"
  const PausedIcon: string := "\U{F03E4}"
  const StoppedIcon: string := "\U{F04DB}"

  /** The title shown while nothing is known about the media. */
  const Placeholder: string := "No media playing"

  datatype MprisMsg =
    | Click
    | UpdateMedia(title: string, artist: string, status: PlaybackStatus)
    | PlayerAvailable(available: bool)

  /** The glyph for each status. */
  function StatusIcon(status: PlaybackStatus): string {
    match status
    case Playing => PlayingIcon
    case Paused => PausedIcon
    case Stopped => StoppedIcon
  }

  /** Different statuses get different glyphs. */
  lemma StatusIconInjective(a: PlaybackStatus, b: PlaybackStatus)
    ensures StatusIcon(a) == StatusIcon(b) <==> a == b
  {
  }

  /** The text of the title label. */
  function DisplayTitle(title: string): (shown: string)
    ensures shown == "No media" <==> title == [] || title == Placeholder || title == "No media"
    ensures shown != "No media" ==> shown == title
  {
    if |title| == 0 || title == Placeholder then "No media" else title
  }

  class MprisWidget {
    var title: string
    var artist: string
    var status: PlaybackStatus
    var hasPlayer: bool

    /** The tile starts hidden, with the placeholder title, no artist and
        `Stopped`. */
    constructor ()
      ensures title == Placeholder && artist == [] && status == Stopped && !hasPlayer
    {
      title := Placeholder;
      artist := [];
      status := Stopped;
      hasPlayer := false;
    }

    method Update(msg: MprisMsg) returns (output: Option<TileOutput>)
      modifies this
      ensures msg.Click? ==> (output == Some(Clicked("mpris")) && title == old(title)
        && artist == old(artist) && status == old(status) && hasPlayer == old(hasPlayer))
      ensures msg.UpdateMedia? ==> (output == None && title == msg.title
        && artist == msg.artist && status == msg.status && hasPlayer == old(hasPlayer))
      ensures msg.PlayerAvailable? && msg.available ==> (output == None && hasPlayer
        && title == old(title) && artist == old(artist) && status == old(status))
      ensures msg.PlayerAvailable? && !msg.available ==> (output == None && !hasPlayer
        && title == Placeholder && artist == [] && status == Stopped)
    {
      output := None;
      match msg
      case Click =>
        output := Some(Clicked("mpris"));
      case UpdateMedia(t, a, s) =>
        title := t;
        artist := a;
        status := s;
      case PlayerAvailable(available) =>
        hasPlayer := available;
        if !available {
          title := Placeholder;
          artist := [];
          status := Stopped;
        }
    }
  }

  /** Losing the player shows "No media" whatever was playing before. */
  lemma LostPlayerShowsNoMedia()
    ensures DisplayTitle(Placeholder) == "No media"
  {
  }
}
