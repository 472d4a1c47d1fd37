/** A tile with an icon and a progress bar (volume, brightness). Setting the
    progress through the animated path brightens the tile and arms a
    three-second fade timer, replacing any timer already armed; the timer's
    message dims it again. GLib's timer sources are modelled as a set of
    pending source ids. */
module ProgressTile {
  import opened Wrappers

  datatype Attention = Normal | Dim | Bright

  function CssClass(a: Attention): string {
    match a
    case Normal => ""
    case Dim => "dim"
    case Bright => "bright"
  }

  datatype Msg =
    | SetIcon(icon: Option<string>)
    | SetProgress(progress: real)
    | SetProgressSilently(progress: real)
    | SetVisible(visible: bool)
    | SetAttention(attention: Attention)
    | Click
    | FadeTimeout

  datatype Output = Clicked

  datatype Init = Init(iconName: Option<string>, progress: real, visible: bool, attention: Attention, extraClasses: seq<string>)

  /** `ProgressTileInit::default()`. */
  const DefaultInit: Init := Init(None, 0.0, true, Normal, [])

  /** The icon's classes after `update_view`. */
  function IconClasses(attention: Attention, active: bool): set<string> {
    {"icon", CssClass(attention)} + (if active then {"active"} else {})
  }

  /** The progress bar's classes after `update_view`. */
  function BarClasses(attention: Attention, active: bool): set<string> {
    {CssClass(attention)} + (if active then {"active"} else {})
  }

  /** Both widgets carry "active" exactly while the tile is active, and the
      attention class of the current attention and of no other. */
  lemma ViewClasses(attention: Attention, active: bool, other: Attention)
    ensures "active" in IconClasses(attention, active) <==> active
    ensures "active" in BarClasses(attention, active) <==> active
    ensures CssClass(attention) in IconClasses(attention, active) && CssClass(attention) in BarClasses(attention, active)
    ensures other != attention ==> CssClass(other) !in IconClasses(attention, active) && CssClass(other) !in BarClasses(attention, active)
  {
  }

  class ProgressTileModel {
    var icon: Option<string>
    var progress: real
    var visible: bool
    var attention: Attention
    var active: bool
    var extraClasses: seq<string>
    /** The source id of the armed fade timer. */
    var fadeTimeoutSource: Option<nat>
    /** GLib's pending timer sources, by id. */
    var pending: set<nat>
    var nextSource: nat

    /** The tile is active exactly while it holds a fade timer, and every
        source id was handed out before. */
    ghost predicate Valid()
      reads this
    {
      && (active <==> fadeTimeoutSource.Some?)
      && (fadeTimeoutSource.Some? ==> fadeTimeoutSource.value < nextSource)
      && (forall s :: s in pending ==> s < nextSource)
    }

    /** The tile starts inactive with no timer. */
    constructor (init: Init)
      ensures Valid()
      ensures icon == init.iconName && progress == init.progress && visible == init.visible
      ensures attention == init.attention && extraClasses == init.extraClasses
      ensures !active && fadeTimeoutSource.None? && pending == {}
    {
      icon := init.iconName;
      progress := init.progress;
      visible := init.visible;
      attention := init.attention;
      extraClasses := init.extraClasses;
      active := false;
      fadeTimeoutSource := None;
      pending := {};
      nextSource := 0;
    }

    /** Whether `activate` would panic: the armed timer has already fired
        (its callback returned `Break`, so GLib has dropped the source) and
        its `FadeTimeout` is still queued behind this message. Removing a
        source GLib no longer holds fails, and `SourceId::remove` unwraps
        that failure. */
    predicate ArmedSourceGone()
      reads this
    {
      fadeTimeoutSource.Some? && fadeTimeoutSource.value !in pending
    }

    /** `activate`: takes the armed timer, if any, and removes its source,
        then arms a new one. Removing a source that already fired panics;
        the panic ends the program, so only the taken id is recorded. */
    method Activate() returns (panicked: bool)
      requires Valid()
      modifies this`active, this`fadeTimeoutSource, this`pending, this`nextSource
      ensures panicked <==> old(ArmedSourceGone())
      ensures panicked ==> fadeTimeoutSource.None? && pending == old(pending) && nextSource == old(nextSource)
      ensures !panicked ==> Valid() && active
      ensures !panicked ==> fadeTimeoutSource == Some(old(nextSource)) && fadeTimeoutSource.value !in old(pending)
      ensures !panicked ==>
        pending == (if old(fadeTimeoutSource).Some? then old(pending) - {old(fadeTimeoutSource).value} else old(pending)) + {old(nextSource)}
    {
      panicked := false;
      if fadeTimeoutSource.Some? {
        var source := fadeTimeoutSource.value;
        fadeTimeoutSource := None;
        if source !in pending {
          panicked := true;
          return;
        }
        pending := pending - {source};
      }
      active := true;
      var source := nextSource;
      nextSource := nextSource + 1;
      pending := pending + {source};
      fadeTimeoutSource := Some(source);
    }

    /** Handles one message; only a loud progress change can panic, as
        `Activate` says. */
    method Update(msg: Msg) returns (output: Option<Output>, panicked: bool)
      requires Valid()
      modifies this
      ensures panicked <==> msg.SetProgress? && old(ArmedSourceGone())
      ensures !panicked ==> Valid()
      ensures output == (if msg.Click? then Some(Clicked) else None)
      ensures extraClasses == old(extraClasses)
      ensures icon == (if msg.SetIcon? then msg.icon else old(icon))
      ensures progress == (if msg.SetProgress? || msg.SetProgressSilently? then msg.progress else old(progress))
      ensures visible == (if msg.SetVisible? then msg.visible else old(visible))
      ensures attention == (if msg.SetAttention? then msg.attention else old(attention))
      ensures msg.SetProgress? && !panicked ==>
        && active && fadeTimeoutSource.Some? && fadeTimeoutSource.value !in old(pending)
        && pending * old(pending) == (if old(fadeTimeoutSource).Some? then old(pending) - {old(fadeTimeoutSource).value} else old(pending))
        && pending - old(pending) == {fadeTimeoutSource.value}
      ensures msg.FadeTimeout? ==> !active && fadeTimeoutSource.None? && pending == old(pending)
      ensures !msg.SetProgress? && !msg.FadeTimeout? ==>
        active == old(active) && fadeTimeoutSource == old(fadeTimeoutSource) && pending == old(pending)
    {
      output := None;
      panicked := false;
      match msg {
        case Click => output := Some(Clicked);
        case SetIcon(i) => icon := i;
        case SetProgress(p) =>
          progress := p;
          panicked := Activate();
        case SetProgressSilently(p) => progress := p;
        case SetVisible(v) => visible := v;
        case SetAttention(a) => attention := a;
        case FadeTimeout =>
          active := false;
          fadeTimeoutSource := None;
      }
    }

    /** A pending timer fires: GLib drops the source (the callback returns
        `Break`) and the tile receives `FadeTimeout`. */
    method Fire(source: nat) returns (msg: Msg)
      requires source in pending
      modifies this`pending
      ensures pending == old(pending) - {source}
      ensures msg == FadeTimeout
    {
      pending := pending - {source};
      msg := FadeTimeout;
    }
  }

  /** The race in the fade timer: a loud progress change arms the timer, the
      timer fires and queues `FadeTimeout`, and a second loud progress
      change handled before that message panics in `activate`. */
  method FiredTimerRace() returns (panicked: bool)
    ensures panicked
  {
    var tile := new ProgressTileModel(DefaultInit);
    var _, first := tile.Update(SetProgress(0.5));
    var fade := tile.Fire(tile.fadeTimeoutSource.value);
    var _, second := tile.Update(SetProgress(0.7));
    panicked := second;
  }
}
