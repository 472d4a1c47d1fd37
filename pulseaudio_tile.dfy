/** The PulseAudio tile: a progress tile that shows the shared volume
    state, redrawn after every message. The shared state holds the volume
    in percent, the mute flag and the default sink's name. The names of
    the muted and silent icons are constants this model does not have;
    they are fields of the tile, given when it is built. */
module PulseAudioTile {
  import opened Wrappers
  import Icons
  import FV = FloatValues
  import PT = ProgressTile

  datatype PulseAudioData = PulseAudioData(volume: real, muted: bool, defaultSinkName: Option<string>)

  datatype Msg = TileClicked | Update

  /** `get_icon`'s choice. */
  datatype VolumeIcon = VolumeMuted | VolumeZero | Level(icon: string)

  function GetIcon(data: PulseAudioData): (icon: VolumeIcon)
    ensures icon.Level? ==> icon.icon in Icons.VolumeIcons
  {
    if data.defaultSinkName.None? || data.muted then VolumeMuted
    else if data.volume == 0.0 then VolumeZero
    else Level(Icons.PercentageToIcon(data.volume / 100.0, Icons.VolumeIcons))
  }

  /** The progress shown: 0 when muted, else the volume as a fraction
      clamped to 0..1. */
  function Progress(data: PulseAudioData): (p: real)
    ensures 0.0 <= p <= 1.0
    ensures data.muted ==> p == 0.0
    ensures !data.muted && 0.0 <= data.volume <= 100.0 ==> p == data.volume / 100.0
  {
    if data.muted then 0.0 else FV.ClampUnit(data.volume / 100.0)
  }

  /** No sink or a muted sink shows the muted icon; an unmuted sink at
      exactly 0 shows the silent icon; otherwise the level icon grows
      with the volume and a volume of 100% or more shows the loudest. */
  lemma IconRules(data: PulseAudioData, louder: PulseAudioData)
    ensures GetIcon(data) == VolumeMuted <==> data.defaultSinkName.None? || data.muted
    ensures GetIcon(data) == VolumeZero <==> data.defaultSinkName.Some? && !data.muted && data.volume == 0.0
    ensures GetIcon(data).Level? && data.volume >= 100.0 ==> GetIcon(data).icon == Icons.VolumeIcons[2]
    ensures GetIcon(data).Level? && GetIcon(louder).Level? && data.volume <= louder.volume ==>
      Icons.IconIndex(data.volume / 100.0, 3) <= Icons.IconIndex(louder.volume / 100.0, 3)
  {
    if GetIcon(data).Level? && data.volume >= 100.0 {
      assert data.volume / 100.0 * 3.0 >= 3.0;
    }
    if data.volume <= louder.volume {
      Icons.IconIndexMonotone(data.volume / 100.0, louder.volume / 100.0, 3);
    }
  }

  class PulseAudioTileModel {
    const progressTile: PT.ProgressTileModel
    const mutedIcon: string
    const zeroIcon: string
    /** The root box's visibility. */
    var visible: bool

    ghost predicate Valid()
      reads this, progressTile
    {
      progressTile.Valid()
    }

    function IconName(icon: VolumeIcon): string
      reads this
    {
      match icon
      case VolumeMuted => mutedIcon
      case VolumeZero => zeroIcon
      case Level(i) => i
    }

    /** `init`: a hidden box around a dim progress tile with no icon and
        progress 0, otherwise built from the default settings. */
    constructor (mutedIcon: string, zeroIcon: string)
      ensures Valid() && fresh(progressTile)
      ensures this.mutedIcon == mutedIcon && this.zeroIcon == zeroIcon && !visible
      ensures progressTile.icon.None? && progressTile.progress == 0.0 && progressTile.visible
      ensures progressTile.attention == PT.Dim && !progressTile.active
    {
      this.mutedIcon := mutedIcon;
      this.zeroIcon := zeroIcon;
      visible := false;
      progressTile := new PT.ProgressTileModel(PT.Init(None, 0.0, true, PT.Dim, []));
    }

    /** A message (both do nothing in `update`) followed by `update_view`
        on the shared state: the icon and the progress are sent to the
        progress tile, which brightens, and the box is shown exactly when
        there is a default sink. */
    method Handle(msg: Msg, data: PulseAudioData) returns (panicked: bool)
      requires Valid()
      modifies this`visible, progressTile
      ensures panicked <==> old(progressTile.ArmedSourceGone())
      ensures !panicked ==> Valid()
      ensures !panicked ==> progressTile.icon == Some(IconName(GetIcon(data)))
      ensures !panicked ==> progressTile.progress == Progress(data)
      ensures !panicked ==> progressTile.active
      ensures !panicked ==> (visible <==> data.defaultSinkName.Some?)
    {
      var _, _ := progressTile.Update(PT.SetIcon(Some(IconName(GetIcon(data)))));
      var _, p := progressTile.Update(PT.SetProgress(Progress(data)));
      panicked := p;
      if panicked {
        return;
      }
      visible := data.defaultSinkName.Some?;
    }
  }
}
