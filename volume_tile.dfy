/** The volume widget: a box shown while the audio service is available,
    holding an icon and a progress bar bound to the service's volume. Every
    volume or mute change picks the icon and brightens both widgets; each
    change also arms a three-second one-shot timer that dims them again.
    The armed timers are counted, not identified: each one dims when it
    fires. */
module VolumeTile {
  import Icons

  /** `update_icon`'s choice: the mute glyph when muted, else the silent,
      low or high glyph for a volume of exactly 0, below one half, or
      above. */
  function VolumeIcon(muted: bool, volume: real): string {
    if muted then Icons.MuteIcon
    else Icons.VolumeIcons[if volume == 0.0 then 0 else if volume < 0.5 then 1 else 2]
  }

  /** The mute glyph is shown exactly when muted, whatever the volume; an
      unmuted volume shows index 0 at exactly 0, index 1 below one half
      (negative values included) and index 2 from one half on. */
  lemma VolumeIconRules(muted: bool, volume: real)
    ensures VolumeIcon(muted, volume) == Icons.MuteIcon <==> muted
    ensures !muted ==> (VolumeIcon(muted, volume) ==
      Icons.VolumeIcons[if volume == 0.0 then 0 else if volume < 0.5 then 1 else 2])
    ensures VolumeIcon(muted, volume) in Icons.VolumeIcons + [Icons.MuteIcon]
  {
    var icons := Icons.VolumeIcons;
    assert icons[0][0] != Icons.MuteIcon[0] && icons[1][0] != Icons.MuteIcon[0] && icons[2][0] != Icons.MuteIcon[0];
  }

  class VolumeWidget {
    /** The container's visibility, bound to the service's availability. */
    var visible: bool
    /** Whether the icon and the bar were built (only for an available
        service). */
    var hasContent: bool
    var icon: string
    var fraction: real
    /** Both widgets carry "bright" (else "dim"). */
    var bright: bool
    /** The armed fade timers. */
    var armedFades: nat

    /** `VolumeWidget::new`: an available service gets an icon and a bar
        and is shown at once through `update_icon`; an unavailable one
        leaves an empty, hidden box. */
    constructor (available: bool, volume: real, muted: bool)
      ensures visible == available && hasContent == available
      ensures available ==> icon == VolumeIcon(muted, volume) && fraction == volume && bright && armedFades == 1
      ensures !available ==> !bright && armedFades == 0
    {
      visible := available;
      hasContent := available;
      icon := "";
      fraction := 0.0;
      bright := false;
      armedFades := 0;
      new;
      if available {
        fraction := volume;
        UpdateIcon(volume, muted);
      }
    }

    /** `update_icon`: shows the icon for the current state, brightens,
        and arms one more fade timer. */
    method UpdateIcon(volume: real, muted: bool)
      modifies this`icon, this`bright, this`armedFades
      ensures icon == VolumeIcon(muted, volume) && bright && armedFades == old(armedFades) + 1
    {
      icon := VolumeIcon(muted, volume);
      bright := true;
      armedFades := armedFades + 1;
    }

    /** A volume or mute notification from the service: the bar follows
        the volume and the icon is updated. */
    method ServiceChanged(volume: real, muted: bool)
      requires hasContent
      modifies this`icon, this`bright, this`armedFades, this`fraction
      ensures fraction == volume && icon == VolumeIcon(muted, volume)
      ensures bright && armedFades == old(armedFades) + 1
    {
      fraction := volume;
      UpdateIcon(volume, muted);
    }

    /** A fade timer fires and dims both widgets, even when a later change
        armed another timer that has not fired yet. */
    method FadeFired()
      requires armedFades > 0
      modifies this`bright, this`armedFades
      ensures !bright && armedFades == old(armedFades) - 1
    {
      bright := false;
      armedFades := armedFades - 1;
    }
  }
}
