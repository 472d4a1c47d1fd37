/** The brightness tile: it mirrors the brightness service's level and
    availability, asks the service for a new level when scrolled, and shows
    an icon and a percentage. The service is outside this model: a scroll
    returns the level it asks for. */
module BrightnessTileRelm4 {
  import opened Wrappers
  import opened RustText
  import opened TileMessages
  import FV = FloatValues

  datatype Msg = Click | Scroll(delta: real) | ServiceUpdate(level: real, available: bool)

  /** The level a scroll asks for: five points per unit of scroll. */
  function ScrollTarget(level: real, delta: real): (r: real)
    ensures 0.0 <= r <= 1.0
    ensures 0.0 <= level + delta * 0.05 <= 1.0 ==> r == level + delta * 0.05
    ensures level + delta * 0.05 < 0.0 ==> r == 0.0
    ensures level + delta * 0.05 > 1.0 ==> r == 1.0
  {
    FV.ClampUnit(level + delta * 0.05)
  }

  function IconName(level: real, available: bool): string {
    if !available then "display-brightness-symbolic"
    else if level > 0.8 then "display-brightness-high-symbolic"
    else if level > 0.4 then "display-brightness-medium-symbolic"
    else "display-brightness-low-symbolic"
  }

  function Text(level: real, available: bool): string {
    if !available then "N/A" else NatToString(ToU32(level * 100.0)) + "%"
  }

  /** The icon is the generic one when unavailable, and otherwise high above
      0.8, medium above 0.4 and low below; a brighter level never picks a
      dimmer icon. */
  lemma IconRules(level: real, brighter: real)
    requires level <= brighter
    ensures IconName(level, false) == "display-brightness-symbolic"
    ensures IconName(level, true) == "display-brightness-high-symbolic" <==> level > 0.8
    ensures IconName(level, true) == "display-brightness-low-symbolic" <==> level <= 0.4
    ensures IconName(level, true) == "display-brightness-high-symbolic" ==> IconName(brighter, true) == "display-brightness-high-symbolic"
    ensures IconName(level, true) != "display-brightness-low-symbolic" ==> IconName(brighter, true) != "display-brightness-low-symbolic"
  {
  }

  /** The text is "N/A" when unavailable, and otherwise the whole percent,
      rounded down, read back from the text. */
  lemma TextRules(level: real)
    requires 0.0 <= level <= 1.0
    ensures Text(level, false) == "N/A"
    ensures var t := Text(level, true);
      && |t| > 0 && t[|t| - 1] == '%'
      && ParseU32(t[..|t| - 1]) == Some((level * 100.0).Floor)
  {
    var n := (level * 100.0).Floor;
    var t := Text(level, true);
    assert t[..|t| - 1] == NatToString(n);
    ParseU32RoundTrip(n);
  }

  class BrightnessTile {
    var level: real
    var available: bool

    /** `init`: level 0, unavailable until the service reports. */
    constructor ()
      ensures level == 0.0 && !available
    {
      level := 0.0;
      available := false;
    }

    /** `update`: a click reports the tile by name; a scroll asks the service
        for a level without changing the tile's own; a service update is
        mirrored. */
    method Update(msg: Msg) returns (output: Option<TileOutput>, request: Option<real>)
      modifies this
      ensures msg.Click? ==> output == Some(Clicked("brightness")) && request.None?
      ensures msg.Scroll? ==> output.None? && request == Some(ScrollTarget(old(level), msg.delta))
      ensures msg.ServiceUpdate? ==> output.None? && request.None?
      ensures level == (if msg.ServiceUpdate? then msg.level else old(level))
      ensures available == (if msg.ServiceUpdate? then msg.available else old(available))
    {
      output, request := None, None;
      match msg
      case Click =>
        output := Some(Clicked("brightness"));
      case Scroll(delta) =>
        request := Some(FV.ClampUnit(level + delta * 0.05));
      case ServiceUpdate(l, a) =>
        level := l;
        available := a;
    }

    function Icon(): string
      reads this
    {
      IconName(level, available)
    }

    function Label(): string
      reads this
    {
      Text(level, available)
    }
  }
}
