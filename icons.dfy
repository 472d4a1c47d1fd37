/** The shell's icon glyphs and the choice of an icon from a list by a
    fraction, as used by the level tiles (brightness, volume, battery,
    Wi-Fi strength). */
module Icons {
  const BrightnessIcons: seq<string> := ["\U{F00DB}", "\U{F00DC}", "\U{F00DD}", "\U{F00DE}", "\U{F00DF}", "\U{F00E0}"]
  const VolumeIcons: seq<string> := ["\U{F057F}", "\U{F0580}", "\U{F057E}"]
  const MuteIcon: string := "\U{F0581}"
  const BatteryIcons: seq<string> :=
    ["\U{F007A}", "\U{F007B}", "\U{F007C}", "\U{F007D}", "\U{F007E}", "\U{F007F}", "\U{F0080}", "\U{F0081}", "\U{F0082}", "\U{F0079}"]
  const BatteryChargingIcons: seq<string> :=
    ["\U{F089F}", "\U{F089C}", "\U{F0086}", "\U{F0087}", "\U{F0088}", "\U{F089D}", "\U{F0089}", "\U{F089E}", "\U{F008A}", "\U{F008B}"]
  const NetworkWifiIcons: seq<string> := ["\U{F092F}", "\U{F091F}", "\U{F0922}", "\U{F0925}", "\U{F0928}"]
  const NetworkWiredIcons: seq<string> := ["\U{F0200}"]
  const BluetoothIcons: seq<string> := ["\U{F00AF}", "\U{F00B1}"]

  const USIZE_MAX: int := 0xFFFF_FFFF_FFFF_FFFF

  /** `x as usize` for a finite `x`: rounds toward zero and saturates, so
      every negative value becomes 0. */
  function ToUsize(x: real): (n: nat)
    ensures n <= USIZE_MAX
    ensures 0.0 <= x < USIZE_MAX as real ==> n == x.Floor
    ensures x < 1.0 ==> n == 0
  {
    if x <= 0.0 then 0
    else if x >= USIZE_MAX as real then USIZE_MAX
    else x.Floor
  }

  /** The index `percentage_to_icon_from_list` picks from a list of `len`
      icons: the fraction times the length, cast to `usize`, at most the last
      index. */
  function IconIndex(fraction: real, len: nat): (i: nat)
    requires len > 0
    ensures i < len
  {
    Capped(Scaled(fraction, len), len)
  }

  /** The fraction times the number of icons. */
  function Scaled(fraction: real, len: nat): real {
    fraction * len as real
  }

  /** `x as usize`, capped at the last index of a list of `len`. */
  function Capped(x: real, len: nat): (i: nat)
    requires len > 0
    ensures i < len
  {
    var cast := ToUsize(x);
    if cast < len - 1 then cast else len - 1
  }

  /** The icon for a fraction; the list must not be empty (an empty list
      underflows `len() - 1`). */
  function PercentageToIcon(fraction: real, icons: seq<string>): (icon: string)
    requires |icons| > 0
    ensures icon in icons
  {
    icons[IconIndex(fraction, |icons|)]
  }

  /** For a non-negative fraction the index is the floor of fraction times
      length, capped at the last index. */
  lemma IconIndexFloor(fraction: real, len: nat)
    requires 0 < len <= USIZE_MAX && fraction >= 0.0
    ensures var f := (fraction * len as real).Floor;
      IconIndex(fraction, len) == if f < len - 1 then f else len - 1
  {
    ScaleMonotone(0.0, fraction, len as real);
    CappedFloor(Scaled(fraction, len), len);
  }

  /** A full fraction or more picks the last icon; a fraction below one
      step, negative ones included, picks the first. */
  lemma IconIndexEnds(fraction: real, len: nat)
    requires 0 < len <= USIZE_MAX
    ensures fraction >= 1.0 ==> IconIndex(fraction, len) == len - 1
    ensures fraction * len as real < 1.0 ==> IconIndex(fraction, len) == 0
  {
    if fraction >= 1.0 {
      ScaleMonotone(1.0, fraction, len as real);
    }
    CappedEnds(Scaled(fraction, len), len);
  }

  lemma CappedFloor(x: real, len: nat)
    requires 0 < len <= USIZE_MAX && x >= 0.0
    ensures Capped(x, len) == if x.Floor < len - 1 then x.Floor else len - 1
  {
    if x >= USIZE_MAX as real {
      assert x.Floor >= USIZE_MAX >= len - 1;
    }
  }

  lemma CappedEnds(x: real, len: nat)
    requires 0 < len <= USIZE_MAX
    ensures x >= len as real ==> Capped(x, len) == len - 1
    ensures x < 1.0 ==> Capped(x, len) == 0
  {
    if x >= len as real {
      CappedFloor(x, len);
      assert x.Floor >= len;
    }
  }

  /** A larger fraction never picks an earlier icon. */
  lemma IconIndexMonotone(p: real, q: real, len: nat)
    requires len > 0 && p <= q
    ensures IconIndex(p, len) <= IconIndex(q, len)
  {
    ScaleMonotone(p, q, len as real);
    CappedMonotone(Scaled(p, len), Scaled(q, len), len);
  }

  /** Scaling by a non-negative factor keeps the order. */
  lemma ScaleMonotone(p: real, q: real, factor: real)
    requires p <= q && factor >= 0.0
    ensures p * factor <= q * factor
  {
    assert q * factor - p * factor == (q - p) * factor;
  }

  /** The cast, capped at the last index, keeps the order. */
  lemma CappedMonotone(x: real, y: real, len: nat)
    requires len > 0 && x <= y
    ensures Capped(x, len) <= Capped(y, len)
  {
  }
}
