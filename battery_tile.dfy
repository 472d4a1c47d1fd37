/** The battery tile: a tile showing the battery service's charge, with an
    icon from the charging or the plain battery list, the percentage, a
    status word, an attention level and one battery class. It is shown only
    when the service found a battery. */
module BatteryTile {
  import opened Wrappers
  import opened RustText
  import Icons
  import BS = BatteryService
  import TW = TileWidget

  /** The classes this tile adds besides the tile's own. */
  const BatteryClasses: set<string> := {"battery-low", "battery-critical", "battery-charging"}

  /** Clears the three battery classes, then adds `cls` if there is one. */
  function WithBatteryClass(classes: set<string>, cls: Option<string>): (r: set<string>)
    requires cls.Some? ==> cls.value in BatteryClasses
    ensures r - BatteryClasses == classes - BatteryClasses
    ensures r * BatteryClasses == if cls.Some? then {cls.value} else {}
  {
    var cleared := classes - {"battery-low"} - {"battery-critical"} - {"battery-charging"};
    if cls.Some? then cleared + {cls.value} else cleared
  }

  datatype BatteryView = BatteryView(
    icon: string,
    primary: string,
    secondary: Option<string>,
    attention: TW.Attention,
    batteryClass: Option<string>)

  /** What `update_display` shows for a charge fraction and charging flag. */
  function View(percentage: real, charging: bool): BatteryView {
    var low := BS.IsLow(percentage, charging);
    var critical := BS.IsCritical(percentage, charging);
    var icon := if charging then Icons.PercentageToIcon(percentage, Icons.BatteryChargingIcons)
                else Icons.PercentageToIcon(percentage, Icons.BatteryIcons);
    var status := if charging then "Charging" else if critical then "Critical" else if low then "Low" else "";
    BatteryView(
      icon,
      NatToString(ToU32(percentage * 100.0)) + "%",
      if status != "" then Some(status) else None,
      if critical then TW.Alarm else if low then TW.Warning else if charging then TW.Normal else TW.Dim,
      if charging then Some("battery-charging") else if critical then Some("battery-critical")
      else if low then Some("battery-low") else None)
  }

  /** The charging glyphs and the plain battery glyphs have nothing in
      common. */
  lemma IconListsDisjoint()
    ensures forall i, j :: 0 <= i < |Icons.BatteryIcons| && 0 <= j < |Icons.BatteryChargingIcons| ==>
      Icons.BatteryIcons[i] != Icons.BatteryChargingIcons[j]
  {
    var plain, charging := Icons.BatteryIcons, Icons.BatteryChargingIcons;
    forall i, j | 0 <= i < |plain| && 0 <= j < |charging| ensures plain[i] != charging[j] {
      assert plain[i][0] != charging[j][0];
    }
  }

  /** The charging icon list is used exactly when charging; the status word
      is "Charging" before "Critical" before "Low"; the attention is Alarm
      when critical, Warning when low, Normal when charging and Dim otherwise;
      the battery class agrees with the status word. */
  lemma ViewRules(percentage: real, charging: bool)
    ensures var v := View(percentage, charging);
      && (v.icon in Icons.BatteryChargingIcons <==> charging)
      && (v.icon in Icons.BatteryIcons <==> !charging)
      && (v.secondary == if charging then Some("Charging") else if percentage < 0.05 then Some("Critical")
                         else if percentage < 0.15 then Some("Low") else None)
      && (v.attention == if !charging && percentage < 0.05 then TW.Alarm else if !charging && percentage < 0.15 then TW.Warning
                         else if charging then TW.Normal else TW.Dim)
      && (v.batteryClass.Some? <==> v.secondary.Some?)
      && (v.batteryClass.Some? ==> v.batteryClass.value in BatteryClasses)
  {
    IconListsDisjoint();
  }

  /** For a charge between 0 and 1 the percentage shown is the whole
      number of percent, rounded down, followed by "%". */
  lemma PrimaryText(percentage: real)
    requires 0.0 <= percentage <= 1.0
    ensures var n := (percentage * 100.0).Floor;
      && 0 <= n <= 100
      && View(percentage, false).primary == NatToString(n) + "%"
      && View(percentage, true).primary == NatToString(n) + "%"
  {
  }

  class BatteryWidget {
    const tile: TW.Tile
    /** The tile's own CSS classes. */
    var classes: set<string>

    ghost predicate Valid()
      reads this, tile
    {
      tile.Valid()
    }

    /** `BatteryWidget::new`: a hidden, dim tile with empty texts and the
        "battery" class; it becomes visible iff the service is available, and
        an available service is displayed at once. */
    constructor (service: BS.BatteryServiceObject)
      ensures Valid() && fresh(tile) && fresh(tile.Labels())
      ensures tile.tileVisible == service.available && tile.Displayed()
      ensures service.available ==> Shows(View(service.percentage, service.charging))
      ensures !service.available ==>
        && tile.icon == Some("") && tile.primary == Some("") && tile.secondary.None?
        && TW.AttentionFrom(tile.attention) == TW.Dim && classes == {"battery"}
    {
      var t := TW.Build(TW.TileSettings(Some(""), Some(""), None, TW.Dim, false));
      tile := t;
      classes := {"battery"};
      new;
      tile.SetTileVisibility(service.available);
      if service.available {
        UpdateDisplay(service.percentage, service.charging);
      }
    }

    /** The tile's state shows view `v`. */
    ghost predicate Shows(v: BatteryView)
      reads this, tile
    {
      && tile.icon == Some(v.icon) && tile.primary == Some(v.primary) && tile.secondary == v.secondary
      && TW.AttentionFrom(tile.attention) == v.attention
      && classes * BatteryClasses == (if v.batteryClass.Some? then {v.batteryClass.value} else {})
    }

    /** The `update_display` closure, run on every percentage or charging
        notification: the tile shows the view, at most one battery class is
        applied, and every other class is kept. */
    method UpdateDisplay(percentage: real, charging: bool)
      requires Valid()
      modifies this`classes, tile`icon, tile`primary, tile`secondary, tile`attention, tile`widgetVisible, tile.Labels()
      ensures Valid() && tile.Displayed()
      ensures Shows(View(percentage, charging))
      ensures classes - BatteryClasses == old(classes) - BatteryClasses
      ensures tile.tileVisible == old(tile.tileVisible)
    {
      ViewRules(percentage, charging);
      ShowView(View(percentage, charging));
    }

    /** Puts one view on the tile. */
    method ShowView(v: BatteryView)
      requires Valid()
      requires v.batteryClass.Some? ==> v.batteryClass.value in BatteryClasses
      modifies this`classes, tile`icon, tile`primary, tile`secondary, tile`attention, tile`widgetVisible, tile.Labels()
      ensures Valid() && tile.Displayed()
      ensures Shows(v)
      ensures classes - BatteryClasses == old(classes) - BatteryClasses
      ensures tile.tileVisible == old(tile.tileVisible)
    {
      tile.SetTileContent(Some(v.icon), Some(v.primary), v.secondary, v.attention);
      classes := WithBatteryClass(classes, v.batteryClass);
    }
  }
}
