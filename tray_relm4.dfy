/** The tray tile of the bar: a fixed tray glyph and the number of tray items,
    shown only while there is at least one. */
module TrayRelm4 {
  import opened Wrappers
  import opened RustText
  import opened TileMessages
  import opened CountLabel

  datatype Msg = Click | UpdateItems(count: nat)

  const TrayGlyph: string := "\U{F014C}"

  class TrayWidget {
    var itemCount: nat
    var visible: bool

    /** The tile is visible exactly when it counts at least one item. */
    predicate Valid()
      reads this
    {
      itemCount <= U32_MAX && (visible <==> itemCount > 0)
    }

    constructor ()
      ensures Valid()
      ensures itemCount == 0 && !visible
    {
      itemCount := 0;
      visible := false;
    }

    /** A click is reported as a click on "tray"; a new count replaces the
        old one and decides whether the tile shows. */
    method Update(msg: Msg) returns (output: Option<TileOutput>)
      requires msg.UpdateItems? ==> msg.count <= U32_MAX
      requires Valid()
      modifies this
      ensures Valid()
      ensures msg.Click? ==> output == Some(Clicked("tray")) && itemCount == old(itemCount)
      ensures msg.UpdateItems? ==> output == None && itemCount == msg.count
    {
      match msg
      case Click =>
        output := Some(Clicked("tray"));
      case UpdateItems(count) =>
        itemCount := count;
        visible := count > 0;
        output := None;
    }

    /** The count label of the tile. */
    function Count(): (shown: Label)
      reads this
      requires Valid()
      ensures shown.visible <==> visible
    {
      LabelFor(itemCount)
    }
  }
}
