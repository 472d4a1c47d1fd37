/** The bar's generic tile: an icon, a primary and a secondary text, each
    shown in its own label cut to 32 bytes, an attention level that styles
    all three labels, and a visibility flag. Strings are measured in UTF-8
    bytes, as Rust's `str::len` does. */
module TileWidget {
  import opened Wrappers

  datatype Attention = Alarm | Warning | Normal | Dim

  /** `i32::from(attention)`: the enum discriminant. */
  function AttentionCode(a: Attention): int {
    match a
    case Alarm => 0
    case Warning => 1
    case Normal => 2
    case Dim => 3
  }

  /** `Attention::from(i32)`: every other integer gives `Normal`. */
  function AttentionFrom(code: int): Attention {
    match code
    case 0 => Alarm
    case 1 => Warning
    case 3 => Dim
    case _ => Normal
  }

  /** Converting to an integer and back is the identity; an integer outside
      0 to 3 decodes to `Normal`. */
  lemma AttentionRoundTrip(a: Attention, code: int)
    ensures AttentionFrom(AttentionCode(a)) == a
    ensures !(0 <= code <= 3) ==> AttentionFrom(code) == Normal
    ensures 0 <= code <= 3 ==> AttentionCode(AttentionFrom(code)) == code
  {
  }

  function CssClass(a: Attention): string {
    match a
    case Alarm => "alarm"
    case Warning => "warning"
    case Normal => ""
    case Dim => "dim"
  }

  /** The attention classes a label can carry. */
  const AttentionClasses: set<string> := {"alarm", "warning", "dim"}

  /** Only `Normal` has no class, and the other three have distinct
      classes. */
  lemma CssClassRules(a: Attention, b: Attention)
    ensures CssClass(a) == "" <==> a == Normal
    ensures a != Normal ==> CssClass(a) in AttentionClasses
    ensures CssClass(a) == CssClass(b) ==> a == b
  {
  }

  // ---------------------------------------------------------------------
  // UTF-8 lengths and truncation
  // ---------------------------------------------------------------------

  /** The number of bytes UTF-8 uses for a character. */
  function Utf8Width(c: char): nat {
    if c as int < 0x80 then 1
    else if c as int < 0x800 then 2
    else if c as int < 0x10000 then 3
    else 4
  }

  /** `str::len`. */
  function ByteLen(s: string): nat {
    if s == [] then 0 else Utf8Width(s[0]) + ByteLen(s[1..])
  }

  lemma {:induction false} ByteLenAppend(a: string, b: string)
    ensures ByteLen(a + b) == ByteLen(a) + ByteLen(b)
  {
    if a != [] {
      assert (a + b)[1..] == a[1..] + b;
      ByteLenAppend(a[1..], b);
    } else {
      assert a + b == b;
    }
  }

  /** The largest number of leading characters that fit in `n` bytes. */
  function CharsWithin(s: string, n: nat): (k: nat)
    ensures k <= |s| && ByteLen(s[..k]) <= n
    ensures k < |s| ==> ByteLen(s[..k + 1]) > n
  {
    if s == [] || Utf8Width(s[0]) > n then
      assert s[..0] == [];
      assert s != [] ==> s[..1][1..] == [];
      0
    else
      var k := CharsWithin(s[1..], n - Utf8Width(s[0]));
      assert s[..k + 1][1..] == s[1..][..k];
      assert k + 1 < |s| ==> s[..k + 2][1..] == s[1..][..k + 1];
      k + 1
  }

  /** Byte offset `n` falls between two characters of `s` (or at its end). */
  predicate IsCharBoundary(s: string, n: nat) {
    ByteLen(s[..CharsWithin(s, n)]) == n
  }

  const Ellipsis: string := "…"

  /** `truncate` as written: `&s[..n]` slices by bytes, and slicing inside a
      multi-byte character panics, which is `None` here. */
  function TruncateAsWritten(s: string, n: nat): (r: Option<string>)
    ensures ByteLen(s) <= n ==> r == Some(s)
    ensures r.None? <==> ByteLen(s) > n && !IsCharBoundary(s, n)
    ensures r.Some? && ByteLen(s) > n ==> r.value == s[..CharsWithin(s, n)] + Ellipsis && ByteLen(r.value) == n + 3
  {
    if ByteLen(s) > n then
      var k := CharsWithin(s, n);
      if ByteLen(s[..k]) == n then
        ByteLenAppend(s[..k], Ellipsis);
        Some(s[..k] + Ellipsis)
      else None
    else Some(s)
  }

  /** A text of one ASCII character followed by eight four-byte glyphs is
      33 bytes long and byte 32 falls inside its last glyph, so the tile's
      truncation to 32 bytes panics on it. */
  lemma TruncatePanicsInsideGlyph(s: string)
    requires |s| == 9 && Utf8Width(s[0]) == 1
    requires forall i :: 1 <= i < 9 ==> Utf8Width(s[i]) == 4
    ensures ByteLen(s) == 33 && TruncateAsWritten(s, 32).None?
  {
    GlyphPrefixLengths(s);
    assert s[..9] == s;
    assert CharsWithin(s, 32) == 8;
  }

  /** The concrete text: "x" and eight copies of U+F0599. */
  lemma GlyphTextPanics()
    ensures var s := "x\U{F0599}\U{F0599}\U{F0599}\U{F0599}\U{F0599}\U{F0599}\U{F0599}\U{F0599}";
      TruncateAsWritten(s, 32).None?
  {
    var s := "x\U{F0599}\U{F0599}\U{F0599}\U{F0599}\U{F0599}\U{F0599}\U{F0599}\U{F0599}";
    assert forall i :: 1 <= i < 9 ==> s[i] == '\U{F0599}';
    TruncatePanicsInsideGlyph(s);
  }

  lemma GlyphPrefixLengths(s: string)
    requires |s| == 9 && Utf8Width(s[0]) == 1
    requires forall i :: 1 <= i < 9 ==> Utf8Width(s[i]) == 4
    ensures forall i :: 1 <= i <= 9 ==> ByteLen(s[..i]) == 4 * i - 3
  {
    var i := 1;
    assert s[..1][1..] == [];
    while i < 9
      invariant 1 <= i <= 9
      invariant forall j :: 1 <= j <= i ==> ByteLen(s[..j]) == 4 * j - 3
    {
      assert s[..i + 1] == s[..i] + [s[i]];
      ByteLenAppend(s[..i], [s[i]]);
      assert [s[i]][1..] == [];
      i := i + 1;
    }
  }

  /** The truncation the tile needs: a text longer than `n` bytes keeps the
      longest run of leading characters that fits in `n` bytes, followed by
      an ellipsis. */
  function Truncate(s: string, n: nat): (r: string)
    ensures ByteLen(s) <= n ==> r == s
    ensures ByteLen(s) > n ==>
      && r == s[..CharsWithin(s, n)] + Ellipsis
      && ByteLen(r) <= n + 3
    ensures r == "" <==> s == ""
  {
    if ByteLen(s) > n then
      ByteLenAppend(s[..CharsWithin(s, n)], Ellipsis);
      s[..CharsWithin(s, n)] + Ellipsis
    else s
  }

  /** Wherever the written truncation does not panic it agrees with the
      corrected one, and the corrected one keeps a prefix that no longer
      prefix could replace. */
  lemma TruncateAgrees(s: string, n: nat)
    ensures TruncateAsWritten(s, n).Some? ==> TruncateAsWritten(s, n).value == Truncate(s, n)
    ensures ByteLen(s) > n ==> (exists k :: 0 <= k < |s| && Truncate(s, n) == s[..k] + Ellipsis && ByteLen(s[..k]) <= n < ByteLen(s[..k + 1]))
  {
    if ByteLen(s) > n {
      var k := CharsWithin(s, n);
      assert s[..|s|] == s;
      assert k < |s|;
      assert Truncate(s, n) == s[..k] + Ellipsis && ByteLen(s[..k]) <= n < ByteLen(s[..k + 1]);
    }
  }

  // ---------------------------------------------------------------------
  // The tile
  // ---------------------------------------------------------------------

  /** One of the tile's three labels. */
  class Label {
    var text: string
    var visible: bool
    var classes: set<string>

    constructor (base: string)
      ensures text == "" && visible && classes == {base}
    {
      text := "";
      visible := true;
      classes := {base};
    }

    /** Shows a text cut to 32 bytes, or hides the label for no text; the
        label is visible exactly when the cut text is not empty. */
    method Show(value: Option<string>)
      modifies this`text, this`visible
      ensures value.Some? ==> text == Truncate(value.value, 32)
      ensures value.None? ==> text == old(text)
      ensures visible <==> value.Some? && value.value != ""
    {
      if value.Some? {
        var truncated := Truncate(value.value, 32);
        text := truncated;
        visible := truncated != "";
      } else {
        visible := false;
      }
    }

    /** Replaces the attention classes: every one is removed, then the
        current one is added unless the attention is `Normal`. */
    method ApplyAttention(attention: Attention)
      modifies this`classes
      ensures classes == (old(classes) - AttentionClasses) + (if attention == Normal then {} else {CssClass(attention)})
    {
      var toRemove := [Alarm, Warning, Dim];
      var i := 0;
      while i < 3
        invariant 0 <= i <= 3
        invariant classes == old(classes) - set j | 0 <= j < i :: CssClass(toRemove[j])
      {
        classes := classes - {CssClass(toRemove[i])};
        i := i + 1;
      }
      assert (set j | 0 <= j < 3 :: CssClass(toRemove[j])) == AttentionClasses by {
        assert CssClass(toRemove[0]) == "alarm" && CssClass(toRemove[1]) == "warning" && CssClass(toRemove[2]) == "dim";
      }
      if attention != Normal {
        classes := classes + {CssClass(attention)};
      }
    }
  }

  /** After the attention classes are applied a label carries exactly one
      of them, the current one, or none for `Normal`. */
  lemma AtMostOneAttentionClass(before: set<string>, attention: Attention)
    ensures var after := (before - AttentionClasses) + (if attention == Normal then {} else {CssClass(attention)});
      && (attention == Normal ==> after * AttentionClasses == {})
      && (attention != Normal ==> after * AttentionClasses == {CssClass(attention)})
  {
  }

  class Tile {
    var icon: Option<string>
    var primary: Option<string>
    var secondary: Option<string>
    /** The attention level as stored: an `i32` in 0 to 3. */
    var attention: int
    var tileVisible: bool
    var widgetVisible: bool
    const iconLabel: Label
    const primaryLabel: Label
    const secondaryLabel: Label

    ghost predicate Valid()
      reads this
    {
      iconLabel != primaryLabel && iconLabel != secondaryLabel && primaryLabel != secondaryLabel
    }

    ghost function Labels(): set<Label>
      reads this
    {
      {iconLabel, primaryLabel, secondaryLabel}
    }

    /** The tile's display after `update_display` for this content. */
    ghost predicate Displayed()
      reads this, Labels()
    {
      && (icon.Some? ==> iconLabel.text == Truncate(icon.value, 32))
      && (iconLabel.visible <==> icon.Some? && icon.value != "")
      && (primary.Some? ==> primaryLabel.text == Truncate(primary.value, 32))
      && (primaryLabel.visible <==> primary.Some? && primary.value != "")
      && (secondary.Some? ==> secondaryLabel.text == Truncate(secondary.value, 32))
      && (secondaryLabel.visible <==> secondary.Some? && secondary.value != "")
      && widgetVisible == tileVisible
      && var a := AttentionFrom(attention);
         forall l :: l in Labels() ==>
           (l.classes * AttentionClasses == if a == Normal then {} else {CssClass(a)})
    }

    /** A new tile: no texts, `Normal` attention, visible, and displayed. */
    constructor ()
      ensures Valid() && fresh(Labels())
      ensures icon.None? && primary.None? && secondary.None?
      ensures AttentionFrom(attention) == Normal && tileVisible
      ensures Displayed()
    {
      icon := None;
      primary := None;
      secondary := None;
      attention := AttentionCode(Normal);
      tileVisible := true;
      widgetVisible := true;
      var il := new Label("icon");
      var pl := new Label("primary");
      var sl := new Label("secondary");
      iconLabel := il;
      primaryLabel := pl;
      secondaryLabel := sl;
      new;
      UpdateDisplay();
    }

    /** `update_display`: the labels show the cut texts, each carries the
        current attention class, and the widget follows `tile_visible`. */
    method UpdateDisplay()
      requires Valid()
      modifies this`widgetVisible, Labels()
      ensures Displayed()
      ensures iconLabel.text == (if icon.Some? then Truncate(icon.value, 32) else old(iconLabel.text))
      ensures primaryLabel.text == (if primary.Some? then Truncate(primary.value, 32) else old(primaryLabel.text))
      ensures secondaryLabel.text == (if secondary.Some? then Truncate(secondary.value, 32) else old(secondaryLabel.text))
      ensures forall l :: l in Labels() ==> l.classes - AttentionClasses == old(l.classes) - AttentionClasses
    {
      var a := AttentionFrom(attention);
      ShowTexts();
      ShowAttention(a);
      widgetVisible := tileVisible;
    }

    /** The text step of `update_display`: each label shows its cut text,
        or keeps its text and hides for none. */
    method ShowTexts()
      requires Valid()
      modifies Labels()
      ensures iconLabel.text == (if icon.Some? then Truncate(icon.value, 32) else old(iconLabel.text))
      ensures primaryLabel.text == (if primary.Some? then Truncate(primary.value, 32) else old(primaryLabel.text))
      ensures secondaryLabel.text == (if secondary.Some? then Truncate(secondary.value, 32) else old(secondaryLabel.text))
      ensures (iconLabel.visible <==> icon.Some? && icon.value != "")
      ensures (primaryLabel.visible <==> primary.Some? && primary.value != "")
      ensures (secondaryLabel.visible <==> secondary.Some? && secondary.value != "")
      ensures forall l :: l in Labels() ==> l.classes == old(l.classes)
    {
      iconLabel.Show(icon);
      primaryLabel.Show(primary);
      secondaryLabel.Show(secondary);
    }

    /** The attention step of `update_display`: each label's attention
        classes are replaced by the one for `a`. */
    method ShowAttention(a: Attention)
      requires Valid()
      modifies Labels()
      ensures forall l :: l in Labels() ==> l.text == old(l.text) && l.visible == old(l.visible)
      ensures forall l :: l in Labels() ==>
        && l.classes - AttentionClasses == old(l.classes) - AttentionClasses
        && l.classes * AttentionClasses == if a == Normal then {} else {CssClass(a)}
    {
      AtMostOneAttentionClass(iconLabel.classes, a);
      AtMostOneAttentionClass(primaryLabel.classes, a);
      AtMostOneAttentionClass(secondaryLabel.classes, a);
      iconLabel.ApplyAttention(a);
      primaryLabel.ApplyAttention(a);
      secondaryLabel.ApplyAttention(a);
    }

    method SetTileIcon(value: Option<string>)
      requires Valid()
      modifies this`icon, this`widgetVisible, Labels()
      ensures icon == value && Displayed()
    {
      icon := value;
      UpdateDisplay();
    }

    method SetTilePrimary(value: Option<string>)
      requires Valid()
      modifies this`primary, this`widgetVisible, Labels()
      ensures primary == value && Displayed()
    {
      primary := value;
      UpdateDisplay();
    }

    method SetTileSecondary(value: Option<string>)
      requires Valid()
      modifies this`secondary, this`widgetVisible, Labels()
      ensures secondary == value && Displayed()
    {
      secondary := value;
      UpdateDisplay();
    }

    method SetTileAttention(value: Attention)
      requires Valid()
      modifies this`attention, this`widgetVisible, Labels()
      ensures AttentionFrom(attention) == value && Displayed()
    {
      attention := AttentionCode(value);
      UpdateDisplay();
    }

    /** The four content setters in a row, as the tiles' update closures
        call them: each redraws, and the last redraw shows all four. */
    method SetTileContent(iconValue: Option<string>, primaryValue: Option<string>,
                          secondaryValue: Option<string>, attentionValue: Attention)
      requires Valid()
      modifies this`icon, this`primary, this`secondary, this`attention, this`widgetVisible, Labels()
      ensures icon == iconValue && primary == primaryValue && secondary == secondaryValue
      ensures AttentionFrom(attention) == attentionValue && Displayed()
    {
      SetTileIcon(iconValue);
      SetTilePrimary(primaryValue);
      assert icon == iconValue;
      SetTileSecondary(secondaryValue);
      assert icon == iconValue && primary == primaryValue;
      SetTileAttention(attentionValue);
    }

    method SetTileVisibility(value: bool)
      requires Valid()
      modifies this`tileVisible, this`widgetVisible, Labels()
      ensures tileVisible == value && widgetVisible == value && Displayed()
    {
      tileVisible := value;
      UpdateDisplay();
    }
  }

  /** `TileBuilder`'s settings. */
  datatype TileSettings = TileSettings(
    icon: Option<string>,
    primary: Option<string>,
    secondary: Option<string>,
    attention: Attention,
    visible: bool)

  /** `TileBuilder::new()`: nothing to show, `Normal`, visible. */
  const DefaultSettings: TileSettings := TileSettings(None, None, None, Normal, true)

  /** `TileBuilder::build`: a new tile with every setting applied. */
  method Build(settings: TileSettings) returns (tile: Tile)
    ensures tile.Valid() && fresh(tile) && fresh(tile.Labels())
    ensures tile.icon == settings.icon && tile.primary == settings.primary && tile.secondary == settings.secondary
    ensures AttentionFrom(tile.attention) == settings.attention && tile.tileVisible == settings.visible
    ensures tile.Displayed()
  {
    tile := new Tile();
    tile.SetTileIcon(settings.icon);
    tile.SetTilePrimary(settings.primary);
    tile.SetTileSecondary(settings.secondary);
    tile.SetTileAttention(settings.attention);
    tile.SetTileVisibility(settings.visible);
  }
}
