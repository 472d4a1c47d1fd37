/** The count label shared by the tray and notification tiles: the number in
    decimal, shown only while it is positive. */
module CountLabel {
  import opened Wrappers
  import opened RustText

  /** The label's text and whether it is visible. */
  datatype Label = Label(text: string, visible: bool)

  function LabelFor(count: nat): (shown: Label)
    ensures shown.visible <==> count > 0
    ensures shown.text == "" <==> count == 0
    ensures shown.visible ==> AllDigits(shown.text) && DigitsValue(shown.text) == count
  {
    if count > 0 then Label(NatToString(count), true) else Label("", false)
  }

  /** The label reads back as the count it shows, for every `u32`. */
  lemma CountLabelReadsBack(count: nat)
    requires count <= U32_MAX
    ensures ParseU32(LabelFor(count).text) == if count > 0 then Some(count) else None
  {
    if count > 0 {
      ParseU32RoundTrip(count);
    }
  }

  /** Different counts get different labels. */
  lemma CountLabelInjective(a: nat, b: nat)
    requires a <= U32_MAX && b <= U32_MAX && a != b
    ensures LabelFor(a) != LabelFor(b)
  {
    CountLabelReadsBack(a);
    CountLabelReadsBack(b);
  }
}
