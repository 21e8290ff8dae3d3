/** The decision layer of the mobile ColorPalette component: which swatches
    are listed, which one is selected, whether the "custom" entry is selected
    and whether the custom indicator is shown.  Every value here is derived
    afresh from the component's props on each render. */
module ColorPalette {
  import opened Collections

  datatype Option<T> = None | Some(value: T)

  /** The picker's two segments.  The gradient segment is the second entry of
      the color settings' list of segment names; any other segment is treated
      as the color segment. */
  datatype Segment = ColorSegment | GradientSegment

  /** An entry of `defaultSettings.colors`; only its `color` token is read. */
  datatype ColorSetting = ColorSetting(color: string)

  /** An entry of `defaultSettings.gradients`; only its `gradient` token is read. */
  datatype GradientSetting = GradientSetting(gradient: string)

  datatype Settings = Settings(colors: seq<ColorSetting>, gradients: seq<GradientSetting>)

  /** The props one render of the component sees.  `activeColor` is None when
      the host passes null or undefined. */
  datatype Props = Props(
    activeColor: Option<string>,
    isGradientColor: bool,
    defaultSettings: Settings,
    currentSegment: Segment)

  predicate IsGradientSegment(p: Props) {
    p.currentSegment == GradientSegment
  }

  /** JavaScript truthiness of the active value: null, undefined and the empty
      string are all falsy. */
  predicate IsActiveSet(a: Option<string>) {
    a.Some? && a.value != ""
  }

  /** The `color` token of every color setting, in order. */
  function ColorTokens(entries: seq<ColorSetting>): seq<string> {
    seq(|entries|, i requires 0 <= i < |entries| => entries[i].color)
  }

  /** The `gradient` token of every gradient setting, in order. */
  function GradientTokens(entries: seq<GradientSetting>): seq<string> {
    seq(|entries|, i requires 0 <= i < |entries| => entries[i].gradient)
  }

  function DefaultColors(s: Settings): seq<string> {
    Uniq(ColorTokens(s.colors))
  }

  function DefaultGradientColors(s: Settings): seq<string> {
    Uniq(GradientTokens(s.gradients))
  }

  /** The swatches listed, in the order they are rendered. */
  function Colors(p: Props): seq<string> {
    if IsGradientSegment(p) then DefaultGradientColors(p.defaultSettings)
    else DefaultColors(p.defaultSettings)
  }

  /** The token list of the current segment before deduplication. */
  function SegmentTokens(p: Props): seq<string> {
    if IsGradientSegment(p) then GradientTokens(p.defaultSettings.gradients)
    else ColorTokens(p.defaultSettings.colors)
  }

  /** Some setting of the current segment's kind carries token `x`. */
  ghost predicate SegmentOffers(p: Props, x: string) {
    if IsGradientSegment(p) then
      exists i :: 0 <= i < |p.defaultSettings.gradients| && p.defaultSettings.gradients[i].gradient == x
    else
      exists i :: 0 <= i < |p.defaultSettings.colors| && p.defaultSettings.colors[i].color == x
  }

  predicate IsWithinColors(p: Props) {
    IsActiveSet(p.activeColor) && p.activeColor.value in Colors(p)
  }

  /** The "custom" entry is selected: the active value is set, is not one of
      the listed swatches, and its kind (gradient or not) is that of the
      current segment. */
  predicate IsSelectedCustom(p: Props) {
    if IsActiveSet(p.activeColor) then
      if IsGradientSegment(p) then p.isGradientColor && !IsWithinColors(p)
      else !p.isGradientColor && !IsWithinColors(p)
    else false
  }

  /** The swatch with token `color` is selected. */
  predicate IsSelected(p: Props, color: string) {
    !IsSelectedCustom(p) && p.activeColor == Some(color)
  }

  predicate IsCustomGradientColor(p: Props) {
    p.isGradientColor && IsSelectedCustom(p)
  }

  predicate ShouldShowCustomIndicator(p: Props) {
    !IsGradientSegment(p) || IsCustomGradientColor(p)
  }

  // ---------------------------------------------------------------------
  // Palette derivation

  /** The swatch list is the current segment's token list with duplicates
      removed: no token twice, exactly the tokens some setting of that kind
      carries, listed in the order of their first occurrence. */
  lemma PaletteIsDeduplicatedSegmentTokens(p: Props)
    ensures Colors(p) == Uniq(SegmentTokens(p))
    ensures NoDuplicates(Colors(p))
    ensures forall x :: x in Colors(p) <==> SegmentOffers(p, x)
    ensures forall i, j :: 0 <= i < j < |Colors(p)| ==>
      FirstIndex(SegmentTokens(p), Colors(p)[i]) < FirstIndex(SegmentTokens(p), Colors(p)[j])
  {
    var t := SegmentTokens(p);
    UniqKeepsFirstOccurrenceOrder(t);
    forall x ensures x in Colors(p) <==> SegmentOffers(p, x) {
      if IsGradientSegment(p) {
        var g := p.defaultSettings.gradients;
        if x in t {
          var k :| 0 <= k < |t| && t[k] == x;
          assert g[k].gradient == x;
        }
        if SegmentOffers(p, x) {
          var k :| 0 <= k < |g| && g[k].gradient == x;
          assert t[k] == x;
        }
      } else {
        var c := p.defaultSettings.colors;
        if x in t {
          var k :| 0 <= k < |t| && t[k] == x;
          assert c[k].color == x;
        }
        if SegmentOffers(p, x) {
          var k :| 0 <= k < |c| && c[k].color == x;
          assert t[k] == x;
        }
      }
    }
  }

  /** The example of deduplication: ["red", "red", "blue"] lists two swatches. */
  lemma DeduplicationExample()
    ensures Uniq(["red", "red", "blue"]) == ["red", "blue"]
  {
    assert ["red", "red", "blue"][..2] == ["red", "red"];
    assert ["red", "red"][..1] == ["red"];
    assert ["red"][..0] == [];
  }

  // ---------------------------------------------------------------------
  // Selection

  /** A falsy active value never selects the custom entry; a swatch is then
      selected only when the active value is literally its token (possible
      only for the empty token), and with no active value at all nothing is
      selected. */
  lemma UnsetActiveValueSelectsNothing(p: Props)
    requires !IsActiveSet(p.activeColor)
    ensures !IsSelectedCustom(p)
    ensures forall c :: IsSelected(p, c) <==> p.activeColor == Some(c)
    ensures p.activeColor.None? ==> forall c :: !IsSelected(p, c)
    ensures forall c :: IsSelected(p, c) ==> c == ""
  {
  }

  /** A selected custom entry and a selected swatch exclude each other. */
  lemma CustomAndSwatchSelectionExclusive(p: Props)
    ensures IsSelectedCustom(p) ==> forall c :: !IsSelected(p, c)
    ensures (exists c :: IsSelected(p, c)) ==> !IsSelectedCustom(p)
  {
  }

  /** At most one listed swatch is selected. */
  lemma AtMostOneSwatchSelected(p: Props)
    ensures forall i, j ::
      (0 <= i < |Colors(p)| && 0 <= j < |Colors(p)| &&
       IsSelected(p, Colors(p)[i]) && IsSelected(p, Colors(p)[j])) ==> i == j
  {
  }

  /** An active value that is one of the listed swatches selects that swatch
      and nothing else: the custom entry is not selected and, the list being
      free of duplicates, exactly one position reports selected. */
  lemma ActiveValueInPaletteSelectsExactlyThatSwatch(p: Props)
    requires p.activeColor.Some? && p.activeColor.value in Colors(p)
    ensures !IsSelectedCustom(p)
    ensures exists k ::
      && 0 <= k < |Colors(p)|
      && Colors(p)[k] == p.activeColor.value
      && forall i :: 0 <= i < |Colors(p)| ==> (IsSelected(p, Colors(p)[i]) <==> i == k)
  {
    var cs := Colors(p);
    var k := FirstIndex(cs, p.activeColor.value);
    assert forall i :: 0 <= i < |cs| ==> (IsSelected(p, cs[i]) <==> i == k);
  }

  /** An active value that is not listed selects no swatch; it selects the
      custom entry exactly when its kind matches the segment (a gradient in the
      gradient segment, a plain color in the color segment). */
  lemma ActiveValueOutsidePalette(p: Props)
    requires IsActiveSet(p.activeColor) && p.activeColor.value !in Colors(p)
    ensures IsSelectedCustom(p) <==> (p.isGradientColor <==> IsGradientSegment(p))
    ensures forall c :: c in Colors(p) ==> !IsSelected(p, c)
  {
  }

  /** A selected custom gradient only exists in the gradient segment, and there
      it means: the active value is set, is a gradient and is not listed. */
  lemma CustomGradientOnlyInGradientSegment(p: Props)
    ensures IsCustomGradientColor(p) ==> IsGradientSegment(p)
    ensures IsCustomGradientColor(p) <==>
      IsGradientSegment(p) && p.isGradientColor && IsActiveSet(p.activeColor) &&
      p.activeColor.value !in DefaultGradientColors(p.defaultSettings)
  {
  }

  /** The custom indicator is always shown in the color segment; in the
      gradient segment it is shown exactly when an unlisted gradient is active. */
  lemma CustomIndicatorVisibility(p: Props)
    ensures !IsGradientSegment(p) ==> ShouldShowCustomIndicator(p)
    ensures IsGradientSegment(p) ==>
      (ShouldShowCustomIndicator(p) <==>
        p.isGradientColor && IsActiveSet(p.activeColor) && p.activeColor.value !in Colors(p))
  {
  }

  /** After the host applies a pressed swatch's token as the new active value,
      that swatch is the only one selected and the custom entry is not. */
  lemma PressedSwatchBecomesTheSelection(p: Props, color: string)
    requires color in Colors(p)
    ensures Colors(p.(activeColor := Some(color))) == Colors(p)
    ensures !IsSelectedCustom(p.(activeColor := Some(color)))
    ensures IsSelected(p.(activeColor := Some(color)), color)
    ensures forall c :: c != color ==> !IsSelected(p.(activeColor := Some(color)), c)
  {
  }
}
