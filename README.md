# ColorPalette (mobile) — decision layer

This project models the logic inside the mobile `ColorPalette` component of the
block editor's component library: the horizontally scrolling picker of color
or gradient swatches with a trailing "custom" entry.

- **Palette derivation** (`ColorPalette.Colors`). The listed swatches are the
  `color` tokens of `defaultSettings.colors`, or the `gradient` tokens of
  `defaultSettings.gradients` in the gradient segment. Duplicates are removed the
  way lodash's `uniq` removes them (`Collections.Uniq`).
- **Selection** (`IsSelectedCustom`, `IsSelected`, `IsCustomGradientColor`,
  `ShouldShowCustomIndicator`). These are pure predicates over one render's
  props (`ColorPalette.Props`).
- **Measurement state** (`ColorPaletteHandlers.LayoutMeasurements`). This class
  holds the three module-level numbers `contentWidth`, `scrollPosition` and
  `customIndicatorWidth`. Its handler methods overwrite one field each.
  `DeselectCustomGradient` only reads them to decide on the corrective scroll.
- **Per-palette state** (`ColorPaletteHandlers.PaletteInstance`). This class
  holds the `scale` and `opacity` animated values. It also links to the shared
  measurements, which every mounted palette shares.
- **Results of the handlers.** A scroll is returned as a `ScrollCommand`
  (`NoScroll`, `ScrollTo(x)`, `ScrollToEnd(animated)`). The call to
  `performLayoutAnimation` is returned as a flag. The argument handed to
  `setColor` is returned as a value.

Platform reads become parameters:
- `isIOS` stands for `Platform.OS === 'ios'`;
- `windowWidth` stands for `Dimensions.get('window').width`;
- `mounted` stands for `scrollViewRef.current` being non-null.

Widths are exact `real` numbers; the rounding of JavaScript's double-precision
arithmetic is not modelled (see "## Left out").

JavaScript truthiness is spelled out. `activeColor` is `None` for null or
undefined. The active value counts as set (`IsActiveSet`) only when it is a
non-empty string. One consequence follows the code and is stated in
`UnsetActiveValueSelectsNothing`: an active value of `""` selects a swatch
whose token is `""`. This is because `isSelected` compares with `===` and
does not test truthiness.

Two details of the code are part of the model:
- `isSelectedCustom` requires the active value's kind to match the segment:
  `isGradientColor` in the gradient segment, `!isGradientColor` in the color
  segment (packages/components/src/color-palette/index.native.js:84-88). A set
  value that is not listed but has the other kind selects neither the custom
  entry nor any swatch. `ActiveValueOutsidePalette` states this.
- Both scroll commands require the scroll view to be mounted
  (`scrollViewRef.current`, lines 135 and 153). The model has this as the
  `mounted` condition.

The segment identifiers come from `colorsUtils`, which is not part of this
model. `Segment` therefore has just the two values the code distinguishes.

## Model

| member | source | states |
|---|---|---|
| ColorPalette.IsGradientSegment | packages/components/src/color-palette/index.native.js:53 | the segment test `isGradientSegment`; it picks the token list in PaletteIsDeduplicatedSegmentTokens and the branch of ActiveValueOutsidePalette and CustomIndicatorVisibility |
| ColorPalette.IsActiveSet | packages/components/src/color-palette/index.native.js:83-84 | JavaScript truthiness of `activeColor` (null, undefined and "" are falsy); its consequences are stated by UnsetActiveValueSelectsNothing and ActiveValueOutsidePalette |
| ColorPalette.ColorTokens | packages/components/src/color-palette/index.native.js:58 | lodash `map(defaultSettings.colors, 'color')`; PaletteIsDeduplicatedSegmentTokens ties its members to the color settings that carry them |
| ColorPalette.GradientTokens | packages/components/src/color-palette/index.native.js:60 | lodash `map(defaultSettings.gradients, 'gradient')`; PaletteIsDeduplicatedSegmentTokens ties its members to the gradient settings that carry them |
| ColorPalette.DefaultColors | packages/components/src/color-palette/index.native.js:58 | `defaultColors`, the deduplicated color tokens; PaletteIsDeduplicatedSegmentTokens states its contents and order in the color segment |
| ColorPalette.DefaultGradientColors | packages/components/src/color-palette/index.native.js:59-61 | `defaultGradientColors`, the deduplicated gradient tokens; PaletteIsDeduplicatedSegmentTokens states its contents and order in the gradient segment, CustomGradientOnlyInGradientSegment uses it |
| ColorPalette.IsWithinColors | packages/components/src/color-palette/index.native.js:83 | `isWithinColors`, a set active value that is listed; ActiveValueOutsidePalette and ActiveValueInPaletteSelectsExactlyThatSwatch state both of its cases |
| ColorPalette.Colors | packages/components/src/color-palette/index.native.js:58-62 | the swatch list; its contract is carried by PaletteIsDeduplicatedSegmentTokens (deduplicated tokens of the segment's kind, first-occurrence order) |
| ColorPalette.IsSelectedCustom | packages/components/src/color-palette/index.native.js:82-91 | the custom-selection predicate; its contract is carried by ActiveValueOutsidePalette, ActiveValueInPaletteSelectsExactlyThatSwatch and UnsetActiveValueSelectsNothing |
| ColorPalette.IsSelected | packages/components/src/color-palette/index.native.js:93-95 | the swatch-selection predicate; its contract is carried by AtMostOneSwatchSelected, ActiveValueInPaletteSelectsExactlyThatSwatch and CustomAndSwatchSelectionExclusive |
| ColorPalette.IsCustomGradientColor | packages/components/src/color-palette/index.native.js:67 | the custom-gradient flag; its contract is carried by CustomGradientOnlyInGradientSegment |
| ColorPalette.ShouldShowCustomIndicator | packages/components/src/color-palette/index.native.js:68-69 | the indicator-visibility flag; its contract is carried by CustomIndicatorVisibility |
| ColorPaletteHandlers.LayoutMeasurements.IsCustomIndicatorVisible | packages/components/src/color-palette/index.native.js:122-124 | the "indicator in view" test content - scroll - indicator < window width; used as the scroll condition in the contracts of DeselectCustomGradient and OnColorPress |
| Collections.Uniq | packages/components/src/color-palette/index.native.js:58-61 | the deduplicated token list has no duplicates, holds exactly the tokens of its input, and is never longer |
| Collections.UniqKeepsFirstOccurrenceOrder | packages/components/src/color-palette/index.native.js:58-61 | deduplicated tokens appear in the order of their first occurrence in the input |
| Collections.UniqIsDeterminedByItsProperties | packages/components/src/color-palette/index.native.js:58-61 | any duplicate-free list with the input's elements, in first-occurrence order, equals the deduplicated list (so the three properties define it) |
| Collections.UniqOfDistinct | packages/components/src/color-palette/index.native.js:58-61 | a token list that is already duplicate-free is listed unchanged |
| Collections.UniqIsIdempotent | packages/components/src/color-palette/index.native.js:58-61 | deduplicating twice gives the same list as once |
| ColorPalette.PaletteIsDeduplicatedSegmentTokens | packages/components/src/color-palette/index.native.js:53-62 | the swatch list is the gradient tokens in the gradient segment and the color tokens otherwise, deduplicated; a token is listed iff some setting of that kind carries it; first occurrences keep their order |
| ColorPalette.DeduplicationExample | packages/components/src/color-palette/index.native.js:58 | colors red, red, blue give the two swatches red, blue |
| ColorPalette.UnsetActiveValueSelectsNothing | packages/components/src/color-palette/index.native.js:82-95 | with a falsy active value the custom entry is not selected; with none at all no swatch is selected; only the empty token can match an empty active value |
| ColorPalette.CustomAndSwatchSelectionExclusive | packages/components/src/color-palette/index.native.js:93-95 | when the custom entry is selected no swatch is, and conversely |
| ColorPalette.AtMostOneSwatchSelected | packages/components/src/color-palette/index.native.js:58-95 | no two different positions of the swatch list report selected |
| ColorPalette.ActiveValueInPaletteSelectsExactlyThatSwatch | packages/components/src/color-palette/index.native.js:82-95 | a listed active value leaves the custom entry unselected, and exactly one position is selected: the one holding that value |
| ColorPalette.ActiveValueOutsidePalette | packages/components/src/color-palette/index.native.js:82-91 | a set active value that is not listed selects no swatch; it selects the custom entry iff its kind (gradient or not) matches the segment |
| ColorPalette.CustomGradientOnlyInGradientSegment | packages/components/src/color-palette/index.native.js:67-91 | a selected custom gradient implies the gradient segment; it holds iff the active value is a set, unlisted gradient there |
| ColorPalette.CustomIndicatorVisibility | packages/components/src/color-palette/index.native.js:67-69 | the custom indicator is always shown in the color segment; in the gradient segment it is shown iff an unlisted gradient is active |
| ColorPalette.PressedSwatchBecomesTheSelection | packages/components/src/color-palette/index.native.js:145-149 | once the host applies a pressed listed token, that swatch alone is selected and the custom entry is not; the list does not change |
| ColorPaletteHandlers.LayoutMeasurements.constructor | packages/components/src/color-palette/index.native.js:31-33 | all three measurements start at 0 |
| ColorPaletteHandlers.LayoutMeasurements.OnScroll | packages/components/src/color-palette/index.native.js:183-185 | records the reported offset as the scroll position; the other two measurements are unchanged |
| ColorPaletteHandlers.LayoutMeasurements.OnCustomIndicatorLayout | packages/components/src/color-palette/index.native.js:158-163 | the indicator width becomes the reported width; the other two measurements are unchanged |
| ColorPaletteHandlers.LayoutMeasurements.OnContentSizeChange | packages/components/src/color-palette/index.native.js:151-156 | records the content width only; requests scroll-to-end exactly when the custom entry is selected and the view is mounted, animated iff not iOS |
| ColorPaletteHandlers.LayoutMeasurements.DeselectCustomGradient | packages/components/src/color-palette/index.native.js:121-143 | requests a layout transition iff a custom gradient is selected; scrolls iff custom gradient, not iOS, content - scroll - indicator < window width, and mounted; the target is scroll position minus indicator width; a scroll only happens in the gradient segment |
| ColorPaletteHandlers.PaletteInstance.constructor | packages/components/src/color-palette/index.native.js:55-56 | scale and opacity start at 1 |
| ColorPaletteHandlers.PaletteInstance.PerformAnimation | packages/components/src/color-palette/index.native.js:106-108 | opacity is reset to 1 iff the pressed swatch is selected and to 0 otherwise; scale is reset to 1 |
| ColorPaletteHandlers.PaletteInstance.OnColorPress | packages/components/src/color-palette/index.native.js:145-149 | runs the deselection (same scroll condition and target), then the pulse reset, then hands the pressed token to setColor; the shared measurements are unchanged |
| ColorPaletteHandlers.CustomGradientDeselectionScenario | packages/components/src/color-palette/index.native.js:121-163 | on Android, content 500, indicator 60, window 400, scrolled to 200, with an unlisted gradient active: pressing a listed gradient scrolls to 140 and passes that gradient to setColor |

## Left out

- ColorPaletteHandlers.LayoutMeasurements.IsCustomIndicatorVisible, ColorPaletteHandlers.LayoutMeasurements.DeselectCustomGradient and ColorPaletteHandlers.PaletteInstance.OnColorPress: the widths are exact reals here, but in the code they are IEEE doubles and the subtractions at lines 124 and 138 round. So the visibility test can differ from the code's only when `contentWidth - scrollPosition - customIndicatorWidth` lies within a few ulps (units in the last place of a double) of the window width. For example, with 449, 0.9, 48.1 and window 400, JavaScript computes exactly 400, while the exact difference is below 400. The `ScrollTo` target can likewise differ from the code's in its last bits.
- JSX rendering, styles, the dark-mode style choice and each swatch's React `key`: these are presentation only.
- The custom indicator's color choice (lines 64-66) and the custom swatch gradients (lines 44-48): these are only passed to rendering.
- Accessibility hints and labels, and the translated "Custom"/"CUSTOM" text (lines 71-74, 197-199, 229-230): presentation, and `__` is a translation call.
- The animation timeline: `Animated.timing`, `Animated.parallel`, `Easing.ease`, the 200 ms duration and the `scale.interpolate` pulse (lines 97-119). The native driver interpolates in floating point; only the reset values before the animation starts are modelled.
- The `useEffect` that scrolls to 0 whenever the segment changes (lines 76-80), and the rest of the React lifecycle (`useState`, `useRef`). These are framework effects.
- `onScrollBeginDrag`/`onScrollEndDrag` (lines 187-188) and `onCustomPress`: they only forward to host callbacks, with no decision of their own.
- `performLayoutAnimation` and the scroll view calls themselves: they are platform effects. The model returns them as a flag and a `ScrollCommand`.
- Settings entries without a `color` or `gradient` field, and a missing `colors` or `gradients` collection: every entry is taken to carry its token, and each collection is a (possibly empty) sequence.
- packages/components/src/mobile/readable-content-view/index.native.js: a layout wrapper of two views. Its `isContentMaxWidth` compares the live window width with a stylesheet constant that is not part of this model.
