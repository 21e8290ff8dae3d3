/** The event handlers of the mobile ColorPalette component and the state they
    update: the three layout measurements kept at module level (and so shared
    by every mounted palette) and, per mounted palette, the two animated values
    of the selection pulse.  Scrolling the list is returned as a command
    instead of being performed; the platform (`isIOS`), the window width and
    whether the scroll view is mounted are passed in. */
module ColorPaletteHandlers {
  import opened ColorPalette

  /** A request to the horizontal scroll view. */
  datatype ScrollCommand = NoScroll | ScrollTo(x: real) | ScrollToEnd(animated: bool)

  /** The module-level measurements, each reflecting the latest event that
      reported it; all start at 0. */
  class LayoutMeasurements {
    var contentWidth: real
    var scrollPosition: real
    var customIndicatorWidth: real

    constructor ()
      ensures contentWidth == 0.0 && scrollPosition == 0.0 && customIndicatorWidth == 0.0
    {
      contentWidth, scrollPosition, customIndicatorWidth := 0.0, 0.0, 0.0;
    }

    /** The custom indicator, the last item of the content, starts inside a
        window of width `windowWidth` at the current scroll position. */
    predicate IsCustomIndicatorVisible(windowWidth: real)
      reads this
    {
      contentWidth - scrollPosition - customIndicatorWidth < windowWidth
    }

    /** The list was scrolled to horizontal offset `contentOffsetX`. */
    method OnScroll(contentOffsetX: real)
      modifies this`scrollPosition
      ensures scrollPosition == contentOffsetX
      ensures contentWidth == old(contentWidth) && customIndicatorWidth == old(customIndicatorWidth)
    {
      scrollPosition := contentOffsetX;
    }

    /** The custom indicator was laid out with width `width`. */
    method OnCustomIndicatorLayout(width: real)
      modifies this`customIndicatorWidth
      ensures customIndicatorWidth == width
      ensures contentWidth == old(contentWidth) && scrollPosition == old(scrollPosition)
    {
      if width != customIndicatorWidth {
        customIndicatorWidth := width;
      }
    }

    /** The scrollable content changed to width `width`.  While the custom
        entry is selected the list is kept scrolled to its end, animated
        except on iOS. */
    method OnContentSizeChange(width: real, p: Props, isIOS: bool, mounted: bool)
      returns (cmd: ScrollCommand)
      modifies this`contentWidth
      ensures contentWidth == width
      ensures scrollPosition == old(scrollPosition) && customIndicatorWidth == old(customIndicatorWidth)
      ensures cmd != NoScroll <==> IsSelectedCustom(p) && mounted
      ensures cmd != NoScroll ==> cmd == ScrollToEnd(!isIOS)
    {
      contentWidth := width;
      if IsSelectedCustom(p) && mounted {
        cmd := ScrollToEnd(!isIOS);
      } else {
        cmd := NoScroll;
      }
    }

    /** Run before a swatch press takes effect.  When a custom gradient is
        selected it asks for a layout transition; off iOS it also scrolls left
        by the indicator's width when the indicator is in view, because that
        platform does not adjust the offset when the last item disappears.
        The measurements are only read. */
    method DeselectCustomGradient(p: Props, isIOS: bool, windowWidth: real, mounted: bool)
      returns (layoutAnimation: bool, cmd: ScrollCommand)
      ensures layoutAnimation <==> IsCustomGradientColor(p)
      ensures cmd != NoScroll <==>
        IsCustomGradientColor(p) && !isIOS && IsCustomIndicatorVisible(windowWidth) && mounted
      ensures cmd != NoScroll ==> cmd == ScrollTo(scrollPosition - customIndicatorWidth)
      ensures cmd != NoScroll ==> IsGradientSegment(p) && ShouldShowCustomIndicator(p)
    {
      var isVisible := IsCustomIndicatorVisible(windowWidth);
      layoutAnimation, cmd := false, NoScroll;
      if IsCustomGradientColor(p) {
        layoutAnimation := true;
        if !isIOS {
          if IsCustomGradientColor(p) && isVisible && mounted {
            cmd := ScrollTo(scrollPosition - customIndicatorWidth);
          }
        }
      }
      CustomGradientOnlyInGradientSegment(p);
    }
  }

  /** One mounted palette: the shared measurements and its own pulse values,
      both created at 1. */
  class PaletteInstance {
    const layout: LayoutMeasurements
    var scale: real
    var opacity: real

    constructor (layout: LayoutMeasurements)
      ensures this.layout == layout && scale == 1.0 && opacity == 1.0
    {
      this.layout := layout;
      scale, opacity := 1.0, 1.0;
    }

    /** Resets the pulse before it is played: fully opaque when the pressed
        swatch is already the selected one, transparent otherwise, at its
        natural size. */
    method PerformAnimation(p: Props, color: string)
      modifies this`scale, this`opacity
      ensures opacity == 1.0 <==> IsSelected(p, color)
      ensures opacity == 0.0 <==> !IsSelected(p, color)
      ensures scale == 1.0
    {
      opacity := if IsSelected(p, color) then 1.0 else 0.0;
      scale := 1.0;
    }

    /** A press on the swatch `color`: the custom-gradient deselection, the
        pulse reset, then the token is handed to the host's `setColor`
        (returned as `setColorArg`).  The shared measurements are left as they
        were. */
    method OnColorPress(p: Props, color: string, isIOS: bool, windowWidth: real, mounted: bool)
      returns (layoutAnimation: bool, cmd: ScrollCommand, setColorArg: string)
      modifies this`scale, this`opacity
      ensures layout.contentWidth == old(layout.contentWidth)
      ensures layout.scrollPosition == old(layout.scrollPosition)
      ensures layout.customIndicatorWidth == old(layout.customIndicatorWidth)
      ensures layoutAnimation <==> IsCustomGradientColor(p)
      ensures cmd != NoScroll <==>
        IsCustomGradientColor(p) && !isIOS && layout.IsCustomIndicatorVisible(windowWidth) && mounted
      ensures cmd != NoScroll ==> cmd == ScrollTo(layout.scrollPosition - layout.customIndicatorWidth)
      ensures opacity == (if IsSelected(p, color) then 1.0 else 0.0) && scale == 1.0
      ensures setColorArg == color
    {
      layoutAnimation, cmd := layout.DeselectCustomGradient(p, isIOS, windowWidth, mounted);
      PerformAnimation(p, color);
      setColorArg := color;
    }
  }

  /** A run of events on Android: the content is 500 wide, the custom
      indicator 60, the list is scrolled to 200 in a 400-wide window while an
      unlisted gradient is active; pressing the listed gradient then scrolls back to 140
      and hands the swatch's token to the host. */
  method CustomGradientDeselectionScenario() returns (cmd: ScrollCommand, setColorArg: string)
    ensures cmd == ScrollTo(140.0)
    ensures setColorArg == "linear-gradient(135deg, cyan, purple)"
  {
    var listed := "linear-gradient(135deg, cyan, purple)";
    var p := Props(Some("linear-gradient(90deg, red, blue)"), true,
                   Settings([ColorSetting("red")], [GradientSetting(listed)]), GradientSegment);
    var layout := new LayoutMeasurements();
    var palette := new PaletteInstance(layout);
    var sizeCmd := layout.OnContentSizeChange(500.0, p, false, true);
    assert sizeCmd == ScrollToEnd(true);
    layout.OnCustomIndicatorLayout(60.0);
    layout.OnScroll(200.0);
    var layoutAnimation;
    layoutAnimation, cmd, setColorArg := palette.OnColorPress(p, listed, false, 400.0, true);
  }
}
