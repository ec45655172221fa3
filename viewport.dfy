/** Classification of the browser viewport into the desktop and the small (mobile) layout. */
module Viewport {
  /** The narrowest width, in CSS pixels, that gets the desktop layout. */
  const DesktopMinWidth := 768

  /** `ViewportSize`, as reported by the browser. */
  datatype ViewportSize = ViewportSize(width: int, height: int)

  /** `ViewportInformation`. */
  datatype ViewportInformation = ViewportInformation(isDesktop: bool, height: int, width: int)

  /** `GetViewportInformation`: small below 768 pixels of width, desktop otherwise; the
      dimensions are passed through. */
  function GetViewportInformation(viewportSize: ViewportSize): (r: ViewportInformation)
    ensures r.isDesktop <==> viewportSize.width >= DesktopMinWidth
    ensures r.height == viewportSize.height && r.width == viewportSize.width
  {
    var isSmall := viewportSize.width < DesktopMinWidth;
    ViewportInformation(!isSmall, viewportSize.height, viewportSize.width)
  }

  /** Widening a desktop viewport never makes it small. */
  lemma DesktopMonotoneInWidth(narrow: ViewportSize, wide: ViewportSize)
    requires narrow.width <= wide.width
    ensures GetViewportInformation(narrow).isDesktop ==> GetViewportInformation(wide).isDesktop
  {
  }
}
