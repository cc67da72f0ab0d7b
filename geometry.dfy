/** Integer geometry of the main panel: the first-run default rectangle and the
    rectangle of the window-chrome toolbar. */
module Geometry {

  import opened Types

  datatype Rect = Rect(x: int, y: int, width: int, height: int)

  /** Contents margins of a layout (QMargins). */
  datatype Margins = Margins(left: int, top: int, right: int, bottom: int)

  /** Distance kept from the screen edges by the first-run geometry. */
  const PanelMargin: int := 20

  /** `int(v * 1.2)`: C++ converts the product to int by truncating toward
      zero. The factor is read as the exact rational 6/5. */
  function ScaleZoomIn(v: int): (r: int)
    ensures 0 <= v ==> 5 * r <= 6 * v < 5 * r + 5
    ensures v < 0 ==> 5 * r - 5 < 6 * v <= 5 * r
  {
    if v >= 0 then (6 * v) / 5 else -((-6 * v) / 5)
  }

  /** `int(v * 0.75)`, truncated toward zero; 0.75 is exact in binary. */
  function ScaleZoomOut(v: int): (r: int)
    ensures 0 <= v ==> 4 * r <= 3 * v < 4 * r + 4
    ensures v < 0 ==> 4 * r - 4 < 3 * v <= 4 * r
  {
    if v >= 0 then (3 * v) / 4 else -((-3 * v) / 4)
  }

  /** The geometry written on first launch: 1.2 times the minimum width, three
      quarters of the screen height, flush against the top-right corner of the
      screen with `PanelMargin` to spare on both sides. */
  function DefaultGeometry(screenWidth: int, screenHeight: int, minWidth: int): (g: Rect)
    ensures g.y == PanelMargin
    ensures g.x + g.width + PanelMargin == screenWidth
    ensures 0 <= minWidth ==> 5 * g.width <= 6 * minWidth < 5 * g.width + 5
    ensures 0 <= screenHeight ==> 4 * g.height <= 3 * screenHeight < 4 * g.height + 4
  {
    var w := ScaleZoomIn(minWidth);
    var h := ScaleZoomOut(screenHeight);
    Rect(screenWidth - w - PanelMargin, PanelMargin, w, h)
  }

  /** Where the toolbar goes in a window of the given width. With no layout the
      margins count as zero. */
  function ToolBarGeometry(windowWidth: int, layout: Option<Margins>, toolHeight: int): (r: Rect)
    ensures r.y == 0 && r.height == toolHeight
    ensures layout.None? ==> r.x == 0 && r.width == windowWidth
    ensures layout.Some? ==> r.x == layout.value.left && r.width + 3 * layout.value.right == windowWidth
  {
    var right := if layout.Some? then layout.value.right else 0;
    var left := if layout.Some? then layout.value.left else 0;
    Rect(left, 0, windowWidth - right * 3, toolHeight)
  }

  /** The toolbar never overhangs the window on the right as long as the left
      margin is at most three right margins, and it spans the whole width when
      the layout has no horizontal margins. */
  lemma ToolBarInsideWindow(windowWidth: int, layout: Option<Margins>, toolHeight: int)
    requires layout.Some? ==> 0 <= layout.value.left <= 3 * layout.value.right
    ensures var r := ToolBarGeometry(windowWidth, layout, toolHeight);
      0 <= r.x && r.x + r.width <= windowWidth
    ensures layout.None? || (layout.value.left == 0 && layout.value.right == 0) ==>
      ToolBarGeometry(windowWidth, layout, toolHeight) == Rect(0, 0, windowWidth, toolHeight)
  {
  }
}
