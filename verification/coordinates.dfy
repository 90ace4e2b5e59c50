/** Screen-pixel and WebGL clip-space coordinates (src/coordinates.ts).

    The source distinguishes the two spaces only by phantom type tags; here
    they are separate datatypes, so a conversion is always explicit.
 */
module Coordinates {

  /** A mouse position in canvas pixels, origin at the top left, y down. */
  datatype ScreenCoords = ScreenCoords(x: real, y: real)

  /** A position in WebGL clip space, [-1, 1] on both axes, y up. */
  datatype GlCoords = GlCoords(x: real, y: real)

  /** The fields of a canvas mouse event that are read. */
  datatype CanvasEvent = CanvasEvent(offsetX: real, offsetY: real)

  datatype ScreenDimensions = ScreenDimensions(width: real, height: real)

  /** `ScreenCoords.fromCanvasEvent`: the event offset, unchanged. */
  function FromCanvasEvent(e: CanvasEvent): (r: ScreenCoords)
    ensures r.x == e.offsetX && r.y == e.offsetY
  {
    ScreenCoords(e.offsetX, e.offsetY)
  }

  /** The map from clip space back to pixels, the inverse used to state
      what `fromScreenCoords` computes. */
  function ToScreenCoords(g: GlCoords, d: ScreenDimensions): ScreenCoords {
    ScreenCoords((g.x + 1.0) / 2.0 * d.width, (1.0 - g.y) / 2.0 * d.height)
  }

  /** `GlCoords.fromScreenCoords`: the linear map sending the canvas
      rectangle onto [-1, 1] x [-1, 1] with the y axis flipped. */
  function FromScreenCoords(v: ScreenCoords, d: ScreenDimensions): (r: GlCoords)
    requires d.width != 0.0 && d.height != 0.0
    ensures ToScreenCoords(r, d) == v
  {
    GlCoords((v.x / d.width) * 2.0 - 1.0, -((v.y / d.height) * 2.0 - 1.0))
  }

  /** The other round trip: every clip-space point comes from exactly one pixel position. */
  lemma ToScreenRoundTrip(g: GlCoords, d: ScreenDimensions)
    requires d.width != 0.0 && d.height != 0.0
    ensures FromScreenCoords(ToScreenCoords(g, d), d) == g
  {
  }

  /** The top-left corner maps to (-1, 1), the bottom-right one to (1, -1),
      and the centre of the canvas to the origin. */
  lemma CornersAndCentre(d: ScreenDimensions)
    requires d.width != 0.0 && d.height != 0.0
    ensures FromScreenCoords(ScreenCoords(0.0, 0.0), d) == GlCoords(-1.0, 1.0)
    ensures FromScreenCoords(ScreenCoords(d.width, d.height), d) == GlCoords(1.0, -1.0)
    ensures FromScreenCoords(ScreenCoords(d.width / 2.0, d.height / 2.0), d) == GlCoords(0.0, 0.0)
  {
    assert d.width / d.width == 1.0;
    assert d.height / d.height == 1.0;
  }

  /** A pixel on the canvas lands inside clip space. */
  lemma OnCanvasIsInClipSpace(v: ScreenCoords, d: ScreenDimensions)
    requires d.width > 0.0 && d.height > 0.0
    requires 0.0 <= v.x <= d.width && 0.0 <= v.y <= d.height
    ensures -1.0 <= FromScreenCoords(v, d).x <= 1.0
    ensures -1.0 <= FromScreenCoords(v, d).y <= 1.0
  {
    UnitFraction(v.x, d.width);
    UnitFraction(v.y, d.height);
  }

  lemma UnitFraction(a: real, b: real)
    requires b > 0.0 && 0.0 <= a <= b
    ensures 0.0 <= a / b <= 1.0
  {
    assert a / b * b == a;
  }

  /** Moving right increases clip x; moving down decreases clip y. */
  lemma AxisOrientation(v: ScreenCoords, w: ScreenCoords, d: ScreenDimensions)
    requires d.width > 0.0 && d.height > 0.0
    ensures v.x < w.x ==> FromScreenCoords(v, d).x < FromScreenCoords(w, d).x
    ensures v.y < w.y ==> FromScreenCoords(v, d).y > FromScreenCoords(w, d).y
  {
  }
}
