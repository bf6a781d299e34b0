/** Board geometry from the bounding box of the board outline (GetBorderOrigin, main.py:232-253).
    Reading the outline file is not part of this model: the bounding box is an input. */
module Outline {

  /** One axis of the outline's bounding box, (min, max) in millimetres. */
  datatype Interval = Interval(lo: real, hi: real)

  /** The bounds tuple ((xmin, xmax), (ymin, ymax)) of the outline layer, Y up. */
  datatype Bounds = Bounds(x: Interval, y: Interval)

  /** (originX, originY, width, height) in millimetres, Y down: origin is the top-left corner. */
  datatype Board = Board(originX: real, originY: real, width: real, height: real)

  /** The board dimensions the rest of the pipeline expects (never checked by the source). */
  predicate ValidBoard(g: Board)
  {
    g.width > 0.0 && g.height > 0.0
  }

  /** The arithmetic of GetBorderOrigin: the left edge stays, the Y axis is flipped so that the
      top edge (ymax) becomes the origin, and the extents are max minus min. */
  function BorderOrigin(b: Bounds): (g: Board)
    ensures g.originX == b.x.lo && g.originX + g.width == b.x.hi
    ensures g.originY == -b.y.hi && g.originY + g.height == -b.y.lo
    ensures ValidBoard(g) <==> b.x.lo < b.x.hi && b.y.lo < b.y.hi
  {
    Board(b.x.lo, -b.y.hi, b.x.hi - b.x.lo, b.y.hi - b.y.lo)
  }

  /** The outline bounds a board comes from: the partner of BorderOrigin. */
  function OutlineBounds(g: Board): (b: Bounds)
    ensures b.x.hi - b.x.lo == g.width && b.y.hi - b.y.lo == g.height
    ensures -b.y.hi == g.originY
  {
    Bounds(Interval(g.originX, g.originX + g.width), Interval(-g.originY - g.height, -g.originY))
  }

  /** BorderOrigin loses nothing: it is a bijection between bounds and boards. */
  lemma BorderOriginRoundTrip(b: Bounds, g: Board)
    ensures OutlineBounds(BorderOrigin(b)) == b
    ensures BorderOrigin(OutlineBounds(g)) == g
  {
  }

  /** Ordered bounds give non-negative dimensions. */
  lemma OrderedBoundsNonNegative(b: Bounds)
    requires b.x.lo <= b.x.hi && b.y.lo <= b.y.hi
    ensures BorderOrigin(b).width >= 0.0 && BorderOrigin(b).height >= 0.0
  {
  }
}
