/** Plane geometry in SVG user space (y grows downwards): points, axis-aligned rectangles,
    polyline traces and the two transform forms the documents use. */
module Geometry {

  datatype Point = Point(x: real, y: real)

  /** An axis-aligned rectangle by its four edges. */
  datatype Rect = Rect(left: real, top: real, right: real, bottom: real)

  function Min(a: real, b: real): real { if a <= b then a else b }

  function Max(a: real, b: real): real { if a <= b then b else a }

  predicate Ordered(r: Rect)
  {
    r.left <= r.right && r.top <= r.bottom
  }

  predicate Inside(p: Point, r: Rect)
  {
    r.left <= p.x <= r.right && r.top <= p.y <= r.bottom
  }

  predicate Contains(outer: Rect, inner: Rect)
  {
    outer.left <= inner.left && inner.right <= outer.right &&
    outer.top <= inner.top && inner.bottom <= outer.bottom
  }

  /** The rectangle moved outwards by d on every side (inwards when d is negative). */
  function Grow(r: Rect, d: real): (g: Rect)
    ensures g.right - g.left == r.right - r.left + 2.0 * d
    ensures g.bottom - g.top == r.bottom - r.top + 2.0 * d
    ensures g.left + g.right == r.left + r.right && g.top + g.bottom == r.top + r.bottom
  {
    Rect(r.left - d, r.top - d, r.right + d, r.bottom + d)
  }

  predicate IsCorner(p: Point, r: Rect)
  {
    (p.x == r.left || p.x == r.right) && (p.y == r.top || p.y == r.bottom)
  }

  /** A trace (the vertices of an SVG path "M p0 L p1 p2 …") outlines r when it stands only on
      corners of r and visits all four of them. */
  predicate Outlines(t: seq<Point>, r: Rect)
  {
    && (forall i :: 0 <= i < |t| ==> IsCorner(t[i], r))
    && Point(r.left, r.top) in t
    && Point(r.right, r.top) in t
    && Point(r.right, r.bottom) in t
    && Point(r.left, r.bottom) in t
  }

  /** Each step of the trace runs parallel to an axis: consecutive vertices share x or y. */
  predicate AxisSteps(t: seq<Point>)
  {
    forall i :: 0 < i < |t| ==> t[i - 1].x == t[i].x || t[i - 1].y == t[i].y
  }

  /** A trace goes around r when it outlines r one edge at a time: standing only on corners,
      every step moves along a side of r, so no step cuts across it diagonally. */
  predicate GoesAround(t: seq<Point>, r: Rect)
  {
    Outlines(t, r) && AxisSteps(t)
  }

  /** The trace ends where it starts. */
  predicate Closed(t: seq<Point>)
  {
    |t| >= 2 && t[0] == t[|t| - 1]
  }

  /** The smallest rectangle holding every vertex of a non-empty trace. */
  function BoundingBox(t: seq<Point>): (b: Rect)
    requires |t| > 0
    ensures Ordered(b)
    ensures forall i :: 0 <= i < |t| ==> Inside(t[i], b)
    ensures exists i :: 0 <= i < |t| && t[i].x == b.left
    ensures exists i :: 0 <= i < |t| && t[i].x == b.right
    ensures exists i :: 0 <= i < |t| && t[i].y == b.top
    ensures exists i :: 0 <= i < |t| && t[i].y == b.bottom
    decreases |t|
  {
    if |t| == 1 then
      Rect(t[0].x, t[0].y, t[0].x, t[0].y)
    else
      var r := BoundingBox(t[1..]);
      assert forall i :: 1 <= i < |t| ==> t[i] == t[1..][i - 1];
      Rect(Min(t[0].x, r.left), Min(t[0].y, r.top), Max(t[0].x, r.right), Max(t[0].y, r.bottom))
  }

  /** Any rectangle holding every vertex holds the bounding box. */
  lemma BoundingBoxLeast(t: seq<Point>, r: Rect)
    requires |t| > 0
    requires forall i :: 0 <= i < |t| ==> Inside(t[i], r)
    ensures Contains(r, BoundingBox(t))
  {
    var b := BoundingBox(t);
    var i0 :| 0 <= i0 < |t| && t[i0].x == b.left;
    var i1 :| 0 <= i1 < |t| && t[i1].x == b.right;
    var i2 :| 0 <= i2 < |t| && t[i2].y == b.top;
    var i3 :| 0 <= i3 < |t| && t[i3].y == b.bottom;
    assert Inside(t[i0], r) && Inside(t[i1], r) && Inside(t[i2], r) && Inside(t[i3], r);
  }

  /** A trace that outlines an ordered rectangle has exactly that rectangle as bounding box. */
  lemma OutlineBoundingBox(t: seq<Point>, r: Rect)
    requires Ordered(r) && Outlines(t, r)
    ensures |t| > 0 && BoundingBox(t) == r
  {
    assert forall i :: 0 <= i < |t| ==> Inside(t[i], r);
    BoundingBoxLeast(t, r);
    var b := BoundingBox(t);
    var k :| 0 <= k < |t| && t[k] == Point(r.left, r.top);
    var m :| 0 <= m < |t| && t[m] == Point(r.right, r.bottom);
    assert Inside(t[k], b) && Inside(t[m], b);
  }

  /** SVG "matrix(a b c d e f)": (x, y) is drawn at (a*x + c*y + e, b*x + d*y + f). */
  datatype Matrix = Matrix(a: real, b: real, c: real, d: real, e: real, f: real)

  function Apply(m: Matrix, p: Point): Point
  {
    Point(m.a * p.x + m.c * p.y + m.e, m.b * p.x + m.d * p.y + m.f)
  }

  /** The matrix of "first n, then m". */
  function Compose(m: Matrix, n: Matrix): (k: Matrix)
    ensures Apply(k, Point(0.0, 0.0)) == Apply(m, Apply(n, Point(0.0, 0.0)))
  {
    Matrix(m.a * n.a + m.c * n.b, m.b * n.a + m.d * n.b,
           m.a * n.c + m.c * n.d, m.b * n.c + m.d * n.d,
           m.a * n.e + m.c * n.f + m.e, m.b * n.e + m.d * n.f + m.f)
  }

  /** One coordinate of a composed matrix, multiplied out. */
  lemma ComposeCoordinate(ma: real, mc: real, me: real, na: real, nb: real, nc: real, nd: real,
                          ne: real, nf: real, x: real, y: real)
    ensures (ma * na + mc * nb) * x + (ma * nc + mc * nd) * y + (ma * ne + mc * nf + me)
         == ma * (na * x + nc * y + ne) + mc * (nb * x + nd * y + nf) + me
  {
    assert ma * (na * x + nc * y + ne) == ma * (na * x) + ma * (nc * y) + ma * ne;
    assert mc * (nb * x + nd * y + nf) == mc * (nb * x) + mc * (nd * y) + mc * nf;
    assert ma * (na * x) == (ma * na) * x && ma * (nc * y) == (ma * nc) * y;
    assert mc * (nb * x) == (mc * nb) * x && mc * (nd * y) == (mc * nd) * y;
    assert (ma * na + mc * nb) * x == (ma * na) * x + (mc * nb) * x;
    assert (ma * nc + mc * nd) * y == (ma * nc) * y + (mc * nd) * y;
  }

  /** Composition of matrices is composition of the maps they draw with. */
  lemma ComposeApply(m: Matrix, n: Matrix, p: Point)
    ensures Apply(Compose(m, n), p) == Apply(m, Apply(n, p))
  {
    var k, q := Compose(m, n), Apply(n, p);
    ComposeCoordinate(m.a, m.c, m.e, n.a, n.b, n.c, n.d, n.e, n.f, p.x, p.y);
    ComposeCoordinate(m.b, m.d, m.f, n.a, n.b, n.c, n.d, n.e, n.f, p.x, p.y);
    assert Apply(k, p).x == Apply(m, q).x;
    assert Apply(k, p).y == Apply(m, q).y;
  }

  /** SVG "scale(sx sy) translate(tx ty)": translate first, then scale. */
  datatype ScaleTranslate = ScaleTranslate(sx: real, sy: real, tx: real, ty: real)

  function ApplyTransform(s: ScaleTranslate, p: Point): Point
  {
    Point(s.sx * (p.x + s.tx), s.sy * (p.y + s.ty))
  }

  /** The same transform written as a matrix. */
  function ToMatrix(s: ScaleTranslate): (m: Matrix)
    ensures m.b == 0.0 && m.c == 0.0
    ensures forall p :: Apply(m, p) == ApplyTransform(s, p)
  {
    Matrix(s.sx, 0.0, 0.0, s.sy, s.sx * s.tx, s.sy * s.ty)
  }

  /** Every vertex of a trace moved by a transform. */
  function MapTrace(s: ScaleTranslate, t: seq<Point>): (u: seq<Point>)
    ensures |u| == |t|
    ensures forall i :: 0 <= i < |t| ==> u[i] == ApplyTransform(s, t[i])
  {
    seq(|t|, i requires 0 <= i < |t| => ApplyTransform(s, t[i]))
  }

  /** "scale(-1 1) translate(tx 0)": the mirror about the vertical line x = -tx/2. */
  predicate IsMirror(s: ScaleTranslate, r: Rect)
  {
    s.sx == -1.0 && s.sy == 1.0 && s.ty == 0.0 && s.tx == -(r.left + r.right)
  }

  /** Pointwise, such a mirror reflects x about the rectangle's centre line and keeps y. */
  lemma MirrorReflects(s: ScaleTranslate, r: Rect, p: Point)
    requires IsMirror(s, r)
    ensures ApplyTransform(s, p) == Point(r.left + r.right - p.x, p.y)
  {
  }

  /** The mirror about a rectangle's centre line takes its corners to its corners. */
  lemma MirrorCorner(s: ScaleTranslate, r: Rect, c: Point)
    requires IsMirror(s, r) && IsCorner(c, r)
    ensures IsCorner(ApplyTransform(s, c), r)
  {
  }

  /** A trace around a rectangle, mirrored about the rectangle's centre line, still goes around it. */
  lemma MirrorPreservesOutline(s: ScaleTranslate, r: Rect, t: seq<Point>)
    requires IsMirror(s, r) && GoesAround(t, r)
    ensures GoesAround(MapTrace(s, t), r)
  {
    var u := MapTrace(s, t);
    forall i | 0 <= i < |u| ensures IsCorner(u[i], r) {
      MirrorCorner(s, r, t[i]);
    }
    var k0 :| 0 <= k0 < |t| && t[k0] == Point(r.right, r.top);
    assert u[k0] == Point(r.left, r.top);
    var k1 :| 0 <= k1 < |t| && t[k1] == Point(r.left, r.top);
    assert u[k1] == Point(r.right, r.top);
    var k2 :| 0 <= k2 < |t| && t[k2] == Point(r.left, r.bottom);
    assert u[k2] == Point(r.right, r.bottom);
    var k3 :| 0 <= k3 < |t| && t[k3] == Point(r.right, r.bottom);
    assert u[k3] == Point(r.left, r.bottom);
    forall i | 0 < i < |u| ensures u[i - 1].x == u[i].x || u[i - 1].y == u[i].y {
      assert t[i - 1].x == t[i].x || t[i - 1].y == t[i].y;
    }
  }
}
