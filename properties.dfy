/** What the two documents promise about the board: clip traces against the board rectangle,
    the image placed exactly on the board, and the Bottom side's mirror. */
module LayoutProperties {
  import opened Units
  import opened Outline
  import opened Geometry
  import opened Svg
  import opened Layout

  function Abs(x: real): real { if x < 0.0 then -x else x }

  /** A non-negative scale keeps an interval [0, bound] in order. */
  lemma ScaleWithin(a: real, x: real, bound: real)
    requires a >= 0.0 && 0.0 <= x <= bound
    ensures 0.0 <= a * x <= a * bound
  {
  }

  /** A positive factor cancels. */
  lemma CancelPositive(a: real, x: real, y: real)
    requires a > 0.0
    ensures a * x == a * y <==> x == y
  {
    if a * x == a * y {
      assert a * (x - y) == 0.0;
    }
  }

  /** The board rectangle is the outline's bounding box, Y flipped, in drawing units. */
  lemma BoardRectFromOutline(b: Bounds)
    ensures BoardRect(BorderOrigin(b))
         == Rect(MmToMil10(b.x.lo), MmToMil10(-b.y.hi), MmToMil10(b.x.hi), MmToMil10(-b.y.lo))
  {
  }

  /** viewBox describes the board only for a square board. */
  lemma ViewBoxMatchesBoardIff(g: Board)
    ensures BoxRect(CanvasOf(g).viewBox) == BoardRect(g) <==> g.width == g.height
  {
    MmToMil10StrictlyIncreasing(g.width, g.height);
  }

  /** With at least 0.1 drawing units of width and height, the Top outer clip trace lies inside the
      board, and its bounding box is the board shrunk by exactly the tolerance on every side. */
  lemma TopOuterTraceInsideBoard(g: Board)
    requires MmToMil10(g.width) >= 2.0 * ClipTolerance && MmToMil10(g.height) >= 2.0 * ClipTolerance
    ensures BoundingBox(TopOuterTrace(g)) == Grow(BoardRect(g), -ClipTolerance)
    ensures forall i :: 0 <= i < 5 ==> Inside(TopOuterTrace(g)[i], BoardRect(g))
  {
    OutlineBoundingBox(TopOuterTrace(g), Grow(BoardRect(g), -ClipTolerance));
  }

  /** For a board of non-negative size, the inner clip trace spans the board grown by the
      tolerance, which contains both the board and the outer clip trace. */
  lemma TopClipNesting(g: Board)
    requires g.width >= 0.0 && g.height >= 0.0
    ensures BoundingBox(TopInnerTrace(g)) == Grow(BoardRect(g), ClipTolerance)
    ensures Contains(BoundingBox(TopInnerTrace(g)), BoardRect(g))
    ensures Contains(BoundingBox(TopInnerTrace(g)), BoundingBox(TopOuterTrace(g)))
  {
    var r := BoardRect(g);
    OutlineBoundingBox(TopInnerTrace(g), Grow(r, ClipTolerance));
    var t := TopOuterTrace(g);
    assert forall i :: 0 <= i < |t| ==> IsCorner(t[i], Grow(r, -ClipTolerance));
    assert forall i :: 0 <= i < |t| ==> Inside(t[i], Grow(r, ClipTolerance));
    BoundingBoxLeast(t, Grow(r, ClipTolerance));
  }

  /** The bounding box of either background trace is the board grown by the tolerance. */
  lemma BackgroundsSpanBoard(g: Board)
    requires g.width >= 0.0 && g.height >= 0.0
    ensures BoundingBox(TopBackgroundTrace(g)) == Grow(BoardRect(g), ClipTolerance)
    ensures BoundingBox(BottomBackgroundTrace(g)) == Grow(BoardRect(g), ClipTolerance)
  {
    OutlineBoundingBox(TopBackgroundTrace(g), Grow(BoardRect(g), ClipTolerance));
    OutlineBoundingBox(BottomBackgroundTrace(g), Grow(BoardRect(g), ClipTolerance));
  }

  /** The Bottom inner clip trace spans the board moved left by the tolerance and grown vertically:
      the strip along the board's right edge is outside it. */
  lemma BottomInnerTraceBox(g: Board)
    requires g.width >= 0.0 && g.height >= 0.0
    ensures BoundingBox(BottomInnerTrace(g))
         == Rect(BoardRect(g).left - ClipTolerance, BoardRect(g).top - ClipTolerance,
                 BoardRect(g).right - ClipTolerance, BoardRect(g).bottom + ClipTolerance)
    ensures !Contains(BoundingBox(BottomInnerTrace(g)), BoardRect(g))
  {
    var r := BoardRect(g);
    var t := BottomInnerTrace(g);
    var box := Rect(r.left - ClipTolerance, r.top - ClipTolerance, r.right - ClipTolerance, r.bottom + ClipTolerance);
    assert forall i :: 0 <= i < |t| ==> Inside(t[i], box);
    BoundingBoxLeast(t, box);
    var b := BoundingBox(t);
    assert Inside(t[0], b) && Inside(t[1], b) && Inside(t[2], b);
  }

  /** Every pixel of the image's own rectangle is drawn on the board. */
  lemma TopImageOntoBoard(g: Board, img: ImageSize, p: Point)
    requires g.width >= 0.0 && g.height >= 0.0
    requires Inside(p, PixelRect(img))
    ensures Inside(Apply(TopImageMatrix(g, img), p), BoardRect(g))
  {
    var m := TopImageMatrix(g, img);
    ScaleWithin(m.a, p.x, img.width as real);
    ScaleWithin(m.d, p.y, img.height as real);
    assert m.a * img.width as real == MmToMil10(g.width);
    assert m.d * img.height as real == MmToMil10(g.height);
    assert Apply(m, p) == Point(m.a * p.x + m.e, m.d * p.y + m.f);
    var r := BoardRect(g);
    assert r.left == m.e && r.right == m.e + MmToMil10(g.width);
    assert r.top == m.f && r.bottom == m.f + MmToMil10(g.height);
  }

  /** The pixel the Top image matrix draws at board point q: its inverse. */
  function PixelAt(g: Board, img: ImageSize, q: Point): (p: Point)
    requires ValidBoard(g)
    ensures Apply(TopImageMatrix(g, img), p) == q
  {
    var m := TopImageMatrix(g, img);
    var p := Point((q.x - m.e) / m.a, (q.y - m.f) / m.d);
    assert m.a * p.x == q.x - m.e;
    assert m.d * p.y == q.y - m.f;
    p
  }

  /** The Top image matrix is a bijection from the pixel rectangle onto the board. */
  lemma TopImageBijection(g: Board, img: ImageSize, p: Point, q: Point)
    requires ValidBoard(g)
    ensures PixelAt(g, img, Apply(TopImageMatrix(g, img), p)) == p
    ensures Inside(q, BoardRect(g)) <==> Inside(PixelAt(g, img, q), PixelRect(img))
  {
    var m := TopImageMatrix(g, img);
    var w, h := img.width as real, img.height as real;
    assert m.a > 0.0 && m.d > 0.0;
    assert m.a * w == MmToMil10(g.width) && m.d * h == MmToMil10(g.height);
    var u := PixelAt(g, img, Apply(m, p));
    assert m.a * u.x == m.a * p.x && m.d * u.y == m.d * p.y;
    var v := PixelAt(g, img, q);
    assert 0.0 <= v.x <= w <==> 0.0 <= m.a * v.x <= m.a * w;
    assert 0.0 <= v.y <= h <==> 0.0 <= m.d * v.y <= m.d * h;
  }

  /** The image element is drawn over a width-by-width pixel square (its height attribute is the
      pixel width), so its far corner reaches the board's far corner only for a square image. */
  lemma DrawnImageFitsBoardIff(g: Board, img: ImageSize)
    requires ValidBoard(g)
    ensures var i := TopSvg(g, img).group.image;
            (Apply(i.transform, Point(i.width as real, i.height as real))
               == Point(BoardRect(g).right, BoardRect(g).bottom)
             <==> img.width == img.height)
  {
    var m, b := TopImageMatrix(g, img), BoardRect(g);
    var w, h := img.width as real, img.height as real;
    assert Apply(m, Point(w, w)) == Point(m.a * w + m.e, m.d * w + m.f);
    assert Apply(m, Point(w, h)) == Point(m.a * w + m.e, m.d * h + m.f) == Point(b.right, b.bottom);
    assert m.d * h == b.bottom - b.top > 0.0;
    CancelPositive(m.d, w, h);
  }

  /** The Bottom group mirror swaps the edges of the board grown by any d and keeps rows. */
  lemma MirrorSwapsEdges(g: Board, d: real, y: real)
    ensures var s, r := BottomGroupTransform(g), Grow(BoardRect(g), d);
            ApplyTransform(s, Point(r.left, y)) == Point(r.right, y) &&
            ApplyTransform(s, Point(r.right, y)) == Point(r.left, y)
  {
  }

  /** The Bottom group transform mirrors the board grown by any d about its own centre line, so a
      trace going around that rectangle still goes around it once mirrored; in particular the
      Bottom background, drawn inside the group, still goes around the grown board. */
  lemma BottomMirrorKeepsOutline(g: Board, d: real, t: seq<Point>)
    requires GoesAround(t, Grow(BoardRect(g), d))
    ensures GoesAround(MapTrace(BottomGroupTransform(g), t), Grow(BoardRect(g), d))
    ensures GoesAround(MapTrace(BottomGroupTransform(g), BottomBackgroundTrace(g)), Grow(BoardRect(g), ClipTolerance))
  {
    MmToMil10Linear(2.0 * g.originX, g.width, 0.0);
    MmToMil10Linear(g.originX, g.originX + g.width, 0.0);
    assert IsMirror(BottomGroupTransform(g), Grow(BoardRect(g), d));
    MirrorPreservesOutline(BottomGroupTransform(g), Grow(BoardRect(g), d), t);
    assert IsMirror(BottomGroupTransform(g), Grow(BoardRect(g), ClipTolerance));
    MirrorPreservesOutline(BottomGroupTransform(g), Grow(BoardRect(g), ClipTolerance), BottomBackgroundTrace(g));
  }

  /** The Bottom image matrix with shear s, entry by entry, in terms of the Top one. */
  lemma BottomMatrixEntries(g: Board, img: ImageSize, s: real)
    ensures var t := TopImageMatrix(g, img);
            BottomImageMatrixWithShear(g, img, s) == Matrix(-t.a, -s, s, t.d, BoardRect(g).right, t.f)
  {
  }

  /** The group mirror as a matrix. */
  lemma MirrorMatrix(g: Board)
    ensures ToMatrix(BottomGroupTransform(g))
         == Matrix(-1.0, 0.0, 0.0, 1.0, BoardRect(g).left + BoardRect(g).right, 0.0)
  {
    MmToMil10Linear(2.0 * g.originX, g.width, 0.0);
    MmToMil10Linear(g.originX, g.originX + g.width, 0.0);
  }

  /** The mirror applied after an axis-aligned matrix that puts pixel column 0 on the right edge. */
  lemma MirrorAfter(a: real, b: real, c: real, d: real, e: real, f: real, left: real)
    ensures Compose(Matrix(-1.0, 0.0, 0.0, 1.0, left + e, 0.0), Matrix(-a, b, c, d, e, f))
         == Matrix(a, b, -c, d, left, f)
  {
  }

  /** With the shear taken as zero, the Bottom image matrix followed by the group mirror is exactly
      the Top image matrix: every pixel lands where it lands on the Top side. */
  lemma BottomImageMirrorsTop(g: Board, img: ImageSize, p: Point)
    ensures Compose(ToMatrix(BottomGroupTransform(g)), BottomImageMatrixWithShear(g, img, 0.0))
         == TopImageMatrix(g, img)
    ensures ApplyTransform(BottomGroupTransform(g), Apply(BottomImageMatrixWithShear(g, img, 0.0), p))
         == Apply(TopImageMatrix(g, img), p)
  {
    var t, r := TopImageMatrix(g, img), BoardRect(g);
    BottomMatrixEntries(g, img, 0.0);
    MirrorMatrix(g);
    MirrorAfter(t.a, -0.0, 0.0, t.d, r.right, t.f, r.left);
    ComposeApply(ToMatrix(BottomGroupTransform(g)), BottomImageMatrixWithShear(g, img, 0.0), p);
  }

  /** Shear entries (b, c) = (-s, -s), s >= 0, added to an axis-aligned matrix t move the drawing
      of a point of [0, w] x [0, h] by at most s*h across and s*w down. */
  lemma ShearBound(t: Matrix, s: real, p: Point, w: real, h: real, q: Point, r: Point)
    requires t.b == 0.0 && t.c == 0.0 && s >= 0.0
    requires 0.0 <= p.x <= w && 0.0 <= p.y <= h
    requires q == Apply(Matrix(t.a, -s, -s, t.d, t.e, t.f), p) && r == Apply(t, p)
    ensures Abs(q.x - r.x) <= s * h && Abs(q.y - r.y) <= s * w
  {
    assert (-s) * p.y == -(s * p.y) && (-s) * p.x == -(s * p.x);
    ScaleWithin(s, p.y, h);
    ScaleWithin(s, p.x, w);
  }

  /** With shear entries (-s, s), the Bottom image matrix followed by the group mirror is the Top
      image matrix with shear entries (-s, -s). */
  lemma ShearedMirrorsTop(g: Board, img: ImageSize, s: real, p: Point)
    ensures var t := TopImageMatrix(g, img);
            (ApplyTransform(BottomGroupTransform(g), Apply(BottomImageMatrixWithShear(g, img, s), p))
               == Apply(Matrix(t.a, -s, -s, t.d, t.e, t.f), p))
  {
    var t, b := TopImageMatrix(g, img), BoardRect(g);
    var m := BottomImageMatrixWithShear(g, img, s);
    BottomMatrixEntries(g, img, s);
    MirrorMatrix(g);
    MirrorAfter(t.a, -s, s, t.d, b.right, t.f, b.left);
    ComposeApply(ToMatrix(BottomGroupTransform(g)), m, p);
  }

  /** With shear entries (-s, s), s >= 0, a point p of the square the image element covers
      (ImageElement: width and height attributes both the pixel width) is drawn, after the mirror,
      at most s times the pixel width away from where the Top matrix draws it, across and down. */
  lemma ShearDeviation(g: Board, img: ImageSize, s: real, p: Point)
    requires s >= 0.0 && Inside(p, Rect(0.0, 0.0, img.width as real, img.width as real))
    ensures var q := ApplyTransform(BottomGroupTransform(g), Apply(BottomImageMatrixWithShear(g, img, s), p));
            var r := Apply(TopImageMatrix(g, img), p);
            Abs(q.x - r.x) <= s * img.width as real && Abs(q.y - r.y) <= s * img.width as real
  {
    var t := TopImageMatrix(g, img);
    var q := ApplyTransform(BottomGroupTransform(g), Apply(BottomImageMatrixWithShear(g, img, s), p));
    ShearedMirrorsTop(g, img, s, p);
    ShearBound(t, s, p, img.width as real, img.width as real, q, Apply(t, p));
  }

  /** The same for the Bottom document's image element (ImageElement with BottomImageMatrix, under
      BottomGroupTransform) and the source's shear constant: every point of the area the element
      covers is off by less than 1e-17 drawing units per pixel of width. */
  lemma BottomShearDeviation(g: Board, img: ImageSize, p: Point)
    requires Inside(p, ImageArea(ImageElement(img, BottomImageMatrix(g, img))))
    ensures var q := ApplyTransform(BottomGroupTransform(g), Apply(BottomImageMatrix(g, img), p));
            var r := Apply(TopImageMatrix(g, img), p);
            Abs(q.x - r.x) <= BottomShear * img.width as real &&
            Abs(q.y - r.y) <= BottomShear * img.width as real
  {
    ShearDeviation(g, img, BottomShear, p);
  }

  /** The attributes that do not depend on the side agree between the two documents. */
  lemma FixedAttributesAgree(g: Board, img: ImageSize)
    ensures var top, bottom := TopSvg(g, img), BottomSvg(g, img);
            && top.canvas == bottom.canvas == CanvasOf(g)
            && top.canvas.boardBox
               == Box(MmToMil10(g.originX), MmToMil10(g.originY), MmToMil10(g.width), MmToMil10(g.height))
            && top.group.image.width == top.group.image.height == img.width
            && bottom.group.image.width == bottom.group.image.height == img.width
            && top.group.image.preserveAspectRatio == bottom.group.image.preserveAspectRatio == "none"
  {
    var top, bottom := TopSvg(g, img), BottomSvg(g, img);
    assert top.canvas == CanvasOf(g) && top.group.image == ImageElement(img, TopImageMatrix(g, img));
    assert bottom.canvas == CanvasOf(g) && bottom.group.image == ImageElement(img, BottomImageMatrix(g, img));
  }

  /** Board (0, 0, 100, 60) mm: a 100 mm x 60 mm canvas whose boardBox is "0 0 393.7 236.2" to
      within 0.1 (both documents carry this canvas, FixedAttributesAgree). */
  lemma EndToEndScenario()
    ensures var c := CanvasOf(Board(0.0, 0.0, 100.0, 60.0));
            && c.widthMm == 100.0 && c.heightMm == 60.0
            && c.boardBox.x == 0.0 && c.boardBox.y == 0.0
            && Abs(c.boardBox.w - 393.7) <= 0.1
            && Abs(c.boardBox.h - 236.2) <= 0.1
  {
  }

  /** Board (0, 0, 50, 30) mm with a 500x300 Bottom image, shear taken as zero: pixel (0, 0) sits
      at the right edge and pixel (500, 300) at the left edge before the mirror, and the mirror
      brings them back to the left and right edges of [0, MmToMil10(50)]. */
  lemma MirrorScenario()
    ensures var g, img := Board(0.0, 0.0, 50.0, 30.0), ImageSize(500, 300);
            var m, s := BottomImageMatrixWithShear(g, img, 0.0), BottomGroupTransform(g);
            && Apply(m, Point(0.0, 0.0)) == Point(MmToMil10(50.0), 0.0)
            && Apply(m, Point(500.0, 300.0)) == Point(0.0, MmToMil10(30.0))
            && ApplyTransform(s, Apply(m, Point(0.0, 0.0))) == Point(0.0, 0.0)
            && ApplyTransform(s, Apply(m, Point(500.0, 300.0))) == Point(MmToMil10(50.0), MmToMil10(30.0))
  {
    var g, img := Board(0.0, 0.0, 50.0, 30.0), ImageSize(500, 300);
    var r := BoardRect(g);
    assert r == Rect(0.0, 0.0, MmToMil10(50.0), MmToMil10(30.0));
    var m, s := BottomImageMatrixWithShear(g, img, 0.0), BottomGroupTransform(g);
    assert Apply(m, Point(0.0, 0.0)) == Point(r.right, r.top);
    assert Apply(m, Point(500.0, 300.0)) == Point(r.left, r.bottom);
  }
}
