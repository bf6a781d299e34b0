/** The geometry TopSVG (main.py:57-141) and BottomSVG (main.py:144-229) put into their documents.
    Geometry comes in millimetres; everything in the document except the root's width and height
    is in drawing units (MmToMil10). */
module Layout {
  import opened Units
  import opened Outline
  import opened Geometry
  import opened Svg

  /** The inset/outset of the clip traces and the background, in drawing units. */
  const ClipTolerance: real := 0.05

  /** The shear constant of the Bottom image matrix (main.py:215-216), kept as the source has it. */
  const BottomShear: real := 4.8214441229528465e-18

  /** Image sizes in pixels; the image file is only read for its size. */
  type Pixels = n: int | n >= 1 witness 1

  datatype ImageSize = ImageSize(width: Pixels, height: Pixels)

  /** The image's own pixel rectangle. */
  function PixelRect(img: ImageSize): Rect
  {
    Rect(0.0, 0.0, img.width as real, img.height as real)
  }

  /** The board in drawing units: each edge converted from millimetres. */
  function BoardRect(g: Board): (r: Rect)
    ensures r.right - r.left == MmToMil10(g.width) && r.bottom - r.top == MmToMil10(g.height)
    ensures g.width >= 0.0 && g.height >= 0.0 <==> Ordered(r)
  {
    MmToMil10Linear(g.originX, g.width, 0.0);
    MmToMil10Linear(g.originY, g.height, 0.0);
    MmToMil10StrictlyIncreasing(g.originX, g.originX + g.width);
    MmToMil10StrictlyIncreasing(g.originY, g.originY + g.height);
    Rect(MmToMil10(g.originX), MmToMil10(g.originY),
         MmToMil10(g.originX + g.width), MmToMil10(g.originY + g.height))
  }

  /** Root attributes, identical in both documents (main.py:62-64, 149-151). viewBox repeats the
      converted height where the width belongs. */
  function CanvasOf(g: Board): (c: Canvas)
    ensures c.widthMm == g.width && c.heightMm == g.height
    ensures BoxRect(c.boardBox) == BoardRect(g)
    ensures c.viewBox.x == c.boardBox.x && c.viewBox.y == c.boardBox.y
    ensures c.viewBox.w == c.viewBox.h == c.boardBox.h
  {
    MmToMil10Linear(g.originX, g.width, 0.0);
    MmToMil10Linear(g.originY, g.height, 0.0);
    Canvas(g.width, g.height,
           Box(MmToMil10(g.originX), MmToMil10(g.originY), MmToMil10(g.width), MmToMil10(g.height)),
           Box(MmToMil10(g.originX), MmToMil10(g.originY), MmToMil10(g.height), MmToMil10(g.height)))
  }

  // ---------------------------------------------------------------- Top (main.py:57-141)

  /** Path "outline0" of clipPath0 (main.py:74-79): the board shrunk by the tolerance, closed. */
  function TopOuterTrace(g: Board): (t: seq<Point>)
    ensures |t| == 5 && Closed(t)
    ensures GoesAround(t, Grow(BoardRect(g), -ClipTolerance))
  {
    [Point(MmToMil10(g.originX) + 0.05, MmToMil10(g.originY + g.height) - 0.05),
     Point(MmToMil10(g.originX) + 0.05, MmToMil10(g.originY) + 0.05),
     Point(MmToMil10(g.originX + g.width) - 0.05, MmToMil10(g.originY) + 0.05),
     Point(MmToMil10(g.originX + g.width) - 0.05, MmToMil10(g.originY + g.height) - 0.05),
     Point(MmToMil10(g.originX) + 0.05, MmToMil10(g.originY + g.height) - 0.05)]
  }

  /** Path "solder1" of clipPath1 (main.py:87-92): the board grown by the tolerance, closed. */
  function TopInnerTrace(g: Board): (t: seq<Point>)
    ensures |t| == 5 && Closed(t)
    ensures GoesAround(t, Grow(BoardRect(g), ClipTolerance))
  {
    [Point(MmToMil10(g.originX) - 0.05, MmToMil10(g.originY + g.height) + 0.05),
     Point(MmToMil10(g.originX) - 0.05, MmToMil10(g.originY) - 0.05),
     Point(MmToMil10(g.originX + g.width) + 0.05, MmToMil10(g.originY) - 0.05),
     Point(MmToMil10(g.originX + g.width) + 0.05, MmToMil10(g.originY + g.height) + 0.05),
     Point(MmToMil10(g.originX) - 0.05, MmToMil10(g.originY + g.height) + 0.05)]
  }

  /** The white background path (main.py:101-106): the grown board's four corners visited edge by
      edge, but the last vertex returns to the second corner, not the first, so the last step cuts
      diagonally from the top-left to the bottom-right corner and, on a board of non-negative width,
      no step runs along the left edge. */
  function TopBackgroundTrace(g: Board): (t: seq<Point>)
    ensures |t| == 5 && t[4] == t[1]
    ensures Outlines(t, Grow(BoardRect(g), ClipTolerance)) && AxisSteps(t[..4])
    ensures var r := Grow(BoardRect(g), ClipTolerance);
            t[3] == Point(r.left, r.top) && t[4] == Point(r.right, r.bottom)
    ensures g.width >= 0.0 ==> !Closed(t)
    ensures var r := Grow(BoardRect(g), ClipTolerance);
            g.width >= 0.0 ==> forall i :: 0 < i < |t| ==> !(t[i - 1].x == r.left && t[i].x == r.left)
  {
    MmToMil10StrictlyIncreasing(g.originX, g.originX + g.width);
    [Point(MmToMil10(g.originX) - 0.05, MmToMil10(g.originY + g.height) + 0.05),
     Point(MmToMil10(g.originX + g.width) + 0.05, MmToMil10(g.originY + g.height) + 0.05),
     Point(MmToMil10(g.originX + g.width) + 0.05, MmToMil10(g.originY) - 0.05),
     Point(MmToMil10(g.originX) - 0.05, MmToMil10(g.originY) - 0.05),
     Point(MmToMil10(g.originX + g.width) + 0.05, MmToMil10(g.originY + g.height) + 0.05)]
  }

  /** "scale(1 1) translate(0 0)" (main.py:99): the identity. */
  function TopGroupTransform(): (s: ScaleTranslate)
    ensures forall p :: ApplyTransform(s, p) == p
  {
    ScaleTranslate(1.0, 1.0, 0.0, 0.0)
  }

  /** The image matrix (main.py:125-131): scale the pixel rectangle to the board's size and
      move it to the board's origin. */
  function TopImageMatrix(g: Board, img: ImageSize): (m: Matrix)
    ensures m.b == 0.0 && m.c == 0.0
    ensures Apply(m, Point(0.0, 0.0)) == Point(BoardRect(g).left, BoardRect(g).top)
    ensures Apply(m, Point(img.width as real, img.height as real))
         == Point(BoardRect(g).right, BoardRect(g).bottom)
  {
    var sx := MmToMil10(g.width) / img.width as real;
    var sy := MmToMil10(g.height) / img.height as real;
    assert sx * img.width as real == MmToMil10(g.width);
    assert sy * img.height as real == MmToMil10(g.height);
    Matrix(sx, 0.0, 0.0, sy, MmToMil10(g.originX), MmToMil10(g.originY))
  }

  /** The image element (main.py:120-123, 208-211): its height attribute is the pixel width, so
      it covers the width-by-width square of its user space, stretched over it. */
  function ImageElement(img: ImageSize, m: Matrix): (i: Image)
    ensures ImageArea(i) == Rect(0.0, 0.0, img.width as real, img.width as real)
    ensures i.preserveAspectRatio == "none" && i.transform == m
  {
    Image(img.width, img.width, "none", m)
  }

  function TopSvg(g: Board, img: ImageSize): (d: Document)
    ensures ClipChained(d)
    ensures BoxRect(d.canvas.boardBox) == BoardRect(g)
    ensures Closed(d.outerClip.trace) && GoesAround(d.outerClip.trace, Grow(BoardRect(g), -ClipTolerance))
    ensures Closed(d.innerClip.trace) && GoesAround(d.innerClip.trace, Grow(BoardRect(g), ClipTolerance))
    ensures forall p :: ApplyTransform(d.group.transform, p) == p
    ensures Outlines(d.group.background.trace, Grow(BoardRect(g), ClipTolerance))
    ensures Apply(d.group.image.transform, Point(0.0, 0.0)) == Point(BoardRect(g).left, BoardRect(g).top)
    ensures Apply(d.group.image.transform, Point(img.width as real, img.height as real))
         == Point(BoardRect(g).right, BoardRect(g).bottom)
    ensures d.group.image.width == img.width && d.group.image.preserveAspectRatio == "none"
  {
    Document(CanvasOf(g),
             ClipPath("clipPath0", NoClip, "outline0", TopOuterTrace(g)),
             ClipPath("clipPath1", ClipUrl("clipPath0"), "solder1", TopInnerTrace(g)),
             Group("clipPath1", TopGroupTransform(),
                   Background("#FFFFFF", TopBackgroundTrace(g)),
                   ImageElement(img, TopImageMatrix(g, img))))
  }

  // ---------------------------------------------------------------- Bottom (main.py:144-229)

  /** Path "outline0" of the Bottom clipPath0 (main.py:161-166). Its first vertex is the third with
      x and y exchanged; its second vertex uses originX + PCBHeight, which lands on the shrunk
      board's bottom-right corner only on a square board; the last three vertices are corners of
      the shrunk board; the trace is closed only when the board is square and originX == originY. */
  function BottomOuterTrace(g: Board): (t: seq<Point>)
    ensures |t| == 5
    ensures t[0] == Point(t[2].y, t[2].x)
    ensures var r := Grow(BoardRect(g), -ClipTolerance);
            t[2..] == [Point(r.left, r.bottom), Point(r.left, r.top), Point(r.right, r.top)]
    ensures var r := Grow(BoardRect(g), -ClipTolerance);
            t[1].y == r.bottom && t[1].x == r.right + MmToMil10(g.height - g.width)
    ensures var r := Grow(BoardRect(g), -ClipTolerance);
            t[1] == Point(r.right, r.bottom) <==> g.width == g.height
    ensures Closed(t) <==> g.originX == g.originY && g.width == g.height
  {
    MmToMil10StrictlyIncreasing(g.originX + g.height, g.originX + g.width);
    MmToMil10StrictlyIncreasing(g.originX, g.originY);
    MmToMil10StrictlyIncreasing(g.originY + g.height, g.originX + g.width);
    MmToMil10Linear(g.originX + g.height, g.originX + g.width, 0.0);
    [Point(MmToMil10(g.originY + g.height) - 0.05, MmToMil10(g.originX) + 0.05),
     Point(MmToMil10(g.originX + g.height) - 0.05, MmToMil10(g.originY + g.height) - 0.05),
     Point(MmToMil10(g.originX) + 0.05, MmToMil10(g.originY + g.height) - 0.05),
     Point(MmToMil10(g.originX) + 0.05, MmToMil10(g.originY) + 0.05),
     Point(MmToMil10(g.originX + g.width) - 0.05, MmToMil10(g.originY) + 0.05)]
  }

  /** Path "solder1" of the Bottom clipPath1 (main.py:174-179): it starts like the Top inner
      trace, but its right and bottom vertices are moved inwards, and it is never closed. */
  function BottomInnerTrace(g: Board): (t: seq<Point>)
    ensures |t| == 5 && !Closed(t)
    ensures t[..2] == TopInnerTrace(g)[..2]
    ensures t[2].x == t[3].x == BoardRect(g).right - ClipTolerance
    ensures t[3].y == t[4].y == BoardRect(g).bottom - ClipTolerance
  {
    [Point(MmToMil10(g.originX) - 0.05, MmToMil10(g.originY + g.height) + 0.05),
     Point(MmToMil10(g.originX) - 0.05, MmToMil10(g.originY) - 0.05),
     Point(MmToMil10(g.originX + g.width) - 0.05, MmToMil10(g.originY) - 0.05),
     Point(MmToMil10(g.originX + g.width) - 0.05, MmToMil10(g.originY + g.height) - 0.05),
     Point(MmToMil10(g.originX) - 0.05, MmToMil10(g.originY + g.height) - 0.05)]
  }

  /** The Bottom background path (main.py:189-194): the Top one's first four vertices, closed,
      so it goes around the grown board edge by edge. */
  function BottomBackgroundTrace(g: Board): (t: seq<Point>)
    ensures |t| == 5 && Closed(t)
    ensures t[..4] == TopBackgroundTrace(g)[..4]
    ensures GoesAround(t, Grow(BoardRect(g), ClipTolerance))
  {
    [Point(MmToMil10(g.originX) - 0.05, MmToMil10(g.originY + g.height) + 0.05),
     Point(MmToMil10(g.originX + g.width) + 0.05, MmToMil10(g.originY + g.height) + 0.05),
     Point(MmToMil10(g.originX + g.width) + 0.05, MmToMil10(g.originY) - 0.05),
     Point(MmToMil10(g.originX) - 0.05, MmToMil10(g.originY) - 0.05),
     Point(MmToMil10(g.originX) - 0.05, MmToMil10(g.originY + g.height) + 0.05)]
  }

  /** "scale(-1 1) translate(-T 0)" with T the converted 2*originX + PCBWidth (main.py:184-187):
      the mirror about the board's vertical centre line, an involution. */
  function BottomGroupTransform(g: Board): (s: ScaleTranslate)
    ensures forall p :: ApplyTransform(s, p) == Point(BoardRect(g).left + BoardRect(g).right - p.x, p.y)
    ensures forall p :: ApplyTransform(s, ApplyTransform(s, p)) == p
  {
    MmToMil10Linear(2.0 * g.originX, g.width, 0.0);
    MmToMil10Linear(g.originX, g.originX + g.width, 0.0);
    ScaleTranslate(-1.0, 1.0, -MmToMil10(2.0 * g.originX + g.width), 0.0)
  }

  /** The Bottom image matrix (main.py:213-222) with shear entries -s and s: x-scale negated,
      translation at the board's right edge. */
  function BottomImageMatrixWithShear(g: Board, img: ImageSize, s: real): (m: Matrix)
    ensures m.a == -TopImageMatrix(g, img).a && m.d == TopImageMatrix(g, img).d
    ensures m.b == -s && m.c == s
    ensures Apply(m, Point(0.0, 0.0)) == Point(BoardRect(g).right, BoardRect(g).top)
    ensures s == 0.0 ==>
              Apply(m, Point(img.width as real, img.height as real)) == Point(BoardRect(g).left, BoardRect(g).bottom)
  {
    var sx := MmToMil10(g.width) / img.width as real;
    var sy := MmToMil10(g.height) / img.height as real;
    assert sx * img.width as real == MmToMil10(g.width);
    assert sy * img.height as real == MmToMil10(g.height);
    MmToMil10Linear(g.originX, g.width, 0.0);
    Matrix(-sx, -s, s, sy, MmToMil10(g.originX + g.width), MmToMil10(g.originY))
  }

  /** The Bottom image matrix as written, with the source's shear constant. */
  function BottomImageMatrix(g: Board, img: ImageSize): (m: Matrix)
    ensures 0.0 < m.c < 1.0e-17 && m.b == -m.c
    ensures Apply(m, Point(0.0, 0.0)) == Point(BoardRect(g).right, BoardRect(g).top)
  {
    BottomImageMatrixWithShear(g, img, BottomShear)
  }

  function BottomSvg(g: Board, img: ImageSize): (d: Document)
    ensures ClipChained(d)
    ensures BoxRect(d.canvas.boardBox) == BoardRect(g)
    ensures d.outerClip.trace == BottomOuterTrace(g) && d.innerClip.trace == BottomInnerTrace(g)
    ensures Closed(d.group.background.trace)
    ensures GoesAround(d.group.background.trace, Grow(BoardRect(g), ClipTolerance))
    ensures IsMirror(d.group.transform, BoardRect(g))
    ensures forall p :: ApplyTransform(d.group.transform, ApplyTransform(d.group.transform, p)) == p
    ensures d.group.image.transform.a == -TopImageMatrix(g, img).a
    ensures d.group.image.transform.d == TopImageMatrix(g, img).d
    ensures Apply(d.group.image.transform, Point(0.0, 0.0)) == Point(BoardRect(g).right, BoardRect(g).top)
    ensures d.group.image.width == img.width && d.group.image.preserveAspectRatio == "none"
  {
    Document(CanvasOf(g),
             ClipPath("clipPath0", NoClip, "outline0", BottomOuterTrace(g)),
             ClipPath("clipPath1", ClipUrl("clipPath0"), "solder1", BottomInnerTrace(g)),
             Group("clipPath1", BottomGroupTransform(g),
                   Background("#FFFFFF", BottomBackgroundTrace(g)),
                   ImageElement(img, BottomImageMatrix(g, img))))
  }
}
