/** The fixed-shape SVG document TopSVG and BottomSVG build (main.py:57-132, 144-223): a root
    with canvas attributes, two clip paths, and one group holding a background path and an image.
    Path data are kept as vertex lists, not as text. */
module Svg {
  import opened Geometry

  /** A "x y w h" attribute (boardBox, viewBox). */
  datatype Box = Box(x: real, y: real, w: real, h: real)

  /** The rectangle a box attribute spans. */
  function BoxRect(b: Box): (r: Rect)
    ensures r.left == b.x && r.top == b.y
    ensures r.right - r.left == b.w && r.bottom - r.top == b.h
  {
    Rect(b.x, b.y, b.x + b.w, b.y + b.h)
  }

  /** Root attributes: width and height in millimetres, boardBox and viewBox in drawing units. */
  datatype Canvas = Canvas(widthMm: real, heightMm: real, boardBox: Box, viewBox: Box)

  /** The clip-path attribute of a clipPath element: none, or url(#id). */
  datatype ClipRef = NoClip | ClipUrl(target: string)

  /** A clipPath element (id, clip-path) holding one path (id, d). */
  datatype ClipPath = ClipPath(id: string, clipRef: ClipRef, pathId: string, trace: seq<Point>)

  /** The background path of the group: its fill colour and its d. */
  datatype Background = Background(fill: string, trace: seq<Point>)

  /** The image element: width, height, preserveAspectRatio, transform. */
  datatype Image = Image(width: int, height: int, preserveAspectRatio: string, transform: Matrix)

  /** The user-space rectangle the image element covers, [0, width] x [0, height]; with
      preserveAspectRatio "none" the raster is stretched over all of it. */
  function ImageArea(i: Image): Rect
  {
    Rect(0.0, 0.0, i.width as real, i.height as real)
  }

  /** The g element: clip-path url(#clipRef), its transform, then its two children. */
  datatype Group = Group(clipRef: string, transform: ScaleTranslate, background: Background, image: Image)

  datatype Document = Document(canvas: Canvas, outerClip: ClipPath, innerClip: ClipPath, group: Group)

  /** The clip chain: the group is clipped by the inner clip path, which is clipped by the outer one. */
  predicate ClipChained(d: Document)
  {
    && d.outerClip.id != d.innerClip.id
    && d.outerClip.clipRef == NoClip
    && d.innerClip.clipRef == ClipUrl(d.outerClip.id)
    && d.group.clipRef == d.innerClip.id
  }
}
