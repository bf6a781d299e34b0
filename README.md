# Silkscreen layout geometry

A Dafny model of the geometry in `main.py`, the script that turns two raster images into
top and bottom colour-silkscreen SVG layers for a printed circuit board. The model covers:

- the millimetre to drawing-unit conversion `mm2mil10`;
- the bounds arithmetic of `GetBorderOrigin`, which turns the outline's bounding box into
  `(originX, originY, width, height)` with the Y axis flipped;
- the document that `TopSVG` and `BottomSVG` build. This is the canvas attributes, the two
  chained clip paths, the group transform, the white background and the image with its matrix.

All lengths are `real`: the model states exact equalities that the Python floats meet only up
to rounding. Path `d` attributes are vertex lists (`seq<Point>`), not text. A trace "goes
around" a rectangle (`GoesAround`) when it stands only on the rectangle's corners, visits all
four, and every step runs along a side, so no step cuts across diagonally. "Pixel (x, y)"
means the point (x, y) of the image element's own user space, before its matrix is applied.

Modules:

- `Units` (units.dfy): `mm2mil10` and its inverse.
- `Outline` (outline.dfy): the bounds tuple, the board geometry and `GetBorderOrigin`'s
  arithmetic.
- `Geometry` (geometry.dfy): points, axis-aligned rectangles, traces, bounding boxes, SVG
  `matrix(a b c d e f)` and `scale(..) translate(..)` transforms, composition and mirrors.
- `Svg` (svg.dfy): the fixed-shape document tree.
- `Layout` (layout.dfy): `TopSvg` and `BottomSvg` and each part they compute.
- `LayoutProperties` (properties.dfy): what the parts promise about the board, and how the
  two sides relate.

The source builds its tree step by step with `ET.SubElement`. It has no loops, and the shape
of the tree is fixed. The model therefore builds each document as one value.

Where the code's own naming and the code disagree, the model follows the code.
`mm2mil10` is documented as converting to 1/10 mil, but it divides by 0.254. One drawing unit
is therefore 0.254 mm (10 mil), and 100 mm becomes about 393.7 units.

The model keeps the source's quirks as written. Lemmas state what each quirk does:

- `viewBox` uses the converted height for both extents (`ViewBoxMatchesBoardIff`).
- The image `height` attribute is the pixel width, so the element covers a width-by-width
  square of its user space (`ImageElement`, `DrawnImageFitsBoardIff`).
- On the Bottom side, the outer clip trace's first vertex has x and y exchanged. Its second
  vertex uses `originX + PCBHeight`, which puts it `MmToMil10(height - width)` to the right of
  the shrunk board's bottom-right corner. The trace is not closed unless the board is square
  with originX == originY (`BottomOuterTrace`).
- The Bottom inner clip trace moves its right and bottom vertices inwards and is not closed
  (`BottomInnerTrace`, `BottomInnerTraceBox`).
- The Top background ends at its second corner, not its first (`TopBackgroundTrace`). Its last
  step is the diagonal from the top-left to the bottom-right corner of the grown board, and no
  step runs along the left edge. Read as a filled path, that step closes the triangle of the
  top-right corner; the triangle below the diagonal is not filled.
- The Bottom image matrix carries the shear constant ±4.8214441229528465e-18
  (`BottomShear`). The mirror properties are proved with zero shear. The real constant gets a
  proved bound on its effect (`BottomShearDeviation`).

For the Bottom side, take a 50 mm × 30 mm board at the origin and a 500 × 300 image.
Before the mirror, pixel (0, 0) lands on the right edge and pixel (500, 300) on the left edge.
After the mirror, those two pixels land at x = 0 and x = `MmToMil10(50)`, the board's two
edges (`MirrorScenario`).

## Model

| member | source | states |
|---|---|---|
| `Units.MmToMil10` | main.py:48-54 | multiplying the result by 0.254 gives back the millimetres |
| `Units.Mil10ToMm` | main.py:48-54 | the inverse conversion: MmToMil10 of its result is its input |
| `Units.MmToMil10Inverse` | main.py:48-54 | converting to drawing units and back loses nothing |
| `Units.MmToMil10Linear` | main.py:48-54 | the conversion maps 0 to 0 and is additive, subtractive, odd and homogeneous |
| `Units.MmToMil10StrictlyIncreasing` | main.py:48-54 | a < b iff their conversions are ordered the same way, and equal iff their conversions are equal |
| `Outline.BorderOrigin` | main.py:245-249 | originX is xmin and originX + width is xmax; originY is -ymax and originY + height is -ymin (the Y flip); the board has positive size iff both intervals are non-empty |
| `Outline.OutlineBounds` | main.py:245-249 | the bounds a board comes from: their extents are the board's width and height, and the top bound flips to originY |
| `Outline.BorderOriginRoundTrip` | main.py:245-249 | BorderOrigin is a bijection: bounds to board and back, and board to bounds and back, are identities |
| `Outline.OrderedBoundsNonNegative` | main.py:248-249 | ordered bounds give width >= 0 and height >= 0 |
| `Layout.BoardRect` | main.py:75-79 | the converted board edges are MmToMil10(width) apart across and MmToMil10(height) apart down, and ordered iff width and height are non-negative |
| `Layout.CanvasOf` | main.py:62-64 | width and height in mm are the board's; boardBox spans exactly the board rectangle in drawing units; viewBox shares its origin but has the converted height as both extents |
| `Layout.TopOuterTrace` | main.py:74-79 | 5 vertices, closed, going around the board shrunk by 0.05: on its corners only, all four visited, every step along a side |
| `Layout.TopInnerTrace` | main.py:84-92 | 5 vertices, closed, going around the board grown by 0.05: on its corners only, all four visited, every step along a side |
| `Layout.TopBackgroundTrace` | main.py:101-106 | 5 vertices on and visiting all four corners of the board grown by 0.05, the first four steps along its sides; the last step runs diagonally from the top-left to the bottom-right corner (the last vertex repeats the second); for width >= 0 the trace is not closed and no step runs along the left edge |
| `Layout.TopGroupTransform` | main.py:97-100 | scale(1 1) translate(0 0) leaves every point where it is |
| `Layout.ImageElement` | main.py:120-123 | the element's width and height attributes are both the pixel width, so it covers the width-by-width square of its user space; preserveAspectRatio none; the given matrix is its transform (FixedAttributesAgree, DrawnImageFitsBoardIff) |
| `Layout.TopImageMatrix` | main.py:125-131 | axis-aligned; pixel (0, 0) lands on the board's top-left corner and pixel (imageWidth, imageHeight) on its bottom-right corner |
| `Layout.TopSvg` | main.py:57-132 | clipPath1 is clipped by clipPath0 and clips the group; boardBox spans the board; both clip traces are closed and go around the shrunk and the grown board; the group transform is the identity; the background stands on and visits all four corners of the grown board; the image matrix takes pixel (0, 0) to the board's top-left corner and pixel (imageWidth, imageHeight) to its bottom-right corner (the element's own far corner reaches it only for a square image, DrawnImageFitsBoardIff); image width is the pixel width, preserveAspectRatio none |
| `Layout.BottomOuterTrace` | main.py:159-166 | 5 vertices; the first is the third with x and y exchanged; the last three are corners of the shrunk board; the second is on the shrunk board's bottom edge, MmToMil10(height - width) to the right of its bottom-right corner, so it is that corner iff width == height; closed iff originX == originY and width == height |
| `Layout.BottomInnerTrace` | main.py:171-179 | 5 vertices, never closed; starts like the Top inner trace; its right vertices sit 0.05 inside the right edge and its bottom vertices 0.05 above the bottom edge |
| `Layout.BottomBackgroundTrace` | main.py:189-194 | 5 vertices, closed, the Top background's first four vertices, going around the grown board: on its corners only, all four visited, every step along a side |
| `Layout.BottomGroupTransform` | main.py:184-187 | x goes to left + right - x with y unchanged (the mirror about the board's centre line), and applying it twice is the identity |
| `Layout.BottomImageMatrixWithShear` | main.py:213-222 | x-scale is the negation of the Top one, y-scale equal to it; the shear entries are -s and s; pixel (0, 0) lands on the top-right corner; with s = 0, pixel (imageWidth, imageHeight) lands on the bottom-left corner |
| `Layout.BottomImageMatrix` | main.py:213-222 | the shear entries are -c and c with 0 < c < 1e-17; pixel (0, 0) lands on the board's top-right corner |
| `Layout.BottomSvg` | main.py:144-223 | the clip chain as on Top; boardBox spans the board; the outer and inner clip traces are BottomOuterTrace and BottomInnerTrace; the background is closed and goes around the grown board; the group transform is the mirror about the board's vertical centre line (IsMirror: x goes to left + right - x, y unchanged) and an involution; the image matrix's x-scale is the Top one negated and its y-scale the Top one; pixel (0, 0) lands on the top-right corner; image width is the pixel width, preserveAspectRatio none |
| `LayoutProperties.BoardRectFromOutline` | main.py:245-249 | the board rectangle in drawing units is the outline's bounding box with Y flipped: left xmin, top -ymax, right xmax, bottom -ymin |
| `LayoutProperties.ViewBoxMatchesBoardIff` | main.py:62-64 | the viewBox describes the board rectangle iff the board is square |
| `LayoutProperties.TopOuterTraceInsideBoard` | main.py:74-79 | with converted width and height of at least 0.1, the outer trace's bounding box is the board shrunk by exactly 0.05 on every side, and every vertex lies on the board |
| `LayoutProperties.TopClipNesting` | main.py:84-92 | for non-negative size, the inner trace spans the board grown by 0.05, which contains the board and the outer trace's bounding box |
| `LayoutProperties.BackgroundsSpanBoard` | main.py:189-194 | for non-negative size, the bounding box of each background trace (lines 101-106 for Top) is the board grown by 0.05 |
| `LayoutProperties.BottomInnerTraceBox` | main.py:174-179 | for non-negative size, the Bottom inner trace spans the board moved 0.05 left and grown 0.05 vertically, so it does not contain the board: the strip at the right edge is outside |
| `LayoutProperties.TopImageOntoBoard` | main.py:125-131 | every point of the pixel rectangle is drawn on the board |
| `LayoutProperties.PixelAt` | main.py:125-131 | the inverse of the Top image matrix: the matrix draws its result at the given board point |
| `LayoutProperties.TopImageBijection` | main.py:125-131 | PixelAt undoes the matrix, and a board point is on the board iff its pixel is in the pixel rectangle: the matrix maps the pixel rectangle one-to-one onto the board |
| `LayoutProperties.DrawnImageFitsBoardIff` | main.py:120-131 | the image element is a width-by-width square, since its height attribute is the pixel width; its far corner reaches the board's far corner iff imageWidth == imageHeight |
| `LayoutProperties.MirrorSwapsEdges` | main.py:184-187 | the group mirror swaps the left and right edges of the board grown by any d, row by row |
| `LayoutProperties.MirrorMatrix` | main.py:186 | the mirror as a matrix: x-scale -1, x-translation left + right |
| `LayoutProperties.BottomMirrorKeepsOutline` | main.py:184-194 | a trace going around the board grown by any d still goes around it once mirrored; in particular the Bottom background, drawn inside the mirrored group, still goes around the grown board |
| `LayoutProperties.BottomMatrixEntries` | main.py:213-219 | the Bottom matrix entry by entry: the Top x-scale negated, shear -s and s, the Top y-scale, translation at the right edge and the top edge |
| `LayoutProperties.BottomImageMirrorsTop` | main.py:208-222 | with zero shear, the group mirror composed with the Bottom image matrix is exactly the Top image matrix, and so every pixel lands where it does on Top |
| `LayoutProperties.ShearedMirrorsTop` | main.py:213-216 | with shear entries -s and s, the mirrored Bottom drawing is the Top matrix with shear entries -s and -s |
| `LayoutProperties.ShearDeviation` | main.py:213-216 | with shear s >= 0, every point of the width-by-width square the image element covers is drawn, after the mirror, at most s·imageWidth across and s·imageWidth down from where the Top matrix draws it |
| `LayoutProperties.BottomShearDeviation` | main.py:213-216 | the same bound for the source's shear constant, over the area the Bottom image element covers |
| `LayoutProperties.FixedAttributesAgree` | main.py:208-211 | both documents carry the same canvas, whose boardBox is the converted originX originY PCBWidth PCBHeight; each has one image whose width and height are the pixel width, with preserveAspectRatio none |
| `LayoutProperties.EndToEndScenario` | main.py:62-63 | a 100 mm x 60 mm board at the origin gives a 100 mm x 60 mm canvas with boardBox 0 0 393.7 236.2 within 0.1 |
| `LayoutProperties.MirrorScenario` | main.py:184-219 | a 50 mm x 30 mm board with a 500x300 image and zero shear: pixel (0, 0) lands on the right edge and pixel (500, 300) on the left edge; after the mirror they land on x = 0 and x = MmToMil10(50) |

## Left out

- Command line and top-level flow (main.py:21-32, 308-324): argument parsing, the global
  `args`, choosing the outline path, the `exit(1)` branch. Geometry and image sizes are
  parameters instead.
- Reading the outline with `gerber.read` (main.py:239), a foreign library. The bounds tuple is
  an input of `BorderOrigin`.
- Opening images with PIL (main.py:113-115, 201-203). The pixel width and height are inputs of
  at least 1.
- File I/O and encoding: the discarded `base64.b64encode` reads, `Image2Base64` and the
  `xlink:href` data URL it builds, `ET.tostring`, the XML header, and writing `Top.svg` and
  `Bottom.svg` (main.py:36-45, 117-118, 124, 135-138, 205-206, 212, 226-229).
- Text formatting. Python's float formatting inside the f-strings is not modelled. Neither is
  the text of `translate(-{…} 0)`, which prints a double minus when `2*originX + PCBWidth` is
  negative. The model keeps the value, the negated translation.
- Constant attributes with no geometry: `version`, the `xmlns` declarations, path `stroke` and
  `style`, and the background's `stroke` and `stroke-width`.
- `EncryptFile` (main.py:256-300): random keys, RSA-OAEP and AES-GCM, and writing the container
  files. This is foreign cryptography and output.
- `CopyFile` (main.py:303-305) and logging: side effects only.
- IEEE-754 rounding: all arithmetic is exact `real` arithmetic.
- Non-positive board sizes: the source never checks for them. Functions accept any board.
  Lemmas that need a non-negative or positive size require it.
- `LayoutProperties.BottomImageMirrorsTop`: proved for zero shear only. The source's shear
  constant is covered by the bound in `LayoutProperties.BottomShearDeviation`, not by equality.
