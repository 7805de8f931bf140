/**
 * The bounding-box scan that `runRoute` runs over the canvas's RGBA pixel
 * buffer after a successful evaluation, and the centroid it derives from the
 * box to anchor the returned results.
 */
module InkBox {

  /** One channel of an RGBA pixel, as `ImageData.data` holds it. */
  newtype byte = b: int | 0 <= b < 256

  /** The four running bounds of the scan. */
  datatype Box = Box(minX: nat, minY: nat, maxX: nat, maxY: nat)

  /** A position with fractional coordinates; the centroid is a float division in the source. */
  datatype Position = Position(x: real, y: real)

  /** Index of the alpha byte of pixel (x, y) in a row-major RGBA buffer `width` pixels wide. */
  function AlphaIndex(width: nat, x: nat, y: nat): nat
  {
    (y * width + x) * 4 + 3
  }

  /** Every pixel of a `width` by `height` canvas has its alpha byte inside the buffer. */
  lemma AlphaIndexInBounds(width: nat, height: nat, x: nat, y: nat)
    requires x < width && y < height
    ensures AlphaIndex(width, x, y) < width * height * 4
  {
    assert y * width + x < (y + 1) * width;
    assert (y + 1) * width <= height * width;
  }

  /**
   * Pixel (x, y) carries ink: its alpha byte exceeds 0. A read past the end of
   * the buffer yields `undefined` in the source, which is not greater than 0.
   */
  predicate IsInk(pixels: seq<byte>, width: nat, x: nat, y: nat)
  {
    AlphaIndex(width, x, y) < |pixels| && pixels[AlphaIndex(width, x, y)] > 0
  }

  /** Some pixel of the canvas carries ink. */
  ghost predicate HasInk(pixels: seq<byte>, width: nat, height: nat)
  {
    exists x: nat, y: nat :: x < width && y < height && IsInk(pixels, width, x, y)
  }

  /**
   * `b` is the box the scan leaves: it covers every ink pixel, each of its
   * bounds is attained by an ink pixel, and on a blank canvas it keeps the
   * initial values `width, height, 0, 0`.
   */
  ghost predicate IsInkBox(pixels: seq<byte>, width: nat, height: nat, b: Box)
  {
    && (forall x: nat, y: nat :: x < width && y < height && IsInk(pixels, width, x, y) ==>
          b.minX <= x <= b.maxX && b.minY <= y <= b.maxY)
    && (HasInk(pixels, width, height) ==>
          && b.minX <= b.maxX < width && b.minY <= b.maxY < height
          && (exists y: nat :: y < height && IsInk(pixels, width, b.minX, y))
          && (exists y: nat :: y < height && IsInk(pixels, width, b.maxX, y))
          && (exists x: nat :: x < width && IsInk(pixels, width, x, b.minY))
          && (exists x: nat :: x < width && IsInk(pixels, width, x, b.maxY)))
    && (!HasInk(pixels, width, height) ==> b == Box(width, height, 0, 0))
  }

  /** Pixel (x', y') comes before (x, y) in the row-major scan order. */
  predicate Before(x': nat, y': nat, x: nat, y: nat)
  {
    y' < y || (y' == y && x' < x)
  }

  /** For each bound of the box, the other coordinate of an ink pixel lying on it. */
  datatype Witness = Witness(yMinX: nat, yMaxX: nat, xMinY: nat, xMaxY: nat)

  /**
   * What the scan knows once it has visited every pixel before (x, y):
   * `seen` tells whether ink was met, and `w` names an ink pixel on each bound.
   */
  ghost predicate ScanState(pixels: seq<byte>, width: nat, height: nat, x: nat, y: nat, b: Box, seen: bool, w: Witness)
  {
    && (forall x': nat, y': nat :: x' < width && y' < height && Before(x', y', x, y) && IsInk(pixels, width, x', y') ==>
          b.minX <= x' <= b.maxX && b.minY <= y' <= b.maxY)
    && (!seen ==>
          && b == Box(width, height, 0, 0)
          && forall x': nat, y': nat :: x' < width && y' < height && Before(x', y', x, y) ==> !IsInk(pixels, width, x', y'))
    && (seen ==>
          && b.minX <= b.maxX < width && b.minY <= b.maxY < height
          && w.yMinX < height && IsInk(pixels, width, b.minX, w.yMinX)
          && w.yMaxX < height && IsInk(pixels, width, b.maxX, w.yMaxX)
          && w.xMinY < width && IsInk(pixels, width, w.xMinY, b.minY)
          && w.xMaxY < width && IsInk(pixels, width, w.xMaxY, b.maxY))
  }

  /** The box after the `Math.min`/`Math.max` updates at ink pixel (x, y). */
  function Widen(b: Box, x: nat, y: nat): Box
  {
    Box(if x < b.minX then x else b.minX, if y < b.minY then y else b.minY,
        if x > b.maxX then x else b.maxX, if y > b.maxY then y else b.maxY)
  }

  /** The witnesses after ink pixel (x, y) is met: it replaces each witness on a bound it reaches. */
  function Track(w: Witness, b: Box, x: nat, y: nat): Witness
  {
    Witness(if x <= b.minX then y else w.yMinX, if x >= b.maxX then y else w.yMaxX,
            if y <= b.minY then x else w.xMinY, if y >= b.maxY then x else w.xMaxY)
  }

  /** A blank pixel leaves the box and the witnesses as they are. */
  lemma StepBlank(pixels: seq<byte>, width: nat, height: nat, x: nat, y: nat, b: Box, seen: bool, w: Witness)
    requires x < width && y < height && !IsInk(pixels, width, x, y)
    requires ScanState(pixels, width, height, x, y, b, seen, w)
    ensures ScanState(pixels, width, height, x + 1, y, b, seen, w)
  {
  }

  /** An ink pixel widens the box to reach it and may become a witness. */
  lemma StepInk(pixels: seq<byte>, width: nat, height: nat, x: nat, y: nat, b: Box, seen: bool, w: Witness)
    requires x < width && y < height && IsInk(pixels, width, x, y)
    requires ScanState(pixels, width, height, x, y, b, seen, w)
    ensures ScanState(pixels, width, height, x + 1, y, Widen(b, x, y), true, Track(w, b, x, y))
  {
  }

  /** The end of a row is the start of the next. */
  lemma StepRow(pixels: seq<byte>, width: nat, height: nat, y: nat, b: Box, seen: bool, w: Witness)
    requires ScanState(pixels, width, height, width, y, b, seen, w)
    ensures ScanState(pixels, width, height, 0, y + 1, b, seen, w)
  {
  }

  /** After the last row, the scan's state is the box `IsInkBox` describes. */
  lemma ScanDone(pixels: seq<byte>, width: nat, height: nat, b: Box, seen: bool, w: Witness)
    requires ScanState(pixels, width, height, 0, height, b, seen, w)
    ensures IsInkBox(pixels, width, height, b)
  {
  }

  /** The nested scan of `runRoute`: every pixel, row by row, widening the box at each ink pixel. */
  method ScanInkBox(data: array<byte>, width: nat, height: nat) returns (b: Box)
    requires data.Length == width * height * 4
    ensures b.minX <= width && b.maxX <= width && b.minY <= height && b.maxY <= height
    ensures IsInkBox(data[..], width, height, b)
  {
    b := Box(width, height, 0, 0);
    ghost var pixels := data[..];
    ghost var seen := false;
    ghost var w := Witness(0, 0, 0, 0);
    var y: nat := 0;
    while y < height
      invariant y <= height
      invariant ScanState(pixels, width, height, 0, y, b, seen, w)
    {
      var x: nat := 0;
      while x < width
        invariant x <= width
        invariant ScanState(pixels, width, height, x, y, b, seen, w)
      {
        AlphaIndexInBounds(width, height, x, y);
        var i := (y * width + x) * 4;
        if data[i + 3] > 0 {
          StepInk(pixels, width, height, x, y, b, seen, w);
          w := Track(w, b, x, y);
          b := Widen(b, x, y);
          seen := true;
        } else {
          StepBlank(pixels, width, height, x, y, b, seen, w);
        }
        x := x + 1;
      }
      StepRow(pixels, width, height, y, b, seen, w);
      y := y + 1;
    }
    ScanDone(pixels, width, height, b, seen, w);
  }

  /** The anchor `((minX + maxX) / 2, (minY + maxY) / 2)`: the point midway between opposite edges of the box. */
  function Anchor(b: Box): (p: Position)
    ensures p.x - b.minX as real == b.maxX as real - p.x
    ensures p.y - b.minY as real == b.maxY as real - p.y
  {
    Position((b.minX + b.maxX) as real / 2.0, (b.minY + b.maxY) as real / 2.0)
  }

  /** The scan's box is determined by the pixels: two boxes meeting its description are equal. */
  lemma InkBoxUnique(pixels: seq<byte>, width: nat, height: nat, b1: Box, b2: Box)
    requires IsInkBox(pixels, width, height, b1) && IsInkBox(pixels, width, height, b2)
    ensures b1 == b2
  {
  }

  /** On a canvas with ink the anchor lies inside the box, and so on an ink pixel's row and column range. */
  lemma AnchorInsideInk(pixels: seq<byte>, width: nat, height: nat, b: Box)
    requires IsInkBox(pixels, width, height, b) && HasInk(pixels, width, height)
    ensures b.minX as real <= Anchor(b).x <= b.maxX as real < width as real
    ensures b.minY as real <= Anchor(b).y <= b.maxY as real < height as real
  {
  }

  /** On a blank canvas the box stays at `width, height, 0, 0` and the anchor is the canvas centre. */
  lemma AnchorOfBlankCanvas(pixels: seq<byte>, width: nat, height: nat, b: Box)
    requires IsInkBox(pixels, width, height, b) && !HasInk(pixels, width, height)
    ensures b == Box(width, height, 0, 0)
    ensures Anchor(b) == Position(width as real / 2.0, height as real / 2.0)
  {
  }

  /** Whatever the pixels, the anchor lies on the canvas. */
  lemma AnchorOnCanvas(pixels: seq<byte>, width: nat, height: nat, b: Box)
    requires IsInkBox(pixels, width, height, b)
    ensures 0.0 <= Anchor(b).x <= width as real && 0.0 <= Anchor(b).y <= height as real
  {
  }

  /** A single ink pixel, such as one dab of the pen, gives a one-pixel box anchored on that pixel. */
  lemma SingleInkPixel(pixels: seq<byte>, width: nat, height: nat, b: Box, px: nat, py: nat)
    requires px < width && py < height && IsInk(pixels, width, px, py)
    requires forall x: nat, y: nat :: x < width && y < height && IsInk(pixels, width, x, y) ==> x == px && y == py
    requires IsInkBox(pixels, width, height, b)
    ensures b == Box(px, py, px, py)
    ensures Anchor(b) == Position(px as real, py as real)
  {
  }
}
