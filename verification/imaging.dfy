/** Shared value types of the annotation pipeline: 8-bit samples, BGR pixels
    as delivered in a `bgr24` frame, RGB triples as handed to the colour
    utilities, pixel grids with NumPy-style slicing, and the drawing surface
    that OpenCV's `rectangle`/`putText` calls write to. */
module Imaging {

  datatype Option<+T> = None | Some(value: T)

  /** One 8-bit colour channel. */
  type Byte = x: int | 0 <= x < 256

  /** A pixel of a `bgr24` frame, channels in the frame's native order. */
  datatype Pixel = Pixel(b: Byte, g: Byte, r: Byte)

  /** An (r, g, b) tuple as the colour utilities pass it around; its
      components are plain Python ints and need not be in range. */
  datatype Rgb = Rgb(r: int, g: int, b: int)

  /** A colour argument of an OpenCV drawing call, in (b, g, r) order. */
  datatype Bgr = Bgr(b: int, g: int, r: int)

  const White: Rgb := Rgb(255, 255, 255)
  const WhiteInk: Bgr := Bgr(255, 255, 255)

  predicate InRange(c: Rgb) {
    0 <= c.r < 256 && 0 <= c.g < 256 && 0 <= c.b < 256
  }

  /** The reordering `b, g, r = pixel; (r, g, b)` done on every counted colour. */
  function ToRgb(p: Pixel): (c: Rgb)
    ensures InRange(c)
    ensures ToPixel(c) == p
  {
    Rgb(p.r, p.g, p.b)
  }

  /** Inverse of ToRgb on in-range triples. */
  function ToPixel(c: Rgb): (p: Pixel)
    requires InRange(c)
  {
    Pixel(c.b, c.g, c.r)
  }

  /** `(top_color[2], top_color[1], top_color[0])`: an RGB tuple turned into a drawing colour. */
  function RgbToBgr(c: Rgb): Bgr {
    Bgr(c.b, c.g, c.r)
  }

  /** The ink drawn for a counted colour is the frame pixel it was counted
      from, channels in the frame's own order: the RGB detour of the colour
      utilities and the reordering for OpenCV cancel out. */
  lemma InkOfCountedPixel(p: Pixel)
    ensures RgbToBgr(ToRgb(p)) == Bgr(p.b, p.g, p.r)
  {
  }

  /** A pixel array as NumPy holds it: `height` rows of `width` pixels each. */
  datatype Grid = Grid(height: nat, width: nat, rows: seq<seq<Pixel>>)

  type Image = g: Grid | |g.rows| == g.height && forall i :: 0 <= i < |g.rows| ==> |g.rows[i]| == g.width
    witness Grid(0, 0, [])

  /** `img.size == 0`. */
  predicate IsEmpty(img: Image) {
    img.height == 0 || img.width == 0
  }

  /** Index j of a dimension lies at or after slice bound k. */
  predicate StartsBefore(j: int, k: int) {
    j >= k
  }

  /** Python's normalisation of one bound of a step-1 slice over a dimension
      of length n: a slice starting at bound i keeps exactly the indices at or
      after i, a negative i being counted from the end (i + n). */
  function SliceIndex(i: int, n: nat): (k: nat)
    ensures k <= n
    ensures forall j :: 0 <= j < n ==> (StartsBefore(j, k) <==> j >= (if i < 0 then i + n else i))
  {
    if i < 0 then (if i + n < 0 then 0 else i + n)
    else if i > n then n
    else i
  }

  /** The contract of SliceIndex leaves no choice: any bound in 0..n that
      keeps exactly the indices at or after i (counted from the end when
      negative) is SliceIndex(i, n). */
  lemma SliceIndexDetermined(i: int, n: nat, k: nat)
    requires k <= n
    requires forall j :: 0 <= j < n ==> (StartsBefore(j, k) <==> j >= (if i < 0 then i + n else i))
    ensures k == SliceIndex(i, n)
  {
    var s := SliceIndex(i, n);
    if k < s {
      assert StartsBefore(k, k);
    } else if s < k {
      assert StartsBefore(s, s) && !StartsBefore(s, k);
    }
  }

  /** `img[y1:y2, x1:x2]` with Python's slicing rules. */
  function Crop(img: Image, y1: int, y2: int, x1: int, x2: int): (c: Image)
    ensures c.height == (if SliceIndex(y1, img.height) <= SliceIndex(y2, img.height)
                         then SliceIndex(y2, img.height) - SliceIndex(y1, img.height) else 0)
    ensures c.width == (if SliceIndex(x1, img.width) <= SliceIndex(x2, img.width)
                        then SliceIndex(x2, img.width) - SliceIndex(x1, img.width) else 0)
    ensures forall i, j :: 0 <= i < c.height && 0 <= j < c.width ==>
              c.rows[i][j] == img.rows[SliceIndex(y1, img.height) + i][SliceIndex(x1, img.width) + j]
  {
    var top := SliceIndex(y1, img.height);
    var bottom := if top <= SliceIndex(y2, img.height) then SliceIndex(y2, img.height) else top;
    var left := SliceIndex(x1, img.width);
    var right := if left <= SliceIndex(x2, img.width) then SliceIndex(x2, img.width) else left;
    Grid(bottom - top, right - left,
         seq(bottom - top, k requires 0 <= k < bottom - top => img.rows[top + k][left..right]))
  }

  /** Python's `int(x)` on a float: truncation toward zero. */
  function Trunc(x: real): (n: int)
    ensures x >= 0.0 ==> n as real <= x < n as real + 1.0
    ensures x < 0.0 ==> n as real - 1.0 < x <= n as real
  {
    if x >= 0.0 then x.Floor else -((-x).Floor)
  }

  /** An OpenCV drawing call, recorded instead of rasterised. */
  datatype DrawCmd =
    | Rectangle(x1: int, y1: int, x2: int, y2: int, color: Bgr, thickness: int)
    | PutText(text: string, x: int, y: int, scale: real, color: Bgr, thickness: int)

  /** The `bgr24` array that the drawing calls of one `recv` write to.  Its
      pixels stay as they came in; what is drawn is kept as an ordered list
      of calls. */
  class Canvas {
    const image: Image
    var ops: seq<DrawCmd>

    constructor (image: Image)
      ensures this.image == image && ops == []
    {
      this.image := image;
      ops := [];
    }

    /** `cv2.rectangle(img, (x1, y1), (x2, y2), color, thickness)`. */
    method DrawRectangle(x1: int, y1: int, x2: int, y2: int, color: Bgr, thickness: int)
      modifies this
      ensures ops == old(ops) + [Rectangle(x1, y1, x2, y2, color, thickness)]
    {
      ops := ops + [Rectangle(x1, y1, x2, y2, color, thickness)];
    }

    /** `cv2.putText(img, text, (x, y), font, scale, color, thickness)`. */
    method DrawText(text: string, x: int, y: int, scale: real, color: Bgr, thickness: int)
      modifies this
      ensures ops == old(ops) + [PutText(text, x, y, scale, color, thickness)]
    {
      ops := ops + [PutText(text, x, y, scale, color, thickness)];
    }
  }
}
