/**
 * The two 2D drawing contexts of the component, kept as append-only logs of
 * the drawing calls made on them. What the calls do to pixels is not modelled.
 */
module Canvas {
  import opened Wrappers

  /** A JavaScript number that may be null (every field of the selection starts as null). */
  type Num = Option<int>

  /** JavaScript's conversion of a nullable number in arithmetic: null counts as 0. */
  function ToNumber(n: Num): (r: int)
    ensures n.Some? ==> r == n.value
    ensures n.None? ==> r == 0
  {
    if n.Some? then n.value else 0
  }

  /** An image element made by `new Image()`, known by the data URL it was given as src. */
  datatype Bitmap = Bitmap(src: string)

  /** One call on a 2D context, with the arguments it was passed. */
  datatype DrawCmd =
    | Clear(x: int, y: int, w: int, h: int)
      // clearRect(x, y, w, h)
    | DrawImage(img: Bitmap, dx: int, dy: int)
      // drawImage(img, dx, dy)
    | DrawImageRegion(img: Bitmap, sx: Num, sy: Num, sw: Num, sh: Num, dx: int, dy: int, dw: Num, dh: Num)
      // drawImage(img, sx, sy, sw, sh, dx, dy, dw, dh): the source region sx, sy, sw, sh scaled onto dx, dy, dw, dh
    | StrokeRect(rx: Num, ry: Num, rw: Num, rh: Num, style: string)
      // strokeRect(rx, ry, rw, rh), drawn with the strokeStyle set just before it

  /** The fixed clear of the primary canvas (500 by 500, whatever the image size). */
  const PrimaryClear: DrawCmd := Clear(0, 0, 500, 500)

  /** The fixed clear of the crop canvas (640 by 480). */
  const CropClear: DrawCmd := Clear(0, 0, 640, 480)

  /** The stroke colour of the selection outline. */
  const SelectionColor: string := "red"
}
