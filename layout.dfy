/**
 * The geometry of `process_and_send_all`: the background-free cutout is
 * scaled uniformly so that one side equals `size`, centred on the template
 * with floor division, and pasted onto a copy of the template. Images are
 * modelled by their dimensions only; pixels are not modelled.
 */
module Layout {

  datatype Size = Size(width: nat, height: nat)

  /** What background removal yields: an image with a positive width and height. */
  type Cutout = s: Size | s.width > 0 && s.height > 0 witness Size(1, 1)

  /** The scale mode that fixes the width; every other value fixes the height. */
  const ScaleByWidth: string := "width"

  /**
   * The size the cutout is resized to. By width: the width becomes `size`
   * and the height keeps the aspect ratio, rounded down. Any other mode:
   * the height becomes `size` and the width keeps the aspect ratio, rounded
   * down. Both conditions below say that the new side is the largest whole
   * number not exceeding the exactly scaled side.
   */
  function ResizedSize(cut: Cutout, scaleBy: string, size: nat): (r: Size)
    ensures scaleBy == ScaleByWidth ==>
      r.width == size &&
      r.height * cut.width <= size * cut.height < (r.height + 1) * cut.width
    ensures scaleBy != ScaleByWidth ==>
      r.height == size &&
      r.width * cut.height <= size * cut.width < (r.width + 1) * cut.height
  {
    if scaleBy == ScaleByWidth then
      var h := size * cut.height / cut.width;
      FloorDivBounds(size * cut.height, cut.width);
      Size(size, h)
    else
      var w := size * cut.width / cut.height;
      FloorDivBounds(size * cut.width, cut.height);
      Size(w, size)
  }

  /** Integer division rounds down: `a / b` is the largest `q` with `q * b <= a`. */
  lemma FloorDivBounds(a: nat, b: nat)
    requires b > 0
    ensures (a / b) * b <= a < (a / b + 1) * b
  {
  }

  /**
   * The offset that centres a side of length `n` in a side of length `t`:
   * `(t - n) // 2` with Python's floor division, negative when `n > t`.
   */
  function CentreOffset(t: int, n: int): (x: int)
    ensures 2 * x <= t - n <= 2 * x + 1
    ensures n <= t ==> 0 <= x && x + n <= t && 0 <= (t - (x + n)) - x <= 1
    ensures n > t ==> x < 0
  {
    (t - n) / 2
  }

  /** The floor-division characterisation above determines the offset uniquely. */
  lemma CentreOffsetUnique(t: int, n: int, x: int)
    requires 2 * x <= t - n <= 2 * x + 1
    ensures x == CentreOffset(t, n)
  {
  }

  /** The resized cutout and its top-left corner on the canvas. */
  datatype Layer = Layer(x: int, y: int, size: Size)

  /**
   * A copy of the template with one cutout pasted on it: the canvas keeps the
   * template's dimensions, and the pasted layer is clipped by the canvas.
   */
  datatype Composite = Composite(canvas: Size, layer: Layer)

  /**
   * The whole per-image geometry: resize, centre, and paste onto a fresh
   * copy of the template (`template.copy().paste(...)`).
   */
  function Compose(cut: Cutout, template: Size, scaleBy: string, size: nat): (c: Composite)
    ensures c.canvas == template
    ensures c.layer.size == ResizedSize(cut, scaleBy, size)
    ensures 2 * c.layer.x <= template.width - c.layer.size.width <= 2 * c.layer.x + 1
    ensures 2 * c.layer.y <= template.height - c.layer.size.height <= 2 * c.layer.y + 1
  {
    var r := ResizedSize(cut, scaleBy, size);
    Composite(template, Layer(CentreOffset(template.width, r.width), CentreOffset(template.height, r.height), r))
  }

  /** The pasted layer lies inside the canvas exactly when the resized cutout fits. */
  predicate Inside(c: Composite)
  {
    0 <= c.layer.x && c.layer.x + c.layer.size.width <= c.canvas.width &&
    0 <= c.layer.y && c.layer.y + c.layer.size.height <= c.canvas.height
  }

  /**
   * When the resized cutout fits the template it is pasted entirely inside
   * the canvas, with left and right (and top and bottom) margins differing by
   * at most one pixel, the extra pixel on the right (bottom); when it does not
   * fit on one axis, its offset on that axis is negative.
   */
  lemma ComposeCentred(cut: Cutout, template: Size, scaleBy: string, size: nat)
    ensures var c := Compose(cut, template, scaleBy, size);
      var r := c.layer.size;
      (r.width <= template.width && r.height <= template.height <==> Inside(c)) &&
      (r.width <= template.width ==>
        0 <= (template.width - (c.layer.x + r.width)) - c.layer.x <= 1) &&
      (r.height <= template.height ==>
        0 <= (template.height - (c.layer.y + r.height)) - c.layer.y <= 1) &&
      (r.width > template.width ==> c.layer.x < 0) &&
      (r.height > template.height ==> c.layer.y < 0)
  {
  }
}
