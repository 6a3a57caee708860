/** The coordinate transform addData applies to incoming points when asked
    to (translateAndZoomCoordinates in main.js, transCoOr in the bundle):
    the point's pixel position is taken relative to the canvas centre,
    normalised by the half extents, zoomed, rotated when the angle is
    non-zero, scaled back to pixels and shifted by the translation. */
module Transform {
  import opened Geometry

  /** What the transform reads from the chart: the canvas size in device
      pixels, the device pixel ratio, and the zoom, rotation angle and
      translation, all finite. */
  datatype View = View(width: real, height: real, ratio: real,
                       zoom: real, angle: real, translateX: real, translateY: real)

  /** The canvas half extents in CSS pixels, `width / (2 * ratio)`. */
  function HalfWidth(v: View): real
    requires v.ratio != 0.0
  {
    v.width / (2.0 * v.ratio)
  }

  function HalfHeight(v: View): real
    requires v.ratio != 0.0
  {
    v.height / (2.0 * v.ratio)
  }

  /** The half extents are non-zero, so the normalisation divides safely. */
  predicate Proper(v: View) {
    v.ratio != 0.0 && v.width != 0.0 && v.height != 0.0
  }

  /** Where x lands, in closed form: with dx, dy the zoomed pixel offsets
      from the centre, the new offset is dx (angle 0) or c·dx - s·dy·W/H,
      and the translation is subtracted. The W/H factor shows that the
      rotation acts on normalised, not pixel, coordinates. */
  function ViewX(x: real, y: real, v: View, c: real, s: real): real
    requires Proper(v)
  {
    var w, h := HalfWidth(v), HalfHeight(v);
    var dx, dy := v.zoom * (x - w), v.zoom * (y - h);
    if v.angle == 0.0 then w + dx - v.translateX
    else w + c * dx - s * dy * (w / h) - v.translateX
  }

  function ViewY(x: real, y: real, v: View, c: real, s: real): real
    requires Proper(v)
  {
    var w, h := HalfWidth(v), HalfHeight(v);
    var dx, dy := v.zoom * (x - w), v.zoom * (y - h);
    if v.angle == 0.0 then h + dy - v.translateY
    else h + s * dx * (h / w) + c * dy - v.translateY
  }

  /** (a / d) · z · e == z · a · (e / d): undoing a normalisation by d and
      rescaling by e. */
  lemma Rescale(a: real, d: real, z: real, e: real)
    requires d != 0.0
    ensures a / d * z * e == z * a * (e / d)
  {
    var q := a / d;
    assert q * d == a;
    assert e / d * d == e;
    assert q * z * e * d == z * (q * d) * e;
    assert z * a * (e / d) * d == z * a * e;
  }

  lemma MulDiv(a: real, d: real)
    requires d != 0.0
    ensures a * d / d == a
  {
  }

  /** The arithmetic behind the closed form: with px, py the pixel offsets
      from the centre, normalising by (w, h), zooming, rotating and scaling
      back gives the zoomed offsets rotated with the w/h, h/w factors. */
  lemma PixelForm(px: real, py: real, w: real, h: real, z: real, c: real, s: real)
    requires w != 0.0 && h != 0.0
    ensures px / w * z * w == z * px
    ensures py / h * z * h == z * py
    ensures (c * (px / w * z) + (-s) * (py / h * z)) * w == c * (z * px) - s * (z * py) * (w / h)
    ensures (s * (px / w * z) + c * (py / h * z)) * h == s * (z * px) * (h / w) + c * (z * py)
  {
    Rescale(px, w, z, w);
    Rescale(py, h, z, h);
    Rescale(px, w, z, h);
    Rescale(py, h, z, w);
    assert w / w == 1.0 && h / h == 1.0;
    var nx, ny := px / w * z, py / h * z;
    assert (c * nx + (-s) * ny) * w == c * (nx * w) - s * (ny * w);
    assert (s * nx + c * ny) * h == s * (nx * h) + c * (ny * h);
  }

  /** The transform, one assignment at a time, on the point's x and y;
      c and s are `Math.cos(angle)` and `Math.sin(angle)`, supplied by the
      caller. Every other field of the point is left as it was. */
  method TranslateAndZoom(data: DataPoint, v: View, c: real, s: real) returns (r: DataPoint)
    requires Proper(v)
    ensures r == data.(x := ViewX(data.x, data.y, v, c, s), y := ViewY(data.x, data.y, v, c, s))
  {
    var widFat := v.width / (2.0 * v.ratio);
    var heiFat := v.height / (2.0 * v.ratio);
    var x, y := data.x, data.y;
    x := x - widFat;
    y := y - heiFat;
    x := x / widFat;
    y := y / heiFat;
    x := x * v.zoom;
    y := y * v.zoom;
    if v.angle != 0.0 {
      var x0, y0 := x, y;
      x := (c * x0) + (-s * y0);
      y := (s * x0) + (c * y0);
    }
    x := x * widFat;
    y := y * heiFat;
    x := x + widFat;
    y := y + heiFat;
    x := x - v.translateX;
    y := y - v.translateY;
    r := data.(x := x, y := y);

    PixelForm(data.x - widFat, data.y - heiFat, widFat, heiFat, v.zoom, c, s);
  }

  /** The default view (zoom 1, angle 0, translation 0) leaves points where
      they are. */
  lemma DefaultViewIsIdentity(x: real, y: real, v: View, c: real, s: real)
    requires Proper(v) && v.zoom == 1.0 && v.angle == 0.0 && v.translateX == 0.0 && v.translateY == 0.0
    ensures ViewX(x, y, v, c, s) == x && ViewY(x, y, v, c, s) == y
  {
  }

  /** The canvas centre ends up at the centre minus the translation, for
      every zoom and angle. */
  lemma CentreMovesByTranslation(v: View, c: real, s: real)
    requires Proper(v)
    ensures ViewX(HalfWidth(v), HalfHeight(v), v, c, s) == HalfWidth(v) - v.translateX
    ensures ViewY(HalfWidth(v), HalfHeight(v), v, c, s) == HalfHeight(v) - v.translateY
  {
  }

  /** Without rotation the transform scales distances between points by the
      zoom. */
  lemma ZoomScalesDistances(x1: real, y1: real, x2: real, y2: real, v: View, c: real, s: real)
    requires Proper(v) && v.angle == 0.0
    ensures ViewX(x1, y1, v, c, s) - ViewX(x2, y2, v, c, s) == v.zoom * (x1 - x2)
    ensures ViewY(x1, y1, v, c, s) - ViewY(x2, y2, v, c, s) == v.zoom * (y1 - y2)
  {
    assert v.zoom * (x1 - HalfWidth(v)) - v.zoom * (x2 - HalfWidth(v)) == v.zoom * (x1 - x2);
    assert v.zoom * (y1 - HalfHeight(v)) - v.zoom * (y2 - HalfHeight(v)) == v.zoom * (y1 - y2);
  }

  /** Translating by (tx, ty) more moves every point by (-tx, -ty) more. */
  lemma TranslationShifts(x: real, y: real, v: View, c: real, s: real, tx: real, ty: real)
    requires Proper(v)
    ensures ViewX(x, y, v.(translateX := v.translateX + tx), c, s) == ViewX(x, y, v, c, s) - tx
    ensures ViewY(x, y, v.(translateY := v.translateY + ty), c, s) == ViewY(x, y, v, c, s) - ty
  {
  }

  /** Offsets from the centre, normalised by the half extents, before and
      after the transform (translation undone). */
  function NormalisedX(x: real, v: View): real
    requires Proper(v)
  {
    (x - HalfWidth(v)) / HalfWidth(v)
  }

  function NormalisedY(y: real, v: View): real
    requires Proper(v)
  {
    (y - HalfHeight(v)) / HalfHeight(v)
  }

  /** For a true rotation (c² + s² = 1) the normalised distance from the
      centre is multiplied by the zoom and nothing else: the rotation turns
      points about the centre in normalised coordinates. */
  lemma RotationKeepsNormalisedRadius(x: real, y: real, v: View, c: real, s: real)
    requires Proper(v) && v.angle != 0.0 && c * c + s * s == 1.0
    ensures var nx, ny := NormalisedX(ViewX(x, y, v, c, s) + v.translateX, v),
                          NormalisedY(ViewY(x, y, v, c, s) + v.translateY, v);
      nx * nx + ny * ny == v.zoom * v.zoom * (NormalisedX(x, v) * NormalisedX(x, v) + NormalisedY(y, v) * NormalisedY(y, v))
  {
    var w, h := HalfWidth(v), HalfHeight(v);
    var ax, ay := NormalisedX(x, v), NormalisedY(y, v);
    var z := v.zoom;
    var nx := NormalisedX(ViewX(x, y, v, c, s) + v.translateX, v);
    var ny := NormalisedY(ViewY(x, y, v, c, s) + v.translateY, v);
    RotatedNormalised(x, y, v, c, s);
    assert nx == c * z * ax - s * z * ay;
    assert ny == s * z * ax + c * z * ay;
    calc {
      nx * nx + ny * ny;
      == (c * z * ax - s * z * ay) * (c * z * ax - s * z * ay) + (s * z * ax + c * z * ay) * (s * z * ax + c * z * ay);
      == z * z * (c * c + s * s) * (ax * ax + ay * ay);
      == z * z * (ax * ax + ay * ay);
    }
  }

  /** In normalised coordinates the transform is zoom followed by the
      rotation matrix [[c, -s], [s, c]]. */
  lemma RotatedNormalised(x: real, y: real, v: View, c: real, s: real)
    requires Proper(v) && v.angle != 0.0
    ensures NormalisedX(ViewX(x, y, v, c, s) + v.translateX, v)
      == c * v.zoom * NormalisedX(x, v) - s * v.zoom * NormalisedY(y, v)
    ensures NormalisedY(ViewY(x, y, v, c, s) + v.translateY, v)
      == s * v.zoom * NormalisedX(x, v) + c * v.zoom * NormalisedY(y, v)
  {
    RotatedNormalisedX(x, y, v, c, s);
    RotatedNormalisedY(x, y, v, c, s);
  }

  lemma RotatedNormalisedX(x: real, y: real, v: View, c: real, s: real)
    requires Proper(v) && v.angle != 0.0
    ensures NormalisedX(ViewX(x, y, v, c, s) + v.translateX, v)
      == c * v.zoom * NormalisedX(x, v) - s * v.zoom * NormalisedY(y, v)
  {
    var w, h, z := HalfWidth(v), HalfHeight(v), v.zoom;
    var ax, ay := (x - w) / w, (y - h) / h;
    PixelForm(x - w, y - h, w, h, z, c, s);
    var ex := c * (ax * z) + (-s) * (ay * z);
    var offset := ViewX(x, y, v, c, s) + v.translateX - w;
    assert offset == ex * w;
    assert NormalisedX(ViewX(x, y, v, c, s) + v.translateX, v) == offset / w;
    MulDiv(ex, w);
  }

  lemma RotatedNormalisedY(x: real, y: real, v: View, c: real, s: real)
    requires Proper(v) && v.angle != 0.0
    ensures NormalisedY(ViewY(x, y, v, c, s) + v.translateY, v)
      == s * v.zoom * NormalisedX(x, v) + c * v.zoom * NormalisedY(y, v)
  {
    var w, h, z := HalfWidth(v), HalfHeight(v), v.zoom;
    var ax, ay := (x - w) / w, (y - h) / h;
    PixelForm(x - w, y - h, w, h, z, c, s);
    var ey := s * (ax * z) + c * (ay * z);
    var offset := ViewY(x, y, v, c, s) + v.translateY - h;
    assert offset == ey * h;
    assert NormalisedY(ViewY(x, y, v, c, s) + v.translateY, v) == offset / h;
    MulDiv(ey, h);
  }
}
