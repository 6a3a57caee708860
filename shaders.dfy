/** The arithmetic of the fragment shaders, one fragment at a time:
    the gradient lookup and opacity clamp of the compositing pass, the bundle's
    rectangle shader (lookup on value/max, opaque black when nothing matches),
    main.js's four-corner colour wash, and the accumulation splat.
    A result of `None` means the shader does not write gl_FragColor (or, for
    the rectangle shader, writes a colour built from unassigned variables). */
module Shaders {
  import opened Js
  import opened Gradient

  /** The lookup loops over u_offset[0..9] only. */
  const StopsConsulted: nat := 10

  /** GLSL mix: the linear blend from x (at a = 0) to y (at a = 1). */
  function Mix(x: real, y: real, a: real): (r: real)
    ensures a == 0.0 ==> r == x
    ensures a == 1.0 ==> r == y
    ensures r - x == a * (y - x)
  {
    x * (1.0 - a) + y * a
  }

  /** mix on vec4, channel by channel. */
  function MixColor(x: Rgba, y: Rgba, a: real): (r: Rgba)
    ensures a == 0.0 ==> r == x
    ensures a == 1.0 ==> r == y
  {
    Rgba(Mix(x.r, y.r, a), Mix(x.g, y.g, a), Mix(x.b, y.b, a), Mix(x.a, y.a, a))
  }

  /** The shaders' remap: where curval lies between minval and maxval. */
  function Remap(minval: real, maxval: real, curval: real): (r: real)
    requires maxval != minval
    ensures curval == minval ==> r == 0.0
    ensures curval == maxval ==> r == 1.0
    ensures Mix(minval, maxval, r) == curval
  {
    var d := maxval - minval;
    var q := (curval - minval) / d;
    assert q * d == curval - minval;
    assert Mix(minval, maxval, q) == minval + q * d;
    assert curval == maxval ==> q == d / d == 1.0;
    q
  }

  /** Stop i is the one the scan settles on: among the first ten it is the
      first whose offset is at least alpha. */
  ghost predicate IsFirstMatch(t: GradientTable, alpha: real, i: nat) {
    && i < StopsConsulted
    && alpha <= UniformOffset(t, i)
    && forall j :: 0 <= j < i ==> alpha > UniformOffset(t, j)
  }

  /** The `matchFound` scan from stop `from` on, as a first-match search. */
  function FirstMatch(t: GradientTable, alpha: real, from: nat): (r: Option<nat>)
    requires from <= StopsConsulted
    decreases StopsConsulted - from
    ensures r.Some? ==> from <= r.value < StopsConsulted && alpha <= UniformOffset(t, r.value)
    ensures r.Some? ==> forall j :: from <= j < r.value ==> alpha > UniformOffset(t, j)
    ensures r.None? ==> forall j :: from <= j < StopsConsulted ==> alpha > UniformOffset(t, j)
  {
    if from == StopsConsulted then None
    else if alpha <= UniformOffset(t, from) then Some(from)
    else FirstMatch(t, alpha, from + 1)
  }

  /** The colour the scan produces for a matched alpha: stop 0's colour when
      alpha <= u_offset[0], otherwise the mix of the two stops around the first
      match; `None` when no stop among the first ten matches. */
  function GradientColor(t: GradientTable, alpha: real): (r: Option<Rgba>)
    ensures r.Some? <==> exists i :: 0 <= i < StopsConsulted && alpha <= UniformOffset(t, i)
    ensures alpha <= UniformOffset(t, 0) ==> r == Some(UniformColor(t, 0))
  {
    match FirstMatch(t, alpha, 0)
    case None => None
    case Some(i) =>
      if i == 0 then Some(UniformColor(t, 0))
      else Some(MixColor(UniformColor(t, i - 1), UniformColor(t, i),
                         Remap(UniformOffset(t, i - 1), UniformOffset(t, i), alpha)))
  }

  /** The scan finds exactly the first match. */
  lemma FirstMatchCharacterised(t: GradientTable, alpha: real, i: nat)
    ensures FirstMatch(t, alpha, 0) == Some(i) <==> IsFirstMatch(t, alpha, i)
  {
  }

  /** Past stop 0, the colour is the mix between the previous stop and the
      first matching one, weighted by where alpha lies between their offsets. */
  lemma GradientColorInSegment(t: GradientTable, alpha: real, i: nat)
    requires 1 <= i && IsFirstMatch(t, alpha, i)
    ensures UniformOffset(t, i - 1) < alpha <= UniformOffset(t, i)
    ensures GradientColor(t, alpha)
         == Some(MixColor(UniformColor(t, i - 1), UniformColor(t, i),
                          Remap(UniformOffset(t, i - 1), UniformOffset(t, i), alpha)))
  {
    FirstMatchCharacterised(t, alpha, i);
  }

  /** The mix factor of a matched segment lies in (0, 1]. */
  lemma SegmentFactorInUnitRange(t: GradientTable, alpha: real, i: nat)
    requires 1 <= i && IsFirstMatch(t, alpha, i)
    ensures var f := Remap(UniformOffset(t, i - 1), UniformOffset(t, i), alpha); 0.0 < f <= 1.0
  {
    var lo, hi := UniformOffset(t, i - 1), UniformOffset(t, i);
    assert lo < alpha <= hi;
    var d, n := hi - lo, alpha - lo;
    assert 0.0 < n <= d;
    var f := n / d;
    assert f == Remap(lo, hi, alpha);
    QuotientInUnitRange(n, d);
  }

  /** n / d lies in (0, 1] when 0 < n <= d. */
  lemma QuotientInUnitRange(n: real, d: real)
    requires 0.0 < n <= d
    ensures 0.0 < n / d <= 1.0
  {
  }

  lemma {:induction false} FirstMatchAgrees(t1: GradientTable, t2: GradientTable, alpha: real, from: nat)
    requires from <= StopsConsulted
    requires forall i :: 0 <= i < StopsConsulted ==> UniformOffset(t1, i) == UniformOffset(t2, i)
    decreases StopsConsulted - from
    ensures FirstMatch(t1, alpha, from) == FirstMatch(t2, alpha, from)
  {
    if from < StopsConsulted {
      FirstMatchAgrees(t1, t2, alpha, from + 1);
    }
  }

  /** Stops at index 10 and beyond are never consulted: two tables that agree
      on their first ten stops give the same colour for every alpha. */
  lemma TenStopsOnly(t1: GradientTable, t2: GradientTable, alpha: real)
    requires forall i :: 0 <= i < StopsConsulted ==> UniformOffset(t1, i) == UniformOffset(t2, i)
    requires forall i :: 0 <= i < StopsConsulted ==> UniformColor(t1, i) == UniformColor(t2, i)
    ensures GradientColor(t1, alpha) == GradientColor(t2, alpha)
  {
    FirstMatchAgrees(t1, t2, alpha, 0);
  }

  /** A positive alpha never matches a stop that was not uploaded (those read
      as offset 0), so fewer than ten stops are handled correctly. */
  lemma MatchIsAnUploadedStop(t: GradientTable, alpha: real)
    requires alpha > 0.0
    ensures FirstMatch(t, alpha, 0).Some? ==> FirstMatch(t, alpha, 0).value < |t.offset|
  {
  }

  /** The opacity adjustment: `a - (1 - opacity)`, raised to 0 when negative;
      red, green and blue pass through. */
  function Attenuate(c: Rgba, opacity: real): (r: Rgba)
    ensures r.r == c.r && r.g == c.g && r.b == c.b
    ensures r.a >= 0.0 && r.a >= c.a - (1.0 - opacity)
    ensures r.a == 0.0 || r.a == c.a - (1.0 - opacity)
  {
    var a := c.a - (1.0 - opacity);
    c.(a := if a < 0.0 then 0.0 else a)
  }

  /** Full opacity leaves a colour with non-negative alpha unchanged; lower
      opacity never raises alpha. */
  lemma AttenuateBounds(c: Rgba, opacity: real)
    requires c.a >= 0.0
    ensures opacity == 1.0 ==> Attenuate(c, opacity) == c
    ensures opacity <= 1.0 ==> 0.0 <= Attenuate(c, opacity).a <= c.a
  {
  }

  /** The compositing fragment shader (ColorfragmentShader) for the accumulated
      alpha under it. */
  function CompositeFragment(t: GradientTable, alpha: real, opacity: real): (r: Option<Rgba>)
    ensures r.Some? <==> 0.0 < alpha <= 1.0
    ensures r.Some? && GradientColor(t, alpha).None? ==>
              r.value.r == 0.0 && r.value.g == 0.0 && r.value.b == 0.0
              && r.value.a == (if opacity > 1.0 then opacity - 1.0 else 0.0)
    ensures r.Some? && GradientColor(t, alpha).Some? ==>
              var c := GradientColor(t, alpha).value;
              && r.value.r == c.r && r.value.g == c.g && r.value.b == c.b
              && r.value.a == (if c.a - (1.0 - opacity) < 0.0 then 0.0 else c.a - (1.0 - opacity))
  {
    if 0.0 < alpha <= 1.0 then
      var color := match GradientColor(t, alpha) case Some(c) => c case None => Transparent;
      Some(Attenuate(color, opacity))
    else
      None
  }

  /** A table whose colours all lie in [0, 1] composites, at opacity in
      [0, 1], to colours in [0, 1]. */
  lemma CompositeInUnitRange(t: GradientTable, alpha: real, opacity: real)
    requires forall i :: 0 <= i < StopsConsulted ==> InUnitCube(UniformColor(t, i))
    requires 0.0 <= opacity <= 1.0
    ensures CompositeFragment(t, alpha, opacity).Some? ==> InUnitCube(CompositeFragment(t, alpha, opacity).value)
  {
    if 0.0 < alpha <= 1.0 {
      var m := FirstMatch(t, alpha, 0);
      if m.Some? {
        var i := m.value;
        FirstMatchCharacterised(t, alpha, i);
        if i > 0 {
          SegmentFactorInUnitRange(t, alpha, i);
          GradientColorInSegment(t, alpha, i);
          MixColorInUnitCube(UniformColor(t, i - 1), UniformColor(t, i),
                             Remap(UniformOffset(t, i - 1), UniformOffset(t, i), alpha));
        }
      }
    }
  }

  ghost predicate InUnitCube(c: Rgba) {
    0.0 <= c.r <= 1.0 && 0.0 <= c.g <= 1.0 && 0.0 <= c.b <= 1.0 && 0.0 <= c.a <= 1.0
  }

  lemma MulNonneg(x: real, y: real)
    requires x >= 0.0 && y >= 0.0
    ensures x * y >= 0.0
  {
  }

  /** mix stays between its two ends for a factor in [0, 1]. */
  lemma MixBetween(x: real, y: real, a: real, lo: real, hi: real)
    requires 0.0 <= a <= 1.0 && lo <= x <= hi && lo <= y <= hi
    ensures lo <= Mix(x, y, a) <= hi
  {
    MulNonneg(x - lo, 1.0 - a);
    MulNonneg(y - lo, a);
    MulNonneg(hi - x, 1.0 - a);
    MulNonneg(hi - y, a);
  }

  lemma MixColorInUnitCube(x: Rgba, y: Rgba, a: real)
    requires InUnitCube(x) && InUnitCube(y) && 0.0 <= a <= 1.0
    ensures InUnitCube(MixColor(x, y, a))
  {
    MixBetween(x.r, y.r, a, 0.0, 1.0);
    MixBetween(x.g, y.g, a, 0.0, 1.0);
    MixBetween(x.b, y.b, a, 0.0, 1.0);
    MixBetween(x.a, y.a, a, 0.0, 1.0);
  }

  lemma MixSame(c: Rgba, a: real)
    ensures MixColor(c, c, a) == c
  {
    assert c.r * (1.0 - a) + c.r * a == c.r;
    assert c.g * (1.0 - a) + c.g * a == c.g;
    assert c.b * (1.0 - a) + c.b * a == c.b;
    assert c.a * (1.0 - a) + c.a * a == c.a;
  }

  /** The second pair of `mix` calls of a rectangle fragment shader:
      left and right edges along t, then across along s. */
  function Bilinear(tl: Rgba, tr: Rgba, bl: Rgba, br: Rgba, s: real, tt: real): (r: Rgba)
    ensures s == 0.0 && tt == 0.0 ==> r == bl
    ensures s == 0.0 && tt == 1.0 ==> r == tl
    ensures s == 1.0 && tt == 0.0 ==> r == br
    ensures s == 1.0 && tt == 1.0 ==> r == tr
  {
    MixColor(MixColor(bl, tl, tt), MixColor(br, tr, tt), s)
  }

  /** `v_offset = a_value / u_max` of the rectangle vertex shader: a value
      equal to a non-zero max reaches the top of the gradient, an infinite
      max flattens every value to 0, and a NaN max gives NaN. */
  function VOffset(value: real, uMax: Number): (r: Number)
    ensures value != 0.0 && uMax == Finite(value) ==> r == Finite(1.0)
    ensures uMax.PosInfinity? || uMax.NegInfinity? ==> r == Finite(0.0)
    ensures uMax.NaN? ==> r.NaN?
  {
    assert value != 0.0 ==> value / value == 1.0;
    Div(value, uMax)
  }

  /** The colour the bundle's rectangle shader gives all four corners: the
      gradient colour for 0 < v_offset <= 1, opaque black when none of the
      first ten stops matches; `None` when v_offset is outside (0, 1] and the
      corners are never assigned. */
  function RectangleCorner(t: GradientTable, vOffset: Number): (r: Option<Rgba>)
    ensures r.Some? <==> vOffset.Finite? && 0.0 < vOffset.v <= 1.0
    ensures r.Some? && GradientColor(t, vOffset.v).None? ==> r.value == OpaqueBlack
    ensures r.Some? && GradientColor(t, vOffset.v).Some? ==> r == GradientColor(t, vOffset.v)
  {
    if vOffset.Finite? && 0.0 < vOffset.v <= 1.0 then
      match GradientColor(t, vOffset.v)
      case Some(c) => Some(c)
      case None => Some(OpaqueBlack)
    else
      None
  }

  /** The bundle's rectangle fragment shader at texture coordinate (s, tt):
      since the four corners are equal, the fragment is the corner colour
      wherever it lies in the rectangle. */
  function BundleRectangleFragment(t: GradientTable, vOffset: Number, s: real, tt: real): (r: Option<Rgba>)
    ensures r == RectangleCorner(t, vOffset)
  {
    match RectangleCorner(t, vOffset)
    case None => None
    case Some(c) =>
      MixSame(c, tt);
      MixSame(c, s);
      Some(Bilinear(c, c, c, c, s, tt))
  }

  /** With the default max (Infinity) every value maps to v_offset 0, for
      which the rectangle shader assigns no corner colour. */
  lemma DefaultMaxGivesNoCornerColour(t: GradientTable, value: real)
    ensures VOffset(value, PosInfinity) == Finite(0.0)
    ensures RectangleCorner(t, VOffset(value, PosInfinity)).None?
  {
  }

  /** An RGB colour (a vec3 uniform). */
  datatype Rgb = Rgb(r: real, g: real, b: real)

  /** The corner colours main.js uploads as the `tl`, `tr`, `bl`, `br` uniforms. */
  const TopLeft := Rgb(254.0 / 255.0, 217.0 / 255.0, 138.0 / 255.0)
  const TopRight := Rgb(252.0 / 255.0, 252.0 / 255.0, 252.0 / 255.0)
  const BottomLeft := Rgb(18.0 / 255.0, 139.0 / 255.0, 184.0 / 255.0)
  const BottomRight := Rgb(203.0 / 255.0, 79.0 / 255.0, 121.0 / 255.0)

  function Opaque(c: Rgb): Rgba {
    Rgba(c.r, c.g, c.b, 1.0)
  }

  /** main.js's rectangle fragment shader: a bilinear wash of four fixed
      corner colours, always opaque. At the texture corners it is exactly the
      corresponding corner colour. */
  function CornerWash(tl: Rgb, tr: Rgb, bl: Rgb, br: Rgb, s: real, tt: real): (c: Rgba)
    ensures c.a == 1.0
    ensures s == 0.0 && tt == 0.0 ==> c == Opaque(bl)
    ensures s == 0.0 && tt == 1.0 ==> c == Opaque(tl)
    ensures s == 1.0 && tt == 0.0 ==> c == Opaque(br)
    ensures s == 1.0 && tt == 1.0 ==> c == Opaque(tr)
  {
    var l := MixColor(Opaque(bl), Opaque(tl), tt);
    var r := MixColor(Opaque(br), Opaque(tr), tt);
    var m := MixColor(l, r, s);
    Rgba(m.r, m.g, m.b, 1.0)
  }

  /** Inside the unit square the wash of main.js's corner colours stays a
      valid colour. */
  lemma CornerWashInUnitCube(s: real, tt: real)
    requires 0.0 <= s <= 1.0 && 0.0 <= tt <= 1.0
    ensures InUnitCube(CornerWash(TopLeft, TopRight, BottomLeft, BottomRight, s, tt))
  {
    var l := MixColor(Opaque(BottomLeft), Opaque(TopLeft), tt);
    var r := MixColor(Opaque(BottomRight), Opaque(TopRight), tt);
    MixColorInUnitCube(Opaque(BottomLeft), Opaque(TopLeft), tt);
    MixColorInUnitCube(Opaque(BottomRight), Opaque(TopRight), tt);
    MixColorInUnitCube(l, r, s);
  }

  /** `r = dot(cxy, cxy)` for `cxy = 2 * gl_PointCoord - 1`: the squared
      distance from the splat centre, 1 on the inscribed circle. */
  function SplatRadius(pointCoordX: real, pointCoordY: real): (r: real)
    ensures r >= 0.0
    ensures pointCoordX == 0.5 && pointCoordY == 0.5 ==> r == 0.0
    ensures pointCoordX == 0.0 && pointCoordY == 0.5 ==> r == 1.0
  {
    var cx := 2.0 * pointCoordX - 1.0;
    var cy := 2.0 * pointCoordY - 1.0;
    SquareFacts(cx);
    SquareFacts(cy);
    cx * cx + cy * cy
  }

  /** A square is non-negative. */
  lemma SquareFacts(x: real)
    ensures x * x >= 0.0
  {
    if x < 0.0 {
      var y := -x;
      assert y * y > 0.0;
      assert x * x == y * y;
    }
  }

  /** The accumulation fragment shader (GradfragmentShader): inside the unit
      disk it writes alpha `(v_i / u_max) * u_blur * (1 - sqrt(r))`; outside
      it writes nothing. `sqrt` is the GPU's square root, left abstract. */
  function SplatFragment(pointCoordX: real, pointCoordY: real, vI: real, uMax: Number, uBlur: real,
                         sqrt: real -> real): (r: Option<Number>)
    ensures r.Some? <==> SplatRadius(pointCoordX, pointCoordY) <= 1.0
  {
    var rr := SplatRadius(pointCoordX, pointCoordY);
    if rr <= 1.0 then Some(Scale(Scale(Div(vI, uMax), uBlur), 1.0 - sqrt(rr))) else None
  }

  /** At the splat centre the alpha is (v / max) * blur. */
  lemma SplatAtCentre(vI: real, uMax: real, uBlur: real, sqrt: real -> real)
    requires uMax != 0.0 && sqrt(0.0) == 0.0
    ensures SplatFragment(0.5, 0.5, vI, Finite(uMax), uBlur, sqrt) == Some(Finite(vI / uMax * uBlur))
  {
    assert SplatRadius(0.5, 0.5) == 0.0;
    var q := Div(vI, Finite(uMax));
    assert q == Finite(vI / uMax);
    var w := Scale(q, uBlur);
    assert w == Finite(vI / uMax * uBlur);
    assert Scale(w, 1.0 - sqrt(0.0)) == Finite(vI / uMax * uBlur * 1.0);
  }

  /** A point whose value equals max contributes exactly `blur` at its centre. */
  lemma SplatValueAtMax(max: real, uBlur: real, sqrt: real -> real)
    requires max != 0.0 && sqrt(0.0) == 0.0
    ensures SplatFragment(0.5, 0.5, max, Finite(max), uBlur, sqrt) == Some(Finite(uBlur))
  {
    SplatAtCentre(max, max, uBlur, sqrt);
    assert max / max == 1.0;
    assert max / max * uBlur == uBlur;
    assert Finite(max / max * uBlur) == Finite(uBlur);
  }

  /** With a finite non-zero max, a square root mapping [0, 1] into [0, 1] and
      a non-negative weight (v / max) * blur, every written alpha lies between
      0 and that weight. */
  lemma SplatAlphaBounded(pointCoordX: real, pointCoordY: real, vI: real, uMax: real, uBlur: real,
                          sqrt: real -> real)
    requires uMax != 0.0 && vI / uMax * uBlur >= 0.0
    requires forall x :: 0.0 <= x <= 1.0 ==> 0.0 <= sqrt(x) <= 1.0
    ensures var r := SplatFragment(pointCoordX, pointCoordY, vI, Finite(uMax), uBlur, sqrt);
            r.Some? ==> r.value.Finite? && 0.0 <= r.value.v <= vI / uMax * uBlur
  {
    var rr := SplatRadius(pointCoordX, pointCoordY);
    var cx := 2.0 * pointCoordX - 1.0;
    var cy := 2.0 * pointCoordY - 1.0;
    assert cx * cx >= 0.0 && cy * cy >= 0.0;
    if rr <= 1.0 {
      assert 0.0 <= sqrt(rr) <= 1.0;
      var w := vI / uMax * uBlur;
      var k := 1.0 - sqrt(rr);
      assert 0.0 <= k <= 1.0;
      MulNonneg(w, k);
      MulNonneg(w, 1.0 - k);
    }
  }

  /** A NaN u_max (what an unset uniform value converts to) makes every
      written splat alpha NaN. */
  lemma SplatWithNaNMax(pointCoordX: real, pointCoordY: real, vI: real, uBlur: real, sqrt: real -> real)
    ensures var r := SplatFragment(pointCoordX, pointCoordY, vI, NaN, uBlur, sqrt);
            r.Some? ==> r.value.NaN?
  {
  }

  /** With u_max = Infinity every written splat alpha is 0. */
  lemma SplatWithInfiniteMax(pointCoordX: real, pointCoordY: real, vI: real, uBlur: real, sqrt: real -> real)
    ensures var r := SplatFragment(pointCoordX, pointCoordY, vI, PosInfinity, uBlur, sqrt);
            r.Some? ==> r.value == Finite(0.0)
  {
  }

  /** A two-stop black-to-white table, as gradientMapper builds it from
      `[{color: [0, 0, 0], offset: 0}, {color: [255, 255, 255], offset: 1}]`. */
  const BlackToWhite := GradientTable([0.0, 0.0, 0.0, 1.0, 1.0, 1.0, 1.0, 1.0], 2, [0.0, 1.0])

  /** On that table at full opacity: 1.0 composites to white, 0.5 to mid
      grey, and neither 0.0 nor 1.5 is written (alpha must lie in (0, 1]). */
  lemma BlackToWhiteLookups()
    ensures CompositeFragment(BlackToWhite, 1.0, 1.0) == Some(Rgba(1.0, 1.0, 1.0, 1.0))
    ensures CompositeFragment(BlackToWhite, 0.5, 1.0) == Some(Rgba(0.5, 0.5, 0.5, 1.0))
    ensures CompositeFragment(BlackToWhite, 0.0, 1.0) == None
    ensures CompositeFragment(BlackToWhite, 1.5, 1.0) == None
  {
    assert FirstMatch(BlackToWhite, 1.0, 0) == Some(1);
    assert FirstMatch(BlackToWhite, 0.5, 0) == Some(1);
  }
}
