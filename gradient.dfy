/** The gradient table: gradientMapper turns the configured colour stops into
    the flat arrays uploaded as the `u_colorArr` and `u_offset` uniforms, and
    the shaders read those uniforms back one stop at a time. */
module Gradient {
  import opened Js

  /** One configured stop, `{color: [r, g, b, a?], offset}`; a missing fourth
      colour entry (`color[3] === undefined`) is `alpha == None`. */
  datatype ColorStop = ColorStop(red: real, green: real, blue: real, alpha: Option<real>, offset: real)

  /** What gradientMapper returns: `value` holds 4 floats per stop,
      `length` the stop count and `offset` the stop offsets. */
  datatype GradientTable = GradientTable(value: seq<real>, length: nat, offset: seq<real>)

  /** An RGBA colour as the shaders see it (a vec4). */
  datatype Rgba = Rgba(r: real, g: real, b: real, a: real)

  const Transparent := Rgba(0.0, 0.0, 0.0, 0.0)
  const OpaqueBlack := Rgba(0.0, 0.0, 0.0, 1.0)

  /** The normalised colour of one stop: r, g, b divided by 255 and the alpha
      taken as is, 1.0 when it is missing. */
  function StopColor(s: ColorStop): Rgba {
    Rgba(s.red / 255.0, s.green / 255.0, s.blue / 255.0, s.alpha.GetOr(1.0))
  }

  /** The table `t` is the image of `stops` under gradientMapper. */
  ghost predicate Describes(t: GradientTable, stops: seq<ColorStop>) {
    && t.length == |stops|
    && |t.value| == 4 * |stops|
    && |t.offset| == |stops|
    && (forall k :: 0 <= k < |stops| ==> t.offset[k] == stops[k].offset)
    && (forall k :: 0 <= k < |stops| ==>
          && t.value[4 * k] == stops[k].red / 255.0
          && t.value[4 * k + 1] == stops[k].green / 255.0
          && t.value[4 * k + 2] == stops[k].blue / 255.0
          && t.value[4 * k + 3] == (if stops[k].alpha.None? then 1.0 else stops[k].alpha.value))
  }

  /** gradientMapper: one pass over the stops pushing r/255, g/255, b/255 and
      the alpha (1.0 when absent) onto `arr` and the offset onto `offSetsArray`. */
  method GradientMapper(stops: seq<ColorStop>) returns (t: GradientTable)
    ensures Describes(t, stops)
  {
    var arr: seq<real> := [];
    var offSetsArray: seq<real> := [];
    var i := 0;
    while i < |stops|
      invariant 0 <= i <= |stops|
      invariant |arr| == 4 * i && |offSetsArray| == i
      invariant forall k :: 0 <= k < i ==> offSetsArray[k] == stops[k].offset
      invariant forall k :: 0 <= k < i ==>
          && arr[4 * k] == stops[k].red / 255.0
          && arr[4 * k + 1] == stops[k].green / 255.0
          && arr[4 * k + 2] == stops[k].blue / 255.0
          && arr[4 * k + 3] == (if stops[k].alpha.None? then 1.0 else stops[k].alpha.value)
    {
      var gradientPoint := stops[i];
      var alpha := if gradientPoint.alpha.None? then 1.0 else gradientPoint.alpha.value;
      arr := arr + [gradientPoint.red / 255.0];
      arr := arr + [gradientPoint.green / 255.0];
      arr := arr + [gradientPoint.blue / 255.0];
      arr := arr + [alpha];
      offSetsArray := offSetsArray + [gradientPoint.offset];
      i := i + 1;
    }
    t := GradientTable(arr, |stops|, offSetsArray);
  }

  /** `u_offset[i]` after uploading `t.offset`: entries past the uploaded
      ones keep the value 0 every uniform starts with. */
  function UniformOffset(t: GradientTable, i: nat): real {
    if i < |t.offset| then t.offset[i] else 0.0
  }

  /** `u_colorArr[i]` after uploading `t.value` (4 floats per vec4); entries
      past the uploaded ones read as (0, 0, 0, 0). */
  function UniformColor(t: GradientTable, i: nat): Rgba {
    if 4 * i + 3 < |t.value| then
      Rgba(t.value[4 * i], t.value[4 * i + 1], t.value[4 * i + 2], t.value[4 * i + 3])
    else
      Transparent
  }

  /** Reading the uploaded table back gives each stop's normalised colour and
      offset, and zeros past the last stop. */
  lemma UniformsOfMappedTable(t: GradientTable, stops: seq<ColorStop>, i: nat)
    requires Describes(t, stops)
    ensures i < |stops| ==> UniformColor(t, i) == StopColor(stops[i]) && UniformOffset(t, i) == stops[i].offset
    ensures i >= |stops| ==> UniformColor(t, i) == Transparent && UniformOffset(t, i) == 0.0
  {
    if i < |stops| {
      assert t.value[4 * i + 3] == stops[i].alpha.GetOr(1.0);
    }
  }

  /** Channels of stops given in 0..255 (alpha in 0..1) normalise into [0, 1]. */
  lemma StopColorInUnitRange(s: ColorStop)
    requires 0.0 <= s.red <= 255.0 && 0.0 <= s.green <= 255.0 && 0.0 <= s.blue <= 255.0
    requires s.alpha.Some? ==> 0.0 <= s.alpha.value <= 1.0
    ensures var c := StopColor(s); 0.0 <= c.r <= 1.0 && 0.0 <= c.g <= 1.0 && 0.0 <= c.b <= 1.0 && 0.0 <= c.a <= 1.0
  {
  }
}
