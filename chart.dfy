/** The Chart object the Heatmap factory returns: its configuration
    defaults, the validated setters, addData / renderData, and the render
    dispatch on the heatmap type. One class serves both builds; `build`
    says whether it is main.js or the dist/ bundle (the ES5 transpilation
    behaves as the bundle). What render hands to the GPU is recorded in the
    ghost field `lastFrame`. */
module HeatmapChart {
  import opened Js
  import opened Gradient
  import opened Geometry
  import opened Transform

  datatype Build = MainJs | Bundle

  const Horizontal: string := "horizontal"
  const Circle: string := "circle"

  /** The packing each build's extractData uses. */
  function LayoutOf(build: Build): Layout {
    if build == MainJs then RectangleStrip else TriangleQuads
  }

  /** The configuration fields the constructor reads; `None` is an absent
      (undefined) field. */
  datatype Config = Config(
    chartType: Option<string>,
    gradient: seq<ColorStop>,
    size: Option<Number>,
    max: Option<Number>,
    blur: Option<Number>,
    translate: Option<seq<Number>>,
    zoom: Option<Number>,
    rotationAngle: Option<Number>,
    opacity: Option<Number>)

  /** `config.field ? config.field : default`: a falsy or absent field (0,
      NaN, undefined) gives the default. */
  function Configured(field: Option<Number>, default: Number): (r: Number)
    ensures r == default || (field.Some? && r == field.value)
    ensures r != default ==> Truthy(r)
    ensures field.None? || !Truthy(field.value) ==> r == default
    ensures field.Some? && Truthy(field.value) ==> r == field.value
  {
    if field.Some? && Truthy(field.value) then field.value else default
  }

  /** The translate default: the configured array when it has exactly two
      entries, `[0, 0]` otherwise. */
  function ConfiguredTranslate(t: Option<seq<Number>>): (r: (Number, Number))
    ensures t.Some? && |t.value| == 2 ==> r == (t.value[0], t.value[1])
    ensures !(t.Some? && |t.value| == 2) ==> r == (Finite(0.0), Finite(0.0))
  {
    if t.Some? && |t.value| == 2 then (t.value[0], t.value[1]) else (Finite(0.0), Finite(0.0))
  }

  /** `this.zoom ? this.zoom : 0.01`, the zoom uploaded to the splat vertex
      shader, which divides by it: the uploaded value is never 0 or NaN. */
  function ZoomUniform(zoom: Number): (r: Number)
    ensures Truthy(r)
    ensures Truthy(zoom) ==> r == zoom
    ensures !Truthy(zoom) ==> r == Finite(0.01)
  {
    if Truthy(zoom) then zoom else Finite(0.01)
  }

  predicate KnownType(chartType: Option<string>) {
    chartType == Some(Horizontal) || chartType == Some(Circle)
  }

  /** How `render(exData)` completes; `hasData` is false while exData is
      still undefined (no renderData yet). main.js throws SyntaxError for an
      unknown type and a TypeError in circle mode (its extractData returns
      no `posVec`); both builds throw a TypeError when a known type is
      rendered without data; the bundle silently draws nothing for an
      unknown type. */
  function RenderOutcome(build: Build, chartType: Option<string>, hasData: bool): (r: Outcome)
    ensures r != Threw(ReferenceError)
    ensures r == Threw(SyntaxError) <==> build == MainJs && !KnownType(chartType)
    ensures r == Threw(TypeError) <==>
      (build == MainJs && chartType == Some(Circle)) || (KnownType(chartType) && !hasData)
    ensures r == Done <==>
      (build == Bundle && (hasData || !KnownType(chartType))) || (chartType == Some(Horizontal) && hasData)
  {
    assert Horizontal[0] != Circle[0];
    if build == MainJs then
      if chartType == Some(Horizontal) then (if hasData then Done else Threw(TypeError))
      else if chartType == Some(Circle) then Threw(TypeError)
      else Threw(SyntaxError)
    else if KnownType(chartType) && !hasData then Threw(TypeError)
    else assert build == Bundle; Done
  }

  /** What the last render left on the canvas: nothing yet, a cleared
      canvas, the horizontal rectangles or the circle splats with the
      inputs uploaded for them, or the exception that cut it short. */
  datatype Frame =
    | NoFrame
    | Blank
    | Rectangles(positions: seq<real>, values: seq<real>, sizes: seq<real>,
                 gradient: GradientTable, uMax: Number)
    | Splats(pointCount: nat, positions: seq<real>, values: seq<real>,
             uZoom: Number, uMax: Number, uSize: Number, uBlur: Number, uAngle: Number,
             uTranslate: (Number, Number), uDensity: real, uOpacity: Number, gradient: GradientTable)
    | Failed(error: ErrorKind)

  /** The chart's settings, the fields the setters and resize assign. */
  datatype Settings = Settings(
    width: real, height: real, size: Number, max: Number, blur: Number,
    translate: (Number, Number), zoom: Number, angle: Number, opacity: Number)

  /** Each added point after addData: transformed by the current view when
      the flag is set, as is otherwise. */
  function Added(data: seq<DataPoint>, transform: bool, v: View, c: real, s: real): (r: seq<DataPoint>)
    requires transform ==> Proper(v)
    ensures |r| == |data|
    ensures forall i :: 0 <= i < |data| ==>
      r[i] == if transform then data[i].(x := ViewX(data[i].x, data[i].y, v, c, s), y := ViewY(data[i].x, data[i].y, v, c, s))
              else data[i]
  {
    if data == [] then []
    else
      var p := if transform then data[0].(x := ViewX(data[0].x, data[0].y, v, c, s), y := ViewY(data[0].x, data[0].y, v, c, s))
               else data[0];
      [p] + Added(data[1..], transform, v, c, s)
  }

  class Chart {
    const build: Build
    const chartType: Option<string>
    const ratio: real
    const gradient: GradientTable
    var width: real
    var height: real
    var size: Number
    var max: Number
    var blur: Number
    var translate: (Number, Number)
    var zoom: Number
    var angle: Number
    var opacity: Number
    var rawData: seq<DataPoint>
    /** Whether `this.exData` holds an extractData result (false while undefined). */
    var exData: bool
    /** The closure state of extractData (pLen and the typed arrays). */
    const packer: Packer
    ghost var lastFrame: Frame

    ghost function Current(): Settings
      reads this
    {
      Settings(width, height, size, max, blur, translate, zoom, angle, opacity)
    }

    /** The packer is well formed and packs the way this build does. */
    ghost predicate Structure()
      reads this, packer
    {
      packer.Valid() && packer.layout == LayoutOf(build)
    }

    /** Once data has been rendered, the held arrays are the packed form of
        `rawData`. */
    ghost predicate Valid()
      reads this, packer, packer.positions, packer.values, packer.sizes
    {
      && Structure()
      && (exData ==>
            && packer.pLen == |rawData|
            && packer.positions[..] == PackedPositions(packer.layout, rawData)
            && packer.values[..] == PackedValues(rawData)
            && packer.sizes[..] == PackedSizes(packer.layout, rawData))
    }

    /** What render hands to the GPU in the current state. */
    ghost function Snapshot(): Frame
      reads this, packer, packer.positions, packer.values, packer.sizes
    {
      match RenderOutcome(build, chartType, exData)
      case Threw(e) => Failed(e)
      case Done =>
        if chartType == Some(Horizontal) then
          Rectangles(packer.positions[..], packer.values[..], packer.sizes[..], gradient, max)
        else if chartType == Some(Circle) then
          Splats(packer.positions.Length / 2, packer.positions[..], packer.values[..],
                 ZoomUniform(zoom), NaN, size, blur, angle, translate, ratio, opacity, gradient)
        else
          Blank
    }

    /** Chart(containerElementSelector, config), with the container's size
        and the device pixel ratio as parameters. */
    constructor (build: Build, config: Config, clientWidth: real, clientHeight: real, ratio: real)
      ensures this.build == build && chartType == config.chartType && this.ratio == ratio
      ensures Describes(gradient, config.gradient)
      ensures Current() == Settings(
        clientWidth * ratio, clientHeight * ratio,
        Configured(config.size, Finite(20.0)),
        Configured(config.max, PosInfinity),
        Configured(config.blur, Finite(1.0)),
        ConfiguredTranslate(config.translate),
        Configured(config.zoom, Finite(1.0)),
        Configured(config.rotationAngle, Finite(0.0)),
        Configured(config.opacity, Finite(1.0)))
      ensures rawData == [] && !exData && lastFrame == NoFrame
      ensures fresh(packer) && packer.pLen == 0
      ensures Valid()
    {
      var table := GradientMapper(config.gradient);
      var p := new Packer(LayoutOf(build));
      this.build := build;
      chartType := config.chartType;
      this.ratio := ratio;
      width := clientWidth * ratio;
      height := clientHeight * ratio;
      gradient := table;
      size := Configured(config.size, Finite(20.0));
      max := Configured(config.max, PosInfinity);
      blur := Configured(config.blur, Finite(1.0));
      translate := ConfiguredTranslate(config.translate);
      zoom := Configured(config.zoom, Finite(1.0));
      angle := Configured(config.rotationAngle, Finite(0.0));
      opacity := Configured(config.opacity, Finite(1.0));
      rawData := [];
      exData := false;
      packer := p;
      lastFrame := NoFrame;
    }

    /** render(this.exData): clear, then dispatch on the heatmap type. */
    method Render() returns (outcome: Outcome)
      requires Valid()
      modifies this
      ensures Valid()
      ensures Current() == old(Current()) && rawData == old(rawData) && exData == old(exData)
      ensures outcome == RenderOutcome(build, chartType, exData)
      ensures lastFrame == Snapshot()
    {
      var rectangles := Rectangles(packer.positions[..], packer.values[..], packer.sizes[..], gradient, max);
      if build == MainJs {
        if chartType == Some(Horizontal) {
          // exData.posVec on an undefined exData throws
          outcome := if exData then Done else Threw(TypeError);
          lastFrame := rectangles;
        } else if chartType == Some(Circle) {
          // exData.posVec is read first, then exData.posVec.length: one of them throws
          outcome := Threw(TypeError);
        } else {
          outcome := Threw(SyntaxError);
        }
      } else {
        outcome := Done;
        lastFrame := Blank;
        if chartType == Some(Horizontal) {
          outcome := if exData then Done else Threw(TypeError);
          lastFrame := rectangles;
        }
        if chartType == Some(Circle) {
          outcome := if exData then Done else Threw(TypeError);
          // this.maxValue is never assigned: uniform1f(u_max, undefined) uploads NaN
          lastFrame := Splats(packer.positions.Length / 2, packer.positions[..], packer.values[..],
                              ZoomUniform(zoom), NaN, size, blur, angle, translate, ratio, opacity, gradient);
        }
      }
      if outcome.Threw? {
        lastFrame := Failed(outcome.error);
      }
    }

    /** resize: take the container's new size (times the pixel ratio) and
        re-render. */
    method Resize(clientWidth: real, clientHeight: real) returns (outcome: Outcome)
      requires Valid()
      modifies this
      ensures Valid()
      ensures Current() == old(Current()).(width := clientWidth * ratio, height := clientHeight * ratio)
      ensures rawData == old(rawData) && exData == old(exData)
      ensures outcome == RenderOutcome(build, chartType, exData) && lastFrame == Snapshot()
    {
      width := clientWidth * ratio;
      height := clientHeight * ratio;
      outcome := Render();
    }

    /** clear: wipe the canvas; no state changes. */
    method Clear()
      requires Valid()
      modifies this
      ensures Valid()
      ensures Current() == old(Current()) && rawData == old(rawData) && exData == old(exData)
      ensures lastFrame == Blank
    {
      lastFrame := Blank;
    }

    /** setMax: validate, assign, re-render. A rejected argument throws
        before anything changes. */
    method SetMax(param: Value) returns (outcome: Outcome)
      requires Valid()
      modifies this
      ensures Valid() && rawData == old(rawData) && exData == old(exData)
      ensures CheckNumberParameter(param).Threw? ==>
        outcome == CheckNumberParameter(param) && Current() == old(Current()) && lastFrame == old(lastFrame)
      ensures param.Num? ==>
        Current() == old(Current()).(max := param.n)
        && outcome == RenderOutcome(build, chartType, exData) && lastFrame == Snapshot()
    {
      outcome := CheckNumberParameter(param);
      if outcome.Threw? {
        return;
      }
      max := param.n;
      outcome := Render();
    }

    /** setTranslate: an array of exactly two numbers is stored, anything
        else throws a TypeError before anything changes. */
    method SetTranslate(param: Value) returns (outcome: Outcome)
      requires Valid()
      modifies this
      ensures Valid() && rawData == old(rawData) && exData == old(exData)
      ensures TranslatePair(param).None? ==>
        outcome == Threw(TypeError) && Current() == old(Current()) && lastFrame == old(lastFrame)
      ensures TranslatePair(param).Some? ==>
        Current() == old(Current()).(translate := TranslatePair(param).value)
        && outcome == RenderOutcome(build, chartType, exData) && lastFrame == Snapshot()
    {
      var pair := TranslatePair(param);
      if pair.None? {
        return Threw(TypeError);
      }
      translate := pair.value;
      outcome := Render();
    }

    method SetZoom(param: Value) returns (outcome: Outcome)
      requires Valid()
      modifies this
      ensures Valid() && rawData == old(rawData) && exData == old(exData)
      ensures CheckNumberParameter(param).Threw? ==>
        outcome == CheckNumberParameter(param) && Current() == old(Current()) && lastFrame == old(lastFrame)
      ensures param.Num? ==>
        Current() == old(Current()).(zoom := param.n)
        && outcome == RenderOutcome(build, chartType, exData) && lastFrame == Snapshot()
    {
      outcome := CheckNumberParameter(param);
      if outcome.Threw? {
        return;
      }
      zoom := param.n;
      outcome := Render();
    }

    method SetRotationAngle(param: Value) returns (outcome: Outcome)
      requires Valid()
      modifies this
      ensures Valid() && rawData == old(rawData) && exData == old(exData)
      ensures CheckNumberParameter(param).Threw? ==>
        outcome == CheckNumberParameter(param) && Current() == old(Current()) && lastFrame == old(lastFrame)
      ensures param.Num? ==>
        Current() == old(Current()).(angle := param.n)
        && outcome == RenderOutcome(build, chartType, exData) && lastFrame == Snapshot()
    {
      outcome := CheckNumberParameter(param);
      if outcome.Threw? {
        return;
      }
      angle := param.n;
      outcome := Render();
    }

    method SetSize(param: Value) returns (outcome: Outcome)
      requires Valid()
      modifies this
      ensures Valid() && rawData == old(rawData) && exData == old(exData)
      ensures CheckNumberParameter(param).Threw? ==>
        outcome == CheckNumberParameter(param) && Current() == old(Current()) && lastFrame == old(lastFrame)
      ensures param.Num? ==>
        Current() == old(Current()).(size := param.n)
        && outcome == RenderOutcome(build, chartType, exData) && lastFrame == Snapshot()
    {
      outcome := CheckNumberParameter(param);
      if outcome.Threw? {
        return;
      }
      size := param.n;
      outcome := Render();
    }

    method SetBlur(param: Value) returns (outcome: Outcome)
      requires Valid()
      modifies this
      ensures Valid() && rawData == old(rawData) && exData == old(exData)
      ensures CheckNumberParameter(param).Threw? ==>
        outcome == CheckNumberParameter(param) && Current() == old(Current()) && lastFrame == old(lastFrame)
      ensures param.Num? ==>
        Current() == old(Current()).(blur := param.n)
        && outcome == RenderOutcome(build, chartType, exData) && lastFrame == Snapshot()
    {
      outcome := CheckNumberParameter(param);
      if outcome.Threw? {
        return;
      }
      blur := param.n;
      outcome := Render();
    }

    /** setOpacity: its `opacity !== undefined ? opacity : 1.0` fallback is
        unreachable, undefined having thrown already. */
    method SetOpacity(param: Value) returns (outcome: Outcome)
      requires Valid()
      modifies this
      ensures Valid() && rawData == old(rawData) && exData == old(exData)
      ensures CheckNumberParameter(param).Threw? ==>
        outcome == CheckNumberParameter(param) && Current() == old(Current()) && lastFrame == old(lastFrame)
      ensures param.Num? ==>
        Current() == old(Current()).(opacity := param.n)
        && outcome == RenderOutcome(build, chartType, exData) && lastFrame == Snapshot()
    {
      outcome := CheckNumberParameter(param);
      if outcome.Threw? {
        return;
      }
      opacity := param.n;
      outcome := Render();
    }

    /** The transform's view of the chart, when its zoom, angle and
        translation are finite. */
    predicate Transformable()
      reads this
    {
      zoom.Finite? && angle.Finite? && translate.0.Finite? && translate.1.Finite?
      && Proper(View(width, height, ratio, 0.0, 0.0, 0.0, 0.0))
    }

    function CurrentView(): (v: View)
      requires Transformable()
      reads this
      ensures Proper(v)
    {
      View(width, height, ratio, zoom.v, angle.v, translate.0.v, translate.1.v)
    }

    /** renderData: pack the points, hold them as rawData and render. The
        arrays are reused when the point count is unchanged. */
    method RenderData(data: seq<DataPoint>) returns (outcome: Outcome)
      requires Structure()
      modifies this, packer, packer.positions, packer.values, packer.sizes
      ensures Valid() && rawData == data && exData
      ensures Current() == old(Current())
      ensures old(packer.pLen) == |data| ==>
        packer.positions == old(packer.positions) && packer.values == old(packer.values) && packer.sizes == old(packer.sizes)
      ensures outcome == RenderOutcome(build, chartType, true) && lastFrame == Snapshot()
    {
      packer.Extract(data);
      rawData := data;
      exData := true;
      outcome := Render();
    }

    /** addData: push the points onto rawData in order, each transformed
        first when the flag is set, then renderData(rawData). `cos` and `sin`
        stand for Math.cos and Math.sin. */
    method AddData(data: seq<DataPoint>, transIntactFlag: bool, cos: real -> real, sin: real -> real)
      returns (outcome: Outcome)
      requires Valid()
      requires transIntactFlag ==> Transformable()
      modifies this, packer, packer.positions, packer.values, packer.sizes
      ensures Valid() && exData
      ensures Current() == old(Current())
      ensures transIntactFlag ==>
        rawData == old(rawData) + Added(data, true, old(CurrentView()), cos(old(angle).v), sin(old(angle).v))
      ensures !transIntactFlag ==> rawData == old(rawData) + data
      ensures outcome == RenderOutcome(build, chartType, true) && lastFrame == Snapshot()
    {
      ghost var v := if transIntactFlag then CurrentView() else View(1.0, 1.0, 1.0, 0.0, 0.0, 0.0, 0.0);
      ghost var c, s := if transIntactFlag then cos(angle.v) else 0.0, if transIntactFlag then sin(angle.v) else 0.0;
      var i := 0;
      while i < |data|
        invariant 0 <= i <= |data|
        invariant Structure() && Current() == old(Current())
        invariant packer.positions == old(packer.positions) && packer.values == old(packer.values)
        invariant packer.sizes == old(packer.sizes)
        invariant transIntactFlag ==> Transformable() && v == CurrentView()
        invariant rawData == old(rawData) + Added(data[..i], transIntactFlag, v, c, s)
      {
        var p := data[i];
        if transIntactFlag {
          p := TranslateAndZoom(p, CurrentView(), cos(angle.v), sin(angle.v));
        }
        assert data[..i + 1] == data[..i] + [data[i]];
        AddedAppend(data[..i], data[i], transIntactFlag, v, c, s);
        rawData := rawData + [p];
        i := i + 1;
      }
      assert data[..|data|] == data;
      if !transIntactFlag {
        AddedAsIs(data, v, c, s);
      }
      outcome := RenderData(rawData);
    }
  }

  lemma {:induction false} AddedAppend(data: seq<DataPoint>, p: DataPoint, transform: bool, v: View, c: real, s: real)
    requires transform ==> Proper(v)
    ensures Added(data + [p], transform, v, c, s) == Added(data, transform, v, c, s) + Added([p], transform, v, c, s)
  {
    var l, r := Added(data + [p], transform, v, c, s), Added(data, transform, v, c, s) + Added([p], transform, v, c, s);
    assert |l| == |r|;
    forall i | 0 <= i < |l|
      ensures l[i] == r[i]
    {
      if i < |data| {
        assert (data + [p])[i] == data[i];
      }
    }
  }

  /** Without the flag the points are added as given. */
  lemma AddedAsIs(data: seq<DataPoint>, v: View, c: real, s: real)
    ensures Added(data, false, v, c, s) == data
  {
  }

  /** Circle mode draws `posVec.length / 2` points: with the bundle's
      packing that is 6 per data point, one per quad vertex. */
  lemma CircleDrawsSixPerPoint(n: nat)
    ensures FloatsAllocated(LayoutOf(Bundle), n) / 2 == 6 * n
  {
  }

  /** The transform rewrites a point's x and y, but main.js packs
      `clipSpaceCoords` and `sizeValues`: its rectangles do not move. */
  lemma MainJsPackingIgnoresTransform(p: DataPoint, x: real, y: real)
    ensures Record(LayoutOf(MainJs), p.(x := x, y := y)) == Record(LayoutOf(MainJs), p)
  {
  }

  /** The bundle packs `xRange` as the horizontal centre, so the
      transformed x never moves a quad sideways; only y does. */
  lemma BundlePackingIgnoresTransformedX(p: DataPoint, x: real)
    ensures Record(LayoutOf(Bundle), p.(x := x)) == Record(LayoutOf(Bundle), p)
  {
  }
}
