# visual-heatmap, modelled in Dafny

visual-heatmap draws heatmaps with WebGL. It has two modes:

- **circle:** each data point is splatted as a blurred disk into an offscreen alpha texture. A second pass then colours that texture through a gradient.
- **horizontal:** each point becomes a rectangle, coloured by its value.

There are two builds. `main.js` is the development source. `dist/visualHeatmap.js` is the bundle, and `dist/visualHeatmap.legacy.js` is the bundle's ES5 transpilation. The two `dist/` files behave the same and share one model.

This project models the CPU-side state and data preparation, and the arithmetic of the fragment shaders:

- `js.dfy`: the few JavaScript notions needed:
  - numbers, including Infinity and NaN;
  - truthiness;
  - dynamically typed setter arguments;
  - the exceptions the setters and render throw;
  - `checkNumberParameter` and the translate check.
- `gradient.dfy`: `gradientMapper`, and how the shaders read the uploaded colour and offset uniforms back.
- `shaders.dfy`, one fragment at a time:
  - the compositing shader's first-match lookup over the first ten stops, and its opacity clamp;
  - the bundle's rectangle shader (lookup on value / max, opaque black when no stop matches);
  - main.js's four-corner colour wash;
  - the splat alpha of the accumulation pass.
- `geometry.dfy`: `extractData` as a class over three arrays. It reallocates only when the point count changes. There are two layouts:
  - main.js writes 9 floats per point into a buffer of 4 per point. Stores past the end are dropped, as a typed array drops them.
  - The bundle writes two triangles (12 floats) per point, centred with the hard-coded 550-pixel scale.
- `transform.dfy`: the coordinate transform addData applies when asked (`translateAndZoomCoordinates` in main.js, `transCoOr` in the bundle). It is a step-by-step method, proved equal to a closed form; lemmas cover identity, translation, zoom and rotation.
- `chart.dfy`: the `Chart` object as a class:
  - configuration defaults decided by truthiness;
  - setters that validate before they assign;
  - `addData` appending in order, `renderData`, `resize` and `clear`;
  - the render dispatch, with what each render hands to the GPU kept in a ghost `lastFrame`.

Where the two builds differ, the chart's `build` field selects the behaviour:

- **render dispatch:** main.js throws `SyntaxError` for an unknown type; the bundle silently draws nothing.
- **main.js circle mode** always throws `TypeError`, because its `extractData` no longer returns a `posVec`.
- **packing layout:** main.js uses the 9-float rectangle record, the bundle the 12-float triangles.

Code facts the model follows:

- **The lookup never writes a fragment whose alpha is 0.** At alpha 0 the compositing shader leaves the fragment unwritten, because its guard is `alpha > 0.0 && alpha <= 1.0`. It does not give stop 0's colour.
- **With no matching stop, the opacity clamp still applies.** The colour is (0, 0, 0, 0), so an opacity above 1 gives alpha `opacity - 1`, not 0.
- **Uniform entries past the uploaded stops read as 0.** So a configuration of fewer than ten stops never matches a missing one when alpha is positive.
- **The splat pass uploads `u_max` from `this.maxValue`.** That field is never assigned, so the upload carries NaN (the WebGL conversion of `undefined`), and every written splat alpha is NaN. The horizontal pass uploads `this.max`, whose default is Infinity. Under that default every `v_offset` is 0, so the bundle's rectangle shader never assigns a corner colour.
- **Render after a setter can throw after the assignment.** Before the first `renderData`, `this.exData` is undefined. The setters assign first and then call render. In a known mode render throws `TypeError`, but the new value has already been stored.
- **The transform never moves main.js rectangles.** It rewrites a point's `x` and `y`. But main.js packs `clipSpaceCoords`/`sizeValues`, and the bundle packs `xRange` as the horizontal centre.

## Model

The legacy build shares the bundle's model. These are its lines that the rows below also cover, in `dist/visualHeatmap.legacy.js`:

- the shader strings at lines 45 (accumulation), 51 (compositing), 59 (rectangle vertex) and 61 (rectangle fragment);
- `checkNumberParameter` at 17-23;
- `gradientMapper` at 83-110;
- `extractData` at 349-430;
- `Chart` at 432-497, its setters at 518-561, `addData` at 568-577, `renderData` at 579-585 and `render` at 587-689;
- `transCoOr` at 692-722.

Rows whose third cell starts with "definition" name a function without a contract of its own: what is proved about it is stated by the lemmas and methods that use it. `Geometry.Records`, `Geometry.SizeRecords`, `Geometry.PositionStream` and `Geometry.Concat` are flattening helpers; `Geometry.RecordInStream`, `Geometry.SizesInStream` and `Geometry.ConcatAt` state where each record lands.

| member | source | states |
|---|---|---|
| `Js.CheckNumberParameter` | main.js:9-15 | undefined throws ReferenceError, any other non-number throws TypeError, and every number (NaN and the infinities included) passes; each is stated as an if-and-only-if |
| `Js.TranslatePair` | main.js:784-791 | a value without holes is accepted exactly when it is an array of two numbers, and the accepted pair is those two numbers in order |
| `Js.Div` | dist/visualHeatmap.js:168 | IEEE division of a finite value: by a finite non-zero number it is the real quotient; by ±Infinity it is 0; it is NaN exactly for a NaN divisor or 0/0 |
| `Js.Scale` | main.js:73 | multiplying a finite number by k is the real product; NaN stays NaN |
| `Gradient.GradientMapper` | main.js:268-295 | the table built from n stops has length n, offset[k] = stops[k].offset, and value[4k..4k+3] = (r/255, g/255, b/255, alpha or 1.0 when it is absent) |
| `Gradient.UniformsOfMappedTable` | dist/visualHeatmap.js:246-273 | reading the uploaded table back gives stop i's normalised colour and offset for i < n, and zeros past the last stop |
| `Gradient.StopColorInUnitRange` | dist/visualHeatmap.legacy.js:83-110 | A stop whose red, green and blue lie in 0..255 and whose alpha, when given, lies in 0..1 has a normalised colour with all four channels in [0, 1]. |
| `Gradient.StopColor` | main.js:279-286 | definition: one stop's colour with red, green and blue divided by 255 and alpha taken as is, or 1.0 when the fourth entry is missing |
| `Gradient.UniformOffset` | main.js:1182 | definition: `u_offset[i]` after the upload, 0 past the uploaded offsets |
| `Gradient.UniformColor` | main.js:1180 | definition: `u_colorArr[i]` after the upload, (0, 0, 0, 0) past the uploaded colours |
| `Shaders.Mix` | main.js:114 | GLSL `mix`: it returns x at a = 0 and y at a = 1, and moves from x by a times (y - x) |
| `Shaders.MixColor` | dist/visualHeatmap.js:122 | `mix` on a vec4: the first colour at a = 0 and the second at a = 1 |
| `Shaders.Remap` | main.js:97-99 | `remap` is 0 at minval and 1 at maxval, and mixing minval and maxval by its result gives back curval, so it inverts `mix` |
| `Shaders.FirstMatch` | main.js:103-117 | the matchFound scan from index `from` returns the first index below 10 whose offset is at least alpha, and None exactly when no such index exists |
| `Shaders.GradientColor` | main.js:104-121 | a colour is found exactly when one of the first ten offsets is at least alpha; alpha <= offset[0] gives colour[0] |
| `Shaders.FirstMatchCharacterised` | dist/visualHeatmap.js:109-125 | the scan settles on i exactly when i is the first of the ten stops whose offset is at least alpha |
| `Shaders.GradientColorInSegment` | main.js:111-117 | past stop 0 the colour is mix(colour[i-1], colour[i], remap(off[i-1], off[i], alpha)) for the first match i, with off[i-1] < alpha <= off[i] |
| `Shaders.SegmentFactorInUnitRange` | main.js:97-99 | the remap factor of the matched segment lies in (0, 1] |
| `Shaders.FirstMatchAgrees` | main.js:111 | the scan depends only on the first ten offsets |
| `Shaders.TenStopsOnly` | dist/visualHeatmap.legacy.js:51 | tables that agree on their first ten stops give the same colour for every alpha: stops from index 10 on are never consulted |
| `Shaders.MatchIsAnUploadedStop` | main.js:106-117 | a positive alpha never matches a stop that was not uploaded |
| `Shaders.Attenuate` | main.js:123-129 | alpha becomes max(0, a - (1 - opacity)) and red, green and blue are unchanged |
| `Shaders.AttenuateBounds` | dist/visualHeatmap.js:131-136 | opacity 1 leaves a colour unchanged; an opacity of at most 1 never raises alpha |
| `Shaders.CompositeFragment` | main.js:101-131 | the fragment is written exactly when 0 < alpha <= 1; with no match it is (0, 0, 0, max(0, opacity - 1)); otherwise it is the lookup colour with the clamped alpha |
| `Shaders.CompositeInUnitRange` | dist/visualHeatmap.js:109-138 | a table of colours in [0, 1] at an opacity in [0, 1] composites to a colour in [0, 1] |
| `Shaders.BlackToWhiteLookups` | main.js:104-121 | on a black-to-white table, alpha 1 gives white and 0.5 mid grey; 0 and 1.5 write nothing |
| `Shaders.MixBetween` | main.js:114 | mix with a factor in [0, 1] stays between its two ends |
| `Shaders.MixColorInUnitCube` | dist/visualHeatmap.js:122 | mixing two colours in [0, 1] with a factor in [0, 1] gives a colour in [0, 1] |
| `Shaders.MixSame` | dist/visualHeatmap.js:222-224 | mixing a colour with itself gives that colour |
| `Shaders.VOffset` | dist/visualHeatmap.js:168 | `v_offset = a_value / u_max`: a value equal to a non-zero max gives 1, an infinite max gives 0, and a NaN max gives NaN |
| `Shaders.Bilinear` | dist/visualHeatmap.js:222-224 | the three mixes along t and then s give bl, tl, br and tr at texture coordinates (0,0), (0,1), (1,0) and (1,1) |
| `Shaders.RectangleCorner` | dist/visualHeatmap.js:193-221 | corners get a colour exactly when 0 < v_offset <= 1: the lookup colour, or opaque black when none of the first ten stops matches |
| `Shaders.BundleRectangleFragment` | dist/visualHeatmap.js:222-225 | the four corners being equal, every fragment of the rectangle equals the corner colour |
| `Shaders.DefaultMaxGivesNoCornerColour` | dist/visualHeatmap.legacy.js:59 | with max = Infinity, v_offset is 0 and no corner colour is assigned |
| `Shaders.CornerWash` | main.js:208-211 | main.js's rectangle fragment is opaque and equals its bl, tl, br, tr uniforms at texture coordinates (0,0), (0,1), (1,0), (1,1) |
| `Shaders.CornerWashInUnitCube` | main.js:1116-1119 | inside the unit square, the wash of the four fixed corner colours is a valid colour |
| `Shaders.SplatRadius` | main.js:70-71 | `r = dot(cxy, cxy)` is never negative; it is 0 at the point's centre and 1 at the middle of its left edge |
| `Shaders.SplatFragment` | main.js:68-74 | a splat fragment is written exactly when r = dot(2·pointCoord - 1) <= 1 |
| `Shaders.SplatAtCentre` | main.js:73 | at the centre the splat alpha is (v / max) · blur |
| `Shaders.SplatValueAtMax` | dist/visualHeatmap.js:81 | a point whose value equals max contributes exactly blur at its centre |
| `Shaders.SplatAlphaBounded` | dist/visualHeatmap.js:76-83 | with a finite non-zero max and a non-negative weight, every written alpha lies between 0 and (v / max) · blur |
| `Shaders.SplatWithNaNMax` | dist/visualHeatmap.js:810 | with the NaN u_max the splat pass uploads, every written alpha is NaN |
| `Shaders.SplatWithInfiniteMax` | dist/visualHeatmap.legacy.js:45 | with u_max = Infinity every written alpha is 0 |
| `Geometry.Packer.constructor` | main.js:530-546 | the closure starts with pLen = 0 and empty arrays |
| `Geometry.Packer.Extract` | main.js:565-678 | the arrays are reallocated (fresh) exactly when len differs from pLen, and kept otherwise; pLen becomes len; the arrays then equal the packed positions, the point values and the flattened sizes |
| `Geometry.Packer.Fill` | dist/visualHeatmap.js:529-585 | the write loop leaves the positions equal to the written stream cut to the allocated length, values[i] = value and the sizes in pairs |
| `Geometry.Packer.StorePoint` | dist/visualHeatmap.legacy.js:366-422 | one iteration writes point i's record at w·i .. w·i + w - 1 (each store dropped past the end), its value at i and its sizes at 2i, 2i + 1, and touches no other index |
| `Geometry.StoreFloat` | main.js:647 | a typed-array store writes in range and does nothing out of range |
| `Geometry.ConcatAt` | main.js:600-601 | element k of record m sits at w·m + k of the stream |
| `Geometry.ConcatLength` | main.js:600 | records of w floats flatten to w·n floats |
| `Geometry.PackedPositions` | main.js:587-591 | the position buffer has 4·len floats (main.js) or 12·len (bundle) |
| `Geometry.RectanglesKeptBelowCapacity` | main.js:645-659 | float k of point m's record (TL, BL, BR, TR, value) is kept exactly when 9m + k < 4·len, and then holds that float |
| `Geometry.RectanglesOverflow` | main.js:590-592 | with at least one point main.js writes 9·len floats into 4·len, so the last point's value is never stored |
| `Geometry.SingleRectangle` | main.js:646-651 | with one point only [x, y, x, y - sizeY] survives |
| `Geometry.QuadsAllStored` | dist/visualHeatmap.js:562-579 | every float of every quad is stored: point m's BL, BR, TL, TL, BR, TR at 12m .. 12m + 11 |
| `Geometry.SizesStored` | dist/visualHeatmap.js:583-584 | sizes[2m], sizes[2m + 1] hold point m's raw, unscaled sizes |
| `Geometry.RecordInStream` | dist/visualHeatmap.legacy.js:400-416 | point i's record occupies stream indices w·i .. w·i + w - 1 |
| `Geometry.SizesInStream` | dist/visualHeatmap.legacy.js:420-421 | point i's sizes occupy indices 2i and 2i + 1 |
| `Geometry.CentreYMapsAxis` | dist/visualHeatmap.js:531 | y = 0 maps to 1 and y = 550 to -1; [0, 550] maps onto [-1, 1], decreasing |
| `Geometry.QuadBox` | dist/visualHeatmap.js:537-561 | the quad spans centre ± step, and the half-height is sizeY / 550 clamped below at -1 |
| `Geometry.RectangleRecord` | main.js:618-659 | main.js's 9-float record is TL, BL, BR, TR then the value: the two left corners share x = clipSpaceX, the two right corners x = clipSpaceX + sizeX, the top corners y = clipSpaceY and the bottom corners y = clipSpaceY - sizeY |
| `Geometry.QuadRecord` | dist/visualHeatmap.js:545-579 | the bundle's 12 floats are the triangles (BL, BR, TL) and (TL, BR, TR), sharing TL and BR, centred on (CentreX, CentreY) with width 2·stepX and height 2·stepY |
| `Geometry.CentreY` | dist/visualHeatmap.js:531 | definition: y mapped from the 550-pixel axis to clip space as (y / 550 · 2 - 1) · -1 |
| `Geometry.StepY` | dist/visualHeatmap.js:537 | definition: sizeY / 550, clamped below at -1 |
| `Geometry.PackedValues` | main.js:661 | one value per point |
| `Geometry.PackedSizes` | dist/visualHeatmap.legacy.js:419-421 | two sizes per point |
| `Geometry.Record` | main.js:620-659 | a record has 9 floats (main.js) or 12 (bundle) |
| `Geometry.SizeRecord` | dist/visualHeatmap.js:583 | two sizes per point |
| `Transform.ViewX` | dist/visualHeatmap.js:855-885 | definition: the closed form of the new x, that is the centre plus the zoomed offset (rotated with the w/h factor when the angle is non-zero) minus translateX |
| `Transform.ViewY` | main.js:231-262 | definition: the closed form of the new y, that is the centre plus the zoomed offset (rotated with the h/w factor when the angle is non-zero) minus translateY |
| `Transform.TranslateAndZoom` | dist/visualHeatmap.js:855-885 | the step-by-step transform equals the closed form ViewX, ViewY and leaves every other field of the point alone |
| `Transform.PixelForm` | main.js:237-257 | normalising, zooming, rotating and scaling back gives the zoomed pixel offsets rotated with the w/h and h/w factors |
| `Transform.Rescale` | main.js:240-255 | dividing by d, zooming and multiplying by e equals zooming and scaling by e/d |
| `Transform.MulDiv` | main.js:255 | multiplying then dividing by a non-zero number is the identity |
| `Transform.DefaultViewIsIdentity` | dist/visualHeatmap.legacy.js:692-722 | zoom 1, angle 0 and translate [0, 0] leave x and y unchanged |
| `Transform.CentreMovesByTranslation` | main.js:258-260 | the canvas centre lands at centre - translate for every zoom and angle |
| `Transform.ZoomScalesDistances` | main.js:243-244 | without rotation, distances between points are multiplied by the zoom |
| `Transform.TranslationShifts` | dist/visualHeatmap.js:883-884 | translating by d more moves every point by -d more: translate is subtracted last |
| `Transform.RotatedNormalised` | main.js:246-253 | in normalised coordinates the transform is the zoom followed by the rotation [[c, -s], [s, c]] |
| `Transform.RotatedNormalisedX` | main.js:251 | the x part of that rotation |
| `Transform.RotatedNormalisedY` | main.js:252 | the y part of that rotation |
| `Transform.RotationKeepsNormalisedRadius` | dist/visualHeatmap.js:869-876 | when c² + s² = 1 the normalised distance from the centre is scaled by the zoom alone |
| `HeatmapChart.Configured` | main.js:745-751 | a configured value is kept exactly when it is present and truthy; 0, NaN and absence give the default |
| `HeatmapChart.ConfiguredTranslate` | dist/visualHeatmap.js:651 | the configured translate is kept when it has exactly two entries, else [0, 0] |
| `HeatmapChart.ZoomUniform` | dist/visualHeatmap.js:807 | the uploaded zoom is the zoom when truthy and 0.01 otherwise, so it is never 0 or NaN |
| `HeatmapChart.KnownType` | main.js:1145-1198 | definition: the chart type is "horizontal" or "circle", the two types render dispatches on |
| `HeatmapChart.RenderOutcome` | main.js:850-1200 | render throws SyntaxError exactly for an unknown type in main.js, TypeError exactly in main.js circle mode or for a known type without data, and completes otherwise (the bundle draws nothing for an unknown type) |
| `HeatmapChart.Added` | main.js:828-837 | each added point is transformed when the flag is set and kept as is otherwise, in order |
| `HeatmapChart.AddedAppend` | dist/visualHeatmap.js:733-738 | adding a sequence and then one point gives the same points as adding them all at once |
| `HeatmapChart.AddedAsIs` | dist/visualHeatmap.legacy.js:570-575 | without the flag the points are added as given |
| `HeatmapChart.CircleDrawsSixPerPoint` | dist/visualHeatmap.js:830 | circle mode draws posVec.length / 2 = 6·len points |
| `HeatmapChart.MainJsPackingIgnoresTransform` | main.js:602-606 | the transformed x and y do not change main.js's rectangle record |
| `HeatmapChart.BundlePackingIgnoresTransformedX` | dist/visualHeatmap.js:530 | the transformed x does not change the bundle's quad |
| `HeatmapChart.Chart.constructor` | dist/visualHeatmap.js:595-660 | the canvas is sized by the pixel ratio; the gradient is the mapped table; the defaults are size 20, max Infinity, blur 1, zoom 1, angle 0, opacity 1 and translate [0, 0]; rawData is empty and no data is held |
| `HeatmapChart.Chart.CurrentView` | main.js:233-234 | the transform reads the canvas size, the ratio, the zoom, the angle and the translate |
| `HeatmapChart.Chart.Render` | dist/visualHeatmap.js:750-852 | render changes no setting; its outcome is RenderOutcome and the frame it leaves is the snapshot of the current state (Splats with 6·len points, zoom fallback and NaN max; Rectangles with this.max) |
| `HeatmapChart.Chart.Resize` | main.js:759-772 | the width and height become the new client size times the ratio, then it re-renders |
| `HeatmapChart.Chart.Clear` | main.js:774-776 | the canvas is wiped and nothing else changes |
| `HeatmapChart.Chart.SetMax` | main.js:778-782 | a rejected argument throws its error with every setting and the frame unchanged; a number is assigned to max and the chart re-renders |
| `HeatmapChart.Chart.SetTranslate` | main.js:784-791 | a non-pair throws TypeError with nothing changed; a pair of numbers becomes translate and the chart re-renders |
| `HeatmapChart.Chart.SetZoom` | dist/visualHeatmap.js:696-700 | validate, then assign zoom and re-render; nothing changes on failure |
| `HeatmapChart.Chart.SetRotationAngle` | dist/visualHeatmap.js:702-706 | validate, then assign angle and re-render; nothing changes on failure |
| `HeatmapChart.Chart.SetSize` | dist/visualHeatmap.legacy.js:545-549 | validate, then assign size and re-render; nothing changes on failure |
| `HeatmapChart.Chart.SetBlur` | dist/visualHeatmap.legacy.js:551-555 | validate, then assign blur and re-render; nothing changes on failure |
| `HeatmapChart.Chart.SetOpacity` | main.js:817-821 | validate, then assign opacity and re-render (the undefined fallback is unreachable); nothing changes on failure |
| `HeatmapChart.Chart.RenderData` | main.js:839-848 | the points are packed (the arrays are reused when the count is unchanged), held as rawData, and rendered with data |
| `HeatmapChart.Chart.AddData` | dist/visualHeatmap.legacy.js:568-577 | rawData grows by the added points in order, transformed by the current view when flagged; then renderData(rawData) |

## Left out

- **DOM and layout.** The container lookup, canvas creation and styling, `clientWidth`/`clientHeight` and `getPixelRatio` are left out. The container size and the pixel ratio are parameters of the constructor and of `Resize`.
- **WebGL calls.** Shader compilation and linking, buffer uploads, vertex attribute layout and strides, textures and framebuffers, `drawArrays` counts (22, 120, 6) and hardware blending are left out. `lastFrame` records what render would upload instead.
- **Vertex shaders and texcoord data.** Apart from `v_offset = a_value / u_max`, the vertex shaders are not modelled, nor is the literal texcoord table of main.js.
- **Rounding.** Float32 storage and mediump shader precision are not modelled. Configuration and setter numbers are exact reals plus Infinity and NaN (`Js.Number`). The fields of a data point are plain reals.
- **Malformed data points.** A `DataPoint` always has every field, and each is a finite real. A point without `clipSpaceCoords` or `sizeValues` is not modelled; main.js throws a TypeError for it at main.js:601 and main.js:605. A NaN or infinite `x`, `y`, `value` or size in user data is not modelled either.
- **Trigonometry.** `Math.cos`, `Math.sin` and the shader's `sqrt` are abstract parameters.
- **Console output** is not modelled.
- **Aliasing.** Points are values. That the transform mutates the caller's point objects, and that rawData shares them with the caller, is not modelled. The held `exData` is modelled as a flag plus the packer's arrays.
- Js.TranslatePair: arrays with holes are not modelled. `Js.Value.Array` holds a sequence without holes. `translate.every(...)` at main.js:785 and dist/visualHeatmap.js:688 skips holes, so `setTranslate([, 1])` or `setTranslate(new Array(2))` passes the check. The holey array is stored and the next render uploads NaN for the missing entries.
- **The bundle reads `config.type` on every render.** The bundle's `render` tests the caller's configuration object (dist/visualHeatmap.js:755 and 799), which the closure still holds. main.js copies the type once into `this.type` (main.js:707). The model fixes `chartType` at construction for both builds, so in the bundle a later change to `config.type` that switches the dispatch is not modelled.
- **Shared translate array.** The constructor (main.js:748) and `setTranslate` (main.js:786) store the caller's array itself, not a copy. In the model translate is a pair of values, so a later change the caller makes to that array, which would move the next render's `u_translate`, is not modelled.
- **render(exData) called directly by a user** is not modelled, only as setters, resize and renderData call it. Config fields of non-number types are not modelled (the constructor does not check them).
- **Unassigned corners.** The bundle's rectangle shader uses unassigned corner variables when v_offset is outside (0, 1]. The model reports that case as `None` rather than inventing their value.
- **Remap on an empty segment.** The `remap` of the shaders divides by `off[i] - off[i-1]`. `Shaders.Remap` requires the two offsets to differ. The lookup only calls it when `off[i-1] < alpha <= off[i]`, so this excludes no input of the lookup.
- HeatmapChart.Chart.AddData: with the transform flag set it requires a finite zoom, angle and translate and a non-zero canvas size and ratio. How NaN and Infinity propagate through the transform is not modelled.
- Transform.TranslateAndZoom: requires a non-zero width, height and ratio. With a zero half-extent JavaScript produces NaN or Infinity, which the real-valued transform does not model.
