/** extractData: packing the held data points into the float arrays that are
    uploaded as vertex attributes. main.js writes one 9-float rectangle
    record per point into a buffer sized for 4 floats per point; the bundle
    writes two triangles (12 floats) per point into a buffer sized for them.
    Both keep the arrays between calls and reallocate only when the point
    count changes. */
module Geometry {

  /** A data point as the packers read it. main.js reads `clipSpaceCoords`
      and `sizeValues`; the bundle reads `xRange`, `y`, `sizeX` and `sizeY`;
      both read `value`, and the coordinate transform rewrites `x` and `y`. */
  datatype DataPoint = DataPoint(
    x: real, y: real, value: real,
    clipSpaceX: real, clipSpaceY: real, sizeValuesX: real, sizeValuesY: real,
    xRange: real, sizeX: real, sizeY: real)

  /** The two packings: main.js's rectangle records and the bundle's quads. */
  datatype Layout = RectangleStrip | TriangleQuads

  /** Floats written per point. */
  function Stride(layout: Layout): nat {
    if layout == RectangleStrip then 9 else 12
  }

  /** Floats allocated for n points: `len * (rectangleVertices + pointValue)`
      = 4·n in main.js, `len * 12` in the bundle. */
  function FloatsAllocated(layout: Layout, n: nat): nat {
    if layout == RectangleStrip then 4 * n else 12 * n
  }

  /** main.js's record for one point: top left, bottom left, bottom right,
      top right corners of the box hanging down from the clip-space point,
      then the value. */
  function RectangleRecord(p: DataPoint): (r: seq<real>)
    ensures |r| == 9 && r[8] == p.value
    ensures r[0] == r[2] == p.clipSpaceX && r[4] == r[6] == p.clipSpaceX + p.sizeValuesX
    ensures r[1] == r[7] == p.clipSpaceY && r[3] == r[5] == p.clipSpaceY - p.sizeValuesY
  {
    var leftX, topY := p.clipSpaceX, p.clipSpaceY;
    var sx, sy := p.sizeValuesX, p.sizeValuesY;
    [leftX, topY, leftX, topY - sy, leftX + sx, topY - sy, leftX + sx, topY, p.value]
  }

  /** The bundle's vertical scale: y and sizeY are pixels of a 550-pixel axis. */
  const AxisPixels: real := 550.0

  /** Centre of a quad: `xRange` as is, and y mapped from [0, 550] to [1, -1]. */
  function CentreX(p: DataPoint): real { p.xRange }
  function CentreY(p: DataPoint): real { ((p.y / AxisPixels) * 2.0 - 1.0) * -1.0 }

  /** Half-extents of a quad: sizeX as is, sizeY / 550 clamped below at -1. */
  function StepX(p: DataPoint): real { p.sizeX }
  function StepY(p: DataPoint): real {
    if p.sizeY / AxisPixels < -1.0 then -1.0 else p.sizeY / AxisPixels
  }

  /** The bundle's record for one point: the triangles (BL, BR, TL) and
      (TL, BR, TR) around the centre. */
  function QuadRecord(p: DataPoint): (r: seq<real>)
    ensures |r| == 12
    ensures r[4..6] == r[6..8] && r[2..4] == r[8..10]
    ensures (r[0] + r[2]) / 2.0 == CentreX(p) && (r[1] + r[5]) / 2.0 == CentreY(p)
    ensures r[2] - r[0] == 2.0 * StepX(p) && r[5] - r[1] == 2.0 * StepY(p)
    ensures r[10] == r[2] && r[11] == r[5]
  {
    var l, r := CentreX(p) - StepX(p), CentreX(p) + StepX(p);
    var b, t := CentreY(p) - StepY(p), CentreY(p) + StepY(p);
    [l, b, r, b, l, t, l, t, r, b, r, t]
  }

  function Record(layout: Layout, p: DataPoint): (r: seq<real>)
    ensures |r| == Stride(layout)
  {
    if layout == RectangleStrip then RectangleRecord(p) else QuadRecord(p)
  }

  /** The horizontal and vertical size written per point, unscaled. */
  function SizeRecord(layout: Layout, p: DataPoint): (r: seq<real>)
    ensures |r| == 2
  {
    if layout == RectangleStrip then [p.sizeValuesX, p.sizeValuesY] else [p.sizeX, p.sizeY]
  }

  /** Flattening of a sequence of records. */
  function Concat(rs: seq<seq<real>>): seq<real> {
    if rs == [] then [] else rs[0] + Concat(rs[1..])
  }

  lemma {:induction false} ConcatLength(rs: seq<seq<real>>, w: nat)
    requires forall q :: 0 <= q < |rs| ==> |rs[q]| == w
    ensures |Concat(rs)| == w * |rs|
  {
    if rs != [] {
      ConcatLength(rs[1..], w);
    }
  }

  /** Element k of record m sits at w·m + k of the flattening. */
  lemma {:induction false} ConcatAt(rs: seq<seq<real>>, w: nat, m: nat, k: nat)
    requires forall q :: 0 <= q < |rs| ==> |rs[q]| == w
    requires m < |rs| && k < w
    ensures w * m + k < |Concat(rs)|
    ensures Concat(rs)[w * m + k] == rs[m][k]
  {
    ConcatLength(rs, w);
    if m > 0 {
      ConcatAt(rs[1..], w, m - 1, k);
      ConcatLength(rs[1..], w);
      assert w * m + k == w + (w * (m - 1) + k);
    }
  }

  /** The records of all points, in order. */
  function Records(layout: Layout, points: seq<DataPoint>): seq<seq<real>> {
    seq(|points|, m requires 0 <= m < |points| => Record(layout, points[m]))
  }

  /** The size pairs of all points, in order. */
  function SizeRecords(layout: Layout, points: seq<DataPoint>): seq<seq<real>> {
    seq(|points|, m requires 0 <= m < |points| => SizeRecord(layout, points[m]))
  }

  /** Every float the loop writes, in index order, whether or not it lands
      inside the allocated buffer. */
  function PositionStream(layout: Layout, points: seq<DataPoint>): seq<real> {
    Concat(Records(layout, points))
  }

  /** The position buffer after extractData: the written stream cut to the
      allocated length (a typed array ignores writes past its end). */
  function PackedPositions(layout: Layout, points: seq<DataPoint>): (r: seq<real>)
    ensures |r| == FloatsAllocated(layout, |points|)
  {
    ConcatLength(Records(layout, points), Stride(layout));
    PositionStream(layout, points)[..FloatsAllocated(layout, |points|)]
  }

  /** `radiusVectorsArray`: the point values in order. */
  function PackedValues(points: seq<DataPoint>): (r: seq<real>)
    ensures |r| == |points|
  {
    seq(|points|, m requires 0 <= m < |points| => points[m].value)
  }

  /** `sizeVectorsArray`: two sizes per point in order. */
  function PackedSizes(layout: Layout, points: seq<DataPoint>): (r: seq<real>)
    ensures |r| == 2 * |points|
  {
    ConcatLength(SizeRecords(layout, points), 2);
    Concat(SizeRecords(layout, points))
  }

  /** A typed-array store: in range it writes, out of range it does nothing. */
  method StoreFloat(a: array<real>, index: nat, x: real)
    modifies a
    ensures index < a.Length ==> a[index] == x
    ensures forall j :: 0 <= j < a.Length && j != index ==> a[j] == old(a[j])
  {
    if index < a.Length {
      a[index] := x;
    }
  }

  /** The closure state extractData works on: the point count `pLen` of the
      last reallocation and the three typed arrays it fills. */
  class Packer {
    const layout: Layout
    var pLen: nat
    var positions: array<real>
    var values: array<real>
    var sizes: array<real>

    ghost predicate Valid()
      reads this
    {
      && positions.Length == FloatsAllocated(layout, pLen)
      && values.Length == pLen
      && sizes.Length == 2 * pLen
      && positions != values && positions != sizes && values != sizes
    }

    /** Before the first call: `pLen = 0` and empty arrays. */
    constructor (layout: Layout)
      ensures Valid()
      ensures this.layout == layout && pLen == 0
      ensures fresh(positions) && fresh(values) && fresh(sizes)
    {
      this.layout := layout;
      pLen := 0;
      positions := new real[0];
      values := new real[0];
      sizes := new real[0];
    }

    /** extractData: reallocate when the point count changed, then write
        every point's record, value and sizes. */
    method Extract(points: seq<DataPoint>)
      requires Valid()
      modifies this, positions, values, sizes
      ensures Valid()
      ensures pLen == |points|
      ensures old(pLen) == |points| ==>
        positions == old(positions) && values == old(values) && sizes == old(sizes)
      ensures old(pLen) != |points| ==> fresh(positions) && fresh(values) && fresh(sizes)
      ensures positions[..] == PackedPositions(layout, points)
      ensures values[..] == PackedValues(points)
      ensures sizes[..] == PackedSizes(layout, points)
    {
      if pLen != |points| {
        positions := new real[FloatsAllocated(layout, |points|)];
        values := new real[|points|];
        sizes := new real[2 * |points|];
        pLen := |points|;
      }
      Fill(points);
    }

    /** The write loop over points `0 .. |points| - 1`. */
    method Fill(points: seq<DataPoint>)
      requires Valid() && pLen == |points|
      modifies positions, values, sizes
      ensures positions[..] == PackedPositions(layout, points)
      ensures values[..] == PackedValues(points)
      ensures sizes[..] == PackedSizes(layout, points)
    {
      var w := Stride(layout);
      ghost var stream := PositionStream(layout, points);
      ghost var sizeStream := PackedSizes(layout, points);
      ConcatLength(Records(layout, points), w);
      var i, base := 0, 0;
      while i < |points|
        invariant 0 <= i <= |points| && base == w * i
        invariant forall j :: 0 <= j < positions.Length && j < base ==> positions[j] == stream[j]
        invariant forall j :: 0 <= j < i ==> values[j] == points[j].value
        invariant forall j :: 0 <= j < 2 * i ==> sizes[j] == sizeStream[j]
      {
        StorePoint(i, base, points[i]);
        RecordInStream(layout, points, i, base);
        SizesInStream(layout, points, i);
        i, base := i + 1, base + w;
      }
      assert forall j :: 0 <= j < positions.Length ==> positions[..][j] == PackedPositions(layout, points)[j];
      assert positions[..] == PackedPositions(layout, points);
      assert values[..] == PackedValues(points);
      assert sizes[..] == sizeStream;
    }

    /** One iteration of the loop: the record of point i at w·i (each store
        dropped when past the buffer), its value at i and its sizes at 2·i. */
    method StorePoint(i: nat, base: nat, p: DataPoint)
      requires Valid() && i < pLen && base == Stride(layout) * i
      modifies positions, values, sizes
      ensures forall j :: base <= j < base + Stride(layout) && j < positions.Length ==>
        positions[j] == Record(layout, p)[j - base]
      ensures forall j :: 0 <= j < positions.Length && !(base <= j < base + Stride(layout)) ==>
        positions[j] == old(positions[j])
      ensures values[i] == p.value
      ensures forall j :: 0 <= j < values.Length && j != i ==> values[j] == old(values[j])
      ensures sizes[2 * i] == SizeRecord(layout, p)[0] && sizes[2 * i + 1] == SizeRecord(layout, p)[1]
      ensures forall j :: 0 <= j < sizes.Length && j != 2 * i && j != 2 * i + 1 ==> sizes[j] == old(sizes[j])
    {
      var r := Record(layout, p);
      var w := Stride(layout);
      var k := 0;
      while k < w
        invariant 0 <= k <= w
        invariant unchanged(values) && unchanged(sizes)
        invariant forall j :: base <= j < base + k && j < positions.Length ==> positions[j] == r[j - base]
        invariant forall j :: 0 <= j < positions.Length && !(base <= j < base + k) ==>
          positions[j] == old(positions[j])
      {
        StoreFloat(positions, base + k, r[k]);
        k := k + 1;
      }
      values[i] := p.value;
      var s := SizeRecord(layout, p);
      sizes[2 * i] := s[0];
      sizes[2 * i + 1] := s[1];
    }
  }

  /** Point i's record occupies stream indices base .. base + w - 1, where
      base = w·i. */
  lemma RecordInStream(layout: Layout, points: seq<DataPoint>, i: nat, base: nat)
    requires i < |points| && base == Stride(layout) * i
    ensures |PositionStream(layout, points)| == Stride(layout) * |points|
    ensures forall j :: base <= j < base + Stride(layout) ==>
      PositionStream(layout, points)[j] == Record(layout, points[i])[j - base]
  {
    var w := Stride(layout);
    ConcatLength(Records(layout, points), w);
    forall j | base <= j < base + w
      ensures PositionStream(layout, points)[j] == Record(layout, points[i])[j - base]
    {
      ConcatAt(Records(layout, points), w, i, j - base);
    }
  }

  /** Point i's sizes occupy indices 2·i and 2·i + 1 of the sizes buffer. */
  lemma SizesInStream(layout: Layout, points: seq<DataPoint>, i: nat)
    requires i < |points|
    ensures forall j :: 2 * i <= j < 2 * i + 2 ==>
      PackedSizes(layout, points)[j] == SizeRecord(layout, points[i])[j - 2 * i]
  {
    forall j | 2 * i <= j < 2 * i + 2
      ensures PackedSizes(layout, points)[j] == SizeRecord(layout, points[i])[j - 2 * i]
    {
      ConcatAt(SizeRecords(layout, points), 2, i, j - 2 * i);
    }
  }

  /** All 12 floats of every quad land in the bundle's buffer: point m's
      triangles occupy floats 12·m .. 12·m + 11. */
  lemma QuadsAllStored(points: seq<DataPoint>, m: nat, k: nat)
    requires m < |points| && k < 12
    ensures 12 * m + k < |PackedPositions(TriangleQuads, points)|
    ensures PackedPositions(TriangleQuads, points)[12 * m + k] == QuadRecord(points[m])[k]
  {
    ConcatAt(Records(TriangleQuads, points), 12, m, k);
  }

  /** In main.js's buffer a float of point m's record is kept exactly when
      its stream index 9·m + k is below 4·len, and then it holds that float. */
  lemma RectanglesKeptBelowCapacity(points: seq<DataPoint>, m: nat, k: nat)
    requires m < |points| && k < 9
    ensures 9 * m + k < |PackedPositions(RectangleStrip, points)| <==> 9 * m + k < 4 * |points|
    ensures 9 * m + k < 4 * |points| ==>
      PackedPositions(RectangleStrip, points)[9 * m + k] == RectangleRecord(points[m])[k]
  {
    ConcatAt(Records(RectangleStrip, points), 9, m, k);
  }

  /** main.js's buffer loses data whenever there is a point: the stream it
      writes is 9·len floats long, more than twice the 4·len allocated, so
      it never holds the last point's value (stream index 9·len - 1). */
  lemma RectanglesOverflow(points: seq<DataPoint>)
    requires |points| > 0
    ensures |PositionStream(RectangleStrip, points)| == 9 * |points|
    ensures |PackedPositions(RectangleStrip, points)| < |PositionStream(RectangleStrip, points)|
    ensures 9 * (|points| - 1) + 8 >= |PackedPositions(RectangleStrip, points)|
  {
    ConcatLength(Records(RectangleStrip, points), 9);
  }

  /** With a single point main.js keeps only the top-left and bottom-left
      corners: [x, y, x, y - sizeY]. */
  lemma SingleRectangle(p: DataPoint)
    ensures PackedPositions(RectangleStrip, [p]) ==
      [p.clipSpaceX, p.clipSpaceY, p.clipSpaceX, p.clipSpaceY - p.sizeValuesY]
  {
    var rs := Records(RectangleStrip, [p]);
    assert rs == [RectangleRecord(p)];
    assert Concat(rs) == RectangleRecord(p) + Concat([]);
  }

  /** The sizes buffer holds the sizes as given: point m's pair at 2·m. */
  lemma SizesStored(layout: Layout, points: seq<DataPoint>, m: nat)
    requires m < |points|
    ensures PackedSizes(layout, points)[2 * m] == SizeRecord(layout, points[m])[0]
    ensures PackedSizes(layout, points)[2 * m + 1] == SizeRecord(layout, points[m])[1]
  {
    ConcatAt(SizeRecords(layout, points), 2, m, 0);
    ConcatAt(SizeRecords(layout, points), 2, m, 1);
  }

  /** The bundle maps y = 0 to the top edge (1), y = 550 to the bottom edge
      (-1), and [0, 550] onto [-1, 1], decreasing. */
  lemma CentreYMapsAxis(p: DataPoint, q: DataPoint)
    ensures p.y == 0.0 ==> CentreY(p) == 1.0
    ensures p.y == AxisPixels ==> CentreY(p) == -1.0
    ensures 0.0 <= p.y <= AxisPixels ==> -1.0 <= CentreY(p) <= 1.0
    ensures p.y < q.y ==> CentreY(q) < CentreY(p)
  {
  }

  /** The quad spans its centre ± its steps; its half-height is never below
      -1 and equals sizeY / 550 otherwise. */
  lemma QuadBox(p: DataPoint)
    ensures StepY(p) >= -1.0
    ensures p.sizeY >= -AxisPixels ==> StepY(p) == p.sizeY / AxisPixels
    ensures var r := QuadRecord(p);
      && r[0] == r[4] == r[6] == CentreX(p) - StepX(p)
      && r[2] == r[8] == r[10] == CentreX(p) + StepX(p)
      && r[1] == r[3] == r[9] == CentreY(p) - StepY(p)
      && r[5] == r[7] == r[11] == CentreY(p) + StepY(p)
  {
  }
}
