/** The tube generator: a chain of cubic Bezier curves through groups of four control points,
    swept by rings of `tubeSegments` vertices whose radius follows the control points' thickness,
    and consecutive rings stitched into quads. */
module Tube {
  import opened UnityEngine
  import opened Wrappers
  import opened Curves

  /** A control point: a position and the tube's diameter there */
  datatype ControlPoint = ControlPoint(position: Vec3, thickness: real)

  /** The four control points of one cubic segment */
  datatype Segment = Segment(p0: ControlPoint, p1: ControlPoint, p2: ControlPoint, p3: ControlPoint)

  // ---------------------------------------------------------------- the cubic Bezier

  /** One coordinate of the cubic Bezier: u^3 a + 3 u^2 t b + 3 u t^2 c + t^3 d with u = 1 - t */
  function CubicScalar(a: real, b: real, c: real, d: real, t: real): real {
    var u := 1.0 - t;
    u * u * u * a + 3.0 * u * u * t * b + 3.0 * u * t * t * c + t * t * t * d
  }

  /** One coordinate of its derivative: 3 u^2 (b - a) + 6 u t (c - b) + 3 t^2 (d - c) */
  function CubicTangentScalar(a: real, b: real, c: real, d: real, t: real): real {
    var u := 1.0 - t;
    3.0 * u * u * (b - a) + 6.0 * u * t * (c - b) + 3.0 * t * t * (d - c)
  }

  /** The cubic Bezier through p0 and p3 with handles p1 and p2, coordinate by coordinate */
  function CubicBezier(p0: Vec3, p1: Vec3, p2: Vec3, p3: Vec3, t: real): Vec3 {
    Vec3(CubicScalar(p0.x, p1.x, p2.x, p3.x, t), CubicScalar(p0.y, p1.y, p2.y, p3.y, t),
      CubicScalar(p0.z, p1.z, p2.z, p3.z, t))
  }

  /** The derivative of CubicBezier */
  function CubicBezierTangent(p0: Vec3, p1: Vec3, p2: Vec3, p3: Vec3, t: real): Vec3 {
    Vec3(CubicTangentScalar(p0.x, p1.x, p2.x, p3.x, t), CubicTangentScalar(p0.y, p1.y, p2.y, p3.y, t),
      CubicTangentScalar(p0.z, p1.z, p2.z, p3.z, t))
  }

  /** Half the second derivative of one coordinate: 3 (a - 2b + c) + 3 t j */
  function CubicBendScalar(a: real, b: real, c: real, d: real, t: real): real {
    3.0 * ((a - 2.0 * b) + c) + 3.0 * t * CubicJerkScalar(a, b, c, d)
  }

  /** A sixth of the third derivative of one coordinate, a constant: j = d - 3c + 3b - a */
  function CubicJerkScalar(a: real, b: real, c: real, d: real): real {
    ((d - 3.0 * c) + 3.0 * b) - a
  }

  /** The tangent is the exact derivative of the curve, coordinate by coordinate (CubicBezier and
      CubicBezierTangent apply these scalar forms to x, y and z alike): a step h along the curve is
      h times the tangent plus the Taylor terms of second and third order. */
  lemma CubicTangentIsDerivative(a: real, b: real, c: real, d: real, t: real, h: real)
    ensures CubicScalar(a, b, c, d, t + h) - CubicScalar(a, b, c, d, t)
      == (h * CubicTangentScalar(a, b, c, d, t) + (h * h) * CubicBendScalar(a, b, c, d, t))
       + (h * h * h) * CubicJerkScalar(a, b, c, d)
  {
  }

  // ---------------------------------------------------------------- one ring

  /** `Mathf.Lerp(p0.thickness, p3.thickness, t) * 0.5f`: the tube radius at t, half the interpolated diameter */
  function Radius(p0: ControlPoint, p3: ControlPoint, t: real): real {
    Lerp(p0.thickness, p3.thickness, t) * 0.5
  }

  /** The curve runs from p0 at t = 0 to p3 at t = 1, leaving p0 towards p1 and arriving at p3 from p2. */
  lemma CubicEndpoints(p0: Vec3, p1: Vec3, p2: Vec3, p3: Vec3)
    ensures CubicBezier(p0, p1, p2, p3, 0.0) == p0 && CubicBezier(p0, p1, p2, p3, 1.0) == p3
    ensures CubicBezierTangent(p0, p1, p2, p3, 0.0) == Scale(3.0, Sub(p1, p0))
    ensures CubicBezierTangent(p0, p1, p2, p3, 1.0) == Scale(3.0, Sub(p3, p2))
  {
  }

  /** The radius is half the start thickness at t <= 0, half the end thickness at t >= 1, and
      lies between the two half-thicknesses in between. */
  lemma RadiusBounds(p0: ControlPoint, p3: ControlPoint, t: real)
    ensures var r := Radius(p0, p3, t);
      (t <= 0.0 ==> r == p0.thickness / 2.0) && (1.0 <= t ==> r == p3.thickness / 2.0) &&
      (p0.thickness <= p3.thickness ==> p0.thickness / 2.0 <= r <= p3.thickness / 2.0) &&
      (p3.thickness <= p0.thickness ==> p3.thickness / 2.0 <= r <= p0.thickness / 2.0)
  {
  }

  /** The orientation of a ring: the normalised tangent and the two directions spanning the ring's plane */
  datatype Frame = Frame(tangent: Vec3, right: Vec3, up: Vec3)

  /** The frame built from a raw tangent: world up (world right when the tangent is nearly vertical)
      crossed with the tangent gives `right`, and `right` crossed with the tangent gives the new `up`. */
  function RingFrame(num: Numerics, rawTangent: Vec3): Frame {
    var tangent := Normalized(num, rawTangent);
    var worldUp := if Dot(tangent, Up) > 0.99 then Right else Up;
    var right := Normalized(num, Cross(tangent, worldUp));
    var up := Normalized(num, Cross(right, tangent));
    Frame(tangent, right, up)
  }

  /** Both ring directions of a frame are perpendicular to the tangent and to each other. */
  lemma RingFrameOrthogonal(num: Numerics, rawTangent: Vec3)
    ensures var f := RingFrame(num, rawTangent);
      Dot(f.right, f.tangent) == 0.0 && Dot(f.up, f.tangent) == 0.0 && Dot(f.up, f.right) == 0.0
  {
    var tangent := Normalized(num, rawTangent);
    var worldUp := if Dot(tangent, Up) > 0.99 then Right else Up;
    var crossRight := Cross(tangent, worldUp);
    var right := Normalized(num, crossRight);
    var crossUp := Cross(right, tangent);
    CrossPerpendicular(tangent, worldUp);
    DotScaleLeft(num.invMagnitude(crossRight), crossRight, tangent);
    CrossPerpendicular(right, tangent);
    DotScaleLeft(num.invMagnitude(crossUp), crossUp, tangent);
    DotScaleLeft(num.invMagnitude(crossUp), crossUp, right);
  }

  /** The angle of ring column j: `j / (float)tubeSegments * PI * 2` */
  function Angle(j: int, ts: int): real
    requires 0 < ts
  {
    SampleT(j, ts) * PI * 2.0
  }

  /** `(Cos(angle) * right + Sin(angle) * up) * radius`: the offset of ring column j from the curve point */
  function RingOffset(num: Numerics, f: Frame, radius: real, j: int, ts: int): Vec3
    requires 0 < ts
  {
    var angle := Angle(j, ts);
    Scale(radius, Add(Scale(num.cos(angle), f.right), Scale(num.sin(angle), f.up)))
  }

  /** The ring of `ts` vertices around the curve point pos */
  function Ring(num: Numerics, pos: Vec3, f: Frame, radius: real, ts: int): (r: seq<Vec3>)
    requires 0 < ts
    ensures |r| == ts
  {
    seq(ts, j => Add(pos, RingOffset(num, f, radius, j, ts)))
  }

  /** The ring's uvs: u = j / tubeSegments across the ring, v = t along the curve */
  function RingUVs(ts: int, v: real): (r: seq<Vec2>)
    requires 0 < ts
    ensures |r| == ts
  {
    seq(ts, j => Vec2(SampleT(j, ts), v))
  }

  /** Every ring column lies in the plane through the curve point normal to the curve's tangent. */
  lemma RingInNormalPlane(num: Numerics, pos: Vec3, f: Frame, radius: real, ts: int, j: int)
    requires 0 < ts && 0 <= j < ts
    requires Dot(f.right, f.tangent) == 0.0 && Dot(f.up, f.tangent) == 0.0
    ensures Dot(Sub(Ring(num, pos, f, radius, ts)[j], pos), f.tangent) == 0.0
  {
    var angle := Angle(j, ts);
    var a, b := Scale(num.cos(angle), f.right), Scale(num.sin(angle), f.up);
    assert Sub(Ring(num, pos, f, radius, ts)[j], pos) == Scale(radius, Add(a, b));
    DotScaleLeft(radius, Add(a, b), f.tangent);
    DotAddLeft(a, b, f.tangent);
    DotScaleLeft(num.cos(angle), f.right, f.tangent);
    DotScaleLeft(num.sin(angle), f.up, f.tangent);
  }

  /** UV u lies in [0, 1) and v is the given curve parameter. */
  lemma RingUVRange(ts: int, v: real, j: int)
    requires 0 < ts && 0 <= j < ts
    ensures 0.0 <= RingUVs(ts, v)[j].x < 1.0 && RingUVs(ts, v)[j].y == v
  {
  }

  // ---------------------------------------------------------------- rings along the curves

  /** `(controlPoints.Length - 1) / 3`: the number of cubic segments */
  function NumCurves(n: int): int
    requires 1 <= n
  {
    (n - 1) / 3
  }

  /** Segment c reads control points 3c .. 3c+3 */
  function SegmentAt(pts: seq<ControlPoint>, c: int): Segment
    requires 0 <= c && 3 * c + 3 < |pts|
  {
    Segment(pts[3 * c], pts[3 * c + 1], pts[3 * c + 2], pts[3 * c + 3])
  }

  /** With at least four points there is at least one curve, every segment's last point 3c+3 is an index
      of the array, and the points after 3 numCurves are never read. */
  lemma CurveIndices(n: int)
    requires 4 <= n
    ensures 1 <= NumCurves(n)
    ensures forall c :: 0 <= c < NumCurves(n) ==> 3 * c + 3 <= n - 1
    ensures 3 * NumCurves(n) + 1 <= n < 3 * NumCurves(n) + 4
  {
  }

  /** Ring i of a segment: centred on the curve at t = i / segmentsPerCurve, radius from the end thicknesses */
  function SampleRing(num: Numerics, sg: Segment, spc: int, ts: int, i: int): (r: seq<Vec3>)
    requires 0 < spc && 0 < ts
    ensures |r| == ts
  {
    var t := SampleT(i, spc);
    var p0, p1, p2, p3 := sg.p0.position, sg.p1.position, sg.p2.position, sg.p3.position;
    Ring(num, CubicBezier(p0, p1, p2, p3, t), RingFrame(num, CubicBezierTangent(p0, p1, p2, p3, t)),
      Radius(sg.p0, sg.p3, t), ts)
  }

  /** The first `count` rings of a segment, one after another */
  function CurveVertices(num: Numerics, sg: Segment, spc: int, ts: int, count: int): (r: seq<Vec3>)
    requires 0 < spc && 0 < ts && 0 <= count
  {
    if count == 0 then [] else CurveVertices(num, sg, spc, ts, count - 1) + SampleRing(num, sg, spc, ts, count - 1)
  }

  /** The uvs of the first `count` rings of a segment */
  function CurveUVs(spc: int, ts: int, count: int): (r: seq<Vec2>)
    requires 0 < spc && 0 < ts && 0 <= count
  {
    if count == 0 then [] else CurveUVs(spc, ts, count - 1) + RingUVs(ts, SampleT(count - 1, spc))
  }

  /** For rings up to segmentsPerCurve, every uv has u in [0, 1) and v in [0, 1] */
  lemma {:induction false} CurveUVsRange(spc: int, ts: int, count: int)
    requires 0 < spc && 0 < ts && 0 <= count <= spc + 1
    ensures forall k :: 0 <= k < |CurveUVs(spc, ts, count)| ==>
      0.0 <= CurveUVs(spc, ts, count)[k].x < 1.0 && 0.0 <= CurveUVs(spc, ts, count)[k].y <= 1.0
  {
    if count > 0 {
      CurveUVsRange(spc, ts, count - 1);
      var ring := RingUVs(ts, SampleT(count - 1, spc));
      forall k | 0 <= k < ts ensures 0.0 <= ring[k].x < 1.0 && 0.0 <= ring[k].y <= 1.0 {
        RingUVRange(ts, SampleT(count - 1, spc), k);
      }
    }
  }

  /** The segments the curve loop visits: segment c for every c below `curves` */
  function Segments(pts: seq<ControlPoint>, curves: int): (segs: seq<Segment>)
    requires 0 <= curves && 3 * curves + 1 <= |pts|
    ensures |segs| == curves
  {
    seq(curves, c requires 0 <= c < curves => SegmentAt(pts, c))
  }

  /** Segment c of the list is the one starting at control point 3c */
  lemma SegmentsAt(pts: seq<ControlPoint>, curves: int, c: int)
    requires 0 <= c < curves && 3 * curves + 1 <= |pts|
    ensures Segments(pts, curves)[c] == Segment(pts[3 * c], pts[3 * c + 1], pts[3 * c + 2], pts[3 * c + 3])
  {
  }

  /** The vertex list after the given segments */
  function TubeVertices(num: Numerics, segs: seq<Segment>, spc: int, ts: int): (r: seq<Vec3>)
    requires 0 < spc && 0 < ts
  {
    if |segs| == 0 then []
    else
      var last := |segs| - 1;
      TubeVertices(num, segs[..last], spc, ts) + CurveVertices(num, segs[last], spc, ts, spc + 1)
  }

  /** The uv list after the first `curves` segments */
  function TubeUVs(spc: int, ts: int, curves: int): (r: seq<Vec2>)
    requires 0 < spc && 0 < ts && 0 <= curves
  {
    if curves == 0 then [] else TubeUVs(spc, ts, curves - 1) + CurveUVs(spc, ts, spc + 1)
  }

  /** Every uv of the tube has u in [0, 1) and v in [0, 1] */
  lemma {:induction false} TubeUVsRange(spc: int, ts: int, curves: int)
    requires 0 < spc && 0 < ts && 0 <= curves
    ensures forall k :: 0 <= k < |TubeUVs(spc, ts, curves)| ==>
      0.0 <= TubeUVs(spc, ts, curves)[k].x < 1.0 && 0.0 <= TubeUVs(spc, ts, curves)[k].y <= 1.0
  {
    if curves > 0 {
      TubeUVsRange(spc, ts, curves - 1);
      CurveUVsRange(spc, ts, spc + 1);
    }
  }

  /** Proof helper, no source counterpart: (n + 1) w == n w + w */
  lemma MulSucc(n: int, w: int)
    ensures (n + 1) * w == n * w + w
  {
  }

  /** A segment's vertex and uv lists hold tubeSegments entries per ring */
  lemma {:induction false} CurveLength(num: Numerics, sg: Segment, spc: int, ts: int, count: int)
    requires 0 < spc && 0 < ts && 0 <= count <= spc + 1
    ensures |CurveVertices(num, sg, spc, ts, count)| == |CurveUVs(spc, ts, count)| == count * ts
  {
    if count > 0 {
      CurveLength(num, sg, spc, ts, count - 1);
      MulSucc(count - 1, ts);
    }
  }

  /** The tube's vertex and uv lists hold (segmentsPerCurve + 1) tubeSegments entries per segment */
  lemma {:induction false} TubeLength(num: Numerics, segs: seq<Segment>, spc: int, ts: int)
    requires 0 < spc && 0 < ts
    ensures |TubeVertices(num, segs, spc, ts)| == |TubeUVs(spc, ts, |segs|)| == |segs| * ((spc + 1) * ts)
  {
    if |segs| > 0 {
      var last := |segs| - 1;
      TubeLength(num, segs[..last], spc, ts);
      CurveLength(num, segs[last], spc, ts, spc + 1);
      MulSucc(last, (spc + 1) * ts);
    }
  }

  /** Trailing control points beyond 3 numCurves + 1 are ignored: the segments, and hence the vertices,
      are those of the first 3 numCurves + 1 points alone. */
  lemma TrailingPointsIgnored(pts: seq<ControlPoint>)
    requires 4 <= |pts|
    ensures var nc := NumCurves(|pts|);
      3 * nc + 1 <= |pts| && Segments(pts, nc) == Segments(pts[..3 * nc + 1], nc)
  {
    var nc := NumCurves(|pts|);
    CurveIndices(|pts|);
    var qs := pts[..3 * nc + 1];
    assert forall c :: 0 <= c < nc ==> Segments(pts, nc)[c] == SegmentAt(qs, c);
  }

  /** The number of rings the curve loop emits: segmentsPerCurve + 1 per segment */
  function Rings(curves: int, spc: int): int {
    spc * curves + curves
  }

  /** With at least one curve, `rings` is positive when segmentsPerCurve is, and not positive
      when segmentsPerCurve is negative: then the stitching loop never runs */
  lemma RingsSign(curves: int, spc: int)
    requires 1 <= curves
    ensures 0 < spc ==> 2 <= Rings(curves, spc)
    ensures spc < 0 ==> Rings(curves, spc) <= 0
  {
    assert Rings(curves, spc) == (spc + 1) * curves;
    if 0 < spc {
      assert (spc + 1) * curves >= 2 * curves;
    } else if spc < 0 {
      assert (spc + 1) * curves <= 0 * curves;
    }
  }

  /** Proof helper, no source counterpart: n (spc + 1) ts == (spc n + n) ts */
  lemma RingArithmetic(n: int, spc: int, ts: int)
    ensures n * ((spc + 1) * ts) == (spc * n + n) * ts
  {
    assert spc * n + n == n * (spc + 1);
    assert (n * (spc + 1)) * ts == n * ((spc + 1) * ts);
  }

  /** `rings` counts exactly the rings emitted: the vertex list holds rings times tubeSegments vertices. */
  lemma RingsAreEmitted(num: Numerics, segs: seq<Segment>, spc: int, ts: int)
    requires 0 < spc && 0 < ts
    ensures |TubeVertices(num, segs, spc, ts)| == Rings(|segs|, spc) * ts
  {
    TubeLength(num, segs, spc, ts);
    RingArithmetic(|segs|, spc, ts);
  }

  // ---------------------------------------------------------------- stitching

  /** Corner c (0..5) of the quad at column j of band `ring`, joining ring `ring` to ring `ring + 1`:
      triangles (current, currentNext, next) and (next, currentNext, nextNext), the radial neighbour
      `(j + 1) % tubeSegments` wrapping round the ring */
  function QuadCorner(ring: int, j: int, ts: int, c: int): int
    requires 0 < ts
  {
    var current := ring * ts + j;
    var next := ring * ts + (j + 1) % ts;
    var currentNext := (ring + 1) * ts + j;
    var nextNext := (ring + 1) * ts + (j + 1) % ts;
    if c == 0 then current
    else if c == 1 then currentNext
    else if c == 2 then next
    else if c == 3 then next
    else if c == 4 then currentNext
    else nextNext
  }

  /** The radial neighbour stays in the same ring and wraps the last column to column 0; with at least
      two columns both triangles of a quad have three distinct corners. */
  lemma RadialNeighbour(ring: int, j: int, ts: int)
    requires 0 < ts && 0 <= j < ts
    ensures ring * ts <= QuadCorner(ring, j, ts, 2) < (ring + 1) * ts
    ensures j < ts - 1 ==> QuadCorner(ring, j, ts, 2) == QuadCorner(ring, j, ts, 0) + 1
    ensures j == ts - 1 ==> QuadCorner(ring, j, ts, 2) == ring * ts
    ensures 2 <= ts ==> NonDegenerate(QuadCorner(ring, j, ts, 0), QuadCorner(ring, j, ts, 1), QuadCorner(ring, j, ts, 2))
    ensures 2 <= ts ==> NonDegenerate(QuadCorner(ring, j, ts, 3), QuadCorner(ring, j, ts, 4), QuadCorner(ring, j, ts, 5))
  {
    assert (ring + 1) * ts == ring * ts + ts;
    if j < ts - 1 {
      assert (j + 1) % ts == j + 1;
    } else {
      assert (j + 1) % ts == 0;
    }
  }

  /** The band joining ring `ring` to the next: six indices per column, all within those two rings */
  function Band(ring: int, ts: int): (b: seq<int>)
    requires 0 < ts
    ensures |b| == 6 * ts
    ensures forall k :: 0 <= k < |b| ==> ring * ts <= b[k] < (ring + 2) * ts
  {
    assert (ring + 1) * ts == ring * ts + ts && (ring + 2) * ts == ring * ts + 2 * ts;
    seq(6 * ts, k => QuadCorner(ring, k / 6, ts, k % 6))
  }

  /** The first `count` bands, one after another */
  function Bands(count: int, ts: int): (tris: seq<int>)
    requires 0 < ts && 0 <= count
  {
    if count == 0 then [] else Bands(count - 1, ts) + Band(count - 1, ts)
  }

  /** The first `count` bands hold 6 tubeSegments indices each, every one below (count + 1) tubeSegments */
  lemma {:induction false} BandsShape(count: int, ts: int)
    requires 0 < ts && 0 <= count
    ensures |Bands(count, ts)| == count * (6 * ts)
    ensures forall k :: 0 <= k < |Bands(count, ts)| ==> 0 <= Bands(count, ts)[k] < (count + 1) * ts
  {
    if count > 0 {
      BandsShape(count - 1, ts);
      MulSucc(count - 1, 6 * ts);
      MulSucc(count, ts);
      assert 0 <= (count - 1) * ts;
    }
  }

  /** The triangle list as written: one band per ring, `rings` bands where only rings - 1 gaps exist */
  function AsWrittenTriangles(curves: int, spc: int, ts: int): seq<int>
    requires 0 <= curves && 0 < spc && 0 < ts
  {
    Bands(Rings(curves, spc), ts)
  }

  /** As written, the list holds 6 tubeSegments indices for each of the `rings` bands: the corrected
      list followed by one band too many. That final band's currentNext and nextNext are
      vertexCount + j and vertexCount + (j + 1) % tubeSegments: indices past the end of the vertex list. */
  lemma AsWrittenFinalBandOutOfRange(curves: int, spc: int, ts: int, j: int)
    requires 1 <= curves && 0 < spc && 0 < ts && 0 <= j < ts
    ensures var tris, rings := AsWrittenTriangles(curves, spc, ts), Rings(curves, spc);
      var b := (rings - 1) * (6 * ts) + 6 * j;
      |tris| == rings * (6 * ts) && tris == TubeTriangles(curves, spc, ts) + Band(rings - 1, ts) &&
      0 <= b && b + 5 < |tris| &&
      tris[b + 1] == rings * ts + j && tris[b + 5] == rings * ts + (j + 1) % ts &&
      tris[b + 1] >= rings * ts && tris[b + 5] >= rings * ts
  {
    var rings := Rings(curves, spc);
    var front := Bands(rings - 1, ts);
    var last := Band(rings - 1, ts);
    BandsShape(rings - 1, ts);
    MulSucc(rings - 1, 6 * ts);
    assert AsWrittenTriangles(curves, spc, ts) == front + last;
    assert 0 <= (rings - 1) * ts;
    assert (6 * j + 1) / 6 == j && (6 * j + 1) % 6 == 1;
    assert (6 * j + 5) / 6 == j && (6 * j + 5) % 6 == 5;
    assert last[6 * j + 1] == QuadCorner(rings - 1, j, ts, 1);
    assert last[6 * j + 5] == QuadCorner(rings - 1, j, ts, 5);
  }

  /** The corrected triangle list: rings - 1 bands, one per gap between consecutive rings */
  function TubeTriangles(curves: int, spc: int, ts: int): seq<int>
    requires 1 <= curves && 0 < spc && 0 < ts
  {
    Bands(Rings(curves, spc) - 1, ts)
  }

  // ---------------------------------------------------------------- the mesh

  /** The mesh GenerateMesh builds from at least four control points */
  function TubeMesh(num: Numerics, pts: seq<ControlPoint>, spc: int, ts: int): MeshData
    requires 4 <= |pts| && 0 < spc && 0 < ts
  {
    var nc := NumCurves(|pts|);
    MeshData(TubeVertices(num, Segments(pts, nc), spc, ts), TubeUVs(spc, ts, nc), TubeTriangles(nc, spc, ts))
  }

  /** Vertices and uvs number numCurves (segmentsPerCurve + 1) tubeSegments, one ring per sample; the
      triangle list has 6 tubeSegments (rings - 1) entries, every one a valid vertex index; every uv has
      u in [0, 1) and v in [0, 1]. */
  lemma TubeMeshShape(num: Numerics, pts: seq<ControlPoint>, spc: int, ts: int)
    requires 4 <= |pts| && 0 < spc && 0 < ts
    ensures var m, nc := TubeMesh(num, pts, spc, ts), NumCurves(|pts|);
      |m.vertices| == |m.uv| == nc * ((spc + 1) * ts) &&
      |m.triangles| == (Rings(nc, spc) - 1) * (6 * ts) &&
      (forall k :: 0 <= k < |m.triangles| ==> 0 <= m.triangles[k] < |m.vertices|) &&
      (forall k :: 0 <= k < |m.uv| ==> 0.0 <= m.uv[k].x < 1.0 && 0.0 <= m.uv[k].y <= 1.0)
  {
    var nc := NumCurves(|pts|);
    CurveIndices(|pts|);
    TubeLength(num, Segments(pts, nc), spc, ts);
    RingsAreEmitted(num, Segments(pts, nc), spc, ts);
    BandsShape(Rings(nc, spc) - 1, ts);
    TubeUVsRange(spc, ts, nc);
  }

  /** Proof helper, no source counterpart: concatenation is associative */
  lemma AppendAssoc<T>(a: seq<T>, b: seq<T>, c: seq<T>)
    ensures (a + b) + c == a + (b + c)
  {
  }

  /** One pass of the sample loop: the curve point, radius and frame at t = i / segmentsPerCurve,
      then the ring loop appending the ring's vertices and uvs; with no ring vertices the ring loop
      appends nothing */
  method EmitRing(num: Numerics, sg: Segment, spc: int, ts: int, i: int, vertices: seq<Vec3>, uvs: seq<Vec2>)
    returns (vs: seq<Vec3>, us: seq<Vec2>)
    requires 0 < spc
    ensures 0 < ts ==> vs == vertices + SampleRing(num, sg, spc, ts, i)
    ensures 0 < ts ==> us == uvs + RingUVs(ts, SampleT(i, spc))
    ensures ts <= 0 ==> vs == vertices && us == uvs
  {
    var t := SampleT(i, spc);
    var pos := CubicBezier(sg.p0.position, sg.p1.position, sg.p2.position, sg.p3.position, t);
    var radius := Lerp(sg.p0.thickness, sg.p3.thickness, t) * 0.5;
    var f := RingFrame(num, CubicBezierTangent(sg.p0.position, sg.p1.position, sg.p2.position, sg.p3.position, t));
    ghost var ring: seq<Vec3>, ringUVs: seq<Vec2> := [], [];
    if 0 < ts {
      ring, ringUVs := Ring(num, pos, f, radius, ts), RingUVs(ts, t);
    }
    vs, us := vertices, uvs;
    var j := 0;
    while j < ts
      invariant 0 <= j <= |ring| && |ringUVs| == |ring| && (0 < ts ==> |ring| == ts)
      invariant 0 < ts ==> ring == Ring(num, pos, f, radius, ts) && ringUVs == RingUVs(ts, t)
      invariant vs == vertices + ring[..j]
      invariant us == uvs + ringUVs[..j]
    {
      var angle := SampleT(j, ts) * PI * 2.0;
      var offset := Scale(radius, Add(Scale(num.cos(angle), f.right), Scale(num.sin(angle), f.up)));
      assert ring[..j + 1] == ring[..j] + [Add(pos, offset)];
      assert ringUVs[..j + 1] == ringUVs[..j] + [Vec2(SampleT(j, ts), t)];
      vs := vs + [Add(pos, offset)];
      us := us + [Vec2(SampleT(j, ts), t)];
      j := j + 1;
    }
    assert ring[..|ring|] == ring && ringUVs[..|ringUVs|] == ringUVs;
  }

  /** The sample loop of one segment: a ring per sample t = i / segmentsPerCurve, i = 0 .. segmentsPerCurve;
      with a negative segmentsPerCurve it never runs */
  method EmitCurve(num: Numerics, sg: Segment, spc: int, ts: int, vertices: seq<Vec3>, uvs: seq<Vec2>)
    returns (vs: seq<Vec3>, us: seq<Vec2>)
    requires spc != 0
    ensures 0 < spc && 0 < ts ==> vs == vertices + CurveVertices(num, sg, spc, ts, spc + 1)
    ensures 0 < spc && 0 < ts ==> us == uvs + CurveUVs(spc, ts, spc + 1)
    ensures spc < 0 || ts <= 0 ==> vs == vertices && us == uvs
  {
    vs, us := vertices, uvs;
    var i := 0;
    while i <= spc
      invariant 0 <= i && (0 < spc ==> i <= spc + 1) && (spc < 0 ==> i == 0)
      invariant 0 < spc && 0 < ts ==> vs == vertices + CurveVertices(num, sg, spc, ts, i)
      invariant 0 < spc && 0 < ts ==> us == uvs + CurveUVs(spc, ts, i)
      invariant i == 0 || ts <= 0 ==> vs == vertices && us == uvs
    {
      vs, us := EmitRing(num, sg, spc, ts, i, vs, us);
      if 0 < ts {
        AppendAssoc(vertices, CurveVertices(num, sg, spc, ts, i), SampleRing(num, sg, spc, ts, i));
        AppendAssoc(uvs, CurveUVs(spc, ts, i), RingUVs(ts, SampleT(i, spc)));
      }
      i := i + 1;
    }
  }

  /** One pass of the stitching loop: the six indices of every column of band `ring`; with no ring
      vertices the column loop appends nothing and no `%` is evaluated */
  method EmitBand(ring: int, ts: int, triangles: seq<int>) returns (tris: seq<int>)
    ensures 0 < ts ==> tris == triangles + Band(ring, ts)
    ensures ts <= 0 ==> tris == triangles
  {
    tris := triangles;
    ghost var band: seq<int> := [];
    if 0 < ts {
      band := Band(ring, ts);
    }
    var j := 0;
    while j < ts
      invariant 0 <= j && 6 * j <= |band| && (0 < ts ==> band == Band(ring, ts) && j <= ts)
      invariant tris == triangles + band[..6 * j]
    {
      var current := ring * ts + j;
      var next := ring * ts + (j + 1) % ts;
      var currentNext := (ring + 1) * ts + j;
      var nextNext := (ring + 1) * ts + (j + 1) % ts;
      var quad := [current, currentNext, next, next, currentNext, nextNext];
      assert band[..6 * j + 6] == band[..6 * j] + quad by {
        forall c | 0 <= c < 6 ensures band[6 * j + c] == quad[c] {
          assert (6 * j + c) / 6 == j && (6 * j + c) % 6 == c;
        }
      }
      tris := tris + quad;
      j := j + 1;
    }
    assert band[..|band|] == band;
  }

  /** The stitching loop over the first `bands` bands; nothing when `bands` is not positive */
  method StitchRings(bands: int, ts: int) returns (triangles: seq<int>)
    ensures 0 <= bands && 0 < ts ==> triangles == Bands(bands, ts)
    ensures bands <= 0 || ts <= 0 ==> triangles == []
  {
    triangles := [];
    var ring := 0;
    while ring < bands
      invariant 0 <= ring && (ring <= bands || ring == 0)
      invariant 0 < ts ==> triangles == Bands(ring, ts)
      invariant ring == 0 || ts <= 0 ==> triangles == []
    {
      triangles := EmitBand(ring, ts, triangles);
      ring := ring + 1;
    }
  }

  /** Visiting one more segment appends that segment's rings */
  lemma TubeVerticesAppend(num: Numerics, segs: seq<Segment>, sg: Segment, spc: int, ts: int)
    requires 0 < spc && 0 < ts
    ensures TubeVertices(num, segs + [sg], spc, ts) == TubeVertices(num, segs, spc, ts) + CurveVertices(num, sg, spc, ts, spc + 1)
  {
    assert (segs + [sg])[..|segs|] == segs;
  }

  /** The segment list grows by segment c, the one starting at control point 3c */
  lemma SegmentsStep(pts: seq<ControlPoint>, c: int)
    requires 0 <= c && 3 * c + 4 <= |pts|
    ensures Segments(pts, c + 1) == Segments(pts, c) + [Segment(pts[3 * c], pts[3 * c + 1], pts[3 * c + 2], pts[3 * c + 3])]
  {
  }

  /** The curve loop: for every whole segment c, control points 3c .. 3c + 3, the segment's rings;
      with a negative segmentsPerCurve or no ring vertices the inner loops emit nothing */
  method EmitTube(num: Numerics, pts: seq<ControlPoint>, spc: int, ts: int) returns (vertices: seq<Vec3>, uvs: seq<Vec2>)
    requires 4 <= |pts| && spc != 0
    ensures 0 < spc && 0 < ts ==> vertices == TubeVertices(num, Segments(pts, NumCurves(|pts|)), spc, ts)
    ensures 0 < spc && 0 < ts ==> uvs == TubeUVs(spc, ts, NumCurves(|pts|))
    ensures spc < 0 || ts <= 0 ==> vertices == [] && uvs == []
  {
    vertices, uvs := [], [];
    var numCurves := (|pts| - 1) / 3;
    assert numCurves == NumCurves(|pts|);
    CurveIndices(|pts|);
    ghost var segs: seq<Segment> := [];
    var c := 0;
    while c < numCurves
      invariant 0 <= c <= numCurves
      invariant segs == Segments(pts, c)
      invariant 0 < spc && 0 < ts ==> vertices == TubeVertices(num, segs, spc, ts)
      invariant 0 < spc && 0 < ts ==> uvs == TubeUVs(spc, ts, c)
      invariant spc < 0 || ts <= 0 ==> vertices == [] && uvs == []
    {
      var baseIndex := c * 3;
      var p0 := pts[baseIndex];
      var p1 := pts[baseIndex + 1];
      var p2 := pts[baseIndex + 2];
      var p3 := pts[baseIndex + 3];
      var segment := Segment(p0, p1, p2, p3);
      if 0 < spc && 0 < ts {
        TubeVerticesAppend(num, segs, segment, spc, ts);
        assert TubeUVs(spc, ts, c + 1) == TubeUVs(spc, ts, c) + CurveUVs(spc, ts, spc + 1);
      }
      SegmentsStep(pts, c);
      vertices, uvs := EmitCurve(num, segment, spc, ts, vertices, uvs);
      assert segs + [segment] == Segments(pts, c + 1);
      segs := segs + [segment];
      c := c + 1;
    }
  }

  /** The body of GenerateMesh past its guard: the curve loop, then the stitching of the rings - 1
      gaps between consecutive rings. A negative segmentsPerCurve or a non-positive tubeSegments
      leaves every inner loop empty. */
  method BuildTube(num: Numerics, pts: seq<ControlPoint>, spc: int, ts: int) returns (m: MeshData)
    requires 4 <= |pts| && spc != 0
    ensures 0 < spc && 0 < ts ==> m == TubeMesh(num, pts, spc, ts)
    ensures spc < 0 || ts <= 0 ==> m == EmptyMesh
  {
    var numCurves := (|pts| - 1) / 3;
    var vertices, uvs := EmitTube(num, pts, spc, ts);
    var rings := spc * numCurves + numCurves;
    assert numCurves == NumCurves(|pts|) && rings == Rings(numCurves, spc);
    CurveIndices(|pts|);
    RingsSign(numCurves, spc);
    var triangles := StitchRings(rings - 1, ts);
    m := MeshData(vertices, uvs, triangles);
    if 0 < spc && 0 < ts {
      assert triangles == TubeTriangles(numCurves, spc, ts);
    } else {
      assert vertices == [] && uvs == [] && triangles == [];
    }
  }

  class ThickBezierCurve {
    var controlPoints: Option<seq<ControlPoint>>
    var segmentsPerCurve: int
    var tubeSegments: int
    var mesh: MeshData

    /** The inspector defaults; no control points yet */
    constructor ()
      ensures controlPoints == None && segmentsPerCurve == 20 && tubeSegments == 8 && mesh == EmptyMesh
    {
      controlPoints := None;
      segmentsPerCurve := 20;
      tubeSegments := 8;
      mesh := EmptyMesh;
    }

    /** Whether GenerateMesh gets past its guard: the control points exist and number at least four */
    predicate Generates()
      reads this
    {
      controlPoints.Some? && 4 <= |controlPoints.value|
    }

    /** Rebuilds the tube from the control points; without at least four of them, leaves the mesh alone.
        A negative segmentsPerCurve or a non-positive tubeSegments leaves every inner loop empty, so the
        mesh gets empty buffers. The stitching covers the rings - 1 gaps between consecutive rings; the
        loop as written stitches `rings` bands (AsWrittenTriangles). */
    method GenerateMesh(num: Numerics)
      requires segmentsPerCurve != 0
      modifies this
      ensures controlPoints == old(controlPoints)
      ensures segmentsPerCurve == old(segmentsPerCurve) && tubeSegments == old(tubeSegments)
      ensures !Generates() ==> mesh == old(mesh)
      ensures Generates() && 0 < segmentsPerCurve && 0 < tubeSegments ==>
        mesh == TubeMesh(num, controlPoints.value, segmentsPerCurve, tubeSegments)
      ensures Generates() && (segmentsPerCurve < 0 || tubeSegments <= 0) ==> mesh == EmptyMesh
    {
      if controlPoints.None? || |controlPoints.value| < 4 {
        return;
      }
      mesh := BuildTube(num, controlPoints.value, segmentsPerCurve, tubeSegments);
    }

    /** Start regenerates the mesh */
    method Start(num: Numerics)
      requires segmentsPerCurve != 0
      modifies this
      ensures controlPoints == old(controlPoints)
      ensures segmentsPerCurve == old(segmentsPerCurve) && tubeSegments == old(tubeSegments)
      ensures !Generates() ==> mesh == old(mesh)
      ensures Generates() && 0 < segmentsPerCurve && 0 < tubeSegments ==>
        mesh == TubeMesh(num, controlPoints.value, segmentsPerCurve, tubeSegments)
      ensures Generates() && (segmentsPerCurve < 0 || tubeSegments <= 0) ==> mesh == EmptyMesh
    {
      GenerateMesh(num);
    }

    /** OnValidate regenerates the mesh after an inspector edit */
    method OnValidate(num: Numerics)
      requires segmentsPerCurve != 0
      modifies this
      ensures controlPoints == old(controlPoints)
      ensures segmentsPerCurve == old(segmentsPerCurve) && tubeSegments == old(tubeSegments)
      ensures !Generates() ==> mesh == old(mesh)
      ensures Generates() && 0 < segmentsPerCurve && 0 < tubeSegments ==>
        mesh == TubeMesh(num, controlPoints.value, segmentsPerCurve, tubeSegments)
      ensures Generates() && (segmentsPerCurve < 0 || tubeSegments <= 0) ==> mesh == EmptyMesh
    {
      GenerateMesh(num);
    }
  }
}
