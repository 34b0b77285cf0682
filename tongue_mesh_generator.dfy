/** The tongue: two quadratic Bezier edges from baseLeft and baseRight that bow outward by
    `bulge` and meet at tipPoint, sampled into a strip whose last quarter is eased onto the tip. */
module Tongue {
  import opened UnityEngine
  import opened Curves
  import Lip

  /** The generator's inputs, as one value */
  datatype TongueShape = TongueShape(
    baseLeft: Vec3, baseRight: Vec3, tip: Vec3,
    bulge: real, tipTaper: real, segments: int)

  /** Midpoint of the base */
  function BaseMid(s: TongueShape): Vec3 {
    Scale(0.5, Add(s.baseLeft, s.baseRight))
  }

  /** The control point of an edge starting at `base`: half way from the base midpoint towards the tip,
      pushed sideways along `side` by bulge times half the base width */
  function EdgeControl(num: Numerics, s: TongueShape, base: Vec3, side: Vec3): Vec3 {
    Add(Add(base, Scale(0.5, Sub(s.tip, BaseMid(s)))),
        Scale(0.5, Scale(Distance(num, s.baseLeft, s.baseRight), Scale(s.bulge, side))))
  }

  /** Left edge: baseLeft, bowed leftwards, to tipPoint */
  function LeftEdge(num: Numerics, s: TongueShape, t: real): (p: Vec3)
    ensures t == 0.0 ==> p == s.baseLeft
    ensures t == 1.0 ==> p == s.tip
  {
    QuadraticBezier(s.baseLeft, EdgeControl(num, s, s.baseLeft, Left), s.tip, t)
  }

  /** Right edge: baseRight, bowed rightwards, to tipPoint */
  function RightEdge(num: Numerics, s: TongueShape, t: real): (p: Vec3)
    ensures t == 0.0 ==> p == s.baseRight
    ensures t == 1.0 ==> p == s.tip
  {
    QuadraticBezier(s.baseRight, EdgeControl(num, s, s.baseRight, Right), s.tip, t)
  }

  /** The taper step: a lerp from the tip towards the edge point by `1 - Pow(1 - t, tipTaper) * 0` */
  function Tapered(num: Numerics, s: TongueShape, v: Vec3, t: real): Vec3 {
    V3Lerp(s.tip, v, 1.0 - num.pow(1.0 - t, s.tipTaper) * 0.0)
  }

  /** Edge point k of the first pass: left edge at even k, right edge at odd k, column k / 2 */
  function EdgeVertex(num: Numerics, s: TongueShape, k: int): Vec3
    requires 0 < s.segments
  {
    var t := SampleT(k / 2, s.segments);
    if k % 2 == 0 then Tapered(num, s, LeftEdge(num, s, t), t) else Tapered(num, s, RightEdge(num, s, t), t)
  }

  /** The first column of the cap: `Max(0, segments - segments / 4)` */
  function TipStart(segments: int): int {
    var ts := segments - segments / 4;
    if 0 > ts then 0 else ts
  }

  /** Where column i sits in the cap: `(float)(i - tipStart) / (segments - tipStart)`,
      0 on the first cap column and 1 on the last */
  function CapParameter(segments: int, i: int): (r: real)
    requires 4 <= segments
    ensures i == TipStart(segments) ==> r == 0.0
    ensures i == segments ==> r == 1.0
  {
    var ts := TipStart(segments);
    var d := segments - ts;
    assert d > 0 by { TipStartBounds(segments); }
    assert (d as real) / (d as real) == 1.0;
    (i - ts) as real / d as real
  }

  /** The cap blend of column i: SmoothStep(0, 1, CapParameter) */
  function CapBlend(segments: int, i: int): real
    requires 4 <= segments
  {
    SmoothStep(0.0, 1.0, CapParameter(segments, i))
  }

  /** What the cap pass makes of the point v of column i: columns from tipStart on are pulled
      towards the tip by their blend, earlier ones are left alone */
  function CapVertex(s: TongueShape, v: Vec3, i: int): Vec3
    requires 4 <= s.segments
  {
    if i >= TipStart(s.segments) then V3Lerp(v, s.tip, CapBlend(s.segments, i)) else v
  }

  /** Vertex k after the cap pass */
  function TongueVertex(num: Numerics, s: TongueShape, k: int): Vec3
    requires 4 <= s.segments
  {
    CapVertex(s, EdgeVertex(num, s, k), k / 2)
  }

  /** The vertex buffer after the edge pass */
  function EdgeVertices(num: Numerics, s: TongueShape): (vs: seq<Vec3>)
    requires 0 < s.segments
    ensures |vs| == 2 * (s.segments + 1)
  {
    seq(2 * (s.segments + 1), k => EdgeVertex(num, s, k))
  }

  /** The vertex buffer after the cap pass */
  function TongueVertices(num: Numerics, s: TongueShape): (vs: seq<Vec3>)
    requires 4 <= s.segments
    ensures |vs| == 2 * (s.segments + 1)
  {
    seq(2 * (s.segments + 1), k => TongueVertex(num, s, k))
  }

  /** UV buffer: u = 0 on the left edge and 1 on the right edge, v = t along the tongue */
  function TongueUVs(segments: int): (uv: seq<Vec2>)
    requires 0 < segments
    ensures |uv| == 2 * (segments + 1)
  {
    seq(2 * (segments + 1), k =>
      Vec2(if k % 2 == 0 then 0.0 else 1.0, SampleT(k / 2, segments)))
  }

  /** Corner c (0..5) of the two triangles of segment i: (vi, vi+1, vi+2) and (vi+1, vi+3, vi+2) */
  function TongueCorner(i: int, c: int): int {
    var vi := 2 * i;
    if c == 0 then vi
    else if c == 1 then vi + 1
    else if c == 2 then vi + 2
    else if c == 3 then vi + 1
    else if c == 4 then vi + 3
    else vi + 2
  }

  /** Triangle buffer: six indices per segment, every one a valid vertex index */
  function TongueTriangles(segments: int): (tris: seq<int>)
    requires 0 < segments
    ensures |tris| == 6 * segments
    ensures forall k :: 0 <= k < |tris| ==> 0 <= tris[k] < 2 * (segments + 1)
  {
    seq(6 * segments, k => TongueCorner(k / 6, k % 6))
  }

  /** The mesh GenerateMesh produces */
  function TongueMesh(num: Numerics, s: TongueShape): MeshData
    requires 4 <= s.segments
  {
    MeshData(TongueVertices(num, s), TongueUVs(s.segments), TongueTriangles(s.segments))
  }

  /** Buffer sizes: 2(segments+1) vertices and uvs, 6 segments triangle indices, all in range. */
  lemma TongueMeshSizes(num: Numerics, s: TongueShape)
    requires 4 <= s.segments
    ensures var m := TongueMesh(num, s);
      |m.vertices| == |m.uv| == 2 * (s.segments + 1) && |m.triangles| == 6 * s.segments &&
      forall k :: 0 <= k < |m.triangles| ==> 0 <= m.triangles[k] < |m.vertices|
  {
  }

  /** Each segment's triangles are (vi, vi+1, vi+2) and (vi+1, vi+3, vi+2), with three distinct corners each. */
  lemma TongueTrianglesOfSegment(segments: int, i: int)
    requires 0 < segments && 0 <= i < segments
    ensures var tris, vi := TongueTriangles(segments), 2 * i;
      tris[6 * i] == vi && tris[6 * i + 1] == vi + 1 && tris[6 * i + 2] == vi + 2 &&
      tris[6 * i + 3] == vi + 1 && tris[6 * i + 4] == vi + 3 && tris[6 * i + 5] == vi + 2 &&
      NonDegenerate(tris[6 * i], tris[6 * i + 1], tris[6 * i + 2]) &&
      NonDegenerate(tris[6 * i + 3], tris[6 * i + 4], tris[6 * i + 5])
  {
    var tris := TongueTriangles(segments);
    forall c | 0 <= c < 6 ensures tris[6 * i + c] == TongueCorner(i, c) {
      assert (6 * i + c) / 6 == i && (6 * i + c) % 6 == c;
    }
  }

  /** The tongue's triangles wind the opposite way to the lip's: each has the same first corner
      as the lip's triangle in the same slot, with its second and third corners swapped. */
  lemma OppositeWindingToLip(segments: int, i: int)
    requires 0 < segments && 0 <= i < segments
    ensures var tongue, lip, b := TongueTriangles(segments), Lip.LipTriangles(segments), 6 * i;
      tongue[b] == lip[b] && tongue[b + 1] == lip[b + 2] && tongue[b + 2] == lip[b + 1] &&
      tongue[b + 3] == lip[b + 3] && tongue[b + 4] == lip[b + 5] && tongue[b + 5] == lip[b + 4]
  {
    TongueTrianglesOfSegment(segments, i);
    Lip.LipTrianglesOfSegment(segments, i);
  }

  /** Whatever the bulge, the left edge runs from baseLeft to the tip and the right edge from baseRight to the tip. */
  lemma EdgeEndpoints(num: Numerics, s: TongueShape)
    ensures LeftEdge(num, s, 0.0) == s.baseLeft && RightEdge(num, s, 0.0) == s.baseRight
    ensures LeftEdge(num, s, 1.0) == s.tip && RightEdge(num, s, 1.0) == s.tip
  {
  }

  /** Mirror image in the plane x = 0 */
  function Mirror(v: Vec3): Vec3 {
    Vec3(-v.x, v.y, v.z)
  }

  /** One coordinate of MirrorBezier: negating the control values negates the curve */
  lemma QuadraticNegate(a: real, b: real, c: real, t: real)
    ensures QuadraticScalar(-a, -b, -c, t) == -QuadraticScalar(a, b, c, t)
  {
  }

  /** Mirroring commutes with the quadratic Bezier: the curve through mirrored points is the mirrored curve. */
  lemma MirrorBezier(p0: Vec3, p1: Vec3, p2: Vec3, t: real)
    ensures QuadraticBezier(Mirror(p0), Mirror(p1), Mirror(p2), t) == Mirror(QuadraticBezier(p0, p1, p2, t))
  {
    QuadraticNegate(p0.x, p1.x, p2.x, t);
  }

  /** A tongue whose base is symmetric about x = 0 and whose tip lies on that plane has mirror-image edges. */
  lemma EdgesMirror(num: Numerics, s: TongueShape, t: real)
    requires s.baseRight == Mirror(s.baseLeft) && s.tip.x == 0.0
    ensures RightEdge(num, s, t) == Mirror(LeftEdge(num, s, t))
  {
    var w := 0.5 * (Distance(num, s.baseLeft, s.baseRight) * s.bulge);
    var cl := EdgeControl(num, s, s.baseLeft, Left);
    var cr := EdgeControl(num, s, s.baseRight, Right);
    assert BaseMid(s).x == 0.0;
    assert cl.x == s.baseLeft.x + 0.5 * s.tip.x - w;
    assert cr.x == s.baseRight.x + 0.5 * s.tip.x + w;
    assert cr == Mirror(cl);
    assert s.tip == Mirror(s.tip);
    MirrorBezier(s.baseLeft, cl, s.tip, t);
  }

  /** The taper step is the identity: its lerp factor is always 1. */
  lemma TaperIsIdentity(num: Numerics, s: TongueShape, v: Vec3, t: real)
    ensures Tapered(num, s, v, t) == v
  {
  }

  /** tipStart lies in [0, segments]; the cap has a positive width exactly when segments >= 4. */
  lemma TipStartBounds(segments: int)
    requires 0 <= segments
    ensures 0 <= TipStart(segments) <= segments
    ensures segments - TipStart(segments) > 0 <==> 4 <= segments
  {
  }

  /** The cap blend is 0 on the first cap column and 1 on the last. */
  lemma CapBlendEnds(segments: int)
    requires 4 <= segments
    ensures CapBlend(segments, TipStart(segments)) == 0.0
    ensures CapBlend(segments, segments) == 1.0
  {
  }

  /** The cap pass leaves a point of a column up to tipStart where it is, and puts a point of the last column on the tip. */
  lemma CapVertexEnds(s: TongueShape, v: Vec3, i: int)
    requires 4 <= s.segments
    ensures i <= TipStart(s.segments) ==> CapVertex(s, v, i) == v
    ensures CapVertex(s, v, s.segments) == s.tip
  {
    TipStartBounds(s.segments);
    CapBlendEnds(s.segments);
  }

  /** Element k of the vertex buffer after the cap pass */
  lemma TongueVertexAt(num: Numerics, s: TongueShape, k: int)
    requires 4 <= s.segments && 0 <= k < 2 * (s.segments + 1)
    ensures TongueVertices(num, s)[k] == TongueVertex(num, s, k)
  {
  }

  /** The cap pass works point by point: vertex k after it is CapVertex of vertex k before it. */
  lemma CapPointwise(num: Numerics, s: TongueShape, k: int)
    requires 4 <= s.segments && 0 <= k < 2 * (s.segments + 1)
    ensures TongueVertices(num, s)[k] == CapVertex(s, EdgeVertices(num, s)[k], k / 2)
  {
  }

  /** The cap pass leaves every vertex before column tipStart, and the pair at tipStart itself, as the edge pass left them. */
  lemma CapKeepsPrefix(num: Numerics, s: TongueShape, k: int)
    requires 4 <= s.segments && 0 <= k < 2 * TipStart(s.segments) + 2
    ensures TongueVertices(num, s)[k] == EdgeVertices(num, s)[k]
  {
    TipStartBounds(s.segments);
    CapPointwise(num, s, k);
    CapVertexEnds(s, EdgeVertices(num, s)[k], k / 2);
  }

  /** The last two vertices, the pair of the last column, are the tip exactly. */
  lemma TongueTip(num: Numerics, s: TongueShape, k: int)
    requires 4 <= s.segments && 2 * s.segments <= k < 2 * s.segments + 2
    ensures TongueVertices(num, s)[k] == s.tip
  {
    assert k / 2 == s.segments;
    TongueVertexAt(num, s, k);
    CapVertexEnds(s, EdgeVertex(num, s, k), s.segments);
  }

  /** The first two vertices are the base points. */
  lemma TongueBase(num: Numerics, s: TongueShape)
    requires 4 <= s.segments
    ensures TongueVertices(num, s)[0] == s.baseLeft
    ensures TongueVertices(num, s)[1] == s.baseRight
  {
    CapKeepsPrefix(num, s, 0);
    CapKeepsPrefix(num, s, 1);
  }

  /** UVs: the left edge at u = 0, the right edge at u = 1, both at v = t in [0,1]. */
  lemma TongueUVLayout(segments: int, i: int)
    requires 0 < segments && 0 <= i <= segments
    ensures var uv, t := TongueUVs(segments), SampleT(i, segments);
      uv[2 * i] == Vec2(0.0, t) && uv[2 * i + 1] == Vec2(1.0, t) && 0.0 <= t <= 1.0
  {
    assert (2 * i + 1) / 2 == i && (2 * i) / 2 == i;
  }

  /** Column i of the edge pass: the tapered left and right edge points at 2i and 2i+1, with their uvs */
  lemma EdgeColumn(num: Numerics, s: TongueShape, i: int)
    requires 0 < s.segments && 0 <= i <= s.segments
    ensures var t := SampleT(i, s.segments);
      EdgeVertices(num, s)[2 * i] == Tapered(num, s, LeftEdge(num, s, t), t) &&
      EdgeVertices(num, s)[2 * i + 1] == Tapered(num, s, RightEdge(num, s, t), t) &&
      TongueUVs(s.segments)[2 * i] == Vec2(0.0, t) &&
      TongueUVs(s.segments)[2 * i + 1] == Vec2(1.0, t)
  {
    assert (2 * i) / 2 == i && (2 * i + 1) / 2 == i;
  }

  /** One pass of the edge loop of GenerateMesh: writes column i and leaves every other slot alone */
  method WriteEdgeColumn(num: Numerics, s: TongueShape, vertices: array<Vec3>, uvs: array<Vec2>, i: int)
    requires 0 < s.segments && vertices.Length == uvs.Length == 2 * (s.segments + 1)
    requires 0 <= i <= s.segments
    modifies vertices, uvs
    ensures vertices[2 * i] == EdgeVertices(num, s)[2 * i]
    ensures vertices[2 * i + 1] == EdgeVertices(num, s)[2 * i + 1]
    ensures uvs[2 * i] == TongueUVs(s.segments)[2 * i]
    ensures uvs[2 * i + 1] == TongueUVs(s.segments)[2 * i + 1]
    ensures forall k :: 0 <= k < vertices.Length && k != 2 * i && k != 2 * i + 1 ==>
      vertices[k] == old(vertices[k]) && uvs[k] == old(uvs[k])
  {
    var t := SampleT(i, s.segments);
    var taper := num.pow(1.0 - t, s.tipTaper);
    var left := LeftEdge(num, s, t);
    var right := RightEdge(num, s, t);
    left := V3Lerp(s.tip, left, 1.0 - taper * 0.0);
    right := V3Lerp(s.tip, right, 1.0 - taper * 0.0);
    EdgeColumn(num, s, i);
    vertices[2 * i] := left;
    vertices[2 * i + 1] := right;
    uvs[2 * i] := Vec2(0.0, t);
    uvs[2 * i + 1] := Vec2(1.0, t);
  }

  /** The edge loop of GenerateMesh: a left and a right edge point per column, with their uvs */
  method FillEdges(num: Numerics, s: TongueShape, vertices: array<Vec3>, uvs: array<Vec2>)
    requires 0 < s.segments && vertices.Length == uvs.Length == 2 * (s.segments + 1)
    modifies vertices, uvs
    ensures vertices[..] == EdgeVertices(num, s)
    ensures uvs[..] == TongueUVs(s.segments)
  {
    ghost var targetVertices := EdgeVertices(num, s);
    ghost var targetUVs := TongueUVs(s.segments);
    var i := 0;
    while i <= s.segments
      invariant 0 <= i <= s.segments + 1
      invariant forall k :: 0 <= k < 2 * i ==> vertices[k] == targetVertices[k] && uvs[k] == targetUVs[k]
    {
      WriteEdgeColumn(num, s, vertices, uvs, i);
      i := i + 1;
    }
    assert vertices[..] == targetVertices by {
      forall k | 0 <= k < vertices.Length ensures vertices[..][k] == targetVertices[k] {
      }
    }
    assert uvs[..] == targetUVs by {
      forall k | 0 <= k < uvs.Length ensures uvs[..][k] == targetUVs[k] {
      }
    }
  }

  /** The cap loop of GenerateMesh: eases the pairs from tipStart on towards the tip, in place;
      every vertex becomes CapVertex of what it was */
  method BlendCap(s: TongueShape, vertices: array<Vec3>)
    requires 4 <= s.segments && vertices.Length == 2 * (s.segments + 1)
    modifies vertices
    ensures forall k :: 0 <= k < vertices.Length ==> vertices[k] == CapVertex(s, old(vertices[k]), k / 2)
  {
    var tipStart := TipStart(s.segments);
    TipStartBounds(s.segments);
    forall k | 0 <= k < 2 * tipStart
      ensures vertices[k] == CapVertex(s, vertices[k], k / 2)
    {
      CapVertexEnds(s, vertices[k], k / 2);
    }
    var i := tipStart;
    while i <= s.segments
      invariant tipStart <= i <= s.segments + 1
      invariant forall k :: 0 <= k < 2 * i ==> vertices[k] == CapVertex(s, old(vertices[k]), k / 2)
      invariant forall k :: 2 * i <= k < vertices.Length ==> vertices[k] == old(vertices[k])
    {
      var localT := CapParameter(s.segments, i);
      var blend := SmoothStep(0.0, 1.0, localT);
      assert (2 * i) / 2 == i && (2 * i + 1) / 2 == i;
      vertices[2 * i] := V3Lerp(vertices[2 * i], s.tip, blend);
      vertices[2 * i + 1] := V3Lerp(vertices[2 * i + 1], s.tip, blend);
      i := i + 1;
    }
  }

  /** The triangle loop of GenerateMesh: two triangles per segment */
  method FillTongueTriangles(segments: int, triangles: array<int>)
    requires 0 < segments && triangles.Length == 6 * segments
    modifies triangles
    ensures triangles[..] == TongueTriangles(segments)
  {
    var i := 0;
    while i < segments
      invariant 0 <= i <= segments
      invariant forall j, c :: 0 <= j < i && 0 <= c < 6 ==> triangles[6 * j + c] == TongueCorner(j, c)
    {
      var bi := 6 * i;
      var vi := 2 * i;
      triangles[bi + 0] := vi;
      triangles[bi + 1] := vi + 1;
      triangles[bi + 2] := vi + 2;
      triangles[bi + 3] := vi + 1;
      triangles[bi + 4] := vi + 3;
      triangles[bi + 5] := vi + 2;
      i := i + 1;
    }
    ghost var target := TongueTriangles(segments);
    assert triangles[..] == target by {
      forall k | 0 <= k < triangles.Length ensures triangles[..][k] == target[k] {
        assert k == 6 * (k / 6) + k % 6;
      }
    }
  }

  class TongueMeshGenerator {
    var baseLeft: Vec3
    var baseRight: Vec3
    var tipPoint: Vec3
    var bulge: real
    var tipTaper: real
    var segments: int
    var mesh: MeshData

    /** The inspector defaults */
    constructor ()
      ensures Shape() == TongueShape(Vec3(-0.5, 0.0, 0.0), Vec3(0.5, 0.0, 0.0), Vec3(0.0, 0.6, 0.0), 0.4, 1.5, 48)
      ensures mesh == EmptyMesh
    {
      baseLeft := Vec3(-0.5, 0.0, 0.0);
      baseRight := Vec3(0.5, 0.0, 0.0);
      tipPoint := Vec3(0.0, 0.6, 0.0);
      bulge := 0.4;
      tipTaper := 1.5;
      segments := 48;
      mesh := EmptyMesh;
    }

    function Shape(): TongueShape
      reads this
    {
      TongueShape(baseLeft, baseRight, tipPoint, bulge, tipTaper, segments)
    }

    /** Regenerates the mesh when the application is playing */
    method OnValidate(num: Numerics, isPlaying: bool)
      requires 4 <= segments
      modifies this
      ensures Shape() == old(Shape())
      ensures isPlaying ==> mesh == TongueMesh(num, Shape())
      ensures !isPlaying ==> mesh == old(mesh)
    {
      if isPlaying {
        GenerateMesh(num);
      }
    }

    /** Rebuilds the vertex, uv and triangle buffers from the current fields */
    method GenerateMesh(num: Numerics)
      requires 4 <= segments
      modifies this
      ensures Shape() == old(Shape())
      ensures mesh == TongueMesh(num, Shape())
    {
      var vertCount := (segments + 1) * 2;
      var vertices := new Vec3[vertCount];
      var uvs := new Vec2[vertCount];
      var triangles := new int[segments * 6];
      FillEdges(num, Shape(), vertices, uvs);
      BlendCap(Shape(), vertices);
      forall k | 0 <= k < vertices.Length
        ensures vertices[k] == TongueVertices(num, Shape())[k]
      {
        CapPointwise(num, Shape(), k);
      }
      FillTongueTriangles(segments, triangles);
      mesh := MeshData(vertices[..], uvs[..], triangles[..]);
    }
  }
}
