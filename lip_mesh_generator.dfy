/** The lip ribbon: a quadratic Bezier spine from leftPoint to rightPoint pulled towards
    topPoint, extruded sideways by a thickness that a per-column weight blends from
    edgeThickness to centerThickness. */
module Lip {
  import opened UnityEngine
  import opened Curves

  /** The generator's inputs, as one value */
  datatype LipShape = LipShape(
    left: Vec3, top: Vec3, right: Vec3,
    centerThickness: real, edgeThickness: real, thicknessFalloff: real,
    segments: int)

  /** The default falloff weight of a column at parameter t: Pow(Sin(t * PI), falloff) */
  function DefaultWeight(num: Numerics, falloff: real, t: real): real {
    num.pow(num.sin(t * PI), falloff)
  }

  /** The weight array OnValidate builds when the cached one is missing or stale */
  function DefaultWeights(num: Numerics, segments: int, falloff: real): (w: seq<real>)
    requires 0 < segments
    ensures |w| == segments + 1
    ensures forall i :: 0 <= i <= segments ==> w[i] == DefaultWeight(num, falloff, SampleT(i, segments))
  {
    seq(segments + 1, i requires 0 <= i <= segments => DefaultWeight(num, falloff, SampleT(i, segments)))
  }

  /** Spine point of column i */
  function SpineVertex(s: LipShape, i: int): Vec3
    requires 0 < s.segments && 0 <= i <= s.segments
  {
    QuadraticBezier(s.left, s.top, s.right, SampleT(i, s.segments))
  }

  /** The offset direction at t: the normalised tangent turned a quarter turn in the xy plane, normalised */
  function RibbonNormal(num: Numerics, s: LipShape, t: real): Vec3 {
    var tangent := Normalized(num, QuadraticBezierTangent(s.left, s.top, s.right, t));
    Normalized(num, Vec3(-tangent.y, tangent.x, 0.0))
  }

  /** The thickness of a column of the given weight */
  function Thickness(s: LipShape, weight: real): (r: real)
    ensures s.edgeThickness <= s.centerThickness ==> s.edgeThickness <= r <= s.centerThickness
    ensures s.centerThickness <= s.edgeThickness ==> s.centerThickness <= r <= s.edgeThickness
    ensures weight <= 0.0 ==> r == s.edgeThickness
    ensures 1.0 <= weight ==> r == s.centerThickness
  {
    Lerp(s.edgeThickness, s.centerThickness, weight)
  }

  /** The offset point of column i */
  function OffsetVertex(num: Numerics, s: LipShape, weight: real, i: int): Vec3
    requires 0 < s.segments && 0 <= i <= s.segments
  {
    Add(SpineVertex(s, i), Scale(Thickness(s, weight), RibbonNormal(num, s, SampleT(i, s.segments))))
  }

  /** Vertex buffer: spine point at 2i, offset point at 2i+1 */
  function LipVertices(num: Numerics, s: LipShape, w: seq<real>): (vs: seq<Vec3>)
    requires 0 < s.segments && |w| == s.segments + 1
    ensures |vs| == 2 * (s.segments + 1)
  {
    seq(2 * (s.segments + 1), k requires 0 <= k < 2 * (s.segments + 1) =>
      if k % 2 == 0 then SpineVertex(s, k / 2) else OffsetVertex(num, s, w[k / 2], k / 2))
  }

  /** UV buffer: u = t along the lip, v = 1 on the spine and 0 on the offset row */
  function LipUVs(segments: int): (uv: seq<Vec2>)
    requires 0 < segments
    ensures |uv| == 2 * (segments + 1)
  {
    seq(2 * (segments + 1), k requires 0 <= k < 2 * (segments + 1) =>
      Vec2(SampleT(k / 2, segments), if k % 2 == 0 then 1.0 else 0.0))
  }

  /** Corner c (0..5) of the two triangles of segment i: (vi, vi+2, vi+1) and (vi+1, vi+2, vi+3) */
  function LipCorner(i: int, c: int): int {
    var vi := 2 * i;
    if c == 0 then vi
    else if c == 1 then vi + 2
    else if c == 2 then vi + 1
    else if c == 3 then vi + 1
    else if c == 4 then vi + 2
    else vi + 3
  }

  /** Triangle buffer: six indices per segment, every one a valid vertex index */
  function LipTriangles(segments: int): (tris: seq<int>)
    requires 0 < segments
    ensures |tris| == 6 * segments
    ensures forall k :: 0 <= k < |tris| ==> 0 <= tris[k] < 2 * (segments + 1)
  {
    seq(6 * segments, k => LipCorner(k / 6, k % 6))
  }

  /** The mesh GenerateMesh produces */
  function LipMesh(num: Numerics, s: LipShape, w: seq<real>): MeshData
    requires 0 < s.segments && |w| == s.segments + 1
  {
    MeshData(LipVertices(num, s, w), LipUVs(s.segments), LipTriangles(s.segments))
  }

  /** Buffer sizes: 2(segments+1) vertices and uvs, 6 segments triangle indices, all in range. */
  lemma LipMeshSizes(num: Numerics, s: LipShape, w: seq<real>)
    requires 0 < s.segments && |w| == s.segments + 1
    ensures var m := LipMesh(num, s, w);
      |m.vertices| == |m.uv| == 2 * (s.segments + 1) && |m.triangles| == 6 * s.segments &&
      forall k :: 0 <= k < |m.triangles| ==> 0 <= m.triangles[k] < |m.vertices|
  {
  }

  /** Each segment's two triangles are (vi, vi+2, vi+1) and (vi+1, vi+2, vi+3), with three distinct corners each. */
  lemma LipTrianglesOfSegment(segments: int, i: int)
    requires 0 < segments && 0 <= i < segments
    ensures var tris, vi := LipTriangles(segments), 2 * i;
      tris[6 * i] == vi && tris[6 * i + 1] == vi + 2 && tris[6 * i + 2] == vi + 1 &&
      tris[6 * i + 3] == vi + 1 && tris[6 * i + 4] == vi + 2 && tris[6 * i + 5] == vi + 3 &&
      NonDegenerate(tris[6 * i], tris[6 * i + 1], tris[6 * i + 2]) &&
      NonDegenerate(tris[6 * i + 3], tris[6 * i + 4], tris[6 * i + 5])
  {
    var tris := LipTriangles(segments);
    forall c | 0 <= c < 6 ensures tris[6 * i + c] == LipCorner(i, c) {
      assert (6 * i + c) / 6 == i && (6 * i + c) % 6 == c;
    }
  }

  /** The spine starts at leftPoint and ends at rightPoint: vertex 0 and vertex 2*segments. */
  lemma LipSpineEndpoints(num: Numerics, s: LipShape, w: seq<real>)
    requires 0 < s.segments && |w| == s.segments + 1
    ensures LipMesh(num, s, w).vertices[0] == s.left
    ensures LipMesh(num, s, w).vertices[2 * s.segments] == s.right
  {
    assert (2 * s.segments) / 2 == s.segments;
  }

  /** Each offset vertex sits at the column's thickness along the ribbon normal, which has no
      z part and is perpendicular to the spine's tangent; the column's thickness lies between
      edgeThickness and centerThickness whatever its weight. */
  lemma LipOffsetAcrossSpine(num: Numerics, s: LipShape, w: seq<real>, i: int)
    requires 0 < s.segments && |w| == s.segments + 1 && 0 <= i <= s.segments
    ensures var vs, t := LipMesh(num, s, w).vertices, SampleT(i, s.segments);
      var d := Sub(vs[2 * i + 1], vs[2 * i]);
      var th := Thickness(s, w[i]);
      d == Scale(th, RibbonNormal(num, s, t)) &&
      d.z == 0.0 &&
      Dot(d, QuadraticBezierTangent(s.left, s.top, s.right, t)) == 0.0 &&
      (s.edgeThickness <= s.centerThickness ==> s.edgeThickness <= th <= s.centerThickness) &&
      (s.centerThickness <= s.edgeThickness ==> s.centerThickness <= th <= s.edgeThickness)
  {
    var vs, t := LipMesh(num, s, w).vertices, SampleT(i, s.segments);
    assert (2 * i + 1) / 2 == i && (2 * i) / 2 == i;
    var raw := QuadraticBezierTangent(s.left, s.top, s.right, t);
    var k1 := num.invMagnitude(raw);
    var tangent := Scale(k1, raw);
    var turned := Vec3(-tangent.y, tangent.x, 0.0);
    var k2 := num.invMagnitude(turned);
    var th := Thickness(s, w[i]);
    assert Dot(turned, raw) == 0.0 by {
      assert turned == Vec3(-(k1 * raw.y), k1 * raw.x, 0.0);
      assert Dot(turned, raw) == -(k1 * raw.y) * raw.x + (k1 * raw.x) * raw.y;
    }
    DotScaleLeft(k2, turned, raw);
    DotScaleLeft(th, Scale(k2, turned), raw);
  }

  /** Column i of the buffers: the spine vertex and uv at 2i, the offset vertex and uv at 2i+1. */
  lemma LipColumn(num: Numerics, s: LipShape, w: seq<real>, i: int)
    requires 0 < s.segments && |w| == s.segments + 1 && 0 <= i <= s.segments
    ensures LipVertices(num, s, w)[2 * i] == SpineVertex(s, i)
    ensures LipVertices(num, s, w)[2 * i + 1] == OffsetVertex(num, s, w[i], i)
    ensures LipUVs(s.segments)[2 * i] == Vec2(SampleT(i, s.segments), 1.0)
    ensures LipUVs(s.segments)[2 * i + 1] == Vec2(SampleT(i, s.segments), 0.0)
  {
    assert (2 * i + 1) / 2 == i && (2 * i) / 2 == i;
  }

  /** UVs: the spine row at v = 1, the offset row at v = 0, both at u = t in [0,1]. */
  lemma LipUVLayout(segments: int, i: int)
    requires 0 < segments && 0 <= i <= segments
    ensures var uv, t := LipUVs(segments), SampleT(i, segments);
      uv[2 * i] == Vec2(t, 1.0) && uv[2 * i + 1] == Vec2(t, 0.0) && 0.0 <= t <= 1.0
  {
    assert (2 * i + 1) / 2 == i && (2 * i) / 2 == i;
  }

  /** One pass of the column loop of GenerateMesh: writes column i and leaves every other slot alone */
  method WriteLipColumn(num: Numerics, s: LipShape, weights: array<real>, vertices: array<Vec3>, uvs: array<Vec2>, i: int)
    requires 0 < s.segments && weights.Length == s.segments + 1
    requires vertices.Length == uvs.Length == 2 * (s.segments + 1)
    requires 0 <= i <= s.segments
    modifies vertices, uvs
    ensures vertices[2 * i] == LipVertices(num, s, weights[..])[2 * i]
    ensures vertices[2 * i + 1] == LipVertices(num, s, weights[..])[2 * i + 1]
    ensures uvs[2 * i] == LipUVs(s.segments)[2 * i]
    ensures uvs[2 * i + 1] == LipUVs(s.segments)[2 * i + 1]
    ensures forall k :: 0 <= k < vertices.Length && k != 2 * i && k != 2 * i + 1 ==>
      vertices[k] == old(vertices[k]) && uvs[k] == old(uvs[k])
  {
    var t := SampleT(i, s.segments);
    var center := QuadraticBezier(s.left, s.top, s.right, t);
    var normal := RibbonNormal(num, s, t);
    var thickness := Thickness(s, weights[i]);
    LipColumn(num, s, weights[..], i);
    vertices[2 * i] := center;
    vertices[2 * i + 1] := Add(center, Scale(thickness, normal));
    uvs[2 * i] := Vec2(t, 1.0);
    uvs[2 * i + 1] := Vec2(t, 0.0);
  }

  /** The column loop of GenerateMesh: spine and offset vertex of every column, with their uvs */
  method FillLipColumns(num: Numerics, s: LipShape, weights: array<real>, vertices: array<Vec3>, uvs: array<Vec2>)
    requires 0 < s.segments && weights.Length == s.segments + 1
    requires vertices.Length == uvs.Length == 2 * (s.segments + 1)
    modifies vertices, uvs
    ensures vertices[..] == LipVertices(num, s, weights[..])
    ensures uvs[..] == LipUVs(s.segments)
  {
    ghost var targetVertices := LipVertices(num, s, weights[..]);
    ghost var targetUVs := LipUVs(s.segments);
    var i := 0;
    while i <= s.segments
      invariant 0 <= i <= s.segments + 1
      invariant forall k :: 0 <= k < 2 * i ==> vertices[k] == targetVertices[k] && uvs[k] == targetUVs[k]
    {
      WriteLipColumn(num, s, weights, vertices, uvs, i);
      i := i + 1;
    }
    assert vertices[..] == targetVertices by {
      forall k | 0 <= k < vertices.Length ensures vertices[..][k] == targetVertices[k] {
      }
    }
    assert uvs[..] == targetUVs by {
      forall k | 0 <= k < uvs.Length ensures uvs[..][k] == targetUVs[k] {
      }
    }
  }

  /** The triangle loop of GenerateMesh: two triangles per segment */
  method FillLipTriangles(segments: int, triangles: array<int>)
    requires 0 < segments && triangles.Length == 6 * segments
    modifies triangles
    ensures triangles[..] == LipTriangles(segments)
  {
    var i := 0;
    while i < segments
      invariant 0 <= i <= segments
      invariant forall j, c :: 0 <= j < i && 0 <= c < 6 ==> triangles[6 * j + c] == LipCorner(j, c)
    {
      var bi := 6 * i;
      var vi := 2 * i;
      triangles[bi + 0] := vi;
      triangles[bi + 1] := vi + 2;
      triangles[bi + 2] := vi + 1;
      triangles[bi + 3] := vi + 1;
      triangles[bi + 4] := vi + 2;
      triangles[bi + 5] := vi + 3;
      i := i + 1;
    }
    ghost var targetTriangles := LipTriangles(segments);
    assert triangles[..] == targetTriangles by {
      forall k | 0 <= k < triangles.Length ensures triangles[..][k] == targetTriangles[k] {
        assert k == 6 * (k / 6) + k % 6;
      }
    }
  }

  class LipMeshGenerator {
    var leftPoint: Vec3
    var rightPoint: Vec3
    var topPoint: Vec3
    var centerThickness: real
    var edgeThickness: real
    var thicknessFalloff: real
    var segments: int
    /** The per-column weight cache; null until OnValidate first builds it */
    var vertexWeights: array?<real>
    var mesh: MeshData

    /** The inspector defaults */
    constructor ()
      ensures Shape() == LipShape(Vec3(-1.0, 0.0, 0.0), Vec3(0.0, 0.5, 0.0), Vec3(1.0, 0.0, 0.0), 0.15, 0.01, 2.0, 32)
      ensures vertexWeights == null && mesh == EmptyMesh
    {
      leftPoint := Vec3(-1.0, 0.0, 0.0);
      rightPoint := Vec3(1.0, 0.0, 0.0);
      topPoint := Vec3(0.0, 0.5, 0.0);
      centerThickness := 0.15;
      edgeThickness := 0.01;
      thicknessFalloff := 2.0;
      segments := 32;
      vertexWeights := null;
      mesh := EmptyMesh;
    }

    function Shape(): LipShape
      reads this
    {
      LipShape(leftPoint, topPoint, rightPoint, centerThickness, edgeThickness, thicknessFalloff, segments)
    }

    /** The weight cache exists and has one entry per column */
    predicate WeightsMatch()
      reads this
    {
      vertexWeights != null && vertexWeights.Length == segments + 1
    }

    /** Rebuilds a missing or stale weight cache from the default falloff, leaves a matching one
        alone, and regenerates the mesh when the application is playing. */
    method OnValidate(num: Numerics, isPlaying: bool)
      requires 0 < segments
      modifies this
      decreases if WeightsMatch() then 1 else 2
      ensures Shape() == old(Shape())
      ensures WeightsMatch()
      ensures old(WeightsMatch()) ==> vertexWeights == old(vertexWeights) && vertexWeights[..] == old(vertexWeights[..])
      ensures !old(WeightsMatch()) ==> fresh(vertexWeights) && vertexWeights[..] == DefaultWeights(num, segments, thicknessFalloff)
      ensures isPlaying ==> mesh == LipMesh(num, Shape(), vertexWeights[..])
      ensures !isPlaying ==> mesh == old(mesh)
    {
      var count := segments + 1;
      if vertexWeights == null || vertexWeights.Length != count {
        var newWeights := new real[count];
        var i := 0;
        while i < count
          modifies newWeights
          invariant 0 <= i <= count
          invariant forall k :: 0 <= k < i ==> newWeights[k] == DefaultWeight(num, thicknessFalloff, SampleT(k, segments))
        {
          var t := SampleT(i, segments);
          newWeights[i] := DefaultWeight(num, thicknessFalloff, t);
          i := i + 1;
        }
        vertexWeights := newWeights;
      }
      if isPlaying {
        GenerateMesh(num, isPlaying);
      }
    }

    /** Rebuilds the vertex, uv and triangle buffers from the current fields, first repairing
        the weight cache through OnValidate when it does not match. */
    method GenerateMesh(num: Numerics, isPlaying: bool)
      requires 0 < segments
      modifies this
      decreases if WeightsMatch() then 0 else 3
      ensures Shape() == old(Shape())
      ensures WeightsMatch()
      ensures old(WeightsMatch()) ==> vertexWeights == old(vertexWeights) && vertexWeights[..] == old(vertexWeights[..])
      ensures !old(WeightsMatch()) ==> fresh(vertexWeights) && vertexWeights[..] == DefaultWeights(num, segments, thicknessFalloff)
      ensures mesh == LipMesh(num, Shape(), vertexWeights[..])
    {
      var vertCount := (segments + 1) * 2;
      var vertices := new Vec3[vertCount];
      var uvs := new Vec2[vertCount];
      var triangles := new int[segments * 6];

      if vertexWeights == null || vertexWeights.Length != segments + 1 {
        OnValidate(num, isPlaying);
      }

      FillLipColumns(num, Shape(), vertexWeights, vertices, uvs);
      FillLipTriangles(segments, triangles);
      mesh := MeshData(vertices[..], uvs[..], triangles[..]);
    }
  }
}
