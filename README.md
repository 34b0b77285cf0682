# Vocalize mouth model

Vocalize is a Unity pronunciation trainer. Three sliders shape a mouth: jaw opening, lip rounding
and tongue height. Procedural meshes draw the mouth, and a small coach compares the shape with a
table of sounds. This project models the parts of it that turn numbers into geometry and decisions:

- **Lip ribbon** (`Lip`, `lip_mesh_generator.dfy`). A quadratic Bezier spine runs from `leftPoint` to
  `rightPoint` and is pulled towards `topPoint`. It is extruded along the turned tangent by a
  thickness that a cached per-column weight blends between `edgeThickness` and `centerThickness`.
  The class keeps its inspector fields. `OnValidate` repairs the weight cache with a fill loop.
  `GenerateMesh` fills the vertex, uv and triangle arrays in loops.
- **Tongue** (`Tongue`, `tongue_mesh_generator.dfy`). Two quadratic Bezier edges bow outward by
  `bulge` and meet at `tipPoint`. A taper lerp then runs; it is the identity. An in-place
  SmoothStep pass eases the last quarter of the strip onto the tip. The triangle strip winds the
  opposite way to the lip's.
- **Tube** (`Tube`, `thick_bezier_curve.dfy`). Cubic Bezier segments run through groups of four
  control points. Each segment is sampled `segmentsPerCurve + 1` times. Every sample emits a ring of
  `tubeSegments` vertices, and consecutive rings are stitched into quads whose radial neighbour wraps
  modulo `tubeSegments`.
- **Coach** (`Mouth`, `mouth_ai.dfy`). It classifies by nearest neighbour over a fixed table of six
  sounds, with the stable-sort tie-break. It has the clamped match score, the largest-deviation
  hint, the three verdict tiers, and the `submitted` state of `Update`, `Submit` and `Reset`.
- **Drivers**. `JawOpen` (`Jaw`), `LipRound` (`Round`) and `TongueHeight` (`Height`) map a normalised
  slider value onto generator fields with clamped lerps. `TongueParenter` (`Parenter`) anchors the
  tongue base to the lower lip's midpoint: it snaps there on the first frame and eases there after.
- **Engine** (`UnityEngine`, `unity_engine.dfy`; `Curves`, `curves.dfy`). These hold the `Mathf` and
  `Vector3` routines with their documented semantics, over exact reals. `Lerp` and `Vector3.Lerp`
  clamp their parameter. `InverseLerp` is 0 on an empty range. `SmoothStep` clamps and then
  eases by 3t² − 2t³. This part also holds the quadratic Bezier shared by the lip, the tongue and
  the parenter.

Mutable components are classes whose methods change the fields the source changes. Mesh buffers
are arrays where the source fills arrays, and sequences where it appends to lists. Each method is
proved against a function that describes the finished mesh or the new shape. The lemmas prove
what the source promises about those functions.

## Model

| member | source | states |
|---|---|---|
| Curves.SampleT | Assets/Scripts/LipMeshGenerator.cs:94 | i / n lies in [0, 1] for 0 <= i <= n, and is 0 exactly at i = 0 and 1 exactly at i = n |
| Curves.QuadraticBezier | Assets/Scripts/LipMeshGenerator.cs:67-70 | the spine is at leftPoint for t = 0, at rightPoint for t = 1, and at (left + 2 top + right) / 4 for t = 0.5 |
| Curves.QuadraticBezierTangent | Assets/Scripts/LipMeshGenerator.cs:72-74 | the tangent at the ends is 2 (top − left) and 2 (right − top) |
| Curves.QuadraticTangentIsDerivative | Assets/Scripts/LipMeshGenerator.cs:67-74 | BezierTangent is the exact derivative of Bezier: a step h moves the point by h · tangent plus h² times a constant |
| Curves.QuadraticStep | Assets/Scripts/LipMeshGenerator.cs:67-74 | the same identity for one coordinate |
| UnityEngine.Lerp | Assets/Scripts/LipMeshGenerator.cs:104 | Mathf.Lerp lies between its endpoints, gives a for t <= 0 and b for t >= 1 |
| UnityEngine.LerpMonotone | Assets/Scripts/TongueParenter.cs:58-59 | with one parameter, Lerp is monotone in both endpoints |
| UnityEngine.InverseLerp | Assets/Scripts/JawOpen.cs:32 | Mathf.InverseLerp lies in [0, 1], is 0 on an empty range, 0 at a and 1 at b |
| UnityEngine.LerpInverseLerp | Assets/Scripts/TongueHeight.cs:22-30 | Lerp(a, b, Clamp01(InverseLerp(a, b, v))) == v for every v in a non-empty range [a, b] |
| UnityEngine.Clamp | Assets/Scripts/MouthAI.cs:49-51 | Mathf.Clamp lands in [lo, hi] and leaves a value already in range alone |
| UnityEngine.Clamp01 | Assets/Scripts/TongueParenter.cs:37 | Mathf.Clamp01 lands in [0, 1], is 0 below, 1 above and the identity inside |
| UnityEngine.Abs | Assets/Scripts/MouthAI.cs:132-134 | the result is non-negative and is v or −v |
| UnityEngine.Max3 | Assets/Scripts/MouthAI.cs:136 | Mathf.Max of three is at least each argument and equal to one of them |
| UnityEngine.Ease | Assets/Scripts/TongueMeshGenerator.cs:106 | 3c² − 2c³ maps [0, 1] into [0, 1], 0 to 0 and 1 to 1 |
| UnityEngine.SmoothStep | Assets/Scripts/TongueMeshGenerator.cs:106 | SmoothStep(0, 1, x) lies in [0, 1], is 0 for x <= 0 and 1 for x >= 1 |
| UnityEngine.V3Lerp | Assets/Scripts/TongueParenter.cs:58-59 | Vector3.Lerp gives a for t <= 0 and b for t >= 1 |
| UnityEngine.V3LerpComponents | Assets/Scripts/TongueParenter.cs:58-59 | Vector3.Lerp is Mathf.Lerp on each coordinate |
| UnityEngine.SqrtOrder | Assets/Scripts/MouthAI.cs:122-126 | under the sqrt laws, sqrt orders non-negative arguments as they are ordered and is zero only at zero |
| UnityEngine.CrossPerpendicular | Assets/ThickBezierCurve.cs:55-56 | a cross product is perpendicular to both factors |
| Lip.DefaultWeights | Assets/Scripts/LipMeshGenerator.cs:53-61 | the rebuilt cache has segments + 1 entries, entry i being Pow(Sin(t_i π), falloff) |
| Lip.Thickness | Assets/Scripts/LipMeshGenerator.cs:104 | a column's thickness lies between edgeThickness and centerThickness, equal to edge at weight <= 0 and to centre at weight >= 1 |
| Lip.LipVertices | Assets/Scripts/LipMeshGenerator.cs:85-86 | the vertex buffer has 2 (segments + 1) entries |
| Lip.LipUVs | Assets/Scripts/LipMeshGenerator.cs:85-87 | the uv buffer has 2 (segments + 1) entries |
| Lip.LipTriangles | Assets/Scripts/LipMeshGenerator.cs:113-124 | 6 segments indices, each a valid vertex index |
| Lip.LipMeshSizes | Assets/Scripts/LipMeshGenerator.cs:85-88 | the mesh has 2 (segments + 1) vertices and uvs and 6 segments triangle indices, all in range |
| Lip.LipTrianglesOfSegment | Assets/Scripts/LipMeshGenerator.cs:113-124 | segment i's triangles are (vi, vi+2, vi+1) and (vi+1, vi+2, vi+3), each with three distinct corners |
| Lip.LipSpineEndpoints | Assets/Scripts/LipMeshGenerator.cs:93-106 | vertex 0 is leftPoint and vertex 2 segments is rightPoint |
| Lip.LipOffsetAcrossSpine | Assets/Scripts/LipMeshGenerator.cs:96-107 | each offset vertex is the spine vertex plus thickness times the turned normal, which has no z part and is perpendicular to the tangent; the thickness lies between edge and centre |
| Lip.LipColumn | Assets/Scripts/LipMeshGenerator.cs:93-111 | column i puts the spine point and uv (t, 1) at 2i and the offset point and uv (t, 0) at 2i + 1 |
| Lip.LipUVLayout | Assets/Scripts/LipMeshGenerator.cs:109-110 | the spine row has v = 1, the offset row v = 0, both u = t in [0, 1] |
| Lip.WriteLipColumn | Assets/Scripts/LipMeshGenerator.cs:94-110 | one loop pass writes exactly column i's two vertices and uvs, as the buffer functions say |
| Lip.FillLipColumns | Assets/Scripts/LipMeshGenerator.cs:93-111 | the column loop leaves the arrays equal to LipVertices and LipUVs |
| Lip.FillLipTriangles | Assets/Scripts/LipMeshGenerator.cs:113-124 | the triangle loop leaves the array equal to LipTriangles |
| Lip.LipMeshGenerator.constructor | Assets/Scripts/LipMeshGenerator.cs:10-39 | the inspector defaults, no weight cache, an empty mesh |
| Lip.LipMeshGenerator.OnValidate | Assets/Scripts/LipMeshGenerator.cs:52-65 | afterwards the cache has segments + 1 entries; a matching cache is kept as it was, a missing or stale one replaced by the default weights; the mesh is rebuilt only while playing; the shape is unchanged |
| Lip.LipMeshGenerator.GenerateMesh | Assets/Scripts/LipMeshGenerator.cs:77-135 | the cache is repaired as by OnValidate, the shape is unchanged and the mesh is LipMesh of the shape and the cache; the nested GenerateMesh → OnValidate → GenerateMesh call ends after one level |
| Tongue.LeftEdge | Assets/Scripts/TongueMeshGenerator.cs:49-55 | the left edge starts at baseLeft and ends at the tip |
| Tongue.RightEdge | Assets/Scripts/TongueMeshGenerator.cs:58-63 | the right edge starts at baseRight and ends at the tip |
| Tongue.EdgeEndpoints | Assets/Scripts/TongueMeshGenerator.cs:49-63 | whatever the bulge, LeftEdge(0) = baseLeft, RightEdge(0) = baseRight and both edges end at tipPoint |
| Tongue.QuadraticNegate | Assets/Scripts/TongueMeshGenerator.cs:54 | negating the control values negates one coordinate of the curve |
| Tongue.MirrorBezier | Assets/Scripts/TongueMeshGenerator.cs:54 | the curve through mirrored points is the mirrored curve |
| Tongue.EdgesMirror | Assets/Scripts/TongueMeshGenerator.cs:49-63 | a base symmetric about x = 0 with the tip on that plane gives mirror-image edges |
| Tongue.TaperIsIdentity | Assets/Scripts/TongueMeshGenerator.cs:92-93 | Lerp(tipPoint, v, 1 − taper · 0) is v |
| Tongue.TipStartBounds | Assets/Scripts/TongueMeshGenerator.cs:103-105 | tipStart lies in [0, segments], and the cap's width segments − tipStart is positive exactly when segments >= 4 |
| Tongue.CapParameter | Assets/Scripts/TongueMeshGenerator.cs:105 | localT is 0 at i = tipStart and 1 at i = segments |
| Tongue.CapBlendEnds | Assets/Scripts/TongueMeshGenerator.cs:105-106 | the cap blend is 0 on the first cap column and 1 on the last |
| Tongue.CapVertexEnds | Assets/Scripts/TongueMeshGenerator.cs:104-109 | the cap leaves a point up to column tipStart where it is and puts the last column on the tip |
| Tongue.EdgeVertices | Assets/Scripts/TongueMeshGenerator.cs:76-77 | the edge pass fills 2 (segments + 1) vertices |
| Tongue.TongueVertices | Assets/Scripts/TongueMeshGenerator.cs:76-77 | the cap pass keeps 2 (segments + 1) vertices |
| Tongue.TongueUVs | Assets/Scripts/TongueMeshGenerator.cs:76-78 | the uv buffer has 2 (segments + 1) entries |
| Tongue.TongueTriangles | Assets/Scripts/TongueMeshGenerator.cs:112-123 | 6 segments indices, each a valid vertex index |
| Tongue.TongueMeshSizes | Assets/Scripts/TongueMeshGenerator.cs:76-79 | the mesh has 2 (segments + 1) vertices and uvs and 6 segments triangle indices, all in range |
| Tongue.TongueTrianglesOfSegment | Assets/Scripts/TongueMeshGenerator.cs:112-123 | segment i's triangles are (vi, vi+1, vi+2) and (vi+1, vi+3, vi+2), each with three distinct corners |
| Tongue.OppositeWindingToLip | Assets/Scripts/TongueMeshGenerator.cs:116-122 | each tongue triangle is the lip triangle in the same slot with its second and third corners swapped |
| Tongue.TongueVertexAt | Assets/Scripts/TongueMeshGenerator.cs:81-110 | vertex k after both passes is the cap applied to edge point k |
| Tongue.CapPointwise | Assets/Scripts/TongueMeshGenerator.cs:104-110 | the cap pass works point by point: vertex k after it is the cap of vertex k before it |
| Tongue.CapKeepsPrefix | Assets/Scripts/TongueMeshGenerator.cs:103-110 | every vertex below index 2 tipStart + 2 is left as the edge pass wrote it |
| Tongue.TongueTip | Assets/Scripts/TongueMeshGenerator.cs:103-109 | the last two vertices are tipPoint exactly |
| Tongue.TongueBase | Assets/Scripts/TongueMeshGenerator.cs:88-96 | the first two vertices are baseLeft and baseRight |
| Tongue.TongueUVLayout | Assets/Scripts/TongueMeshGenerator.cs:98-99 | the left edge has u = 0, the right edge u = 1, both v = t in [0, 1] |
| Tongue.EdgeColumn | Assets/Scripts/TongueMeshGenerator.cs:81-100 | column i of the edge pass holds the tapered edge points and their uvs at 2i and 2i + 1 |
| Tongue.WriteEdgeColumn | Assets/Scripts/TongueMeshGenerator.cs:82-99 | one loop pass writes exactly column i's two vertices and uvs |
| Tongue.FillEdges | Assets/Scripts/TongueMeshGenerator.cs:81-100 | the edge loop leaves the arrays equal to EdgeVertices and TongueUVs |
| Tongue.BlendCap | Assets/Scripts/TongueMeshGenerator.cs:103-110 | the in-place cap loop turns every vertex into CapVertex of its old value |
| Tongue.FillTongueTriangles | Assets/Scripts/TongueMeshGenerator.cs:112-123 | the triangle loop leaves the array equal to TongueTriangles |
| Tongue.TongueMeshGenerator.constructor | Assets/Scripts/TongueMeshGenerator.cs:10-33 | the inspector defaults and an empty mesh |
| Tongue.TongueMeshGenerator.OnValidate | Assets/Scripts/TongueMeshGenerator.cs:40-43 | the mesh is rebuilt only while playing; the shape is unchanged |
| Tongue.TongueMeshGenerator.GenerateMesh | Assets/Scripts/TongueMeshGenerator.cs:66-133 | the shape is unchanged and the mesh is TongueMesh of the shape |
| Tube.CubicTangentIsDerivative | Assets/ThickBezierCurve.cs:94-102 | CubicBezierTangent is the exact derivative of CubicBezier, per coordinate, up to the Taylor terms of order two and three |
| Tube.CubicEndpoints | Assets/ThickBezierCurve.cs:94-102 | CubicBezier(0) = p0 and CubicBezier(1) = p3; the tangents at the ends are 3 (p1 − p0) and 3 (p3 − p2) |
| Tube.RadiusBounds | Assets/ThickBezierCurve.cs:49 | the radius is p0.thickness / 2 at t <= 0, p3.thickness / 2 at t >= 1, and lies between the two half-thicknesses |
| Tube.RingFrameOrthogonal | Assets/ThickBezierCurve.cs:52-56 | the frame's right and up are perpendicular to the tangent and to each other |
| Tube.Ring | Assets/ThickBezierCurve.cs:59-62 | a ring has tubeSegments vertices |
| Tube.RingUVs | Assets/ThickBezierCurve.cs:59-63 | a ring has tubeSegments uvs |
| Tube.RingInNormalPlane | Assets/ThickBezierCurve.cs:52-62 | every ring vertex lies in the plane through the curve point normal to the tangent |
| Tube.RingUVRange | Assets/ThickBezierCurve.cs:60-63 | u = j / tubeSegments lies in [0, 1) and v is the curve parameter |
| Tube.CurveIndices | Assets/ThickBezierCurve.cs:33-40 | with n >= 4 points numCurves >= 1, every read index 3c + 3 is below n, and 3 numCurves + 1 <= n < 3 numCurves + 4 |
| Tube.TrailingPointsIgnored | Assets/ThickBezierCurve.cs:33-40 | the segments read are those of the first 3 numCurves + 1 points alone |
| Tube.SampleRing | Assets/ThickBezierCurve.cs:43-62 | each sample emits tubeSegments vertices |
| Tube.CurveUVsRange | Assets/ThickBezierCurve.cs:42-64 | every uv of a segment has u in [0, 1) and v in [0, 1] |
| Tube.Segments | Assets/ThickBezierCurve.cs:35-40 | the loop visits numCurves segments |
| Tube.SegmentsAt | Assets/ThickBezierCurve.cs:36-40 | segment c reads control points 3c .. 3c + 3 |
| Tube.SegmentsStep | Assets/ThickBezierCurve.cs:35-40 | the visited segments grow by segment c each pass |
| Tube.TubeVerticesAppend | Assets/ThickBezierCurve.cs:35-66 | visiting one more segment appends exactly that segment's rings |
| Tube.TubeUVsRange | Assets/ThickBezierCurve.cs:35-64 | every uv of the tube has u in [0, 1) and v in [0, 1] |
| Tube.CurveLength | Assets/ThickBezierCurve.cs:42-64 | a segment emits (segmentsPerCurve + 1) tubeSegments vertices and uvs |
| Tube.TubeLength | Assets/ThickBezierCurve.cs:35-66 | the tube has numCurves (segmentsPerCurve + 1) tubeSegments vertices and uvs |
| Tube.RingsAreEmitted | Assets/ThickBezierCurve.cs:69 | rings = segmentsPerCurve · numCurves + numCurves is the number of rings emitted |
| Tube.RingsSign | Assets/ThickBezierCurve.cs:69-70 | with at least one curve, rings is at least 2 when segmentsPerCurve > 0 and not positive when segmentsPerCurve < 0, so the stitching loop then never runs |
| Tube.RadialNeighbour | Assets/ThickBezierCurve.cs:72-75 | the radial neighbour stays in the same ring, is the next column before the last and column 0 after it; with two or more columns both triangles have distinct corners |
| Tube.Band | Assets/ThickBezierCurve.cs:70-84 | one band has 6 tubeSegments indices, all in the two rings it joins |
| Tube.BandsShape | Assets/ThickBezierCurve.cs:70-85 | count bands hold count · 6 tubeSegments indices, all below (count + 1) tubeSegments |
| Tube.AsWrittenFinalBandOutOfRange | Assets/ThickBezierCurve.cs:69-85 | as written the list has rings · 6 tubeSegments indices: the corrected list plus one band; that band's currentNext and nextNext are vertexCount + j and vertexCount + (j + 1) mod tubeSegments, past the vertex list |
| Tube.TubeMeshShape | Assets/ThickBezierCurve.cs:33-89 | the corrected mesh has numCurves (segmentsPerCurve + 1) tubeSegments vertices and uvs, (rings − 1) · 6 tubeSegments triangle indices all in range, and uvs in [0, 1) × [0, 1] |
| Tube.EmitRing | Assets/ThickBezierCurve.cs:43-64 | one sample appends that sample's ring and its uvs; with tubeSegments <= 0 the ring loop appends nothing |
| Tube.EmitCurve | Assets/ThickBezierCurve.cs:42-65 | the sample loop appends the segment's segmentsPerCurve + 1 rings; with segmentsPerCurve < 0 or tubeSegments <= 0 it appends nothing |
| Tube.EmitTube | Assets/ThickBezierCurve.cs:33-66 | the curve loop produces the rings of all numCurves segments; with segmentsPerCurve < 0 or tubeSegments <= 0 the vertex and uv lists stay empty |
| Tube.EmitBand | Assets/ThickBezierCurve.cs:71-84 | one pass of the ring loop appends that band; with tubeSegments <= 0 it appends nothing and evaluates no `%` |
| Tube.StitchRings | Assets/ThickBezierCurve.cs:70-85 | the stitching loop produces the first `bands` bands, and no triangles when `bands` or tubeSegments is not positive |
| Tube.BuildTube | Assets/ThickBezierCurve.cs:28-89 | the mesh built past the guard is TubeMesh when segmentsPerCurve and tubeSegments are positive, and three empty buffers when segmentsPerCurve < 0 or tubeSegments <= 0 |
| Tube.ThickBezierCurve.constructor | Assets/ThickBezierCurve.cs:12-14 | no control points, 20 samples per curve, 8 ring vertices, an empty mesh |
| Tube.ThickBezierCurve.GenerateMesh | Assets/ThickBezierCurve.cs:21-92 | with no points or fewer than four the mesh is untouched; with segmentsPerCurve < 0 or tubeSegments <= 0 it gets empty buffers; otherwise it is TubeMesh (corrected triangles); settings unchanged |
| Tube.ThickBezierCurve.Start | Assets/ThickBezierCurve.cs:18 | as GenerateMesh |
| Tube.ThickBezierCurve.OnValidate | Assets/ThickBezierCurve.cs:19 | as GenerateMesh |
| Mouth.Input | Assets/Scripts/MouthAI.cs:49-51 | an input lies in [0.1, 1] and is unchanged when it already does |
| Mouth.TableInCube | Assets/Scripts/MouthAI.cs:23-30 | every table entry lies in the slider cube [0.1, 1]³ |
| Mouth.SquaredDistance | Assets/Scripts/MouthAI.cs:121-127 | the squared distance is non-negative |
| Mouth.SquaredDistanceZero | Assets/Scripts/MouthAI.cs:121-127 | the squared distance is zero exactly on identical triples |
| Mouth.DistanceIsRoot | Assets/Scripts/MouthAI.cs:121-127 | Distance is the sqrt of the squared distance |
| Mouth.DistanceSymmetric | Assets/Scripts/MouthAI.cs:121-127 | Distance does not depend on the order of its two triples |
| Mouth.DistanceZero | Assets/Scripts/MouthAI.cs:121-127 | Distance is zero exactly on identical triples |
| Mouth.DistanceOrder | Assets/Scripts/MouthAI.cs:121-127 | distances from one input compare as the squared distances do |
| Mouth.FirstMin | Assets/Scripts/MouthAI.cs:109-111 | OrderBy(key).First() picks a smallest key, every earlier key strictly larger |
| Mouth.FirstMinUnique | Assets/Scripts/MouthAI.cs:109-111 | that position is unique |
| Mouth.DistanceKeys | Assets/Scripts/MouthAI.cs:110 | one sort key per table entry |
| Mouth.SquaredKeys | Assets/Scripts/MouthAI.cs:110 | key k is the squared distance to entry k |
| Mouth.ClassifyIndex | Assets/Scripts/MouthAI.cs:108-112 | Classify reports a table entry |
| Mouth.ClassifyNearest | Assets/Scripts/MouthAI.cs:108-112 | the reported entry is at minimal distance and every earlier entry is strictly farther: ties go to the earliest |
| Mouth.ClassifyBySquaredDistance | Assets/Scripts/MouthAI.cs:108-127 | classifying by squared distance gives the same entry, so sqrt never changes the answer |
| Mouth.ExactShapeClassified | Assets/Scripts/MouthAI.cs:108-112 | an input equal to an entry's shape is classified as that entry or an earlier one with the same shape |
| Mouth.FirstNamed | Assets/Scripts/MouthAI.cs:115 | First(s => s.name == name) finds the earliest entry with the name, and finds none exactly when no entry has it |
| Mouth.Target | Assets/Scripts/MouthAI.cs:115 | the target is a table entry with the requested name |
| Mouth.InitialTargetPresent | Assets/Scripts/MouthAI.cs:24-32 | the initial target "TH" is entry 0, so First cannot fail |
| Mouth.CubeDiagonalPositive | Assets/Scripts/MouthAI.cs:117-118 | the divisor Sqrt(3 · 0.9²) is positive |
| Mouth.GetScore | Assets/Scripts/MouthAI.cs:114-119 | the score lies in [0, 1] |
| Mouth.ScoreOneIffExact | Assets/Scripts/MouthAI.cs:114-119 | the score is 1 exactly when the input is the target's triple |
| Mouth.ScoreMonotone | Assets/Scripts/MouthAI.cs:114-119 | an input no farther from the target scores at least as high |
| Mouth.ScoreClampInactive | Assets/Scripts/MouthAI.cs:117-118 | inside the slider cube the squared distance never exceeds the squared cube diagonal |
| Mouth.GetHint | Assets/Scripts/MouthAI.cs:129-146 | each hint is chosen exactly when its axis has the largest deviation (jaw, then lip, then tongue on ties) and the input lies on that side of the target; "Looking good" is never returned |
| Mouth.Tier | Assets/Scripts/MouthAI.cs:73-79 | Excellent exactly above 0.8, Almost exactly in (0.5, 0.8], Not quite exactly at or below 0.5; the lower tiers carry the detected sound and the hint |
| Mouth.ExactMatchExcellent | Assets/Scripts/MouthAI.cs:74-75 | submitting the target's exact shape earns Excellent |
| Mouth.MouthAI.constructor | Assets/Scripts/MouthAI.cs:23-33 | target "TH", not submitted, and the target can be looked up |
| Mouth.MouthAI.Start | Assets/Scripts/MouthAI.cs:35-44 | the feedback is the prompt for the target; submitted is unchanged |
| Mouth.MouthAI.Update | Assets/Scripts/MouthAI.cs:46-57 | while submitted the feedback is untouched; otherwise it is the live readout of the clamped sliders |
| Mouth.MouthAI.Submit | Assets/Scripts/MouthAI.cs:59-88 | submitted becomes true and the feedback is the verdict for the clamped sliders |
| Mouth.MouthAI.Reset | Assets/Scripts/MouthAI.cs:90-106 | submitted becomes false, the three sliders go to 1 and the prompt is shown |
| Parenter.LipSplineMidpoint | Assets/Scripts/TongueParenter.cs:27-33 | the midpoint is the lip's Bezier at 0.5, (left + 2 top + right) / 4 |
| Parenter.LipOpenAmount | Assets/Scripts/TongueParenter.cs:35-38 | the amount lies in [0, 1], is 0 exactly when the top is level with the corners' mean, and is the distance from it below 1 |
| Parenter.TargetLeft | Assets/Scripts/TongueParenter.cs:48 | the target is the anchor moved halfWidth in −x |
| Parenter.TargetRight | Assets/Scripts/TongueParenter.cs:49 | the target is the anchor moved halfWidth in +x |
| Parenter.TargetsLevel | Assets/Scripts/TongueParenter.cs:47-49 | with a non-negative half-width the two targets share y and z, are ordered in x, and are centred on the anchor |
| Parenter.FollowKeepsLevel | Assets/Scripts/TongueParenter.cs:51-60 | the snap, and the lerp with the same factor on both points, keep a level base level |
| Parenter.FollowBetween | Assets/Scripts/TongueParenter.cs:58-59 | easing never overshoots: each coordinate lands between where it was and its target |
| Parenter.TongueParenter.constructor | Assets/Scripts/TongueParenter.cs:9-25 | the inspector defaults and not yet initialised |
| Parenter.TongueParenter.Update | Assets/Scripts/TongueParenter.cs:40-72 | with either reference missing nothing changes; otherwise the base snaps to its targets on the first frame and follows them by Lerp after, the tongue gets the new base and a tip with the anchor's x and z and its old y, the tongue mesh is rebuilt, and a level base stays level |
| Jaw.Opened | Assets/Scripts/JawOpen.cs:42-48 | only the top point's y moves, into [minY, maxY], and the centre thickness changes only when a thickness range is set |
| Jaw.TopRoundTrip | Assets/Scripts/JawOpen.cs:32-43 | feeding back the slider value Start computes puts the top point back where it was |
| Jaw.JawOpen.constructor | Assets/Scripts/JawOpen.cs:6-27 | the inspector defaults |
| Jaw.JawOpen.Start | Assets/Scripts/JawOpen.cs:29-36 | with both references the slider shows the top height's place in [minY, maxY], a value in [0, 1]; without the lip it is untouched |
| Jaw.JawOpen.OnSliderChanged | Assets/Scripts/JawOpen.cs:38-61 | without a lip nothing changes; otherwise the lip becomes Opened and is rebuilt, and a wired tongue gets its tip height and bulge from the closed/open settings and is rebuilt |
| Round.Spread | Assets/Scripts/LipRound.cs:28-37 | the corners move to −spread and +spread with spread in [minSpread, maxSpread]; their y and z, the top point and all other settings stay |
| Round.SpreadRoundTrip | Assets/Scripts/LipRound.cs:18-34 | feeding back the slider value Start computes gives rightPoint.x = abs(rightPoint.x) and a symmetric lip back unchanged |
| Round.LipRound.constructor | Assets/Scripts/LipRound.cs:6-13 | the inspector defaults |
| Round.LipRound.Start | Assets/Scripts/LipRound.cs:15-24 | with both references the slider shows abs(rightPoint.x)'s place in the range, a value in [0, 1] |
| Round.LipRound.OnSliderChanged | Assets/Scripts/LipRound.cs:26-39 | the lip becomes Spread and its mesh is rebuilt |
| Height.Raised | Assets/Scripts/TongueHeight.cs:29-33 | only the tip's y and the bulge move, into [minY, maxY] and [minBulge, maxBulge]; the base, taper and resolution stay |
| Height.TipRoundTrip | Assets/Scripts/TongueHeight.cs:22-30 | feeding back the slider value Start computes puts the tip back where it was |
| Height.TongueHeight.constructor | Assets/Scripts/TongueHeight.cs:6-17 | the inspector defaults |
| Height.TongueHeight.Start | Assets/Scripts/TongueHeight.cs:19-26 | with both references the slider shows the tip height's place in [minY, maxY], a value in [0, 1] |
| Height.TongueHeight.OnSliderChanged | Assets/Scripts/TongueHeight.cs:28-36 | the tongue becomes Raised and its mesh is rebuilt |
| Height.TongueHeight.ForceUpdate | Assets/Scripts/TongueHeight.cs:42-45 | with a slider it acts as OnSliderChanged(slider.value); without one the tongue is untouched |

## Left out

- Square roots, sine, cosine, Pow and Vector3.normalized are left uninterpreted. They are supplied as a `Numerics` value. Proofs use only what `Lawful` states: sqrt is non-negative, zero at zero and increasing; Pow(x, 2) = x²; normalisation scales by a non-negative factor.
- Floats are modelled as exact reals. Rounding, NaN from 0 / 0 and infinities are not modelled.
- Mathf.RoundToInt of the score, the TextMeshPro strings and the hint texts are left out. The model keeps the feedback as a value: the prompt, the live readout, or the verdict tier with its detected sound and hint.
- Slider minValue and maxValue, listener registration and removal (OnDestroy), button wiring, SetActive and interactable are UI plumbing and are left out. A slider is reduced to its value. The value a slider would clamp on assignment is not modelled.
- Mesh object identity, Clear, RecalculateNormals, RecalculateBounds, the MeshFilter assignment, ApplyMaterial and material colours are engine calls. A mesh is modelled as its three buffers.
- Gizmo drawing, the editor inspectors and scene handles are editor tooling and are left out.
- LipCullingMask is not part of this model. It only configures cameras.
- TransformPoint and InverseTransformPoint in TongueParenter are modelled as one function parameter. Time.deltaTime is a parameter, and Application.isPlaying a boolean parameter.
- The engine decides when it calls Start, Update and OnValidate. The model takes each call as given.
- Scene references and inspector settings are `const` fields set by the constructor, because the components never assign them.
- Lip.LipMeshGenerator.GenerateMesh requires segments > 0, and so do OnValidate and the lip's callers. The field is declared `[Range(4, 128)]` (LipMeshGenerator.cs:38-39); segments = 0 makes `t = i / segments` a 0 / 0 NaN, which reals cannot express.
- Tongue.TongueMeshGenerator.GenerateMesh requires segments >= 4, and so do OnValidate and the tongue's callers. The field is declared `[Range(8, 128)]` (TongueMeshGenerator.cs:32-33); below 4, tipStart equals segments and the cap's `localT` divides 0 by 0.
- Tube.ThickBezierCurve.GenerateMesh requires segmentsPerCurve != 0, and so do Start and OnValidate. The fields carry no range; segmentsPerCurve = 0 makes `t = i / segmentsPerCurve` a 0 / 0 NaN, which reals cannot express. Negative segmentsPerCurve and non-positive tubeSegments are modelled: the loops emit nothing.
- Tube.ThickBezierCurve.GenerateMesh stitches the rings - 1 gaps between consecutive rings, not the `rings` bands of the loop at ThickBezierCurve.cs:70, so its triangle list differs from the program's by the final out-of-range band. The list as written is Tube.AsWrittenTriangles; see Findings.
- Lip.FillLipColumns reads the weight cache for every column. The source's Pow(Sin) fallback inside the column loop is never taken, because GenerateMesh has repaired the cache to segments + 1 entries by then, so that branch is not modelled.
- Height.TongueHeight.OnSliderChanged requires a tongue generator. The source dereferences it unchecked, and the method is only registered as a listener after Start has checked it.
- Round.LipRound.OnSliderChanged requires a lip generator. The source dereferences it unchecked (LipRound.cs:30-38), and the method is only registered as a listener after Start has checked it (LipRound.cs:16-23).
- Mouth.MouthAI.Start, Update, Submit and Reset take the three slider references as non-null. The source dereferences them unchecked.
- Tube.RingFrameOrthogonal proves that the frame vectors are mutually perpendicular. It does not prove they have unit length, because normalisation is uninterpreted.
- Tube.CubicTangentIsDerivative is proved one coordinate at a time. CubicBezier and CubicBezierTangent apply the same scalar forms to x, y and z.

## Findings

| source | as written | input that shows it | evidently intended | confidence | as-written member | corrected member |
|---|---|---|---|---|---|---|
| Assets/ThickBezierCurve.cs:69-85 | the stitching loop runs over all `rings` rings, so the last band joins the last ring to a ring that was never emitted | 4 control points, segmentsPerCurve = 1, tubeSegments = 3: 2 rings, 6 vertices, and the final band refers to vertices 6, 7 and 8 | stitch only the rings − 1 gaps between consecutive rings, keeping every index below the vertex count | not executed | Tube.AsWrittenFinalBandOutOfRange | Tube.TubeMeshShape |
