/** The parts of the Unity engine the generators and drivers rely on, over exact reals:
    Vector3/Vector2 values, the Mathf routines with their documented semantics,
    the Slider component's value and a Mesh's three buffers.
    Square roots, trigonometry, powers and vector normalisation are not computed here:
    they are supplied as a `Numerics` value whose functions are otherwise uninterpreted. */
module UnityEngine {

  datatype Vec3 = Vec3(x: real, y: real, z: real)
  datatype Vec2 = Vec2(x: real, y: real)

  /** Vector3.up, Vector3.right and Vector3.left */
  const Up: Vec3 := Vec3(0.0, 1.0, 0.0)
  const Right: Vec3 := Vec3(1.0, 0.0, 0.0)
  const Left: Vec3 := Vec3(-1.0, 0.0, 0.0)

  /** Mathf.PI as the single-precision literal the engine declares */
  const PI: real := 3.14159274

  function Add(a: Vec3, b: Vec3): Vec3 { Vec3(a.x + b.x, a.y + b.y, a.z + b.z) }
  function Sub(a: Vec3, b: Vec3): Vec3 { Vec3(a.x - b.x, a.y - b.y, a.z - b.z) }
  /** `v * k` and `k * v` on Vector3 */
  function Scale(k: real, v: Vec3): Vec3 { Vec3(k * v.x, k * v.y, k * v.z) }
  function Dot(a: Vec3, b: Vec3): real { a.x * b.x + a.y * b.y + a.z * b.z }
  function Cross(a: Vec3, b: Vec3): Vec3 {
    Vec3(a.y * b.z - a.z * b.y, a.z * b.x - a.x * b.z, a.x * b.y - a.y * b.x)
  }

  lemma DotScaleLeft(k: real, a: Vec3, b: Vec3)
    ensures Dot(Scale(k, a), b) == k * Dot(a, b)
  {
  }

  lemma DotAddLeft(a: Vec3, b: Vec3, c: Vec3)
    ensures Dot(Add(a, b), c) == Dot(a, c) + Dot(b, c)
  {
  }

  /** A cross product is perpendicular to both of its factors. */
  lemma CrossPerpendicular(a: Vec3, b: Vec3)
    ensures Dot(Cross(a, b), a) == 0.0
    ensures Dot(Cross(a, b), b) == 0.0
  {
  }

  /** The engine functions this model leaves uninterpreted.
      `invMagnitude(v)` is the factor by which `v.normalized` scales `v`
      (one over the length, or zero for a vector too short to normalise). */
  datatype Numerics = Numerics(
    sqrt: real -> real,
    sin: real -> real,
    cos: real -> real,
    pow: (real, real) -> real,
    invMagnitude: Vec3 -> real)

  /** 0 <= x < y; named so that sqrt's monotonicity is used only where a proof asks for it */
  predicate Below(x: real, y: real) {
    0.0 <= x < y
  }

  /** The only facts about the uninterpreted functions that any proof uses:
      sqrt is non-negative, zero at zero and strictly increasing on the non-negative reals;
      pow squares exactly for the exponent 2; normalisation never flips a direction. */
  ghost predicate Lawful(num: Numerics) {
    num.sqrt(0.0) == 0.0 &&
    (forall x :: 0.0 <= x ==> 0.0 <= num.sqrt(x)) &&
    (forall x, y {:trigger Below(x, y)} :: Below(x, y) ==> num.sqrt(x) < num.sqrt(y)) &&
    (forall x :: num.pow(x, 2.0) == x * x) &&
    (forall v :: 0.0 <= num.invMagnitude(v))
  }

  /** Vector3.normalized: the same direction, scaled by a non-negative factor */
  function Normalized(num: Numerics, v: Vec3): Vec3 {
    Scale(num.invMagnitude(v), v)
  }

  /** Vector3.Distance */
  function Distance(num: Numerics, a: Vec3, b: Vec3): real {
    var d := Sub(a, b);
    num.sqrt(d.x * d.x + d.y * d.y + d.z * d.z)
  }

  /** Proof helper, no source counterpart: multiplying both sides of an inequality by a non-negative factor keeps it. */
  lemma MulMono(x: real, y: real, k: real)
    requires x <= y && 0.0 <= k
    ensures x * k <= y * k
  {
    assert (y - x) * k >= 0.0;
  }

  /** Proof helper, no source counterpart: multiplying both sides of a strict inequality by a positive factor keeps it. */
  lemma MulStrict(x: real, y: real, k: real)
    requires x < y && 0.0 < k
    ensures x * k < y * k
  {
    assert (y - x) * k > 0.0;
  }

  /** Under Lawful, sqrt is zero exactly at zero and orders its arguments as they are ordered. */
  lemma SqrtOrder(num: Numerics, a: real, b: real)
    requires Lawful(num) && 0.0 <= a && 0.0 <= b
    ensures num.sqrt(a) <= num.sqrt(b) <==> a <= b
    ensures num.sqrt(a) == 0.0 <==> a == 0.0
  {
    if 0.0 < a {
      assert Below(0.0, a);
    }
    if a < b {
      assert Below(a, b);
    } else if b < a {
      assert Below(b, a);
    }
  }

  function Abs(v: real): (r: real)
    ensures 0.0 <= r && (r == v || r == -v)
  {
    if v < 0.0 then -v else v
  }

  /** Mathf.Clamp */
  function Clamp(v: real, lo: real, hi: real): (r: real)
    ensures lo <= hi ==> lo <= r <= hi
    ensures lo <= v <= hi ==> r == v
  {
    if v < lo then lo else if v > hi then hi else v
  }

  /** Mathf.Clamp01 */
  function Clamp01(v: real): (r: real)
    ensures 0.0 <= r <= 1.0
    ensures 0.0 <= v <= 1.0 ==> r == v
    ensures v <= 0.0 ==> r == 0.0
    ensures 1.0 <= v ==> r == 1.0
  {
    if v < 0.0 then 0.0 else if v > 1.0 then 1.0 else v
  }

  /** Mathf.Max for three arguments: the largest of them, and always one of them */
  function Max3(a: real, b: real, c: real): (m: real)
    ensures m == a || m == b || m == c
    ensures a <= m && b <= m && c <= m
  {
    var ab := if b > a then b else a;
    if c > ab then c else ab
  }

  /** A fraction c in [0,1] of a difference d lies between 0 and d. */
  lemma LerpStep(d: real, c: real)
    requires 0.0 <= c <= 1.0
    ensures 0.0 <= d ==> 0.0 <= d * c <= d
    ensures d <= 0.0 ==> d <= d * c <= 0.0
  {
    if 0.0 <= d { MulMono(c, 1.0, d); MulMono(0.0, c, d); }
    else { MulMono(c, 1.0, -d); MulMono(0.0, c, -d); }
  }

  /** Mathf.Lerp, whose parameter is clamped to [0,1]: the result lies between a and b */
  function Lerp(a: real, b: real, t: real): (r: real)
    ensures a <= b ==> a <= r <= b
    ensures b <= a ==> b <= r <= a
    ensures t <= 0.0 ==> r == a
    ensures 1.0 <= t ==> r == b
  {
    var c := Clamp01(t);
    var d := b - a;
    LerpStep(d, c);
    a + d * c
  }

  /** Lerp with one parameter is monotone in both endpoints. */
  lemma LerpMonotone(a1: real, b1: real, a2: real, b2: real, t: real)
    requires a1 <= a2 && b1 <= b2
    ensures Lerp(a1, b1, t) <= Lerp(a2, b2, t)
  {
    var c := Clamp01(t);
    var da, db := a2 - a1, b2 - b1;
    MulMono(0.0, 1.0 - c, da);
    MulMono(0.0, c, db);
    assert 0.0 <= (1.0 - c) * da && 0.0 <= c * db;
    var gap := (1.0 - c) * da + c * db;
    calc {
      Lerp(a2, b2, t) - Lerp(a1, b1, t);
    ==
      (a2 + (b2 - a2) * c) - (a1 + (b1 - a1) * c);
    ==
      gap;
    }
  }

  /** Mathf.InverseLerp: where v sits between a and b, clamped to [0,1]; 0 when a == b */
  function InverseLerp(a: real, b: real, v: real): (r: real)
    ensures 0.0 <= r <= 1.0
    ensures a == b ==> r == 0.0
    ensures a != b && v == a ==> r == 0.0
    ensures a != b && v == b ==> r == 1.0
  {
    if a != b then
      assert (b - a) / (b - a) == 1.0;
      Clamp01((v - a) / (b - a))
    else 0.0
  }

  /** Lerp undoes InverseLerp on the range: a slider initialised from a value and fed back reproduces it. */
  lemma LerpInverseLerp(a: real, b: real, v: real)
    requires a < b && a <= v <= b
    ensures Lerp(a, b, Clamp01(InverseLerp(a, b, v))) == v
  {
    var d := b - a;
    var q := (v - a) / d;
    assert q * d == v - a;
    if q < 0.0 { MulStrict(q, 0.0, d); }
    if q > 1.0 { MulStrict(1.0, q, d); }
    assert InverseLerp(a, b, v) == q;
  }

  /** The cubic Hermite ease 3c^2 - 2c^3 maps [0,1] onto [0,1], 0 to 0 and 1 to 1. */
  function Ease(c: real): (e: real)
    requires 0.0 <= c <= 1.0
    ensures 0.0 <= e <= 1.0
    ensures c == 0.0 ==> e == 0.0
    ensures c == 1.0 ==> e == 1.0
  {
    var v := -2.0 * c * c * c + 3.0 * c * c;
    var sq, rest := c * c, (1.0 - c) * (1.0 - c);
    assert v == sq * (3.0 - 2.0 * c);
    assert 1.0 - v == rest * (1.0 + 2.0 * c);
    MulMono(0.0, c, c);
    MulMono(0.0, 1.0 - c, 1.0 - c);
    MulMono(0.0, sq, 3.0 - 2.0 * c);
    MulMono(0.0, rest, 1.0 + 2.0 * c);
    assert 0.0 <= sq * (3.0 - 2.0 * c);
    assert 0.0 <= rest * (1.0 + 2.0 * c);
    v
  }

  /** Mathf.SmoothStep: the parameter is clamped, then eased by 3t^2 - 2t^3 */
  function SmoothStep(from: real, to: real, t: real): (r: real)
    ensures from == 0.0 && to == 1.0 ==> 0.0 <= r <= 1.0
    ensures from == 0.0 && to == 1.0 && t <= 0.0 ==> r == 0.0
    ensures from == 0.0 && to == 1.0 && 1.0 <= t ==> r == 1.0
  {
    var e := Ease(Clamp01(t));
    to * e + from * (1.0 - e)
  }

  /** Vector3.Lerp, whose parameter is clamped to [0,1] */
  function V3Lerp(a: Vec3, b: Vec3, t: real): (r: Vec3)
    ensures t <= 0.0 ==> r == a
    ensures 1.0 <= t ==> r == b
  {
    var c := Clamp01(t);
    Vec3(a.x + (b.x - a.x) * c, a.y + (b.y - a.y) * c, a.z + (b.z - a.z) * c)
  }

  /** Vector3.Lerp is Mathf.Lerp on each coordinate. */
  lemma V3LerpComponents(a: Vec3, b: Vec3, t: real)
    ensures V3Lerp(a, b, t) == Vec3(Lerp(a.x, b.x, t), Lerp(a.y, b.y, t), Lerp(a.z, b.z, t))
  {
  }

  /** The three buffers of a Mesh after `vertices`, `uv` and `triangles` are assigned */
  datatype MeshData = MeshData(vertices: seq<Vec3>, uv: seq<Vec2>, triangles: seq<int>)

  /** A triangle whose three corners are distinct vertices */
  predicate NonDegenerate(a: int, b: int, c: int) {
    a != b && b != c && a != c
  }

  /** What Mesh.Clear leaves, and a new Mesh holds */
  const EmptyMesh: MeshData := MeshData([], [], [])

  /** A UI slider, reduced to its current value */
  class Slider {
    var value: real

    constructor (v: real)
      ensures value == v
    {
      value := v;
    }
  }
}
