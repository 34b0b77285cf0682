/** The curve parameterisation and the quadratic Bezier shared by the lip generator,
    the tongue generator and the tongue parenter. */
module Curves {
  import opened UnityEngine

  /** `(float)i / segments`: the curve parameter of sample i out of n */
  function SampleT(i: int, n: int): (t: real)
    requires 0 < n
    ensures 0 <= i <= n ==> 0.0 <= t <= 1.0
    ensures t == 0.0 <==> i == 0
    ensures t == 1.0 <==> i == n
  {
    var r := i as real / n as real;
    assert r * n as real == i as real;
    assert i < n ==> r < 1.0 by {
      if i < n && 1.0 <= r { MulMono(1.0, r, n as real); }
    }
    assert i > n ==> r > 1.0 by {
      if i > n && r <= 1.0 { MulMono(r, 1.0, n as real); }
    }
    assert 0 <= i ==> 0.0 <= r;
    r
  }

  /** One coordinate of the quadratic Bezier: u*u*a + 2*u*t*b + t*t*c with u = 1 - t */
  function QuadraticScalar(a: real, b: real, c: real, t: real): real {
    var u := 1.0 - t;
    u * u * a + 2.0 * u * t * b + t * t * c
  }

  /** One coordinate of the derivative: 2*(1-t)*(b-a) + 2*t*(c-b) */
  function QuadraticTangentScalar(a: real, b: real, c: real, t: real): real {
    2.0 * (1.0 - t) * (b - a) + 2.0 * t * (c - b)
  }

  /** Quadratic Bezier through p0 and p2, pulled towards p1, coordinate by coordinate */
  function QuadraticBezier(p0: Vec3, p1: Vec3, p2: Vec3, t: real): (p: Vec3)
    ensures t == 0.0 ==> p == p0
    ensures t == 1.0 ==> p == p2
    ensures t == 0.5 ==> p == Scale(0.25, Add(Add(p0, Scale(2.0, p1)), p2))
  {
    Vec3(QuadraticScalar(p0.x, p1.x, p2.x, t), QuadraticScalar(p0.y, p1.y, p2.y, t), QuadraticScalar(p0.z, p1.z, p2.z, t))
  }

  /** Derivative of QuadraticBezier: 2*(1-t)*(p1-p0) + 2*t*(p2-p1) */
  function QuadraticBezierTangent(p0: Vec3, p1: Vec3, p2: Vec3, t: real): (d: Vec3)
    ensures t == 0.0 ==> d == Scale(2.0, Sub(p1, p0))
    ensures t == 1.0 ==> d == Scale(2.0, Sub(p2, p1))
  {
    Vec3(QuadraticTangentScalar(p0.x, p1.x, p2.x, t), QuadraticTangentScalar(p0.y, p1.y, p2.y, t),
      QuadraticTangentScalar(p0.z, p1.z, p2.z, t))
  }

  /** One coordinate of QuadraticTangentIsDerivative */
  lemma QuadraticStep(a: real, b: real, c: real, t: real, h: real)
    ensures QuadraticScalar(a, b, c, t + h) - QuadraticScalar(a, b, c, t)
      == h * QuadraticTangentScalar(a, b, c, t) + h * h * (a - 2.0 * b + c)
  {
  }

  /** The tangent is the exact derivative of the curve: a step h along the curve
      is h times the tangent plus h*h times the constant second-order term. */
  lemma QuadraticTangentIsDerivative(p0: Vec3, p1: Vec3, p2: Vec3, t: real, h: real)
    ensures Sub(QuadraticBezier(p0, p1, p2, t + h), QuadraticBezier(p0, p1, p2, t))
         == Add(Scale(h, QuadraticBezierTangent(p0, p1, p2, t)),
                Scale(h * h, Add(Sub(p0, Scale(2.0, p1)), p2)))
  {
    var d := QuadraticBezierTangent(p0, p1, p2, t);
    var k := Add(Sub(p0, Scale(2.0, p1)), p2);
    QuadraticStep(p0.x, p1.x, p2.x, t, h);
    QuadraticStep(p0.y, p1.y, p2.y, t, h);
    QuadraticStep(p0.z, p1.z, p2.z, t, h);
    assert d == Vec3(QuadraticTangentScalar(p0.x, p1.x, p2.x, t), QuadraticTangentScalar(p0.y, p1.y, p2.y, t),
      QuadraticTangentScalar(p0.z, p1.z, p2.z, t));
    assert k == Vec3(p0.x - 2.0 * p1.x + p2.x, p0.y - 2.0 * p1.y + p2.y, p0.z - 2.0 * p1.z + p2.z);
  }
}
