/** The tongue parenter: every frame it anchors the tongue's base to the midpoint of the lower
    lip's spline, widens the base with how far the lip is open, snaps the base there on the
    first frame and eases it there afterwards, and moves the tip's x and z (never its y) onto
    the anchor. */
module Parenter {
  import opened UnityEngine
  import opened Curves
  import Lip
  import Tongue

  /** The lip spline at t = u = 0.5: u*u*left + 2*u*t*top + t*t*right */
  function LipSplineMidpoint(left: Vec3, top: Vec3, right: Vec3): (m: Vec3)
    ensures m == QuadraticBezier(left, top, right, 0.5)
    ensures m == Scale(0.25, Add(Add(left, Scale(2.0, top)), right))
  {
    var t, u := 0.5, 0.5;
    Add(Add(Scale(u * u, left), Scale(2.0 * u * t, top)), Scale(t * t, right))
  }

  /** How far the top point stands off the middle of the two corners, clamped to [0,1] */
  function LipOpenAmount(left: Vec3, top: Vec3, right: Vec3): (r: real)
    ensures 0.0 <= r <= 1.0
    ensures r == 0.0 <==> top.y == (left.y + right.y) * 0.5
    ensures r < 1.0 ==> r == Abs(top.y - (left.y + right.y) * 0.5)
  {
    var baseY := (left.y + right.y) * 0.5;
    Clamp01(Abs(top.y - baseY))
  }

  /** The anchor in the tongue's space: the lip midpoint carried through the two transforms,
      pushed back by zOffset */
  function Anchor(lipToTongue: Vec3 -> Vec3, left: Vec3, top: Vec3, right: Vec3, zOffset: real): Vec3 {
    var a := lipToTongue(LipSplineMidpoint(left, top, right));
    Vec3(a.x, a.y, a.z + zOffset)
  }

  /** anchor + Vector3.left * halfWidth */
  function TargetLeft(anchor: Vec3, halfWidth: real): (p: Vec3)
    ensures p == Vec3(anchor.x - halfWidth, anchor.y, anchor.z)
  {
    Add(anchor, Scale(halfWidth, Left))
  }

  /** anchor + Vector3.right * halfWidth */
  function TargetRight(anchor: Vec3, halfWidth: real): (p: Vec3)
    ensures p == Vec3(anchor.x + halfWidth, anchor.y, anchor.z)
  {
    Add(anchor, Scale(halfWidth, Right))
  }

  /** Where a base point goes this frame: onto its target on the first frame, a lerp towards it after */
  function Follow(initialised: bool, current: Vec3, target: Vec3, factor: real): Vec3 {
    if initialised then V3Lerp(current, target, factor) else target
  }

  /** Two base points at the same height and depth, the left one not to the right of the right one */
  predicate Level(left: Vec3, right: Vec3) {
    left.y == right.y && left.z == right.z && left.x <= right.x
  }

  /** With a non-negative half-width, the two targets are level and centred on the anchor. */
  lemma TargetsLevel(anchor: Vec3, halfWidth: real)
    requires 0.0 <= halfWidth
    ensures Level(TargetLeft(anchor, halfWidth), TargetRight(anchor, halfWidth))
    ensures Scale(0.5, Add(TargetLeft(anchor, halfWidth), TargetRight(anchor, halfWidth))) == anchor
  {
  }

  /** Following level targets from level base points (or snapping to them) keeps the base level:
      the two points move with the same factor. */
  lemma FollowKeepsLevel(initialised: bool, left: Vec3, right: Vec3, targetLeft: Vec3, targetRight: Vec3, factor: real)
    requires initialised ==> Level(left, right)
    requires Level(targetLeft, targetRight)
    ensures Level(Follow(initialised, left, targetLeft, factor), Follow(initialised, right, targetRight, factor))
  {
    if initialised {
      V3LerpComponents(left, targetLeft, factor);
      V3LerpComponents(right, targetRight, factor);
      LerpMonotone(left.x, targetLeft.x, right.x, targetRight.x, factor);
    }
  }

  /** Each coordinate of a followed point lies between where it was and its target: easing
      never overshoots. */
  lemma FollowBetween(current: Vec3, target: Vec3, factor: real)
    ensures var p := Follow(true, current, target, factor);
      Between(current.x, target.x, p.x) && Between(current.y, target.y, p.y) && Between(current.z, target.z, p.z)
  {
    V3LerpComponents(current, target, factor);
  }

  predicate Between(a: real, b: real, v: real) {
    (a <= v <= b) || (b <= v <= a)
  }

  class TongueParenter {
    // The scene's wiring and the inspector settings, which the component never assigns
    const lowerLip: Lip.LipMeshGenerator?
    const tongue: Tongue.TongueMeshGenerator?
    const tongueHalfWidth: real
    const zOffset: real
    const followSpeed: real
    // The state carried from frame to frame
    var currentBaseLeft: Vec3
    var currentBaseRight: Vec3
    var initialised: bool

    /** The inspector defaults, with the two references as assigned in the scene */
    constructor (lowerLip: Lip.LipMeshGenerator?, tongue: Tongue.TongueMeshGenerator?)
      ensures this.lowerLip == lowerLip && this.tongue == tongue
      ensures tongueHalfWidth == 0.4 && zOffset == -0.1 && followSpeed == 10.0
      ensures !initialised
    {
      this.lowerLip := lowerLip;
      this.tongue := tongue;
      tongueHalfWidth := 0.4;
      zOffset := -0.1;
      followSpeed := 10.0;
      currentBaseLeft := Vec3(0.0, 0.0, 0.0);
      currentBaseRight := Vec3(0.0, 0.0, 0.0);
      initialised := false;
    }

    /** Once the base has been placed, it is level. */
    predicate BaseLevel()
      reads this`initialised, this`currentBaseLeft, this`currentBaseRight
    {
      initialised ==> Level(currentBaseLeft, currentBaseRight)
    }

    /** One frame. `lipToTongue` stands for the lip's TransformPoint followed by the tongue's
        InverseTransformPoint; `deltaTime` is the frame time. */
    method Update(num: Numerics, lipToTongue: Vec3 -> Vec3, deltaTime: real)
      requires tongue != null ==> 4 <= tongue.segments
      modifies this`currentBaseLeft, this`currentBaseRight, this`initialised, tongue
      ensures lowerLip == null || tongue == null ==>
        initialised == old(initialised) && currentBaseLeft == old(currentBaseLeft) && currentBaseRight == old(currentBaseRight)
      ensures lowerLip == null && tongue != null ==> unchanged(tongue)
      ensures lowerLip != null && tongue != null ==>
        var anchor := Anchor(lipToTongue, lowerLip.leftPoint, lowerLip.topPoint, lowerLip.rightPoint, zOffset);
        var halfWidth := tongueHalfWidth * LipOpenAmount(lowerLip.leftPoint, lowerLip.topPoint, lowerLip.rightPoint);
        var factor := followSpeed * deltaTime;
        initialised &&
        currentBaseLeft == Follow(old(initialised), old(currentBaseLeft), TargetLeft(anchor, halfWidth), factor) &&
        currentBaseRight == Follow(old(initialised), old(currentBaseRight), TargetRight(anchor, halfWidth), factor) &&
        tongue.Shape() == old(tongue.Shape()).(baseLeft := currentBaseLeft, baseRight := currentBaseRight,
          tip := Vec3(anchor.x, old(tongue.tipPoint.y), anchor.z)) &&
        tongue.mesh == Tongue.TongueMesh(num, tongue.Shape())
      ensures old(BaseLevel()) && 0.0 <= tongueHalfWidth ==> BaseLevel()
    {
      if lowerLip == null || tongue == null {
        return;
      }
      var splineMid := LipSplineMidpoint(lowerLip.leftPoint, lowerLip.topPoint, lowerLip.rightPoint);
      var anchor := lipToTongue(splineMid);
      anchor := anchor.(z := anchor.z + zOffset);

      var openAmount := LipOpenAmount(lowerLip.leftPoint, lowerLip.topPoint, lowerLip.rightPoint);
      var halfWidth := tongueHalfWidth * openAmount;
      var targetLeft := TargetLeft(anchor, halfWidth);
      var targetRight := TargetRight(anchor, halfWidth);

      ghost var wasInitialised, wasLevel := initialised, BaseLevel();
      if !initialised {
        currentBaseLeft := targetLeft;
        currentBaseRight := targetRight;
        initialised := true;
      } else {
        currentBaseLeft := V3Lerp(currentBaseLeft, targetLeft, followSpeed * deltaTime);
        currentBaseRight := V3Lerp(currentBaseRight, targetRight, followSpeed * deltaTime);
      }
      if wasLevel && 0.0 <= tongueHalfWidth {
        MulMono(0.0, tongueHalfWidth, openAmount);
        TargetsLevel(anchor, halfWidth);
        FollowKeepsLevel(wasInitialised, old(currentBaseLeft), old(currentBaseRight), targetLeft, targetRight,
          followSpeed * deltaTime);
      }

      tongue.baseLeft := currentBaseLeft;
      tongue.baseRight := currentBaseRight;

      var tip := tongue.tipPoint;
      tip := tip.(x := anchor.x, z := anchor.z);
      tongue.tipPoint := tip;

      tongue.GenerateMesh(num);
    }
  }
}
