/** The jaw-open driver: a normalised slider raises the lip's top point over a configured
    range, optionally animates the lip's centre thickness, and, when a tongue is wired, moves
    the tongue tip and bulge between their closed and open settings. */
module Jaw {
  import opened UnityEngine
  import Lip
  import Tongue
  import Height

  /** The lip after the driver applies `value`: the top point's height follows the slider over
      [minY, maxY], the centre thickness over [minThickness, maxThickness] when that range is
      set (either end non-zero); the corners and every other setting stay. */
  function Opened(s: Lip.LipShape, minY: real, maxY: real, minThickness: real, maxThickness: real, value: real)
    : (r: Lip.LipShape)
    ensures r.left == s.left && r.right == s.right
    ensures r.top.x == s.top.x && r.top.z == s.top.z
    ensures minY <= maxY ==> minY <= r.top.y <= maxY
    ensures value <= 0.0 ==> r.top.y == minY
    ensures 1.0 <= value ==> r.top.y == maxY
    ensures r.centerThickness != s.centerThickness ==> minThickness != 0.0 || maxThickness != 0.0
    ensures minThickness == 0.0 && maxThickness == 0.0 ==> r.centerThickness == s.centerThickness
    ensures r.edgeThickness == s.edgeThickness && r.thicknessFalloff == s.thicknessFalloff
    ensures r.segments == s.segments
  {
    var top := s.top.(y := Lerp(minY, maxY, value));
    var thickness :=
      if minThickness != 0.0 || maxThickness != 0.0 then Lerp(minThickness, maxThickness, value)
      else s.centerThickness;
    s.(top := top, centerThickness := thickness)
  }

  /** Feeding back the slider position Start derives from the top point's height puts the top
      point back where it was, when that height lies inside a non-empty range. */
  lemma TopRoundTrip(s: Lip.LipShape, minY: real, maxY: real, minThickness: real, maxThickness: real)
    requires minY < maxY && minY <= s.top.y <= maxY
    ensures Opened(s, minY, maxY, minThickness, maxThickness, Clamp01(InverseLerp(minY, maxY, s.top.y))).top == s.top
  {
    LerpInverseLerp(minY, maxY, s.top.y);
  }

  class JawOpen {
    // The scene's wiring and the inspector settings, which the component never assigns
    const lipGenerator: Lip.LipMeshGenerator?
    const slider: Slider?
    const minY: real
    const maxY: real
    const minThickness: real
    const maxThickness: real
    const tongueGenerator: Tongue.TongueMeshGenerator?
    const tongueTipYClosed: real
    const tongueTipYOpen: real
    const tongueBulgeClosed: real
    const tongueBulgeOpen: real

    /** The inspector defaults, with the three references as assigned in the scene */
    constructor (lipGenerator: Lip.LipMeshGenerator?, slider: Slider?, tongueGenerator: Tongue.TongueMeshGenerator?)
      ensures this.lipGenerator == lipGenerator && this.slider == slider && this.tongueGenerator == tongueGenerator
      ensures minY == 0.0 && maxY == 1.0 && minThickness == 0.0 && maxThickness == 0.0
      ensures tongueTipYClosed == 0.1 && tongueTipYOpen == -0.3
      ensures tongueBulgeClosed == 0.1 && tongueBulgeOpen == 0.5
    {
      this.lipGenerator := lipGenerator;
      this.slider := slider;
      this.tongueGenerator := tongueGenerator;
      minY := 0.0;
      maxY := 1.0;
      minThickness := 0.0;
      maxThickness := 0.0;
      tongueTipYClosed := 0.1;
      tongueTipYOpen := -0.3;
      tongueBulgeClosed := 0.1;
      tongueBulgeOpen := 0.5;
    }

    /** Shows the top point's current height on the slider; does nothing without both references. */
    method Start()
      modifies slider
      ensures slider != null && lipGenerator != null ==>
        slider.value == Clamp01(InverseLerp(minY, maxY, lipGenerator.topPoint.y)) &&
        0.0 <= slider.value <= 1.0
      ensures slider != null && lipGenerator == null ==> slider.value == old(slider.value)
    {
      if slider == null || lipGenerator == null {
        return;
      }
      var t := InverseLerp(minY, maxY, lipGenerator.topPoint.y);
      slider.value := Clamp01(t);
    }

    /** Opens the lip to the slider value and rebuilds its mesh, then, when a tongue is wired,
        moves the tongue with it and rebuilds that mesh; without a lip nothing happens. */
    method OnSliderChanged(num: Numerics, isPlaying: bool, value: real)
      requires lipGenerator != null ==> 0 < lipGenerator.segments
      requires tongueGenerator != null ==> 4 <= tongueGenerator.segments
      modifies lipGenerator, tongueGenerator
      ensures lipGenerator == null && tongueGenerator != null ==> unchanged(tongueGenerator)
      ensures lipGenerator != null ==>
        lipGenerator.Shape() == Opened(old(lipGenerator.Shape()), minY, maxY, minThickness, maxThickness, value) &&
        lipGenerator.WeightsMatch() &&
        (old(lipGenerator.WeightsMatch()) ==> lipGenerator.vertexWeights[..] == old(lipGenerator.vertexWeights[..])) &&
        lipGenerator.mesh == Lip.LipMesh(num, lipGenerator.Shape(), lipGenerator.vertexWeights[..])
      ensures lipGenerator != null && tongueGenerator != null ==>
        tongueGenerator.Shape() == Height.Raised(old(tongueGenerator.Shape()),
          tongueTipYClosed, tongueTipYOpen, tongueBulgeClosed, tongueBulgeOpen, value) &&
        tongueGenerator.mesh == Tongue.TongueMesh(num, tongueGenerator.Shape())
    {
      if lipGenerator == null {
        return;
      }

      var top := lipGenerator.topPoint;
      top := top.(y := Lerp(minY, maxY, value));
      lipGenerator.topPoint := top;

      if minThickness != 0.0 || maxThickness != 0.0 {
        lipGenerator.centerThickness := Lerp(minThickness, maxThickness, value);
      }

      lipGenerator.GenerateMesh(num, isPlaying);

      if tongueGenerator != null {
        var tip := tongueGenerator.tipPoint;
        tip := tip.(y := Lerp(tongueTipYClosed, tongueTipYOpen, value));
        tongueGenerator.tipPoint := tip;

        tongueGenerator.bulge := Lerp(tongueBulgeClosed, tongueBulgeOpen, value);
        tongueGenerator.GenerateMesh(num);
      }
    }
  }
}
