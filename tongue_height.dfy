/** The tongue-height driver: a normalised slider sets the height of the tongue tip and the
    bulge of its edges, each by a clamped lerp over a configured range. */
module Height {
  import opened UnityEngine
  import Tongue

  /** The tongue after the driver applies `value`: the tip rises to Lerp(minY, maxY, value)
      and the bulge becomes Lerp(minBulge, maxBulge, value); nothing else moves. */
  function Raised(s: Tongue.TongueShape, minY: real, maxY: real, minBulge: real, maxBulge: real, value: real)
    : (r: Tongue.TongueShape)
    ensures r.tip.x == s.tip.x && r.tip.z == s.tip.z
    ensures minY <= maxY ==> minY <= r.tip.y <= maxY
    ensures value <= 0.0 ==> r.tip.y == minY && r.bulge == minBulge
    ensures 1.0 <= value ==> r.tip.y == maxY && r.bulge == maxBulge
    ensures minBulge <= maxBulge ==> minBulge <= r.bulge <= maxBulge
    ensures r.baseLeft == s.baseLeft && r.baseRight == s.baseRight
    ensures r.tipTaper == s.tipTaper && r.segments == s.segments
  {
    var tip := s.tip.(y := Lerp(minY, maxY, value));
    s.(tip := tip, bulge := Lerp(minBulge, maxBulge, value))
  }

  /** Feeding back the slider position Start derives from the tip's height puts the tip back
      where it was, when that height lies inside a non-empty range. */
  lemma TipRoundTrip(s: Tongue.TongueShape, minY: real, maxY: real, minBulge: real, maxBulge: real)
    requires minY < maxY && minY <= s.tip.y <= maxY
    ensures Raised(s, minY, maxY, minBulge, maxBulge, Clamp01(InverseLerp(minY, maxY, s.tip.y))).tip == s.tip
  {
    LerpInverseLerp(minY, maxY, s.tip.y);
  }

  class TongueHeight {
    // The scene's wiring and the inspector settings, which the component never assigns
    const tongueGenerator: Tongue.TongueMeshGenerator?
    const slider: Slider?
    const minY: real
    const maxY: real
    const minBulge: real
    const maxBulge: real

    /** The inspector defaults, with the two references as assigned in the scene */
    constructor (tongueGenerator: Tongue.TongueMeshGenerator?, slider: Slider?)
      ensures this.tongueGenerator == tongueGenerator && this.slider == slider
      ensures minY == 0.0 && maxY == 1.0 && minBulge == 0.0 && maxBulge == 0.6
    {
      this.tongueGenerator := tongueGenerator;
      this.slider := slider;
      minY := 0.0;
      maxY := 1.0;
      minBulge := 0.0;
      maxBulge := 0.6;
    }

    /** Shows the tip's current height on the slider; does nothing without both references. */
    method Start()
      modifies slider
      ensures slider != null && tongueGenerator != null ==>
        slider.value == Clamp01(InverseLerp(minY, maxY, tongueGenerator.tipPoint.y)) &&
        0.0 <= slider.value <= 1.0
      ensures slider != null && tongueGenerator == null ==> slider.value == old(slider.value)
    {
      if slider == null || tongueGenerator == null {
        return;
      }
      var t := InverseLerp(minY, maxY, tongueGenerator.tipPoint.y);
      slider.value := Clamp01(t);
    }

    /** Moves the tip and the bulge to the slider value and rebuilds the tongue mesh. */
    method OnSliderChanged(num: Numerics, value: real)
      requires tongueGenerator != null && 4 <= tongueGenerator.segments
      modifies tongueGenerator
      ensures tongueGenerator.Shape() == Raised(old(tongueGenerator.Shape()), minY, maxY, minBulge, maxBulge, value)
      ensures tongueGenerator.mesh == Tongue.TongueMesh(num, tongueGenerator.Shape())
    {
      var tip := tongueGenerator.tipPoint;
      tip := tip.(y := Lerp(minY, maxY, value));
      tongueGenerator.tipPoint := tip;

      tongueGenerator.bulge := Lerp(minBulge, maxBulge, value);

      tongueGenerator.GenerateMesh(num);
    }

    /** Re-applies the slider's current value, as OnSliderChanged does; nothing without a slider. */
    method ForceUpdate(num: Numerics)
      requires slider != null ==> tongueGenerator != null && 4 <= tongueGenerator.segments
      modifies tongueGenerator
      ensures slider == null && tongueGenerator != null ==> unchanged(tongueGenerator)
      ensures slider != null ==>
        tongueGenerator.Shape() == Raised(old(tongueGenerator.Shape()), minY, maxY, minBulge, maxBulge, slider.value) &&
        tongueGenerator.mesh == Tongue.TongueMesh(num, tongueGenerator.Shape())
    {
      if slider != null {
        OnSliderChanged(num, slider.value);
      }
    }
  }
}
