/** The lip-round driver: a normalised slider sets how far the two lip corners stand from the
    centre line, always symmetrically, over a configured spread range. */
module Round {
  import opened UnityEngine
  import Lip

  /** The lip after the driver applies `value`: the corners move to x = -spread and x = spread
      with spread = Lerp(minSpread, maxSpread, value); their y and z, the top point and every
      other setting stay. */
  function Spread(s: Lip.LipShape, minSpread: real, maxSpread: real, value: real): (r: Lip.LipShape)
    ensures r.left.x == -r.right.x
    ensures minSpread <= maxSpread ==> minSpread <= r.right.x <= maxSpread
    ensures value <= 0.0 ==> r.right.x == minSpread
    ensures 1.0 <= value ==> r.right.x == maxSpread
    ensures r.left.y == s.left.y && r.left.z == s.left.z
    ensures r.right.y == s.right.y && r.right.z == s.right.z
    ensures r.top == s.top
    ensures r.centerThickness == s.centerThickness && r.edgeThickness == s.edgeThickness
    ensures r.thicknessFalloff == s.thicknessFalloff && r.segments == s.segments
  {
    var spread := Lerp(minSpread, maxSpread, value);
    s.(left := s.left.(x := -spread), right := s.right.(x := spread))
  }

  /** Feeding back the slider position Start derives from |rightPoint.x| sets the right corner
      to |rightPoint.x| and the left to its mirror image, when that spread lies inside a non-empty
      range; a lip that was already symmetric, right corner on the right, comes back unchanged. */
  lemma SpreadRoundTrip(s: Lip.LipShape, minSpread: real, maxSpread: real)
    requires minSpread < maxSpread && minSpread <= Abs(s.right.x) <= maxSpread
    ensures var r := Spread(s, minSpread, maxSpread, Clamp01(InverseLerp(minSpread, maxSpread, Abs(s.right.x))));
      r.right.x == Abs(s.right.x) && r.left.x == -Abs(s.right.x) &&
      (0.0 <= s.right.x && s.left.x == -s.right.x ==> r == s)
  {
    LerpInverseLerp(minSpread, maxSpread, Abs(s.right.x));
  }

  class LipRound {
    // The scene's wiring and the inspector settings, which the component never assigns
    const lipGenerator: Lip.LipMeshGenerator?
    const slider: Slider?
    const minSpread: real
    const maxSpread: real

    /** The inspector defaults, with the two references as assigned in the scene */
    constructor (lipGenerator: Lip.LipMeshGenerator?, slider: Slider?)
      ensures this.lipGenerator == lipGenerator && this.slider == slider
      ensures minSpread == 0.2 && maxSpread == 3.0
    {
      this.lipGenerator := lipGenerator;
      this.slider := slider;
      minSpread := 0.2;
      maxSpread := 3.0;
    }

    /** Shows the current spread |rightPoint.x| on the slider; does nothing without both references. */
    method Start()
      modifies slider
      ensures slider != null && lipGenerator != null ==>
        slider.value == Clamp01(InverseLerp(minSpread, maxSpread, Abs(lipGenerator.rightPoint.x))) &&
        0.0 <= slider.value <= 1.0
      ensures slider != null && lipGenerator == null ==> slider.value == old(slider.value)
    {
      if slider == null || lipGenerator == null {
        return;
      }
      var currentSpread := Abs(lipGenerator.rightPoint.x);
      var t := InverseLerp(minSpread, maxSpread, currentSpread);
      slider.value := Clamp01(t);
    }

    /** Spreads the corners to the slider value and rebuilds the lip mesh. */
    method OnSliderChanged(num: Numerics, isPlaying: bool, value: real)
      requires lipGenerator != null && 0 < lipGenerator.segments
      modifies lipGenerator
      ensures lipGenerator.Shape() == Spread(old(lipGenerator.Shape()), minSpread, maxSpread, value)
      ensures lipGenerator.WeightsMatch()
      ensures old(lipGenerator.WeightsMatch()) ==> lipGenerator.vertexWeights[..] == old(lipGenerator.vertexWeights[..])
      ensures lipGenerator.mesh == Lip.LipMesh(num, lipGenerator.Shape(), lipGenerator.vertexWeights[..])
    {
      var spread := Lerp(minSpread, maxSpread, value);

      var left := lipGenerator.leftPoint;
      var right := lipGenerator.rightPoint;

      left := left.(x := -spread);
      right := right.(x := spread);

      lipGenerator.leftPoint := left;
      lipGenerator.rightPoint := right;
      lipGenerator.GenerateMesh(num, isPlaying);
    }
  }
}
