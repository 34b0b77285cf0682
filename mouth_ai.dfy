/** The pronunciation coach: three slider values (jaw opening, lip rounding, tongue height) are
    matched against a fixed table of sounds, scored against the target sound, and answered with
    a hint naming the one adjustment that matters most. A submitted answer freezes the feedback
    until Reset. */
module Mouth {
  import opened UnityEngine
  import opened Wrappers

  /** A table entry: a sound and the mouth shape that makes it */
  datatype Sound = Sound(name: string, jaw: real, lip: real, tongue: real)

  /** The sound table, in declaration order */
  const Sounds: seq<Sound> := [
    Sound("TH", 0.3, 0.1, 0.3),
    Sound("R", 0.4, 0.6, 0.5),
    Sound("W", 0.3, 0.9, 0.5),
    Sound("L", 0.4, 0.1, 0.9),
    Sound("S", 0.2, 0.1, 0.7),
    Sound("V", 0.3, 0.1, 0.4)
  ]

  /** The slider range every input is clamped to */
  const Low: real := 0.1
  const High: real := 1.0

  /** A value clamped to the slider range, as Update and Submit read each slider */
  function Input(v: real): (r: real)
    ensures Low <= r <= High
    ensures Low <= v <= High ==> r == v
  {
    Clamp(v, Low, High)
  }

  /** Every table entry lies in the slider cube [0.1, 1]^3. */
  lemma TableInCube()
    ensures forall s :: s in Sounds ==> Low <= s.jaw <= High && Low <= s.lip <= High && Low <= s.tongue <= High
  {
  }

  // ---------------------------------------------------------------- distance

  /** Euclidean distance between two shapes, through the engine's Pow and Sqrt */
  function Distance(num: Numerics, j1: real, l1: real, t1: real, j2: real, l2: real, t2: real): real {
    num.sqrt(num.pow(j1 - j2, 2.0) + num.pow(l1 - l2, 2.0) + num.pow(t1 - t2, 2.0))
  }

  function Squared(x: real): real {
    x * x
  }

  /** The square q of a non-zero x is positive */
  lemma SquarePositive(x: real, q: real)
    requires x != 0.0 && q == x * x
    ensures 0.0 < q
  {
    assert q / x == x;
  }

  /** A square is non-negative, and positive for a non-zero value */
  lemma Square(x: real)
    ensures 0.0 <= Squared(x)
    ensures x != 0.0 ==> 0.0 < Squared(x)
  {
    if x != 0.0 {
      SquarePositive(x, Squared(x));
    }
  }

  /** A value within b of zero has a square at most b * b. */
  lemma SquareAtMost(x: real, b: real)
    requires -b <= x <= b
    ensures Squared(x) <= Squared(b)
  {
    var y := if 0.0 <= x then x else -x;
    assert y * y == x * x;
    MulMono(y, b, y);
    MulMono(y, b, b);
  }

  /** The squared distance, free of engine functions */
  function SquaredDistance(j1: real, l1: real, t1: real, j2: real, l2: real, t2: real): (d: real)
    ensures 0.0 <= d
  {
    Square(j1 - j2);
    Square(l1 - l2);
    Square(t1 - t2);
    Squared(j1 - j2) + Squared(l1 - l2) + Squared(t1 - t2)
  }

  /** The squared distance is zero exactly on identical shapes. */
  lemma SquaredDistanceZero(j1: real, l1: real, t1: real, j2: real, l2: real, t2: real)
    ensures SquaredDistance(j1, l1, t1, j2, l2, t2) == 0.0 <==> j1 == j2 && l1 == l2 && t1 == t2
  {
    Square(j1 - j2);
    Square(l1 - l2);
    Square(t1 - t2);
  }

  /** Distance is the square root of the squared distance. */
  lemma DistanceIsRoot(num: Numerics, j1: real, l1: real, t1: real, j2: real, l2: real, t2: real)
    requires Lawful(num)
    ensures Distance(num, j1, l1, t1, j2, l2, t2) == num.sqrt(SquaredDistance(j1, l1, t1, j2, l2, t2))
  {
    assert num.pow(j1 - j2, 2.0) == Squared(j1 - j2);
    assert num.pow(l1 - l2, 2.0) == Squared(l1 - l2);
    assert num.pow(t1 - t2, 2.0) == Squared(t1 - t2);
  }

  /** Distance does not depend on the order of its two shapes. */
  lemma DistanceSymmetric(num: Numerics, j1: real, l1: real, t1: real, j2: real, l2: real, t2: real)
    requires Lawful(num)
    ensures Distance(num, j1, l1, t1, j2, l2, t2) == Distance(num, j2, l2, t2, j1, l1, t1)
  {
    DistanceIsRoot(num, j1, l1, t1, j2, l2, t2);
    DistanceIsRoot(num, j2, l2, t2, j1, l1, t1);
    assert SquaredDistance(j1, l1, t1, j2, l2, t2) == SquaredDistance(j2, l2, t2, j1, l1, t1);
  }

  /** Distance is zero exactly on identical shapes. */
  lemma DistanceZero(num: Numerics, j1: real, l1: real, t1: real, j2: real, l2: real, t2: real)
    requires Lawful(num)
    ensures Distance(num, j1, l1, t1, j2, l2, t2) == 0.0 <==> j1 == j2 && l1 == l2 && t1 == t2
  {
    DistanceIsRoot(num, j1, l1, t1, j2, l2, t2);
    SquaredDistanceZero(j1, l1, t1, j2, l2, t2);
    SqrtOrder(num, SquaredDistance(j1, l1, t1, j2, l2, t2), 0.0);
  }

  /** Distances from one shape compare as the squared distances do, so sqrt never changes a ranking. */
  lemma DistanceOrder(num: Numerics, j: real, l: real, t: real, a: Sound, b: Sound)
    requires Lawful(num)
    ensures Distance(num, j, l, t, a.jaw, a.lip, a.tongue) <= Distance(num, j, l, t, b.jaw, b.lip, b.tongue)
        <==> SquaredDistance(j, l, t, a.jaw, a.lip, a.tongue) <= SquaredDistance(j, l, t, b.jaw, b.lip, b.tongue)
  {
    DistanceIsRoot(num, j, l, t, a.jaw, a.lip, a.tongue);
    DistanceIsRoot(num, j, l, t, b.jaw, b.lip, b.tongue);
    SqrtOrder(num, SquaredDistance(j, l, t, a.jaw, a.lip, a.tongue), SquaredDistance(j, l, t, b.jaw, b.lip, b.tongue));
  }

  // ---------------------------------------------------------------- classification

  /** The position `OrderBy(key).First()` selects: a smallest key, and the earliest one among equals,
      because OrderBy is a stable sort */
  function FirstMin(keys: seq<real>): (i: nat)
    requires 0 < |keys|
    ensures i < |keys|
    ensures forall k :: 0 <= k < |keys| ==> keys[i] <= keys[k]
    ensures forall k :: 0 <= k < i ==> keys[i] < keys[k]
  {
    if |keys| == 1 then 0
    else
      var i := FirstMin(keys[..|keys| - 1]);
      if keys[|keys| - 1] < keys[i] then |keys| - 1 else i
  }

  /** A position holding a smallest key with every earlier key strictly larger is the one FirstMin picks. */
  lemma FirstMinUnique(keys: seq<real>, j: nat)
    requires j < |keys|
    requires forall k :: 0 <= k < |keys| ==> keys[j] <= keys[k]
    requires forall k :: 0 <= k < j ==> keys[j] < keys[k]
    ensures j == FirstMin(keys)
  {
  }

  /** The sort keys of the table for one input shape */
  function DistanceKeys(num: Numerics, jaw: real, lip: real, tongue: real): (keys: seq<real>)
    ensures |keys| == |Sounds|
  {
    seq(|Sounds|, k requires 0 <= k < |Sounds| => Distance(num, jaw, lip, tongue, Sounds[k].jaw, Sounds[k].lip, Sounds[k].tongue))
  }

  /** The same ranking without sqrt */
  function SquaredKeys(jaw: real, lip: real, tongue: real): (keys: seq<real>)
    ensures |keys| == |Sounds|
    ensures forall k :: 0 <= k < |Sounds| ==>
      keys[k] == SquaredDistance(jaw, lip, tongue, Sounds[k].jaw, Sounds[k].lip, Sounds[k].tongue)
  {
    seq(|Sounds|, k requires 0 <= k < |Sounds| => SquaredDistance(jaw, lip, tongue, Sounds[k].jaw, Sounds[k].lip, Sounds[k].tongue))
  }

  /** The table entry Classify reports */
  function ClassifyIndex(num: Numerics, jaw: real, lip: real, tongue: real): (i: nat)
    ensures i < |Sounds|
  {
    FirstMin(DistanceKeys(num, jaw, lip, tongue))
  }

  /** Classify reports an entry at the smallest distance from the input, and every earlier entry is
      strictly farther: ties go to the earliest entry. */
  lemma ClassifyNearest(num: Numerics, jaw: real, lip: real, tongue: real)
    ensures var i := ClassifyIndex(num, jaw, lip, tongue);
      (forall k :: 0 <= k < |Sounds| ==>
        Distance(num, jaw, lip, tongue, Sounds[i].jaw, Sounds[i].lip, Sounds[i].tongue)
          <= Distance(num, jaw, lip, tongue, Sounds[k].jaw, Sounds[k].lip, Sounds[k].tongue)) &&
      (forall k :: 0 <= k < i ==>
        Distance(num, jaw, lip, tongue, Sounds[i].jaw, Sounds[i].lip, Sounds[i].tongue)
          < Distance(num, jaw, lip, tongue, Sounds[k].jaw, Sounds[k].lip, Sounds[k].tongue))
  {
    var keys := DistanceKeys(num, jaw, lip, tongue);
    var i := FirstMin(keys);
    assert keys[i] == Distance(num, jaw, lip, tongue, Sounds[i].jaw, Sounds[i].lip, Sounds[i].tongue);
    forall k | 0 <= k < |Sounds|
      ensures keys[k] == Distance(num, jaw, lip, tongue, Sounds[k].jaw, Sounds[k].lip, Sounds[k].tongue)
    {
    }
  }

  /** The name of the nearest sound, the earliest in the table on a tie */
  function Classify(num: Numerics, jaw: real, lip: real, tongue: real): string {
    Sounds[ClassifyIndex(num, jaw, lip, tongue)].name
  }

  /** Classification can be computed on squared distances: sqrt changes no comparison. */
  lemma ClassifyBySquaredDistance(num: Numerics, jaw: real, lip: real, tongue: real)
    requires Lawful(num)
    ensures ClassifyIndex(num, jaw, lip, tongue) == FirstMin(SquaredKeys(jaw, lip, tongue))
  {
    var keys, sq := DistanceKeys(num, jaw, lip, tongue), SquaredKeys(jaw, lip, tongue);
    var j := FirstMin(sq);
    forall k | 0 <= k < |Sounds| ensures keys[j] <= keys[k] && (k < j ==> keys[j] < keys[k]) {
      assert keys[j] == Distance(num, jaw, lip, tongue, Sounds[j].jaw, Sounds[j].lip, Sounds[j].tongue);
      assert keys[k] == Distance(num, jaw, lip, tongue, Sounds[k].jaw, Sounds[k].lip, Sounds[k].tongue);
      DistanceOrder(num, jaw, lip, tongue, Sounds[j], Sounds[k]);
      DistanceOrder(num, jaw, lip, tongue, Sounds[k], Sounds[j]);
    }
    FirstMinUnique(keys, j);
  }

  /** An input that is exactly a table entry's shape is classified as that entry, or as an
      earlier entry with the same shape. */
  lemma ExactShapeClassified(num: Numerics, k: nat)
    requires Lawful(num) && k < |Sounds|
    ensures var i := ClassifyIndex(num, Sounds[k].jaw, Sounds[k].lip, Sounds[k].tongue);
      i <= k && Sounds[i].jaw == Sounds[k].jaw && Sounds[i].lip == Sounds[k].lip && Sounds[i].tongue == Sounds[k].tongue
  {
    var s := Sounds[k];
    var i := ClassifyIndex(num, s.jaw, s.lip, s.tongue);
    ClassifyNearest(num, s.jaw, s.lip, s.tongue);
    DistanceZero(num, s.jaw, s.lip, s.tongue, s.jaw, s.lip, s.tongue);
    DistanceIsRoot(num, s.jaw, s.lip, s.tongue, Sounds[i].jaw, Sounds[i].lip, Sounds[i].tongue);
    SquaredDistanceZero(s.jaw, s.lip, s.tongue, Sounds[i].jaw, Sounds[i].lip, Sounds[i].tongue);
    SqrtOrder(num, SquaredDistance(s.jaw, s.lip, s.tongue, Sounds[i].jaw, Sounds[i].lip, Sounds[i].tongue), 0.0);
  }

  // ---------------------------------------------------------------- the target

  /** `sounds.First(s => s.name == name)`: the earliest entry with that name, if any */
  function FirstNamed(table: seq<Sound>, name: string): (r: Option<nat>)
    ensures r.Some? ==> r.value < |table| && table[r.value].name == name
    ensures r.Some? ==> forall k :: 0 <= k < r.value ==> table[k].name != name
    ensures r.None? <==> forall k :: 0 <= k < |table| ==> table[k].name != name
  {
    if |table| == 0 then None
    else if table[0].name == name then Some(0)
    else
      match FirstNamed(table[1..], name)
      case None => None
      case Some(i) => Some(i + 1)
  }

  /** The target entry; First throws when no entry has the name, so callers must supply one that exists */
  function Target(name: string): (s: Sound)
    requires FirstNamed(Sounds, name).Some?
    ensures s in Sounds && s.name == name
  {
    Sounds[FirstNamed(Sounds, name).value]
  }

  /** The initial target "TH" is the first entry, so looking it up cannot fail. */
  lemma InitialTargetPresent()
    ensures FirstNamed(Sounds, "TH") == Some(0)
    ensures Target("TH") == Sound("TH", 0.3, 0.1, 0.3)
  {
  }

  // ---------------------------------------------------------------- score

  /** The squared diagonal of the slider cube, 3 * 0.9^2 */
  const CubeDiagonalSquared: real := 3.0 * 0.9 * 0.9

  /** The engine's sqrt of the squared cube diagonal is positive, so the score's division is defined. */
  lemma CubeDiagonalPositive(num: Numerics)
    requires Lawful(num)
    ensures 0.0 < num.sqrt(CubeDiagonalSquared)
  {
    assert Below(0.0, CubeDiagonalSquared);
  }

  /** Proof helper, no source counterpart: dividing both sides of an inequality by a positive number keeps it. */
  lemma DivMono(a: real, b: real, m: real)
    requires a <= b && 0.0 < m
    ensures a / m <= b / m
  {
    MulMono(a, b, 1.0 / m);
  }

  /** The distance from an input to the target entry */
  function TargetDistance(num: Numerics, name: string, jaw: real, lip: real, tongue: real): real
    requires FirstNamed(Sounds, name).Some?
  {
    var target := Target(name);
    Distance(num, jaw, lip, tongue, target.jaw, target.lip, target.tongue)
  }

  /** The match score: one minus the distance to the target as a fraction of the cube diagonal,
      clamped to [0, 1] */
  function GetScore(num: Numerics, name: string, jaw: real, lip: real, tongue: real): (r: real)
    requires Lawful(num) && FirstNamed(Sounds, name).Some?
    ensures 0.0 <= r <= 1.0
  {
    var dist := TargetDistance(num, name, jaw, lip, tongue);
    CubeDiagonalPositive(num);
    1.0 - Clamp01(dist / num.sqrt(CubeDiagonalSquared))
  }

  /** The score is 1 exactly when the input is the target's shape. */
  lemma ScoreOneIffExact(num: Numerics, name: string, jaw: real, lip: real, tongue: real)
    requires Lawful(num) && FirstNamed(Sounds, name).Some?
    ensures var t := Target(name);
      GetScore(num, name, jaw, lip, tongue) == 1.0 <==> jaw == t.jaw && lip == t.lip && tongue == t.tongue
  {
    var t := Target(name);
    var dist := TargetDistance(num, name, jaw, lip, tongue);
    CubeDiagonalPositive(num);
    var m := num.sqrt(CubeDiagonalSquared);
    DistanceZero(num, jaw, lip, tongue, t.jaw, t.lip, t.tongue);
    DistanceIsRoot(num, jaw, lip, tongue, t.jaw, t.lip, t.tongue);
    SqrtOrder(num, 0.0, SquaredDistance(jaw, lip, tongue, t.jaw, t.lip, t.tongue));
    if 0.0 < dist {
      MulStrict(0.0, dist, 1.0 / m);
      assert 0.0 < dist / m;
    }
  }

  /** A shape no farther from the target than another scores at least as high. */
  lemma ScoreMonotone(num: Numerics, name: string, j1: real, l1: real, t1: real, j2: real, l2: real, t2: real)
    requires Lawful(num) && FirstNamed(Sounds, name).Some?
    requires var t := Target(name);
      SquaredDistance(j1, l1, t1, t.jaw, t.lip, t.tongue) <= SquaredDistance(j2, l2, t2, t.jaw, t.lip, t.tongue)
    ensures GetScore(num, name, j2, l2, t2) <= GetScore(num, name, j1, l1, t1)
  {
    var t := Target(name);
    DistanceIsRoot(num, j1, l1, t1, t.jaw, t.lip, t.tongue);
    DistanceIsRoot(num, j2, l2, t2, t.jaw, t.lip, t.tongue);
    SqrtOrder(num, SquaredDistance(j1, l1, t1, t.jaw, t.lip, t.tongue), SquaredDistance(j2, l2, t2, t.jaw, t.lip, t.tongue));
    CubeDiagonalPositive(num);
    DivMono(TargetDistance(num, name, j1, l1, t1), TargetDistance(num, name, j2, l2, t2), num.sqrt(CubeDiagonalSquared));
  }

  /** Inside the slider cube the squared distance never exceeds the squared cube diagonal, so the
      clamp never cuts the score off at zero before the far corner. */
  lemma ScoreClampInactive(name: string, jaw: real, lip: real, tongue: real)
    requires FirstNamed(Sounds, name).Some?
    requires Low <= jaw <= High && Low <= lip <= High && Low <= tongue <= High
    ensures var t := Target(name);
      SquaredDistance(jaw, lip, tongue, t.jaw, t.lip, t.tongue) <= CubeDiagonalSquared
  {
    var t := Target(name);
    TableInCube();
    SquareAtMost(jaw - t.jaw, 0.9);
    SquareAtMost(lip - t.lip, 0.9);
    SquareAtMost(tongue - t.tongue, 0.9);
    assert Squared(0.9) == 0.81;
  }

  // ---------------------------------------------------------------- hint

  /** The hint lines; LookingGood is declared by the source but, as proved below, never chosen */
  datatype Hint = OpenJaw | CloseJaw | RoundLips | SpreadLips | RaiseTongue | LowerTongue | LookingGood

  /** The hint: the axis with the largest deviation from the target, jaw before lip before tongue on
      a tie, and the direction that moves towards the target (an input below the target is raised). */
  function GetHint(name: string, jaw: real, lip: real, tongue: real): (h: Hint)
    requires FirstNamed(Sounds, name).Some?
    ensures h != LookingGood
    ensures var t := Target(name);
      var dj, dl, dt := Abs(jaw - t.jaw), Abs(lip - t.lip), Abs(tongue - t.tongue);
      (h == OpenJaw <==> dl <= dj && dt <= dj && jaw < t.jaw) &&
      (h == CloseJaw <==> dl <= dj && dt <= dj && t.jaw <= jaw) &&
      (h == RoundLips <==> dj < dl && dt <= dl && lip < t.lip) &&
      (h == SpreadLips <==> dj < dl && dt <= dl && t.lip <= lip) &&
      (h == RaiseTongue <==> dj < dt && dl < dt && tongue < t.tongue) &&
      (h == LowerTongue <==> dj < dt && dl < dt && t.tongue <= tongue)
  {
    var target := Target(name);
    var dJaw := Abs(jaw - target.jaw);
    var dLip := Abs(lip - target.lip);
    var dTongue := Abs(tongue - target.tongue);
    var max := Max3(dJaw, dLip, dTongue);
    if max == dJaw then (if jaw < target.jaw then OpenJaw else CloseJaw)
    else if max == dLip then (if lip < target.lip then RoundLips else SpreadLips)
    else if max == dTongue then (if tongue < target.tongue then RaiseTongue else LowerTongue)
    else LookingGood
  }

  // ---------------------------------------------------------------- submit verdict

  /** The verdict Submit shows; the two lower tiers also name the detected sound and a hint */
  datatype Verdict = Excellent | Almost(detected: string, hint: Hint) | NotQuite(detected: string, hint: Hint)

  /** Score above 0.8 is Excellent, above 0.5 Almost, anything else Not quite */
  function Tier(score: real, detected: string, hint: Hint): (v: Verdict)
    ensures v.Excellent? <==> 0.8 < score
    ensures v.Almost? <==> 0.5 < score <= 0.8
    ensures v.NotQuite? <==> score <= 0.5
    ensures !v.Excellent? ==> v.detected == detected && v.hint == hint
  {
    if score > 0.8 then Excellent
    else if score > 0.5 then Almost(detected, hint)
    else NotQuite(detected, hint)
  }

  /** An exact match always earns Excellent. */
  lemma ExactMatchExcellent(num: Numerics, name: string)
    requires Lawful(num) && FirstNamed(Sounds, name).Some?
    ensures var t := Target(name);
      Tier(GetScore(num, name, t.jaw, t.lip, t.tongue), Classify(num, t.jaw, t.lip, t.tongue),
        GetHint(name, t.jaw, t.lip, t.tongue)) == Excellent
  {
    var t := Target(name);
    ScoreOneIffExact(num, name, t.jaw, t.lip, t.tongue);
  }

  // ---------------------------------------------------------------- the component

  /** What the feedback text shows: the opening prompt, the live readout, or a submitted verdict */
  datatype Feedback =
    | Blank
    | Prompt(target: string)
    | Live(target: string, detected: string, score: real, hint: Hint)
    | Submitted(target: string, detected: string, score: real, verdict: Verdict)

  class MouthAI {
    // The scene's wiring and the target, which the component never assigns
    const jawOpenSlider: Slider
    const lipRoundSlider: Slider
    const tongueHeightSlider: Slider
    const currentTarget: string
    // The state a submission freezes, and what the feedback text shows
    var submitted: bool
    var feedback: Feedback

    constructor (jaw: Slider, lip: Slider, tongue: Slider)
      ensures jawOpenSlider == jaw && lipRoundSlider == lip && tongueHeightSlider == tongue
      ensures currentTarget == "TH" && !submitted && feedback == Blank
      ensures Valid()
    {
      InitialTargetPresent();
      jawOpenSlider := jaw;
      lipRoundSlider := lip;
      tongueHeightSlider := tongue;
      currentTarget := "TH";
      submitted := false;
      feedback := Blank;
    }

    /** The target can always be looked up */
    predicate Valid() {
      FirstNamed(Sounds, currentTarget).Some?
    }

    /** Start shows the prompt for the target sound */
    method Start()
      modifies this
      ensures submitted == old(submitted) && feedback == Prompt(currentTarget)
    {
      feedback := Prompt(currentTarget);
    }

    /** The live readout for the current slider values, each clamped to [0.1, 1] */
    function Readout(num: Numerics): Feedback
      requires Valid() && Lawful(num)
      reads jawOpenSlider, lipRoundSlider, tongueHeightSlider
    {
      var jaw, lip, tongue := Input(jawOpenSlider.value), Input(lipRoundSlider.value), Input(tongueHeightSlider.value);
      Live(currentTarget, Classify(num, jaw, lip, tongue), GetScore(num, currentTarget, jaw, lip, tongue),
        GetHint(currentTarget, jaw, lip, tongue))
    }

    /** The verdict for the current slider values, each clamped to [0.1, 1] */
    function Outcome(num: Numerics): Feedback
      requires Valid() && Lawful(num)
      reads jawOpenSlider, lipRoundSlider, tongueHeightSlider
    {
      var jaw, lip, tongue := Input(jawOpenSlider.value), Input(lipRoundSlider.value), Input(tongueHeightSlider.value);
      var detected, score := Classify(num, jaw, lip, tongue), GetScore(num, currentTarget, jaw, lip, tongue);
      Submitted(currentTarget, detected, score, Tier(score, detected, GetHint(currentTarget, jaw, lip, tongue)))
    }

    /** Every frame: nothing while a submission is showing; otherwise the live readout */
    method Update(num: Numerics)
      requires Valid() && Lawful(num)
      modifies this
      ensures submitted == old(submitted)
      ensures old(submitted) ==> feedback == old(feedback)
      ensures !old(submitted) ==> feedback == old(Readout(num))
    {
      if submitted {
        return;
      }
      feedback := Readout(num);
    }

    /** Submit freezes the feedback on the verdict for the current slider values */
    method Submit(num: Numerics)
      requires Valid() && Lawful(num)
      modifies this
      ensures submitted && feedback == old(Outcome(num))
    {
      submitted := true;
      feedback := Outcome(num);
    }

    /** Reset unfreezes the feedback, shows the prompt again and puts all three sliders back to 1 */
    method Reset()
      modifies this, jawOpenSlider, lipRoundSlider, tongueHeightSlider
      ensures !submitted && feedback == Prompt(currentTarget)
      ensures jawOpenSlider.value == 1.0 && lipRoundSlider.value == 1.0 && tongueHeightSlider.value == 1.0
    {
      submitted := false;
      jawOpenSlider.value := 1.0;
      lipRoundSlider.value := 1.0;
      tongueHeightSlider.value := 1.0;
      feedback := Prompt(currentTarget);
    }
  }
}
