/**
 The J-wire guidewire: a straight shaft followed by a curved tip that bends
 through `tipAngle` radians. From its physical parameters the device derives,
 once at construction, the lengths, cross-section radii, material aliases,
 discretisation counts and key points that a beam-adapter finite-element
 simulation is configured with. Every quantity is an exact real; the counts
 are integers obtained by rounding up.
 */
module JWire {
  import opened Ceiling

  /** The user-facing parameters of the device (lengths and diameters in mm,
      angles in radians, densities of edges and beams per mm). */
  datatype Inputs = Inputs(
    name: string,
    velocityLimit: (real, real),
    length: real,
    tipLength: real,
    tipAngle: real,
    tipOuterDiameter: real,
    tipInnerDiameter: real,
    straightOuterDiameter: real,
    straightInnerDiameter: real,
    poissonRatio: real,
    youngModulusTip: real,
    youngModulusStraight: real,
    massDensityTip: real,
    massDensityStraight: real,
    visuEdgesPerMm: real,
    collisEdgesPerMmTip: real,
    collisEdgesPerMmStraight: real,
    beamsPerMmTip: real,
    beamsPerMmStraight: real,
    color: (real, real, real)
  )

  /** What construction adds to the device. The straight segment carries the
      plain names, the tip the `Extremity` names; the two-entry sequences list
      the straight segment first and the tip second. */
  datatype Derived = Derived(
    straightLength: real,
    spireDiameter: real,
    spireHeight: real,
    youngModulus: real,
    youngModulusExtremity: real,
    radius: real,
    radiusExtremity: real,
    innerRadius: real,
    innerRadiusExtremity: real,
    massDensity: real,
    massDensityExtremity: real,
    numEdges: int,
    numEdgesCollis: seq<int>,
    densityOfBeams: seq<int>,
    keyPoints: seq<real>
  )

  /** The default guidewire; `DefaultGeometry` and `DefaultCounts` state what
      construction derives from it. */
  function Defaults(): Inputs
  {
    Inputs(
      name := "guidewire",
      velocityLimit := (50.0, 3.14),
      length := 450.0,
      tipLength := 15.2,
      // 0.4 * math.pi; 3.141592653589793 is the shortest decimal that reads back as Python's `math.pi`
      tipAngle := 0.4 * 3.141592653589793,
      tipOuterDiameter := 0.7,
      tipInnerDiameter := 0.0,
      straightOuterDiameter := 0.89,
      straightInnerDiameter := 0.0,
      poissonRatio := 0.49,
      youngModulusTip := 17000.0,
      youngModulusStraight := 80000.0,
      massDensityTip := 0.000021,
      massDensityStraight := 0.000021,
      visuEdgesPerMm := 0.5,
      collisEdgesPerMmTip := 2.0,
      collisEdgesPerMmStraight := 0.1,
      beamsPerMmTip := 1.4,
      beamsPerMmStraight := 0.09,
      color := (0.0, 0.0, 0.0)
    )
  }

  /** `n` is `p` rounded up: never below it, and less than one above it. */
  ghost predicate IsCeiling(n: int, p: real)
  {
    p <= n as real && (n - 1) as real < p
  }

  /** The reference description of a derived record: the meaning of each
      field, stated independently of how it is computed. */
  ghost predicate Describes(i: Inputs, d: Derived)
  {
    // the straight part and the tip make up the whole device
    && d.straightLength + i.tipLength == i.length
    // the tip is an arc of `tipAngle` radians on a circle of this diameter
    && d.spireDiameter * i.tipAngle == 2.0 * i.tipLength
    // the tip curls in a plane
    && d.spireHeight == 0.0
    // per-segment aliases; each radius is half its diameter
    && d.youngModulus == i.youngModulusStraight
    && d.youngModulusExtremity == i.youngModulusTip
    && d.radius == i.straightOuterDiameter / 2.0
    && d.radiusExtremity == i.tipOuterDiameter / 2.0
    && d.innerRadius == i.straightInnerDiameter / 2.0
    && d.innerRadiusExtremity == i.tipInnerDiameter / 2.0
    && d.massDensity == i.massDensityStraight
    && d.massDensityExtremity == i.massDensityTip
    // every count rounds its density times its length up
    && IsCeiling(d.numEdges, i.visuEdgesPerMm * i.length)
    && |d.numEdgesCollis| == 2
    && IsCeiling(d.numEdgesCollis[0], i.collisEdgesPerMmStraight * d.straightLength)
    && IsCeiling(d.numEdgesCollis[1], i.collisEdgesPerMmTip * i.tipLength)
    && |d.densityOfBeams| == 2
    && IsCeiling(d.densityOfBeams[0], d.straightLength * i.beamsPerMmStraight)
    && IsCeiling(d.densityOfBeams[1], i.tipLength * i.beamsPerMmTip)
    // arclength positions: origin, straight/tip boundary, distal end
    && d.keyPoints == [0.0, d.straightLength, i.length]
  }

  /** The diameter of the circle on which an arc of `tipAngle` radians has
      length `tipLength`. */
  function SpireDiameter(tipLength: real, tipAngle: real): real
    requires tipAngle != 0.0
  {
    tipLength / tipAngle * 2.0
  }

  /** Construction of the device. The division by `tipAngle` fails for a zero
      angle, so callers must not pass one; nothing else is checked. */
  function Derive(i: Inputs): Derived
    requires i.tipAngle != 0.0
  {
    var straightLength := i.length - i.tipLength;
    Derived(
      straightLength := straightLength,
      spireDiameter := SpireDiameter(i.tipLength, i.tipAngle),
      spireHeight := 0.0,
      youngModulus := i.youngModulusStraight,
      youngModulusExtremity := i.youngModulusTip,
      radius := i.straightOuterDiameter / 2.0,
      radiusExtremity := i.tipOuterDiameter / 2.0,
      innerRadius := i.straightInnerDiameter / 2.0,
      innerRadiusExtremity := i.tipInnerDiameter / 2.0,
      massDensity := i.massDensityStraight,
      massDensityExtremity := i.massDensityTip,
      numEdges := Ceil(i.visuEdgesPerMm * i.length),
      numEdgesCollis := [Ceil(i.collisEdgesPerMmStraight * straightLength), Ceil(i.collisEdgesPerMmTip * i.tipLength)],
      densityOfBeams := [Ceil(straightLength * i.beamsPerMmStraight), Ceil(i.tipLength * i.beamsPerMmTip)],
      keyPoints := [0.0, straightLength, i.length]
    )
  }

  /** Construction produces a record meeting the reference description:
      lengths add up, every count is its product rounded up, the aliases copy
      or halve their inputs, and the key points bracket the two segments. */
  lemma DeriveDescribes(i: Inputs)
    requires i.tipAngle != 0.0
    ensures Describes(i, Derive(i))
  {
  }

  /** The reference description leaves no freedom: two records that both
      describe the same inputs are equal, so construction is deterministic and
      `Derive` is the only record meeting `Describes`. */
  lemma DescribesUnique(i: Inputs, d1: Derived, d2: Derived)
    requires i.tipAngle != 0.0
    requires Describes(i, d1) && Describes(i, d2)
    ensures d1 == d2
  {
    assert d1.spireDiameter == d2.spireDiameter by {
      assert (d1.spireDiameter - d2.spireDiameter) * i.tipAngle == 0.0;
    }
    CeilingsAgree(d1.numEdges, d2.numEdges, i.visuEdgesPerMm * i.length);
    CeilingsAgree(d1.numEdgesCollis[0], d2.numEdgesCollis[0], i.collisEdgesPerMmStraight * d1.straightLength);
    CeilingsAgree(d1.numEdgesCollis[1], d2.numEdgesCollis[1], i.collisEdgesPerMmTip * i.tipLength);
    CeilingsAgree(d1.densityOfBeams[0], d2.densityOfBeams[0], d1.straightLength * i.beamsPerMmStraight);
    CeilingsAgree(d1.densityOfBeams[1], d2.densityOfBeams[1], i.tipLength * i.beamsPerMmTip);
    assert d1.numEdgesCollis == d2.numEdgesCollis;
    assert d1.densityOfBeams == d2.densityOfBeams;
  }

  /** Two integers that both round `p` up are both `Ceil(p)`. */
  lemma CeilingsAgree(m: int, n: int, p: real)
    requires IsCeiling(m, p) && IsCeiling(n, p)
    ensures m == n == Ceil(p)
  {
    CeilIsUnique(p, m);
    CeilIsUnique(p, n);
  }

  /** The key points are in non-decreasing order exactly when the tip is no
      longer than the device and not negative. */
  lemma KeyPointsOrdered(i: Inputs)
    requires i.tipAngle != 0.0
    ensures |Derive(i).keyPoints| == 3
    ensures (forall k :: 0 <= k < 2 ==> Derive(i).keyPoints[k] <= Derive(i).keyPoints[k + 1])
            <==> 0.0 <= i.tipLength <= i.length
  {
    var kp := Derive(i).keyPoints;
    assert kp[0] <= kp[1] <==> i.tipLength <= i.length;
    assert kp[1] <= kp[2] <==> 0.0 <= i.tipLength;
  }

  /** The geometric meaning of the spire diameter: an arc of `tipAngle`
      radians of radius `spireDiameter / 2` has length `tipLength`. */
  lemma SpireArcLength(i: Inputs)
    requires i.tipAngle != 0.0
    ensures Derive(i).spireDiameter / 2.0 * i.tipAngle == i.tipLength
  {
  }

  /** The physical inputs under which the counts make sense: a tip that fits
      in the device and densities that are not negative. */
  ghost predicate Feasible(i: Inputs)
  {
    && i.tipAngle != 0.0
    && 0.0 <= i.tipLength <= i.length
    && 0.0 <= i.visuEdgesPerMm
    && 0.0 <= i.collisEdgesPerMmTip && 0.0 <= i.collisEdgesPerMmStraight
    && 0.0 <= i.beamsPerMmTip && 0.0 <= i.beamsPerMmStraight
  }

  /** On feasible inputs all five counts are natural numbers. */
  lemma CountsNonNegative(i: Inputs)
    requires Feasible(i)
    ensures Derive(i).numEdges >= 0
    ensures Derive(i).numEdgesCollis[0] >= 0 && Derive(i).numEdgesCollis[1] >= 0
    ensures Derive(i).densityOfBeams[0] >= 0 && Derive(i).densityOfBeams[1] >= 0
  {
    var s := i.length - i.tipLength;
    assert 0.0 <= s;
    CeilNonNegative(i.visuEdgesPerMm * i.length);
    CeilNonNegative(i.collisEdgesPerMmStraight * s);
    CeilNonNegative(i.collisEdgesPerMmTip * i.tipLength);
    CeilNonNegative(s * i.beamsPerMmStraight);
    CeilNonNegative(i.tipLength * i.beamsPerMmTip);
  }

  /** A tip as long as the whole device leaves no straight segment to
      discretise, while the tip keeps at least one edge and one beam whenever
      its densities are positive. */
  lemma FullLengthTip(i: Inputs)
    requires i.tipAngle != 0.0
    requires i.tipLength == i.length
    ensures Derive(i).straightLength == 0.0
    ensures Derive(i).numEdgesCollis[0] == 0 && Derive(i).densityOfBeams[0] == 0
    ensures 0.0 < i.length && 0.0 < i.collisEdgesPerMmTip ==> Derive(i).numEdgesCollis[1] >= 1
    ensures 0.0 < i.length && 0.0 < i.beamsPerMmTip ==> Derive(i).densityOfBeams[1] >= 1
  {
    CeilOfInt(0);
  }

  /** Raising the visual-edge density never lowers the number of visual
      edges. */
  lemma VisuEdgesMonotone(i: Inputs, v: real)
    requires i.tipAngle != 0.0
    requires 0.0 <= i.length
    requires i.visuEdgesPerMm <= v
    ensures Derive(i).numEdges <= Derive(i.(visuEdgesPerMm := v)).numEdges
  {
    var j := i.(visuEdgesPerMm := v);
    ScaledCeilMonotone(i.visuEdgesPerMm, i.length, j.visuEdgesPerMm, j.length);
  }

  /** Raising the straight segment's collision-edge density never lowers its
      collision-edge count. */
  lemma CollisStraightMonotone(i: Inputs, v: real)
    requires i.tipAngle != 0.0
    requires i.tipLength <= i.length
    requires i.collisEdgesPerMmStraight <= v
    ensures Derive(i).numEdgesCollis[0] <= Derive(i.(collisEdgesPerMmStraight := v)).numEdgesCollis[0]
  {
    var j := i.(collisEdgesPerMmStraight := v);
    ScaledCeilMonotone(i.collisEdgesPerMmStraight, i.length - i.tipLength, j.collisEdgesPerMmStraight, j.length - j.tipLength);
  }

  /** Raising the tip's collision-edge density never lowers its collision-edge
      count. */
  lemma CollisTipMonotone(i: Inputs, v: real)
    requires i.tipAngle != 0.0
    requires 0.0 <= i.tipLength
    requires i.collisEdgesPerMmTip <= v
    ensures Derive(i).numEdgesCollis[1] <= Derive(i.(collisEdgesPerMmTip := v)).numEdgesCollis[1]
  {
    var j := i.(collisEdgesPerMmTip := v);
    ScaledCeilMonotone(i.collisEdgesPerMmTip, i.tipLength, j.collisEdgesPerMmTip, j.tipLength);
  }

  /** Raising the straight segment's beam density never lowers its beam
      count. */
  lemma BeamsStraightMonotone(i: Inputs, v: real)
    requires i.tipAngle != 0.0
    requires i.tipLength <= i.length
    requires i.beamsPerMmStraight <= v
    ensures Derive(i).densityOfBeams[0] <= Derive(i.(beamsPerMmStraight := v)).densityOfBeams[0]
  {
    var j := i.(beamsPerMmStraight := v);
    ScaledCeilMonotone(i.beamsPerMmStraight, i.length - i.tipLength, j.beamsPerMmStraight, j.length - j.tipLength);
  }

  /** Raising the tip's beam density never lowers its beam count. */
  lemma BeamsTipMonotone(i: Inputs, v: real)
    requires i.tipAngle != 0.0
    requires 0.0 <= i.tipLength
    requires i.beamsPerMmTip <= v
    ensures Derive(i).densityOfBeams[1] <= Derive(i.(beamsPerMmTip := v)).densityOfBeams[1]
  {
    var j := i.(beamsPerMmTip := v);
    ScaledCeilMonotone(i.beamsPerMmTip, i.tipLength, j.beamsPerMmTip, j.tipLength);
  }

  /** The default guidewire's geometry: a 434.8 mm shaft ahead of the
      15.2 mm tip, and the aliases of its 0.89 mm shaft and 0.7 mm tip. */
  lemma DefaultGeometry()
    ensures Defaults().tipAngle != 0.0
    ensures Derive(Defaults()).straightLength == 434.8
    ensures Derive(Defaults()).keyPoints == [0.0, 434.8, 450.0]
    ensures Derive(Defaults()).radius == 0.445 && Derive(Defaults()).radiusExtremity == 0.35
    ensures Derive(Defaults()).innerRadius == 0.0 && Derive(Defaults()).innerRadiusExtremity == 0.0
    ensures Derive(Defaults()).youngModulus == 80000.0 && Derive(Defaults()).youngModulusExtremity == 17000.0
  {
  }

  /** The default guidewire's discretisation: 225 visual edges, 44 and 31
      collision edges, 40 and 22 beams. */
  lemma DefaultCounts()
    ensures Defaults().tipAngle != 0.0
    ensures Derive(Defaults()).numEdges == 225
    ensures Derive(Defaults()).numEdgesCollis == [44, 31]
    ensures Derive(Defaults()).densityOfBeams == [40, 22]
  {
    var d := Derive(Defaults());
    assert d.numEdges == 225 by {
      CeilIsUnique(225.0, 225);
    }
    assert d.numEdgesCollis[0] == 44 by {
      CeilIsUnique(43.48, 44);
    }
    assert d.numEdgesCollis[1] == 31 by {
      CeilIsUnique(30.4, 31);
    }
    assert d.densityOfBeams[0] == 40 by {
      CeilIsUnique(39.132, 40);
    }
    assert d.densityOfBeams[1] == 22 by {
      CeilIsUnique(21.28, 22);
    }
  }
}
