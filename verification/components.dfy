/**
  The two blueprint components (IrregularWallBlueprint_Component,
  StraightWallBlueprint_Component): they clamp their inputs and build a
  blueprint, whose three trees become the outputs.
 */
module Components {
  import opened Kernel
  import opened Clamps
  import Irregular
  import Straight
  import Layout

  /**
    IrregularWallBlueprint_Component.SolveInstance (IrregularWallBlueprint_Component.cs:33-58).
    `guideLinesOf` stands for GetGuideLines, which reads the curve's plane and
    polyline.  Without a curve nothing is output; otherwise the clamped maximum
    part length of at least 120 keeps every split loop finite, so a blueprint
    is always produced.
   */
  method IrregularBlueprint(k: Kernel, guideLinesOf: (Curve, real) -> Option<seq<Line>>, curve: Option<Curve>,
                            maxPartLength: real, maxCornerLength: real, thickness: real, millingDiameter: real)
    returns (r: Option<Irregular.Blueprint>)
    ensures r.None? <==> curve.None?
    ensures r.Some? ==> r.value.guideLines == guideLinesOf(curve.value, AtLeast(maxPartLength, 120.0))
    ensures r.Some? && r.value.guideLines.Some? && |r.value.guideLines.value| > 1 ==>
      Irregular.Solved(r.value, |r.value.guideLines.value|)
  {
    var settings := IrregularComponentSettings(curve, maxPartLength, maxCornerLength, thickness, millingDiameter);
    if settings.None? {
      return None;
    }
    var s := settings.value;
    var guideLines := guideLinesOf(s.curve, s.maxPartLength);
    r := Irregular.Build(k, guideLines, s.maxPartLength, s.maxCornerLength, s.thickness);
  }

  /**
    StraightWallBlueprint_Component.SolveInstance (StraightWallBlueprint_Component.cs:30-54):
    with the length and the maximum part length raised to 60 the split loops
    are finite, so a blueprint is always produced, its blocks contiguous.
   */
  method StraightBlueprint(k: Kernel, length: real, maxPartLength: real, thickness: real, millingDiameter: real)
    returns (r: Straight.StraightBlueprint)
    ensures Straight.Contiguous(r)
    ensures var s := StraightComponentSettings(length, maxPartLength, thickness, millingDiameter);
      |r.transversalParts| == |Layout.StraightPlacement(s.length).bCentres|
  {
    var s := StraightComponentSettings(length, maxPartLength, thickness, millingDiameter);
    var b := Straight.Build(k, s.length, s.maxPartLength);
    r := b.value;
  }
}
