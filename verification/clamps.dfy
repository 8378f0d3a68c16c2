/**
  Input clamping and length modulation in the Grasshopper components.

  The components read their numeric inputs and force them into the ranges the
  layout arithmetic relies on with `Math.Max` and `Math.Min` before building a
  blueprint.
 */
module Clamps {
  import opened Kernel

  /** Math.Max(x, lo): raises x to the floor lo. */
  function AtLeast(x: real, lo: real): (r: real)
    ensures r >= lo
    ensures r == x || r == lo
    ensures x >= lo ==> r == x
  {
    Max(x, lo)
  }

  /** Math.Min(Math.Max(x, lo), hi): forces x into [lo, hi]. */
  function Within(x: real, lo: real, hi: real): (r: real)
    requires lo <= hi
    ensures lo <= r <= hi
    ensures lo <= x <= hi ==> r == x
    ensures x < lo ==> r == lo
    ensures x > hi ==> r == hi
  {
    Min(Max(x, lo), hi)
  }

  /** Clamping twice to the same floor is clamping once. */
  lemma AtLeastIdempotent(x: real, lo: real)
    ensures AtLeast(AtLeast(x, lo), lo) == AtLeast(x, lo)
  {
  }

  /** Clamping twice into the same range is clamping once. */
  lemma WithinIdempotent(x: real, lo: real, hi: real)
    requires lo <= hi
    ensures Within(Within(x, lo, hi), lo, hi) == Within(x, lo, hi)
  {
  }

  // ---------------------------------------------------------------------------
  // IrregularWallBlueprint_Component.SolveInstance

  /** The blueprint arguments after clamping. */
  datatype IrregularSettings = IrregularSettings(curve: Curve, maxPartLength: real, maxCornerLength: real,
                                                 thickness: real, millingDiameter: real)

  /**
    The irregular component's inputs: a missing curve ends the solve with no
    output; otherwise the four numbers are clamped.
   */
  function IrregularComponentSettings(curve: Option<Curve>, maxPartLength: real, maxCornerLength: real,
                                      thickness: real, millingDiameter: real): (r: Option<IrregularSettings>)
    ensures r.None? <==> curve.None?
    ensures r.Some? ==> r.value.curve == curve.value
    ensures r.Some? ==> r.value.maxPartLength >= 120.0 && r.value.maxCornerLength >= 10.0
    ensures r.Some? ==> 1.0 <= r.value.thickness <= 3.0 && 0.0 <= r.value.millingDiameter <= 1.0
    ensures r.Some? && maxPartLength >= 120.0 ==> r.value.maxPartLength == maxPartLength
    ensures r.Some? && maxCornerLength >= 10.0 ==> r.value.maxCornerLength == maxCornerLength
    ensures r.Some? && 1.0 <= thickness <= 3.0 ==> r.value.thickness == thickness
    ensures r.Some? && 0.0 <= millingDiameter <= 1.0 ==> r.value.millingDiameter == millingDiameter
  {
    match curve
    case None => None
    case Some(c) =>
      Some(IrregularSettings(c, AtLeast(maxPartLength, 120.0), AtLeast(maxCornerLength, 10.0),
                             Within(thickness, 1.0, 3.0), Within(millingDiameter, 0.0, 1.0)))
  }

  // ---------------------------------------------------------------------------
  // StraightWallBlueprint_Component.SolveInstance

  /** The straight blueprint arguments after clamping. */
  datatype StraightSettings = StraightSettings(length: real, maxPartLength: real, thickness: real, millingDiameter: real)

  /**
    The straight component's inputs: maxPartLength is raised to 60 before and
    again after the other clamps, the length to 60 once.
   */
  function StraightComponentSettings(length: real, maxPartLength: real, thickness: real,
                                     millingDiameter: real): (r: StraightSettings)
    ensures r.length >= 60.0 && r.maxPartLength >= 60.0
    ensures 1.0 <= r.thickness <= 3.0 && 0.25 <= r.millingDiameter <= 1.0
    ensures r.maxPartLength == AtLeast(maxPartLength, 60.0)
    ensures length >= 60.0 ==> r.length == length
    ensures maxPartLength >= 60.0 ==> r.maxPartLength == maxPartLength
    ensures 1.0 <= thickness <= 3.0 ==> r.thickness == thickness
    ensures 0.25 <= millingDiameter <= 1.0 ==> r.millingDiameter == millingDiameter
  {
    var maxPart := AtLeast(maxPartLength, 60.0);
    var t := Within(thickness, 1.0, 3.0);
    var m := Within(millingDiameter, 0.25, 1.0);
    var l := AtLeast(length, 60.0);
    AtLeastIdempotent(maxPartLength, 60.0);
    StraightSettings(l, AtLeast(maxPart, 60.0), t, m)
  }

  // ---------------------------------------------------------------------------
  // StraightWall.SolveInstance

  /** The older straight wall component raises both lengths to 60. */
  function StraightWallSettings(length: real, maxPartLength: real): (r: (real, real))
    ensures r.0 >= 60.0 && r.1 >= 60.0
    ensures length >= 60.0 ==> r.0 == length
    ensures maxPartLength >= 60.0 ==> r.1 == maxPartLength
  {
    (AtLeast(length, 60.0), AtLeast(maxPartLength, 60.0))
  }

  // ---------------------------------------------------------------------------
  // Wall.SolveInstance

  /** With `modulate` set, the length is rounded down to a multiple of 30. */
  function Modulated(length: real, modulate: bool): (r: real)
    ensures !modulate ==> r == length
    ensures modulate ==> length - 30.0 < r <= length
    ensures modulate ==> (r / 30.0).Floor as real * 30.0 == r
  {
    if modulate then (length / 30.0).Floor as real * 30.0 else length
  }

  /** Modulating a modulated length changes nothing. */
  lemma {:induction false} ModulatedIdempotent(length: real)
    ensures Modulated(Modulated(length, true), true) == Modulated(length, true)
  {
    var r := Modulated(length, true);
    var k := (length / 30.0).Floor;
    assert r == k as real * 30.0;
    assert r / 30.0 == k as real;
  }
}
