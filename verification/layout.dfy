/**
  Connector-module layout along an axis.

  Two connector modules are tiled along a wall axis: the wide module A (40 units)
  and the narrow module B (20 units), alternating A B A B ... on a 60-unit pitch.
  Each builder computes the module counts with `Math.Floor`, the leftover space
  ("rest", "excess", "restOfSpace") and the centre of every module.
 */
module Layout {
  import opened Kernel

  /** The number of A and B modules, as the doubles returned by Math.Floor. */
  datatype Counts = Counts(a: int, b: int)

  /** The centres of `count` modules on the 60-unit pitch, the first at `first`. */
  function Centres(count: int, first: real): (r: seq<real>)
    ensures |r| == Iterations(count)
    ensures forall m :: 0 <= m < |r| ==> r[m] == 60.0 * (m as real) + first
  {
    seq(Iterations(count), m => 60.0 * (m as real) + first)
  }

  /** Centres on the 60-unit pitch strictly increase. */
  lemma CentresIncrease(count: int, first: real, i: int, j: int)
    requires 0 <= i < j < Iterations(count)
    ensures Centres(count, first)[i] + 60.0 <= Centres(count, first)[j]
  {
  }

  // ---------------------------------------------------------------------------
  // Irregular wall (IrregularWallBlueprint.SolveNarrowPart / SolveWidePart)

  /**
    The irregular wall's counts: A is floor(L / 60), B starts at floor((L - 50) / 60)
    and is decremented when it is positive and not below A.
   */
  function IrregularCounts(len: real): (c: Counts)
    ensures 60.0 * (c.a as real) <= len < 60.0 * (c.a as real) + 60.0
    ensures c.a >= 1 ==> c.b == c.a - 1
    ensures c.a == 0 ==> c.b <= 0
    ensures len >= -10.0 ==> c.b >= -1
    ensures len >= 0.0 ==> 40.0 * (c.a as real) + 20.0 * (c.b as real) <= len - 20.0
  {
    var a := ((len - 10.0 - 10.0 + 20.0) / 60.0).Floor;
    var b := ((len - 10.0 - 10.0 - 40.0 + 10.0) / 60.0).Floor;
    Counts(a, if b >= a && b > 0 then b - 1 else b)
  }

  /** The leftover space after the modules, on an axis without end margins. */
  function RestOfSpace(len: real, c: Counts): real {
    len - (c.a as real) * 40.0 - (c.b as real) * 20.0
  }

  /** A placement of the modules along an axis of the given length. */
  datatype Placement = Placement(counts: Counts, rest: real, offset: real, aCentres: seq<real>, bCentres: seq<real>)

  /**
    The irregular narrow part's placement (IrregularWallBlueprint.cs:248-279): the
    rest is split in two equal slacks and the modules sit between them.
   */
  function IrregularPlacement(len: real): (p: Placement)
    ensures p.counts == IrregularCounts(len)
    ensures p.rest == len - 40.0 * (p.counts.a as real) - 20.0 * (p.counts.b as real)
    ensures p.offset * 2.0 == p.rest
    ensures |p.aCentres| == Iterations(p.counts.a) && |p.bCentres| == Iterations(p.counts.b)
    ensures |p.bCentres| + 1 == |p.aCentres| || (|p.aCentres| == 0 && |p.bCentres| == 0)
    ensures len >= 0.0 ==> p.offset >= 10.0
    // centred: the far edge of the last A module leaves the same slack as the first
    ensures |p.aCentres| > 0 ==> p.aCentres[|p.aCentres| - 1] + 20.0 + p.offset == len
    ensures |p.aCentres| > 0 ==> p.aCentres[0] - 20.0 == p.offset
    // interleaving: every B lies 30 after its A and 30 before the next A
    ensures forall m :: 0 <= m < |p.bCentres| ==>
      p.aCentres[m] + 30.0 == p.bCentres[m] && p.bCentres[m] + 30.0 == p.aCentres[m + 1]
    ensures forall m :: 0 <= m < |p.aCentres| ==> 0.0 < p.aCentres[m] < len
    ensures forall m :: 0 <= m < |p.bCentres| ==> 0.0 < p.bCentres[m] < len
  {
    var c := IrregularCounts(len);
    var rest := RestOfSpace(len, c);
    var offset := rest * 0.5;
    Placement(c, rest, offset, Centres(c.a, 40.0 / 2.0 + offset), Centres(c.b, 20.0 / 2.0 + 40.0 + offset))
  }

  /** distanceInCurve / freeSpaceForConnectors for every centre. */
  function Parameters(centres: seq<real>, len: real): (r: seq<real>)
    requires len > 0.0 || |centres| == 0
    ensures |r| == |centres|
    ensures forall m :: 0 <= m < |r| ==> r[m] * len == centres[m]
  {
    seq(|centres|, m requires 0 <= m < |centres| => centres[m] / len)
  }

  /**
    The A-module parameters of the irregular placement lie strictly inside (0, 1)
    and strictly increase; they are the candidate split parameters.
   */
  lemma IrregularParameters(len: real)
    ensures var p := IrregularPlacement(len);
      var ps := Parameters(p.aCentres, len);
      && (forall m :: 0 <= m < |ps| ==> 0.0 < ps[m] < 1.0)
      && (forall i, j :: 0 <= i < j < |ps| ==> ps[i] < ps[j])
  {
    var p := IrregularPlacement(len);
    var ps := Parameters(p.aCentres, len);
    forall m | 0 <= m < |ps|
      ensures 0.0 < ps[m] < 1.0
    {
      QuotientInUnit(p.aCentres[m], len);
    }
    forall i, j | 0 <= i < j < |ps|
      ensures ps[i] < ps[j]
    {
      CentresIncrease(p.counts.a, 40.0 / 2.0 + p.offset, i, j);
      QuotientMonotone(p.aCentres[i], p.aCentres[j], len);
    }
  }

  lemma QuotientInUnit(c: real, l: real)
    requires 0.0 < c < l
    ensures 0.0 < c / l < 1.0
  {
    var q := c / l;
    assert q * l == c;
    if q >= 1.0 {
      assert false;
    }
  }

  lemma QuotientMonotone(a: real, b: real, l: real)
    requires a < b && l > 0.0
    ensures a / l < b / l
  {
    assert b / l - a / l == (b - a) / l;
  }

  /**
    The wide part's excess (IrregularWallBlueprint.cs:153-157): the same counts,
    with two 10-unit end margins, and half of what is left.
   */
  function WideExcess(len: real): (e: real)
    ensures len >= 0.0 ==> e >= 0.0
    ensures var c := IrregularCounts(len);
      2.0 * e + 40.0 * (c.a as real) + 20.0 * (c.b as real) + 20.0 == len
  {
    var c := IrregularCounts(len);
    (len - 10.0 - 10.0 - (c.a as real) * 40.0 - (c.b as real) * 20.0) * 0.5
  }

  // ---------------------------------------------------------------------------
  // Straight wall (StraightWallBlueprint, StraightWall)

  /** The straight wall's counts: A is floor(L / 60), B is floor((L - 40) / 60), with no decrement. */
  function StraightCounts(len: real): (c: Counts)
    ensures 60.0 * (c.a as real) <= len < 60.0 * (c.a as real) + 60.0
    ensures c.b == c.a - 1 || c.b == c.a
    ensures c.b == c.a <==> len >= 60.0 * (c.a as real) + 40.0
  {
    Counts(((len - 20.0 + 40.0 / 2.0) / 60.0).Floor, ((len - 50.0 + 20.0 / 2.0) / 60.0).Floor)
  }

  /** The space left between the last module and the far 10-unit margin. */
  function StraightRest(len: real): (r: real)
    ensures len >= 0.0 ==> 0.0 <= r < 40.0
    ensures var c := StraightCounts(len);
      10.0 + 40.0 * (c.a as real) + 20.0 * (c.b as real) + r + 10.0 == len
  {
    var c := StraightCounts(len);
    len - 10.0 - 10.0 - (c.a as real) * 40.0 - (c.b as real) * 20.0
  }

  /** Centres of the straight wall's modules: A at 60m + 30, B at 60m + 60. */
  function StraightPlacement(len: real): (p: Placement)
    ensures p.counts == StraightCounts(len) && p.rest == StraightRest(len) && p.offset == 0.0
    ensures |p.bCentres| <= |p.aCentres|
    ensures forall m :: 0 <= m < |p.bCentres| ==> p.bCentres[m] == p.aCentres[m] + 30.0
    ensures len >= 0.0 ==> |p.aCentres| == p.counts.a
    ensures |p.aCentres| == Iterations(p.counts.a) && |p.bCentres| == Iterations(p.counts.b)
    ensures forall m :: 0 <= m < |p.aCentres| ==> p.aCentres[m] == 60.0 * (m as real) + 30.0
    ensures forall m :: 0 <= m < |p.bCentres| ==> p.bCentres[m] == 60.0 * (m as real) + 60.0
  {
    var c := StraightCounts(len);
    Placement(c, StraightRest(len), 0.0, Centres(c.a, 40.0 / 2.0 + 10.0), Centres(c.b, 20.0 / 2.0 + 50.0))
  }

  /**
    The straight wall's modules tile [10, L - 10 - rest] with no gap: the last
    module (a B when the counts are equal, an A otherwise) ends exactly where the
    rest filler of NarrowPartBuilder.GetMiddleConnectorRest begins.
   */
  lemma StraightModulesReachRest(len: real)
    requires len >= 60.0
    ensures var p := StraightPlacement(len);
      var last := if p.counts.b == p.counts.a
        then p.bCentres[|p.bCentres| - 1] + 10.0
        else p.aCentres[|p.aCentres| - 1] + 20.0;
      last == len - 10.0 - p.rest
  {
    var p := StraightPlacement(len);
    var c := p.counts;
    assert c.a >= 1;
    assert |p.aCentres| == c.a;
    if c.b == c.a {
      assert |p.bCentres| == c.b;
    }
  }

  // ---------------------------------------------------------------------------
  // Older side builder (IrregularSidePartBuilder.GetShapes)

  /** The side builder's counts: A is floor((L + 10) / 60), B is floor((L - 40) / 60), with no decrement. */
  function SideCounts(len: real): (c: Counts)
    ensures 60.0 * (c.a as real) <= len + 10.0 < 60.0 * (c.a as real) + 60.0
    ensures c.b == c.a - 1 || c.b == c.a
    ensures c.b == c.a <==> len >= 60.0 * (c.a as real) + 40.0
  {
    Counts(((len + 40.0 / 2.0 - 10.0) / 60.0).Floor, ((len - 40.0 + 20.0 / 2.0 - 10.0) / 60.0).Floor)
  }

  /** The side builder's placement: rest split in two, A at 60m + 20 + offset, B at 60m + 50 + offset. */
  function SidePlacement(len: real): (p: Placement)
    ensures p.counts == SideCounts(len)
    ensures p.offset * 2.0 == p.rest
    ensures len >= 0.0 ==> p.rest >= 0.0
    ensures |p.bCentres| <= |p.aCentres|
    ensures forall m :: 0 <= m < |p.bCentres| ==> p.bCentres[m] == p.aCentres[m] + 30.0
    ensures |p.aCentres| == Iterations(p.counts.a) && |p.bCentres| == Iterations(p.counts.b)
    ensures forall m :: 0 <= m < |p.aCentres| ==> p.aCentres[m] == 60.0 * (m as real) + 20.0 + p.offset
    ensures forall m :: 0 <= m < |p.bCentres| ==> p.bCentres[m] == 60.0 * (m as real) + 50.0 + p.offset
  {
    var c := SideCounts(len);
    var rest := RestOfSpace(len, c);
    var offset := rest * 0.5;
    Placement(c, rest, offset, Centres(c.a, 40.0 / 2.0 + offset), Centres(c.b, 20.0 / 2.0 + 40.0 + offset))
  }

  /**
    The side builder's layout is centred: the far edge of the last module (a B
    when the counts are equal, an A otherwise) leaves the same slack as the first.
   */
  lemma SideLayoutCentred(len: real)
    requires len >= 50.0
    ensures var p := SidePlacement(len);
      var last := if p.counts.b == p.counts.a
        then p.bCentres[|p.bCentres| - 1] + 10.0
        else p.aCentres[|p.aCentres| - 1] + 20.0;
      && p.aCentres[0] - 20.0 == p.offset
      && last + p.offset == len
  {
    var p := SidePlacement(len);
    var c := p.counts;
    assert c.a >= 1;
    assert |p.aCentres| == c.a;
    if c.b == c.a {
      assert |p.bCentres| == c.b;
    }
  }
}
