/**
  The older side-part builder (IrregularSidePartBuilder.GetShapes).

  For every guide segment it lays the connector modules along the segment's
  axis of symmetry, caps the two ends of the polyline, and draws short lines
  from the contour points towards the first and last modules so that the
  joined outline is closed.  The contour points and the axes are those of
  GuideLines (GetContourPoints repeats SetContourPoints without the signs).
 */
module SideBuilder {
  import opened Kernel
  import opened Layout
  import opened GuideLines
  import opened Corners
  import opened Splitter

  /** What one segment contributes: the modules, a cap, and the corner lines. */
  datatype Pieces = Pieces(connectors: seq<Curve>, holes: seq<Curve>, cap: seq<Curve>,
                           startLines: seq<Line>, endLines: seq<Line>)

  // ---------------------------------------------------------------------------
  // Modules along the axis

  /** The point of the axis at distance `centre` from its start. */
  function AxisPoint(axis: Line, centre: real, freeSpace: real): Point
    requires freeSpace > 0.0
  {
    axis.PointAt(centre / freeSpace)
  }

  /**
    The modules of one segment (IrregularSidePartBuilder.cs:48-74): the counts
    and the centres of the undecremented side layout over the free space
    between the two ends of the axis.  Each A centre gives the two halves of an
    A connector, each B centre the two lines of a B connector and three holes.
   */
  function ModulePieces(k: Kernel, axis: Line, rotation: real): (r: (seq<Curve>, seq<Curve>))
    ensures Length(k, axis) == 0.0 ==> r == ([], [])
    ensures SideCounts(Length(k, axis)).b <= 0 ==> r.1 == []
  {
    var freeSpace := Length(k, axis);
    var p := SidePlacement(freeSpace);
    SideLayoutFits(freeSpace);
    var atA := seq(|p.aCentres|, m requires 0 <= m < |p.aCentres| => AxisPoint(axis, p.aCentres[m], freeSpace));
    var atB := seq(|p.bCentres|, m requires 0 <= m < |p.bCentres| => AxisPoint(axis, p.bCentres[m], freeSpace));
    var connectorsA := seq(|atA|, m requires 0 <= m < |atA| => k.many(SideConnectorA(atA[m].x, atA[m].y, rotation)));
    var connectorsB := seq(|atB|, m requires 0 <= m < |atB| => k.many(SideConnectorB(atB[m].x, atB[m].y, rotation)));
    var holes := seq(|atB|, m requires 0 <= m < |atB| => k.many(SideMiddleHoles(atB[m].x, atB[m].y, rotation)));
    assert freeSpace == 0.0 ==> Flatten(connectorsA) + Flatten(connectorsB) == [] && Flatten(holes) == [] by {
      if freeSpace == 0.0 {
        assert connectorsA == [] && connectorsB == [] && holes == [];
      }
    }
    (Flatten(connectorsA) + Flatten(connectorsB), Flatten(holes))
  }

  /**
    No module is laid on an axis of zero length, so the division by the free
    space that places a module never divides by zero.
   */
  lemma SideLayoutFits(freeSpace: NonNeg)
    ensures var p := SidePlacement(freeSpace);
      freeSpace == 0.0 ==> |p.aCentres| == 0 && |p.bCentres| == 0
  {
  }

  // ---------------------------------------------------------------------------
  // Segments and the whole outline

  /**
    Segment i's contribution (IrregularSidePartBuilder.cs:16-133).  The cap and
    the corner lines follow the position of the segment in the guide.
   */
  function SegmentPieces(k: Kernel, g: seq<Line>, cps: seq<Point>, i: int): (r: Pieces)
    requires |cps| == 2 * |g| + 2 && 0 <= i < |g|
    ensures |r.cap| == (if CapOf(i, |g|) == NoCap then 0 else 1)
    ensures |r.startLines| + |r.endLines| == CornerLineCount(i, |g|)
  {
    var guideLine := g[i];
    var axis := AxisAt(k, guideLine, cps[i], cps[i + 1]);
    var modules := ModulePieces(k, axis.line, axis.rotation);
    var p := SidePlacement(Length(k, axis.line));
    var unitDirection := Unitize(k, guideLine.Direction());
    var shift := unitDirection.Scale(p.offset);
    var maxStart := unitDirection.Scale(axis.offsetAtStart).Scale(2.0);
    var maxEnd := unitDirection.Scale(axis.offsetAtEnd).Scale(2.0);
    var cap := CapCurve(k, guideLine, CapOf(i, |g|), p.offset, axis.rotation);
    Pieces(modules.0, modules.1, cap, StartLines(k, g, cps, i, shift, maxStart), EndLines(k, g, cps, i, shift, maxEnd))
  }

  /** The end connector of a cap: at the start point facing along the segment, or at the end point turned round. */
  function CapCurve(k: Kernel, guideLine: Line, cap: Cap, offset: real, rotation: real): (r: seq<Curve>)
    ensures |r| == (if cap == NoCap then 0 else 1)
  {
    match cap
    case StartCap =>
      var at := guideLine.PointAt(0.0);
      [k.one(SideEndConnector(at.x, at.y, offset - 10.0, offset - 10.0, rotation))]
    case EndCap =>
      var at := guideLine.PointAt(1.0);
      [k.one(SideEndConnector(at.x, at.y, offset - 10.0, offset - 10.0, Pi + rotation))]
    case NoCap => []
  }

  /**
    The curves of a segment that are joined into the outline, in the order they
    are added: its module connectors, its cap, then one curve per corner line.
   */
  function ToConnect(k: Kernel, p: Pieces): (r: seq<Curve>)
    ensures |r| == |p.connectors| + |p.cap| + |p.startLines| + |p.endLines|
    ensures r[..|p.connectors|] == p.connectors
    ensures r[|p.connectors|..|p.connectors| + |p.cap|] == p.cap
  {
    p.connectors + p.cap + Curves(k, p.startLines) + Curves(k, p.endLines)
  }

  /** The pieces of every segment of the guide, in segment order. */
  function Segments(k: Kernel, g: seq<Line>): (ps: seq<Pieces>)
    requires |g| >= 1
    ensures |ps| == |g|
    ensures forall i :: 0 <= i < |g| ==> ps[i] == SegmentPieces(k, g, ContourPoints(k, g), i)
  {
    var cps := ContourPoints(k, g);
    seq(|g|, i requires 0 <= i < |g| => SegmentPieces(k, g, cps, i))
  }

  /** The holes of the segments, in segment order. */
  function SegmentHoles(ps: seq<Pieces>): seq<Curve> {
    if ps == [] then [] else SegmentHoles(ps[..|ps| - 1]) + ps[|ps| - 1].holes
  }

  /** The curves the segments hand to the join, in segment order. */
  function SegmentCurves(k: Kernel, ps: seq<Pieces>): seq<Curve> {
    if ps == [] then [] else SegmentCurves(k, ps[..|ps| - 1]) + ToConnect(k, ps[|ps| - 1])
  }

  /** The number of module connector curves of the segments. */
  function ModuleCurves(ps: seq<Pieces>): nat {
    if ps == [] then 0 else ModuleCurves(ps[..|ps| - 1]) + |ps[|ps| - 1].connectors|
  }

  /** The number of cap curves of the segments. */
  function CapCurves(ps: seq<Pieces>): nat {
    if ps == [] then 0 else CapCurves(ps[..|ps| - 1]) + |ps[|ps| - 1].cap|
  }

  /** The number of corner lines of the segments. */
  function CornerCurves(ps: seq<Pieces>): nat {
    if ps == [] then 0 else CornerCurves(ps[..|ps| - 1]) + |ps[|ps| - 1].startLines| + |ps[|ps| - 1].endLines|
  }

  /**
    GetShapes (IrregularSidePartBuilder.cs:9-139): the holes of every segment,
    in segment order, followed by the curves that joining the connectors, caps
    and corner lines of every segment produces.
   */
  function GetShapes(k: Kernel, g: seq<Line>): (r: seq<Curve>)
    requires |g| >= 1
    ensures var ps := Segments(k, g);
      && |r| >= |SegmentHoles(ps)|
      && r[..|SegmentHoles(ps)|] == SegmentHoles(ps)
      && r[|SegmentHoles(ps)|..] == k.joinAll(SegmentCurves(k, ps))
  {
    var ps := Segments(k, g);
    SegmentHoles(ps) + k.joinAll(SegmentCurves(k, ps))
  }

  /**
    The first m segments hand to the join their connectors, one cap curve per
    capped segment and their corner lines, and no other curve.
   */
  lemma {:induction false} SegmentsBefore(k: Kernel, g: seq<Line>, m: nat)
    requires 1 <= |g| && m <= |g|
    ensures var qs := Segments(k, g)[..m];
      && |SegmentCurves(k, qs)| == ModuleCurves(qs) + CapCurves(qs) + CornerCurves(qs)
      && CapCurves(qs) == CapsAmong(|g|, m, StartCap) + CapsAmong(|g|, m, EndCap)
      && CornerCurves(qs) == CornerLinesAmong(|g|, m)
  {
    if m > 0 {
      var ps := Segments(k, g);
      var qs := ps[..m];
      assert qs[..m - 1] == ps[..m - 1];
      assert qs[m - 1] == SegmentPieces(k, g, ContourPoints(k, g), m - 1);
      SegmentsBefore(k, g, m - 1);
    }
  }

  /**
    The outline the side builder joins holds, besides the module connectors,
    one cap curve at each end of the polyline (only the start cap for a single
    segment) and four corner lines per interior joint.
   */
  lemma {:induction false} OutlineCurves(k: Kernel, g: seq<Line>)
    requires |g| >= 1
    ensures var ps := Segments(k, g);
      |SegmentCurves(k, ps)| == ModuleCurves(ps) + (if |g| >= 2 then 2 else 1) + 4 * (|g| - 1)
  {
    var ps := Segments(k, g);
    SegmentsBefore(k, g, |g|);
    assert ps[..|g|] == ps;
    CapsOverGuide(|g|);
    CornerLinesOverGuide(|g|);
  }
}
